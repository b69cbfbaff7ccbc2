/**
 * The open callback: post the poll, seed one reaction per option marker
 * (each attempt isolated from the others' failures), and leave the
 * function incomplete so that the close button stays live.
 */
module PollOpen {
  import opened Slack
  import opened Messages

  /** `{completed: false}`, or `{error}` when posting threw `cause`. */
  datatype OpenResult = NotCompleted | GenerationFailed(cause: Exception)

  /** The `error` string of a failed generation. */
  function ErrorText(r: OpenResult): string
    requires r.GenerationFailed?
  {
    "An error was encountered during poll generation: `" + Message(r.cause) + "`"
  }

  /** What the body of the seeding loop does for marker `name`. */
  function SeedStep(post: PostOutcome, adds: string -> CallOutcome, name: string): seq<Effect> {
    match post
    case Posted(channel, ts) =>
      [AddReaction(channel, ts, name)] +
      (match adds(name)
       case CallOk => []
       case CallNotOk(error) => [LogError(error)]
       case CallThrew(message) => [LogError(message)])
    // a non-ok response has no `message`: reading its `ts` throws inside the try
    case PostNotOk(_) => [LogError(Message(ReadOfUndefined("ts")))]
    case PostThrew(_) => []
  }

  function SeedTrace(post: PostOutcome, adds: string -> CallOutcome, names: seq<string>): seq<Effect> {
    if names == [] then []
    else SeedTrace(post, adds, names[..|names| - 1]) + SeedStep(post, adds, names[|names| - 1])
  }

  /** The effects of the open callback, given the outcome of each client call. */
  function OpenEffects(inputs: Inputs, post: PostOutcome, adds: string -> CallOutcome): seq<Effect> {
    [PostMessage(inputs.channelId, PollBlocks(inputs))]
    + if post.PostThrew? then [] else SeedTrace(post, adds, SeedMarkers)
  }

  function OpenResultOf(post: PostOutcome): OpenResult {
    if post.PostThrew? then GenerationFailed(Raised(post.message)) else NotCompleted
  }

  /**
   * The open callback. `post` is what `chat.postMessage` did and `adds(m)`
   * what `reactions.add` did for marker `m`.
   */
  method Open(inputs: Inputs, post: PostOutcome, adds: string -> CallOutcome)
    returns (trace: seq<Effect>, result: OpenResult)
    ensures trace == OpenEffects(inputs, post, adds)
    ensures result == OpenResultOf(post)
  {
    trace := [PostMessage(inputs.channelId, PollBlocks(inputs))];
    if post.PostThrew? {
      result := GenerationFailed(Raised(post.message));
      return;
    }
    var seeding: seq<Effect> := [];
    var i := 0;
    while i < |SeedMarkers|
      invariant 0 <= i <= |SeedMarkers|
      invariant seeding == SeedTrace(post, adds, SeedMarkers[..i])
    {
      var reacji := SeedMarkers[i];
      var step: seq<Effect>;
      if post.Posted? {
        step := [AddReaction(post.channel, post.ts, reacji)];
        match adds(reacji) {
          case CallOk =>
          case CallNotOk(error) => step := step + [LogError(error)];
          case CallThrew(message) => step := step + [LogError(message)];
        }
      } else {
        step := [LogError(Message(ReadOfUndefined("ts")))];
      }
      assert SeedMarkers[..i + 1][..i] == SeedMarkers[..i];
      seeding := seeding + step;
      i := i + 1;
    }
    assert SeedMarkers[..|SeedMarkers|] == SeedMarkers;
    trace := trace + seeding;
    result := NotCompleted;
  }

  /** The reactions the seeding loop attempts on a posted message: one per name, in order. */
  function Attempts(channel: string, ts: string, names: seq<string>): seq<Effect> {
    seq(|names|, i requires 0 <= i < |names| => AddReaction(channel, ts, names[i]))
  }

  lemma AttemptsSnoc(channel: string, ts: string, names: seq<string>)
    requires names != []
    ensures Attempts(channel, ts, names) ==
              Attempts(channel, ts, names[..|names| - 1]) + [AddReaction(channel, ts, names[|names| - 1])]
  {
  }

  /**
   * One seeding attempt makes at most the one `reactions.add` call. A
   * non-ok or throwing `reactions.add` is logged and nothing more; without
   * a posted message the TypeError reading `ts` is logged instead.
   */
  lemma StepCalls(post: PostOutcome, adds: string -> CallOutcome, name: string)
    ensures Calls(SeedStep(post, adds, name)) ==
              if post.Posted? then [AddReaction(post.channel, post.ts, name)] else []
    ensures post.Posted? ==>
              SeedStep(post, adds, name) ==
                [AddReaction(post.channel, post.ts, name)] +
                match adds(name)
                case CallOk => []
                case CallNotOk(error) => [LogError(error)]
                case CallThrew(message) => [LogError(message)]
    ensures post.PostNotOk? ==> SeedStep(post, adds, name) == [LogError(Message(ReadOfUndefined("ts")))]
    ensures post.PostThrew? ==> SeedStep(post, adds, name) == []
  {
    var step := SeedStep(post, adds, name);
    if post.Posted? {
      CallsAppend([AddReaction(post.channel, post.ts, name)], step[1..]);
      assert step == [AddReaction(post.channel, post.ts, name)] + step[1..];
    }
  }

  lemma {:induction false} SeedCalls(post: PostOutcome, adds: string -> CallOutcome, names: seq<string>)
    ensures post.Posted? ==> Calls(SeedTrace(post, adds, names)) == Attempts(post.channel, post.ts, names)
    ensures !post.Posted? ==> Calls(SeedTrace(post, adds, names)) == []
    decreases |names|
  {
    if names != [] {
      var init := names[..|names| - 1];
      var last := names[|names| - 1];
      SeedCalls(post, adds, init);
      StepCalls(post, adds, last);
      CallsAppend(SeedTrace(post, adds, init), SeedStep(post, adds, last));
      if post.Posted? {
        AttemptsSnoc(post.channel, post.ts, names);
      }
    }
  }

  /**
   * Once the poll is posted, `reactions.add` is attempted for one, two and
   * three, in that order, on the posted message, however each attempt ends;
   * and the function stays incomplete.
   */
  lemma OpenSeedsEveryMarker(inputs: Inputs, post: PostOutcome, adds: string -> CallOutcome)
    requires post.Posted?
    ensures Calls(OpenEffects(inputs, post, adds)) ==
              [ PostMessage(inputs.channelId, PollBlocks(inputs)),
                AddReaction(post.channel, post.ts, "one"),
                AddReaction(post.channel, post.ts, "two"),
                AddReaction(post.channel, post.ts, "three") ]
    ensures OpenResultOf(post) == NotCompleted
  {
    SeedCalls(post, adds, SeedMarkers);
    CallsAppend([PostMessage(inputs.channelId, PollBlocks(inputs))], SeedTrace(post, adds, SeedMarkers));
  }

  /** A throwing `chat.postMessage` ends the callback with an error and no reaction attempted. */
  lemma OpenPostThrew(inputs: Inputs, post: PostOutcome, adds: string -> CallOutcome)
    requires post.PostThrew?
    ensures Calls(OpenEffects(inputs, post, adds)) == [PostMessage(inputs.channelId, PollBlocks(inputs))]
    ensures OpenResultOf(post).GenerationFailed?
    ensures ErrorText(OpenResultOf(post)) == "An error was encountered during poll generation: `" + post.message + "`"
  {
    assert OpenEffects(inputs, post, adds) == [PostMessage(inputs.channelId, PollBlocks(inputs))];
  }

  /**
   * A non-ok `chat.postMessage` response is not reported: no reaction is
   * attempted, three TypeErrors are logged and the function stays incomplete.
   */
  lemma OpenPostNotOk(inputs: Inputs, post: PostOutcome, adds: string -> CallOutcome)
    requires post.PostNotOk?
    ensures Calls(OpenEffects(inputs, post, adds)) == [PostMessage(inputs.channelId, PollBlocks(inputs))]
    ensures OpenEffects(inputs, post, adds)[1..] == seq(3, _ => LogError(Message(ReadOfUndefined("ts"))))
    ensures OpenResultOf(post) == NotCompleted
  {
    SeedCalls(post, adds, SeedMarkers);
    CallsAppend([PostMessage(inputs.channelId, PollBlocks(inputs))], SeedTrace(post, adds, SeedMarkers));
    FailedSeeding(post, adds, SeedMarkers);
  }

  /** Without a posted message every marker's attempt logs the same TypeError. */
  lemma {:induction false} FailedSeeding(post: PostOutcome, adds: string -> CallOutcome, names: seq<string>)
    requires post.PostNotOk?
    ensures SeedTrace(post, adds, names) == seq(|names|, _ => LogError(Message(ReadOfUndefined("ts"))))
    decreases |names|
  {
    if names != [] {
      FailedSeeding(post, adds, names[..|names| - 1]);
    }
  }
}
