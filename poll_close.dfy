/**
 * The `close_poll` block-action handler: when the clicking user is the
 * poll's interactor, read the reactions, tally them, rewrite the message
 * (best effort) and save one row; otherwise do nothing at all.
 */
module PollClose {
  import opened Wrappers
  import opened Slack
  import opened JsObject
  import opened Messages
  import opened Tally
  import Json

  const Datastore := "poll_results"

  /**
   * `undefined`, `{outputs: {}}`, or `{error}`: either the caught `cause`
   * of a failed closure or the datastore's non-ok `error`.
   */
  datatype CloseResult = NoReturn | Outputs | ClosureFailed(cause: Exception) | SaveFailed(error: string)

  datatype Outcome = Outcome(trace: seq<Effect>, result: CloseResult)

  predicate IsError(r: CloseResult) {
    r.ClosureFailed? || r.SaveFailed?
  }

  /** The `error` string of a failed close. */
  function ErrorText(r: CloseResult): string
    requires IsError(r)
  {
    match r
    case ClosureFailed(cause) => "An error was encountered during poll closure: `" + Message(cause) + "`"
    case SaveFailed(error) => "Failed to save a row in datastore: " + error
  }

  /** The row written for a closed poll. */
  function RecordOf(inputs: Inputs, creator: string, uuid: string, results: Dict): Item {
    Item(uuid, creator, inputs.pollQuestion, Json.Stringify(results))
  }

  /**
   * What a matching close does once the tally exists: the `chat.update`
   * call `upd` (a non-ok answer is only logged), then the datastore write
   * `row`, whose answer decides the result.
   */
  function AfterTally(read: seq<Effect>, upd: Effect, update: CallOutcome, row: Effect, put: CallOutcome): Outcome {
    if update.CallThrew? then Outcome(read + [upd], ClosureFailed(Raised(update.message)))
    else Outcome(read + [upd] + UpdateLog(update) + [row] + SaveLog(put), SaveResult(put))
  }

  /** What is logged after `chat.update`: its error, when it answered non-ok. */
  function UpdateLog(update: CallOutcome): seq<Effect> {
    if update.CallNotOk? then [LogError(update.error)] else []
  }

  /** What is logged after the datastore write: the confirmation, when it succeeded. */
  function SaveLog(put: CallOutcome): seq<Effect> {
    if put.CallOk? then [LogRowSaved] else []
  }

  /** The handler's result once the write has been attempted. */
  function SaveResult(put: CallOutcome): CloseResult {
    match put
    case CallThrew(message) => ClosureFailed(Raised(message))
    case CallNotOk(error) => SaveFailed(error)
    case CallOk => Outputs
  }

  /**
   * The handler's effects and result, given what each client call did:
   * `get` for `reactions.get`, `update` for `chat.update`, `put` for
   * `apps.datastore.put`, and the fresh `uuid`.
   */
  function CloseOutcome(inputs: Inputs, body: Body, get: GetOutcome, update: CallOutcome, uuid: string,
                        put: CallOutcome): Outcome
  {
    if inputs.interactivity != Some(body.userId) then Outcome([], NoReturn)
    else if body.message.None? then Outcome([], ClosureFailed(ReadOfUndefined("ts")))
    else
      var ts := body.message.value;
      var read := [GetReactions(inputs.channelId, ts)];
      match get
      case GetThrew(message) => Outcome(read, ClosureFailed(Raised(message)))
      // a non-ok response has no `message`, so the tally's first read of it throws
      case GetNotOk(_) => Outcome(read, ClosureFailed(ReadOfUndefined("reactions")))
      case GotReactions(None) => Outcome(read, ClosureFailed(ReadOfUndefined("forEach")))
      case GotReactions(Some(rs)) =>
        var results := Results(rs);
        AfterTally(read, UpdateMessage(inputs.channelId, ts, ClosedBlocks(inputs, results)), update,
                   PutItem(Datastore, RecordOf(inputs, inputs.interactivity.value, uuid, results)), put)
  }

  method HandleClose(inputs: Inputs, body: Body, get: GetOutcome, update: CallOutcome, uuid: string,
                     put: CallOutcome)
    returns (trace: seq<Effect>, result: CloseResult)
    ensures Outcome(trace, result) == CloseOutcome(inputs, body, get, update, uuid, put)
    ensures inputs.interactivity != Some(body.userId) ==> trace == [] && result == NoReturn
  {
    trace, result := [], NoReturn;
    if inputs.interactivity != Some(body.userId) {
      return;
    }
    if body.message.None? {
      result := ClosureFailed(ReadOfUndefined("ts"));
      return;
    }
    var ts := body.message.value;
    trace := [GetReactions(inputs.channelId, ts)];
    match get {
      case GetThrew(message) =>
        result := ClosureFailed(Raised(message));
      case GetNotOk(_) =>
        result := ClosureFailed(ReadOfUndefined("reactions"));
      case GotReactions(None) =>
        result := ClosureFailed(ReadOfUndefined("forEach"));
      case GotReactions(Some(rs)) =>
        var results := TallyReactions(rs);
        var upd := UpdateMessage(inputs.channelId, ts, ClosedBlocks(inputs, results));
        var row := PutItem(Datastore, RecordOf(inputs, inputs.interactivity.value, uuid, results));
        trace, result := FinishClose(trace, upd, update, row, put);
    }
  }

  /** After the tally: `chat.update` with the closed message, then the datastore write. */
  method FinishClose(read: seq<Effect>, upd: Effect, update: CallOutcome, row: Effect, put: CallOutcome)
    returns (trace: seq<Effect>, result: CloseResult)
    ensures Outcome(trace, result) == AfterTally(read, upd, update, row, put)
  {
    trace := read + [upd];
    if update.CallThrew? {
      result := ClosureFailed(Raised(update.message));
      return;
    }
    if update.CallNotOk? {
      trace := trace + [LogError(update.error)];
    }
    trace := trace + [row];
    match put {
      case CallThrew(message) =>
        result := ClosureFailed(Raised(message));
      case CallNotOk(error) =>
        result := SaveFailed(error);
      case CallOk =>
        trace := trace + [LogRowSaved];
        result := Outputs;
    }
  }

  /** The text an option's closed line shows for marker `m` of snapshot `rs`. */
  function VotesShown(rs: seq<Reaction>, m: string): string {
    match LastCount(rs, m)
    case Some(count) => Decimal.IntToString(count - 1)
    case None => "undefined"
  }

  /**
   * The closed message is four sections: the banner quoting the question,
   * then, for options one, two and three in order, the option's marker and
   * text followed by its last raw count minus one, or `undefined` when the
   * marker is not in the snapshot. The close button is gone.
   */
  lemma ClosedMessageShowsVotes(inputs: Inputs, rs: seq<Reaction>)
    ensures |ClosedBlocks(inputs, Results(rs))| == 4
    ensures forall i :: 0 <= i < 4 ==> ClosedBlocks(inputs, Results(rs))[i].Section?
    ensures ClosedBlocks(inputs, Results(rs))[0] == Section(Markdown(
              ":tada: Poll closed! The people have spoken. When it comes to *\"" + inputs.pollQuestion + "\"*:"))
    ensures forall k :: 0 <= k < 3 ==>
              ClosedBlocks(inputs, Results(rs))[k + 1] ==
                Section(PlainText(":" + SeedMarkers[k] + ":  " + OptionsOf(inputs)[k]
                                  + " - " + VotesShown(rs, SeedMarkers[k]) + " vote(s)", Some(true)))
  {
    forall k | 0 <= k < 3
      ensures ClosedBlocks(inputs, Results(rs))[k + 1] ==
                Section(PlainText(":" + SeedMarkers[k] + ":  " + OptionsOf(inputs)[k]
                                  + " - " + VotesShown(rs, SeedMarkers[k]) + " vote(s)", Some(true)))
    {
      ClosedLine(inputs, rs, k);
    }
  }

  lemma ClosedLine(inputs: Inputs, rs: seq<Reaction>, k: nat)
    requires k < 3
    ensures ClosedBlocks(inputs, Results(rs))[k + 1] ==
              Section(PlainText(":" + SeedMarkers[k] + ":  " + OptionsOf(inputs)[k]
                                + " - " + VotesShown(rs, SeedMarkers[k]) + " vote(s)", Some(true)))
  {
    var m, option := SeedMarkers[k], OptionsOf(inputs)[k];
    assert ClosedBlocks(inputs, Results(rs))[k + 1] == ClosedOptionBlock(k, option, Results(rs));
    ResultsLookup(rs, m);
    LineText(m, option, VotesShown(rs, m));
  }

  lemma LineText(m: string, option: string, shown: string)
    ensures Emoji(m) + "  " + option + (" - " + shown + " vote(s)")
         == ":" + m + ":  " + option + " - " + shown + " vote(s)"
  {
  }

  /**
   * With the matching user, a message `ts` and a usable snapshot, the
   * client calls are, in order, `reactions.get`, `chat.update` and
   * `apps.datastore.put`; only a throwing `chat.update` stops the write,
   * a non-ok one does not.
   */
  lemma CloseCallOrder(inputs: Inputs, body: Body, rs: seq<Reaction>, update: CallOutcome, uuid: string, put: CallOutcome)
    requires inputs.interactivity == Some(body.userId) && body.message.Some?
    ensures var ts := body.message.value;
            Calls(CloseOutcome(inputs, body, GotReactions(Some(rs)), update, uuid, put).trace) ==
              [ GetReactions(inputs.channelId, ts),
                UpdateMessage(inputs.channelId, ts, ClosedBlocks(inputs, Results(rs))) ]
              + if update.CallThrew? then [] else [PutItem(Datastore, RecordOf(inputs, body.userId, uuid, Results(rs)))]
  {
    var ts := body.message.value;
    var read := [GetReactions(inputs.channelId, ts)];
    assert Calls(read) == read by { assert read[1..] == []; }
    var upd := UpdateMessage(inputs.channelId, ts, ClosedBlocks(inputs, Results(rs)));
    var row := PutItem(Datastore, RecordOf(inputs, body.userId, uuid, Results(rs)));
    assert CloseOutcome(inputs, body, GotReactions(Some(rs)), update, uuid, put)
        == AfterTally(read, upd, update, row, put);
    AfterTallyCalls(read, upd, update, row, put);
  }

  /**
   * With the matching user and a message `ts`, a `reactions.get` that
   * throws, answers non-ok, or returns a message without `reactions` is
   * the only call made, and the handler reports a closure error.
   */
  lemma CloseUnusableSnapshot(inputs: Inputs, body: Body, get: GetOutcome, update: CallOutcome, uuid: string, put: CallOutcome)
    requires inputs.interactivity == Some(body.userId) && body.message.Some?
    requires !(get.GotReactions? && get.reactions.Some?)
    ensures Calls(CloseOutcome(inputs, body, get, update, uuid, put).trace) == [GetReactions(inputs.channelId, body.message.value)]
    ensures IsError(CloseOutcome(inputs, body, get, update, uuid, put).result)
    ensures CloseOutcome(inputs, body, get, update, uuid, put).result ==
              match get
              case GetThrew(message) => ClosureFailed(Raised(message))
              case GetNotOk(_) => ClosureFailed(ReadOfUndefined("reactions"))
              case GotReactions(_) => ClosureFailed(ReadOfUndefined("forEach"))
  {
    var read := [GetReactions(inputs.channelId, body.message.value)];
    assert Calls(read) == read by { assert read[1..] == []; }
  }

  lemma CallsOfOne(e: Effect)
    ensures Calls([e]) == if IsCall(e) then [e] else []
  {
    assert [e][1..] == [];
  }

  lemma AfterTallyCalls(read: seq<Effect>, upd: Effect, update: CallOutcome, row: Effect, put: CallOutcome)
    requires IsCall(upd) && IsCall(row)
    ensures Calls(AfterTally(read, upd, update, row, put).trace) ==
              Calls(read) + [upd] + if update.CallThrew? then [] else [row]
  {
    var updated := read + [upd];
    CallsOfOne(upd);
    CallsAppend(read, [upd]);
    if !update.CallThrew? {
      var logs, info := UpdateLog(update), SaveLog(put);
      LogsCalls(update, put);
      var logged := updated + logs;
      CallsAppend(updated, logs);
      var saved := logged + [row];
      CallsOfOne(row);
      CallsAppend(logged, [row]);
      CallsAppend(saved, info);
      assert AfterTally(read, upd, update, row, put).trace == saved + info;
    }
  }

  lemma LogsCalls(update: CallOutcome, put: CallOutcome)
    ensures Calls(UpdateLog(update)) == [] && Calls(SaveLog(put)) == []
  {
    if update.CallNotOk? {
      CallsOfOne(LogError(update.error));
    }
    if put.CallOk? {
      CallsOfOne(LogRowSaved);
    }
  }

  /**
   * With the matching user and a usable snapshot, and unless `chat.update`
   * throws: one row is written, whose id is the fresh uuid, whose creator
   * is the interactor, whose question is the poll's, and whose responses
   * parse back to the tally; and the result depends on the write alone.
   */
  lemma CloseSavesRecord(inputs: Inputs, body: Body, rs: seq<Reaction>, update: CallOutcome, uuid: string, put: CallOutcome)
    requires inputs.interactivity == Some(body.userId) && body.message.Some?
    requires !update.CallThrew?
    ensures var o := CloseOutcome(inputs, body, GotReactions(Some(rs)), update, uuid, put);
            exists i :: 0 <= i < |o.trace| && o.trace[i].PutItem? &&
              o.trace[i].datastore == "poll_results" &&
              o.trace[i].item.id == uuid &&
              o.trace[i].item.creator == body.userId &&
              o.trace[i].item.question == inputs.pollQuestion &&
              Json.Parse(o.trace[i].item.responses) == Some(Results(rs))
    ensures CloseOutcome(inputs, body, GotReactions(Some(rs)), update, uuid, put).result ==
              match put
              case CallOk => Outputs
              case CallNotOk(error) => SaveFailed(error)
              case CallThrew(message) => ClosureFailed(Raised(message))
  {
    SavedAt(inputs, body, rs, update, uuid, put);
    ResponsesDecode(rs);
  }

  /**
   * A click that carries no message throws reading `ts` before any call:
   * the handler reports the closure error and calls nothing.
   */
  lemma CloseNoMessage(inputs: Inputs, body: Body, get: GetOutcome, update: CallOutcome, uuid: string, put: CallOutcome)
    requires inputs.interactivity == Some(body.userId) && body.message.None?
    ensures CloseOutcome(inputs, body, get, update, uuid, put) == Outcome([], ClosureFailed(ReadOfUndefined("ts")))
  {
  }

  /**
   * A throwing `chat.update` ends the handler with the closure error
   * carrying its message: the read and the update are all that happen,
   * and no row is written.
   */
  lemma CloseUpdateThrew(inputs: Inputs, body: Body, rs: seq<Reaction>, message: string, uuid: string, put: CallOutcome)
    requires inputs.interactivity == Some(body.userId) && body.message.Some?
    ensures var o := CloseOutcome(inputs, body, GotReactions(Some(rs)), CallThrew(message), uuid, put);
            var ts := body.message.value;
            o.trace == [GetReactions(inputs.channelId, ts), UpdateMessage(inputs.channelId, ts, ClosedBlocks(inputs, Results(rs)))] &&
            o.result == ClosureFailed(Raised(message)) &&
            ErrorText(o.result) == "An error was encountered during poll closure: `" + message + "`"
  {
    var ts := body.message.value;
    var read := [GetReactions(inputs.channelId, ts)];
    var upd := UpdateMessage(inputs.channelId, ts, ClosedBlocks(inputs, Results(rs)));
    var row := PutItem(Datastore, RecordOf(inputs, body.userId, uuid, Results(rs)));
    assert CloseOutcome(inputs, body, GotReactions(Some(rs)), CallThrew(message), uuid, put)
        == AfterTally(read, upd, CallThrew(message), row, put);
  }

  /**
   * A non-ok `chat.update` is logged with its error right after the update,
   * and the handler goes on to the write.
   */
  lemma CloseUpdateNotOkLogged(inputs: Inputs, body: Body, rs: seq<Reaction>, error: string, uuid: string, put: CallOutcome)
    requires inputs.interactivity == Some(body.userId) && body.message.Some?
    ensures var o := CloseOutcome(inputs, body, GotReactions(Some(rs)), CallNotOk(error), uuid, put);
            |o.trace| > 3 && o.trace[2] == LogError(error) && o.trace[3].PutItem?
  {
    var ts := body.message.value;
    var read := [GetReactions(inputs.channelId, ts)];
    var upd := UpdateMessage(inputs.channelId, ts, ClosedBlocks(inputs, Results(rs)));
    var row := PutItem(Datastore, RecordOf(inputs, body.userId, uuid, Results(rs)));
    assert CloseOutcome(inputs, body, GotReactions(Some(rs)), CallNotOk(error), uuid, put)
        == AfterTally(read, upd, CallNotOk(error), row, put);
  }

  /**
   * Any other user's click, and a click when the function got no
   * interactivity, calls nothing, writes nothing, and returns nothing.
   */
  lemma CloseByOtherUser(inputs: Inputs, body: Body, get: GetOutcome, update: CallOutcome, uuid: string, put: CallOutcome)
    requires inputs.interactivity != Some(body.userId)
    ensures CloseOutcome(inputs, body, get, update, uuid, put) == Outcome([], NoReturn)
  {
  }

  /**
   * Nothing marks a poll closed: a second click by its creator reads and
   * tallies the reactions again and writes a second row, under a new uuid.
   */
  lemma CloseTwiceSavesTwice(inputs: Inputs, body: Body, rs: seq<Reaction>, uuid1: string, uuid2: string)
    requires inputs.interactivity == Some(body.userId) && body.message.Some?
    ensures var first := CloseOutcome(inputs, body, GotReactions(Some(rs)), CallOk, uuid1, CallOk);
            var second := CloseOutcome(inputs, body, GotReactions(Some(rs)), CallOk, uuid2, CallOk);
            first.result == Outputs && second.result == Outputs &&
            first.trace[2] == PutItem(Datastore, RecordOf(inputs, body.userId, uuid1, Results(rs))) &&
            second.trace[2] == PutItem(Datastore, RecordOf(inputs, body.userId, uuid2, Results(rs)))
  {
    SavedAt(inputs, body, rs, CallOk, uuid1, CallOk);
    SavedAt(inputs, body, rs, CallOk, uuid2, CallOk);
  }

  /** Where the row lands in the trace of a close that gets past `chat.update`. */
  lemma SavedAt(inputs: Inputs, body: Body, rs: seq<Reaction>, update: CallOutcome, uuid: string, put: CallOutcome)
    requires inputs.interactivity == Some(body.userId) && body.message.Some?
    requires !update.CallThrew?
    ensures var o := CloseOutcome(inputs, body, GotReactions(Some(rs)), update, uuid, put);
            var at := 2 + |UpdateLog(update)|;
            at < |o.trace| && o.trace[at] == PutItem(Datastore, RecordOf(inputs, body.userId, uuid, Results(rs))) &&
            o.result == SaveResult(put)
  {
    var ts := body.message.value;
    var read := [GetReactions(inputs.channelId, ts)];
    var upd := UpdateMessage(inputs.channelId, ts, ClosedBlocks(inputs, Results(rs)));
    var row := PutItem(Datastore, RecordOf(inputs, body.userId, uuid, Results(rs)));
    assert CloseOutcome(inputs, body, GotReactions(Some(rs)), update, uuid, put)
        == AfterTally(read, upd, update, row, put);
  }
  /** A successful write is confirmed in the log as the last effect, and the handler returns `{outputs: {}}`. */
  lemma CloseSuccessLogged(inputs: Inputs, body: Body, rs: seq<Reaction>, update: CallOutcome, uuid: string)
    requires inputs.interactivity == Some(body.userId) && body.message.Some?
    requires !update.CallThrew?
    ensures var o := CloseOutcome(inputs, body, GotReactions(Some(rs)), update, uuid, CallOk);
            |o.trace| > 0 && o.trace[|o.trace| - 1] == LogRowSaved && o.result == Outputs
  {
    var ts := body.message.value;
    var read := [GetReactions(inputs.channelId, ts)];
    var upd := UpdateMessage(inputs.channelId, ts, ClosedBlocks(inputs, Results(rs)));
    var row := PutItem(Datastore, RecordOf(inputs, body.userId, uuid, Results(rs)));
    assert CloseOutcome(inputs, body, GotReactions(Some(rs)), update, uuid, CallOk)
        == AfterTally(read, upd, update, row, CallOk);
  }
}
