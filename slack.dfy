/**
 * The Slack platform as the poll function sees it: the function's inputs,
 * the Block Kit blocks it sends, the client calls it makes (as effects in
 * a trace) and the outcomes those calls can have. The client itself is not
 * modelled: each call's outcome is an input to the handler.
 */
module Slack {
  import opened Wrappers

  datatype Text = Markdown(text: string) | PlainText(text: string, emoji: Option<bool>)

  datatype Element = Button(text: Text, actionId: string)

  datatype Block =
    | Section(text: Text)
    | Divider
    | Actions(blockId: string, elements: seq<Element>)

  /**
   * The function's input parameters, the same for the open callback and
   * the close handler. `interactivity` is the interactor's user id, absent
   * when the workflow passed no interactivity.
   */
  datatype Inputs = Inputs(
    interactivity: Option<string>,
    channelId: string,
    pollQuestion: string,
    option1: string,
    option2: string,
    option3: string)

  /** A block_actions payload: the clicking user and the `ts` of the message, if any. */
  datatype Body = Body(userId: string, message: Option<string>)

  /** One entry of `message.reactions` in a `reactions.get` response. */
  datatype Reaction = Reaction(name: string, count: nat)

  /** A row of the `poll_results` datastore. */
  datatype Item = Item(id: string, creator: string, question: string, responses: string)

  datatype Effect =
    | PostMessage(channel: string, blocks: seq<Block>)
    | AddReaction(channel: string, timestamp: string, name: string)
    | GetReactions(channel: string, timestamp: string)
    | UpdateMessage(channel: string, timestamp: string, blocks: seq<Block>)
    | PutItem(datastore: string, item: Item)
    | LogError(message: string)
    | LogRowSaved

  /** `chat.postMessage`: the posted message's channel and ts, a non-ok response, or a throw. */
  datatype PostOutcome = Posted(channel: string, ts: string) | PostNotOk(error: string) | PostThrew(message: string)

  /**
   * `reactions.get`: an ok response (whose message may lack the
   * `reactions` field), a non-ok response (no `message` at all), or a throw.
   */
  datatype GetOutcome = GotReactions(reactions: Option<seq<Reaction>>) | GetNotOk(error: string) | GetThrew(message: string)

  /** `reactions.add`, `chat.update`, `apps.datastore.put`. */
  datatype CallOutcome = CallOk | CallNotOk(error: string) | CallThrew(message: string)

  /** A client call that reaches the platform. */
  predicate IsCall(e: Effect) {
    !e.LogError? && !e.LogRowSaved?
  }

  /** The trace without its log lines. */
  function Calls(trace: seq<Effect>): (r: seq<Effect>)
    ensures forall i :: 0 <= i < |r| ==> IsCall(r[i])
    ensures |r| <= |trace|
  {
    if trace == [] then []
    else (if IsCall(trace[0]) then [trace[0]] else []) + Calls(trace[1..])
  }

  lemma {:induction false} CallsAppend(s: seq<Effect>, t: seq<Effect>)
    ensures Calls(s + t) == Calls(s) + Calls(t)
  {
    if s == [] {
      assert s + t == t;
    } else {
      assert (s + t)[1..] == s[1..] + t;
      CallsAppend(s[1..], t);
    }
  }

  /**
   * An error the handlers catch: one a client call raised, or the
   * TypeError of reading `property` from `undefined`.
   */
  datatype Exception = Raised(message: string) | ReadOfUndefined(property: string)

  /** The error's `message`, in V8's wording for the TypeError. */
  function Message(e: Exception): string {
    match e
    case Raised(message) => message
    case ReadOfUndefined(property) => "Cannot read properties of undefined (reading '" + property + "')"
  }
}
