/**
 * The two messages the poll function composes: the open poll (question,
 * three marked options, a close button) and the closed poll (question and
 * the per-option tally).
 */
module Messages {
  import opened Wrappers
  import opened Slack
  import opened JsObject

  /** The reaction names that mark options 1, 2 and 3, in option order. */
  const SeedMarkers: seq<string> := ["one", "two", "three"]

  const ActionsBlockId := "actions_block"
  const CloseActionId := "close_poll"
  const CloseButton := Button(PlainText("Close poll", None), CloseActionId)

  /** A template literal's rendering of a value that may be `undefined`. */
  function Show(v: Option<string>): string {
    match v
    case Some(s) => s
    case None => "undefined"
  }

  function Emoji(name: string): string {
    ":" + name + ":"
  }

  function OptionsOf(inputs: Inputs): (r: seq<string>)
    ensures |r| == |SeedMarkers|
  {
    [inputs.option1, inputs.option2, inputs.option3]
  }

  /** The marker of option `k` (counted from 0), two spaces, the option. */
  function OptionLine(k: nat, option: string): string
    requires k < |SeedMarkers|
  {
    Emoji(SeedMarkers[k]) + "  " + option
  }

  function Attribution(interactor: Option<string>): string {
    "<@" + Show(interactor) + "> posed the following question:"
  }

  function Bold(s: string): string {
    "*" + s + "*"
  }

  function OptionBlock(k: nat, option: string): Block
    requires k < |SeedMarkers|
  {
    Section(PlainText(OptionLine(k, option), Some(true)))
  }

  /** The poll as posted: attribution, question, options and the close control. */
  function PollBlocks(inputs: Inputs): seq<Block> {
    var options := OptionsOf(inputs);
    [ Section(Markdown(Attribution(inputs.interactivity))),
      Divider,
      Section(Markdown(Bold(inputs.pollQuestion))),
      OptionBlock(0, options[0]),
      OptionBlock(1, options[1]),
      OptionBlock(2, options[2]),
      Divider,
      Actions(ActionsBlockId, [CloseButton]) ]
  }

  /** What a reader of the posted poll sees: who asked, the question, the options. */
  datatype PollView = PollView(asker: string, question: string, options: seq<string>)

  /** The middle of `s`, when `s` starts with `pre` and then ends with `post`. */
  function Between(pre: string, s: string, post: string): (r: Option<string>)
    ensures r.Some? ==> pre + r.value + post == s
  {
    if |pre| + |post| <= |s| && s[..|pre|] == pre && s[|s| - |post|..] == post then
      var mid := s[|pre|..|s| - |post|];
      assert pre + mid + post == s[..|pre|] + s[|pre|..|s| - |post|] + s[|s| - |post|..];
      Some(mid)
    else None
  }

  lemma BetweenOf(pre: string, mid: string, post: string)
    ensures Between(pre, pre + mid + post, post) == Some(mid)
  {
    var s := pre + mid + post;
    assert s[..|pre|] == pre;
    assert s[|s| - |post|..] == post;
    assert s[|pre|..|s| - |post|] == mid;
  }

  function OptionOf(k: nat, b: Block): Option<string>
    requires k < |SeedMarkers|
  {
    match b
    case Section(PlainText(t, Some(true))) => Between(Emoji(SeedMarkers[k]) + "  ", t, "")
    case _ => None
  }

  function MarkdownOf(b: Block, pre: string, post: string): Option<string> {
    match b
    case Section(Markdown(t)) => Between(pre, t, post)
    case _ => None
  }

  /** Reads a message laid out as a posted poll; None for any other layout. */
  function ReadPoll(blocks: seq<Block>): Option<PollView> {
    if |blocks| != 8 || blocks[1] != Divider || blocks[6] != Divider
       || blocks[7] != Actions(ActionsBlockId, [CloseButton]) then None
    else
      match (MarkdownOf(blocks[0], "<@", "> posed the following question:"),
             MarkdownOf(blocks[2], "*", "*"),
             OptionOf(0, blocks[3]), OptionOf(1, blocks[4]), OptionOf(2, blocks[5]))
      case (Some(who), Some(q), Some(o1), Some(o2), Some(o3)) => Some(PollView(who, q, [o1, o2, o3]))
      case _ => None
  }

  /**
   * The posted poll is eight blocks whose only actions block is the last,
   * holding the close button alone; it carries the asker, the question and
   * the three options in order, each recoverable exactly, whatever text
   * they hold.
   */
  lemma PollBlocksRoundTrip(inputs: Inputs)
    ensures |PollBlocks(inputs)| == 8
    ensures forall i :: 0 <= i < 8 && PollBlocks(inputs)[i].Actions? ==> i == 7
    ensures PollBlocks(inputs)[7] == Actions("actions_block", [Button(PlainText("Close poll", None), "close_poll")])
    ensures ReadPoll(PollBlocks(inputs)) ==
            Some(PollView(Show(inputs.interactivity), inputs.pollQuestion, OptionsOf(inputs)))
  {
    BetweenOf("<@", Show(inputs.interactivity), "> posed the following question:");
    BetweenOf("*", inputs.pollQuestion, "*");
    var options := OptionsOf(inputs);
    forall k | 0 <= k < 3
      ensures OptionOf(k, OptionBlock(k, options[k])) == Some(options[k])
    {
      BetweenOf(Emoji(SeedMarkers[k]) + "  ", options[k], "");
      assert Emoji(SeedMarkers[k]) + "  " + options[k] + "" == OptionLine(k, options[k]);
    }
    assert PollBlocks(inputs)[3] == OptionBlock(0, options[0]);
    assert PollBlocks(inputs)[4] == OptionBlock(1, options[1]);
    assert PollBlocks(inputs)[5] == OptionBlock(2, options[2]);
  }

  function Banner(question: string): string {
    ":tada: Poll closed! The people have spoken. When it comes to *\"" + question + "\"*:"
  }

  function VoteSuffix(votes: Option<string>): string {
    " - " + Show(votes) + " vote(s)"
  }

  /** Option `k`'s line in the closed poll: its marker and text, then its tally entry. */
  function ClosedOptionBlock(k: nat, option: string, results: Dict): Block
    requires k < |SeedMarkers|
  {
    Section(PlainText(OptionLine(k, option) + VoteSuffix(Lookup(results, SeedMarkers[k])), Some(true)))
  }

  /** The closed poll: a banner quoting the question and one line per option. */
  function ClosedBlocks(inputs: Inputs, results: Dict): seq<Block> {
    var options := OptionsOf(inputs);
    [ Section(Markdown(Banner(inputs.pollQuestion))),
      ClosedOptionBlock(0, options[0], results),
      ClosedOptionBlock(1, options[1], results),
      ClosedOptionBlock(2, options[2], results) ]
  }
}
