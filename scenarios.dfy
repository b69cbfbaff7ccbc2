/** Concrete runs of the poll: the lunch poll, a zero count, a failed write. */
module Scenarios {
  import opened Wrappers
  import opened Slack
  import opened Messages
  import opened Tally
  import opened PollClose
  import PollOpen
  import Json

  const Lunch := Inputs(Some("U1"), "C1", "Lunch?", "Pizza", "Sushi", "Tacos")
  const Snapshot := [Reaction("one", 3), Reaction("two", 2), Reaction("three", 1)]

  lemma SmallVotes()
    ensures Votes(0) == "-1" && Votes(1) == "0" && Votes(2) == "1" && Votes(3) == "2"
  {
    assert Decimal.DigitChar(0) == '0' && Decimal.DigitChar(1) == '1' && Decimal.DigitChar(2) == '2';
  }

  lemma LunchCounts()
    ensures LastCount(Snapshot, "three") == Some(1)
    ensures LastCount(Snapshot, "two") == Some(2)
    ensures LastCount(Snapshot, "one") == Some(3)
  {
    assert Snapshot[..2] == [Reaction("one", 3), Reaction("two", 2)];
    assert Snapshot[..2][..1] == [Reaction("one", 3)];
    assert Snapshot[..2][..1][..0] == [];
  }

  /** U2 cannot close U1's poll: nothing is called and nothing returned. */
  lemma LunchOtherUser()
    ensures CloseOutcome(Lunch, Body("U2", Some("T1")), GotReactions(Some(Snapshot)), CallOk, "id-1", CallOk)
            == Outcome([], NoReturn)
  {
  }

  /** When U1 closes the lunch poll with raw counts 3, 2, 1 the tally is 2, 1, 0. */
  lemma LunchTally()
    ensures Results(Snapshot) == [("three", "0"), ("two", "1"), ("one", "2")]
  {
    LunchCounts();
    SmallVotes();
    ResultsInOrder(Snapshot);
  }

  /** That tally is stored as `{"three":"0","two":"1","one":"2"}`. */
  lemma LunchResponses()
    ensures Json.Stringify([("three", "0"), ("two", "1"), ("one", "2")]) ==
              "{" + "\"three\":\"0\"" + "," + "\"two\":\"1\"" + "," + "\"one\":\"2\"" + "}"
  {
    StringifyThree(("three", "0"), ("two", "1"), ("one", "2"));
    assert Json.Member(("three", "0")) == "\"three\":\"0\"";
    assert Json.Member(("two", "1")) == "\"two\":\"1\"";
    assert Json.Member(("one", "2")) == "\"one\":\"2\"";
  }

  lemma StringifyThree(a: (string, string), b: (string, string), c: (string, string))
    ensures Json.Stringify([a, b, c]) == "{" + Json.Member(a) + "," + Json.Member(b) + "," + Json.Member(c) + "}"
  {
    var d := [a, b, c];
    assert d[1..] == [b, c] && d[1..][1..] == [c];
    assert Json.Members([c]) == Json.Member(c);
    assert Json.Members([b, c]) == Json.Member(b) + "," + Json.Member(c);
  }

  /**
   * ... and, by `ClosedMessageShowsVotes`, the closed lines of options one,
   * two and three end in "2 vote(s)", "1 vote(s)" and "0 vote(s)".
   */
  lemma LunchVotesShown()
    ensures VotesShown(Snapshot, "one") == "2"
    ensures VotesShown(Snapshot, "two") == "1"
    ensures VotesShown(Snapshot, "three") == "0"
  {
    LunchCounts();
    SmallVotes();
  }

  lemma ZeroCounts()
    ensures LastCount([Reaction("one", 0)], "one") == Some(0)
    ensures LastCount([Reaction("one", 0)], "two") == None
    ensures LastCount([Reaction("one", 0)], "three") == None
  {
    assert [Reaction("one", 0)][..0] == [];
  }

  /** A raw count of 0 is stored as "-1": there is no floor at zero. */
  lemma ZeroCount()
    ensures Results([Reaction("one", 0)]) == [("one", "-1")]
  {
    ZeroCounts();
    SmallVotes();
    ResultsInOrder([Reaction("one", 0)]);
  }

  /** With that snapshot, options two and three show `undefined`. */
  lemma MissingMarkers()
    ensures VotesShown([Reaction("one", 0)], "one") == "-1"
    ensures VotesShown([Reaction("one", 0)], "two") == "undefined"
    ensures VotesShown([Reaction("one", 0)], "three") == "undefined"
  {
    ZeroCounts();
    SmallVotes();
  }

  /**
   * When U1 closes the lunch poll and the datastore answers non-ok with
   * `error`, the handler returns the save error ...
   */
  lemma LunchSaveFails(error: string)
    ensures var o := CloseOutcome(Lunch, Body("U1", Some("T1")), GotReactions(Some(Snapshot)), CallOk, "id-1",
                                  CallNotOk(error));
            o.result == SaveFailed(error) &&
            ErrorText(o.result) == "Failed to save a row in datastore: " + error
  {
    SavedAt(Lunch, Body("U1", Some("T1")), Snapshot, CallOk, "id-1", CallNotOk(error));
  }

  /** ... after the message was updated and the write attempted, in that order. */
  lemma LunchSaveFailsCalls(error: string)
    ensures Calls(CloseOutcome(Lunch, Body("U1", Some("T1")), GotReactions(Some(Snapshot)), CallOk, "id-1",
                               CallNotOk(error)).trace) ==
              [ GetReactions("C1", "T1"),
                UpdateMessage("C1", "T1", ClosedBlocks(Lunch, Results(Snapshot))),
                PutItem("poll_results", Item("id-1", "U1", "Lunch?", Json.Stringify(Results(Snapshot)))) ]
  {
    CloseCallOrder(Lunch, Body("U1", Some("T1")), Snapshot, CallOk, "id-1", CallNotOk(error));
  }
  /** U1's lunch poll is posted as C1/T1 and every seeding call answers ok: the post and three adds, nothing logged. */
  lemma LunchOpen()
    ensures PollOpen.OpenEffects(Lunch, Posted("C1", "T1"), _ => CallOk) ==
              [ PostMessage("C1", PollBlocks(Lunch)),
                AddReaction("C1", "T1", "one"),
                AddReaction("C1", "T1", "two"),
                AddReaction("C1", "T1", "three") ]
    ensures PollOpen.OpenResultOf(Posted("C1", "T1")) == PollOpen.NotCompleted
  {
    var post, adds := Posted("C1", "T1"), (_: string) => CallOk;
    assert PollOpen.SeedStep(post, adds, "one") == [AddReaction("C1", "T1", "one")];
    assert PollOpen.SeedStep(post, adds, "two") == [AddReaction("C1", "T1", "two")];
    assert PollOpen.SeedStep(post, adds, "three") == [AddReaction("C1", "T1", "three")];
    assert SeedMarkers[..2] == ["one", "two"] && SeedMarkers[..2][..1] == ["one"];
    assert PollOpen.SeedTrace(post, adds, ["one"]) == [AddReaction("C1", "T1", "one")];
    assert PollOpen.SeedTrace(post, adds, ["one", "two"]) ==
             [AddReaction("C1", "T1", "one"), AddReaction("C1", "T1", "two")];
  }
}
