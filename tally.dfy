/**
 * The tally of a `reactions.get` snapshot: for each marker, in the order
 * three, two, one, the count of the last snapshot entry with that name,
 * less the bot's own seed reaction, as a string. No floor at zero, no
 * default for a marker nobody (not even the bot) reacted with.
 */
module Tally {
  import opened Wrappers
  import opened Decimal
  import opened JsObject
  import opened Slack
  import Json

  /** The order in which the tally visits the markers, and so inserts its keys. */
  const TallyOrder: seq<string> := ["three", "two", "one"]

  /** The count of the last entry of `rs` named `name`, if there is one. */
  function LastCount(rs: seq<Reaction>, name: string): Option<nat> {
    if rs == [] then None
    else if rs[|rs| - 1].name == name then Some(rs[|rs| - 1].count)
    else LastCount(rs[..|rs| - 1], name)
  }

  /** The stored vote count for a raw reaction count. */
  function Votes(count: nat): string {
    IntToString(count - 1)
  }

  /** The property the tally holds for marker `m`, if any. */
  function EntryFor(rs: seq<Reaction>, m: string): Dict {
    match LastCount(rs, m)
    case None => []
    case Some(c) => [(m, Votes(c))]
  }

  function ResultsFor(rs: seq<Reaction>, markers: seq<string>): Dict {
    if markers == [] then []
    else ResultsFor(rs, markers[..|markers| - 1]) + EntryFor(rs, markers[|markers| - 1])
  }

  /** The `results` object the tally builds from snapshot `rs`. */
  function Results(rs: seq<Reaction>): Dict {
    ResultsFor(rs, TallyOrder)
  }

  /**
   * The tally loop: for each marker, walk the whole snapshot and assign
   * `count - 1` to the marker's key at every entry of that name.
   */
  method TallyReactions(rs: seq<Reaction>) returns (results: Dict)
    ensures results == Results(rs)
  {
    results := [];
    var i := 0;
    while i < |TallyOrder|
      invariant 0 <= i <= |TallyOrder|
      invariant results == ResultsFor(rs, TallyOrder[..i])
    {
      var emoji := TallyOrder[i];
      ResultsForKeys(rs, TallyOrder[..i]);
      results := TallyMarker(rs, emoji, results);
      assert TallyOrder[..i + 1][..i] == TallyOrder[..i];
      i := i + 1;
    }
    assert TallyOrder[..|TallyOrder|] == TallyOrder;
  }

  /**
   * The inner loop for one marker: every entry of that name assigns its
   * `count - 1` to the marker's key, which `before` does not hold yet.
   */
  method TallyMarker(rs: seq<Reaction>, emoji: string, before: Dict) returns (results: Dict)
    requires emoji !in Keys(before)
    ensures results == before + EntryFor(rs, emoji)
  {
    results := before;
    var j := 0;
    while j < |rs|
      invariant 0 <= j <= |rs|
      invariant results == before + EntryFor(rs[..j], emoji)
    {
      assert rs[..j + 1][..j] == rs[..j];
      if emoji == rs[j].name {
        match LastCount(rs[..j], emoji) {
          case None =>
            PutNew(before, emoji, Votes(rs[j].count));
          case Some(c) =>
            PutLast(before, emoji, Votes(c), Votes(rs[j].count));
        }
        results := Put(results, emoji, Votes(rs[j].count));
      }
      j := j + 1;
    }
    assert rs[..|rs|] == rs;
  }

  lemma {:induction false} ResultsForKeys(rs: seq<Reaction>, markers: seq<string>)
    ensures forall k :: k in Keys(ResultsFor(rs, markers)) ==> k in markers
    decreases |markers|
  {
    if markers != [] {
      var init := markers[..|markers| - 1];
      ResultsForKeys(rs, init);
      KeysAppend(ResultsFor(rs, init), EntryFor(rs, markers[|markers| - 1]));
      forall k | k in init ensures k in markers {
        var i :| 0 <= i < |init| && init[i] == k;
        assert markers[i] == k;
      }
    }
  }

  /** `LastCount` finds exactly the last entry of that name, and only misses when there is none. */
  lemma {:induction false} LastCountIsLast(rs: seq<Reaction>, name: string)
    ensures LastCount(rs, name).None? <==> forall i :: 0 <= i < |rs| ==> rs[i].name != name
    ensures LastCount(rs, name).Some? ==>
              exists i :: 0 <= i < |rs| && rs[i].name == name && rs[i].count == LastCount(rs, name).value
                          && forall j :: i < j < |rs| ==> rs[j].name != name
    decreases |rs|
  {
    if rs != [] {
      var init := rs[..|rs| - 1];
      LastCountIsLast(init, name);
      if rs[|rs| - 1].name != name {
        forall i | 0 <= i < |init| ensures rs[i] == init[i] { }
        if LastCount(init, name).Some? {
          var i :| 0 <= i < |init| && init[i].name == name && init[i].count == LastCount(init, name).value
                   && forall j :: i < j < |init| ==> init[j].name != name;
          assert rs[i] == init[i];
          assert forall j :: i < j < |rs| ==> rs[j].name != name by {
            forall j | i < j < |rs| ensures rs[j].name != name {
              if j < |init| { assert rs[j] == init[j]; }
            }
          }
        }
      }
    }
  }

  /**
   * What the tally holds under key `k`: for a marker present in the
   * snapshot, its last count minus one (so a count of 0 gives "-1");
   * for an absent marker or any other name, nothing.
   */
  lemma ResultsLookup(rs: seq<Reaction>, k: string)
    ensures Lookup(Results(rs), k) ==
              if k in TallyOrder && LastCount(rs, k).Some? then Some(Votes(LastCount(rs, k).value)) else None
  {
    var e3, e2, e1 := EntryFor(rs, "three"), EntryFor(rs, "two"), EntryFor(rs, "one");
    ResultsInOrder(rs);
    assert Results(rs) == e3 + e2 + e1;
    LookupAppend3(e3, e2, e1, k);
  }

  /** The tally is the entry for three, then for two, then for one. */
  lemma ResultsInOrder(rs: seq<Reaction>)
    ensures Results(rs) == EntryFor(rs, "three") + EntryFor(rs, "two") + EntryFor(rs, "one")
  {
    var s2: seq<string> := ["three", "two"];
    var s1: seq<string> := ["three"];
    assert TallyOrder[..2] == s2;
    assert s2[..1] == s1;
    assert s1[..0] == [];
    assert ResultsFor(rs, s1) == [] + EntryFor(rs, "three");
    assert ResultsFor(rs, s2) == ResultsFor(rs, s1) + EntryFor(rs, "two");
    assert Results(rs) == ResultsFor(rs, s2) + EntryFor(rs, "one");
  }

  lemma LookupAppend3(a: Dict, b: Dict, c: Dict, k: string)
    requires |a| <= 1 && |b| <= 1 && |c| <= 1
    ensures Lookup(a + b + c, k) ==
              if k in Keys(a) then Lookup(a, k) else if k in Keys(b) then Lookup(b, k) else Lookup(c, k)
  {
    LookupAppend(a, b + c, k);
    LookupAppend(b, c, k);
    assert a + b + c == a + (b + c);
  }

  lemma {:induction false} LookupAppend(a: Dict, b: Dict, k: string)
    ensures Lookup(a + b, k) == if k in Keys(a) then Lookup(a, k) else Lookup(b, k)
  {
    if a == [] {
      assert a + b == b;
    } else {
      assert (a + b)[1..] == a[1..] + b;
      LookupAppend(a[1..], b, k);
    }
  }

  /** Where marker `k` stands in `TallyOrder`. */
  function Position(k: string): (p: nat)
    requires k in TallyOrder
    ensures p < |TallyOrder| && TallyOrder[p] == k
  {
    if k == "three" then 0 else if k == "two" then 1 else 2
  }

  /**
   * The tally's keys are exactly the markers present in the snapshot, and
   * they stand in the order three, two, one.
   */
  lemma ResultsKeys(rs: seq<Reaction>)
    ensures forall k :: k in Keys(Results(rs)) <==> k in TallyOrder && LastCount(rs, k).Some?
    ensures forall i :: 0 <= i < |Results(rs)| ==> Results(rs)[i].0 in TallyOrder
    ensures forall i, j :: 0 <= i < j < |Results(rs)| ==> Position(Results(rs)[i].0) < Position(Results(rs)[j].0)
  {
    forall k ensures k in Keys(Results(rs)) <==> k in TallyOrder && LastCount(rs, k).Some? {
      ResultsLookup(rs, k);
    }
    ResultsInOrder(rs);
  }

  lemma {:induction false} LastCountSkips(a: seq<Reaction>, r: Reaction, b: seq<Reaction>, m: string)
    requires r.name != m
    ensures LastCount(a + [r] + b, m) == LastCount(a + b, m)
    decreases |b|
  {
    if b == [] {
      assert (a + [r] + b)[..|a|] == a + b;
    } else {
      var b' := b[..|b| - 1];
      assert (a + [r] + b)[..|a + [r] + b| - 1] == a + [r] + b';
      assert (a + b)[..|a + b| - 1] == a + b';
      LastCountSkips(a, r, b', m);
    }
  }

  /** A reaction whose name is not a marker has no effect on the tally, wherever it stands. */
  lemma ResultsIgnoreOthers(a: seq<Reaction>, r: Reaction, b: seq<Reaction>)
    requires r.name !in TallyOrder
    ensures Results(a + [r] + b) == Results(a + b)
  {
    LastCountSkips(a, r, b, "three");
    LastCountSkips(a, r, b, "two");
    LastCountSkips(a, r, b, "one");
    ResultsInOrder(a + [r] + b);
    ResultsInOrder(a + b);
  }

  /** Of several entries for one marker, the last in the snapshot decides its value. */
  lemma ResultsLastWins(rs: seq<Reaction>, m: string, count: nat)
    requires m in TallyOrder
    ensures Lookup(Results(rs + [Reaction(m, count)]), m) == Some(Votes(count))
  {
    ResultsLookup(rs + [Reaction(m, count)], m);
  }

  /** Each property of the tally is a present marker with its votes. */
  lemma ResultsEntry(rs: seq<Reaction>, i: nat)
    requires i < |Results(rs)|
    ensures Results(rs)[i].0 in TallyOrder && LastCount(rs, Results(rs)[i].0).Some?
    ensures Results(rs)[i].1 == Votes(LastCount(rs, Results(rs)[i].0).value)
  {
    ResultsInOrder(rs);
    var e3, e2, e1 := EntryFor(rs, "three"), EntryFor(rs, "two"), EntryFor(rs, "one");
    var d := e3 + e2 + e1;
    if i < |e3| {
      assert d[i] == e3[i];
    } else if i < |e3| + |e2| {
      assert d[i] == e2[i - |e3|];
    } else {
      assert d[i] == e1[i - |e3| - |e2|];
    }
  }

  lemma VotesPlain(count: nat)
    ensures Json.Plain(Votes(count))
  {
    var s := Votes(count);
    forall i | 0 <= i < |s| ensures s[i] != '"' && s[i] != '\\' && s[i] >= ' ' {
      assert IsDigit(s[i]) || s[i] == '-';
    }
  }

  /**
   * The `responses` text stored for a tally parses back to that tally, and
   * each stored value reads as the marker's last count minus one.
   */
  lemma ResponsesDecode(rs: seq<Reaction>)
    ensures Json.Parse(Json.Stringify(Results(rs))) == Some(Results(rs))
    ensures forall i :: 0 <= i < |Results(rs)| ==>
              Results(rs)[i].0 in TallyOrder && LastCount(rs, Results(rs)[i].0).Some? &&
              ParseDecimal(Results(rs)[i].1) == Some(LastCount(rs, Results(rs)[i].0).value - 1)
  {
    var d := Results(rs);
    forall i | 0 <= i < |d|
      ensures Json.Plain(d[i].0) && Json.Plain(d[i].1)
      ensures d[i].0 in TallyOrder && LastCount(rs, d[i].0).Some?
      ensures ParseDecimal(d[i].1) == Some(LastCount(rs, d[i].0).value - 1)
    {
      EntryDecodes(rs, i);
    }
    Json.StringifyRoundTrip(d);
  }

  lemma EntryDecodes(rs: seq<Reaction>, i: nat)
    requires i < |Results(rs)|
    ensures var e := Results(rs)[i];
            Json.Plain(e.0) && Json.Plain(e.1) && e.0 in TallyOrder && LastCount(rs, e.0).Some? &&
            ParseDecimal(e.1) == Some(LastCount(rs, e.0).value - 1)
  {
    ResultsEntry(rs, i);
    var c: nat := LastCount(rs, Results(rs)[i].0).value;
    VotesPlain(c);
    IntToStringRoundTrip(c - 1);
  }
}
