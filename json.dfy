/**
 * `JSON.stringify` of a JsObject.Dict, and a reader for the text it
 * produces. Keys and values that hold no quotation mark or backslash
 * or control character need no escaping, and those are the only ones this
 * model stringifies (marker names and decimal numerals).
 */
module Json {
  import opened Wrappers
  import opened JsObject

  /** A string `JSON.stringify` writes between quotes as it is, with no escape. */
  predicate Plain(s: string) {
    forall i :: 0 <= i < |s| ==> s[i] != '"' && s[i] != '\\' && s[i] >= ' '
  }

  predicate PlainDict(d: Dict) {
    forall i :: 0 <= i < |d| ==> Plain(d[i].0) && Plain(d[i].1)
  }

  function Quote(s: string): string {
    "\"" + s + "\""
  }

  function Member(p: (string, string)): string {
    Quote(p.0) + ":" + Quote(p.1)
  }

  function Members(d: Dict): string {
    if d == [] then ""
    else if |d| == 1 then Member(d[0])
    else Member(d[0]) + "," + Members(d[1..])
  }

  /** `JSON.stringify(d)`: properties in insertion order, no whitespace. */
  function Stringify(d: Dict): (s: string)
    ensures |s| >= 2 && s[0] == '{' && s[|s| - 1] == '}'
  {
    "{" + Members(d) + "}"
  }

  /** The characters up to the next quotation mark, and what follows that mark. */
  function UntilQuote(s: string): (r: Option<(string, string)>)
    ensures r.Some? ==> |r.value.1| < |s|
  {
    if s == [] then None
    else if s[0] == '"' then Some(([], s[1..]))
    else match UntilQuote(s[1..])
      case None => None
      case Some((c, rest)) => Some(([s[0]] + c, rest))
  }

  /** Reads one `"key":"value"` member at the front of `s`. */
  function ParseMember(s: string): (r: Option<((string, string), string)>)
    ensures r.Some? ==> |r.value.1| < |s|
  {
    if s == [] || s[0] != '"' then None
    else match UntilQuote(s[1..])
      case None => None
      case Some((k, rest)) =>
        if |rest| < 2 || rest[0] != ':' || rest[1] != '"' then None
        else match UntilQuote(rest[2..])
          case None => None
          case Some((v, tail)) => Some(((k, v), tail))
  }

  /** Reads `m1,m2,...,mn}` where n >= 1. */
  function ParseMembers(s: string): Option<Dict>
    decreases |s|
  {
    match ParseMember(s)
    case None => None
    case Some((p, rest)) =>
      if rest == "}" then Some([p])
      else if |rest| > 0 && rest[0] == ',' then
        match ParseMembers(rest[1..])
        case None => None
        case Some(d) => Some([p] + d)
      else None
  }

  /** `JSON.parse` restricted to flat objects whose values are strings. */
  function Parse(s: string): Option<Dict> {
    if s == "{}" then Some([])
    else if |s| > 0 && s[0] == '{' then ParseMembers(s[1..])
    else None
  }

  lemma {:induction false} UntilQuoteOf(c: string, rest: string)
    requires '"' !in c
    ensures UntilQuote(c + "\"" + rest) == Some((c, rest))
  {
    var s := c + "\"" + rest;
    if c == [] {
      assert s == "\"" + rest;
    } else {
      assert s[0] == c[0];
      assert s[1..] == c[1..] + "\"" + rest;
      UntilQuoteOf(c[1..], rest);
      assert [c[0]] + c[1..] == c;
    }
  }

  lemma ParseMemberOf(p: (string, string), rest: string)
    requires Plain(p.0) && Plain(p.1)
    ensures ParseMember(Member(p) + rest) == Some((p, rest))
  {
    var s := Member(p) + rest;
    var r1 := ":" + Quote(p.1) + rest;
    assert s[1..] == p.0 + "\"" + r1;
    UntilQuoteOf(p.0, r1);
    assert r1[2..] == p.1 + "\"" + rest;
    UntilQuoteOf(p.1, rest);
  }

  lemma ParseMembersLast(p: (string, string))
    requires Plain(p.0) && Plain(p.1)
    ensures ParseMembers(Member(p) + "}") == Some([p])
  {
    ParseMemberOf(p, "}");
  }

  lemma ParseMembersCons(p: (string, string), x: string)
    requires Plain(p.0) && Plain(p.1)
    ensures ParseMembers(Member(p) + ("," + x)) ==
              match ParseMembers(x)
              case None => None
              case Some(d) => Some([p] + d)
  {
    var rest := "," + x;
    ParseMemberOf(p, rest);
    assert rest[0] == ',' && rest[1..] == x;
    assert rest != "}";
  }

  lemma MembersCons(d: Dict)
    requires |d| > 1
    ensures Members(d) + "}" == Member(d[0]) + ("," + (Members(d[1..]) + "}"))
  {
    var m, t := Member(d[0]), Members(d[1..]);
    calc {
      Members(d) + "}";
      (m + "," + t) + "}";
      { Assoc(m, ",", t, "}"); }
      m + ("," + (t + "}"));
    }
  }

  lemma Assoc(a: string, b: string, c: string, e: string)
    ensures (a + b + c) + e == a + (b + (c + e))
  {
  }

  lemma PlainTail(d: Dict)
    requires d != [] && PlainDict(d)
    ensures Plain(d[0].0) && Plain(d[0].1) && PlainDict(d[1..])
  {
    forall i | 0 <= i < |d| - 1
      ensures Plain(d[1..][i].0) && Plain(d[1..][i].1)
    {
      assert d[1..][i] == d[i + 1];
    }
  }

  lemma ParseMembersStep(d: Dict)
    requires |d| > 1 && Plain(d[0].0) && Plain(d[0].1)
    requires ParseMembers(Members(d[1..]) + "}") == Some(d[1..])
    ensures ParseMembers(Members(d) + "}") == Some(d)
  {
    MembersCons(d);
    ParseMembersCons(d[0], Members(d[1..]) + "}");
    assert [d[0]] + d[1..] == d;
  }

  lemma {:induction false} ParseMembersOf(d: Dict)
    requires d != [] && PlainDict(d)
    ensures ParseMembers(Members(d) + "}") == Some(d)
    decreases |d|
  {
    PlainTail(d);
    if |d| == 1 {
      ParseMembersLast(d[0]);
      assert [d[0]] == d;
    } else {
      ParseMembersOf(d[1..]);
      ParseMembersStep(d);
    }
  }

  lemma MembersLength(d: Dict)
    requires d != []
    ensures |Members(d)| >= |Member(d[0])| >= 5
  {
  }

  /** What `Stringify` writes, `Parse` reads back unchanged, order included. */
  lemma StringifyRoundTrip(d: Dict)
    requires PlainDict(d)
    ensures Parse(Stringify(d)) == Some(d)
  {
    var s := Stringify(d);
    if d != [] {
      MembersLength(d);
      assert s[1..] == Members(d) + "}";
      ParseMembersOf(d);
    }
  }
}
