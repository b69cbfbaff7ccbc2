/**
 * A JavaScript object used as a dictionary from string keys to string
 * values: a list of (key, value) properties in insertion order. Keys
 * here are never array indices, so property order is plain insertion
 * order (ECMAScript OrdinaryOwnPropertyKeys).
 */
module JsObject {
  import opened Wrappers

  type Dict = seq<(string, string)>

  function Keys(d: Dict): seq<string> {
    if d == [] then [] else [d[0].0] + Keys(d[1..])
  }

  /** `d[k]`: the value stored under `k`, or `undefined`. */
  function Lookup(d: Dict, k: string): (r: Option<string>)
    ensures r.None? <==> k !in Keys(d)
  {
    if d == [] then None else if d[0].0 == k then Some(d[0].1) else Lookup(d[1..], k)
  }

  /**
   * `d[k] = v`: an existing property keeps its place and takes the new
   * value; a new property goes last.
   */
  function Put(d: Dict, k: string, v: string): (r: Dict)
    ensures Lookup(r, k) == Some(v)
    ensures forall k' :: k' != k ==> Lookup(r, k') == Lookup(d, k')
    ensures k in Keys(d) ==> Keys(r) == Keys(d)
    ensures k !in Keys(d) ==> Keys(r) == Keys(d) + [k]
  {
    if d == [] then [(k, v)]
    else if d[0].0 == k then [(k, v)] + d[1..]
    else [d[0]] + Put(d[1..], k, v)
  }

  lemma {:induction false} KeysAppend(d: Dict, e: Dict)
    ensures Keys(d + e) == Keys(d) + Keys(e)
  {
    if d == [] {
      assert d + e == e;
    } else {
      assert (d + e)[1..] == d[1..] + e;
      KeysAppend(d[1..], e);
    }
  }

  /** Assigning a key the object does not yet have appends it. */
  lemma {:induction false} PutNew(d: Dict, k: string, v: string)
    requires k !in Keys(d)
    ensures Put(d, k, v) == d + [(k, v)]
  {
    if d != [] {
      PutNew(d[1..], k, v);
    }
  }

  /** Re-assigning the last-inserted key replaces its value in place. */
  lemma {:induction false} PutLast(d: Dict, k: string, v: string, v': string)
    requires k !in Keys(d)
    ensures Put(d + [(k, v)], k, v') == d + [(k, v')]
  {
    if d != [] {
      assert (d + [(k, v)])[1..] == d[1..] + [(k, v)];
      PutLast(d[1..], k, v, v');
    }
  }
}
