/** A plain JavaScript object used as a dictionary: string keys, each at
    most once, kept in insertion order. Assigning to an existing key
    replaces its value in place; assigning to a new key appends it. */
module JsObject {
  import opened Wrappers

  ghost predicate DistinctKeys<V>(s: seq<(string, V)>) {
    forall i, j :: 0 <= i < j < |s| ==> s[i].0 != s[j].0
  }

  type Obj<V> = s: seq<(string, V)> | DistinctKeys(s) witness []

  /** The set of keys of an object (order forgotten). */
  function KeySet<V>(s: seq<(string, V)>): (ks: set<string>)
    ensures forall i :: 0 <= i < |s| ==> s[i].0 in ks
  {
    if s == [] then {} else {s[0].0} + KeySet(s[1..])
  }

  /** `Object.keys`: the keys in insertion order. */
  function Keys<V>(s: seq<(string, V)>): (ks: seq<string>)
    ensures |ks| == |s|
    ensures forall i :: 0 <= i < |s| ==> ks[i] == s[i].0
  {
    if s == [] then [] else [s[0].0] + Keys(s[1..])
  }

  /** `Object.values`: the values in insertion order. */
  function Values<V>(s: seq<(string, V)>): (vs: seq<V>)
    ensures |vs| == |s|
    ensures forall i :: 0 <= i < |s| ==> vs[i] == s[i].1
  {
    if s == [] then [] else [s[0].1] + Values(s[1..])
  }

  /** A key that no entry carries is not in the key set. */
  lemma {:induction false} KeyAbsent<V>(s: seq<(string, V)>, k: string)
    requires forall i :: 0 <= i < |s| ==> s[i].0 != k
    ensures k !in KeySet(s)
  {
    if s != [] {
      KeyAbsent(s[1..], k);
    }
  }

  /** `o[k]`: the value stored under `k`, or `None` for a missing key. */
  function Get<V>(o: Obj<V>, k: string): (r: Option<V>)
    ensures r.None? <==> k !in KeySet(o)
    ensures forall i :: 0 <= i < |o| && o[i].0 == k ==> r == Some(o[i].1)
  {
    if o == [] then None
    else if o[0].0 == k then Some(o[0].1)
    else
      var rest: Obj<V> := o[1..];
      assert forall i :: 1 <= i < |o| ==> o[i] == rest[i - 1];
      Get(rest, k)
  }

  /** `o[k] = v`: replace the value of an existing key in its place, or
      append a new key at the end. */
  function Put<V>(o: Obj<V>, k: string, v: V): (r: Obj<V>)
    ensures KeySet(r) == KeySet(o) + {k}
    ensures k in KeySet(o) ==> |r| == |o|
    ensures k !in KeySet(o) ==> r == o + [(k, v)]
    ensures forall i :: 0 <= i < |o| ==> r[i].0 == o[i].0
  {
    if o == [] then [(k, v)]
    else if o[0].0 == k then
      var r := [(k, v)] + o[1..];
      assert r[1..] == o[1..];
      r
    else
      var rest: Obj<V> := o[1..];
      var tail := Put(rest, k, v);
      KeyAbsent(rest, o[0].0);
      assert o[0].0 !in KeySet(tail);
      var r := [o[0]] + tail;
      assert r[1..] == tail;
      assert forall j :: 1 <= j < |r| ==> r[j].0 in KeySet(tail);
      r
  }

  /** Reading a key just written gives the written value. */
  lemma {:induction false} GetPutSame<V>(o: Obj<V>, k: string, v: V)
    ensures Get(Put(o, k, v), k) == Some(v)
  {
    if o != [] && o[0].0 != k {
      var rest: Obj<V> := o[1..];
      GetPutSame(rest, k, v);
    }
  }

  /** Writing a key leaves every other key as it was. */
  lemma {:induction false} GetPutOther<V>(o: Obj<V>, k: string, v: V, k': string)
    requires k' != k
    ensures Get(Put(o, k, v), k') == Get(o, k')
  {
    if o != [] && o[0].0 != k {
      var rest: Obj<V> := o[1..];
      GetPutOther(rest, k, v, k');
    }
  }

  /** Entry by entry, writing a key replaces that key's entry where it
      stands, or adds it at the end. */
  lemma {:induction false} PutEntries<V>(o: Obj<V>, k: string, v: V)
    ensures forall i :: 0 <= i < |Put(o, k, v)| ==>
              Put(o, k, v)[i] == (if i < |o| && o[i].0 != k then o[i] else (k, v))
  {
    if o != [] && o[0].0 != k {
      var rest: Obj<V> := o[1..];
      PutEntries(rest, k, v);
      assert Put(o, k, v) == [o[0]] + Put(rest, k, v);
    }
  }

  /** A key in the key set is carried by some entry. */
  lemma {:induction false} KeyPresent<V>(s: seq<(string, V)>, k: string) returns (i: int)
    requires k in KeySet(s)
    ensures 0 <= i < |s| && s[i].0 == k
  {
    if s[0].0 == k {
      i := 0;
    } else {
      var j := KeyPresent(s[1..], k);
      i := j + 1;
    }
  }
}
