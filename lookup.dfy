/**
 * Lookups the browser engine performs: `Array.prototype.find` and `filter` over a list, and
 * `Object.values(record).find` over the requirements record, which JavaScript
 * enumerates in ascending order of its integer keys.
 */
module Lookup {
  import opened Wrappers

  lemma NonEmptyHasMember(s: set<int>)
    requires s != {}
    ensures exists x :: x in s
  {
    if forall x :: x !in s {
      assert false;
    }
  }

  lemma {:induction false} MinExists(s: set<int>)
    requires s != {}
    ensures exists k :: k in s && forall j :: j in s ==> k <= j
  {
    NonEmptyHasMember(s);
    var x :| x in s;
    if s == {x} {
      assert forall j :: j in s ==> x <= j;
    } else {
      var rest := s - {x};
      MinExists(rest);
      var k :| k in rest && forall j :: j in rest ==> k <= j;
      var m := Min(x, k);
      forall j | j in s ensures m <= j {
        if j != x {
          assert j in rest;
        }
      }
      assert m in s;
    }
  }

  function Min(a: int, b: int): int {
    if a <= b then a else b
  }

  function MinKey(s: set<int>): (k: int)
    requires s != {}
    ensures k in s && forall j :: j in s ==> k <= j
  {
    MinExists(s);
    var k :| k in s && forall j :: j in s ==> k <= j;
    k
  }

  predicate StrictlyIncreasing(ks: seq<int>) {
    forall i, j :: 0 <= i < j < |ks| ==> ks[i] < ks[j]
  }

  /** The keys of a record in the order JavaScript enumerates integer keys. */
  function KeysAscending(s: set<int>): (ks: seq<int>)
    ensures StrictlyIncreasing(ks)
    ensures forall k :: k in ks <==> k in s
    ensures |ks| == |s|
    decreases |s|
  {
    if s == {} then []
    else
      var m := MinKey(s);
      var rest := KeysAscending(s - {m});
      [m] + rest
  }

  /** `Object.values(record)`. */
  function ValuesInKeyOrder<V>(m: map<int, V>): (vs: seq<V>)
    ensures |vs| == |m|
    ensures forall i :: 0 <= i < |vs| ==> vs[i] == m[KeysAscending(m.Keys)[i]]
  {
    ValuesAt(m, KeysAscending(m.Keys))
  }

  /** The values of `m` under the keys `ks`, in that order. */
  function ValuesAt<V>(m: map<int, V>, ks: seq<int>): (vs: seq<V>)
    requires forall i :: 0 <= i < |ks| ==> ks[i] in m
    ensures |vs| == |ks|
    ensures forall i :: 0 <= i < |ks| ==> vs[i] == m[ks[i]]
  {
    if ks == [] then [] else [m[ks[0]]] + ValuesAt(m, ks[1..])
  }

  /**
   * `Object.values(record).find(p)`, answered with the key of the value found:
   * the keys are tried from the smallest up, so it is the smallest key whose
   * value satisfies `p`.
   */
  function FirstKeyWhere<V>(m: map<int, V>, p: V -> bool): (r: Option<int>)
    ensures r.Some? ==> r.value in m && p(m[r.value])
    ensures r.Some? ==> forall j :: j in m && j < r.value ==> !p(m[j])
    ensures r.None? ==> forall j :: j in m ==> !p(m[j])
    decreases m.Keys
  {
    if m.Keys == {} then None
    else
      var k := MinKey(m.Keys);
      if p(m[k]) then Some(k)
      else
        var rest := m - {k};
        assert rest.Keys < m.Keys;
        var found := FirstKeyWhere(rest, p);
        assert forall j :: j in m && j != k ==> j in rest && rest[j] == m[j];
        found
  }

  /** `list.findIndex(p)`, with `None` for -1. */
  function FindIndex<T>(s: seq<T>, p: T -> bool): (r: Option<nat>)
    ensures r.Some? ==> r.value < |s| && p(s[r.value])
    ensures r.Some? ==> forall i :: 0 <= i < r.value ==> !p(s[i])
    ensures r.None? ==> forall i :: 0 <= i < |s| ==> !p(s[i])
  {
    if s == [] then None
    else if p(s[0]) then Some(0)
    else match FindIndex(s[1..], p)
      case None => None
      case Some(i) => Some(i + 1)
  }

  /** `list.filter(p)`: the elements satisfying `p`, in their order. */
  function Filter<T>(s: seq<T>, p: T -> bool): (r: seq<T>)
    ensures |r| <= |s|
    ensures forall i :: 0 <= i < |r| ==> r[i] in s && p(r[i])
    ensures forall i :: 0 <= i < |s| && p(s[i]) ==> s[i] in r
  {
    if s == [] then []
    else (if p(s[0]) then [s[0]] else []) + Filter(s[1..], p)
  }
}
