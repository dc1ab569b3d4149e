/**
 * The stable descending sort that all four rankings of the system use:
 * `Array.prototype.sort` with a `(a, b) => key(b) - key(a)` comparator in the browser
 * engine, and `sort(..., reverse=True)` / `sorted(..., reverse=True)` in the backend.
 * Both are stable: entries with equal keys keep their input order.
 */
module Sorting {

  predicate SortedDesc<T>(s: seq<T>, key: T -> real) {
    forall i, j :: 0 <= i < j < |s| ==> key(s[i]) >= key(s[j])
  }

  /** The entries of `s` whose key is `v`, in their order in `s`. */
  function WithKey<T>(s: seq<T>, key: T -> real, v: real): seq<T> {
    if s == [] then []
    else (if key(s[0]) == v then [s[0]] else []) + WithKey(s[1..], key, v)
  }

  /** Puts `x` after every entry whose key is at least its own. */
  function Insert<T>(x: T, s: seq<T>, key: T -> real): (r: seq<T>)
    requires SortedDesc(s, key)
    ensures SortedDesc(r, key)
    ensures multiset(r) == multiset(s) + multiset{x}
    ensures |r| == |s| + 1
  {
    if s == [] then [x]
    else if key(s[0]) < key(x) then
      SortedCons(x, s, key);
      [x] + s
    else
      var rest := Insert(x, s[1..], key);
      BoundedByHead(s, x, rest, key);
      SortedCons(s[0], rest, key);
      assert s == [s[0]] + s[1..];
      [s[0]] + rest
  }

  /** Every entry of `rest`, being `x` or an entry of the tail of `s`, has a key at most the head's. */
  lemma BoundedByHead<T>(s: seq<T>, x: T, rest: seq<T>, key: T -> real)
    requires SortedDesc(s, key) && s != [] && key(x) <= key(s[0])
    requires multiset(rest) == multiset(s[1..]) + multiset{x}
    ensures forall k :: 0 <= k < |rest| ==> key(rest[k]) <= key(s[0])
  {
    forall k | 0 <= k < |rest|
      ensures key(rest[k]) <= key(s[0])
    {
      assert rest[k] in multiset(rest);
      if rest[k] != x {
        assert rest[k] in s[1..];
      }
    }
  }

  lemma SortedCons<T>(h: T, rest: seq<T>, key: T -> real)
    requires SortedDesc(rest, key)
    requires forall k :: 0 <= k < |rest| ==> key(rest[k]) <= key(h)
    ensures SortedDesc([h] + rest, key)
  {
    var r := [h] + rest;
    forall i, j | 0 <= i < j < |r|
      ensures key(r[i]) >= key(r[j])
    {
      assert r[j] == rest[j - 1];
      if i > 0 {
        assert r[i] == rest[i - 1];
      }
    }
  }

  /** Insertion sort over the input from left to right. */
  function SortDesc<T>(s: seq<T>, key: T -> real): (r: seq<T>)
    ensures SortedDesc(r, key)
    ensures multiset(r) == multiset(s)
    ensures |r| == |s|
  {
    if s == [] then []
    else
      assert s == s[..|s| - 1] + [s[|s| - 1]];
      Insert(s[|s| - 1], SortDesc(s[..|s| - 1], key), key)
  }

  lemma {:induction false} WithKeyAppend<T>(a: seq<T>, b: seq<T>, key: T -> real, v: real)
    ensures WithKey(a + b, key, v) == WithKey(a, key, v) + WithKey(b, key, v)
  {
    if a == [] {
      assert a + b == b;
    } else {
      var h := if key(a[0]) == v then [a[0]] else [];
      assert (a + b)[0] == a[0];
      assert (a + b)[1..] == a[1..] + b;
      WithKeyAppend(a[1..], b, key, v);
      calc {
        WithKey(a + b, key, v);
        h + WithKey(a[1..] + b, key, v);
        h + (WithKey(a[1..], key, v) + WithKey(b, key, v));
        (h + WithKey(a[1..], key, v)) + WithKey(b, key, v);
        WithKey(a, key, v) + WithKey(b, key, v);
      }
    }
  }

  lemma {:induction false} WithKeyNone<T>(s: seq<T>, key: T -> real, v: real)
    requires forall i :: 0 <= i < |s| ==> key(s[i]) != v
    ensures WithKey(s, key, v) == []
  {
    if s != [] {
      WithKeyNone(s[1..], key, v);
    }
  }

  lemma WithKeySingleton<T>(x: T, key: T -> real, v: real)
    ensures WithKey([x], key, v) == if key(x) == v then [x] else []
  {
    assert [x][1..] == [];
  }

  lemma WithKeyCons<T>(x: T, s: seq<T>, key: T -> real, v: real)
    ensures WithKey([x] + s, key, v) == (if key(x) == v then [x] else []) + WithKey(s, key, v)
  {
    assert ([x] + s)[0] == x;
    assert ([x] + s)[1..] == s;
  }

  /** Insertion keeps the order among equal keys: `x` lands after all of them. */
  lemma {:induction false} InsertStable<T>(x: T, s: seq<T>, key: T -> real, v: real)
    requires SortedDesc(s, key)
    ensures WithKey(Insert(x, s, key), key, v)
         == WithKey(s, key, v) + (if key(x) == v then [x] else [])
  {
    if s == [] {
      assert Insert(x, s, key) == [x] + s;
      WithKeyCons(x, s, key, v);
    } else if key(s[0]) < key(x) {
      InsertFront(x, s, key, v);
    } else {
      var rest := Insert(x, s[1..], key);
      InsertStable(x, s[1..], key, v);
      assert Insert(x, s, key) == [s[0]] + rest;
      InsertBehind(x, s, rest, key, v);
    }
  }

  /** `x` goes in front of entries with smaller keys, none of which can share its key. */
  lemma InsertFront<T>(x: T, s: seq<T>, key: T -> real, v: real)
    requires SortedDesc(s, key) && s != [] && key(s[0]) < key(x)
    ensures WithKey(Insert(x, s, key), key, v)
         == WithKey(s, key, v) + (if key(x) == v then [x] else [])
  {
    assert Insert(x, s, key) == [x] + s;
    WithKeyCons(x, s, key, v);
    if key(x) == v {
      WithKeyNone(s, key, v);
    }
  }

  /** `x` goes behind the head, into the rest, whose entries with key `v` keep their order. */
  lemma InsertBehind<T>(x: T, s: seq<T>, rest: seq<T>, key: T -> real, v: real)
    requires s != []
    requires WithKey(rest, key, v) == WithKey(s[1..], key, v) + (if key(x) == v then [x] else [])
    ensures WithKey([s[0]] + rest, key, v)
         == WithKey(s, key, v) + (if key(x) == v then [x] else [])
  {
    var h := if key(s[0]) == v then [s[0]] else [];
    var tail := if key(x) == v then [x] else [];
    WithKeyCons(s[0], rest, key, v);
    WithKeyCons(s[0], s[1..], key, v);
    assert [s[0]] + s[1..] == s;
    assert h + (WithKey(s[1..], key, v) + tail) == (h + WithKey(s[1..], key, v)) + tail;
  }

  /** Appending one entry appends it to the entries with its key. */
  lemma WithKeySnoc<T>(s: seq<T>, key: T -> real, v: real)
    requires s != []
    ensures WithKey(s, key, v)
         == WithKey(s[..|s| - 1], key, v) + (if key(s[|s| - 1]) == v then [s[|s| - 1]] else [])
  {
    assert s == s[..|s| - 1] + [s[|s| - 1]];
    WithKeyAppend(s[..|s| - 1], [s[|s| - 1]], key, v);
    WithKeySingleton(s[|s| - 1], key, v);
  }

  /** The sort is stable: for each key value, the entries with that key keep their input order. */
  lemma {:induction false} SortDescStable<T>(s: seq<T>, key: T -> real, v: real)
    ensures WithKey(SortDesc(s, key), key, v) == WithKey(s, key, v)
  {
    if s != [] {
      var init, last := s[..|s| - 1], s[|s| - 1];
      SortDescStable(init, key, v);
      InsertStable(last, SortDesc(init, key), key, v);
      assert SortDesc(s, key) == Insert(last, SortDesc(init, key), key);
      WithKeySnoc(s, key, v);
    }
  }

  /** Each entry of the sorted sequence is an entry of the input ... */
  lemma SortedEntryIsInput<T>(s: seq<T>, key: T -> real, i: nat) returns (j: nat)
    requires i < |SortDesc(s, key)|
    ensures j < |s| && s[j] == SortDesc(s, key)[i]
  {
    var r := SortDesc(s, key);
    assert r[i] in multiset(r);
    assert r[i] in multiset(s);
    j :| 0 <= j < |s| && s[j] == r[i];
  }

  /** ... and each entry of the input is an entry of the sorted sequence. */
  lemma InputEntryIsSorted<T>(s: seq<T>, key: T -> real, j: nat) returns (i: nat)
    requires j < |s|
    ensures i < |SortDesc(s, key)| && SortDesc(s, key)[i] == s[j]
  {
    var r := SortDesc(s, key);
    assert s[j] in multiset(s);
    assert s[j] in multiset(r);
    i :| 0 <= i < |r| && r[i] == s[j];
  }

  /** `f` applied to every entry, in order. */
  function Map<A, B>(s: seq<A>, f: A -> B): (r: seq<B>)
    ensures |r| == |s|
    ensures forall i :: 0 <= i < |s| ==> r[i] == f(s[i])
  {
    seq(|s|, i requires 0 <= i < |s| => f(s[i]))
  }

  lemma MapConcat<A, B>(a: seq<A>, b: seq<A>, f: A -> B)
    ensures Map(a + b, f) == Map(a, f) + Map(b, f)
  {
  }

  /** Taking one entry out of a sequence takes its image out of the mapped sequence. */
  lemma MapRemoveOne<A, B>(b: seq<A>, j: nat, f: A -> B)
    requires j < |b|
    ensures multiset(Map(b, f)) == multiset(Map(b[..j] + b[j + 1..], f)) + multiset{f(b[j])}
  {
    var before, after := b[..j], b[j + 1..];
    var x := b[j];
    assert b == before + ([x] + after);
    MapConcat(before, [x] + after, f);
    MapConcat([x], after, f);
    MapConcat(before, after, f);
    var mb, mx, ma := Map(before, f), Map([x], f), Map(after, f);
    assert mx == [f(x)];
    assert Map(b, f) == mb + (mx + ma);
    assert Map(before + after, f) == mb + ma;
    calc {
      multiset(Map(b, f));
      multiset(mb + (mx + ma));
      multiset(mb) + multiset(mx) + multiset(ma);
      multiset(mb + ma) + multiset{f(x)};
    }
  }

  /** Taking one entry out of a sequence takes it out of its multiset. */
  lemma RemoveOne<A>(b: seq<A>, j: nat)
    requires j < |b|
    ensures multiset(b) == multiset(b[..j] + b[j + 1..]) + multiset{b[j]}
  {
    assert b == b[..j] + [b[j]] + b[j + 1..];
  }

  /** Taking the same entry out of two orderings leaves two orderings of the rest. */
  lemma PermutationWithoutOne<A>(a: seq<A>, b: seq<A>, j: nat)
    requires multiset(a) == multiset(b)
    requires a != [] && j < |b| && b[j] == a[0]
    ensures multiset(a[1..]) == multiset(b[..j] + b[j + 1..])
  {
    var x := a[0];
    RemoveOne(b, j);
    RemoveOne(a, 0);
    assert a[..0] + a[1..] == a[1..];
    var ma, mr := multiset(a[1..]), multiset(b[..j] + b[j + 1..]);
    assert ma + multiset{x} == mr + multiset{x};
    assert ma == ma + multiset{x} - multiset{x};
    assert mr == mr + multiset{x} - multiset{x};
  }

  /** The images of two orderings agree once they agree without the entry taken out. */
  lemma MapPermutationStep<A, B>(a: seq<A>, b: seq<A>, j: nat, f: A -> B)
    requires a != [] && j < |b| && b[j] == a[0]
    requires multiset(Map(a[1..], f)) == multiset(Map(b[..j] + b[j + 1..], f))
    ensures multiset(Map(a, f)) == multiset(Map(b, f))
  {
    MapRemoveOne(a, 0, f);
    MapRemoveOne(b, j, f);
    assert a[..0] + a[1..] == a[1..];
  }

  /** Two orderings of the same entries map to two orderings of the same images. */
  lemma {:induction false} MapPermutation<A, B>(a: seq<A>, b: seq<A>, f: A -> B)
    requires multiset(a) == multiset(b)
    ensures multiset(Map(a, f)) == multiset(Map(b, f))
    decreases |a|
  {
    if a == [] {
      assert |multiset(b)| == 0;
      assert b == [];
    } else {
      assert a[0] in multiset(b);
      var j :| 0 <= j < |b| && b[j] == a[0];
      PermutationWithoutOne(a, b, j);
      MapPermutation(a[1..], b[..j] + b[j + 1..], f);
      MapPermutationStep(a, b, j, f);
    }
  }
}
