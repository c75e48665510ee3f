/** Python's `list.sort(key=...)`: a stable sort by a numeric key.
    `SortBy` is insertion sort written as a function; the lemmas show that
    its result is ordered by the key, is a permutation of the input, and
    keeps elements with equal keys in their original order. */
module Sorting {

  predicate SortedBy<T>(s: seq<T>, key: T -> real) {
    forall i, j :: 0 <= i < j < |s| ==> key(s[i]) <= key(s[j])
  }

  /** Places `x` after every element whose key is not larger than its own. */
  function Insert<T>(x: T, s: seq<T>, key: T -> real): (r: seq<T>)
    ensures |r| == |s| + 1
    ensures multiset(r) == multiset(s) + multiset{x}
  {
    if s == [] then [x]
    else if key(x) < key(s[0]) then [x] + s
    else
      assert s == [s[0]] + s[1..];
      [s[0]] + Insert(x, s[1..], key)
  }

  /** Sorts by `key`, earlier elements first among equal keys. */
  function SortBy<T>(s: seq<T>, key: T -> real): (r: seq<T>)
    ensures multiset(r) == multiset(s)
  {
    if s == [] then []
    else
      assert s == s[..|s| - 1] + [s[|s| - 1]];
      Insert(s[|s| - 1], SortBy(s[..|s| - 1], key), key)
  }

  /** The elements of `s` whose key equals `v`, in order. */
  function WithKey<T>(s: seq<T>, key: T -> real, v: real): (r: seq<T>)
    ensures |r| <= |s|
    ensures forall k :: 0 <= k < |r| ==> key(r[k]) == v
  {
    if s == [] then []
    else WithKey(s[..|s| - 1], key, v) + (if key(s[|s| - 1]) == v then [s[|s| - 1]] else [])
  }

  /** A lower bound of `x` and of every element of `s` bounds the result. */
  lemma {:induction false} InsertLowerBound<T>(x: T, s: seq<T>, key: T -> real, m: real)
    requires m <= key(x)
    requires forall k :: 0 <= k < |s| ==> m <= key(s[k])
    ensures forall k :: 0 <= k < |Insert(x, s, key)| ==> m <= key(Insert(x, s, key)[k])
  {
    if s != [] && key(x) >= key(s[0]) {
      InsertLowerBound(x, s[1..], key, m);
      var r := Insert(x, s[1..], key);
      assert Insert(x, s, key) == [s[0]] + r;
    }
  }

  lemma {:induction false} InsertSorted<T>(x: T, s: seq<T>, key: T -> real)
    requires SortedBy(s, key)
    ensures SortedBy(Insert(x, s, key), key)
  {
    if s != [] && key(x) >= key(s[0]) {
      var tail := s[1..];
      assert SortedBy(tail, key);
      InsertSorted(x, tail, key);
      InsertLowerBound(x, tail, key, key(s[0]));
      var r := Insert(x, tail, key);
      assert Insert(x, s, key) == [s[0]] + r;
      ConsSorted(s[0], r, key);
    }
  }

  lemma ConsSorted<T>(h: T, r: seq<T>, key: T -> real)
    requires SortedBy(r, key)
    requires forall k :: 0 <= k < |r| ==> key(h) <= key(r[k])
    ensures SortedBy([h] + r, key)
  {
    var c := [h] + r;
    forall i, j | 0 <= i < j < |c| ensures key(c[i]) <= key(c[j]) {
      assert c[j] == r[j - 1];
      if i > 0 {
        assert c[i] == r[i - 1];
      }
    }
  }

  lemma {:induction false} SortBySorted<T>(s: seq<T>, key: T -> real)
    ensures SortedBy(SortBy(s, key), key)
  {
    if s != [] {
      SortBySorted(s[..|s| - 1], key);
      InsertSorted(s[|s| - 1], SortBy(s[..|s| - 1], key), key);
    }
  }

  /** Cutting a sorted sequence in two: the parts hold its elements, and no
      element after the cut has a smaller key than one before it. */
  lemma SortedSplit<T>(s: seq<T>, key: T -> real, m: nat)
    requires SortedBy(s, key) && m <= |s|
    ensures multiset(s[..m]) + multiset(s[m..]) == multiset(s)
    ensures forall x, y :: x in s[m..] && y in s[..m] ==> key(y) <= key(x)
  {
    assert s == s[..m] + s[m..];
    forall x, y | x in s[m..] && y in s[..m] ensures key(y) <= key(x) {
      var a :| 0 <= a < m && s[a] == y;
      var b :| m <= b < |s| && s[b] == x;
    }
  }

  lemma {:induction false} WithKeyAppend<T>(a: seq<T>, b: seq<T>, key: T -> real, v: real)
    ensures WithKey(a + b, key, v) == WithKey(a, key, v) + WithKey(b, key, v)
  {
    if b != [] {
      var b' := b[..|b| - 1];
      assert (a + b)[..|a + b| - 1] == a + b';
      WithKeyAppend(a, b', key, v);
    } else {
      assert a + b == a;
    }
  }

  lemma {:induction false} WithKeyNone<T>(s: seq<T>, key: T -> real, v: real)
    requires forall k :: 0 <= k < |s| ==> key(s[k]) != v
    ensures WithKey(s, key, v) == []
  {
    if s != [] {
      WithKeyNone(s[..|s| - 1], key, v);
    }
  }

  lemma WithKeySingle<T>(x: T, key: T -> real, v: real)
    ensures WithKey([x], key, v) == if key(x) == v then [x] else []
  {
    assert [x][..0] == [];
  }

  lemma {:induction false} InsertWithKey<T>(x: T, s: seq<T>, key: T -> real, v: real)
    requires SortedBy(s, key)
    ensures WithKey(Insert(x, s, key), key, v)
         == WithKey(s, key, v) + (if key(x) == v then [x] else [])
  {
    WithKeySingle(x, key, v);
    if s == [] {
    } else if key(x) < key(s[0]) {
      InsertBeforeWithKey(x, s, key, v);
    } else {
      var tail, t := s[1..], if key(x) == v then [x] else [];
      assert SortedBy(tail, key);
      InsertWithKey(x, tail, key, v);
      WithKeyCons(s, key, v);
      InsertBehindHeadWithKey(x, s, key, v);
      ConcatRegroup(WithKey([s[0]], key, v), WithKey(Insert(x, tail, key), key, v), WithKey(tail, key, v), t);
    }
  }

  lemma ConcatRegroup<T>(h: seq<T>, a: seq<T>, b: seq<T>, t: seq<T>)
    requires a == b + t
    ensures h + a == (h + b) + t
  {
  }

  lemma WithKeyCons<T>(s: seq<T>, key: T -> real, v: real)
    requires s != []
    ensures WithKey(s, key, v) == WithKey([s[0]], key, v) + WithKey(s[1..], key, v)
  {
    assert [s[0]] + s[1..] == s;
    WithKeyAppend([s[0]], s[1..], key, v);
  }

  /** Inserting behind the head keeps the head in front. */
  lemma InsertBehindHeadWithKey<T>(x: T, s: seq<T>, key: T -> real, v: real)
    requires s != [] && key(x) >= key(s[0])
    ensures WithKey(Insert(x, s, key), key, v)
         == WithKey([s[0]], key, v) + WithKey(Insert(x, s[1..], key), key, v)
  {
    var ins := Insert(x, s[1..], key);
    assert Insert(x, s, key) == [s[0]] + ins;
    WithKeyAppend([s[0]], ins, key, v);
  }

  /** Inserting in front of larger keys: `x` comes before every element of
      `s`, and no element of `s` shares a key with it. */
  lemma InsertBeforeWithKey<T>(x: T, s: seq<T>, key: T -> real, v: real)
    requires SortedBy(s, key) && s != [] && key(x) < key(s[0])
    ensures WithKey([x] + s, key, v) == WithKey(s, key, v) + (if key(x) == v then [x] else [])
  {
    WithKeyAppend([x], s, key, v);
    WithKeySingle(x, key, v);
    if key(x) == v {
      forall k | 0 <= k < |s| ensures key(s[k]) != v {
        if k > 0 {
          assert key(s[0]) <= key(s[k]);
        }
      }
      WithKeyNone(s, key, v);
    }
  }

  /** Stability: among elements with the same key the sorted order is the
      original order. */
  lemma {:induction false} SortByStable<T>(s: seq<T>, key: T -> real, v: real)
    ensures WithKey(SortBy(s, key), key, v) == WithKey(s, key, v)
  {
    if s != [] {
      var init := s[..|s| - 1];
      SortByStable(init, key, v);
      SortBySorted(init, key);
      InsertWithKey(s[|s| - 1], SortBy(init, key), key, v);
    }
  }

  lemma {:induction false} SortedInsertIsAppend<T>(s: seq<T>, x: T, key: T -> real)
    requires SortedBy(s + [x], key)
    ensures Insert(x, s, key) == s + [x]
  {
    if s != [] {
      assert key(s[0]) <= key(x) by {
        assert (s + [x])[0] == s[0] && (s + [x])[|s|] == x;
      }
      assert SortedBy(s[1..] + [x], key) by {
        forall i, j | 0 <= i < j < |s[1..] + [x]|
          ensures key((s[1..] + [x])[i]) <= key((s[1..] + [x])[j])
        {
          assert (s[1..] + [x])[i] == (s + [x])[i + 1];
          assert (s[1..] + [x])[j] == (s + [x])[j + 1];
        }
      }
      SortedInsertIsAppend(s[1..], x, key);
      assert [s[0]] + (s[1..] + [x]) == s + [x];
    }
  }

  /** Sorting a list that is already ordered by the key changes nothing,
      so sorting twice is sorting once. */
  lemma {:induction false} SortByIdempotent<T>(s: seq<T>, key: T -> real)
    requires SortedBy(s, key)
    ensures SortBy(s, key) == s
  {
    if s != [] {
      var init := s[..|s| - 1];
      assert SortedBy(init, key);
      SortByIdempotent(init, key);
      assert init + [s[|s| - 1]] == s;
      SortedInsertIsAppend(init, s[|s| - 1], key);
    }
  }
}
