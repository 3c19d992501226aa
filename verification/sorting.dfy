/** Array.prototype.sort with a numeric comparator `(a, b) => key(a) - key(b)`.
    JavaScript's sort is stable, so the model is a stable insertion sort: an element
    is inserted in front of the first element whose key is not smaller, which keeps
    elements with equal keys in their input order. A descending sort
    (`(a, b) => key(b) - key(a)`) is the ascending sort on the negated key. */
module Sorting {
  import opened Seqs

  /** The elements of `s` are in non-decreasing order of `key`. */
  predicate Sorted<T>(s: seq<T>, key: T -> real) {
    forall i, j :: 0 <= i < j < |s| ==> key(s[i]) <= key(s[j])
  }

  function Insert<T>(x: T, s: seq<T>, key: T -> real): (r: seq<T>)
    ensures |r| == |s| + 1
    ensures multiset(r) == multiset(s) + multiset{x}
    decreases |s|
  {
    if s == [] || key(x) <= key(s[0]) then [x] + s
    else
      assert s == [s[0]] + s[1..];
      [s[0]] + Insert(x, s[1..], key)
  }

  lemma {:induction false} InsertSorted<T>(x: T, s: seq<T>, key: T -> real)
    requires Sorted(s, key)
    ensures Sorted(Insert(x, s, key), key)
    decreases |s|
  {
    if s != [] && key(x) > key(s[0]) {
      var tail := s[1..];
      var rest := Insert(x, tail, key);
      InsertSorted(x, tail, key);
      forall i | 0 <= i < |tail| ensures key(s[0]) <= key(tail[i]) {
        assert tail[i] == s[i + 1];
      }
      InsertAbove(x, tail, key, key(s[0]));
      var r := Insert(x, s, key);
      assert r == [s[0]] + rest;
      forall i, j | 0 <= i < j < |r|
        ensures key(r[i]) <= key(r[j])
      {
        if i > 0 {
          assert r[i] == rest[i - 1] && r[j] == rest[j - 1];
        } else {
          assert r[j] == rest[j - 1];
        }
      }
    }
  }

  /** A lower bound of `x` and of every element of `s` bounds the insertion result. */
  lemma InsertAbove<T>(x: T, s: seq<T>, key: T -> real, b: real)
    requires b <= key(x) && forall i :: 0 <= i < |s| ==> b <= key(s[i])
    ensures forall k :: 0 <= k < |Insert(x, s, key)| ==> b <= key(Insert(x, s, key)[k])
  {
    var r := Insert(x, s, key);
    forall k | 0 <= k < |r| ensures b <= key(r[k]) {
      assert r[k] in multiset(r);
      if r[k] != x {
        assert r[k] in multiset(s);
        var j :| 0 <= j < |s| && s[j] == r[k];
      }
    }
  }

  /** The sorted sequence is a permutation of the input, in key order. */
  function SortBy<T>(s: seq<T>, key: T -> real): (r: seq<T>)
    ensures |r| == |s|
    ensures multiset(r) == multiset(s)
    ensures Sorted(r, key)
    decreases |s|
  {
    if s == [] then []
    else
      assert s == [s[0]] + s[1..];
      var rest := SortBy(s[1..], key);
      InsertSorted(s[0], rest, key);
      Insert(s[0], rest, key)
  }

  /** The elements with one key value `k`. */
  function WithKey<T(==)>(s: seq<T>, key: T -> real, k: real): seq<T> {
    Filter(s, (x: T) => key(x) == k)
  }

  /** Inserting `x` adds it in front of the elements with its key, which all come
      after it in the input, and leaves the elements with any other key alone. */
  lemma {:induction false} InsertWithKey<T>(x: T, s: seq<T>, key: T -> real, k: real)
    ensures WithKey(Insert(x, s, key), key, k)
      == if key(x) == k then [x] + WithKey(s, key, k) else WithKey(s, key, k)
    decreases |s|
  {
    if s == [] || key(x) <= key(s[0]) {
      assert Insert(x, s, key) == [x] + s;
      PrependWithKey(x, s, key, k);
    } else {
      var head, tail := s[0], s[1..];
      var rest := Insert(x, tail, key);
      assert Insert(x, s, key) == [head] + rest;
      assert s == [head] + tail;
      InsertWithKey(x, tail, key, k);
      PrependWithKey(head, rest, key, k);
      PrependWithKey(head, tail, key, k);
      var w1 := WithKey(tail, key, k);
      if key(x) == k {
        assert key(head) != k;
        assert WithKey(s, key, k) == w1;
        assert WithKey(Insert(x, s, key), key, k) == [x] + w1;
      } else if key(head) == k {
        assert WithKey(Insert(x, s, key), key, k) == [head] + w1 == WithKey(s, key, k);
      } else {
        assert WithKey(Insert(x, s, key), key, k) == w1 == WithKey(s, key, k);
      }
    }
  }

  /** Putting `y` in front adds it to the elements with its key and to no others. */
  lemma PrependWithKey<T>(y: T, s: seq<T>, key: T -> real, k: real)
    ensures WithKey([y] + s, key, k) == if key(y) == k then [y] + WithKey(s, key, k) else WithKey(s, key, k)
  {
    var p := (x: T) => key(x) == k;
    FilterAppend([y], s, p);
    FilterSingle(y, p);
    if key(y) != k {
      assert [] + WithKey(s, key, k) == WithKey(s, key, k);
    }
  }

  /** The sort is stable: the elements with any one key come out in their input
      order, as with Array.prototype.sort. */
  lemma {:induction false} SortStable<T>(s: seq<T>, key: T -> real, k: real)
    ensures WithKey(SortBy(s, key), key, k) == WithKey(s, key, k)
    decreases |s|
  {
    if s != [] {
      var rest := SortBy(s[1..], key);
      assert SortBy(s, key) == Insert(s[0], rest, key);
      SortStable(s[1..], key, k);
      InsertWithKey(s[0], rest, key, k);
      assert s == [s[0]] + s[1..];
      PrependWithKey(s[0], s[1..], key, k);
    }
  }

  /** Stability, for any predicate that picks out the elements with key `k`. */
  lemma SortStableBy<T>(s: seq<T>, key: T -> real, k: real, q: T -> bool)
    requires forall x {:trigger q(x)} :: q(x) == (key(x) == k)
    ensures Filter(SortBy(s, key), q) == Filter(s, q)
  {
    SortStable(s, key, k);
    var p := (x: T) => key(x) == k;
    var r := SortBy(s, key);
    assert forall i :: 0 <= i < |s| ==> p(s[i]) == q(s[i]);
    forall i | 0 <= i < |r| ensures p(r[i]) == q(r[i]) {
      assert r[i] in multiset(s);
    }
    FilterExt(s, p, q);
    FilterExt(r, p, q);
  }
}
