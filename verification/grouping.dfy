/** The grouping reducers of the dashboard: `reduce` over a list with an accumulator
    array of `{key, total}` entries; for each element, `acc.find` the entry with the
    element's key and add the amount to it in place, or push a new entry. */
module Grouping {
  import opened Seqs

  /** One accumulator entry. */
  datatype Group<K> = Group(key: K, total: int)

  /** What the reducer reads of one element: the key it groups by and its amount. */
  datatype Item<K> = Item(key: K, amount: int)

  /** One reducer step. */
  function AddTo<K(==)>(acc: seq<Group<K>>, it: Item<K>): seq<Group<K>>
  {
    var i := FindIndex(acc, (g: Group<K>) => g.key == it.key);
    if i >= 0 then acc[i := Group(it.key, acc[i].total + it.amount)]
    else acc + [Group(it.key, it.amount)]
  }

  /** The whole reduction, element by element from the first. */
  function Fold<K(==)>(items: seq<Item<K>>): seq<Group<K>>
    decreases |items|
  {
    if items == [] then [] else AddTo(Fold(items[..|items| - 1]), items[|items| - 1])
  }

  /** The reducer as the dashboard runs it: a loop over the elements that updates
      the accumulator entries in place. */
  method GroupTotals<K(==)>(items: seq<Item<K>>) returns (acc: seq<Group<K>>)
    ensures acc == Fold(items)
  {
    acc := [];
    for n := 0 to |items|
      invariant acc == Fold(items[..n])
    {
      var it := items[n];
      var i := FindEntry(acc, it.key);
      assert items[..n + 1][..n] == items[..n];
      if i >= 0 {
        acc := acc[i := acc[i].(total := acc[i].total + it.amount)];
      } else {
        acc := acc + [Group(it.key, it.amount)];
      }
    }
    assert items[..|items|] == items;
  }

  /** `acc.find(item => item.name === key)`, as the position of the entry found. */
  method FindEntry<K(==)>(acc: seq<Group<K>>, key: K) returns (i: int)
    ensures i == FindIndex(acc, (g: Group<K>) => g.key == key)
  {
    i := 0;
    while i < |acc| && acc[i].key != key
      invariant 0 <= i <= |acc|
      invariant forall j :: 0 <= j < i ==> acc[j].key != key
    {
      i := i + 1;
    }
    if i == |acc| {
      i := -1;
    }
  }

  predicate DistinctKeys<K(==)>(g: seq<Group<K>>) {
    forall i, j :: 0 <= i < j < |g| ==> g[i].key != g[j].key
  }

  function KeysOf<K>(g: seq<Group<K>>): set<K> {
    set i | 0 <= i < |g| :: g[i].key
  }

  function ItemKeys<K>(items: seq<Item<K>>): set<K> {
    set j | 0 <= j < |items| :: items[j].key
  }

  /** The sum of the amounts of the items with key `k`: the reference definition a
      group's total is checked against. */
  function KeyTotal<K(==)>(items: seq<Item<K>>, k: K): int
    decreases |items|
  {
    if items == [] then 0
    else
      var last := items[|items| - 1];
      KeyTotal(items[..|items| - 1], k) + (if last.key == k then last.amount else 0)
  }

  /** The position of the first item with key `k`, or -1. */
  function FirstOf<K(==)>(items: seq<Item<K>>, k: K): int
    decreases |items|
  {
    if items == [] then -1
    else
      var f := FirstOf(items[..|items| - 1], k);
      if f >= 0 then f else if items[|items| - 1].key == k then |items| - 1 else -1
  }

  function Totals<K>(g: seq<Group<K>>): int {
    Sum(g, (x: Group<K>) => x.total)
  }

  function Amounts<K>(items: seq<Item<K>>): int {
    Sum(items, (x: Item<K>) => x.amount)
  }

  /** Each key gets exactly one entry, and the entries' keys are the items' keys. */
  lemma {:induction false} FoldKeys<K>(items: seq<Item<K>>)
    ensures DistinctKeys(Fold(items))
    ensures KeysOf(Fold(items)) == ItemKeys(items)
    decreases |items|
  {
    if items != [] {
      var init, it := items[..|items| - 1], items[|items| - 1];
      FoldKeys(init);
      ItemKeysSnoc(items);
      AddToKeys(Fold(init), it);
    }
  }

  lemma ItemKeysSnoc<K>(items: seq<Item<K>>)
    requires items != []
    ensures ItemKeys(items) == ItemKeys(items[..|items| - 1]) + {items[|items| - 1].key}
  {
    var init, it := items[..|items| - 1], items[|items| - 1];
    forall k | k in ItemKeys(items) ensures k in ItemKeys(init) + {it.key} {
      var j :| 0 <= j < |items| && items[j].key == k;
      if j < |init| { assert init[j] == items[j]; }
    }
    forall k | k in ItemKeys(init) ensures k in ItemKeys(items) {
      var j :| 0 <= j < |init| && init[j].key == k;
      assert items[j] == init[j];
    }
  }

  /** One reducer step keeps the keys distinct and adds the item's key. */
  lemma AddToKeys<K>(acc: seq<Group<K>>, it: Item<K>)
    requires DistinctKeys(acc)
    ensures DistinctKeys(AddTo(acc, it))
    ensures KeysOf(AddTo(acc, it)) == KeysOf(acc) + {it.key}
  {
    var i := FindIndex(acc, (g: Group<K>) => g.key == it.key);
    var r := AddTo(acc, it);
    if i >= 0 {
      assert forall m :: 0 <= m < |r| ==> r[m].key == acc[m].key;
      assert KeysOf(r) == KeysOf(acc);
    } else {
      forall k | k in KeysOf(r) ensures k in KeysOf(acc) + {it.key} {
        var m :| 0 <= m < |r| && r[m].key == k;
        if m < |acc| { assert r[m] == acc[m]; }
      }
      forall k | k in KeysOf(acc) ensures k in KeysOf(r) {
        var m :| 0 <= m < |acc| && acc[m].key == k;
        assert r[m] == acc[m];
      }
      assert r[|acc|].key == it.key;
    }
  }

  /** A key that no item carries totals zero. */
  lemma {:induction false} KeyTotalAbsent<K>(items: seq<Item<K>>, k: K)
    requires k !in ItemKeys(items)
    ensures KeyTotal(items, k) == 0
    decreases |items|
  {
    if items != [] {
      var init := items[..|items| - 1];
      assert items[|items| - 1].key in ItemKeys(items);
      assert ItemKeys(init) <= ItemKeys(items) by {
        forall x | x in ItemKeys(init) ensures x in ItemKeys(items) {
          var j :| 0 <= j < |init| && init[j].key == x;
          assert items[j] == init[j];
        }
      }
      KeyTotalAbsent(init, k);
    }
  }

  /** Every entry's total is the sum of the amounts of the items with its key. */
  lemma {:induction false} FoldTotals<K>(items: seq<Item<K>>)
    ensures forall m :: 0 <= m < |Fold(items)| ==> Fold(items)[m].total == KeyTotal(items, Fold(items)[m].key)
    decreases |items|
  {
    if items != [] {
      var init, it := items[..|items| - 1], items[|items| - 1];
      FoldTotals(init);
      var acc := Fold(init);
      var i := FindIndex(acc, (g: Group<K>) => g.key == it.key);
      var r := Fold(items);
      assert r == AddTo(acc, it);
      FoldKeys(init);
      if i >= 0 {
        forall m | 0 <= m < |r|
          ensures r[m].total == KeyTotal(items, r[m].key)
        {
          if m != i {
            assert r[m] == acc[m] && acc[m].key != acc[i].key;
          }
        }
      } else {
        assert it.key !in KeysOf(acc);
        KeyTotalAbsent(init, it.key);
        forall m | 0 <= m < |r|
          ensures r[m].total == KeyTotal(items, r[m].key)
        {
          if m < |acc| {
            assert r[m] == acc[m];
            assert acc[m].key in KeysOf(acc);
          }
        }
      }
    }
  }

  lemma {:induction false} TotalsUpdate<K>(g: seq<Group<K>>, i: nat, x: Group<K>)
    requires i < |g|
    ensures Totals(g[i := x]) == Totals(g) - g[i].total + x.total
    decreases |g|
  {
    var f := (y: Group<K>) => y.total;
    var init := g[..|g| - 1];
    if i == |g| - 1 {
      assert g[i := x][..|g| - 1] == init;
    } else {
      assert g[i := x][..|g| - 1] == init[i := x];
      TotalsUpdate(init, i, x);
    }
  }

  /** Grouping neither loses nor invents an amount: the totals add up to the items' sum. */
  lemma {:induction false} FoldConserves<K>(items: seq<Item<K>>)
    ensures Totals(Fold(items)) == Amounts(items)
    decreases |items|
  {
    if items != [] {
      var init, it := items[..|items| - 1], items[|items| - 1];
      FoldConserves(init);
      var acc := Fold(init);
      var i := FindIndex(acc, (g: Group<K>) => g.key == it.key);
      if i >= 0 {
        TotalsUpdate(acc, i, Group(it.key, acc[i].total + it.amount));
      } else {
        SumAppend(acc, [Group(it.key, it.amount)], (x: Group<K>) => x.total);
      }
    }
  }

  /** Entries appear in the order in which their keys first occur among the items. */
  lemma {:induction false} FoldFirstOccurrence<K>(items: seq<Item<K>>)
    ensures forall m :: 0 <= m < |Fold(items)| ==> 0 <= FirstOf(items, Fold(items)[m].key)
    ensures forall m, n :: 0 <= m < n < |Fold(items)| ==>
      FirstOf(items, Fold(items)[m].key) < FirstOf(items, Fold(items)[n].key)
    decreases |items|
  {
    if items != [] {
      var init, it := items[..|items| - 1], items[|items| - 1];
      FoldFirstOccurrence(init);
      var acc := Fold(init);
      var i := FindIndex(acc, (g: Group<K>) => g.key == it.key);
      var r := Fold(items);
      assert r == AddTo(acc, it);
      assert forall m :: 0 <= m < |acc| ==> r[m].key == acc[m].key;
      assert forall m :: 0 <= m < |acc| ==> FirstOf(items, acc[m].key) == FirstOf(init, acc[m].key);
      forall m | 0 <= m < |acc|
        ensures FirstOf(init, acc[m].key) < |init|
      {
        FirstOfBound(init, acc[m].key);
      }
      if i < 0 {
        FoldKeys(init);
        assert it.key !in KeysOf(acc);
        FirstOfAbsent(init, it.key);
        assert FirstOf(items, r[|acc|].key) == |init|;
      }
    }
  }

  lemma {:induction false} FirstOfBound<K>(items: seq<Item<K>>, k: K)
    ensures -1 <= FirstOf(items, k) < |items|
    decreases |items|
  {
    if items != [] {
      FirstOfBound(items[..|items| - 1], k);
    }
  }

  lemma {:induction false} FirstOfAbsent<K>(items: seq<Item<K>>, k: K)
    requires k !in ItemKeys(items)
    ensures FirstOf(items, k) == -1
    decreases |items|
  {
    if items != [] {
      var init := items[..|items| - 1];
      assert items[|items| - 1].key in ItemKeys(items);
      assert ItemKeys(init) <= ItemKeys(items) by {
        forall x | x in ItemKeys(init) ensures x in ItemKeys(items) {
          var j :| 0 <= j < |init| && init[j].key == x;
          assert items[j] == init[j];
        }
      }
      FirstOfAbsent(init, k);
    }
  }

  /** With distinct keys no entry occurs twice. */
  lemma {:induction false} DistinctCount<K>(g: seq<Group<K>>, x: Group<K>)
    requires DistinctKeys(g)
    ensures multiset(g)[x] <= 1
    decreases |g|
  {
    if g != [] {
      var init, last := g[..|g| - 1], g[|g| - 1];
      assert g == init + [last];
      DistinctCount(init, x);
      if last == x {
        forall j | 0 <= j < |init| ensures init[j] != x {
          assert g[j] == init[j];
        }
      }
    }
  }

  lemma {:induction false} TwiceCounted<T>(s: seq<T>, i: int, j: int)
    requires 0 <= i < j < |s| && s[i] == s[j]
    ensures multiset(s)[s[i]] >= 2
  {
    var front, back := s[..j], s[j + 1..];
    assert s == front + [s[j]] + back;
    assert front[i] == s[i];
    assert multiset(front)[s[i]] >= 1;
  }

  /** Reordering the entries keeps their keys distinct. */
  lemma {:induction false} DistinctKeysPermutation<K>(a: seq<Group<K>>, b: seq<Group<K>>)
    requires multiset(a) == multiset(b) && DistinctKeys(a)
    ensures DistinctKeys(b)
  {
    forall i, j | 0 <= i < j < |b| ensures b[i].key != b[j].key {
      if b[i] == b[j] {
        TwiceCounted(b, i, j);
        DistinctCount(a, b[i]);
      } else {
        assert b[i] in multiset(a) && b[j] in multiset(a);
        var p :| 0 <= p < |a| && a[p] == b[i];
        var q :| 0 <= q < |a| && a[q] == b[j];
        if p < q {
          assert a[p].key != a[q].key;
        } else {
          assert a[q].key != a[p].key;
        }
      }
    }
  }

  /** Reordering grouped entries keeps one entry per key, each entry's total and the
      grand total. */
  lemma Reordered<K>(g: seq<Group<K>>, r: seq<Group<K>>, items: seq<Item<K>>)
    requires multiset(g) == multiset(r) && DistinctKeys(g)
    requires forall m :: 0 <= m < |g| ==> g[m].total == KeyTotal(items, g[m].key)
    ensures DistinctKeys(r)
    ensures forall m :: 0 <= m < |r| ==> r[m].total == KeyTotal(items, r[m].key)
    ensures Totals(r) == Totals(g)
    ensures KeysOf(r) == KeysOf(g)
  {
    DistinctKeysPermutation(g, r);
    KeysPermutation(g, r);
    KeysPermutation(r, g);
    SumPermutation(g, r, (x: Group<K>) => x.total);
    forall m | 0 <= m < |r| ensures r[m].total == KeyTotal(items, r[m].key) {
      assert r[m] in multiset(g);
    }
  }

  /** Reordering the groups keeps the set of keys. */
  lemma KeysPermutation<K>(a: seq<Group<K>>, b: seq<Group<K>>)
    requires multiset(a) == multiset(b)
    ensures KeysOf(a) <= KeysOf(b)
  {
    forall k | k in KeysOf(a) ensures k in KeysOf(b) {
      var i :| 0 <= i < |a| && a[i].key == k;
      assert a[i] in multiset(b);
      var j :| 0 <= j < |b| && b[j] == a[i];
    }
  }

  /** The last entries of a grouping keep distinct keys and their per-key totals. */
  lemma SliceGroups<K>(g: seq<Group<K>>, d: nat, items: seq<Item<K>>)
    requires d <= |g| && DistinctKeys(g)
    requires forall m :: 0 <= m < |g| ==> g[m].total == KeyTotal(items, g[m].key)
    ensures DistinctKeys(g[d..])
    ensures forall m :: 0 <= m < |g[d..]| ==> g[d..][m].total == KeyTotal(items, g[d..][m].key)
  {
    assert forall m :: 0 <= m < |g[d..]| ==> g[d..][m] == g[d + m];
  }

  /** Cutting off the first `d` entries of a grouping: the entries kept stay in
      first-occurrence order, and every entry cut off first occurs before every
      entry kept. */
  lemma SliceFirstOccurrence<K>(items: seq<Item<K>>, d: nat)
    requires d <= |Fold(items)|
    ensures var g := Fold(items);
      (forall m :: 0 <= m < |g| - d ==> 0 <= FirstOf(items, g[d..][m].key) < |items|)
      && (forall m, n :: 0 <= m < n < |g| - d ==> FirstOf(items, g[d..][m].key) < FirstOf(items, g[d..][n].key))
      && forall m, n :: 0 <= m < d && 0 <= n < |g| - d ==>
        FirstOf(items, g[m].key) < FirstOf(items, g[d..][n].key)
  {
    var g := Fold(items);
    FoldFirstOccurrence(items);
    forall m | 0 <= m < |g| ensures FirstOf(items, g[m].key) < |items| {
      FirstOfBound(items, g[m].key);
    }
    assert forall m :: 0 <= m < |g| - d ==> g[d..][m] == g[d + m];
  }
}
