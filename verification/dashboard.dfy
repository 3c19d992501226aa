/** The data pipeline of the dashboard page (src/app/page.tsx, `Home`): run the
    recurrence engine, then filter the user's transactions by the search query and
    the date range, and derive the totals, the five latest transactions and the
    chart series from what is left. The session user, the wall clock (through the
    date-range cutoffs) and the fresh ids are parameters. */
module Dashboard {
  import opened Common
  import opened Records
  import opened Seqs
  import opened Sorting
  import opened Grouping
  import opened Recurrence
  import opened Store

  // ----- search (lines 44-52) -----

  /** A transaction matches the lowercased query `q` through its lowercased
      description, its amount as a string, or the lowercased name of its category. */
  predicate Matches(t: Transaction, cats: seq<Category>, q: string) {
    Contains(Lower(t.description), q)
    || Contains(AmountString(t.amount), q)
    || (var c := FindCategory(cats, t.categoryId); c.Some? && Contains(Lower(c.value.name), q))
  }

  /** Whether the search keeps `t`: always for an absent or empty query. */
  predicate SearchKeeps(t: Transaction, cats: seq<Category>, query: Option<string>) {
    query.None? || query.value == "" || Matches(t, cats, Lower(query.value))
  }

  /** An absent or empty query keeps everything; otherwise exactly the matching
      transactions are kept, in their order, every copy of each. */
  function SearchFilter(ts: seq<Transaction>, cats: seq<Category>, query: Option<string>): (r: seq<Transaction>)
    ensures query.None? || query.value == "" ==> r == ts
    ensures Subseq(r, ts)
    ensures query.Some? && query.value != "" ==>
      forall i :: 0 <= i < |ts| ==> (ts[i] in r <==> Matches(ts[i], cats, Lower(query.value)))
    ensures forall x :: multiset(r)[x] == if SearchKeeps(x, cats, query) then multiset(ts)[x] else 0
  {
    if query.None? || query.value == "" then
      SubseqRefl(ts);
      ts
    else
      var q := Lower(query.value);
      FilterSubseq(ts, (t: Transaction) => Matches(t, cats, q));
      FilterCounts(ts, (t: Transaction) => Matches(t, cats, q));
      Filter(ts, (t: Transaction) => Matches(t, cats, q))
  }

  // ----- date range (lines 55-81) -----

  /** The instants the ranges start at: today's midnight, and that midnight moved
      back by seven days, one month and one year. */
  datatype Cutoffs = Cutoffs(today: Date, weekAgo: Date, monthAgo: Date, yearAgo: Date)

  /** The cutoff of a range name; any other name has none and keeps everything. */
  function Cutoff(range: string, c: Cutoffs): Option<Date> {
    if range == "today" then Some(c.today)
    else if range == "week" then Some(c.weekAgo)
    else if range == "month" then Some(c.monthAgo)
    else if range == "year" then Some(c.yearAgo)
    else None
  }

  predicate InRange(t: Transaction, range: string, c: Cutoffs) {
    var d := Cutoff(range, c);
    d.None? || Stamp(t.date) >= Stamp(d.value)
  }

  /** The range filters only when present, non-empty and not "all". */
  predicate RangeActive(range: Option<string>) {
    range.Some? && range.value != "" && range.value != "all"
  }

  /** Whether the date range keeps `t`: always when the range is not active. */
  predicate DateKeeps(t: Transaction, range: Option<string>, c: Cutoffs) {
    !RangeActive(range) || InRange(t, range.value, c)
  }

  /** An inactive range keeps everything; otherwise exactly the transactions on or
      after the cutoff are kept, in their order, every copy of each. */
  function DateFilter(ts: seq<Transaction>, range: Option<string>, c: Cutoffs): (r: seq<Transaction>)
    ensures !RangeActive(range) ==> r == ts
    ensures Subseq(r, ts)
    ensures RangeActive(range) ==> forall i :: 0 <= i < |ts| ==> (ts[i] in r <==> InRange(ts[i], range.value, c))
    ensures RangeActive(range) && Cutoff(range.value, c).None? ==> r == ts
    ensures forall x :: multiset(r)[x] == if DateKeeps(x, range, c) then multiset(ts)[x] else 0
  {
    if !RangeActive(range) then
      SubseqRefl(ts);
      ts
    else
      var keep := (t: Transaction) => InRange(t, range.value, c);
      FilterSubseq(ts, keep);
      FilterCounts(ts, keep);
      var r := Filter(ts, keep);
      assert Cutoff(range.value, c).None? ==> r == ts by {
        if Cutoff(range.value, c).None? {
          FilterAll(ts, keep);
        }
      }
      r
  }

  /** The transactions the rest of the page works on. */
  function Visible(ts: seq<Transaction>, cats: seq<Category>, query: Option<string>, range: Option<string>, c: Cutoffs): (r: seq<Transaction>)
    ensures Subseq(r, ts)
    ensures forall t :: t in r <==> t in SearchFilter(ts, cats, query) && t in DateFilter(ts, range, c)
    ensures forall x ::
      (multiset(r)[x] == if SearchKeeps(x, cats, query) && DateKeeps(x, range, c) then multiset(ts)[x] else 0)
  {
    var s := SearchFilter(ts, cats, query);
    SubseqTrans(DateFilter(s, range, c), s, ts);
    DateFilter(s, range, c)
  }

  // ----- totals (lines 83-91) -----

  function OfKind(ts: seq<Transaction>, kind: string): seq<Transaction> {
    Filter(ts, (t: Transaction) => t.kind == kind)
  }

  /** The sum of the amounts of the transactions of one type. */
  function Total(ts: seq<Transaction>, kind: string): int {
    Sum(OfKind(ts, kind), (t: Transaction) => t.amount)
  }

  /** A transaction's effect on the balance: income adds, expense subtracts, any
      other type is ignored. */
  function Signed(t: Transaction): int {
    if t.kind == KindIncome then t.amount else if t.kind == KindExpense then -t.amount else 0
  }

  /** The balance is the signed sum of the shown transactions. */
  lemma {:induction false} BalanceIsSignedSum(ts: seq<Transaction>)
    ensures Total(ts, KindIncome) - Total(ts, KindExpense) == Sum(ts, Signed)
    decreases |ts|
  {
    if ts != [] {
      var init, last := ts[..|ts| - 1], ts[|ts| - 1];
      BalanceIsSignedSum(init);
      var amount := (t: Transaction) => t.amount;
      var inc := (t: Transaction) => t.kind == KindIncome;
      var exp := (t: Transaction) => t.kind == KindExpense;
      SumAppend(Filter(init, inc), if inc(last) then [last] else [], amount);
      SumAppend(Filter(init, exp), if exp(last) then [last] else [], amount);
      assert [last][..0] == [];
    }
  }

  /** The totals do not depend on the order of the transactions. */
  lemma TotalPermutation(s: seq<Transaction>, t: seq<Transaction>, kind: string)
    requires multiset(s) == multiset(t)
    ensures Total(s, kind) == Total(t, kind)
  {
    var p := (x: Transaction) => x.kind == kind;
    FilterPermutation(s, t, p);
    SumPermutation(Filter(s, p), Filter(t, p), (x: Transaction) => x.amount);
  }

  // ----- recent transactions (lines 93-95) -----

  /** `(a, b) => new Date(b.date).getTime() - new Date(a.date).getTime()` as an
      ascending key. */
  function NewerFirst(t: Transaction): real {
    -(Stamp(t.date) as real)
  }

  /** The date-descending sort, which the page performs in place on its list. */
  function NewestFirst(ts: seq<Transaction>): (r: seq<Transaction>)
    ensures |r| == |ts| && multiset(r) == multiset(ts)
    ensures forall i, j :: 0 <= i < j < |r| ==> Stamp(r[i].date) >= Stamp(r[j].date)
  {
    var r := SortBy(ts, NewerFirst);
    assert forall i, j :: 0 <= i < j < |r| ==> NewerFirst(r[i]) <= NewerFirst(r[j]);
    r
  }

  /** The transactions of one instant keep their list order in the sorted list. */
  lemma NewestFirstStable(ts: seq<Transaction>, d: int)
    ensures Filter(NewestFirst(ts), (t: Transaction) => Stamp(t.date) == d)
         == Filter(ts, (t: Transaction) => Stamp(t.date) == d)
  {
    assert NewestFirst(ts) == SortBy(ts, NewerFirst);
    SortStableBy(ts, NewerFirst, -(d as real), (t: Transaction) => Stamp(t.date) == d);
  }

  function Recent(sorted: seq<Transaction>): seq<Transaction> {
    sorted[..if |sorted| < 5 then |sorted| else 5]
  }

  /** At most five, newest first, and none of the transactions left out is newer
      than any shown. */
  lemma RecentAreLatest(ts: seq<Transaction>)
    ensures var r := Recent(NewestFirst(ts));
      |r| == (if |ts| < 5 then |ts| else 5)
      && multiset(r) <= multiset(ts)
      && (forall i, j :: 0 <= i < j < |r| ==> Stamp(r[i].date) >= Stamp(r[j].date))
      && forall i, j :: 0 <= i < |r| && 0 <= j < |ts| && ts[j] !in r ==> Stamp(ts[j].date) <= Stamp(r[i].date)
  {
    RecentTaken(ts);
    RecentNewest(ts);
  }

  lemma RecentTaken(ts: seq<Transaction>)
    ensures multiset(Recent(NewestFirst(ts))) <= multiset(ts)
  {
    var s := NewestFirst(ts);
    PrefixIncluded(s, |Recent(s)|);
  }

  lemma PrefixIncluded(s: seq<Transaction>, k: nat)
    requires k <= |s|
    ensures multiset(s[..k]) <= multiset(s)
  {
    assert s == s[..k] + s[k..];
    assert multiset(s) == multiset(s[..k]) + multiset(s[k..]);
  }

  lemma RecentNewest(ts: seq<Transaction>)
    ensures var r := Recent(NewestFirst(ts));
      forall i, j :: 0 <= i < |r| && 0 <= j < |ts| && ts[j] !in r ==> Stamp(ts[j].date) <= Stamp(r[i].date)
  {
    var s := NewestFirst(ts);
    var r := Recent(s);
    var k := |r|;
    assert r == s[..k];
    forall j | 0 <= j < |ts| && ts[j] !in r
      ensures forall i :: 0 <= i < |r| ==> Stamp(ts[j].date) <= Stamp(r[i].date)
    {
      assert ts[j] in multiset(ts);
      OlderThanPrefix(s, k, ts[j]);
    }
  }

  /** In a newest-first list, anything outside the first `k` entries is no newer
      than each of them. */
  lemma OlderThanPrefix(s: seq<Transaction>, k: nat, x: Transaction)
    requires k <= |s|
    requires forall i, j :: 0 <= i < j < |s| ==> Stamp(s[i].date) >= Stamp(s[j].date)
    requires x in s && x !in s[..k]
    ensures forall i :: 0 <= i < k ==> Stamp(x.date) <= Stamp(s[i].date)
  {
    var p :| 0 <= p < |s| && s[p] == x;
  }

  // ----- expenses by month (lines 97-112) -----

  const MonthNames: seq<string> :=
    ["Jan", "Feb", "Mar", "Apr", "May", "Jun", "Jul", "Aug", "Sep", "Oct", "Nov", "Dec"]

  /** `toLocaleString('default', { month: 'short' })` in an English locale. */
  function MonthName(d: Date): string {
    MonthNames[d.month % 12]
  }

  /** `months.indexOf(name)`. */
  function MonthOrder(g: Group<string>): real {
    FindIndex(MonthNames, (m: string) => m == g.key) as real
  }

  function MonthItems(ts: seq<Transaction>): seq<Item<string>> {
    Map(OfKind(ts, KindExpense), (t: Transaction) => Item(MonthName(t.date), t.amount))
  }

  /** Grouping the expenses, whatever the key, gives one entry per key with that
      key's total, and the entries add up to the expense total. */
  lemma GroupedExpenses<K>(ts: seq<Transaction>, items: seq<Item<K>>)
    requires |items| == |OfKind(ts, KindExpense)|
    requires forall i :: 0 <= i < |items| ==> items[i].amount == OfKind(ts, KindExpense)[i].amount
    ensures DistinctKeys(Fold(items)) && KeysOf(Fold(items)) == ItemKeys(items)
    ensures forall m :: 0 <= m < |Fold(items)| ==> Fold(items)[m].total == KeyTotal(items, Fold(items)[m].key)
    ensures Totals(Fold(items)) == Total(ts, KindExpense)
  {
    FoldKeys(items);
    FoldTotals(items);
    FoldConserves(items);
    SumPointwise(items, OfKind(ts, KindExpense), (x: Item<K>) => x.amount, (t: Transaction) => t.amount);
  }

  /** One entry per month that has expenses, in calendar order, each with the total
      of that month's expenses; together they add up to the expense total. */
  function MonthlyExpenses(ts: seq<Transaction>): (r: seq<Group<string>>)
    ensures DistinctKeys(r)
    ensures KeysOf(r) == ItemKeys(MonthItems(ts))
    ensures Sorted(r, MonthOrder)
    ensures forall m :: 0 <= m < |r| ==> r[m].total == KeyTotal(MonthItems(ts), r[m].key)
    ensures Totals(r) == Total(ts, KindExpense)
  {
    var items := MonthItems(ts);
    var g := Fold(items);
    var r := SortBy(g, MonthOrder);
    GroupedExpenses(ts, items);
    Reordered(g, r, items);
    r
  }

  // ----- expenses by category (lines 114-126) -----

  /** The category's name, or "Unknown" when the category is not the user's. */
  function CategoryLabel(cats: seq<Category>, t: Transaction): string {
    var c := FindCategory(cats, t.categoryId);
    if c.Some? then c.value.name else "Unknown"
  }

  function CategoryItems(ts: seq<Transaction>, cats: seq<Category>): seq<Item<string>> {
    Map(OfKind(ts, KindExpense), (t: Transaction) => Item(CategoryLabel(cats, t), t.amount))
  }

  /** One entry per category name among the expenses, in order of first appearance,
      each with that name's total; together they add up to the expense total. */
  function CategoryExpenses(ts: seq<Transaction>, cats: seq<Category>): (r: seq<Group<string>>)
    ensures DistinctKeys(r)
    ensures KeysOf(r) == ItemKeys(CategoryItems(ts, cats))
    ensures forall m :: 0 <= m < |r| ==> r[m].total == KeyTotal(CategoryItems(ts, cats), r[m].key)
    ensures forall m, n :: 0 <= m < n < |r| ==>
      0 <= FirstOf(CategoryItems(ts, cats), r[m].key) < FirstOf(CategoryItems(ts, cats), r[n].key)
    ensures Totals(r) == Total(ts, KindExpense)
  {
    var items := CategoryItems(ts, cats);
    GroupedExpenses(ts, items);
    FoldFirstOccurrence(items);
    Fold(items)
  }

  // ----- budget progress (lines 128-141) -----

  datatype BudgetRow = BudgetRow(category: string, budget: int, spent: int, percentage: real)

  predicate Budgeted(c: Category) {
    c.kind == KindExpense && BudgetSet(c)
  }

  /** A category's row: everything shown in its category, of every type, against
      `budget || 0`, as a percentage of `budget || 1`. */
  function RowOf(c: Category, ts: seq<Transaction>): BudgetRow {
    var spent := CategorySpent(ts, c.id);
    var budget := if BudgetSet(c) then c.budget.value else 0;
    var divisor := if BudgetSet(c) then c.budget.value else 1;
    BudgetRow(c.name, budget, spent, spent as real / divisor as real * 100.0)
  }

  /** `.map` over the budgeted categories, in category order. */
  function BudgetRows(cats: seq<Category>, ts: seq<Transaction>): (rows: seq<BudgetRow>)
    ensures |rows| == |Filter(cats, Budgeted)|
    ensures forall k :: 0 <= k < |rows| ==> rows[k] == RowOf(Filter(cats, Budgeted)[k], ts)
  {
    Map(Filter(cats, Budgeted), (c: Category) => RowOf(c, ts))
  }

  /** `(a, b) => b.percentage - a.percentage` as an ascending key. */
  function PercentageDescending(row: BudgetRow): real {
    -row.percentage
  }

  /** One row per expense category with a truthy budget, highest percentage first. */
  function BudgetData(cats: seq<Category>, ts: seq<Transaction>): (r: seq<BudgetRow>)
    ensures |r| == |Filter(cats, Budgeted)|
    ensures multiset(r) == multiset(BudgetRows(cats, ts))
    ensures forall i, j :: 0 <= i < j < |r| ==> r[i].percentage >= r[j].percentage
    ensures forall i :: 0 <= i < |r| ==> exists c :: c in cats && Budgeted(c) && r[i] == RowOf(c, ts)
    ensures forall c :: c in cats && Budgeted(c) ==> RowOf(c, ts) in r
  {
    BudgetRowsSorted(cats, ts);
    BudgetRowsSound(cats, ts);
    BudgetRowsComplete(cats, ts);
    SortBy(BudgetRows(cats, ts), PercentageDescending)
  }

  /** Rows with equal percentages keep the order of their categories. */
  lemma BudgetDataStable(cats: seq<Category>, ts: seq<Transaction>, p: real)
    ensures Filter(BudgetData(cats, ts), (row: BudgetRow) => row.percentage == p)
         == Filter(BudgetRows(cats, ts), (row: BudgetRow) => row.percentage == p)
  {
    var rows := BudgetRows(cats, ts);
    assert BudgetData(cats, ts) == SortBy(rows, PercentageDescending);
    SortStableBy(rows, PercentageDescending, -p, (row: BudgetRow) => row.percentage == p);
  }

  lemma BudgetRowsSorted(cats: seq<Category>, ts: seq<Transaction>)
    ensures var r := SortBy(BudgetRows(cats, ts), PercentageDescending);
      forall i, j :: 0 <= i < j < |r| ==> r[i].percentage >= r[j].percentage
  {
    var r := SortBy(BudgetRows(cats, ts), PercentageDescending);
    forall i, j | 0 <= i < j < |r| ensures r[i].percentage >= r[j].percentage {
      assert PercentageDescending(r[i]) <= PercentageDescending(r[j]);
    }
  }

  lemma BudgetRowsSound(cats: seq<Category>, ts: seq<Transaction>)
    ensures var r := SortBy(BudgetRows(cats, ts), PercentageDescending);
      forall i :: 0 <= i < |r| ==> exists c :: c in cats && Budgeted(c) && r[i] == RowOf(c, ts)
  {
    var rows := BudgetRows(cats, ts);
    var r := SortBy(rows, PercentageDescending);
    var f := Filter(cats, Budgeted);
    forall i | 0 <= i < |r| ensures exists c :: c in cats && Budgeted(c) && r[i] == RowOf(c, ts) {
      assert r[i] in multiset(rows);
      var k :| 0 <= k < |rows| && rows[k] == r[i];
      assert f[k] in cats && Budgeted(f[k]);
    }
  }

  lemma BudgetRowsComplete(cats: seq<Category>, ts: seq<Transaction>)
    ensures var r := SortBy(BudgetRows(cats, ts), PercentageDescending);
      forall c :: c in cats && Budgeted(c) ==> RowOf(c, ts) in r
  {
    var rows := BudgetRows(cats, ts);
    var r := SortBy(rows, PercentageDescending);
    var f := Filter(cats, Budgeted);
    forall c | c in cats && Budgeted(c) ensures RowOf(c, ts) in r {
      var j :| 0 <= j < |cats| && cats[j] == c;
      var k :| 0 <= k < |f| && f[k] == c;
      assert rows[k] == RowOf(c, ts);
      assert RowOf(c, ts) in multiset(r);
    }
  }

  // ----- spending trend (lines 143-156) -----

  /** `toLocaleDateString(undefined, { month: 'short', day: 'numeric' })`: month and
      day of the month, without the year. */
  datatype DayLabel = DayLabel(month: int, day: int)

  /** The expenses, oldest first. */
  function Chronological(ts: seq<Transaction>): (r: seq<Transaction>)
    ensures |r| == |OfKind(ts, KindExpense)|
    ensures multiset(r) == multiset(OfKind(ts, KindExpense))
    ensures forall i, j :: 0 <= i < j < |r| ==> Stamp(r[i].date) <= Stamp(r[j].date)
  {
    var r := SortBy(OfKind(ts, KindExpense), OlderFirst);
    assert forall i, j :: 0 <= i < j < |r| ==> OlderFirst(r[i]) <= OlderFirst(r[j]);
    r
  }

  /** `(a, b) => new Date(a.date).getTime() - new Date(b.date).getTime()` as an
      ascending key. */
  function OlderFirst(t: Transaction): real {
    Stamp(t.date) as real
  }

  /** The expenses of one instant keep their list order in the trend's sort. */
  lemma ChronologicalStable(ts: seq<Transaction>, d: int)
    ensures Filter(Chronological(ts), (t: Transaction) => Stamp(t.date) == d)
         == Filter(OfKind(ts, KindExpense), (t: Transaction) => Stamp(t.date) == d)
  {
    var e := OfKind(ts, KindExpense);
    assert Chronological(ts) == SortBy(e, OlderFirst);
    SortStableBy(e, OlderFirst, d as real, (t: Transaction) => Stamp(t.date) == d);
  }

  /** The day label and amount of each expense, oldest first. */
  function DayItems(chron: seq<Transaction>): (r: seq<Item<DayLabel>>)
    ensures |r| == |chron|
  {
    Map(chron, (t: Transaction) => Item(DayLabel(t.date.month, t.date.day), t.amount))
  }

  /** The last (at most) `n` groups. */
  function LastGroups<K>(g: seq<Group<K>>, n: nat): seq<Group<K>> {
    g[|g| - (if |g| < n then |g| else n)..]
  }

  /** The trend over the expenses in the order given. */
  function TrendOf(chron: seq<Transaction>): (r: seq<Group<DayLabel>>)
    ensures |r| == if |Fold(DayItems(chron))| < 30 then |Fold(DayItems(chron))| else 30
    ensures DistinctKeys(r)
    ensures forall m :: 0 <= m < |r| ==> r[m].total == KeyTotal(DayItems(chron), r[m].key)
  {
    var items := DayItems(chron);
    FoldKeys(items);
    FoldTotals(items);
    var g := Fold(items);
    SliceGroups(g, |g| - (if |g| < 30 then |g| else 30), items);
    LastGroups(g, 30)
  }

  /** At most 30 entries, one per day label, each with that label's whole total. */
  function TrendData(ts: seq<Transaction>): seq<Group<DayLabel>> {
    TrendOf(Chronological(ts))
  }

  /** The trend runs forward in time and keeps the latest days: its entries come in
      the order in which their days first appear among the expenses sorted oldest
      first, and every group dropped first appears before every group kept. */
  lemma TrendIsLatest(ts: seq<Transaction>)
    ensures var chron := Chronological(ts);
      var items, r, g := DayItems(chron), TrendOf(chron), Fold(DayItems(chron));
      (forall m :: 0 <= m < |r| ==> 0 <= FirstOf(items, r[m].key) < |chron|)
      && (forall m, n :: 0 <= m < n < |r| ==>
        FirstOf(items, r[m].key) < FirstOf(items, r[n].key)
        && Stamp(chron[FirstOf(items, r[m].key)].date) <= Stamp(chron[FirstOf(items, r[n].key)].date))
      && forall m, n :: 0 <= m < |g| - |r| && 0 <= n < |r| ==>
        FirstOf(items, g[m].key) < FirstOf(items, r[n].key)
  {
    var chron := Chronological(ts);
    LatestDays(chron);
    FirstSeenInOrder(chron, DayItems(chron), TrendOf(chron));
  }

  /** The kept groups are in first-occurrence order and come after the dropped ones. */
  lemma LatestDays(chron: seq<Transaction>)
    ensures var items, r, g := DayItems(chron), TrendOf(chron), Fold(DayItems(chron));
      (forall m :: 0 <= m < |r| ==> 0 <= FirstOf(items, r[m].key) < |items|)
      && (forall m, n :: 0 <= m < n < |r| ==> FirstOf(items, r[m].key) < FirstOf(items, r[n].key))
      && forall m, n :: 0 <= m < |g| - |r| && 0 <= n < |r| ==>
        FirstOf(items, g[m].key) < FirstOf(items, r[n].key)
  {
    var items := DayItems(chron);
    var g := Fold(items);
    var r := TrendOf(chron);
    assert r == LastGroups(g, 30);
    SliceFirstOccurrence(items, |g| - |r|);
  }

  /** Over a list sorted oldest first, entries in first-occurrence order are in
      chronological order of their first occurrences. */
  lemma FirstSeenInOrder<K>(chron: seq<Transaction>, items: seq<Item<K>>, r: seq<Group<K>>)
    requires |items| == |chron|
    requires forall i, j :: 0 <= i < j < |chron| ==> Stamp(chron[i].date) <= Stamp(chron[j].date)
    requires forall m :: 0 <= m < |r| ==> 0 <= FirstOf(items, r[m].key) < |items|
    requires forall m, n :: 0 <= m < n < |r| ==> FirstOf(items, r[m].key) < FirstOf(items, r[n].key)
    ensures forall m, n :: 0 <= m < n < |r| ==>
      Stamp(chron[FirstOf(items, r[m].key)].date) <= Stamp(chron[FirstOf(items, r[n].key)].date)
  {
    forall m, n | 0 <= m < n < |r|
      ensures Stamp(chron[FirstOf(items, r[m].key)].date) <= Stamp(chron[FirstOf(items, r[n].key)].date)
    {
      var a, b := FirstOf(items, r[m].key), FirstOf(items, r[n].key);
      assert Stamp(chron[a].date) <= Stamp(chron[b].date);
    }
  }

  // ----- the page -----

  datatype View = View(
    income: int, expenses: int, balance: int, recent: seq<Transaction>,
    monthly: seq<Group<string>>, byCategory: seq<Group<string>>,
    budgets: seq<BudgetRow>, trend: seq<Group<DayLabel>>)

  /** Everything the page shows, from the user's transactions and categories. The
      in-place sort at line 94 means that every series after it is computed from
      the date-descending list. */
  function Summary(ts: seq<Transaction>, cats: seq<Category>, query: Option<string>, range: Option<string>, c: Cutoffs): View {
    Figures(Visible(ts, cats, query, range, c), cats)
  }

  /** The cards and chart series derived from the transactions that are shown. */
  function Figures(shown: seq<Transaction>, cats: seq<Category>): View {
    var income := Total(shown, KindIncome);
    var expenses := Total(shown, KindExpense);
    var sorted := NewestFirst(shown);
    View(income, expenses, income - expenses, Recent(sorted), MonthlyExpenses(sorted),
      CategoryExpenses(sorted, cats), BudgetData(cats, sorted), TrendData(sorted))
  }

  /** The figures agree with each other: the balance is the signed sum of what is
      shown, both expense charts add up to the expense card, at most five recent
      transactions and at most thirty trend points are shown. */
  lemma SummaryConsistent(ts: seq<Transaction>, cats: seq<Category>, query: Option<string>, range: Option<string>, c: Cutoffs)
    ensures var v := Summary(ts, cats, query, range, c);
      v.balance == Sum(Visible(ts, cats, query, range, c), Signed)
      && Totals(v.monthly) == v.expenses
      && Totals(v.byCategory) == v.expenses
      && |v.recent| <= 5 && |v.trend| <= 30
  {
    var shown := Visible(ts, cats, query, range, c);
    var sorted := NewestFirst(shown);
    var v := Summary(ts, cats, query, range, c);
    assert v.balance == Total(shown, KindIncome) - Total(shown, KindExpense);
    assert v.monthly == MonthlyExpenses(sorted) && v.byCategory == CategoryExpenses(sorted, cats);
    assert v.recent == Recent(sorted) && v.trend == TrendOf(Chronological(sorted));
    BalanceIsSignedSum(shown);
    ChartsAddUp(shown, cats);
  }

  /** Sorting the shown list newest first changes no chart total. */
  lemma ChartsAddUp(shown: seq<Transaction>, cats: seq<Category>)
    ensures Totals(MonthlyExpenses(NewestFirst(shown))) == Total(shown, KindExpense)
    ensures Totals(CategoryExpenses(NewestFirst(shown), cats)) == Total(shown, KindExpense)
  {
    TotalPermutation(shown, NewestFirst(shown), KindExpense);
  }

  /** The page: materialise the due recurring transactions, then compute the view
      over the store as it is afterwards. */
  method Home(db: Database, userId: string, now: Date, ids: seq<string>,
              query: Option<string>, range: Option<string>, c: Cutoffs) returns (v: View)
    requires |ids| == |db.recurring|
    modifies db`recurring, db`transactions, db`writes
    ensures db.recurring == AdvanceAll(old(db.recurring), userId, now)
    ensures db.transactions == old(db.transactions) + Generated(old(db.recurring), ids, userId, now)
    ensures db.writes == old(db.writes) + (if Generated(old(db.recurring), ids, userId, now) == [] then 0 else 1)
    ensures v == Summary(db.GetTransactions(userId), db.GetCategories(userId), query, range, c)
  {
    db.ProcessRecurring(userId, now, ids);
    v := Render(db.GetTransactions(userId), db.GetCategories(userId), query, range, c);
  }

  /** The computation after the recurrence engine, step by step as the page does
      it, with the list sorted in place before the charts are derived. */
  method Render(transactions: seq<Transaction>, categories: seq<Category>,
                query: Option<string>, range: Option<string>, c: Cutoffs) returns (v: View)
    ensures v == Summary(transactions, categories, query, range, c)
  {
    var shown := Filtered(transactions, categories, query, range, c);
    v := Derive(shown, categories);
  }

  /** Lines 44-81: the search, then the date range. */
  method Filtered(transactions: seq<Transaction>, categories: seq<Category>,
                  query: Option<string>, range: Option<string>, c: Cutoffs) returns (shown: seq<Transaction>)
    ensures shown == Visible(transactions, categories, query, range, c)
  {
    shown := SearchFilter(transactions, categories, query);
    shown := DateFilter(shown, range, c);
  }

  /** Lines 83-156: the totals, the sort in place, and the chart series. */
  method Derive(shown: seq<Transaction>, categories: seq<Category>) returns (v: View)
    ensures v == Figures(shown, categories)
  {
    var shown := shown;
    var income := Total(shown, KindIncome);
    var expenses := Total(shown, KindExpense);
    var balance := income - expenses;
    shown := NewestFirst(shown);
    var recentTransactions := Recent(shown);
    var monthlyExpenses := MonthlyChart(shown);
    var categoryExpenses := GroupTotals(CategoryItems(shown, categories));
    var budgetData := BudgetData(categories, shown);
    var trendData := TrendChart(shown);
    v := View(income, expenses, balance, recentTransactions, monthlyExpenses,
      categoryExpenses, budgetData, trendData);
  }

  /** Lines 97-112: the reducer loop over the expenses, then the sort by month. */
  method MonthlyChart(shown: seq<Transaction>) returns (r: seq<Group<string>>)
    ensures r == MonthlyExpenses(shown)
  {
    var monthGroups := GroupTotals(MonthItems(shown));
    r := SortBy(monthGroups, MonthOrder);
  }

  /** Lines 143-156: the expenses oldest first, the reducer loop, the last 30. */
  method TrendChart(shown: seq<Transaction>) returns (r: seq<Group<DayLabel>>)
    ensures r == TrendData(shown)
  {
    var dayGroups := GroupTotals(DayItems(Chronological(shown)));
    r := LastGroups(dayGroups, 30);
  }
}
