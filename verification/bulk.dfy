/** POST /api/transactions/bulk (src/app/api/transactions/bulk/route.ts): turn the
    rows of an imported CSV file into transactions of the session user and append
    them all at once. */
module BulkImport {
  import opened Common
  import opened Records
  import opened Seqs
  import opened Store

  /** A row's `date` field: absent or empty, a string `new Date` can read, or one it
      cannot (whose `toISOString()` throws). */
  datatype DateText = Blank | Parsed(value: Date) | Unparsable

  /** One imported row; `amount` is `Number(t.amount)`, with `None` for NaN. An absent
      string field is the empty string. */
  datatype Row = Row(description: string, amount: Option<int>, kind: string, date: DateText, category: string)

  const DefaultDescription: string := "Imported Transaction"

  /** Line 33: a type of "income" or "expense" is kept; any other is inferred from
      the sign of the amount, a non-numeric amount counting as income. */
  function InferKind(row: Row): (k: string)
    ensures k == KindIncome || k == KindExpense
    ensures (row.kind == KindIncome || row.kind == KindExpense) ==> k == row.kind
    ensures row.kind != KindIncome && row.kind != KindExpense ==>
      (k == KindExpense <==> row.amount.Some? && row.amount.value < 0)
  {
    if row.kind == KindIncome || row.kind == KindExpense then row.kind
    else if row.amount.Some? && row.amount.value < 0 then KindExpense
    else KindIncome
  }

  /** Lines 27 and 35: the first category whose lowercased name equals the row's
      lowercased category; failing that the first category; failing that "". */
  function CategoryFor(cats: seq<Category>, category: string): (id: string)
    ensures (exists i :: 0 <= i < |cats| && Lower(cats[i].name) == Lower(category)) ==>
      exists i :: 0 <= i < |cats| && Lower(cats[i].name) == Lower(category) && id == cats[i].id
        && forall j :: 0 <= j < i ==> Lower(cats[j].name) != Lower(category)
    ensures (forall i :: 0 <= i < |cats| ==> Lower(cats[i].name) != Lower(category)) ==>
      id == if cats == [] then "" else cats[0].id
    ensures cats != [] ==> exists c :: c in cats && id == c.id
    ensures cats == [] ==> id == ""
  {
    var c := Find(cats, (c: Category) => Lower(c.name) == Lower(category));
    if c.Some? then c.value.id else if cats != [] then cats[0].id else ""
  }

  /** The transaction one row becomes (lines 29-36): always the session user's,
      never in a wallet, always described, typed income or expense, and filed under
      one of the user's categories whenever the user has any. */
  function MapRow(userId: string, cats: seq<Category>, row: Row, now: Date): (t: NewTransaction)
    ensures t.userId == userId && t.walletId == None
    ensures t.description != "" && (row.description != "" ==> t.description == row.description)
    ensures row.description == "" ==> t.description == DefaultDescription
    ensures (row.amount.Some? ==> t.amount == row.amount.value) && (row.amount.None? ==> t.amount == 0)
    ensures t.kind == KindIncome || t.kind == KindExpense
    ensures t.kind == InferKind(row)
    ensures (row.date.Parsed? ==> t.date == row.date.value) && (row.date.Blank? ==> t.date == now)
    ensures cats != [] ==> exists c :: c in cats && t.categoryId == c.id
    ensures cats == [] ==> t.categoryId == ""
    ensures t.categoryId == CategoryFor(cats, row.category)
  {
    NewTransaction(
      userId,
      row.amount.GetOr(0),
      if row.description == "" then DefaultDescription else row.description,
      if row.date.Parsed? then row.date.value else now,
      InferKind(row),
      CategoryFor(cats, row.category),
      None)
  }

  /** Every row maps, in order, to a transaction of the user. */
  function MapRows(userId: string, cats: seq<Category>, rows: seq<Row>, now: Date): (ts: seq<NewTransaction>)
    ensures |ts| == |rows|
    ensures forall i :: 0 <= i < |rows| ==> ts[i] == MapRow(userId, cats, rows[i], now)
  {
    Map(rows, (row: Row) => MapRow(userId, cats, row, now))
  }

  predicate AllDatesReadable(rows: seq<Row>) {
    forall i :: 0 <= i < |rows| ==> !rows[i].date.Unparsable?
  }

  /** The `map` at lines 25-37, row by row: it stops at the first date that cannot
      be read. */
  method MapAll(userId: string, categories: seq<Category>, transactions: seq<Row>, now: Date)
    returns (valid: Option<seq<NewTransaction>>)
    ensures valid.Some? <==> AllDatesReadable(transactions)
    ensures valid.Some? ==> valid.value == MapRows(userId, categories, transactions, now)
  {
    var mapped: seq<NewTransaction> := [];
    var i := 0;
    while i < |transactions|
      invariant 0 <= i <= |transactions|
      invariant forall k :: 0 <= k < i ==> !transactions[k].date.Unparsable?
      invariant |mapped| == i
      invariant forall k :: 0 <= k < i ==> mapped[k] == MapRow(userId, categories, transactions[k], now)
    {
      if transactions[i].date.Unparsable? {
        return None;
      }
      mapped := mapped + [MapRow(userId, categories, transactions[i], now)];
      i := i + 1;
    }
    ghost var all := MapRows(userId, categories, transactions, now);
    assert |all| == |mapped| && forall k :: 0 <= k < |all| ==> all[k] == mapped[k];
    valid := Some(mapped);
  }

  /** The route. `body` is `None` when `transactions` is not an array; `ids[i]` is
      the fresh id for row `i`. A missing or empty list is refused; a date that
      cannot be read aborts the whole import; otherwise every row is appended in one
      write and the answer is the number of rows. */
  method Post(db: Database, userId: string, body: Option<seq<Row>>, ids: seq<string>, now: Date)
    returns (r: Reply<int>)
    requires body.Some? ==> |ids| == |body.value|
    modifies db`transactions, db`writes
    ensures (body.None? || body.value == []) ==>
      r == BadRequest && db.transactions == old(db.transactions) && db.writes == old(db.writes)
    ensures body.Some? && body.value != [] && !AllDatesReadable(body.value) ==>
      r == ServerError && db.transactions == old(db.transactions) && db.writes == old(db.writes)
    ensures body.Some? && body.value != [] && AllDatesReadable(body.value) ==>
      r == Ok(|body.value|)
      && db.transactions == old(db.transactions)
           + StampedAll(MapRows(userId, old(db.GetCategories(userId)), body.value, now), ids, now)
      && db.writes == old(db.writes) + 1
  {
    if body.None? || body.value == [] {
      return BadRequest;
    }
    var transactions := body.value;
    var categories := db.GetCategories(userId);
    var valid := MapAll(userId, categories, transactions, now);
    if valid.None? {
      return ServerError;
    }
    var added := db.AddTransactions(valid.value, ids, now);
    r := Ok(|valid.value|);
  }

  /** What an import appends: one transaction per row, in row order, each owned by
      the session user and carrying its own fresh id. */
  lemma ImportedRows(userId: string, cats: seq<Category>, rows: seq<Row>, ids: seq<string>, now: Date)
    requires |ids| == |rows|
    ensures var added := StampedAll(MapRows(userId, cats, rows, now), ids, now);
      |added| == |rows|
      && forall i :: 0 <= i < |rows| ==>
           added[i].userId == userId && added[i].id == ids[i] && added[i].walletId == None
           && added[i].kind == InferKind(rows[i]) && added[i].categoryId == CategoryFor(cats, rows[i].category)
  {
  }
}
