/** POST /api/transactions (src/app/api/transactions/route.ts): validate the body,
    store the transaction, then tell the client whether the category's budget is
    now exceeded. The session is a `userId` parameter. */
module TransactionsRoute {
  import opened Common
  import opened Records
  import opened Seqs
  import opened Store

  /** The request body; an absent string field is the empty string (both are falsy). */
  datatype TransactionBody = TransactionBody(
    amount: AmountField, description: string, date: Option<Date>, kind: string, categoryId: string)

  /** The check at line 28. */
  predicate HasRequiredFields(b: TransactionBody) {
    Truthy(b.amount) && b.description != "" && b.date.Some? && b.kind != "" && b.categoryId != ""
  }

  /** The JSON answer on success: the stored transaction plus the budget verdict. */
  datatype Posted = Posted(transaction: Transaction, isOverBudget: bool, categoryName: string)

  /** `j` is the position of the first category with this id. */
  predicate FirstWithId(cats: seq<Category>, id: string, j: int) {
    0 <= j < |cats| && cats[j].id == id && forall k :: 0 <= k < j ==> cats[k].id != id
  }

  /** The category has a truthy budget and its all-time total is strictly above it. */
  predicate Exceeded(ts: seq<Transaction>, c: Category) {
    c.budget.Some? && c.budget.value != 0 && CategorySpent(ts, c.id) > c.budget.value
  }

  /** The budget verdict of lines 42-57 over the user's transactions and categories:
      over budget exactly when the transaction is an expense, the first of the
      user's categories with its category id has a truthy budget, and the
      category's all-time total is strictly above that budget; the category's name
      is reported only then. */
  function BudgetVerdict(ts: seq<Transaction>, cats: seq<Category>, kind: string, categoryId: string): (r: (bool, string))
    ensures r.0 <==> kind == KindExpense && (exists j :: FirstWithId(cats, categoryId, j) && Exceeded(ts, cats[j]))
    ensures r.0 ==> exists j :: FirstWithId(cats, categoryId, j) && r.1 == cats[j].name
    ensures !r.0 ==> r.1 == ""
    ensures (forall j :: 0 <= j < |cats| ==> cats[j].id != categoryId) ==> r == (false, "")
  {
    var c := FindCategory(cats, categoryId);
    if kind == KindExpense && c.Some? && BudgetSet(c.value) && CategorySpent(ts, categoryId) > c.value.budget.value
    then (true, c.value.name)
    else (false, "")
  }

  /** What the route hands to the store: the amount read by parseFloat, no wallet. */
  function ToNewTransaction(b: TransactionBody, userId: string): NewTransaction
    requires HasRequiredFields(b)
  {
    NewTransaction(userId, b.amount.value, b.description, b.date.value, b.kind, b.categoryId, None)
  }

  /** The route. A body missing a required field is refused before anything is stored;
      otherwise the transaction is stored FIRST and the verdict is computed over the
      store that already holds it. */
  method Post(db: Database, userId: string, body: TransactionBody, id: string, now: Date)
    returns (r: Reply<Posted>)
    modifies db`transactions, db`writes
    ensures !HasRequiredFields(body) ==>
      r == BadRequest && db.transactions == old(db.transactions) && db.writes == old(db.writes)
    ensures HasRequiredFields(body) ==>
      var t := Stamped(ToNewTransaction(body, userId), id, now);
      var verdict := BudgetVerdict(db.GetTransactions(userId), db.GetCategories(userId), body.kind, body.categoryId);
      db.transactions == old(db.transactions) + [t] && r == Ok(Posted(t, verdict.0, verdict.1))
      && db.writes == old(db.writes) + 1
  {
    if !HasRequiredFields(body) {
      return BadRequest;
    }
    var newTransaction := db.AddTransaction(ToNewTransaction(body, userId), id, now);
    var isOverBudget, categoryName := Judge(db.GetTransactions(userId), db.GetCategories(userId), body.kind, body.categoryId);
    r := Ok(Posted(newTransaction, isOverBudget, categoryName));
  }

  /** Lines 42-57 step by step, over the store as it is after the append. */
  method Judge(ts: seq<Transaction>, cats: seq<Category>, kind: string, categoryId: string)
    returns (isOverBudget: bool, categoryName: string)
    ensures (isOverBudget, categoryName) == BudgetVerdict(ts, cats, kind, categoryId)
  {
    isOverBudget := false;
    categoryName := "";
    if kind == KindExpense {
      var category := FindCategory(cats, categoryId);
      if category.Some? && BudgetSet(category.value) {
        var totalSpent := CategorySpent(ts, categoryId);
        if totalSpent > category.value.budget.value {
          isOverBudget := true;
          categoryName := category.value.name;
        }
      }
    }
  }

  /** The budget total has no filter on type or period: appending any transaction in
      the category adds its amount, appending one in another category adds nothing. */
  lemma {:induction false} SpentAppend(ts: seq<Transaction>, t: Transaction, categoryId: string)
    ensures CategorySpent(ts + [t], categoryId)
      == CategorySpent(ts, categoryId) + (if t.categoryId == categoryId then t.amount else 0)
  {
    var p := (x: Transaction) => x.categoryId == categoryId;
    FilterAppend(ts, [t], p);
    assert [t][..0] == [];
    SumAppend(Filter(ts, p), Filter([t], p), (x: Transaction) => x.amount);
  }

  /** The new transaction is part of the total it is judged by: with the user's
      transactions before the request, the verdict is "previous total + new amount
      exceeds the budget". */
  lemma NewAmountCounted(before: seq<Transaction>, cats: seq<Category>, t: Transaction, userId: string)
    requires t.userId == userId
    ensures var owned := (x: Transaction) => x.userId == userId;
      var c := FindCategory(cats, t.categoryId);
      BudgetVerdict(Filter(before + [t], owned), cats, t.kind, t.categoryId).0
      <==> (t.kind == KindExpense && c.Some? && BudgetSet(c.value)
            && CategorySpent(Filter(before, owned), t.categoryId) + t.amount > c.value.budget.value)
  {
    var owned := (x: Transaction) => x.userId == userId;
    FilterAppend(before, [t], owned);
    assert [t][..0] == [];
    SpentAppend(Filter(before, owned), t, t.categoryId);
  }

  /** A budget of 500.00 with 450.00 already spent: adding a 100.00 expense in that
      category is reported as over budget, with the category's name. */
  lemma BudgetOverflowExample(userId: string, name: string, d: Date, id: string, now: Date)
    ensures var cat := Category("c1", userId, name, KindExpense, Some(50000), now, now);
      var old1 := Transaction("t1", userId, 45000, "rent", d, KindExpense, "c1", None, now, now);
      var t := Transaction(id, userId, 10000, "more", d, KindExpense, "c1", None, now, now);
      BudgetVerdict([old1, t], [cat], KindExpense, "c1") == (true, name)
  {
    var cat := Category("c1", userId, name, KindExpense, Some(50000), now, now);
    var old1 := Transaction("t1", userId, 45000, "rent", d, KindExpense, "c1", None, now, now);
    var t := Transaction(id, userId, 10000, "more", d, KindExpense, "c1", None, now, now);
    assert CategorySpent([], "c1") == 0;
    SpentAppend([], old1, "c1");
    assert [] + [old1] == [old1];
    assert CategorySpent([old1], "c1") == 45000;
    SpentAppend([old1], t, "c1");
    assert [old1] + [t] == [old1, t];
    assert CategorySpent([old1, t], "c1") == 55000;
    assert FindCategory([cat], "c1") == Some(cat);
  }
}
