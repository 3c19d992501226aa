/** The record store of src/lib/db.ts. Each operation there reads the whole data
    file, changes the in-memory collections and writes the file back; here the
    collections are the fields of one `Database` object and `writes` counts the
    write-backs. Ids that db.ts draws from Math.random() and the current time
    are parameters. */
module Store {
  import opened Common
  import opened Records
  import opened Seqs
  import opened Recurrence

  class Database {
    var users: seq<User>
    var transactions: seq<Transaction>
    var categories: seq<Category>
    var recurring: seq<Recurring>
    var goals: seq<Goal>
    var wallets: seq<Wallet>
    /** How many times the store has been written back. */
    var writes: nat

    /** The store as it starts when there is no data file: every collection empty. */
    constructor ()
      ensures users == [] && transactions == [] && categories == [] && recurring == []
      ensures goals == [] && wallets == [] && writes == 0
    {
      users, transactions, categories, recurring, goals, wallets := [], [], [], [], [], [];
      writes := 0;
    }

    // ---------------------------------------------------------------- users

    /** Appends the user and the ten default categories, all owned by the new user. */
    method CreateUser(input: NewUser, id: string, categoryIds: seq<string>, now: Date) returns (u: User)
      requires |categoryIds| == |DefaultCategories|
      modifies this`users, this`categories, this`writes
      ensures u == User(id, input.email, input.passwordHash, input.name, input.phone, input.photoUrl,
                        input.recoveryEmail, input.loginHistory, now)
      ensures users == old(users) + [u]
      ensures categories == old(categories) + SeedCategories(id, categoryIds, now)
      ensures writes == old(writes) + 1
    {
      u := User(id, input.email, input.passwordHash, input.name, input.phone, input.photoUrl,
                input.recoveryEmail, input.loginHistory, now);
      users := users + [u];
      var seeded := SeedCategories(u.id, categoryIds, now);
      categories := categories + seeded;
      writes := writes + 1;
    }

    /** The first user with this email, if any. */
    function GetUserByEmail(email: string): (r: Option<User>)
      reads this
      ensures r.None? <==> forall i :: 0 <= i < |users| ==> users[i].email != email
      ensures r.Some? ==> r.value.email == email
      ensures r.Some? ==>
        exists i :: 0 <= i < |users| && users[i] == r.value && forall j :: 0 <= j < i ==> users[j].email != email
    {
      Find(users, (u: User) => u.email == email)
    }

    /** The first user with this id, if any. */
    function GetUserById(id: string): (r: Option<User>)
      reads this
      ensures r.None? <==> forall i :: 0 <= i < |users| ==> users[i].id != id
      ensures r.Some? ==> r.value.id == id
      ensures r.Some? ==>
        exists i :: 0 <= i < |users| && users[i] == r.value && forall j :: 0 <= j < i ==> users[j].id != id
    {
      Find(users, (u: User) => u.id == id)
    }

    /** Merges the update into the first user with this id; an unknown id changes
        nothing and answers `None`. */
    method UpdateUser(id: string, patch: UserPatch) returns (r: Option<User>)
      modifies this`users, this`writes
      ensures var i := FindIndex(old(users), (u: User) => u.id == id);
        if i < 0 then
          r == None && users == old(users) && writes == old(writes)
        else
          users == old(users)[i := PatchUser(old(users)[i], patch)]
          && r == Some(users[i]) && writes == old(writes) + 1
    {
      var i := FindIndex(users, (u: User) => u.id == id);
      if i >= 0 {
        users := users[i := PatchUser(users[i], patch)];
        writes := writes + 1;
        r := Some(users[i]);
      } else {
        r := None;
      }
    }

    // --------------------------------------------------------- transactions

    /** The user's transactions, in store order. */
    function GetTransactions(userId: string): (r: seq<Transaction>)
      reads this
      ensures forall i :: 0 <= i < |r| ==> r[i].userId == userId && r[i] in transactions
      ensures forall t :: t in transactions && t.userId == userId ==> t in r
      ensures Subseq(r, transactions)
      ensures forall x :: multiset(r)[x] == if x.userId == userId then multiset(transactions)[x] else 0
    {
      FilterSubseq(transactions, (t: Transaction) => t.userId == userId);
      FilterCounts(transactions, (t: Transaction) => t.userId == userId);
      Filter(transactions, (t: Transaction) => t.userId == userId)
    }

    method AddTransaction(input: NewTransaction, id: string, now: Date) returns (t: Transaction)
      modifies this`transactions, this`writes
      ensures t == Stamped(input, id, now)
      ensures transactions == old(transactions) + [t]
      ensures writes == old(writes) + 1
    {
      t := Stamped(input, id, now);
      transactions := transactions + [t];
      writes := writes + 1;
    }

    /** Appends one stored transaction per input, in input order. */
    method AddTransactions(inputs: seq<NewTransaction>, ids: seq<string>, now: Date) returns (ts: seq<Transaction>)
      requires |ids| == |inputs|
      modifies this`transactions, this`writes
      ensures ts == StampedAll(inputs, ids, now)
      ensures transactions == old(transactions) + ts
      ensures writes == old(writes) + 1
    {
      ts := StampedAll(inputs, ids, now);
      transactions := transactions + ts;
      writes := writes + 1;
    }

    /** Merges the update into the FIRST transaction with this id and owner. With no
        such transaction nothing changes, the store is not written, and the answer is None. */
    method UpdateTransaction(userId: string, id: string, patch: TransactionPatch, now: Date)
      returns (r: Option<Transaction>)
      modifies this`transactions, this`writes
      ensures var i := FindIndex(old(transactions), (t: Transaction) => t.id == id && t.userId == userId);
        if i < 0 then
          r == None && transactions == old(transactions) && writes == old(writes)
        else
          transactions == old(transactions)[i := PatchTransaction(old(transactions)[i], patch, now)]
          && r == Some(transactions[i]) && writes == old(writes) + 1
    {
      var i := FindIndex(transactions, (t: Transaction) => t.id == id && t.userId == userId);
      if i >= 0 {
        transactions := transactions[i := PatchTransaction(transactions[i], patch, now)];
        writes := writes + 1;
        r := Some(transactions[i]);
      } else {
        r := None;
      }
    }

    /** Keeps every transaction except those with this id AND this owner. */
    method DeleteTransaction(userId: string, id: string)
      modifies this`transactions, this`writes
      ensures transactions == Filter(old(transactions), (t: Transaction) => !(t.id == id && t.userId == userId))
      ensures writes == old(writes) + 1
    {
      transactions := Filter(transactions, (t: Transaction) => !(t.id == id && t.userId == userId));
      writes := writes + 1;
    }

    // ----------------------------------------------------------- categories

    function GetCategories(userId: string): (r: seq<Category>)
      reads this
      ensures forall i :: 0 <= i < |r| ==> r[i].userId == userId && r[i] in categories
      ensures forall c :: c in categories && c.userId == userId ==> c in r
      ensures Subseq(r, categories)
      ensures forall x :: multiset(r)[x] == if x.userId == userId then multiset(categories)[x] else 0
    {
      FilterSubseq(categories, (c: Category) => c.userId == userId);
      FilterCounts(categories, (c: Category) => c.userId == userId);
      Filter(categories, (c: Category) => c.userId == userId)
    }

    method CreateCategory(userId: string, input: NewCategory, id: string, now: Date) returns (c: Category)
      modifies this`categories, this`writes
      ensures c == Category(id, userId, input.name, input.kind, input.budget, now, now)
      ensures categories == old(categories) + [c]
      ensures writes == old(writes) + 1
    {
      c := Category(id, userId, input.name, input.kind, input.budget, now, now);
      categories := categories + [c];
      writes := writes + 1;
    }

    method UpdateCategory(userId: string, id: string, patch: CategoryPatch, now: Date)
      returns (r: Option<Category>)
      modifies this`categories, this`writes
      ensures var i := FindIndex(old(categories), (c: Category) => c.id == id && c.userId == userId);
        if i < 0 then
          r == None && categories == old(categories) && writes == old(writes)
        else
          categories == old(categories)[i := PatchCategory(old(categories)[i], patch, now)]
          && r == Some(categories[i]) && writes == old(writes) + 1
    {
      var i := FindIndex(categories, (c: Category) => c.id == id && c.userId == userId);
      if i >= 0 {
        categories := categories[i := PatchCategory(categories[i], patch, now)];
        writes := writes + 1;
        r := Some(categories[i]);
      } else {
        r := None;
      }
    }

    // --------------------------------------------------- recurring templates

    function GetRecurring(userId: string): (r: seq<Recurring>)
      reads this
      ensures forall i :: 0 <= i < |r| ==> r[i].userId == userId && r[i] in recurring
      ensures forall rt :: rt in recurring && rt.userId == userId ==> rt in r
      ensures Subseq(r, recurring)
      ensures forall x :: multiset(r)[x] == if x.userId == userId then multiset(recurring)[x] else 0
    {
      FilterSubseq(recurring, (rt: Recurring) => rt.userId == userId);
      FilterCounts(recurring, (rt: Recurring) => rt.userId == userId);
      Filter(recurring, (rt: Recurring) => rt.userId == userId)
    }

    /** A new template has never fired: `lastGenerated` starts out null. */
    method CreateRecurring(userId: string, input: NewRecurring, id: string, now: Date) returns (rt: Recurring)
      modifies this`recurring, this`writes
      ensures rt.lastGenerated == None
      ensures rt == Recurring(id, userId, input.amount, input.description, input.kind,
                              input.categoryId, input.dayOfMonth, None, now, now)
      ensures recurring == old(recurring) + [rt]
      ensures writes == old(writes) + 1
    {
      rt := Recurring(id, userId, input.amount, input.description, input.kind,
                      input.categoryId, input.dayOfMonth, None, now, now);
      recurring := recurring + [rt];
      writes := writes + 1;
    }

    method DeleteRecurring(userId: string, id: string)
      modifies this`recurring, this`writes
      ensures recurring == Filter(old(recurring), (rt: Recurring) => !(rt.id == id && rt.userId == userId))
      ensures writes == old(writes) + 1
    {
      recurring := Filter(recurring, (rt: Recurring) => !(rt.id == id && rt.userId == userId));
      writes := writes + 1;
    }

    /** The recurrence engine. Walks the stored templates in order; for each of the
        user's templates that is due it appends a copy dated `now` and stamps the
        stored template (in db.ts `rt` is the stored object itself, so the
        assignment to `rt.lastGenerated` changes the store). The store is written
        back only if something was generated. `ids[i]` is the id drawn for template `i`. */
    method ProcessRecurring(userId: string, now: Date, ids: seq<string>)
      requires |ids| == |recurring|
      modifies this`recurring, this`transactions, this`writes
      ensures recurring == AdvanceAll(old(recurring), userId, now)
      ensures transactions == old(transactions) + Generated(old(recurring), ids, userId, now)
      ensures writes == old(writes) + (if Generated(old(recurring), ids, userId, now) == [] then 0 else 1)
    {
      var templates, stored, changesMade := RunTemplates(recurring, transactions, userId, now, ids);
      if changesMade {
        recurring, transactions := templates, stored;
        writes := writes + 1;
      }
    }

    // ---------------------------------------------------------------- goals

    function GetGoals(userId: string): (r: seq<Goal>)
      reads this
      ensures forall i :: 0 <= i < |r| ==> r[i].userId == userId && r[i] in goals
      ensures forall g :: g in goals && g.userId == userId ==> g in r
      ensures Subseq(r, goals)
      ensures forall x :: multiset(r)[x] == if x.userId == userId then multiset(goals)[x] else 0
    {
      FilterSubseq(goals, (g: Goal) => g.userId == userId);
      FilterCounts(goals, (g: Goal) => g.userId == userId);
      Filter(goals, (g: Goal) => g.userId == userId)
    }

    /** Appends the goal exactly as the caller built it. */
    method CreateGoal(goal: Goal)
      modifies this`goals, this`writes
      ensures goals == old(goals) + [goal]
      ensures writes == old(writes) + 1
    {
      goals := goals + [goal];
      writes := writes + 1;
    }

    /** Merges the update into the first goal with this id, whoever owns it. */
    method UpdateGoal(id: string, patch: GoalPatch, now: Date) returns (r: Option<Goal>)
      modifies this`goals, this`writes
      ensures var i := FindIndex(old(goals), (g: Goal) => g.id == id);
        if i < 0 then
          r == None && goals == old(goals) && writes == old(writes)
        else
          goals == old(goals)[i := PatchGoal(old(goals)[i], patch, now)]
          && r == Some(goals[i]) && writes == old(writes) + 1
    {
      var i := FindIndex(goals, (g: Goal) => g.id == id);
      if i >= 0 {
        goals := goals[i := PatchGoal(goals[i], patch, now)];
        writes := writes + 1;
        r := Some(goals[i]);
      } else {
        r := None;
      }
    }

    /** Removes every goal with this id, whoever owns it. */
    method DeleteGoal(id: string)
      modifies this`goals, this`writes
      ensures goals == Filter(old(goals), (g: Goal) => g.id != id)
      ensures writes == old(writes) + 1
    {
      goals := Filter(goals, (g: Goal) => g.id != id);
      writes := writes + 1;
    }

    // -------------------------------------------------------------- wallets

    function GetWallets(userId: string): (r: seq<Wallet>)
      reads this
      ensures forall i :: 0 <= i < |r| ==> r[i].userId == userId && r[i] in wallets
      ensures forall w :: w in wallets && w.userId == userId ==> w in r
      ensures Subseq(r, wallets)
      ensures forall x :: multiset(r)[x] == if x.userId == userId then multiset(wallets)[x] else 0
    {
      FilterSubseq(wallets, (w: Wallet) => w.userId == userId);
      FilterCounts(wallets, (w: Wallet) => w.userId == userId);
      Filter(wallets, (w: Wallet) => w.userId == userId)
    }

    method CreateWallet(input: NewWallet, id: string, now: Date) returns (w: Wallet)
      modifies this`wallets, this`writes
      ensures w == Wallet(id, input.userId, input.name, input.kind, input.initialBalance, input.color, now, now)
      ensures wallets == old(wallets) + [w]
      ensures writes == old(writes) + 1
    {
      w := Wallet(id, input.userId, input.name, input.kind, input.initialBalance, input.color, now, now);
      wallets := wallets + [w];
      writes := writes + 1;
    }

    method UpdateWallet(id: string, patch: WalletPatch, now: Date) returns (r: Option<Wallet>)
      modifies this`wallets, this`writes
      ensures var i := FindIndex(old(wallets), (w: Wallet) => w.id == id);
        if i < 0 then
          r == None && wallets == old(wallets) && writes == old(writes)
        else
          wallets == old(wallets)[i := PatchWallet(old(wallets)[i], patch, now)]
          && r == Some(wallets[i]) && writes == old(writes) + 1
    {
      var i := FindIndex(wallets, (w: Wallet) => w.id == id);
      if i >= 0 {
        wallets := wallets[i := PatchWallet(wallets[i], patch, now)];
        writes := writes + 1;
        r := Some(wallets[i]);
      } else {
        r := None;
      }
    }

    method DeleteWallet(id: string)
      modifies this`wallets, this`writes
      ensures wallets == Filter(old(wallets), (w: Wallet) => w.id != id)
      ensures writes == old(writes) + 1
    {
      wallets := Filter(wallets, (w: Wallet) => w.id != id);
      writes := writes + 1;
    }
  }

  /** `{ ...input, id, createdAt: now, updatedAt: now }`. */
  function Stamped(input: NewTransaction, id: string, now: Date): (t: Transaction)
    ensures t.id == id && t.createdAt == now && t.updatedAt == now
    ensures t.userId == input.userId && t.amount == input.amount && t.description == input.description
    ensures t.date == input.date && t.kind == input.kind && t.categoryId == input.categoryId
    ensures t.walletId == input.walletId
  {
    Transaction(id, input.userId, input.amount, input.description, input.date,
                input.kind, input.categoryId, input.walletId, now, now)
  }

  /** The `forEach` at lines 291-323 over the collections as read from the file
      (`data`), changed in memory: it visits the stored templates in order, and for
      each of the user's templates that is due it appends a copy dated `now` and
      stamps the template. */
  method RunTemplates(rs: seq<Recurring>, ts: seq<Transaction>, userId: string, now: Date, ids: seq<string>)
    returns (templates: seq<Recurring>, stored: seq<Transaction>, changesMade: bool)
    requires |ids| == |rs|
    ensures templates == AdvanceAll(rs, userId, now)
    ensures stored == ts + Generated(rs, ids, userId, now)
    ensures changesMade <==> Generated(rs, ids, userId, now) != []
    ensures !changesMade ==> templates == rs
  {
    templates, stored := rs, ts;
    changesMade := false;
    var i := 0;
    StageEnds(rs, userId, now);
    while i < |templates|
      invariant |templates| == |rs| && 0 <= i <= |rs|
      invariant templates == Stage(rs, userId, now, i)
      invariant stored == ts + Generated(rs[..i], ids[..i], userId, now)
      invariant changesMade <==> |stored| > |ts|
      invariant !changesMade ==> templates == rs
    {
      var rt := templates[i];
      GeneratedStep(rs, ids, i, userId, now);
      StageStep(rs, userId, now, i);
      if rt.userId == userId {
        var after, generated := VisitTemplate(rt, ids[i], now);
        if generated.Some? {
          stored := stored + [generated.value];
          templates := templates[i := after];
          changesMade := true;
        }
      }
      i := i + 1;
    }
    StageEnds(rs, userId, now);
    assert rs[..i] == rs && ids[..i] == ids;
  }

  /** The body of the `forEach` (lines 292-322) for one of the user's templates:
      the decision of lines 292-305 as db.ts takes it, then the copy dated
      `now` and the stamped template when it is due. */
  method VisitTemplate(rt: Recurring, id: string, now: Date) returns (after: Recurring, generated: Option<Transaction>)
    ensures Due(rt, now) ==> after == rt.(lastGenerated := Some(now)) && generated == Some(Materialize(rt, id, now))
    ensures !Due(rt, now) ==> after == rt && generated == None
  {
    var shouldGenerate := false;
    if rt.lastGenerated.None? {
      if now.day >= rt.dayOfMonth {
        shouldGenerate := true;
      }
    } else {
      var lastGenDate := rt.lastGenerated.value;
      if lastGenDate.month != now.month || lastGenDate.year != now.year {
        if now.day >= rt.dayOfMonth {
          shouldGenerate := true;
        }
      }
    }
    after, generated := rt, None;
    if shouldGenerate {
      var newTransaction := Transaction(id, rt.userId, rt.amount, rt.description, now,
                                        rt.kind, rt.categoryId, None, now, now);
      generated := Some(newTransaction);
      after := rt.(lastGenerated := Some(now));
    }
  }

  /** The templates after the first `i` have been visited. */
  ghost function Stage(rs: seq<Recurring>, userId: string, now: Date, i: nat): (r: seq<Recurring>)
    requires i <= |rs|
  {
    seq(|rs|, k requires 0 <= k < |rs| => if k < i then Advance(rs[k], userId, now) else rs[k])
  }

  lemma StageStep(rs: seq<Recurring>, userId: string, now: Date, i: nat)
    requires i < |rs|
    ensures Stage(rs, userId, now, i + 1) == Stage(rs, userId, now, i)[i := Advance(rs[i], userId, now)]
    ensures !Fires(rs[i], userId, now) ==> Stage(rs, userId, now, i + 1) == Stage(rs, userId, now, i)
  {
  }

  lemma StageEnds(rs: seq<Recurring>, userId: string, now: Date)
    ensures Stage(rs, userId, now, 0) == rs
    ensures Stage(rs, userId, now, |rs|) == AdvanceAll(rs, userId, now)
  {
  }

  /** One more template visited: the generated list grows by that template's
      transaction if it fires, and by nothing otherwise. */
  lemma GeneratedStep(rs: seq<Recurring>, ids: seq<string>, i: int, userId: string, now: Date)
    requires |ids| == |rs| && 0 <= i < |rs|
    ensures Generated(rs[..i + 1], ids[..i + 1], userId, now)
      == Generated(rs[..i], ids[..i], userId, now)
         + (if Fires(rs[i], userId, now) then [Materialize(rs[i], ids[i], now)] else [])
  {
    assert rs[..i + 1][..i] == rs[..i] && ids[..i + 1][..i] == ids[..i];
  }

  /** Every input stamped with its own fresh id, in order. */
  function StampedAll(inputs: seq<NewTransaction>, ids: seq<string>, now: Date): (ts: seq<Transaction>)
    requires |ids| == |inputs|
    ensures |ts| == |inputs|
    ensures forall i :: 0 <= i < |inputs| ==> ts[i] == Stamped(inputs[i], ids[i], now)
  {
    seq(|inputs|, i requires 0 <= i < |inputs| => Stamped(inputs[i], ids[i], now))
  }

  /** Deleting removes exactly the entries with both this id and this owner, and the
      survivors keep their relative order. */
  lemma DeleteRemovesExactlyMatches(ts: seq<Transaction>, userId: string, id: string)
    ensures var r := Filter(ts, (t: Transaction) => !(t.id == id && t.userId == userId));
      && (forall t :: t in r ==> t in ts && !(t.id == id && t.userId == userId))
      && (forall t :: t in ts && !(t.id == id && t.userId == userId) ==> t in r)
      && Subseq(r, ts)
  {
    FilterSubseq(ts, (t: Transaction) => !(t.id == id && t.userId == userId));
  }
}
