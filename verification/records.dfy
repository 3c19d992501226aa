/** The stored entities (src/lib/db.ts), the shapes the store accepts when it
    creates them, and the partial updates it merges into them. Amounts are whole
    cents; timestamps are `Common.Date` values. */
module Records {
  import opened Common
  import opened Seqs

  const KindIncome: string := "income"
  const KindExpense: string := "expense"

  /** One entry of a user's login history. */
  datatype Login = Login(date: string, ip: string, device: string)

  /** The optional profile fields are `None` when the record does not carry them. */
  datatype User = User(
    id: string, email: string, passwordHash: string, name: string,
    phone: Option<string>, photoUrl: Option<string>, recoveryEmail: Option<string>,
    loginHistory: Option<seq<Login>>, createdAt: Date)

  /** What `createUser` is given: a user without `id` and `createdAt`. */
  datatype NewUser = NewUser(
    email: string, passwordHash: string, name: string,
    phone: Option<string>, photoUrl: Option<string>, recoveryEmail: Option<string>,
    loginHistory: Option<seq<Login>>)

  /** The user fields an update may carry (everything but `id` and `createdAt`);
      `None` means the field is not in the update. */
  datatype UserPatch = UserPatch(
    email: Option<string>, passwordHash: Option<string>, name: Option<string>,
    phone: Option<string>, photoUrl: Option<string>, recoveryEmail: Option<string>,
    loginHistory: Option<seq<Login>>)

  /** `type` is kept as the string the request carried: the routes do not check it. */
  datatype Transaction = Transaction(
    id: string, userId: string, amount: int, description: string, date: Date,
    kind: string, categoryId: string, walletId: Option<string>,
    createdAt: Date, updatedAt: Date)

  /** A transaction before the store stamps it with an id and timestamps. */
  datatype NewTransaction = NewTransaction(
    userId: string, amount: int, description: string, date: Date,
    kind: string, categoryId: string, walletId: Option<string>)

  /** The fields an update carries; `None` means the field is not in the update. */
  datatype TransactionPatch = TransactionPatch(
    amount: Option<int>, description: Option<string>, date: Option<Date>,
    kind: Option<string>, categoryId: Option<string>, walletId: Option<string>)

  /** `budget` is optional; `None` is an absent budget. */
  datatype Category = Category(
    id: string, userId: string, name: string, kind: string, budget: Option<int>,
    createdAt: Date, updatedAt: Date)

  datatype NewCategory = NewCategory(name: string, kind: string, budget: Option<int>)

  /** `budget: Some(None)` is an update that carries `budget: undefined`, which removes the budget. */
  datatype CategoryPatch = CategoryPatch(name: Option<string>, kind: Option<string>, budget: Option<Option<int>>)

  /** A recurring-transaction template; `lastGenerated` is null until the first materialisation. */
  datatype Recurring = Recurring(
    id: string, userId: string, amount: int, description: string, kind: string,
    categoryId: string, dayOfMonth: int, lastGenerated: Option<Date>,
    createdAt: Date, updatedAt: Date)

  datatype NewRecurring = NewRecurring(
    amount: int, description: string, kind: string, categoryId: string, dayOfMonth: int)

  datatype Goal = Goal(
    id: string, userId: string, name: string, targetAmount: int, currentAmount: int,
    deadline: Option<string>, color: string, createdAt: Date, updatedAt: Date)

  /** The goal fields an update may carry. The goals route forwards every body field
      except `id`, so `userId` and `createdAt` can be among them; `updatedAt` is
      always overwritten by the merge and is left out. */
  datatype GoalPatch = GoalPatch(
    userId: Option<string>, name: Option<string>, targetAmount: Option<int>,
    currentAmount: Option<int>, deadline: Option<string>, color: Option<string>,
    createdAt: Option<Date>)

  datatype Wallet = Wallet(
    id: string, userId: string, name: string, kind: string, initialBalance: int,
    color: string, createdAt: Date, updatedAt: Date)

  datatype NewWallet = NewWallet(userId: string, name: string, kind: string, initialBalance: int, color: string)

  /** `Partial<Wallet>`: every field but `updatedAt`, which the merge overwrites. */
  datatype WalletPatch = WalletPatch(
    id: Option<string>, userId: Option<string>, name: Option<string>, kind: Option<string>,
    initialBalance: Option<int>, color: Option<string>, createdAt: Option<Date>)

  /** `{ ...u, ...updates }` for a user: a field the update carries takes the
      update's value, every other field keeps its value. Users carry no `updatedAt`. */
  function PatchUser(u: User, p: UserPatch): (r: User)
    ensures r.id == u.id && r.createdAt == u.createdAt
    ensures (p.email.Some? ==> r.email == p.email.value) && (p.email.None? ==> r.email == u.email)
    ensures (p.passwordHash.Some? ==> r.passwordHash == p.passwordHash.value)
      && (p.passwordHash.None? ==> r.passwordHash == u.passwordHash)
    ensures (p.name.Some? ==> r.name == p.name.value) && (p.name.None? ==> r.name == u.name)
    ensures (p.phone.Some? ==> r.phone == p.phone) && (p.phone.None? ==> r.phone == u.phone)
    ensures (p.photoUrl.Some? ==> r.photoUrl == p.photoUrl) && (p.photoUrl.None? ==> r.photoUrl == u.photoUrl)
    ensures (p.recoveryEmail.Some? ==> r.recoveryEmail == p.recoveryEmail)
      && (p.recoveryEmail.None? ==> r.recoveryEmail == u.recoveryEmail)
    ensures (p.loginHistory.Some? ==> r.loginHistory == p.loginHistory)
      && (p.loginHistory.None? ==> r.loginHistory == u.loginHistory)
    ensures p == UserPatch(None, None, None, None, None, None, None) ==> r == u
  {
    u.(email := p.email.GetOr(u.email),
       passwordHash := p.passwordHash.GetOr(u.passwordHash),
       name := p.name.GetOr(u.name),
       phone := if p.phone.Some? then p.phone else u.phone,
       photoUrl := if p.photoUrl.Some? then p.photoUrl else u.photoUrl,
       recoveryEmail := if p.recoveryEmail.Some? then p.recoveryEmail else u.recoveryEmail,
       loginHistory := if p.loginHistory.Some? then p.loginHistory else u.loginHistory)
  }

  /** `{ ...t, ...updates, updatedAt: now }` for a transaction. */
  function PatchTransaction(t: Transaction, p: TransactionPatch, now: Date): (r: Transaction)
    ensures r.id == t.id && r.userId == t.userId && r.createdAt == t.createdAt
    ensures r.updatedAt == now
    ensures (p.amount.Some? ==> r.amount == p.amount.value) && (p.amount.None? ==> r.amount == t.amount)
    ensures (p.description.Some? ==> r.description == p.description.value)
      && (p.description.None? ==> r.description == t.description)
    ensures (p.date.Some? ==> r.date == p.date.value) && (p.date.None? ==> r.date == t.date)
    ensures (p.kind.Some? ==> r.kind == p.kind.value) && (p.kind.None? ==> r.kind == t.kind)
    ensures (p.categoryId.Some? ==> r.categoryId == p.categoryId.value)
      && (p.categoryId.None? ==> r.categoryId == t.categoryId)
    ensures (p.walletId.Some? ==> r.walletId == p.walletId) && (p.walletId.None? ==> r.walletId == t.walletId)
    ensures p == TransactionPatch(None, None, None, None, None, None) ==> r == t.(updatedAt := now)
  {
    t.(amount := p.amount.GetOr(t.amount),
       description := p.description.GetOr(t.description),
       date := p.date.GetOr(t.date),
       kind := p.kind.GetOr(t.kind),
       categoryId := p.categoryId.GetOr(t.categoryId),
       walletId := if p.walletId.Some? then p.walletId else t.walletId,
       updatedAt := now)
  }

  /** `{ ...c, ...updates, updatedAt: now }` for a category. */
  function PatchCategory(c: Category, p: CategoryPatch, now: Date): (r: Category)
    ensures r.id == c.id && r.userId == c.userId && r.createdAt == c.createdAt
    ensures r.updatedAt == now
    ensures (p.name.Some? ==> r.name == p.name.value) && (p.name.None? ==> r.name == c.name)
    ensures (p.kind.Some? ==> r.kind == p.kind.value) && (p.kind.None? ==> r.kind == c.kind)
    ensures (p.budget.Some? ==> r.budget == p.budget.value) && (p.budget.None? ==> r.budget == c.budget)
  {
    c.(name := p.name.GetOr(c.name),
       kind := p.kind.GetOr(c.kind),
       budget := p.budget.GetOr(c.budget),
       updatedAt := now)
  }

  /** `{ ...g, ...updates, updatedAt: now }` for a goal: a field the update carries
      takes the update's value, every other field keeps its value. */
  function PatchGoal(g: Goal, p: GoalPatch, now: Date): (r: Goal)
    ensures r.id == g.id && r.updatedAt == now
    ensures (p.userId.Some? ==> r.userId == p.userId.value) && (p.userId.None? ==> r.userId == g.userId)
    ensures (p.name.Some? ==> r.name == p.name.value) && (p.name.None? ==> r.name == g.name)
    ensures (p.targetAmount.Some? ==> r.targetAmount == p.targetAmount.value)
      && (p.targetAmount.None? ==> r.targetAmount == g.targetAmount)
    ensures (p.currentAmount.Some? ==> r.currentAmount == p.currentAmount.value)
      && (p.currentAmount.None? ==> r.currentAmount == g.currentAmount)
    ensures (p.deadline.Some? ==> r.deadline == p.deadline) && (p.deadline.None? ==> r.deadline == g.deadline)
    ensures (p.color.Some? ==> r.color == p.color.value) && (p.color.None? ==> r.color == g.color)
    ensures (p.createdAt.Some? ==> r.createdAt == p.createdAt.value)
      && (p.createdAt.None? ==> r.createdAt == g.createdAt)
  {
    g.(userId := p.userId.GetOr(g.userId),
       name := p.name.GetOr(g.name),
       targetAmount := p.targetAmount.GetOr(g.targetAmount),
       currentAmount := p.currentAmount.GetOr(g.currentAmount),
       deadline := if p.deadline.Some? then p.deadline else g.deadline,
       color := p.color.GetOr(g.color),
       createdAt := p.createdAt.GetOr(g.createdAt),
       updatedAt := now)
  }

  /** `{ ...w, ...updates, updatedAt: now }` for a wallet: `Partial<Wallet>` admits
      every field, even `id` and `createdAt`, and a field the update carries takes
      the update's value while every other field keeps its value. */
  function PatchWallet(w: Wallet, p: WalletPatch, now: Date): (r: Wallet)
    ensures r.updatedAt == now
    ensures (p.id.Some? ==> r.id == p.id.value) && (p.id.None? ==> r.id == w.id)
    ensures (p.userId.Some? ==> r.userId == p.userId.value) && (p.userId.None? ==> r.userId == w.userId)
    ensures (p.name.Some? ==> r.name == p.name.value) && (p.name.None? ==> r.name == w.name)
    ensures (p.kind.Some? ==> r.kind == p.kind.value) && (p.kind.None? ==> r.kind == w.kind)
    ensures (p.initialBalance.Some? ==> r.initialBalance == p.initialBalance.value)
      && (p.initialBalance.None? ==> r.initialBalance == w.initialBalance)
    ensures (p.color.Some? ==> r.color == p.color.value) && (p.color.None? ==> r.color == w.color)
    ensures (p.createdAt.Some? ==> r.createdAt == p.createdAt.value)
      && (p.createdAt.None? ==> r.createdAt == w.createdAt)
  {
    w.(id := p.id.GetOr(w.id),
       userId := p.userId.GetOr(w.userId),
       name := p.name.GetOr(w.name),
       kind := p.kind.GetOr(w.kind),
       initialBalance := p.initialBalance.GetOr(w.initialBalance),
       color := p.color.GetOr(w.color),
       createdAt := p.createdAt.GetOr(w.createdAt),
       updatedAt := now)
  }

  /** `category.budget` is truthy: present and not zero. */
  predicate BudgetSet(c: Category) {
    c.budget.Some? && c.budget.value != 0
  }

  /** All-time total of the transactions in one category, of every type. */
  function CategorySpent(ts: seq<Transaction>, categoryId: string): int {
    Sum(Filter(ts, (t: Transaction) => t.categoryId == categoryId), (t: Transaction) => t.amount)
  }

  /** `categories.find(c => c.id === id)`. */
  function FindCategory(cats: seq<Category>, id: string): Option<Category> {
    Find(cats, (c: Category) => c.id == id)
  }

  /** One row of the default category table given to every new user. */
  datatype CategorySeed = CategorySeed(name: string, kind: string, budget: Option<int>)

  /** The ten default categories; budgets in cents (500 becomes 50000). */
  const DefaultCategories: seq<CategorySeed> := [
    CategorySeed("Salary", KindIncome, None),
    CategorySeed("Freelance", KindIncome, None),
    CategorySeed("Investments", KindIncome, None),
    CategorySeed("Groceries", KindExpense, Some(50000)),
    CategorySeed("Rent", KindExpense, Some(120000)),
    CategorySeed("Utilities", KindExpense, Some(20000)),
    CategorySeed("Entertainment", KindExpense, Some(15000)),
    CategorySeed("Transport", KindExpense, Some(10000)),
    CategorySeed("Health", KindExpense, Some(10000)),
    CategorySeed("Shopping", KindExpense, Some(20000))
  ]

  /** The categories `createUser` adds for a new user: one per default row, in order. */
  function SeedCategories(userId: string, ids: seq<string>, now: Date): (r: seq<Category>)
    requires |ids| == |DefaultCategories|
    ensures |r| == 10
    ensures forall i :: 0 <= i < |r| ==> r[i].userId == userId && r[i].id == ids[i]
    ensures forall i :: 0 <= i < |r| ==>
      r[i].name == DefaultCategories[i].name && r[i].kind == DefaultCategories[i].kind
      && r[i].budget == DefaultCategories[i].budget
    ensures forall i :: 0 <= i < |r| ==> (r[i].budget.Some? <==> r[i].kind == KindExpense)
  {
    seq(|DefaultCategories|, i requires 0 <= i < |DefaultCategories| =>
      var c := DefaultCategories[i];
      Category(ids[i], userId, c.name, c.kind, c.budget, now, now))
  }
}
