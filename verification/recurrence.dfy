/** What `processRecurringTransactions` (src/lib/db.ts) does to the store, as
    functions of the templates before the call: which templates fire, the
    transactions they produce, and the templates afterwards. The store's loop,
    `Store.Database.ProcessRecurring`, is proved to compute exactly these. */
module Recurrence {
  import opened Common
  import opened Records
  import opened Seqs

  /** The decision at lines 292-305: a template that never fired is due once the
      day of the month reaches `dayOfMonth`; one that fired before is due only in a
      different calendar month or year, and again only from `dayOfMonth` on. */
  predicate Due(rt: Recurring, now: Date) {
    match rt.lastGenerated
    case None => now.day >= rt.dayOfMonth
    case Some(last) => (last.month != now.month || last.year != now.year) && now.day >= rt.dayOfMonth
  }

  /** The engine only looks at the templates of the user it runs for. */
  predicate Fires(rt: Recurring, userId: string, now: Date) {
    rt.userId == userId && Due(rt, now)
  }

  /** The transaction a firing template produces, dated `now`. */
  function Materialize(rt: Recurring, id: string, now: Date): Transaction {
    Transaction(id, rt.userId, rt.amount, rt.description, now, rt.kind, rt.categoryId, None, now, now)
  }

  function Advance(rt: Recurring, userId: string, now: Date): Recurring {
    if Fires(rt, userId, now) then rt.(lastGenerated := Some(now)) else rt
  }

  /** The templates after a run: a firing template is stamped with `now`, nothing
      else about any template changes, and other users' templates are untouched. */
  function AdvanceAll(rs: seq<Recurring>, userId: string, now: Date): (r: seq<Recurring>)
    ensures |r| == |rs|
    ensures forall i :: 0 <= i < |rs| ==> r[i] == rs[i].(lastGenerated := r[i].lastGenerated)
    ensures forall i :: 0 <= i < |rs| ==>
      r[i].lastGenerated == if Fires(rs[i], userId, now) then Some(now) else rs[i].lastGenerated
    ensures forall i :: 0 <= i < |rs| && rs[i].userId != userId ==> r[i] == rs[i]
  {
    seq(|rs|, i requires 0 <= i < |rs| => Advance(rs[i], userId, now))
  }

  /** The transactions a run appends, in template order; `ids[i]` is the fresh id
      drawn for template `i`. */
  function Generated(rs: seq<Recurring>, ids: seq<string>, userId: string, now: Date): seq<Transaction>
    requires |ids| == |rs|
    decreases |rs|
  {
    if rs == [] then []
    else
      var n := |rs| - 1;
      Generated(rs[..n], ids[..n], userId, now)
        + (if Fires(rs[n], userId, now) then [Materialize(rs[n], ids[n], now)] else [])
  }

  /** One transaction per firing template and no more, however many months were
      missed; each one belongs to the user, is dated `now` and copies its template. */
  lemma {:induction false} GeneratedShape(rs: seq<Recurring>, ids: seq<string>, userId: string, now: Date)
    requires |ids| == |rs|
    ensures |Generated(rs, ids, userId, now)| == |Filter(rs, (rt: Recurring) => Fires(rt, userId, now))|
    ensures |Generated(rs, ids, userId, now)| <= |rs|
    ensures forall t :: t in Generated(rs, ids, userId, now) ==>
      t.userId == userId && t.date == now && t.createdAt == now && t.updatedAt == now
      && exists i :: 0 <= i < |rs| && Fires(rs[i], userId, now) && t == Materialize(rs[i], ids[i], now)
    ensures Generated(rs, ids, userId, now) == [] <==> forall i :: 0 <= i < |rs| ==> !Fires(rs[i], userId, now)
    decreases |rs|
  {
    if rs != [] {
      var n := |rs| - 1;
      GeneratedShape(rs[..n], ids[..n], userId, now);
      var g := Generated(rs, ids, userId, now);
      var g' := Generated(rs[..n], ids[..n], userId, now);
      forall t | t in g
        ensures exists i :: 0 <= i < |rs| && Fires(rs[i], userId, now) && t == Materialize(rs[i], ids[i], now)
      {
        if t in g' {
          var i :| 0 <= i < n && Fires(rs[..n][i], userId, now) && t == Materialize(rs[..n][i], ids[..n][i], now);
          assert rs[i] == rs[..n][i] && ids[i] == ids[..n][i];
        } else {
          assert t == Materialize(rs[n], ids[n], now);
        }
      }
      if g == [] {
        forall i | 0 <= i < |rs| ensures !Fires(rs[i], userId, now) {
          if i < n { assert rs[i] == rs[..n][i]; }
        }
      }
    }
  }

  /** Running the engine a second time with the same `now` stamps nothing and adds nothing. */
  lemma {:induction false} ProcessIdempotent(rs: seq<Recurring>, ids: seq<string>, userId: string, now: Date)
    requires |ids| == |rs|
    ensures AdvanceAll(AdvanceAll(rs, userId, now), userId, now) == AdvanceAll(rs, userId, now)
    ensures Generated(AdvanceAll(rs, userId, now), ids, userId, now) == []
  {
    var after := AdvanceAll(rs, userId, now);
    forall i | 0 <= i < |after| ensures !Fires(after[i], userId, now) {
      if Fires(rs[i], userId, now) {
        assert after[i].lastGenerated == Some(now);
      } else {
        assert after[i] == rs[i];
      }
    }
    GeneratedShape(after, ids, userId, now);
  }

  /** Within one calendar month a template fires at most once, whatever the day and
      time of the second run: two runs in the same month together add at most one
      transaction per template. */
  lemma {:induction false} OncePerMonth(
    rs: seq<Recurring>, ids: seq<string>, ids2: seq<string>, userId: string, now: Date, later: Date)
    requires |ids| == |rs| && |ids2| == |rs|
    requires later.year == now.year && later.month == now.month
    ensures forall i :: 0 <= i < |rs| && Fires(rs[i], userId, now) ==>
      !Fires(AdvanceAll(rs, userId, now)[i], userId, later)
    ensures |Generated(rs, ids, userId, now)| + |Generated(AdvanceAll(rs, userId, now), ids2, userId, later)| <= |rs|
    decreases |rs|
  {
    if rs != [] {
      var n := |rs| - 1;
      var after := AdvanceAll(rs, userId, now);
      OncePerMonth(rs[..n], ids[..n], ids2[..n], userId, now, later);
      assert AdvanceAll(rs[..n], userId, now) == after[..n];
      assert after[n].lastGenerated == if Fires(rs[n], userId, now) then Some(now) else rs[n].lastGenerated;
    }
  }

  /** A template that never fired, due on the 15th: nothing on the 14th, exactly one
      transaction on the 15th, and the template then records the 15th. */
  lemma FirstRunBoundary(rt: Recurring, id: string, y: int, m: int)
    requires rt.dayOfMonth == 15 && rt.lastGenerated.None?
    ensures Generated([rt], [id], rt.userId, Date(y, m, 14, 0)) == []
    ensures Generated([rt], [id], rt.userId, Date(y, m, 15, 0)) == [Materialize(rt, id, Date(y, m, 15, 0))]
    ensures AdvanceAll([rt], rt.userId, Date(y, m, 15, 0))[0].lastGenerated == Some(Date(y, m, 15, 0))
  {
    assert [rt][..0] == [];
  }

  /** Last generated on 20 January, due on the 15th: nothing on 10 February, one
      transaction on 16 February. */
  lemma MonthRollover(rt: Recurring, id: string, y: int)
    requires rt.dayOfMonth == 15 && rt.lastGenerated == Some(Date(y, 0, 20, 0))
    ensures Generated([rt], [id], rt.userId, Date(y, 1, 10, 0)) == []
    ensures |Generated([rt], [id], rt.userId, Date(y, 1, 16, 0))| == 1
  {
    assert [rt][..0] == [];
  }
}
