/** The savings-goal routes (src/app/api/goals/route.ts): create a goal for the
    session user, record progress on one of the user's goals, delete one. The
    session is a `userId` parameter; the store's goal methods act on the first or on
    every goal with the id, whoever owns it, so the routes check ownership first. */
module GoalsRoute {
  import opened Common
  import opened Records
  import opened Seqs
  import opened Store

  /** The colour a goal gets when the request carries none. */
  const DefaultColor: string := "#3b82f6"

  /** The POST body; an absent `name` or `color` is the empty string. */
  datatype GoalBody = GoalBody(name: string, targetAmount: AmountField, deadline: Option<string>, color: string)

  /** The PUT body: the goal's id, the new progress if any, and every other field. */
  datatype GoalUpdate = GoalUpdate(id: string, currentAmount: Option<int>, updates: GoalPatch)

  /** The check at line 26: a name and a truthy target. */
  predicate Accepted(b: GoalBody) {
    b.name != "" && Truthy(b.targetAmount)
  }

  /** The goal a POST builds (lines 30-41): owned by the session user, no progress
      yet, and always a colour. */
  function NewGoal(b: GoalBody, userId: string, id: string, now: Date): (g: Goal)
    requires Accepted(b)
    ensures g.userId == userId && g.id == id && g.name == b.name && g.deadline == b.deadline
    ensures g.currentAmount == 0 && g.targetAmount == b.targetAmount.value
    ensures b.targetAmount.Number? ==> g.targetAmount != 0
    ensures g.color != "" && (b.color != "" ==> g.color == b.color)
    ensures b.color == "" ==> g.color == DefaultColor
    ensures g.createdAt == now && g.updatedAt == now
  {
    Goal(id, userId, b.name, b.targetAmount.value, 0, b.deadline,
         if b.color == "" then DefaultColor else b.color, now, now)
  }

  predicate UniqueIds(goals: seq<Goal>) {
    forall i, j :: 0 <= i < j < |goals| ==> goals[i].id != goals[j].id
  }

  /** POST: refuse a body without a name or a target; otherwise append the new goal. */
  method Create(db: Database, userId: string, body: GoalBody, id: string, now: Date)
    returns (r: Reply<Goal>)
    modifies db`goals, db`writes
    ensures !Accepted(body) ==>
      r == BadRequest && db.goals == old(db.goals) && db.writes == old(db.writes)
    ensures Accepted(body) ==>
      r == Ok(NewGoal(body, userId, id, now))
      && db.goals == old(db.goals) + [r.body] && db.writes == old(db.writes) + 1
  {
    if !Accepted(body) {
      return BadRequest;
    }
    var newGoal := NewGoal(body, userId, id, now);
    db.CreateGoal(newGoal);
    r := Ok(newGoal);
  }

  /** PUT: an id is required and must name one of the user's goals; the update is
      every body field but `id`, with `currentAmount` always present (the body's
      value, else the goal's own). The body may carry `userId`, which the merge then
      copies onto the goal. */
  method Update(db: Database, userId: string, body: GoalUpdate, now: Date) returns (r: Reply<Goal>)
    modifies db`goals, db`writes
    ensures body.id == "" ==>
      r == BadRequest && db.goals == old(db.goals) && db.writes == old(db.writes)
    ensures body.id != "" && Find(old(db.GetGoals(userId)), (g: Goal) => g.id == body.id).None? ==>
      r == NotFound && db.goals == old(db.goals) && db.writes == old(db.writes)
    ensures body.id != "" && Find(old(db.GetGoals(userId)), (g: Goal) => g.id == body.id).Some? ==>
      var goal := Find(old(db.GetGoals(userId)), (g: Goal) => g.id == body.id).value;
      var patch := body.updates.(currentAmount := Some(body.currentAmount.GetOr(goal.currentAmount)));
      var i := FindIndex(old(db.goals), (g: Goal) => g.id == body.id);
      0 <= i < |old(db.goals)|
      && db.goals == old(db.goals)[i := PatchGoal(old(db.goals)[i], patch, now)]
      && r == Ok(db.goals[i]) && db.writes == old(db.writes) + 1
    ensures body.id != "" && Find(old(db.GetGoals(userId)), (g: Goal) => g.id == body.id).Some? ==>
      var i := FindIndex(old(db.goals), (g: Goal) => g.id == body.id);
      var goal := Find(old(db.GetGoals(userId)), (g: Goal) => g.id == body.id).value;
      0 <= i < |db.goals| && db.goals[i].id == body.id && db.goals[i].updatedAt == now
      && (body.currentAmount.Some? ==> db.goals[i].currentAmount == body.currentAmount.value)
      && (body.currentAmount.None? ==> db.goals[i].currentAmount == goal.currentAmount)
      && (body.updates.name.Some? ==> db.goals[i].name == body.updates.name.value)
      && (body.updates.name.None? ==> db.goals[i].name == old(db.goals)[i].name)
  {
    if body.id == "" {
      return BadRequest;
    }
    var goals := db.GetGoals(userId);
    var goal := Find(goals, (g: Goal) => g.id == body.id);
    if goal.None? {
      return NotFound;
    }
    assert goal.value in db.goals;
    var patch := body.updates.(currentAmount := Some(body.currentAmount.GetOr(goal.value.currentAmount)));
    var updated := db.UpdateGoal(body.id, patch, now);
    r := Ok(updated.value);
  }

  /** DELETE: an id is required and must name one of the user's goals; then every
      goal with that id is removed. */
  method Delete(db: Database, userId: string, id: string) returns (r: Reply<()>)
    modifies db`goals, db`writes
    ensures id == "" ==>
      r == BadRequest && db.goals == old(db.goals) && db.writes == old(db.writes)
    ensures id != "" && Find(old(db.GetGoals(userId)), (g: Goal) => g.id == id).None? ==>
      r == NotFound && db.goals == old(db.goals) && db.writes == old(db.writes)
    ensures id != "" && Find(old(db.GetGoals(userId)), (g: Goal) => g.id == id).Some? ==>
      r == Ok(()) && db.goals == Filter(old(db.goals), (g: Goal) => g.id != id)
      && db.writes == old(db.writes) + 1
  {
    if id == "" {
      return BadRequest;
    }
    var goals := db.GetGoals(userId);
    var goal := Find(goals, (g: Goal) => g.id == id);
    if goal.None? {
      return NotFound;
    }
    db.DeleteGoal(id);
    r := Ok(());
  }

  /** With unique goal ids, the first goal with the id in the whole store is the
      user's goal the route found. */
  lemma OwnedIsFirst(goals: seq<Goal>, userId: string, id: string)
    requires UniqueIds(goals)
    requires Find(Filter(goals, (g: Goal) => g.userId == userId), (g: Goal) => g.id == id).Some?
    ensures var i := FindIndex(goals, (g: Goal) => g.id == id);
      0 <= i && goals[i] == Find(Filter(goals, (g: Goal) => g.userId == userId), (g: Goal) => g.id == id).value
  {
    var owned := Filter(goals, (g: Goal) => g.userId == userId);
    var goal := Find(owned, (g: Goal) => g.id == id).value;
    var k :| 0 <= k < |owned| && owned[k] == goal && goal.id == id;
    assert goal in goals;
    var j :| 0 <= j < |goals| && goals[j] == goal;
    assert forall i :: 0 <= i < |goals| && goals[i].id == id ==> i == j;
    FindIndexOnly(goals, (g: Goal) => g.id == id, j);
  }

  /** So the ownership check is enough: the goal the store patches is the user's,
      and as long as the update carries no `userId` every other user's goals are
      left exactly as they were. */
  lemma UpdateKeepsOthers(goals: seq<Goal>, userId: string, id: string, patch: GoalPatch, now: Date, other: string)
    requires UniqueIds(goals)
    requires Find(Filter(goals, (g: Goal) => g.userId == userId), (g: Goal) => g.id == id).Some?
    requires patch.userId.None? && other != userId
    ensures var i := FindIndex(goals, (g: Goal) => g.id == id);
      0 <= i && goals[i].userId == userId
      && Filter(goals[i := PatchGoal(goals[i], patch, now)], (g: Goal) => g.userId == other)
         == Filter(goals, (g: Goal) => g.userId == other)
  {
    OwnedIsFirst(goals, userId, id);
    var i := FindIndex(goals, (g: Goal) => g.id == id);
    FilterReplaceRejected(goals, i, PatchGoal(goals[i], patch, now), (g: Goal) => g.userId == other);
  }

  /** With unique goal ids, deleting one of the user's goals leaves every other
      user's goals exactly as they were. */
  lemma DeleteKeepsOthers(goals: seq<Goal>, userId: string, id: string, other: string)
    requires UniqueIds(goals)
    requires Find(Filter(goals, (g: Goal) => g.userId == userId), (g: Goal) => g.id == id).Some?
    requires other != userId
    ensures Filter(Filter(goals, (g: Goal) => g.id != id), (g: Goal) => g.userId == other)
      == Filter(goals, (g: Goal) => g.userId == other)
  {
    var owned := Filter(goals, (g: Goal) => g.userId == userId);
    var goal := Find(owned, (g: Goal) => g.id == id).value;
    assert goal in goals;
    var j :| 0 <= j < |goals| && goals[j] == goal;
    var others := Filter(goals, (g: Goal) => g.userId == other);
    forall x | x in others ensures x.id != id {
      var k :| 0 <= k < |goals| && goals[k] == x;
      assert k != j;
    }
    var both := (g: Goal) => g.id != id && g.userId == other;
    FilterFilter(goals, (g: Goal) => g.id != id, (g: Goal) => g.userId == other, both);
    FilterFilter(goals, (g: Goal) => g.userId == other, (g: Goal) => g.id != id, both);
    FilterAll(others, (g: Goal) => g.id != id);
  }
}
