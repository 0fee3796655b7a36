/**
 What every step of the task protocol keeps, and what holds over whole runs: slots are conserved,
 one reply wins, accepted replies never change, and no task leaves a terminal state.
 */
module Lifecycle {
  import opened Results
  import opened TaskStates
  import opened TaskDb
  import opened Drafts

  /** The unreleased slots of a user. */
  ghost function Held(db: Db, user: nat): set<nat> {
    set id | id in db.tasks && db.tasks[id].owner == user && !db.tasks[id].slotReleased
  }

  ghost predicate RowOk(db: Db, id: nat)
    requires id in db.tasks
  {
    var r := db.tasks[id];
    && id < db.nextId
    && r.owner in db.users
    && r.state != Received
    && (r.slotReleased <==> Terminal(r.state))
    && (r.state in {WaitingHuman, ForwardingLlm} ==> r.payload.None?)
    && (r.state in {ResponseReady, Responding, Completed} ==> r.payload.Some?)
  }

  ghost predicate RowsOk(db: Db) {
    forall id | id in db.tasks :: RowOk(db, id)
  }

  /** The counter of a user is the number of their unreleased slots, and never above the limit. */
  ghost predicate Balanced(db: Db) {
    forall user | user in db.users ::
      db.users[user].activeTasks == |Held(db, user)| && |Held(db, user)| <= MAX_ACTIVE_TASKS_PER_USER
  }

  ghost predicate Consistent(db: Db) {
    RowsOk(db) && Balanced(db)
  }

  // ---- One step ----

  /** The moves the statements make: a row is left alone or goes along one of these, one version up. */
  ghost predicate Moved(r: Row, s: Row) {
    && s == r.(state := s.state, slotReleased := s.slotReleased, version := r.version + 1, payload := s.payload)
    && (|| (r.state in {WaitingHuman, ForwardingLlm} && s.state == ResponseReady
            && s.payload.Some? && s.slotReleased == r.slotReleased)
        || (r.state == WaitingHuman && s.state == ForwardingLlm
            && s.payload == r.payload && s.slotReleased == r.slotReleased)
        || (r.state == ResponseReady && s.state == Responding && !r.slotReleased
            && s.payload == r.payload && !s.slotReleased)
        || (!r.slotReleased && Terminal(s.state) && s.payload == r.payload && s.slotReleased))
  }

  /**
   What may become of a row in one step. It is begun only by a Begin step aimed at it, completed only by an
   End step aimed at it and once answered, and timed out only while waiting.
   */
  ghost predicate Advanced(a: Action, id: nat, r: Row, s: Row) {
    && (s == r || Moved(r, s))
    && (s.state == Completed && r.state != Completed ==>
          a.End? && a.id == id && a.target == Completed && r.state in {ResponseReady, Responding})
    && (s.state == TimedOut && r.state != TimedOut ==> r.state == WaitingHuman)
    && (s.state == Responding && r.state != Responding ==> a == Begin(id))
  }

  lemma CreateMovesRows(e: Env, db: Db, a: Action, id: nat)
    requires RowsOk(db) && a.Create? && id in db.tasks
    ensures id in Step(e, db, a).0.tasks && Advanced(a, id, db.tasks[id], Step(e, db, a).0.tasks[id])
  {
    hide CreateTask;
    assert RowOk(db, id);
    AdmittedShape(e, db, a.request);
  }

  lemma ReplyMovesRows(e: Env, db: Db, a: Action, id: nat)
    requires RowsOk(db) && id in db.tasks && (a.FirstReply? || a.ForwardReply? || a.Claim? || a.Begin?)
    ensures id in Step(e, db, a).0.tasks && Advanced(a, id, db.tasks[id], Step(e, db, a).0.tasks[id])
  {
    assert RowOk(db, id);
  }

  lemma EndMovesRows(e: Env, db: Db, a: Action, id: nat)
    requires RowsOk(db) && a.Valid() && id in db.tasks && (a.End? || a.Disconnect?)
    ensures id in Step(e, db, a).0.tasks && Advanced(a, id, db.tasks[id], Step(e, db, a).0.tasks[id])
  {
    assert RowOk(db, id);
  }

  lemma AccountMovesRows(e: Env, db: Db, a: Action, id: nat)
    requires RowsOk(db) && id in db.tasks && (a.NewUser? || a.Enable? || a.Disable?)
    ensures id in Step(e, db, a).0.tasks && Advanced(a, id, db.tasks[id], Step(e, db, a).0.tasks[id])
  {
    assert RowOk(db, id);
  }

  lemma StepAdvancesRow(e: Env, db: Db, a: Action, id: nat)
    requires RowsOk(db) && a.Valid() && id in db.tasks
    ensures id in Step(e, db, a).0.tasks && Advanced(a, id, db.tasks[id], Step(e, db, a).0.tasks[id])
  {
    hide Step, RowsOk, Advanced;
    match a
    case Create(_) => CreateMovesRows(e, db, a, id);
    case End(_, _, _) => EndMovesRows(e, db, a, id);
    case Disconnect(_) => EndMovesRows(e, db, a, id);
    case NewUser(_) => AccountMovesRows(e, db, a, id);
    case Enable(_) => AccountMovesRows(e, db, a, id);
    case Disable(_) => AccountMovesRows(e, db, a, id);
    case _ => ReplyMovesRows(e, db, a, id);
  }

  lemma StepMovesRows(e: Env, db: Db, a: Action, id: nat)
    requires RowsOk(db) && a.Valid() && id in db.tasks
    ensures id in Step(e, db, a).0.tasks
    ensures var s := Step(e, db, a).0.tasks[id]; s == db.tasks[id] || Moved(db.tasks[id], s)
  {
    hide Step, RowsOk, Moved;
    StepAdvancesRow(e, db, a, id);
  }

  /** A successful admission adds one fresh waiting row and takes one slot; a refused one changes nothing. */
  lemma AdmittedShape(e: Env, db: Db, q: Request)
    ensures var (after, r) := CreateTask(e, db, q);
      if r.Err? then after == db else
        var u := db.users[q.owner];
        && r.value == db.nextId
        && q.owner in db.users && u.active && u.activeTasks < MAX_ACTIVE_TASKS_PER_USER
        && after == Db(db.tasks[db.nextId := NewRow(q, Inherited(e, db, Previous(q)) + q.input)],
                       db.users[q.owner := u.(activeTasks := u.activeTasks + 1)], db.nextId + 1)
  {
  }

  /** Users stay, ids stay below the next one, and only an admission adds a row. */
  lemma StepKeepsUsers(e: Env, db: Db, a: Action)
    requires RowsOk(db)
    ensures
      var after := Step(e, db, a).0;
      && db.users.Keys <= after.users.Keys && db.nextId <= after.nextId
      && forall id | id in after.tasks && id !in db.tasks :: RowOk(after, id)
  {
    if a.Create? {
      hide CreateTask;
      AdmittedShape(e, db, a.request);
    }
  }

  lemma StepKeepsRow(e: Env, db: Db, a: Action, id: nat)
    requires RowsOk(db) && a.Valid() && id in db.tasks
    ensures id in Step(e, db, a).0.tasks && RowOk(Step(e, db, a).0, id)
  {
    hide Step;
    assert RowOk(db, id);
    StepKeepsUsers(e, db, a);
    StepAdvancesRow(e, db, a, id);
  }

  lemma StepKeepsRows(e: Env, db: Db, a: Action)
    requires RowsOk(db) && a.Valid()
    ensures RowsOk(Step(e, db, a).0)
  {
    hide Step, RowOk;
    StepKeepsUsers(e, db, a);
    forall id | id in db.tasks ensures id in Step(e, db, a).0.tasks && RowOk(Step(e, db, a).0, id) {
      StepKeepsRow(e, db, a, id);
    }
  }

  lemma HeldAfterPut(db: Db, after: Db, id: nat, row: Row, user: nat)
    requires after.tasks == db.tasks[id := row]
    ensures Held(after, user)
      == (Held(db, user) - {id}) + (if row.owner == user && !row.slotReleased then {id} else {})
  {
  }

  ghost predicate BalancedFor(db: Db, user: nat)
    requires user in db.users
  {
    db.users[user].activeTasks == |Held(db, user)| && |Held(db, user)| <= MAX_ACTIVE_TASKS_PER_USER
  }

  /** A row is put whose slot counts `more` than before, and its owner's counter follows. */
  lemma PutKeepsBalance(db: Db, after: Db, id: nat, row: Row, user: nat)
    requires Balanced(db) && user in db.users && user in after.users && after.tasks == db.tasks[id := row]
    requires id in db.tasks ==> db.tasks[id].owner == row.owner
    requires user != row.owner ==> after.users[user].activeTasks == db.users[user].activeTasks
    requires user == row.owner ==>
      after.users[user].activeTasks
      == db.users[user].activeTasks - (if id in Held(db, user) then 1 else 0) + (if row.slotReleased then 0 else 1)
    requires user == row.owner ==> after.users[user].activeTasks <= MAX_ACTIVE_TASKS_PER_USER
    ensures BalancedFor(after, user)
  {
    HeldAfterPut(db, after, id, row, user);
    var held, now := Held(db, user), Held(after, user);
    hide Held;
    assert now == held - {id} + (if row.owner == user && !row.slotReleased then {id} else {});
    if user != row.owner { assert id !in held by { NotHeldByOthers(db, id, user); } }
  }

  lemma NotHeldByOthers(db: Db, id: nat, user: nat)
    requires id in db.tasks ==> db.tasks[id].owner != user
    ensures id !in Held(db, user)
  {
  }

  /** Ending one task takes exactly its slot away from its owner. */
  lemma EndingReleasesOneSlot(db: Db, id: nat, target: TaskState)
    requires Consistent(db) && id in db.tasks && !db.tasks[id].slotReleased && Terminal(target)
    ensures Balanced(ReleaseSlot(Put(db, id, Ended(db.tasks[id], target)), db.tasks[id].owner))
  {
    var row := Ended(db.tasks[id], target);
    var after := ReleaseSlot(Put(db, id, row), row.owner);
    assert RowOk(db, id);
    assert id in Held(db, row.owner);
    assert db.users[row.owner].activeTasks > 0;
    forall user | user in after.users ensures BalancedFor(after, user) {
      hide Held, BalancedFor, Balanced, Consistent;
      PutKeepsBalance(db, after, id, row, user);
    }
  }

  lemma AddingTakesOneSlot(db: Db, row: Row)
    requires Consistent(db) && row.owner in db.users && !row.slotReleased
    requires db.users[row.owner].activeTasks < MAX_ACTIVE_TASKS_PER_USER
    ensures
      var u := db.users[row.owner];
      Balanced(Db(
        db.tasks[db.nextId := row], db.users[row.owner := u.(activeTasks := u.activeTasks + 1)], db.nextId + 1))
  {
    var u := db.users[row.owner];
    var after :=
      Db(db.tasks[db.nextId := row], db.users[row.owner := u.(activeTasks := u.activeTasks + 1)], db.nextId + 1);
    assert db.nextId in db.tasks ==> RowOk(db, db.nextId);
    forall user | user in after.users ensures BalancedFor(after, user) {
      assert db.nextId !in Held(db, user);
      hide Held, BalancedFor, Balanced, Consistent;
      PutKeepsBalance(db, after, db.nextId, row, user);
    }
  }

  lemma HeldAfterDisabling(db: Db, target: nat, user: nat)
    requires RowsOk(db) && DisableUser(db, target).1
    ensures Held(DisableUser(db, target).0, user) == if user == target then {} else Held(db, user)
  {
    forall id | id in db.tasks ensures RowOk(db, id) {}
  }

  lemma DisablingClearsOneUser(db: Db, target: nat)
    requires Consistent(db)
    ensures Balanced(DisableUser(db, target).0)
  {
    var (after, ok) := DisableUser(db, target);
    if ok {
      forall user | user in after.users ensures BalancedFor(after, user) {
        HeldAfterDisabling(db, target, user);
        hide Held;
      }
    }
  }

  lemma SameSlotsKeepBalance(db: Db, after: Db)
    requires Balanced(db)
    requires after.tasks.Keys == db.tasks.Keys && db.users.Keys <= after.users.Keys
    requires forall id | id in db.tasks ::
      after.tasks[id].owner == db.tasks[id].owner && after.tasks[id].slotReleased == db.tasks[id].slotReleased
    requires forall user | user in db.users :: after.users[user].activeTasks == db.users[user].activeTasks
    requires forall user | user in after.users && user !in db.users ::
      after.users[user].activeTasks == 0 && forall id | id in db.tasks :: db.tasks[id].owner != user
    ensures Balanced(after)
  {
    forall user | user in after.users ensures BalancedFor(after, user) {
      assert Held(after, user) == Held(db, user);
      if user !in db.users { assert Held(db, user) == {}; }
    }
  }

  lemma ReplyKeepsBalance(e: Env, db: Db, a: Action)
    requires Consistent(db) && (a.FirstReply? || a.ForwardReply? || a.Claim? || a.Begin?)
    ensures Balanced(Step(e, db, a).0)
  {
    hide Balanced, RowOk;
    SameSlotsKeepBalance(db, Step(e, db, a).0);
  }

  lemma AccountKeepsBalance(e: Env, db: Db, a: Action)
    requires Consistent(db) && (a.NewUser? || a.Enable?)
    ensures Balanced(Step(e, db, a).0)
  {
    hide Balanced;
    forall id | id in db.tasks ensures db.tasks[id].owner in db.users { assert RowOk(db, id); }
    SameSlotsKeepBalance(db, Step(e, db, a).0);
  }

  lemma StepKeepsBalance(e: Env, db: Db, a: Action)
    requires Consistent(db) && a.Valid()
    ensures Balanced(Step(e, db, a).0)
  {
    match a
    case Create(q) =>
      AdmittedShape(e, db, q);
      if CreateTask(e, db, q).1.Ok? { AddingTakesOneSlot(db, NewRow(q, Inherited(e, db, Previous(q)) + q.input)); }
    case End(id, target, allowed) =>
      if Step(e, db, a).1 { EndingReleasesOneSlot(db, id, target); }
    case Disconnect(id) =>
      if Step(e, db, a).1 { EndingReleasesOneSlot(db, id, Cancelled); }
    case Disable(user) => DisablingClearsOneUser(db, user);
    case NewUser(_) => AccountKeepsBalance(e, db, a);
    case Enable(_) => AccountKeepsBalance(e, db, a);
    case _ => ReplyKeepsBalance(e, db, a);
  }

  lemma StepKeepsConsistent(e: Env, db: Db, a: Action)
    requires Consistent(db) && a.Valid()
    ensures Consistent(Step(e, db, a).0)
  {
    StepKeepsRows(e, db, a);
    StepKeepsBalance(e, db, a);
  }

  // ---- Whole runs ----

  /** After any run of any interleaving, the rows are sound and every slot counter is exact. */
  lemma {:induction false} RunKeepsConsistent(e: Env, db: Db, run: seq<Action>)
    requires Consistent(db) && ValidRun(run)
    ensures Consistent(Run(e, db, run))
  {
    if run != [] {
      RunKeepsConsistent(e, db, run[..|run| - 1]);
      StepKeepsConsistent(e, Run(e, db, run[..|run| - 1]), run[|run| - 1]);
    }
  }

  lemma SlotsAreConserved(e: Env, run: seq<Action>)
    requires ValidRun(run)
    ensures
      var db := Run(e, EmptyDb, run);
      && (forall user | user in db.users ::
            db.users[user].activeTasks == |Held(db, user)| && |Held(db, user)| <= 10)
      && (forall id | id in db.tasks ::
            db.tasks[id].owner in db.users
            && (db.tasks[id].slotReleased <==> Terminal(db.tasks[id].state))
            && (HoldsSlot(db.tasks[id].state) <==> !db.tasks[id].slotReleased))
  {
    hide Run;
    NothingRun(e, EmptyDb);
    RunKeepsConsistent(e, EmptyDb, run);
    var db := Run(e, EmptyDb, run);
    forall id | id in db.tasks ensures RowOk(db, id) {}
  }

  function Rank(s: TaskState): nat {
    match s
    case Received => 0
    case WaitingHuman => 1
    case ForwardingLlm => 2
    case ResponseReady => 3
    case Responding => 4
    case _ => 5
  }

  /** How a row can look later: the same, or further on; an accepted reply and an end are for good. */
  ghost predicate Later(r: Row, s: Row) {
    && s == r.(state := s.state, slotReleased := s.slotReleased, version := s.version, payload := s.payload)
    && (s == r || (Rank(r.state) < Rank(s.state) && r.version < s.version))
    && (r.payload.Some? ==> s.payload == r.payload)
    && (r.slotReleased ==> s.slotReleased)
    && (Terminal(r.state) ==> s == r)
  }

  lemma StepAdvancesRows(e: Env, db: Db, a: Action, id: nat)
    requires RowsOk(db) && a.Valid() && id in db.tasks
    ensures id in Step(e, db, a).0.tasks && Later(db.tasks[id], Step(e, db, a).0.tasks[id])
  {
    assert RowOk(db, id);
    StepMovesRows(e, db, a, id);
  }

  /** The state after `i + 1` steps is one step on from the state after `i`. */
  lemma OneMore(e: Env, db: Db, run: seq<Action>, i: nat)
    requires i < |run|
    ensures Run(e, db, run[..i + 1]) == Step(e, Run(e, db, run[..i]), run[i]).0
  {
    assert run[..i + 1][..i] == run[..i];
  }

  lemma PrefixAdvancesRows(e: Env, db: Db, run: seq<Action>, i: nat, id: nat)
    requires i < |run| && run[i].Valid()
    requires RowsOk(Run(e, db, run[..i])) && id in Run(e, db, run[..i]).tasks
    ensures id in Run(e, db, run[..i + 1]).tasks
    ensures Later(Run(e, db, run[..i]).tasks[id], Run(e, db, run[..i + 1]).tasks[id])
  {
    OneMore(e, db, run, i);
    StepAdvancesRows(e, Run(e, db, run[..i]), run[i], id);
  }

  lemma ConsistentRows(db: Db)
    requires Consistent(db)
    ensures RowsOk(db)
  {
  }

  lemma {:induction false} RowsOnlyAdvance(e: Env, db: Db, run: seq<Action>, i: nat, j: nat, id: nat)
    requires Consistent(db) && ValidRun(run) && i <= j <= |run|
    requires id in Run(e, db, run[..i]).tasks
    ensures id in Run(e, db, run[..j]).tasks
    ensures Later(Run(e, db, run[..i]).tasks[id], Run(e, db, run[..j]).tasks[id])
  {
    hide Run, Step, Consistent;
    if i < j {
      RowsOnlyAdvance(e, db, run, i, j - 1, id);
      RunKeepsConsistent(e, db, run[..j - 1]);
      ConsistentRows(Run(e, db, run[..j - 1]));
      PrefixAdvancesRows(e, db, run, j - 1, id);
    }
  }

  predicate RepliesTo(a: Action, id: nat) {
    (a.FirstReply? || a.ForwardReply?) && a.id == id
  }

  /** An accepted reply found no reply before it; an accepted claim found the task waiting for a human. */
  lemma AcceptedShape(e: Env, db: Db, a: Action, id: nat)
    requires Step(e, db, a).1 && (RepliesTo(a, id) || a == Claim(id))
    ensures id in db.tasks && id in Step(e, db, a).0.tasks
    ensures
      var r, s := db.tasks[id], Step(e, db, a).0.tasks[id];
      if a.Claim? then r.state == WaitingHuman && s.state == ForwardingLlm
      else r.state in {WaitingHuman, ForwardingLlm} && s.state == ResponseReady && s.payload == Some(a.reply)
  {
  }

  /** The human and the forwarder race for a task: one reply at most is accepted, and it is the one kept. */
  lemma OneReplyWins(e: Env, db: Db, run: seq<Action>, i: nat, j: nat, id: nat)
    requires Consistent(db) && ValidRun(run) && i < j < |run|
    requires RepliesTo(run[i], id) && Accepted(e, db, run, i)
    ensures RepliesTo(run[j], id) ==> !Accepted(e, db, run, j)
    ensures id in Run(e, db, run[..j]).tasks && Run(e, db, run[..j]).tasks[id].payload == Some(run[i].reply)
  {
    hide Step, Run, Consistent;
    OneMore(e, db, run, i);
    AcceptedShape(e, Run(e, db, run[..i]), run[i], id);
    RowsOnlyAdvance(e, db, run, i + 1, j, id);
    if RepliesTo(run[j], id) && Accepted(e, db, run, j) { AcceptedShape(e, Run(e, db, run[..j]), run[j], id); }
  }

  /** A forwarder claims a task at most once, and never after a reply was accepted. */
  lemma ForwardClaimedOnce(e: Env, db: Db, run: seq<Action>, i: nat, j: nat, id: nat)
    requires Consistent(db) && ValidRun(run) && i < j < |run|
    requires run[i] == Claim(id) || RepliesTo(run[i], id)
    requires Accepted(e, db, run, i) && run[j] == Claim(id)
    ensures !Accepted(e, db, run, j)
  {
    hide Step, Run, Consistent;
    OneMore(e, db, run, i);
    AcceptedShape(e, Run(e, db, run[..i]), run[i], id);
    RowsOnlyAdvance(e, db, run, i + 1, j, id);
    if Accepted(e, db, run, j) { AcceptedShape(e, Run(e, db, run[..j]), run[j], id); }
  }

  /** Step `i` hands the slot of the task back. */
  ghost predicate ReleasesSlotAt(e: Env, db: Db, run: seq<Action>, i: nat, id: nat)
    requires i < |run|
  {
    var before, after := Run(e, db, run[..i]), Run(e, db, run[..i + 1]);
    && id in before.tasks && id in after.tasks
    && !before.tasks[id].slotReleased && after.tasks[id].slotReleased
  }

  lemma SlotReleasedOnce(e: Env, db: Db, run: seq<Action>, i: nat, j: nat, id: nat)
    requires Consistent(db) && ValidRun(run) && i < j < |run|
    requires ReleasesSlotAt(e, db, run, i, id)
    ensures !ReleasesSlotAt(e, db, run, j, id)
  {
    RowsOnlyAdvance(e, db, run, i + 1, j, id);
  }

  /** The task a step is aimed at, if it is aimed at one that exists already. */
  function Target(a: Action): Option<nat> {
    match a
    case FirstReply(id, _, _, _) => Some(id)
    case Claim(id) => Some(id)
    case ForwardReply(id, _, _, _) => Some(id)
    case Begin(id) => Some(id)
    case End(id, _, _) => Some(id)
    case Disconnect(id) => Some(id)
    case _ => None
  }

  /** The version counts: an accepted step raises its task's by one, a refused step changes nothing at all. */
  lemma VersionCountsAcceptedSteps(e: Env, db: Db, a: Action)
    requires Consistent(db) && a.Valid() && Target(a).Some?
    ensures
      var (after, ok) := Step(e, db, a);
      var id := Target(a).value;
      && (!ok ==> after == db)
      && (ok ==> id in db.tasks && id in after.tasks && after.tasks[id].version == db.tasks[id].version + 1
                 && !Terminal(db.tasks[id].state) && after.tasks == db.tasks[id := after.tasks[id]])
  {
    if Step(e, db, a).1 { assert RowOk(db, Target(a).value); }
  }

  // ---- The declared transition table ----

  /**
   Whoever completes a task began its response first, after having seen its reply: the response
   objects are the only callers that complete, and this is the order of their callbacks.
   */
  ghost predicate BegunBefore(e: Env, db: Db, run: seq<Action>, i: nat, id: nat)
    requires i <= |run|
  {
    exists k | 0 <= k < i ::
      run[k] == Begin(id) && id in Run(e, db, run[..k]).tasks
      && Rank(Run(e, db, run[..k]).tasks[id].state) >= Rank(ResponseReady)
  }

  ghost predicate Disciplined(e: Env, db: Db, run: seq<Action>, id: nat) {
    forall i | 0 <= i < |run| && Completes(run[i], id) :: BegunBefore(e, db, run, i, id)
  }

  predicate Completes(a: Action, id: nat) {
    a.End? && a.target == Completed && a.id == id
  }

  lemma BeginLeavesReady(e: Env, db: Db, id: nat)
    requires Consistent(db) && id in db.tasks && Rank(db.tasks[id].state) >= Rank(ResponseReady)
    ensures
      var after := Step(e, db, Begin(id)).0;
      id in after.tasks && Rank(after.tasks[id].state) >= Rank(Responding)
  {
    assert RowOk(db, id);
  }

  lemma BegunLeavesReady(e: Env, db: Db, run: seq<Action>, i: nat, id: nat)
    requires Consistent(db) && ValidRun(run) && i <= |run| && BegunBefore(e, db, run, i, id)
    ensures id in Run(e, db, run[..i]).tasks
    ensures Rank(Run(e, db, run[..i]).tasks[id].state) >= Rank(Responding)
  {
    hide Run, Step, Consistent;
    var k :| 0 <= k < i && run[k] == Begin(id) && id in Run(e, db, run[..k]).tasks
             && Rank(Run(e, db, run[..k]).tasks[id].state) >= Rank(ResponseReady);
    OneMore(e, db, run, k);
    RunKeepsConsistent(e, db, run[..k]);
    BeginLeavesReady(e, Run(e, db, run[..k]), id);
    RowsOnlyAdvance(e, db, run, k + 1, i, id);
  }

  /** The change a step makes to a task, or no change, is an edge of the table. */
  ghost predicate Edge(before: Db, after: Db, id: nat) {
    id in before.tasks ==>
      && id in after.tasks
      && var from, to := before.tasks[id].state, after.tasks[id].state;
         from == to || CanTransition(from, to)
  }

  /** The one way out of the table: completing a task whose response was not begun. */
  ghost predicate CompletesUnbegun(db: Db, a: Action, id: nat) {
    Completes(a, id) && id in db.tasks && db.tasks[id].state == ResponseReady
  }

  lemma UnbegunLeavesTheTable(e: Env, db: Db, a: Action, id: nat)
    requires RowsOk(db) && a.Valid() && CompletesUnbegun(db, a, id)
    ensures !Edge(db, Step(e, db, a).0, id)
  {
    assert RowOk(db, id);
  }

  /** A step leaves the table exactly by completing a task at RESPONSE_READY. */
  lemma StepFollowsTheTableIff(e: Env, db: Db, a: Action, id: nat)
    requires RowsOk(db) && a.Valid()
    ensures Edge(db, Step(e, db, a).0, id) <==> !CompletesUnbegun(db, a, id)
  {
    hide Step;
    if CompletesUnbegun(db, a, id) {
      UnbegunLeavesTheTable(e, db, a, id);
    } else if id in db.tasks {
      assert RowOk(db, id);
      StepAdvancesRow(e, db, a, id);
    }
  }

  ghost predicate EdgeAt(e: Env, db: Db, run: seq<Action>, i: nat, id: nat)
    requires i < |run|
  {
    Edge(Run(e, db, run[..i]), Run(e, db, run[..i + 1]), id)
  }

  ghost predicate CompletesUnbegunAt(e: Env, db: Db, run: seq<Action>, i: nat, id: nat)
    requires i < |run|
  {
    CompletesUnbegun(Run(e, db, run[..i]), run[i], id)
  }

  lemma MomentFollowsTheTableIff(e: Env, db: Db, run: seq<Action>, i: nat, id: nat)
    requires Consistent(db) && ValidRun(run) && i < |run|
    ensures EdgeAt(e, db, run, i, id) <==> !CompletesUnbegunAt(e, db, run, i, id)
  {
    hide Run, Step, Edge, CompletesUnbegun;
    RunKeepsConsistent(e, db, run[..i]);
    OneMore(e, db, run, i);
    StepFollowsTheTableIff(e, Run(e, db, run[..i]), run[i], id);
  }

  /** A run stays in the table for a task exactly if none of its steps completes the task at RESPONSE_READY. */
  lemma RunFollowsTheTableIff(e: Env, db: Db, run: seq<Action>, id: nat)
    requires Consistent(db) && ValidRun(run)
    ensures
      (forall i | 0 <= i < |run| :: EdgeAt(e, db, run, i, id))
      <==> forall i | 0 <= i < |run| :: !CompletesUnbegunAt(e, db, run, i, id)
  {
    hide EdgeAt, CompletesUnbegunAt, Consistent, ValidRun;
    forall i | 0 <= i < |run| ensures EdgeAt(e, db, run, i, id) <==> !CompletesUnbegunAt(e, db, run, i, id) {
      MomentFollowsTheTableIff(e, db, run, i, id);
    }
  }

  /**
   The response objects' discipline meets that condition: who began before completing finds the task past
   RESPONSE_READY.
   */
  lemma DisciplinedNeverCompletesUnbegun(e: Env, db: Db, run: seq<Action>, i: nat, id: nat)
    requires Consistent(db) && ValidRun(run) && Disciplined(e, db, run, id) && i < |run|
    ensures !CompletesUnbegunAt(e, db, run, i, id)
  {
    hide Run, Consistent, BegunBefore;
    if Completes(run[i], id) { BegunLeavesReady(e, db, run, i, id); }
  }

  /** Hence every change of a task whose completions are disciplined is an edge: it completes out of RESPONDING only. */
  lemma RunsFollowTheTable(e: Env, db: Db, run: seq<Action>, i: nat, id: nat)
    requires Consistent(db) && ValidRun(run) && Disciplined(e, db, run, id) && i < |run|
    requires id in Run(e, db, run[..i]).tasks
    ensures id in Run(e, db, run[..i + 1]).tasks
    ensures
      var from, to := Run(e, db, run[..i]).tasks[id].state, Run(e, db, run[..i + 1]).tasks[id].state;
      from == to || CanTransition(from, to)
  {
    hide Run, Consistent, Disciplined, CompletesUnbegun;
    DisciplinedNeverCompletesUnbegun(e, db, run, i, id);
    MomentFollowsTheTableIff(e, db, run, i, id);
  }

  /**
   The condition can fail: the source states `_finalize` passes for COMPLETED also admit RESPONSE_READY,
   and a run that completes without beginning leaves the table. No response object makes such a run:
   `SettledRunsFollowTheTable` covers all they make.
   */
  lemma CompletingUnbegunLeavesTheTable(e: Env, reply: ReplyDraft)
    requires e.bytes([]) <= MAX_EXPANDED_CONTEXT_BYTES
    ensures
      var run := [NewUser(0), Create(Request(0, 0, true, true, true, false, None, [], [])), FirstReply(0, 0, 1, reply),
                  End(0, Completed, Some({ResponseReady, Responding}))];
      && ValidRun(run)
      && 0 in Run(e, EmptyDb, run[..3]).tasks && Run(e, EmptyDb, run[..3]).tasks[0].state == ResponseReady
      && 0 in Run(e, EmptyDb, run).tasks && Run(e, EmptyDb, run).tasks[0].state == Completed
      && CompletesUnbegun(Run(e, EmptyDb, run[..3]), run[3], 0)
      && !Edge(Run(e, EmptyDb, run[..3]), Run(e, EmptyDb, run), 0)
  {
    hide Run, Step, CompletesUnbegun, Edge;
    var q := Request(0, 0, true, true, true, false, None, [], []);
    var run := [NewUser(0), Create(q), FirstReply(0, 0, 1, reply),
      End(0, Completed, Some({ResponseReady, Responding}))];
    assert run[..4] == run && run[..0] == [];
    OneMore(e, EmptyDb, run, 0);
    OneMore(e, EmptyDb, run, 1);
    OneMore(e, EmptyDb, run, 2);
    OneMore(e, EmptyDb, run, 3);
    NothingRun(e, EmptyDb);
    OneWaitingTask(e, q);
    AnsweredThenCompleted(e, NewRow(q, []), reply);
  }

  lemma NothingRun(e: Env, db: Db)
    ensures Run(e, db, []) == db
  {
  }

  lemma OneWaitingTask(e: Env, q: Request)
    requires q == Request(0, 0, true, true, true, false, None, [], []) && e.bytes([]) <= MAX_EXPANDED_CONTEXT_BYTES
    ensures
      Step(e, Step(e, EmptyDb, NewUser(0)).0, Create(q)).0 == Db(map[0 := NewRow(q, [])], map[0 := User(true, 1)], 1)
  {
    AdmittedShape(e, Db(map[], map[0 := User(true, 0)], 0), q);
  }

  lemma AnsweredThenCompleted(e: Env, row: Row, reply: ReplyDraft)
    requires row.owner == 0 && row.state == WaitingHuman && row.version == 1 && !row.slotReleased
    ensures
      var waiting := Db(map[0 := row], map[0 := User(true, 1)], 1);
      var answered := Step(e, waiting, FirstReply(0, 0, 1, reply)).0;
      var end := End(0, Completed, Some({ResponseReady, Responding}));
      var completed := Step(e, answered, end).0;
      && 0 in answered.tasks && answered.tasks[0].state == ResponseReady
      && 0 in completed.tasks && completed.tasks[0].state == Completed
      && CompletesUnbegun(answered, end, 0) && !Edge(answered, completed, 0)
  {
  }
}
