/**
 What each statement of the task protocol does to rows and counters (app/repositories/tasks.py,
 app/repositories/users.py), for every database the protocol keeps consistent.
 */
module TaskLaws {
  import opened Results
  import opened Drafts
  import opened TaskStates
  import opened TaskDb
  import opened Lifecycle

  predicate Open(db: Db, id: nat) {
    id in db.tasks && db.tasks[id].state !in {Completed, Failed, TimedOut, Cancelled}
  }

  predicate InState(db: Db, id: nat, state: TaskState) {
    id in db.tasks && db.tasks[id].state == state
  }

  /** Everything but the row `id`, which is there before and after. */
  predicate OthersStay(before: map<nat, Row>, after: map<nat, Row>, id: nat) {
    && after.Keys == before.Keys && id in before
    && forall k | k in before && k != id :: after[k] == before[k]
  }

  predicate SlotReturned(before: map<nat, User>, after: map<nat, User>, owner: nat) {
    && after.Keys == before.Keys && owner in before && before[owner].activeTasks > 0
    && after[owner] == User(before[owner].active, before[owner].activeTasks - 1)
    && forall u | u in before && u != owner :: after[u] == before[u]
  }

  /** The row moves to `state` with one more version and keeps everything else. */
  predicate MovedTo(r: Row, s: Row, state: TaskState) {
    s == Row(r.owner, r.key, r.hasResponseId, state, r.slotReleased, r.version + 1, r.payload, r.previous, r.input,
             r.context)
  }

  /** The row ends in `state` and its slot is marked as given back. */
  predicate EndedIn(r: Row, s: Row, state: TaskState) {
    s == Row(r.owner, r.key, r.hasResponseId, state, true, r.version + 1, r.payload, r.previous, r.input, r.context)
  }

  /** A reply is stored exactly in its source state, for its owner and version; otherwise nothing happens. */
  lemma ReplyIsStoredIff(db: Db, human: bool, id: nat, owner: nat, version: nat, reply: ReplyDraft)
    ensures
      var (after, ok) := AcceptReply(db, if human then WaitingHuman else ForwardingLlm, id, owner, version, reply);
      && (ok <==> InState(db, id, if human then WaitingHuman else ForwardingLlm)
                  && db.tasks[id].owner == owner && db.tasks[id].version == version)
      && (!ok ==> after == db)
      && (ok ==>
            && OthersStay(db.tasks, after.tasks, id) && after.users == db.users && after.nextId == db.nextId
            && MovedTo(db.tasks[id].(payload := Some(reply)), after.tasks[id], ResponseReady))
  {
  }

  /** A claim moves a waiting task on, a begin an answered one; otherwise nothing happens. */
  lemma ClaimAndBeginIff(db: Db, id: nat)
    requires id in db.tasks ==> RowOk(db, id)
    ensures
      var (after, ok) := ClaimFallback(db, id);
      && (ok <==> InState(db, id, WaitingHuman)) && (!ok ==> after == db)
      && (ok ==>
            && OthersStay(db.tasks, after.tasks, id) && after.users == db.users && after.nextId == db.nextId
            && MovedTo(db.tasks[id], after.tasks[id], ForwardingLlm))
    ensures
      var (after, ok) := StartResponse(db, id);
      && (ok <==> InState(db, id, ResponseReady)) && (!ok ==> after == db)
      && (ok ==>
            && OthersStay(db.tasks, after.tasks, id) && after.users == db.users && after.nextId == db.nextId
            && MovedTo(db.tasks[id], after.tasks[id], Responding))
  {
    hide Held;
  }

  /** In any database whatever, a statement looks at the state and at the slot mark. */
  lemma StatementGuards(db: Db, id: nat, user: nat, target: TaskState, allowed: Option<set<TaskState>>)
    ensures StartResponse(db, id).1 <==> InState(db, id, ResponseReady) && !db.tasks[id].slotReleased
    ensures CancelDisconnected(db, id).1 <==> Open(db, id) && !db.tasks[id].slotReleased
    ensures Finalize(db, id, target, allowed).1 <==>
      id in db.tasks && !db.tasks[id].slotReleased && (allowed.Some? ==> db.tasks[id].state in allowed.value)
    ensures
      var (after, ok) := DisableUser(db, user);
      ok && id in db.tasks ==>
        && id in after.tasks
        && (after.tasks[id] != db.tasks[id] <==>
              db.tasks[id].owner == user && Open(db, id) && !db.tasks[id].slotReleased)
  {
  }

  lemma OpenHoldsASlot(db: Db, id: nat)
    requires Consistent(db) && id in db.tasks
    ensures Open(db, id) <==> !db.tasks[id].slotReleased
    ensures Open(db, id) ==> db.tasks[id].owner in db.users && db.users[db.tasks[id].owner].activeTasks > 0
  {
    assert RowOk(db, id);
    if Open(db, id) {
      var owner := db.tasks[id].owner;
      assert id in Held(db, owner);
      assert |Held(db, owner)| > 0;
    }
  }

  /**
   A task is ended exactly when it is open and in an allowed state: its row ends in the given state, and its
   owner gets one slot back; otherwise nothing happens.
   */
  lemma TaskIsEndedIff(db: Db, id: nat, target: TaskState, allowed: Option<set<TaskState>>)
    requires Consistent(db)
    ensures
      var (after, ok) := Finalize(db, id, target, allowed);
      && (ok <==> Open(db, id) && (allowed.Some? ==> db.tasks[id].state in allowed.value))
      && (!ok ==> after == db)
      && (ok ==>
            && OthersStay(db.tasks, after.tasks, id) && after.nextId == db.nextId
            && EndedIn(db.tasks[id], after.tasks[id], target)
            && SlotReturned(db.users, after.users, db.tasks[id].owner))
  {
    if id in db.tasks { OpenHoldsASlot(db, id); }
  }

  /** A lost caller ends exactly an open task, as CANCELLED. */
  lemma TaskIsCancelledIff(db: Db, id: nat)
    requires Consistent(db)
    ensures
      var (after, ok) := CancelDisconnected(db, id);
      && (ok <==> Open(db, id)) && (!ok ==> after == db)
      && (ok ==>
            && OthersStay(db.tasks, after.tasks, id) && after.nextId == db.nextId
            && EndedIn(db.tasks[id], after.tasks[id], Cancelled)
            && SlotReturned(db.users, after.users, db.tasks[id].owner))
  {
    if id in db.tasks { OpenHoldsASlot(db, id); }
  }

  /** Disabling cancels every open task of the user and no other, and leaves the user without slots taken. */
  lemma DisablingCancels(db: Db, user: nat)
    requires Consistent(db)
    ensures
      var (after, ok) := DisableUser(db, user);
      && (ok <==> user in db.users && db.users[user].active) && (!ok ==> after == db)
      && (ok ==>
            && after.nextId == db.nextId && after.tasks.Keys == db.tasks.Keys && after.users.Keys == db.users.Keys
            && after.users[user] == User(false, 0)
            && (forall u | u in db.users && u != user :: after.users[u] == db.users[u])
            && forall id | id in db.tasks ::
                 if db.tasks[id].owner == user && Open(db, id)
                 then EndedIn(db.tasks[id], after.tasks[id], Cancelled) else after.tasks[id] == db.tasks[id])
  {
    forall id | id in db.tasks ensures Open(db, id) <==> !db.tasks[id].slotReleased { OpenHoldsASlot(db, id); }
  }

  /** Only an unknown user is added, only an inactive one enabled; a slot is taken only by an active one below 10. */
  lemma AccountsIff(db: Db, user: nat)
    ensures
      var (after, ok) := AddUser(db, user);
      && (ok <==> user !in db.users)
      && after == if ok then Db(db.tasks, db.users[user := User(true, 0)], db.nextId) else db
    ensures
      var (after, ok) := EnableUser(db, user);
      && (ok <==> user in db.users && !db.users[user].active)
      && after ==
           if ok then Db(db.tasks, db.users[user := User(true, db.users[user].activeTasks)], db.nextId) else db
    ensures
      var (after, ok) := AcquireSlot(db, user);
      && (ok <==> user in db.users && db.users[user].active && db.users[user].activeTasks < 10)
      && after ==
           if ok then Db(db.tasks, db.users[user := User(true, db.users[user].activeTasks + 1)], db.nextId) else db
  {
  }

  /** Enabling finds no slot taken: a disabled user has none. */
  lemma {:induction false} DisabledHoldNothing(e: Env, run: seq<Action>, user: nat)
    requires ValidRun(run)
    ensures
      var db := Run(e, EmptyDb, run);
      user in db.users && !db.users[user].active ==> db.users[user].activeTasks == 0
  {
    if run != [] {
      var before, last := Run(e, EmptyDb, run[..|run| - 1]), run[|run| - 1];
      DisabledHoldNothing(e, run[..|run| - 1], user);
    }
  }
}
