/** Startup recovery and shutdown: cancel every active task in batches (app/services/task_lifecycle.py). */
module TaskLifecycle {
  import opened Results
  import opened TaskStates
  import opened TaskDb
  import opened Lifecycle
  import opened TaskStore

  const BATCH := 200

  ghost function Active(db: Db): set<nat> {
    set id | id in db.tasks && !Terminal(db.tasks[id].state) && !db.tasks[id].slotReleased
  }

  /** `SELECT id ... LIMIT n`: some active tasks, all of them if fewer than the limit are left. */
  method SelectActive(store: Store, limit: nat) returns (ids: seq<nat>)
    requires limit > 0
    ensures |ids| <= limit
    ensures forall i, j | 0 <= i < j < |ids| :: ids[i] != ids[j]
    ensures forall id | id in ids :: id in Active(store.Snapshot())
    ensures ids == [] ==> Active(store.Snapshot()) == {}
  {
    ids := [];
    var rest := set id | id in store.tasks && !Terminal(store.tasks[id].state) && !store.tasks[id].slotReleased;
    assert rest == Active(store.Snapshot());
    while rest != {} && |ids| < limit
      invariant |ids| <= limit
      invariant rest <= Active(store.Snapshot())
      invariant ids == [] ==> rest == Active(store.Snapshot())
      invariant forall i, j | 0 <= i < j < |ids| :: ids[i] != ids[j]
      invariant forall id | id in ids :: id in Active(store.Snapshot()) && id !in rest
      decreases limit - |ids|
    {
      var id :| id in rest;
      ids := ids + [id];
      rest := rest - {id};
    }
  }

  lemma CancellingKeepsRows(db: Db, id: nat)
    requires RowsOk(db) && id in db.tasks
    ensures RowsOk(CancelDisconnected(db, id).0)
  {
    var after := CancelDisconnected(db, id).0;
    forall k | k in after.tasks ensures RowOk(after, k) {
      assert RowOk(db, k);
    }
  }

  lemma CancellingTouchesOne(db: Db, id: nat)
    requires id in Active(db)
    ensures CancelDisconnected(db, id).1
    ensures Active(CancelDisconnected(db, id).0) == Active(db) - {id}
    ensures OnlyActiveCancelled(db, CancelDisconnected(db, id).0)
  {
    var after := CancelDisconnected(db, id).0;
    assert after.tasks == db.tasks[id := Ended(db.tasks[id], Cancelled)];
  }

  lemma CancellingRemovesOne(db: Db, id: nat)
    requires Consistent(db) && id in Active(db)
    ensures CancelDisconnected(db, id).1
    ensures Consistent(CancelDisconnected(db, id).0)
    ensures Active(CancelDisconnected(db, id).0) == Active(db) - {id}
    ensures OnlyActiveCancelled(db, CancelDisconnected(db, id).0)
  {
    CancellingTouchesOne(db, id);
    CancellingKeepsRows(db, id);
    EndingReleasesOneSlot(db, id, Cancelled);
    hide Balanced, RowsOk, Active, OnlyActiveCancelled;
  }

  /** Rows that were over are untouched; the others are as they were, or cancelled. */
  ghost predicate OnlyActiveCancelled(before: Db, after: Db) {
    && before.tasks.Keys == after.tasks.Keys
    && forall id | id in before.tasks ::
         var r, s := before.tasks[id], after.tasks[id];
         s == r || (!Terminal(r.state) && s == Ended(r, Cancelled))
  }

  lemma NobodyHoldsASlot(db: Db)
    requires Consistent(db) && Active(db) == {}
    ensures forall id | id in db.tasks :: Terminal(db.tasks[id].state)
    ensures forall user | user in db.users :: db.users[user].activeTasks == 0
  {
    forall id | id in db.tasks ensures Terminal(db.tasks[id].state) && db.tasks[id].slotReleased {
      assert RowOk(db, id);
      assert id !in Active(db);
    }
    forall user | user in db.users ensures db.users[user].activeTasks == 0 {
      assert Held(db, user) == {};
    }
  }

  /**
   The sweep ends, says how many tasks were active when it began, cancels exactly those, and leaves no
   slot taken.
   */
  method CancelActiveTasks(store: Store) returns (cancelled: nat)
    requires Consistent(store.Snapshot())
    modifies store
    ensures Consistent(store.Snapshot())
    ensures cancelled == |old(Active(store.Snapshot()))|
    ensures OnlyActiveCancelled(old(store.Snapshot()), store.Snapshot())
    ensures forall id | id in store.tasks :: Terminal(store.tasks[id].state)
    ensures forall user | user in store.users :: store.users[user].activeTasks == 0
  {
    hide Consistent, CancelDisconnected, OnlyActiveCancelled, Active;
    cancelled := 0;
    ghost var start := store.Snapshot();
    NothingCancelledYet(start);
    while true
      invariant Consistent(store.Snapshot())
      invariant cancelled + |Active(store.Snapshot())| == |Active(start)|
      invariant OnlyActiveCancelled(start, store.Snapshot())
      decreases |Active(store.Snapshot())|
    {
      var ids := SelectActive(store, BATCH);
      if ids == [] {
        NobodyHoldsASlot(store.Snapshot());
        return;
      }
      ghost var batch := Active(store.Snapshot());
      assert ids[0] in batch;
      var i := 0;
      while i < |ids|
        invariant 0 <= i <= |ids|
        invariant Consistent(store.Snapshot())
        invariant cancelled + |Active(store.Snapshot())| == |Active(start)|
        invariant OnlyActiveCancelled(start, store.Snapshot())
        invariant forall j, k | 0 <= j < k < |ids| :: ids[j] != ids[k]
        invariant forall j | i <= j < |ids| :: ids[j] in Active(store.Snapshot())
        invariant if i == 0 then Active(store.Snapshot()) == batch else Active(store.Snapshot()) < batch
      {
        ghost var before := store.Snapshot();
        CancellingRemovesOne(before, ids[i]);
        var won := store.CancelCallerDisconnected(ids[i]);
        CancelledChain(start, before, store.Snapshot());
        cancelled := cancelled + if won then 1 else 0;
        i := i + 1;
      }
      SmallerSet(Active(store.Snapshot()), batch);
    }
  }

  lemma NothingCancelledYet(db: Db)
    ensures OnlyActiveCancelled(db, db)
  {
  }

  lemma CancelledChain(a: Db, b: Db, c: Db)
    requires OnlyActiveCancelled(a, b) && OnlyActiveCancelled(b, c)
    ensures OnlyActiveCancelled(a, c)
  {
  }

  lemma SmallerSet(a: set<nat>, b: set<nat>)
    requires a < b
    ensures |a| < |b|
  {
    assert b == a + (b - a);
  }
}
