/**
 The response objects (app/api/task_responses.py, app/api/inference.py): begin, send, complete, and
 always cancel, while every other party goes on taking steps in between.
 */
module TaskResponses {
  import opened Results
  import opened TaskStates
  import opened TaskDb
  import opened Lifecycle
  import opened TaskStore

  const FromReply: Option<set<TaskState>> := Some({ResponseReady, Responding})

  /** Steps of the other parties; completing this task is the response object's own business. */
  ghost predicate Foreign(gap: seq<Action>, id: nat) {
    ValidRun(gap) && forall a | a in gap :: !Completes(a, id)
  }

  /** The task has been seen with its reply, so it is at RESPONSE_READY or beyond. */
  ghost predicate Answered(db: Db, id: nat) {
    id in db.tasks && Rank(db.tasks[id].state) >= Rank(ResponseReady)
  }

  /** What has happened between `start` and now, and that it kept the discipline for this task. */
  ghost predicate Traced(e: Env, start: Db, run: seq<Action>, now: Db, id: nat) {
    && ValidRun(run)
    && now == Run(e, start, run)
    && Disciplined(e, start, run, id)
    && Consistent(now)
    && Answered(now, id)
  }

  lemma TraceStart(e: Env, start: Db, id: nat)
    requires Consistent(start) && Answered(start, id)
    ensures Traced(e, start, [], start, id)
  {
  }

  lemma TraceStep(e: Env, start: Db, run: seq<Action>, now: Db, id: nat, a: Action)
    requires Traced(e, start, run, now, id) && a.Valid()
    requires Completes(a, id) ==> BegunBefore(e, start, run, |run|, id)
    ensures Traced(e, start, run + [a], Step(e, now, a).0, id)
    ensures BegunBefore(e, start, run, |run|, id) ==> BegunBefore(e, start, run + [a], |run| + 1, id)
    ensures a == Begin(id) ==> BegunBefore(e, start, run + [a], |run| + 1, id)
  {
    hide Step, Consistent, RowsOk, Balanced;
    assert (run + [a])[..|run|] == run;
    DisciplineExtends(e, start, run, a, id);
    if a == Begin(id) { BegunNow(e, start, run, id); }
    StepKeepsConsistent(e, now, a);
    ConsistentRows(now);
    StepAdvancesRows(e, now, a, id);
  }

  lemma BegunNow(e: Env, start: Db, run: seq<Action>, id: nat)
    requires Answered(Run(e, start, run), id)
    ensures BegunBefore(e, start, run + [Begin(id)], |run| + 1, id)
  {
    hide Step;
    var longer := run + [Begin(id)];
    assert longer[..|run|] == run && longer[|run|] == Begin(id);
  }

  lemma DisciplineExtends(e: Env, start: Db, run: seq<Action>, a: Action, id: nat)
    requires Disciplined(e, start, run, id)
    requires Completes(a, id) ==> BegunBefore(e, start, run, |run|, id)
    ensures Disciplined(e, start, run + [a], id)
    ensures BegunBefore(e, start, run, |run|, id) ==> BegunBefore(e, start, run + [a], |run| + 1, id)
  {
    hide Step, Run;
    var longer := run + [a];
    forall i | 0 <= i < |longer| && Completes(longer[i], id) ensures BegunBefore(e, start, longer, i, id) {
      assert i < |run| ==> longer[i] == run[i];
      BegunAlsoIn(e, start, run, longer, i, id);
    }
    if BegunBefore(e, start, run, |run|, id) {
      BegunAlsoIn(e, start, run, longer, |run|, id);
      BegunLater(e, start, longer, |run|, id);
    }
  }

  lemma BegunAlsoIn(e: Env, start: Db, run: seq<Action>, longer: seq<Action>, i: nat, id: nat)
    requires run <= longer && i <= |run| && BegunBefore(e, start, run, i, id)
    ensures BegunBefore(e, start, longer, i, id)
  {
    var k :| 0 <= k < i && run[k] == Begin(id) && id in Run(e, start, run[..k]).tasks
             && Rank(Run(e, start, run[..k]).tasks[id].state) >= Rank(ResponseReady);
    assert longer[..k] == run[..k] && longer[k] == run[k];
  }

  lemma BegunLater(e: Env, start: Db, run: seq<Action>, i: nat, id: nat)
    requires i < |run| && BegunBefore(e, start, run, i, id)
    ensures BegunBefore(e, start, run, i + 1, id)
  {
  }

  /** What the caller of a response object may rely on, whichever way it ended. */
  ghost predicate Settled(e: Env, start: Db, run: seq<Action>, now: Db, id: nat) {
    && Traced(e, start, run, now, id)
    && Terminal(now.tasks[id].state) && now.tasks[id].slotReleased
  }

  lemma CancelSettles(e: Env, start: Db, run: seq<Action>, now: Db, id: nat)
    requires Traced(e, start, run, now, id)
    ensures Settled(e, start, run + [Disconnect(id)], CancelDisconnected(now, id).0, id)
  {
    hide Run, Step, Consistent, Disciplined, CancelDisconnected;
    TraceStep(e, start, run, now, id, Disconnect(id));
    StatementsOf(e, id);
    CancelEnds(now, id);
  }

  lemma CancelEnds(db: Db, id: nat)
    requires Consistent(db) && id in db.tasks
    ensures id in CancelDisconnected(db, id).0.tasks
    ensures var r := CancelDisconnected(db, id).0.tasks[id]; Terminal(r.state) && r.slotReleased
  {
    assert RowOk(db, id);
  }

  /** The three statements a response object issues. */
  lemma StatementsOf(e: Env, id: nat)
    ensures forall db :: Step(e, db, Begin(id)) == StartResponse(db, id)
    ensures forall db, target, allowed :: Step(e, db, End(id, target, allowed)) == Finalize(db, id, target, allowed)
    ensures forall db :: Step(e, db, Disconnect(id)) == CancelDisconnected(db, id)
  {
  }

  /** Between start and settlement, every change of the task is an edge of the declared table. */
  lemma SettledRunsFollowTheTable(e: Env, start: Db, run: seq<Action>, now: Db, id: nat, i: nat)
    requires Consistent(start) && Answered(start, id) && Settled(e, start, run, now, id) && i < |run|
    ensures id in Run(e, start, run[..i]).tasks && id in Run(e, start, run[..i + 1]).tasks
    ensures
      var from, to := Run(e, start, run[..i]).tasks[id].state, Run(e, start, run[..i + 1]).tasks[id].state;
      from == to || CanTransition(from, to)
  {
    assert run[..0] == [];
    RowsOnlyAdvance(e, start, run, 0, i, id);
    RunsFollowTheTable(e, start, run, i, id);
  }

  /** Let the other parties take some steps. */
  method Interleave(store: Store, e: Env, gap: seq<Action>, id: nat, ghost start: Db, ghost before: seq<Action>)
    returns (ghost run: seq<Action>)
    requires Foreign(gap, id) && Traced(e, start, before, store.Snapshot(), id)
    modifies store
    ensures run == before + gap && Traced(e, start, run, store.Snapshot(), id)
    ensures BegunBefore(e, start, before, |before|, id) ==> BegunBefore(e, start, run, |run|, id)
  {
    hide Step, Run, Consistent, Disciplined, BegunBefore, Answered;
    run := before;
    var i := 0;
    while i < |gap|
      invariant 0 <= i <= |gap| && run == before + gap[..i]
      invariant Traced(e, start, run, store.Snapshot(), id)
      invariant BegunBefore(e, start, before, |before|, id) ==> BegunBefore(e, start, run, |run|, id)
    {
      assert gap[i] in gap;
      TraceStep(e, start, run, store.Snapshot(), id, gap[i]);
      var _ := store.Perform(e, gap[i]);
      run := run + [gap[i]];
      assert gap[..i + 1] == gap[..i] + [gap[i]];
      i := i + 1;
    }
    assert gap[..|gap|] == gap;
  }

  /**
   `TaskJSONResponse.__call__`. `sends` says whether sending the body succeeds; `raised` that the call
   ended in an exception. Whatever happens, the task is over and its slot is free.
   */
  method SendJson(store: Store, e: Env, id: nat, atStart: seq<Action>, whileSending: seq<Action>, sends: bool,
                  atEnd: seq<Action>)
    returns (raised: bool, ghost run: seq<Action>)
    requires Consistent(store.Snapshot()) && Answered(store.Snapshot(), id)
    requires Foreign(atStart, id) && Foreign(whileSending, id) && Foreign(atEnd, id)
    modifies store
    ensures Settled(e, old(store.Snapshot()), run, store.Snapshot(), id)
    ensures store.tasks[id].state == Completed && old(store.tasks[id].state) != Completed ==> !raised
  {
    hide Run, Step, Consistent, Disciplined, BegunBefore, StartResponse, Finalize, CancelDisconnected;
    StatementsOf(e, id);
    ghost var start := store.Snapshot();
    run := [];
    TraceStart(e, start, id);
    raised := true;
    run := Interleave(store, e, atStart, id, start, run);
    TraceStep(e, start, run, store.Snapshot(), id, Begin(id));
    var begun := store.BeginResponse(id);
    run := run + [Begin(id)];
    if begun {
      run := Interleave(store, e, whileSending, id, start, run);
      if sends {
        TraceStep(e, start, run, store.Snapshot(), id, End(id, Completed, FromReply));
        var _ := store.FinalizeTask(id, Completed, FromReply);
        run := run + [End(id, Completed, FromReply)];
        raised := false;
      }
    }
    run := Interleave(store, e, atEnd, id, start, run);
    CancelSettles(e, start, run, store.Snapshot(), id);
    var _ := store.CancelCallerDisconnected(id);
    run := run + [Disconnect(id)];
    if raised { NeverCompletedByOthers(e, start, run, id); }
  }

  /** Without a completing step for it, a task does not become COMPLETED. */
  lemma {:induction false} NeverCompletedByOthers(e: Env, start: Db, run: seq<Action>, id: nat)
    requires Consistent(start) && ValidRun(run) && id in start.tasks
    requires forall a | a in run :: !Completes(a, id)
    ensures id in Run(e, start, run).tasks
    ensures Run(e, start, run).tasks[id].state == Completed ==> start.tasks[id].state == Completed
  {
    if run != [] {
      var init := run[..|run| - 1];
      NeverCompletedByOthers(e, start, init, id);
      RunKeepsConsistent(e, start, init);
      assert run[|run| - 1] in run;
      OtherStepsDoNotComplete(e, Run(e, start, init), run[|run| - 1], id);
    }
  }

  lemma OtherStepsDoNotComplete(e: Env, db: Db, a: Action, id: nat)
    requires Consistent(db) && a.Valid() && !Completes(a, id) && id in db.tasks
    ensures id in Step(e, db, a).0.tasks
    ensures Step(e, db, a).0.tasks[id].state == Completed ==> db.tasks[id].state == Completed
  {
    hide Step, Consistent;
    ConsistentRows(db);
    StepAdvancesRow(e, db, a, id);
  }

  // ---- Streaming ----

  /** What becomes of a message: delivered, not delivered, or cancelled while it was sent. */
  datatype Sending = Delivered | Failing | Cancelling

  /** A frame that cannot be rendered is `broken`; `before` are the others' steps since the last frame. */
  datatype Frame = Frame(before: seq<Action>, broken: bool, sending: Sending)

  predicate AllDelivered(frames: seq<Frame>) {
    forall f | f in frames :: !f.broken && f.sending.Delivered?
  }

  /** No other party begins the task. */
  predicate Unbegun(gap: seq<Action>, id: nat) {
    forall a | a in gap :: a != Begin(id)
  }

  predicate Uncompleted(run: seq<Action>, id: nat) {
    forall a | a in run :: !Completes(a, id)
  }

  /** An answered task that nobody begins or completes is still answered, or over without completing. */
  lemma {:induction false} StaysAnswered(e: Env, start: Db, run: seq<Action>, id: nat)
    requires Consistent(start) && ValidRun(run) && id in start.tasks && start.tasks[id].state == ResponseReady
    requires Unbegun(run, id) && Uncompleted(run, id)
    ensures id in Run(e, start, run).tasks
    ensures
      var state := Run(e, start, run).tasks[id].state;
      state == ResponseReady || (Terminal(state) && state != Completed)
  {
    if run != [] {
      hide Step, Consistent;
      var init, last := run[..|run| - 1], run[|run| - 1];
      assert last in run && forall a | a in init :: a in run;
      StaysAnswered(e, start, init, id);
      RunKeepsConsistent(e, start, init);
      ConsistentRows(Run(e, start, init));
      StepAdvancesRow(e, Run(e, start, init), last, id);
      StepAdvancesRows(e, Run(e, start, init), last, id);
    }
  }

  lemma BeginsWhenAnswered(db: Db, id: nat)
    requires Consistent(db) && id in db.tasks && db.tasks[id].state == ResponseReady
    ensures StartResponse(db, id).1
  {
    assert RowOk(db, id);
  }

  /** A refused begin, when no other party begins: the task is over, and not completed. */
  lemma RefusedMeansOver(e: Env, start: Db, run: seq<Action>, now: Db, id: nat)
    requires Consistent(start) && id in start.tasks && start.tasks[id].state == ResponseReady
    requires Traced(e, start, run, now, id) && Unbegun(run, id) && Uncompleted(run, id) && !StartResponse(now, id).1
    ensures Terminal(now.tasks[id].state) && StartResponse(now, id).0 == now
  {
    StaysAnswered(e, start, run, id);
    if now.tasks[id].state == ResponseReady { BeginsWhenAnswered(now, id); }
  }

  /** After the response began, a task that is not RESPONDING is over. */
  lemma BegunMeansRespondingOrOver(e: Env, start: Db, run: seq<Action>, now: Db, id: nat)
    requires Consistent(start) && Traced(e, start, run, now, id) && BegunBefore(e, start, run, |run|, id)
    ensures id in now.tasks && (now.tasks[id].state == Responding || Terminal(now.tasks[id].state))
  {
    assert run[..|run|] == run;
    BegunLeavesReady(e, start, run, |run|, id);
  }

  lemma FailingEnds(db: Db, id: nat)
    requires Consistent(db) && id in db.tasks
    ensures id in Finalize(db, id, Failed, None).0.tasks && Terminal(Finalize(db, id, Failed, None).0.tasks[id].state)
  {
    assert RowOk(db, id);
  }

  /**
   `_stream`, driven by the event-source response: `finished` is true when the generator ran to its end,
   `delivered` when every frame got through. `error` is the fate of an error frame, should one be sent, and
   `meanwhile` what others do before a broken stream is marked as failed. A cancelled frame cancels the task
   from inside the generator; so does a cancelled error frame, but only where the task had left RESPONDING.
   */
  method Stream(store: Store, e: Env, id: nat, frames: seq<Frame>, error: Sending, meanwhile: seq<Action>,
                ghost start: Db, ghost before: seq<Action>)
    returns (finished: bool, delivered: bool, ghost run: seq<Action>)
    requires Consistent(start) && id in start.tasks
    requires Foreign(meanwhile, id) && forall f | f in frames :: Foreign(f.before, id)
    requires Traced(e, start, before, store.Snapshot(), id) && Uncompleted(before, id)
    modifies store
    ensures Traced(e, start, run, store.Snapshot(), id)
    ensures BegunBefore(e, start, run, |run|, id) && Uncompleted(run, id)
    ensures delivered ==> finished && AllDelivered(frames)
    ensures Unbegun(before, id) && start.tasks[id].state == ResponseReady && finished && !delivered ==>
      id in store.tasks && Terminal(store.tasks[id].state)
  {
    hide Run, Step, Consistent, Disciplined, BegunBefore, StartResponse, Finalize, CancelDisconnected, Traced;
    StatementsOf(e, id);
    ghost var quiet := Unbegun(before, id) && start.tasks[id].state == ResponseReady;
    run := before;
    TraceStep(e, start, run, store.Snapshot(), id, Begin(id));
    ghost var atBegin := store.Snapshot();
    var begun := store.BeginResponse(id);
    run := run + [Begin(id)];
    if !begun {
      if quiet { RefusedMeansOver(e, start, before, atBegin, id); }
      TracedIsThere(e, start, run, store.Snapshot(), id);
      return error.Delivered?, false, run;
    }
    var i := 0;
    while i < |frames|
      invariant 0 <= i <= |frames| && AllDelivered(frames[..i])
      invariant Traced(e, start, run, store.Snapshot(), id)
      invariant BegunBefore(e, start, run, |run|, id) && Uncompleted(run, id)
    {
      assert frames[i] in frames;
      run := Interleave(store, e, frames[i].before, id, start, run);
      if frames[i].broken {
        if !error.Delivered? { return false, false, run; }
        run := FailInside(store, e, id, meanwhile, start, run);
        return true, false, run;
      }
      BegunMeansRespondingOrOver(e, start, run, store.Snapshot(), id);
      if id !in store.tasks || store.tasks[id].state != Responding {
        if error.Cancelling? { run := CancelInside(store, e, id, start, run); }
        return error.Delivered?, false, run;
      }
      if frames[i].sending.Cancelling? {
        run := CancelInside(store, e, id, start, run);
        return false, false, run;
      }
      if frames[i].sending.Failing? {
        return false, false, run;
      }
      assert frames[..i + 1] == frames[..i] + [frames[i]];
      i := i + 1;
    }
    assert frames[..i] == frames;
    return true, true, run;
  }

  lemma TracedIsThere(e: Env, start: Db, run: seq<Action>, now: Db, id: nat)
    requires Traced(e, start, run, now, id)
    ensures id in now.tasks && Consistent(now) && ValidRun(run) && now == Run(e, start, run)
  {
  }

  /** The FAILED step after the error frame for a broken frame. */
  method FailInside(store: Store, e: Env, id: nat, meanwhile: seq<Action>, ghost start: Db, ghost before: seq<Action>)
    returns (ghost run: seq<Action>)
    requires Foreign(meanwhile, id) && Uncompleted(before, id)
    requires Traced(e, start, before, store.Snapshot(), id) && BegunBefore(e, start, before, |before|, id)
    modifies store
    ensures Traced(e, start, run, store.Snapshot(), id)
    ensures BegunBefore(e, start, run, |run|, id) && Uncompleted(run, id)
    ensures id in store.tasks && Terminal(store.tasks[id].state)
  {
    hide Run, Step, Consistent, Disciplined, BegunBefore, Finalize, Traced;
    StatementsOf(e, id);
    run := Interleave(store, e, meanwhile, id, start, before);
    TracedIsThere(e, start, run, store.Snapshot(), id);
    FailingEnds(store.Snapshot(), id);
    TraceStep(e, start, run, store.Snapshot(), id, End(id, Failed, None));
    var _ := store.FinalizeTask(id, Failed, None);
    run := run + [End(id, Failed, None)];
  }

  /** The generator's own cancel, on CancelledError. */
  method CancelInside(store: Store, e: Env, id: nat, ghost start: Db, ghost before: seq<Action>)
    returns (ghost run: seq<Action>)
    requires Traced(e, start, before, store.Snapshot(), id) && BegunBefore(e, start, before, |before|, id)
    modifies store
    ensures run == before + [Disconnect(id)]
    ensures Traced(e, start, run, store.Snapshot(), id) && BegunBefore(e, start, run, |run|, id)
  {
    hide Run, Step, Consistent, Disciplined, BegunBefore, CancelDisconnected, Traced;
    StatementsOf(e, id);
    TraceStep(e, start, before, store.Snapshot(), id, Disconnect(id));
    var _ := store.CancelCallerDisconnected(id);
    run := before + [Disconnect(id)];
  }

  /** A task that is over stays as it is for the rest of the run. */
  lemma OverStaysOver(e: Env, start: Db, sofar: seq<Action>, run: seq<Action>, id: nat)
    requires Consistent(start) && ValidRun(run) && sofar <= run
    requires id in Run(e, start, sofar).tasks && Terminal(Run(e, start, sofar).tasks[id].state)
    ensures id in Run(e, start, run).tasks && Run(e, start, run).tasks[id] == Run(e, start, sofar).tasks[id]
  {
    hide Run, Consistent;
    assert run[..|sofar|] == sofar && run[..|run|] == run;
    RowsOnlyAdvance(e, start, run, |sofar|, |run|, id);
  }

  /**
   `TaskEventSourceResponse.__call__`. The generator may never be started, frames and error frames may be
   lost, and the closing message may fail. In every case the task is over and its slot is free. It is newly
   COMPLETED only if the closing message was delivered; and if no other party begins the task, only if every
   frame was delivered and no error frame was sent.
   */
  method SendEvents(store: Store, e: Env, id: nat, atStart: seq<Action>, started: bool, frames: seq<Frame>,
                    error: Sending, meanwhile: seq<Action>, whileClosing: seq<Action>, closes: bool, atEnd: seq<Action>)
    returns (sentEnd: bool, ghost run: seq<Action>)
    requires Consistent(store.Snapshot()) && Answered(store.Snapshot(), id)
    requires Foreign(atStart, id) && Foreign(meanwhile, id) && Foreign(whileClosing, id) && Foreign(atEnd, id)
    requires forall f | f in frames :: Foreign(f.before, id)
    modifies store
    ensures Settled(e, old(store.Snapshot()), run, store.Snapshot(), id)
    ensures store.tasks[id].state == Completed && old(store.tasks[id].state) != Completed
      ==> sentEnd && started && closes
    ensures
      store.tasks[id].state == Completed && old(store.tasks[id].state) == ResponseReady && Unbegun(atStart, id) ==>
      AllDelivered(frames)
  {
    hide Run, Step, Consistent, Disciplined, BegunBefore, Traced, StartResponse, Finalize, CancelDisconnected;
    StatementsOf(e, id);
    ghost var start := store.Snapshot();
    run := [];
    TraceStart(e, start, id);
    sentEnd := false;
    run := Interleave(store, e, atStart, id, start, run);
    assert run == atStart;
    ghost var streamed, over := run, false;
    if started {
      var finished, delivered;
      finished, delivered, run := Stream(store, e, id, frames, error, meanwhile, start, run);
      streamed := run;
      TracedIsThere(e, start, run, store.Snapshot(), id);
      over := finished && !delivered && Unbegun(atStart, id) && start.tasks[id].state == ResponseReady;
      run := Interleave(store, e, whileClosing, id, start, run);
      sentEnd := finished && closes;
      if sentEnd {
        TraceStep(e, start, run, store.Snapshot(), id, End(id, Completed, FromReply));
        var _ := store.FinalizeTask(id, Completed, FromReply);
        run := run + [End(id, Completed, FromReply)];
      }
    }
    run := Interleave(store, e, atEnd, id, start, run);
    CancelSettles(e, start, run, store.Snapshot(), id);
    var _ := store.CancelCallerDisconnected(id);
    run := run + [Disconnect(id)];
    TracedIsThere(e, start, run, store.Snapshot(), id);
    if !sentEnd { NeverCompletedByOthers(e, start, run, id); }
    if over {
      PrefixIsValid(streamed, run);
      NeverCompletedByOthers(e, start, streamed, id);
      OverStaysOver(e, start, streamed, run, id);
    }
  }

  lemma PrefixIsValid(sofar: seq<Action>, run: seq<Action>)
    requires ValidRun(run) && sofar <= run
    ensures ValidRun(sofar)
  {
    forall i | 0 <= i < |sofar| ensures sofar[i].Valid() { assert sofar[i] == run[i]; }
  }
}
