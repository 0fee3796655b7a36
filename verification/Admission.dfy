/**
 Who is admitted, and why not (app/services/inference_service.py): the checks of a new task, read off the
 fields of the request and of the database.
 */
module Admission {
  import opened Results
  import opened TaskStates
  import opened ReplyItems
  import opened TaskDb
  import opened Lifecycle
  import opened ContextChain

  /** Only a Responses request continues another task. */
  predicate Continues(q: Request) {
    q.viaResponses && q.previous.Some?
  }

  /** The parent has an answer that was delivered under the same key. */
  predicate KnownParent(db: Db, q: Request) {
    Continues(q) ==>
      && q.previous.value in db.tasks
      && var p := db.tasks[q.previous.value];
         p.hasResponseId && p.key == q.key && p.state == Completed
  }

  ghost predicate ShallowParent(db: Db, q: Request)
    requires BackwardLinks(db.tasks)
  {
    Continues(q) && q.previous.value in db.tasks ==> |Ancestors(db.tasks, q.previous.value)| <= 20
  }

  predicate DistinctTools(q: Request) {
    forall i, j | 0 <= i < |q.tools| && 0 <= j < |q.tools| && q.tools[i].name == q.tools[j].name :: i == j
  }

  /** The parent's context, the parent's reply, the new input. */
  function FullContext(e: Env, db: Db, q: Request): seq<Item> {
    if Continues(q) && q.previous.value in db.tasks then
      var p := db.tasks[q.previous.value];
      p.context + (if p.payload.Some? then ReplyOutputItems(e.codec, p.payload.value) else []) + q.input
    else q.input
  }

  predicate Fits(e: Env, db: Db, q: Request) {
    |FullContext(e, db, q)| <= 512 && e.bytes(FullContext(e, db, q)) <= 2_097_152
  }

  predicate Entitled(db: Db, q: Request) {
    q.keyEnabled && q.owner in db.users && db.users[q.owner].active
  }

  predicate HasSlot(db: Db, q: Request) {
    q.owner in db.users && db.users[q.owner].activeTasks < 10
  }

  lemma ContextIsFull(e: Env, db: Db, q: Request)
    requires KnownParent(db, q)
    ensures Inherited(e, db, Previous(q)) + q.input == FullContext(e, db, q)
    ensures WithinBudget(e, FullContext(e, db, q)) <==> Fits(e, db, q)
  {
  }

  lemma ParentIsGoodIff(db: Db, q: Request)
    requires BackwardLinks(db.tasks) && Continues(q)
    ensures ResolvePrevious(db, q.previous.value, q.key)
      == if !KnownParent(db, q) then Some(InvalidPrevious)
         else if !ShallowParent(db, q) then Some(ContextLengthExceeded)
         else None
  {
    if KnownParent(db, q) { WalkCountsAncestors(db.tasks, q.previous.value, 0); }
  }

  /** The first check that fails decides the error. */
  lemma FirstFailingCheckDecides(e: Env, db: Db, q: Request)
    requires BackwardLinks(db.tasks)
    ensures
      var r := CreateTask(e, db, q).1;
      && (!q.strategyFits ==> r == Err(UnsupportedStrategy))
      && (q.strategyFits && !q.modelKnown ==> r == Err(ModelNotFound))
      && (q.strategyFits && q.modelKnown ==>
            && (!KnownParent(db, q) ==> r == Err(InvalidPrevious))
            && (KnownParent(db, q) && !ShallowParent(db, q) ==> r == Err(ContextLengthExceeded))
            && (KnownParent(db, q) && ShallowParent(db, q) ==>
                  && (!DistinctTools(q) ==> r == Err(RepeatedTool))
                  && (DistinctTools(q) && !Fits(e, db, q) ==> r == Err(ContextLengthExceeded))
                  && (DistinctTools(q) && Fits(e, db, q) ==>
                        && (!Entitled(db, q) ==> r == Err(InvalidApiKey))
                        && (Entitled(db, q) && !HasSlot(db, q) ==> r == Err(RateLimited))
                        && (Entitled(db, q) && HasSlot(db, q) ==> r == Ok(db.nextId)))))
  {
    hide ResolvePrevious, Inherited, WithinBudget, Fits, FullContext, Ancestors;
    if Continues(q) { ParentIsGoodIff(db, q); }
    if KnownParent(db, q) { ContextIsFull(e, db, q); }
  }

  /** A request is admitted exactly when it passes every check. */
  lemma AdmittedIff(e: Env, db: Db, q: Request)
    requires BackwardLinks(db.tasks)
    ensures CreateTask(e, db, q).1.Ok? <==>
      && q.strategyFits && q.modelKnown && Entitled(db, q) && HasSlot(db, q)
      && KnownParent(db, q) && ShallowParent(db, q) && DistinctTools(q) && Fits(e, db, q)
  {
    hide CreateTask, Fits, ShallowParent, DistinctTools, KnownParent;
    FirstFailingCheckDecides(e, db, q);
  }

  /** A refusal changes nothing; an admission takes one slot and adds one waiting row. */
  lemma AdmittedRow(e: Env, db: Db, q: Request)
    requires BackwardLinks(db.tasks)
    ensures
      var (after, r) := CreateTask(e, db, q);
      if r.Err? then after == db else
        var id := db.nextId;
        && r.value == id && after.nextId == id + 1
        && q.owner in db.users && after.users.Keys == db.users.Keys && after.tasks.Keys == db.tasks.Keys + {id}
        && (forall u | u in db.users && u != q.owner :: after.users[u] == db.users[u])
        && after.users[q.owner] == User(true, db.users[q.owner].activeTasks + 1)
        && (forall k | k in db.tasks && k != id :: after.tasks[k] == db.tasks[k])
        && after.tasks[id].owner == q.owner && after.tasks[id].key == q.key
        && after.tasks[id].state == WaitingHuman && !after.tasks[id].slotReleased
        && after.tasks[id].version == 1 && after.tasks[id].payload == None
        && after.tasks[id].hasResponseId == q.viaResponses
        && after.tasks[id].previous == (if Continues(q) then q.previous else None)
        && after.tasks[id].input == q.input && after.tasks[id].context == FullContext(e, db, q)
  {
    AdmittedShape(e, db, q);
    if CreateTask(e, db, q).1.Ok? {
      AdmittedIff(e, db, q);
      ContextIsFull(e, db, q);
    }
  }

  /** So it is for every request that arrives after any run. */
  lemma AdmittedAfterRunIff(e: Env, run: seq<Action>, q: Request)
    requires ValidRun(run)
    ensures
      var db := Run(e, EmptyDb, run);
      && BackwardLinks(db.tasks)
      && (CreateTask(e, db, q).1.Ok? <==>
            && q.strategyFits && q.modelKnown && Entitled(db, q) && HasSlot(db, q)
            && KnownParent(db, q) && ShallowParent(db, q) && DistinctTools(q) && Fits(e, db, q))
  {
    hide Run, Consistent, CreateTask, Fits, ShallowParent, DistinctTools, KnownParent;
    RunKeepsLinks(e, run);
    AdmittedIff(e, Run(e, EmptyDb, run), q);
  }
}
