/**
 How deep chains get. The walk of `_resolve_previous` counts the links above the parent, so a chain of 21
 ancestors is admitted although the depth constant is 20, and 21 is reached.
 */
module ChainDepth {
  import opened Results
  import opened Drafts
  import opened ReplyItems
  import opened TaskStates
  import opened TaskDb
  import opened Lifecycle
  import opened ContextChain

  // ---- The check in terms of the parent ----

  /** A finished parent under the same key is refused exactly when it has more than 20 ancestors itself. */
  lemma ParentIsTooDeepIff(db: Db, id: nat, key: nat)
    requires BackwardLinks(db.tasks) && id in db.tasks
    requires db.tasks[id].hasResponseId && db.tasks[id].key == key && db.tasks[id].state == Completed
    ensures ResolvePrevious(db, id, key) == Some(ContextLengthExceeded)
      <==> |Ancestors(db.tasks, id)| > 20
    ensures ResolvePrevious(db, id, key) == None <==> |Ancestors(db.tasks, id)| <= 20
  {
    WalkCountsAncestors(db.tasks, id, 0);
  }

  /** A new task has one ancestor more than its parent, and more than 20 exactly when the parent has 20. */
  lemma NewTaskDepth(e: Env, db: Db, q: Request)
    requires Consistent(db) && LinksOk(e, db) && CreateTask(e, db, q).1.Ok?
    ensures
      var after, previous := CreateTask(e, db, q).0.tasks, Previous(q);
      && BackwardLinks(after) && db.nextId in after && (previous.Some? ==> previous.value in db.tasks)
      && var depth := |Ancestors(after, db.nextId)|;
         && depth == (if previous.None? then 0 else |Ancestors(db.tasks, previous.value)| + 1)
         && (depth > 20 <==> previous.Some? && |Ancestors(db.tasks, previous.value)| == 20)
  {
    hide Consistent, LinksOk, CreateTask, Step;
    var after, previous := CreateTask(e, db, q).0, Previous(q);
    StepKeepsLinks(e, db, Create(q), Step(e, db, Create(q)).0) by { CreateIsAStep(e, db, q); }
    CreateIsAStep(e, db, q);
    LinksGoBack(e, after);
    LinksGoBack(e, db);
    NewRowIsThere(e, db, q);
    AdmittedLink(e, db, q);
    if previous.Some? {
      WalkCountsAncestors(db.tasks, previous.value, 0);
      AncestorsStay(db.tasks, after.tasks, previous.value);
    }
  }

  lemma CreateIsAStep(e: Env, db: Db, q: Request)
    ensures Create(q).Valid() && Step(e, db, Create(q)).0 == CreateTask(e, db, q).0
  {
  }

  lemma LinksGoBack(e: Env, db: Db)
    requires LinksOk(e, db)
    ensures BackwardLinks(db.tasks)
  {
  }

  lemma NewRowIsThere(e: Env, db: Db, q: Request)
    requires Consistent(db) && CreateTask(e, db, q).1.Ok?
    ensures
      var after := CreateTask(e, db, q).0.tasks;
      && db.nextId in after && after[db.nextId].previous == Previous(q) && db.nextId !in db.tasks
      && forall k | k in db.tasks :: k in after && after[k] == db.tasks[k]
  {
    AdmittedShape(e, db, q);
    assert db.nextId in db.tasks ==> RowOk(db, db.nextId);
  }

  // ---- A chain of every depth up to 21 ----

  const Silence := ReplyDraft(None, [], None)

  /** One exchange: asked, answered, sent, completed. */
  function Turn(id: nat, previous: Option<nat>): seq<Action> {
    [Create(Request(0, 0, true, true, true, true, previous, [], [])), FirstReply(id, 0, 1, Silence), Begin(id),
     End(id, Completed, Some({ResponseReady, Responding}))]
  }

  function Chain(n: nat): seq<Action> {
    if n == 0 then [NewUser(0)] + Turn(0, None) else Chain(n - 1) + Turn(n, Some(n - 1))
  }

  function Finished(previous: Option<nat>): Row {
    Row(0, 0, true, Completed, true, 4, Some(Silence), previous, [], [])
  }

  /** Nothing holds the user back. */
  predicate Idle(db: Db) {
    0 in db.users && db.users[0] == User(true, 0)
  }

  lemma SilenceIsEmpty(e: Env)
    ensures ReplyOutputItems(e.codec, Silence) == []
  {
    assert CallItems(e.codec, []) == [];
  }

  /** The parent, if any, has a finished silent row and may be continued. */
  ghost predicate Continuable(db: Db, previous: Option<nat>) {
    previous.Some? ==>
      && previous.value in db.tasks && ResolvePrevious(db, previous.value, 0) == None
      && db.tasks[previous.value].context == [] && db.tasks[previous.value].payload == Some(Silence)
  }

  function Asked(db: Db, previous: Option<nat>, row: Row, active: nat): Db {
    Db(db.tasks[db.nextId := row], db.users[0 := User(true, active)], db.nextId + 1)
  }

  lemma Asks(e: Env, db: Db, previous: Option<nat>)
    requires Idle(db) && Continuable(db, previous) && e.bytes([]) <= MAX_EXPANDED_CONTEXT_BYTES
    ensures
      Step(e, db, Turn(db.nextId, previous)[0]).0
      == Asked(db, previous, Row(0, 0, true, WaitingHuman, false, 1, None, previous, [], []), 1)
  {
    hide ResolvePrevious;
    var q := Request(0, 0, true, true, true, true, previous, [], []);
    SilenceIsEmpty(e);
    assert Inherited(e, db, previous) + q.input == [];
    AdmittedShape(e, db, q);
  }

  lemma Answers(e: Env, db: Db, previous: Option<nat>)
    requires Idle(db)
    ensures
      var asked := Asked(db, previous, Row(0, 0, true, WaitingHuman, false, 1, None, previous, [], []), 1);
      var answered := Step(e, asked, Turn(db.nextId, previous)[1]).0;
      var begun := Step(e, answered, Turn(db.nextId, previous)[2]).0;
      && answered == Asked(db, previous, Row(0, 0, true, ResponseReady, false, 2, Some(Silence), previous, [], []), 1)
      && begun == Asked(db, previous, Row(0, 0, true, Responding, false, 3, Some(Silence), previous, [], []), 1)
      && Step(e, begun, Turn(db.nextId, previous)[3]).0 == Asked(db, previous, Finished(previous), 0)
  {
  }

  lemma {:induction false} RunConcat(e: Env, db: Db, a: seq<Action>, b: seq<Action>)
    ensures Run(e, db, a + b) == Run(e, Run(e, db, a), b)
  {
    hide Step;
    if b == [] {
      assert a + b == a;
    } else {
      RunConcat(e, db, a, b[..|b| - 1]);
      assert (a + b)[..|a + b| - 1] == a + b[..|b| - 1];
    }
  }

  lemma RunFour(e: Env, db: Db, run: seq<Action>)
    requires |run| == 4
    ensures Run(e, db, run) == Step(e, Step(e, Step(e, Step(e, db, run[0]).0, run[1]).0, run[2]).0, run[3]).0
  {
    hide Step;
    assert run[..4] == run && run[..0] == [];
    OneMore(e, db, run, 0);
    OneMore(e, db, run, 1);
    OneMore(e, db, run, 2);
    OneMore(e, db, run, 3);
  }

  lemma TurnFinishes(e: Env, db: Db, previous: Option<nat>)
    requires Idle(db) && Continuable(db, previous) && e.bytes([]) <= MAX_EXPANDED_CONTEXT_BYTES
    ensures Run(e, db, Turn(db.nextId, previous)) == Asked(db, previous, Finished(previous), 0)
  {
    hide Step, Run, Turn, Continuable, Asked;
    assert |Turn(db.nextId, previous)| == 4 by { FourMoves(db.nextId, previous); }
    RunFour(e, db, Turn(db.nextId, previous));
    Asks(e, db, previous);
    Answers(e, db, previous);
  }

  lemma FourMoves(id: nat, previous: Option<nat>)
    ensures |Turn(id, previous)| == 4 && ValidRun(Turn(id, previous))
  {
  }

  lemma {:induction false} ChainIsValid(n: nat)
    ensures ValidRun(Chain(n))
  {
    hide Turn;
    if n == 0 {
      FourMoves(0, None);
    } else {
      ChainIsValid(n - 1);
      FourMoves(n, Some(n - 1));
    }
  }

  /** Task `n` is the last of a chain of finished tasks. */
  ghost predicate Chained(db: Db, n: nat) {
    && Idle(db) && db.nextId == n + 1 && n in db.tasks
    && db.tasks[n] == Finished(if n == 0 then None else Some(n - 1))
    && BackwardLinks(db.tasks) && |Ancestors(db.tasks, n)| == n
  }

  lemma FirstTurn(e: Env)
    requires e.bytes([]) <= MAX_EXPANDED_CONTEXT_BYTES
    ensures Chained(Run(e, EmptyDb, Chain(0)), 0)
  {
    var db := Db(map[], map[0 := User(true, 0)], 0);
    assert [NewUser(0)][..0] == [] && Run(e, EmptyDb, []) == EmptyDb;
    assert Run(e, EmptyDb, [NewUser(0)]) == db;
    hide Run, Turn;
    RunConcat(e, EmptyDb, [NewUser(0)], Turn(0, None));
    TurnFinishes(e, db, None);
  }

  lemma NextTurn(e: Env, db: Db, n: nat)
    requires Chained(db, n) && n <= MAX_CONTEXT_CHAIN_DEPTH && e.bytes([]) <= MAX_EXPANDED_CONTEXT_BYTES
    requires BackwardLinks(Run(e, db, Turn(n + 1, Some(n))).tasks)
    requires forall k | k in db.tasks :: k <= n
    ensures Chained(Run(e, db, Turn(n + 1, Some(n))), n + 1)
  {
    hide Run, Turn;
    ParentIsTooDeepIff(db, n, 0);
    TurnFinishes(e, db, Some(n));
    var after := Run(e, db, Turn(n + 1, Some(n)));
    AncestorsStay(db.tasks, after.tasks, n);
  }

  /** For every n up to 21 there is a valid run with a completed task of exactly n ancestors. */
  lemma {:induction false} ChainReachesDepth(e: Env, n: nat)
    requires n <= MAX_CONTEXT_CHAIN_DEPTH + 1 && e.bytes([]) <= MAX_EXPANDED_CONTEXT_BYTES
    ensures ValidRun(Chain(n)) && Chained(Run(e, EmptyDb, Chain(n)), n)
  {
    hide Run, Turn, Consistent, LinksOk, Chained, BackwardLinks;
    ChainIsValid(n);
    if n == 0 {
      FirstTurn(e);
    } else {
      ChainReachesDepth(e, n - 1);
      var db := Run(e, EmptyDb, Chain(n - 1));
      RunConcat(e, EmptyDb, Chain(n - 1), Turn(n, Some(n - 1)));
      RunKeepsLinks(e, Chain(n));
      LinksGoBack(e, Run(e, EmptyDb, Chain(n)));
      ChainIsValid(n - 1);
      RunKeepsLinks(e, Chain(n - 1));
      IdsAreBounded(db, n - 1);
      NextTurn(e, db, n - 1);
    }
  }

  lemma IdsAreBounded(db: Db, n: nat)
    requires Consistent(db) && Chained(db, n)
    ensures forall k | k in db.tasks :: k <= n
  {
    forall k | k in db.tasks ensures k <= n { assert RowOk(db, k); }
  }

  ghost predicate Reaches(e: Env, run: seq<Action>, id: nat, n: nat) {
    var tasks := Run(e, EmptyDb, run).tasks;
    && ValidRun(run) && id in tasks && tasks[id].state == Completed
    && BackwardLinks(tasks) && |Ancestors(tasks, id)| == n
  }

  /** The depths of completed tasks are exactly 0 to 21. */
  lemma DepthIsReachedIff(e: Env, n: nat)
    requires e.bytes([]) <= MAX_EXPANDED_CONTEXT_BYTES
    ensures (exists run, id :: Reaches(e, run, id, n)) <==> n <= 21
  {
    hide Run, Chain;
    if n <= MAX_CONTEXT_CHAIN_DEPTH + 1 {
      ChainReachesDepth(e, n);
      assert Reaches(e, Chain(n), n, n);
    }
    forall run, id | Reaches(e, run, id, n) ensures n <= MAX_CONTEXT_CHAIN_DEPTH + 1 {
      StoredContextIsFlattenedHistory(e, run, id);
    }
  }
}
