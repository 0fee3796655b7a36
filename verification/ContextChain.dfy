/**
 Chains of `previous_response_id`. Each task stores its parent's context, its parent's reply and its own
 input; the theorem is that this is the whole conversation, flattened from its oldest ancestor on.
 */
module ContextChain {
  import opened Results
  import opened TaskStates
  import opened TaskDb
  import opened Lifecycle

  /** A link points back to an older row. */
  ghost predicate BackwardLinks(tasks: map<nat, Row>) {
    forall id | id in tasks && tasks[id].previous.Some? ::
      tasks[id].previous.value in tasks && tasks[id].previous.value < id
  }

  /** The ancestors of a task, oldest first. */
  ghost function Ancestors(tasks: map<nat, Row>, id: nat): seq<nat>
    requires BackwardLinks(tasks) && id in tasks
    decreases id
  {
    if tasks[id].previous.None? then []
    else Ancestors(tasks, tasks[id].previous.value) + [tasks[id].previous.value]
  }

  /** What the caller sent and was answered, turn by turn. */
  ghost function Conversation(e: Env, tasks: map<nat, Row>, turns: seq<nat>): seq<Item>
    requires forall id | id in turns :: id in tasks
  {
    if turns == [] then []
    else
      var last := tasks[turns[|turns| - 1]];
      Conversation(e, tasks, turns[..|turns| - 1]) + last.input + ReplyOf(e, last)
  }

  ghost predicate LinkOk(e: Env, tasks: map<nat, Row>, id: nat)
    requires id in tasks
  {
    var r := tasks[id];
    && |r.context| <= MAX_EXPANDED_ITEMS
    && e.bytes(r.context) <= MAX_EXPANDED_CONTEXT_BYTES
    && (r.previous.None? ==> r.context == r.input)
    && (r.previous.Some? ==>
          && r.previous.value in tasks && r.previous.value < id
          && var p := tasks[r.previous.value];
             && p.state == Completed && p.hasResponseId && p.key == r.key
             && r.context == p.context + ReplyOf(e, p) + r.input)
  }

  ghost predicate LinksOk(e: Env, db: Db) {
    && (forall id | id in db.tasks :: LinkOk(e, db.tasks, id))
    && BackwardLinks(db.tasks)
    && forall id | id in db.tasks :: |Ancestors(db.tasks, id)| <= MAX_CONTEXT_CHAIN_DEPTH + 1
  }

  // ---- The depth check ----

  /** The walk counts ancestors exactly: it passes if and only if there are few enough of them. */
  lemma {:induction false} WalkCountsAncestors(tasks: map<nat, Row>, id: nat, depth: nat)
    requires BackwardLinks(tasks) && id in tasks && depth <= MAX_CONTEXT_CHAIN_DEPTH
    ensures WalkAncestors(tasks, id, depth)
         == if |Ancestors(tasks, id)| + depth <= MAX_CONTEXT_CHAIN_DEPTH then None else Some(ContextLengthExceeded)
    decreases id
  {
    if tasks[id].previous.Some? && depth < MAX_CONTEXT_CHAIN_DEPTH {
      WalkCountsAncestors(tasks, tasks[id].previous.value, depth + 1);
    }
  }

  lemma {:induction false} AncestorsStay(before: map<nat, Row>, after: map<nat, Row>, id: nat)
    requires BackwardLinks(before) && BackwardLinks(after) && id in before
    requires forall k | k in before :: k in after && after[k].previous == before[k].previous
    ensures Ancestors(after, id) == Ancestors(before, id)
    decreases id
  {
    if before[id].previous.Some? {
      AncestorsStay(before, after, before[id].previous.value);
    }
  }

  // ---- Links are kept by every step ----

  lemma AdmittedLink(e: Env, db: Db, q: Request)
    requires CreateTask(e, db, q).1.Ok?
    ensures
      var context := Inherited(e, db, Previous(q)) + q.input;
      && WithinBudget(e, context)
      && (Previous(q).Some? ==> ResolvePrevious(db, Previous(q).value, q.key) == None)
  {
  }

  lemma OldLinkStays(e: Env, db: Db, a: Action, id: nat)
    requires Consistent(db) && a.Valid() && id in db.tasks && LinkOk(e, db.tasks, id)
    ensures id in Step(e, db, a).0.tasks && LinkOk(e, Step(e, db, a).0.tasks, id)
    ensures Step(e, db, a).0.tasks[id].previous == db.tasks[id].previous
  {
    StepAdvancesRows(e, db, a, id);
    if db.tasks[id].previous.Some? {
      StepAdvancesRows(e, db, a, db.tasks[id].previous.value);
    }
  }

  lemma NewLinkIsSound(e: Env, db: Db, q: Request)
    requires Consistent(db) && CreateTask(e, db, q).1.Ok?
    ensures db.nextId in CreateTask(e, db, q).0.tasks && LinkOk(e, CreateTask(e, db, q).0.tasks, db.nextId)
  {
    AdmittedShape(e, db, q);
    AdmittedLink(e, db, q);
    if Previous(q).Some? {
      assert RowOk(db, Previous(q).value);
    }
  }

  lemma StepKeepsEachLink(e: Env, db: Db, a: Action, id: nat)
    requires Consistent(db) && LinksOk(e, db) && a.Valid() && id in Step(e, db, a).0.tasks
    ensures LinkOk(e, Step(e, db, a).0.tasks, id)
  {
    if id in db.tasks {
      OldLinkStays(e, db, a, id);
    } else {
      NewRowsComeFromCreate(e, db, a, id);
      NewLinkIsSound(e, db, a.request);
    }
  }

  lemma StepKeepsDepth(e: Env, db: Db, a: Action, after: Db, id: nat)
    requires Consistent(db) && LinksOk(e, db) && a.Valid() && id in after.tasks
    requires after == Step(e, db, a).0 && BackwardLinks(after.tasks)
    requires forall k | k in db.tasks :: k in after.tasks && after.tasks[k].previous == db.tasks[k].previous
    ensures |Ancestors(after.tasks, id)| <= MAX_CONTEXT_CHAIN_DEPTH + 1
  {
    if id in db.tasks {
      AncestorsStay(db.tasks, after.tasks, id);
    } else {
      NewRowsComeFromCreate(e, db, a, id);
      NewTaskIsShallow(e, db, a.request, after);
    }
  }

  lemma StepKeepsLinks(e: Env, db: Db, a: Action, after: Db)
    requires Consistent(db) && LinksOk(e, db) && a.Valid() && after == Step(e, db, a).0
    ensures LinksOk(e, after)
  {
    forall id | id in after.tasks ensures LinkOk(e, after.tasks, id) {
      StepKeepsEachLink(e, db, a, id);
    }
    forall id | id in db.tasks
      ensures id in after.tasks && after.tasks[id].previous == db.tasks[id].previous
    {
      OldLinkStays(e, db, a, id);
    }
    forall id | id in after.tasks ensures |Ancestors(after.tasks, id)| <= MAX_CONTEXT_CHAIN_DEPTH + 1 {
      StepKeepsDepth(e, db, a, after, id);
    }
  }

  lemma NewRowsComeFromCreate(e: Env, db: Db, a: Action, id: nat)
    requires id in Step(e, db, a).0.tasks && id !in db.tasks
    ensures a.Create? && id == db.nextId && CreateTask(e, db, a.request).1.Ok?
  {
    if a.Create? { AdmittedShape(e, db, a.request); }
  }

  lemma NewTaskIsShallow(e: Env, db: Db, q: Request, after: Db)
    requires LinksOk(e, db) && CreateTask(e, db, q) == (after, Ok(db.nextId)) && db.nextId !in db.tasks
    requires BackwardLinks(after.tasks)
    requires forall k | k in db.tasks :: k in after.tasks && after.tasks[k].previous == db.tasks[k].previous
    ensures db.nextId in after.tasks
    ensures |Ancestors(after.tasks, db.nextId)| <= MAX_CONTEXT_CHAIN_DEPTH + 1
  {
    AdmittedShape(e, db, q);
    AdmittedLink(e, db, q);
    if Previous(q).Some? {
      WalkCountsAncestors(db.tasks, Previous(q).value, 0);
      AncestorsStay(db.tasks, after.tasks, Previous(q).value);
    }
  }

  lemma {:induction false} RunKeepsLinks(e: Env, run: seq<Action>)
    requires ValidRun(run)
    ensures Consistent(Run(e, EmptyDb, run)) && LinksOk(e, Run(e, EmptyDb, run))
  {
    RunKeepsConsistent(e, EmptyDb, run);
    if run != [] {
      RunKeepsLinks(e, run[..|run| - 1]);
      StepKeepsLinks(e, Run(e, EmptyDb, run[..|run| - 1]), run[|run| - 1], Run(e, EmptyDb, run));
    }
  }

  // ---- The flattened history ----

  /** Known tasks in creation order, each once, all older than `bound`. */
  ghost predicate OldestFirst(line: seq<nat>, known: set<nat>, bound: nat) {
    && (forall i, j | 0 <= i < j < |line| :: line[i] < line[j])
    && (forall i | 0 <= i < |line| :: line[i] < bound && line[i] in known)
  }

  lemma {:induction false} AncestorsAreOlder(tasks: map<nat, Row>, id: nat)
    requires BackwardLinks(tasks) && id in tasks
    ensures OldestFirst(Ancestors(tasks, id), tasks.Keys, id)
    decreases id
  {
    if tasks[id].previous.Some? {
      AncestorsAreOlder(tasks, tasks[id].previous.value);
    }
  }

  lemma {:induction false} AncestorsAreFinished(e: Env, db: Db, id: nat, k: nat)
    requires Consistent(db) && LinksOk(e, db) && id in db.tasks && k in Ancestors(db.tasks, id)
    ensures k in db.tasks && db.tasks[k].state == Completed && db.tasks[k].payload.Some?
    ensures db.tasks[k].hasResponseId && db.tasks[k].key == db.tasks[id].key
    decreases id
  {
    assert LinkOk(e, db.tasks, id);
    var p := db.tasks[id].previous.value;
    if k == p {
      assert RowOk(db, p);
    } else {
      AncestorsAreFinished(e, db, p, k);
    }
  }

  lemma {:induction false} ContextIsConversation(e: Env, db: Db, id: nat)
    requires Consistent(db) && LinksOk(e, db) && id in db.tasks
    ensures forall k | k in Ancestors(db.tasks, id) :: k in db.tasks
    ensures db.tasks[id].context == Conversation(e, db.tasks, Ancestors(db.tasks, id)) + db.tasks[id].input
    decreases id
  {
    assert LinkOk(e, db.tasks, id);
    AncestorsAreOlder(db.tasks, id);
    if db.tasks[id].previous.Some? {
      var p := db.tasks[id].previous.value;
      ContextIsConversation(e, db, p);
      var line := Ancestors(db.tasks, id);
      assert line[..|line| - 1] == Ancestors(db.tasks, p);
    }
  }

  /**
   After any run: the stored context of a task is the conversation of its ancestors, oldest first, each
   once, then its own input; the ancestors are finished, share its key, are at most 21, and the whole
   fits the item limit.
   */
  lemma StoredContextIsFlattenedHistory(e: Env, run: seq<Action>, id: nat)
    requires ValidRun(run) && id in Run(e, EmptyDb, run).tasks
    ensures
      var tasks := Run(e, EmptyDb, run).tasks;
      && BackwardLinks(tasks)
      && var line := Ancestors(tasks, id);
         && |line| <= 21
         && OldestFirst(line, tasks.Keys, id)
         && (forall k | k in line :: k in tasks && tasks[k].state == Completed && tasks[k].key == tasks[id].key)
         && tasks[id].context == Conversation(e, tasks, line) + tasks[id].input
         && |tasks[id].context| <= 512
         && e.bytes(tasks[id].context) <= 2_097_152
  {
    RunKeepsLinks(e, run);
    var db := Run(e, EmptyDb, run);
    assert LinkOk(e, db.tasks, id);
    AncestorsAreOlder(db.tasks, id);
    ContextIsConversation(e, db, id);
    forall k | k in Ancestors(db.tasks, id)
      ensures k in db.tasks && db.tasks[k].state == Completed && db.tasks[k].key == db.tasks[id].key
    {
      AncestorsAreFinished(e, db, id, k);
    }
  }
}
