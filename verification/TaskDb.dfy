/**
 The rows behind the task protocol and, for each statement the repositories issue, the new state and
 the answer. Every racing party goes through these steps; each is one conditional UPDATE.
 */
module TaskDb {
  import opened Results
  import opened Json
  import opened Drafts
  import Context
  import CallerTools
  import opened ReplyItems
  import opened TaskStates

  type Item = Context.Item

  const MAX_ACTIVE_TASKS_PER_USER := 10
  const MAX_CONTEXT_CHAIN_DEPTH := 20
  const MAX_EXPANDED_ITEMS := 512
  const MAX_EXPANDED_CONTEXT_BYTES := 2 * 1024 * 1024

  datatype Row = Row(
    owner: nat,
    key: nat,
    hasResponseId: bool,
    state: TaskState,
    slotReleased: bool,
    version: nat,
    payload: Option<ReplyDraft>,
    previous: Option<nat>,
    input: seq<Item>,
    context: seq<Item>)

  datatype User = User(active: bool, activeTasks: nat)

  datatype Db = Db(tasks: map<nat, Row>, users: map<nat, User>, nextId: nat)

  /** The serialisers a step needs: JSON text, and the compact byte length of a context. */
  datatype Env = Env(codec: Codec, bytes: seq<Item> -> nat)

  datatype Request = Request(
    owner: nat,
    key: nat,
    keyEnabled: bool,
    strategyFits: bool,
    modelKnown: bool,
    viaResponses: bool,
    previous: Option<nat>,
    tools: seq<CallerTools.Definition>,
    input: seq<Item>)

  datatype CreateError =
    | UnsupportedStrategy
    | ModelNotFound
    | InvalidPrevious
    | RepeatedTool
    | ContextLengthExceeded
    | InvalidApiKey
    | RateLimited

  const EmptyDb := Db(map[], map[], 0)

  function Put(db: Db, id: nat, row: Row): Db {
    db.(tasks := db.tasks[id := row])
  }

  // ---- app/repositories/tasks.py ----

  /** `first_reply_wins` and `accept_forward_reply`: same statement, different source state. */
  function AcceptReply(
    db: Db, source: TaskState, id: nat, owner: nat, expectedVersion: nat, payload: ReplyDraft): (Db, bool)
  {
    if id in db.tasks && db.tasks[id].owner == owner && db.tasks[id].state == source
      && db.tasks[id].version == expectedVersion then
      var r := db.tasks[id];
      (Put(db, id, r.(state := ResponseReady, payload := Some(payload), version := r.version + 1)), true)
    else (db, false)
  }

  function ClaimFallback(db: Db, id: nat): (Db, bool) {
    if id in db.tasks && db.tasks[id].state == WaitingHuman then
      var r := db.tasks[id];
      (Put(db, id, r.(state := ForwardingLlm, version := r.version + 1)), true)
    else (db, false)
  }

  function StartResponse(db: Db, id: nat): (Db, bool) {
    if id in db.tasks && db.tasks[id].state == ResponseReady && !db.tasks[id].slotReleased then
      var r := db.tasks[id];
      (Put(db, id, r.(state := Responding, version := r.version + 1)), true)
    else (db, false)
  }

  function Ended(r: Row, state: TaskState): Row {
    r.(state := state, slotReleased := true, version := r.version + 1)
  }

  function ReleaseSlotToTerminal(db: Db, id: nat, target: TaskState, allowed: Option<set<TaskState>>): (Db, bool) {
    if id in db.tasks && !db.tasks[id].slotReleased && (allowed.Some? ==> db.tasks[id].state in allowed.value) then
      (Put(db, id, Ended(db.tasks[id], target)), true)
    else (db, false)
  }

  function CancelRow(db: Db, id: nat): (Db, bool) {
    if id in db.tasks && !Terminal(db.tasks[id].state) && !db.tasks[id].slotReleased then
      (Put(db, id, Ended(db.tasks[id], Cancelled)), true)
    else (db, false)
  }

  function CancelAllForUser(db: Db, user: nat): Db {
    db.(tasks := map id | id in db.tasks ::
          var r := db.tasks[id];
          if r.owner == user && !r.slotReleased && !Terminal(r.state) then Ended(r, Cancelled) else r)
  }

  // ---- app/repositories/users.py ----

  function AcquireSlot(db: Db, user: nat): (Db, bool) {
    if user in db.users && db.users[user].active && db.users[user].activeTasks < MAX_ACTIVE_TASKS_PER_USER then
      var u := db.users[user];
      (db.(users := db.users[user := u.(activeTasks := u.activeTasks + 1)]), true)
    else (db, false)
  }

  function ReleaseSlot(db: Db, user: nat): Db {
    if user in db.users && db.users[user].activeTasks > 0 then
      var u := db.users[user];
      db.(users := db.users[user := u.(activeTasks := u.activeTasks - 1)])
    else db
  }

  function ClearActiveTaskCount(db: Db, user: nat): Db {
    if user in db.users then db.(users := db.users[user := db.users[user].(activeTasks := 0)]) else db
  }

  function SetActive(db: Db, user: nat, active: bool): Db {
    if user in db.users then db.(users := db.users[user := db.users[user].(active := active)]) else db
  }

  // ---- app/services/inference_service.py, app/services/user_service.py ----

  function Finalize(db: Db, id: nat, target: TaskState, allowed: Option<set<TaskState>>): (Db, bool) {
    var (after, won) := ReleaseSlotToTerminal(db, id, target, allowed);
    if won then (ReleaseSlot(after, db.tasks[id].owner), true) else (db, false)
  }

  function CancelDisconnected(db: Db, id: nat): (Db, bool) {
    var (after, won) := CancelRow(db, id);
    if won then (ReleaseSlot(after, db.tasks[id].owner), true) else (db, false)
  }

  function DisableUser(db: Db, user: nat): (Db, bool) {
    if user in db.users && db.users[user].active then
      (ClearActiveTaskCount(CancelAllForUser(SetActive(db, user, false), user), user), true)
    else (db, false)
  }

  /** The ancestor walk of `_resolve_previous`, entered at a task with `depth` links already counted. */
  function WalkAncestors(tasks: map<nat, Row>, id: nat, depth: nat): Option<CreateError>
    requires id in tasks
    requires depth <= MAX_CONTEXT_CHAIN_DEPTH
    decreases MAX_CONTEXT_CHAIN_DEPTH - depth
  {
    if tasks[id].previous.None? then None
    else if depth + 1 > MAX_CONTEXT_CHAIN_DEPTH then Some(ContextLengthExceeded)
    else if tasks[id].previous.value !in tasks then Some(InvalidPrevious)
    else WalkAncestors(tasks, tasks[id].previous.value, depth + 1)
  }

  function ResolvePrevious(db: Db, id: nat, key: nat): Option<CreateError> {
    if id in db.tasks && db.tasks[id].hasResponseId && db.tasks[id].key == key && db.tasks[id].state == Completed
    then WalkAncestors(db.tasks, id, 0)
    else Some(InvalidPrevious)
  }

  function ReplyOf(e: Env, r: Row): seq<Item> {
    if r.payload.Some? then ReplyOutputItems(e.codec, r.payload.value) else []
  }

  /** What a task hands on to its successor: its own context, then its reply. */
  function Inherited(e: Env, db: Db, previous: Option<nat>): seq<Item> {
    if previous.Some? && previous.value in db.tasks
    then db.tasks[previous.value].context + ReplyOf(e, db.tasks[previous.value])
    else []
  }

  predicate WithinBudget(e: Env, context: seq<Item>) {
    |context| <= MAX_EXPANDED_ITEMS && e.bytes(context) <= MAX_EXPANDED_CONTEXT_BYTES
  }

  function Previous(q: Request): Option<nat> {
    if q.viaResponses then q.previous else None
  }

  function NewRow(q: Request, context: seq<Item>): Row {
    Row(q.owner, q.key, q.viaResponses, WaitingHuman, false, 1, None, Previous(q), q.input, context)
  }

  function AcquireError(db: Db, q: Request): CreateError {
    if !q.keyEnabled || q.owner !in db.users || !db.users[q.owner].active then InvalidApiKey else RateLimited
  }

  /** What is refused before a context is built, in the order of the checks. */
  function Refusal(db: Db, q: Request): Option<CreateError> {
    var previous := Previous(q);
    var refused := if previous.Some? then ResolvePrevious(db, previous.value, q.key) else None;
    if !q.strategyFits then Some(UnsupportedStrategy)
    else if !q.modelKnown then Some(ModelNotFound)
    else if refused.Some? then refused
    else if !CallerTools.UniqueNames(q.tools) then Some(RepeatedTool)
    else None
  }

  function CreateTask(e: Env, db: Db, q: Request): (Db, Result<nat, CreateError>) {
    var previous := Previous(q);
    var refused := Refusal(db, q);
    if refused.Some? then (db, Err(refused.value))
    else
      var context := Inherited(e, db, previous) + q.input;
      if !WithinBudget(e, context) then (db, Err(ContextLengthExceeded))
      else
        var (admitted, ok) := AcquireSlot(db, q.owner);
        if !q.keyEnabled || !ok then (db, Err(AcquireError(db, q)))
        else (Put(admitted, db.nextId, NewRow(q, context)).(nextId := db.nextId + 1), Ok(db.nextId))
  }

  function AddUser(db: Db, user: nat): (Db, bool) {
    if user in db.users then (db, false) else (db.(users := db.users[user := User(true, 0)]), true)
  }

  function EnableUser(db: Db, user: nat): (Db, bool) {
    if user in db.users && !db.users[user].active then (SetActive(db, user, true), true) else (db, false)
  }

  // ---- One step of any party, and runs of steps ----

  datatype Action =
    | Create(request: Request)
    | FirstReply(id: nat, owner: nat, expectedVersion: nat, reply: ReplyDraft)
    | Claim(id: nat)
    | ForwardReply(id: nat, owner: nat, expectedVersion: nat, reply: ReplyDraft)
    | Begin(id: nat)
    | End(id: nat, target: TaskState, allowed: Option<set<TaskState>>)
    | Disconnect(id: nat)
    | NewUser(user: nat)
    | Enable(user: nat)
    | Disable(user: nat)
  {
    /**
     How the service and the sweeper end tasks: only in a terminal state, COMPLETED only out of a
     finished reply, TIMED_OUT only out of human waiting.
     */
    predicate Valid() {
      End? ==>
        && Terminal(target)
        && (target == Completed ==> allowed == Some({ResponseReady, Responding}))
        && (target == TimedOut ==> allowed == Some({WaitingHuman}))
    }
  }

  function Step(e: Env, db: Db, a: Action): (Db, bool) {
    match a
    case Create(q) => var (after, r) := CreateTask(e, db, q); (after, r.Ok?)
    case FirstReply(id, owner, version, reply) => AcceptReply(db, WaitingHuman, id, owner, version, reply)
    case Claim(id) => ClaimFallback(db, id)
    case ForwardReply(id, owner, version, reply) => AcceptReply(db, ForwardingLlm, id, owner, version, reply)
    case Begin(id) => StartResponse(db, id)
    case End(id, target, allowed) => Finalize(db, id, target, allowed)
    case Disconnect(id) => CancelDisconnected(db, id)
    case NewUser(user) => AddUser(db, user)
    case Enable(user) => EnableUser(db, user)
    case Disable(user) => DisableUser(db, user)
  }

  /** The state after a run, in any interleaving of the parties. */
  function Run(e: Env, db: Db, run: seq<Action>): Db {
    if run == [] then db else Step(e, Run(e, db, run[..|run| - 1]), run[|run| - 1]).0
  }

  /** Step `i` of the run was accepted. */
  predicate Accepted(e: Env, db: Db, run: seq<Action>, i: nat)
    requires i < |run|
  {
    Step(e, Run(e, db, run[..i]), run[i]).1
  }

  predicate ValidRun(run: seq<Action>) {
    forall i | 0 <= i < |run| :: run[i].Valid()
  }
}
