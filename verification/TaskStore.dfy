/** The repositories and services over the task tables, changing the rows in place. */
module TaskStore {
  import opened Results
  import opened TaskStates
  import opened Drafts
  import opened TaskDb
  import CallerTools

  class Store {
    var tasks: map<nat, Row>
    var users: map<nat, User>
    var nextId: nat

    function Snapshot(): Db
      reads this
    {
      Db(tasks, users, nextId)
    }

    constructor ()
      ensures Snapshot() == EmptyDb
    {
      tasks, users, nextId := map[], map[], 0;
    }

    // ---- TaskRepository ----

    method FirstReplyWins(id: nat, owner: nat, expectedVersion: nat, reply: ReplyDraft) returns (accepted: bool)
      modifies this`tasks
      ensures (Snapshot(), accepted) == AcceptReply(old(Snapshot()), WaitingHuman, id, owner, expectedVersion, reply)
    {
      accepted := id in tasks && tasks[id].owner == owner && tasks[id].state == WaitingHuman
                  && tasks[id].version == expectedVersion;
      if accepted {
        var r := tasks[id];
        tasks := tasks[id := r.(state := ResponseReady, payload := Some(reply), version := r.version + 1)];
      }
    }

    method ClaimForward(id: nat) returns (claimed: bool)
      modifies this`tasks
      ensures (Snapshot(), claimed) == ClaimFallback(old(Snapshot()), id)
    {
      claimed := id in tasks && tasks[id].state == WaitingHuman;
      if claimed {
        var r := tasks[id];
        tasks := tasks[id := r.(state := ForwardingLlm, version := r.version + 1)];
      }
    }

    method AcceptForwardReply(id: nat, owner: nat, expectedVersion: nat, reply: ReplyDraft) returns (accepted: bool)
      modifies this`tasks
      ensures (Snapshot(), accepted) == AcceptReply(old(Snapshot()), ForwardingLlm, id, owner, expectedVersion, reply)
    {
      accepted := id in tasks && tasks[id].owner == owner && tasks[id].state == ForwardingLlm
                  && tasks[id].version == expectedVersion;
      if accepted {
        var r := tasks[id];
        tasks := tasks[id := r.(state := ResponseReady, payload := Some(reply), version := r.version + 1)];
      }
    }

    method BeginResponse(id: nat) returns (begun: bool)
      modifies this`tasks
      ensures (Snapshot(), begun) == StartResponse(old(Snapshot()), id)
    {
      begun := id in tasks && tasks[id].state == ResponseReady && !tasks[id].slotReleased;
      if begun {
        var r := tasks[id];
        tasks := tasks[id := r.(state := Responding, version := r.version + 1)];
      }
    }

    method ReleaseRow(id: nat, target: TaskState, allowed: Option<set<TaskState>>) returns (won: bool)
      requires Terminal(target)
      modifies this`tasks
      ensures (Snapshot(), won) == ReleaseSlotToTerminal(old(Snapshot()), id, target, allowed)
    {
      won := id in tasks && !tasks[id].slotReleased && (allowed.Some? ==> tasks[id].state in allowed.value);
      if won {
        tasks := tasks[id := Ended(tasks[id], target)];
      }
    }

    method CancelTask(id: nat) returns (won: bool)
      modifies this`tasks
      ensures (Snapshot(), won) == CancelRow(old(Snapshot()), id)
    {
      won := id in tasks && !Terminal(tasks[id].state) && !tasks[id].slotReleased;
      if won {
        tasks := tasks[id := Ended(tasks[id], Cancelled)];
      }
    }

    // ---- UserRepository ----

    method AtomicAcquireSlot(user: nat) returns (acquired: bool)
      modifies this`users
      ensures (Snapshot(), acquired) == AcquireSlot(old(Snapshot()), user)
    {
      acquired := user in users && users[user].active && users[user].activeTasks < MAX_ACTIVE_TASKS_PER_USER;
      if acquired {
        users := users[user := users[user].(activeTasks := users[user].activeTasks + 1)];
      }
    }

    method AtomicReleaseSlot(user: nat)
      modifies this`users
      ensures Snapshot() == ReleaseSlot(old(Snapshot()), user)
    {
      if user in users && users[user].activeTasks > 0 {
        users := users[user := users[user].(activeTasks := users[user].activeTasks - 1)];
      }
    }

    // ---- InferenceService ----

    method FinalizeTask(id: nat, target: TaskState, allowed: Option<set<TaskState>>) returns (won: bool)
      requires Terminal(target)
      modifies this
      ensures (Snapshot(), won) == Finalize(old(Snapshot()), id, target, allowed)
    {
      won := ReleaseRow(id, target, allowed);
      if won {
        AtomicReleaseSlot(tasks[id].owner);
      }
    }

    method CancelCallerDisconnected(id: nat) returns (won: bool)
      modifies this
      ensures (Snapshot(), won) == CancelDisconnected(old(Snapshot()), id)
    {
      won := CancelTask(id);
      if won {
        AtomicReleaseSlot(tasks[id].owner);
      }
    }

    method FindPrevious(id: nat, key: nat) returns (refused: Option<CreateError>)
      ensures refused == ResolvePrevious(Snapshot(), id, key)
    {
      if id !in tasks || !tasks[id].hasResponseId || tasks[id].key != key || tasks[id].state != Completed {
        return Some(InvalidPrevious);
      }
      var depth, cursor := 0, id;
      while tasks[cursor].previous.Some?
        invariant depth <= MAX_CONTEXT_CHAIN_DEPTH && cursor in tasks
        invariant WalkAncestors(tasks, id, 0) == WalkAncestors(tasks, cursor, depth)
        decreases MAX_CONTEXT_CHAIN_DEPTH - depth
      {
        if depth + 1 > MAX_CONTEXT_CHAIN_DEPTH {
          return Some(ContextLengthExceeded);
        }
        depth := depth + 1;
        if tasks[cursor].previous.value !in tasks {
          return Some(InvalidPrevious);
        }
        cursor := tasks[cursor].previous.value;
      }
      return None;
    }

    method BuildContext(e: Env, previous: Option<nat>, tools: seq<CallerTools.Definition>, input: seq<Item>)
      returns (r: Result<seq<Item>, CreateError>)
      ensures
        var context := Inherited(e, Snapshot(), previous) + input;
        r == if !CallerTools.UniqueNames(tools) then Err(RepeatedTool)
             else if WithinBudget(e, context) then Ok(context)
             else Err(ContextLengthExceeded)
    {
      var clash := CallerTools.AssertUniqueToolNames(tools);
      if clash.Some? {
        return Err(RepeatedTool);
      }
      var context: seq<Item> := [];
      if previous.Some? && previous.value in tasks {
        var parent := tasks[previous.value];
        context := context + parent.context;
        if parent.payload.Some? {
          context := context + ReplyOf(e, parent);
        }
      }
      context := context + input;
      assert context == Inherited(e, Snapshot(), previous) + input;
      if |context| > MAX_EXPANDED_ITEMS || e.bytes(context) > MAX_EXPANDED_CONTEXT_BYTES {
        return Err(ContextLengthExceeded);
      }
      return Ok(context);
    }

    method Admit(e: Env, q: Request) returns (r: Result<nat, CreateError>)
      modifies this
      ensures (Snapshot(), r) == CreateTask(e, old(Snapshot()), q)
    {
      if !q.strategyFits {
        return Err(UnsupportedStrategy);
      }
      if !q.modelKnown {
        return Err(ModelNotFound);
      }
      var previous := Previous(q);
      if previous.Some? {
        var refused := FindPrevious(previous.value, q.key);
        if refused.Some? {
          return Err(refused.value);
        }
      }
      var built := BuildContext(e, previous, q.tools, q.input);
      if built.Err? {
        return Err(built.error);
      }
      if !q.keyEnabled || q.owner !in users || !users[q.owner].active {
        return Err(InvalidApiKey);
      }
      var acquired := AtomicAcquireSlot(q.owner);
      if !acquired {
        return Err(RateLimited);
      }
      tasks := tasks[nextId := NewRow(q, built.value)];
      r := Ok(nextId);
      nextId := nextId + 1;
    }

    // ---- UserService ----

    method DisableAccount(user: nat) returns (done: bool)
      modifies this
      ensures (Snapshot(), done) == DisableUser(old(Snapshot()), user)
    {
      done := user in users && users[user].active;
      if done {
        users := users[user := users[user].(active := false)];
        tasks := CancelAllForUser(Snapshot(), user).tasks;
        users := users[user := users[user].(activeTasks := 0)];
      }
    }

    method CreateAccount(user: nat) returns (done: bool)
      modifies this`users
      ensures (Snapshot(), done) == AddUser(old(Snapshot()), user)
    {
      done := user !in users;
      if done {
        users := users[user := User(true, 0)];
      }
    }

    method EnableAccount(user: nat) returns (done: bool)
      modifies this`users
      ensures (Snapshot(), done) == EnableUser(old(Snapshot()), user)
    {
      done := user in users && !users[user].active;
      if done {
        users := users[user := users[user].(active := true)];
      }
    }

    // ---- Any party, any order ----

    method Perform(e: Env, a: Action) returns (ok: bool)
      requires a.Valid()
      modifies this
      ensures (Snapshot(), ok) == Step(e, old(Snapshot()), a)
    {
      match a
      case Create(q) =>
        var r := Admit(e, q);
        ok := r.Ok?;
      case FirstReply(id, owner, version, reply) => ok := FirstReplyWins(id, owner, version, reply);
      case Claim(id) => ok := ClaimForward(id);
      case ForwardReply(id, owner, version, reply) => ok := AcceptForwardReply(id, owner, version, reply);
      case Begin(id) => ok := BeginResponse(id);
      case End(id, target, allowed) => ok := FinalizeTask(id, target, allowed);
      case Disconnect(id) => ok := CancelCallerDisconnected(id);
      case NewUser(user) => ok := CreateAccount(user);
      case Enable(user) => ok := EnableAccount(user);
      case Disable(user) => ok := DisableAccount(user);
    }
  }
}
