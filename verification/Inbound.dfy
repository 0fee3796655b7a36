/**
 Messages from a messenger (app/services/connection_service.py): receipts, binding, finding the task, and
 replies that are sent at once or staged and committed. Task changes go through the steps of `TaskDb`.
 */
module Inbound {
  import opened Results
  import opened Json
  import opened Drafts
  import opened TaskStates
  import opened TaskDb
  import opened Dsl

  datatype Outcome = Done | Duplicate | NotBound | Bound | Late | Unhandled

  datatype Message = Message(id: string, sender: string, bindingCode: string, text: string, replyTo: string)

  /** An editable draft of a reply. */
  datatype Staged = Staged(reasoning: Option<string>, calls: seq<ToolCall>, text: Option<string>)

  /**
   What the connection sees: its owner, the public ids of tasks, the rules of the task's tools, and the
   commands that only send files or pages out.
   */
  datatype Connection = Connection(
    owner: nat,
    publicIds: map<string, nat>,
    allowed: (nat, ReplyDraft) -> bool,
    exported: (Option<nat>, Command) -> Outcome)

  /** `code` is the binding code that would be accepted now, if any. */
  datatype Inbox =
    Inbox(db: Db, receipts: map<string, Outcome>, bound: Option<string>, code: Option<string>, drafts: map<nat, Staged>)

  // ---- Finding the task ----

  function FindTask(conn: Connection, db: Db, publicId: string): Option<nat> {
    if publicId != "" && publicId in conn.publicIds
       && conn.publicIds[publicId] in db.tasks && db.tasks[conn.publicIds[publicId]].owner == conn.owner
    then Some(conn.publicIds[publicId])
    else None
  }

  function WaitingTasks(owner: nat, db: Db): set<nat> {
    set id | id in db.tasks && db.tasks[id].owner == owner && db.tasks[id].state == WaitingHuman
  }

  lemma OnlyOne(s: set<nat>)
    requires |s| == 1
    ensures s != {} && forall a, b | a in s && b in s :: a == b
  {
    assert s != {};
    forall a, b | a in s && b in s ensures a == b {
      assert |s - {a}| == 0;
      assert b !in s - {a};
    }
  }

  function SoleWaiting(conn: Connection, db: Db): Option<nat> {
    var waiting := WaitingTasks(conn.owner, db);
    if |waiting| == 1 then
      OnlyOne(waiting);
      var id :| id in waiting;
      Some(id)
    else None
  }

  /** Where a text goes: refused, or a task (or none), with the text and the command that are left. */
  datatype Place = Nowhere | Place(task: Option<nat>, text: string, command: Option<Command>)

  function SolePlace(conn: Connection, db: Db, text: string, command: Option<Command>): Place {
    Place(SoleWaiting(conn, db), text, command)
  }

  /** Reply context, then the command's target, then a leading `#id`, then the only waiting task. */
  function Locate(conn: Connection, db: Db, m: Message): Place {
    var text := Strip(m.text);
    var command := ParseCommand(text);
    if text == "" then Nowhere
    else if m.replyTo != "" then
      var task := FindTask(conn, db, m.replyTo);
      if task.None? then Nowhere else Place(task, text, command)
    else if command.Some? && command.value.target.Some? && command.value.target.value != "" then
      var task := FindTask(conn, db, command.value.target.value);
      if task.None? then Nowhere else Place(task, text, command)
    else if text[0] == '#' then
      var task := FindTask(conn, db, Before(text[1..], ' '));
      if task.None? then SolePlace(conn, db, text, command)
      else
        var rest := Strip(Behind(text[1..], ' '));
        Place(task, rest, if command.None? then ParseCommand(rest) else command)
    else SolePlace(conn, db, text, command)
  }

  // ---- Replies and commands ----

  predicate HasContent(draft: ReplyDraft) {
    NonEmpty(draft.reasoning).Some? || draft.calls != [] || NonEmpty(draft.text).Some?
  }

  /** The conditional submit all reply paths share. */
  function Submit(w: Inbox, task: nat, draft: ReplyDraft): (Inbox, bool)
    requires task in w.db.tasks
  {
    var (after, won) := AcceptReply(w.db, WaitingHuman, task, w.db.tasks[task].owner, w.db.tasks[task].version, draft);
    (w.(db := after), won)
  }

  function PlainReply(conn: Connection, w: Inbox, task: Option<nat>, text: string): (Inbox, Outcome) {
    if task.None? || task.value !in w.db.tasks || text == "" then (w, Unhandled)
    else
      var draft := ReplyDraft(None, [], Some(text));
      if !conn.allowed(task.value, draft) then (w, Unhandled)
      else
        var (after, won) := Submit(w, task.value, draft);
        (after, if won then Done else Late)
  }

  function DraftOf(w: Inbox, task: nat): Staged {
    if task in w.drafts then w.drafts[task] else Staged(None, [], None)
  }

  function StageDraft(w: Inbox, task: Option<nat>, reasoning: bool, body: string): (Inbox, Outcome) {
    if task.None? || body == "" then (w, Unhandled)
    else
      var draft := DraftOf(w, task.value);
      var edited := if reasoning then draft.(reasoning := Some(body)) else draft.(text := Some(body));
      (w.(drafts := w.drafts[task.value := edited]), Done)
  }

  function CommitDraft(conn: Connection, w: Inbox, task: Option<nat>): (Inbox, Outcome) {
    if task.None? || task.value !in w.drafts || task.value !in w.db.tasks then (w, Unhandled)
    else
      var staged := w.drafts[task.value];
      var draft := ReplyDraft(staged.reasoning, staged.calls, staged.text);
      if !HasContent(draft) || !conn.allowed(task.value, draft) then (w, Unhandled)
      else
        var (after, won) := Submit(w, task.value, draft);
        if won then (after.(drafts := w.drafts - {task.value}), Done) else (after, Late)
  }

  function RunCommand(conn: Connection, w: Inbox, task: Option<nat>, command: Command): (Inbox, Outcome) {
    match command.name
    case Unknown(_) => (w, Unhandled)
    case Res => StageDraft(w, task, true, command.body)
    case Ans => StageDraft(w, task, false, command.body)
    case Commit => CommitDraft(conn, w, task)
    case _ => (w, conn.exported(task, command))
  }

  function SubmitTaskReply(conn: Connection, w: Inbox, m: Message): (Inbox, Outcome) {
    match Locate(conn, w.db, m)
    case Nowhere => (w, Unhandled)
    case Place(task, text, command) =>
      if command.Some? then RunCommand(conn, w, task, command.value) else PlainReply(conn, w, task, text)
  }

  function WithReceipt(w: Inbox, id: string, outcome: Outcome): Inbox {
    w.(receipts := w.receipts[id := outcome])
  }

  /** One message, once: the receipt is written before anything else happens. */
  function Handle(conn: Connection, w: Inbox, m: Message): (Inbox, Outcome) {
    if m.id == "" then (w, Unhandled)
    else if m.id in w.receipts then (w, Duplicate)
    else if w.bound.None? then
      if m.bindingCode != "" && w.code == Some(m.bindingCode) then
        (WithReceipt(w, m.id, Bound).(bound := Some(m.sender), code := None), Bound)
      else (WithReceipt(w, m.id, NotBound), NotBound)
    else if m.sender != "" && Some(m.sender) != w.bound then (WithReceipt(w, m.id, NotBound), NotBound)
    else
      var (after, outcome) := SubmitTaskReply(conn, w, m);
      (WithReceipt(after, m.id, outcome), outcome)
  }

  // ---- The service, changing its rows in place ----

  class ConnectionInbox {
    var db: Db
    var receipts: map<string, Outcome>
    var bound: Option<string>
    var code: Option<string>
    var drafts: map<nat, Staged>

    function State(): Inbox
      reads this
    {
      Inbox(db, receipts, bound, code, drafts)
    }

    constructor (db: Db, code: Option<string>)
      ensures State() == Inbox(db, map[], None, code, map[])
    {
      this.db, receipts, bound, this.code, drafts := db, map[], None, code, map[];
    }

    method Stage(task: Option<nat>, reasoning: bool, body: string) returns (outcome: Outcome)
      modifies this
      ensures (State(), outcome) == StageDraft(old(State()), task, reasoning, body)
    {
      if task.None? || body == "" { return Unhandled; }
      if task.value !in drafts { drafts := drafts[task.value := Staged(None, [], None)]; }
      var draft := drafts[task.value];
      if reasoning { draft := draft.(reasoning := Some(body)); } else { draft := draft.(text := Some(body)); }
      drafts := drafts[task.value := draft];
      assert drafts == old(drafts)[task.value := draft];
      return Done;
    }

    method CommitStaged(conn: Connection, task: Option<nat>) returns (outcome: Outcome)
      modifies this
      ensures (State(), outcome) == CommitDraft(conn, old(State()), task)
    {
      if task.None? || task.value !in drafts || task.value !in db.tasks { return Unhandled; }
      var staged := drafts[task.value];
      var draft := ReplyDraft(staged.reasoning, staged.calls, staged.text);
      if !HasContent(draft) { return Unhandled; }
      if !conn.allowed(task.value, draft) { return Unhandled; }
      var row := db.tasks[task.value];
      var after, won := AcceptReply(db, WaitingHuman, task.value, row.owner, row.version, draft).0,
        AcceptReply(db, WaitingHuman, task.value, row.owner, row.version, draft).1;
      db := after;
      if !won { return Late; }
      drafts := drafts - {task.value};
      return Done;
    }

    method Reply(conn: Connection, task: Option<nat>, text: string) returns (outcome: Outcome)
      modifies this
      ensures (State(), outcome) == PlainReply(conn, old(State()), task, text)
    {
      if task.None? || task.value !in db.tasks || text == "" { return Unhandled; }
      var draft := ReplyDraft(None, [], Some(text));
      if !conn.allowed(task.value, draft) { return Unhandled; }
      var row := db.tasks[task.value];
      var answer := AcceptReply(db, WaitingHuman, task.value, row.owner, row.version, draft);
      db := answer.0;
      return if answer.1 then Done else Late;
    }

    method HandleCommand(conn: Connection, task: Option<nat>, command: Command) returns (outcome: Outcome)
      modifies this
      ensures (State(), outcome) == RunCommand(conn, old(State()), task, command)
    {
      match command.name
      case Unknown(_) => outcome := Unhandled;
      case Res => outcome := Stage(task, true, command.body);
      case Ans => outcome := Stage(task, false, command.body);
      case Commit => outcome := CommitStaged(conn, task);
      case _ => outcome := conn.exported(task, command);
    }

    method SubmitReply(conn: Connection, m: Message) returns (outcome: Outcome)
      modifies this
      ensures (State(), outcome) == SubmitTaskReply(conn, old(State()), m)
    {
      var place := Locate(conn, db, m);
      if place.Nowhere? { return Unhandled; }
      if place.command.Some? {
        outcome := HandleCommand(conn, place.task, place.command.value);
      } else {
        outcome := Reply(conn, place.task, place.text);
      }
    }

    method HandleInbound(conn: Connection, m: Message) returns (outcome: Outcome)
      modifies this
      ensures (State(), outcome) == Handle(conn, old(State()), m)
    {
      hide SubmitTaskReply;
      if m.id == "" { return Unhandled; }
      if m.id in receipts { return Duplicate; }
      if bound.None? {
        if m.bindingCode != "" && code == Some(m.bindingCode) {
          bound, code := Some(m.sender), None;
          receipts := receipts[m.id := Bound];
          return Bound;
        }
        receipts := receipts[m.id := NotBound];
        return NotBound;
      }
      if m.sender != "" && m.sender != bound.value {
        receipts := receipts[m.id := NotBound];
        return NotBound;
      }
      outcome := SubmitReply(conn, m);
      receipts := receipts[m.id := outcome];
    }
  }
}
