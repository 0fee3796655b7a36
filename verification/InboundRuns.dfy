/**
 Runs of a connection: messages, repeated or not, between the moves of everybody else. A repeat changes
 nothing, tasks move only by the protocol's own steps, and a commit sends what was staged last.
 */
module InboundRuns {
  import opened Results
  import opened Json
  import opened Drafts
  import opened TaskStates
  import opened TaskDb
  import opened Lifecycle
  import opened Dsl
  import opened Inbound

  datatype Move = Receive(m: Message) | Outside(action: Action)

  function Moved(e: Env, conn: Connection, w: Inbox, move: Move): Inbox {
    match move
    case Receive(m) => Handle(conn, w, m).0
    case Outside(action) => w.(db := Step(e, w.db, action).0)
  }

  function Play(e: Env, conn: Connection, w: Inbox, moves: seq<Move>): Inbox {
    if moves == [] then w else Moved(e, conn, Play(e, conn, w, moves[..|moves| - 1]), moves[|moves| - 1])
  }

  lemma PlayOneMore(e: Env, conn: Connection, w: Inbox, moves: seq<Move>, move: Move)
    ensures Play(e, conn, w, moves + [move]) == Moved(e, conn, Play(e, conn, w, moves), move)
  {
    hide Moved;
    assert (moves + [move])[..|moves|] == moves;
  }

  // ---- Repeats ----

  function Seen(moves: seq<Move>): set<string> {
    if moves == [] then {}
    else
      var last := moves[|moves| - 1];
      Seen(moves[..|moves| - 1]) + (if last.Receive? && last.m.id != "" then {last.m.id} else {})
  }

  /** The moves without messages whose id is empty, known or received before. */
  function FirstOccurrences(known: set<string>, moves: seq<Move>): seq<Move> {
    if moves == [] then []
    else
      var init, last := moves[..|moves| - 1], moves[|moves| - 1];
      FirstOccurrences(known, init)
      + (if last.Receive? && (last.m.id == "" || last.m.id in known || last.m.id in Seen(init)) then [] else [last])
  }

  lemma HandleReceipts(conn: Connection, w: Inbox, m: Message)
    ensures Handle(conn, w, m).0.receipts.Keys == w.receipts.Keys + (if m.id != "" then {m.id} else {})
    ensures m.id == "" || m.id in w.receipts ==> Handle(conn, w, m).0 == w
  {
    hide Locate;
    SubmitKeepsReceipts(conn, w, m);
  }

  lemma SubmitKeepsReceipts(conn: Connection, w: Inbox, m: Message)
    ensures SubmitTaskReply(conn, w, m).0.receipts == w.receipts
  {
    hide Locate;
  }

  lemma {:induction false} ReceiptsAreSeen(e: Env, conn: Connection, w: Inbox, moves: seq<Move>)
    ensures Play(e, conn, w, moves).receipts.Keys == w.receipts.Keys + Seen(moves)
  {
    if moves != [] {
      hide Handle, Step;
      var init, last := moves[..|moves| - 1], moves[|moves| - 1];
      ReceiptsAreSeen(e, conn, w, init);
      if last.Receive? { HandleReceipts(conn, Play(e, conn, w, init), last.m); }
    }
  }

  /** Whatever is delivered twice, and however often: the run ends as if every message had come once. */
  lemma {:induction false} RepeatsChangeNothing(e: Env, conn: Connection, w: Inbox, moves: seq<Move>)
    ensures Play(e, conn, w, moves) == Play(e, conn, w, FirstOccurrences(w.receipts.Keys, moves))
  {
    if moves != [] {
      hide Handle, Step;
      var init, last := moves[..|moves| - 1], moves[|moves| - 1];
      var known := w.receipts.Keys;
      RepeatsChangeNothing(e, conn, w, init);
      if last.Receive? && (last.m.id == "" || last.m.id in known || last.m.id in Seen(init)) {
        ReceiptsAreSeen(e, conn, w, init);
        HandleReceipts(conn, Play(e, conn, w, init), last.m);
        assert FirstOccurrences(known, init) + [] == FirstOccurrences(known, init);
      } else {
        PlayOneMore(e, conn, w, FirstOccurrences(known, init), last);
      }
    }
  }

  // ---- Tasks move by the protocol's steps ----

  /** A message leaves the tasks as they are, or submits one first reply. */
  ghost predicate AtMostOneReply(e: Env, before: Db, after: Db) {
    after == before
    || exists id, owner, version, reply :: after == Step(e, before, FirstReply(id, owner, version, reply)).0
  }

  lemma SubmitIsFirstReply(e: Env, w: Inbox, task: nat, draft: ReplyDraft)
    requires task in w.db.tasks
    ensures AtMostOneReply(e, w.db, Submit(w, task, draft).0.db)
  {
    var row := w.db.tasks[task];
    assert Submit(w, task, draft).0.db == Step(e, w.db, FirstReply(task, row.owner, row.version, draft)).0;
  }

  lemma HandleIsAStep(e: Env, conn: Connection, w: Inbox, m: Message)
    ensures AtMostOneReply(e, w.db, Handle(conn, w, m).0.db)
  {
    hide Locate, Submit, AtMostOneReply, Step, AcceptReply;
    SameIsFine(e, w.db);
    match Locate(conn, w.db, m)
    case Nowhere =>
    case Place(task, text, command) =>
      if command.None? {
        if task.Some? && task.value in w.db.tasks {
          SubmitIsFirstReply(e, w, task.value, ReplyDraft(None, [], Some(text)));
        }
      } else if command.value.name.Commit? && task.Some? && task.value in w.db.tasks && task.value in w.drafts {
        var staged := w.drafts[task.value];
        SubmitIsFirstReply(e, w, task.value, ReplyDraft(staged.reasoning, staged.calls, staged.text));
      }
  }

  lemma SameIsFine(e: Env, db: Db)
    ensures AtMostOneReply(e, db, db)
  {
  }

  /** Slots and rows stay consistent over every run of messages and other parties. */
  lemma {:induction false} MessagesKeepConsistent(e: Env, conn: Connection, w: Inbox, moves: seq<Move>)
    requires Consistent(w.db) && forall i | 0 <= i < |moves| :: moves[i].Outside? ==> moves[i].action.Valid()
    ensures Consistent(Play(e, conn, w, moves).db)
  {
    if moves != [] {
      hide Handle, Step, Consistent;
      var before, last := Play(e, conn, w, moves[..|moves| - 1]), moves[|moves| - 1];
      assert forall i | 0 <= i < |moves| - 1 :: moves[..|moves| - 1][i] == moves[i];
      MessagesKeepConsistent(e, conn, w, moves[..|moves| - 1]);
      match last {
        case Outside(action) => StepKeepsConsistent(e, before.db, action);
        case Receive(m) =>
          HandleIsAStep(e, conn, before, m);
          var after := Handle(conn, before, m).0.db;
          if after != before.db {
            var id, owner, version, reply :| after == Step(e, before.db, FirstReply(id, owner, version, reply)).0;
            StepKeepsConsistent(e, before.db, FirstReply(id, owner, version, reply));
          }
      }
    }
  }

  // ---- Targets ----

  /** A fresh message of the bound user. */
  predicate Heard(w: Inbox, m: Message) {
    m.id != "" && m.id !in w.receipts && w.bound.Some? && (m.sender == "" || Some(m.sender) == w.bound)
  }

  predicate Targets(m: Message, publicId: string) {
    var command := ParseCommand(Strip(m.text));
    if m.replyTo != "" then publicId == m.replyTo
    else command.Some? && command.value.target == Some(publicId) && publicId != ""
  }

  /** A reply context or command target that names no visible task changes no task and no draft. */
  lemma UnknownTargetChangesNothing(conn: Connection, w: Inbox, m: Message, publicId: string)
    requires Targets(m, publicId) && FindTask(conn, w.db, publicId).None?
    ensures Handle(conn, w, m).0.db == w.db && Handle(conn, w, m).0.drafts == w.drafts
    ensures Heard(w, m) ==> Handle(conn, w, m).1 == Unhandled
  {
    hide ParseCommand, FindTask, SoleWaiting, Strip;
    assert Locate(conn, w.db, m).Nowhere?;
  }

  predicate Waiting(db: Db, task: nat) {
    task in db.tasks && db.tasks[task].state == WaitingHuman
  }

  /** A plain reply is stored exactly when its task still waits for a human; nothing else changes. */
  lemma PlainReplyWinsIffWaiting(conn: Connection, w: Inbox, task: nat, text: string)
    requires task in w.db.tasks && text != "" && conn.allowed(task, ReplyDraft(None, [], Some(text)))
    ensures
      var (after, outcome) := PlainReply(conn, w, Some(task), text);
      && (outcome == Done <==> Waiting(w.db, task))
      && (outcome == Done ==>
            && after.db.tasks[task].state == ResponseReady
            && after.db.tasks[task].payload == Some(ReplyDraft(None, [], Some(text)))
            && after.db.tasks - {task} == w.db.tasks - {task})
      && (outcome != Done ==> after == w)
  {
  }

  /**
   An unknown id at the head of a text without reply context is not refused: the tasks change exactly when
   one task waits and may be answered so, and then the whole text, id included, is its answer.
   */
  lemma UnknownHeadAnswersTheSoleTask(conn: Connection, w: Inbox, m: Message)
    requires Heard(w, m) && m.replyTo == "" && Strip(m.text) != "" && Strip(m.text)[0] == '#'
    requires FindTask(conn, w.db, Before(Strip(m.text)[1..], ' ')).None?
    ensures
      var (after, outcome) := Handle(conn, w, m);
      var answer, sole := ReplyDraft(None, [], Some(Strip(m.text))), SoleWaiting(conn, w.db);
      && (after.db != w.db <==> sole.Some? && conn.allowed(sole.value, answer))
      && (outcome == Done <==> after.db != w.db) && outcome in {Done, Unhandled}
      && (outcome == Done ==>
            && sole.value in after.db.tasks && after.db.tasks[sole.value].state == ResponseReady
            && after.db.tasks[sole.value].payload == Some(answer))
      && after.drafts == w.drafts
  {
    var text, sole := Strip(m.text), SoleWaiting(conn, w.db);
    HeadIsNoCommand(m.text);
    if sole.Some? {
      SoleIsWaiting(conn, w.db, sole.value);
      PlainReplyOutcome(conn, w, sole.value, text);
    }
    hide ParseCommand, FindTask, SoleWaiting, Strip, Before, Submit;
    assert Locate(conn, w.db, m) == Place(sole, text, None);
    if sole.Some? { hide PlainReply; }
  }

  lemma SoleIsWaiting(conn: Connection, db: Db, task: nat)
    requires SoleWaiting(conn, db) == Some(task)
    ensures Waiting(db, task) && db.tasks[task].owner == conn.owner
  {
    assert task in WaitingTasks(conn.owner, db);
  }

  /** What a plain reply to a known task does, whether it is stored or not. */
  lemma PlainReplyOutcome(conn: Connection, w: Inbox, task: nat, text: string)
    requires task in w.db.tasks && text != ""
    ensures
      var (after, outcome) := PlainReply(conn, w, Some(task), text);
      var answer := ReplyDraft(None, [], Some(text));
      && after.receipts == w.receipts && after.drafts == w.drafts
      && (outcome == Done <==> Waiting(w.db, task) && conn.allowed(task, answer))
      && (outcome == Done <==> after.db != w.db)
      && (outcome == Late <==> !Waiting(w.db, task) && conn.allowed(task, answer))
      && (outcome == Done ==>
            && task in after.db.tasks && after.db.tasks[task].state == ResponseReady
            && after.db.tasks[task].payload == Some(answer))
  {
  }

  /**
   With a reply context the text is taken whole, a leading `#id` included: it is stored exactly when the
   named task is found, waits and may be answered so, and no draft changes.
   */
  lemma ContextReplyKeepsItsPrefix(conn: Connection, w: Inbox, m: Message)
    requires Heard(w, m) && m.replyTo != "" && Strip(m.text) != "" && Strip(m.text)[0] == '#'
    ensures
      var (after, outcome) := Handle(conn, w, m);
      var answer, task := ReplyDraft(None, [], Some(Strip(m.text))), FindTask(conn, w.db, m.replyTo);
      && (outcome == Done <==> task.Some? && Waiting(w.db, task.value) && conn.allowed(task.value, answer))
      && (outcome == Done <==> after.db != w.db)
      && (outcome == Done ==>
            && task.value in after.db.tasks && after.db.tasks[task.value].state == ResponseReady
            && after.db.tasks[task.value].payload == Some(answer))
      && after.drafts == w.drafts
  {
    var text, task := Strip(m.text), FindTask(conn, w.db, m.replyTo);
    HeadIsNoCommand(m.text);
    if task.Some? { PlainReplyOutcome(conn, w, task.value, text); }
    hide ParseCommand, FindTask, SoleWaiting, Strip, Before, PlainReply;
    assert Locate(conn, w.db, m) == if task.None? then Nowhere else Place(task, text, None);
  }

  /** The message the HTTP reply endpoint makes of a reply (app/api/connectors.py). */
  function HttpReply(id: string, sender: string, taskId: string, text: string): Message {
    Message(id, sender, "", "#" + taskId + " " + text, taskId)
  }

  lemma PrefixedText(taskId: string, text: string)
    ensures var whole := Strip("#" + taskId + " " + text); whole != "" && whole[0] == '#' && ParseCommand(whole).None?
  {
    var written := "#" + taskId + " " + text;
    assert written[0] == '#' && StripLeft(written) == written;
    StripRightKeepsHead(written);
    HeadIsNoCommand(written);
  }

  lemma {:induction false} StripRightKeepsHead(s: string)
    requires s != "" && !IsSpace(s[0])
    ensures StripRight(s) != "" && StripRight(s)[0] == s[0]
  {
    if IsSpace(s[|s| - 1]) { StripRightKeepsHead(s[..|s| - 1]); }
  }

  /**
   What the endpoint adds stays: a reply is stored, prefix and all, exactly when its task is found, waits and
   may be answered so. No text makes it a command: `/ans`, `/res` and `/commit` become answers, and drafts
   never change.
   */
  lemma HttpReplyKeepsItsPrefix(conn: Connection, w: Inbox, id: string, sender: string, taskId: string, text: string)
    requires taskId != "" && Heard(w, HttpReply(id, sender, taskId, text))
    ensures
      var whole := Strip("#" + taskId + " " + text);
      var (after, outcome) := Handle(conn, w, HttpReply(id, sender, taskId, text));
      var answer, task := ReplyDraft(None, [], Some(whole)), FindTask(conn, w.db, taskId);
      && whole != "" && whole[0] == '#' && ParseCommand(whole).None?
      && (outcome == Done <==> task.Some? && Waiting(w.db, task.value) && conn.allowed(task.value, answer))
      && (outcome == Done <==> after.db != w.db)
      && (outcome == Done ==>
            && task.value in after.db.tasks && after.db.tasks[task.value].state == ResponseReady
            && after.db.tasks[task.value].payload == Some(answer))
      && after.drafts == w.drafts
  {
    PrefixedText(taskId, text);
    hide Handle, FindTask, ParseCommand, Strip;
    ContextReplyKeepsItsPrefix(conn, w, HttpReply(id, sender, taskId, text));
  }

  // ---- Both at a concrete inbox ----

  function AnyReply(task: nat, draft: ReplyDraft): bool {
    true
  }

  function Unexported(task: Option<nat>, command: Command): Outcome {
    Unhandled
  }

  /** One task, `t1`, waits for the owner of the connection. */
  function OneTask(): Row {
    Row(0, 0, false, WaitingHuman, false, 1, None, None, [], [])
  }

  const Desk := Connection(0, map["t1" := 0], AnyReply, Unexported)
  const DeskInbox := Inbox(Db(map[0 := OneTask()], map[0 := User(true, 1)], 1), map[], Some("u"), None, map[])

  lemma DeskHasOneTask()
    ensures SoleWaiting(Desk, DeskInbox.db) == Some(0) && FindTask(Desk, DeskInbox.db, "t1") == Some(0)
    ensures FindTask(Desk, DeskInbox.db, "t2") == None
  {
    assert WaitingTasks(0, DeskInbox.db) == {0};
    assert "t2" != "t1" by { assert "t2"[1] != "t1"[1]; }
  }

  /** `#t2 hello` answers task `t1`. */
  lemma UnknownHeadWitness()
    ensures
      var after := Handle(Desk, DeskInbox, Message("1", "u", "", "#t2 hello", "")).0;
      0 in after.db.tasks && after.db.tasks[0].payload == Some(ReplyDraft(None, [], Some("#t2 hello")))
  {
    var m := Message("1", "u", "", "#t2 hello", "");
    TrimmedStays(m.text);
    assert m.text[1..] == "t2" + [' '] + "hello";
    CutAtMark("t2", ' ', "hello");
    DeskHasOneTask();
    hide Handle, SoleWaiting, FindTask, Strip, Before;
    UnknownHeadAnswersTheSoleTask(Desk, DeskInbox, m);
  }

  /** `/commit`, sent through the HTTP endpoint for task `t1`, is stored as the answer `#t1 /commit`. */
  lemma HttpReplyWitness()
    ensures
      var after := Handle(Desk, DeskInbox, HttpReply("1", "u", "t1", "/commit")).0;
      0 in after.db.tasks && after.db.tasks[0].payload == Some(ReplyDraft(None, [], Some("#t1 /commit")))
  {
    assert "#" + "t1" + " " + "/commit" == "#t1 /commit";
    TrimmedStays("#t1 /commit");
    DeskHasOneTask();
    hide Handle, SoleWaiting, FindTask, Strip, ParseCommand;
    HttpReplyKeepsItsPrefix(Desk, DeskInbox, "1", "u", "t1", "/commit");
  }

  lemma HeadIsNoCommand(text: string)
    requires Strip(text) != "" && Strip(text)[0] == '#'
    ensures ParseCommand(Strip(text)).None?
  {
    StripTwice(text);
    CommandsStartWithSlash(Strip(text));
  }

  lemma StripTwice(text: string)
    ensures Strip(Strip(text)) == Strip(text)
  {
    LeftStripped(text);
    RightStripped(StripLeft(text));
    if Strip(text) != "" { TrimmedStays(Strip(text)); }
  }

  lemma {:induction false} LeftStripped(s: string)
    ensures StripLeft(s) == "" || !IsSpaceAt(StripLeft(s), 0)
  {
    if s != "" { LeftStripped(s[1..]); }
  }

  predicate IsSpaceAt(s: string, i: nat)
    requires i < |s|
  {
    IsSpace(s[i])
  }

  lemma {:induction false} RightStripped(s: string)
    ensures StripRight(s) == "" || (!IsSpaceAt(StripRight(s), |StripRight(s)| - 1) && StripRight(s)[0] == s[0])
  {
    if s != "" && IsSpaceAt(s, |s| - 1) { RightStripped(s[..|s| - 1]); }
  }

  // ---- Staged drafts ----

  datatype Staging = Staging(task: nat, reasoning: bool, body: string)

  /** What a message stages: the body of a `/res` or `/ans` with a task. */
  function StagedBy(conn: Connection, w: Inbox, m: Message): Option<Staging> {
    if !Heard(w, m) then None
    else
      match Locate(conn, w.db, m)
      case Place(Some(task), _, Some(command)) =>
        if (command.name.Res? || command.name.Ans?) && command.body != ""
        then Some(Staging(task, command.name.Res?, command.body))
        else None
      case _ => None
  }

  /** The task whose staged draft a message submits. */
  function CommittedBy(conn: Connection, w: Inbox, m: Message): Option<nat> {
    if !Heard(w, m) then None
    else
      match Locate(conn, w.db, m)
      case Place(Some(task), _, Some(command)) =>
        if command.name.Commit? && CommitDraft(conn, w, Some(task)).1 == Done then Some(task) else None
      case _ => None
  }

  /** The body staged last since the last commit, `reasoning` or answer. */
  function LastStaged(
    e: Env, conn: Connection, w: Inbox, moves: seq<Move>, task: nat, reasoning: bool): Option<string> {
    if moves == [] then None
    else
      var init, last := moves[..|moves| - 1], moves[|moves| - 1];
      var before := Play(e, conn, w, init);
      if last.Outside? then LastStaged(e, conn, w, init, task, reasoning)
      else
        var staging := StagedBy(conn, before, last.m);
        if staging.Some? && staging.value.task == task && staging.value.reasoning == reasoning
        then Some(staging.value.body)
        else if CommittedBy(conn, before, last.m) == Some(task) then None
        else LastStaged(e, conn, w, init, task, reasoning)
  }

  /** One message edits at most one field of one draft, or ends the draft it commits. */
  lemma HandleDrafts(conn: Connection, w: Inbox, m: Message, task: nat)
    ensures
      var next, staging := Handle(conn, w, m).0, StagedBy(conn, w, m);
      DraftOf(next, task) ==
        if staging.Some? && staging.value.task == task then
          (if staging.value.reasoning then DraftOf(w, task).(reasoning := Some(staging.value.body))
           else DraftOf(w, task).(text := Some(staging.value.body)))
        else if CommittedBy(conn, w, m) == Some(task) then Staged(None, [], None)
        else DraftOf(w, task)
  {
    hide Locate, AcceptReply;
  }

  /** The draft of a task holds exactly the bodies staged last, if nothing was staged when the run began. */
  lemma {:induction false} DraftHoldsLastStaged(e: Env, conn: Connection, w: Inbox, moves: seq<Move>, task: nat)
    requires task !in w.drafts
    ensures
      DraftOf(Play(e, conn, w, moves), task)
      == Staged(LastStaged(e, conn, w, moves, task, true), [], LastStaged(e, conn, w, moves, task, false))
  {
    if moves != [] {
      hide Handle, Step, StagedBy, CommittedBy;
      var init, last := moves[..|moves| - 1], moves[|moves| - 1];
      DraftHoldsLastStaged(e, conn, w, init, task);
      if last.Receive? {
        var before := Play(e, conn, w, init);
        HandleDrafts(conn, before, last.m, task);
        NotBoth(conn, before, last.m);
      }
    }
  }

  lemma NotBoth(conn: Connection, w: Inbox, m: Message)
    ensures StagedBy(conn, w, m).None? || CommittedBy(conn, w, m).None?
  {
    hide Locate, CommitDraft;
  }

  /** A successful commit stores the last staged bodies as the task's reply, and the task was waiting. */
  lemma CommitStoresLastStaged(e: Env, conn: Connection, w: Inbox, moves: seq<Move>, m: Message, task: nat)
    requires task !in w.drafts && CommittedBy(conn, Play(e, conn, w, moves), m) == Some(task)
    ensures
      var before := Play(e, conn, w, moves);
      var after := Handle(conn, before, m).0;
      && Waiting(before.db, task) && task in after.db.tasks && after.db.tasks[task].state == ResponseReady
      && after.db.tasks[task].payload
         == Some(ReplyDraft(LastStaged(e, conn, w, moves, task, true), [], LastStaged(e, conn, w, moves, task, false)))
  {
    hide Locate, Play, LastStaged;
    DraftHoldsLastStaged(e, conn, w, moves, task);
    CommitSubmits(conn, Play(e, conn, w, moves), m, task);
  }

  lemma CommitSubmits(conn: Connection, w: Inbox, m: Message, task: nat)
    requires CommittedBy(conn, w, m) == Some(task)
    ensures Waiting(w.db, task) && task in w.drafts && task in Handle(conn, w, m).0.db.tasks
    ensures
      var row, staged := Handle(conn, w, m).0.db.tasks[task], w.drafts[task];
      row.state == ResponseReady && row.payload == Some(ReplyDraft(staged.reasoning, staged.calls, staged.text))
  {
    hide Locate;
  }
}
