/**
 Which task a message may move, and what it makes of it (app/services/connection_service.py), read off the
 message and the rows.
 */
module InboundLaws {
  import opened Results
  import opened Json
  import opened Drafts
  import opened TaskStates
  import opened TaskDb
  import opened Dsl
  import opened Inbound
  import opened InboundRuns

  // ---- Which task is meant ----

  /** `publicId` is the id of a task of the connection's owner. */
  predicate Names(conn: Connection, db: Db, publicId: string, task: nat) {
    && publicId != "" && publicId in conn.publicIds && conn.publicIds[publicId] == task
    && task in db.tasks && db.tasks[task].owner == conn.owner
  }

  /** The only task of the owner that waits. */
  ghost predicate OnlyWaiting(conn: Connection, db: Db, task: nat) {
    forall id: nat ::
      id in db.tasks && db.tasks[id].owner == conn.owner && db.tasks[id].state == WaitingHuman <==> id == task
  }

  /** Reply context, then the command's target, then a known `#id` at the head, then the only waiting task. */
  ghost predicate Means(conn: Connection, db: Db, m: Message, task: nat) {
    var text := Strip(m.text);
    var command := ParseCommand(text);
    if m.replyTo != "" then Names(conn, db, m.replyTo, task)
    else if command.Some? && command.value.target.Some? && command.value.target.value != "" then
      Names(conn, db, command.value.target.value, task)
    else if text != "" && text[0] == '#' && exists t :: Names(conn, db, Before(text[1..], ' '), t) then
      Names(conn, db, Before(text[1..], ' '), task)
    else OnlyWaiting(conn, db, task)
  }

  lemma FoundIff(conn: Connection, db: Db, publicId: string, task: nat)
    ensures FindTask(conn, db, publicId) == Some(task) <==> Names(conn, db, publicId, task)
  {
  }

  lemma FoundNone(conn: Connection, db: Db, publicId: string)
    ensures FindTask(conn, db, publicId).None? <==> !exists task :: Names(conn, db, publicId, task)
  {
    if FindTask(conn, db, publicId).Some? { FoundIff(conn, db, publicId, FindTask(conn, db, publicId).value); }
  }

  lemma SoleIff(conn: Connection, db: Db, task: nat)
    ensures SoleWaiting(conn, db) == Some(task) <==> OnlyWaiting(conn, db, task)
  {
    var waiting := WaitingTasks(conn.owner, db);
    if OnlyWaiting(conn, db, task) {
      assert waiting == {task};
      assert |waiting| == 1;
      assert SoleWaiting(conn, db).value in waiting;
    }
    if SoleWaiting(conn, db) == Some(task) {
      assert task in waiting;
      OnlyOne(waiting);
      forall id: nat
        ensures id in db.tasks && db.tasks[id].owner == conn.owner && db.tasks[id].state == WaitingHuman <==> id == task
      {
        assert id in waiting <==> id == task;
      }
    }
  }

  lemma LocatedIsMeant(conn: Connection, db: Db, m: Message)
    requires Locate(conn, db, m).Place? && Locate(conn, db, m).task.Some?
    ensures Means(conn, db, m, Locate(conn, db, m).task.value)
  {
    var task := Locate(conn, db, m).task.value;
    hide Strip, ParseCommand, Before, Behind, Names, OnlyWaiting, FindTask, SoleWaiting;
    var text := Strip(m.text);
    var command := ParseCommand(text);
    FoundIff(conn, db, m.replyTo, task);
    if command.Some? && command.value.target.Some? { FoundIff(conn, db, command.value.target.value, task); }
    if text != "" {
      FoundIff(conn, db, Before(text[1..], ' '), task);
      FoundNone(conn, db, Before(text[1..], ' '));
    }
    SoleIff(conn, db, task);
  }

  lemma MeantIsOwned(conn: Connection, db: Db, m: Message, task: nat)
    requires Means(conn, db, m, task)
    ensures task in db.tasks && db.tasks[task].owner == conn.owner
  {
    hide Strip, ParseCommand, Before;
  }

  // ---- A message moves no other task ----

  /** Nothing but the row and the draft of `task` differs. */
  ghost predicate OnlyTask(before: Inbox, after: Inbox, task: nat) {
    && after.db.users == before.db.users && after.db.nextId == before.db.nextId
    && after.db.tasks.Keys == before.db.tasks.Keys
    && (forall id | id in before.db.tasks && id != task :: after.db.tasks[id] == before.db.tasks[id])
    && (forall id | id != task :: id in after.drafts <==> id in before.drafts)
    && (forall id | id in before.drafts && id != task :: after.drafts[id] == before.drafts[id])
  }

  lemma CommandMovesItsTask(conn: Connection, w: Inbox, task: Option<nat>, command: Command)
    ensures
      var after := RunCommand(conn, w, task, command).0;
      if task.Some? then OnlyTask(w, after, task.value) else after == w
  {
  }

  lemma ReplyMovesItsTask(conn: Connection, w: Inbox, task: Option<nat>, text: string)
    ensures
      var after := PlainReply(conn, w, task, text).0;
      if task.Some? then OnlyTask(w, after, task.value) else after == w
  {
  }

  /** Whatever a message says: if it changes a row or a draft, then of the task it means, which is the owner's own. */
  lemma OnlyTheMeantTaskMoves(conn: Connection, w: Inbox, m: Message)
    ensures
      var after := Handle(conn, w, m).0;
      || (after.db == w.db && after.drafts == w.drafts)
      || exists task :: Means(conn, w.db, m, task) && OnlyTask(w, after, task) && w.db.tasks[task].owner == conn.owner
  {
    var place := Locate(conn, w.db, m);
    hide Locate, RunCommand, PlainReply, OnlyTask, Means;
    if place.Place? {
      if place.command.Some? {
        CommandMovesItsTask(conn, w, place.task, place.command.value);
      } else {
        ReplyMovesItsTask(conn, w, place.task, place.text);
      }
      if place.task.Some? {
        LocatedIsMeant(conn, w.db, m);
        MeantIsOwned(conn, w.db, m, place.task.value);
        ReceiptsApart(w, SubmitTaskReply(conn, w, m).0, m.id, Handle(conn, w, m).1, place.task.value);
        assert Means(conn, w.db, m, place.task.value);
      }
    }
  }

  lemma ReceiptsApart(w: Inbox, after: Inbox, id: string, outcome: Outcome, task: nat)
    ensures OnlyTask(w, WithReceipt(after, id, outcome), task) <==> OnlyTask(w, after, task)
  {
  }

  // ---- What becomes of it ----

  /** `#id` at the head, known: the rest is the reply, stored exactly when the task waits and may be answered so. */
  lemma HeadedTextAnswersItsTask(conn: Connection, w: Inbox, m: Message, task: nat)
    requires Heard(w, m) && m.replyTo == "" && Strip(m.text) != "" && Strip(m.text)[0] == '#'
    requires Names(conn, w.db, Before(Strip(m.text)[1..], ' '), task)
    ensures
      var rest := Strip(Behind(Strip(m.text)[1..], ' '));
      var (after, outcome) := Handle(conn, w, m);
      ParseCommand(rest).None? && rest != "" ==>
        && (outcome == Done <==> Waiting(w.db, task) && conn.allowed(task, ReplyDraft(None, [], Some(rest))))
        && (outcome == Done ==>
              && task in after.db.tasks && after.db.tasks[task].state == ResponseReady
              && after.db.tasks[task].payload == Some(ReplyDraft(None, [], Some(rest))))
        && (outcome != Done ==> after.db == w.db)
        && after.drafts == w.drafts
  {
    var rest := Strip(Behind(Strip(m.text)[1..], ' '));
    HeadIsNoCommand(m.text);
    FoundIff(conn, w.db, Before(Strip(m.text)[1..], ' '), task);
    if ParseCommand(rest).None? && rest != "" {
      PlainReplyOutcome(conn, w, task, rest);
      hide ParseCommand, FindTask, SoleWaiting, Strip, Before, Behind, PlainReply;
      assert Locate(conn, w.db, m) == Place(Some(task), rest, None);
      assert Handle(conn, w, m).1 == PlainReply(conn, w, Some(task), rest).1;
    }
  }

  /** A known id with nothing behind it, and a text with nothing visible, are no replies. */
  lemma NothingSaidIsRefused(conn: Connection, w: Inbox, m: Message, task: nat)
    requires Heard(w, m)
    ensures Strip(m.text) == "" ==> Handle(conn, w, m) == (w.(receipts := w.receipts[m.id := Unhandled]), Unhandled)
    ensures
      && m.replyTo == "" && Strip(m.text) != "" && Strip(m.text)[0] == '#'
      && Names(conn, w.db, Before(Strip(m.text)[1..], ' '), task) && Strip(Behind(Strip(m.text)[1..], ' ')) == "" ==>
        Handle(conn, w, m) == (w.(receipts := w.receipts[m.id := Unhandled]), Unhandled)
  {
    if m.replyTo == "" && Strip(m.text) != "" && Strip(m.text)[0] == '#' {
      HeadIsNoCommand(m.text);
      FoundIff(conn, w.db, Before(Strip(m.text)[1..], ' '), task);
    }
    assert ParseCommand("").None?;
    hide ParseCommand, FindTask, SoleWaiting, Strip, Before, Behind;
  }

  /** A plain text answers the only waiting task, exactly when there is one that may be answered so. */
  lemma PlainTextAnswersTheSoleTask(conn: Connection, w: Inbox, m: Message)
    requires Heard(w, m) && m.replyTo == "" && Strip(m.text) != "" && Strip(m.text)[0] !in {'#', '/'}
    ensures
      var text, (after, outcome) := Strip(m.text), Handle(conn, w, m);
      var answer := ReplyDraft(None, [], Some(text));
      && (outcome == Done <==> exists task: nat :: OnlyWaiting(conn, w.db, task) && conn.allowed(task, answer))
      && (outcome != Done ==> outcome == Unhandled && after.db == w.db)
      && (forall task: nat | outcome == Done && OnlyWaiting(conn, w.db, task) ::
            && OnlyTask(w, after, task) && task in after.db.tasks
            && after.db.tasks[task].state == ResponseReady && after.db.tasks[task].payload == Some(answer))
      && after.drafts == w.drafts
  {
    var text, sole := Strip(m.text), SoleWaiting(conn, w.db);
    StripTwice(m.text);
    CommandsStartWithSlash(text);
    hide ParseCommand, FindTask, Strip, Before, Behind;
    assert Locate(conn, w.db, m) == Place(sole, text, None);
    forall task: nat ensures sole == Some(task) <==> OnlyWaiting(conn, w.db, task) { SoleIff(conn, w.db, task); }
    if sole.Some? {
      SoleIsWaiting(conn, w.db, sole.value);
      PlainReplyOutcome(conn, w, sole.value, text);
      ReplyMovesItsTask(conn, w, sole, text);
      ReceiptsApart(w, PlainReply(conn, w, sole, text).0, m.id, Handle(conn, w, m).1, sole.value);
    }
    hide SoleWaiting, OnlyWaiting, OnlyTask;
    assert Handle(conn, w, m).1 == PlainReply(conn, w, sole, text).1;
  }

  /** `#id /ans ...`: a command after a known id runs for that task. */
  lemma HeadedCommandRuns(conn: Connection, w: Inbox, m: Message, task: nat)
    requires Heard(w, m) && m.replyTo == "" && Strip(m.text) != "" && Strip(m.text)[0] == '#'
    requires Names(conn, w.db, Before(Strip(m.text)[1..], ' '), task)
    ensures
      var command := ParseCommand(Strip(Behind(Strip(m.text)[1..], ' ')));
      command.Some? ==>
        var (after, outcome) := RunCommand(conn, w, Some(task), command.value);
        Handle(conn, w, m) == (after.(receipts := after.receipts[m.id := outcome]), outcome)
  {
    var rest := Strip(Behind(Strip(m.text)[1..], ' '));
    HeadIsNoCommand(m.text);
    FoundIff(conn, w.db, Before(Strip(m.text)[1..], ' '), task);
    hide ParseCommand, FindTask, SoleWaiting, Strip, Before, Behind, RunCommand;
    if ParseCommand(rest).Some? {
      assert Locate(conn, w.db, m) == Place(Some(task), rest, ParseCommand(rest));
    }
  }

  /** A command with a known target, or sent with a known reply context, runs for that task. */
  lemma TargetedCommandRuns(conn: Connection, w: Inbox, m: Message, task: nat)
    requires Heard(w, m) && ParseCommand(Strip(m.text)).Some?
    requires
      var target := ParseCommand(Strip(m.text)).value.target;
      if m.replyTo != "" then Names(conn, w.db, m.replyTo, task)
      else target.Some? && Names(conn, w.db, target.value, task)
    ensures
      var (after, outcome) := RunCommand(conn, w, Some(task), ParseCommand(Strip(m.text)).value);
      Handle(conn, w, m) == (after.(receipts := after.receipts[m.id := outcome]), outcome)
  {
    var text, command := Strip(m.text), ParseCommand(Strip(m.text));
    StripTwice(m.text);
    CommandsStartWithSlash(text);
    FoundIff(conn, w.db, m.replyTo, task);
    if command.value.target.Some? { FoundIff(conn, w.db, command.value.target.value, task); }
    hide ParseCommand, FindTask, SoleWaiting, Strip, Before, Behind, RunCommand;
    assert Locate(conn, w.db, m) == Place(Some(task), text, command);
  }

  /** A command without any of these runs for the only waiting task, or for none. */
  lemma UntargetedCommandRuns(conn: Connection, w: Inbox, m: Message)
    requires Heard(w, m) && m.replyTo == ""
    requires ParseCommand(Strip(m.text)).Some? && ParseCommand(Strip(m.text)).value.target.None?
    ensures
      var sole := SoleWaiting(conn, w.db);
      var (after, outcome) := RunCommand(conn, w, sole, ParseCommand(Strip(m.text)).value);
      && Handle(conn, w, m) == (after.(receipts := after.receipts[m.id := outcome]), outcome)
      && forall task: nat :: sole == Some(task) <==> OnlyWaiting(conn, w.db, task)
  {
    var text, command := Strip(m.text), ParseCommand(Strip(m.text));
    StripTwice(m.text);
    CommandsStartWithSlash(text);
    forall task: nat ensures SoleWaiting(conn, w.db) == Some(task) <==> OnlyWaiting(conn, w.db, task) {
      SoleIff(conn, w.db, task);
    }
    hide ParseCommand, FindTask, SoleWaiting, Strip, Before, Behind, RunCommand, OnlyWaiting;
    assert Locate(conn, w.db, m) == Place(SoleWaiting(conn, w.db), text, command);
  }

  predicate Says(text: Option<string>) {
    text.Some? && text.value != ""
  }

  /** A commit submits the draft exactly when there is one with content that is allowed, and the task waits. */
  lemma CommitWinsIff(conn: Connection, w: Inbox, task: nat)
    requires task in w.db.tasks
    ensures
      var (after, outcome) := CommitDraft(conn, w, Some(task));
      var draft := DraftOf(w, task);
      var reply := ReplyDraft(draft.reasoning, draft.calls, draft.text);
      var ready :=
        && task in w.drafts && (Says(draft.reasoning) || draft.calls != [] || Says(draft.text))
        && conn.allowed(task, reply);
      && (outcome == Done <==> ready && Waiting(w.db, task))
      && (outcome == Late <==> ready && !Waiting(w.db, task))
      && outcome in {Done, Late, Unhandled}
      && (outcome == Done ==>
            && after.drafts == w.drafts - {task} && OnlyTask(w, after, task)
            && after.db.tasks[task].state == ResponseReady && after.db.tasks[task].payload == Some(reply)
            && after.db.tasks[task].version == w.db.tasks[task].version + 1)
      && (outcome != Done ==> after == w)
  {
  }

  /** `/res` and `/ans` with a body edit the one field they name; an empty body or no task is refused. */
  lemma StagingIff(conn: Connection, w: Inbox, task: Option<nat>, command: Command)
    requires command.name.Res? || command.name.Ans?
    ensures
      var (after, outcome) := RunCommand(conn, w, task, command);
      && (outcome == Done <==> task.Some? && command.body != "") && outcome in {Done, Unhandled}
      && after.db == w.db && (outcome != Done ==> after == w)
      && (outcome == Done ==>
            && OnlyTask(w, after, task.value) && task.value in after.drafts
            && after.drafts[task.value].calls == DraftOf(w, task.value).calls
            && after.drafts[task.value].reasoning
               == (if command.name.Res? then Some(command.body) else DraftOf(w, task.value).reasoning)
            && after.drafts[task.value].text
               == (if command.name.Ans? then Some(command.body) else DraftOf(w, task.value).text))
  {
  }

  /** Commands that are no replies change nothing; unknown ones are refused. */
  lemma OtherCommandsChangeNothing(conn: Connection, w: Inbox, task: Option<nat>, command: Command)
    requires !command.name.Res? && !command.name.Ans? && !command.name.Commit?
    ensures RunCommand(conn, w, task, command).0 == w
    ensures command.name.Unknown? ==> RunCommand(conn, w, task, command).1 == Unhandled
  {
  }
}
