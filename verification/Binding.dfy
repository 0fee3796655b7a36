/** Who is bound to a connection and heard on it (app/services/connection_service.py). */
module Binding {
  import opened Results
  import opened Drafts
  import opened TaskStates
  import opened TaskDb
  import opened Inbound
  import opened InboundRuns

  predicate Fresh(w: Inbox, m: Message) {
    m.id != "" && m.id !in w.receipts
  }

  /** The message carries the code that is accepted now. */
  predicate KnowsTheCode(w: Inbox, m: Message) {
    m.bindingCode != "" && w.code == Some(m.bindingCode)
  }

  /** An unbound connection binds exactly the sender of the accepted code, which is used up; nothing else moves. */
  lemma BoundIffTheCodeIsKnown(conn: Connection, w: Inbox, m: Message)
    requires w.bound.None? && Fresh(w, m)
    ensures
      var (after, outcome) := Handle(conn, w, m);
      && (outcome == Bound <==> KnowsTheCode(w, m)) && outcome in {Bound, NotBound}
      && after == Inbox(w.db, w.receipts[m.id := outcome],
                        if KnowsTheCode(w, m) then Some(m.sender) else None,
                        if KnowsTheCode(w, m) then None else w.code, w.drafts)
  {
  }

  /** A bound connection hears nobody else who gives a name. */
  lemma OthersAreNotHeard(conn: Connection, w: Inbox, m: Message)
    requires w.bound.Some? && Fresh(w, m) && m.sender != "" && m.sender != w.bound.value
    ensures Handle(conn, w, m) == (w.(receipts := w.receipts[m.id := NotBound]), NotBound)
  {
  }

  /** Without an id, or seen before: answered so, and nothing changes. */
  lemma NotFreshIsIgnored(conn: Connection, w: Inbox, m: Message)
    requires !Fresh(w, m)
    ensures Handle(conn, w, m) == (w, if m.id == "" then Unhandled else Duplicate)
  {
  }

  lemma ReplyKeepsBinding(conn: Connection, w: Inbox, m: Message)
    ensures
      var after := SubmitTaskReply(conn, w, m).0;
      after.bound == w.bound && after.code == w.code && after.receipts == w.receipts
  {
    hide Locate, AcceptReply;
  }

  /** The answer to a fresh message is what its receipt says. */
  lemma OutcomeIsRecorded(conn: Connection, w: Inbox, m: Message)
    requires Fresh(w, m)
    ensures var (after, outcome) := Handle(conn, w, m); after.receipts == w.receipts[m.id := outcome]
  {
    hide SubmitTaskReply;
    ReplyKeepsBinding(conn, w, m);
  }

  lemma BoundStaysBound(conn: Connection, w: Inbox, m: Message)
    requires w.bound.Some?
    ensures var after := Handle(conn, w, m).0; after.bound == w.bound && after.code == w.code
  {
    hide SubmitTaskReply;
    ReplyKeepsBinding(conn, w, m);
  }

  /** The i-th move is a message that binds its sender. */
  ghost predicate BindsAt(e: Env, conn: Connection, w: Inbox, moves: seq<Move>, i: nat, user: string) {
    && i < |moves| && moves[i].Receive? && moves[i].m.sender == user
    && var before := Play(e, conn, w, moves[..i]);
       before.bound.None? && Fresh(before, moves[i].m) && KnowsTheCode(before, moves[i].m)
  }

  /** Some message of the run binds `user`. */
  ghost predicate Binds(e: Env, conn: Connection, w: Inbox, moves: seq<Move>, user: string) {
    exists i: nat :: BindsAt(e, conn, w, moves, i, user)
  }

  lemma BindsOneMore(e: Env, conn: Connection, w: Inbox, moves: seq<Move>, user: string)
    requires moves != []
    ensures Binds(e, conn, w, moves, user)
      <==> Binds(e, conn, w, moves[..|moves| - 1], user) || BindsAt(e, conn, w, moves, |moves| - 1, user)
  {
    hide BindsAt;
    var init := moves[..|moves| - 1];
    forall i: nat | i != |moves| - 1
      ensures BindsAt(e, conn, w, init, i, user) <==> BindsAt(e, conn, w, moves, i, user) {
      BindsBefore(e, conn, w, moves, i, user);
    }
    LastIsOutside(e, conn, w, moves, user);
  }

  lemma LastIsOutside(e: Env, conn: Connection, w: Inbox, moves: seq<Move>, user: string)
    requires moves != []
    ensures !BindsAt(e, conn, w, moves[..|moves| - 1], |moves| - 1, user)
  {
  }

  lemma BindsBefore(e: Env, conn: Connection, w: Inbox, moves: seq<Move>, i: nat, user: string)
    requires moves != [] && i != |moves| - 1
    ensures BindsAt(e, conn, w, moves[..|moves| - 1], i, user) <==> BindsAt(e, conn, w, moves, i, user)
  {
    hide Play;
    if i < |moves| { assert moves[..|moves| - 1][..i] == moves[..i]; }
  }

  /** One move of an unbound connection. */
  lemma MoveBinds(e: Env, conn: Connection, w: Inbox, move: Move)
    requires w.bound.None?
    ensures
      var next := Moved(e, conn, w, move);
      if move.Receive? && Fresh(w, move.m) && KnowsTheCode(w, move.m)
      then next.bound == Some(move.m.sender) && next.code == None
      else next.bound == None && next.code == w.code
  {
    hide Step;
    if move.Receive? {
      hide Handle;
      if Fresh(w, move.m) { BoundIffTheCodeIsKnown(conn, w, move.m); } else { NotFreshIsIgnored(conn, w, move.m); }
    }
  }

  /**
   Over every run of an unbound connection: somebody is bound exactly when a fresh message with the accepted
   code came while nobody was, and then it is its sender; until then the code stays, and afterwards it is used up.
   */
  lemma {:induction false} BoundOnceByTheCode(e: Env, conn: Connection, w: Inbox, moves: seq<Move>)
    requires w.bound.None?
    ensures
      var end := Play(e, conn, w, moves);
      && (forall user :: end.bound == Some(user) <==> Binds(e, conn, w, moves, user))
      && end.code == if end.bound.Some? then None else w.code
  {
    if moves != [] {
      hide Moved, Step, Binds, BindsAt, KnowsTheCode;
      var init, last := moves[..|moves| - 1], moves[|moves| - 1];
      var before := Play(e, conn, w, init);
      BoundOnceByTheCode(e, conn, w, init);
      forall user ensures Binds(e, conn, w, moves, user)
        <==> Binds(e, conn, w, init, user) || BindsLast(before, last, user) {
        BindsOneMore(e, conn, w, moves, user);
        LastBinds(e, conn, w, moves, user);
      }
      if before.bound.None? { MoveBinds(e, conn, before, last); } else { MoveKeepsBound(e, conn, before, last); }
    } else {
      NobodyBinds(e, conn, w);
    }
  }

  lemma NobodyBinds(e: Env, conn: Connection, w: Inbox)
    ensures forall user :: !Binds(e, conn, w, [], user)
  {
  }

  predicate BindsLast(before: Inbox, last: Move, user: string) {
    && last.Receive? && last.m.sender == user
    && before.bound.None? && Fresh(before, last.m) && KnowsTheCode(before, last.m)
  }

  lemma MoveKeepsBound(e: Env, conn: Connection, w: Inbox, move: Move)
    requires w.bound.Some?
    ensures Moved(e, conn, w, move).bound == w.bound && Moved(e, conn, w, move).code == w.code
  {
    hide Handle, Step;
    if move.Receive? { BoundStaysBound(conn, w, move.m); }
  }

  lemma LastBinds(e: Env, conn: Connection, w: Inbox, moves: seq<Move>, user: string)
    requires moves != []
    ensures BindsAt(e, conn, w, moves, |moves| - 1, user)
      <==> BindsLast(Play(e, conn, w, moves[..|moves| - 1]), moves[|moves| - 1], user)
  {
    hide Play;
  }

  /** Over every run: who is bound stays bound, and no code is accepted any more than before. */
  lemma {:induction false} BoundForGood(e: Env, conn: Connection, w: Inbox, moves: seq<Move>)
    requires w.bound.Some?
    ensures Play(e, conn, w, moves).bound == w.bound && Play(e, conn, w, moves).code == w.code
  {
    if moves != [] {
      hide Moved;
      BoundForGood(e, conn, w, moves[..|moves| - 1]);
      MoveKeepsBound(e, conn, Play(e, conn, w, moves[..|moves| - 1]), moves[|moves| - 1]);
    }
  }
}
