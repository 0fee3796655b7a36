/**
 Reliable delivery to connectors (app/repositories/connections.py, app/api/connectors.py): the outbox table
 with its guarded updates, and a client that polls it with the cursor it was given.
 */
module Outbox {
  import opened Results

  datatype DeliveryState = Pending | Delivered | Acked

  datatype Row = Row(id: nat, connection: int, task: int, state: DeliveryState, acked: bool, attempts: nat)

  datatype Table = Table(rows: seq<Row>, nextId: nat)

  datatype Action =
    | Enqueue(connection: int, task: int)
    | Requeue(connection: int, task: int)
    | MarkDelivered(connection: int, task: int)
    | MarkFailed(connection: int, task: int)
    | Ack(connection: int, task: int)
    | Claim(connection: int, after: nat, limit: nat)

  // ---- The statements ----

  predicate Has(rows: seq<Row>, connection: int, task: int) {
    exists i | 0 <= i < |rows| :: rows[i].connection == connection && rows[i].task == task
  }

  /** A row that a poll of this connection may return. */
  predicate Wanted(row: Row, connection: int, after: nat) {
    row.connection == connection && row.id > after && !row.state.Acked?
  }

  /** `SELECT ... ORDER BY id LIMIT limit`; the rows are kept in the order of their ids. */
  function Batch(rows: seq<Row>, connection: int, after: nat, limit: nat): seq<nat> {
    if rows == [] || limit == 0 then []
    else if Wanted(rows[0], connection, after) then [rows[0].id] + Batch(rows[1..], connection, after, limit - 1)
    else Batch(rows[1..], connection, after, limit)
  }

  /** What an UPDATE does to one row; `claimed` are the ids of the batch. */
  function Changed(row: Row, a: Action, claimed: seq<nat>): Row {
    match a
    case Enqueue(_, _) => row
    case Requeue(c, t) => if row.connection == c && row.task == t then row.(state := Pending) else row
    case MarkDelivered(c, t) =>
      if row.connection == c && row.task == t && row.state.Pending? then row.(state := Delivered) else row
    case MarkFailed(c, t) =>
      if row.connection == c && row.task == t && row.state.Pending? then row.(attempts := row.attempts + 1) else row
    case Ack(c, t) =>
      if row.connection == c && row.task == t && !row.acked then row.(state := Acked, acked := true) else row
    case Claim(c, after, _) =>
      if row.connection == c && row.id > after && row.state.Pending? && row.id in claimed
      then row.(state := Delivered) else row
  }

  function ChangedAll(rows: seq<Row>, a: Action, claimed: seq<nat>): (r: seq<Row>)
    ensures |r| == |rows|
  {
    if rows == [] then [] else ChangedAll(rows[..|rows| - 1], a, claimed) + [Changed(rows[|rows| - 1], a, claimed)]
  }

  function Claimed(t: Table, a: Action): seq<nat> {
    if a.Claim? then Batch(t.rows, a.connection, a.after, a.limit) else []
  }

  /** One committed statement. `Requeue` is the outbound service writing into the row of its task. */
  function After(t: Table, a: Action): Table {
    if (a.Enqueue? || a.Requeue?) && !Has(t.rows, a.connection, a.task) then
      Table(t.rows + [Row(t.nextId, a.connection, a.task, Pending, false, 0)], t.nextId + 1)
    else t.(rows := ChangedAll(t.rows, a, Claimed(t, a)))
  }

  // ---- What every statement keeps ----

  ghost predicate Sound(t: Table) {
    && t.nextId > 0
    && (forall i | 0 <= i < |t.rows| :: 0 < t.rows[i].id < t.nextId && (t.rows[i].state.Acked? ==> t.rows[i].acked))
    && (forall i, j | 0 <= i < j < |t.rows| :: t.rows[i].id < t.rows[j].id)
    && forall i, j | 0 <= i < j < |t.rows| ::
       t.rows[i].connection != t.rows[j].connection || t.rows[i].task != t.rows[j].task
  }

  function Rank(s: DeliveryState): nat {
    match s
    case Pending => 0
    case Delivered => 1
    case Acked => 2
  }

  /** The same delivery; an acknowledgement is never withdrawn. */
  predicate SameDelivery(before: Row, after: Row) {
    && after.id == before.id && after.connection == before.connection && after.task == before.task
    && (before.acked ==> after.acked) && before.attempts <= after.attempts
  }

  /** No less delivered: ACKED is the end. */
  predicate Onward(before: Row, after: Row) {
    Rank(before.state) <= Rank(after.state) && (before.state.Acked? ==> after == before)
  }

  predicate Requeues(a: Action, row: Row) {
    a.Requeue? && row.connection == a.connection && row.task == a.task
  }

  lemma {:induction false} ChangedAt(rows: seq<Row>, a: Action, claimed: seq<nat>, i: nat)
    requires i < |rows|
    ensures ChangedAll(rows, a, claimed)[i] == Changed(rows[i], a, claimed)
  {
    hide Changed;
    if i < |rows| - 1 { ChangedAt(rows[..|rows| - 1], a, claimed, i); }
  }

  lemma ChangedRow(row: Row, a: Action, claimed: seq<nat>)
    requires row.state.Acked? ==> row.acked
    ensures
      var next := Changed(row, a, claimed);
      && SameDelivery(row, next) && (next.state.Acked? ==> next.acked)
      && (Onward(row, next) <==> !(Requeues(a, row) && !row.state.Pending?))
  {
  }

  lemma AfterAt(t: Table, a: Action, i: nat)
    requires i < |t.rows|
    ensures |t.rows| <= |After(t, a).rows| && After(t, a).rows[i] == Changed(t.rows[i], a, Claimed(t, a))
  {
    hide Changed, Claimed;
    if (a.Enqueue? || a.Requeue?) && !Has(t.rows, a.connection, a.task) {
      Untouched(t, a, i);
    } else {
      ChangedAt(t.rows, a, Claimed(t, a), i);
    }
  }

  lemma Untouched(t: Table, a: Action, i: nat)
    requires i < |t.rows| && (a.Enqueue? || a.Requeue?) && !Has(t.rows, a.connection, a.task)
    ensures Changed(t.rows[i], a, Claimed(t, a)) == t.rows[i]
  {
  }

  /**
   No statement removes a row, reuses an id or a (connection, task) pair or withdraws an acknowledgement;
   a delivery is taken back exactly when its row is requeued after it left PENDING.
   */
  lemma StepKeepsOutbox(t: Table, a: Action)
    requires Sound(t)
    ensures Sound(After(t, a)) && |t.rows| <= |After(t, a).rows| && t.nextId <= After(t, a).nextId
    ensures forall i | 0 <= i < |t.rows| :: SameDelivery(t.rows[i], After(t, a).rows[i])
    ensures forall i | 0 <= i < |t.rows| ::
      Onward(t.rows[i], After(t, a).rows[i]) <==> !(Requeues(a, t.rows[i]) && !t.rows[i].state.Pending?)
    ensures forall i | |t.rows| <= i < |After(t, a).rows| :: After(t, a).rows[i].id == t.nextId
  {
    forall i | 0 <= i < |t.rows|
      ensures
        var before, after := t.rows[i], After(t, a).rows[i];
        && SameDelivery(before, after) && (after.state.Acked? ==> after.acked)
        && (Onward(before, after) <==> !(Requeues(a, before) && !before.state.Pending?))
    {
      hide Changed, After, Onward;
      AfterAt(t, a, i);
      ChangedRow(t.rows[i], a, Claimed(t, a));
    }
    hide Changed, Onward;
    RowsStaySound(t, After(t, a), a);
  }

  lemma RowsStaySound(t: Table, u: Table, a: Action)
    requires Sound(t) && u == After(t, a) && |t.rows| <= |u.rows|
    requires forall i | 0 <= i < |t.rows| ::
      SameDelivery(t.rows[i], u.rows[i]) && (u.rows[i].state.Acked? ==> u.rows[i].acked)
    ensures Sound(u)
  {
  }

  /** The table, one method for each repository call. */
  class OutboxTable {
    var rows: seq<Row>
    var nextId: nat

    ghost function State(): Table
      reads this
    {
      Table(rows, nextId)
    }

    constructor ()
      ensures State() == Table([], 1) && Sound(State())
    {
      rows, nextId := [], 1;
    }

    /** The row's id; a delivery already there is left as it is. */
    method EnqueueOutbox(connection: int, task: int) returns (id: nat)
      requires Sound(State())
      modifies this
      ensures Sound(State()) && State() == After(old(State()), Enqueue(connection, task))
      ensures exists i ::
        0 <= i < |rows| && rows[i].id == id && rows[i].connection == connection && rows[i].task == task
    {
      hide Sound, After;
      StepKeepsOutbox(State(), Enqueue(connection, task));
      var i := 0;
      while i < |rows|
        invariant 0 <= i <= |rows|
        invariant forall k | 0 <= k < i :: rows[k].connection != connection || rows[k].task != task
      {
        if rows[i].connection == connection && rows[i].task == task {
          KnownStays(State(), connection, task);
          return rows[i].id;
        }
        i := i + 1;
      }
      id := nextId;
      NewIsAdded(State(), Enqueue(connection, task));
      rows := rows + [Row(id, connection, task, Pending, false, 0)];
      nextId := nextId + 1;
      assert rows[|rows| - 1].id == id;
    }

    /** The outbound service writes into the row of the task, whatever its state, or adds one. */
    method RequeueOutbox(connection: int, task: int)
      requires Sound(State())
      modifies this
      ensures Sound(State()) && State() == After(old(State()), Requeue(connection, task))
    {
      hide Sound, After;
      ghost var a := Requeue(connection, task);
      StepKeepsOutbox(State(), a);
      var i := 0;
      while i < |rows|
        invariant 0 <= i <= |rows| && State() == old(State())
        invariant forall k | 0 <= k < i :: rows[k].connection != connection || rows[k].task != task
      {
        if rows[i].connection == connection && rows[i].task == task {
          OnlyOneChanges(State(), a, i, rows[i].(state := Pending));
          rows := rows[i := rows[i].(state := Pending)];
          return;
        }
        i := i + 1;
      }
      NewIsAdded(State(), a);
      rows := rows + [Row(nextId, connection, task, Pending, false, 0)];
      nextId := nextId + 1;
    }

    method MarkOutboxDelivered(connection: int, task: int) returns (done: bool)
      requires Sound(State())
      modifies this
      ensures Sound(State()) && State() == After(old(State()), MarkDelivered(connection, task))
      ensures done <==> Hits(old(rows), |rows|, MarkDelivered(connection, task))
    {
      hide Sound, After, ChangedAll, Hits;
      ghost var a := MarkDelivered(connection, task);
      StepKeepsOutbox(State(), a);
      NoRows(rows, a, []);
      done := false;
      var i := 0;
      while i < |rows|
        invariant 0 <= i <= |rows| == |old(rows)| && nextId == old(nextId)
        invariant rows == ChangedAll(old(rows)[..i], a, []) + old(rows)[i..]
        invariant done <==> Hits(old(rows), i, a)
      {
        OneMoreRow(old(rows), a, [], i);
        RowAt(old(rows), a, [], i);
        if Is(rows[i], connection, task) && rows[i].state.Pending? {
          rows := rows[i := rows[i].(state := Delivered)];
          done := true;
        }
        i := i + 1;
      }
      AllRows(old(State()), a, rows);
    }

    method MarkOutboxFailed(connection: int, task: int) returns (done: bool)
      requires Sound(State())
      modifies this
      ensures Sound(State()) && State() == After(old(State()), MarkFailed(connection, task))
      ensures done <==> Hits(old(rows), |rows|, MarkFailed(connection, task))
    {
      hide Sound, After, ChangedAll, Hits, Changed, Guard;
      ghost var a := MarkFailed(connection, task);
      StepKeepsOutbox(State(), a);
      NoRows(rows, a, []);
      done := false;
      var i := 0;
      while i < |rows|
        invariant 0 <= i <= |rows| == |old(rows)| && nextId == old(nextId)
        invariant rows == ChangedAll(old(rows)[..i], a, []) + old(rows)[i..]
        invariant done <==> Hits(old(rows), i, a)
      {
        OneMoreRow(old(rows), a, [], i);
        RowAt(old(rows), a, [], i);
        FailedRow(rows[i], connection, task);
        if Is(rows[i], connection, task) && rows[i].state.Pending? {
          rows := rows[i := rows[i].(attempts := rows[i].attempts + 1)];
          done := true;
        }
        i := i + 1;
      }
      AllRows(old(State()), a, rows);
    }

    method AckOutbox(connection: int, task: int) returns (done: bool)
      requires Sound(State())
      modifies this
      ensures Sound(State()) && State() == After(old(State()), Ack(connection, task))
      ensures done <==> Hits(old(rows), |rows|, Ack(connection, task))
    {
      hide Sound, After, ChangedAll, Hits;
      ghost var a := Ack(connection, task);
      StepKeepsOutbox(State(), a);
      NoRows(rows, a, []);
      done := false;
      var i := 0;
      while i < |rows|
        invariant 0 <= i <= |rows| == |old(rows)| && nextId == old(nextId)
        invariant rows == ChangedAll(old(rows)[..i], a, []) + old(rows)[i..]
        invariant done <==> Hits(old(rows), i, a)
      {
        OneMoreRow(old(rows), a, [], i);
        RowAt(old(rows), a, [], i);
        if Is(rows[i], connection, task) && !rows[i].acked {
          rows := rows[i := rows[i].(state := Acked, acked := true)];
          done := true;
        }
        i := i + 1;
      }
      AllRows(old(State()), a, rows);
    }

    /** The pull endpoint: claims a batch and hands out the cursor of its last row. */
    method HttpPull(connection: int, cursor: nat, limit: nat) returns (ids: seq<nat>, next: nat)
      requires Sound(State())
      modifies this
      ensures Sound(State()) && State() == After(old(State()), Claim(connection, cursor, limit))
      ensures ids == Batch(old(rows), connection, cursor, limit)
      ensures next == if ids == [] then cursor else ids[|ids| - 1]
    {
      StepKeepsOutbox(State(), Claim(connection, cursor, limit));
      ids := ClaimBatch(connection, cursor, limit);
      next := if ids != [] then ids[|ids| - 1] else cursor;
    }

    /** Selects the batch, then marks its pending rows delivered. */
    method ClaimBatch(connection: int, after: nat, limit: nat) returns (ids: seq<nat>)
      modifies this
      ensures State() == After(old(State()), Claim(connection, after, limit))
      ensures ids == Batch(old(rows), connection, after, limit)
    {
      hide After, ChangedAll, Batch, Changed;
      ids := SelectBatch(connection, after, limit);
      ghost var a := Claim(connection, after, limit);
      NoRows(rows, a, ids);
      var i := 0;
      while i < |rows|
        invariant 0 <= i <= |rows| == |old(rows)| && nextId == old(nextId)
        invariant rows == ChangedAll(old(rows)[..i], a, ids) + old(rows)[i..]
      {
        OneMoreRow(old(rows), a, ids, i);
        RowAt(old(rows), a, ids, i);
        ClaimedRow(rows[i], a, ids);
        if rows[i].connection == connection && rows[i].id > after && rows[i].state.Pending? && rows[i].id in ids {
          rows := rows[i := rows[i].(state := Delivered)];
        }
        i := i + 1;
      }
      AllRows(old(State()), a, rows);
    }

    method SelectBatch(connection: int, after: nat, limit: nat) returns (ids: seq<nat>)
      ensures ids == Batch(rows, connection, after, limit)
    {
      ids := [];
      var i := 0;
      assert rows[0..] == rows;
      while i < |rows| && |ids| < limit
        invariant 0 <= i <= |rows| && |ids| <= limit
        invariant ids + Batch(rows[i..], connection, after, limit - |ids|) == Batch(rows, connection, after, limit)
      {
        assert rows[i..][1..] == rows[i + 1..];
        if Wanted(rows[i], connection, after) { ids := ids + [rows[i].id]; }
        i := i + 1;
      }
      assert i == |rows| ==> rows[i..] == [];
    }
  }

  predicate Is(row: Row, connection: int, task: int) {
    row.connection == connection && row.task == task
  }

  /** The WHERE clause of a marking statement. */
  predicate Guard(row: Row, a: Action) {
    match a
    case MarkDelivered(c, t) => Is(row, c, t) && row.state.Pending?
    case MarkFailed(c, t) => Is(row, c, t) && row.state.Pending?
    case Ack(c, t) => Is(row, c, t) && !row.acked
    case _ => false
  }

  /** The statement finds a row among the first n: `rowcount == 1`, as no two rows share connection and task. */
  ghost predicate Hits(rows: seq<Row>, n: nat, a: Action)
    requires n <= |rows|
  {
    exists k | 0 <= k < n :: Guard(rows[k], a)
  }

  lemma ClaimedRow(row: Row, a: Action, claimed: seq<nat>)
    requires a.Claim?
    ensures
      Changed(row, a, claimed)
      == if row.connection == a.connection && row.id > a.after && row.state.Pending? && row.id in claimed
         then row.(state := Delivered) else row
  {
  }

  lemma FailedRow(row: Row, connection: int, task: int)
    ensures
      var a, met := MarkFailed(connection, task), Is(row, connection, task) && row.state.Pending?;
      && (Guard(row, a) <==> met)
      && Changed(row, a, []) == if met then row.(attempts := row.attempts + 1) else row
  {
  }

  lemma NoRows(rows: seq<Row>, a: Action, claimed: seq<nat>)
    ensures ChangedAll(rows[..0], a, claimed) + rows[0..] == rows && !Hits(rows, 0, a)
  {
    assert rows[..0] == [] && rows[0..] == rows;
  }

  /** The row still to be looked at is the old one. */
  lemma RowAt(rows: seq<Row>, a: Action, claimed: seq<nat>, i: nat)
    requires i < |rows|
    ensures (ChangedAll(rows[..i], a, claimed) + rows[i..])[i] == rows[i]
    ensures Hits(rows, i + 1, a) <==> Hits(rows, i, a) || Guard(rows[i], a)
  {
    hide ChangedAll, Guard;
    assert |ChangedAll(rows[..i], a, claimed)| == i;
  }

  lemma OneMoreRow(rows: seq<Row>, a: Action, claimed: seq<nat>, i: nat)
    requires i < |rows|
    ensures |ChangedAll(rows[..i], a, claimed)| == i
    ensures
      ChangedAll(rows[..i + 1], a, claimed) + rows[i + 1..]
      == (ChangedAll(rows[..i], a, claimed) + rows[i..])[i := Changed(rows[i], a, claimed)]
  {
    hide Changed;
    assert rows[..i + 1][..i] == rows[..i];
  }

  lemma AllRows(t: Table, a: Action, rows: seq<Row>)
    requires !a.Enqueue? && !a.Requeue?
    requires rows == ChangedAll(t.rows[..|t.rows|], a, Claimed(t, a)) + t.rows[|t.rows|..]
    ensures After(t, a) == Table(rows, t.nextId)
  {
    hide Claimed;
    assert t.rows[..|t.rows|] == t.rows;
  }

  lemma KnownStays(t: Table, connection: int, task: int)
    requires Has(t.rows, connection, task)
    ensures After(t, Enqueue(connection, task)) == t
  {
    Unchanged(t.rows, Enqueue(connection, task));
  }

  lemma NewIsAdded(t: Table, a: Action)
    requires (a.Enqueue? || a.Requeue?) && !Has(t.rows, a.connection, a.task)
    ensures
      After(t, a) == Table(t.rows + [Row(t.nextId, a.connection, a.task, Pending, false, 0)], t.nextId + 1)
  {
  }

  /** In a sound table a requeue touches the one row of its connection and task. */
  lemma OnlyOneChanges(t: Table, a: Action, i: nat, row: Row)
    requires Sound(t) && a.Requeue? && i < |t.rows| && Is(t.rows[i], a.connection, a.task)
    requires row == t.rows[i].(state := Pending)
    ensures After(t, a) == t.(rows := t.rows[i := row])
  {
    assert Has(t.rows, a.connection, a.task);
    forall k | 0 <= k < |t.rows| ensures After(t, a).rows[k] == t.rows[i := row][k] {
      ChangedAt(t.rows, a, [], k);
    }
    assert After(t, a).rows == t.rows[i := row];
  }

  lemma {:induction false} Unchanged(rows: seq<Row>, a: Action)
    requires a.Enqueue?
    ensures ChangedAll(rows, a, []) == rows
  {
    if rows != [] { Unchanged(rows[..|rows| - 1], a); }
  }

  // ---- A polling client among other callers ----

  datatype World = World(table: Table, cursor: nat, returned: seq<nat>)

  datatype Move = Other(action: Action) | Poll(limit: nat)

  const Start := World(Table([], 1), 0, [])

  function Moved(w: World, client: int, m: Move): World {
    match m
    case Other(a) => w.(table := After(w.table, a))
    case Poll(limit) =>
      var ids := Batch(w.table.rows, client, w.cursor, limit);
      World(
        After(w.table, Claim(client, w.cursor, limit)),
        if ids == [] then w.cursor else ids[|ids| - 1],
        w.returned + ids)
  }

  function Play(w: World, client: int, moves: seq<Move>): World {
    if moves == [] then w else Moved(Play(w, client, moves[..|moves| - 1]), client, moves[|moves| - 1])
  }

  predicate Rising(ids: seq<nat>) {
    forall i, j | 0 <= i < j < |ids| :: ids[i] < ids[j]
  }

  /**
   The client got rising ids up to its cursor, and among them every row of its connection up to there
   that was never acked.
   */
  ghost predicate Served(w: World, client: int) {
    && Sound(w.table) && w.cursor < w.table.nextId
    && Rising(w.returned) && (forall id | id in w.returned :: id <= w.cursor)
    && forall i | 0 <= i < |w.table.rows| ::
      var row := w.table.rows[i];
      row.connection == client && row.id <= w.cursor && !row.acked ==> row.id in w.returned
  }

  ghost predicate ById(rows: seq<Row>) {
    forall i, j | 0 <= i < j < |rows| :: rows[i].id < rows[j].id
  }

  /** The id of a row that may be returned. */
  ghost predicate IsWantedId(rows: seq<Row>, connection: int, after: nat, id: nat) {
    exists i :: 0 <= i < |rows| && rows[i].id == id && Wanted(rows[i], connection, after)
  }

  lemma WantedLater(rows: seq<Row>, connection: int, after: nat, id: nat)
    requires rows != [] && ById(rows) && IsWantedId(rows[1..], connection, after, id)
    ensures IsWantedId(rows, connection, after, id) && rows[0].id < id
  {
    var i :| 0 <= i < |rows[1..]| && rows[1..][i].id == id && Wanted(rows[1..][i], connection, after);
    assert rows[i + 1] == rows[1..][i];
  }

  lemma RisesFrom(id: nat, rest: seq<nat>)
    requires Rising(rest) && forall x | x in rest :: id < x
    ensures Rising([id] + rest)
  {
    var all := [id] + rest;
    forall i, j | 0 <= i < j < |all| ensures all[i] < all[j] {
      assert all[j] == rest[j - 1] && rest[j - 1] in rest;
    }
  }

  lemma {:induction false} BatchRises(rows: seq<Row>, connection: int, after: nat, limit: nat)
    requires ById(rows)
    ensures Rising(Batch(rows, connection, after, limit))
    ensures forall id | id in Batch(rows, connection, after, limit) ::
      id > after && IsWantedId(rows, connection, after, id)
  {
    if rows != [] && limit > 0 {
      hide Rising, IsWantedId;
      assert ById(rows[1..]);
      var left := if Wanted(rows[0], connection, after) then limit - 1 else limit;
      BatchRises(rows[1..], connection, after, left);
      var rest := Batch(rows[1..], connection, after, left);
      forall id | id in rest ensures IsWantedId(rows, connection, after, id) && rows[0].id < id {
        WantedLater(rows, connection, after, id);
      }
      if Wanted(rows[0], connection, after) {
        RisesFrom(rows[0].id, rest);
        FirstIsWanted(rows, connection, after);
      }
    }
  }

  lemma FirstIsWanted(rows: seq<Row>, connection: int, after: nat)
    requires rows != [] && Wanted(rows[0], connection, after)
    ensures IsWantedId(rows, connection, after, rows[0].id) && rows[0].id > after
  {
  }

  /** A batch leaves out no wanted row below its last one, and none at all unless it is full. */
  lemma {:induction false} BatchIsComplete(rows: seq<Row>, connection: int, after: nat, limit: nat, i: nat)
    requires ById(rows)
    requires i < |rows| && Wanted(rows[i], connection, after)
    requires
      var ids := Batch(rows, connection, after, limit);
      |ids| < limit || (ids != [] && rows[i].id <= ids[|ids| - 1])
    ensures rows[i].id in Batch(rows, connection, after, limit)
  {
    if i > 0 {
      BatchRises(rows[1..], connection, after, limit);
      if Wanted(rows[0], connection, after) {
        var rest := Batch(rows[1..], connection, after, limit - 1);
        BatchIsComplete(rows[1..], connection, after, limit - 1, i - 1);
      } else {
        BatchIsComplete(rows[1..], connection, after, limit, i - 1);
      }
    }
  }

  lemma StatementServes(w: World, client: int, a: Action)
    requires Served(w, client)
    ensures Served(w.(table := After(w.table, a)), client)
  {
    hide After, Onward;
    StepKeepsOutbox(w.table, a);
  }

  lemma PollServes(w: World, client: int, limit: nat)
    requires Served(w, client)
    ensures Served(Moved(w, client, Poll(limit)), client)
  {
    var t, ids := w.table, Batch(w.table.rows, client, w.cursor, limit);
    var next := Moved(w, client, Poll(limit));
    BatchRises(t.rows, client, w.cursor, limit);
    PollExtends(w, ids);
    hide After, Onward, Batch, Rising;
    StepKeepsOutbox(t, Claim(client, w.cursor, limit));
    assert ids != [] ==> ids[|ids| - 1] in ids;
    forall i | 0 <= i < |next.table.rows|
      && next.table.rows[i].connection == client && next.table.rows[i].id <= next.cursor && !next.table.rows[i].acked
      ensures next.table.rows[i].id in next.returned
    {
      if i < |t.rows| { PolledSoFar(w, client, limit, i); }
    }
  }

  lemma PolledSoFar(w: World, client: int, limit: nat, i: nat)
    requires Served(w, client) && i < |w.table.rows| && w.table.rows[i].connection == client && !w.table.rows[i].acked
    requires
      var ids := Batch(w.table.rows, client, w.cursor, limit);
      w.table.rows[i].id <= if ids == [] then w.cursor else ids[|ids| - 1]
    ensures w.table.rows[i].id in w.returned + Batch(w.table.rows, client, w.cursor, limit)
  {
    hide Batch, Rising;
    if w.table.rows[i].id > w.cursor { BatchIsComplete(w.table.rows, client, w.cursor, limit, i); }
  }

  lemma PollExtends(w: World, ids: seq<nat>)
    requires Rising(w.returned) && (forall id | id in w.returned :: id <= w.cursor)
    requires Rising(ids) && forall id | id in ids :: id > w.cursor
    ensures Rising(w.returned + ids)
    ensures forall id | id in w.returned + ids :: id <= if ids == [] then w.cursor else ids[|ids| - 1]
  {
    var all := w.returned + ids;
    forall i, j | 0 <= i < j < |all| ensures all[i] < all[j] {
      if i < |w.returned| { assert all[i] in w.returned; }
      if j >= |w.returned| { assert all[j] in ids; }
    }
    forall id | id in all ensures id <= if ids == [] then w.cursor else ids[|ids| - 1] {
      if id in w.returned && ids != [] { assert ids[|ids| - 1] in ids; }
    }
  }

  /**
   Over every run of polls, enqueues, deliveries, failures, acks and other clients' polls: the client gets
   each row at most once, in the order of ids, and misses none below its cursor that is not acked.
   */
  lemma {:induction false} PollingServes(client: int, moves: seq<Move>)
    ensures Served(Play(Start, client, moves), client)
  {
    if moves != [] {
      hide Moved, Served;
      var w, last := Play(Start, client, moves[..|moves| - 1]), moves[|moves| - 1];
      PollingServes(client, moves[..|moves| - 1]);
      match last {
        case Other(a) => OtherServes(w, client, a);
        case Poll(limit) => PollServes(w, client, limit);
      }
    }
  }

  lemma OtherServes(w: World, client: int, a: Action)
    requires Served(w, client)
    ensures Served(Moved(w, client, Other(a)), client)
  {
    hide Served;
    StatementServes(w, client, a);
  }

  lemma CursorNeverFalls(w: World, client: int, m: Move)
    requires Served(w, client)
    ensures w.cursor <= Moved(w, client, m).cursor && w.returned <= Moved(w, client, m).returned
  {
    if m.Poll? {
      BatchRises(w.table.rows, client, w.cursor, m.limit);
      var ids := Batch(w.table.rows, client, w.cursor, m.limit);
      assert forall k | 0 <= k < |ids| :: ids[k] in ids;
    }
  }

  /** How many rows are still to be polled. */
  function Waiting(rows: seq<Row>, client: int, cursor: nat): nat {
    if rows == [] then 0
    else (if Wanted(rows[0], client, cursor) then 1 else 0) + Waiting(rows[1..], client, cursor)
  }

  /** The cursor a batch leaves. */
  function CursorAfter(ids: seq<nat>, cursor: nat): nat {
    if ids == [] then cursor else ids[|ids| - 1]
  }

  lemma WaitingFirst(rows: seq<Row>, client: int, cursor: nat)
    requires rows != []
    ensures
      Waiting(rows, client, cursor)
        == (if Wanted(rows[0], client, cursor) then 1 else 0) + Waiting(rows[1..], client, cursor)
  {
  }

  lemma BatchFirst(rows: seq<Row>, client: int, cursor: nat, limit: nat)
    requires rows != [] && limit > 0
    ensures
      Batch(rows, client, cursor, limit)
      == if Wanted(rows[0], client, cursor) then [rows[0].id] + Batch(rows[1..], client, cursor, limit - 1)
         else Batch(rows[1..], client, cursor, limit)
  {
  }

  lemma EmptyBatch(rows: seq<Row>, client: int, cursor: nat, limit: nat)
    requires rows == [] || limit == 0
    ensures Batch(rows, client, cursor, limit) == [] && (rows == [] ==> Waiting(rows, client, cursor) == 0)
  {
  }

  lemma LastIsWanted(rows: seq<Row>, client: int, cursor: nat, ids: seq<nat>)
    requires ById(rows) && rows != [] && ids != []
    requires forall id | id in ids :: id > cursor && IsWantedId(rows[1..], client, cursor, id)
    ensures rows[0].id < ids[|ids| - 1] && ids[|ids| - 1] > cursor
  {
    assert ids[|ids| - 1] in ids;
    WantedLater(rows, client, cursor, ids[|ids| - 1]);
  }

  lemma {:induction false} BatchTakes(rows: seq<Row>, client: int, cursor: nat, limit: nat)
    requires ById(rows)
    ensures
      var ids, waiting := Batch(rows, client, cursor, limit), Waiting(rows, client, cursor);
      && |ids| == (if waiting <= limit then waiting else limit)
      && Waiting(rows, client, CursorAfter(ids, cursor)) == waiting - |ids|
  {
    hide Batch, Waiting, IsWantedId;
    if rows == [] || limit == 0 {
      EmptyBatch(rows, client, cursor, limit);
    } else {
      var rest, left := rows[1..], if Wanted(rows[0], client, cursor) then limit - 1 else limit;
      assert forall i | 0 <= i < |rest| :: rest[i] == rows[i + 1];
      BatchFirst(rows, client, cursor, limit);
      BatchTakes(rest, client, cursor, left);
      BatchRises(rest, client, cursor, left);
      var more, ids := Batch(rest, client, cursor, left), Batch(rows, client, cursor, limit);
      WaitingFirst(rows, client, cursor);
      WaitingFirst(rows, client, CursorAfter(ids, cursor));
      if more != [] {
        LastIsWanted(rows, client, cursor, more);
      } else if ids != [] {
        SkipOlder(rest, client, cursor, rows[0].id);
      }
    }
  }

  lemma {:induction false} SkipOlder(rows: seq<Row>, client: int, cursor: nat, newer: nat)
    requires cursor <= newer && forall i | 0 <= i < |rows| :: rows[i].id > newer
    ensures Waiting(rows, client, newer) == Waiting(rows, client, cursor)
  {
    if rows != [] {
      assert forall i | 0 <= i < |rows[1..]| :: rows[1..][i] == rows[i + 1];
      SkipOlder(rows[1..], client, cursor, newer);
    }
  }

  lemma {:induction false} ClaimKeepsWaiting(rows: seq<Row>, a: Action, claimed: seq<nat>, client: int, cursor: nat)
    requires a.Claim?
    ensures Waiting(ChangedAll(rows, a, claimed), client, cursor) == Waiting(rows, client, cursor)
    decreases |rows|
  {
    if rows != [] {
      var n := |rows| - 1;
      ClaimKeepsWaiting(rows[..n], a, claimed, client, cursor);
      assert rows == rows[..n] + [rows[n]];
      WaitingConcat(rows[..n], [rows[n]], client, cursor);
      WaitingConcat(ChangedAll(rows[..n], a, claimed), [Changed(rows[n], a, claimed)], client, cursor);
      assert [rows[n]][1..] == [] && [Changed(rows[n], a, claimed)][1..] == [];
    }
  }

  lemma {:induction false} WaitingConcat(a: seq<Row>, b: seq<Row>, client: int, cursor: nat)
    ensures Waiting(a + b, client, cursor) == Waiting(a, client, cursor) + Waiting(b, client, cursor)
  {
    if a == [] {
      assert a + b == b;
    } else {
      assert (a + b)[1..] == a[1..] + b;
      WaitingConcat(a[1..], b, client, cursor);
    }
  }

  /** A poll hands out exactly `limit` waiting rows, or all there are: polling drains the outbox. */
  lemma PollMakesProgress(w: World, client: int, limit: nat)
    requires Served(w, client)
    ensures
      var next, waiting := Moved(w, client, Poll(limit)), Waiting(w.table.rows, client, w.cursor);
      Waiting(next.table.rows, client, next.cursor) == (if waiting <= limit then 0 else waiting - limit)
  {
    hide Batch, Waiting, ChangedAll;
    BatchTakes(w.table.rows, client, w.cursor, limit);
    var next := Moved(w, client, Poll(limit));
    var a := Claim(client, w.cursor, limit);
    ClaimKeepsWaiting(w.table.rows, a, Claimed(w.table, a), client, next.cursor);
  }

  /** Everything the client got since `w` lies above the cursor it had then. */
  predicate Beyond(w: World, later: World) {
    && w.cursor <= later.cursor && |w.returned| <= |later.returned|
    && later.returned[..|w.returned|] == w.returned
    && forall k | |w.returned| <= k < |later.returned| :: later.returned[k] > w.cursor
  }

  lemma PollGoesBeyond(w: World, now: World, client: int, limit: nat)
    requires Beyond(w, now) && Served(now, client)
    ensures Beyond(w, Moved(now, client, Poll(limit)))
  {
    hide Served, Batch, After;
    CursorNeverFalls(now, client, Poll(limit));
    var ids := Batch(now.table.rows, client, now.cursor, limit);
    NewIdsAreAbove(now, client, limit, ids);
    var all := now.returned + ids;
    assert all[..|w.returned|] == now.returned[..|w.returned|];
    forall k | |w.returned| <= k < |all| ensures all[k] > w.cursor {
      if k < |now.returned| { assert all[k] == now.returned[k]; } else { assert all[k] == ids[k - |now.returned|]; }
    }
  }

  /** A client never gets a row below its cursor again, even when the outbound service puts new text into it. */
  lemma {:induction false} BelowCursorIsOver(w: World, client: int, moves: seq<Move>)
    requires Served(w, client)
    ensures Served(Play(w, client, moves), client) && Beyond(w, Play(w, client, moves))
  {
    if moves != [] {
      hide Served, After, Batch;
      var now, m := Play(w, client, moves[..|moves| - 1]), moves[|moves| - 1];
      BelowCursorIsOver(w, client, moves[..|moves| - 1]);
      match m {
        case Other(a) => OtherServes(now, client, a);
        case Poll(limit) =>
          PollServes(now, client, limit);
          PollGoesBeyond(w, now, client, limit);
      }
    }
  }

  lemma NewIdsAreAbove(w: World, client: int, limit: nat, ids: seq<nat>)
    requires Served(w, client) && ids == Batch(w.table.rows, client, w.cursor, limit)
    ensures forall k | 0 <= k < |ids| :: ids[k] > w.cursor
  {
    BatchRises(w.table.rows, client, w.cursor, limit);
    assert forall k | 0 <= k < |ids| :: ids[k] in ids;
  }

  // ---- Requeued rows ----

  /** A row acknowledged once and requeued since: no statement makes it ACKED again. */
  predicate AckedBefore(row: Row) {
    row.acked && !row.state.Acked?
  }

  lemma RowNeverAckedAgain(row: Row, a: Action, claimed: seq<nat>)
    requires AckedBefore(row)
    ensures AckedBefore(Changed(row, a, claimed))
  {
  }

  lemma StepNeverAcksAgain(t: Table, a: Action, i: nat)
    requires i < |t.rows| && AckedBefore(t.rows[i])
    ensures i < |After(t, a).rows| && AckedBefore(After(t, a).rows[i])
  {
    hide Changed, After, Claimed, AckedBefore;
    AfterAt(t, a, i);
    RowNeverAckedAgain(t.rows[i], a, Claimed(t, a));
  }

  /** The second content of a requeued row can never be acknowledged, whatever follows. */
  lemma {:induction false} NeverAckedAgain(w: World, client: int, moves: seq<Move>, i: nat)
    requires i < |w.table.rows| && AckedBefore(w.table.rows[i])
    ensures
      var later := Play(w, client, moves);
      i < |later.table.rows| && AckedBefore(later.table.rows[i])
  {
    if moves != [] {
      hide After, AckedBefore, Batch;
      var now, m := Play(w, client, moves[..|moves| - 1]), moves[|moves| - 1];
      NeverAckedAgain(w, client, moves[..|moves| - 1], i);
      StepNeverAcksAgain(now.table, if m.Other? then m.action else Claim(client, now.cursor, m.limit), i);
    }
  }

  lemma {:induction false} SomethingWaits(rows: seq<Row>, client: int, cursor: nat, i: nat)
    requires i < |rows| && Wanted(rows[i], client, cursor)
    ensures Waiting(rows, client, cursor) > 0
  {
    hide Wanted;
    if i > 0 { SomethingWaits(rows[1..], client, cursor, i - 1); }
  }

  lemma SameIdSameRow(rows: seq<Row>, i: nat, k: nat)
    requires ById(rows) && i < |rows| && k < |rows| && rows[i].id == rows[k].id
    ensures i == k
  {
  }

  /** A poll that is large enough hands out every wanted row. */
  lemma LargePollIsComplete(rows: seq<Row>, client: int, cursor: nat, limit: nat, i: nat)
    requires ById(rows) && i < |rows| && Waiting(rows, client, cursor) <= limit
    ensures rows[i].id in Batch(rows, client, cursor, limit) <==> Wanted(rows[i], client, cursor)
  {
    hide Batch, Waiting;
    var ids := Batch(rows, client, cursor, limit);
    BatchTakes(rows, client, cursor, limit);
    BatchRises(rows, client, cursor, limit);
    if Wanted(rows[i], client, cursor) {
      if rows[i].id > CursorAfter(ids, cursor) { SomethingWaits(rows, client, CursorAfter(ids, cursor), i); }
      BatchIsComplete(rows, client, cursor, limit, i);
    } else if rows[i].id in ids {
      var k :| 0 <= k < |rows| && rows[k].id == rows[i].id && Wanted(rows[k], client, cursor);
      SameIdSameRow(rows, i, k);
    }
  }

  /**
   Right after a requeue, acknowledged before or not, a poll large enough for what waits hands the row out
   if and only if its id lies above the client's cursor.
   */
  lemma RequeuedIsPolledIff(w: World, client: int, task: int, limit: nat, i: nat)
    requires Served(w, client) && i < |w.table.rows| && Is(w.table.rows[i], client, task)
    requires Waiting(After(w.table, Requeue(client, task)).rows, client, w.cursor) <= limit
    ensures
      w.table.rows[i].id in Batch(After(w.table, Requeue(client, task)).rows, client, w.cursor, limit)
      <==> w.table.rows[i].id > w.cursor
  {
    hide After, Batch, Waiting, Rising;
    var a := Requeue(client, task);
    StepKeepsOutbox(w.table, a);
    AfterAt(w.table, a, i);
    LargePollIsComplete(After(w.table, a).rows, client, w.cursor, limit, i);
  }

  /** The row is as it was requeued, and the client got it if its cursor passed it. */
  ghost predicate Followed(base: World, now: World, client: int, i: nat) {
    && i < |base.table.rows| && i < |now.table.rows|
    && var row := now.table.rows[i];
       && row.connection == client && row.id == base.table.rows[i].id && AckedBefore(row)
       && (base.cursor < row.id <= now.cursor ==> row.id in now.returned)
  }

  lemma StepFollows(base: World, now: World, client: int, m: Move, i: nat)
    requires Served(now, client) && Followed(base, now, client, i)
    ensures Followed(base, Moved(now, client, m), client, i)
  {
    hide After, Batch, Rising, Onward;
    var a := if m.Other? then m.action else Claim(client, now.cursor, m.limit);
    StepKeepsOutbox(now.table, a);
    StepNeverAcksAgain(now.table, a, i);
    if m.Poll? && now.table.rows[i].id > now.cursor {
      var ids := Batch(now.table.rows, client, now.cursor, m.limit);
      if ids != [] && now.table.rows[i].id <= ids[|ids| - 1] {
        BatchIsComplete(now.table.rows, client, now.cursor, m.limit, i);
      }
    }
  }

  lemma {:induction false} RunFollows(base: World, w: World, client: int, moves: seq<Move>, i: nat)
    requires Served(w, client) && Followed(base, w, client, i)
    ensures Served(Play(w, client, moves), client) && Followed(base, Play(w, client, moves), client, i)
  {
    if moves != [] {
      hide Served, Followed, Moved;
      var now, m := Play(w, client, moves[..|moves| - 1]), moves[|moves| - 1];
      RunFollows(base, w, client, moves[..|moves| - 1], i);
      StepFollows(base, now, client, m, i);
      match m {
        case Other(a) => OtherServes(now, client, a);
        case Poll(limit) => PollServes(now, client, limit);
      }
    }
  }

  lemma NewExactlyAbove(base: World, later: World, client: int, id: nat)
    requires Served(base, client) && Served(later, client) && Beyond(base, later)
    requires base.cursor < id <= later.cursor ==> id in later.returned
    ensures id in later.returned[|base.returned|..] <==> base.cursor < id <= later.cursor
  {
    var earlier, newer := later.returned[..|base.returned|], later.returned[|base.returned|..];
    assert later.returned == earlier + newer;
    if id in newer {
      var k :| 0 <= k < |newer| && newer[k] == id;
      assert later.returned[|base.returned| + k] == id && id in later.returned;
    }
  }

  lemma {:induction false} DeliveriesStay(w: World, client: int, moves: seq<Move>, i: nat)
    requires Served(w, client) && i < |w.table.rows|
    ensures
      var later := Play(w, client, moves);
      i < |later.table.rows| && SameDelivery(w.table.rows[i], later.table.rows[i])
  {
    if moves != [] {
      hide After, Batch, Rising, Onward, Served;
      var now, m := Play(w, client, moves[..|moves| - 1]), moves[|moves| - 1];
      DeliveriesStay(w, client, moves[..|moves| - 1], i);
      BelowCursorIsOver(w, client, moves[..|moves| - 1]);
      ServedIsSound(now, client);
      StepKeepsOutbox(now.table, if m.Other? then m.action else Claim(client, now.cursor, m.limit));
    }
  }

  lemma ServedIsSound(w: World, client: int)
    requires Served(w, client)
    ensures Sound(w.table)
  {
  }

  /**
   Over every run after a requeue: the client gets the row again if and only if its id lies above the cursor
   it had at the requeue and its cursor has passed it since. This holds for rows acknowledged before, and for
   the others as long as nobody acknowledges them.
   */
  lemma RequeuedIsHandedOutIff(w: World, client: int, task: int, moves: seq<Move>, i: nat)
    requires Served(w, client) && i < |w.table.rows| && Is(w.table.rows[i], client, task)
    requires
      var later := Play(Moved(w, client, Other(Requeue(client, task))), client, moves);
      w.table.rows[i].acked || (i < |later.table.rows| && !later.table.rows[i].acked)
    ensures
      var later, id := Play(Moved(w, client, Other(Requeue(client, task))), client, moves), w.table.rows[i].id;
      |w.returned| <= |later.returned| && (id in later.returned[|w.returned|..] <==> w.cursor < id <= later.cursor)
  {
    hide After, Batch, Rising, Play;
    var a := Requeue(client, task);
    var requeued := Moved(w, client, Other(a));
    var later := Play(requeued, client, moves);
    OtherServes(w, client, a);
    AfterAt(w.table, a, i);
    BelowCursorIsOver(requeued, client, moves);
    DeliveriesStay(requeued, client, moves, i);
    if w.table.rows[i].acked { RunFollows(w, requeued, client, moves, i); }
    NewExactlyAbove(w, later, client, w.table.rows[i].id);
  }

  // ---- A requeue that is lost ----

  lemma PlayOneMore(w: World, client: int, moves: seq<Move>, m: Move)
    ensures Play(w, client, moves + [m]) == Moved(Play(w, client, moves), client, m)
  {
    hide Moved;
    assert (moves + [m])[..|moves|] == moves;
  }

  function OneRow(state: DeliveryState, acked: bool, cursor: nat, returned: seq<nat>): World {
    World(Table([Row(1, 1, 7, state, acked, 0)], 2), cursor, returned)
  }

  lemma OneRowMoves(row: Row, a: Action)
    requires a.connection == 1 && (a.Claim? || a.task == 7) && row.connection == 1 && row.task == 7
    ensures After(Table([row], 2), a) == Table([Changed(row, a, Claimed(Table([row], 2), a))], 2)
  {
    hide Changed, Claimed;
    if a.Enqueue? || a.Requeue? { assert Has([row], 1, 7) by { assert [row][0] == row; } }
    assert [row][..0] == [] && ChangedAll([], a, Claimed(Table([row], 2), a)) == [];
  }

  lemma OneRowBatch(row: Row, client: int, cursor: nat, limit: nat)
    requires limit > 0
    ensures Batch([row], client, cursor, limit) == if Wanted(row, client, cursor) then [row.id] else []
  {
    assert [row][1..] == [];
  }

  /**
   A reachable requeue that takes an acknowledged delivery back to PENDING: the client, past its id, polls
   on and never gets it.
   */
  lemma RequeuedAfterAckIsMissed()
    ensures
      var moves := [Other(Enqueue(1, 7)), Poll(10), Other(Ack(1, 7)), Other(Requeue(1, 7)), Poll(10)];
      && Play(Start, 1, moves[..3]) == OneRow(Acked, true, 1, [1])
      && Play(Start, 1, moves[..4]) == OneRow(Pending, true, 1, [1])
      && Play(Start, 1, moves) == OneRow(Pending, true, 1, [1])
  {
    var moves := [Other(Enqueue(1, 7)), Poll(10), Other(Ack(1, 7)), Other(Requeue(1, 7)), Poll(10)];
    assert moves[..5] == moves && moves[..4] == moves[..3] + [moves[3]] && moves[..3] == moves[..2] + [moves[2]];
    assert moves[..2] == moves[..1] + [moves[1]] && moves[..1] == [] + [moves[0]] && moves == moves[..4] + [moves[4]];
    PlayOneMore(Start, 1, [], moves[0]);
    PlayOneMore(Start, 1, moves[..1], moves[1]);
    PlayOneMore(Start, 1, moves[..2], moves[2]);
    PlayOneMore(Start, 1, moves[..3], moves[3]);
    PlayOneMore(Start, 1, moves[..4], moves[4]);
    hide Play;
    NothingPlayed();
    OneRowEnqueued();
    OneRowPolled();
    OneRowAcked();
    OneRowPolledAgain();
  }

  lemma NothingPlayed()
    ensures Play(Start, 1, []) == Start
  {
  }

  lemma OneRowEnqueued()
    ensures Moved(Start, 1, Other(Enqueue(1, 7))) == OneRow(Pending, false, 0, [])
  {
  }

  lemma OneRowPolled()
    ensures Moved(OneRow(Pending, false, 0, []), 1, Poll(10)) == OneRow(Delivered, false, 1, [1])
  {
    var row := Row(1, 1, 7, Pending, false, 0);
    OneRowBatch(row, 1, 0, 10);
    OneRowMoves(row, Claim(1, 0, 10));
  }

  lemma OneRowAcked()
    ensures Moved(OneRow(Delivered, false, 1, [1]), 1, Other(Ack(1, 7))) == OneRow(Acked, true, 1, [1])
    ensures Moved(OneRow(Acked, true, 1, [1]), 1, Other(Requeue(1, 7))) == OneRow(Pending, true, 1, [1])
  {
    OneRowMoves(Row(1, 1, 7, Delivered, false, 0), Ack(1, 7));
    OneRowMoves(Row(1, 1, 7, Acked, true, 0), Requeue(1, 7));
  }

  lemma OneRowPolledAgain()
    ensures Moved(OneRow(Pending, true, 1, [1]), 1, Poll(10)) == OneRow(Pending, true, 1, [1])
  {
    var row := Row(1, 1, 7, Pending, true, 0);
    OneRowBatch(row, 1, 1, 10);
    OneRowMoves(row, Claim(1, 1, 10));
    assert [1] + [] == [1];
  }
}
