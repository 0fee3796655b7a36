/** What each outbox statement does (app/repositories/connections.py), read off the rows. */
module OutboxLaws {
  import opened Results
  import opened Outbox

  /** The pair has a row. */
  ghost predicate Known(rows: seq<Row>, connection: int, task: int) {
    exists row | row in rows :: row.connection == connection && row.task == task
  }

  lemma HasIffKnown(rows: seq<Row>, connection: int, task: int)
    ensures Has(rows, connection, task) <==> Known(rows, connection, task)
  {
    if Has(rows, connection, task) {
      var i :| 0 <= i < |rows| && rows[i].connection == connection && rows[i].task == task;
      assert rows[i] in rows;
    }
  }

  /** The row a statement leaves where `row` was. */
  function Left(row: Row, a: Action, batch: seq<nat>): Row {
    var hit := !a.Claim? && row.connection == a.connection && row.task == a.task;
    match a
    case Enqueue(_, _) => row
    case Requeue(_, _) => if hit then Row(row.id, row.connection, row.task, Pending, row.acked, row.attempts) else row
    case MarkDelivered(_, _) =>
      if hit && row.state == Pending
      then Row(row.id, row.connection, row.task, Delivered, row.acked, row.attempts) else row
    case MarkFailed(_, _) =>
      if hit && row.state == Pending
      then Row(row.id, row.connection, row.task, Pending, row.acked, row.attempts + 1) else row
    case Ack(_, _) =>
      if hit && !row.acked then Row(row.id, row.connection, row.task, Acked, true, row.attempts) else row
    case Claim(_, _, _) =>
      if row.id in batch && row.state == Pending
      then Row(row.id, row.connection, row.task, Delivered, row.acked, row.attempts) else row
  }

  /** An enqueue or a requeue of an unknown pair adds a pending row; every other statement changes rows in place. */
  lemma StatementDoes(t: Table, a: Action)
    requires Sound(t)
    ensures
      var after := After(t, a);
      if (a.Enqueue? || a.Requeue?) && !Known(t.rows, a.connection, a.task) then
        after == Table(t.rows + [Row(t.nextId, a.connection, a.task, Pending, false, 0)], t.nextId + 1)
      else
        && after.nextId == t.nextId && |after.rows| == |t.rows|
        && forall i | 0 <= i < |t.rows| ::
             after.rows[i] == Left(t.rows[i], a, if a.Claim? then Batch(t.rows, a.connection, a.after, a.limit) else [])
  {
    if !a.Claim? { HasIffKnown(t.rows, a.connection, a.task); }
    var batch := if a.Claim? then Batch(t.rows, a.connection, a.after, a.limit) else [];
    if !((a.Enqueue? || a.Requeue?) && !Known(t.rows, a.connection, a.task)) {
      forall i | 0 <= i < |t.rows| ensures After(t, a).rows[i] == Left(t.rows[i], a, batch) {
        hide After;
        AfterAt(t, a, i);
        if a.Claim? { ClaimedRowIs(t, a, i); }
      }
    }
  }

  lemma ClaimedRowIs(t: Table, a: Action, i: nat)
    requires Sound(t) && a.Claim? && i < |t.rows|
    ensures Changed(t.rows[i], a, Claimed(t, a)) == Left(t.rows[i], a, Batch(t.rows, a.connection, a.after, a.limit))
  {
    BatchRises(t.rows, a.connection, a.after, a.limit);
    if t.rows[i].id in Batch(t.rows, a.connection, a.after, a.limit) {
      hide Batch;
      var k :| 0 <= k < |t.rows| && t.rows[k].id == t.rows[i].id && Wanted(t.rows[k], a.connection, a.after);
      SameRowById(t, i, k);
    }
  }

  lemma SameRowById(t: Table, i: nat, k: nat)
    requires Sound(t) && i < |t.rows| && k < |t.rows| && t.rows[i].id == t.rows[k].id
    ensures i == k
  {
  }

  // ---- The batch ----

  /** A row of the connection beyond the cursor that is not acknowledged. */
  predicate Eligible(row: Row, connection: int, after: nat) {
    row.connection == connection && row.id > after && row.state in {Pending, Delivered}
  }

  /** How many of the first n rows are. */
  function EligibleBefore(rows: seq<Row>, connection: int, after: nat, n: nat): nat
    requires n <= |rows|
  {
    if n == 0 then 0
    else EligibleBefore(rows, connection, after, n - 1) + (if Eligible(rows[n - 1], connection, after) then 1 else 0)
  }

  lemma {:induction false} CountFromFirst(rows: seq<Row>, connection: int, after: nat, n: nat)
    requires n < |rows|
    ensures EligibleBefore(rows, connection, after, n + 1)
      == (if Eligible(rows[0], connection, after) then 1 else 0) + EligibleBefore(rows[1..], connection, after, n)
  {
    hide Eligible;
    if n > 0 {
      CountFromFirst(rows, connection, after, n - 1);
      assert rows[1..][n - 1] == rows[n];
    }
  }

  /** The row at `i` is among the first `limit` eligible ones. */
  ghost predicate InFirst(rows: seq<Row>, connection: int, after: nat, limit: nat, i: nat) {
    i < |rows| && Eligible(rows[i], connection, after) && EligibleBefore(rows, connection, after, i) < limit
  }

  lemma FirstAmong(rows: seq<Row>, connection: int, after: nat, limit: nat, i: nat)
    requires rows != [] && limit > 0
    ensures
      var left := if Eligible(rows[0], connection, after) then limit - 1 else limit;
      InFirst(rows, connection, after, limit, i)
      <==> if i == 0 then Eligible(rows[0], connection, after) else InFirst(rows[1..], connection, after, left, i - 1)
  {
    hide Eligible;
    if 0 < i < |rows| {
      CountFromFirst(rows, connection, after, i - 1);
      assert rows[1..][i - 1] == rows[i];
    }
  }

  /** `id` is that of one of the first `limit` eligible rows. */
  ghost predicate AmongFirst(rows: seq<Row>, connection: int, after: nat, limit: nat, id: nat) {
    exists i: nat :: InFirst(rows, connection, after, limit, i) && rows[i].id == id
  }

  lemma AmongFirstOneMore(rows: seq<Row>, connection: int, after: nat, limit: nat, id: nat)
    requires rows != [] && limit > 0
    ensures
      var first := Eligible(rows[0], connection, after);
      AmongFirst(rows, connection, after, limit, id)
      <==>
        || (first && rows[0].id == id)
        || AmongFirst(rows[1..], connection, after, if first then limit - 1 else limit, id)
  {
    hide EligibleBefore, Eligible;
    var left := if Eligible(rows[0], connection, after) then limit - 1 else limit;
    FirstAmong(rows, connection, after, limit, 0);
    if AmongFirst(rows, connection, after, limit, id) {
      var i: nat :| InFirst(rows, connection, after, limit, i) && rows[i].id == id;
      FirstAmong(rows, connection, after, limit, i);
      if i > 0 { SameRow(rows, connection, after, left, i - 1); }
    }
    if AmongFirst(rows[1..], connection, after, left, id) {
      var j: nat :| InFirst(rows[1..], connection, after, left, j) && rows[1..][j].id == id;
      FirstAmong(rows, connection, after, limit, j + 1);
      SameRow(rows, connection, after, left, j);
    }
  }

  lemma SameRow(rows: seq<Row>, connection: int, after: nat, limit: nat, j: nat)
    requires rows != [] && InFirst(rows[1..], connection, after, limit, j)
    ensures j + 1 < |rows| && rows[1..][j] == rows[j + 1]
  {
  }

  lemma {:induction false} BatchHas(rows: seq<Row>, connection: int, after: nat, limit: nat, id: nat)
    ensures id in Batch(rows, connection, after, limit) <==> AmongFirst(rows, connection, after, limit, id)
  {
    if rows != [] && limit > 0 {
      hide AmongFirst;
      BatchHas(rows[1..], connection, after, if Wanted(rows[0], connection, after) then limit - 1 else limit, id);
      AmongFirstOneMore(rows, connection, after, limit, id);
    }
  }

  /** A poll hands out, in rising order, exactly the first `limit` eligible rows of its connection. */
  lemma PollHandsOut(t: Table, connection: int, after: nat, limit: nat)
    requires Sound(t)
    ensures Rising(Batch(t.rows, connection, after, limit))
    ensures forall id ::
      id in Batch(t.rows, connection, after, limit) <==> AmongFirst(t.rows, connection, after, limit, id)
  {
    hide AmongFirst, Batch;
    BatchRises(t.rows, connection, after, limit);
    forall id
      ensures id in Batch(t.rows, connection, after, limit) <==> AmongFirst(t.rows, connection, after, limit, id)
    {
      BatchHas(t.rows, connection, after, limit, id);
    }
  }
}
