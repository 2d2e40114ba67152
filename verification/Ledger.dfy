/**
  The durable task ledger: one row a task, and the guarded updates that the
  store's transactions perform.  Each update is a function on the whole table;
  the class TaskStore performs them in place and is proved against them.

  The database clock is a parameter.  A fenced transaction locks the row, reads
  the clock (`now`) and only then evaluates its guard (`at`), so now <= at.
*/
module Ledger {
  import opened Prelude

  type Time = int
  type TaskId = nat
  type RunId = nat
  type Owner = string
  type MessageId = string
  type Commitment = string
  type Artifact = string

  datatype State = Submitted | Working | Completed | Failed | Canceled {
    predicate Terminal() { Completed? || Failed? || Canceled? }
  }

  datatype Row = Row(
    messageId: MessageId,
    commitment: Commitment,
    state: State,
    cancelRequested: bool,
    artifact: Option<Artifact>,
    error: Option<string>,
    runCount: nat,
    runId: Option<RunId>,
    leaseOwner: Option<Owner>,
    leaseExpires: Option<Time>,
    createdAt: Time,
    updatedAt: Time)

  type Table = map<TaskId, Row>

  /** What a run can end with: `complete` stores an artifact, `fail` an error text. */
  datatype Outcome = Success(artifact: Artifact) | Failure(error: string)

  const LEASE_EXPIRED := "research worker lease expired; manual reconciliation required"

  // ----- guards -----------------------------------------------------------

  /** The run holds an unexpired lease on a working row.  A NULL never satisfies an SQL comparison. */
  predicate Leased(row: Row, owner: Owner, run: RunId, at: Time) {
    && row.state.Working?
    && row.leaseOwner == Some(owner)
    && row.runId == Some(run)
    && row.leaseExpires.Some? && row.leaseExpires.value > at
  }

  predicate HoldsLease(rows: Table, id: TaskId, owner: Owner, run: RunId, at: Time) {
    id in rows && Leased(rows[id], owner, run, at)
  }

  /** `run_active`: the fence every checkpoint and every terminal update asks. */
  predicate RunActive(rows: Table, id: TaskId, owner: Owner, run: RunId, at: Time) {
    HoldsLease(rows, id, owner, run, at) && !rows[id].cancelRequested
  }

  predicate Bound(rows: Table, message: MessageId) {
    exists id :: id in rows && rows[id].messageId == message
  }

  predicate Expired(row: Row, at: Time) {
    row.state.Working? && row.leaseExpires.Some? && row.leaseExpires.value <= at
  }

  // ----- updates ----------------------------------------------------------

  function NewRow(message: MessageId, commitment: Commitment, stamp: Time): Row {
    Row(message, commitment, Submitted, false, None, None, 0, None, None, None, stamp, stamp)
  }

  /** The insert half of `reserve`: on conflict with a bound message, do nothing. */
  function Insert(rows: Table, id: TaskId, message: MessageId, commitment: Commitment, stamp: Time): Table {
    if Bound(rows, message) then rows else rows[id := NewRow(message, commitment, stamp)]
  }

  predicate Claimable(rows: Table, id: TaskId) {
    id in rows && rows[id].state.Submitted?
  }

  function Claim(rows: Table, id: TaskId, owner: Owner, run: RunId, lease: Time, now: Time): Table {
    if !Claimable(rows, id) then rows else
      rows[id := rows[id].(state := Working, runCount := rows[id].runCount + 1, runId := Some(run),
                           leaseOwner := Some(owner), leaseExpires := Some(now + lease), updatedAt := now)]
  }

  function Heartbeat(rows: Table, id: TaskId, owner: Owner, run: RunId, lease: Time, now: Time, at: Time): Table {
    if !HoldsLease(rows, id, owner, run, at) then rows else
      rows[id := rows[id].(leaseExpires := Some(now + lease), updatedAt := now)]
  }

  function Finish(rows: Table, id: TaskId, owner: Owner, run: RunId, outcome: Outcome, now: Time, at: Time): Table {
    if !RunActive(rows, id, owner, run, at) then rows else
      rows[id := rows[id].(
        state := if outcome.Success? then Completed else Failed,
        artifact := if outcome.Success? then Some(outcome.artifact) else None,
        error := if outcome.Failure? then Some(outcome.error) else None,
        leaseOwner := None, leaseExpires := None, updatedAt := now)]
  }

  /** First statement of `cancel`. */
  function CancelQueued(rows: Table, id: TaskId, stamp: Time): Table {
    if !(id in rows && rows[id].state.Submitted?) then rows else
      rows[id := rows[id].(state := Canceled, artifact := None, leaseOwner := None,
                           leaseExpires := None, updatedAt := stamp)]
  }

  /** Second statement of `cancel`. */
  function CancelRunning(rows: Table, id: TaskId, stamp: Time): Table {
    if !(id in rows && rows[id].state.Working?) then rows else
      rows[id := rows[id].(cancelRequested := true, updatedAt := stamp)]
  }

  function Acknowledge(rows: Table, id: TaskId, owner: Owner, run: RunId, now: Time, at: Time): Table {
    if !(HoldsLease(rows, id, owner, run, at) && rows[id].cancelRequested) then rows else
      rows[id := rows[id].(state := Canceled, artifact := None, leaseOwner := None,
                           leaseExpires := None, updatedAt := now)]
  }

  function ExpireRow(row: Row, at: Time): Row {
    if !Expired(row, at) then row else
      row.(state := Failed, error := Some(LEASE_EXPIRED), leaseOwner := None, leaseExpires := None, updatedAt := at)
  }

  function Expire(rows: Table, at: Time): Table {
    map id | id in rows :: ExpireRow(rows[id], at)
  }

  /** `ids` lists the submitted tasks, each once, oldest first: the select of `recoverable`. */
  ghost predicate ListsSubmitted(rows: Table, ids: seq<TaskId>) {
    && (forall i, j :: 0 <= i < j < |ids| ==> ids[i] != ids[j])
    && (forall id :: id in ids <==> id in rows && rows[id].state.Submitted?)
    && (forall i, j :: 0 <= i < j < |ids| ==> rows[ids[i]].createdAt <= rows[ids[j]].createdAt)
  }

  /** Loop invariant of the listing: `rest` is what is still to come, all of it at least as young. */
  ghost predicate ListedSoFar(rows: Table, ids: seq<TaskId>, rest: set<TaskId>) {
    && rest <= rows.Keys
    && (forall i, j :: 0 <= i < j < |ids| ==> ids[i] != ids[j])
    && (forall id :: id in ids || id in rest <==> id in rows && rows[id].state.Submitted?)
    && (forall id :: id in ids ==> id !in rest)
    && (forall i, j :: 0 <= i < j < |ids| ==> rows[ids[i]].createdAt <= rows[ids[j]].createdAt)
    && (forall i, id :: 0 <= i < |ids| && id in rest ==> rows[ids[i]].createdAt <= rows[id].createdAt)
  }

  lemma ListNext(rows: Table, ids: seq<TaskId>, rest: set<TaskId>, next: TaskId)
    requires ListedSoFar(rows, ids, rest) && next in rest
    requires forall other :: other in rest ==> rows[next].createdAt <= rows[other].createdAt
    ensures ListedSoFar(rows, ids + [next], rest - {next})
  {
    var more, less := ids + [next], rest - {next};
    assert forall id :: id in more <==> id in ids || id == next;
    forall i, j | 0 <= i < j < |more|
      ensures more[i] != more[j] && rows[more[i]].createdAt <= rows[more[j]].createdAt
    {
      assert more[i] == ids[i] && ids[i] in ids;
      if j < |ids| { assert more[j] == ids[j]; } else { assert more[j] == next; }
    }
  }

  lemma {:induction false} OldestExists(rows: Table, rest: set<TaskId>)
    requires rest != {} && rest <= rows.Keys
    ensures exists id :: id in rest && forall other :: other in rest ==> rows[id].createdAt <= rows[other].createdAt
  {
    var id :| id in rest;
    if rest - {id} == {} {
      assert rest == {id};
    } else {
      OldestExists(rows, rest - {id});
      var o :| o in rest - {id} && forall other :: other in rest - {id} ==> rows[o].createdAt <= rows[other].createdAt;
      var best := if rows[id].createdAt <= rows[o].createdAt then id else o;
      assert best in rest;
      forall other | other in rest ensures rows[best].createdAt <= rows[other].createdAt {
        if other != id { assert other in rest - {id}; }
      }
    }
  }

  /**
    The store.  `clock` is the last value read from the database clock, which
    never runs backwards; a caller passes the values it reads as `now` and `at`.
  */
  class TaskStore {
    var rows: Table
    ghost var clock: Time

    constructor (start: Time)
      ensures rows == map[] && clock == start
    {
      rows := map[];
      clock := start;
    }

    /** First transaction of `reserve`; `stamp` comes from the caller's own clock. */
    method Reserve(id: TaskId, message: MessageId, commitment: Commitment, stamp: Time) returns (created: bool)
      requires id !in rows
      modifies this
      ensures rows == Insert(old(rows), id, message, commitment, stamp)
      ensures created <==> !Bound(old(rows), message)
      ensures clock == old(clock)
    {
      created := !(exists t | t in rows :: rows[t].messageId == message);
      if created {
        rows := rows[id := NewRow(message, commitment, stamp)];
      }
    }

    method ClaimTask(id: TaskId, owner: Owner, run: RunId, lease: Time, now: Time) returns (claimed: Option<RunId>)
      requires clock <= now
      modifies this
      ensures rows == Claim(old(rows), id, owner, run, lease, now) && clock == now
      ensures claimed == if Claimable(old(rows), id) then Some(run) else None
    {
      clock := now;
      claimed := None;
      if id in rows && rows[id].state.Submitted? {
        var row := rows[id];
        rows := rows[id := row.(state := Working, runCount := row.runCount + 1, runId := Some(run),
                                leaseOwner := Some(owner), leaseExpires := Some(now + lease), updatedAt := now)];
        claimed := Some(run);
      }
    }

    method Beat(id: TaskId, owner: Owner, run: RunId, lease: Time, now: Time, at: Time) returns (held: bool)
      requires clock <= now <= at
      modifies this
      ensures rows == Heartbeat(old(rows), id, owner, run, lease, now, at) && clock == at
      ensures held <==> HoldsLease(old(rows), id, owner, run, at)
    {
      clock := at;
      held := id in rows && Leased(rows[id], owner, run, at);
      if held {
        rows := rows[id := rows[id].(leaseExpires := Some(now + lease), updatedAt := now)];
      }
    }

    /** `complete` and `fail` up to their final read; false stands for LeaseLost. */
    method TerminalUpdate(id: TaskId, owner: Owner, run: RunId, outcome: Outcome, now: Time, at: Time) returns (done: bool)
      requires clock <= now <= at
      modifies this
      ensures rows == Finish(old(rows), id, owner, run, outcome, now, at) && clock == at
      ensures done <==> RunActive(old(rows), id, owner, run, at)
    {
      clock := at;
      done := id in rows && Leased(rows[id], owner, run, at) && !rows[id].cancelRequested;
      if done {
        var row := rows[id].(leaseOwner := None, leaseExpires := None, updatedAt := now);
        match outcome
        case Success(a) => rows := rows[id := row.(state := Completed, artifact := Some(a), error := None)];
        case Failure(e) => rows := rows[id := row.(state := Failed, artifact := None, error := Some(e))];
      }
    }

    /** Both statements of `cancel` with nothing between them. */
    method Cancel(id: TaskId, stamp: Time)
      modifies this
      ensures rows == CancelRunning(CancelQueued(old(rows), id, stamp), id, stamp) && clock == old(clock)
    {
      if id in rows && rows[id].state.Submitted? {
        rows := rows[id := rows[id].(state := Canceled, artifact := None, leaseOwner := None,
                                     leaseExpires := None, updatedAt := stamp)];
      }
      if id in rows && rows[id].state.Working? {
        rows := rows[id := rows[id].(cancelRequested := true, updatedAt := stamp)];
      }
    }

    method AcknowledgeCancellation(id: TaskId, owner: Owner, run: RunId, now: Time, at: Time)
      requires clock <= now <= at
      modifies this
      ensures rows == Acknowledge(old(rows), id, owner, run, now, at) && clock == at
    {
      clock := at;
      if id in rows && Leased(rows[id], owner, run, at) && rows[id].cancelRequested {
        rows := rows[id := rows[id].(state := Canceled, artifact := None, leaseOwner := None,
                                     leaseExpires := None, updatedAt := now)];
      }
    }

    method ExpireLeases(at: Time)
      requires clock <= at
      modifies this
      ensures rows == Expire(old(rows), at) && clock == at
    {
      clock := at;
      rows := map id | id in rows :: ExpireRow(rows[id], at);
    }

    /** `recoverable`: expire, then list what is still submitted, oldest first. */
    method Recoverable(at: Time) returns (ids: seq<TaskId>)
      requires clock <= at
      modifies this
      ensures rows == Expire(old(rows), at) && clock == at
      ensures ListsSubmitted(rows, ids)
    {
      ExpireLeases(at);
      var rest := set id | id in rows && rows[id].state.Submitted?;
      ids := [];
      while rest != {}
        invariant rows == Expire(old(rows), at) && clock == at
        invariant ListedSoFar(rows, ids, rest)
        decreases rest
      {
        OldestExists(rows, rest);
        var next :| next in rest && forall other :: other in rest ==> rows[next].createdAt <= rows[other].createdAt;
        ListNext(rows, ids, rest, next);
        ids := ids + [next];
        rest := rest - {next};
      }
    }
  }
}
