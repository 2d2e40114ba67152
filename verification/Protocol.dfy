/**
  The ledger as a transition system: any number of API callers, workers,
  heartbeats and sweepers, each step one database transaction (the two
  statements of `cancel` and the two transactions of `reserve` are separate
  steps).  Callers may pass any task, owner and run, so every theorem here holds
  under every interleaving, of well-behaved callers or not.
*/
module Protocol {
  import opened Prelude
  import opened Ledger

  /** Task and run ids are drawn fresh: `born` and `issued` are the first unused ones. */
  datatype Db = Db(rows: Table, clock: Time, born: TaskId, issued: RunId)

  datatype Action =
    | Tick(to: Time)
    | Reserve(message: MessageId, commitment: Commitment, stamp: Time)
    | TryClaim(id: TaskId, owner: Owner, lease: Time, now: Time)
    | Beat(id: TaskId, owner: Owner, run: RunId, lease: Time, now: Time, at: Time)
    | End(id: TaskId, owner: Owner, run: RunId, outcome: Outcome, now: Time, at: Time)
    | StopQueued(id: TaskId, stamp: Time)
    | StopRunning(id: TaskId, stamp: Time)
    | Ack(id: TaskId, owner: Owner, run: RunId, now: Time, at: Time)
    | Sweep(at: Time)

  const EMPTY := Db(map[], 0, 0, 0)

  /** The clock is monotone, and a fenced step reads `now` before it evaluates its guard. */
  predicate Enabled(l: Db, a: Action) {
    match a
    case Tick(to) => l.clock <= to
    case TryClaim(_, _, _, now) => l.clock <= now
    case Beat(_, _, _, _, now, at) => l.clock <= now <= at
    case End(_, _, _, _, now, at) => l.clock <= now <= at
    case Ack(_, _, _, now, at) => l.clock <= now <= at
    case Sweep(at) => l.clock <= at
    case _ => true
  }

  function Apply(l: Db, a: Action): Db {
    match a
    case Tick(to) => l.(clock := to)
    case Reserve(m, c, stamp) => l.(rows := Insert(l.rows, l.born, m, c, stamp), born := l.born + 1)
    case TryClaim(id, owner, lease, now) =>
      l.(rows := Claim(l.rows, id, owner, l.issued, lease, now), clock := now, issued := l.issued + 1)
    case Beat(id, owner, run, lease, now, at) =>
      l.(rows := Heartbeat(l.rows, id, owner, run, lease, now, at), clock := at)
    case End(id, owner, run, outcome, now, at) =>
      l.(rows := Finish(l.rows, id, owner, run, outcome, now, at), clock := at)
    case StopQueued(id, stamp) => l.(rows := CancelQueued(l.rows, id, stamp))
    case StopRunning(id, stamp) => l.(rows := CancelRunning(l.rows, id, stamp))
    case Ack(id, owner, run, now, at) => l.(rows := Acknowledge(l.rows, id, owner, run, now, at), clock := at)
    case Sweep(at) => l.(rows := Expire(l.rows, at), clock := at)
  }

  /** m is reached from l by performing acts, each enabled in its turn. */
  ghost predicate Steps(l: Db, acts: seq<Action>, m: Db)
    decreases |acts|
  {
    if acts == [] then l == m else Enabled(l, acts[0]) && Steps(Apply(l, acts[0]), acts[1..], m)
  }

  lemma {:induction false} StepsAppend(l: Db, a: seq<Action>, m: Db, b: seq<Action>, n: Db)
    requires Steps(l, a, m) && Steps(m, b, n)
    ensures Steps(l, a + b, n)
    decreases |a|
  {
    if a == [] {
      assert a + b == b;
    } else {
      StepsAppend(Apply(l, a[0]), a[1..], m, b, n);
      assert (a + b)[1..] == a[1..] + b;
    }
  }

  // ----- the invariant ----------------------------------------------------

  /** What each state says about the other columns of its row. */
  predicate RowInv(row: Row) {
    && (row.runId.Some? <==> row.runCount == 1) && row.runCount <= 1
    && (row.leaseOwner.Some? <==> row.state.Working?) && (row.leaseExpires.Some? <==> row.state.Working?)
    && (row.artifact.Some? <==> row.state.Completed?) && (row.error.Some? <==> row.state.Failed?)
    && (row.cancelRequested ==> row.runCount == 1 && !row.state.Completed?)
    && (row.state.Submitted? ==> row.runCount == 0)
    && (row.state.Working? || row.state.Completed? || row.state.Failed? ==> row.runCount == 1)
    && (row.state.Canceled? ==> (row.cancelRequested <==> row.runCount == 1))
  }

  ghost predicate Inv(l: Db) {
    && (forall id :: id in l.rows ==> id < l.born && RowInv(l.rows[id]))
    && (forall id :: id in l.rows && l.rows[id].runId.Some? ==> l.rows[id].runId.value < l.issued)
    && (forall i, j :: i in l.rows && j in l.rows && i != j ==> l.rows[i].messageId != l.rows[j].messageId)
    && (forall i, j :: i in l.rows && j in l.rows && i != j && l.rows[i].runId.Some? ==> l.rows[i].runId != l.rows[j].runId)
  }

  /** The invariant survives a change of one row that keeps its identity and draws its run fresh. */
  lemma UpdateKeepsInv(l: Db, m: Db, id: TaskId, row: Row)
    requires Inv(l) && id in l.rows && m.rows == l.rows[id := row]
    requires l.born <= m.born && l.issued <= m.issued
    requires RowInv(row) && row.messageId == l.rows[id].messageId
    requires row.runId == l.rows[id].runId || (row.runId == Some(l.issued) && l.issued < m.issued)
    ensures Inv(m)
  {
  }

  lemma InsertKeepsInv(l: Db, message: MessageId, commitment: Commitment, stamp: Time)
    requires Inv(l)
    ensures Inv(Apply(l, Reserve(message, commitment, stamp)))
  {
  }

  lemma ExpiryKeepsRow(row: Row, at: Time)
    requires RowInv(row)
    ensures RowInv(ExpireRow(row, at))
    ensures ExpireRow(row, at).messageId == row.messageId && ExpireRow(row, at).runId == row.runId
  {
  }

  lemma SweepKeepsInv(l: Db, at: Time)
    requires Inv(l)
    ensures Inv(Apply(l, Sweep(at)))
  {
    var swept := Expire(l.rows, at);
    forall id | id in l.rows
      ensures RowInv(swept[id]) && swept[id].messageId == l.rows[id].messageId && swept[id].runId == l.rows[id].runId
    {
      ExpiryKeepsRow(l.rows[id], at);
    }
  }

  lemma StepKeepsInv(l: Db, a: Action)
    requires Inv(l) && Enabled(l, a)
    ensures Inv(Apply(l, a))
  {
    var m := Apply(l, a);
    match a
    case Tick(_) =>
    case Reserve(message, commitment, stamp) => InsertKeepsInv(l, message, commitment, stamp);
    case Sweep(at) => SweepKeepsInv(l, at);
    case TryClaim(id, _, _, _) => if m.rows != l.rows { UpdateKeepsInv(l, m, id, m.rows[id]); }
    case Beat(id, _, _, _, _, _) => if m.rows != l.rows { UpdateKeepsInv(l, m, id, m.rows[id]); }
    case End(id, _, _, _, _, _) => if m.rows != l.rows { UpdateKeepsInv(l, m, id, m.rows[id]); }
    case StopQueued(id, _) => if m.rows != l.rows { UpdateKeepsInv(l, m, id, m.rows[id]); }
    case StopRunning(id, _) => if m.rows != l.rows { UpdateKeepsInv(l, m, id, m.rows[id]); }
    case Ack(id, _, _, _, _) => if m.rows != l.rows { UpdateKeepsInv(l, m, id, m.rows[id]); }
  }

  lemma {:induction false} StepsKeepInv(l: Db, acts: seq<Action>, m: Db)
    requires Inv(l) && Steps(l, acts, m)
    ensures Inv(m) && l.issued <= m.issued && l.clock <= m.clock && l.rows.Keys <= m.rows.Keys
    decreases |acts|
  {
    if acts != [] {
      StepKeepsInv(l, acts[0]);
      StepsKeepInv(Apply(l, acts[0]), acts[1..], m);
    }
  }

  /** Every reachable store satisfies the invariant. */
  lemma ReachableInv(acts: seq<Action>, m: Db)
    requires Steps(EMPTY, acts, m)
    ensures Inv(m)
  {
    StepsKeepInv(EMPTY, acts, m);
  }

  // ----- the fence --------------------------------------------------------

  predicate FenceOpen(l: Db, id: TaskId, owner: Owner, run: RunId) {
    RunActive(l.rows, id, owner, run, l.clock)
  }

  predicate LeaseHeld(l: Db, id: TaskId, owner: Owner, run: RunId) {
    HoldsLease(l.rows, id, owner, run, l.clock)
  }

  lemma StepKeepsFenceClosed(l: Db, a: Action, id: TaskId, owner: Owner, run: RunId)
    requires Inv(l) && Enabled(l, a) && run < l.issued
    ensures !LeaseHeld(l, id, owner, run) ==> !LeaseHeld(Apply(l, a), id, owner, run)
    ensures !FenceOpen(l, id, owner, run) ==> !FenceOpen(Apply(l, a), id, owner, run)
  {
  }

  /** Once closed for an issued run, the fence stays closed; once lost, a lease is never revived. */
  lemma {:induction false} FenceIsSticky(l: Db, acts: seq<Action>, m: Db, id: TaskId, owner: Owner, run: RunId)
    requires Inv(l) && Steps(l, acts, m) && run < l.issued
    ensures !LeaseHeld(l, id, owner, run) ==> !LeaseHeld(m, id, owner, run)
    ensures !FenceOpen(l, id, owner, run) ==> !FenceOpen(m, id, owner, run)
    decreases |acts|
  {
    if acts != [] {
      StepKeepsInv(l, acts[0]);
      StepKeepsFenceClosed(l, acts[0], id, owner, run);
      FenceIsSticky(Apply(l, acts[0]), acts[1..], m, id, owner, run);
    }
  }

  /** An `End` that succeeds proves that every earlier checkpoint since the claim would have passed. */
  lemma SuccessImpliesCheckpoints(l: Db, acts: seq<Action>, m: Db, end: Action)
    requires Inv(l) && Steps(l, acts, m) && end.End? && Enabled(m, end) && end.run < l.issued
    requires Apply(m, end).rows != m.rows
    ensures FenceOpen(l, end.id, end.owner, end.run)
  {
    FenceIsSticky(l, acts, m, end.id, end.owner, end.run);
    StepsKeepInv(l, acts, m);
  }

  // ----- one claim, frozen ends -------------------------------------------

  /** How many of the acts, performed from l, claim the task successfully. */
  function Claims(l: Db, acts: seq<Action>, id: TaskId): nat
    decreases |acts|
  {
    if acts == [] then 0 else
      (if acts[0].TryClaim? && acts[0].id == id && Claimable(l.rows, id) then 1 else 0)
      + Claims(Apply(l, acts[0]), acts[1..], id)
  }

  lemma ClaimRaisesRunCount(l: Db, a: Action, id: TaskId)
    requires Inv(l) && Enabled(l, a)
    ensures id in l.rows ==>
              id in Apply(l, a).rows && Apply(l, a).rows[id].runCount == l.rows[id].runCount + Claims(l, [a], id)
    ensures id !in l.rows && id in Apply(l, a).rows ==> Apply(l, a).rows[id].runCount == 0
    ensures id !in l.rows ==> Claims(l, [a], id) == 0
  {
  }

  /** The row's counter counts exactly the successful claims. */
  lemma {:induction false} RunCountCountsClaims(l: Db, acts: seq<Action>, m: Db, id: TaskId)
    requires Inv(l) && Steps(l, acts, m)
    ensures id in m.rows ==>
              m.rows[id].runCount == (if id in l.rows then l.rows[id].runCount else 0) + Claims(l, acts, id)
    ensures id !in m.rows ==> Claims(l, acts, id) == 0
    decreases |acts|
  {
    if acts != [] {
      StepKeepsInv(l, acts[0]);
      ClaimRaisesRunCount(l, acts[0], id);
      RunCountCountsClaims(Apply(l, acts[0]), acts[1..], m, id);
      StepsKeepInv(Apply(l, acts[0]), acts[1..], m);
    }
  }

  /** Whatever the queue entries, restarts and competing workers, a task is claimed at most once. */
  lemma AtMostOneClaim(acts: seq<Action>, m: Db, id: TaskId)
    requires Steps(EMPTY, acts, m)
    ensures Claims(EMPTY, acts, id) <= 1
  {
    RunCountCountsClaims(EMPTY, acts, m, id);
    ReachableInv(acts, m);
  }

  /** What a later row keeps of an earlier one: its submission, its run, its owner while it has one, and any cancel request. */
  predicate SameTask(was: Row, now: Row) {
    && now.messageId == was.messageId && now.commitment == was.commitment && now.createdAt == was.createdAt
    && (was.runId.Some? ==> now.runId == was.runId)
    && (!was.state.Submitted? ==> !now.state.Submitted?)
    && (was.cancelRequested ==> now.cancelRequested)
    && (was.runId.Some? && now.leaseOwner.Some? ==> now.leaseOwner == was.leaseOwner)
    && (was.state.Terminal() ==> now == was)
  }

  lemma StepKeepsTask(l: Db, a: Action, id: TaskId)
    requires Inv(l) && Enabled(l, a) && id in l.rows
    ensures id in Apply(l, a).rows && SameTask(l.rows[id], Apply(l, a).rows[id])
  {
  }

  /** A row in a terminal state is frozen: not only the state, no column ever changes. */
  lemma {:induction false} TerminalRowsAreFrozen(l: Db, acts: seq<Action>, m: Db, id: TaskId)
    requires Inv(l) && Steps(l, acts, m) && id in l.rows && l.rows[id].state.Terminal()
    ensures id in m.rows && m.rows[id] == l.rows[id]
    decreases |acts|
  {
    if acts != [] {
      StepKeepsInv(l, acts[0]);
      StepKeepsTask(l, acts[0], id);
      TerminalRowsAreFrozen(Apply(l, acts[0]), acts[1..], m, id);
    }
  }

  /** A task keeps its message, commitment and, once claimed, its run; it never becomes submitted again. */
  lemma {:induction false} IdentityIsStable(l: Db, acts: seq<Action>, m: Db, id: TaskId)
    requires Inv(l) && Steps(l, acts, m) && id in l.rows
    ensures id in m.rows && SameTask(l.rows[id], m.rows[id])
    decreases |acts|
  {
    if acts != [] {
      var l' := Apply(l, acts[0]);
      StepKeepsInv(l, acts[0]);
      StepKeepsTask(l, acts[0], id);
      IdentityIsStable(l', acts[1..], m, id);
      SameTaskChains(l.rows[id], l'.rows[id], m.rows[id]);
    }
  }

  /** The rows in between keep the lease's owner: an owner is there exactly while the row works. */
  lemma SameTaskChains(a: Row, b: Row, c: Row)
    requires SameTask(a, b) && SameTask(b, c) && RowInv(a) && RowInv(b)
    ensures SameTask(a, c)
  {
  }

  /** A resend finds the one task its message is bound to, with the commitment of the first send. */
  lemma ReservationIsIdempotent(l: Db, first: Action, acts: seq<Action>, m: Db, again: Action)
    requires Inv(l) && first.Reserve? && again.Reserve? && again.message == first.message
    requires Steps(Apply(l, first), acts, m)
    ensures Apply(m, again).rows == m.rows
    ensures exists id :: id in Apply(l, first).rows && id in m.rows && m.rows[id].messageId == again.message
                         && m.rows[id].commitment == Apply(l, first).rows[id].commitment
                         && (!Bound(l.rows, first.message) ==> m.rows[id].commitment == first.commitment)
    ensures forall i, j :: i in m.rows && j in m.rows && m.rows[i].messageId == m.rows[j].messageId ==> i == j
  {
    var l' := Apply(l, first);
    StepKeepsInv(l, first);
    StepsKeepInv(l', acts, m);
    if Bound(l.rows, first.message) {
      var id :| id in l.rows && l.rows[id].messageId == first.message;
      IdentityIsStable(l', acts, m, id);
    } else {
      assert l'.rows[l.born].messageId == first.message;
      IdentityIsStable(l', acts, m, l.born);
    }
  }

  // ----- cancellation -----------------------------------------------------

  /** A claimed task becomes canceled only when its own owner acknowledges a request under a live lease. */
  lemma CanceledOnlyByItsOwner(l: Db, a: Action, id: TaskId)
    requires Inv(l) && Enabled(l, a) && id in l.rows
    requires l.rows[id].runCount == 1 && !l.rows[id].state.Canceled?
    requires Apply(l, a).rows[id].state.Canceled?
    ensures a.Ack? && a.id == id && l.rows[id].cancelRequested
    ensures l.rows[id].leaseOwner == Some(a.owner) && l.rows[id].runId == Some(a.run)
    ensures Leased(l.rows[id], a.owner, a.run, a.at)
  {
  }

  ghost predicate CancelSettled(row: Row) {
    row.state.Terminal() || (row.state.Working? && row.cancelRequested)
  }

  lemma {:induction false} SettledNeverCompletes(l: Db, acts: seq<Action>, m: Db, id: TaskId)
    requires Inv(l) && Steps(l, acts, m) && id in l.rows
    requires CancelSettled(l.rows[id]) && !l.rows[id].state.Completed?
    ensures id in m.rows && CancelSettled(m.rows[id]) && !m.rows[id].state.Completed?
    decreases |acts|
  {
    if acts != [] {
      StepKeepsInv(l, acts[0]);
      SettledNeverCompletes(Apply(l, acts[0]), acts[1..], m, id);
    }
  }

  /**
    Once both statements of `cancel` have run, with any steps between them
    (a claim included), a task that has not completed by then never completes.
  */
  lemma CancelPreventsCompletion(l: Db, id: TaskId, s1: Time, mid: seq<Action>, k: Db, s2: Time,
                                 rest: seq<Action>, m: Db)
    requires Inv(l) && id in l.rows
    requires Steps(Apply(l, StopQueued(id, s1)), mid, k)
    requires Steps(Apply(k, StopRunning(id, s2)), rest, m)
    requires id in k.rows ==> !k.rows[id].state.Completed?
    ensures id in m.rows && !m.rows[id].state.Completed?
  {
    StepKeepsInv(l, StopQueued(id, s1));
    IdentityIsStable(Apply(l, StopQueued(id, s1)), mid, k, id);
    StepsKeepInv(Apply(l, StopQueued(id, s1)), mid, k);
    StepKeepsInv(k, StopRunning(id, s2));
    SettledNeverCompletes(Apply(k, StopRunning(id, s2)), rest, m, id);
  }

  // ----- keeping a run alive ----------------------------------------------

  /** When the run's lease ends, after this step: a heartbeat of the run moves it. */
  function Due(due: Time, id: TaskId, owner: Owner, run: RunId, a: Action): Time {
    if a.Beat? && a.id == id && a.owner == owner && a.run == run then a.now + a.lease else due
  }

  /** The step neither ends the run nor asks to cancel it. */
  predicate LeavesRunAlone(id: TaskId, owner: Owner, run: RunId, a: Action) {
    match a
    case End(t, o, r, _, _, _) => t != id || o != owner || r != run
    case Ack(t, o, r, _, _) => t != id || o != owner || r != run
    case StopRunning(t, _) => t != id
    case _ => true
  }

  /** Time never reaches the end of the lease as the heartbeats so far have set it. */
  ghost predicate Punctual(l: Db, due: Time, id: TaskId, owner: Owner, run: RunId, acts: seq<Action>)
    decreases |acts|
  {
    acts == [] ||
    (var next := Apply(l, acts[0]);
     && next.clock < due && next.clock < Due(due, id, owner, run, acts[0])
     && Punctual(next, Due(due, id, owner, run, acts[0]), id, owner, run, acts[1..]))
  }

  function LastDue(due: Time, id: TaskId, owner: Owner, run: RunId, acts: seq<Action>): Time
    decreases |acts|
  {
    if acts == [] then due else LastDue(Due(due, id, owner, run, acts[0]), id, owner, run, acts[1..])
  }

  /** The run is active and its lease ends at `due`. */
  predicate AliveUntil(l: Db, id: TaskId, owner: Owner, run: RunId, due: Time) {
    RunActive(l.rows, id, owner, run, l.clock) && l.rows[id].leaseExpires == Some(due)
  }

  lemma StepKeepsAlive(l: Db, a: Action, id: TaskId, owner: Owner, run: RunId, due: Time)
    requires Inv(l) && Enabled(l, a) && AliveUntil(l, id, owner, run, due) && LeavesRunAlone(id, owner, run, a)
    requires Apply(l, a).clock < due && Apply(l, a).clock < Due(due, id, owner, run, a)
    ensures AliveUntil(Apply(l, a), id, owner, run, Due(due, id, owner, run, a))
  {
  }

  /**
    A run whose heartbeats come in time stays active, whatever sweepers, other
    workers and submitters do, until it ends itself or someone asks to cancel it.
  */
  lemma {:induction false} HeartbeatsKeepRunAlive(l: Db, acts: seq<Action>, e: Db, id: TaskId, owner: Owner, run: RunId, due: Time)
    requires Inv(l) && Steps(l, acts, e) && AliveUntil(l, id, owner, run, due)
    requires Punctual(l, due, id, owner, run, acts)
    requires forall i :: 0 <= i < |acts| ==> LeavesRunAlone(id, owner, run, acts[i])
    ensures AliveUntil(e, id, owner, run, LastDue(due, id, owner, run, acts))
    decreases |acts|
  {
    if acts != [] {
      StepKeepsInv(l, acts[0]);
      StepKeepsAlive(l, acts[0], id, owner, run, due);
      HeartbeatsKeepRunAlive(Apply(l, acts[0]), acts[1..], e, id, owner, run, Due(due, id, owner, run, acts[0]));
    }
  }

  // ----- the life of a row, told from its columns alone ---------------------

  /** The columns of the row say that it works for this run until some later time. */
  predicate RunsAt(row: Row, owner: Owner, run: RunId, at: Time) {
    && row.state == Working && row.leaseOwner == Some(owner) && row.runId == Some(run)
    && row.leaseExpires.Some? && at < row.leaseExpires.value
  }

  /** Rows appear for unbound messages only, submitted, unclaimed and stamped; none disappears. */
  lemma {:induction false} RowsAppear(l: Db, a: Action, id: TaskId)
    requires Inv(l) && Enabled(l, a)
    ensures id in l.rows ==> id in Apply(l, a).rows
    ensures id !in l.rows && id in Apply(l, a).rows <==>
              a.Reserve? && id == l.born && forall other :: other in l.rows ==> l.rows[other].messageId != a.message
    ensures id !in l.rows && id in Apply(l, a).rows ==>
              Apply(l, a).rows[id]
              == Row(a.message, a.commitment, Submitted, false, None, None, 0, None, None, None, a.stamp, a.stamp)
  {
  }

  /** What makes a submitted row leave its state, and what it is then. */
  lemma {:induction false} SubmittedRowMoves(l: Db, a: Action, id: TaskId)
    requires Inv(l) && Enabled(l, a) && id in l.rows && l.rows[id].state == Submitted
    ensures id in Apply(l, a).rows
    ensures var row, next := l.rows[id], Apply(l, a).rows[id];
            && (next.state == Working <==> a.TryClaim? && a.id == id)
            && (next.state == Working ==> RunsAt(next, a.owner, l.issued, a.now + a.lease - 1)
                                          && !RunsAt(next, a.owner, l.issued, a.now + a.lease) && next.updatedAt == a.now)
            && (next.state == Canceled <==> a.StopQueued? && a.id == id)
            && (next.state == Canceled ==> next == row.(state := Canceled, updatedAt := a.stamp))
            && (next.state != Working && next.state != Canceled ==> next == row)
  {
  }

  /** What makes a working row leave its state: the lease and the cancel request decide, to the moment. */
  lemma {:induction false} WorkingRowEnds(l: Db, a: Action, id: TaskId)
    requires Inv(l) && Enabled(l, a) && id in l.rows && l.rows[id].state == Working
    ensures id in Apply(l, a).rows
    ensures var row, next := l.rows[id], Apply(l, a).rows[id];
            var mine := (a.End? || a.Ack?) && a.id == id && RunsAt(row, a.owner, a.run, a.at);
            var swept := a.Sweep? && !RunsAt(row, row.leaseOwner.value, row.runId.value, a.at);
            && (next.state == Completed <==> mine && a.End? && !row.cancelRequested && a.outcome.Success?)
            && (next.state == Failed <==> swept || (mine && a.End? && !row.cancelRequested && a.outcome.Failure?))
            && (next.state == Canceled <==> mine && a.Ack? && row.cancelRequested)
            && next.state != Submitted
            && (next.state == Completed ==> next.artifact == Some(a.outcome.artifact))
            && (next.state == Failed ==> next.error == Some(if swept then LEASE_EXPIRED else a.outcome.error))
            && (next.state != Working ==> next.updatedAt == if swept then a.at else a.now)
  {
  }

  /** What may change while a row works: a heartbeat sets its lease anew, a cancel request is noted. */
  lemma {:induction false} WorkingRowChanges(l: Db, a: Action, id: TaskId)
    requires Inv(l) && Enabled(l, a) && id in l.rows && l.rows[id].state == Working
    requires id in Apply(l, a).rows && Apply(l, a).rows[id].state == Working
    ensures var row, next := l.rows[id], Apply(l, a).rows[id];
            var beats := a.Beat? && a.id == id && RunsAt(row, a.owner, a.run, a.at);
            var asked := a.StopRunning? && a.id == id;
            && next.leaseExpires == (if beats then Some(a.now + a.lease) else row.leaseExpires)
            && next.cancelRequested == (row.cancelRequested || asked)
            && next == row.(leaseExpires := next.leaseExpires, cancelRequested := next.cancelRequested, updatedAt := next.updatedAt)
            && next.updatedAt == if beats then a.now else if asked then a.stamp else row.updatedAt
  {
  }

  /** No heartbeat, end or acknowledgement of this run. */
  predicate Untouched(id: TaskId, run: RunId, a: Action) {
    a.Beat? || a.End? || a.Ack? ==> a.id != id || a.run != run
  }

  /** No sweep among the acts comes at or past the time. */
  predicate SweptBefore(acts: seq<Action>, due: Time) {
    forall i :: 0 <= i < |acts| && acts[i].Sweep? ==> acts[i].at < due
  }

  lemma {:induction false} LeaseRunsOut(l: Db, acts: seq<Action>, m: Db, id: TaskId, owner: Owner, run: RunId, due: Time)
    requires Inv(l) && Steps(l, acts, m) && id in l.rows && l.rows[id].state == Working
    requires l.rows[id].leaseOwner == Some(owner) && l.rows[id].runId == Some(run) && l.rows[id].leaseExpires == Some(due)
    requires forall i :: 0 <= i < |acts| ==> Untouched(id, run, acts[i])
    ensures id in m.rows
    ensures if SweptBefore(acts, due)
            then m.rows[id].state == Working && m.rows[id].leaseExpires == Some(due)
            else m.rows[id].state == Failed && m.rows[id].error == Some(LEASE_EXPIRED)
    decreases |acts|
  {
    if acts != [] {
      var a, k := acts[0], Apply(l, acts[0]);
      StepKeepsInv(l, a);
      WorkingRowEnds(l, a, id);
      SweptSplit(acts, due);
      if k.rows[id].state == Working {
        WorkingRowChanges(l, a, id);
        LeaseRunsOut(k, acts[1..], m, id, owner, run, due);
      } else {
        TerminalRowsAreFrozen(k, acts[1..], m, id);
      }
    }
  }

  lemma {:induction false} SweptSplit(acts: seq<Action>, due: Time)
    requires acts != []
    ensures SweptBefore(acts, due) <==> SweptBefore(acts[1..], due) && (acts[0].Sweep? ==> acts[0].at < due)
  {
    var rest := acts[1..];
    assert forall i :: 0 <= i < |rest| ==> rest[i] == acts[i + 1];
    assert forall i :: 0 < i < |acts| ==> acts[i] == rest[i - 1];
  }

  /** A claim grants its lease to the second: the run is alive until exactly then, heartbeats aside. */
  lemma ClaimGrantsLease(l: Db, id: TaskId, owner: Owner, lease: Time, now: Time)
    requires Inv(l) && Claimable(l.rows, id) && l.clock <= now && lease > 0
    ensures var m := Apply(l, TryClaim(id, owner, lease, now));
            && AliveUntil(m, id, owner, l.issued, now + lease)
            && forall at :: now <= at ==> (RunActive(m.rows, id, owner, l.issued, at) <==> at < now + lease)
  {
  }

  /**
    A worker that crashes after its claim: with no heartbeat, end or acknowledgement
    the task is failed by the first sweep at or past the lease's end, and not before.
  */
  lemma {:induction false} CrashedRunExpires(l: Db, id: TaskId, owner: Owner, lease: Time, now: Time, acts: seq<Action>, m: Db)
    requires Inv(l) && Claimable(l.rows, id) && l.clock <= now
    requires Steps(Apply(l, TryClaim(id, owner, lease, now)), acts, m)
    requires forall i :: 0 <= i < |acts| ==> Untouched(id, l.issued, acts[i])
    ensures id in m.rows
    ensures if SweptBefore(acts, now + lease)
            then m.rows[id].state == Working && m.rows[id].leaseExpires == Some(now + lease)
            else m.rows[id].state == Failed && m.rows[id].error == Some(LEASE_EXPIRED)
  {
    StepKeepsInv(l, TryClaim(id, owner, lease, now));
    LeaseRunsOut(Apply(l, TryClaim(id, owner, lease, now)), acts, m, id, owner, l.issued, now + lease);
  }
}
