/**
  One call of `DurableA2AService.execute`, with a program counter, running
  against the ledger while everybody else performs arbitrary transactions:
  its own heartbeat, API cancels, sweepers and other workers.
*/
module Execute {
  import opened Prelude
  import opened Ledger
  import opened Protocol

  /** The step `execute` performs next.  `late` marks the TimeoutError branch. */
  datatype Pc =
    | Claiming
    | Unclaimed                              // claim returned None: one read, then return
    | Researching(run: RunId)                // the try body up to `complete`
    | Completing(run: RunId)
    | ReadingCompleted(run: RunId)           // the read inside `complete`, still in the try body
    | Acknowledging(run: RunId)
    | Inspecting(run: RunId)                 // `except Exception`: read cancel_requested
    | Failing(run: RunId)
    | Reading(run: RunId, late: bool)        // the read that ends acknowledge, fail and the timeout branch
    | Deciding(run: RunId, snap: Row, late: bool)   // after `finally`
    | Settling(run: RunId, late: bool)       // `recoverable`: expire leases
    | Rereading(run: RunId, late: bool)
    | Returned(ran: Option<RunId>, snap: Row, late: bool)
    | Raised

  datatype Worker = Worker(db: Db, id: TaskId, owner: Owner, pc: Pc)

  datatype Move =
    | Other(act: Action)                     // anybody else's transaction
    | ClaimStep(lease: Time, now: Time)
    | Checkpoint(now: Time, at: Time)
    | ResearchEnds
    | BodyRaises                             // any other exception in the try body, before or after a commit
    | BodyTimesOut
    | CompleteStep(artifact: Artifact, now: Time, at: Time)
    | AckStep(now: Time, at: Time)
    | FailStep(now: Time, at: Time)
    | SettleStep(at: Time)
    | Read
    | Decide
    | Raise                                  // CancelledError anywhere, or a store error outside the try body

  predicate InBody(pc: Pc) { pc.Researching? || pc.Completing? || pc.ReadingCompleted? }

  predicate Done(pc: Pc) { pc.Returned? || pc.Raised? }

  predicate MoveEnabled(w: Worker, m: Move) {
    match m
    case Other(act) => Enabled(w.db, act)
    case ClaimStep(_, now) => w.pc.Claiming? && w.db.clock <= now
    case Checkpoint(now, at) => w.pc.Researching? && w.db.clock <= now <= at
    case ResearchEnds => w.pc.Researching?
    case BodyRaises => InBody(w.pc)
    case BodyTimesOut => InBody(w.pc)
    case CompleteStep(_, now, at) => w.pc.Completing? && w.db.clock <= now <= at
    case AckStep(now, at) => w.pc.Acknowledging? && w.db.clock <= now <= at
    case FailStep(now, at) => w.pc.Failing? && w.db.clock <= now <= at
    case SettleStep(at) => w.pc.Settling? && w.db.clock <= at
    case Read =>
      && w.id in w.db.rows
      && (w.pc.Unclaimed? || w.pc.ReadingCompleted? || w.pc.Inspecting? || w.pc.Reading? || w.pc.Rereading?)
    case Decide => w.pc.Deciding?
    case Raise => !Done(w.pc)
  }

  function MoveApply(w: Worker, m: Move): Worker
    requires MoveEnabled(w, m)
  {
    match m
    case Other(act) => w.(db := Apply(w.db, act))
    case ClaimStep(lease, now) =>
      w.(db := Apply(w.db, TryClaim(w.id, w.owner, lease, now)),
         pc := if Claimable(w.db.rows, w.id) then Researching(w.db.issued) else Unclaimed)
    case Checkpoint(now, at) =>
      w.(db := w.db.(clock := at),
         pc := if RunActive(w.db.rows, w.id, w.owner, w.pc.run, at) then w.pc else Acknowledging(w.pc.run))
    case ResearchEnds => w.(pc := Completing(w.pc.run))
    case BodyRaises => w.(pc := Inspecting(w.pc.run))
    case BodyTimesOut => w.(pc := Reading(w.pc.run, true))
    case CompleteStep(artifact, now, at) =>
      w.(db := Apply(w.db, End(w.id, w.owner, w.pc.run, Success(artifact), now, at)),
         pc := if RunActive(w.db.rows, w.id, w.owner, w.pc.run, at)
               then ReadingCompleted(w.pc.run) else Acknowledging(w.pc.run))
    case AckStep(now, at) =>
      w.(db := Apply(w.db, Ack(w.id, w.owner, w.pc.run, now, at)), pc := Reading(w.pc.run, false))
    case FailStep(now, at) =>
      w.(db := Apply(w.db, End(w.id, w.owner, w.pc.run, Failure("research execution failed"), now, at)),
         pc := if RunActive(w.db.rows, w.id, w.owner, w.pc.run, at)
               then Reading(w.pc.run, false) else Acknowledging(w.pc.run))
    case SettleStep(at) => w.(db := Apply(w.db, Sweep(at)), pc := Rereading(w.pc.run, w.pc.late))
    case Read =>
      var row := w.db.rows[w.id];
      (match w.pc
       case Unclaimed => w.(pc := Returned(None, row, false))
       case ReadingCompleted(run) => w.(pc := Deciding(run, row, false))
       case Inspecting(run) => w.(pc := if row.cancelRequested then Acknowledging(run) else Failing(run))
       case Reading(run, late) => w.(pc := Deciding(run, row, late))
       case Rereading(run, late) => w.(pc := Returned(Some(run), row, late))
       case _ => w)
    case Decide =>
      if w.pc.snap.state.Working? then w.(pc := Settling(w.pc.run, w.pc.late))
      else w.(pc := Returned(Some(w.pc.run), w.pc.snap, w.pc.late))
    case Raise => w.(pc := Raised)
  }

  ghost predicate Moves(w: Worker, ms: seq<Move>, v: Worker)
    decreases |ms|
  {
    if ms == [] then w == v else MoveEnabled(w, ms[0]) && Moves(MoveApply(w, ms[0]), ms[1..], v)
  }

  // ----- invariant --------------------------------------------------------

  /** The row is ours for good: it carries our run, and while it works it is leased to us. */
  ghost predicate Ours(w: Worker, run: RunId) {
    && run < w.db.issued && w.id in w.db.rows
    && var row := w.db.rows[w.id];
       row.runId == Some(run) && !row.state.Submitted? && (row.state.Working? ==> row.leaseOwner == Some(w.owner))
  }

  /** Nothing this run could still do keeps the row working past the next sweep. */
  ghost predicate Spent(w: Worker, run: RunId) {
    Ours(w, run) && (w.db.rows[w.id].state.Terminal() || Expired(w.db.rows[w.id], w.db.clock))
  }

  ghost predicate Finished(w: Worker, run: RunId) {
    Ours(w, run) && w.db.rows[w.id].state.Terminal()
  }

  ghost predicate PcInv(w: Worker) {
    match w.pc
    case Claiming => true
    case Unclaimed => true
    case Raised => true
    case Researching(run) => Ours(w, run)
    case Completing(run) => Ours(w, run)
    case ReadingCompleted(run) => Finished(w, run)
    case Inspecting(run) => Ours(w, run)
    case Failing(run) => Ours(w, run)
    case Acknowledging(run) => Ours(w, run) && !FenceOpen(w.db, w.id, w.owner, run)
    case Reading(run, late) => Ours(w, run) && (!late ==> Spent(w, run))
    case Deciding(run, snap, late) =>
      && Ours(w, run)
      && (snap.state.Terminal() ==> w.db.rows[w.id] == snap)
      && (!late ==> Spent(w, run))
      && !snap.state.Submitted?
    case Settling(run, late) => Ours(w, run) && (!late ==> Spent(w, run))
    case Rereading(run, late) => Ours(w, run) && (!late ==> Finished(w, run))
    case Returned(run, snap, late) =>
      run.Some? && !late ==> Finished(w, run.value) && snap == w.db.rows[w.id]
  }

  ghost predicate WInv(w: Worker) { Inv(w.db) && PcInv(w) }

  /** Whatever one other transaction does, the three facts about our row survive it. */
  lemma OthersKeep(w: Worker, act: Action, run: RunId)
    requires Inv(w.db) && Enabled(w.db, act) && Ours(w, run)
    ensures var v := w.(db := Apply(w.db, act));
            && Ours(v, run) && (Spent(w, run) ==> Spent(v, run))
            && (w.db.rows[w.id].state.Terminal() ==> v.db.rows[w.id] == w.db.rows[w.id])
            && (!FenceOpen(w.db, w.id, w.owner, run) ==> !FenceOpen(v.db, w.id, w.owner, run))
  {
    StepKeepsInv(w.db, act);
    StepKeepsFenceClosed(w.db, act, w.id, w.owner, run);
    assert Steps(w.db, [act], Apply(w.db, act));
    IdentityIsStable(w.db, [act], Apply(w.db, act), w.id);
    if w.db.rows[w.id].state.Terminal() {
      TerminalRowsAreFrozen(w.db, [act], Apply(w.db, act), w.id);
    }
    if Expired(w.db.rows[w.id], w.db.clock) {
      ExpiredStaysSpent(w.db, act, w.id);
    }
  }

  lemma ExpiredStaysSpent(db: Db, act: Action, id: TaskId)
    requires Inv(db) && Enabled(db, act) && id in db.rows && Expired(db.rows[id], db.clock)
    ensures id in Apply(db, act).rows
    ensures Apply(db, act).rows[id].state.Terminal() || Expired(Apply(db, act).rows[id], Apply(db, act).clock)
  {
  }

  /** The acknowledgement of a run whose fence is closed settles the row, or finds its lease expired. */
  lemma AcknowledgementSpends(w: Worker, now: Time, at: Time)
    requires WInv(w) && w.pc.Acknowledging? && w.db.clock <= now <= at
    ensures Spent(MoveApply(w, AckStep(now, at)), w.pc.run)
  {
    OthersKeep(w, Ack(w.id, w.owner, w.pc.run, now, at), w.pc.run);
  }

  /** The ledger transaction a move performs; moves without one leave the clock where it is. */
  function ActOf(w: Worker, m: Move): Action
    requires MoveEnabled(w, m)
  {
    match m
    case Other(act) => act
    case ClaimStep(lease, now) => TryClaim(w.id, w.owner, lease, now)
    case Checkpoint(now, at) => Tick(at)
    case CompleteStep(artifact, now, at) => End(w.id, w.owner, w.pc.run, Success(artifact), now, at)
    case AckStep(now, at) => Ack(w.id, w.owner, w.pc.run, now, at)
    case FailStep(now, at) => End(w.id, w.owner, w.pc.run, Failure("research execution failed"), now, at)
    case SettleStep(at) => Sweep(at)
    case _ => Tick(w.db.clock)
  }

  lemma MoveIsAction(w: Worker, m: Move)
    requires MoveEnabled(w, m)
    ensures Enabled(w.db, ActOf(w, m)) && MoveApply(w, m).db == Apply(w.db, ActOf(w, m))
    ensures MoveApply(w, m).id == w.id && MoveApply(w, m).owner == w.owner
  {
  }

  function RunOf(pc: Pc): Option<RunId> {
    match pc
    case Claiming => None
    case Unclaimed => None
    case Raised => None
    case Returned(ran, _, _) => ran
    case _ => Some(pc.run)
  }

  lemma ClaimKeepsPc(w: Worker, m: Move)
    requires WInv(w) && MoveEnabled(w, m) && m.ClaimStep?
    ensures PcInv(MoveApply(w, m))
  {
  }

  lemma EndKeepsPc(w: Worker, m: Move)
    requires WInv(w) && MoveEnabled(w, m) && (m.CompleteStep? || m.FailStep?)
    requires Ours(MoveApply(w, m), w.pc.run)
    ensures PcInv(MoveApply(w, m))
  {
  }

  /** Moves that only read, and so leave the rows alone. */
  lemma ReaderKeepsPc(w: Worker, m: Move)
    requires WInv(w) && MoveEnabled(w, m)
    requires !(m.Other? || m.ClaimStep? || m.CompleteStep? || m.FailStep? || m.AckStep? || m.SettleStep? || m.Checkpoint?)
    ensures PcInv(MoveApply(w, m))
  {
  }

  lemma WriterKeepsPc(w: Worker, m: Move)
    requires WInv(w) && MoveEnabled(w, m) && (m.CompleteStep? || m.FailStep? || m.Checkpoint? || m.SettleStep?)
    ensures PcInv(MoveApply(w, m))
  {
    MoveIsAction(w, m);
    OthersKeep(w, ActOf(w, m), w.pc.run);
    if m.CompleteStep? || m.FailStep? { EndKeepsPc(w, m); }
  }

  lemma MoveKeepsInv(w: Worker, m: Move)
    requires WInv(w) && MoveEnabled(w, m)
    ensures WInv(MoveApply(w, m))
  {
    MoveIsAction(w, m);
    StepKeepsInv(w.db, ActOf(w, m));
    match m
    case Other(act) => OtherKeepsPc(w, act);
    case ClaimStep(_, _) => ClaimKeepsPc(w, m);
    case Checkpoint(_, _) => WriterKeepsPc(w, m);
    case CompleteStep(_, _, _) => WriterKeepsPc(w, m);
    case FailStep(_, _) => WriterKeepsPc(w, m);
    case AckStep(now, at) => AcknowledgementSpends(w, now, at);
    case SettleStep(_) => WriterKeepsPc(w, m);
    case _ => ReaderKeepsPc(w, m);
  }

  lemma OtherKeepsPc(w: Worker, act: Action)
    requires WInv(w) && Enabled(w.db, act)
    ensures PcInv(w.(db := Apply(w.db, act)))
  {
    if RunOf(w.pc).Some? && Ours(w, RunOf(w.pc).value) {
      OthersKeep(w, act, RunOf(w.pc).value);
    }
  }

  lemma {:induction false} MovesKeepInv(w: Worker, ms: seq<Move>, v: Worker)
    requires WInv(w) && Moves(w, ms, v)
    ensures WInv(v)
    decreases |ms|
  {
    if ms != [] {
      MoveKeepsInv(w, ms[0]);
      MovesKeepInv(MoveApply(w, ms[0]), ms[1..], v);
    }
  }

  // ----- theorems ---------------------------------------------------------

  /**
    A call that claimed its task and returns outside the timeout branch reports
    a terminal state, and what it reports is what the store holds from then on.
  */
  lemma ClaimedReturnIsTerminal(w: Worker, ms: seq<Move>, v: Worker)
    requires Inv(w.db) && w.pc.Claiming? && Moves(w, ms, v)
    requires v.pc.Returned? && v.pc.ran.Some? && !v.pc.late
    ensures v.pc.snap.state.Terminal()
    ensures v.id in v.db.rows && v.db.rows[v.id] == v.pc.snap
    ensures v.pc.snap.runId == v.pc.ran
  {
    MovesKeepInv(w, ms, v);
  }

  /** A successful `complete` is what the caller sees, unless the process dies: its artifact is stored and frozen. */
  lemma {:induction false} CompletionIsReported(w: Worker, artifact: Artifact, now: Time, at: Time, ms: seq<Move>, v: Worker)
    requires WInv(w) && w.pc.Completing? && w.db.clock <= now <= at
    requires RunActive(w.db.rows, w.id, w.owner, w.pc.run, at)
    requires Moves(MoveApply(w, CompleteStep(artifact, now, at)), ms, v)
    ensures v.id == w.id && v.id in v.db.rows && v.db.rows[v.id].state.Completed?
    ensures v.db.rows[v.id].artifact == Some(artifact)
    ensures v.pc.Returned? && v.pc.ran.Some? && !v.pc.late ==> v.pc.snap.artifact == Some(artifact)
  {
    var u := CompleteCompletes(w, artifact, now, at);
    MovesFreezeTerminal(u, ms, v);
    MovesKeepInv(u, ms, v);
  }

  lemma {:induction false} CompleteCompletes(w: Worker, artifact: Artifact, now: Time, at: Time) returns (u: Worker)
    requires WInv(w) && w.pc.Completing? && w.db.clock <= now <= at
    requires RunActive(w.db.rows, w.id, w.owner, w.pc.run, at)
    ensures u == MoveApply(w, CompleteStep(artifact, now, at)) && WInv(u) && u.id == w.id && u.id in u.db.rows
    ensures u.db.rows[u.id].state.Completed? && u.db.rows[u.id].artifact == Some(artifact)
  {
    u := MoveApply(w, CompleteStep(artifact, now, at));
    MoveKeepsInv(w, CompleteStep(artifact, now, at));
  }

  lemma {:induction false} MovesFreezeTerminal(w: Worker, ms: seq<Move>, v: Worker)
    requires WInv(w) && Moves(w, ms, v) && w.id in w.db.rows && w.db.rows[w.id].state.Terminal()
    ensures v.id == w.id && v.id in v.db.rows && v.db.rows[v.id] == w.db.rows[w.id]
    decreases |ms|
  {
    if ms != [] {
      MoveKeepsInv(w, ms[0]);
      MoveIsAction(w, ms[0]);
      var act := ActOf(w, ms[0]);
      assert Steps(w.db, [act], Apply(w.db, act));
      TerminalRowsAreFrozen(w.db, [act], Apply(w.db, act), w.id);
      MovesFreezeTerminal(MoveApply(w, ms[0]), ms[1..], v);
    }
  }

  lemma MovesCons(w: Worker, m: Move, ms: seq<Move>, v: Worker)
    requires MoveEnabled(w, m) && Moves(MoveApply(w, m), ms, v)
    ensures Moves(w, [m] + ms, v)
  {
    assert ([m] + ms)[1..] == ms;
  }

  /**
    The timeout branch is rightly excluded: a call that claims its task, times
    out and finds its lease still running reports `working`.
  */
  lemma TimeoutMayReportWorking(w: Worker, lease: Time) returns (ms: seq<Move>, v: Worker)
    requires Inv(w.db) && w.pc.Claiming? && Claimable(w.db.rows, w.id) && lease > 0
    ensures Moves(w, ms, v)
    ensures v.pc.Returned? && v.pc.ran.Some? && v.pc.late && v.pc.snap.state.Working?
  {
    var now := w.db.clock;
    var w1 := MoveApply(w, ClaimStep(lease, now));
    var w2 := MoveApply(w1, BodyTimesOut);
    var w3 := MoveApply(w2, Read);
    v := TimedOutRead(w3, now);
    ms := [Decide, SettleStep(now), Read];
    MovesCons(w2, Read, ms, v);
    ms := [Read] + ms;
    MovesCons(w1, BodyTimesOut, ms, v);
    ms := [BodyTimesOut] + ms;
    MovesCons(w, ClaimStep(lease, now), ms, v);
    ms := [ClaimStep(lease, now)] + ms;
  }

  lemma TimedOutRead(w: Worker, now: Time) returns (v: Worker)
    requires w.pc.Deciding? && w.pc.late && w.db.clock == now && w.id in w.db.rows && w.pc.snap == w.db.rows[w.id]
    requires w.pc.snap.state.Working? && !Expired(w.pc.snap, now)
    ensures Moves(w, [Decide, SettleStep(now), Read], v)
    ensures v.pc == Returned(Some(w.pc.run), w.pc.snap, true)
  {
    var w1 := MoveApply(w, Decide);
    var w2 := MoveApply(w1, SettleStep(now));
    v := MoveApply(w2, Read);
    assert Moves(v, [], v);
    MovesCons(w2, Read, [], v);
    MovesCons(w1, SettleStep(now), [Read], v);
    MovesCons(w, Decide, [SettleStep(now), Read], v);
    assert [SettleStep(now)] + [Read] == [SettleStep(now), Read];
    assert [Decide] + [SettleStep(now), Read] == [Decide, SettleStep(now), Read];
  }

  /** When the settling sweep at this time comes, the lease is still running. */
  predicate Outlasts(w: Worker, at: Time) {
    w.id in w.db.rows && w.db.rows[w.id].state.Working? && !Expired(w.db.rows[w.id], at)
  }

  lemma {:induction false} DoneStays(w: Worker, ms: seq<Move>, v: Worker)
    requires Done(w.pc) && Moves(w, ms, v)
    ensures v.pc == w.pc
    decreases |ms|
  {
    if ms != [] { DoneStays(MoveApply(w, ms[0]), ms[1..], v); }
  }

  /** After the sweep a call can only reread: it reports its row, and a terminal row as it is. */
  lemma {:induction false} RereadReports(w: Worker, ms: seq<Move>, v: Worker)
    requires WInv(w) && w.pc.Rereading? && Moves(w, ms, v) && v.pc.Returned?
    ensures v.pc.ran == Some(w.pc.run) && v.pc.late == w.pc.late && !v.pc.snap.state.Submitted?
    ensures w.id in w.db.rows && (w.db.rows[w.id].state.Terminal() ==> v.pc.snap == w.db.rows[w.id])
    decreases |ms|
  {
    var m, u := ms[0], MoveApply(w, ms[0]);
    MoveKeepsInv(w, m);
    if m.Other? {
      OthersKeep(w, m.act, w.pc.run);
      RereadReports(u, ms[1..], v);
    } else {
      DoneStays(u, ms[1..], v);
    }
  }

  lemma {:induction false} SweepSettles(w: Worker, at: Time)
    requires WInv(w) && w.pc.Settling? && w.db.clock <= at
    ensures var u := MoveApply(w, SettleStep(at));
            && w.id in w.db.rows && w.id in u.db.rows
            && (if Outlasts(w, at) then u.db.rows[w.id] == w.db.rows[w.id] else u.db.rows[w.id].state.Terminal())
  {
  }

  /** The transaction, at the moment it happens, ends the task's run. */
  predicate EndsRun(db: Db, id: TaskId, act: Action) {
    match act
    case Sweep(at) => id in db.rows && Expired(db.rows[id], at)
    case End(i, owner, run, _, _, at) => i == id && RunActive(db.rows, i, owner, run, at)
    case Ack(i, owner, run, _, at) => i == id && HoldsLease(db.rows, i, owner, run, at) && db.rows[i].cancelRequested
    case _ => false
  }

  lemma {:induction false} WorksUntilEnded(db: Db, act: Action, id: TaskId)
    requires Inv(db) && Enabled(db, act) && id in db.rows && db.rows[id].state.Working?
    ensures id in Apply(db, act).rows
    ensures if EndsRun(db, id, act) then Apply(db, act).rows[id].state.Terminal() else Apply(db, act).rows[id].state.Working?
  {
  }

  /** No transaction before the call's next read ends the run. */
  ghost predicate Undisturbed(w: Worker, ms: seq<Move>)
    decreases |ms|
  {
    ms == [] || ms[0].Read? ||
      (ms[0].Other? && MoveEnabled(w, ms[0]) && !EndsRun(w.db, w.id, ms[0].act) && Undisturbed(MoveApply(w, ms[0]), ms[1..]))
  }

  lemma {:induction false} RereadsWorkingIff(w: Worker, ms: seq<Move>, v: Worker)
    requires WInv(w) && w.pc.Rereading? && w.id in w.db.rows && w.db.rows[w.id].state.Working?
    requires Moves(w, ms, v) && v.pc.Returned?
    ensures v.pc.snap.state.Working? <==> Undisturbed(w, ms)
    decreases |ms|
  {
    var m, u := ms[0], MoveApply(w, ms[0]);
    MoveKeepsInv(w, m);
    if m.Other? {
      WorksUntilEnded(w.db, m.act, w.id);
      if EndsRun(w.db, w.id, m.act) {
        RereadReports(u, ms[1..], v);
      } else {
        RereadsWorkingIff(u, ms[1..], v);
      }
    } else {
      DoneStays(u, ms[1..], v);
    }
  }

  /**
    What a late call that has to settle reports, whatever others do meanwhile:
    `working` exactly when its lease outlasts the settling sweep and no transaction
    between that sweep and the last read ends the run.
  */
  lemma {:induction false} LateReturnWorkingIff(w: Worker, at: Time, ms: seq<Move>, v: Worker)
    requires WInv(w) && w.pc.Settling? && w.pc.late && w.db.clock <= at
    requires Moves(MoveApply(w, SettleStep(at)), ms, v) && v.pc.Returned?
    ensures v.pc.ran == Some(w.pc.run) && v.pc.late && !v.pc.snap.state.Submitted?
    ensures v.pc.snap.state.Working? <==> Outlasts(w, at) && Undisturbed(MoveApply(w, SettleStep(at)), ms)
    ensures ms == [Read] ==> (v.pc.snap.state.Working? <==> Outlasts(w, at))
  {
    var u := MoveApply(w, SettleStep(at));
    MoveKeepsInv(w, SettleStep(at));
    RereadReports(u, ms, v);
    SweepSettles(w, at);
    if Outlasts(w, at) { RereadsWorkingIff(u, ms, v); }
  }

  /** Another's transaction that is no update, acknowledgement or heartbeat of this run. */
  predicate Foreign(m: Move, run: RunId) {
    m.Other? && (m.act.End? || m.act.Ack? || m.act.Beat? ==> m.act.run != run)
  }

  /** No sweep among the moves comes when the lease is over. */
  predicate SweepsBefore(ms: seq<Move>, lease: Time) {
    forall i :: 0 <= i < |ms| && ms[i].Other? && ms[i].act.Sweep? ==> ms[i].act.at < lease
  }

  /** A foreign transaction leaves the row working under its lease, unless it is a sweep that comes too late. */
  lemma {:induction false} ForeignStep(w: Worker, m: Move)
    requires WInv(w) && w.pc.Rereading? && w.id in w.db.rows && w.db.rows[w.id].state.Working?
    requires Foreign(m, w.pc.run) && MoveEnabled(w, m)
    ensures w.db.rows[w.id].leaseExpires.Some?
    ensures EndsRun(w.db, w.id, m.act) <==> m.act.Sweep? && w.db.rows[w.id].leaseExpires.value <= m.act.at
    ensures !EndsRun(w.db, w.id, m.act) ==>
              w.id in MoveApply(w, m).db.rows && MoveApply(w, m).db.rows[w.id].leaseExpires == w.db.rows[w.id].leaseExpires
  {
  }

  lemma {:induction false} UndisturbedIff(w: Worker, ms: seq<Move>, v: Worker)
    requires WInv(w) && w.pc.Rereading? && w.id in w.db.rows && w.db.rows[w.id].state.Working?
    requires w.db.rows[w.id].leaseExpires.Some? && Moves(w, ms + [Read], v)
    requires forall i :: 0 <= i < |ms| ==> Foreign(ms[i], w.pc.run)
    ensures Undisturbed(w, ms + [Read]) <==> SweepsBefore(ms, w.db.rows[w.id].leaseExpires.value)
    decreases |ms|
  {
    if ms != [] {
      var m, u := ms[0], MoveApply(w, ms[0]);
      assert (ms + [Read])[1..] == ms[1..] + [Read] && ms == [m] + ms[1..];
      MoveKeepsInv(w, m);
      ForeignStep(w, m);
      WorksUntilEnded(w.db, m.act, w.id);
      if EndsRun(w.db, w.id, m.act) {
        assert !SweepsBefore(ms, w.db.rows[w.id].leaseExpires.value) by { assert ms[0].act.Sweep?; }
      } else {
        UndisturbedIff(u, ms[1..], v);
        SweepsSplit(ms, w.db.rows[w.id].leaseExpires.value);
      }
    }
  }

  lemma {:induction false} SweepsSplit(ms: seq<Move>, lease: Time)
    requires ms != []
    ensures SweepsBefore(ms, lease) <==>
            SweepsBefore(ms[1..], lease) && (ms[0].Other? && ms[0].act.Sweep? ==> ms[0].act.at < lease)
  {
    var rest := ms[1..];
    assert forall i :: 0 <= i < |rest| ==> rest[i] == ms[i + 1];
    assert forall i :: 0 < i < |ms| ==> ms[i] == rest[i - 1];
  }

  /**
    In particular when nobody updates, acknowledges or prolongs the run any more:
    then the lease that stands when the call settles decides, against its own sweep
    and every sweep after it.
  */
  lemma {:induction false} LateReturnOutlastsSweeps(w: Worker, at: Time, ms: seq<Move>, v: Worker)
    requires WInv(w) && w.pc.Settling? && w.pc.late && w.db.clock <= at
    requires Moves(MoveApply(w, SettleStep(at)), ms + [Read], v) && v.pc.Returned?
    requires forall i :: 0 <= i < |ms| ==> Foreign(ms[i], w.pc.run)
    ensures v.pc.snap.state.Working? <==> Outlasts(w, at) && SweepsBefore(ms, w.db.rows[w.id].leaseExpires.value)
  {
    LateReturnWorkingIff(w, at, ms + [Read], v);
    if Outlasts(w, at) {
      MoveKeepsInv(w, SettleStep(at));
      SweepSettles(w, at);
      UndisturbedIff(MoveApply(w, SettleStep(at)), ms, v);
    }
  }

  // ----- what a call reports ------------------------------------------------

  /** The call after its first i moves. */
  function After(w: Worker, ms: seq<Move>, i: nat, v: Worker): Worker
    requires Moves(w, ms, v) && i <= |ms|
    decreases i
  {
    if i == 0 then w else After(MoveApply(w, ms[0]), ms[1..], i - 1, v)
  }

  predicate Shows(pc: Pc, snap: Row) { (pc.Deciding? || pc.Returned?) && pc.snap == snap }

  /** At some moment of the call the store held this row. */
  ghost predicate WasStored(w: Worker, ms: seq<Move>, v: Worker, row: Row)
    requires Moves(w, ms, v)
  {
    exists i :: 0 <= i <= |ms| && w.id in After(w, ms, i, v).db.rows && After(w, ms, i, v).db.rows[w.id] == row
  }

  lemma {:induction false} WasStoredCons(w: Worker, ms: seq<Move>, v: Worker, row: Row)
    requires Moves(w, ms, v) && ms != []
    ensures w.id in w.db.rows && w.db.rows[w.id] == row ==> WasStored(w, ms, v, row)
    ensures WasStored(MoveApply(w, ms[0]), ms[1..], v, row) ==> WasStored(w, ms, v, row)
  {
    var u := MoveApply(w, ms[0]);
    assert After(w, ms, 0, v) == w;
    if WasStored(u, ms[1..], v, row) {
      var i :| 0 <= i <= |ms[1..]| && u.id in After(u, ms[1..], i, v).db.rows && After(u, ms[1..], i, v).db.rows[u.id] == row;
      MoveIsAction(w, ms[0]);
      assert After(w, ms, i + 1, v) == After(u, ms[1..], i, v);
    }
  }

  /** Whatever branch a call takes and whatever others do, what it reports is a row the store has held meanwhile. */
  lemma {:induction false} ReportWasStored(w: Worker, ms: seq<Move>, v: Worker)
    requires Moves(w, ms, v) && v.pc.Returned?
    ensures Shows(w.pc, v.pc.snap) || WasStored(w, ms, v, v.pc.snap)
    decreases |ms|
  {
    if ms != [] {
      var u := MoveApply(w, ms[0]);
      ReportWasStored(u, ms[1..], v);
      WasStoredCons(w, ms, v, v.pc.snap);
      if Shows(u.pc, v.pc.snap) && !Shows(w.pc, v.pc.snap) { ShownIsRead(w, ms[0], v.pc.snap); }
    }
  }

  lemma {:induction false} ShownIsRead(w: Worker, m: Move, row: Row)
    requires MoveEnabled(w, m) && Shows(MoveApply(w, m).pc, row) && !Shows(w.pc, row)
    ensures w.id in w.db.rows && w.db.rows[w.id] == row
  {
  }

  /** A call that finds its task claimed, canceled or unknown changes no row: it reads once and reports that. */
  lemma {:induction false} UnclaimedChangesNothing(w: Worker, lease: Time, now: Time, ms: seq<Move>, v: Worker)
    requires w.pc.Claiming? && w.db.clock <= now && !Claimable(w.db.rows, w.id)
    requires Moves(MoveApply(w, ClaimStep(lease, now)), ms, v) && v.pc.Returned?
    ensures MoveApply(w, ClaimStep(lease, now)).db.rows == w.db.rows
    ensures v.pc.ran == None && !v.pc.late && forall i :: 0 <= i < |ms| ==> ms[i].Other? || ms[i].Read?
    ensures WasStored(MoveApply(w, ClaimStep(lease, now)), ms, v, v.pc.snap)
  {
    var u := MoveApply(w, ClaimStep(lease, now));
    ReportWasStored(u, ms, v);
    UnclaimedOnlyReads(u, ms, v);
  }

  lemma {:induction false} UnclaimedOnlyReads(w: Worker, ms: seq<Move>, v: Worker)
    requires (w.pc.Unclaimed? || (w.pc.Returned? && w.pc.ran == None && !w.pc.late)) && Moves(w, ms, v) && v.pc.Returned?
    ensures v.pc.ran == None && !v.pc.late && forall i :: 0 <= i < |ms| ==> ms[i].Other? || ms[i].Read?
    decreases |ms|
  {
    if ms != [] {
      var u := MoveApply(w, ms[0]);
      if ms[0].Raise? {
        DoneStays(u, ms[1..], v);
      } else {
        UnclaimedOnlyReads(u, ms[1..], v);
        assert forall i :: 0 < i < |ms| ==> ms[i] == ms[1..][i - 1];
      }
    }
  }

  /** A successful `fail` is final too: the store holds the failure for good, and an undelayed return reports it. */
  lemma {:induction false} FailureIsReported(w: Worker, now: Time, at: Time, ms: seq<Move>, v: Worker)
    requires WInv(w) && w.pc.Failing? && w.db.clock <= now <= at
    requires RunActive(w.db.rows, w.id, w.owner, w.pc.run, at) && Moves(MoveApply(w, FailStep(now, at)), ms, v)
    ensures v.id == w.id && v.id in v.db.rows && v.db.rows[v.id].state == Failed
    ensures v.db.rows[v.id].error == Some("research execution failed")
    ensures v.pc.Returned? && v.pc.ran.Some? && !v.pc.late ==> v.pc.snap == v.db.rows[v.id]
  {
    var u := FailFails(w, now, at);
    MovesFreezeTerminal(u, ms, v);
    MovesKeepInv(u, ms, v);
  }

  lemma {:induction false} FailFails(w: Worker, now: Time, at: Time) returns (u: Worker)
    requires WInv(w) && w.pc.Failing? && w.db.clock <= now <= at
    requires RunActive(w.db.rows, w.id, w.owner, w.pc.run, at)
    ensures u == MoveApply(w, FailStep(now, at)) && WInv(u) && u.id == w.id && u.id in u.db.rows
    ensures u.db.rows[u.id].state == Failed && u.db.rows[u.id].error == Some("research execution failed")
  {
    u := MoveApply(w, FailStep(now, at));
    MoveKeepsInv(w, FailStep(now, at));
  }

  /** And so is an acknowledged cancellation. */
  lemma {:induction false} CancellationIsReported(w: Worker, now: Time, at: Time, ms: seq<Move>, v: Worker)
    requires WInv(w) && w.pc.Acknowledging? && w.db.clock <= now <= at
    requires HoldsLease(w.db.rows, w.id, w.owner, w.pc.run, at) && w.db.rows[w.id].cancelRequested
    requires Moves(MoveApply(w, AckStep(now, at)), ms, v)
    ensures v.id == w.id && v.id in v.db.rows && v.db.rows[v.id].state == Canceled
    ensures v.pc.Returned? && v.pc.ran.Some? && !v.pc.late ==> v.pc.snap == v.db.rows[v.id]
  {
    var u := AckCancels(w, now, at);
    MovesFreezeTerminal(u, ms, v);
    MovesKeepInv(u, ms, v);
  }

  lemma {:induction false} AckCancels(w: Worker, now: Time, at: Time) returns (u: Worker)
    requires WInv(w) && w.pc.Acknowledging? && w.db.clock <= now <= at
    requires HoldsLease(w.db.rows, w.id, w.owner, w.pc.run, at) && w.db.rows[w.id].cancelRequested
    ensures u == MoveApply(w, AckStep(now, at)) && WInv(u) && u.id == w.id && u.id in u.db.rows
    ensures u.db.rows[u.id].state == Canceled
  {
    u := MoveApply(w, AckStep(now, at));
    MoveKeepsInv(w, AckStep(now, at));
  }

  // ----- stopping -----------------------------------------------------------

  /** The try body, once left, is not entered again. */
  lemma {:induction false} BodyEndsForGood(w: Worker, ms: seq<Move>, v: Worker)
    requires !w.pc.Claiming? && !InBody(w.pc) && Moves(w, ms, v)
    ensures !InBody(v.pc)
    decreases |ms|
  {
    if ms != [] { BodyEndsForGood(MoveApply(w, ms[0]), ms[1..], v); }
  }

  /**
    A checkpoint lets the run go on exactly while its fence is open; a refused one,
    or a refused `complete`, ends the body for good.
  */
  lemma {:induction false} RefusalStopsRun(w: Worker, m: Move, ms: seq<Move>, v: Worker)
    requires MoveEnabled(w, m) && (m.Checkpoint? || m.CompleteStep?)
    requires Moves(MoveApply(w, m), ms, v)
    ensures InBody(MoveApply(w, m).pc) <==> RunActive(w.db.rows, w.id, w.owner, w.pc.run, m.at)
    ensures !RunActive(w.db.rows, w.id, w.owner, w.pc.run, m.at) ==>
              !InBody(v.pc) && MoveApply(w, m).pc == Acknowledging(w.pc.run) && MoveApply(w, m).db.rows == w.db.rows
  {
    if !InBody(MoveApply(w, m).pc) { BodyEndsForGood(MoveApply(w, m), ms, v); }
  }
}
