/**
  From `submit` to the worker's claim.  Reservations are durable, the queue is
  not: a service process holds its queue, its worker's hand and its submits in
  flight, and loses them when it dies.  `dropped` is the history of submitted
  tasks whose hand-off was lost and has not been made good since.
*/
module Delivery {
  import opened Prelude
  import opened Ledger
  import opened Protocol

  /** `run_worker`: between `queue.get` and `task_done`; Tried once the claim transaction has run. */
  datatype Hand = Idle | Taken(id: TaskId) | Tried(id: TaskId) | Retrying(id: TaskId)

  /** A `submit` in flight: before its insert, before its read-back, before its enqueue. */
  datatype Submit =
    | Sending(message: MessageId, commitment: Commitment)
    | Inserted(message: MessageId, commitment: Commitment)
    | Handing(id: TaskId)

  /** Start-up: the worker runs at once, requests are served when `recover_pending` is through. */
  datatype Phase = Starting | Recovering(left: seq<TaskId>) | Serving

  datatype Proc = Proc(phase: Phase, queue: seq<TaskId>, hand: Hand, submits: map<nat, Submit>)

  datatype Service = Service(db: Db, procs: map<Owner, Proc>, dropped: set<TaskId>)

  datatype Event =
    | Store(act: Action)
    | Start(p: Owner)
    | ListPending(p: Owner, ids: seq<TaskId>)
    | EnqueuePending(p: Owner)
    | Open(p: Owner)
    | Die(p: Owner)
    | SubmitBegins(p: Owner, k: nat, message: MessageId, commitment: Commitment)
    | SubmitInserts(p: Owner, k: nat, stamp: Time)
    | SubmitReads(p: Owner, k: nat, id: TaskId)
    | SubmitEnqueues(p: Owner, k: nat)
    | SubmitFails(p: Owner, k: nat)
    | WorkerTakes(p: Owner)
    | WorkerClaims(p: Owner, lease: Time, now: Time)
    | ExecuteReturns(p: Owner)
    | ExecuteRaises(p: Owner)
    | WorkerRequeues(p: Owner)

  predicate IsSubmitted(db: Db, id: TaskId) { Claimable(db.rows, id) }

  predicate HandHolds(hand: Hand, id: TaskId) { hand != Idle && hand.id == id }

  predicate SubmitHolds(db: Db, s: Submit, id: TaskId) {
    match s
    case Sending(_, _) => false
    case Inserted(m, c) => id in db.rows && db.rows[id].messageId == m && db.rows[id].commitment == c
    case Handing(t) => t == id
  }

  /** The task is in the process's queue, in its worker's hand (the retry sleep included) or inside a submit after its insert. */
  ghost predicate Holds(db: Db, proc: Proc, id: TaskId) {
    || id in proc.queue
    || HandHolds(proc.hand, id)
    || exists k :: k in proc.submits && SubmitHolds(db, proc.submits[k], id)
  }

  predicate EventEnabled(s: Service, e: Event) {
    match e
    case Store(act) => Enabled(s.db, act) && !act.Reserve?
    case Start(p) => p !in s.procs
    case ListPending(p, ids) => p in s.procs && s.procs[p].phase.Starting?
    case EnqueuePending(p) => p in s.procs && s.procs[p].phase.Recovering? && s.procs[p].phase.left != []
    case Open(p) => p in s.procs && s.procs[p].phase == Recovering([])
    case Die(p) => p in s.procs
    case SubmitBegins(p, k, _, _) => p in s.procs && s.procs[p].phase.Serving? && k !in s.procs[p].submits
    case SubmitInserts(p, k, _) => p in s.procs && k in s.procs[p].submits && s.procs[p].submits[k].Sending?
    case SubmitReads(p, k, id) =>
      && p in s.procs && k in s.procs[p].submits && s.procs[p].submits[k].Inserted?
      && id in s.db.rows && s.db.rows[id].messageId == s.procs[p].submits[k].message
    case SubmitEnqueues(p, k) => p in s.procs && k in s.procs[p].submits && s.procs[p].submits[k].Handing?
    case SubmitFails(p, k) => p in s.procs && k in s.procs[p].submits
    case WorkerTakes(p) => p in s.procs && s.procs[p].hand.Idle? && s.procs[p].queue != []
    case WorkerClaims(p, _, now) => p in s.procs && s.procs[p].hand.Taken? && s.db.clock <= now
    case ExecuteReturns(p) => p in s.procs && s.procs[p].hand.Tried?
    case ExecuteRaises(p) => p in s.procs && (s.procs[p].hand.Taken? || s.procs[p].hand.Tried?)
    case WorkerRequeues(p) => p in s.procs && s.procs[p].hand.Retrying?
  }

  /** The listing step also needs a correct listing, which is not decidable step by step. */
  ghost predicate Happens(s: Service, e: Event) {
    EventEnabled(s, e) && (e.ListPending? ==> ListsSubmitted(s.db.rows, e.ids))
  }

  /** The submitted tasks whose hand-off the event loses. */
  ghost function LostBy(s: Service, e: Event): set<TaskId>
    requires EventEnabled(s, e)
  {
    match e
    case Die(p) => set t | t in s.db.rows && IsSubmitted(s.db, t) && Holds(s.db, s.procs[p], t)
    case SubmitFails(p, k) => set t | t in s.db.rows && IsSubmitted(s.db, t) && SubmitHolds(s.db, s.procs[p].submits[k], t)
    case _ => {}
  }

  function With(s: Service, p: Owner, proc: Proc): Service { s.(procs := s.procs[p := proc]) }

  ghost function Next(s: Service, e: Event): Service
    requires EventEnabled(s, e)
  {
    match e
    case Store(act) => s.(db := Apply(s.db, act))
    case Start(p) => With(s, p, Proc(Starting, [], Idle, map[]))
    case ListPending(p, ids) =>
      With(s, p, s.procs[p].(phase := Recovering(ids)))
    case EnqueuePending(p) =>
      var proc := s.procs[p];
      With(s, p, proc.(queue := proc.queue + [proc.phase.left[0]], phase := Recovering(proc.phase.left[1..])))
      .(dropped := s.dropped - {proc.phase.left[0]})
    case Open(p) => With(s, p, s.procs[p].(phase := Serving))
    case Die(p) =>
      s.(procs := s.procs - {p},
         dropped := s.dropped + LostBy(s, e))
    case SubmitBegins(p, k, m, c) => With(s, p, s.procs[p].(submits := s.procs[p].submits[k := Sending(m, c)]))
    case SubmitInserts(p, k, stamp) =>
      var sub := s.procs[p].submits[k];
      With(s, p, s.procs[p].(submits := s.procs[p].submits[k := Inserted(sub.message, sub.commitment)]))
      .(db := Apply(s.db, Reserve(sub.message, sub.commitment, stamp)))
    case SubmitReads(p, k, id) =>
      var proc := s.procs[p];
      if s.db.rows[id].commitment == proc.submits[k].commitment && s.db.rows[id].state.Submitted?
      then With(s, p, proc.(submits := proc.submits[k := Handing(id)]))
      else With(s, p, proc.(submits := proc.submits - {k}))
    case SubmitEnqueues(p, k) =>
      var proc := s.procs[p];
      With(s, p, proc.(queue := proc.queue + [proc.submits[k].id], submits := proc.submits - {k}))
      .(dropped := s.dropped - {proc.submits[k].id})
    case SubmitFails(p, k) =>
      With(s, p, s.procs[p].(submits := s.procs[p].submits - {k}))
      .(dropped := s.dropped + LostBy(s, e))
    case WorkerTakes(p) =>
      With(s, p, s.procs[p].(hand := Taken(s.procs[p].queue[0]), queue := s.procs[p].queue[1..]))
    case WorkerClaims(p, lease, now) =>
      With(s, p, s.procs[p].(hand := Tried(s.procs[p].hand.id)))
      .(db := Apply(s.db, TryClaim(s.procs[p].hand.id, p, lease, now)))
    case ExecuteReturns(p) => With(s, p, s.procs[p].(hand := Idle))
    case ExecuteRaises(p) => With(s, p, s.procs[p].(hand := Retrying(s.procs[p].hand.id)))
    case WorkerRequeues(p) =>
      With(s, p, s.procs[p].(hand := Idle, queue := s.procs[p].queue + [s.procs[p].hand.id]))
  }

  ghost predicate History(s: Service, es: seq<Event>, t: Service)
    decreases |es|
  {
    if es == [] then s == t else Happens(s, es[0]) && History(Next(s, es[0]), es[1..], t)
  }

  const COLD := Service(Protocol.EMPTY, map[], {})

  // ----- invariant --------------------------------------------------------

  ghost predicate ProcInv(db: Db, proc: Proc) {
    && (forall id :: id in proc.queue ==> id in db.rows)
    && (proc.phase.Recovering? ==> forall id :: id in proc.phase.left ==> id in db.rows)
    && (proc.hand != Idle ==> proc.hand.id in db.rows)
    && (proc.hand.Tried? ==> !IsSubmitted(db, proc.hand.id))
    && (forall k :: k in proc.submits && proc.submits[k].Handing? ==> proc.submits[k].id in db.rows)
  }

  ghost predicate SomeoneHolds(s: Service, id: TaskId) {
    exists p :: p in s.procs && Holds(s.db, s.procs[p], id)
  }

  ghost predicate SInv(s: Service) {
    && Inv(s.db)
    && (forall p :: p in s.procs ==> ProcInv(s.db, s.procs[p]))
    && (forall id :: IsSubmitted(s.db, id) ==> id in s.dropped || SomeoneHolds(s, id))
  }

  function ActionOf(s: Service, e: Event): Action
    requires EventEnabled(s, e)
  {
    match e
    case Store(act) => act
    case SubmitInserts(p, k, stamp) => Reserve(s.procs[p].submits[k].message, s.procs[p].submits[k].commitment, stamp)
    case WorkerClaims(p, lease, now) => TryClaim(s.procs[p].hand.id, p, lease, now)
    case _ => Tick(s.db.clock)
  }

  lemma EventIsAction(s: Service, e: Event)
    requires EventEnabled(s, e)
    ensures Enabled(s.db, ActionOf(s, e)) && Next(s, e).db == Apply(s.db, ActionOf(s, e))
  {
  }

  /** The row is still there, for the same message, and is not submitted anew. */
  predicate Stays(db: Db, after: Db, id: TaskId)
    requires id in db.rows
  {
    && id in after.rows
    && after.rows[id].messageId == db.rows[id].messageId
    && after.rows[id].commitment == db.rows[id].commitment
    && (!db.rows[id].state.Submitted? ==> !after.rows[id].state.Submitted?)
  }

  lemma {:induction false} RowStays(db: Db, act: Action, id: TaskId)
    requires Inv(db) && Enabled(db, act) && id in db.rows
    ensures Stays(db, Apply(db, act), id)
  {
  }

  lemma {:induction false} OnlyReserveSubmits(db: Db, act: Action, id: TaskId)
    requires Inv(db) && Enabled(db, act) && IsSubmitted(Apply(db, act), id) && !IsSubmitted(db, id)
    ensures act.Reserve? && id !in db.rows
    ensures Apply(db, act).rows[id].messageId == act.message && Apply(db, act).rows[id].commitment == act.commitment
  {
    if id in db.rows { RowStays(db, act, id); }
  }

  /** What a ledger step does to the facts a process relies on. */
  lemma {:induction false} DbStepIsStable(db: Db, act: Action)
    requires Inv(db) && Enabled(db, act)
    ensures forall id :: id in db.rows ==> Stays(db, Apply(db, act), id)
  {
    forall id | id in db.rows ensures Stays(db, Apply(db, act), id) { RowStays(db, act, id); }
  }

  lemma {:induction false} HoldsIsStable(db: Db, act: Action, proc: Proc, id: TaskId)
    requires Inv(db) && Enabled(db, act) && Holds(db, proc, id)
    ensures Holds(Apply(db, act), proc, id)
  {
    DbStepIsStable(db, act);
    if exists k :: k in proc.submits && SubmitHolds(db, proc.submits[k], id) {
      var k :| k in proc.submits && SubmitHolds(db, proc.submits[k], id);
      assert SubmitHolds(Apply(db, act), proc.submits[k], id);
    }
  }

  function ProcOf(e: Event): Option<Owner> { if e.Store? then None else Some(e.p) }

  /** The process an event concerns goes on holding what it held, or the event loses it. */
  lemma MoverKeepsHolding(s: Service, e: Event, id: TaskId)
    requires SInv(s) && Happens(s, e) && !e.Store? && e.p in s.procs
    requires IsSubmitted(Next(s, e).db, id) && IsSubmitted(s.db, id) && Holds(s.db, s.procs[e.p], id)
    ensures id in LostBy(s, e) || SomeoneHolds(Next(s, e), id)
  {
    var t := Next(s, e);
    var p := e.p;
    EventIsAction(s, e);
    HoldsIsStable(s.db, ActionOf(s, e), s.procs[p], id);
    if e.Die? {
    } else if exists k :: k in s.procs[p].submits && SubmitHolds(t.db, s.procs[p].submits[k], id) {
      var k :| k in s.procs[p].submits && SubmitHolds(t.db, s.procs[p].submits[k], id);
      SubmitMovesOn(s, e, id, k);
    } else {
      assert Holds(t.db, t.procs[p], id);
    }
  }

  lemma SubmitMovesOn(s: Service, e: Event, id: TaskId, k: nat)
    requires SInv(s) && Happens(s, e) && !e.Store? && !e.Die? && e.p in s.procs
    requires IsSubmitted(Next(s, e).db, id) && IsSubmitted(s.db, id)
    requires k in s.procs[e.p].submits && SubmitHolds(Next(s, e).db, s.procs[e.p].submits[k], id)
    ensures id in LostBy(s, e) || SomeoneHolds(Next(s, e), id)
  {
    var t := Next(s, e);
    EventIsAction(s, e);
    DbStepIsStable(s.db, ActionOf(s, e));
    if k in t.procs[e.p].submits && SubmitHolds(t.db, t.procs[e.p].submits[k], id) {
      assert Holds(t.db, t.procs[e.p], id);
    } else if e.SubmitEnqueues? {
      assert id in t.procs[e.p].queue;
      assert Holds(t.db, t.procs[e.p], id);
    }
  }

  lemma {:induction false} OthersStay(s: Service, e: Event, q: Owner)
    requires EventEnabled(s, e) && ProcOf(e) != Some(q)
    ensures q in Next(s, e).procs <==> q in s.procs
    ensures q in s.procs ==> Next(s, e).procs[q] == s.procs[q]
  {
  }

  /** A new task is held by the submit that inserted it. */
  lemma {:induction false} InsertHolds(s: Service, e: Event, id: TaskId)
    requires SInv(s) && Happens(s, e) && IsSubmitted(Next(s, e).db, id) && !IsSubmitted(s.db, id)
    ensures SomeoneHolds(Next(s, e), id)
  {
    var t := Next(s, e);
    EventIsAction(s, e);
    OnlyReserveSubmits(s.db, ActionOf(s, e), id);
    assert SubmitHolds(t.db, t.procs[e.p].submits[e.k], id);
    assert Holds(t.db, t.procs[e.p], id);
  }

  /** What leaves the record of losses is in a queue. */
  lemma {:induction false} EnqueueHolds(s: Service, e: Event, id: TaskId)
    requires Happens(s, e) && id in s.dropped && id !in Next(s, e).dropped
    ensures SomeoneHolds(Next(s, e), id)
  {
    var t := Next(s, e);
    assert e.EnqueuePending? || e.SubmitEnqueues?;
    assert id in t.procs[e.p].queue;
    assert Holds(t.db, t.procs[e.p], id);
  }

  /** What somebody holds stays held while it is submitted, unless the event loses it. */
  lemma {:induction false} HeldStaysHeld(s: Service, e: Event, id: TaskId)
    requires SInv(s) && Happens(s, e) && IsSubmitted(Next(s, e).db, id)
    requires IsSubmitted(s.db, id) ==> SomeoneHolds(s, id)
    ensures id in LostBy(s, e) || SomeoneHolds(Next(s, e), id)
  {
    if !IsSubmitted(s.db, id) {
      InsertHolds(s, e, id);
    } else {
      var q :| q in s.procs && Holds(s.db, s.procs[q], id);
      if ProcOf(e) == Some(q) {
        MoverKeepsHolding(s, e, id);
      } else {
        EventIsAction(s, e);
        HoldsIsStable(s.db, ActionOf(s, e), s.procs[q], id);
        OthersStay(s, e, q);
      }
    }
  }

  lemma {:induction false} LossIsRecorded(s: Service, e: Event, id: TaskId)
    requires EventEnabled(s, e) && id in LostBy(s, e)
    ensures id in Next(s, e).dropped
  {
  }

  lemma {:induction false} NextKeepsAccounts(s: Service, e: Event, id: TaskId)
    requires SInv(s) && Happens(s, e) && IsSubmitted(Next(s, e).db, id)
    ensures id in Next(s, e).dropped || SomeoneHolds(Next(s, e), id)
  {
    if IsSubmitted(s.db, id) && id in s.dropped {
      if id !in Next(s, e).dropped { EnqueueHolds(s, e, id); }
    } else {
      HeldStaysHeld(s, e, id);
      if id in LostBy(s, e) { LossIsRecorded(s, e, id); }
    }
  }

  lemma {:induction false} ProcInvIsStable(db: Db, act: Action, proc: Proc)
    requires Inv(db) && Enabled(db, act) && ProcInv(db, proc)
    ensures ProcInv(Apply(db, act), proc)
  {
    DbStepIsStable(db, act);
  }

  /** The process an event concerns: what is new about it is in the table. */
  lemma {:induction false} MoverKeepsProcInv(s: Service, e: Event)
    requires Happens(s, e) && !e.Store? && e.p in Next(s, e).procs
    requires e.p in s.procs ==> ProcInv(s.db, s.procs[e.p]) && ProcInv(Next(s, e).db, s.procs[e.p])
    ensures ProcInv(Next(s, e).db, Next(s, e).procs[e.p])
  {
  }

  lemma {:induction false} NextKeepsProcs(s: Service, e: Event, p: Owner)
    requires SInv(s) && Happens(s, e) && p in Next(s, e).procs
    ensures ProcInv(Next(s, e).db, Next(s, e).procs[p])
  {
    EventIsAction(s, e);
    if p in s.procs { ProcInvIsStable(s.db, ActionOf(s, e), s.procs[p]); }
    if ProcOf(e) == Some(p) {
      MoverKeepsProcInv(s, e);
    } else {
      OthersStay(s, e, p);
    }
  }

  lemma {:induction false} NextKeepsInv(s: Service, e: Event)
    requires SInv(s) && Happens(s, e)
    ensures SInv(Next(s, e))
  {
    EventIsAction(s, e);
    StepKeepsInv(s.db, ActionOf(s, e));
    forall id | IsSubmitted(Next(s, e).db, id) ensures id in Next(s, e).dropped || SomeoneHolds(Next(s, e), id) {
      NextKeepsAccounts(s, e, id);
    }
    forall p | p in Next(s, e).procs ensures ProcInv(Next(s, e).db, Next(s, e).procs[p]) {
      NextKeepsProcs(s, e, p);
    }
  }

  lemma {:induction false} HistoryKeepsInv(s: Service, es: seq<Event>, t: Service)
    requires SInv(s) && History(s, es, t)
    ensures SInv(t)
    decreases |es|
  {
    if es != [] {
      NextKeepsInv(s, es[0]);
      HistoryKeepsInv(Next(s, es[0]), es[1..], t);
    }
  }

  // ----- theorems ---------------------------------------------------------

  predicate Lossless(e: Event) { !e.Die? && !e.SubmitFails? }

  /** The submitted tasks whose hand-off was lost along a history. */
  ghost function Losses(s: Service, es: seq<Event>, t: Service): set<TaskId>
    requires History(s, es, t)
    decreases |es|
  {
    if es == [] then {} else LostBy(s, es[0]) + Losses(Next(s, es[0]), es[1..], t)
  }

  lemma {:induction false} LosslessLosesNothing(s: Service, es: seq<Event>, t: Service)
    requires History(s, es, t) && forall i :: 0 <= i < |es| ==> Lossless(es[i])
    ensures Losses(s, es, t) == {} && t.dropped <= s.dropped
    decreases |es|
  {
    if es != [] { LosslessLosesNothing(Next(s, es[0]), es[1..], t); }
  }

  /** Once a task is held it stays held, whatever happens, until it is claimed, canceled or lost. */
  lemma {:induction false} HeldUntilLost(s: Service, es: seq<Event>, t: Service, id: TaskId)
    requires SInv(s) && History(s, es, t) && IsSubmitted(t.db, id)
    requires IsSubmitted(s.db, id) ==> SomeoneHolds(s, id)
    ensures id in Losses(s, es, t) || SomeoneHolds(t, id)
    decreases |es|
  {
    if es != [] {
      var u := Next(s, es[0]);
      NextKeepsInv(s, es[0]);
      if IsSubmitted(u.db, id) { HeldStaysHeld(s, es[0], id); }
      if id !in LostBy(s, es[0]) { HeldUntilLost(u, es[1..], t, id); }
    }
  }

  /**
    No submitted task is stranded: unless a process died or a submit failed on
    the way, each one is in a queue, in a worker's hand or inside a submit.
  */
  lemma {:induction false} NothingIsStranded(s: Service, es: seq<Event>, t: Service, id: TaskId)
    requires SInv(s) && s.dropped == {} && History(s, es, t)
    requires forall i :: 0 <= i < |es| ==> Lossless(es[i])
    ensures t.dropped == {}
    ensures IsSubmitted(t.db, id) ==> SomeoneHolds(t, id)
  {
    LosslessLosesNothing(s, es, t);
    if IsSubmitted(t.db, id) { HeldUntilLost(s, es, t, id); }
  }

  /** From a cold start, with any losses: what nobody holds is on record as dropped. */
  lemma EveryTaskIsAccountedFor(es: seq<Event>, t: Service, id: TaskId)
    requires History(COLD, es, t) && IsSubmitted(t.db, id)
    ensures id in t.dropped || SomeoneHolds(t, id)
  {
    HistoryKeepsInv(COLD, es, t);
  }

  /** A submit that reads its task back hands it on exactly when the commitment is its own and the task is still submitted. */
  lemma {:induction false} ReadBackDecides(s: Service, p: Owner, k: nat, id: TaskId)
    requires EventEnabled(s, SubmitReads(p, k, id))
    ensures var t := Next(s, SubmitReads(p, k, id));
            && t.db == s.db && p in t.procs && t.procs[p].queue == s.procs[p].queue
            && (k in t.procs[p].submits <==>
                  s.db.rows[id].commitment == s.procs[p].submits[k].commitment && s.db.rows[id].state == Submitted)
            && (k in t.procs[p].submits ==> t.procs[p].submits[k] == Handing(id))
  {
  }

  /**
    A submit under another commitment than the message is bound to is refused: it
    never enqueues anything, whatever happens before it reads its task back.
  */
  lemma {:induction false} ConflictNeverEnqueues(s: Service, es: seq<Event>, t: Service, p: Owner, k: nat, id: TaskId,
                                                 commitment: Commitment)
    requires SInv(s) && History(s, es, t) && p in s.procs && id in s.db.rows && s.db.rows[id].commitment != commitment
    requires k in s.procs[p].submits ==> s.procs[p].submits[k] == Inserted(s.db.rows[id].messageId, commitment)
    requires forall i :: 0 <= i < |es| ==> es[i] != Die(p) && !(es[i].SubmitBegins? && es[i].p == p && es[i].k == k)
    ensures forall i :: 0 <= i < |es| ==> es[i] != SubmitEnqueues(p, k)
    decreases |es|
  {
    if es != [] {
      var u := Next(s, es[0]);
      NextKeepsInv(s, es[0]);
      EventIsAction(s, es[0]);
      RowStays(s.db, ActionOf(s, es[0]), id);
      ConflictMovesOn(s, es[0], p, k, id, commitment);
      assert forall i :: 0 < i < |es| ==> es[i] == es[1..][i - 1];
      ConflictNeverEnqueues(u, es[1..], t, p, k, id, commitment);
    }
  }

  lemma {:induction false} ConflictMovesOn(s: Service, e: Event, p: Owner, k: nat, id: TaskId, commitment: Commitment)
    requires SInv(s) && Happens(s, e) && p in s.procs && id in s.db.rows && s.db.rows[id].commitment != commitment
    requires k in s.procs[p].submits ==> s.procs[p].submits[k] == Inserted(s.db.rows[id].messageId, commitment)
    requires e != Die(p) && !(e.SubmitBegins? && e.p == p && e.k == k)
    ensures e != SubmitEnqueues(p, k) && p in Next(s, e).procs
    ensures k in Next(s, e).procs[p].submits ==> Next(s, e).procs[p].submits[k] == Inserted(s.db.rows[id].messageId, commitment)
  {
    if ProcOf(e) != Some(p) { OthersStay(s, e, p); }
  }

  // ----- recovery, under every interleaving -------------------------------

  /**
    A resend recovers a task however it was dropped: from its insert on, whatever
    submitters, workers, sweepers and other processes do, the task is held until it
    is claimed, canceled or lost again.
  */
  lemma {:induction false} ResendRecovers(s: Service, p: Owner, k: nat, id: TaskId, stamp: Time, es: seq<Event>, t: Service)
    requires SInv(s) && IsSubmitted(s.db, id) && EventEnabled(s, SubmitInserts(p, k, stamp))
    requires s.procs[p].submits[k] == Sending(s.db.rows[id].messageId, s.db.rows[id].commitment)
    requires History(Next(s, SubmitInserts(p, k, stamp)), es, t) && IsSubmitted(t.db, id)
    ensures id in Losses(Next(s, SubmitInserts(p, k, stamp)), es, t) || SomeoneHolds(t, id)
  {
    var e := SubmitInserts(p, k, stamp);
    var u := Next(s, e);
    NextKeepsInv(s, e);
    EventIsAction(s, e);
    RowStays(s.db, ActionOf(s, e), id);
    assert SubmitHolds(u.db, u.procs[p].submits[k], id);
    assert Holds(u.db, u.procs[p], id);
    HeldUntilLost(u, es, t, id);
  }

  /** The process still has the task on its start-up listing. */
  predicate Pending(s: Service, p: Owner, id: TaskId) {
    p in s.procs && s.procs[p].phase.Recovering? && id in s.procs[p].phase.left
  }

  lemma {:induction false} PendingMovesOn(s: Service, e: Event, p: Owner, id: TaskId)
    requires Happens(s, e) && Pending(s, p, id) && e != Die(p)
    ensures Pending(Next(s, e), p, id) || SomeoneHolds(Next(s, e), id)
  {
    var t := Next(s, e);
    if ProcOf(e) != Some(p) {
      OthersStay(s, e, p);
    } else if e.EnqueuePending? && id == s.procs[p].phase.left[0] {
      assert id in t.procs[p].queue;
      assert Holds(t.db, t.procs[p], id);
    }
  }

  /** Along any history in which the process lives: what is pending or held stays so, until claimed, canceled or lost. */
  lemma {:induction false} PendingUntilLost(s: Service, es: seq<Event>, t: Service, p: Owner, id: TaskId)
    requires SInv(s) && History(s, es, t) && IsSubmitted(t.db, id)
    requires forall i :: 0 <= i < |es| ==> es[i] != Die(p)
    requires IsSubmitted(s.db, id) ==> Pending(s, p, id) || SomeoneHolds(s, id)
    ensures id in Losses(s, es, t) || Pending(t, p, id) || SomeoneHolds(t, id)
    decreases |es|
  {
    if !IsSubmitted(s.db, id) || SomeoneHolds(s, id) {
      HeldUntilLost(s, es, t, id);
    } else if es != [] {
      NextKeepsInv(s, es[0]);
      PendingMovesOn(s, es[0], p, id);
      PendingUntilLost(Next(s, es[0]), es[1..], t, p, id);
    }
  }

  /**
    A restart recovers everything, under every interleaving: the worker runs while
    the listing is enqueued, and submitters, other processes and sweepers act as
    they please.  Once the process that listed has enqueued its listing, every
    submitted task, dropped before or not, is held, but for those lost since.
  */
  lemma {:induction false} RestartRecovers(s: Service, p: Owner, ids: seq<TaskId>, es: seq<Event>, t: Service, id: TaskId)
    requires SInv(s) && Happens(s, ListPending(p, ids)) && History(Next(s, ListPending(p, ids)), es, t)
    requires forall i :: 0 <= i < |es| ==> es[i] != Die(p)
    requires p in t.procs && (t.procs[p].phase.Serving? || t.procs[p].phase == Recovering([])) && IsSubmitted(t.db, id)
    ensures id in Losses(Next(s, ListPending(p, ids)), es, t) || SomeoneHolds(t, id)
    ensures (forall i :: 0 <= i < |es| ==> Lossless(es[i])) ==> SomeoneHolds(t, id)
  {
    var u := Next(s, ListPending(p, ids));
    NextKeepsInv(s, ListPending(p, ids));
    PendingUntilLost(u, es, t, p, id);
    if forall i :: 0 <= i < |es| ==> Lossless(es[i]) { LosslessLosesNothing(u, es, t); }
  }

  /** How many tasks the process has enqueued from its listing, and how many its worker has taken. */
  function Enqueues(es: seq<Event>, p: Owner): nat {
    if es == [] then 0 else (if es[0] == EnqueuePending(p) then 1 else 0) + Enqueues(es[1..], p)
  }

  function Takes(es: seq<Event>, p: Owner): nat {
    if es == [] then 0 else (if es[0] == WorkerTakes(p) then 1 else 0) + Takes(es[1..], p)
  }

  /** Recovery goes through its listing in order, one enqueue each, and serves no request before its end. */
  lemma {:induction false} RecoveryIsInOrder(s: Service, es: seq<Event>, t: Service, p: Owner)
    requires History(s, es, t) && p in s.procs && s.procs[p].phase.Recovering?
    requires forall i :: 0 <= i < |es| ==> es[i] != Die(p)
    ensures p in t.procs
    ensures var left, n := s.procs[p].phase.left, Enqueues(es, p);
            && n <= |left|
            && (t.procs[p].phase == Recovering(left[n..]) || (n == |left| && t.procs[p].phase.Serving?))
    decreases |es|
  {
    if es != [] {
      var u := Next(s, es[0]);
      if ProcOf(es[0]) != Some(p) { OthersStay(s, es[0], p); }
      if u.procs[p].phase.Serving? {
        ServingStays(u, es[1..], t, p);
      } else {
        RecoveryIsInOrder(u, es[1..], t, p);
      }
    }
  }

  lemma {:induction false} ServingStays(s: Service, es: seq<Event>, t: Service, p: Owner)
    requires History(s, es, t) && p in s.procs && s.procs[p].phase.Serving?
    requires forall i :: 0 <= i < |es| ==> es[i] != Die(p)
    ensures p in t.procs && t.procs[p].phase.Serving? && Enqueues(es, p) == 0
    decreases |es|
  {
    if es != [] {
      if ProcOf(es[0]) != Some(p) { OthersStay(s, es[0], p); }
      ServingStays(Next(s, es[0]), es[1..], t, p);
    }
  }

  /** A service history is, seen from the store, a run of the ledger protocol. */
  lemma {:induction false} HistoryIsProtocolRun(s: Service, es: seq<Event>, t: Service) returns (acts: seq<Action>)
    requires History(s, es, t)
    ensures Steps(s.db, acts, t.db) && |acts| == |es|
    decreases |es|
  {
    if es == [] {
      acts := [];
    } else {
      EventIsAction(s, es[0]);
      acts := HistoryIsProtocolRun(Next(s, es[0]), es[1..], t);
      acts := [ActionOf(s, es[0])] + acts;
    }
  }

  /** Duplicate queue entries, retries, restarts and rival processes never cause a second claim. */
  lemma DuplicatesNeverClaimTwice(es: seq<Event>, t: Service, id: TaskId)
    requires History(COLD, es, t) && id in t.db.rows
    ensures t.db.rows[id].runCount <= 1
  {
    var acts := HistoryIsProtocolRun(COLD, es, t);
    ReachableInv(acts, t.db);
  }

  // ----- the worker, under every interleaving ------------------------------

  /** What the worker has in its hand is claimed or canceled before it puts it down, unless the attempt raises. */
  lemma {:induction false} TakenIsSettled(s: Service, es: seq<Event>, t: Service, p: Owner, id: TaskId)
    requires SInv(s) && History(s, es, t) && p in s.procs && id in s.db.rows
    requires forall i :: 0 <= i < |es| ==> es[i] != Die(p) && es[i] != ExecuteRaises(p)
    requires IsSubmitted(s.db, id) ==> s.procs[p].hand == Taken(id)
    ensures p in t.procs && (IsSubmitted(t.db, id) ==> t.procs[p].hand == Taken(id))
    decreases |es|
  {
    if es != [] {
      var u := Next(s, es[0]);
      NextKeepsInv(s, es[0]);
      EventIsAction(s, es[0]);
      RowStays(s.db, ActionOf(s, es[0]), id);
      if IsSubmitted(s.db, id) { HandMovesOn(s, es[0], p, id); } else { QueueMovesOn(s, es[0], p); }
      TakenIsSettled(u, es[1..], t, p, id);
    }
  }

  lemma {:induction false} HandMovesOn(s: Service, e: Event, p: Owner, id: TaskId)
    requires SInv(s) && Happens(s, e) && p in s.procs && e != Die(p) && e != ExecuteRaises(p)
    requires s.procs[p].hand == Taken(id)
    ensures p in Next(s, e).procs && (Next(s, e).procs[p].hand == Taken(id) || !IsSubmitted(Next(s, e).db, id))
  {
    if ProcOf(e) != Some(p) { OthersStay(s, e, p); }
  }

  /** Whatever happens, a worker's queue only loses its head, to its worker, and only grows at its end, a task at a time. */
  lemma {:induction false} QueueMovesOn(s: Service, e: Event, p: Owner)
    requires Happens(s, e) && p in s.procs && e != Die(p)
    ensures p in Next(s, e).procs
    ensures if e == WorkerTakes(p)
            then Next(s, e).procs[p].queue == s.procs[p].queue[1..] && Next(s, e).procs[p].hand == Taken(s.procs[p].queue[0])
            else s.procs[p].queue <= Next(s, e).procs[p].queue
    ensures e != WorkerTakes(p) ==>
              |Next(s, e).procs[p].queue| == |s.procs[p].queue|
                + if e == EnqueuePending(p) || e == WorkerRequeues(p) || (e.SubmitEnqueues? && e.p == p) then 1 else 0
  {
    if ProcOf(e) != Some(p) { OthersStay(s, e, p); }
  }

  /**
    Queued tasks are attempted in order, under every interleaving: when the worker
    has taken more than i tasks since, the i-th entry of its queue is submitted no
    more, or is the one in its hand about to be claimed; no attempt having raised.
  */
  lemma {:induction false} WorkerDrainsQueue(s: Service, es: seq<Event>, t: Service, p: Owner, i: nat)
    requires SInv(s) && History(s, es, t) && p in s.procs && i < |s.procs[p].queue| && i < Takes(es, p)
    requires forall j :: 0 <= j < |es| ==> es[j] != Die(p) && es[j] != ExecuteRaises(p)
    ensures p in t.procs && (IsSubmitted(t.db, s.procs[p].queue[i]) ==> t.procs[p].hand == Taken(s.procs[p].queue[i]))
    decreases |es|
  {
    var u, id := Next(s, es[0]), s.procs[p].queue[i];
    NextKeepsInv(s, es[0]);
    QueueMovesOn(s, es[0], p);
    if es[0] != WorkerTakes(p) {
      WorkerDrainsQueue(u, es[1..], t, p, i);
    } else if i > 0 {
      WorkerDrainsQueue(u, es[1..], t, p, i - 1);
    } else {
      TakenIsSettled(u, es[1..], t, p, id);
    }
  }

  // ----- nothing above is vacuous: recoveries and workers can always go on --

  /** Resending the same submission to a serving process can queue the task again, and changes no row. */
  lemma ResendCanSucceed(s: Service, p: Owner, k: nat, id: TaskId, stamp: Time) returns (es: seq<Event>, t: Service)
    requires SInv(s) && IsSubmitted(s.db, id)
    requires p in s.procs && s.procs[p].phase.Serving? && k !in s.procs[p].submits
    ensures |es| == 4 && History(s, es, t)
    ensures es[0] == SubmitBegins(p, k, s.db.rows[id].messageId, s.db.rows[id].commitment)
    ensures t.db.rows == s.db.rows && p in t.procs && t.procs[p].queue == s.procs[p].queue + [id] && t.dropped == s.dropped - {id}
  {
    var e0 := SubmitBegins(p, k, s.db.rows[id].messageId, s.db.rows[id].commitment);
    var s1 := Next(s, e0);
    var e1 := SubmitInserts(p, k, stamp);
    var s2 := Next(s1, e1);
    assert s2.db.rows == s.db.rows;
    var e2 := SubmitReads(p, k, id);
    var s3 := Next(s2, e2);
    var e3 := SubmitEnqueues(p, k);
    t := Next(s3, e3);
    es := [e0, e1, e2, e3];
    assert History(t, es[4..], t);
    assert es[3..][1..] == es[4..] && es[2..][1..] == es[3..] && es[1..][1..] == es[2..];
    assert History(s3, es[3..], t);
    assert History(s2, es[2..], t);
    assert History(s1, es[1..], t);
  }

  /** A restart can enqueue every submitted task, dropped or not, by its own steps. */
  lemma RestartCanFinish(s: Service, p: Owner, ids: seq<TaskId>) returns (es: seq<Event>, t: Service)
    requires Happens(s, ListPending(p, ids))
    ensures History(s, [ListPending(p, ids)] + es, t)
    ensures forall i :: 0 <= i < |es| ==> es[i] == EnqueuePending(p)
    ensures t.db == s.db && p in t.procs && t.procs[p].phase == Recovering([])
    ensures forall id :: IsSubmitted(t.db, id) ==> id in t.procs[p].queue && id !in t.dropped
  {
    var e := ListPending(p, ids);
    es, t := RecoveryCanFinish(Next(s, e), p);
    HistoryCons(s, e, es, t);
  }

  /** From any state a recovery can be carried through by its own steps, in order, behind what is queued already. */
  lemma {:induction false} RecoveryCanFinish(s: Service, p: Owner) returns (es: seq<Event>, t: Service)
    requires p in s.procs && s.procs[p].phase.Recovering?
    ensures History(s, es, t) && t.db == s.db && p in t.procs
    ensures forall i :: 0 <= i < |es| ==> es[i] == EnqueuePending(p)
    ensures t.procs[p].queue == s.procs[p].queue + s.procs[p].phase.left && t.procs[p].phase == Recovering([])
    ensures t.dropped == s.dropped - set id | id in s.procs[p].phase.left
    decreases |s.procs[p].phase.left|
  {
    var left := s.procs[p].phase.left;
    if left == [] {
      es, t := [], s;
      assert s.procs[p].queue + left == s.procs[p].queue;
    } else {
      var e := EnqueuePending(p);
      es, t := RecoveryCanFinish(Next(s, e), p);
      assert left == [left[0]] + left[1..];
      HistoryCons(s, e, es, t);
      es := [e] + es;
    }
  }

  /** One round of the worker: the head of its queue is claimed, if nobody claimed or canceled it before. */
  lemma WorkerRound(s: Service, p: Owner, lease: Time) returns (es: seq<Event>, t: Service)
    requires SInv(s) && p in s.procs && s.procs[p].hand.Idle? && s.procs[p].queue != []
    ensures |es| == 3 && SInv(t) && p in t.procs
    ensures History(s, es, t)
    ensures t.procs[p] == s.procs[p].(queue := s.procs[p].queue[1..])
    ensures s.procs[p].queue[0] in t.db.rows && !IsSubmitted(t.db, s.procs[p].queue[0])
    ensures forall id :: id in s.db.rows && !IsSubmitted(s.db, id) ==> id in t.db.rows && !IsSubmitted(t.db, id)
  {
    var e0, e1, e2 := WorkerTakes(p), WorkerClaims(p, lease, s.db.clock), ExecuteReturns(p);
    var s1 := Next(s, e0);
    NextKeepsInv(s, e0);
    var s2 := Next(s1, e1);
    NextKeepsInv(s1, e1);
    DbStepIsStable(s1.db, ActionOf(s1, e1));
    t := Next(s2, e2);
    NextKeepsInv(s2, e2);
    ThreeEvents(s, e0, e1, e2);
    es := [e0, e1, e2];
  }

  lemma ThreeEvents(s: Service, e0: Event, e1: Event, e2: Event)
    requires Happens(s, e0) && Happens(Next(s, e0), e1) && Happens(Next(Next(s, e0), e1), e2)
    ensures History(s, [e0, e1, e2], Next(Next(Next(s, e0), e1), e2))
  {
    var s1, s2 := Next(s, e0), Next(Next(s, e0), e1);
    var t := Next(s2, e2);
    HistoryCons(s2, e2, [], t);
    HistoryCons(s1, e1, [e2], t);
    HistoryCons(s, e0, [e1, e2], t);
    assert [e1] + [e2] == [e1, e2] && [e0] + [e1, e2] == [e0, e1, e2];
  }

  /** Round by round, a worker can empty its queue: nothing that was in it stays submitted. */
  lemma {:induction false} WorkerCanDrain(s: Service, p: Owner, lease: Time) returns (es: seq<Event>, t: Service)
    requires SInv(s) && p in s.procs && s.procs[p].hand.Idle?
    ensures History(s, es, t) && |es| == 3 * |s.procs[p].queue| && SInv(t)
    ensures p in t.procs && t.procs[p].queue == [] && t.procs[p].hand.Idle?
    ensures forall id :: id in s.procs[p].queue ==> id in t.db.rows && !IsSubmitted(t.db, id)
    ensures forall id :: id in s.db.rows && !IsSubmitted(s.db, id) ==> id in t.db.rows && !IsSubmitted(t.db, id)
    decreases |s.procs[p].queue|
  {
    if s.procs[p].queue == [] {
      es, t := [], s;
    } else {
      var first, s3 := WorkerRound(s, p, lease);
      var rest;
      rest, t := WorkerCanDrain(s3, p, lease);
      HistoryAppend(s, first, s3, rest, t);
      es := first + rest;
      var head, tail := s.procs[p].queue[0], s3.procs[p].queue;
      forall id | id in s.procs[p].queue ensures id in t.db.rows && !IsSubmitted(t.db, id) {
        assert id == head || id in tail;
      }
    }
  }

  lemma {:induction false} HistoryAppend(s: Service, a: seq<Event>, t: Service, b: seq<Event>, u: Service)
    requires History(s, a, t) && History(t, b, u)
    ensures History(s, a + b, u)
    decreases |a|
  {
    if a == [] {
      assert a + b == b;
    } else {
      HistoryAppend(Next(s, a[0]), a[1..], t, b, u);
      assert (a + b)[1..] == a[1..] + b;
    }
  }

  lemma HistoryCons(s: Service, e: Event, es: seq<Event>, t: Service)
    requires Happens(s, e) && History(Next(s, e), es, t)
    ensures History(s, [e] + es, t)
  {
    assert ([e] + es)[1..] == es;
  }
}
