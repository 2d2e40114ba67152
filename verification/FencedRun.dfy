/**
  The research run under the ledger's fence: what `execute` runs, with a
  checkpoint that asks the store.  The ledger moves on between the run's events
  as anybody pleases.
*/
module FencedRun {
  import opened Prelude
  import opened Protocol
  import opened Fence
  import Ledger
  import Research

  /** The ledger at each event of a run, and the transactions that led there. */
  ghost predicate Unfolds(dbs: nat -> Db, acts: nat -> seq<Action>) {
    Inv(dbs(0)) && forall i: nat, j: nat :: j == i + 1 ==> Steps(dbs(i), acts(j), dbs(j))
  }

  lemma {:induction false} UnfoldsKeepsInv(dbs: nat -> Db, acts: nat -> seq<Action>, i: nat)
    requires Unfolds(dbs, acts)
    ensures Inv(dbs(i))
  {
    if i > 0 {
      UnfoldsKeepsInv(dbs, acts, i - 1);
      StepsKeepInv(dbs(i - 1), acts(i), dbs(i));
    }
  }

  /** What `run_active` answers at each event. */
  function FenceOf(dbs: nat -> Db, id: Ledger.TaskId, owner: Ledger.Owner, run: Ledger.RunId): nat -> bool {
    (i: nat) => FenceOpen(dbs(i), id, owner, run)
  }

  /** A trace whose checkpoints were honest about this fence has been observed against this ledger. */
  lemma HonestIsObserved(t: seq<Event>, dbs: nat -> Db, acts: nat -> seq<Action>, id: Ledger.TaskId, owner: Ledger.Owner,
                         run: Ledger.RunId)
    requires Unfolds(dbs, acts) && Honest(t, FenceOf(dbs, id, owner, run))
    ensures Observed(t, seq(|t|, i requires 0 <= i < |t| => dbs(i)), seq(|t|, i requires 0 <= i < |t| => acts(i)), id, owner, run)
  {
    var seen := seq(|t|, i requires 0 <= i < |t| => dbs(i));
    var done := seq(|t|, i requires 0 <= i < |t| => acts(i));
    forall i | 0 < i < |t| ensures Steps(seen[i - 1], done[i], seen[i]) {
      assert Steps(dbs(i - 1), acts(i), dbs(i));
    }
  }

  lemma HonestRunStops(t: seq<Event>, dbs: nat -> Db, acts: nat -> seq<Action>, id: Ledger.TaskId, owner: Ledger.Owner,
                       run: Ledger.RunId, c: nat)
    requires Unfolds(dbs, acts) && Guarded(t) && Honest(t, FenceOf(dbs, id, owner, run))
    requires run < dbs(c).issued && !FenceOpen(dbs(c), id, owner, run)
    ensures |CallsFrom(t, c)| <= 1
  {
    if c < |t| {
      HonestIsObserved(t, dbs, acts, id, owner, run);
      UnfoldsKeepsInv(dbs, acts, c);
      ClosedFenceStopsRun(t, seq(|t|, i requires 0 <= i < |t| => dbs(i)), seq(|t|, i requires 0 <= i < |t| => acts(i)),
                          id, owner, run, c);
    } else {
      assert CallsFrom(t, c) == {};
    }
  }

  /**
    The run itself, against any world and any ledger history: from the first
    event at which the fence of its issued run is closed, by a cancel request, an
    expired lease or a finished row, it begins at most one more call.
  */
  method ResearchUnderLedger(policy: Research.Policy, validRequest: bool, authorities: set<string>, seeds: seq<Research.Record>,
                             world: Research.World, oversized: nat -> bool, dbs: nat -> Db, ghost acts: nat -> seq<Action>,
                             id: Ledger.TaskId, owner: Ledger.Owner, run: Ledger.RunId)
    returns (trace: seq<Event>, out: Research.Outcome)
    requires Unfolds(dbs, acts)
    ensures forall c: nat :: run < dbs(c).issued && !FenceOpen(dbs(c), id, owner, run) ==> |CallsFrom(trace, c)| <= 1
    ensures out.Stopped? <==> LastIs(trace, Check(false))
  {
    var r := new Research.Run(FenceOf(dbs, id, owner, run), world, oversized, policy, seeds);
    out := r.ResearchCluster(validRequest, authorities);
    trace := r.trace;
    forall c: nat | run < dbs(c).issued && !FenceOpen(dbs(c), id, owner, run) ensures |CallsFrom(trace, c)| <= 1 {
      HonestRunStops(trace, dbs, acts, id, owner, run, c);
    }
  }
}
