/**
  The run as its outside world sees it: a trace of checkpoint answers and of
  calls begun.  If every call directly follows a passed checkpoint, then a fence
  that has closed lets at most one more call begin.
*/
module Fence {
  import opened Prelude
  import opened Ledger
  import opened Protocol

  /** An archive put with its read-back is one call, as is a fetch with its redirects. */
  datatype Call = Plan | Search(query: string) | Fetch(url: string) | Put | Verify(id: string) | Synthesize

  datatype Event = Check(open: bool) | Begin(call: Call)

  ghost predicate Guarded(t: seq<Event>) {
    && (forall i :: 0 <= i < |t| && t[i].Begin? ==> i > 0 && t[i - 1] == Check(true))
    && (forall i :: 0 <= i < |t| && t[i] == Check(false) ==> i == |t| - 1)
  }

  predicate LastIs(t: seq<Event>, e: Event) { t != [] && t[|t| - 1] == e }

  lemma GuardedSnoc(t: seq<Event>, e: Event)
    requires Guarded(t) && !LastIs(t, Check(false)) && (e.Begin? ==> LastIs(t, Check(true)))
    ensures Guarded(t + [e])
  {
  }

  /** Every checkpoint on the trace answered what the fence said at its moment. */
  ghost predicate Honest(t: seq<Event>, fence: nat -> bool) {
    forall i :: 0 <= i < |t| && t[i].Check? ==> t[i].open == fence(i)
  }

  lemma HonestSnoc(t: seq<Event>, e: Event, fence: nat -> bool)
    requires Honest(t, fence) && (e.Check? ==> e.open == fence(|t|))
    ensures Honest(t + [e], fence)
  {
  }

  /** The calls begun at event c or later. */
  function CallsFrom(t: seq<Event>, c: nat): set<nat> {
    set i | c <= i < |t| && t[i].Begin?
  }

  lemma AtMostOneCallAfterClose(t: seq<Event>, c: nat)
    requires Guarded(t)
    requires forall i :: c <= i < |t| ==> t[i] != Check(true)
    ensures |CallsFrom(t, c)| <= 1
  {
    assert CallsFrom(t, c) <= {c} by {
      forall i | i in CallsFrom(t, c) ensures i == c {
        assert t[i - 1] == Check(true);
      }
    }
    if c in CallsFrom(t, c) {
      assert CallsFrom(t, c) == {c};
    } else {
      assert CallsFrom(t, c) == {};
    }
  }

  /**
    dbs[i] is the ledger when event i happens; between events others act as they
    please (`acts[i]`), and a checkpoint answers what the ledger says.
  */
  ghost predicate Observed(t: seq<Event>, dbs: seq<Db>, acts: seq<seq<Action>>, id: TaskId, owner: Owner, run: RunId) {
    && |t| == |dbs| == |acts|
    && (forall i :: 0 < i < |t| ==> Steps(dbs[i - 1], acts[i], dbs[i]))
    && (forall i :: 0 <= i < |t| && t[i].Check? ==> (t[i].open <==> FenceOpen(dbs[i], id, owner, run)))
  }

  lemma {:induction false} ClosedFromThenOn(t: seq<Event>, dbs: seq<Db>, acts: seq<seq<Action>>, id: TaskId,
                                            owner: Owner, run: RunId, c: nat, i: nat)
    requires Observed(t, dbs, acts, id, owner, run) && c <= i < |t|
    requires Inv(dbs[c]) && run < dbs[c].issued && !FenceOpen(dbs[c], id, owner, run)
    ensures Inv(dbs[i]) && run < dbs[i].issued && !FenceOpen(dbs[i], id, owner, run)
    decreases i
  {
    if c < i {
      ClosedFromThenOn(t, dbs, acts, id, owner, run, c, i - 1);
      StepsKeepInv(dbs[i - 1], acts[i], dbs[i]);
      FenceIsSticky(dbs[i - 1], acts[i], dbs[i], id, owner, run);
    }
  }

  /**
    Once the fence of an issued run has closed, by a cancel request, an expired
    lease or a finished row, the run begins at most one further call, whatever
    transactions others perform meanwhile.
  */
  lemma ClosedFenceStopsRun(t: seq<Event>, dbs: seq<Db>, acts: seq<seq<Action>>, id: TaskId, owner: Owner,
                            run: RunId, c: nat)
    requires Guarded(t) && Observed(t, dbs, acts, id, owner, run) && c < |t|
    requires Inv(dbs[c]) && run < dbs[c].issued && !FenceOpen(dbs[c], id, owner, run)
    ensures |CallsFrom(t, c)| <= 1
  {
    forall i | c <= i < |t| ensures t[i] != Check(true) {
      ClosedFromThenOn(t, dbs, acts, id, owner, run, c, i);
    }
    AtMostOneCallAfterClose(t, c);
  }

  /** A timeout or a cancellation only cuts a trace short, and every prefix is guarded too. */
  lemma PrefixIsGuarded(t: seq<Event>, n: nat)
    requires Guarded(t) && n <= |t|
    ensures Guarded(t[..n])
  {
  }
}
