/** Which messages the alternation repair removes, for every set of chosen messages. */
module CompactionRepair {
  import opened Prelude
  import opened Compaction

  /** b is the message next after a among those kept. */
  ghost predicate NextKept(kept: set<nat>, a: nat, b: nat) {
    a in kept && b in kept && a < b && forall c: nat :: a < c < b ==> c !in kept
  }

  predicate Alike(ms: seq<Message>, a: nat, b: nat)
    requires a < |ms| && b < |ms|
  {
    ms[a].role == ms[b].role
  }

  /** The kept message before another of its role goes, the older one; but the first message stays, and the one after it goes. */
  ghost predicate Blamed(ms: seq<Message>, first: Option<nat>, kept: set<nat>, gone: nat)
    requires forall i :: i in kept ==> i < |ms|
  {
    || (Some(gone) != first && exists next :: NextKept(kept, gone, next) && Alike(ms, gone, next))
    || (first.Some? && NextKept(kept, first.value, gone) && Alike(ms, first.value, gone))
  }

  /** Neighbours in the sorted order are neighbours among the kept. */
  lemma SortedNeighbours(n: nat, kept: set<nat>, c: nat)
    requires (forall i :: i in kept ==> i < n) && c + 1 < |Sorted(n, kept)|
    ensures NextKept(kept, Sorted(n, kept)[c], Sorted(n, kept)[c + 1])
  {
    var sorted := Sorted(n, kept);
    forall x | x in kept && x > sorted[c] ensures x >= sorted[c + 1] {
      var k := Position(n, kept, x);
    }
  }

  lemma Position(n: nat, kept: set<nat>, x: nat) returns (k: nat)
    requires x < n && x in kept
    ensures k < |Sorted(n, kept)| && Sorted(n, kept)[k] == x
    ensures forall j :: 0 <= j < |Sorted(n, kept)| ==> (Sorted(n, kept)[j] < x <==> j < k)
  {
    var sorted := Sorted(n, kept);
    assert x in sorted;
    k :| 0 <= k < |sorted| && sorted[k] == x;
  }

  /** What the repair does in one step. */
  function Gone(ms: seq<Message>, first: Option<nat>, kept: set<nat>, c: nat): nat
    requires (forall i :: i in kept ==> i < |ms|) && Clash(ms, Sorted(|ms|, kept)) == Some(c)
  {
    var sorted := Sorted(|ms|, kept);
    if Some(sorted[c]) == first then sorted[c + 1] else sorted[c]
  }

  lemma GoneIsBlamed(ms: seq<Message>, first: Option<nat>, kept: set<nat>, c: nat)
    requires (forall i :: i in kept ==> i < |ms|) && Clash(ms, Sorted(|ms|, kept)) == Some(c)
    ensures Gone(ms, first, kept, c) in kept && Blamed(ms, first, kept, Gone(ms, first, kept, c))
  {
    SortedNeighbours(|ms|, kept, c);
  }

  /** The message went, with a message whose turn it was when only the members of `still` were kept. */
  ghost predicate RemovedAt(ms: seq<Message>, pairs: Pairs, first: Option<nat>, i: nat, still: set<nat>, gone: nat)
    requires forall i :: i in still ==> i < |ms|
  {
    i in still && Blamed(ms, first, still, gone) && (i == gone || i in Partners(pairs, gone))
  }

  ghost predicate RightlyRemoved(ms: seq<Message>, pairs: Pairs, first: Option<nat>, kept: set<nat>, i: nat)
    requires forall i :: i in kept ==> i < |ms|
  {
    exists still: set<nat>, gone: nat :: still <= kept && RemovedAt(ms, pairs, first, i, still, gone)
  }

  /**
    No message is removed without cause: it, or a partner of it, had the role of the
    message next after it among those still kept, or followed the first message
    with the first one's role.
  */
  lemma {:induction false} RemovedOnlyForAClash(ms: seq<Message>, pairs: Pairs, first: Option<nat>, kept: set<nat>, i: nat)
    requires (forall i :: i in kept ==> i < |ms|) && i in kept && i !in Repair(ms, pairs, first, kept)
    ensures RightlyRemoved(ms, pairs, first, kept, i)
    decreases |kept|
  {
    var clash := Clash(ms, Sorted(|ms|, kept));
    if clash.Some? {
      var gone := Gone(ms, first, kept, clash.value);
      GoneIsBlamed(ms, first, kept, clash.value);
      var unit := {gone} + Partners(pairs, gone);
      if i in unit {
        assert RemovedAt(ms, pairs, first, i, kept, gone);
      } else {
        Shrinks(kept, unit, gone);
        RemovedOnlyForAClash(ms, pairs, first, kept - unit, i);
        var still: set<nat>, g: nat :| still <= kept - unit && RemovedAt(ms, pairs, first, i, still, g);
        assert still <= kept;
      }
    }
  }

  // ----- without tool exchanges, exactly ----------------------------------

  /** A kept message outlives the repair if it is the last of a run of one role, and the run is not the first message's. */
  ghost predicate Outlives(ms: seq<Message>, first: nat, kept: set<nat>, i: nat)
    requires forall i :: i in kept ==> i < |ms|
  {
    i in kept &&
    (i == first || (&& (forall next :: NextKept(kept, i, next) ==> !Alike(ms, i, next))
                    && exists m :: m in kept && m < i && !Alike(ms, m, i)))
  }

  ghost predicate StartsAt(kept: set<nat>, first: nat, n: nat) {
    first in kept && forall i :: i in kept ==> first <= i < n
  }

  /** Taking out the older of two neighbours of one role, or the one behind the first, changes nobody else's lot. */
  lemma OthersOutliveAlike(ms: seq<Message>, first: nat, kept: set<nat>, gone: nat, i: nat)
    requires StartsAt(kept, first, |ms|) && gone in kept && Blamed(ms, Some(first), kept, gone) && gone != first
    ensures Outlives(ms, first, kept - {gone}, i) <==> Outlives(ms, first, kept, i)
  {
    var less := kept - {gone};
    if NextKept(kept, first, gone) && Alike(ms, first, gone) {
      BehindFirst(ms, first, kept, gone, i);
    } else {
      var next :| NextKept(kept, gone, next) && Alike(ms, gone, next);
      OlderOfTwo(ms, first, kept, gone, next, i);
    }
  }

  lemma BehindFirst(ms: seq<Message>, first: nat, kept: set<nat>, gone: nat, i: nat)
    requires StartsAt(kept, first, |ms|) && NextKept(kept, first, gone) && Alike(ms, first, gone)
    ensures Outlives(ms, first, kept - {gone}, i) <==> Outlives(ms, first, kept, i)
  {
    var less := kept - {gone};
    if i == gone {
      assert forall m :: m in kept && m < gone ==> m == first;
    } else if i != first && i in kept {
      assert i > gone;
      forall next: nat ensures NextKept(less, i, next) <==> NextKept(kept, i, next) {
        if NextKept(less, i, next) { assert forall c: nat :: i < c < next && c in kept ==> c in less; }
        if NextKept(kept, i, next) { assert forall c: nat :: i < c < next && c in less ==> c in kept; }
      }
      assert forall m :: m in kept && m < i && !Alike(ms, m, i) ==> m == gone || m in less;
    }
  }

  lemma OlderOfTwo(ms: seq<Message>, first: nat, kept: set<nat>, gone: nat, next: nat, i: nat)
    requires StartsAt(kept, first, |ms|) && NextKept(kept, gone, next) && Alike(ms, gone, next) && gone != first
    ensures Outlives(ms, first, kept - {gone}, i) <==> Outlives(ms, first, kept, i)
  {
    var less := kept - {gone};
    if i in less && i != first {
      forall n: nat | NextKept(less, i, n) ensures NextKept(kept, i, n) || (NextKept(kept, i, gone) && n == next) {
        forall c: nat | i < c < n && c in kept ensures c == gone { assert c !in less; }
      }
      forall n: nat | NextKept(kept, i, n) ensures NextKept(less, i, n) || (n == gone && NextKept(less, i, next)) {
        assert forall c: nat :: i < c < n && c in less ==> c in kept;
        assert forall c: nat :: gone < c < next && c in less ==> c in kept;
      }
      assert forall m :: m in kept && m < i && !Alike(ms, m, i) ==> m in less || (m == gone && next in less && next < i);
    }
  }

  lemma NeighboursDiffer(ms: seq<Message>, kept: set<nat>, a: nat, b: nat)
    requires (forall i :: i in kept ==> i < |ms|) && Clash(ms, Sorted(|ms|, kept)).None? && NextKept(kept, a, b)
    ensures !Alike(ms, a, b)
  {
    var sorted := Sorted(|ms|, kept);
    var k := Position(|ms|, kept, a);
    var j := Position(|ms|, kept, b);
    assert sorted[k + 1] in kept && a < sorted[k + 1] <= b;
    assert !SameRole(ms, sorted, k);
  }

  /** Every kept message but the lowest has one right before it. */
  lemma Predecessor(n: nat, kept: set<nat>, first: nat, i: nat) returns (m: nat)
    requires StartsAt(kept, first, n) && i in kept && i != first
    ensures NextKept(kept, m, i)
  {
    var k := Position(n, kept, i);
    var f := Position(n, kept, first);
    m := Sorted(n, kept)[k - 1];
    SortedNeighbours(n, kept, k - 1);
  }

  lemma NoClashOutlives(ms: seq<Message>, first: nat, kept: set<nat>, i: nat)
    requires StartsAt(kept, first, |ms|) && Clash(ms, Sorted(|ms|, kept)).None?
    ensures Outlives(ms, first, kept, i) <==> i in kept
  {
    if i in kept && i != first {
      var m := Predecessor(|ms|, kept, first, i);
      NeighboursDiffer(ms, kept, m, i);
      forall next: nat | NextKept(kept, i, next) ensures !Alike(ms, i, next) { NeighboursDiffer(ms, kept, i, next); }
    }
  }

  /**
    Where no tools are exchanged the repair is told exactly: of each run of messages
    of one role the newest is left, and of the first message's run the first.
  */
  lemma {:induction false} RepairKeepsLastOfRun(ms: seq<Message>, pairs: Pairs, first: nat, kept: set<nat>, i: nat)
    requires StartsAt(kept, first, |ms|) && forall j :: j in kept ==> Partners(pairs, j) == {}
    ensures i in Repair(ms, pairs, Some(first), kept) <==> Outlives(ms, first, kept, i)
    decreases |kept|
  {
    var clash := Clash(ms, Sorted(|ms|, kept));
    if clash.None? {
      NoClashOutlives(ms, first, kept, i);
    } else {
      var gone := Gone(ms, Some(first), kept, clash.value);
      GoneIsBlamed(ms, Some(first), kept, clash.value);
      assert gone != first;
      assert {gone} + Partners(pairs, gone) == {gone};
      Shrinks(kept, {gone}, gone);
      OthersOutliveAlike(ms, first, kept, gone, i);
      RepairKeepsLastOfRun(ms, pairs, first, kept - {gone}, i);
    }
  }

  /** In particular the newest message survives exactly when one of another role is kept before it, or it is the first. */
  lemma NewestOutlives(ms: seq<Message>, pairs: Pairs, first: nat, kept: set<nat>, newest: nat)
    requires StartsAt(kept, first, |ms|) && forall j :: j in kept ==> Partners(pairs, j) == {}
    requires newest in kept && forall i :: i in kept ==> i <= newest
    ensures newest in Repair(ms, pairs, Some(first), kept) <==>
              newest == first || exists m :: m in kept && m < newest && !Alike(ms, m, newest)
  {
    RepairKeepsLastOfRun(ms, pairs, first, kept, newest);
  }

  // ----- system messages ---------------------------------------------------

  /** Once anything is dropped, system messages go: what survives is no system message, or a partner of one that is not. */
  lemma SystemMessagesGo(ms: seq<Message>, tok: Message -> nat, pairs: Pairs, minRecent: int, target: int, i: nat)
    requires IsPairing(ms, pairs) && |NonSystem(ms)| > minRecent && NonSystem(ms) != []
    requires i in Survivors(ms, tok, pairs, minRecent, target)
    ensures i < |ms| && (ms[i].role != System || exists j :: 0 <= j < |ms| && ms[j].role != System && i in Partners(pairs, j))
  {
    ChosenInRange(ms, tok, pairs, minRecent, target);
    ChosenSpeak(ms, tok, pairs, minRecent, target);
    assert i in Chosen(ms, tok, pairs, minRecent, target);
  }

  lemma {:induction false} ChosenSpeak(ms: seq<Message>, tok: Message -> nat, pairs: Pairs, minRecent: int, target: int)
    requires NonSystem(ms) != []
    ensures forall i :: i in Chosen(ms, tok, pairs, minRecent, target) ==> Speaks(ms, pairs, i)
  {
    var first, order := NonSystem(ms)[0], Reverse(NonSystem(ms));
    assert first in NonSystem(ms);
    forall k | 0 <= k < |order| ensures order[k] < |ms| && ms[order[k]].role != System {
      assert order[k] == NonSystem(ms)[|order| - 1 - k];
      assert NonSystem(ms)[|order| - 1 - k] in NonSystem(ms);
    }
    SelectedSpeak(ms, tok, pairs, minRecent, target, order, {first} + Partners(pairs, first));
  }

  ghost predicate Speaks(ms: seq<Message>, pairs: Pairs, i: nat) {
    exists j :: 0 <= j < |ms| && ms[j].role != System && (i == j || i in Partners(pairs, j))
  }

  lemma {:induction false} SelectedSpeak(ms: seq<Message>, tok: Message -> nat, pairs: Pairs, minRecent: int, target: int,
                                         order: seq<nat>, kept: set<nat>)
    requires forall k :: 0 <= k < |order| ==> order[k] < |ms| && ms[order[k]].role != System
    requires forall i :: i in kept ==> Speaks(ms, pairs, i)
    ensures forall i :: i in Select(ms, tok, pairs, minRecent, target, order, kept) ==> Speaks(ms, pairs, i)
    decreases |order|
  {
    if order != [] {
      SelectedSpeak(ms, tok, pairs, minRecent, target, order[1..], kept);
      SelectedSpeak(ms, tok, pairs, minRecent, target, order[1..], kept + ({order[0]} + Partners(pairs, order[0])));
    }
  }
}
