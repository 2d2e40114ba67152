/** What compaction keeps: validity of the conversation, closure, alternation and the budget. */
module CompactionTheorems {
  import opened Prelude
  import opened Compaction

  // ----- any conversation whose pairing is a matching ----------------------

  predicate IsMatching(pairs: Pairs) {
    forall i :: i in pairs ==> |pairs[i]| <= 1
  }

  /** A kept message's partners are kept. */
  ghost predicate Closed(pairs: Pairs, kept: set<nat>) {
    forall i, j :: i in kept && j in Partners(pairs, i) ==> j in kept
  }

  lemma OnlyPartner(ms: seq<Message>, pairs: Pairs, i: nat, j: nat, k: nat)
    requires IsPairing(ms, pairs) && IsMatching(pairs) && j in Partners(pairs, i) && k in Partners(pairs, i)
    ensures j == k
  {
    if j != k {
      SubsetSize({j, k}, pairs[i]);
    }
  }

  lemma UnitIsClosed(ms: seq<Message>, pairs: Pairs, i: nat)
    requires IsPairing(ms, pairs) && IsMatching(pairs)
    ensures Closed(pairs, {i} + Partners(pairs, i)) && |{i} + Partners(pairs, i)| <= 2
  {
    forall a, b | a in {i} + Partners(pairs, i) && b in Partners(pairs, a) ensures b in {i} + Partners(pairs, i) {
      if a != i {
        PartnersAreMutual(ms, pairs, i, a);
        OnlyPartner(ms, pairs, a, b, i);
      }
    }
    if Partners(pairs, i) != {} {
      var j :| j in Partners(pairs, i);
      forall k | k in Partners(pairs, i) ensures k == j { OnlyPartner(ms, pairs, i, j, k); }
      assert {i} + Partners(pairs, i) == {i, j};
    } else {
      assert {i} + Partners(pairs, i) == {i};
    }
  }

  /** Taking a unit out of a closed set leaves it closed. */
  lemma DifferenceIsClosed(ms: seq<Message>, pairs: Pairs, kept: set<nat>, i: nat)
    requires IsPairing(ms, pairs) && IsMatching(pairs) && Closed(pairs, kept)
    ensures Closed(pairs, kept - ({i} + Partners(pairs, i)))
  {
    var unit := {i} + Partners(pairs, i);
    UnitIsClosed(ms, pairs, i);
    forall a, b | a in kept - unit && b in Partners(pairs, a) ensures b in kept - unit {
      if b in unit {
        PartnersAreMutual(ms, pairs, a, b);
      }
    }
  }

  lemma {:induction false} RepairIsClosed(ms: seq<Message>, pairs: Pairs, first: Option<nat>, kept: set<nat>)
    requires IsPairing(ms, pairs) && IsMatching(pairs) && Closed(pairs, kept)
    requires forall i :: i in kept ==> i < |ms|
    ensures Closed(pairs, Repair(ms, pairs, first, kept))
    decreases |kept|
  {
    var sorted := Sorted(|ms|, kept);
    var clash := Clash(ms, sorted);
    if clash.Some? {
      var gone := if Some(sorted[clash.value]) == first then sorted[clash.value + 1] else sorted[clash.value];
      assert gone in kept;
      Shrinks(kept, {gone} + Partners(pairs, gone), gone);
      DifferenceIsClosed(ms, pairs, kept, gone);
      RepairIsClosed(ms, pairs, first, kept - ({gone} + Partners(pairs, gone)));
    }
  }

  function Most(minRecent: int): nat { if minRecent > 0 then minRecent + 2 else 2 }

  /** Over the target, the choice has stopped at most one unit past its floor. */
  ghost predicate WithinBudget(ms: seq<Message>, tok: Message -> nat, minRecent: int, target: int, kept: set<nat>) {
    Sum(ms, tok, kept) <= target || |kept| <= Most(minRecent)
  }

  lemma {:induction false} SelectIsClosedAndBounded(ms: seq<Message>, tok: Message -> nat, pairs: Pairs, minRecent: int,
                                                    target: int, order: seq<nat>, kept: set<nat>)
    requires IsPairing(ms, pairs) && IsMatching(pairs) && Closed(pairs, kept)
    requires WithinBudget(ms, tok, minRecent, target, kept)
    ensures Closed(pairs, Select(ms, tok, pairs, minRecent, target, order, kept))
    ensures WithinBudget(ms, tok, minRecent, target, Select(ms, tok, pairs, minRecent, target, order, kept))
    decreases |order|
  {
    if order != [] {
      var required := {order[0]} + Partners(pairs, order[0]);
      if order[0] in kept {
        SelectIsClosedAndBounded(ms, tok, pairs, minRecent, target, order[1..], kept);
      } else if |kept| - 1 < minRecent || Sum(ms, tok, kept) + Sum(ms, tok, required - kept) <= target {
        UnitIsClosed(ms, pairs, order[0]);
        TokensSplit(ms, tok, kept, required - kept, |ms|);
        assert kept + (required - kept) == kept + required;
        SubsetSize(required - kept, required);
        assert |kept + (required - kept)| == |kept| + |required - kept|;
        SelectIsClosedAndBounded(ms, tok, pairs, minRecent, target, order[1..], kept + required);
      }
    }
  }

  /**
    When every message exchanges tools with at most one other, a compacted
    history is closed under pairing, has no two equal adjacent roles, and either
    fits the target or holds at most minRecent + 2 messages.
  */
  lemma CompactionIsSound(ms: seq<Message>, tok: Message -> nat, pairs: Pairs, minRecent: int, target: int)
    requires IsPairing(ms, pairs) && IsMatching(pairs)
    requires |NonSystem(ms)| > minRecent && NonSystem(ms) != []
    ensures var kept := Survivors(ms, tok, pairs, minRecent, target);
            && Closed(pairs, kept)
            && (Sum(ms, tok, kept) <= target || |kept| <= Most(minRecent))
    ensures var out := Compacted(ms, tok, pairs, minRecent, target);
            forall k, l :: 0 <= k && l == k + 1 < |out| ==> out[k].role != out[l].role
  {
    var first := NonSystem(ms)[0];
    UnitIsClosed(ms, pairs, first);
    SelectIsClosedAndBounded(ms, tok, pairs, minRecent, target, Reverse(NonSystem(ms)), {first} + Partners(pairs, first));
    ChosenInRange(ms, tok, pairs, minRecent, target);
    var chosen := Chosen(ms, tok, pairs, minRecent, target);
    RepairIsClosed(ms, pairs, Some(first), chosen);
    var kept := Repair(ms, pairs, Some(first), chosen);
    TokensOfSubset(ms, tok, kept, chosen, |ms|);
    SubsetSize(kept, chosen);
    RolesDiffer(ms, kept);
  }

  lemma RolesDiffer(ms: seq<Message>, kept: set<nat>)
    requires (forall i :: i in kept ==> i < |ms|) && Clash(ms, Sorted(|ms|, kept)).None?
    ensures var out := Pick(ms, Sorted(|ms|, kept));
            forall k, l :: 0 <= k && l == k + 1 < |out| ==> out[k].role != out[l].role
  {
    var sorted := Sorted(|ms|, kept);
    var out := Pick(ms, sorted);
    forall k, l | 0 <= k && l == k + 1 < |out| ensures out[k].role != out[l].role {
      assert !SameRole(ms, sorted, k);
    }
  }

  // ----- well-formed conversations -----------------------------------------

  function RoleAt(i: nat): Role { if i % 2 == 0 then User else Assistant }

  ghost predicate Alternating(ms: seq<Message>) {
    forall i :: 0 <= i < |ms| ==> ms[i].role == RoleAt(i)
  }

  /**
    User first, strictly alternating; only assistants use tools; every use is
    answered in the next message, every result answers the previous one, and no
    id is used or answered in two messages.
  */
  ghost predicate WellFormed(ms: seq<Message>) {
    && Alternating(ms)
    && (forall i, id :: 0 <= i < |ms| && Uses(ms[i], id) ==> i % 2 == 1 && i + 1 < |ms| && Answers(ms[i + 1], id))
    && (forall i, id :: 0 <= i < |ms| && Answers(ms[i], id) ==> i > 0 && Uses(ms[i - 1], id))
    && (forall i, j, id :: 0 <= i < |ms| && 0 <= j < |ms| && Uses(ms[i], id) && Uses(ms[j], id) ==> i == j)
    && (forall i, j, id :: 0 <= i < |ms| && 0 <= j < |ms| && Answers(ms[i], id) && Answers(ms[j], id) ==> i == j)
  }

  /** In a well-formed conversation, an assistant's partner is the next message and a user's the previous one. */
  ghost predicate Neighbourly(n: nat, pairs: Pairs) {
    forall i: nat, j: nat :: j in Partners(pairs, i) ==> i < n && j < n && (if i % 2 == 1 then j == i + 1 else j == i - 1)
  }

  lemma PartnersAreNeighbours(ms: seq<Message>, pairs: Pairs)
    requires WellFormed(ms) && IsPairing(ms, pairs)
    ensures Neighbourly(|ms|, pairs)
  {
    forall i: nat, j: nat | j in Partners(pairs, i)
      ensures i < |ms| && j < |ms| && (if i % 2 == 1 then j == i + 1 else j == i - 1)
    {
      var id :| Exchange(ms, i, j, id);
      LastUseIsLast(ms, id);
      LastAnswerIsLast(ms, id);
    }
  }

  /** The first message and everything from s on. */
  function Suffix(s: nat, n: nat): (r: set<nat>)
    ensures forall i: nat :: i in r <==> i < n && (i == 0 || s <= i)
  {
    set i | i in Below(n) && (i == 0 || s <= i)
  }

  lemma {:induction false} SuffixSize(s: nat, n: nat)
    requires 1 <= s <= n
    ensures |Suffix(s, n)| == n - s + 1
    decreases n - s
  {
    if s == n {
      assert Suffix(s, n) == {0};
    } else {
      SuffixSize(s + 1, n);
      assert Suffix(s, n) == Suffix(s + 1, n) + {s};
    }
  }

  /** The message below a suffix, with its partners, extends the suffix. */
  lemma UnitExtends(n: nat, pairs: Pairs, s: nat) returns (t: nat)
    requires Neighbourly(n, pairs) && 2 <= s <= n
    ensures 1 <= t && s - 2 <= t <= s - 1
    ensures t == (if Partners(pairs, s - 1) != {} && s % 2 == 1 then s - 2 else s - 1)
    ensures Suffix(s, n) + ({s - 1} + Partners(pairs, s - 1)) == Suffix(t, n)
  {
    var mates := Partners(pairs, s - 1);
    t := if mates != {} && (s - 1) % 2 == 0 then s - 2 else s - 1;
    forall j | j in mates ensures j == (if (s - 1) % 2 == 1 then s else s - 2) && j < n {}
    if mates != {} {
      var j :| j in mates;
    }
  }

  ghost predicate CountsDown(order: seq<nat>) {
    forall k :: 0 <= k < |order| ==> order[k] == |order| - 1 - k
  }

  lemma TailCountsDown(order: seq<nat>)
    requires CountsDown(order) && order != []
    ensures CountsDown(order[1..])
  {
    var rest := order[1..];
    forall k | 0 <= k < |rest| ensures rest[k] == |rest| - 1 - k {
      assert rest[k] == order[k + 1];
    }
  }

  /** The walk stops in front of message s - 1: the floor is reached and the message's unit does not fit. */
  ghost predicate Stops(ms: seq<Message>, tok: Message -> nat, pairs: Pairs, minRecent: int, target: int, s: nat)
    requires 2 <= s <= |ms|
  {
    var kept := Suffix(s, |ms|);
    && |kept| - 1 >= minRecent
    && Sum(ms, tok, kept) + Sum(ms, tok, {s - 1} + Partners(pairs, s - 1) - kept) > target
  }

  lemma {:induction false} WalkSkips(ms: seq<Message>, tok: Message -> nat, pairs: Pairs, minRecent: int, target: int,
                                     order: seq<nat>, s: nat)
    requires 1 <= s <= |ms| && order != [] && order[0] in Suffix(s, |ms|)
    ensures Select(ms, tok, pairs, minRecent, target, order, Suffix(s, |ms|))
            == Select(ms, tok, pairs, minRecent, target, order[1..], Suffix(s, |ms|))
  {
  }

  lemma {:induction false} WalkStops(ms: seq<Message>, tok: Message -> nat, pairs: Pairs, minRecent: int, target: int,
                                     order: seq<nat>, s: nat)
    requires 2 <= s <= |ms| && order != [] && order[0] == s - 1 && Stops(ms, tok, pairs, minRecent, target, s)
    ensures Select(ms, tok, pairs, minRecent, target, order, Suffix(s, |ms|)) == Suffix(s, |ms|)
  {
    assert order[0] !in Suffix(s, |ms|);
  }

  lemma {:induction false} WalkTakes(ms: seq<Message>, tok: Message -> nat, pairs: Pairs, minRecent: int, target: int,
                                     order: seq<nat>, s: nat) returns (t: nat)
    requires Neighbourly(|ms|, pairs) && 2 <= s <= |ms| && order != [] && order[0] == s - 1
    requires !Stops(ms, tok, pairs, minRecent, target, s)
    ensures 1 <= t && s - 2 <= t <= s - 1
    ensures t == if Partners(pairs, s - 1) != {} && s % 2 == 1 then s - 2 else s - 1
    ensures Select(ms, tok, pairs, minRecent, target, order, Suffix(s, |ms|))
            == Select(ms, tok, pairs, minRecent, target, order[1..], Suffix(t, |ms|))
  {
    t := UnitExtends(|ms|, pairs, s);
    assert order[0] !in Suffix(s, |ms|);
  }

  /** Walking backwards, the choice always is the first message and a suffix. */
  lemma {:induction false} SelectIsSuffix(ms: seq<Message>, tok: Message -> nat, pairs: Pairs, minRecent: int, target: int,
                                          order: seq<nat>, s: nat) returns (t: nat)
    requires Neighbourly(|ms|, pairs) && 1 <= s && |order| - 1 <= s <= |order| && 1 <= |order| <= |ms|
    requires CountsDown(order)
    ensures 1 <= t <= s && Select(ms, tok, pairs, minRecent, target, order, Suffix(s, |ms|)) == Suffix(t, |ms|)
    ensures t == 1 || |Suffix(t, |ms|)| - 1 >= minRecent
    decreases |order|
  {
    assert order[0] == |order| - 1;
    TailCountsDown(order);
    if |order| == 1 {
      t := 1;
      WalkSkips(ms, tok, pairs, minRecent, target, order, s);
    } else if |order| == s + 1 {
      WalkSkips(ms, tok, pairs, minRecent, target, order, s);
      t := SelectIsSuffix(ms, tok, pairs, minRecent, target, order[1..], s);
    } else if Stops(ms, tok, pairs, minRecent, target, s) {
      WalkStops(ms, tok, pairs, minRecent, target, order, s);
      t := s;
    } else {
      t := WalkTakes(ms, tok, pairs, minRecent, target, order, s);
      t := SelectIsSuffix(ms, tok, pairs, minRecent, target, order[1..], t);
    }
  }

  /** 0, then s, s + 1, ... up to m - 1. */
  function SuffixSeq(s: nat, m: nat): (r: seq<nat>)
    requires 1 <= s <= m
    ensures |r| == m - s + 1 && r[0] == 0 && forall k :: 1 <= k < |r| ==> r[k] == s + k - 1
    decreases m
  {
    if m == s then [0] else SuffixSeq(s, m - 1) + [m - 1]
  }

  lemma {:induction false} SortedSuffix(s: nat, m: nat, n: nat)
    requires 1 <= s <= m <= n
    ensures Sorted(m, Suffix(s, n)) == SuffixSeq(s, m)
    decreases m
  {
    if m == s {
      SortedHead(m, s, n);
    } else {
      SortedSuffix(s, m - 1, n);
      assert m - 1 in Suffix(s, n);
    }
  }

  lemma {:induction false} SortedHead(m: nat, s: nat, n: nat)
    requires 1 <= m <= s <= n
    ensures Sorted(m, Suffix(s, n)) == [0]
  {
    if m > 1 {
      SortedHead(m - 1, s, n);
      assert m - 1 !in Suffix(s, n);
    } else {
      assert 0 in Suffix(s, n) && Sorted(0, Suffix(s, n)) == [];
    }
  }

  lemma NoClashInSuffix(ms: seq<Message>, s: nat)
    requires Alternating(ms) && 1 <= s <= |ms| && (s % 2 == 1 || s == |ms|)
    ensures Clash(ms, Sorted(|ms|, Suffix(s, |ms|))).None?
  {
    SortedSuffix(s, |ms|, |ms|);
    var sorted := SuffixSeq(s, |ms|);
    forall k | 0 <= k < |sorted| - 1 ensures !SameRole(ms, sorted, k) {
      assert sorted[k + 1] == s + k;
    }
  }

  lemma ClashAtSeam(ms: seq<Message>, s: nat)
    requires Alternating(ms) && 1 <= s < |ms| && s % 2 == 0
    ensures Clash(ms, Sorted(|ms|, Suffix(s, |ms|))) == Some(0)
    ensures Sorted(|ms|, Suffix(s, |ms|))[0] == 0 && Sorted(|ms|, Suffix(s, |ms|))[1] == s
  {
    SortedSuffix(s, |ms|, |ms|);
    assert SuffixSeq(s, |ms|)[1] == s;
  }

  function Seam(s: nat, n: nat): nat { if s % 2 == 0 && s < n then s + 1 else s }

  /** The repair touches at most the seam behind the first message: an even suffix loses its first member. */
  lemma RepairOfSuffix(ms: seq<Message>, pairs: Pairs, s: nat)
    requires Alternating(ms) && Neighbourly(|ms|, pairs) && 1 <= s <= |ms|
    ensures Repair(ms, pairs, Some(0), Suffix(s, |ms|)) == Suffix(Seam(s, |ms|), |ms|)
  {
    var t := Seam(s, |ms|);
    NoClashInSuffix(ms, t);
    assert Repair(ms, pairs, Some(0), Suffix(t, |ms|)) == Suffix(t, |ms|);
    if t != s {
      ClashAtSeam(ms, s);
      LoneUser(|ms|, pairs, s);
      RepairStep(ms, pairs, 0, Suffix(s, |ms|), s);
    }
  }

  lemma LoneUser(n: nat, pairs: Pairs, s: nat)
    requires Neighbourly(n, pairs) && 2 <= s < n && s % 2 == 0
    ensures Suffix(s, n) - ({s} + Partners(pairs, s)) == Suffix(s + 1, n)
  {
    var mates := Partners(pairs, s);
    forall j | j in mates ensures j == s - 1 {}
  }

  /** The repair's step when the first message clashes with the one behind it. */
  lemma RepairStep(ms: seq<Message>, pairs: Pairs, first: nat, kept: set<nat>, gone: nat)
    requires forall i :: i in kept ==> i < |ms|
    requires Clash(ms, Sorted(|ms|, kept)) == Some(0)
    requires Sorted(|ms|, kept)[0] == first && Sorted(|ms|, kept)[1] == gone
    ensures Repair(ms, pairs, Some(first), kept)
            == Repair(ms, pairs, Some(first), kept - ({gone} + Partners(pairs, gone)))
  {
  }

  lemma EveryoneSpeaks(ms: seq<Message>)
    requires Alternating(ms)
    ensures |NonSystem(ms)| == |ms| && forall k :: 0 <= k < |ms| ==> NonSystem(ms)[k] == k
  {
    var speaking := set i | 0 <= i < |ms| && ms[i].role != System;
    assert Below(|ms|) <= speaking;
    RangeSorted(|ms|, speaking);
  }

  /** The choice on a well-formed conversation: the first message and a suffix no shorter than the floor. */
  lemma ChosenIsSuffix(ms: seq<Message>, tok: Message -> nat, pairs: Pairs, minRecent: int, target: int) returns (s: nat)
    requires WellFormed(ms) && IsPairing(ms, pairs) && ms != []
    ensures 1 <= s <= |ms| && (s == 1 || |ms| - s >= minRecent)
    ensures |NonSystem(ms)| == |ms| && NonSystem(ms)[0] == 0
    ensures Chosen(ms, tok, pairs, minRecent, target) == Suffix(s, |ms|)
  {
    EveryoneSpeaks(ms);
    PartnersAreNeighbours(ms, pairs);
    SeedsAreSuffix(|ms|, pairs);
    var order := Reverse(NonSystem(ms));
    assert CountsDown(order);
    s := SelectIsSuffix(ms, tok, pairs, minRecent, target, order, |ms|);
    SuffixSize(s, |ms|);
  }

  lemma SeedsAreSuffix(n: nat, pairs: Pairs)
    requires Neighbourly(n, pairs) && n > 0
    ensures {0} + Partners(pairs, 0) == Suffix(n, n)
  {
    forall j | j in Partners(pairs, 0) ensures j == 0 {}
  }

  /** What survives, and the messages that are returned. */
  lemma SurvivorsAreSuffix(ms: seq<Message>, tok: Message -> nat, pairs: Pairs, minRecent: int, target: int, s: nat)
    requires WellFormed(ms) && IsPairing(ms, pairs) && ms != [] && |ms| > minRecent
    requires 1 <= s <= |ms| && |NonSystem(ms)| == |ms| && NonSystem(ms)[0] == 0
    requires Chosen(ms, tok, pairs, minRecent, target) == Suffix(s, |ms|)
    ensures Survivors(ms, tok, pairs, minRecent, target) == Suffix(Seam(s, |ms|), |ms|)
    ensures Compacted(ms, tok, pairs, minRecent, target) == [ms[0]] + ms[Seam(s, |ms|)..]
  {
    PartnersAreNeighbours(ms, pairs);
    RepairOfSuffix(ms, pairs, s);
    SortedSuffix(Seam(s, |ms|), |ms|, |ms|);
    PickSuffix(ms, Seam(s, |ms|));
  }

  lemma PickSuffix(ms: seq<Message>, t: nat)
    requires 1 <= t <= |ms|
    ensures Pick(ms, SuffixSeq(t, |ms|)) == [ms[0]] + ms[t..]
  {
  }

  /** Dropping what lies between the first user message and an assistant message keeps a conversation well formed. */
  lemma CutIsWellFormed(ms: seq<Message>, t: nat)
    requires WellFormed(ms) && 1 <= t < |ms| && t % 2 == 1
    ensures WellFormed([ms[0]] + ms[t..])
  {
    var out := [ms[0]] + ms[t..];
    assert Shifted(ms, out, t);
    CutAlternates(ms, out, t);
    CutKeepsUses(ms, out, t);
    CutKeepsAnswers(ms, out, t);
  }

  /** out is ms with the stretch before t, except the first message, cut out. */
  ghost predicate Shifted(ms: seq<Message>, out: seq<Message>, t: nat) {
    && |out| == |ms| - t + 1 && |ms| > 0 && 1 <= t < |ms| && t % 2 == 1
    && out[0] == ms[0] && forall k :: 1 <= k < |out| ==> out[k] == ms[t + k - 1]
  }

  lemma CutAlternates(ms: seq<Message>, out: seq<Message>, t: nat)
    requires Alternating(ms) && Shifted(ms, out, t)
    ensures Alternating(out)
  {
    forall k | 0 <= k < |out| ensures out[k].role == RoleAt(k) {
      if k > 0 { assert out[k] == ms[t + k - 1]; }
    }
  }

  lemma CutKeepsUses(ms: seq<Message>, out: seq<Message>, t: nat)
    requires WellFormed(ms) && Shifted(ms, out, t)
    ensures forall i, id :: 0 <= i < |out| && Uses(out[i], id) ==> i % 2 == 1 && i + 1 < |out| && Answers(out[i + 1], id)
    ensures forall i, j, id :: 0 <= i < |out| && 0 <= j < |out| && Uses(out[i], id) && Uses(out[j], id) ==> i == j
  {
    forall i, id | 0 <= i < |out| && Uses(out[i], id)
      ensures i % 2 == 1 && i + 1 < |out| && Answers(out[i + 1], id)
    {
      assert i > 0 && out[i] == ms[t + i - 1];
      assert out[i + 1] == ms[t + i];
    }
    forall i, j, id | 0 <= i < |out| && 0 <= j < |out| && Uses(out[i], id) && Uses(out[j], id) ensures i == j {
      assert i > 0 && j > 0 && Uses(ms[t + i - 1], id) && Uses(ms[t + j - 1], id);
    }
  }

  lemma CutKeepsAnswers(ms: seq<Message>, out: seq<Message>, t: nat)
    requires WellFormed(ms) && Shifted(ms, out, t)
    ensures forall i, id :: 0 <= i < |out| && Answers(out[i], id) ==> i > 0 && Uses(out[i - 1], id)
    ensures forall i, j, id :: 0 <= i < |out| && 0 <= j < |out| && Answers(out[i], id) && Answers(out[j], id) ==> i == j
  {
    forall i, id | 0 <= i < |out| && Answers(out[i], id) ensures i > 0 && Uses(out[i - 1], id) {
      assert i > 0 && out[i] == ms[t + i - 1];
      assert Uses(ms[t + i - 2], id);
      assert (t + i - 2) % 2 == 1;
      assert out[i - 1] == ms[t + i - 2];
    }
    forall i, j, id | 0 <= i < |out| && 0 <= j < |out| && Answers(out[i], id) && Answers(out[j], id) ensures i == j {
      assert i > 0 && j > 0 && Answers(ms[t + i - 1], id) && Answers(ms[t + j - 1], id);
    }
  }

  /**
    Compaction of a well-formed conversation, with a floor of at least two
    recent messages, is again a well-formed conversation: user first, strictly
    alternating, every tool use next to its result and no orphan of either.  It
    starts with the first message, ends with the newest one, and cuts out one
    contiguous stretch in between.
  */
  lemma {:induction false} CompactionKeepsConversationValid(ms: seq<Message>, tok: Message -> nat, pairs: Pairs,
                                                            minRecent: int, target: int) returns (t: nat)
    requires WellFormed(ms) && IsPairing(ms, pairs) && ms != [] && minRecent >= 2
    ensures 1 <= t <= |ms|
    ensures var out := Compacted(ms, tok, pairs, minRecent, target);
            && out == [ms[0]] + ms[t..]
            && WellFormed(out)
            && out[|out| - 1] == ms[|ms| - 1]
  {
    if |ms| <= minRecent {
      t := 1;
      EveryoneSpeaks(ms);
      ShortIsKept(ms, tok, pairs, minRecent, target);
    } else {
      t := LongIsCut(ms, tok, pairs, minRecent, target);
      CutIsWellFormed(ms, t);
    }
    EndsOfCut(ms, t);
  }

  lemma EndsOfCut(ms: seq<Message>, t: nat)
    requires ms != [] && 1 <= t <= |ms|
    ensures var out := [ms[0]] + ms[t..];
            && (t < |ms| || |ms| == 1 ==> out[|out| - 1] == ms[|ms| - 1])
            && (t == 1 ==> out == ms)
  {
  }

  lemma {:induction false} LongIsCut(ms: seq<Message>, tok: Message -> nat, pairs: Pairs, minRecent: int, target: int) returns (t: nat)
    requires WellFormed(ms) && IsPairing(ms, pairs) && |ms| > minRecent >= 2
    ensures 1 <= t < |ms| && t % 2 == 1 && Compacted(ms, tok, pairs, minRecent, target) == [ms[0]] + ms[t..]
  {
    var s := ChosenIsSuffix(ms, tok, pairs, minRecent, target);
    t := OddSeam(s, |ms|);
    SurvivorsAreSuffix(ms, tok, pairs, minRecent, target, s);
  }

  lemma OddSeam(s: nat, n: nat) returns (t: nat)
    requires 1 <= s <= n && (s == 1 < n || n - s >= 2)
    ensures t == Seam(s, n) && 1 <= t < n && t % 2 == 1
  {
    t := Seam(s, n);
  }

  lemma ShortIsKept(ms: seq<Message>, tok: Message -> nat, pairs: Pairs, minRecent: int, target: int)
    requires IsPairing(ms, pairs) && |NonSystem(ms)| <= minRecent
    ensures Compacted(ms, tok, pairs, minRecent, target) == ms
  {
    AllSorted(|ms|);
  }

  // ----- a floor of one ----------------------------------------------------

  ghost predicate AnswersNothing(m: Message) { forall id :: !Answers(m, id) }

  lemma LastAnswers(ms: seq<Message>, pairs: Pairs)
    requires WellFormed(ms) && IsPairing(ms, pairs) && |ms| >= 3 && |ms| % 2 == 1
    ensures Partners(pairs, |ms| - 1) == {} <==> AnswersNothing(ms[|ms| - 1])
  {
    var last := |ms| - 1;
    PartnersAreNeighbours(ms, pairs);
    if !AnswersNothing(ms[last]) {
      var id :| Answers(ms[last], id);
      LastUseIsLast(ms, id);
      LastAnswerIsLast(ms, id);
      assert Exchange(ms, last, last - 1, id);
      assert last - 1 in Partners(pairs, last);
    } else if Partners(pairs, last) != {} {
      var j :| j in Partners(pairs, last);
      var id :| Exchange(ms, last, j, id);
      LastUseIsLast(ms, id);
      LastAnswerIsLast(ms, id);
    }
  }

  lemma SuffixInjective(s: nat, t: nat, n: nat)
    requires 1 <= s <= n && 1 <= t <= n && Suffix(s, n) == Suffix(t, n)
    ensures s == t
  {
    SuffixSize(s, n);
    SuffixSize(t, n);
  }

  /** What the first message and the newest cost, with the call that the newest may answer. */
  ghost function EndsCost(ms: seq<Message>, tok: Message -> nat): nat
    requires |ms| >= 2
  {
    tok(ms[0]) + tok(ms[|ms| - 1]) + (if AnswersNothing(ms[|ms| - 1]) then 0 else tok(ms[|ms| - 2]))
  }

  /** What the first message and the newest two cost. */
  function LastTwoCost(ms: seq<Message>, tok: Message -> nat): nat
    requires |ms| >= 2
  {
    tok(ms[0]) + tok(ms[|ms| - 1]) + tok(ms[|ms| - 2])
  }

  /** The unit of the newest message. */
  lemma NewestUnit(ms: seq<Message>, pairs: Pairs)
    requires WellFormed(ms) && IsPairing(ms, pairs) && |ms| >= 2
    ensures Neighbourly(|ms|, pairs)
    ensures Partners(pairs, |ms| - 1) == if AnswersNothing(ms[|ms| - 1]) then {} else {|ms| - 2}
    ensures !AnswersNothing(ms[|ms| - 1]) ==> |ms| % 2 == 1
  {
    var last := |ms| - 1;
    PartnersAreNeighbours(ms, pairs);
    forall j | j in Partners(pairs, last) ensures last % 2 == 0 && j == last - 1 {}
    if last % 2 == 0 { LastAnswers(ms, pairs); }
  }

  lemma FirstStop(ms: seq<Message>, tok: Message -> nat, pairs: Pairs, minRecent: int, target: int)
    requires WellFormed(ms) && IsPairing(ms, pairs) && |ms| >= 2 && minRecent <= 1
    ensures Stops(ms, tok, pairs, minRecent, target, |ms|) <==> minRecent < 1 && EndsCost(ms, tok) > target
  {
    var n := |ms|;
    NewestUnit(ms, pairs);
    SuffixSize(n, n);
    var mate: set<nat> := if AnswersNothing(ms[n - 1]) then {} else {n - 2};
    assert {n - 1} + Partners(pairs, n - 1) - Suffix(n, n) == {n - 1} + mate;
    EndsTokens(ms, tok, Suffix(n, n), mate);
  }

  lemma EndsTokens(ms: seq<Message>, tok: Message -> nat, kept: set<nat>, mate: set<nat>)
    requires |ms| >= 2 && kept == Suffix(|ms|, |ms|) && mate == if AnswersNothing(ms[|ms| - 1]) then {} else {|ms| - 2}
    ensures Sum(ms, tok, kept) + Sum(ms, tok, {|ms| - 1} + mate) == EndsCost(ms, tok)
  {
    var n := |ms|;
    assert kept == {0};
    TokensOfOne(ms, tok, 0, n);
    TokensOfOne(ms, tok, n - 1, n);
    if mate == {} {
      assert {n - 1} + mate == {n - 1};
    } else {
      TokensSplit(ms, tok, {n - 1}, mate, n);
      TokensOfOne(ms, tok, n - 2, n);
    }
  }

  lemma SecondStop(ms: seq<Message>, tok: Message -> nat, pairs: Pairs, minRecent: int, target: int)
    requires WellFormed(ms) && IsPairing(ms, pairs) && |ms| >= 3 && minRecent <= 1
    requires |ms| % 2 == 1 && AnswersNothing(ms[|ms| - 1])
    ensures Stops(ms, tok, pairs, minRecent, target, |ms| - 1) <==> LastTwoCost(ms, tok) > target
  {
    var n, i := |ms|, |ms| - 2;
    NewestUnit(ms, pairs);
    SuffixSize(n - 1, n);
    if Partners(pairs, i) != {} {
      var j :| j in Partners(pairs, i);
      PartnersAreMutual(ms, pairs, i, j);
    }
    assert {i} + Partners(pairs, i) - Suffix(n - 1, n) == {i};
    ThreeTokens(ms, tok, Suffix(n - 1, n));
  }

  lemma ThreeTokens(ms: seq<Message>, tok: Message -> nat, kept: set<nat>)
    requires |ms| >= 3 && kept == Suffix(|ms| - 1, |ms|)
    ensures Sum(ms, tok, kept) + Sum(ms, tok, {|ms| - 2}) == LastTwoCost(ms, tok)
  {
    var n := |ms|;
    assert kept == {0} + {n - 1};
    TokensSplit(ms, tok, {0}, {n - 1}, n);
    TokensOfOne(ms, tok, 0, n);
    TokensOfOne(ms, tok, n - 1, n);
    TokensOfOne(ms, tok, n - 2, n);
  }

  /** The choice at a floor of one or less: nothing recent, an unanswered user message alone, or more. */
  lemma ChosenAtLowFloor(ms: seq<Message>, tok: Message -> nat, pairs: Pairs, minRecent: int, target: int, order: seq<nat>)
    returns (s: nat)
    requires WellFormed(ms) && IsPairing(ms, pairs) && |ms| >= 2 && minRecent <= 1
    requires |order| == |ms| && CountsDown(order)
    ensures 1 <= s <= |ms|
    ensures Select(ms, tok, pairs, minRecent, target, order, Suffix(|ms|, |ms|)) == Suffix(s, |ms|)
    ensures s == |ms| <==> minRecent < 1 && EndsCost(ms, tok) > target
    ensures s < |ms| && |ms| % 2 == 1 ==>
              (s == |ms| - 1 <==> AnswersNothing(ms[|ms| - 1]) && LastTwoCost(ms, tok) > target)
  {
    var n := |ms|;
    NewestUnit(ms, pairs);
    FirstStop(ms, tok, pairs, minRecent, target);
    if Stops(ms, tok, pairs, minRecent, target, n) {
      WalkStops(ms, tok, pairs, minRecent, target, order, n);
      s := n;
    } else {
      s := WalkTakes(ms, tok, pairs, minRecent, target, order, n);
      TailCountsDown(order);
      if n % 2 == 1 && AnswersNothing(ms[n - 1]) {
        s := SecondStep(ms, tok, pairs, minRecent, target, order[1..]);
      } else {
        s := SelectIsSuffix(ms, tok, pairs, minRecent, target, order[1..], s);
      }
    }
  }

  lemma SecondStep(ms: seq<Message>, tok: Message -> nat, pairs: Pairs, minRecent: int, target: int, order: seq<nat>)
    returns (s: nat)
    requires WellFormed(ms) && IsPairing(ms, pairs) && |ms| >= 3 && minRecent <= 1
    requires |ms| % 2 == 1 && AnswersNothing(ms[|ms| - 1]) && |order| == |ms| - 1 && CountsDown(order)
    ensures 1 <= s <= |ms| - 1
    ensures Select(ms, tok, pairs, minRecent, target, order, Suffix(|ms| - 1, |ms|)) == Suffix(s, |ms|)
    ensures s == |ms| - 1 <==> LastTwoCost(ms, tok) > target
  {
    var n := |ms|;
    NewestUnit(ms, pairs);
    SecondStop(ms, tok, pairs, minRecent, target);
    if Stops(ms, tok, pairs, minRecent, target, n - 1) {
      WalkStops(ms, tok, pairs, minRecent, target, order, n - 1);
      s := n - 1;
    } else {
      s := WalkTakes(ms, tok, pairs, minRecent, target, order, n - 1);
      TailCountsDown(order);
      s := SelectIsSuffix(ms, tok, pairs, minRecent, target, order[1..], s);
    }
  }

  lemma SeamKeepsNewest(s: nat, n: nat)
    requires 1 <= s <= n && n >= 2
    ensures n - 1 in Suffix(Seam(s, n), n) <==> s < n && !(n % 2 == 1 && s == n - 1)
  {
  }

  /**
    With a floor of one or less the newest message can be lost.  It survives
    exactly when two things hold: the floor is one, or the newest message fits
    next to the first (with the call that it answers); and the newest is not a
    user message that answers no call behind a message that does not fit.
  */
  lemma NewestSurvivesLowFloor(ms: seq<Message>, tok: Message -> nat, pairs: Pairs, minRecent: int, target: int)
    requires WellFormed(ms) && IsPairing(ms, pairs) && |ms| >= 2 && minRecent <= 1
    ensures |ms| - 1 in Survivors(ms, tok, pairs, minRecent, target) <==>
            && (minRecent == 1 || EndsCost(ms, tok) <= target)
            && !(|ms| % 2 == 1 && AnswersNothing(ms[|ms| - 1]) && LastTwoCost(ms, tok) > target)
  {
    var s := ChosenIsSuffix(ms, tok, pairs, minRecent, target);
    SurvivorsAreSuffix(ms, tok, pairs, minRecent, target, s);
    SeamKeepsNewest(s, |ms|);
    ChosenWhen(ms, tok, pairs, minRecent, target, s);
  }

  lemma ChosenWhen(ms: seq<Message>, tok: Message -> nat, pairs: Pairs, minRecent: int, target: int, s: nat)
    requires WellFormed(ms) && IsPairing(ms, pairs) && |ms| >= 2 && minRecent <= 1
    requires 1 <= s <= |ms| && NonSystem(ms) != [] && Chosen(ms, tok, pairs, minRecent, target) == Suffix(s, |ms|)
    ensures s == |ms| <==> minRecent < 1 && EndsCost(ms, tok) > target
    ensures s < |ms| && |ms| % 2 == 1 ==>
              (s == |ms| - 1 <==> AnswersNothing(ms[|ms| - 1]) && LastTwoCost(ms, tok) > target)
  {
    EveryoneSpeaks(ms);
    NewestUnit(ms, pairs);
    SeedsAreSuffix(|ms|, pairs);
    var order := Reverse(NonSystem(ms));
    assert CountsDown(order);
    var t := ChosenAtLowFloor(ms, tok, pairs, minRecent, target, order);
    SuffixInjective(s, t, |ms|);
  }

  /** Such a conversation: three turns of one token each, with room for two. */
  lemma NewestIsLost()
    ensures var ms := [Message(User, []), Message(Assistant, []), Message(User, [])];
            && WellFormed(ms) && IsPairing(ms, map[])
            && 2 !in Survivors(ms, (_: Message) => 1, map[], 1, 2)
            && Compacted(ms, (_: Message) => 1, map[], 1, 2) == [ms[0]]
  {
    var ms := [Message(User, []), Message(Assistant, []), Message(User, [])];
    NoToolsNoPairs(ms);
    NewestSurvivesLowFloor(ms, (_: Message) => 1, map[], 1, 2);
    var s := ChosenIsSuffix(ms, (_: Message) => 1, map[], 1, 2);
    SurvivorsAreSuffix(ms, (_: Message) => 1, map[], 1, 2, s);
    SeamKeepsNewest(s, 3);
  }

  lemma NoToolsNoPairs(ms: seq<Message>)
    requires Alternating(ms) && forall i :: 0 <= i < |ms| ==> ms[i].blocks == []
    ensures WellFormed(ms) && IsPairing(ms, map[])
  {
    forall i: nat, j: nat ensures !Partner(ms, i, j) {
      forall id ensures !Exchange(ms, i, j, id) { LastUseIsLast(ms, id); }
    }
  }
}
