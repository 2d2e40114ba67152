/**
  History compaction: a budgeted choice of message indices, closed under
  tool-call/result pairing, and the repair loop for role alternation.

  The choice and the repair are first functions on index sets; the methods work
  in place, as the callback does, and are proved to compute them.
*/
module Compaction {
  import opened Prelude

  datatype Role = System | User | Assistant | OtherRole(name: string)

  /** A content block; an id that is absent from the block is None. */
  datatype Block = ToolUse(id: Option<string>) | ToolResult(id: Option<string>) | Plain(text: string)

  datatype Message = Message(role: Role, blocks: seq<Block>)

  type Pairs = map<nat, set<nat>>

  // ----- pairing ----------------------------------------------------------

  predicate Uses(m: Message, id: string) { ToolUse(Some(id)) in m.blocks }

  predicate Answers(m: Message, id: string) { ToolResult(Some(id)) in m.blocks }

  /** The last message that uses (answers) the id: later entries overwrite earlier ones in the dict. */
  function LastUse(ms: seq<Message>, id: string): Option<nat> {
    if ms == [] then None
    else if Uses(ms[|ms| - 1], id) then Some(|ms| - 1) else LastUse(ms[..|ms| - 1], id)
  }

  function LastAnswer(ms: seq<Message>, id: string): Option<nat> {
    if ms == [] then None
    else if Answers(ms[|ms| - 1], id) then Some(|ms| - 1) else LastAnswer(ms[..|ms| - 1], id)
  }

  lemma {:induction false} LastUseIsLast(ms: seq<Message>, id: string)
    ensures LastUse(ms, id).Some? ==>
              LastUse(ms, id).value < |ms| && Uses(ms[LastUse(ms, id).value], id)
    ensures forall i :: 0 <= i < |ms| && Uses(ms[i], id) ==> LastUse(ms, id).Some? && i <= LastUse(ms, id).value
  {
    if ms != [] {
      LastUseIsLast(ms[..|ms| - 1], id);
      forall i | 0 <= i < |ms| && Uses(ms[i], id)
        ensures LastUse(ms, id).Some? && i <= LastUse(ms, id).value
      {
        if i < |ms| - 1 { assert ms[..|ms| - 1][i] == ms[i]; }
      }
    }
  }

  lemma {:induction false} LastAnswerIsLast(ms: seq<Message>, id: string)
    ensures LastAnswer(ms, id).Some? ==>
              LastAnswer(ms, id).value < |ms| && Answers(ms[LastAnswer(ms, id).value], id)
    ensures forall i :: 0 <= i < |ms| && Answers(ms[i], id) ==> LastAnswer(ms, id).Some? && i <= LastAnswer(ms, id).value
  {
    if ms != [] {
      LastAnswerIsLast(ms[..|ms| - 1], id);
      forall i | 0 <= i < |ms| && Answers(ms[i], id)
        ensures LastAnswer(ms, id).Some? && i <= LastAnswer(ms, id).value
      {
        if i < |ms| - 1 { assert ms[..|ms| - 1][i] == ms[i]; }
      }
    }
  }

  ghost predicate Exchange(ms: seq<Message>, i: nat, j: nat, id: string) {
    || (LastUse(ms, id) == Some(i) && LastAnswer(ms, id) == Some(j))
    || (LastUse(ms, id) == Some(j) && LastAnswer(ms, id) == Some(i))
  }

  /** Messages i and j exchange a tool call: one holds the last use of an id, the other its last result. */
  ghost predicate Partner(ms: seq<Message>, i: nat, j: nat) {
    exists id :: Exchange(ms, i, j, id)
  }

  function Partners(pairs: Pairs, i: nat): set<nat> { if i in pairs then pairs[i] else {} }

  ghost predicate IsPairing(ms: seq<Message>, pairs: Pairs) {
    forall i: nat, j: nat :: j in Partners(pairs, i) <==> Partner(ms, i, j)
  }

  /** `_pair_tool_exchange_indices` */
  method PairToolExchanges(ms: seq<Message>) returns (pairs: Pairs)
    ensures IsPairing(ms, pairs)
  {
    var uses: map<string, nat> := map[];
    var answers: map<string, nat> := map[];
    for idx := 0 to |ms|
      invariant forall id :: LastUse(ms[..idx], id) == if id in uses then Some(uses[id]) else None
      invariant forall id :: LastAnswer(ms[..idx], id) == if id in answers then Some(answers[id]) else None
    {
      assert ms[..idx + 1][..idx] == ms[..idx];
      ghost var uses0, answers0 := uses, answers;
      for k := 0 to |ms[idx].blocks|
        invariant forall id :: id in uses <==> id in uses0 || ToolUse(Some(id)) in ms[idx].blocks[..k]
        invariant forall id :: id in uses ==> uses[id] == if ToolUse(Some(id)) in ms[idx].blocks[..k] then idx else uses0[id]
        invariant forall id :: id in answers <==> id in answers0 || ToolResult(Some(id)) in ms[idx].blocks[..k]
        invariant forall id :: id in answers ==>
                    answers[id] == if ToolResult(Some(id)) in ms[idx].blocks[..k] then idx else answers0[id]
      {
        assert ms[idx].blocks[..k + 1] == ms[idx].blocks[..k] + [ms[idx].blocks[k]];
        match ms[idx].blocks[k]
        case ToolUse(Some(id)) => uses := uses[id := idx];
        case ToolResult(Some(id)) => answers := answers[id := idx];
        case _ =>
      }
      assert ms[idx].blocks[..|ms[idx].blocks|] == ms[idx].blocks;
    }
    assert ms[..|ms|] == ms;
    pairs := map[];
    var todo := uses.Keys;
    while todo != {}
      invariant todo <= uses.Keys
      invariant forall i: nat, j: nat :: j in Partners(pairs, i) <==>
                  exists id :: id in uses.Keys - todo && Exchange(ms, i, j, id)
      decreases todo
    {
      var id :| id in todo;
      ghost var pairs0, todo0 := pairs, todo;
      todo := todo - {id};
      if id in answers {
        var u, a := uses[id], answers[id];
        pairs := pairs[u := Partners(pairs, u) + {a}];
        pairs := pairs[a := Partners(pairs, a) + {u}];
        assert Exchange(ms, u, a, id) && Exchange(ms, a, u, id);
      }
      forall i: nat, j: nat
        ensures j in Partners(pairs, i) <==> exists x :: x in uses.Keys - todo && Exchange(ms, i, j, x)
      {
        PairStep(ms, uses, answers, todo0, id, pairs0, pairs, i, j);
      }
    }
  }

  lemma PairStep(ms: seq<Message>, uses: map<string, nat>, answers: map<string, nat>, todo: set<string>, id: string,
                 pairs0: Pairs, pairs: Pairs, i: nat, j: nat)
    requires id in todo && todo <= uses.Keys
    requires LastUse(ms, id) == Some(uses[id])
    requires LastAnswer(ms, id) == if id in answers then Some(answers[id]) else None
    requires j in Partners(pairs0, i) <==> exists x :: x in uses.Keys - todo && Exchange(ms, i, j, x)
    requires id !in answers ==> pairs == pairs0
    requires id in answers ==>
               var p := pairs0[uses[id] := Partners(pairs0, uses[id]) + {answers[id]}];
               pairs == p[answers[id] := Partners(p, answers[id]) + {uses[id]}]
    ensures j in Partners(pairs, i) <==> exists x :: x in uses.Keys - (todo - {id}) && Exchange(ms, i, j, x)
  {
    assert j in Partners(pairs, i) <==> j in Partners(pairs0, i) || Exchange(ms, i, j, id);
    assert forall x :: x in uses.Keys - (todo - {id}) <==> x in uses.Keys - todo || x == id;
  }

  lemma PartnersAreMutual(ms: seq<Message>, pairs: Pairs, i: nat, j: nat)
    requires IsPairing(ms, pairs) && j in Partners(pairs, i)
    ensures i in Partners(pairs, j) && i < |ms| && j < |ms|
  {
    var id :| Exchange(ms, i, j, id);
    assert Exchange(ms, j, i, id);
    LastUseIsLast(ms, id);
    LastAnswerIsLast(ms, id);
  }

  // ----- the choice -------------------------------------------------------

  /** The members of `kept` below n, in ascending order. */
  function Sorted(n: nat, kept: set<nat>): (r: seq<nat>)
    ensures forall i {:trigger i in r} :: i in r <==> i < n && i in kept
    ensures forall k :: 0 <= k < |r| ==> r[k] < n && r[k] in kept
    ensures forall i, j :: 0 <= i < j < |r| ==> r[i] < r[j]
  {
    if n == 0 then [] else
      var r := Sorted(n - 1, kept);
      assert forall i :: 0 <= i < |r| ==> r[i] in r;
      r + (if n - 1 in kept then [n - 1] else [])
  }

  function Below(n: nat): (r: set<nat>)
    ensures forall i: nat :: i in r <==> i < n
  {
    if n == 0 then {} else Below(n - 1) + {n - 1}
  }

  /** The token sum of the messages below n whose index is kept. */
  function Tokens(ms: seq<Message>, tok: Message -> nat, kept: set<nat>, n: nat): nat
    requires n <= |ms|
  {
    if n == 0 then 0 else Tokens(ms, tok, kept, n - 1) + (if n - 1 in kept then tok(ms[n - 1]) else 0)
  }

  function Sum(ms: seq<Message>, tok: Message -> nat, kept: set<nat>): nat { Tokens(ms, tok, kept, |ms|) }

  lemma {:induction false} TokensSplit(ms: seq<Message>, tok: Message -> nat, a: set<nat>, b: set<nat>, n: nat)
    requires n <= |ms| && a !! b
    ensures Tokens(ms, tok, a + b, n) == Tokens(ms, tok, a, n) + Tokens(ms, tok, b, n)
  {
    if n > 0 { TokensSplit(ms, tok, a, b, n - 1); }
  }

  lemma {:induction false} TokensOfSubset(ms: seq<Message>, tok: Message -> nat, a: set<nat>, b: set<nat>, n: nat)
    requires n <= |ms| && a <= b
    ensures Tokens(ms, tok, a, n) <= Tokens(ms, tok, b, n)
  {
    if n > 0 { TokensOfSubset(ms, tok, a, b, n - 1); }
  }

  lemma {:induction false} TokensOfOne(ms: seq<Message>, tok: Message -> nat, i: nat, n: nat)
    requires n <= |ms| && i < |ms|
    ensures Tokens(ms, tok, {i}, n) == if i < n then tok(ms[i]) else 0
  {
    if n > 0 { TokensOfOne(ms, tok, i, n - 1); }
  }

  /** Walk the indices of `order` (newest first), adding each with its partners while it fits. */
  function Select(ms: seq<Message>, tok: Message -> nat, pairs: Pairs, minRecent: int, target: int,
                  order: seq<nat>, kept: set<nat>): set<nat>
    decreases |order|
  {
    if order == [] then kept
    else if order[0] in kept then Select(ms, tok, pairs, minRecent, target, order[1..], kept)
    else
      var required := {order[0]} + Partners(pairs, order[0]);
      if |kept| - 1 < minRecent || Sum(ms, tok, kept) + Sum(ms, tok, required - kept) <= target
      then Select(ms, tok, pairs, minRecent, target, order[1..], kept + required)
      else kept
  }

  /** The k-th message of the chosen ones has the role of the next one. */
  predicate SameRole(ms: seq<Message>, sorted: seq<nat>, k: nat)
    requires forall k :: 0 <= k < |sorted| ==> sorted[k] < |ms|
    requires k + 1 < |sorted|
  {
    ms[sorted[k]].role == ms[sorted[k + 1]].role
  }

  /** The first position whose message has the role of the one after it. */
  function Clash(ms: seq<Message>, sorted: seq<nat>): (c: Option<nat>)
    requires forall k :: 0 <= k < |sorted| ==> sorted[k] < |ms|
    ensures c.Some? ==> c.value + 1 < |sorted| && SameRole(ms, sorted, c.value)
    ensures c.Some? ==> forall k :: 0 <= k < c.value ==> !SameRole(ms, sorted, k)
    ensures c.None? ==> forall k :: 0 <= k < |sorted| - 1 ==> !SameRole(ms, sorted, k)
  {
    ClashFrom(ms, sorted, 0)
  }

  function ClashFrom(ms: seq<Message>, sorted: seq<nat>, k: nat): (c: Option<nat>)
    requires forall k :: 0 <= k < |sorted| ==> sorted[k] < |ms|
    ensures c.Some? ==> k <= c.value && c.value + 1 < |sorted| && SameRole(ms, sorted, c.value)
    ensures c.Some? ==> forall i :: k <= i < c.value ==> !SameRole(ms, sorted, i)
    ensures c.None? ==> forall i :: k <= i < |sorted| - 1 ==> !SameRole(ms, sorted, i)
    decreases |sorted| - k
  {
    if k + 1 >= |sorted| then None
    else if SameRole(ms, sorted, k) then Some(k)
    else ClashFrom(ms, sorted, k + 1)
  }

  /** Remove one side of the first clash, with its partners, until no roles clash. */
  function Repair(ms: seq<Message>, pairs: Pairs, first: Option<nat>, kept: set<nat>): (r: set<nat>)
    requires forall i :: i in kept ==> i < |ms|
    ensures r <= kept && Clash(ms, Sorted(|ms|, r)).None?
    decreases |kept|
  {
    var sorted := Sorted(|ms|, kept);
    match Clash(ms, sorted)
    case None => kept
    case Some(i) =>
      var gone := if Some(sorted[i]) == first then sorted[i + 1] else sorted[i];
      assert gone in sorted;
      Shrinks(kept, {gone} + Partners(pairs, gone), gone);
      Repair(ms, pairs, first, kept - ({gone} + Partners(pairs, gone)))
  }

  lemma Shrinks(kept: set<nat>, gone: set<nat>, i: nat)
    requires i in kept && i in gone
    ensures |kept - gone| < |kept|
  {
    assert kept - gone <= kept - {i};
    SubsetSize(kept - gone, kept - {i});
  }

  lemma {:induction false} SubsetSize(a: set<nat>, b: set<nat>)
    requires a <= b
    ensures |a| <= |b|
  {
    if a != {} {
      var x :| x in a;
      SubsetSize(a - {x}, b - {x});
    }
  }

  function NonSystem(ms: seq<Message>): seq<nat> {
    Sorted(|ms|, set i | 0 <= i < |ms| && ms[i].role != System)
  }

  function Reverse(s: seq<nat>): (r: seq<nat>)
    ensures |r| == |s| && forall i :: 0 <= i < |s| ==> r[i] == s[|s| - 1 - i]
  {
    if s == [] then [] else [s[|s| - 1]] + Reverse(s[..|s| - 1])
  }

  function Pick(ms: seq<Message>, indices: seq<nat>): (out: seq<Message>)
    requires forall k :: 0 <= k < |indices| ==> indices[k] < |ms|
    ensures |out| == |indices| && forall k :: 0 <= k < |out| ==> out[k] == ms[indices[k]]
  {
    seq(|indices|, k requires 0 <= k < |indices| => ms[indices[k]])
  }

  function Chosen(ms: seq<Message>, tok: Message -> nat, pairs: Pairs, minRecent: int, target: int): set<nat>
    requires NonSystem(ms) != []
  {
    var first := NonSystem(ms)[0];
    Select(ms, tok, pairs, minRecent, target, Reverse(NonSystem(ms)), {first} + Partners(pairs, first))
  }

  lemma {:induction false} SelectInRange(ms: seq<Message>, tok: Message -> nat, pairs: Pairs, minRecent: int, target: int,
                                         order: seq<nat>, kept: set<nat>)
    requires IsPairing(ms, pairs)
    requires forall k :: 0 <= k < |order| ==> order[k] < |ms|
    requires forall i :: i in kept ==> i < |ms|
    ensures forall i :: i in Select(ms, tok, pairs, minRecent, target, order, kept) ==> i < |ms|
    ensures kept <= Select(ms, tok, pairs, minRecent, target, order, kept)
    decreases |order|
  {
    if order != [] {
      forall j | j in Partners(pairs, order[0]) ensures j < |ms| { PartnersAreMutual(ms, pairs, order[0], j); }
      SelectInRange(ms, tok, pairs, minRecent, target, order[1..], kept);
      SelectInRange(ms, tok, pairs, minRecent, target, order[1..], kept + ({order[0]} + Partners(pairs, order[0])));
    }
  }

  lemma ChosenInRange(ms: seq<Message>, tok: Message -> nat, pairs: Pairs, minRecent: int, target: int)
    requires IsPairing(ms, pairs) && NonSystem(ms) != []
    ensures forall i :: i in Chosen(ms, tok, pairs, minRecent, target) ==> i < |ms|
  {
    var first := NonSystem(ms)[0];
    assert first in NonSystem(ms);
    forall j | j in Partners(pairs, first) ensures j < |ms| { PartnersAreMutual(ms, pairs, first, j); }
    SelectInRange(ms, tok, pairs, minRecent, target, Reverse(NonSystem(ms)), {first} + Partners(pairs, first));
  }

  /** The indices that survive compaction: all of them when the history is short. */
  ghost function Survivors(ms: seq<Message>, tok: Message -> nat, pairs: Pairs, minRecent: int, target: int): (r: set<nat>)
    requires IsPairing(ms, pairs)
    ensures forall i :: i in r ==> i < |ms|
  {
    if |NonSystem(ms)| <= minRecent || NonSystem(ms) == [] then
      Below(|ms|)
    else
      ChosenInRange(ms, tok, pairs, minRecent, target);
      Repair(ms, pairs, Some(NonSystem(ms)[0]), Chosen(ms, tok, pairs, minRecent, target))
  }

  // ----- the methods ------------------------------------------------------

  /** The chosen indices that are still kept. */
  function Still(sorted: seq<nat>, kept: set<nat>): seq<nat> {
    if sorted == [] then [] else
      Still(sorted[..|sorted| - 1], kept)
      + (if sorted[|sorted| - 1] in kept then [sorted[|sorted| - 1]] else [])
  }

  lemma {:induction false} StillSorted(n: nat, big: set<nat>, small: set<nat>)
    requires small <= big
    ensures Still(Sorted(n, big), small) == Sorted(n, small)
  {
    if n > 0 {
      StillSorted(n - 1, big, small);
      if n - 1 in big {
        assert Sorted(n, big)[..|Sorted(n, big)| - 1] == Sorted(n - 1, big);
      } else {
        assert Sorted(n, big) == Sorted(n - 1, big) && n - 1 !in small;
      }
    }
  }

  /** One pass of the repair loop: where the first two equal roles meet. */
  method FindClash(ms: seq<Message>, sorted: seq<nat>) returns (c: Option<nat>)
    requires forall k :: 0 <= k < |sorted| ==> sorted[k] < |ms|
    ensures c == Clash(ms, sorted)
  {
    var i := 0;
    while i + 1 < |sorted|
      invariant ClashFrom(ms, sorted, i) == Clash(ms, sorted)
    {
      if ms[sorted[i]].role == ms[sorted[i + 1]].role {
        return Some(i);
      }
      i := i + 1;
    }
    return None;
  }

  /** `_enforce_alternation`, on the pairing of its messages. */
  method EnforceAlternation(ms: seq<Message>, pairs: Pairs, first: Option<nat>, chosen: set<nat>) returns (kept: set<nat>)
    requires forall i :: i in chosen ==> i < |ms|
    ensures kept == Repair(ms, pairs, first, chosen)
  {
    kept := chosen;
    var sorted := Sorted(|ms|, kept);
    ghost var big := kept;
    var changed := true;
    while changed
      invariant kept <= big <= chosen && sorted == Sorted(|ms|, big)
      invariant Repair(ms, pairs, first, kept) == Repair(ms, pairs, first, chosen)
      invariant !changed ==> kept == Repair(ms, pairs, first, kept)
      decreases kept, changed
    {
      changed := false;
      StillSorted(|ms|, big, kept);
      sorted, big := Still(sorted, kept), kept;
      var clash := FindClash(ms, sorted);
      if clash.Some? {
        var a, b := sorted[clash.value], sorted[clash.value + 1];
        var gone := if Some(a) == first then b else a;
        kept := kept - ({gone} + Partners(pairs, gone));
        assert gone in big && gone !in kept;
        changed := true;
      }
    }
  }

  /** The selection loop of `_drop_old_messages`. */
  method Choose(ms: seq<Message>, tok: Message -> nat, pairs: Pairs, minRecent: int, target: int,
                order: seq<nat>, seeds: set<nat>) returns (kept: set<nat>)
    ensures kept == Select(ms, tok, pairs, minRecent, target, order, seeds)
  {
    kept := seeds;
    var tokens := Sum(ms, tok, kept);
    var k := 0;
    while k < |order|
      invariant 0 <= k <= |order| && tokens == Sum(ms, tok, kept)
      invariant Select(ms, tok, pairs, minRecent, target, order[k..], kept)
                == Select(ms, tok, pairs, minRecent, target, order, seeds)
    {
      assert order[k..][0] == order[k] && order[k..][1..] == order[k + 1..];
      if order[k] !in kept {
        var required := {order[k]} + Partners(pairs, order[k]);
        var more := Sum(ms, tok, required - kept);
        if !(|kept| - 1 < minRecent || tokens + more <= target) {
          return;
        }
        TokensSplit(ms, tok, kept, required - kept, |ms|);
        assert kept + (required - kept) == kept + required;
        kept := kept + required;
        tokens := tokens + more;
      }
      k := k + 1;
    }
  }

  /** `_drop_old_messages` */
  method DropOldMessages(ms: seq<Message>, tok: Message -> nat, minRecent: int, target: int)
    returns (out: seq<Message>)
    ensures exists pairs :: IsPairing(ms, pairs) && out == Compacted(ms, tok, pairs, minRecent, target)
  {
    var nonSystem := NonSystem(ms);
    var pairs := PairToolExchanges(ms);
    if |nonSystem| <= minRecent || nonSystem == [] {
      AllSorted(|ms|);
      out := ms;
      assert out == Compacted(ms, tok, pairs, minRecent, target);
      return;
    }
    var first := nonSystem[0];
    var kept := Choose(ms, tok, pairs, minRecent, target, Reverse(nonSystem), {first} + Partners(pairs, first));
    assert kept == Chosen(ms, tok, pairs, minRecent, target);
    ChosenInRange(ms, tok, pairs, minRecent, target);
    kept := EnforceAlternation(ms, pairs, Some(first), kept);
    out := Pick(ms, Sorted(|ms|, kept));
    assert out == Compacted(ms, tok, pairs, minRecent, target);
  }

  /** What compaction returns, as a function. */
  ghost function Compacted(ms: seq<Message>, tok: Message -> nat, pairs: Pairs, minRecent: int, target: int): seq<Message>
    requires IsPairing(ms, pairs)
  {
    Pick(ms, Sorted(|ms|, Survivors(ms, tok, pairs, minRecent, target)))
  }

  lemma AllSorted(n: nat)
    ensures |Sorted(n, Below(n))| == n
    ensures forall k :: 0 <= k < n ==> Sorted(n, Below(n))[k] == k
  {
    RangeSorted(n, Below(n));
  }

  lemma {:induction false} RangeSorted(n: nat, kept: set<nat>)
    requires Below(n) <= kept
    ensures |Sorted(n, kept)| == n
    ensures forall k :: 0 <= k < n ==> Sorted(n, kept)[k] == k
  {
    if n > 0 {
      RangeSorted(n - 1, kept);
      var r := Sorted(n - 1, kept);
      assert Sorted(n, kept) == r + [n - 1];
    }
  }
}
