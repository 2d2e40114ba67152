/**
  Following a plan: which of a user message's planned tool steps the assistant
  has performed since, and which comes next.
*/
module Plan {
  import opened Prelude

  /** A tool and the value it is used with: a command, or a path. */
  datatype Step = Step(tool: string, value: string)

  /**
    What the tracker reads out of a message: the steps it plans (a user message
    whose text contains any) and the tool uses it performs (an assistant message).
  */
  datatype Message = Message(planned: seq<Step>, performed: seq<Step>)

  // ----- counting ---------------------------------------------------------

  /** Greedy: each use is compared with the next step only. */
  function Completed(steps: seq<Step>, uses: seq<Step>): (c: nat)
    ensures c <= |steps| && c <= |uses|
  {
    if uses == [] then 0
    else
      var c := Completed(steps, uses[..|uses| - 1]);
      if c < |steps| && steps[c] == uses[|uses| - 1] then c + 1 else c
  }

  function UsesOf(messages: seq<Message>): seq<Step> {
    if messages == [] then [] else UsesOf(messages[..|messages| - 1]) + messages[|messages| - 1].performed
  }

  /** The uses of one message are its own; with UsesOfAppend that says what the uses of a history are. */
  lemma UsesOfOne(m: Message)
    ensures UsesOf([m]) == m.performed
  {
    assert [m][..0] == [];
  }

  lemma {:induction false} NothingAfterAll(steps: seq<Step>, uses: seq<Step>, more: seq<Step>)
    requires Completed(steps, uses) == |steps|
    ensures Completed(steps, uses + more) == |steps|
    decreases |more|
  {
    if more == [] {
      assert uses + more == uses;
    } else {
      NothingAfterAll(steps, uses, more[..|more| - 1]);
      assert (uses + more)[..|uses + more| - 1] == uses + more[..|more| - 1];
    }
  }

  lemma {:induction false} UsesOfAppend(a: seq<Message>, b: seq<Message>)
    ensures UsesOf(a + b) == UsesOf(a) + UsesOf(b)
    decreases |b|
  {
    if b == [] {
      assert a + b == a;
    } else {
      var init := b[..|b| - 1];
      assert (a + b)[..|a + b| - 1] == a + init && (a + b)[|a + b| - 1] == b[|b| - 1];
      UsesOfAppend(a, init);
    }
  }

  lemma {:induction false} RestIsSpare(steps: seq<Step>, before: seq<Step>, uses: seq<Step>, j: nat)
    requires j <= |uses| && Completed(steps, before + uses[..j]) == |steps|
    ensures Completed(steps, before + uses) == |steps|
  {
    NothingAfterAll(steps, before + uses[..j], uses[j..]);
    assert (before + uses[..j]) + uses[j..] == before + uses;
  }

  lemma {:induction false} MessagesAreSpare(steps: seq<Step>, messages: seq<Message>, i: nat)
    requires i <= |messages| && Completed(steps, UsesOf(messages[..i])) == |steps|
    ensures Completed(steps, UsesOf(messages)) == |steps|
  {
    UsesOfAppend(messages[..i], messages[i..]);
    assert messages[..i] + messages[i..] == messages;
    NothingAfterAll(steps, UsesOf(messages[..i]), UsesOf(messages[i..]));
  }

  lemma {:induction false} OneMoreUse(steps: seq<Step>, before: seq<Step>, uses: seq<Step>, j: nat)
    requires j < |uses|
    ensures var c := Completed(steps, before + uses[..j]);
            Completed(steps, before + uses[..j + 1]) == if c < |steps| && steps[c] == uses[j] then c + 1 else c
  {
    assert (before + uses[..j + 1])[..|before| + j] == before + uses[..j];
  }

  /** `_count_completed_planned_tool_steps_after` */
  method CountCompletedAfter(messages: seq<Message>, steps: seq<Step>, start: nat) returns (completed: nat)
    ensures completed == if start < |messages| then Completed(steps, UsesOf(messages[start + 1..])) else 0
  {
    var rest := if start < |messages| then messages[start + 1..] else [];
    completed := 0;
    for i := 0 to |rest|
      invariant completed == Completed(steps, UsesOf(rest[..i]))
    {
      if completed >= |steps| {
        MessagesAreSpare(steps, rest, i);
        return;
      }
      ghost var before := UsesOf(rest[..i]);
      var uses := rest[i].performed;
      assert before + uses[..0] == before;
      for j := 0 to |uses|
        invariant completed == Completed(steps, before + uses[..j])
      {
        if completed >= |steps| {
          RestIsSpare(steps, before, uses, j);
          break;
        }
        OneMoreUse(steps, before, uses, j);
        if uses[j] == steps[completed] {
          completed := completed + 1;
        }
      }
      assert completed == Completed(steps, before + uses) by { assert uses[..|uses|] == uses; }
      assert rest[..i + 1][..i] == rest[..i];
    }
    assert rest[..|rest|] == rest;
  }

  // ----- what the count means ---------------------------------------------

  /** `at` shows where in `uses` each of the steps is performed, in order. */
  ghost predicate Embedding(steps: seq<Step>, uses: seq<Step>, at: seq<nat>) {
    && |at| == |steps|
    && (forall i :: 0 <= i < |at| ==> at[i] < |uses| && uses[at[i]] == steps[i])
    && (forall i, j :: 0 <= i < j < |at| ==> at[i] < at[j])
  }

  ghost predicate IsSubsequence(steps: seq<Step>, uses: seq<Step>) { exists at :: Embedding(steps, uses, at) }

  lemma {:induction false} GreedyEmbeds(steps: seq<Step>, uses: seq<Step>) returns (at: seq<nat>)
    ensures Embedding(steps[..Completed(steps, uses)], uses, at)
    decreases |uses|
  {
    if uses == [] {
      at := [];
    } else {
      var init := uses[..|uses| - 1];
      var c := Completed(steps, init);
      at := GreedyEmbeds(steps, init);
      if c < |steps| && steps[c] == uses[|uses| - 1] {
        at := at + [|uses| - 1];
        assert steps[..c + 1][..c] == steps[..c];
      }
    }
  }

  lemma {:induction false} NoEmbeddingIsLonger(steps: seq<Step>, uses: seq<Step>, k: nat, at: seq<nat>)
    requires k <= |steps| && Embedding(steps[..k], uses, at)
    ensures k <= Completed(steps, uses)
    decreases |uses|
  {
    if k > 0 {
      assert at[k - 1] < |uses|;
      var init := uses[..|uses| - 1];
      if at[k - 1] < |uses| - 1 {
        assert forall i :: 0 <= i < k ==> at[i] <= at[k - 1];
        NoEmbeddingIsLonger(steps, init, k, at);
      } else {
        assert forall i :: 0 <= i < k - 1 ==> at[i] < at[k - 1];
        assert Embedding(steps[..k - 1], init, at[..k - 1]);
        NoEmbeddingIsLonger(steps, init, k - 1, at[..k - 1]);
        assert steps[k - 1] == steps[..k][k - 1] == uses[|uses| - 1];
      }
    }
  }

  /** The count is the largest k for which the first k steps form a subsequence of the uses. */
  lemma GreedyIsOptimal(steps: seq<Step>, uses: seq<Step>, k: nat)
    requires k <= |steps|
    ensures IsSubsequence(steps[..k], uses) <==> k <= Completed(steps, uses)
  {
    if IsSubsequence(steps[..k], uses) {
      var at :| Embedding(steps[..k], uses, at);
      NoEmbeddingIsLonger(steps, uses, k, at);
    }
    if k <= Completed(steps, uses) {
      var at := GreedyEmbeds(steps, uses);
      assert steps[..Completed(steps, uses)][..k] == steps[..k];
      assert Embedding(steps[..k], uses, at[..k]);
    }
  }

  // ----- what comes next --------------------------------------------------

  /** The last message with a plan. */
  function LatestPlan(messages: seq<Message>): (r: Option<nat>)
    ensures r.Some? ==> r.value < |messages|
  {
    if messages == [] then None
    else if messages[|messages| - 1].planned != [] then Some(|messages| - 1)
    else LatestPlan(messages[..|messages| - 1])
  }

  lemma {:induction false} LatestPlanIsLast(messages: seq<Message>)
    ensures var r := LatestPlan(messages);
            && (r.Some? ==> messages[r.value].planned != [])
            && forall i :: (if r.Some? then r.value + 1 else 0) <= i < |messages| ==> messages[i].planned == []
  {
    if messages != [] {
      var init := messages[..|messages| - 1];
      LatestPlanIsLast(init);
      assert forall i :: 0 <= i < |init| ==> init[i] == messages[i];
    }
  }

  /** The first step not yet completed. */
  function Next(steps: seq<Step>, uses: seq<Step>): Option<Step> {
    if Completed(steps, uses) < |steps| then Some(steps[Completed(steps, uses)]) else None
  }

  /** It is the step after the longest prefix of the plan that the uses contain in order. */
  lemma NextIsFirstOpen(steps: seq<Step>, uses: seq<Step>, k: nat)
    requires k < |steps|
    ensures (IsSubsequence(steps[..k], uses) && !IsSubsequence(steps[..k + 1], uses)) ==> Next(steps, uses) == Some(steps[k])
    ensures IsSubsequence(steps, uses) <==> Next(steps, uses) == None
  {
    GreedyIsOptimal(steps, uses, k);
    GreedyIsOptimal(steps, uses, k + 1);
    GreedyIsOptimal(steps, uses, |steps|);
    assert steps[..|steps|] == steps;
  }

  /** The next step of the latest plan. */
  function NextStep(messages: seq<Message>): Option<Step> {
    match LatestPlan(messages)
    case None => None
    case Some(index) => Next(messages[index].planned, UsesOf(messages[index + 1..]))
  }

  /** `_next_planned_tool_value` */
  method NextPlannedToolValue(messages: seq<Message>, tool: string)
    returns (value: Option<string>)
    ensures var next := NextStep(messages);
            value == if next.Some? && next.value.tool == tool then Some(next.value.value) else None
  {
    var index := |messages|;
    assert messages[..|messages|] == messages;
    while index > 0 && messages[index - 1].planned == []
      invariant 0 <= index <= |messages|
      invariant LatestPlan(messages) == LatestPlan(messages[..index])
    {
      index := index - 1;
      assert messages[..index + 1][..index] == messages[..index];
    }
    if index == 0 {
      return None;
    }
    index := index - 1;
    assert messages[..index + 1][index] == messages[index];
    assert LatestPlan(messages) == Some(index);
    var steps := messages[index].planned;
    var used := CountCompletedAfter(messages, steps, index);
    value := None;
    if used < |steps| && steps[used].tool == tool {
      value := Some(steps[used].value);
    }
  }

  // ----- following the proposals ------------------------------------------

  /** Each of the uses `more` is the step proposed at its time. */
  predicate Obedient(steps: seq<Step>, uses: seq<Step>, more: seq<Step>) {
    more == [] ||
    (Obedient(steps, uses, more[..|more| - 1]) && Next(steps, uses + more[..|more| - 1]) == Some(more[|more| - 1]))
  }

  /** A use raises the count by exactly one if it is the proposed step, and otherwise leaves it. */
  lemma OneUseOn(steps: seq<Step>, uses: seq<Step>, use: Step)
    ensures Completed(steps, uses + [use]) == Completed(steps, uses) + if Next(steps, uses) == Some(use) then 1 else 0
  {
    assert (uses + [use])[..|uses|] == uses;
  }

  lemma {:induction false} ObedientCounts(steps: seq<Step>, uses: seq<Step>, more: seq<Step>)
    requires Obedient(steps, uses, more)
    ensures Completed(steps, uses + more) == Completed(steps, uses) + |more|
    decreases |more|
  {
    if more == [] {
      assert uses + more == uses;
    } else {
      var init, last := more[..|more| - 1], more[|more| - 1];
      ObedientCounts(steps, uses, init);
      OneUseOn(steps, uses + init, last);
      assert uses + more == (uses + init) + [last];
    }
  }

  /** Obedient uses are the remaining steps, in order. */
  lemma {:induction false} ObedientIsInOrder(steps: seq<Step>, uses: seq<Step>, more: seq<Step>, i: nat)
    requires Obedient(steps, uses, more) && i < |more|
    ensures Completed(steps, uses) + i < |steps| && more[i] == steps[Completed(steps, uses) + i]
    decreases |more|
  {
    var init := more[..|more| - 1];
    if i < |init| {
      ObedientIsInOrder(steps, uses, init, i);
    } else {
      ObedientCounts(steps, uses, init);
    }
  }

  /** What is proposed after a history. */
  type Proposer = seq<Message> -> Option<Step>

  lemma {:induction false} ObedientIsAllInOrder(steps: seq<Step>, uses: seq<Step>, more: seq<Step>)
    requires Obedient(steps, uses, more)
    ensures Completed(steps, uses) + |more| <= |steps|
    ensures forall i :: 0 <= i < |more| ==> more[i] == steps[Completed(steps, uses) + i]
  {
    forall i | 0 <= i < |more| ensures Completed(steps, uses) + i < |steps| && more[i] == steps[Completed(steps, uses) + i] {
      ObedientIsInOrder(steps, uses, more, i);
    }
    ObedientCounts(steps, uses, more);
  }

  /**
    Each of the messages `more`, written one after the other, either performs
    nothing, as a tool result does, or performs just the step proposed then.
  */
  predicate Follows(next: Proposer, messages: seq<Message>, more: seq<Message>) {
    more == [] ||
    (var init, last := more[..|more| - 1], more[|more| - 1];
     Follows(next, messages, init) && last.planned == []
     && (last.performed == []
         || (next(messages + init).Some? && last.performed == [next(messages + init).value])))
  }

  predicate NoPlans(more: seq<Message>) { forall i :: 0 <= i < |more| ==> more[i].planned == [] }

  /** Messages without a plan of their own leave the latest plan in force. */
  lemma {:induction false} PlanStays(messages: seq<Message>, more: seq<Message>)
    requires NoPlans(more)
    ensures LatestPlan(messages + more) == LatestPlan(messages)
    decreases |more|
  {
    if more == [] {
      assert messages + more == messages;
    } else {
      var init := more[..|more| - 1];
      PlanStays(messages, init);
      assert (messages + more)[..|messages + more| - 1] == messages + init;
    }
  }

  /**
    What is proposed depends on the latest plan and on what came after it alone:
    nothing that was done before the plan counts.
  */
  lemma {:induction false} OnlyUsesSinceCount(before: seq<Message>, m: Message, rest: seq<Message>)
    requires m.planned != [] && NoPlans(rest)
    ensures LatestPlan(before + [m] + rest) == Some(|before|)
    ensures NextStep(before + [m] + rest) == Next(m.planned, UsesOf(rest))
  {
    var messages := before + [m] + rest;
    assert (before + [m])[|before + [m]| - 1] == m;
    PlanStays(before + [m], rest);
    assert messages[|before|] == m && messages[|before| + 1..] == rest;
  }

  /** Every history with a plan is of this form. */
  lemma SplitAtPlan(messages: seq<Message>) returns (before: seq<Message>, m: Message, rest: seq<Message>)
    requires LatestPlan(messages).Some?
    ensures messages == before + [m] + rest && m.planned != [] && NoPlans(rest)
  {
    var index := LatestPlan(messages).value;
    LatestPlanIsLast(messages);
    before, m, rest := messages[..index], messages[index], messages[index + 1..];
  }

  lemma {:induction false} FollowersPlanNothing(next: Proposer, messages: seq<Message>, more: seq<Message>)
    requires Follows(next, messages, more)
    ensures NoPlans(more)
    decreases |more|
  {
    if more != [] {
      FollowersPlanNothing(next, messages, more[..|more| - 1]);
    }
  }

  /** The proposals after some more messages without a plan are those of this plan after these uses. */
  ghost predicate Proposes(next: Proposer, messages: seq<Message>, steps: seq<Step>, uses: seq<Step>) {
    forall more :: NoPlans(more) ==> next(messages + more) == Next(steps, uses + UsesOf(more))
  }

  lemma {:induction false} FollowingIsObedient(next: Proposer, messages: seq<Message>, steps: seq<Step>, uses: seq<Step>,
                                                  more: seq<Message>)
    requires Proposes(next, messages, steps, uses) && Follows(next, messages, more)
    ensures Obedient(steps, uses, UsesOf(more))
    decreases |more|
  {
    if more != [] {
      var init, last := more[..|more| - 1], more[|more| - 1];
      FollowingIsObedient(next, messages, steps, uses, init);
      FollowersPlanNothing(next, messages, init);
      if last.performed == [] {
        assert UsesOf(init) + [] == UsesOf(init);
      } else {
        OneMoreObeys(steps, uses, UsesOf(init), last.performed);
      }
    }
  }

  lemma OneMoreObeys(steps: seq<Step>, uses: seq<Step>, init: seq<Step>, last: seq<Step>)
    requires Obedient(steps, uses, init) && Next(steps, uses + init).Some? && last == [Next(steps, uses + init).value]
    ensures Obedient(steps, uses, init + last)
  {
    assert (init + last)[..|init|] == init;
  }

  /** The messages perform the next steps of the plan in order; after them the step then due is proposed, or none. */
  ghost predicate InOrder(next: Proposer, messages: seq<Message>, steps: seq<Step>, uses: seq<Step>, more: seq<Message>) {
    var done, now := Completed(steps, uses), UsesOf(more);
    && done + |now| <= |steps|
    && (forall i :: 0 <= i < |now| ==> now[i] == steps[done + i])
    && next(messages + more) == if done + |now| < |steps| then Some(steps[done + |now|]) else None
  }

  lemma {:induction false} FollowingFinishes(next: Proposer, messages: seq<Message>, steps: seq<Step>, uses: seq<Step>,
                                                more: seq<Message>)
    requires Proposes(next, messages, steps, uses) && Follows(next, messages, more)
    ensures InOrder(next, messages, steps, uses, more)
  {
    FollowersPlanNothing(next, messages, more);
    FollowingIsObedient(next, messages, steps, uses, more);
    ObedientCounts(steps, uses, UsesOf(more));
    ObedientIsAllInOrder(steps, uses, UsesOf(more));
  }

  lemma {:induction false} NextStepProposes(before: seq<Message>, m: Message, since: seq<Message>)
    requires m.planned != [] && NoPlans(since)
    ensures Proposes(NextStep, before + [m] + since, m.planned, UsesOf(since))
  {
    forall more | NoPlans(more)
      ensures NextStep(before + [m] + since + more) == Next(m.planned, UsesOf(since) + UsesOf(more))
    {
      assert before + [m] + since + more == before + [m] + (since + more);
      OnlyUsesSinceCount(before, m, since + more);
      UsesOfAppend(since, more);
    }
  }

  /**
    A plan is finished in order: whoever performs what is proposed, with any tool
    results in between, performs the remaining steps one by one, and after as many
    uses, not before, nothing is proposed.
  */
  lemma {:induction false} PlanFinishes(before: seq<Message>, m: Message, since: seq<Message>, more: seq<Message>)
    requires m.planned != [] && NoPlans(since) && Follows(NextStep, before + [m] + since, more)
    ensures InOrder(NextStep, before + [m] + since, m.planned, UsesOf(since), more)
  {
    NextStepProposes(before, m, since);
    FollowingFinishes(NextStep, before + [m] + since, m.planned, UsesOf(since), more);
  }

  lemma FollowsOneMore(next: Proposer, messages: seq<Message>, more: seq<Message>, m: Message)
    requires Follows(next, messages, more) && m.planned == []
    requires m.performed == [] || (next(messages + more).Some? && m.performed == [next(messages + more).value])
    ensures Follows(next, messages, more + [m]) && UsesOf(more + [m]) == UsesOf(more) + m.performed
  {
    assert (more + [m])[..|more|] == more;
  }

  /** A use and a result, again and again. */
  predicate Alternating(more: seq<Message>) {
    more == [] ||
    (&& |more| >= 2 && |more[|more| - 2].performed| == 1 && more[|more| - 1].performed == []
     && Alternating(more[..|more| - 2]))
  }

  lemma {:induction false} UseAndResult(next: Proposer, messages: seq<Message>, init: seq<Message>) returns (more: seq<Message>)
    requires Follows(next, messages, init) && next(messages + init).Some? && Alternating(init)
    ensures Follows(next, messages, more) && Alternating(more) && |more| == |init| + 2
    ensures |UsesOf(more)| == |UsesOf(init)| + 1
  {
    var use := Message([], [next(messages + init).value]);
    FollowsOneMore(next, messages, init, use);
    FollowsOneMore(next, messages, init + [use], Message([], []));
    more := init + [use] + [Message([], [])];
    assert more[..|more| - 2] == init;
  }

  lemma {:induction false} FollowFor(next: Proposer, messages: seq<Message>, steps: seq<Step>, uses: seq<Step>, k: nat)
    returns (more: seq<Message>)
    requires Proposes(next, messages, steps, uses) && Completed(steps, uses) + k <= |steps|
    ensures Follows(next, messages, more) && Alternating(more) && |more| == 2 * k && |UsesOf(more)| == k
  {
    if k == 0 {
      more := [];
    } else {
      var init := FollowFor(next, messages, steps, uses, k - 1);
      FollowingFinishes(next, messages, steps, uses, init);
      more := UseAndResult(next, messages, init);
    }
  }

  /** Every plan can be finished so, one use and one tool result a step. */
  lemma PlanCanBeFinished(before: seq<Message>, m: Message, since: seq<Message>) returns (more: seq<Message>)
    requires m.planned != [] && NoPlans(since)
    ensures Follows(NextStep, before + [m] + since, more) && Alternating(more)
    ensures NextStep(before + [m] + since + more).None?
    ensures |more| == 2 * (|m.planned| - Completed(m.planned, UsesOf(since)))
  {
    var messages, steps, uses := before + [m] + since, m.planned, UsesOf(since);
    NextStepProposes(before, m, since);
    more := FollowFor(NextStep, messages, steps, uses, |steps| - Completed(steps, uses));
    FollowingFinishes(NextStep, messages, steps, uses, more);
  }
}
