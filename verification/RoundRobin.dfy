/**
  The fair merge of `TavilySearch.search`: one new URL per category and round,
  until the capacity is reached or every category is used up.
*/
module RoundRobin {

  type Url = string

  /** Nothing left in the category that has not been seen. */
  ghost predicate UsedUp(category: seq<Url>, seen: set<Url>) {
    forall u :: u in category ==> u in seen
  }

  /** Take seen URLs off the front of a category. */
  method SkipSeen(category: seq<Url>, seen: set<Url>) returns (rest: seq<Url>)
    ensures rest != [] ==> rest[0] !in seen
    ensures |rest| <= |category| && rest == category[|category| - |rest|..]
    ensures forall u :: u in category && u !in rest ==> u in seen
    ensures UsedUp(category, seen) <==> rest == []
    ensures Rest(category, rest, seen)
  {
    rest := category;
    while rest != [] && rest[0] in seen
      invariant |rest| <= |category| && rest == category[|category| - |rest|..]
      invariant forall u :: u in category && u !in rest ==> u in seen
      invariant Rest(category, rest, seen)
    {
      rest := rest[1..];
    }
  }

  /** How many of the URLs taken so far came from category i. */
  function Taken(from: seq<nat>, i: nat): nat {
    if from == [] then 0 else Taken(from[..|from| - 1], i) + (if from[|from| - 1] == i then 1 else 0)
  }

  lemma TakenSnoc(from: seq<nat>, j: nat, i: nat)
    ensures Taken(from + [j], i) == Taken(from, i) + (if i == j then 1 else 0)
  {
    assert (from + [j])[..|from|] == from;
  }

  /** The merge so far: `from[k]` names the category that gave urls[k]; `left` is what the deques still hold. */
  ghost predicate Progress(given: seq<seq<Url>>, excluded: set<Url>, capacity: nat,
                           left: seq<seq<Url>>, seen: set<Url>, urls: seq<Url>, from: seq<nat>) {
    && |left| == |given| && |from| == |urls| <= capacity
    && seen == excluded + (set u | u in urls)
    && (forall i, j :: 0 <= i < j < |urls| ==> urls[i] != urls[j])
    && (forall k :: 0 <= k < |urls| ==> from[k] < |given| && urls[k] in given[from[k]] && urls[k] !in excluded)
    && (forall i :: 0 <= i < |given| ==> forall u :: u in left[i] ==> u in given[i])
    && (forall i :: 0 <= i < |given| ==> forall u :: u in given[i] && u !in left[i] ==> u in seen)
  }

  /** A category with something new left has given one URL in every round so far. */
  ghost predicate Fair(left: seq<seq<Url>>, seen: set<Url>, from: seq<nat>, rounds: nat, upTo: nat) {
    forall i :: 0 <= i < |left| ==>
      var due := if i < upTo then rounds + 1 else rounds;
      Taken(from, i) <= due && (!UsedUp(left[i], seen) ==> Taken(from, i) == due)
  }

  /** What a deque has lost was seen, and it has lost it from the front. */
  ghost predicate Rest(given: seq<Url>, left: seq<Url>, seen: set<Url>) {
    && |left| <= |given| && left == given[|given| - |left|..]
    && forall a :: 0 <= a < |given| - |left| ==> given[a] in seen
  }

  ghost predicate Consumed(given: seq<seq<Url>>, left: seq<seq<Url>>, seen: set<Url>) {
    |left| == |given| && forall i :: 0 <= i < |given| ==> Rest(given[i], left[i], seen)
  }

  /** The URL is the first of the category that was not seen. */
  ghost predicate FirstUnseen(category: seq<Url>, seen: set<Url>, url: Url) {
    exists a :: 0 <= a < |category| && category[a] == url && url !in seen && forall b :: 0 <= b < a ==> category[b] in seen
  }

  /** Category i is next: of those with an unseen URL it has given the fewest, and it is the first of these. */
  ghost predicate IsNext(given: seq<seq<Url>>, seen: set<Url>, from: seq<nat>, i: nat) {
    i < |given| && forall j :: 0 <= j < |given| && !UsedUp(given[j], seen) ==>
      Taken(from, i) < Taken(from, j) || (Taken(from, i) == Taken(from, j) && i <= j)
  }

  function SeenBy(excluded: set<Url>, urls: seq<Url>): set<Url> { excluded + set u | u in urls }

  /** The k-th URL is the first unseen one of the category that was next. */
  ghost predicate Pick(given: seq<seq<Url>>, excluded: set<Url>, urls: seq<Url>, from: seq<nat>, k: nat)
    requires k < |urls| == |from|
  {
    && IsNext(given, SeenBy(excluded, urls[..k]), from[..k], from[k])
    && FirstUnseen(given[from[k]], SeenBy(excluded, urls[..k]), urls[k])
  }

  ghost predicate Ordered(given: seq<seq<Url>>, excluded: set<Url>, urls: seq<Url>, from: seq<nat>) {
    |urls| == |from| && forall k :: 0 <= k < |urls| ==> Pick(given, excluded, urls, from, k)
  }

  lemma OrderedSnoc(given: seq<seq<Url>>, excluded: set<Url>, urls: seq<Url>, from: seq<nat>, url: Url, i: nat)
    requires Ordered(given, excluded, urls, from)
    requires IsNext(given, SeenBy(excluded, urls), from, i) && FirstUnseen(given[i], SeenBy(excluded, urls), url)
    ensures Ordered(given, excluded, urls + [url], from + [i])
  {
    var more, origin := urls + [url], from + [i];
    forall k | 0 <= k < |more| ensures Pick(given, excluded, more, origin, k) {
      if k < |urls| {
        assert Pick(given, excluded, urls, from, k);
        assert more[..k] == urls[..k] && origin[..k] == from[..k];
      } else {
        assert more[..k] == urls && origin[..k] == from;
      }
    }
  }

  /** The head of what is left of the category whose turn it is comes next. */
  lemma TakingIsNext(given: seq<seq<Url>>, left: seq<seq<Url>>, seen: set<Url>, from: seq<nat>, rounds: nat, i: nat, rest: seq<Url>)
    requires Consumed(given, left, seen) && i < |left| && Fair(left, seen, from, rounds, i)
    requires Rest(left[i], rest, seen) && rest != [] && rest[0] !in seen
    ensures IsNext(given, seen, from, i) && FirstUnseen(given[i], seen, rest[0])
  {
    RestOfRest(given[i], left[i], rest, seen);
    assert given[i][|given[i]| - |rest|] == rest[0];
    assert rest[0] in left[i] && !UsedUp(left[i], seen);
    forall j | 0 <= j < |given| && !UsedUp(given[j], seen) ensures !UsedUp(left[j], seen) {
      assert Rest(given[j], left[j], seen);
      var u :| u in given[j] && u !in seen;
      var a :| 0 <= a < |given[j]| && given[j][a] == u;
      assert u == left[j][a - (|given[j]| - |left[j]|)];
    }
  }

  lemma RestOfRest(given: seq<Url>, left: seq<Url>, rest: seq<Url>, seen: set<Url>)
    requires Rest(given, left, seen) && Rest(left, rest, seen)
    ensures Rest(given, rest, seen)
  {
    forall a | 0 <= a < |given| - |rest| ensures given[a] in seen {
      if a >= |given| - |left| { assert given[a] == left[a - (|given| - |left|)]; }
    }
  }

  ghost function Weight(left: seq<seq<Url>>): nat {
    if left == [] then 0 else |left[0]| + Weight(left[1..])
  }

  lemma {:induction false} WeightUpdate(left: seq<seq<Url>>, i: nat, c: seq<Url>)
    requires i < |left|
    ensures Weight(left[i := c]) == Weight(left) - |left[i]| + |c| && Weight(left) >= |left[i]|
  {
    if i == 0 {
      assert left[i := c][1..] == left[1..];
    } else {
      WeightUpdate(left[1..], i - 1, c);
      assert left[i := c][1..] == left[1..][i - 1 := c];
    }
  }

  ghost predicate Merging(given: seq<seq<Url>>, excluded: set<Url>, capacity: nat,
                          left: seq<seq<Url>>, seen: set<Url>, urls: seq<Url>, from: seq<nat>) {
    && Progress(given, excluded, capacity, left, seen, urls, from)
    && Consumed(given, left, seen) && Ordered(given, excluded, urls, from)
  }

  lemma SkippingKeeps(given: seq<seq<Url>>, excluded: set<Url>, capacity: nat, left: seq<seq<Url>>, seen: set<Url>,
                      urls: seq<Url>, from: seq<nat>, i: nat, rest: seq<Url>)
    requires Merging(given, excluded, capacity, left, seen, urls, from) && i < |left| && Rest(left[i], rest, seen)
    ensures Merging(given, excluded, capacity, left[i := rest], seen, urls, from)
    ensures forall rounds: nat, n: nat :: Fair(left, seen, from, rounds, n) ==> Fair(left[i := rest], seen, from, rounds, n)
  {
    RestOfRest(given[i], left[i], rest, seen);
    SkippedWasSeen(left[i], rest, seen);
    assert UsedUp(left[i], seen) <==> UsedUp(rest, seen);
  }

  lemma SkippedWasSeen(left: seq<Url>, rest: seq<Url>, seen: set<Url>)
    requires Rest(left, rest, seen)
    ensures forall u :: u in left ==> u in rest || u in seen
    ensures forall u :: u in rest ==> u in left
  {
    forall u | u in left ensures u in rest || u in seen {
      var a :| 0 <= a < |left| && left[a] == u;
      if a >= |left| - |rest| { assert rest[a - (|left| - |rest|)] == u; }
    }
  }

  lemma TakingKeeps(given: seq<seq<Url>>, excluded: set<Url>, capacity: nat, left: seq<seq<Url>>, seen: set<Url>,
                    urls: seq<Url>, from: seq<nat>, i: nat, rounds: nat)
    requires Merging(given, excluded, capacity, left, seen, urls, from) && i < |left| && Fair(left, seen, from, rounds, i)
    requires |urls| < capacity && left[i] != [] && left[i][0] !in seen
    ensures Merging(given, excluded, capacity, left[i := left[i][1..]], seen + {left[i][0]}, urls + [left[i][0]], from + [i])
    ensures Fair(left[i := left[i][1..]], seen + {left[i][0]}, from + [i], rounds, i + 1)
  {
    var rest := left[i];
    TakingIsFair(left, seen, from, rounds, i, rest);
    TakingIsNext(given, left, seen, from, rounds, i, rest);
    OrderedSnoc(given, excluded, urls, from, rest[0], i);
    TakingConsumes(given, left, seen, i, rest);
    TakingProgresses(given, excluded, capacity, left, seen, urls, from, i);
  }

  lemma TakingProgresses(given: seq<seq<Url>>, excluded: set<Url>, capacity: nat, left: seq<seq<Url>>, seen: set<Url>,
                         urls: seq<Url>, from: seq<nat>, i: nat)
    requires Progress(given, excluded, capacity, left, seen, urls, from) && i < |left|
    requires |urls| < capacity && left[i] != [] && left[i][0] !in seen
    ensures Progress(given, excluded, capacity, left[i := left[i][1..]], seen + {left[i][0]}, urls + [left[i][0]], from + [i])
  {
    assert left[i][0] in left[i];
    assert forall u :: u in left[i] ==> u == left[i][0] || u in left[i][1..];
  }

  /** One category's turn in a round: skip what was seen, then take at most one URL. */
  method Turn(given: seq<seq<Url>>, excluded: set<Url>, capacity: nat, i: nat, left: seq<seq<Url>>,
              seen: set<Url>, urls: seq<Url>, ghost from: seq<nat>, ghost rounds: nat)
    returns (left': seq<seq<Url>>, seen': set<Url>, urls': seq<Url>, ghost from': seq<nat>)
    requires i < |left| && Merging(given, excluded, capacity, left, seen, urls, from)
    requires |urls| < capacity ==> Fair(left, seen, from, rounds, i)
    requires |urls| == capacity ==> exists n :: 0 <= n <= |left| && Fair(left, seen, from, rounds, n)
    ensures Merging(given, excluded, capacity, left', seen', urls', from')
    ensures |urls'| < capacity ==> Fair(left', seen', from', rounds, i + 1)
    ensures |urls'| == capacity ==> exists n :: 0 <= n <= |left'| && Fair(left', seen', from', rounds, n)
    ensures Weight(left') <= Weight(left) && (Weight(left') == Weight(left) ==> urls' == urls)
    ensures forall j :: 0 <= j < |left| && j != i ==> left'[j] == left[j]
    ensures |left[i]| > 0 && |urls| < capacity ==> Weight(left') < Weight(left)
  {
    seen', urls', from' := seen, urls, from;
    var rest := SkipSeen(left[i], seen);
    WeightUpdate(left, i, rest);
    SkippingKeeps(given, excluded, capacity, left, seen, urls, from, i, rest);
    left' := left[i := rest];
    if rest != [] && |urls| < capacity {
      var url := rest[0];
      WeightUpdate(left', i, rest[1..]);
      TakingKeeps(given, excluded, capacity, left', seen, urls, from, i, rounds);
      left' := left'[i := rest[1..]];
      seen' := seen + {url};
      urls' := urls + [url];
      from' := from + [i];
    }
  }

  lemma TakingConsumes(given: seq<seq<Url>>, left: seq<seq<Url>>, seen: set<Url>, i: nat, rest: seq<Url>)
    requires Consumed(given, left, seen) && i < |left| && Rest(given[i], rest, seen) && rest != []
    ensures Consumed(given, left[i := rest[1..]], seen + {rest[0]})
  {
    assert given[i][|given[i]| - |rest|] == rest[0];
  }

  lemma TakingIsFair(left: seq<seq<Url>>, seen: set<Url>, from: seq<nat>, rounds: nat, i: nat, rest: seq<Url>)
    requires i < |left| && Fair(left, seen, from, rounds, i)
    requires rest != [] && rest[0] !in seen && rest[0] in left[i]
    ensures Fair(left[i := rest[1..]], seen + {rest[0]}, from + [i], rounds, i + 1)
  {
    forall j { TakenSnoc(from, i, j); }
    assert !UsedUp(left[i], seen);
  }

  /**
    A fair merge of the categories, `from` naming the category of each URL.  Its
    URLs are distinct, not excluded, drawn from the categories and no more than
    the capacity; when it stops short of the capacity every fresh result was
    taken; and of any two categories the poorer one is at most one URL behind,
    unless it has no unseen URL left.  Each URL is the first unseen one of the
    category that was next.
  */
  ghost predicate FairMerge(given: seq<seq<Url>>, excluded: set<Url>, capacity: nat, urls: seq<Url>, from: seq<nat>) {
    && |from| == |urls| <= capacity
    && (forall i, j :: 0 <= i < j < |urls| ==> urls[i] != urls[j])
    && (forall k :: 0 <= k < |urls| ==> from[k] < |given| && urls[k] in given[from[k]] && urls[k] !in excluded)
    && (|urls| < capacity ==>
          forall i, u :: 0 <= i < |given| && u in given[i] ==> u in urls || u in excluded)
    && (forall i, j :: 0 <= i < |given| && 0 <= j < |given| && Taken(from, i) + 1 < Taken(from, j) ==>
          UsedUp(given[i], excluded + set u | u in urls))
    && Ordered(given, excluded, urls, from)
  }

  /** So there is only one fair merge of some categories. */
  lemma MergeIsDetermined(given: seq<seq<Url>>, excluded: set<Url>, capacity: nat, urls: seq<Url>, from: seq<nat>,
                          others: seq<Url>, origin: seq<nat>)
    requires FairMerge(given, excluded, capacity, urls, from) && FairMerge(given, excluded, capacity, others, origin)
    ensures urls == others && from == origin
  {
    if |urls| <= |others| {
      SamePicks(given, excluded, urls, from, others, origin, |urls|);
      NoneIsLeft(given, excluded, capacity, urls, from, others, origin);
    } else {
      SamePicks(given, excluded, others, origin, urls, from, |others|);
      NoneIsLeft(given, excluded, capacity, others, origin, urls, from);
    }
  }

  lemma NoneIsLeft(given: seq<seq<Url>>, excluded: set<Url>, capacity: nat, urls: seq<Url>, from: seq<nat>,
                   others: seq<Url>, origin: seq<nat>)
    requires FairMerge(given, excluded, capacity, urls, from) && FairMerge(given, excluded, capacity, others, origin)
    requires |urls| <= |others| && others[..|urls|] == urls && origin[..|urls|] == from
    ensures urls == others && from == origin
  {
    if |urls| < |others| {
      NextIsUnseen(given, excluded, urls, others, origin);
      assert false;
    }
  }

  lemma NextIsUnseen(given: seq<seq<Url>>, excluded: set<Url>, urls: seq<Url>, others: seq<Url>, origin: seq<nat>)
    requires Ordered(given, excluded, others, origin) && |urls| < |others| && others[..|urls|] == urls
    ensures var n := |urls|; origin[n] < |given| && others[n] in given[origin[n]] && others[n] !in urls && others[n] !in excluded
  {
    assert Pick(given, excluded, others, origin, |urls|);
  }

  lemma {:induction false} SamePicks(given: seq<seq<Url>>, excluded: set<Url>, urls: seq<Url>, from: seq<nat>,
                                     others: seq<Url>, origin: seq<nat>, n: nat)
    requires Ordered(given, excluded, urls, from) && Ordered(given, excluded, others, origin) && n <= |urls| <= |others|
    ensures urls[..n] == others[..n] && from[..n] == origin[..n]
  {
    if n > 0 {
      var k := n - 1;
      SamePicks(given, excluded, urls, from, others, origin, k);
      assert Pick(given, excluded, urls, from, k) && Pick(given, excluded, others, origin, k);
      SamePick(given, SeenBy(excluded, urls[..k]), from[..k], from[k], origin[k], urls[k], others[k]);
      assert urls[..n] == urls[..k] + [urls[k]] && others[..n] == others[..k] + [others[k]];
      assert from[..n] == from[..k] + [from[k]] && origin[..n] == origin[..k] + [origin[k]];
    }
  }

  lemma SamePick(given: seq<seq<Url>>, seen: set<Url>, from: seq<nat>, i: nat, j: nat, url: Url, other: Url)
    requires IsNext(given, seen, from, i) && FirstUnseen(given[i], seen, url)
    requires IsNext(given, seen, from, j) && FirstUnseen(given[j], seen, other)
    ensures i == j && url == other
  {
    assert url in given[i] && url !in seen && !UsedUp(given[i], seen);
    assert other in given[j] && other !in seen && !UsedUp(given[j], seen);
  }

  /** The merge, which always ends. */
  method Merge(given: seq<seq<Url>>, excluded: set<Url>, capacity: nat) returns (urls: seq<Url>, ghost from: seq<nat>)
    ensures FairMerge(given, excluded, capacity, urls, from)
  {
    var left, seen := given, excluded;
    urls, from := [], [];
    ghost var rounds := 0;
    assert Fair(left, seen, from, rounds, 0);
    while |urls| < capacity && exists i :: 0 <= i < |left| && left[i] != []
      invariant Merging(given, excluded, capacity, left, seen, urls, from)
      invariant |urls| < capacity ==> Fair(left, seen, from, rounds, 0)
      invariant |urls| == capacity ==> exists n :: 0 <= n <= |left| && Fair(left, seen, from, rounds, n)
      decreases Weight(left)
    {
      ghost var before := Weight(left);
      ghost var some :| 0 <= some < |left| && left[some] != [];
      var i := 0;
      while i < |left|
        invariant 0 <= i <= |left|
        invariant Merging(given, excluded, capacity, left, seen, urls, from)
        invariant |urls| < capacity ==> Fair(left, seen, from, rounds, i)
        invariant |urls| == capacity ==> exists n :: 0 <= n <= |left| && Fair(left, seen, from, rounds, n)
        invariant Weight(left) <= before
        invariant i <= some && Weight(left) == before ==> left[some] != [] && |urls| < capacity
        invariant i > some ==> Weight(left) < before
      {
        left, seen, urls, from := Turn(given, excluded, capacity, i, left, seen, urls, from, rounds);
        i := i + 1;
      }
      rounds := if |urls| < capacity then rounds + 1 else rounds;
    }
    FairMeansBalanced(given, excluded, capacity, left, seen, urls, from, rounds);
  }

  lemma FairMeansBalanced(given: seq<seq<Url>>, excluded: set<Url>, capacity: nat, left: seq<seq<Url>>,
                          seen: set<Url>, urls: seq<Url>, from: seq<nat>, rounds: nat)
    requires Progress(given, excluded, capacity, left, seen, urls, from)
    requires exists n :: 0 <= n <= |left| && Fair(left, seen, from, rounds, n)
    ensures forall i, j :: 0 <= i < |given| && 0 <= j < |given| && Taken(from, i) + 1 < Taken(from, j) ==>
              UsedUp(given[i], seen)
  {
    var n :| 0 <= n <= |left| && Fair(left, seen, from, rounds, n);
    forall i, j | 0 <= i < |given| && 0 <= j < |given| && Taken(from, i) + 1 < Taken(from, j)
      ensures UsedUp(given[i], seen)
    {
      assert UsedUp(left[i], seen);
    }
  }
}
