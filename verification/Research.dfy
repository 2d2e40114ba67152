/**
  `research_cluster` and `TavilySearch.search` as they unfold against an outside
  world: every call's reply, and every checkpoint's answer, is a function of the
  moment it happens.  A Python exception is an outcome that stops the loop.
*/
module Research {
  import opened Prelude
  import opened Text
  import opened Fence
  import RoundRobin

  type Url = string

  datatype Policy = Policy(maxIterations: nat, maxQueries: nat, maxSources: nat)

  datatype Record = Record(id: string, url: Url, finalUrl: Url)

  /** What a call comes back with; `rejected` are PolicyViolation, ValidationError and ValueError. */
  datatype Reply =
    | Queries(queries: seq<string>)
    | Results(rows: seq<Option<Url>>)        // None: a row without a string URL
    | Page(record: Record)
    | Fine
    | Unfit                                  // archived, but no valid record can be built of it
    | Raised(rejected: bool)

  datatype Manifest = Manifest(iterations: nat, searchQueries: nat, modelCalls: nat, sourceCount: nat)

  datatype Outcome =
    | Finished(manifest: Manifest, records: seq<Record>)
    | Stopped                                // a checkpoint refused
    | Failed(rejected: bool)                 // any other exception

  predicate ValidQuery(q: string) { Strip(q) != "" && |q| <= 500 }

  predicate ValidQueries(queries: seq<string>) { forall q :: q in queries ==> ValidQuery(q) }

  predicate BadPlan(plan: Reply) { plan.Queries? && !ValidQueries(plan.queries) }

  /** A dict in insertion order, keyed by evidence id: a known id is overwritten where it stands. */
  function Store(records: seq<Record>, r: Record): (out: seq<Record>)
    ensures |records| <= |out| <= |records| + 1
  {
    if records == [] then [r]
    else if records[0].id == r.id then [r] + records[1..]
    else [records[0]] + Store(records[1..], r)
  }

  /** What is stored is there, nothing comes from elsewhere, and no id is lost. */
  lemma {:induction false} StoreHas(records: seq<Record>, r: Record)
    ensures r in Store(records, r) && (forall x :: x in Store(records, r) ==> x == r || x in records)
    ensures forall x :: x in records ==> exists y :: y in Store(records, r) && y.id == x.id
  {
    var out := Store(records, r);
    if records == [] {
    } else if records[0].id == r.id {
      assert out[0] == r && forall i :: 0 < i < |out| ==> out[i] == records[i];
      forall x | x in records ensures exists y :: y in out && y.id == x.id {
        if x != records[0] { assert x in records[1..]; } else { assert r in out; }
      }
    } else {
      StoreHas(records[1..], r);
      var rest := Store(records[1..], r);
      assert out == [records[0]] + rest;
      forall x | x in records ensures exists y :: y in out && y.id == x.id {
        if x == records[0] {
          assert x in out;
        } else {
          assert x in records[1..];
          var y :| y in rest && y.id == x.id;
          assert y in out;
        }
      }
    }
  }

  predicate DistinctIds(records: seq<Record>) {
    forall i, j :: 0 <= i < j < |records| ==> records[i].id != records[j].id
  }

  lemma {:induction false} StoreKeepsDistinct(records: seq<Record>, r: Record)
    requires DistinctIds(records)
    ensures DistinctIds(Store(records, r))
  {
    if records == [] {
    } else if records[0].id == r.id {
      var out := Store(records, r);
      assert forall i :: 0 < i < |out| ==> out[i] == records[i];
    } else {
      assert DistinctIds(records[1..]);
      StoreKeepsDistinct(records[1..], r);
      var rest := Store(records[1..], r);
      StoreHas(records[1..], r);
      forall j | 0 <= j < |rest| ensures rest[j].id != records[0].id {
        assert rest[j] in rest;
        if rest[j] != r {
          var k :| 0 <= k < |records[1..]| && records[1..][k] == rest[j];
          assert records[k + 1] == rest[j];
        }
      }
    }
  }

  /** A record that is stored takes the place of the one with its id, or comes last; the others stay where they are. */
  lemma {:induction false} StoreAt(records: seq<Record>, r: Record, i: nat)
    requires DistinctIds(records) && i < |Store(records, r)|
    ensures i < |records| ==> Store(records, r)[i] == if records[i].id == r.id then r else records[i]
    ensures i == |records| ==> Store(records, r)[i] == r
    decreases |records|
  {
    var out := Store(records, r);
    if records == [] {
    } else if records[0].id == r.id {
      assert out == [r] + records[1..];
      if 0 < i < |records| { assert out[i] == records[i] && records[0].id != records[i].id; }
    } else {
      var rest := Store(records[1..], r);
      assert out == [records[0]] + rest && DistinctIds(records[1..]);
      if i > 0 {
        StoreAt(records[1..], r, i - 1);
        assert out[i] == rest[i - 1];
      }
    }
  }

  /** A verification pass: one guarded archive read a record, in order. */
  function VerifyPass(records: seq<Record>): seq<Event> {
    if records == [] then []
    else VerifyPass(records[..|records| - 1]) + [Check(true), Begin(Verify(records[|records| - 1].id))]
  }

  lemma VerifyOneMore(before: seq<Event>, records: seq<Record>, i: nat)
    requires i < |records|
    ensures (before + VerifyPass(records[..i])) + [Check(true), Begin(Verify(records[i].id))] == before + VerifyPass(records[..i + 1])
  {
    assert records[..i + 1][..i] == records[..i];
  }

  lemma {:induction false} VerifyPassIs(records: seq<Record>)
    ensures |VerifyPass(records)| == 2 * |records|
    ensures forall i :: 0 <= i < |records| ==>
              VerifyPass(records)[2 * i] == Check(true) && VerifyPass(records)[2 * i + 1] == Begin(Verify(records[i].id))
    decreases |records|
  {
    if records != [] { VerifyPassIs(records[..|records| - 1]); }
  }

  /** The posts of one search: a guarded call a query. */
  function SearchPass(queries: seq<string>): (t: seq<Event>)
    ensures |t| == 2 * |queries|
  {
    if queries == [] then [] else SearchPass(queries[..|queries| - 1]) + [Check(true), Begin(Search(queries[|queries| - 1]))]
  }

  lemma {:induction false} SearchPassIs(queries: seq<string>)
    ensures forall i :: 0 <= i < |queries| ==>
              SearchPass(queries)[2 * i] == Check(true) && SearchPass(queries)[2 * i + 1] == Begin(Search(queries[i]))
    decreases |queries|
  {
    if queries != [] { SearchPassIs(queries[..|queries| - 1]); }
  }

  // ----- what a trace adds up to ------------------------------------------

  /** What a call comes back with, when and whatever it is. */
  type World = (nat, Call) -> Reply

  /** A plan that is not used: the call raised a rejection, or did not return the four queries. */
  predicate RejectsPlan(reply: Reply) { reply == Raised(true) || (!reply.Raised? && (!reply.Queries? || |reply.queries| != 4)) }

  /**
    Calls of each kind so far, rejected plans among them, and the records archived.
    The last plan has `planned` queries, searches have `listed` URLs, and those of
    the seeds and of what was archived are `seen`; `breaches` counts the posts of a
    query that is invalid or not planned and the fetches of a URL not listed or seen.
  */
  datatype Tally = Tally(plans: nat, rejected: nat, searches: nat, syntheses: nat, records: seq<Record>,
                         planned: seq<string>, listed: set<Url>, seen: set<Url>, fetched: seq<Url>, breaches: nat)

  /** The URLs a search's reply lists. */
  function RowUrls(reply: Reply): set<Url> {
    if reply.Results? then set j | 0 <= j < |reply.rows| && reply.rows[j].Some? :: reply.rows[j].value else {}
  }

  /** The events before a put begin with the fetch of this URL, which returned a page. */
  predicate PageBefore(t: seq<Event>, world: World) {
    && |t| >= 2 && t[|t| - 2].Begin? && t[|t| - 2].call.Fetch?
    && world(|t| - 2, t[|t| - 2].call).Page?
  }

  /** What the next call, after the events t, adds: a put archives the page of the fetch just before it. */
  function AddCall(t: seq<Event>, world: World, sum: Tally, call: Call): Tally {
    match call
    case Plan =>
      sum.(plans := sum.plans + 1, rejected := sum.rejected + (if RejectsPlan(world(|t|, Plan)) then 1 else 0),
           planned := if world(|t|, Plan).Queries? then world(|t|, Plan).queries else [])
    case Search(query) =>
      sum.(searches := sum.searches + 1, listed := sum.listed + RowUrls(world(|t|, Search(query))),
           breaches := sum.breaches + if Askable(sum, query) then 0 else 1)
    case Synthesize => sum.(syntheses := sum.syntheses + 1)
    case Fetch(url) =>
      sum.(fetched := sum.fetched + [url], breaches := sum.breaches + if Fetchable(sum, url) then 0 else 1)
    case Put =>
      if PageBefore(t, world) && world(|t|, Put) == Fine
      then Archived(sum, t[|t| - 2].call.url, world(|t| - 2, t[|t| - 2].call).record) else sum
    case Verify(_) => sum
  }

  predicate Askable(sum: Tally, query: string) { ValidQuery(query) && query in sum.planned }

  predicate Admissible(sum: Tally, call: Call) {
    && (call.Search? ==> Askable(sum, call.query))
    && (call.Fetch? ==> Fetchable(sum, call.url))
  }

  predicate Fetchable(sum: Tally, url: Url) { url in sum.listed && url !in sum.seen }

  function Archived(sum: Tally, url: Url, page: Record): Tally {
    sum.(records := Store(sum.records, page), seen := sum.seen + {url, page.finalUrl})
  }

  lemma {:induction false} FetchAdds(t: seq<Event>, world: World, sum: Tally, url: Url)
    requires Fetchable(sum, url)
    ensures AddCall(t, world, sum, Fetch(url)) == sum.(fetched := sum.fetched + [url])
  {
  }

  lemma {:induction false} PostAdds(t: seq<Event>, world: World, sum: Tally, query: string, reply: Reply)
    requires Askable(sum, query) && reply == world(|t|, Search(query))
    ensures AddCall(t, world, sum, Search(query))
            == sum.(searches := sum.searches + 1, listed := sum.listed + RowUrls(reply))
  {
  }

  function SeedUrls(seeds: seq<Record>): set<Url> {
    (set i | 0 <= i < |seeds| :: seeds[i].url) + (set i | 0 <= i < |seeds| :: seeds[i].finalUrl)
  }

  lemma {:induction false} PutAfterFetch(t: seq<Event>, world: World, sum: Tally, url: Url, page: Record)
    requires LastIs(t, Begin(Fetch(url))) && world(|t| - 1, Fetch(url)) == Page(page)
    ensures AddCall(t + [Check(true)], world, sum, Put)
            == if world(|t| + 1, Put) == Fine then Archived(sum, url, page) else sum
  {
    assert |t + [Check(true)]| == |t| + 1 && (t + [Check(true)])[|t| - 1] == Begin(Fetch(url));
  }

  function TallyOf(t: seq<Event>, world: World, seeds: seq<Record>): Tally {
    if t == [] then Tally(0, 0, 0, 0, seeds, [], {}, SeedUrls(seeds), [], 0)
    else
      var init := t[..|t| - 1];
      match t[|t| - 1]
      case Check(_) => TallyOf(init, world, seeds)
      case Begin(call) => AddCall(init, world, TallyOf(init, world, seeds), call)
  }

  lemma TallySnoc(t: seq<Event>, e: Event, world: World, seeds: seq<Record>)
    ensures TallyOf(t + [e], world, seeds)
            == if e.Begin? then AddCall(t, world, TallyOf(t, world, seeds), e.call) else TallyOf(t, world, seeds)
  {
    assert (t + [e])[..|t|] == t;
  }

  function Min(a: nat, b: nat): nat { if a < b then a else b }

  /** Results the search accepts: not too many, each with a URL that is not too long. */
  predicate GoodResults(policy: Policy, reply: Reply) {
    && reply.Results? && |reply.rows| <= Min(policy.maxSources, 20)
    && forall j :: 0 <= j < |reply.rows| ==> reply.rows[j].Some? && |reply.rows[j].value| <= 2048
  }

  /** The URLs of some results that are not excluded, in order: one category. */
  function Fresh(rows: seq<Option<Url>>, excluded: set<Url>): (category: seq<Url>) {
    if rows == [] then []
    else
      var last := rows[|rows| - 1];
      Fresh(rows[..|rows| - 1], excluded) + (if last.Some? && last.value !in excluded then [last.value] else [])
  }

  lemma {:induction false} FreshAreRows(rows: seq<Option<Url>>, excluded: set<Url>)
    ensures forall u :: u in Fresh(rows, excluded) ==> u !in excluded && Some(u) in rows
    decreases |rows|
  {
    if rows != [] { FreshAreRows(rows[..|rows| - 1], excluded); }
  }

  /** With FreshAreRows and this, the category is told: the rows that are not excluded, in their order. */
  lemma {:induction false} FreshInOrder(rows: seq<Option<Url>>, more: seq<Option<Url>>, excluded: set<Url>)
    ensures Fresh(rows + more, excluded) == Fresh(rows, excluded) + Fresh(more, excluded)
    ensures forall u :: Fresh([Some(u)], excluded) == if u in excluded then [] else [u]
    decreases |more|
  {
    assert Fresh([], excluded) == [];
    forall u ensures Fresh([Some(u)], excluded) == if u in excluded then [] else [u] {
      assert [Some(u)][..0] == [];
    }
    if more == [] {
      assert rows + more == rows;
    } else {
      var init, last := more[..|more| - 1], more[|more| - 1];
      FreshInOrder(rows, init, excluded);
      assert (rows + more)[..|rows + more| - 1] == rows + init && (rows + more)[|rows + more| - 1] == last;
      Associate(Fresh(rows, excluded), Fresh(init, excluded), if last.Some? && last.value !in excluded then [last.value] else []);
    }
  }

  predicate AllListed(found: seq<seq<Url>>, listed: set<Url>) {
    forall k :: 0 <= k < |found| ==> forall u :: u in found[k] ==> u in listed
  }

  lemma {:induction false} SearchLists(found: seq<seq<Url>>, before: set<Url>, listed: set<Url>, reply: Reply, excluded: set<Url>)
    requires AllListed(found, before) && reply.Results? && listed == before + RowUrls(reply)
    ensures AllListed(found + [Fresh(reply.rows, excluded)], listed)
  {
    var category := Fresh(reply.rows, excluded);
    FreshAreRows(reply.rows, excluded);
    forall u | u in category ensures u in RowUrls(reply) { assert Some(u) in reply.rows; }
  }

  lemma {:induction false} MergeIsListed(found: seq<seq<Url>>, excluded: set<Url>, capacity: nat, urls: seq<Url>, from: seq<nat>,
                                         listed: set<Url>)
    requires RoundRobin.FairMerge(found, excluded, capacity, urls, from) && AllListed(found, listed)
    ensures forall u :: u in urls ==> u in listed
  {
    forall k | 0 <= k < |urls| ensures urls[k] in listed { assert urls[k] in found[from[k]]; }
  }

  /** The category is what the search for the query at this moment found. */
  predicate FoundAt(world: World, moment: nat, query: string, excluded: set<Url>, category: seq<Url>) {
    world(moment, Search(query)).Results? && category == Fresh(world(moment, Search(query)).rows, excluded)
  }

  /** The categories are what the posts of the queries since `start` found, one after the other. */
  predicate Posted(world: World, start: nat, queries: seq<string>, excluded: set<Url>, categories: seq<seq<Url>>) {
    |categories| == |queries| &&
    forall i :: 0 <= i < |categories| ==> FoundAt(world, start + 2 * i + 1, queries[i], excluded, categories[i])
  }

  lemma {:induction false} PostedOneMore(world: World, before: seq<Event>, t: seq<Event>, queries: seq<string>, query: string,
                                         excluded: set<Url>, found: seq<seq<Url>>, category: seq<Url>)
    requires t == before + SearchPass(queries) && Posted(world, |before|, queries, excluded, found)
    requires FoundAt(world, |t| + 1, query, excluded, category)
    ensures t + [Check(true), Begin(Search(query))] == before + SearchPass(queries + [query])
    ensures Posted(world, |before|, queries + [query], excluded, found + [category])
  {
    assert (queries + [query])[..|queries|] == queries;
  }

  /** From t0 to t: a checkpoint, the posts of the queries, and the merge of what they found into hits. */
  ghost predicate Hunted(policy: Policy, world: World, t0: seq<Event>, t: seq<Event>, before: Tally, after: Tally,
                         queries: seq<string>, hits: seq<Url>, categories: seq<seq<Url>>, from: seq<nat>)
  {
    && t == t0 + [Check(true)] + SearchPass(queries)
    && after == before.(searches := before.searches + |queries|, listed := after.listed)
    && Posted(world, |t0| + 1, queries, before.seen, categories)
    && |before.records| <= policy.maxSources
    && RoundRobin.FairMerge(categories, before.seen, policy.maxSources - |before.records|, hits, from)
    && (forall u :: u in hits ==> u in after.listed)
  }

  lemma {:induction false} HuntAfterCheck(policy: Policy, world: World, t0: seq<Event>, half: seq<Event>, t: seq<Event>,
                                          before: Tally, after: Tally, records: seq<Record>, seen: set<Url>, queries: seq<string>,
                                          hits: seq<Url>, categories: seq<seq<Url>>, from: seq<nat>)
    requires half == t0 + [Check(true)] && t == half + SearchPass(queries)
    requires after == before.(searches := before.searches + |queries|, listed := after.listed)
    requires Posted(world, |half|, queries, seen, categories) && AllListed(categories, after.listed)
    requires records == before.records && seen == before.seen && |records| <= policy.maxSources
    requires RoundRobin.FairMerge(categories, seen, policy.maxSources - |records|, hits, from)
    ensures Hunted(policy, world, t0, t, before, after, queries, hits, categories, from)
  {
    MergeIsListed(categories, seen, policy.maxSources - |records|, hits, from, after.listed);
  }

  /** The reply to a call ends the run with an error. */
  predicate FaultyReply(policy: Policy, last: bool, call: Call, reply: Reply) {
    match call
    case Plan => reply == Raised(false) || (last && RejectsPlan(reply))
    case Search(_) => !GoodResults(policy, reply)
    case Fetch(_) => reply != Raised(true) && !reply.Page?
    case Put => reply != Fine
    case Verify(_) => reply.Raised?
    case Synthesize => reply == Raised(false) || (last && reply != Fine)
  }

  // ----- what it is to carry out a plan ------------------------------------

  predicate UsesPlan(t: seq<Event>, world: World, m: nat)
    requires m < |t|
  {
    t[m] == Begin(Plan) && world(m, Plan).Queries? && |world(m, Plan).queries| == 4
  }

  /** The queries of a plan that are asked. */
  function Asked(policy: Policy, world: World, m: nat): seq<string>
    requires world(m, Plan).Queries? && |world(m, Plan).queries| == 4
  {
    world(m, Plan).queries[..Min(policy.maxQueries, 4)]
  }

  /** What searching for a plan found, what it was merged into, and what was fetched of that. */
  datatype Course = Course(categories: seq<seq<Url>>, from: seq<nat>, hits: seq<Url>, fetched: seq<Url>)

  /**
    Between the traces t0 and t the queries were posted, in order, and what the posts
    found was merged into hits, each of which was fetched, was seen by the end, or
    found the source budget used up.
  */
  ghost predicate Followed(policy: Policy, world: World, seeds: seq<Record>, t0: seq<Event>, t: seq<Event>, queries: seq<string>,
                           c: Course)
  {
    var before, after := TallyOf(t0, world, seeds), TallyOf(t, world, seeds);
    && t0 + [Check(true)] + SearchPass(queries) <= t
    && Posted(world, |t0| + 1, queries, before.seen, c.categories)
    && |before.records| <= policy.maxSources
    && RoundRobin.FairMerge(c.categories, before.seen, policy.maxSources - |before.records|, c.hits, c.from)
    && after.fetched == before.fetched + c.fetched
    && (forall u :: u in c.hits ==> u in c.fetched || u in after.seen || |after.records| == policy.maxSources)
    && (forall u :: u in c.fetched ==> u in c.hits)
  }

  /** The plan of event m was carried out, and a synthesis was begun after that. */
  ghost predicate CarriedOut(policy: Policy, world: World, seeds: seq<Record>, t: seq<Event>, m: nat)
    requires m < |t| && UsesPlan(t, world, m)
  {
    exists e: nat, c: Course :: CarriedOutBy(policy, world, seeds, t, m, e, c)
  }

  ghost predicate CarriedOutBy(policy: Policy, world: World, seeds: seq<Record>, t: seq<Event>, m: nat, e: nat, c: Course)
    requires m < |t| && UsesPlan(t, world, m)
  {
    && m < e && e + 1 < |t| && t[e] == Check(true) && t[e + 1] == Begin(Synthesize)
    && Followed(policy, world, seeds, t[..m + 1], t[..e], Asked(policy, world, m), c)
  }

  lemma {:induction false} CarriedOutStays(policy: Policy, world: World, seeds: seq<Record>, t: seq<Event>, longer: seq<Event>, m: nat)
    requires t <= longer && m < |t| && UsesPlan(t, world, m) && CarriedOut(policy, world, seeds, t, m)
    ensures CarriedOut(policy, world, seeds, longer, m)
  {
    var e: nat, c: Course :| CarriedOutBy(policy, world, seeds, t, m, e, c);
    assert longer[..m + 1] == t[..m + 1] && longer[..e] == t[..e] && longer[m] == t[m];
    assert CarriedOutBy(policy, world, seeds, longer, m, e, c);
  }

  /** From t0 to t: a guarded plan, and if it is used, all that follows from it up to the synthesis. */
  ghost predicate Gathered(policy: Policy, world: World, seeds: seq<Record>, t0: seq<Event>, t: seq<Event>, planned: bool, c: Course) {
    var m := |t0| + 1;
    && t0 + [Check(true), Begin(Plan)] <= t
    && (planned <==> UsesPlan(t, world, m))
    && (planned ==> Followed(policy, world, seeds, t[..m + 1], t, Asked(policy, world, m), c))
  }

  /** From t0 to t: a guarded plan that was carried out if it was used. */
  ghost predicate Iterated(policy: Policy, world: World, seeds: seq<Record>, t0: seq<Event>, t: seq<Event>) {
    && t0 + [Check(true), Begin(Plan)] <= t
    && (UsesPlan(t, world, |t0| + 1) ==> CarriedOut(policy, world, seeds, t, |t0| + 1))
  }

  lemma {:induction false} GatheredIsIterated(policy: Policy, world: World, seeds: seq<Record>, t0: seq<Event>, t: seq<Event>,
                                              planned: bool, c: Course, longer: seq<Event>)
    requires Gathered(policy, world, seeds, t0, t, planned, c)
    requires if planned then t + [Check(true), Begin(Synthesize)] <= longer else longer == t
    ensures Iterated(policy, world, seeds, t0, longer)
  {
    var m := |t0| + 1;
    if planned {
      assert longer[..m + 1] == t[..m + 1] && longer[..|t|] == t && longer[m] == t[m];
      assert t[..m + 1] + [Check(true)] <= t;
      assert longer[|t|] == Check(true) && longer[|t| + 1] == Begin(Synthesize);
      assert CarriedOutBy(policy, world, seeds, longer, m, |t|, c);
    }
  }

  /** Every plan among the first events that was used was carried out. */
  ghost predicate AllCarriedOut(policy: Policy, world: World, seeds: seq<Record>, t: seq<Event>) {
    forall m: nat :: m < |t| && UsesPlan(t, world, m) ==> CarriedOut(policy, world, seeds, t, m)
  }

  lemma {:induction false} NoPlanYet(policy: Policy, world: World, seeds: seq<Record>)
    ensures AllCarriedOut(policy, world, seeds, VerifyPass(seeds))
  {
    VerifyPassIs(seeds);
    forall m: nat | m < |VerifyPass(seeds)| ensures VerifyPass(seeds)[m] != Begin(Plan) {
      assert VerifyPass(seeds)[2 * (m / 2)] == Check(true) && VerifyPass(seeds)[2 * (m / 2) + 1] == Begin(Verify(seeds[m / 2].id));
    }
  }

  /** The trace goes on from `start` with a guarded plan. */
  predicate StartsWithPlan(start: seq<Event>, t: seq<Event>) { start + [Check(true), Begin(Plan)] <= t }

  lemma {:induction false} PlanComesFirst(policy: Policy, world: World, seeds: seq<Record>, start: seq<Event>, t: seq<Event>,
                                          longer: seq<Event>)
    requires (t == start || StartsWithPlan(start, t)) && Iterated(policy, world, seeds, t, longer)
    ensures StartsWithPlan(start, longer)
  {
  }

  /** The positions of the plans on a trace. */
  function PlansOf(t: seq<Event>): set<nat> { set m | 0 <= m < |t| && t[m] == Begin(Plan) }

  lemma {:induction false} PlansAreCounted(t: seq<Event>, world: World, seeds: seq<Record>)
    ensures |PlansOf(t)| == TallyOf(t, world, seeds).plans
    decreases |t|
  {
    if t != [] {
      PlansAreCounted(t[..|t| - 1], world, seeds);
      PlansOneMore(t);
    }
  }

  lemma {:induction false} PlansOneMore(t: seq<Event>)
    requires t != []
    ensures |PlansOf(t)| == |PlansOf(t[..|t| - 1])| + if t[|t| - 1] == Begin(Plan) then 1 else 0
  {
    var init, last := t[..|t| - 1], |t| - 1;
    assert forall m :: 0 <= m < last ==> init[m] == t[m];
    assert PlansOf(t) == PlansOf(init) + if t[last] == Begin(Plan) then {last} else {};
  }

  /** With one plan more on the trace, and that carried out if it was used, all are. */
  lemma {:induction false} OneMoreCarriedOut(policy: Policy, world: World, seeds: seq<Record>, t: seq<Event>, longer: seq<Event>)
    requires AllCarriedOut(policy, world, seeds, t) && Iterated(policy, world, seeds, t, longer)
    requires TallyOf(longer, world, seeds).plans == TallyOf(t, world, seeds).plans + 1
    ensures AllCarriedOut(policy, world, seeds, longer)
  {
    OnlyOnePlanMore(world, seeds, t, longer);
    forall m: nat | m < |longer| && UsesPlan(longer, world, m) ensures CarriedOut(policy, world, seeds, longer, m) {
      assert m in PlansOf(longer);
      if m < |t| {
        assert UsesPlan(t, world, m);
        CarriedOutStays(policy, world, seeds, t, longer, m);
      }
    }
  }

  lemma {:induction false} OnlyOnePlanMore(world: World, seeds: seq<Record>, t: seq<Event>, longer: seq<Event>)
    requires t + [Check(true), Begin(Plan)] <= longer
    requires TallyOf(longer, world, seeds).plans == TallyOf(t, world, seeds).plans + 1
    ensures forall m :: m in PlansOf(longer) ==> m < |t| || m == |t| + 1
  {
    PlansAreCounted(t, world, seeds);
    PlansAreCounted(longer, world, seeds);
    var known := PlansOf(t) + {|t| + 1};
    assert longer[|t| + 1] == Begin(Plan);
    assert known <= PlansOf(longer);
    if m :| m in PlansOf(longer) && m !in known {
      Larger(known + {m}, PlansOf(longer));
    }
  }

  lemma {:induction false} Larger(a: set<nat>, b: set<nat>)
    requires a <= b
    ensures |a| <= |b|
  {
    if a != {} {
      var x :| x in a;
      Larger(a - {x}, b - {x});
    }
  }

  /** None of the first n events is a call whose reply would have ended the run. */
  ghost predicate Heeded(policy: Policy, t: seq<Event>, world: World, n: int) {
    forall i :: 0 <= i < n && i < |t| && t[i].Begin? ==> !FaultyReply(policy, false, t[i].call, world(i, t[i].call))
  }

  lemma HeededSnoc(policy: Policy, t: seq<Event>, e: Event, world: World)
    requires Heeded(policy, t, world, |t|)
    ensures Heeded(policy, t + [e], world, |t|)
    ensures Heeded(policy, t + [e], world, |t| + 1) <==> e.Begin? ==> !FaultyReply(policy, false, e.call, world(|t|, e.call))
  {
    assert (t + [e])[|t|] == e && forall i :: 0 <= i < |t| ==> (t + [e])[i] == t[i];
    if Heeded(policy, t + [e], world, |t| + 1) && e.Begin? {
      assert (t + [e])[|t|].Begin?;
    }
  }

  // ----- the run ----------------------------------------------------------

  class Run {
    var trace: seq<Event>
    const fence: nat -> bool                 // what run_active answers at each moment
    const world: World
    const oversized: nat -> bool             // the result is refused, as invalid or over the byte ceiling
    const policy: Policy
    const seeds: seq<Record>

    constructor (fence: nat -> bool, world: World, oversized: nat -> bool, policy: Policy, seeds: seq<Record>)
      ensures trace == [] && this.fence == fence && this.world == world && this.oversized == oversized
      ensures this.policy == policy && this.seeds == seeds
    {
      trace := [];
      this.fence, this.world, this.oversized, this.policy, this.seeds := fence, world, oversized, policy, seeds;
    }

    ghost function Sum(): Tally reads this { TallyOf(trace, world, seeds) }

    ghost predicate Sane() reads this { Guarded(trace) && Honest(trace, fence) && Sum().breaches == 0 }

    /** A state from which the next checkpoint may be asked: no reply so far has ended the run. */
    ghost predicate Ready() reads this { Sane() && !LastIs(trace, Check(false)) && Heeded(policy, trace, world, |trace|) }

    /** The last event is a call whose reply is still to be looked at. */
    ghost predicate Begun() reads this { Sane() && !LastIs(trace, Check(false)) && Heeded(policy, trace, world, |trace| - 1) }

    /** The trace of a run that ended in `out`: a stop is exactly a refused checkpoint, and only the last reply can be faulty. */
    ghost predicate Ends(out: Outcome) reads this {
      && Sane() && (out.Stopped? <==> LastIs(trace, Check(false)))
      && Heeded(policy, trace, world, if out.Finished? then |trace| else |trace| - 1)
    }

    method Checkpoint() returns (open: bool)
      requires Ready()
      modifies this
      ensures trace == old(trace) + [Check(open)] && open == fence(|old(trace)|)
      ensures Sum() == old(Sum())
      ensures if open then Ready() else Ends(Stopped)
    {
      open := fence(|trace|);
      TallySnoc(trace, Check(open), world, seeds);
      GuardedSnoc(trace, Check(open));
      HonestSnoc(trace, Check(open), fence);
      HeededSnoc(policy, trace, Check(open), world);
      trace := trace + [Check(open)];
    }

    method Perform(call: Call) returns (reply: Reply)
      requires Ready() && LastIs(trace, Check(true)) && Admissible(Sum(), call)
      modifies this
      ensures trace == old(trace) + [Begin(call)] && reply == world(|old(trace)|, call)
      ensures Sum() == AddCall(old(trace), world, old(Sum()), call)
      ensures if FaultyReply(policy, false, call, reply) then Begun() else Ready()
    {
      reply := world(|trace|, call);
      TallySnoc(trace, Begin(call), world, seeds);
      GuardedSnoc(trace, Begin(call));
      HonestSnoc(trace, Begin(call), fence);
      HeededSnoc(policy, trace, Begin(call), world);
      trace := trace + [Begin(call)];
    }

    /** A checkpoint and, if it passes, a call; no reply: the checkpoint refused. */
    method Ask(call: Call) returns (reply: Option<Reply>)
      requires Ready() && Admissible(Sum(), call)
      modifies this
      ensures old(trace) <= trace
      ensures reply.None? ==> Ends(Stopped) && Sum() == old(Sum())
      ensures reply.Some? ==> trace == old(trace) + [Check(true), Begin(call)]
      ensures reply.Some? ==> if FaultyReply(policy, false, call, reply.value) then Begun() else Ready()
      ensures reply.Some? ==> reply.value == world(|old(trace)| + 1, call)
      ensures reply.Some? ==> Sum() == AddCall(old(trace) + [Check(true)], world, old(Sum()), call)
    {
      var open := Checkpoint();
      if !open {
        return None;
      }
      ghost var half := trace;
      assert half == old(trace) + [Check(true)];
      var answer := Perform(call);
      assert half + [Begin(call)] == old(trace) + [Check(true), Begin(call)];
      reply := Some(answer);
    }

    /** The last event is a call whose reply ends the run with an error; `last`: in the last iteration. */
    ghost predicate Faulty(last: bool) reads this {
      && trace != [] && trace[|trace| - 1].Begin?
      && FaultyReply(policy, last, trace[|trace| - 1].call, world(|trace| - 1, trace[|trace| - 1].call))
    }

    /** If there is a failure, it ends the run, at a refused checkpoint or a faulty reply. */
    ghost predicate Fails(last: bool, failure: Option<Outcome>) reads this {
      failure.Some? ==> !failure.value.Finished? && Ends(failure.value) && (failure.value.Failed? ==> Faulty(last))
    }

    /** One query's results as a category; None when they are not acceptable. */
    method Category(reply: Reply, excluded: set<Url>) returns (category: Option<seq<Url>>)
      ensures category.Some? <==> GoodResults(policy, reply)
      ensures category.Some? ==> category.value == Fresh(reply.rows, excluded)
    {
      if !reply.Results? || |reply.rows| > Min(policy.maxSources, 20) {
        return None;
      }
      var urls: seq<Url> := [];
      for j := 0 to |reply.rows|
        invariant forall i :: 0 <= i < j ==> reply.rows[i].Some? && |reply.rows[i].value| <= 2048
        invariant urls == Fresh(reply.rows[..j], excluded)
      {
        assert reply.rows[..j + 1][..j] == reply.rows[..j];
        if reply.rows[j].None? || |reply.rows[j].value| > 2048 {
          return None;
        }
        if reply.rows[j].value !in excluded {
          urls := urls + [reply.rows[j].value];
        }
      }
      assert reply.rows[..|reply.rows|] == reply.rows;
      category := Some(urls);
    }

    /** The posts made since the trace was `before`, and what they found. */
    ghost predicate PostedSince(before: seq<Event>, sum: Tally, queries: seq<string>, excluded: set<Url>, found: seq<seq<Url>>)
      reads this
    {
      && Ready() && trace == before + SearchPass(queries)
      && Sum() == sum.(searches := sum.searches + |queries|, listed := Sum().listed)
      && AllListed(found, Sum().listed)
      && Posted(world, |before|, queries, excluded, found)
    }

    /** A guarded post and what it returned; None: it failed. */
    method Post(query: string, excluded: set<Url>) returns (category: Option<seq<Url>>, failure: Option<Outcome>, ghost reply: Reply)
      requires Ready() && Askable(Sum(), query)
      modifies this
      ensures old(trace) <= trace && Sum() == old(Sum()).(searches := Sum().searches, listed := Sum().listed)
      ensures category.Some? <==> failure.None?
      ensures category.Some? ==>
                && Ready() && trace == old(trace) + [Check(true), Begin(Search(query))]
                && reply == world(|old(trace)| + 1, Search(query)) && reply.Results? && category.value == Fresh(reply.rows, excluded)
                && Sum().searches == old(Sum()).searches + 1 && Sum().listed == old(Sum()).listed + RowUrls(reply)
      ensures Fails(false, failure)
    {
      category, reply := None, Fine;
      var answer := Ask(Search(query));
      if answer.None? {
        failure := Some(Stopped);
        return;
      }
      reply := answer.value;
      assert Sum() == old(Sum()).(searches := old(Sum()).searches + 1, listed := old(Sum()).listed + RowUrls(reply)) by {
        PostAdds(old(trace) + [Check(true)], world, old(Sum()), query, reply);
      }
      category := Category(answer.value, excluded);
      failure := if category.Some? then None else Some(Failed(!answer.value.Raised? || answer.value.rejected));
    }

    /** One more query's post; None: it failed. */
    method PostOne(query: string, excluded: set<Url>, ghost before: seq<Event>, ghost sum: Tally,
                   ghost queries: seq<string>, ghost found: seq<seq<Url>>)
      returns (category: Option<seq<Url>>, failure: Option<Outcome>)
      requires PostedSince(before, sum, queries, excluded, found) && query in Sum().planned
      modifies this
      ensures old(trace) <= trace && Sum() == old(Sum()).(searches := Sum().searches, listed := Sum().listed)
      ensures category.Some? <==> failure.None?
      ensures category.Some? ==> PostedSince(before, sum, queries + [query], excluded, found + [category.value])
      ensures failure.Some? ==> !failure.value.Finished? && Ends(failure.value)
      ensures ValidQuery(query) ==> Fails(false, failure)
    {
      if !ValidQuery(query) {
        return None, Some(Failed(true));
      }
      ghost var t, listed := trace, Sum().listed;
      ghost var reply;
      category, failure, reply := Post(query, excluded);
      if category.Some? {
        PostedOneMore(world, before, t, queries, query, excluded, found, category.value);
        SearchLists(found, listed, Sum().listed, reply, excluded);
      }
    }

    /** The posts of a search; None: one failed. */
    method PostAll(queries: seq<string>, excluded: set<Url>)
      returns (categories: seq<seq<Url>>, failure: Option<Outcome>)
      requires Ready() && forall q :: q in queries ==> q in Sum().planned
      modifies this
      ensures old(trace) <= trace && Sum() == old(Sum()).(searches := Sum().searches, listed := Sum().listed)
      ensures failure.None? ==> PostedSince(old(trace), old(Sum()), queries, excluded, categories)
      ensures failure.Some? ==> !failure.value.Finished? && Ends(failure.value)
      ensures ValidQueries(queries) ==> Fails(false, failure)
    {
      categories, failure := [], None;
      for k := 0 to |queries|
        invariant failure.None? && PostedSince(old(trace), old(Sum()), queries[..k], excluded, categories)
      {
        var category;
        category, failure := PostOne(queries[k], excluded, old(trace), old(Sum()), queries[..k], categories);
        if category.None? {
          return;
        }
        categories := categories + [category.value];
        OneMore(queries, k);
      }
      assert queries[..|queries|] == queries;
    }

    /**
      `TavilySearch.search`: a checkpoint and a post a query, then the fair merge of
      what the posts returned.
    */
    method SearchAll(queries: seq<string>, remaining: int, excluded: set<Url>)
      returns (urls: seq<Url>, failure: Option<Outcome>, ghost categories: seq<seq<Url>>, ghost from: seq<nat>)
      requires Ready() && forall q :: q in queries ==> q in Sum().planned
      modifies this
      ensures old(trace) <= trace
      ensures Sum() == old(Sum()).(searches := Sum().searches, listed := Sum().listed)
      ensures failure.None? ==> PostedSince(old(trace), old(Sum()), queries, excluded, categories)
      ensures failure.None? ==> remaining >= 0 && RoundRobin.FairMerge(categories, excluded, remaining, urls, from)
      ensures failure.Some? ==> !failure.value.Finished? && Ends(failure.value)
      ensures (1 <= |queries| <= policy.maxQueries && 0 <= remaining <= policy.maxSources && ValidQueries(queries)) ==>
                Fails(false, failure)
    {
      urls, failure, categories, from := [], None, [], [];
      if !(1 <= |queries| <= policy.maxQueries) || !(0 <= remaining <= policy.maxSources) {
        failure := Some(Failed(true));
        return;
      }
      var found;
      found, failure := PostAll(queries, excluded);
      if failure.None? {
        categories := found;
        urls, from := RoundRobin.Merge(found, excluded, remaining);
      }
    }

    /** A guarded fetch; neither page nor failure: the hit is dead. */
    method FetchPage(url: Url) returns (page: Option<Record>, failure: Option<Outcome>, ghost begun: seq<Url>)
      requires Ready() && Fetchable(Sum(), url)
      modifies this
      ensures old(trace) <= trace
      ensures begun == [url] || (begun == [] && failure == Some(Stopped))
      ensures failure.None? ==> Ready() && trace == old(trace) + [Check(true), Begin(Fetch(url))]
      ensures failure.None? ==> world(|old(trace)| + 1, Fetch(url)) == if page.Some? then Page(page.value) else Raised(true)
      ensures Sum() == old(Sum()).(fetched := old(Sum()).fetched + begun)
      ensures Fails(false, failure)
    {
      page, failure, begun := None, None, [];
      var reply := Ask(Fetch(url));
      if reply.None? {
        failure := Some(Stopped);
        return;
      }
      begun := [url];
      assert Sum() == old(Sum()).(fetched := old(Sum()).fetched + begun) by {
        FetchAdds(old(trace) + [Check(true)], world, old(Sum()), url);
      }
      if reply.value.Page? {
        page := Some(reply.value.record);
      } else if reply.value != Raised(true) {       // anything but a SourcePolicyViolation
        failure := Some(Failed(false));
      }
    }

    /** One hit: fetched, and archived unless it is dead; None: it is dead. */
    method FetchOne(url: Url) returns (record: Option<Record>, failure: Option<Outcome>, ghost begun: seq<Url>)
      requires Ready() && Fetchable(Sum(), url)
      modifies this
      ensures old(trace) <= trace
      ensures begun == [url] || (begun == [] && failure == Some(Stopped))
      ensures failure.None? ==> Ready()
      ensures failure.None? && record.None? ==>
                && trace == old(trace) + [Check(true), Begin(Fetch(url))]
                && world(|old(trace)| + 1, Fetch(url)) == Raised(true)
      ensures failure.None? && record.Some? ==>
                && trace == old(trace) + [Check(true), Begin(Fetch(url)), Check(true), Begin(Put)]
                && world(|old(trace)| + 1, Fetch(url)) == Page(record.value) && world(|old(trace)| + 3, Put) == Fine
      ensures var sum := old(Sum()).(fetched := old(Sum()).fetched + begun);
              Sum() == if failure.None? && record.Some? then Archived(sum, url, record.value) else sum
      ensures Fails(false, failure)
    {
      record, failure, begun := FetchPage(url);
      if failure.Some? || record.None? {
        record := None;
        return;
      }
      ghost var half := trace;
      record, failure := Archive(url, record.value);
      assert old(trace) <= half <= trace;
      assert half + [Check(true), Begin(Put)] == old(trace) + [Check(true), Begin(Fetch(url)), Check(true), Begin(Put)];
    }

    /** The page just fetched, archived; a record that cannot be built of it ends the run. */
    method Archive(ghost url: Url, page: Record) returns (record: Option<Record>, failure: Option<Outcome>)
      requires Ready() && LastIs(trace, Begin(Fetch(url))) && world(|trace| - 1, Fetch(url)) == Page(page)
      modifies this
      ensures old(trace) <= trace
      ensures record == if failure.None? then Some(page) else None
      ensures failure.None? ==> Ready() && trace == old(trace) + [Check(true), Begin(Put)] && world(|old(trace)| + 1, Put) == Fine
      ensures Sum() == if failure.None? then Archived(old(Sum()), url, page) else old(Sum())
      ensures Fails(false, failure)
    {
      ghost var t, sum := trace, Sum();
      var archived := Ask(Put);
      if archived.None? {
        return None, Some(Stopped);
      }
      assert Sum() == (if archived.value == Fine then Archived(sum, url, page) else sum) by {
        PutAfterFetch(t, world, sum, url, page);
      }
      if archived.value != Fine {
        return None, Some(Failed(!archived.value.Raised? || archived.value.rejected));
      }
      return Some(page), None;
    }

    /** What capturing some hits has done to the tally: `fetched` are the URLs whose fetches it began, in order. */
    ghost predicate CapturedSince(sum: Tally, hits: seq<Url>, records: seq<Record>, seen: set<Url>,
                                  fetched: seq<Url>)
      reads this
    {
      && Sum() == sum.(records := records, seen := seen, fetched := sum.fetched + fetched)
      && (forall u :: u in hits ==> u in sum.listed)
      && sum.seen <= seen && |sum.records| <= |records| <= policy.maxSources && DistinctIds(records)
      && (forall u :: u in fetched ==> u in hits && u !in sum.seen)
    }

    /**
      The hits of one search, fetched and archived while the source budget lasts.
      A dead hit is skipped: the run goes on, and nothing is archived for it.
    */
    method Capture(hits: seq<Url>, records0: seq<Record>, seen0: set<Url>)
      returns (records: seq<Record>, seen: set<Url>, failure: Option<Outcome>, ghost fetched: seq<Url>)
      requires Ready() && records0 == Sum().records && seen0 == Sum().seen
      requires |records0| <= policy.maxSources && DistinctIds(records0) && forall u :: u in hits ==> u in Sum().listed
      modifies this
      ensures old(trace) <= trace
      ensures CapturedSince(old(Sum()), hits, records, seen, fetched)
      ensures failure.None? ==> Ready()
      ensures failure.None? ==> forall u :: u in hits ==> u in fetched || u in seen || |records| == policy.maxSources
      ensures Fails(false, failure)
    {
      records, seen, failure, fetched := records0, seen0, None, [];
      for i := 0 to |hits|
        invariant Ready() && failure.None? && old(trace) <= trace
        invariant CapturedSince(old(Sum()), hits, records, seen, fetched)
        invariant forall j :: 0 <= j < i ==> hits[j] in fetched || hits[j] in seen || |records| == policy.maxSources
      {
        if hits[i] in seen || |records| >= policy.maxSources {
          continue;
        }
        records, seen, failure, fetched := CaptureOne(hits, i, records, seen, old(Sum()), fetched);
        if failure.Some? {
          return;
        }
      }
    }

    method CaptureOne(hits: seq<Url>, i: nat, records0: seq<Record>, seen0: set<Url>,
                      ghost sum: Tally, ghost fetched0: seq<Url>)
      returns (records: seq<Record>, seen: set<Url>, failure: Option<Outcome>, ghost fetched: seq<Url>)
      requires Ready() && i < |hits| && hits[i] !in seen0 && |records0| < policy.maxSources
      requires CapturedSince(sum, hits, records0, seen0, fetched0)
      modifies this
      ensures old(trace) <= trace && seen0 <= seen && |records0| <= |records| && fetched0 <= fetched
      ensures CapturedSince(sum, hits, records, seen, fetched)
      ensures failure.None? ==> Ready() && hits[i] in fetched
      ensures Fails(false, failure)
    {
      records, seen := records0, seen0;
      var record;
      ghost var begun;
      record, failure, begun := FetchOne(hits[i]);
      fetched := fetched0 + begun;
      Associate(sum.fetched, fetched0, begun);
      if failure.None? && record.Some? {
        StoreKeepsDistinct(records, record.value);
        records := Store(records, record.value);
        seen := seen + {hits[i], record.value.finalUrl};
      }
    }

    /** A guarded archive read a record: at the start for the seeds, at the end for all. */
    method VerifyAll(records: seq<Record>) returns (failure: Option<Outcome>)
      requires Ready()
      modifies this
      ensures old(trace) <= trace && Sum() == old(Sum())
      ensures failure.None? ==> Ready() && trace == old(trace) + VerifyPass(records)
      ensures Fails(false, failure)
    {
      failure := None;
      for i := 0 to |records|
        invariant Ready() && trace == old(trace) + VerifyPass(records[..i]) && Sum() == old(Sum()) && failure.None?
      {
        ghost var before := trace;
        failure := VerifyOne(records[i]);
        assert old(trace) <= before <= trace;
        if failure.Some? {
          return;
        }
        VerifyOneMore(old(trace), records, i);
      }
      assert records[..|records|] == records;
    }

    method VerifyOne(record: Record) returns (failure: Option<Outcome>)
      requires Ready()
      modifies this
      ensures old(trace) <= trace && Sum() == old(Sum())
      ensures failure.None? ==> Ready() && trace == old(trace) + [Check(true), Begin(Verify(record.id))]
      ensures Fails(false, failure)
    {
      var reply := Ask(Verify(record.id));
      failure := if reply.None? then Some(Stopped) else if reply.value.Raised? then Some(Failed(reply.value.rejected)) else None;
    }

    /** Book-keeping: i plans, each rejected or followed by a synthesis but for `open` of them, and the records on the trace. */
    ghost predicate Books(i: nat, open: nat, records: seq<Record>, seen: set<Url>, used: nat) reads this {
      && Sum().plans == i && Sum().searches == used && Sum().records == records && Sum().seen == seen
      && Sum().rejected + Sum().syntheses + open == i
      && |records| <= policy.maxSources && DistinctIds(records)
    }

    /** What a finished run's manifest says about its trace. */
    ghost predicate Accounts(out: Outcome)
      requires out.Finished?
      reads this
    {
      && DistinctIds(out.records) && |out.records| == out.manifest.sourceCount <= policy.maxSources
      && out.records == Sum().records
      && out.manifest.iterations == Sum().plans
      && out.manifest.searchQueries == Sum().searches
      && out.manifest.modelCalls == Sum().plans + Sum().syntheses + Sum().rejected
      && exists before: seq<Event> :: trace == before + [Begin(Synthesize)] + VerifyPass(out.records)
                                      && world(|before|, Synthesize) == Fine
    }

    /** A checkpoint and the planning call; no queries: the plan was rejected, and the next iteration tries again. */
    method MakePlan(last: bool) returns (queries: Option<seq<string>>, failure: Option<Outcome>)
      requires Ready()
      modifies this
      ensures old(trace) <= trace
      ensures failure.None? ==> Ready() && trace == old(trace) + [Check(true), Begin(Plan)]
      ensures failure.None? || failure.value.Failed? ==> Sum() == AddCall(old(trace) + [Check(true)], world, old(Sum()), Plan)
      ensures failure.None? ==>
                var reply := world(|old(trace)| + 1, Plan);
                && (queries.None? <==> RejectsPlan(reply)) && (queries.None? ==> !last)
                && (queries.Some? ==> reply.Queries? && |reply.queries| == 4
                                      && queries.value == reply.queries[..Min(policy.maxQueries, 4)])
      ensures Fails(last, failure)
    {
      var plan := Ask(Plan);
      if plan.None? {
        return None, Some(Stopped);
      }
      if plan.value == Raised(false) {
        return None, Some(Failed(false));
      }
      if !plan.value.Queries? || |plan.value.queries| != 4 {
        return None, if last then Some(Failed(true)) else None;
      }
      return Some(plan.value.queries[..Min(policy.maxQueries, 4)]), None;
    }

    /** Some plan on the trace asked an invalid query. */
    ghost predicate AskedBadly() reads this {
      exists m :: 0 <= m < |trace| && trace[m] == Begin(Plan) && BadPlan(world(m, Plan))
    }

    /** Why a run fails: the reply to its last call, an invalid query, or the policy. */
    ghost predicate Explained(last: bool) reads this {
      Faulty(last) || AskedBadly() || policy.maxQueries == 0
    }

    /** The queries come from the plan that event m returned. */
    ghost predicate PlannedAt(queries: seq<string>, m: nat) reads this {
      && m < |trace| && trace[m] == Begin(Plan) && world(m, Plan).Queries? && |world(m, Plan).queries| == 4
      && queries == world(m, Plan).queries[..Min(policy.maxQueries, 4)] && Sum().planned == world(m, Plan).queries
    }

    /** The search for a plan made by event m. */
    method Hunt(queries: seq<string>, ghost m: nat, records: seq<Record>, seen: set<Url>)
      returns (hits: seq<Url>, failure: Option<Outcome>, ghost categories: seq<seq<Url>>, ghost from: seq<nat>)
      requires Ready() && |records| <= policy.maxSources && PlannedAt(queries, m)
      modifies this
      ensures old(trace) <= trace && Sum() == old(Sum()).(searches := Sum().searches, listed := Sum().listed)
      ensures failure.None? ==> PostedSince(old(trace), old(Sum()), queries, seen, categories)
      ensures failure.None? ==> RoundRobin.FairMerge(categories, seen, policy.maxSources - |records|, hits, from)
      ensures failure.Some? ==> !failure.value.Finished? && Ends(failure.value)
      ensures failure.Some? && failure.value.Failed? ==> Explained(false)
    {
      hits, failure, categories, from := SearchAll(queries, policy.maxSources - |records|, seen);
      if failure.Some? { PlanAsksBadly(queries, m); }
    }

    /** A checkpoint and the search, with its posts and its merge. */
    method CheckedHunt(queries: seq<string>, ghost m: nat, records: seq<Record>, seen: set<Url>)
      returns (hits: seq<Url>, failure: Option<Outcome>, ghost categories: seq<seq<Url>>, ghost from: seq<nat>)
      requires Ready() && |records| <= policy.maxSources && PlannedAt(queries, m)
      requires records == Sum().records && seen == Sum().seen
      modifies this
      ensures old(trace) <= trace && Sum().plans == old(Sum()).plans
      ensures failure.None? ==> Ready() && Hunted(policy, world, old(trace), trace, old(Sum()), Sum(), queries, hits, categories, from)
      ensures failure.Some? ==> !failure.value.Finished? && Ends(failure.value)
      ensures failure.Some? && failure.value.Failed? ==> Explained(false)
    {
      var open := Checkpoint();
      if !open {
        return [], Some(Stopped), [], [];
      }
      ghost var half := trace;
      assert half == old(trace) + [Check(true)];
      hits, failure, categories, from := Hunt(queries, m, records, seen);
      if failure.None? {
        HuntAfterCheck(policy, world, old(trace), half, trace, old(Sum()), Sum(), records, seen, queries, hits, categories, from);
      }
    }

    /** Searching and capturing for a plan made by event m. */
    method Follow(queries: seq<string>, ghost m: nat, records0: seq<Record>, seen0: set<Url>, used0: nat)
      returns (records: seq<Record>, seen: set<Url>, used: nat, failure: Option<Outcome>, ghost course: Course)
      requires Ready() && Books(Sum().plans, 1, records0, seen0, used0) && PlannedAt(queries, m)
      modifies this
      ensures old(trace) <= trace && Sum().plans == old(Sum()).plans
      ensures failure.None? ==> Ready() && Books(Sum().plans, 1, records, seen, used)
      ensures failure.None? ==> Followed(policy, world, seeds, old(trace), trace, queries, course)
      ensures failure.Some? ==> !failure.value.Finished? && Ends(failure.value)
      ensures failure.Some? && failure.value.Failed? ==> Explained(false)
    {
      records, seen, used, course := records0, seen0, used0, Course([], [], [], []);
      var hits;
      ghost var categories, from, fetched;
      hits, failure, categories, from := CheckedHunt(queries, m, records, seen);
      if failure.Some? {
        return;
      }
      used := used + |queries|;
      records, seen, failure, fetched := Capture(hits, records, seen);
      course := Course(categories, from, hits, fetched);
    }

    /** Planning, searching and capturing; planned is false when the plan was rejected. */
    method Gather(i: nat, last: bool, records0: seq<Record>, seen0: set<Url>, used0: nat)
      returns (records: seq<Record>, seen: set<Url>, used: nat, planned: bool, failure: Option<Outcome>, ghost course: Course)
      requires Ready() && Books(i, 0, records0, seen0, used0)
      modifies this
      ensures old(trace) <= trace
      ensures failure.None? ==> Ready() && Books(i + 1, if planned then 1 else 0, records, seen, used)
      ensures failure.None? ==> Gathered(policy, world, seeds, old(trace), trace, planned, course)
      ensures failure.None? && !planned ==> !last
      ensures failure.Some? ==> !failure.value.Finished? && Ends(failure.value)
      ensures failure.Some? && failure.value.Failed? ==> Explained(last) && Sum().plans == i + 1
    {
      records, seen, used, planned, course := records0, seen0, used0, false, Course([], [], [], []);
      var queries;
      queries, failure := MakePlan(last);
      if failure.Some? || queries.None? {
        return;
      }
      ghost var planning := trace;
      planned := true;
      records, seen, used, failure, course := Follow(queries.value, |old(trace)| + 1, records, seen, used);
      assert old(trace) <= planning <= trace && trace[..|old(trace)| + 2] == planning;
    }

    lemma PlanAsksBadly(queries: seq<string>, m: nat)
      requires m < |trace| && trace[m] == Begin(Plan) && world(m, Plan).Queries?
      requires queries <= world(m, Plan).queries
      ensures !ValidQueries(queries) ==> AskedBadly()
    {
      if !ValidQueries(queries) {
        var q :| q in queries && !ValidQuery(q);
        assert q in world(m, Plan).queries;
      }
    }

    /** A guarded synthesis; not accepted and no outcome: the draft was rejected. */
    method Draft(last: bool) returns (accepted: bool, out: Option<Outcome>)
      requires Ready()
      modifies this
      ensures old(trace) <= trace
      ensures out.None? ==> Ready() && trace == old(trace) + [Check(true), Begin(Synthesize)]
      ensures out.None? ==> (accepted <==> world(|old(trace)| + 1, Synthesize) == Fine) && (!accepted ==> !last)
      ensures out.None? ==> Sum() == old(Sum()).(syntheses := old(Sum()).syntheses + 1)
      ensures Sum() == old(Sum()).(syntheses := Sum().syntheses)
      ensures Fails(last, out)
    {
      var draft := Ask(Synthesize);
      if draft.None? {
        return false, Some(Stopped);
      }
      accepted := draft.value == Fine;
      out := if accepted then None
             else if draft.value == Raised(false) then Some(Failed(false))
             else if last then Some(Failed(true)) else None;
    }

    /** Synthesis and the verification pass; None: the draft was rejected. */
    method Conclude(i: nat, last: bool, records: seq<Record>, ghost seen: set<Url>, used: nat)
      returns (out: Option<Outcome>)
      requires Ready() && Books(i + 1, 1, records, seen, used)
      modifies this
      ensures old(trace) <= trace
      ensures out.None? ==> Ready() && Books(i + 1, 0, records, seen, used) && !last
      ensures out.None? || out.value.Finished? ==>
                old(trace) + [Check(true), Begin(Synthesize)] <= trace && Sum().plans == i + 1
      ensures out.Some? ==> Ends(out.value)
      ensures out.Some? && out.value.Finished? ==>
                Accounts(out.value) && out.value.manifest.iterations == i + 1 && !oversized(|trace|)
      ensures out.Some? && out.value.Failed? ==> (Faulty(last) || oversized(|trace|)) && Sum().plans == i + 1
    {
      ghost var before := trace + [Check(true)];
      var accepted;
      accepted, out := Draft(last);
      if out.Some? || !accepted {
        return;
      }
      assert trace == before + [Begin(Synthesize)];
      out := VerifyAll(records);
      if out.Some? {
        return;
      }
      assert trace == before + [Begin(Synthesize)] + VerifyPass(records);
      if oversized(|trace|) {
        return Some(Failed(true));
      }
      return Some(Finished(Manifest(i + 1, used, 2 * (i + 1), |records|), records));
    }

    /** One iteration; no outcome: the next one follows. */
    method Iterate(i: nat, last: bool, records0: seq<Record>, seen0: set<Url>, used0: nat)
      returns (records: seq<Record>, seen: set<Url>, used: nat, out: Option<Outcome>)
      requires Ready() && Books(i, 0, records0, seen0, used0)
      modifies this
      ensures old(trace) <= trace
      ensures out.None? || out.value.Finished? ==> Iterated(policy, world, seeds, old(trace), trace) && Sum().plans == i + 1
      ensures out.None? ==> Ready() && Books(i + 1, 0, records, seen, used) && !last
      ensures out.Some? ==> Ends(out.value)
      ensures out.Some? && out.value.Finished? ==>
                Accounts(out.value) && out.value.manifest.iterations == i + 1 && !oversized(|trace|)
      ensures out.Some? && out.value.Failed? ==> (Explained(last) || oversized(|trace|)) && Sum().plans == i + 1
    {
      var planned;
      ghost var course;
      records, seen, used, planned, out, course := Gather(i, last, records0, seen0, used0);
      ghost var gathered := trace;
      if out.Some? {
        return;
      }
      if planned {
        out := Conclude(i, last, records, seen, used);
      }
      if out.None? || out.value.Finished? {
        GatheredIsIterated(policy, world, seeds, old(trace), gathered, planned, course, trace);
      }
    }

    /** The seeds are acceptable: distinct, within the budget, and every authority is among them. */
    predicate GoodSeeds(authorities: set<string>) {
      && FirstDuplicate(seeds) == |seeds| && |seeds| <= policy.maxSources
      && forall a :: a in authorities ==> exists i :: 0 <= i < |seeds| && seeds[i].id == a
    }

    /** The start: the request is checked and the seeds are verified and checked. */
    method VerifySeeds(validRequest: bool, authorities: set<string>) returns (failure: Option<Outcome>)
      requires trace == []
      modifies this
      ensures failure.None? ==> Ready() && Books(0, 0, seeds, SeedUrls(seeds), 0) && trace == VerifyPass(seeds)
      ensures failure.None? ==> validRequest && GoodSeeds(authorities)
      ensures failure.Some? ==> !failure.value.Finished? && Ends(failure.value)
      ensures failure.Some? && failure.value.Failed? ==> !validRequest || !GoodSeeds(authorities) || Faulty(false)
    {
      if !validRequest {
        return Some(Failed(true));
      }
      failure := VerifyAll(seeds[..FirstDuplicate(seeds)]);
      if failure.Some? {
        return;
      }
      assert seeds[..|seeds|] == seeds;
      failure := if GoodSeeds(authorities) then None else Some(Failed(true));
    }

    /**
      The whole run.  Whatever the world replies, every call follows a passed
      checkpoint that said what the fence says, and the run stops exactly at a
      refused one.  A run that finishes has verified every seed, kept the source
      budget, reports exactly the records its trace archived and the posts it made,
      and has re-read every record after its synthesis.  A run that fails has one of
      the reasons named.
    */
    method ResearchCluster(validRequest: bool, authorities: set<string>) returns (out: Outcome)
      requires trace == []
      modifies this
      ensures Ends(out)
      ensures out.Finished? ==> Accounts(out) && 1 <= out.manifest.iterations <= policy.maxIterations
      ensures out.Finished? ==> StartsWithPlan(VerifyPass(seeds), trace)
      ensures out.Finished? ==> validRequest && GoodSeeds(authorities) && !oversized(|trace|)
      ensures out.Finished? ==> AllCarriedOut(policy, world, seeds, trace)
      ensures out.Failed? ==>
                || !validRequest || !GoodSeeds(authorities) || policy.maxIterations == 0
                || Explained(Sum().plans == policy.maxIterations) || oversized(|trace|)
    {
      var failure := VerifySeeds(validRequest, authorities);
      if failure.Some? {
        return failure.value;
      }
      ghost var start := trace;
      NoPlanYet(policy, world, seeds);
      var records := seeds;
      var seen := SeedUrls(seeds);
      var used := 0;
      for i := 0 to policy.maxIterations
        invariant Ready() && Books(i, 0, records, seen, used)
        invariant if i == 0 then trace == start else StartsWithPlan(start, trace)
        invariant i > 0 ==> i < policy.maxIterations
        invariant AllCarriedOut(policy, world, seeds, trace)
      {
        var end;
        ghost var t := trace;
        records, seen, used, end := Iterate(i, i + 1 == policy.maxIterations, records, seen, used);
        if end.None? || end.value.Finished? {
          OneMoreCarriedOut(policy, world, seeds, t, trace);
          PlanComesFirst(policy, world, seeds, start, t, trace);
        }
        if end.Some? {
          return end.value;
        }
      }
      return Failed(true);
    }
  }

  /** The seeds are read in order until one repeats an earlier id. */
  function FirstDuplicate(seeds: seq<Record>): (n: nat)
    ensures n <= |seeds| && DistinctIds(seeds[..n])
    ensures n < |seeds| ==> exists i :: 0 <= i < n && seeds[i].id == seeds[n].id
    ensures n == |seeds| <==> DistinctIds(seeds)
  {
    if seeds == [] then 0
    else
      var n := FirstDuplicate(seeds[..|seeds| - 1]);
      assert seeds[..|seeds| - 1][..n] == seeds[..n];
      if n < |seeds| - 1 then n
      else if exists i :: 0 <= i < n && seeds[i].id == seeds[n].id then n
      else assert seeds[..n + 1] == seeds; n + 1
  }

  // ----- what the run fetches ---------------------------------------------

  predicate ListsUrl(t: seq<Event>, world: World, j: nat, url: Url)
    requires j < |t|
  {
    t[j].Begin? && t[j].call.Search? && world(j, t[j].call).Results? && Some(url) in world(j, t[j].call).rows
  }

  /** Some search on the trace listed the URL. */
  ghost predicate Listed(t: seq<Event>, world: World, url: Url) { exists j :: 0 <= j < |t| && ListsUrl(t, world, j, url) }

  /** A put after these events archives a page that was fetched from this URL or ended there. */
  predicate PutArchives(t: seq<Event>, world: World, url: Url) {
    && PageBefore(t, world) && world(|t|, Put) == Fine
    && (url == t[|t| - 2].call.url || url == world(|t| - 2, t[|t| - 2].call).record.finalUrl)
  }

  predicate ArchivesUrl(t: seq<Event>, world: World, j: nat, url: Url)
    requires j < |t|
  {
    t[j] == Begin(Put) && PutArchives(t[..j], world, url)
  }

  ghost predicate WasArchived(t: seq<Event>, world: World, url: Url) {
    exists j :: 0 <= j < |t| && ArchivesUrl(t, world, j, url)
  }

  lemma {:induction false} ListedIsCounted(t: seq<Event>, world: World, seeds: seq<Record>, url: Url)
    ensures url in TallyOf(t, world, seeds).listed <==> Listed(t, world, url)
    decreases |t|
  {
    if t != [] {
      ListedIsCounted(t[..|t| - 1], world, seeds, url);
      ListedOneMore(t, world, url);
    }
  }

  lemma {:induction false} ListedOneMore(t: seq<Event>, world: World, url: Url)
    requires t != []
    ensures Listed(t, world, url) <==> Listed(t[..|t| - 1], world, url) || ListsUrl(t, world, |t| - 1, url)
  {
    var init, last := t[..|t| - 1], |t| - 1;
    forall j: nat | j < last ensures ListsUrl(init, world, j, url) <==> ListsUrl(t, world, j, url) {
      assert init[j] == t[j];
    }
  }

  lemma {:induction false} SeenIsCounted(t: seq<Event>, world: World, seeds: seq<Record>, url: Url)
    ensures url in TallyOf(t, world, seeds).seen <==> url in SeedUrls(seeds) || WasArchived(t, world, url)
    decreases |t|
  {
    if t != [] {
      SeenIsCounted(t[..|t| - 1], world, seeds, url);
      ArchivedOneMore(t, world, url);
      LastSeen(t, world, seeds, url);
    }
  }

  lemma {:induction false} LastSeen(t: seq<Event>, world: World, seeds: seq<Record>, url: Url)
    requires t != []
    ensures url in TallyOf(t, world, seeds).seen <==>
            url in TallyOf(t[..|t| - 1], world, seeds).seen || ArchivesUrl(t, world, |t| - 1, url)
  {
  }

  lemma {:induction false} ArchivedOneMore(t: seq<Event>, world: World, url: Url)
    requires t != []
    ensures WasArchived(t, world, url) <==> WasArchived(t[..|t| - 1], world, url) || ArchivesUrl(t, world, |t| - 1, url)
  {
    var init, last := t[..|t| - 1], |t| - 1;
    forall j: nat | j < last ensures ArchivesUrl(init, world, j, url) <==> ArchivesUrl(t, world, j, url) {
      assert init[..j] == t[..j] && init[j] == t[j];
    }
  }

  predicate IsFetch(e: Event) { e.Begin? && e.call.Fetch? }

  predicate IsPost(e: Event) { e.Begin? && e.call.Search? }

  /** The last plan on the trace asks this query. */
  ghost predicate PlannedBy(t: seq<Event>, world: World, query: string) {
    exists m :: 0 <= m < |t| && LastPlan(t, m) && world(m, Plan).Queries? && query in world(m, Plan).queries
  }

  predicate LastPlan(t: seq<Event>, m: nat)
    requires m < |t|
  {
    t[m] == Begin(Plan) && forall j :: m < j < |t| ==> t[j] != Begin(Plan)
  }

  lemma {:induction false} PlannedIsCounted(t: seq<Event>, world: World, seeds: seq<Record>, query: string)
    ensures query in TallyOf(t, world, seeds).planned <==> PlannedBy(t, world, query)
    decreases |t|
  {
    if t != [] {
      PlannedIsCounted(t[..|t| - 1], world, seeds, query);
      PlannedOneMore(t, world, query);
    }
  }

  lemma {:induction false} PlannedOneMore(t: seq<Event>, world: World, query: string)
    requires t != []
    ensures PlannedBy(t, world, query) <==>
            if t[|t| - 1] == Begin(Plan) then world(|t| - 1, Plan).Queries? && query in world(|t| - 1, Plan).queries
            else PlannedBy(t[..|t| - 1], world, query)
  {
    var init, last := t[..|t| - 1], |t| - 1;
    assert t[last] == Begin(Plan) ==> LastPlan(t, last);
    forall m: nat | m < last ensures LastPlan(t, m) <==> t[last] != Begin(Plan) && LastPlan(init, m) {
      assert init[m] == t[m] && forall j :: m < j < last ==> init[j] == t[j];
    }
  }

  /** A post asks a valid query of the last plan. */
  ghost predicate ProperPost(t: seq<Event>, world: World, i: nat)
    requires i < |t| && IsPost(t[i])
  {
    var query := t[i].call.query;
    Strip(query) != "" && |query| <= 500 && PlannedBy(t[..i], world, query)
  }

  /** A fetch is of a URL that was listed before, is no seed's, and was not archived before. */
  ghost predicate NewUrl(t: seq<Event>, world: World, seeds: seq<Record>, i: nat)
    requires i < |t| && IsFetch(t[i])
  {
    var url := t[i].call.url;
    && Listed(t[..i], world, url) && !WasArchived(t[..i], world, url)
    && forall k :: 0 <= k < |seeds| ==> url != seeds[k].url && url != seeds[k].finalUrl
  }

  ghost predicate Proper(t: seq<Event>, world: World, seeds: seq<Record>, i: nat)
    requires i < |t|
  {
    && (IsPost(t[i]) ==> ProperPost(t, world, i))
    && (IsFetch(t[i]) ==> NewUrl(t, world, seeds, i))
  }

  ghost predicate AllProper(t: seq<Event>, world: World, seeds: seq<Record>) {
    forall i :: 0 <= i < |t| ==> Proper(t, world, seeds, i)
  }

  lemma {:induction false} BreachesAreCounted(t: seq<Event>, world: World, seeds: seq<Record>)
    ensures TallyOf(t, world, seeds).breaches == 0 <==> AllProper(t, world, seeds)
    decreases |t|
  {
    if t != [] {
      BreachesAreCounted(t[..|t| - 1], world, seeds);
      ProperOneMore(t, world, seeds);
      LastBreach(t, world, seeds);
    }
  }

  lemma {:induction false} ProperOneMore(t: seq<Event>, world: World, seeds: seq<Record>)
    requires t != []
    ensures AllProper(t, world, seeds) <==> AllProper(t[..|t| - 1], world, seeds) && Proper(t, world, seeds, |t| - 1)
  {
    var init, last := t[..|t| - 1], |t| - 1;
    forall i: nat | i < last ensures Proper(t, world, seeds, i) <==> Proper(init, world, seeds, i) {
      assert init[..i] == t[..i] && init[i] == t[i];
    }
  }

  lemma {:induction false} LastBreach(t: seq<Event>, world: World, seeds: seq<Record>)
    requires t != []
    ensures TallyOf(t, world, seeds).breaches == TallyOf(t[..|t| - 1], world, seeds).breaches
            + if Proper(t, world, seeds, |t| - 1) then 0 else 1
  {
    var last, init := t[|t| - 1], t[..|t| - 1];
    if IsFetch(last) {
      FetchIsProperIff(t, world, seeds);
    } else if IsPost(last) {
      PlannedIsCounted(init, world, seeds, last.call.query);
    }
  }

  lemma {:induction false} FetchIsProperIff(t: seq<Event>, world: World, seeds: seq<Record>)
    requires t != [] && IsFetch(t[|t| - 1])
    ensures Fetchable(TallyOf(t[..|t| - 1], world, seeds), t[|t| - 1].call.url) <==> NewUrl(t, world, seeds, |t| - 1)
  {
    var url := t[|t| - 1].call.url;
    ListedIsCounted(t[..|t| - 1], world, seeds, url);
    SeenIsCounted(t[..|t| - 1], world, seeds, url);
  }

  /**
    However the run ends, it posts only valid queries of its last plan, and fetches
    only URLs that a search of its own listed, never that of a seed or one whose page
    it has archived, by either of its URLs.
  */
  method CallsAreProper(policy: Policy, validRequest: bool, authorities: set<string>, fence: nat -> bool, world: World,
                        oversized: nat -> bool, seeds: seq<Record>) returns (trace: seq<Event>, out: Outcome)
    ensures AllProper(trace, world, seeds)
  {
    var r := new Run(fence, world, oversized, policy, seeds);
    out := r.ResearchCluster(validRequest, authorities);
    trace := r.trace;
    BreachesAreCounted(trace, world, seeds);
  }

  // ----- what the run reports -----------------------------------------------

  /** The put at event j archived this record: it is the page of the fetch just before it. */
  predicate ArchivesRecord(t: seq<Event>, world: World, j: nat, r: Record) {
    && 2 <= j < |t| && t[j] == Begin(Put) && world(j, Put) == Fine
    && IsFetch(t[j - 2]) && world(j - 2, t[j - 2].call) == Page(r)
  }

  ghost predicate RecordArchived(t: seq<Event>, world: World, r: Record) { exists j: nat :: ArchivesRecord(t, world, j, r) }

  /** The records are the seeds and what the trace archived: nothing else is among them, and no id of theirs is missing. */
  lemma {:induction false} RecordsAreArchived(t: seq<Event>, world: World, seeds: seq<Record>, r: Record)
    ensures r in TallyOf(t, world, seeds).records ==> r in seeds || RecordArchived(t, world, r)
    ensures r in seeds || RecordArchived(t, world, r) ==> exists x :: x in TallyOf(t, world, seeds).records && x.id == r.id
    decreases |t|
  {
    if t != [] {
      RecordsAreArchived(t[..|t| - 1], world, seeds, r);
      RecordOneMore(t, world, r);
      LastRecord(t, world, seeds, r);
    }
  }

  lemma {:induction false} RecordOneMore(t: seq<Event>, world: World, r: Record)
    requires t != []
    ensures RecordArchived(t, world, r) <==> RecordArchived(t[..|t| - 1], world, r) || ArchivesRecord(t, world, |t| - 1, r)
  {
    var init, last := t[..|t| - 1], |t| - 1;
    forall j: nat | j < last ensures ArchivesRecord(init, world, j, r) <==> ArchivesRecord(t, world, j, r) {
      assert init[j] == t[j];
      if j >= 2 { assert init[j - 2] == t[j - 2]; }
    }
  }

  lemma {:induction false} LastRecord(t: seq<Event>, world: World, seeds: seq<Record>, r: Record)
    requires t != []
    ensures var before, after := TallyOf(t[..|t| - 1], world, seeds).records, TallyOf(t, world, seeds).records;
            && (r in after ==> r in before || ArchivesRecord(t, world, |t| - 1, r))
            && (ArchivesRecord(t, world, |t| - 1, r) ==> r in after)
            && (forall x :: x in before ==> exists y :: y in after && y.id == x.id)
  {
    var init, sum := t[..|t| - 1], TallyOf(t[..|t| - 1], world, seeds);
    if t[|t| - 1] == Begin(Put) && PageBefore(init, world) && world(|init|, Put) == Fine {
      var page := world(|init| - 2, init[|init| - 2].call).record;
      StoreHas(sum.records, page);
      assert init[|init| - 2] == t[|t| - 3];
      assert TallyOf(t, world, seeds).records == Store(sum.records, page);
    } else {
      assert TallyOf(t, world, seeds).records == sum.records;
      forall x | x in sum.records ensures exists y :: y in sum.records && y.id == x.id {}
    }
  }

  // ----- what a run that goes on has been told -----------------------------

  /** The reply lets the run go on. */
  predicate GoesOn(policy: Policy, call: Call, reply: Reply) {
    match call
    case Plan => reply != Raised(false)
    case Search(_) =>
      && reply.Results? && |reply.rows| <= policy.maxSources && |reply.rows| <= 20
      && forall row :: row in reply.rows ==> row.Some? && |row.value| <= 2048
    case Fetch(_) => reply.Page? || reply == Raised(true)
    case Put => reply == Fine
    case Verify(_) => !reply.Raised?
    case Synthesize => reply != Raised(false)
  }

  /**
    An error is never passed over: whatever call is followed by anything came back
    as it must, in a finished run every call did, its last draft was accepted, and
    request, seeds and result were as they must be.
  */
  method ErrorsAreHeeded(policy: Policy, validRequest: bool, authorities: set<string>, fence: nat -> bool, world: World,
                         oversized: nat -> bool, seeds: seq<Record>) returns (trace: seq<Event>, out: Outcome)
    ensures forall i :: 0 <= i < |trace| && trace[i].Begin? && (i < |trace| - 1 || out.Finished?) ==>
              GoesOn(policy, trace[i].call, world(i, trace[i].call))
    ensures out.Finished? ==>
              && validRequest && DistinctIds(seeds) && |seeds| <= policy.maxSources && !oversized(|trace|)
              && (forall a :: a in authorities ==> exists i :: 0 <= i < |seeds| && seeds[i].id == a)
              && exists before: seq<Event> :: trace == before + [Begin(Synthesize)] + VerifyPass(out.records)
                                              && world(|before|, Synthesize) == Fine
  {
    var r := new Run(fence, world, oversized, policy, seeds);
    out := r.ResearchCluster(validRequest, authorities);
    trace := r.trace;
  }

  /** In a finished run every plan that came back with its four queries was carried out. */
  method PlansAreCarriedOut(policy: Policy, validRequest: bool, authorities: set<string>, fence: nat -> bool, world: World,
                            oversized: nat -> bool, seeds: seq<Record>) returns (trace: seq<Event>, out: Outcome)
    ensures out.Finished? ==>
              forall m: nat :: m < |trace| && UsesPlan(trace, world, m) ==> CarriedOut(policy, world, seeds, trace, m)
  {
    var r := new Run(fence, world, oversized, policy, seeds);
    out := r.ResearchCluster(validRequest, authorities);
    trace := r.trace;
  }

  // ----- what the manifest counts -----------------------------------------

  /** No plan was rejected exactly when every planning call on the trace returned a plan that was used. */
  lemma {:induction false} RejectedIsCounted(t: seq<Event>, world: World, seeds: seq<Record>)
    ensures TallyOf(t, world, seeds).rejected == 0
            <==> forall i :: 0 <= i < |t| && t[i] == Begin(Plan) ==> !RejectsPlan(world(i, Plan))
    decreases |t|
  {
    if t != [] {
      var init := t[..|t| - 1];
      RejectedIsCounted(init, world, seeds);
      assert forall i :: 0 <= i < |init| ==> init[i] == t[i];
      assert t[|t| - 1] == Begin(Plan) ==> |init| == |t| - 1;
    }
  }

  /**
    The `model_calls` of a finished run are the model calls it made exactly when
    none of its plans was rejected; each rejected plan is counted twice.
  */
  method CountModelCalls(policy: Policy, validRequest: bool, authorities: set<string>, fence: nat -> bool, world: World,
                         oversized: nat -> bool, seeds: seq<Record>) returns (trace: seq<Event>, out: Outcome)
    ensures var sum := TallyOf(trace, world, seeds);
            out.Finished? ==>
              && out.manifest.modelCalls == sum.plans + sum.syntheses + sum.rejected
              && (out.manifest.modelCalls == sum.plans + sum.syntheses
                  <==> forall i :: 0 <= i < |trace| && trace[i] == Begin(Plan) ==> !RejectsPlan(world(i, Plan)))
  {
    var r := new Run(fence, world, oversized, policy, seeds);
    out := r.ResearchCluster(validRequest, authorities);
    trace := r.trace;
    RejectedIsCounted(trace, world, seeds);
  }

  /** A world in which the first plan is rejected and everything else goes well, with nothing found. */
  function OneRejection(moment: nat, call: Call): Reply {
    match call
    case Plan => if moment == 1 then Raised(true) else Queries(["a", "b", "c", "d"])
    case Search(_) => Results([])
    case Fetch(_) => Raised(true)
    case _ => Fine
  }

  /** In it a run of two iterations finishes, and its manifest reports a model call it never made. */
  method RejectedPlanIsCounted() returns (trace: seq<Event>, out: Outcome)
    ensures out.Finished?
    ensures var sum := TallyOf(trace, OneRejection, []); out.manifest.modelCalls > sum.plans + sum.syntheses
  {
    var policy := Policy(2, 4, 0);
    var r := new Run(_ => true, OneRejection, _ => false, policy, []);
    out := r.ResearchCluster(true, {});
    trace := r.trace;
    NothingElseFails(r, out);
    assert trace[1] == Begin(Plan) by { assert VerifyPass([]) == []; }
    RejectedIsCounted(trace, OneRejection, []);
  }

  lemma NothingElseFails(r: Run, out: Outcome)
    requires r.Ends(out) && r.fence == (_ => true) && r.world == OneRejection && r.oversized == (_ => false)
    requires r.seeds == [] && r.policy == Policy(2, 4, 0)
    requires out.Failed? ==> !r.GoodSeeds({}) || r.Explained(r.Sum().plans == 2)
    ensures out.Finished?
  {
    assert FirstDuplicate([]) == 0;
    if out.Failed? && r.Faulty(r.Sum().plans == 2) {
      assert |r.trace| == 2 && r.trace[1] == Begin(Plan) && r.trace[0] == Check(true);
      assert r.trace == ([] + [Check(true)]) + [Begin(Plan)];
      TallySnoc([], Check(true), r.world, r.seeds);
      TallySnoc([] + [Check(true)], Begin(Plan), r.world, r.seeds);
    }
  }
}
