/** What pruning leaves, and when pruning in two stages is the same as pruning once. */
module PruneTheorems {
  import opened Prelude
  import opened Prune

  // ----- names ------------------------------------------------------------

  lemma {:induction false} KeepTwice(names: seq<string>, big: Names, small: Names)
    requires small <= big
    ensures Keep(Keep(names, big), small) == Keep(names, small)
  {
    if names != [] {
      KeepTwice(names[1..], big, small);
      if names[0] in big {
        assert Keep(names, big)[0] == names[0] && Keep(names, big)[1..] == Keep(names[1..], big);
      }
    }
  }

  lemma {:induction false} KeepAppend(a: seq<string>, b: seq<string>, res: Names)
    ensures Keep(a + b, res) == Keep(a, res) + Keep(b, res)
  {
    if a == [] {
      assert a + b == b;
    } else {
      assert (a + b)[1..] == a[1..] + b;
      KeepAppend(a[1..], b, res);
    }
  }

  // ----- fallback chains --------------------------------------------------

  /** The hops of a list, in order: each source with each of its targets, and a source alone once for its chain. */
  function Hop(source: string, targets: seq<string>): seq<(string, Option<string>)> {
    if targets == [] then [(source, None)] else Hop(source, targets[..|targets| - 1]) + [(source, Some(targets[|targets| - 1]))]
  }

  function EntryHops(entry: Entry): seq<(string, Option<string>)> {
    if entry == [] then [] else Hop(entry[0].0, Chain(entry[0].1)) + EntryHops(entry[1..])
  }

  function ListHops(entries: seq<Entry>): seq<(string, Option<string>)> {
    if entries == [] then [] else ListHops(entries[..|entries| - 1]) + EntryHops(entries[|entries| - 1])
  }

  predicate GoodHop(hop: (string, Option<string>), res: Names) { hop.0 in res && (hop.1.Some? ==> hop.1.value in res) }

  function GoodHops(hops: seq<(string, Option<string>)>, res: Names): seq<(string, Option<string>)> {
    Filter((hop: (string, Option<string>)) => GoodHop(hop, res), hops)
  }

  lemma {:induction false} GoodHopsOfChain(source: string, targets: seq<string>, res: Names)
    ensures GoodHops(Hop(source, targets), res) == if source in res then Hop(source, Keep(targets, res)) else []
    decreases |targets|
  {
    var p := (hop: (string, Option<string>)) => GoodHop(hop, res);
    if targets == [] {
      assert Filter(p, []) == [];
    } else {
      var init, last := targets[..|targets| - 1], targets[|targets| - 1];
      GoodHopsOfChain(source, init, res);
      FilterAppend(p, Hop(source, init), [(source, Some(last))]);
      assert init + [last] == targets;
      KeepAppend(init, [last], res);
      KeepOne(last, res);
      FilterOne(p, (source, Some(last)));
      HopSnoc(source, Keep(init, res), last);
      assert last !in res ==> Keep(init, res) + [] == Keep(init, res);
    }
  }

  lemma KeepOne(name: string, res: Names)
    ensures Keep([name], res) == if name in res then [name] else []
  {
    assert [name][1..] == [];
  }

  lemma FilterOne<T(!new)>(p: T -> bool, x: T)
    ensures Filter(p, [x]) == if p(x) then [x] else []
  {
    assert [x][1..] == [];
  }

  lemma HopSnoc(source: string, targets: seq<string>, last: string)
    ensures Hop(source, targets + [last]) == Hop(source, targets) + [(source, Some(last))]
  {
    assert (targets + [last])[..|targets|] == targets;
  }

  lemma ListHopsSnoc(entries: seq<Entry>, last: Entry)
    ensures ListHops(entries + [last]) == ListHops(entries) + EntryHops(last)
  {
    assert (entries + [last])[..|entries|] == entries;
  }

  lemma {:induction false} ListHopsAppend(a: seq<Entry>, b: seq<Entry>)
    ensures ListHops(a + b) == ListHops(a) + ListHops(b)
    decreases |b|
  {
    if b == [] {
      assert a + b == a;
    } else {
      var init, last := b[..|b| - 1], b[|b| - 1];
      ListHopsAppend(a, init);
      ListHopsSnoc(a + init, last);
      Associate(ListHops(a), ListHops(init), EntryHops(last));
      assert a + b == (a + init) + [last];
    }
  }

  lemma {:induction false} EntryKeepsGoodHops(entry: Entry, res: Names)
    ensures ListHops(PruneEntry(entry, res)) == GoodHops(EntryHops(entry), res)
  {
    if entry != [] {
      EntryKeepsGoodHops(entry[1..], res);
      var (source, chain) := entry[0];
      FilterAppend((hop: (string, Option<string>)) => GoodHop(hop, res), Hop(source, Chain(chain)), EntryHops(entry[1..]));
      GoodHopsOfChain(source, Chain(chain), res);
      if source in res {
        OneEntry(source, Keep(Chain(chain), res));
        ListHopsAppend([Single(source, Keep(Chain(chain), res))], PruneEntry(entry[1..], res));
      }
    }
  }

  lemma OneEntry(source: string, targets: seq<string>)
    ensures ListHops([Single(source, targets)]) == Hop(source, targets)
  {
    var entry := Single(source, targets);
    var one: seq<Entry> := [entry];
    assert entry[1..] == [] && one[..0] == [];
    assert EntryHops(entry) == Hop(source, targets) + EntryHops([]);
    assert ListHops([entry]) == ListHops([]) + EntryHops(entry);
  }

  /** Exactly the hops between resolvable models survive, in their order. */
  lemma {:induction false} ListKeepsGoodHops(entries: seq<Entry>, res: Names)
    ensures ListHops(PruneEntries(entries, res)) == GoodHops(ListHops(entries), res)
    decreases |entries|
  {
    if entries != [] {
      var init, last := entries[..|entries| - 1], entries[|entries| - 1];
      ListKeepsGoodHops(init, res);
      EntryKeepsGoodHops(last, res);
      ListHopsAppend(PruneEntries(init, res), PruneEntry(last, res));
      FilterAppend((hop: (string, Option<string>)) => GoodHop(hop, res), ListHops(init), EntryHops(last));
    }
  }

  lemma {:induction false} PruneEntriesAppend(a: seq<Entry>, b: seq<Entry>, res: Names)
    ensures PruneEntries(a + b, res) == PruneEntries(a, res) + PruneEntries(b, res)
    decreases |b|
  {
    if b == [] {
      assert a + b == a;
    } else {
      assert (a + b)[..|a + b| - 1] == a + b[..|b| - 1];
      PruneEntriesAppend(a, b[..|b| - 1], res);
    }
  }

  lemma {:induction false} EntryTwice(entry: Entry, big: Names, small: Names)
    requires small <= big
    ensures PruneEntries(PruneEntry(entry, big), small) == PruneEntry(entry, small)
  {
    if entry != [] {
      EntryTwice(entry[1..], big, small);
      var (source, chain) := entry[0];
      var kept := Keep(Chain(chain), big);
      KeepTwice(Chain(chain), big, small);
      PruneSingle(source, kept, small);
      PruneEntriesAppend([Single(source, kept)], PruneEntry(entry[1..], big), small);
    }
  }

  lemma PruneSingle(source: string, targets: seq<string>, res: Names)
    ensures PruneEntries([Single(source, targets)], res) == if source in res then [Single(source, Keep(targets, res))] else []
  {
    var entry := Single(source, targets);
    var one: seq<Entry> := [entry];
    assert entry[1..] == [] && one[..0] == [];
    assert PruneEntries([entry], res) == PruneEntries([], res) + PruneEntry(entry, res);
  }

  lemma {:induction false} ListTwice(entries: seq<Entry>, big: Names, small: Names)
    requires small <= big
    ensures PruneEntries(PruneEntries(entries, big), small) == PruneEntries(entries, small)
    decreases |entries|
  {
    if entries != [] {
      var init, last := entries[..|entries| - 1], entries[|entries| - 1];
      ListTwice(init, big, small);
      EntryTwice(last, big, small);
      PruneEntriesAppend(PruneEntries(init, big), PruneEntry(last, big), small);
    }
  }

  // ----- routers ----------------------------------------------------------

  lemma {:induction false} TiersTwice(tiers: seq<(string, Hops)>, big: Names, small: Names)
    requires small <= big
    ensures PruneTiers(PruneTiers(tiers, big), small) == PruneTiers(tiers, small)
  {
    if tiers != [] {
      TiersTwice(tiers[1..], big, small);
      var kept := Keep(Members(tiers[0].1), big);
      KeepTwice(Members(tiers[0].1), big, small);
      if kept != [] {
        var pruned := PruneTiers(tiers, big);
        assert pruned[0] == (tiers[0].0, Listed(kept)) && pruned[1..] == PruneTiers(tiers[1..], big);
      }
    }
  }

  lemma {:induction false} TierEntriesTwice(entries: seq<TierEntry>, big: Names, small: Names)
    requires small <= big
    ensures KeepEntries(KeepEntries(entries, big), small) == KeepEntries(entries, small)
  {
    if entries != [] {
      TierEntriesTwice(entries[1..], big, small);
      var kept := KeepEntries(entries, big);
      if entries[0].Opaque? || entries[0].model in big {
        assert kept[0] == entries[0] && kept[1..] == KeepEntries(entries[1..], big);
      }
    }
  }

  lemma {:induction false} TierConfigsTwice(configs: seq<(string, seq<TierEntry>)>, big: Names, small: Names)
    requires small <= big
    ensures PruneTierConfigs(PruneTierConfigs(configs, big), small) == PruneTierConfigs(configs, small)
  {
    if configs != [] {
      TierConfigsTwice(configs[1..], big, small);
      TierEntriesTwice(configs[0].1, big, small);
      var pruned := PruneTierConfigs(configs, big);
      assert pruned[0] == (configs[0].0, KeepEntries(configs[0].1, big)) && pruned[1..] == PruneTierConfigs(configs[1..], big);
    }
  }

  /** The models a pruned router names are the resolvable ones it named before, in order. */
  lemma {:induction false} TierModelsAreKept(tiers: seq<(string, Hops)>, res: Names)
    ensures TierModels(PruneTiers(tiers, res)) == Keep(TierModels(tiers), res)
  {
    if tiers != [] {
      TierModelsAreKept(tiers[1..], res);
      KeepAppend(Members(tiers[0].1), TierModels(tiers[1..]), res);
      var pruned := PruneTiers(tiers, res);
      if Keep(Members(tiers[0].1), res) != [] {
        assert pruned[0] == (tiers[0].0, Listed(Keep(Members(tiers[0].1), res))) && pruned[1..] == PruneTiers(tiers[1..], res);
      }
    }
  }

  /** A tier survives exactly when one of its models is resolvable, with these and no others, under its own name. */
  lemma {:induction false} TierSurvivesIff(tiers: seq<(string, Hops)>, res: Names, tier: (string, Hops))
    ensures tier in PruneTiers(tiers, res)
            <==> exists i :: 0 <= i < |tiers| && Keep(Members(tiers[i].1), res) != []
                   && tier == (tiers[i].0, Listed(Keep(Members(tiers[i].1), res)))
  {
    if tiers != [] {
      TierSurvivesIff(tiers[1..], res, tier);
      var rest := tiers[1..];
      if tier in PruneTiers(rest, res) {
        var i :| 0 <= i < |rest| && Keep(Members(rest[i].1), res) != []
                 && tier == (rest[i].0, Listed(Keep(Members(rest[i].1), res)));
        assert tiers[i + 1] == rest[i];
      }
      assert forall i :: 0 < i < |tiers| ==> tiers[i] == rest[i - 1];
    }
  }

  lemma SurvivorsAreKept(config: Config, res: Names)
    ensures Survivors(PruneConfig(config, res)) == Keep(Survivors(config), res)
  {
    if config.tiers.Some? { TierModelsAreKept(config.tiers.value, res); }
  }

  lemma ConfigTwice(config: Config, big: Names, small: Names)
    requires small <= big
    ensures PruneConfig(PruneConfig(config, big), small) == PruneConfig(config, small)
  {
    if config.tiers.Some? { TiersTwice(config.tiers.value, big, small); }
    if config.tierConfigs.Some? { TierConfigsTwice(config.tierConfigs.value, big, small); }
  }

  /** Two stages would give this router another default than one. */
  predicate Drifts(m: Model, big: Names, small: Names) {
    m.config.Some? && Effective(m) != "" && Effective(m) !in big
    && var first := Keep(Survivors(m.config.value), big);
       var second := Keep(Survivors(m.config.value), small);
       first != [] && (second == [] || (first[0] == "" && second[0] != ""))
  }

  lemma {:induction false} FirstKept(names: seq<string>, big: Names, small: Names)
    requires small <= big && Keep(names, big) != [] && Keep(names, big)[0] in small
    ensures Keep(names, small) != [] && Keep(names, small)[0] == Keep(names, big)[0]
  {
    if names[0] !in big { FirstKept(names[1..], big, small); }
  }

  /** What pruning sets a router's defaults to: the whole of it but the configuration's other parts. */
  function Defaults(m: Model, res: Names): (Option<string>, Option<string>)
    requires m.config.Some?
  {
    var kept := Keep(Survivors(m.config.value), res);
    if Effective(m) != "" && Effective(m) !in res && kept != []
    then (Replace(m.config.value.default, kept[0]), Replace(m.default, kept[0]))
    else (m.config.value.default, m.default)
  }

  lemma ModelByParts(m: Model, res: Names)
    requires m.config.Some?
    ensures var d := Defaults(m, res);
            PruneModel(m, res) == m.(config := Some(PruneConfig(m.config.value, res).(default := d.0)), default := d.1)
  {
    SurvivorsAreKept(m.config.value, res);
  }

  /** With the tiers aside, the defaults after two stages are those after one unless the router drifts. */
  lemma DefaultsTwice(m: Model, big: Names, small: Names, n: Model)
    requires small <= big && m.config.Some? && n.config.Some?
    requires (n.config.value.default, n.default) == Defaults(m, big)
    requires Survivors(n.config.value) == Keep(Survivors(m.config.value), big)
    ensures Defaults(n, small) == Defaults(m, small) <==> !Drifts(m, big, small)
  {
    var names := Survivors(m.config.value);
    KeepTwice(names, big, small);
    if Keep(names, big) != [] && Keep(names, big)[0] in small {
      FirstKept(names, big, small);
    }
    var first := Keep(names, big);
    assert first != [] ==> first[0] in first;
  }

  /** Pruning a model with `big` and then `small` is pruning it with `small`, exactly when it does not drift. */
  lemma ModelTwice(m: Model, big: Names, small: Names)
    requires small <= big
    ensures PruneModel(PruneModel(m, big), small) == PruneModel(m, small) <==> !Drifts(m, big, small)
  {
    if m.config.Some? {
      var n := PruneModel(m, big);
      ModelByParts(m, big);
      ModelByParts(m, small);
      ModelByParts(n, small);
      SurvivorsAreKept(m.config.value, big);
      assert Survivors(n.config.value) == Survivors(PruneConfig(m.config.value, big));
      ConfigTwice(m.config.value, big, small);
      DefaultsTwice(m, big, small, n);
      assert PruneConfig(n.config.value, small)
          == PruneConfig(m.config.value, small).(default := n.config.value.default);
    }
  }

  /** A router that keeps any tier model ends with a resolvable default, if it had a default at all. */
  lemma DefaultResolves(m: Model, res: Names)
    requires m.config.Some?
    ensures var kept := Keep(Survivors(m.config.value), res);
            var pruned := PruneModel(m, res);
            && (kept != [] ==> Effective(pruned) == "" || Effective(pruned) in res)
            && (kept == [] || Effective(m) in res ==> Effective(pruned) == Effective(m))
  {
    ModelByParts(m, res);
    var kept := Keep(Survivors(m.config.value), res);
    assert kept != [] ==> kept[0] in kept;
  }

  /** A scalar tier is read as its characters: it is dropped, even if its model is there, unless one of them is a name. */
  lemma ScalarTierIsLostIff(tier: string, model: string, res: Names)
    ensures PruneTiers([(tier, Scalar(model))], res) == [] <==> forall i :: 0 <= i < |model| ==> [model[i]] !in res
    ensures model in res ==> PruneTiers([(tier, Listed([model]))], res) == [(tier, Listed([model]))]
  {
    CharactersOf(model);
    assert [(tier, Scalar(model))][1..] == [] && [(tier, Listed([model]))][1..] == [];
    KeepOne(model, res);
    NoneKeptIff(Characters(model), res);
  }

  /** Such a tier: its model is rendered, and it is dropped all the same. */
  lemma ScalarTierIsLost()
    ensures PruneTiers([("SIMPLE", Scalar("ab"))], Resolvable({"ab"}, {})) == []
  {
    ScalarTierIsLostIff("SIMPLE", "ab", Resolvable({"ab"}, {}));
    assert |"ab"| == 2 && |"*"| == 1 && "ab"[0] == 'a' && "ab"[1] == 'b';
  }

  lemma NoneKeptIff(names: seq<string>, res: Names)
    ensures Keep(names, res) == [] <==> forall n :: n in names ==> n !in res
  {
    if Keep(names, res) != [] { assert Keep(names, res)[0] in Keep(names, res); }
  }

  lemma {:induction false} CharactersOf(text: string)
    ensures forall n :: n in Characters(text) <==> exists i :: 0 <= i < |text| && n == [text[i]]
  {
    if text != "" {
      var rest := text[1..];
      CharactersOf(rest);
      forall n ensures n in Characters(text) <==> exists i :: 0 <= i < |text| && n == [text[i]] {
        assert forall i :: 0 <= i < |rest| ==> rest[i] == text[i + 1];
        assert n in Characters(text) <==> n == [text[0]] || n in Characters(rest);
        if i :| 0 <= i < |text| && n == [text[i]] {
          if i > 0 { assert n == [rest[i - 1]]; }
        }
      }
    }
  }

  predicate AllGood(hops: seq<(string, Option<string>)>, res: Names) { forall hop :: hop in hops ==> GoodHop(hop, res) }

  /** After pruning nothing refers to a model that was not rendered, but for a router all of whose tiers are gone. */
  lemma PrunedIsResolvable(c: Catalog, available: Names)
    ensures var res := Resolvable(available, c.aliases);
            var out := Pruned(c, available);
            && out.chains.Keys == c.chains.Keys
            && (forall key :: key in c.chains && key in KEYS ==>
                  out.chains[key].Some? && AllGood(ListHops(out.chains[key].value), res))
            && (forall key :: key in c.chains && key !in KEYS ==> out.chains[key] == c.chains[key])
            && (out.defaultFallbacks.Some? ==> forall n :: n in Members(out.defaultFallbacks.value) ==> n in res)
            && (forall i :: 0 <= i < |c.models| && c.models[i].config.Some? ==>
                  && (forall n :: n in Survivors(out.models[i].config.value) ==> n in res)
                  && (Survivors(out.models[i].config.value) != [] ==>
                        Effective(out.models[i]) == "" || Effective(out.models[i]) in res))
  {
    var res := Resolvable(available, c.aliases);
    var out := Pruned(c, available);
    forall key | key in c.chains && key in KEYS ensures AllGood(ListHops(out.chains[key].value), res) {
      ListKeepsGoodHops(if c.chains[key].Some? then c.chains[key].value else [], res);
    }
    forall i | 0 <= i < |c.models| && c.models[i].config.Some?
      ensures forall n :: n in Survivors(out.models[i].config.value) ==> n in res
      ensures Survivors(out.models[i].config.value) != [] ==> Effective(out.models[i]) == "" || Effective(out.models[i]) in res
    {
      ModelByParts(c.models[i], res);
      SurvivorsAreKept(c.models[i].config.value, res);
      DefaultResolves(c.models[i], res);
    }
  }

  // ----- in plain terms -----------------------------------------------------

  lemma {:induction false} KeepFilters(names: seq<string>, res: Names)
    ensures Keep(names, res) == Filter((n: string) => n in res, names)
  {
    if names != [] { KeepFilters(names[1..], res); }
  }

  lemma {:induction false} TierModelsFlatten(tiers: seq<(string, Hops)>)
    ensures TierModels(tiers) == Flatten(seq(|tiers|, i requires 0 <= i < |tiers| => Members(tiers[i].1)))
  {
    if tiers != [] {
      TierModelsFlatten(tiers[1..]);
      var members := seq(|tiers|, i requires 0 <= i < |tiers| => Members(tiers[i].1));
      assert members[1..] == seq(|tiers[1..]|, i requires 0 <= i < |tiers[1..]| => Members(tiers[1..][i].1));
    }
  }

  predicate EntryStays(e: TierEntry, res: Names) { e == Opaque || (e.Named? && e.model in res) }

  lemma {:induction false} TierConfigsKeep(configs: seq<(string, seq<TierEntry>)>, res: Names)
    ensures var pruned := PruneTierConfigs(configs, res);
            && |pruned| == |configs|
            && forall i :: 0 <= i < |configs| ==>
                 pruned[i] == (configs[i].0, Filter((e: TierEntry) => EntryStays(e, res), configs[i].1))
  {
    if configs != [] {
      TierConfigsKeep(configs[1..], res);
      EntriesFilter(configs[0].1, res);
    }
  }

  lemma {:induction false} EntriesFilter(entries: seq<TierEntry>, res: Names)
    ensures KeepEntries(entries, res) == Filter((e: TierEntry) => EntryStays(e, res), entries)
  {
    if entries != [] { EntriesFilter(entries[1..], res); }
  }

  /**
    The default fallbacks and the tiers' own configurations keep just what resolves,
    in order, and the fallback lists their good hops; nothing else is touched.
  */
  lemma {:induction false} RestIsFiltered(c: Catalog, available: Names, i: nat)
    requires i < |c.models|
    ensures var res := available + c.aliases + {"*"};
            var out := Pruned(c, available);
            && out.aliases == c.aliases && |out.models| == |c.models|
            && (forall key :: key in c.chains && key in KEYS ==>
                  && out.chains[key].Some?
                  && ListHops(out.chains[key].value)
                     == GoodHops(ListHops(if c.chains[key] == None then [] else c.chains[key].value), res))
            && out.defaultFallbacks == (if c.defaultFallbacks == None then None
                                        else Some(Listed(Filter((n: string) => n in res, Members(c.defaultFallbacks.value)))))
            && out.models[i].name == c.models[i].name && out.models[i].local == c.models[i].local
            && (c.models[i].config == None ==> out.models[i] == c.models[i])
            && (c.models[i].config.Some? && c.models[i].config.value.tierConfigs.Some? ==>
                  var was := c.models[i].config.value.tierConfigs.value;
                  && out.models[i].config.Some? && out.models[i].config.value.tierConfigs.Some?
                  && var now := out.models[i].config.value.tierConfigs.value;
                     |now| == |was| && forall k :: 0 <= k < |was| ==>
                       now[k] == (was[k].0, Filter((e: TierEntry) => EntryStays(e, res), was[k].1)))
  {
    var res := available + c.aliases + {"*"};
    forall key | key in c.chains && key in KEYS
      ensures ListHops(Pruned(c, available).chains[key].value)
              == GoodHops(ListHops(if c.chains[key] == None then [] else c.chains[key].value), res)
    {
      ListKeepsGoodHops(if c.chains[key] == None then [] else c.chains[key].value, res);
    }
    if c.defaultFallbacks.Some? { KeepFilters(Members(c.defaultFallbacks.value), res); }
    if c.models[i].config.Some? && c.models[i].config.value.tierConfigs.Some? {
      TierConfigsKeep(c.models[i].config.value.tierConfigs.value, res);
    }
  }

  /**
    A router's default is lost if it does not resolve; then the first model its tiers
    keep takes its place, wherever a default stood.
  */
  lemma {:induction false} LostDefaultIsReplaced(m: Model, res: Names)
    requires m.config.Some?
    ensures var was, now := m.config.value, PruneModel(m, res);
            var name := if was.default.Some? && was.default.value != "" then was.default.value
                        else if m.default.Some? then m.default.value else "";
            var kept := Filter((n: string) => n in res, Survivors(was));
            var lost := name != "" && name !in res && kept != [];
            && now.config.Some?
            && now.config.value.default == (if lost && was.default.Some? then Some(kept[0]) else was.default)
            && now.default == (if lost && m.default.Some? then Some(kept[0]) else m.default)
  {
    ModelByParts(m, res);
    KeepFilters(Survivors(m.config.value), res);
  }

  // ----- the two renderings -----------------------------------------------

  /** The models of the fallback rendering: those not on this machine. */
  function Remote(ms: seq<Model>): seq<Model> {
    if ms == [] then [] else if ms[0].local then Remote(ms[1..]) else [ms[0]] + Remote(ms[1..])
  }

  function NamesOf(ms: seq<Model>): Names { set i | 0 <= i < |ms| :: ms[i].name }

  lemma {:induction false} RemoteCommutes(ms: seq<Model>, res: Names)
    ensures Remote(PruneModels(ms, res)) == PruneModels(Remote(ms), res)
  {
    if ms != [] {
      RemoteCommutes(ms[1..], res);
      assert PruneModels(ms, res)[1..] == PruneModels(ms[1..], res);
      assert PruneModels(ms, res)[0].local == ms[0].local;
    }
  }

  lemma {:induction false} RemoteNames(ms: seq<Model>)
    ensures NamesOf(Remote(ms)) <= NamesOf(ms)
  {
    if ms != [] {
      RemoteNames(ms[1..]);
      forall name | name in NamesOf(Remote(ms)) ensures name in NamesOf(ms) {
        var i :| 0 <= i < |Remote(ms)| && Remote(ms)[i].name == name;
        if !ms[0].local && i == 0 {
          assert ms[0].name == name;
        } else {
          var rest := Remote(ms[1..]);
          assert rest[if ms[0].local then i else i - 1].name == name;
          assert name in NamesOf(rest);
          var j :| 0 <= j < |ms[1..]| && ms[1..][j].name == name;
          assert ms[j + 1].name == name;
        }
      }
    }
  }

  lemma ChainsTwice(chains: map<string, Option<seq<Entry>>>, big: Names, small: Names)
    requires small <= big
    ensures PruneChains(PruneChains(chains, big), small) == PruneChains(chains, small)
  {
    forall key | key in chains && key in KEYS
      ensures PruneList(PruneList(chains[key], big), small) == PruneList(chains[key], small)
    {
      if chains[key].Some? { ListTwice(chains[key].value, big, small); }
    }
  }

  lemma {:induction false} ModelsTwice(ms: seq<Model>, big: Names, small: Names)
    requires small <= big
    ensures PruneModels(PruneModels(ms, big), small) == PruneModels(ms, small)
            <==> forall i :: 0 <= i < |ms| ==> !Drifts(ms[i], big, small)
  {
    var twice, once := PruneModels(PruneModels(ms, big), small), PruneModels(ms, small);
    forall i | 0 <= i < |ms| ensures twice[i] == once[i] <==> !Drifts(ms[i], big, small) {
      ModelTwice(ms[i], big, small);
    }
  }

  /**
    The fallback rendering prunes what was pruned before.  It is the direct
    pruning of the full catalog exactly when no remote router drifts.
  */
  lemma TwoStagesAreOneIff(c: Catalog, available: Names, fewer: Names)
    requires fewer <= available
    ensures var first := Pruned(c, available);
            Pruned(first.(models := Remote(first.models)), fewer) == Pruned(c.(models := Remote(c.models)), fewer)
            <==> forall i :: 0 <= i < |Remote(c.models)| ==>
                   !Drifts(Remote(c.models)[i], Resolvable(available, c.aliases), Resolvable(fewer, c.aliases))
  {
    var big, small := Resolvable(available, c.aliases), Resolvable(fewer, c.aliases);
    ChainsTwice(c.chains, big, small);
    if c.defaultFallbacks.Some? { KeepTwice(Members(c.defaultFallbacks.value), big, small); }
    RemoteCommutes(c.models, big);
    ModelsTwice(Remote(c.models), big, small);
  }

  /** A remote router whose default is lost and whose one tier names a model of this machine. */
  const LOST_ROUTER := Model("r", false, Some(Config(Some([("T", Listed(["a"]))]), None, Some("gone"))), None)

  /** Its first pruning makes the local model its default, which the second one cannot replace. */
  lemma StagesMayDiffer()
    ensures var c := Catalog(map[], None, {}, [Model("a", true, None, None), LOST_ROUTER]);
            var first := Pruned(c, {"a", "r"});
            && NamesOf(c.models) == {"a", "r"} && NamesOf(Remote(c.models)) == {"r"}
            && Pruned(first.(models := Remote(first.models)), {"r"}) != Pruned(c.(models := Remote(c.models)), {"r"})
  {
    var c := Catalog(map[], None, {}, [Model("a", true, None, None), LOST_ROUTER]);
    assert "a"[0] != "r"[0] && "a"[0] != "*"[0] && "r"[0] != "*"[0] && "gone"[1] == 'o';
    RemoteOfTwo(c.models[0], LOST_ROUTER);
    assert c.models[0].name == "a" && c.models[1].name == "r" && [LOST_ROUTER][0].name == "r";
    KeepOne("a", Resolvable({"a", "r"}, {}));
    NoneKeptIff(["a"], Resolvable({"r"}, {}));
    OneTier(["a"]);
    assert Survivors(LOST_ROUTER.config.value) == ["a"];
    assert Drifts(LOST_ROUTER, Resolvable({"a", "r"}, {}), Resolvable({"r"}, {}));
    TwoStagesAreOneIff(c, {"a", "r"}, {"r"});
  }

  lemma RemoteOfTwo(here: Model, there: Model)
    requires here.local && !there.local
    ensures Remote([here, there]) == [there]
  {
    assert [here, there][1..] == [there] && [there][1..] == [];
    assert Remote([there]) == [there] + Remote([]);
  }

  lemma OneTier(names: seq<string>)
    ensures TierModels([("T", Listed(names))]) == names
  {
    assert [("T", Listed(names))][1..] == [];
  }

  /** In particular when every remote router keeps a tier model and no name is empty. */
  lemma RenderedTwice(c: Catalog)
    requires "" !in Resolvable(NamesOf(c.models), c.aliases)
    requires forall i :: 0 <= i < |Remote(c.models)| && Remote(c.models)[i].config.Some? ==>
               Keep(Survivors(Remote(c.models)[i].config.value), Resolvable(NamesOf(Remote(c.models)), c.aliases)) != []
    ensures var first := Pruned(c, NamesOf(c.models));
            Pruned(first.(models := Remote(first.models)), NamesOf(Remote(c.models)))
            == Pruned(c.(models := Remote(c.models)), NamesOf(Remote(c.models)))
  {
    RemoteNames(c.models);
    var big, small := Resolvable(NamesOf(c.models), c.aliases), Resolvable(NamesOf(Remote(c.models)), c.aliases);
    forall i | 0 <= i < |Remote(c.models)| ensures !Drifts(Remote(c.models)[i], big, small) {
      var m := Remote(c.models)[i];
      if m.config.Some? {
        var first := Keep(Survivors(m.config.value), big);
        assert first != [] ==> first[0] in first;
      }
    }
    TwoStagesAreOneIff(c, NamesOf(c.models), NamesOf(Remote(c.models)));
  }
}
