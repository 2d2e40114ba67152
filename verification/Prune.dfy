/**
  Pruning the fallback chains and complexity routers of a model catalog to the
  models that were rendered, and doing so twice with fewer models.
*/
module Prune {
  import opened Prelude

  type Names = set<string>

  /** A YAML value that is iterated for names: a list, or a scalar, which yields its characters. */
  datatype Hops = Listed(names: seq<string>) | Scalar(text: string)

  function Characters(text: string): seq<string> {
    if text == "" then [] else [[text[0]]] + Characters(text[1..])
  }

  function Members(h: Hops): seq<string> { if h.Listed? then h.names else Characters(h.text) }

  /** One dict of a fallback list: source model and chain, a chain may be null. */
  type Entry = seq<(string, Option<Hops>)>

  /** One entry of a tier's configuration: a dict with its model's name, or something else. */
  datatype TierEntry = Opaque | Named(model: string)

  /** A complexity router's configuration; None for parts that are absent or not dicts. */
  datatype Config = Config(
    tiers: Option<seq<(string, Hops)>>,
    tierConfigs: Option<seq<(string, seq<TierEntry>)>>,
    default: Option<string>)

  /** A model: its router configuration if it is a router, and the default among its parameters. */
  datatype Model = Model(name: string, local: bool, config: Option<Config>, default: Option<string>)

  /** The parts of the catalog that pruning reads; a fallback list that is null is None. */
  datatype Catalog = Catalog(
    chains: map<string, Option<seq<Entry>>>,
    defaultFallbacks: Option<Hops>,
    aliases: Names,
    models: seq<Model>)

  const KEYS := ["fallbacks", "context_window_fallbacks", "content_policy_fallbacks"]

  function Resolvable(available: Names, aliases: Names): Names { available + aliases + {"*"} }

  // ----- pruning, as functions --------------------------------------------

  /** The names that resolve, in order. */
  function Keep(names: seq<string>, res: Names): (r: seq<string>)
    ensures forall n :: n in r <==> n in names && n in res
  {
    if names == [] then []
    else if names[0] in res then [names[0]] + Keep(names[1..], res)
    else Keep(names[1..], res)
  }

  function Chain(chain: Option<Hops>): seq<string> { if chain.None? then [] else Members(chain.value) }

  function Single(source: string, targets: seq<string>): Entry { [(source, Some(Listed(targets)))] }

  /** The kept sources of an entry, each as an entry of its own. */
  function PruneEntry(entry: Entry, res: Names): seq<Entry> {
    if entry == [] then []
    else if entry[0].0 in res then [Single(entry[0].0, Keep(Chain(entry[0].1), res))] + PruneEntry(entry[1..], res)
    else PruneEntry(entry[1..], res)
  }

  function PruneEntries(entries: seq<Entry>, res: Names): seq<Entry> {
    if entries == [] then [] else PruneEntries(entries[..|entries| - 1], res) + PruneEntry(entries[|entries| - 1], res)
  }

  function PruneList(list: Option<seq<Entry>>, res: Names): Option<seq<Entry>> {
    Some(if list.None? then [] else PruneEntries(list.value, res))
  }

  function PruneTiers(tiers: seq<(string, Hops)>, res: Names): seq<(string, Hops)> {
    if tiers == [] then []
    else if Keep(Members(tiers[0].1), res) != []
    then [(tiers[0].0, Listed(Keep(Members(tiers[0].1), res)))] + PruneTiers(tiers[1..], res)
    else PruneTiers(tiers[1..], res)
  }

  function KeepEntries(entries: seq<TierEntry>, res: Names): (r: seq<TierEntry>)
    ensures forall e :: e in r <==> e in entries && (e.Opaque? || e.model in res)
  {
    if entries == [] then []
    else if entries[0].Opaque? || entries[0].model in res then [entries[0]] + KeepEntries(entries[1..], res)
    else KeepEntries(entries[1..], res)
  }

  function PruneTierConfigs(configs: seq<(string, seq<TierEntry>)>, res: Names): seq<(string, seq<TierEntry>)> {
    if configs == [] then [] else [(configs[0].0, KeepEntries(configs[0].1, res))] + PruneTierConfigs(configs[1..], res)
  }

  /** All models named in the tiers, in order. */
  function TierModels(tiers: seq<(string, Hops)>): seq<string> {
    if tiers == [] then [] else Members(tiers[0].1) + TierModels(tiers[1..])
  }

  function Survivors(config: Config): seq<string> { if config.tiers.None? then [] else TierModels(config.tiers.value) }

  function OrEmpty(s: Option<string>): string { if s.None? then "" else s.value }

  /** The default a router uses: its configuration's, else its parameters'. */
  function Effective(m: Model): string {
    if m.config.Some? && OrEmpty(m.config.value.default) != "" then m.config.value.default.value else OrEmpty(m.default)
  }

  function Replace(field: Option<string>, name: string): Option<string> { if field.None? then None else Some(name) }

  function PruneConfig(config: Config, res: Names): Config {
    config.(
      tiers := if config.tiers.None? then None else Some(PruneTiers(config.tiers.value, res)),
      tierConfigs := if config.tierConfigs.None? then None else Some(PruneTierConfigs(config.tierConfigs.value, res)))
  }

  function PruneModel(m: Model, res: Names): Model {
    if m.config.None? then m
    else
      var config := PruneConfig(m.config.value, res);
      var survivors := Survivors(config);
      if Effective(m) != "" && Effective(m) !in res && survivors != []
      then m.(config := Some(config.(default := Replace(config.default, survivors[0]))), default := Replace(m.default, survivors[0]))
      else m.(config := Some(config))
  }

  function PruneModels(ms: seq<Model>, res: Names): (out: seq<Model>)
    ensures |out| == |ms| && forall i :: 0 <= i < |ms| ==> out[i] == PruneModel(ms[i], res)
  {
    seq(|ms|, i requires 0 <= i < |ms| => PruneModel(ms[i], res))
  }

  function PruneChains(chains: map<string, Option<seq<Entry>>>, res: Names): map<string, Option<seq<Entry>>> {
    map key | key in chains :: if key in KEYS then PruneList(chains[key], res) else chains[key]
  }

  function PruneDefaults(defaults: Option<Hops>, res: Names): Option<Hops> {
    if defaults.None? then None else Some(Listed(Keep(Members(defaults.value), res)))
  }

  function Pruned(c: Catalog, available: Names): Catalog {
    var res := Resolvable(available, c.aliases);
    Catalog(PruneChains(c.chains, res), PruneDefaults(c.defaultFallbacks, res), c.aliases, PruneModels(c.models, res))
  }

  // ----- in place ---------------------------------------------------------

  class CatalogFile {
    var chains: map<string, Option<seq<Entry>>>
    var defaultFallbacks: Option<Hops>
    var aliases: Names
    var models: seq<Model>

    constructor (c: Catalog)
      ensures Value() == c
    {
      chains, defaultFallbacks, aliases, models := c.chains, c.defaultFallbacks, c.aliases, c.models;
    }

    function Value(): Catalog reads this { Catalog(chains, defaultFallbacks, aliases, models) }

    /** The loop over the three fallback lists. */
    method PruneLists(res: Names)
      modifies this`chains
      ensures chains == PruneChains(old(chains), res)
    {
      ghost var was := chains;
      for k := 0 to |KEYS|
        invariant chains.Keys == was.Keys
        invariant forall key :: key in was ==>
                    chains[key] == if key in KEYS[..k] then PruneList(was[key], res) else was[key]
      {
        var key := KEYS[k];
        var list := if key in chains && chains[key].Some? then chains[key].value else [];
        var entries: seq<Entry> := [];
        for i := 0 to |list|
          invariant entries == PruneEntries(list[..i], res)
        {
          assert list[..i + 1][..i] == list[..i];
          entries := entries + PruneEntry(list[i], res);
        }
        assert list[..|list|] == list;
        KeysDiffer();
        assert KEYS[..k + 1] == KEYS[..k] + [key];
        if key in chains {
          chains := chains[key := Some(entries)];
        }
      }
      assert KEYS[..|KEYS|] == KEYS;
    }

    /** The loop over the models. */
    method PruneRouters(res: Names)
      modifies this`models
      ensures models == PruneModels(old(models), res)
    {
      ghost var was := models;
      for i := 0 to |models|
        invariant |models| == |was|
        invariant forall j :: 0 <= j < |was| ==> models[j] == if j < i then PruneModel(was[j], res) else was[j]
      {
        var model := models[i];
        if model.config.None? {
          continue;
        }
        var config := PruneConfig(model.config.value, res);
        var default := Effective(model);
        var survivors := Survivors(config);
        if default != "" && default !in res && survivors != [] {
          var replacement := survivors[0];
          if config.default.Some? {
            config := config.(default := Some(replacement));
          }
          if model.default.Some? {
            model := model.(default := Some(replacement));
          }
        }
        models := models[i := model.(config := Some(config))];
      }
    }

    /** `prune_chains` */
    method Prune(available: Names)
      modifies this
      ensures Value() == Pruned(old(Value()), available)
    {
      var res := available + aliases + {"*"};
      PruneLists(res);
      if defaultFallbacks.Some? {
        defaultFallbacks := Some(Listed(Keep(Members(defaultFallbacks.value), res)));
      }
      PruneRouters(res);
    }
  }

  lemma KeysDiffer()
    ensures forall i, j :: 0 <= i < j < |KEYS| ==> KEYS[i] != KEYS[j]
  {
    assert |KEYS[0]| == 9 && |KEYS[1]| == 24 && |KEYS[2]| == 24 && KEYS[1][5] != KEYS[2][5];
  }
}
