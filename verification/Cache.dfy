/** The auto-tune cache: a file of tuned results, looked up by the setup they were tuned for. */
module Cache {
  import opened Common
  import opened Overrides
  import opened Config
  import FastSearch
  import opened Search
  import opened Tuning

  const THOROUGH := "thorough"

  /** The search mode, what the launch argument depends on, and the rest of the setup (devices, files,
      visits and so on) as one opaque value. */
  datatype CacheKey = CacheKey(mode: string, setup: string, backend: Backend, fp16: bool, pinned: string)

  function KeyFor(cfg: EngineConfig, explicit: seq<string>, mode: string, setup: string): CacheKey {
    CacheKey(mode, setup, cfg.backend, cfg.fp16, Display(PinsOf(cfg, explicit)))
  }

  datatype CacheEntry = CacheEntry(key: CacheKey, tuned: string, rate: real)

  function WithKey(entries: seq<CacheEntry>, key: CacheKey): Option<CacheEntry> {
    if entries == [] then None
    else if entries[0].key == key then Some(entries[0])
    else WithKey(entries[1..], key)
  }

  function Wider(key: CacheKey): CacheKey {
    key.(mode := THOROUGH)
  }

  /** The entry for the key; failing that, for any other mode, the thorough one of the same setup. */
  function Found(entries: seq<CacheEntry>, key: CacheKey): Option<CacheEntry> {
    var exact := WithKey(entries, key);
    if exact.Some? || key.mode == THOROUGH then exact else WithKey(entries, Wider(key))
  }

  function Without(entries: seq<CacheEntry>, key: CacheKey): seq<CacheEntry> {
    if entries == [] then []
    else
      var last := |entries| - 1;
      var rest := Without(entries[..last], key);
      if entries[last].key != key then rest + [entries[last]] else rest
  }

  function Stored(entries: seq<CacheEntry>, entry: CacheEntry): seq<CacheEntry> {
    Without(entries, entry.key) + [entry]
  }

  /** `None`: the file is missing or unreadable, which reads as empty. */
  class CacheFile {
    var file: Option<seq<CacheEntry>>

    function Entries(): seq<CacheEntry>
      reads this
    {
      if file.Some? then file.value else []
    }

    constructor (file: Option<seq<CacheEntry>>)
      ensures this.file == file
    {
      this.file := file;
    }

    method Find(key: CacheKey) returns (hit: Option<CacheEntry>)
      ensures hit == WithKey(Entries(), key)
    {
      var entries := Entries();
      for i := 0 to |entries|
        invariant WithKey(entries, key) == WithKey(entries[i..], key)
      {
        if entries[i].key == key {
          return Some(entries[i]);
        }
        assert entries[i..][1..] == entries[i + 1..];
      }
      hit := None;
    }

    method Lookup(key: CacheKey) returns (hit: Option<CacheEntry>)
      ensures hit == Found(Entries(), key)
    {
      hit := Find(key);
      if hit.Some? || key.mode == THOROUGH {
        return;
      }
      hit := Find(Wider(key));
    }

    method Store(entry: CacheEntry)
      modifies this
      ensures file == Some(Stored(old(Entries()), entry))
    {
      var entries := Entries();
      var kept := [];
      for i := 0 to |entries|
        invariant kept == Without(entries[..i], entry.key)
      {
        assert entries[..i + 1][..i] == entries[..i];
        if entries[i].key != entry.key {
          kept := kept + [entries[i]];
        }
      }
      assert entries[..|entries|] == entries;
      file := Some(kept + [entry]);
    }
  }

  lemma {:induction false} WithKeySnoc(entries: seq<CacheEntry>, entry: CacheEntry, key: CacheKey)
    ensures WithKey(entries + [entry], key) ==
      if WithKey(entries, key).None? && entry.key == key then Some(entry) else WithKey(entries, key)
  {
    if entries == [] {
      assert [entry][1..] == [];
    } else {
      assert (entries + [entry])[1..] == entries[1..] + [entry];
      WithKeySnoc(entries[1..], entry, key);
    }
  }

  lemma {:induction false} WithoutReads(entries: seq<CacheEntry>, gone: CacheKey, key: CacheKey)
    ensures WithKey(Without(entries, gone), key) == if key == gone then None else WithKey(entries, key)
  {
    if entries != [] {
      var last := |entries| - 1;
      WithoutReads(entries[..last], gone, key);
      WithKeySnoc(Without(entries[..last], gone), entries[last], key);
      WithKeySnoc(entries[..last], entries[last], key);
      assert entries == entries[..last] + [entries[last]];
    }
  }

  lemma StoredReads(entries: seq<CacheEntry>, entry: CacheEntry, key: CacheKey)
    ensures WithKey(Stored(entries, entry), key) == if key == entry.key then Some(entry) else WithKey(entries, key)
  {
    WithoutReads(entries, entry.key, key);
    WithKeySnoc(Without(entries, entry.key), entry, key);
  }

  /** What storing an entry changes, for every key: its own lookup, and the lookup of a faster mode that
      has no entry of its own. */
  lemma LookupAfterStore(entries: seq<CacheEntry>, entry: CacheEntry, key: CacheKey)
    ensures Found(Stored(entries, entry), key) ==
      if key == entry.key then Some(entry)
      else if WithKey(entries, key).None? && key.mode != THOROUGH && Wider(key) == entry.key then Some(entry)
      else Found(entries, key)
  {
    StoredReads(entries, entry, key);
    StoredReads(entries, entry, Wider(key));
  }

  lemma {:induction false} WithKeyHasKey(entries: seq<CacheEntry>, key: CacheKey)
    ensures WithKey(entries, key).Some? ==>
      WithKey(entries, key).value.key == key && WithKey(entries, key).value in entries
  {
    if entries != [] && entries[0].key != key {
      WithKeyHasKey(entries[1..], key);
    }
  }

  /** A hit was stored for the same setup, by the same mode or by a thorough search. */
  lemma HitMatches(entries: seq<CacheEntry>, key: CacheKey)
    ensures Found(entries, key).Some? ==>
      && Found(entries, key).value in entries
      && Found(entries, key).value.key == key.(mode := Found(entries, key).value.key.mode)
      && (Found(entries, key).value.key.mode == key.mode || Found(entries, key).value.key.mode == THOROUGH)
  {
    WithKeyHasKey(entries, key);
    WithKeyHasKey(entries, Wider(key));
  }

  /** A tuning run's result, stored and looked up under its key, launches exactly what the run itself
      launched. */
  lemma HitLaunchesTheSame(
    entries: seq<CacheEntry>, key: CacheKey, rate: real, cfg: EngineConfig, explicit: seq<string>, cand: Candidate)
    ensures var entry := CacheEntry(key, Display(Tuned(cfg, explicit, cand)), rate);
      var hit := Found(Stored(entries, entry), key);
      hit.Some? && WithTunedOf(cfg, explicit, Parse(hit.value.tuned)) == Production(cfg, explicit, cand)
  {
    hide Parse, Display, Tuned, WithTunedOf, Production, Found, Stored;
    LookupAfterStore(entries, CacheEntry(key, Display(Tuned(cfg, explicit, cand)), rate), key);
    CachedIsApplied(cfg, explicit, cand);
  }

  /** What the run that stored an entry did: it tuned `cfg` to `cand` and stored the result under that
      configuration's key. */
  predicate StoredBy(
    entry: CacheEntry, cfg: EngineConfig, explicit: seq<string>, cand: Candidate, mode: string, setup: string)
  {
    entry.key == KeyFor(cfg, explicit, mode, setup) && entry.tuned == Display(Tuned(cfg, explicit, cand))
  }

  /** A hit, whatever run stored it and however its configuration differs from this one: applying it is
      what tuning this configuration to the same candidate would apply, and what is launched is what the
      storing run measured. */
  lemma HitLaunchesWhatWasMeasured(
    entries: seq<CacheEntry>, cfg: EngineConfig, explicit: seq<string>, mode: string, setup: string,
    cfg': EngineConfig, explicit': seq<string>, mode': string, setup': string, cand: Candidate, key: string)
    requires Found(entries, KeyFor(cfg, explicit, mode, setup)).Some?
    requires StoredBy(Found(entries, KeyFor(cfg, explicit, mode, setup)).value, cfg', explicit', cand, mode', setup')
    ensures var hit := Found(entries, KeyFor(cfg, explicit, mode, setup)).value;
      var started := WithTunedOf(cfg, explicit, Parse(hit.tuned));
      && started == Production(cfg, explicit, cand)
      && (NnDefaults(cfg, explicit) && FromSpace(PinsOf(cfg', explicit'), cand) ==>
            Launched(started, key) == Launched(TrialConfig(cfg', explicit', cand), key))
  {
    hide Parse, Display, PinsOf, Tuned, WithTunedOf, Production, TrialConfig, Found, Launched, NnDefaults, FromSpace;
    HitMatches(entries, KeyFor(cfg, explicit, mode, setup));
    PinsFromText(cfg, explicit, cfg', explicit');
    SamePinsSameTrial(cfg, explicit, cfg', explicit', cand, key);
    CachedIsApplied(cfg, explicit, cand);
    if NnDefaults(cfg, explicit) && FromSpace(PinsOf(cfg, explicit), cand) {
      SpaceCandidateIsLaunched(cfg, explicit, cand);
      assert Agree(cfg, explicit, cand, key);
    }
  }

  /** The tuning run's search could have picked this candidate: a rung of its fast space, or a pair of
      its thorough space. */
  ghost predicate Searched(pinned: Pairs, backend: Backend, depth: nat, lanes: Option<nat>, cand: Candidate) {
    || (exists idx: nat :: idx < |FastSpace(pinned, depth, backend, lanes).ladder| &&
          cand == FastSearch.CandidateAt(FastSpace(pinned, depth, backend, lanes), idx))
    || InThoroughSpace(pinned, depth, backend, cand.analysisThreads, (cand.servers, cand.batch))
  }

  lemma SearchedFromSpace(pinned: Pairs, backend: Backend, depth: nat, lanes: Option<nat>, cand: Candidate)
    requires Searched(pinned, backend, depth, lanes, cand)
    ensures FromSpace(pinned, cand)
  {
    hide FastSpace, InThoroughSpace, FromSpace;
    if idx: nat :| idx < |FastSpace(pinned, depth, backend, lanes).ladder| &&
                   cand == FastSearch.CandidateAt(FastSpace(pinned, depth, backend, lanes), idx) {
      FastFromSpace(pinned, depth, backend, lanes, idx);
    } else {
      ThoroughFromSpace(pinned, depth, backend, cand.analysisThreads, (cand.servers, cand.batch));
    }
  }

  /** Two services, however each is configured and on whatever machine: when one starts from what the
      other's search found and stored, it launches, for every key, exactly what that search measured. */
  lemma ServiceHitLaunchesWhatWasMeasured(
    entries: seq<CacheEntry>, mode: string, setup: string, mode': string, setup': string,
    settings: Settings, cores: nat, rest: EngineConfig, settings': Settings, cores': nat, rest': EngineConfig,
    depth: nat, lanes: Option<nat>, cand: Candidate, key: string)
    requires Found(entries,
                   KeyFor(Loaded(settings, cores, rest), ExplicitNames(settings, KNOBS), mode, setup)).Some?
    requires StoredBy(
               Found(entries, KeyFor(Loaded(settings, cores, rest), ExplicitNames(settings, KNOBS), mode, setup)).value,
               Loaded(settings', cores', rest'), ExplicitNames(settings', KNOBS), cand, mode', setup')
    requires Searched(PinsOf(Loaded(settings', cores', rest'), ExplicitNames(settings', KNOBS)), rest'.backend,
                      depth, lanes, cand)
    ensures var cfg, explicit := Loaded(settings, cores, rest), ExplicitNames(settings, KNOBS);
      var cfg', explicit' := Loaded(settings', cores', rest'), ExplicitNames(settings', KNOBS);
      var hit := Found(entries, KeyFor(cfg, explicit, mode, setup)).value;
      Launched(WithTunedOf(cfg, explicit, Parse(hit.tuned)), key) == Launched(TrialConfig(cfg', explicit', cand), key)
  {
    hide Found, KeyFor, StoredBy, Searched, PinsOf, Parse, WithTunedOf, TrialConfig, Launched, Loaded, ExplicitNames;
    hide NnDefaults, FromSpace;
    var cfg, explicit := Loaded(settings, cores, rest), ExplicitNames(settings, KNOBS);
    var cfg', explicit' := Loaded(settings', cores', rest'), ExplicitNames(settings', KNOBS);
    LoadedHasDefaults(settings, cores, rest);
    SearchedFromSpace(PinsOf(cfg', explicit'), rest'.backend, depth, lanes, cand);
    HitLaunchesWhatWasMeasured(entries, cfg, explicit, mode, setup, cfg', explicit', mode', setup', cand, key);
  }
}
