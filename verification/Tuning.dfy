/** From a tuned candidate to what is launched: which keys are pinned, the settings a trial runs
    with, and the configuration production starts with. */
module Tuning {
  import opened Common
  import opened Text
  import opened Overrides
  import opened Config
  import opened Search
  import FastSearch
  import ThoroughSearch

  /** The four `[engine]` fields the tuner may set. */
  datatype Knob = Analysis | SearchThreads | Servers | Batch

  const KNOBS: seq<Knob> := [Analysis, SearchThreads, Servers, Batch]
  const NUMERIC_ORDER: seq<Knob> := [Analysis, SearchThreads, Batch, Servers]
  const FP16 := "burnUseFP16"

  function KeyOf(knob: Knob): string {
    match knob
    case Analysis => ANALYSIS_THREADS
    case SearchThreads => SEARCH_THREADS
    case Servers => SERVER_THREADS
    case Batch => BATCH_SIZE
  }

  function FieldName(knob: Knob): string {
    match knob
    case Analysis => "analysis_threads"
    case SearchThreads => "search_threads_per_analysis"
    case Servers => "nn_server_threads"
    case Batch => "nn_max_batch_size"
  }

  function KnobOf(key: string): (r: Option<Knob>) {
    if key == ANALYSIS_THREADS then Some(Analysis)
    else if key == SEARCH_THREADS then Some(SearchThreads)
    else if key == SERVER_THREADS then Some(Servers)
    else if key == BATCH_SIZE then Some(Batch)
    else None
  }

  function FieldValue(cfg: EngineConfig, knob: Knob): nat {
    match knob
    case Analysis => cfg.analysisThreads
    case SearchThreads => cfg.searchThreadsPerAnalysis
    case Servers => cfg.nnServerThreads
    case Batch => cfg.nnMaxBatchSize
  }

  function WithField(cfg: EngineConfig, knob: Knob, value: nat): EngineConfig {
    match knob
    case Analysis => cfg.(analysisThreads := value)
    case SearchThreads => cfg.(searchThreadsPerAnalysis := value)
    case Servers => cfg.(nnServerThreads := value)
    case Batch => cfg.(nnMaxBatchSize := value)
  }

  predicate Explicit(explicit: seq<string>, knob: Knob) {
    FieldName(knob) in explicit
  }

  // ----- the engine's -override-config argument

  function NumericEntries(cfg: EngineConfig, knobs: seq<Knob>): seq<string> {
    if knobs == [] then []
    else
      var last := |knobs| - 1;
      var before, value := NumericEntries(cfg, knobs[..last]), FieldValue(cfg, knobs[last]);
      if value > 0 then before + [Entry((KeyOf(knobs[last]), Decimal(value)))] else before
  }

  predicate UsesFp16(cfg: EngineConfig) {
    cfg.fp16 && !cfg.backend.Upstream?
  }

  function Fp16Entries(cfg: EngineConfig): seq<string> {
    if UsesFp16(cfg) then [Entry((FP16, "true"))] else []
  }

  /** The entries trimmed, blank ones left out. */
  function NonBlank(entries: seq<string>): seq<string> {
    if entries == [] then []
    else
      var last := |entries| - 1;
      var before, entry := NonBlank(entries[..last]), Trim(entries[last]);
      if entry == "" then before else before + [entry]
  }

  function OverrideEntries(cfg: EngineConfig): seq<string> {
    NumericEntries(cfg, NUMERIC_ORDER) + Fp16Entries(cfg) + NonBlank(Split(cfg.overrideConfig, ','))
  }

  function KatagoOverrides(cfg: EngineConfig): Option<string> {
    var joined := Join(OverrideEntries(cfg), ',');
    if joined == "" then None else Some(joined)
  }

  /** What the engine ends up with for a key: the last entry of its argument that sets it. */
  function Launched(cfg: EngineConfig, key: string): Option<string> {
    var argument := KatagoOverrides(cfg);
    if argument.None? then None else Reading(Split(argument.value, ','), key)
  }

  // ----- pins, tuned keys, trials

  function FieldPins(cfg: EngineConfig, explicit: seq<string>, knobs: seq<Knob>): Pairs {
    if knobs == [] then []
    else
      var knob := knobs[|knobs| - 1];
      var before := FieldPins(cfg, explicit, knobs[..|knobs| - 1]);
      if Explicit(explicit, knob) && FieldValue(cfg, knob) > 0
      then Set(before, KeyOf(knob), Decimal(FieldValue(cfg, knob))) else before
  }

  function SetAll(ps: Pairs, other: Pairs): Pairs {
    if other == [] then ps
    else Set(SetAll(ps, other[..|other| - 1]), other[|other| - 1].0, other[|other| - 1].1)
  }

  function PinsOf(cfg: EngineConfig, explicit: seq<string>): Pairs {
    SetAll(FieldPins(cfg, explicit, KNOBS), Parse(cfg.overrideConfig))
  }

  method Pins(cfg: EngineConfig, explicit: seq<string>) returns (pinned: Overrides)
    ensures fresh(pinned) && pinned.pairs == PinsOf(cfg, explicit)
  {
    hide Get, Parse, KeyOf, Set, Decimal, Explicit, FieldValue;
    pinned := new Overrides([]);
    for i := 0 to |KNOBS|
      invariant fresh(pinned) && pinned.pairs == FieldPins(cfg, explicit, KNOBS[..i])
    {
      assert KNOBS[..i + 1][..i] == KNOBS[..i];
      var value := FieldValue(cfg, KNOBS[i]);
      if Explicit(explicit, KNOBS[i]) && value > 0 {
        pinned.SetKey(KeyOf(KNOBS[i]), Decimal(value));
      }
    }
    assert KNOBS[..|KNOBS|] == KNOBS;
    var given := new Overrides.FromText(cfg.overrideConfig);
    for i := 0 to |given.pairs|
      invariant fresh(pinned) && pinned != given && given.pairs == Parse(cfg.overrideConfig)
      invariant pinned.pairs == SetAll(FieldPins(cfg, explicit, KNOBS), given.pairs[..i])
    {
      assert given.pairs[..i + 1][..i] == given.pairs[..i];
      pinned.SetKey(given.pairs[i].0, given.pairs[i].1);
    }
    assert given.pairs[..|given.pairs|] == given.pairs;
  }

  /** What a candidate sets a knob to; search threads per analysis thread are always 1. */
  function Choice(cand: Candidate, knob: Knob): Option<nat> {
    match knob
    case Analysis => cand.analysisThreads
    case SearchThreads => Some(1)
    case Servers => cand.servers
    case Batch => cand.batch
  }

  predicate FitsU32(cand: Candidate) {
    && (cand.analysisThreads.Some? ==> cand.analysisThreads.value <= U32_MAX)
    && (cand.servers.Some? ==> cand.servers.value <= U32_MAX)
    && (cand.batch.Some? ==> cand.batch.value <= U32_MAX)
  }

  function SetChoice(ps: Pairs, cand: Candidate, knob: Knob): Pairs {
    var value := Choice(cand, knob);
    if value.Some? then Set(ps, KeyOf(knob), Decimal(value.value)) else ps
  }

  /** The search threads, unless pinned. */
  function FirstChoice(pinned: Pairs, cand: Candidate): Pairs {
    if Get(pinned, SEARCH_THREADS).None? then SetChoice([], cand, SearchThreads) else []
  }

  function Chosen(ps: Pairs, cand: Candidate): Pairs {
    SetChoice(SetChoice(SetChoice(ps, cand, Analysis), cand, Servers), cand, Batch)
  }

  function TunedKeysOf(pinned: Pairs, cand: Candidate): Pairs {
    Retained(Chosen(FirstChoice(pinned, cand), cand), key => Get(pinned, key).None?)
  }

  method TunedKeys(pinned: Overrides, cand: Candidate) returns (keys: Overrides)
    ensures fresh(keys) && keys.pairs == TunedKeysOf(pinned.pairs, cand)
  {
    keys := new Overrides([]);
    if Get(pinned.pairs, SEARCH_THREADS).None? {
      assert Decimal(1) == "1";
      keys.SetKey(SEARCH_THREADS, "1");
    }
    if cand.analysisThreads.Some? {
      keys.SetKey(ANALYSIS_THREADS, Decimal(cand.analysisThreads.value));
    }
    if cand.servers.Some? {
      keys.SetKey(SERVER_THREADS, Decimal(cand.servers.value));
    }
    if cand.batch.Some? {
      keys.SetKey(BATCH_SIZE, Decimal(cand.batch.value));
    }
    var pins := pinned.pairs;
    keys.Retain(key => Get(pins, key).None?);
  }

  function TrialOverridesOf(pinned: Pairs, cand: Candidate): Pairs {
    Fill(pinned, TunedKeysOf(pinned, cand))
  }

  method TrialOverrides(pinned: Overrides, cand: Candidate) returns (over: Overrides)
    ensures fresh(over) && over.pairs == TrialOverridesOf(pinned.pairs, cand)
  {
    over := new Overrides(pinned.pairs);
    var keys := TunedKeys(pinned, cand);
    over.FillFrom(keys);
  }

  function TrialVisits(cfg: EngineConfig): (v: nat)
    ensures v <= cfg.maxVisits
    ensures v == cfg.maxVisits || v == cfg.autotuneVisits
    ensures v < cfg.maxVisits ==> cfg.autotuneVisits != 0
  {
    if cfg.autotuneVisits == 0 then cfg.maxVisits else Min(cfg.autotuneVisits, cfg.maxVisits)
  }

  function LaunchCfg(cfg: EngineConfig, over: Pairs): EngineConfig {
    cfg.(maxVisits := TrialVisits(cfg),
         analysisThreads := 0, searchThreadsPerAnalysis := 0, nnServerThreads := 0, nnMaxBatchSize := 0,
         overrideConfig := Display(over), humanModel := "")
  }

  // ----- with_tuned

  /** Fields neither explicit nor free of an override are zeroed. */
  function Zeroed(cfg: EngineConfig, explicit: seq<string>, given: Pairs, knobs: seq<Knob>): EngineConfig {
    if knobs == [] then cfg
    else
      var knob := knobs[|knobs| - 1];
      var before := Zeroed(cfg, explicit, given, knobs[..|knobs| - 1]);
      if !Explicit(explicit, knob) && Get(given, KeyOf(knob)).Some? then WithField(before, knob, 0) else before
  }

  /** A tuned pair that goes into a field: a tuning key with a number. */
  predicate Routed(key: string, value: string) {
    KnobOf(key).Some? && ParseU32(value).Some?
  }

  function Applied(cfg: EngineConfig, extra: Pairs, tuned: Pairs): (EngineConfig, Pairs) {
    if tuned == [] then (cfg, extra)
    else
      var (before, rest) := Applied(cfg, extra, tuned[..|tuned| - 1]);
      var (key, value) := tuned[|tuned| - 1];
      if Routed(key, value) then (WithField(before, KnobOf(key).value, ParseU32(value).value), rest)
      else (before, Set(rest, key, value))
  }

  function WithTunedOf(cfg: EngineConfig, explicit: seq<string>, tuned: Pairs): EngineConfig {
    var given := Parse(cfg.overrideConfig);
    var (done, extra) := Applied(Zeroed(cfg, explicit, given, KNOBS), given, tuned);
    done.(overrideConfig := Display(extra))
  }

  method WithTuned(cfg0: EngineConfig, explicit: seq<string>, tuned: Overrides) returns (cfg: EngineConfig)
    ensures cfg == WithTunedOf(cfg0, explicit, tuned.pairs)
  {
    hide ParseU32, DigitsValue, Get, Parse, KeyOf, KnobOf, WithField, Set, Display, Explicit;
    cfg := cfg0;
    var extra := new Overrides.FromText(cfg.overrideConfig);
    ghost var given := Parse(cfg0.overrideConfig);
    for i := 0 to |KNOBS|
      invariant fresh(extra) && extra.pairs == given
      invariant cfg == Zeroed(cfg0, explicit, given, KNOBS[..i])
    {
      assert KNOBS[..i + 1][..i] == KNOBS[..i];
      if !Explicit(explicit, KNOBS[i]) && Get(extra.pairs, KeyOf(KNOBS[i])).Some? {
        cfg := WithField(cfg, KNOBS[i], 0);
      }
    }
    assert KNOBS[..|KNOBS|] == KNOBS;
    ghost var zeroed := cfg;
    for i := 0 to |tuned.pairs|
      invariant fresh(extra)
      invariant (cfg, extra.pairs) == Applied(zeroed, given, tuned.pairs[..i])
    {
      assert tuned.pairs[..i + 1][..i] == tuned.pairs[..i];
      var (key, value) := tuned.pairs[i];
      var knob, num := KnobOf(key), ParseU32(value);
      if knob.Some? && num.Some? {
        cfg := WithField(cfg, knob.value, num.value);
      } else {
        extra.SetKey(key, value);
      }
    }
    assert tuned.pairs[..|tuned.pairs|] == tuned.pairs;
    var text := extra.ToText();
    cfg := cfg.(overrideConfig := text);
  }

  // ----- what each list reads as

  lemma KnobOfKey(knob: Knob)
    ensures KnobOf(KeyOf(knob)) == Some(knob) && KeyOf(knob) != FP16
  {
    assert |ANALYSIS_THREADS| == 18 && |SEARCH_THREADS| == 33 && |SERVER_THREADS| == 26 && |BATCH_SIZE| == 14;
    assert |FP16| == 11;
  }

  lemma KeyOfKnob(key: string)
    ensures KnobOf(key).Some? ==> KeyOf(KnobOf(key).value) == key
    ensures KnobOf(FP16).None?
  {
    assert |ANALYSIS_THREADS| == 18 && |SEARCH_THREADS| == 33 && |SERVER_THREADS| == 26 && |BATCH_SIZE| == 14;
    assert |FP16| == 11;
  }

  predicate PlainChar(c: char) {
    c != ',' && c != '=' && !IsWhitespace(c)
  }

  lemma PlainIsClean(key: string, value: string)
    requires key != "" && forall i :: 0 <= i < |key| ==> PlainChar(key[i])
    requires forall i :: 0 <= i < |value| ==> PlainChar(value[i])
    ensures CleanPair((key, value))
  {
  }

  lemma KeyIsPlain(knob: Knob)
    ensures KeyOf(knob) != "" && forall i :: 0 <= i < |KeyOf(knob)| ==> PlainChar(KeyOf(knob)[i])
  {
  }

  lemma DecimalIsPlain(n: nat)
    ensures forall i :: 0 <= i < |Decimal(n)| ==> PlainChar(Decimal(n)[i])
  {
    DecimalShape(n);
    forall i | 0 <= i < |Decimal(n)| ensures PlainChar(Decimal(n)[i]) {
      assert IsDigit(Decimal(n)[i]);
    }
  }

  lemma NumericPairIsClean(knob: Knob, n: nat)
    ensures CleanPair((KeyOf(knob), Decimal(n)))
  {
    KeyIsPlain(knob);
    DecimalIsPlain(n);
    PlainIsClean(KeyOf(knob), Decimal(n));
  }

  lemma Fp16PairIsClean()
    ensures CleanPair((FP16, "true"))
  {
    PlainIsClean(FP16, "true");
  }

  /** Trimming an entry does not change what it sets. */
  lemma SettingOfTrimmed(entry: string)
    ensures Setting(Trim(entry)) == Setting(entry)
    ensures ',' !in entry ==> ',' !in Trim(entry)
  {
    TrimShape(entry);
    if '=' in entry {
      var (k, v) := SplitOnce(entry, '=').value;
      TrimAround(k, '=', v);
      TrimStartShape(k);
      SplitOnceAt(TrimStart(k), TrimEnd(v), '=');
      TrimHalves(k);
      TrimHalves(v);
    }
  }

  lemma {:induction false} NonBlankReads(entries: seq<string>, key: string)
    requires Without(entries, ',')
    ensures Reading(NonBlank(entries), key) == Reading(entries, key) && Without(NonBlank(entries), ',')
  {
    hide Setting, Trim;
    if entries != [] {
      var last := |entries| - 1;
      NonBlankReads(entries[..last], key);
      SettingOfTrimmed(entries[last]);
      BlankSetsNothing();
      var before := NonBlank(entries[..last]);
      assert (before + [Trim(entries[last])])[..|before|] == before;
    }
  }

  lemma BlankSetsNothing()
    ensures Setting("").None?
  {
  }

  lemma ReadingSnoc(entries: seq<string>, pair: (string, string), key: string)
    requires CleanPair(pair) && Without(entries, ',')
    ensures Reading(entries + [Entry(pair)], key) == if pair.0 == key then Some(pair.1) else Reading(entries, key)
    ensures Without(entries + [Entry(pair)], ',')
  {
    hide CleanPair, Entry, Setting;
    CleanPairSets(pair);
    assert (entries + [Entry(pair)])[..|entries|] == entries;
  }

  predicate InOrder(knobs: seq<Knob>, knob: Knob) {
    knobs != [] && (knobs[|knobs| - 1] == knob || InOrder(knobs[..|knobs| - 1], knob))
  }

  lemma AllInOrder(knob: Knob)
    ensures InOrder(KNOBS, knob) && InOrder(NUMERIC_ORDER, knob)
  {
    assert KNOBS[..3] == [Analysis, SearchThreads, Servers] && NUMERIC_ORDER[..3] == [Analysis, SearchThreads, Batch];
    assert [Analysis, SearchThreads, Servers][..2] == [Analysis, SearchThreads];
    assert [Analysis, SearchThreads, Batch][..2] == [Analysis, SearchThreads];
    assert [Analysis, SearchThreads][..1] == [Analysis];
  }

  /** The number a field contributes for a key. */
  function FieldReading(cfg: EngineConfig, key: string): Option<string> {
    var knob := KnobOf(key);
    if knob.Some? && FieldValue(cfg, knob.value) > 0 then Some(Decimal(FieldValue(cfg, knob.value))) else None
  }

  lemma {:induction false} NumericReads(cfg: EngineConfig, knobs: seq<Knob>, key: string)
    ensures Without(NumericEntries(cfg, knobs), ',')
    ensures Reading(NumericEntries(cfg, knobs), key) ==
      if KnobOf(key).Some? && InOrder(knobs, KnobOf(key).value) then FieldReading(cfg, key) else None
  {
    hide KnobOf, KeyOf, Decimal, Setting, Entry, CleanPair;
    if knobs != [] {
      var last := knobs[|knobs| - 1];
      NumericReads(cfg, knobs[..|knobs| - 1], key);
      KnobOfKey(last);
      KeyOfKnob(key);
      if FieldValue(cfg, last) > 0 {
        NumericPairIsClean(last, FieldValue(cfg, last));
        ReadingSnoc(NumericEntries(cfg, knobs[..|knobs| - 1]), (KeyOf(last), Decimal(FieldValue(cfg, last))), key);
      }
    }
  }

  function Fp16Reading(cfg: EngineConfig, key: string): Option<string> {
    if UsesFp16(cfg) && key == FP16 then Some("true") else None
  }

  lemma Fp16Reads(cfg: EngineConfig, key: string)
    ensures Reading(Fp16Entries(cfg), key) == Fp16Reading(cfg, key) && Without(Fp16Entries(cfg), ',')
  {
    if UsesFp16(cfg) {
      Fp16PairIsClean();
      ReadingSnoc([], (FP16, "true"), key);
      assert [] + [Entry((FP16, "true"))] == [Entry((FP16, "true"))];
    }
  }

  lemma {:induction false} WithoutConcat(a: seq<string>, b: seq<string>)
    requires Without(a, ',') && Without(b, ',')
    ensures Without(a + b, ',')
  {
    if b == [] {
      assert a + b == a;
    } else {
      assert (a + b)[..|a + b| - 1] == a + b[..|b| - 1];
      WithoutConcat(a, b[..|b| - 1]);
    }
  }

  lemma JoinedReads(entries: seq<string>, key: string)
    requires Without(entries, ',')
    ensures Reading(Split(Join(entries, ','), ','), key) == Reading(entries, key)
    ensures Reading(Split("", ','), key) == None
  {
    assert [""][..0] == [];
    BlankSetsNothing();
    if entries != [] {
      SplitJoin(entries, ',');
    }
  }

  function First(a: Option<string>, b: Option<string>): Option<string> {
    if a.Some? then a else b
  }

  lemma EntriesRead(cfg: EngineConfig, key: string)
    ensures Without(OverrideEntries(cfg), ',')
    ensures Reading(OverrideEntries(cfg), key) ==
      First(Get(Parse(cfg.overrideConfig), key), First(Fp16Reading(cfg, key), FieldReading(cfg, key)))
  {
    hide Reading, Without, Get, Parse, NonBlank, NumericEntries, Fp16Entries, FieldReading, Fp16Reading;
    var numeric, fp16 := NumericEntries(cfg, NUMERIC_ORDER), Fp16Entries(cfg);
    var given := Split(cfg.overrideConfig, ',');
    NumericReads(cfg, NUMERIC_ORDER, key);
    if KnobOf(key).Some? {
      AllInOrder(KnobOf(key).value);
    } else {
      FieldReadingNeedsKnob(cfg, key);
    }
    Fp16Reads(cfg, key);
    SplitPieces(cfg.overrideConfig, ',');
    WithoutAll(given, ',');
    NonBlankReads(given, key);
    ParsedValueIsLast(cfg.overrideConfig, key);
    ReadingConcat(numeric, fp16, key);
    ReadingConcat(numeric + fp16, NonBlank(given), key);
    WithoutConcat(numeric, fp16);
    WithoutConcat(numeric + fp16, NonBlank(given));
  }

  lemma FieldReadingNeedsKnob(cfg: EngineConfig, key: string)
    requires KnobOf(key).None?
    ensures FieldReading(cfg, key).None?
  {
  }

  /** What the engine is launched with for a key: the override if there is one, then the precision
      flag, then the field. */
  lemma LaunchedIs(cfg: EngineConfig, key: string)
    ensures Launched(cfg, key) ==
      First(Get(Parse(cfg.overrideConfig), key), First(Fp16Reading(cfg, key), FieldReading(cfg, key)))
  {
    hide Reading, Join, OverrideEntries, Get, Parse, Fp16Reading, FieldReading;
    EntriesRead(cfg, key);
    JoinedReads(OverrideEntries(cfg), key);
  }

  // ----- pinned, tuned and trial keys

  lemma {:induction false} GetSetAll(ps: Pairs, other: Pairs, key: string)
    requires Unique(other)
    ensures Get(SetAll(ps, other), key) == First(Get(other, key), Get(ps, key))
  {
    hide Set;
    if other != [] {
      var last := |other| - 1;
      GetSetAll(ps, other[..last], key);
      GetSet(SetAll(ps, other[..last]), other[last].0, other[last].1, key);
    }
  }

  lemma {:induction false} SetAllKeepsCanonical(ps: Pairs, other: Pairs)
    requires Canonical(ps) && Clean(other)
    ensures Canonical(SetAll(ps, other))
  {
    hide Set, Canonical, CleanPair;
    if other != [] {
      var last := |other| - 1;
      SetAllKeepsCanonical(ps, other[..last]);
      SetKeepsCanonical(SetAll(ps, other[..last]), other[last].0, other[last].1);
    }
  }

  /** The value an explicit field pins its key to. */
  function ExplicitPin(cfg: EngineConfig, explicit: seq<string>, key: string): Option<string> {
    var knob := KnobOf(key);
    if knob.Some? && Explicit(explicit, knob.value) then FieldReading(cfg, key) else None
  }

  lemma {:induction false} GetFieldPins(cfg: EngineConfig, explicit: seq<string>, knobs: seq<Knob>, key: string)
    ensures Canonical(FieldPins(cfg, explicit, knobs))
    ensures Get(FieldPins(cfg, explicit, knobs), key) ==
      if KnobOf(key).Some? && InOrder(knobs, KnobOf(key).value) then ExplicitPin(cfg, explicit, key) else None
  {
    hide KnobOf, KeyOf, Decimal, Set, Explicit, CleanPair;
    if knobs != [] {
      var last := knobs[|knobs| - 1];
      var before := FieldPins(cfg, explicit, knobs[..|knobs| - 1]);
      GetFieldPins(cfg, explicit, knobs[..|knobs| - 1], key);
      KnobOfKey(last);
      KeyOfKnob(key);
      if Explicit(explicit, last) && FieldValue(cfg, last) > 0 {
        NumericPairIsClean(last, FieldValue(cfg, last));
        SetKeepsCanonical(before, KeyOf(last), Decimal(FieldValue(cfg, last)));
        GetSet(before, KeyOf(last), Decimal(FieldValue(cfg, last)), key);
      }
    }
  }

  /** A key is pinned by `override_config`, or else by an explicit field that is not 0. */
  lemma GetPins(cfg: EngineConfig, explicit: seq<string>, key: string)
    ensures Canonical(PinsOf(cfg, explicit))
    ensures Get(PinsOf(cfg, explicit), key) ==
      First(Get(Parse(cfg.overrideConfig), key), ExplicitPin(cfg, explicit, key))
  {
    hide Get, Parse, Canonical, ExplicitPin, SetAll, FieldPins, KnobOf;
    ParseIsCanonical(cfg.overrideConfig);
    CanonicalParts(Parse(cfg.overrideConfig));
    GetFieldPins(cfg, explicit, KNOBS, key);
    if KnobOf(key).Some? {
      AllInOrder(KnobOf(key).value);
    } else {
      ExplicitPinNeedsKnob(cfg, explicit, key);
    }
    GetSetAll(FieldPins(cfg, explicit, KNOBS), Parse(cfg.overrideConfig), key);
    SetAllKeepsCanonical(FieldPins(cfg, explicit, KNOBS), Parse(cfg.overrideConfig));
  }

  lemma CanonicalParts(ps: Pairs)
    requires Canonical(ps)
    ensures Unique(ps) && Clean(ps)
  {
  }

  lemma ExplicitPinNeedsKnob(cfg: EngineConfig, explicit: seq<string>, key: string)
    requires KnobOf(key).None?
    ensures ExplicitPin(cfg, explicit, key).None?
  {
  }

  /** What the candidate wants a key to be. */
  function ChoiceReading(cand: Candidate, key: string): Option<string> {
    var knob := KnobOf(key);
    if knob.Some? && Choice(cand, knob.value).Some? then Some(Decimal(Choice(cand, knob.value).value)) else None
  }

  lemma SetChoiceReads(ps: Pairs, cand: Candidate, knob: Knob, key: string)
    requires Canonical(ps)
    ensures Canonical(SetChoice(ps, cand, knob))
    ensures Get(SetChoice(ps, cand, knob), key) ==
      if key == KeyOf(knob) && Choice(cand, knob).Some? then ChoiceReading(cand, key) else Get(ps, key)
  {
    hide KnobOf, KeyOf, Decimal, Set, Canonical, CleanPair, Choice, Get;
    KnobOfKey(knob);
    if Choice(cand, knob).Some? {
      NumericPairIsClean(knob, Choice(cand, knob).value);
      SetKeepsCanonical(ps, KeyOf(knob), Decimal(Choice(cand, knob).value));
      GetSet(ps, KeyOf(knob), Decimal(Choice(cand, knob).value), key);
    }
  }

  lemma {:induction false} RetainKeepsClean(ps: Pairs, keep: string -> bool)
    requires Clean(ps)
    ensures Clean(Retained(ps, keep))
  {
    hide CleanPair;
    if ps != [] {
      var last := |ps| - 1;
      RetainKeepsClean(ps[..last], keep);
      var rest := Retained(ps[..last], keep);
      assert (rest + [ps[last]])[..|rest|] == rest;
    }
  }

  lemma NothingIsCanonical(key: string)
    ensures Canonical([]) && Get([], key).None?
  {
  }

  lemma ChosenReads(ps: Pairs, cand: Candidate, key: string)
    requires Canonical(ps)
    ensures Canonical(Chosen(ps, cand))
    ensures Get(Chosen(ps, cand), key) ==
      if IsChosen(cand, Analysis, key) || IsChosen(cand, Servers, key) || IsChosen(cand, Batch, key)
      then ChoiceReading(cand, key) else Get(ps, key)
  {
    hide Get, Canonical, SetChoice, KeyOf, Choice, ChoiceReading;
    SetChoiceReads(ps, cand, Analysis, key);
    var k1 := SetChoice(ps, cand, Analysis);
    SetChoiceReads(k1, cand, Servers, key);
    var k2 := SetChoice(k1, cand, Servers);
    SetChoiceReads(k2, cand, Batch, key);
  }

  predicate IsChosen(cand: Candidate, knob: Knob, key: string) {
    key == KeyOf(knob) && Choice(cand, knob).Some?
  }

  lemma FirstChoiceReads(pinned: Pairs, cand: Candidate, key: string)
    ensures Canonical(FirstChoice(pinned, cand))
    ensures Get(pinned, key).None? ==>
      Get(FirstChoice(pinned, cand), key) == if key == SEARCH_THREADS then ChoiceReading(cand, key) else None
  {
    hide Get, Canonical, SetChoice, ChoiceReading, KnobOf, Decimal;
    NothingIsCanonical(key);
    SetChoiceReads([], cand, SearchThreads, key);
  }

  /** The tuner sets exactly the keys its candidate has a value for, less the pinned ones. */
  lemma GetTunedKeys(pinned: Pairs, cand: Candidate, key: string)
    ensures Canonical(TunedKeysOf(pinned, cand))
    ensures Get(TunedKeysOf(pinned, cand), key) ==
      if Get(pinned, key).Some? then None else ChoiceReading(cand, key)
  {
    hide Get, Canonical, Chosen, FirstChoice, KeyOf, Choice, ChoiceReading, Retained;
    FirstChoiceReads(pinned, cand, key);
    var chosen := Chosen(FirstChoice(pinned, cand), cand);
    ChosenReads(FirstChoice(pinned, cand), cand, key);
    var keep := (k: string) => Get(pinned, k).None?;
    RetainKeepsCanonical(chosen, keep);
    GetRetained(chosen, keep, key);
    assert TunedKeysOf(pinned, cand) == Retained(chosen, keep);
    ChoicesCover(cand, key);
  }

  lemma RetainKeepsCanonical(ps: Pairs, keep: string -> bool)
    requires Canonical(ps)
    ensures Canonical(Retained(ps, keep))
  {
    hide Retained;
    RetainKeepsUnique(ps, keep);
    RetainKeepsClean(ps, keep);
  }

  /** Every key a candidate has a value for is one of the four. */
  lemma ChoicesCover(cand: Candidate, key: string)
    ensures ChoiceReading(cand, key).Some? ==>
      || IsChosen(cand, Analysis, key) || IsChosen(cand, Servers, key) || IsChosen(cand, Batch, key)
      || key == SEARCH_THREADS
  {
    KeyOfKnob(key);
  }

  /** A trial runs with the pinned keys as they are, and the candidate's values for the others. */
  lemma GetTrialOverrides(pinned: Pairs, cand: Candidate, key: string)
    ensures Get(TrialOverridesOf(pinned, cand), key) == First(Get(pinned, key), ChoiceReading(cand, key))
  {
    hide Get, TunedKeysOf, ChoiceReading, Fill;
    GetTunedKeys(pinned, cand, key);
    GetFill(pinned, TunedKeysOf(pinned, cand), key);
  }

  lemma {:induction false} FillKeepsClean(ps: Pairs, other: Pairs)
    requires Clean(ps) && Clean(other)
    ensures Clean(Fill(ps, other))
  {
    hide CleanPair, Get;
    if other != [] {
      var last := |other| - 1;
      FillKeepsClean(ps, other[..last]);
      var filled := Fill(ps, other[..last]);
      assert (filled + [other[last]])[..|filled|] == filled;
    }
  }

  lemma TrialOverridesAreCanonical(pinned: Pairs, cand: Candidate)
    requires Canonical(pinned)
    ensures Canonical(TrialOverridesOf(pinned, cand))
  {
    hide TunedKeysOf, Fill, Unique, Clean;
    GetTunedKeys(pinned, cand, "");
    FillKeepsUnique(pinned, TunedKeysOf(pinned, cand));
    FillKeepsClean(pinned, TunedKeysOf(pinned, cand));
  }

  function Numeral(value: Option<nat>): Option<string> {
    if value.Some? then Some(Decimal(value.value)) else None
  }

  /** What the tuner sets, key by key: each of the candidate's three numbers under its own key, and one
      search thread per analysis thread, unless the key is pinned; nothing else. */
  lemma TunedKeysAre(pinned: Pairs, cand: Candidate, key: string)
    ensures var tuned := TunedKeysOf(pinned, cand);
      && Get(tuned, ANALYSIS_THREADS) ==
           (if Get(pinned, ANALYSIS_THREADS).Some? then None else Numeral(cand.analysisThreads))
      && Get(tuned, SEARCH_THREADS) == (if Get(pinned, SEARCH_THREADS).Some? then None else Some("1"))
      && Get(tuned, SERVER_THREADS) == (if Get(pinned, SERVER_THREADS).Some? then None else Numeral(cand.servers))
      && Get(tuned, BATCH_SIZE) == (if Get(pinned, BATCH_SIZE).Some? then None else Numeral(cand.batch))
      && (key !in [ANALYSIS_THREADS, SEARCH_THREADS, SERVER_THREADS, BATCH_SIZE] ==> Get(tuned, key).None?)
  {
    hide Get, TunedKeysOf, KnobOf;
    GetTunedKeys(pinned, cand, ANALYSIS_THREADS);
    GetTunedKeys(pinned, cand, SEARCH_THREADS);
    GetTunedKeys(pinned, cand, SERVER_THREADS);
    GetTunedKeys(pinned, cand, BATCH_SIZE);
    GetTunedKeys(pinned, cand, key);
    KnobOfKey(Analysis);
    KnobOfKey(SearchThreads);
    KnobOfKey(Servers);
    KnobOfKey(Batch);
    KeyOfKnob(key);
    assert Decimal(1) == "1";
  }

  function Positive(value: nat): Option<string> {
    if value > 0 then Some(Decimal(value)) else None
  }

  /** Without an override each of the four fields is launched under its own key, and 0 is not. */
  lemma FieldsAreLaunched(cfg: EngineConfig)
    requires Parse(cfg.overrideConfig) == []
    ensures Launched(cfg, ANALYSIS_THREADS) == Positive(cfg.analysisThreads)
    ensures Launched(cfg, SEARCH_THREADS) == Positive(cfg.searchThreadsPerAnalysis)
    ensures Launched(cfg, SERVER_THREADS) == Positive(cfg.nnServerThreads)
    ensures Launched(cfg, BATCH_SIZE) == Positive(cfg.nnMaxBatchSize)
    ensures Launched(cfg, FP16) == if cfg.fp16 && !cfg.backend.Upstream? then Some("true") else None
  {
    hide Launched, Parse, KnobOf, Decimal;
    KnobOfKey(Analysis);
    KnobOfKey(SearchThreads);
    KnobOfKey(Servers);
    KnobOfKey(Batch);
    KeyOfKnob(FP16);
    LaunchedIs(cfg, ANALYSIS_THREADS);
    LaunchedIs(cfg, SEARCH_THREADS);
    LaunchedIs(cfg, SERVER_THREADS);
    LaunchedIs(cfg, BATCH_SIZE);
    LaunchedIs(cfg, FP16);
  }

  /** A trial changes the configuration in these ways only: it runs at the tuning visits, never more than
      production's and production's where none are set, without the human model, with the four fields at 0
      and exactly its own overrides. */
  lemma TrialLeavesTheRest(cfg: EngineConfig, over: Pairs)
    ensures var trial := LaunchCfg(cfg, over);
      && trial.fp16 == cfg.fp16 && trial.backend == cfg.backend && trial.topK == cfg.topK
      && trial.autotuneVisits == cfg.autotuneVisits && trial.screenVisits == cfg.screenVisits
      && trial.refineWinrateDelta == cfg.refineWinrateDelta && trial.refineScoreDelta == cfg.refineScoreDelta
      && trial.humanModel == "" && trial.overrideConfig == Display(over)
      && trial.analysisThreads == trial.searchThreadsPerAnalysis == 0
      && trial.nnServerThreads == trial.nnMaxBatchSize == 0
      && (cfg.autotuneVisits == 0 || cfg.maxVisits <= cfg.autotuneVisits ==> trial.maxVisits == cfg.maxVisits)
      && (0 < cfg.autotuneVisits < cfg.maxVisits ==> trial.maxVisits == cfg.autotuneVisits)
  {
    hide Display;
  }

  /** Everything but the four tuning fields and the override text is the same. */
  predicate SameButTuning(a: EngineConfig, b: EngineConfig) {
    && a.fp16 == b.fp16 && a.backend == b.backend && a.maxVisits == b.maxVisits
    && a.autotuneVisits == b.autotuneVisits && a.humanModel == b.humanModel && a.topK == b.topK
    && a.screenVisits == b.screenVisits
    && a.refineWinrateDelta == b.refineWinrateDelta && a.refineScoreDelta == b.refineScoreDelta
  }

  lemma {:induction false} ZeroedLeavesTheRest(cfg: EngineConfig, explicit: seq<string>, given: Pairs, knobs: seq<Knob>)
    ensures SameButTuning(Zeroed(cfg, explicit, given, knobs), cfg)
  {
    hide Get, KeyOf, Explicit;
    if knobs != [] {
      ZeroedLeavesTheRest(cfg, explicit, given, knobs[..|knobs| - 1]);
    }
  }

  lemma {:induction false} AppliedLeavesTheRest(cfg: EngineConfig, extra: Pairs, tuned: Pairs)
    ensures SameButTuning(Applied(cfg, extra, tuned).0, cfg)
  {
    hide Routed, Set, KnobOf, ParseU32;
    if tuned != [] {
      AppliedLeavesTheRest(cfg, extra, tuned[..|tuned| - 1]);
    }
  }

  /** Tuning leaves everything but the four fields and the overrides as it was configured. */
  lemma TunedLeavesTheRest(cfg: EngineConfig, explicit: seq<string>, tuned: Pairs)
    ensures SameButTuning(WithTunedOf(cfg, explicit, tuned), cfg)
  {
    hide Parse, Display, Zeroed, Applied;
    var given := Parse(cfg.overrideConfig);
    ZeroedLeavesTheRest(cfg, explicit, given, KNOBS);
    AppliedLeavesTheRest(Zeroed(cfg, explicit, given, KNOBS), given, tuned);
  }

  // ----- with_tuned

  lemma FieldAfter(cfg: EngineConfig, knob: Knob, value: nat, other: Knob)
    ensures FieldValue(WithField(cfg, knob, value), other) == if knob == other then value else FieldValue(cfg, other)
    ensures UsesFp16(WithField(cfg, knob, value)) == UsesFp16(cfg)
  {
  }

  lemma {:induction false} ZeroedReads(
    cfg: EngineConfig, explicit: seq<string>, given: Pairs, knobs: seq<Knob>, knob: Knob)
    ensures FieldValue(Zeroed(cfg, explicit, given, knobs), knob) ==
      if InOrder(knobs, knob) && !Explicit(explicit, knob) && Get(given, KeyOf(knob)).Some? then 0
      else FieldValue(cfg, knob)
    ensures UsesFp16(Zeroed(cfg, explicit, given, knobs)) == UsesFp16(cfg)
  {
    hide FieldValue, WithField, Get, KeyOf, Explicit, UsesFp16;
    if knobs != [] {
      ZeroedReads(cfg, explicit, given, knobs[..|knobs| - 1], knob);
      FieldAfter(Zeroed(cfg, explicit, given, knobs[..|knobs| - 1]), knobs[|knobs| - 1], 0, knob);
    }
  }

  /** What applying the tuned pairs leaves in a field and in the overrides. */
  lemma {:induction false} AppliedReads(cfg: EngineConfig, extra: Pairs, tuned: Pairs, knob: Knob)
    requires Unique(tuned)
    ensures var (done, rest) := Applied(cfg, extra, tuned);
      var value := Get(tuned, KeyOf(knob));
      && FieldValue(done, knob) ==
           (if value.Some? && ParseU32(value.value).Some? then ParseU32(value.value).value else FieldValue(cfg, knob))
      && UsesFp16(done) == UsesFp16(cfg)
  {
    hide FieldValue, WithField, KeyOf, UsesFp16, ParseU32, Set, KnobOf;
    if tuned != [] {
      var last := |tuned| - 1;
      AppliedReads(cfg, extra, tuned[..last], knob);
      KnobOfKey(knob);
      KeyOfKnob(tuned[last].0);
      if Routed(tuned[last].0, tuned[last].1) {
        FieldAfter(Applied(cfg, extra, tuned[..last]).0,
          KnobOf(tuned[last].0).value, ParseU32(tuned[last].1).value, knob);
      }
    }
  }

  /** Pairs that all go into fields. */
  predicate AllRouted(tuned: Pairs) {
    tuned == [] || (Routed(tuned[|tuned| - 1].0, tuned[|tuned| - 1].1) && AllRouted(tuned[..|tuned| - 1]))
  }

  lemma {:induction false} RoutedLeavesExtra(cfg: EngineConfig, extra: Pairs, tuned: Pairs)
    requires AllRouted(tuned)
    ensures Applied(cfg, extra, tuned).1 == extra
  {
    hide Routed, Set, WithField;
    if tuned != [] {
      RoutedLeavesExtra(cfg, extra, tuned[..|tuned| - 1]);
    }
  }

  predicate KeyRouted(ps: Pairs, key: string) {
    Get(ps, key).Some? ==> Routed(key, Get(ps, key).value)
  }

  lemma {:induction false} AllRoutedFromReads(ps: Pairs)
    requires Unique(ps) && forall key :: KeyRouted(ps, key)
    ensures AllRouted(ps)
  {
    hide Routed;
    if ps != [] {
      var last := |ps| - 1;
      assert KeyRouted(ps, ps[last].0);
      forall key ensures KeyRouted(ps[..last], key) {
        assert KeyRouted(ps, key);
      }
      AllRoutedFromReads(ps[..last]);
    }
  }

  // ----- what was measured is what launches

  function Tuned(cfg: EngineConfig, explicit: seq<string>, cand: Candidate): Pairs {
    TunedKeysOf(PinsOf(cfg, explicit), cand)
  }

  /** The configuration production starts with once `cand` has won. */
  function Production(cfg: EngineConfig, explicit: seq<string>, cand: Candidate): EngineConfig {
    WithTunedOf(cfg, explicit, Tuned(cfg, explicit, cand))
  }

  /** The configuration a trial of `cand` was measured with. */
  function TrialConfig(cfg: EngineConfig, explicit: seq<string>, cand: Candidate): EngineConfig {
    LaunchCfg(cfg, TrialOverridesOf(PinsOf(cfg, explicit), cand))
  }

  function Given(cfg: EngineConfig, key: string): Option<string> {
    Get(Parse(cfg.overrideConfig), key)
  }

  lemma TrialLaunches(cfg: EngineConfig, explicit: seq<string>, cand: Candidate, key: string)
    ensures Launched(TrialConfig(cfg, explicit, cand), key) ==
      First(Given(cfg, key), First(ExplicitPin(cfg, explicit, key),
        First(ChoiceReading(cand, key), Fp16Reading(cfg, key))))
  {
    hide Get, Parse, Display, PinsOf, TrialOverridesOf, Canonical, ExplicitPin, ChoiceReading, Launched, TrialVisits;
    var over := TrialOverridesOf(PinsOf(cfg, explicit), cand);
    GetPins(cfg, explicit, key);
    GetTrialOverrides(PinsOf(cfg, explicit), cand, key);
    TrialOverridesAreCanonical(PinsOf(cfg, explicit), cand);
    CanonicalRoundTrip(over);
    LaunchedIs(TrialConfig(cfg, explicit, cand), key);
  }

  lemma ChoiceFits(cand: Candidate, knob: Knob)
    requires FitsU32(cand) && Choice(cand, knob).Some?
    ensures ParseU32(Decimal(Choice(cand, knob).value)) == Choice(cand, knob)
    ensures ChoiceReading(cand, KeyOf(knob)) == Some(Decimal(Choice(cand, knob).value))
  {
    KnobOfKey(knob);
    DecimalRoundTrip(Choice(cand, knob).value);
  }

  lemma NoChoice(cand: Candidate, knob: Knob)
    requires Choice(cand, knob).None?
    ensures ChoiceReading(cand, KeyOf(knob)).None?
  {
    KnobOfKey(knob);
  }

  lemma TunedIsRouted(cfg: EngineConfig, explicit: seq<string>, cand: Candidate)
    requires FitsU32(cand)
    ensures Unique(Tuned(cfg, explicit, cand)) && AllRouted(Tuned(cfg, explicit, cand))
  {
    hide Get, Unique, Clean, TunedKeysOf, PinsOf, FitsU32, KeyOf, KnobOf, Choice, ParseU32, Decimal;
    var tuned := Tuned(cfg, explicit, cand);
    forall key ensures KeyRouted(tuned, key) {
      GetTunedKeys(PinsOf(cfg, explicit), cand, key);
      KeyOfKnob(key);
      if Get(tuned, key).Some? {
        ChoiceFits(cand, KnobOf(key).value);
      }
    }
    GetTunedKeys(PinsOf(cfg, explicit), cand, "");
    AllRoutedFromReads(tuned);
  }

  /** A field after tuning: the candidate's value unless the key is pinned; then 0 if only
      `override_config` pins it, else the field as given. */
  lemma ProductionField(cfg: EngineConfig, explicit: seq<string>, cand: Candidate, knob: Knob)
    requires FitsU32(cand)
    ensures FieldValue(Production(cfg, explicit, cand), knob) ==
      if First(Given(cfg, KeyOf(knob)), ExplicitPin(cfg, explicit, KeyOf(knob))).None? && Choice(cand, knob).Some?
      then Choice(cand, knob).value
      else if !Explicit(explicit, knob) && Given(cfg, KeyOf(knob)).Some? then 0
      else FieldValue(cfg, knob)
    ensures UsesFp16(Production(cfg, explicit, cand)) == UsesFp16(cfg)
  {
    hide Get, Unique, AllRouted, TunedKeysOf, PinsOf, FitsU32, KeyOf, Choice, ParseU32, Decimal, Zeroed, Applied, Parse,
      ExplicitPin, Explicit, Display, Canonical, ChoiceReading;
    var tuned, given := Tuned(cfg, explicit, cand), Parse(cfg.overrideConfig);
    TunedIsRouted(cfg, explicit, cand);
    GetPins(cfg, explicit, KeyOf(knob));
    GetTunedKeys(PinsOf(cfg, explicit), cand, KeyOf(knob));
    AllInOrder(knob);
    ZeroedReads(cfg, explicit, given, KNOBS, knob);
    AppliedReads(Zeroed(cfg, explicit, given, KNOBS), given, tuned, knob);
    FieldOfDisplay(Applied(Zeroed(cfg, explicit, given, KNOBS), given, tuned).0,
      Display(Applied(Zeroed(cfg, explicit, given, KNOBS), given, tuned).1), knob);
    if Choice(cand, knob).Some? {
      ChoiceFits(cand, knob);
    } else {
      NoChoice(cand, knob);
    }
  }

  lemma FieldOfDisplay(cfg: EngineConfig, text: string, knob: Knob)
    ensures FieldValue(cfg.(overrideConfig := text), knob) == FieldValue(cfg, knob)
  {
  }

  lemma ProductionOverrides(cfg: EngineConfig, explicit: seq<string>, cand: Candidate)
    requires FitsU32(cand)
    ensures Parse(Production(cfg, explicit, cand).overrideConfig) == Parse(cfg.overrideConfig)
  {
    hide Get, Unique, AllRouted, TunedKeysOf, PinsOf, FitsU32, Zeroed, Applied, Parse, Display;
    var tuned, given := Tuned(cfg, explicit, cand), Parse(cfg.overrideConfig);
    TunedIsRouted(cfg, explicit, cand);
    RoutedLeavesExtra(Zeroed(cfg, explicit, given, KNOBS), given, tuned);
    ParseDisplayParse(cfg.overrideConfig);
  }

  lemma ProductionLaunches(cfg: EngineConfig, explicit: seq<string>, cand: Candidate, key: string)
    requires FitsU32(cand)
    ensures Launched(Production(cfg, explicit, cand), key) ==
      First(Given(cfg, key), First(Fp16Reading(cfg, key), FieldReading(Production(cfg, explicit, cand), key)))
  {
    hide Get, Parse, Production, Launched, FieldReading, UsesFp16, FitsU32;
    ProductionField(cfg, explicit, cand, Analysis);
    ProductionOverrides(cfg, explicit, cand);
    LaunchedIs(Production(cfg, explicit, cand), key);
  }

  /** A knob whose measured setting survives: an override pins it, an explicit field pins it, or the
      tuner sets it; or nothing sets it and its field is 0. */
  predicate Covered(cfg: EngineConfig, explicit: seq<string>, cand: Candidate, knob: Knob) {
    || Given(cfg, KeyOf(knob)).Some?
    || (Explicit(explicit, knob) && FieldValue(cfg, knob) > 0)
    || (if Choice(cand, knob).Some? then Choice(cand, knob).value > 0 else FieldValue(cfg, knob) == 0)
  }

  predicate Agree(cfg: EngineConfig, explicit: seq<string>, cand: Candidate, key: string) {
    Launched(Production(cfg, explicit, cand), key) == Launched(TrialConfig(cfg, explicit, cand), key)
  }

  lemma KnobAgrees(cfg: EngineConfig, explicit: seq<string>, cand: Candidate, knob: Knob)
    requires FitsU32(cand)
    ensures Agree(cfg, explicit, cand, KeyOf(knob)) <==> Covered(cfg, explicit, cand, knob)
  {
    hide Given, Production, TrialConfig, KeyOf, KnobOf, Choice, Explicit, Decimal, FieldValue, FitsU32, Launched;
    KnobOfKey(knob);
    ProductionLaunches(cfg, explicit, cand, KeyOf(knob));
    TrialLaunches(cfg, explicit, cand, KeyOf(knob));
    ProductionField(cfg, explicit, cand, knob);
  }

  lemma OtherKeysAgree(cfg: EngineConfig, explicit: seq<string>, cand: Candidate, key: string)
    requires FitsU32(cand) && KnobOf(key).None?
    ensures Agree(cfg, explicit, cand, key)
  {
    hide Given, Production, TrialConfig, KnobOf, Launched, FitsU32;
    ProductionLaunches(cfg, explicit, cand, key);
    TrialLaunches(cfg, explicit, cand, key);
  }

  /** Production launches with exactly what the winner's trial was measured with, for every key,
      if and only if every tuning field is covered. */
  lemma MeasuredIsLaunched(cfg: EngineConfig, explicit: seq<string>, cand: Candidate)
    requires FitsU32(cand)
    ensures (forall key :: Agree(cfg, explicit, cand, key)) <==> (forall knob :: Covered(cfg, explicit, cand, knob))
  {
    hide Agree, Covered, FitsU32, KnobOf, KeyOf;
    forall knob ensures Agree(cfg, explicit, cand, KeyOf(knob)) <==> Covered(cfg, explicit, cand, knob) {
      KnobAgrees(cfg, explicit, cand, knob);
    }
    forall key ensures (forall knob :: Covered(cfg, explicit, cand, knob)) ==> Agree(cfg, explicit, cand, key) {
      KeyOfKnob(key);
      if KnobOf(key).None? {
        OtherKeysAgree(cfg, explicit, cand, key);
      }
    }
    if forall key :: Agree(cfg, explicit, cand, key) {
      forall knob ensures Covered(cfg, explicit, cand, knob) {
        assert Agree(cfg, explicit, cand, KeyOf(knob));
      }
    }
  }

  /** Without any condition: a pinned key has its pinned value in every trial and in production. */
  lemma PinnedIsKept(cfg: EngineConfig, explicit: seq<string>, cand: Candidate, key: string)
    requires FitsU32(cand) && Get(PinsOf(cfg, explicit), key).Some?
    ensures Launched(TrialConfig(cfg, explicit, cand), key) == Get(PinsOf(cfg, explicit), key)
    ensures Launched(Production(cfg, explicit, cand), key) == Get(PinsOf(cfg, explicit), key)
  {
    hide Get, Parse, PinsOf, Production, TrialConfig, KnobOf, KeyOf, Choice, Explicit, Decimal, FieldValue;
    hide Launched, FitsU32;
    GetPins(cfg, explicit, key);
    TrialLaunches(cfg, explicit, cand, key);
    ProductionLaunches(cfg, explicit, cand, key);
    KeyOfKnob(key);
    if KnobOf(key).Some? {
      KnobOfKey(KnobOf(key).value);
      ProductionField(cfg, explicit, cand, KnobOf(key).value);
    }
  }

  /** A cached result is its text: parsing it back applies exactly what the tuning run applied. */
  lemma CachedIsApplied(cfg: EngineConfig, explicit: seq<string>, cand: Candidate)
    ensures Parse(Display(Tuned(cfg, explicit, cand))) == Tuned(cfg, explicit, cand)
    ensures WithTunedOf(cfg, explicit, Parse(Display(Tuned(cfg, explicit, cand)))) == Production(cfg, explicit, cand)
  {
    hide Parse, Display, PinsOf, TunedKeysOf, Get, WithTunedOf;
    GetTunedKeys(PinsOf(cfg, explicit), cand, "");
    CanonicalRoundTrip(Tuned(cfg, explicit, cand));
  }

  // ----- candidates of the two searches

  /** The NN fields hold their default unless given explicitly. */
  predicate NnDefaults(cfg: EngineConfig, explicit: seq<string>) {
    && (Explicit(explicit, Servers) || cfg.nnServerThreads == 0)
    && (Explicit(explicit, Batch) || cfg.nnMaxBatchSize == 0)
  }

  /** A candidate that sets analysis threads exactly when they are free, and nothing to 0. */
  predicate FromSpace(pinned: Pairs, cand: Candidate) {
    && FitsU32(cand)
    && (cand.analysisThreads.None? ==> Get(pinned, ANALYSIS_THREADS).Some?)
    && (cand.analysisThreads.Some? ==> cand.analysisThreads.value > 0)
    && (cand.servers.Some? ==> cand.servers.value > 0)
    && (cand.batch.Some? ==> cand.batch.value > 0)
  }

  lemma SpaceCandidateIsLaunched(cfg: EngineConfig, explicit: seq<string>, cand: Candidate)
    requires NnDefaults(cfg, explicit) && FromSpace(PinsOf(cfg, explicit), cand)
    ensures forall key :: Agree(cfg, explicit, cand, key)
  {
    hide Agree, PinsOf, Get, Parse, Explicit, KnobOf;
    GetPins(cfg, explicit, ANALYSIS_THREADS);
    KnobOfKey(Analysis);
    assert KeyOf(Analysis) == ANALYSIS_THREADS;
    forall knob ensures Covered(cfg, explicit, cand, knob) {
      match knob
      case _ =>
    }
    MeasuredIsLaunched(cfg, explicit, cand);
  }

  function PinOf(pinned: Pairs, key: string): FastSearch.Pin {
    var value := Get(pinned, key);
    if value.None? then FastSearch.Free
    else
      var number := ParseU32(value.value);
      if number.Some? then FastSearch.Number(number.value) else FastSearch.Garbage
  }

  /** The fast search's space under these pins. */
  function FastSpace(pinned: Pairs, depth: nat, backend: Backend, lanes: Option<nat>): FastSearch.Space {
    FastSearch.NewSpace(
      PinOf(pinned, ANALYSIS_THREADS), PinOf(pinned, SERVER_THREADS), PinOf(pinned, BATCH_SIZE), depth, backend, lanes)
  }

  lemma FastFromSpace(pinned: Pairs, depth: nat, backend: Backend, lanes: Option<nat>, idx: nat)
    requires idx < |FastSpace(pinned, depth, backend, lanes).ladder|
    ensures FromSpace(pinned, FastSearch.CandidateAt(FastSpace(pinned, depth, backend, lanes), idx))
  {
    hide Get, FastSearch.InFlight, ParseU32;
    FastSearch.RungsAreUsable(PinOf(pinned, SERVER_THREADS), PinOf(pinned, BATCH_SIZE), depth, lanes, idx);
  }

  /** Both searches leave a pinned key alone and vary only what is free: the candidate of any rung of the
      fast search, and any candidate of the thorough one. */
  lemma SpacesRespectPins(
    pinned: Pairs, depth: nat, backend: Backend, lanes: Option<nat>, idx: nat, threads: Option<nat>,
    pair: ThoroughSearch.Pair)
    ensures var space := FastSpace(pinned, depth, backend, lanes);
      idx < |space.ladder| ==>
        var (servers, batch) := space.ladder[idx];
        && space.analysisThreads.None? == Get(pinned, ANALYSIS_THREADS).Some?
        && (Get(pinned, SERVER_THREADS).Some? ==> servers.None?)
        && (Get(pinned, BATCH_SIZE).Some? ==> batch.None?)
        && (Get(pinned, SERVER_THREADS).None? && Get(pinned, BATCH_SIZE).None? ==> servers.Some? && batch.Some?)
        && (Get(pinned, SERVER_THREADS).Some? && Get(pinned, BATCH_SIZE).None? ==>
              var n := ParseU32(Get(pinned, SERVER_THREADS).value);
              batch.Some? <==> n.Some? && n.value > 0)
        && (Get(pinned, BATCH_SIZE).Some? && Get(pinned, SERVER_THREADS).None? ==>
              var n := ParseU32(Get(pinned, BATCH_SIZE).value);
              servers.Some? <==> n.Some? && n.value > 0)
    ensures InThoroughSpace(pinned, depth, backend, threads, pair) ==>
      && threads.None? == Get(pinned, ANALYSIS_THREADS).Some?
      && pair.0.None? == Get(pinned, SERVER_THREADS).Some?
      && pair.1.None? == Get(pinned, BATCH_SIZE).Some?
  {
    hide Get, ParseU32, FastSearch.InFlight, FastSearch.LadderFor, FastSearch.LastAtMost,
      ThoroughSearch.Deduped, ThoroughSearch.Unpinned;
    var threadsPin, serversPin, batchPin :=
      PinOf(pinned, ANALYSIS_THREADS), PinOf(pinned, SERVER_THREADS), PinOf(pinned, BATCH_SIZE);
    if idx < |FastSpace(pinned, depth, backend, lanes).ladder| {
      FastSearch.RungMeans(threadsPin, serversPin, batchPin, depth, backend, lanes, idx);
    }
    ThoroughSearch.SpaceIsSane(Get(pinned, ANALYSIS_THREADS).Some?, Get(pinned, SERVER_THREADS).Some?,
      Get(pinned, BATCH_SIZE).Some?, depth, backend);
  }

  /** Whichever rung the fast search picks, production launches with what was measured. */
  lemma FastWinnerIsLaunched(
    cfg: EngineConfig, explicit: seq<string>, depth: nat, backend: Backend, lanes: Option<nat>, idx: nat)
    requires NnDefaults(cfg, explicit)
    requires idx < |FastSpace(PinsOf(cfg, explicit), depth, backend, lanes).ladder|
    ensures var cand := FastSearch.CandidateAt(FastSpace(PinsOf(cfg, explicit), depth, backend, lanes), idx);
      forall key :: Agree(cfg, explicit, cand, key)
  {
    hide PinsOf, FromSpace, FastSpace, Agree, NnDefaults;
    var pinned := PinsOf(cfg, explicit);
    FastFromSpace(pinned, depth, backend, lanes, idx);
    SpaceCandidateIsLaunched(cfg, explicit, FastSearch.CandidateAt(FastSpace(pinned, depth, backend, lanes), idx));
  }

  /** A candidate of the thorough search's space under these pins. */
  predicate InThoroughSpace(
    pinned: Pairs, depth: nat, backend: Backend, threads: Option<nat>, pair: ThoroughSearch.Pair)
  {
    && threads in ThoroughSearch.AnalysisThreads(Get(pinned, ANALYSIS_THREADS).Some?, depth)
    && pair in ThoroughSearch.Deduped(ThoroughSearch.Unpinned(
          ThoroughSearch.Pairs(backend), Get(pinned, SERVER_THREADS).Some?, Get(pinned, BATCH_SIZE).Some?))
  }

  lemma ThoroughFromSpace(
    pinned: Pairs, depth: nat, backend: Backend, threads: Option<nat>, pair: ThoroughSearch.Pair)
    requires InThoroughSpace(pinned, depth, backend, threads, pair)
    ensures FromSpace(pinned, Candidate(threads, pair.0, pair.1))
  {
    hide Get, ThoroughSearch.Deduped, ThoroughSearch.Unpinned;
    ThoroughSearch.SpaceIsSane(Get(pinned, ANALYSIS_THREADS).Some?, Get(pinned, SERVER_THREADS).Some?,
      Get(pinned, BATCH_SIZE).Some?, depth, backend);
  }

  /** Whichever candidate the thorough search picks, production launches with what was measured. */
  lemma ThoroughWinnerIsLaunched(
    cfg: EngineConfig, explicit: seq<string>, depth: nat, backend: Backend, threads: Option<nat>,
    pair: ThoroughSearch.Pair)
    requires NnDefaults(cfg, explicit)
    requires InThoroughSpace(PinsOf(cfg, explicit), depth, backend, threads, pair)
    ensures forall key :: Agree(cfg, explicit, Candidate(threads, pair.0, pair.1), key)
  {
    hide PinsOf, FromSpace, InThoroughSpace, Agree, NnDefaults;
    ThoroughFromSpace(PinsOf(cfg, explicit), depth, backend, threads, pair);
    SpaceCandidateIsLaunched(cfg, explicit, Candidate(threads, pair.0, pair.1));
  }

  // ----- every configuration the service builds

  /** The tuning fields given in the config file or the environment. */
  datatype Settings = Settings(
    analysisThreads: Option<nat>, searchThreads: Option<nat>, nnServerThreads: Option<nat>, nnMaxBatchSize: Option<nat>)

  function ValueOf(settings: Settings, knob: Knob): Option<nat> {
    match knob
    case Analysis => settings.analysisThreads
    case SearchThreads => settings.searchThreads
    case Servers => settings.nnServerThreads
    case Batch => settings.nnMaxBatchSize
  }

  /** What a field is when it is not given; `cores` is the machine's parallelism. */
  function DefaultField(cores: nat, knob: Knob): nat {
    match knob
    case Analysis => cores
    case SearchThreads => 1
    case Servers => 0
    case Batch => 0
  }

  function Loaded(settings: Settings, cores: nat, rest: EngineConfig): EngineConfig {
    rest.(analysisThreads := GivenOr(settings.analysisThreads, DefaultField(cores, Analysis)),
          searchThreadsPerAnalysis := GivenOr(settings.searchThreads, DefaultField(cores, SearchThreads)),
          nnServerThreads := GivenOr(settings.nnServerThreads, DefaultField(cores, Servers)),
          nnMaxBatchSize := GivenOr(settings.nnMaxBatchSize, DefaultField(cores, Batch)))
  }

  function GivenOr(given: Option<nat>, default: nat): nat {
    if given.Some? then given.value else default
  }

  function ExplicitNames(settings: Settings, knobs: seq<Knob>): seq<string> {
    if knobs == [] then []
    else
      var last := |knobs| - 1;
      var before := ExplicitNames(settings, knobs[..last]);
      if ValueOf(settings, knobs[last]).Some? then before + [FieldName(knobs[last])] else before
  }

  lemma FieldNamesDiffer(a: Knob, b: Knob)
    ensures FieldName(a) == FieldName(b) <==> a == b
  {
    assert |FieldName(Analysis)| == 16 && |FieldName(SearchThreads)| == 27;
    assert |FieldName(Servers)| == 17 && |FieldName(Batch)| == 17;
    assert FieldName(Servers)[3] == 's' && FieldName(Batch)[3] == 'm';
  }

  lemma {:induction false} ExplicitIsGiven(settings: Settings, knobs: seq<Knob>, knob: Knob)
    ensures Explicit(ExplicitNames(settings, knobs), knob) <==> InOrder(knobs, knob) && ValueOf(settings, knob).Some?
  {
    hide FieldName;
    if knobs != [] {
      ExplicitIsGiven(settings, knobs[..|knobs| - 1], knob);
      FieldNamesDiffer(knobs[|knobs| - 1], knob);
    }
  }

  /** Reads the section: a field is explicit exactly when it was given, and an NN field that was not is
      left at 0. */
  method ReadSetup(settings: Settings, cores: nat, rest: EngineConfig)
    returns (cfg: EngineConfig, explicit: seq<string>)
    ensures cfg == Loaded(settings, cores, rest)
    ensures explicit == ExplicitNames(settings, KNOBS)
    ensures forall knob :: Explicit(explicit, knob) <==> ValueOf(settings, knob).Some?
    ensures "analysis_threads" in explicit <==> settings.analysisThreads.Some?
    ensures "search_threads_per_analysis" in explicit <==> settings.searchThreads.Some?
    ensures "nn_server_threads" in explicit <==> settings.nnServerThreads.Some?
    ensures "nn_max_batch_size" in explicit <==> settings.nnMaxBatchSize.Some?
    ensures cfg.analysisThreads == (if settings.analysisThreads.Some? then settings.analysisThreads.value else cores)
    ensures cfg.searchThreadsPerAnalysis == (if settings.searchThreads.Some? then settings.searchThreads.value else 1)
    ensures cfg.nnServerThreads == (if settings.nnServerThreads.Some? then settings.nnServerThreads.value else 0)
    ensures cfg.nnMaxBatchSize == (if settings.nnMaxBatchSize.Some? then settings.nnMaxBatchSize.value else 0)
    ensures SameButTuning(cfg, rest)
    ensures NnDefaults(cfg, explicit)
  {
    hide Explicit, FieldName, NnDefaults;
    cfg := Loaded(settings, cores, rest);
    explicit := [];
    for i := 0 to |KNOBS|
      invariant explicit == ExplicitNames(settings, KNOBS[..i])
    {
      assert KNOBS[..i + 1][..i] == KNOBS[..i];
      if ValueOf(settings, KNOBS[i]).Some? {
        explicit := explicit + [FieldName(KNOBS[i])];
      }
    }
    assert KNOBS[..|KNOBS|] == KNOBS;
    forall knob ensures Explicit(explicit, knob) <==> ValueOf(settings, knob).Some? {
      ExplicitIsGiven(settings, KNOBS, knob);
      AllInOrder(knob);
    }
    LoadedHasDefaults(settings, cores, rest);
    NamesAreGiven(settings, explicit);
  }

  lemma NamesAreGiven(settings: Settings, explicit: seq<string>)
    requires forall knob :: Explicit(explicit, knob) <==> ValueOf(settings, knob).Some?
    ensures "analysis_threads" in explicit <==> settings.analysisThreads.Some?
    ensures "search_threads_per_analysis" in explicit <==> settings.searchThreads.Some?
    ensures "nn_server_threads" in explicit <==> settings.nnServerThreads.Some?
    ensures "nn_max_batch_size" in explicit <==> settings.nnMaxBatchSize.Some?
  {
    assert Explicit(explicit, Analysis) == (FieldName(Analysis) in explicit);
    assert Explicit(explicit, SearchThreads) == (FieldName(SearchThreads) in explicit);
    assert Explicit(explicit, Servers) == (FieldName(Servers) in explicit);
    assert Explicit(explicit, Batch) == (FieldName(Batch) in explicit);
  }

  lemma LoadedHasDefaults(settings: Settings, cores: nat, rest: EngineConfig)
    ensures NnDefaults(Loaded(settings, cores, rest), ExplicitNames(settings, KNOBS))
  {
    hide Explicit, FieldName, ExplicitNames;
    ExplicitIsGiven(settings, KNOBS, Servers);
    ExplicitIsGiven(settings, KNOBS, Batch);
    AllInOrder(Servers);
    AllInOrder(Batch);
  }

  /** Whatever is configured, whatever the machine: a service that tunes launches, for every key,
      exactly what its winner was measured with, in either mode. */
  lemma ServiceLaunchesWhatItMeasured(
    settings: Settings, cores: nat, rest: EngineConfig, depth: nat, lanes: Option<nat>, idx: nat,
    threads: Option<nat>, pair: ThoroughSearch.Pair)
    ensures var cfg, explicit := Loaded(settings, cores, rest), ExplicitNames(settings, KNOBS);
      var space := FastSpace(PinsOf(cfg, explicit), depth, cfg.backend, lanes);
      idx < |space.ladder| ==> forall key :: Agree(cfg, explicit, FastSearch.CandidateAt(space, idx), key)
    ensures var cfg, explicit := Loaded(settings, cores, rest), ExplicitNames(settings, KNOBS);
      InThoroughSpace(PinsOf(cfg, explicit), depth, cfg.backend, threads, pair) ==>
        forall key :: Agree(cfg, explicit, Candidate(threads, pair.0, pair.1), key)
  {
    hide PinsOf, Get, Agree, NnDefaults, FastSpace, Loaded, ExplicitNames, InThoroughSpace;
    var cfg, explicit := Loaded(settings, cores, rest), ExplicitNames(settings, KNOBS);
    LoadedHasDefaults(settings, cores, rest);
    if idx < |FastSpace(PinsOf(cfg, explicit), depth, cfg.backend, lanes).ladder| {
      FastWinnerIsLaunched(cfg, explicit, depth, cfg.backend, lanes, idx);
    }
    if InThoroughSpace(PinsOf(cfg, explicit), depth, cfg.backend, threads, pair) {
      ThoroughWinnerIsLaunched(cfg, explicit, depth, cfg.backend, threads, pair);
    }
  }

  // ----- another configuration with the same pins

  lemma PinsFromText(cfg: EngineConfig, explicit: seq<string>, cfg': EngineConfig, explicit': seq<string>)
    requires Display(PinsOf(cfg, explicit)) == Display(PinsOf(cfg', explicit'))
    ensures PinsOf(cfg, explicit) == PinsOf(cfg', explicit')
  {
    hide Get, Parse, Display, Canonical, PinsOf;
    GetPins(cfg, explicit, "");
    GetPins(cfg', explicit', "");
    CanonicalRoundTrip(PinsOf(cfg, explicit));
    CanonicalRoundTrip(PinsOf(cfg', explicit'));
  }

  lemma TrialFromPins(cfg: EngineConfig, explicit: seq<string>, cand: Candidate, key: string)
    ensures Launched(TrialConfig(cfg, explicit, cand), key) ==
      First(Get(PinsOf(cfg, explicit), key), First(ChoiceReading(cand, key), Fp16Reading(cfg, key)))
  {
    hide Get, Parse, PinsOf, TrialConfig, ExplicitPin, ChoiceReading, Fp16Reading, Launched;
    TrialLaunches(cfg, explicit, cand, key);
    GetPins(cfg, explicit, key);
  }

  /** What a trial launches depends on the configuration only through its pins, precision and backend. */
  lemma SamePinsSameTrial(
    cfg: EngineConfig, explicit: seq<string>, cfg': EngineConfig, explicit': seq<string>, cand: Candidate, key: string)
    requires Display(PinsOf(cfg, explicit)) == Display(PinsOf(cfg', explicit'))
    requires cfg.fp16 == cfg'.fp16 && cfg.backend == cfg'.backend
    ensures Tuned(cfg, explicit, cand) == Tuned(cfg', explicit', cand)
    ensures Launched(TrialConfig(cfg, explicit, cand), key) == Launched(TrialConfig(cfg', explicit', cand), key)
  {
    hide Get, Display, PinsOf, TrialConfig, TunedKeysOf, ChoiceReading, Launched;
    PinsFromText(cfg, explicit, cfg', explicit');
    TrialFromPins(cfg, explicit, cand, key);
    TrialFromPins(cfg', explicit', cand, key);
  }
}
