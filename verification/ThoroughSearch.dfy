/** The thorough search: every server and batch pair, then analysis threads around the winner. Each
    stage prunes slow trials, measures near-ties again and lets prior order decide what is left. */
module ThoroughSearch {
  import opened Common
  import opened Config
  import opened Search

  const ANALYSIS_CANDIDATES: seq<nat> := [256, 128, 512]
  const ROCM_SERVER_BATCH: seq<(nat, nat)> := [(8, 64), (4, 96), (4, 64), (8, 32)]
  const WGPU_SERVER_BATCH: seq<(nat, nat)> := [(4, 64), (8, 32), (6, 48), (2, 128)]
  const PRUNE_RATIO := 0.92
  const CLOSE := 0.08
  const TIE := 0.03

  // ----- the space

  type Pair = (Option<nat>, Option<nat>)

  datatype Space = Space(analysis: seq<Option<nat>>, serverBatch: seq<Pair>)

  /** The first occurrence of every item, in order. */
  function Deduped<T(==)>(items: seq<T>): seq<T> {
    if items == [] then []
    else
      var rest, last := Deduped(items[..|items| - 1]), items[|items| - 1];
      if last in rest then rest else rest + [last]
  }

  method Dedup<T(==)>(items: seq<T>) returns (out: seq<T>)
    ensures out == Deduped(items)
  {
    out := [];
    for i := 0 to |items|
      invariant out == Deduped(items[..i])
    {
      assert items[..i + 1][..i] == items[..i];
      if items[i] !in out {
        out := out + [items[i]];
      }
    }
    assert items[..|items|] == items;
  }

  lemma {:induction false} DedupedIsASet<T>(items: seq<T>)
    ensures forall x :: x in Deduped(items) <==> x in items
    ensures forall i, j :: 0 <= i < j < |Deduped(items)| ==> Deduped(items)[i] != Deduped(items)[j]
    ensures items != [] ==> Deduped(items) != [] && Deduped(items)[0] == items[0]
  {
    if items != [] {
      var last := |items| - 1;
      DedupedIsASet(items[..last]);
      assert items == items[..last] + [items[last]];
    }
  }

  /** The thread counts worth trying: the first always, the others up to the queue's depth. */
  function AnalysisFrom(all: seq<nat>, idx: nat, depth: nat): seq<Option<nat>>
    requires idx <= |all|
    decreases |all| - idx
  {
    if idx == |all| then []
    else
      var rest := AnalysisFrom(all, idx + 1, depth);
      if idx == 0 || all[idx] <= depth then [Some(all[idx])] + rest else rest
  }

  /** What the candidates set: analysis threads unless pinned, and nothing to 0. */
  predicate Usable(space: Space, pinThreads: bool) {
    && (forall t :: t in space.analysis ==> t.None? == pinThreads && (t.Some? ==> 0 < t.value <= 512))
    && (forall pair :: pair in space.serverBatch ==>
          && (pair.0.Some? ==> 0 < pair.0.value <= 512)
          && (pair.1.Some? ==> 0 < pair.1.value <= 512))
  }

  function AnalysisThreads(pinned: bool, depth: nat): seq<Option<nat>> {
    if pinned then [None] else AnalysisFrom(ANALYSIS_CANDIDATES, 0, depth)
  }

  lemma AnalysisIs(depth: nat)
    ensures AnalysisFrom(ANALYSIS_CANDIDATES, 0, depth) ==
      [Some(256)] + (if 128 <= depth then [Some(128)] else []) + (if 512 <= depth then [Some(512)] else [])
  {
    var all := ANALYSIS_CANDIDATES;
    assert AnalysisFrom(all, 3, depth) == [];
    assert AnalysisFrom(all, 2, depth) == if 512 <= depth then [Some(512)] else [];
    assert AnalysisFrom(all, 1, depth) ==
      (if 128 <= depth then [Some(128)] else []) + (if 512 <= depth then [Some(512)] else []);
  }

  function Pairs(backend: Backend): seq<(nat, nat)> {
    if backend.Rocm? then ROCM_SERVER_BATCH else WGPU_SERVER_BATCH
  }

  /** The candidate pairs with the pinned sides taken out. */
  function Unpinned(pairs: seq<(nat, nat)>, pinServers: bool, pinBatch: bool): seq<Pair> {
    seq(|pairs|, i requires 0 <= i < |pairs| =>
      (if pinServers then None else Some(pairs[i].0), if pinBatch then None else Some(pairs[i].1)))
  }

  method NewSpace(pinThreads: bool, pinServers: bool, pinBatch: bool, depth: nat, backend: Backend)
    returns (space: Space)
    ensures space.analysis == AnalysisThreads(pinThreads, depth)
    ensures space.serverBatch == Deduped(Unpinned(Pairs(backend), pinServers, pinBatch))
  {
    var pairs := Pairs(backend);
    var all := Unpinned(pairs, pinServers, pinBatch);
    DistinctPairs(pairs, pinServers, pinBatch);
    var serverBatch: seq<Pair>;
    if pinServers && pinBatch {
      serverBatch := [(None, None)];
    } else if pinServers || pinBatch {
      serverBatch := Dedup(all);
    } else {
      serverBatch := all;
    }
    space := Space(AnalysisThreads(pinThreads, depth), serverBatch);
  }

  lemma DedupedMember<T>(items: seq<T>, x: T)
    requires x in Deduped(items)
    ensures x in items
  {
    DedupedIsASet(items);
  }

  lemma {:induction false} DedupedSame<T>(items: seq<T>)
    ensures (forall i, j :: 0 <= i < j < |items| ==> items[i] != items[j]) ==> Deduped(items) == items
    ensures items != [] && (forall i :: 0 <= i < |items| ==> items[i] == items[0]) ==> Deduped(items) == [items[0]]
  {
    if items != [] {
      var last := |items| - 1;
      DedupedSame(items[..last]);
      assert items == items[..last] + [items[last]];
      DedupedIsASet(items[..last]);
    }
  }

  lemma DistinctPairs(pairs: seq<(nat, nat)>, pinServers: bool, pinBatch: bool)
    requires pairs == ROCM_SERVER_BATCH || pairs == WGPU_SERVER_BATCH
    ensures var all := Unpinned(pairs, pinServers, pinBatch);
      && (pinServers && pinBatch ==> Deduped(all) == [(None, None)])
      && (!pinServers && !pinBatch ==> Deduped(all) == all)
  {
    hide Deduped;
    DedupedSame(Unpinned(pairs, pinServers, pinBatch));
  }

  /** Every space has its expected winner first, no candidate twice, thread counts that the queue can
      fill (but for the first), and only values that are free and not 0. */
  lemma SpaceIsSane(pinThreads: bool, pinServers: bool, pinBatch: bool, depth: nat, backend: Backend)
    ensures var analysis := AnalysisThreads(pinThreads, depth);
      var serverBatch := Deduped(Unpinned(Pairs(backend), pinServers, pinBatch));
      && analysis != [] && serverBatch != []
      && Usable(Space(analysis, serverBatch), pinThreads)
      && (pinThreads ==> analysis == [None])
      && (!pinThreads ==> analysis[0] == Some(256) && forall t :: t in analysis && t != Some(256) ==> t.value <= depth)
      && (forall i, j :: 0 <= i < j < |analysis| ==> analysis[i] != analysis[j])
      && (forall i, j :: 0 <= i < j < |serverBatch| ==> serverBatch[i] != serverBatch[j])
      && (forall pair :: pair in serverBatch ==> pair.0.None? == pinServers && pair.1.None? == pinBatch)
      && serverBatch[0] == Unpinned(Pairs(backend), pinServers, pinBatch)[0]
  {
    hide Deduped, AnalysisFrom;
    AnalysisIs(depth);
    var all := Unpinned(Pairs(backend), pinServers, pinBatch);
    DedupedIsASet(all);
    forall pair | pair in Deduped(all)
      ensures pair.0.None? == pinServers && pair.1.None? == pinBatch
      ensures (pair.0.Some? ==> 0 < pair.0.value <= 512) && (pair.1.Some? ==> 0 < pair.1.value <= 512)
    {
      DedupedMember(all, pair);
    }
  }

  predicate IsFullyPinned(space: Space) {
    |space.analysis| <= 1 && |space.serverBatch| <= 1
  }

  function First(space: Space): Candidate {
    var pair := if space.serverBatch == [] then (None, None) else space.serverBatch[0];
    Candidate(if space.analysis == [] then None else space.analysis[0], pair.0, pair.1)
  }

  // ----- scores

  type Scored = (Candidate, seq<real>)

  function Sum(samples: seq<real>): real {
    if samples == [] then 0.0 else Sum(samples[..|samples| - 1]) + samples[|samples| - 1]
  }

  function Mean(samples: seq<real>): real {
    if samples == [] then 0.0 else Sum(samples) / |samples| as real
  }

  lemma MeanTotal(samples: seq<real>)
    ensures Mean(samples) * |samples| as real == Sum(samples)
  {
    if samples != [] {
      Quotient(Sum(samples), |samples| as real);
    }
  }

  lemma Quotient(a: real, b: real)
    requires b != 0.0
    ensures a / b * b == a
  {
  }

  /** The law of the average: one more sample adds itself to the total. */
  lemma MeanMore(samples: seq<real>, rate: real)
    ensures Mean(samples + [rate]) * (|samples| + 1) as real == Mean(samples) * |samples| as real + rate
  {
    assert (samples + [rate])[..|samples|] == samples;
    MeanTotal(samples);
    MeanTotal(samples + [rate]);
  }

  lemma {:induction false} SumBetween(samples: seq<real>, low: real, high: real)
    requires forall i :: 0 <= i < |samples| ==> low <= samples[i] <= high
    ensures low * |samples| as real <= Sum(samples) <= high * |samples| as real
  {
    if samples != [] {
      SumBetween(samples[..|samples| - 1], low, high);
    }
  }

  /** A mean lies between its least and its greatest sample. */
  lemma MeanBetween(samples: seq<real>, low: real, high: real)
    requires samples != [] && forall i :: 0 <= i < |samples| ==> low <= samples[i] <= high
    ensures low <= Mean(samples) <= high
  {
    SumBetween(samples, low, high);
    MeanTotal(samples);
    Cancel(low, Mean(samples), |samples| as real);
    Cancel(Mean(samples), high, |samples| as real);
  }

  lemma Cancel(a: real, b: real, n: real)
    requires n > 0.0
    ensures a * n <= b * n <==> a <= b
  {
    if a > b {
      assert (a - b) * n > 0.0;
    } else {
      assert (b - a) * n >= 0.0;
    }
  }

  lemma {:induction false} SumWithout(samples: seq<real>, k: nat)
    requires k < |samples|
    ensures Sum(samples) == Sum(samples[..k] + samples[k + 1..]) + samples[k]
  {
    var last := |samples| - 1;
    if k == last {
      assert samples[..k] + samples[k + 1..] == samples[..last];
    } else {
      SumWithout(samples[..last], k);
      var rest := samples[..k] + samples[k + 1..];
      assert rest[..|rest| - 1] == samples[..last][..k] + samples[..last][k + 1..];
    }
  }

  lemma {:induction false} SumOfPermutation(a: seq<real>, b: seq<real>)
    requires multiset(a) == multiset(b)
    ensures Sum(a) == Sum(b) && |a| == |b|
  {
    assert |multiset(a)| == |a| && |multiset(b)| == |b|;
    if a != [] {
      var last := |a| - 1;
      assert a == a[..last] + [a[last]];
      assert a[last] in multiset(b);
      var k :| 0 <= k < |b| && b[k] == a[last];
      assert b == b[..k] + [b[k]] + b[k + 1..];
      assert multiset(a) == multiset(a[..last]) + multiset{a[last]};
      assert multiset(b) == multiset(b[..k]) + multiset{b[k]} + multiset(b[k + 1..]);
      assert multiset(b[..k] + b[k + 1..]) == multiset(b) - multiset{b[k]};
      SumOfPermutation(a[..last], b[..k] + b[k + 1..]);
      SumWithout(b, k);
    }
  }

  /** The order of the samples does not matter. */
  lemma MeanOfPermutation(a: seq<real>, b: seq<real>)
    requires multiset(a) == multiset(b)
    ensures Mean(a) == Mean(b)
  {
    SumOfPermutation(a, b);
  }

  /** The top mean, or 0 when none is positive. */
  function Top(scored: seq<Scored>): real {
    if scored == [] then 0.0
    else MaxReal(Top(scored[..|scored| - 1]), Mean(scored[|scored| - 1].1))
  }

  function Floor(scored: seq<Scored>): Option<real> {
    if Top(scored) > 0.0 then Some(Top(scored) * PRUNE_RATIO) else None
  }

  /** A trial may be stopped only once some average is positive, and only below 0.92 of the top one. */
  lemma FloorIsBelowTop(scored: seq<Scored>, i: nat) returns (top: nat)
    requires i < |scored|
    ensures Floor(scored).None? <==> forall k :: 0 <= k < |scored| ==> Mean(scored[k].1) <= 0.0
    ensures Floor(scored).Some? ==>
      && top < |scored| && Floor(scored).value == 0.92 * Mean(scored[top].1)
      && Mean(scored[i].1) <= Mean(scored[top].1)
  {
    hide Mean;
    TopIsTop(scored);
    top := 0;
    if Top(scored) > 0.0 {
      top :| top < |scored| && Mean(scored[top].1) == Top(scored);
    }
  }

  /** The indices of everything scoring at least `bar`. */
  function Contenders(scored: seq<Scored>, bar: real): seq<nat> {
    if scored == [] then []
    else
      var last := |scored| - 1;
      var before := Contenders(scored[..last], bar);
      if Mean(scored[last].1) >= bar then before + [last] else before
  }

  /** The earliest entry scoring at least `bar`. */
  function Earliest(scored: seq<Scored>, bar: real): Option<Scored> {
    if scored == [] then None
    else
      var last := |scored| - 1;
      var before := Earliest(scored[..last], bar);
      if before.None? && Mean(scored[last].1) >= bar then Some(scored[last]) else before
  }

  /** The earliest entry within TIE of the top, if the top is positive. */
  function Pick(scored: seq<Scored>): Option<Scored> {
    if Top(scored) > 0.0 then Earliest(scored, Top(scored) * (1.0 - TIE)) else None
  }

  // ----- one stage, as a function

  datatype State = State(scored: seq<Scored>, history: seq<Trial>)

  function Try(oracle: Oracle, cand: Candidate, s: State): State {
    var outcome := oracle(|s.history|, cand, Floor(s.scored));
    State(if outcome.Measured? then s.scored + [(cand, [outcome.rate])] else s.scored, s.history + [(cand, outcome)])
  }

  function TryAll(oracle: Oracle, cands: seq<Candidate>, s: State): State {
    if cands == [] then s
    else Try(oracle, cands[|cands| - 1], TryAll(oracle, cands[..|cands| - 1], s))
  }

  function Again(oracle: Oracle, idx: nat, s: State): State
    requires idx < |s.scored|
  {
    var (cand, samples) := s.scored[idx];
    var outcome := oracle(|s.history|, cand, None);
    State(
      if outcome.Measured? then s.scored[idx := (cand, samples + [outcome.rate])] else s.scored,
      s.history + [(cand, outcome)])
  }

  function AgainAll(oracle: Oracle, idxs: seq<nat>, s: State): (r: State)
    requires Within(idxs, |s.scored|)
    ensures |r.scored| == |s.scored|
  {
    if idxs == [] then s
    else Again(oracle, idxs[|idxs| - 1], AgainAll(oracle, idxs[..|idxs| - 1], s))
  }

  /** Indices below `n`. */
  predicate Within(idxs: seq<nat>, n: nat) {
    idxs == [] || (idxs[|idxs| - 1] < n && Within(idxs[..|idxs| - 1], n))
  }

  lemma {:induction false} WithinMore(idxs: seq<nat>, m: nat, n: nat)
    requires Within(idxs, m) && m <= n
    ensures Within(idxs, n)
  {
    if idxs != [] {
      WithinMore(idxs[..|idxs| - 1], m, n);
    }
  }

  lemma WithinSnoc(idxs: seq<nat>, idx: nat, n: nat)
    requires Within(idxs, n) && idx < n
    ensures Within(idxs + [idx], n)
  {
    assert (idxs + [idx])[..|idxs|] == idxs;
  }

  lemma {:induction false} ContendersAreIndices(scored: seq<Scored>, bar: real)
    ensures Within(Contenders(scored, bar), |scored|)
    ensures |Contenders(scored, bar)| <= |scored|
  {
    if scored != [] {
      var last := |scored| - 1;
      ContendersAreIndices(scored[..last], bar);
      WithinMore(Contenders(scored[..last], bar), last, |scored|);
      WithinSnoc(Contenders(scored[..last], bar), last, |scored|);
    }
  }

  /** The contenders measured again, if there is more than one. */
  function Rematch(oracle: Oracle, s: State): State {
    var idxs := Contenders(s.scored, Top(s.scored) * (1.0 - CLOSE));
    ContendersAreIndices(s.scored, Top(s.scored) * (1.0 - CLOSE));
    if |idxs| > 1 then AgainAll(oracle, idxs, s) else s
  }

  function Start(incumbent: Option<Scored>): seq<Scored> {
    if incumbent.Some? then [incumbent.value] else []
  }

  function StageEnd(oracle: Oracle, cands: seq<Candidate>, incumbent: Option<Scored>, history: seq<Trial>): State {
    Rematch(oracle, TryAll(oracle, cands, State(Start(incumbent), history)))
  }

  /** One pass over the candidates, each cut short once it cannot catch up, a second sample for those
      near the top, and the choice. */
  method Stage(oracle: Oracle, cands: seq<Candidate>, incumbent: Option<Scored>, history0: seq<Trial>)
    returns (winner: Option<Scored>, history: seq<Trial>)
    ensures var end := StageEnd(oracle, cands, incumbent, history0);
      winner == Pick(end.scored) && history == end.history
  {
    hide Top, Mean, Contenders, Within, Earliest;
    var scored := Start(incumbent);
    history := history0;
    ghost var start := State(scored, history);
    for i := 0 to |cands|
      invariant State(scored, history) == TryAll(oracle, cands[..i], start)
    {
      assert cands[..i + 1][..i] == cands[..i];
      var top := Top(scored);
      var outcome := oracle(|history|, cands[i], if top > 0.0 then Some(top * PRUNE_RATIO) else None);
      if outcome.Measured? {
        scored := scored + [(cands[i], [outcome.rate])];
      }
      history := history + [(cands[i], outcome)];
    }
    assert cands[..|cands|] == cands;
    ghost var tried := State(scored, history);
    var idxs := Contenders(scored, Top(scored) * (1.0 - CLOSE));
    ContendersAreIndices(scored, Top(scored) * (1.0 - CLOSE));
    if |idxs| > 1 {
      scored, history := MeasureAgain(oracle, idxs, scored, history);
    }
    winner := Pick(scored);
  }

  method MeasureAgain(oracle: Oracle, idxs: seq<nat>, scored0: seq<Scored>, history0: seq<Trial>)
    returns (scored: seq<Scored>, history: seq<Trial>)
    requires Within(idxs, |scored0|)
    ensures State(scored, history) == AgainAll(oracle, idxs, State(scored0, history0))
  {
    scored, history := scored0, history0;
    ghost var start := State(scored0, history0);
    for i := 0 to |idxs|
      invariant Within(idxs[..i], |scored0|)
      invariant State(scored, history) == AgainAll(oracle, idxs[..i], start)
    {
      assert idxs[..i + 1][..i] == idxs[..i];
      WithinPrefix(idxs, |scored0|, i + 1);
      var (cand, samples) := scored[idxs[i]];
      var outcome := oracle(|history|, cand, None);
      if outcome.Measured? {
        scored := scored[idxs[i] := (cand, samples + [outcome.rate])];
      }
      history := history + [(cand, outcome)];
    }
    assert idxs[..|idxs|] == idxs;
  }

  lemma {:induction false} WithinPrefix(idxs: seq<nat>, n: nat, k: nat)
    requires Within(idxs, n) && k <= |idxs|
    ensures Within(idxs[..k], n)
    decreases |idxs|
  {
    if k == |idxs| {
      assert idxs[..k] == idxs;
    } else {
      WithinPrefix(idxs[..|idxs| - 1], n, k);
      assert idxs[..|idxs| - 1][..k] == idxs[..k];
    }
  }

  // ----- the whole search

  function StageA(space: Space): seq<Candidate> {
    seq(|space.serverBatch|, i requires 0 <= i < |space.serverBatch| =>
      First(space).(servers := space.serverBatch[i].0, batch := space.serverBatch[i].1))
  }

  function StageB(space: Space, leader: Candidate): seq<Candidate> {
    if space.analysis == [] then []
    else
      seq(|space.analysis| - 1, i requires 0 <= i < |space.analysis| - 1 =>
        leader.(analysisThreads := space.analysis[i + 1]))
  }

  /** The search as a function: the winner with its samples, and every trial. */
  function Searched(oracle: Oracle, space: Space): (Option<Scored>, seq<Trial>) {
    var a := StageEnd(oracle, StageA(space), None, []);
    var leader := Pick(a.scored);
    if leader.None? then (None, a.history)
    else
      var b := StageEnd(oracle, StageB(space, leader.value.0), leader, a.history);
      (Pick(b.scored), b.history)
  }

  method Run(oracle: Oracle, space: Space) returns (report: Report)
    ensures |space.analysis| <= 1 && |space.serverBatch| <= 1 ==>
      && report.history == [] && report.best.Some? && report.best.value.1 == 0.0
      && (space.analysis != [] ==> report.best.value.0.analysisThreads == space.analysis[0])
      && (space.serverBatch != [] ==>
            (report.best.value.0.servers, report.best.value.0.batch) == space.serverBatch[0])
    ensures |space.analysis| > 1 || |space.serverBatch| > 1 ==>
      var (winner, history) := Searched(oracle, space);
      report == Report(if winner.Some? then Some((winner.value.0, Mean(winner.value.1))) else None, history)
    ensures (|space.analysis| > 1 || |space.serverBatch| > 1) && Proper(space) && report.best.Some? ==>
      var (best, rate) := report.best.value;
      var rates := Rates(report.history, best);
      && rates != [] && rate == Mean(rates)
      && best.analysisThreads in space.analysis && (best.servers, best.batch) in space.serverBatch
  {
    hide Mean, Rates, Pick, StageEnd, StageA, StageB, Proper;
    if !IsFullyPinned(space) && Proper(space) {
      ProperHasBoth(space);
      SearchReports(oracle, space, 0, 0);
    }
    if IsFullyPinned(space) {
      return Report(Some((First(space), 0.0)), []);
    }
    var leader, history := Stage(oracle, StageA(space), None, []);
    if leader.None? {
      return Report(None, history);
    }
    var winner, all := Stage(oracle, StageB(space, leader.value.0), leader, history);
    report := Report(if winner.Some? then Some((winner.value.0, Mean(winner.value.1))) else None, all);
  }

  // ----- any rates: who wins, and how many trials it takes

  /** Entry `w` is the earliest within TIE of the top mean, and the top is positive. */
  ghost predicate WinsAt(scored: seq<Scored>, w: nat) {
    && w < |scored| && Top(scored) > 0.0
    && Mean(scored[w].1) >= Top(scored) * (1.0 - TIE)
    && forall i :: 0 <= i < w ==> Mean(scored[i].1) < Top(scored) * (1.0 - TIE)
  }

  lemma {:induction false} TopIsTop(scored: seq<Scored>)
    ensures Top(scored) >= 0.0
    ensures forall i :: 0 <= i < |scored| ==> Mean(scored[i].1) <= Top(scored)
    ensures Top(scored) > 0.0 ==> exists i :: 0 <= i < |scored| && Mean(scored[i].1) == Top(scored)
  {
    if scored != [] {
      var last := |scored| - 1;
      TopIsTop(scored[..last]);
      forall i | 0 <= i < |scored| ensures Mean(scored[i].1) <= Top(scored) {
        if i < last {
          assert scored[..last][i] == scored[i];
        }
      }
      if Top(scored) > 0.0 && Top(scored) != Mean(scored[last].1) {
        var i :| 0 <= i < last && Mean(scored[..last][i].1) == Top(scored);
        assert Mean(scored[i].1) == Top(scored);
      }
    }
  }

  lemma {:induction false} EarliestIsEarliest(scored: seq<Scored>, bar: real) returns (w: nat)
    requires exists i :: 0 <= i < |scored| && Mean(scored[i].1) >= bar
    ensures w < |scored| && Earliest(scored, bar) == Some(scored[w]) && Mean(scored[w].1) >= bar
    ensures forall i :: 0 <= i < w ==> Mean(scored[i].1) < bar
  {
    var last := |scored| - 1;
    if i :| 0 <= i < last && Mean(scored[i].1) >= bar {
      assert scored[..last][i] == scored[i];
      w := EarliestIsEarliest(scored[..last], bar);
      assert forall i :: 0 <= i < w ==> scored[..last][i] == scored[i];
    } else {
      w := last;
      NobodyEarlier(scored[..last], bar);
    }
  }

  lemma {:induction false} NobodyEarlier(scored: seq<Scored>, bar: real)
    requires forall i :: 0 <= i < |scored| ==> Mean(scored[i].1) < bar
    ensures Earliest(scored, bar).None?
  {
    if scored != [] {
      NobodyEarlier(scored[..|scored| - 1], bar);
    }
  }

  /** Whatever the rates: no winner exactly when no mean is positive; otherwise the winner is the
      earliest entry within TIE of the top mean. */
  lemma StageWinner(scored: seq<Scored>) returns (w: nat)
    ensures Pick(scored).None? <==> forall i :: 0 <= i < |scored| ==> Mean(scored[i].1) <= 0.0
    ensures Pick(scored).Some? ==> WinsAt(scored, w) && Pick(scored).value == scored[w]
  {
    TopIsTop(scored);
    w := 0;
    if Top(scored) > 0.0 {
      w := EarliestIsEarliest(scored, Top(scored) * (1.0 - TIE));
    }
  }

  lemma {:induction false} TryAllCount(oracle: Oracle, cands: seq<Candidate>, s: State)
    ensures var t := TryAll(oracle, cands, s);
      |t.history| == |s.history| + |cands| && |t.scored| <= |s.scored| + |cands|
  {
    if cands != [] {
      TryAllCount(oracle, cands[..|cands| - 1], s);
    }
  }

  lemma {:induction false} AgainAllCount(oracle: Oracle, idxs: seq<nat>, s: State)
    requires Within(idxs, |s.scored|)
    ensures |AgainAll(oracle, idxs, s).history| == |s.history| + |idxs|
  {
    if idxs != [] {
      AgainAllCount(oracle, idxs[..|idxs| - 1], s);
    }
  }

  lemma StageCount(oracle: Oracle, cands: seq<Candidate>, incumbent: Option<Scored>, history: seq<Trial>)
    ensures |StageEnd(oracle, cands, incumbent, history).history| <= |history| + 2 * |cands| + |Start(incumbent)|
  {
    var s := TryAll(oracle, cands, State(Start(incumbent), history));
    TryAllCount(oracle, cands, State(Start(incumbent), history));
    var bar := Top(s.scored) * (1.0 - CLOSE);
    ContendersAreIndices(s.scored, bar);
    AgainAllCount(oracle, Contenders(s.scored, bar), s);
  }

  /** Whatever happens, the whole search takes at most two trials per pair and two per thread count,
      less one. */
  lemma TrialsAreBounded(oracle: Oracle, space: Space)
    requires space.analysis != []
    ensures |Searched(oracle, space).1| <= 2 * |space.serverBatch| + 2 * |space.analysis| - 1
  {
    var a := StageEnd(oracle, StageA(space), None, []);
    StageCount(oracle, StageA(space), None, []);
    var leader := Pick(a.scored);
    if leader.Some? {
      StageCount(oracle, StageB(space, leader.value.0), leader, a.history);
    }
  }

  // ----- any rates: what is tried, and what is reported

  /** The rates measured for a candidate, in order. */
  function Rates(history: seq<Trial>, cand: Candidate): seq<real> {
    if history == [] then []
    else
      var last := history[|history| - 1];
      var before := Rates(history[..|history| - 1], cand);
      if last.0 == cand && last.1.Measured? then before + [last.1.rate] else before
  }

  lemma RatesMore(history: seq<Trial>, t: Trial, cand: Candidate)
    ensures Rates(history + [t], cand) ==
      if t.0 == cand && t.1.Measured? then Rates(history, cand) + [t.1.rate] else Rates(history, cand)
  {
    assert (history + [t])[..|history|] == history;
  }

  function Names(scored: seq<Scored>): seq<Candidate> {
    seq(|scored|, i requires 0 <= i < |scored| => scored[i].0)
  }

  /** The samples of a candidate's entry, if it has one. */
  function ScoreOf(scored: seq<Scored>, cand: Candidate): seq<real> {
    if scored == [] then []
    else if scored[|scored| - 1].0 == cand then scored[|scored| - 1].1
    else ScoreOf(scored[..|scored| - 1], cand)
  }

  ghost predicate Distinct(cands: seq<Candidate>) {
    forall i, j :: 0 <= i < j < |cands| ==> cands[i] != cands[j]
  }

  /** The candidate's samples are all the rates measured for it. */
  predicate Kept(s: State, cand: Candidate) {
    ScoreOf(s.scored, cand) == Rates(s.history, cand)
  }

  lemma ScoreMore(scored: seq<Scored>, entry: Scored, cand: Candidate)
    ensures ScoreOf(scored + [entry], cand) == if entry.0 == cand then entry.1 else ScoreOf(scored, cand)
    ensures Names(scored + [entry]) == Names(scored) + [entry.0]
  {
    assert (scored + [entry])[..|scored|] == scored;
  }

  lemma {:induction false} ScoreAt(scored: seq<Scored>, i: nat)
    requires Distinct(Names(scored)) && i < |scored|
    ensures ScoreOf(scored, scored[i].0) == scored[i].1
  {
    var last := |scored| - 1;
    assert scored[i].0 == Names(scored)[i] && scored[last].0 == Names(scored)[last];
    if i < last {
      assert Names(scored[..last]) == Names(scored)[..last];
      ScoreAt(scored[..last], i);
    }
  }

  lemma {:induction false} NoScore(scored: seq<Scored>, cand: Candidate)
    requires cand !in Names(scored)
    ensures ScoreOf(scored, cand) == []
  {
    if scored != [] {
      var last := |scored| - 1;
      assert Names(scored) == Names(scored[..last]) + [scored[last].0];
      NoScore(scored[..last], cand);
    }
  }

  lemma {:induction false} ScoreChanged(scored: seq<Scored>, i: nat, samples: seq<real>, cand: Candidate)
    requires Distinct(Names(scored)) && i < |scored|
    ensures var after := scored[i := (scored[i].0, samples)];
      && Names(after) == Names(scored)
      && ScoreOf(after, cand) == if cand == scored[i].0 then samples else ScoreOf(scored, cand)
  {
    var after := scored[i := (scored[i].0, samples)];
    assert Names(after) == Names(scored);
    if cand == scored[i].0 {
      ScoreAt(after, i);
    } else {
      var last := |scored| - 1;
      if i < last {
        assert Names(scored[..last]) == Names(scored)[..last];
        ScoreChanged(scored[..last], i, samples, cand);
        assert after[..last] == scored[..last][i := (scored[i].0, samples)];
      } else {
        assert after[..last] == scored[..last];
      }
    }
  }

  lemma TryKeeps(oracle: Oracle, cand: Candidate, s: State, other: Candidate)
    requires cand !in Names(s.scored) && Kept(s, other)
    ensures Kept(Try(oracle, cand, s), other)
    ensures Names(Try(oracle, cand, s).scored) == Names(s.scored)
         || Names(Try(oracle, cand, s).scored) == Names(s.scored) + [cand]
  {
    hide Rates, ScoreOf, Floor, Names;
    var outcome := oracle(|s.history|, cand, Floor(s.scored));
    NoScore(s.scored, cand);
    RatesMore(s.history, (cand, outcome), other);
    if outcome.Measured? {
      ScoreMore(s.scored, (cand, [outcome.rate]), other);
    }
  }

  lemma {:induction false} TryAllNames(oracle: Oracle, cands: seq<Candidate>, s: State)
    requires Distinct(Names(s.scored) + cands)
    ensures Distinct(Names(TryAll(oracle, cands, s).scored))
    ensures forall c :: c in Names(TryAll(oracle, cands, s).scored) ==> c in Names(s.scored) || c in cands
    ensures s.scored <= TryAll(oracle, cands, s).scored
  {
    hide Names, Floor;
    if cands == [] {
      assert Names(s.scored) + [] == Names(s.scored);
    } else {
      var last := |cands| - 1;
      assert Names(s.scored) + cands == (Names(s.scored) + cands[..last]) + [cands[last]];
      DistinctSnoc(Names(s.scored) + cands[..last], cands[last]);
      TryAllNames(oracle, cands[..last], s);
      var before := TryAll(oracle, cands[..last], s);
      var outcome := oracle(|before.history|, cands[last], Floor(before.scored));
      ScoreMore(before.scored, (cands[last], [if outcome.Measured? then outcome.rate else 0.0]), cands[last]);
      assert cands[last] !in Names(before.scored);
    }
  }

  lemma DistinctSnoc(cands: seq<Candidate>, cand: Candidate)
    requires Distinct(cands + [cand])
    ensures Distinct(cands) && cand !in cands
  {
    var all := cands + [cand];
    assert all[|cands|] == cand;
    assert forall i :: 0 <= i < |cands| ==> all[i] == cands[i];
  }

  lemma {:induction false} TryAllKeeps(oracle: Oracle, cands: seq<Candidate>, s: State, other: Candidate)
    requires Distinct(Names(s.scored) + cands) && Kept(s, other)
    ensures Kept(TryAll(oracle, cands, s), other)
  {
    hide Names, Kept, Try;
    if cands != [] {
      var last := |cands| - 1;
      assert Names(s.scored) + cands == (Names(s.scored) + cands[..last]) + [cands[last]];
      DistinctSnoc(Names(s.scored) + cands[..last], cands[last]);
      TryAllNames(oracle, cands[..last], s);
      TryAllKeeps(oracle, cands[..last], s, other);
      TryKeeps(oracle, cands[last], TryAll(oracle, cands[..last], s), other);
    }
  }

  /** The trials of the first pass: the candidates in order, each with the floor that the averages so far
      give it. */
  lemma {:induction false} TryAllTrials(oracle: Oracle, cands: seq<Candidate>, s: State, k: nat)
    requires k < |cands|
    ensures var h := TryAll(oracle, cands, s).history;
      && s.history <= h && |h| == |s.history| + |cands|
      && h[|s.history| + k] ==
           (cands[k], oracle(|s.history| + k, cands[k], Floor(TryAll(oracle, cands[..k], s).scored)))
  {
    hide Floor;
    var last := |cands| - 1;
    TryAllCount(oracle, cands[..last], s);
    TryAllHistory(oracle, cands[..last], s);
    if k < last {
      TryAllTrials(oracle, cands[..last], s, k);
      assert cands[..last][..k] == cands[..k];
    }
  }

  lemma {:induction false} TryAllHistory(oracle: Oracle, cands: seq<Candidate>, s: State)
    ensures s.history <= TryAll(oracle, cands, s).history
  {
    if cands != [] {
      TryAllHistory(oracle, cands[..|cands| - 1], s);
    }
  }

  /** The contenders are the entries whose average reaches the bar, in order. */
  lemma {:induction false} ContendersAre(scored: seq<Scored>, bar: real, i: nat)
    ensures i in Contenders(scored, bar) <==> i < |scored| && Mean(scored[i].1) >= bar
    ensures forall a, b :: 0 <= a < b < |Contenders(scored, bar)| ==>
      Contenders(scored, bar)[a] < Contenders(scored, bar)[b]
  {
    hide Mean;
    if scored != [] {
      var last := |scored| - 1;
      ContendersAre(scored[..last], bar, i);
      ContendersAreBelow(scored[..last], bar);
    }
  }

  lemma ContendersAreBelow(scored: seq<Scored>, bar: real)
    ensures forall a :: 0 <= a < |Contenders(scored, bar)| ==> Contenders(scored, bar)[a] < |scored|
  {
    ContendersAreIndices(scored, bar);
    forall a | 0 <= a < |Contenders(scored, bar)| ensures Contenders(scored, bar)[a] < |scored| {
      WithinAt(Contenders(scored, bar), |scored|, a);
    }
  }

  lemma {:induction false} WithinAt(idxs: seq<nat>, n: nat, k: nat)
    requires Within(idxs, n) && k < |idxs|
    ensures idxs[k] < n
  {
    if k < |idxs| - 1 {
      WithinAt(idxs[..|idxs| - 1], n, k);
    }
  }

  lemma AgainKeeps(oracle: Oracle, idx: nat, s: State, other: Candidate)
    requires idx < |s.scored| && Distinct(Names(s.scored)) && Kept(s, other)
    ensures Kept(Again(oracle, idx, s), other) && Names(Again(oracle, idx, s).scored) == Names(s.scored)
  {
    hide Rates, ScoreOf, Names;
    var (cand, samples) := s.scored[idx];
    var outcome := oracle(|s.history|, cand, None);
    ScoreAt(s.scored, idx);
    RatesMore(s.history, (cand, outcome), other);
    if outcome.Measured? {
      ScoreChanged(s.scored, idx, samples + [outcome.rate], other);
    }
  }

  lemma {:induction false} AgainAllKeeps(oracle: Oracle, idxs: seq<nat>, s: State, other: Candidate)
    requires Within(idxs, |s.scored|) && Distinct(Names(s.scored)) && Kept(s, other)
    ensures Kept(AgainAll(oracle, idxs, s), other)
    ensures Names(AgainAll(oracle, idxs, s).scored) == Names(s.scored)
  {
    hide Names, Kept, Again;
    if idxs != [] {
      AgainAllKeeps(oracle, idxs[..|idxs| - 1], s, other);
      AgainKeeps(oracle, idxs[|idxs| - 1], AgainAll(oracle, idxs[..|idxs| - 1], s), other);
    }
  }

  /** The trials of a rematch: each contender once more, in order, and never stopped early. */
  lemma {:induction false} AgainAllTrials(oracle: Oracle, idxs: seq<nat>, s: State, k: nat)
    requires Within(idxs, |s.scored|) && Distinct(Names(s.scored)) && k <= |idxs|
    ensures k < |idxs| ==> idxs[k] < |s.scored|
    ensures var h := AgainAll(oracle, idxs, s).history;
      && s.history <= h && |h| == |s.history| + |idxs|
      && (k < |idxs| ==>
            var cand := s.scored[idxs[k]].0;
            h[|s.history| + k] == (cand, oracle(|s.history| + k, cand, None)))
  {
    hide Kept, Rates;
    if idxs != [] {
      var last := |idxs| - 1;
      AgainAllTrials(oracle, idxs[..last], s, if k < last then k else last);
      AgainAllNames(oracle, idxs[..last], s);
      if k == last {
        var before := AgainAll(oracle, idxs[..last], s);
        assert before.scored[idxs[last]].0 == Names(before.scored)[idxs[last]];
        assert s.scored[idxs[last]].0 == Names(s.scored)[idxs[last]];
      }
      if k < |idxs| {
        WithinAt(idxs, |s.scored|, k);
      }
    }
  }

  lemma {:induction false} AgainAllNames(oracle: Oracle, idxs: seq<nat>, s: State)
    requires Within(idxs, |s.scored|)
    ensures Names(AgainAll(oracle, idxs, s).scored) == Names(s.scored)
  {
    if idxs != [] {
      AgainAllNames(oracle, idxs[..|idxs| - 1], s);
      var before := AgainAll(oracle, idxs[..|idxs| - 1], s);
      var idx := idxs[|idxs| - 1];
      assert Names(before.scored)[idx] == before.scored[idx].0;
    }
  }

  predicate Sampled(scored: seq<Scored>) {
    forall i :: 0 <= i < |scored| ==> scored[i].1 != []
  }

  lemma {:induction false} TryAllSampled(oracle: Oracle, cands: seq<Candidate>, s: State)
    requires Sampled(s.scored)
    ensures Sampled(TryAll(oracle, cands, s).scored)
  {
    if cands != [] {
      TryAllSampled(oracle, cands[..|cands| - 1], s);
    }
  }

  lemma {:induction false} AgainAllSampled(oracle: Oracle, idxs: seq<nat>, s: State)
    requires Sampled(s.scored) && Within(idxs, |s.scored|)
    ensures Sampled(AgainAll(oracle, idxs, s).scored)
  {
    if idxs != [] {
      AgainAllSampled(oracle, idxs[..|idxs| - 1], s);
    }
  }

  lemma StageKeeps(
    oracle: Oracle, cands: seq<Candidate>, incumbent: Option<Scored>, history: seq<Trial>, other: Candidate)
    requires Distinct(Names(Start(incumbent)) + cands) && Sampled(Start(incumbent))
    requires Kept(State(Start(incumbent), history), other)
    ensures var end := StageEnd(oracle, cands, incumbent, history);
      && Kept(end, other) && Distinct(Names(end.scored)) && Sampled(end.scored)
      && (forall c :: c in Names(end.scored) ==> c in Names(Start(incumbent)) || c in cands)
  {
    hide Names, Kept, Sampled, Distinct, Top, Contenders;
    var start := State(Start(incumbent), history);
    var s := TryAll(oracle, cands, start);
    TryAllNames(oracle, cands, start);
    TryAllKeeps(oracle, cands, start, other);
    TryAllSampled(oracle, cands, start);
    var idxs := Contenders(s.scored, Top(s.scored) * (1.0 - CLOSE));
    ContendersAreIndices(s.scored, Top(s.scored) * (1.0 - CLOSE));
    AgainAllKeeps(oracle, idxs, s, other);
    AgainAllSampled(oracle, idxs, s);
  }

  /** A stage's trials: its candidates in order, then, if more than one average is within CLOSE of the
      top, each of those candidates once more. */
  lemma StageTrials(
    oracle: Oracle, cands: seq<Candidate>, incumbent: Option<Scored>, history: seq<Trial>, k: nat)
    requires Distinct(Names(Start(incumbent)) + cands)
    ensures var s := TryAll(oracle, cands, State(Start(incumbent), history));
      var close := Contenders(s.scored, Top(s.scored) * (1.0 - CLOSE));
      var h, n := StageEnd(oracle, cands, incumbent, history).history, |history| + |cands|;
      && history <= h && |h| == n + (if |close| > 1 then |close| else 0)
      && (k < |cands| ==> h[|history| + k].0 == cands[k])
      && (|close| > 1 && k < |close| ==> close[k] < |s.scored| && h[n + k].0 == s.scored[close[k]].0)
  {
    hide Names, Kept, Sampled, Distinct, Top, Contenders, Floor, TryAll, AgainAll, Start, Within;
    var start := State(Start(incumbent), history);
    var s := TryAll(oracle, cands, start);
    TryAllNames(oracle, cands, start);
    TryAllCount(oracle, cands, start);
    TryAllHistory(oracle, cands, start);
    if k < |cands| {
      TryAllTrials(oracle, cands, start, k);
    }
    var close := Contenders(s.scored, Top(s.scored) * (1.0 - CLOSE));
    ContendersAreIndices(s.scored, Top(s.scored) * (1.0 - CLOSE));
    AgainAllTrials(oracle, close, s, if k < |close| then k else |close|);
  }

  lemma StageTries(
    oracle: Oracle, cands: seq<Candidate>, incumbent: Option<Scored>, history: seq<Trial>, k: nat)
    requires Distinct(Names(Start(incumbent)) + cands)
    ensures var h := StageEnd(oracle, cands, incumbent, history).history;
      && history <= h && (k < |cands| ==> |history| + k < |h| && h[|history| + k].0 == cands[k])
  {
    hide StageEnd, TryAll, Contenders, Top, Distinct, Names;
    StageTrials(oracle, cands, incumbent, history, k);
  }

  lemma {:induction false} ScoreIsEntry(scored: seq<Scored>, cand: Candidate) returns (i: nat)
    requires ScoreOf(scored, cand) != []
    ensures i < |scored| && scored[i] == (cand, ScoreOf(scored, cand))
  {
    var last := |scored| - 1;
    if scored[last].0 == cand {
      i := last;
    } else {
      i := ScoreIsEntry(scored[..last], cand);
    }
  }

  /** The pick's samples are its entry's, and no entry's average is more than TIE above its average. */
  lemma PickIsNearTop(scored: seq<Scored>, other: Candidate)
    requires Distinct(Names(scored)) && Sampled(scored) && Pick(scored).Some?
    ensures var (best, samples) := Pick(scored).value;
      && best in Names(scored) && samples == ScoreOf(scored, best) && samples != []
      && (ScoreOf(scored, other) != [] ==> Mean(ScoreOf(scored, other)) * (1.0 - TIE) <= Mean(samples))
  {
    hide Mean, Top, Distinct, ScoreOf;
    var w := StageWinner(scored);
    assert Names(scored)[w] == scored[w].0;
    ScoreAt(scored, w);
    if ScoreOf(scored, other) != [] {
      var i := ScoreIsEntry(scored, other);
      TopIsTop(scored);
    }
  }

  /** A space as `NewSpace` builds it: something to try, and nothing twice. */
  ghost predicate Proper(space: Space) {
    && space.analysis != [] && space.serverBatch != []
    && (forall i, j :: 0 <= i < j < |space.analysis| ==> space.analysis[i] != space.analysis[j])
    && (forall i, j :: 0 <= i < j < |space.serverBatch| ==> space.serverBatch[i] != space.serverBatch[j])
  }

  lemma ProperHasBoth(space: Space)
    requires Proper(space)
    ensures 0 < |space.serverBatch| && 0 < |space.analysis|
  {
  }

  /** Every space of the thorough search is proper. */
  lemma SpacesAreProper(pinThreads: bool, pinServers: bool, pinBatch: bool, depth: nat, backend: Backend)
    ensures Proper(Space(AnalysisThreads(pinThreads, depth), Deduped(Unpinned(Pairs(backend), pinServers, pinBatch))))
  {
    hide AnalysisThreads, Deduped, Unpinned;
    SpaceIsSane(pinThreads, pinServers, pinBatch, depth, backend);
  }

  /** The candidates of the first stage: every pair, in order, with the first thread count. */
  lemma StageAIs(space: Space)
    requires Proper(space)
    ensures |StageA(space)| == |space.serverBatch| && Distinct(StageA(space))
    ensures forall i: nat :: i < |space.serverBatch| ==>
      StageA(space)[i] == Candidate(space.analysis[0], space.serverBatch[i].0, space.serverBatch[i].1)
  {
  }

  /** The candidates of the second: every other thread count, in order, with the leader's pair. */
  lemma StageBIs(space: Space, leader: Candidate)
    requires Proper(space) && leader.analysisThreads == space.analysis[0]
    ensures |StageB(space, leader)| == |space.analysis| - 1 && Distinct([leader] + StageB(space, leader))
    ensures forall j: nat :: 0 < j < |space.analysis| ==>
      StageB(space, leader)[j - 1] == Candidate(space.analysis[j], leader.servers, leader.batch)
  {
  }

  lemma NothingKept(cand: Candidate)
    ensures Kept(State([], []), cand) && Names(Start(None)) == [] && Sampled(Start(None))
  {
  }

  /** The first stage: its leader is a pair with the first thread count and all the rates measured for it,
      and no pair's average is more than TIE above its own. */
  lemma LeaderIs(oracle: Oracle, space: Space, other: Candidate)
    requires Proper(space) && Pick(StageEnd(oracle, StageA(space), None, []).scored).Some?
    ensures var a := StageEnd(oracle, StageA(space), None, []);
      var (leader, samples) := Pick(a.scored).value;
      && leader in StageA(space) && samples == Rates(a.history, leader) && samples != []
      && (Rates(a.history, other) != [] ==> Mean(Rates(a.history, other)) * (1.0 - TIE) <= Mean(samples))
      && (other !in StageA(space) ==> Rates(a.history, other) == [])
  {
    hide Names, Sampled, Distinct, StageEnd, Pick, Mean, Rates, ScoreOf, StageA;
    var a := StageEnd(oracle, StageA(space), None, []);
    var (leader, samples) := Pick(a.scored).value;
    StageAIs(space);
    assert [] + StageA(space) == StageA(space);
    NothingKept(other);
    NothingKept(leader);
    StageKeeps(oracle, StageA(space), None, [], other);
    StageKeeps(oracle, StageA(space), None, [], leader);
    PickIsNearTop(a.scored, other);
    if other !in StageA(space) {
      NoScore(a.scored, other);
    }
  }

  lemma StageBStarts(oracle: Oracle, space: Space, other: Candidate)
    requires Proper(space) && Pick(StageEnd(oracle, StageA(space), None, []).scored).Some?
    ensures var a := StageEnd(oracle, StageA(space), None, []);
      var leader := Pick(a.scored).value;
      && leader.0.analysisThreads == space.analysis[0] && (leader.0.servers, leader.0.batch) in space.serverBatch
      && Names(Start(Some(leader))) == [leader.0] && Sampled(Start(Some(leader)))
      && Distinct(Names(Start(Some(leader))) + StageB(space, leader.0))
      && (other == leader.0 || other in StageB(space, leader.0) ==> Kept(State(Start(Some(leader)), a.history), other))
  {
    hide StageEnd, Pick, Mean, Rates, StageA, StageB, Distinct;
    var a := StageEnd(oracle, StageA(space), None, []);
    var leader := Pick(a.scored).value;
    StageAIs(space);
    LeaderIs(oracle, space, other);
    var i :| 0 <= i < |StageA(space)| && StageA(space)[i] == leader.0;
    StageBIs(space, leader.0);
    assert Names(Start(Some(leader))) == [leader.0];
    ScoreMore([], leader, other);
    assert [] + [leader] == Start(Some(leader));
    if other in StageB(space, leader.0) {
      NotTriedBefore(space, leader.0, other);
    }
  }

  lemma NotTriedBefore(space: Space, leader: Candidate, cand: Candidate)
    requires Proper(space) && leader.analysisThreads == space.analysis[0] && cand in StageB(space, leader)
    ensures cand !in StageA(space) && cand != leader
  {
    hide StageA, StageB;
    StageAIs(space);
    StageBIs(space, leader);
    var j :| 0 <= j < |StageB(space, leader)| && StageB(space, leader)[j] == cand;
    assert StageB(space, leader)[j] == Candidate(space.analysis[j + 1], leader.servers, leader.batch);
  }

  /** What the search tries and reports, whatever the rates. It measures every pair, in order, with the
      first thread count, and then every thread count with the best pair. It reports one of those, with
      the average of all the rates measured for it, and no thread count's average with that pair is more
      than TIE above the one reported. */
  lemma SearchReports(oracle: Oracle, space: Space, i: nat, j: nat)
    requires Proper(space) && i < |space.serverBatch| && j < |space.analysis|
    ensures var (winner, history) := Searched(oracle, space);
      && i < |history|
      && history[i].0 == Candidate(space.analysis[0], space.serverBatch[i].0, space.serverBatch[i].1)
      && (winner.Some? ==>
            var (best, samples) := winner.value;
            var cand := Candidate(space.analysis[j], best.servers, best.batch);
            && best.analysisThreads in space.analysis && (best.servers, best.batch) in space.serverBatch
            && samples == Rates(history, best) && samples != []
            && Tried(history, cand)
            && (Rates(history, cand) != [] ==> Mean(Rates(history, cand)) * (1.0 - TIE) <= Mean(samples)))
  {
    hide StageEnd, Pick, Mean, Rates, StageA, StageB, Distinct, Names, Sampled, ScoreOf, TryAll, Contenders, Top;
    StageAIs(space);
    assert [] + StageA(space) == StageA(space);
    NothingKept(First(space));
    StageTries(oracle, StageA(space), None, [], i);
    var a := StageEnd(oracle, StageA(space), None, []);
    var leader := Pick(a.scored);
    if leader.Some? {
      var b := StageEnd(oracle, StageB(space, leader.value.0), leader, a.history);
      StageBStarts(oracle, space, leader.value.0);
      var cand := Candidate(space.analysis[j], leader.value.0.servers, leader.value.0.batch);
      TriedInStages(oracle, space, j);
      if Pick(b.scored).Some? {
        WinnerIs(oracle, space, cand);
      }
    }
  }

  /** The candidate has had a trial. */
  ghost predicate Tried(history: seq<Trial>, cand: Candidate) {
    exists k :: 0 <= k < |history| && history[k].0 == cand
  }

  lemma LeaderIsTried(oracle: Oracle, space: Space)
    requires Proper(space) && Pick(StageEnd(oracle, StageA(space), None, []).scored).Some?
    ensures var a := StageEnd(oracle, StageA(space), None, []); Tried(a.history, Pick(a.scored).value.0)
  {
    hide StageEnd, Pick, Mean, Rates, StageA, Distinct, Names, Sampled, Kept, Proper, Start;
    var a := StageEnd(oracle, StageA(space), None, []);
    var leader := Pick(a.scored).value.0;
    StageAIs(space);
    LeaderIs(oracle, space, leader);
    NothingKept(leader);
    assert [] + StageA(space) == StageA(space);
    var i: nat :| i < |StageA(space)| && StageA(space)[i] == leader;
    StageTries(oracle, StageA(space), None, [], i);
    assert a.history[i].0 == leader;
  }

  lemma TriedLater(history: seq<Trial>, more: seq<Trial>, cand: Candidate)
    requires Tried(history, cand) && history <= more
    ensures Tried(more, cand)
  {
    var k :| 0 <= k < |history| && history[k].0 == cand;
    assert more[k].0 == cand;
  }

  lemma TriedInStages(oracle: Oracle, space: Space, j: nat)
    requires Proper(space) && j < |space.analysis|
    requires Pick(StageEnd(oracle, StageA(space), None, []).scored).Some?
    ensures var a := StageEnd(oracle, StageA(space), None, []);
      var leader := Pick(a.scored);
      var b := StageEnd(oracle, StageB(space, leader.value.0), leader, a.history);
      a.history <= b.history &&
      Tried(b.history, Candidate(space.analysis[j], leader.value.0.servers, leader.value.0.batch))
  {
    hide StageEnd, Pick, Rates, StageA, StageB, Distinct, Names, Sampled, Start, Kept, Proper;
    var a := StageEnd(oracle, StageA(space), None, []);
    var leader := Pick(a.scored);
    var cands := StageB(space, leader.value.0);
    var b := StageEnd(oracle, cands, leader, a.history);
    StageBStarts(oracle, space, leader.value.0);
    StageBIs(space, leader.value.0);
    StageTries(oracle, cands, leader, a.history, if j == 0 then 0 else j - 1);
    LeaderIsTried(oracle, space);
    TriedLater(a.history, b.history, leader.value.0);
    if j > 0 {
      assert b.history[|a.history| + (j - 1)].0 == cands[j - 1];
      assert Tried(b.history, cands[j - 1]);
    }
  }

  lemma WinnerIs(oracle: Oracle, space: Space, cand: Candidate)
    requires Proper(space) && Pick(StageEnd(oracle, StageA(space), None, []).scored).Some?
    requires var a := StageEnd(oracle, StageA(space), None, []);
      var leader := Pick(a.scored);
      && Pick(StageEnd(oracle, StageB(space, leader.value.0), leader, a.history).scored).Some?
      && cand.analysisThreads in space.analysis
      && cand == leader.value.0.(analysisThreads := cand.analysisThreads)
    ensures var a := StageEnd(oracle, StageA(space), None, []);
      var leader := Pick(a.scored);
      var b := StageEnd(oracle, StageB(space, leader.value.0), leader, a.history);
      var (best, samples) := Pick(b.scored).value;
      && best.servers == leader.value.0.servers && best.batch == leader.value.0.batch
      && best.analysisThreads in space.analysis && (best.servers, best.batch) in space.serverBatch
      && samples == Rates(b.history, best) && samples != []
      && (Rates(b.history, cand) != [] ==> Mean(Rates(b.history, cand)) * (1.0 - TIE) <= Mean(samples))
  {
    hide StageEnd, Pick, Mean, Rates, StageA, StageB, Distinct, Names, Sampled, ScoreOf;
    var a := StageEnd(oracle, StageA(space), None, []);
    var leader := Pick(a.scored);
    var cands := StageB(space, leader.value.0);
    var b := StageEnd(oracle, cands, leader, a.history);
    var (best, samples) := Pick(b.scored).value;
    StageBStarts(oracle, space, cand);
    StageBIs(space, leader.value.0);
    var j: nat :| j < |space.analysis| && space.analysis[j] == cand.analysisThreads;
    assert j > 0 ==> cands[j - 1] == cand;
    StageKeeps(oracle, cands, leader, a.history, cand);
    PickIsNearTop(b.scored, cand);
    StageBStarts(oracle, space, best);
    StageKeeps(oracle, cands, leader, a.history, best);
    if best != leader.value.0 {
      var k: nat :| k < |cands| && cands[k] == best;
      assert cands[k] == Candidate(space.analysis[k + 1], leader.value.0.servers, leader.value.0.batch);
    }
  }

  // ----- pruning is harmless

  /** What a candidate always yields. */
  type Nature = Candidate -> Option<real>

  function Always(nature: Nature, cand: Candidate): Outcome {
    if nature(cand).Some? then Measured(nature(cand).value) else Failed("")
  }

  /** The trials never stopped early. */
  function Patient(nature: Nature): Oracle {
    (n, cand, floor) => Always(nature, cand)
  }

  /** A trial that ended as its candidate always does, or was stopped early for being below the
      floor it was given. */
  predicate Fair(nature: Nature, cand: Candidate, floor: Option<real>, outcome: Outcome) {
    match outcome
    case Measured(rate) => nature(cand) == Some(rate)
    case Pruned(_) => floor.Some? && nature(cand).Some? && nature(cand).value < floor.value
    case Failed(_) => nature(cand).None?
  }

  ghost predicate Prunes(oracle: Oracle, nature: Nature) {
    forall n: nat, cand, floor :: Fair(nature, cand, floor, oracle(n, cand, floor))
  }

  /** Every sample of an entry is its candidate's rate. */
  predicate Steady(nature: Nature, scored: seq<Scored>) {
    scored == [] || (
      var (cand, samples) := scored[|scored| - 1];
      && nature(cand).Some? && samples != [] && AllEqual(samples, nature(cand).value)
      && Steady(nature, scored[..|scored| - 1]))
  }

  predicate AllEqual(samples: seq<real>, rate: real) {
    samples == [] || (samples[|samples| - 1] == rate && AllEqual(samples[..|samples| - 1], rate))
  }

  lemma {:induction false} MeanOfEqual(samples: seq<real>, rate: real)
    requires AllEqual(samples, rate)
    ensures Sum(samples) == |samples| as real * rate
    ensures samples != [] ==> Mean(samples) == rate
  {
    if samples != [] {
      MeanOfEqual(samples[..|samples| - 1], rate);
      assert (|samples| - 1) as real * rate + rate == |samples| as real * rate;
      assert |samples| as real * rate / |samples| as real == rate;
    }
  }

  /** `p` is `u` without some entries that scored below `bar`. */
  predicate Drops(p: seq<Scored>, u: seq<Scored>, bar: real) {
    if u == [] then p == []
    else
      || (p != [] && p[|p| - 1] == u[|u| - 1] && Drops(p[..|p| - 1], u[..|u| - 1], bar))
      || (Mean(u[|u| - 1].1) < bar && Drops(p, u[..|u| - 1], bar))
  }

  lemma {:induction false} DropsMore(p: seq<Scored>, u: seq<Scored>, bar: real, higher: real)
    requires Drops(p, u, bar) && bar <= higher
    ensures Drops(p, u, higher)
    decreases |u|
  {
    if u != [] {
      if p != [] && p[|p| - 1] == u[|u| - 1] && Drops(p[..|p| - 1], u[..|u| - 1], bar) {
        DropsMore(p[..|p| - 1], u[..|u| - 1], bar, higher);
      } else {
        DropsMore(p, u[..|u| - 1], bar, higher);
      }
    }
  }

  lemma {:induction false} DropsItself(p: seq<Scored>, bar: real)
    ensures Drops(p, p, bar)
  {
    if p != [] {
      DropsItself(p[..|p| - 1], bar);
    }
  }

  /** Dropped entries were neither the top, nor contenders, nor the pick. */
  lemma {:induction false} DroppedDoNotMatter(p: seq<Scored>, u: seq<Scored>, low: real, bar: real)
    requires Drops(p, u, low) && low <= bar
    ensures |Contenders(p, bar)| == |Contenders(u, bar)|
    ensures Earliest(p, bar) == Earliest(u, bar)
    ensures Top(p) <= Top(u) && Top(u) <= MaxReal(Top(p), low)
    decreases |u|
  {
    if u != [] {
      if p != [] && p[|p| - 1] == u[|u| - 1] && Drops(p[..|p| - 1], u[..|u| - 1], low) {
        DroppedDoNotMatter(p[..|p| - 1], u[..|u| - 1], low, bar);
      } else {
        DroppedDoNotMatter(p, u[..|u| - 1], low, bar);
      }
    }
  }

  /** Where pruning stands after the first pass: the same entries but for some that scored below
      PRUNE_RATIO of the top. */
  ghost predicate SameButSlow(nature: Nature, p: seq<Scored>, u: seq<Scored>) {
    Steady(nature, p) && Steady(nature, u) && Top(p) == Top(u) && Drops(p, u, Top(p) * PRUNE_RATIO)
  }

  lemma SteadyMore(nature: Nature, scored: seq<Scored>, entry: Scored)
    requires Steady(nature, scored)
    requires nature(entry.0).Some? && entry.1 != [] && AllEqual(entry.1, nature(entry.0).value)
    ensures Steady(nature, scored + [entry])
    ensures Mean(entry.1) == nature(entry.0).value
    ensures Top(scored + [entry]) == MaxReal(Top(scored), nature(entry.0).value)
  {
    assert (scored + [entry])[..|scored|] == scored;
    MeanOfEqual(entry.1, nature(entry.0).value);
  }

  lemma BothScore(nature: Nature, p: seq<Scored>, u: seq<Scored>, cand: Candidate, rate: real)
    requires SameButSlow(nature, p, u) && nature(cand) == Some(rate)
    ensures SameButSlow(nature, p + [(cand, [rate])], u + [(cand, [rate])])
  {
    var entry := (cand, [rate]);
    assert AllEqual([rate], rate);
    SteadyMore(nature, p, entry);
    SteadyMore(nature, u, entry);
    assert (p + [entry])[..|p|] == p && (u + [entry])[..|u|] == u;
    DropsMore(p, u, Top(p) * PRUNE_RATIO, Top(p + [entry]) * PRUNE_RATIO);
  }

  lemma OneDrops(nature: Nature, p: seq<Scored>, u: seq<Scored>, cand: Candidate, rate: real)
    requires SameButSlow(nature, p, u) && nature(cand) == Some(rate)
    requires Top(p) > 0.0 && rate < Top(p) * PRUNE_RATIO
    ensures SameButSlow(nature, p, u + [(cand, [rate])])
  {
    var entry := (cand, [rate]);
    assert AllEqual([rate], rate);
    SteadyMore(nature, u, entry);
    assert (u + [entry])[..|u|] == u;
  }

  lemma TryKeepsSame(oracle: Oracle, nature: Nature, cand: Candidate, p: State, u: State)
    requires Prunes(oracle, nature) && SameButSlow(nature, p.scored, u.scored)
    ensures SameButSlow(nature, Try(oracle, cand, p).scored, Try(Patient(nature), cand, u).scored)
  {
    var floor := Floor(p.scored);
    var outcome := oracle(|p.history|, cand, floor);
    assert Fair(nature, cand, floor, outcome);
    match outcome
    case Measured(rate) => BothScore(nature, p.scored, u.scored, cand, rate);
    case Pruned(_) => OneDrops(nature, p.scored, u.scored, cand, nature(cand).value);
    case Failed(_) =>
  }

  lemma {:induction false} TryAllKeepsSame(oracle: Oracle, nature: Nature, cands: seq<Candidate>, p: State, u: State)
    requires Prunes(oracle, nature) && SameButSlow(nature, p.scored, u.scored)
    ensures SameButSlow(nature, TryAll(oracle, cands, p).scored, TryAll(Patient(nature), cands, u).scored)
  {
    if cands != [] {
      var last := |cands| - 1;
      TryAllKeepsSame(oracle, nature, cands[..last], p, u);
      TryKeepsSame(oracle, nature, cands[last],
        TryAll(oracle, cands[..last], p), TryAll(Patient(nature), cands[..last], u));
    }
  }

  /** The entries after every contender has been measured once more at its fixed rate. */
  function Resampled(nature: Nature, scored: seq<Scored>, bar: real): (r: seq<Scored>)
    requires Steady(nature, scored)
  {
    if scored == [] then []
    else
      var last := |scored| - 1;
      var (cand, samples) := scored[last];
      Resampled(nature, scored[..last], bar) +
      [(cand, if Mean(samples) >= bar then samples + [nature(cand).value] else samples)]
  }

  lemma {:induction false} AgainFrame(oracle: Oracle, idxs: seq<nat>, s: State, entry: Scored)
    requires Within(idxs, |s.scored|)
    ensures Within(idxs, |s.scored| + 1)
    ensures var t := AgainAll(oracle, idxs, s);
      AgainAll(oracle, idxs, s.(scored := s.scored + [entry])) == t.(scored := t.scored + [entry])
  {
    WithinMore(idxs, |s.scored|, |s.scored| + 1);
    if idxs != [] {
      var last := |idxs| - 1;
      AgainFrame(oracle, idxs[..last], s, entry);
      var t := AgainAll(oracle, idxs[..last], s);
      var k := idxs[last];
      var e := t.scored[k];
      var outcome := oracle(|t.history|, e.0, None);
      if outcome.Measured? {
        var x := (e.0, e.1 + [outcome.rate]);
        assert (t.scored + [entry])[k := x] == t.scored[k := x] + [entry];
      }
    }
  }

  lemma LastAgain(oracle: Oracle, nature: Nature, before: seq<nat>, last: nat, s: State)
    requires Prunes(oracle, nature)
    requires Within(before, |s.scored|) && last + 1 == |s.scored|
    requires AgainAll(oracle, before, s).scored[last] == s.scored[last] && nature(s.scored[last].0).Some?
    ensures Within(before + [last], |s.scored|)
    ensures var (cand, samples) := s.scored[last];
      AgainAll(oracle, before + [last], s).scored ==
      AgainAll(oracle, before, s).scored[..last] + [(cand, samples + [nature(cand).value])]
  {
    WithinSnoc(before, last, |s.scored|);
    assert (before + [last])[..|before|] == before;
    var t := AgainAll(oracle, before, s);
    var outcome := oracle(|t.history|, s.scored[last].0, None);
    assert Fair(nature, s.scored[last].0, None, outcome);
  }

  lemma ContendersSnoc(scored: seq<Scored>, entry: Scored, bar: real)
    ensures var before := Contenders(scored, bar);
      Contenders(scored + [entry], bar) == if Mean(entry.1) >= bar then before + [|scored|] else before
  {
    assert (scored + [entry])[..|scored|] == scored;
  }

  lemma ResampledSnoc(nature: Nature, scored: seq<Scored>, entry: Scored, bar: real)
    requires Steady(nature, scored) && Steady(nature, scored + [entry])
    ensures Resampled(nature, scored + [entry], bar) ==
      Resampled(nature, scored, bar) +
      [(entry.0, if Mean(entry.1) >= bar then entry.1 + [nature(entry.0).value] else entry.1)]
  {
    assert (scored + [entry])[..|scored|] == scored;
  }

  lemma OneMoreAgain(oracle: Oracle, nature: Nature, scored: seq<Scored>, entry: Scored, bar: real, history: seq<Trial>)
    requires Prunes(oracle, nature) && Steady(nature, scored) && Steady(nature, scored + [entry])
    requires Within(Contenders(scored, bar), |scored|)
    requires AgainAll(oracle, Contenders(scored, bar), State(scored, history)).scored == Resampled(nature, scored, bar)
    ensures Within(Contenders(scored + [entry], bar), |scored| + 1)
    ensures AgainAll(oracle, Contenders(scored + [entry], bar), State(scored + [entry], history)).scored
         == Resampled(nature, scored + [entry], bar)
  {
    hide Mean, Fair, Contenders, Resampled;
    var before := Contenders(scored, bar);
    ContendersAreIndices(scored + [entry], bar);
    ContendersSnoc(scored, entry, bar);
    ResampledSnoc(nature, scored, entry, bar);
    AgainFrame(oracle, before, State(scored, history), entry);
    if Mean(entry.1) >= bar {
      LastAgain(oracle, nature, before, |scored|, State(scored + [entry], history));
    }
  }

  lemma {:induction false} AgainIsResampled(
    oracle: Oracle, nature: Nature, scored: seq<Scored>, bar: real, history: seq<Trial>)
    requires Prunes(oracle, nature) && Steady(nature, scored)
    ensures Within(Contenders(scored, bar), |scored|)
    ensures AgainAll(oracle, Contenders(scored, bar), State(scored, history)).scored == Resampled(nature, scored, bar)
  {
    ContendersAreIndices(scored, bar);
    if scored != [] {
      var last := |scored| - 1;
      AgainIsResampled(oracle, nature, scored[..last], bar, history);
      ContendersAreIndices(scored[..last], bar);
      assert scored[..last] + [scored[last]] == scored;
      OneMoreAgain(oracle, nature, scored[..last], scored[last], bar, history);
    }
  }

  lemma SteadyEntry(nature: Nature, entry: Scored)
    requires nature(entry.0).Some? && entry.1 != [] && AllEqual(entry.1, nature(entry.0).value)
    ensures var more := entry.1 + [nature(entry.0).value];
      AllEqual(more, nature(entry.0).value) && Mean(more) == Mean(entry.1)
  {
    var rate := nature(entry.0).value;
    assert (entry.1 + [rate])[..|entry.1|] == entry.1;
    MeanOfEqual(entry.1, rate);
    MeanOfEqual(entry.1 + [rate], rate);
  }

  /** Measuring at a fixed rate again changes no mean. */
  lemma {:induction false} ResampledIsSteady(nature: Nature, scored: seq<Scored>, bar: real)
    requires Steady(nature, scored)
    ensures |Resampled(nature, scored, bar)| == |scored|
    ensures Steady(nature, Resampled(nature, scored, bar))
    ensures Top(Resampled(nature, scored, bar)) == Top(scored)
  {
    if scored != [] {
      var last := |scored| - 1;
      ResampledIsSteady(nature, scored[..last], bar);
      SteadyEntry(nature, scored[last]);
      var after := Resampled(nature, scored, bar);
      assert after[..last] == Resampled(nature, scored[..last], bar);
    }
  }

  lemma ResampledLast(nature: Nature, scored: seq<Scored>, bar: real)
    requires Steady(nature, scored) && scored != []
    ensures var last, after := |scored| - 1, Resampled(nature, scored, bar);
      && |after| == |scored| && after[..last] == Resampled(nature, scored[..last], bar)
      && Mean(after[last].1) == Mean(scored[last].1)
  {
    ResampledIsSteady(nature, scored[..|scored| - 1], bar);
    SteadyEntry(nature, scored[|scored| - 1]);
  }

  lemma {:induction false} ResampledDrops(nature: Nature, p: seq<Scored>, u: seq<Scored>, low: real, bar: real)
    requires Steady(nature, p) && Steady(nature, u) && Drops(p, u, low)
    ensures Drops(Resampled(nature, p, bar), Resampled(nature, u, bar), low)
    decreases |u|
  {
    if u != [] {
      ResampledLast(nature, u, bar);
      if p != [] && p[|p| - 1] == u[|u| - 1] && Drops(p[..|p| - 1], u[..|u| - 1], low) {
        ResampledLast(nature, p, bar);
        ResampledDrops(nature, p[..|p| - 1], u[..|u| - 1], low, bar);
      } else {
        ResampledDrops(nature, p, u[..|u| - 1], low, bar);
      }
    }
  }

  /** What a rematch makes of steady entries. */
  function Rescored(nature: Nature, scored: seq<Scored>): seq<Scored>
    requires Steady(nature, scored)
  {
    var bar := Top(scored) * PRUNE_RATIO;
    if |Contenders(scored, bar)| > 1 then Resampled(nature, scored, bar) else scored
  }

  lemma RematchIsRescored(oracle: Oracle, nature: Nature, s: State)
    requires Prunes(oracle, nature) && Steady(nature, s.scored)
    ensures Rematch(oracle, s).scored == Rescored(nature, s.scored)
  {
    assert Top(s.scored) * (1.0 - CLOSE) == Top(s.scored) * PRUNE_RATIO;
    AgainIsResampled(oracle, nature, s.scored, Top(s.scored) * PRUNE_RATIO, s.history);
  }

  lemma ResampledKeepsSame(nature: Nature, p: seq<Scored>, u: seq<Scored>, bar: real)
    requires SameButSlow(nature, p, u)
    ensures SameButSlow(nature, Resampled(nature, p, bar), Resampled(nature, u, bar))
  {
    ResampledIsSteady(nature, p, bar);
    ResampledIsSteady(nature, u, bar);
    ResampledDrops(nature, p, u, Top(p) * PRUNE_RATIO, bar);
  }

  lemma SameContenders(p: seq<Scored>, u: seq<Scored>, bar: real)
    requires Drops(p, u, bar)
    ensures |Contenders(p, bar)| == |Contenders(u, bar)|
  {
    DroppedDoNotMatter(p, u, bar, bar);
  }

  lemma RescoredKeepsSame(nature: Nature, p: seq<Scored>, u: seq<Scored>)
    requires SameButSlow(nature, p, u)
    ensures SameButSlow(nature, Rescored(nature, p), Rescored(nature, u))
  {
    hide Mean, Steady, Drops, Top, Contenders, Resampled;
    var bar := Top(p) * PRUNE_RATIO;
    SameContenders(p, u, bar);
    if |Contenders(p, bar)| > 1 {
      ResampledKeepsSame(nature, p, u, bar);
      assert Rescored(nature, p) == Resampled(nature, p, bar) && Rescored(nature, u) == Resampled(nature, u, bar);
    } else {
      assert Rescored(nature, p) == p && Rescored(nature, u) == u;
    }
  }

  lemma RematchKeepsSame(oracle: Oracle, nature: Nature, p: State, u: State)
    requires Prunes(oracle, nature) && SameButSlow(nature, p.scored, u.scored)
    ensures SameButSlow(nature, Rematch(oracle, p).scored, Rematch(Patient(nature), u).scored)
  {
    assert Prunes(Patient(nature), nature);
    RematchIsRescored(oracle, nature, p);
    RematchIsRescored(Patient(nature), nature, u);
    RescoredKeepsSame(nature, p.scored, u.scored);
  }

  lemma {:induction false} EarliestIsSteady(nature: Nature, scored: seq<Scored>, bar: real)
    requires Steady(nature, scored)
    ensures Steady(nature, Start(Earliest(scored, bar)))
  {
    if scored != [] {
      EarliestIsSteady(nature, scored[..|scored| - 1], bar);
    }
  }

  lemma PickIsSame(nature: Nature, p: seq<Scored>, u: seq<Scored>)
    requires SameButSlow(nature, p, u)
    ensures Pick(p) == Pick(u) && Steady(nature, Start(Pick(p)))
  {
    TopIsTop(p);
    DroppedDoNotMatter(p, u, Top(p) * PRUNE_RATIO, Top(p) * (1.0 - TIE));
    EarliestIsSteady(nature, p, Top(p) * (1.0 - TIE));
  }

  /** One stage picks the same entry, with the same samples, whether or not slow trials are stopped. */
  lemma StageIsUnmoved(
    oracle: Oracle, nature: Nature, cands: seq<Candidate>, incumbent: Option<Scored>, hp: seq<Trial>, hu: seq<Trial>)
    requires Prunes(oracle, nature) && Steady(nature, Start(incumbent))
    ensures var p, u := StageEnd(oracle, cands, incumbent, hp), StageEnd(Patient(nature), cands, incumbent, hu);
      Pick(p.scored) == Pick(u.scored) && Steady(nature, Start(Pick(p.scored)))
  {
    var scored := Start(incumbent);
    TopIsTop(scored);
    DropsItself(scored, Top(scored) * PRUNE_RATIO);
    TryAllKeepsSame(oracle, nature, cands, State(scored, hp), State(scored, hu));
    RematchKeepsSame(oracle, nature, TryAll(oracle, cands, State(scored, hp)),
      TryAll(Patient(nature), cands, State(scored, hu)));
    PickIsSame(nature,
      StageEnd(oracle, cands, incumbent, hp).scored, StageEnd(Patient(nature), cands, incumbent, hu).scored);
  }

  /** If every candidate always yields the same rate, the search ends on the same candidate and rate as
      one that never stops a trial early. */
  lemma PruningIsHarmless(oracle: Oracle, nature: Nature, space: Space)
    requires Prunes(oracle, nature)
    ensures Searched(oracle, space).0 == Searched(Patient(nature), space).0
  {
    StageIsUnmoved(oracle, nature, StageA(space), None, [], []);
    var p, u := StageEnd(oracle, StageA(space), None, []), StageEnd(Patient(nature), StageA(space), None, []);
    var leader := Pick(p.scored);
    if leader.Some? {
      StageIsUnmoved(oracle, nature, StageB(space, leader.value.0), leader, p.history, u.history);
    }
  }
}
