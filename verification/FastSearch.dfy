/** The fast search: a walk along a ladder of server-thread counts, starting at the backend's usual
    winner. */
module FastSearch {
  import opened Common
  import opened Config
  import opened Search

  const SERVER_LADDER: seq<nat> := [1, 2, 4, 8, 16]
  const MIN_BATCH := 8
  const HEADROOM_BATCH := 64
  const ROCM_PRIOR := 8
  const WGPU_PRIOR := 4
  const PRUNE_RATIO := 0.92
  const TIE := 0.03

  // ----- sizing

  predicate PowerOfTwo(n: nat) {
    n == 1 || (n > 0 && n % 2 == 0 && PowerOfTwo(n / 2))
  }

  /** The largest power of two not above `num`, or 0. */
  function FloorPow2(num: nat): (r: nat)
    ensures num == 0 ==> r == 0
    ensures num > 0 ==> PowerOfTwo(r) && r <= num < 2 * r
  {
    if num <= 1 then num else 2 * FloorPow2(num / 2)
  }

  function BatchCap(total: nat, servers: nat): nat
    requires servers > 0
  {
    Max(Max(total / servers, Min(HEADROOM_BATCH, total)), 1)
  }

  /** Positions the GPU should have in flight. */
  function InFlight(lanes: Option<nat>, depth: nat): nat {
    var want := if lanes.Some? then Max(128, Min(512, FloorPow2(lanes.value / 16))) else 256;
    var room := Max(FloorPow2(Min(depth, U32_MAX)), 64);
    Min(want, room)
  }

  lemma SmallPowers(n: nat)
    requires PowerOfTwo(n) && 64 <= n <= 512
    ensures n == 64 || n == 128 || n == 256 || n == 512
  {
    var m := n / 2 / 2 / 2 / 2 / 2 / 2;
    assert PowerOfTwo(n / 2) && PowerOfTwo(n / 2 / 2) && PowerOfTwo(n / 2 / 2 / 2);
    assert PowerOfTwo(n / 2 / 2 / 2 / 2) && PowerOfTwo(n / 2 / 2 / 2 / 2 / 2) && PowerOfTwo(m);
    assert n == 64 * m && 1 <= m <= 8;
    if m > 1 {
      assert PowerOfTwo(m / 2);
      if m / 2 > 1 {
        assert PowerOfTwo(m / 2 / 2);
      }
    }
  }

  /** Positions in flight: a power of two from 64 to 512, never more than the queue holds (or 64). */
  lemma InFlightIsSane(lanes: Option<nat>, depth: nat)
    ensures var n := InFlight(lanes, depth); PowerOfTwo(n) && 64 <= n <= 512 && n <= Max(64, depth)
  {
    SmallPowersAre();
    hide PowerOfTwo, FloorPow2;
  }

  /** A power of two is reached by its own floor. */
  lemma {:induction false} FloorReaches(num: nat, p: nat)
    requires PowerOfTwo(p)
    ensures p <= FloorPow2(num) <==> p <= num
  {
    if num > 0 && p > 1 {
      FloorReaches(num / 2, p / 2);
    }
  }

  /** The documented range from 128 up is met exactly by queues of at least 128, and the size never
      exceeds the queue exactly from 64 up. */
  lemma InFlightIsExact(lanes: Option<nat>, depth: nat)
    ensures InFlight(lanes, depth) >= 128 <==> depth >= 128
    ensures InFlight(lanes, depth) <= depth <==> depth >= 64
  {
    SmallPowersAre();
    hide PowerOfTwo, FloorPow2;
    InFlightIsSane(lanes, depth);
    FloorReaches(Min(depth, U32_MAX), 128);
    FloorReaches(Min(depth, U32_MAX), 64);
  }

  /** The size the hardware asks for: of the powers of two from 128 to 512 that the queue holds, those not
      above a sixteenth of the SIMD lanes, or not above 256 where the lanes are not known. */
  lemma InFlightFollowsLanes(lanes: Option<nat>, depth: nat, p: nat)
    requires p == 256 || p == 512
    ensures p <= InFlight(lanes, depth) <==> p <= depth && p <= (if lanes.Some? then lanes.value / 16 else 256)
  {
    SmallPowersAre();
    hide PowerOfTwo, FloorPow2;
    FloorReaches(Min(depth, U32_MAX), p);
    if lanes.Some? {
      FloorReaches(lanes.value / 16, p);
    }
  }

  lemma SmallPowersAre()
    ensures PowerOfTwo(64) && PowerOfTwo(128) && PowerOfTwo(256) && PowerOfTwo(512)
  {
  }

  /** A queue of 100 positions gets 64 in flight, one of 63 gets more than it holds. */
  lemma ShortQueuesMissTheRange()
    ensures InFlight(None, 100) == 64 < 128
    ensures InFlight(None, 63) == 64 > 63
  {
    assert FloorPow2(1) == 1 && FloorPow2(3) == 2 && FloorPow2(6) == 4 && FloorPow2(12) == 8;
    assert FloorPow2(25) == 16 && FloorPow2(50) == 32 && FloorPow2(100) == 64;
    assert FloorPow2(7) == 4 && FloorPow2(15) == 8 && FloorPow2(31) == 16 && FloorPow2(63) == 32;
  }

  // ----- the space

  type Rung = (Option<nat>, Option<nat>)

  datatype Space = Space(total: nat, analysisThreads: Option<nat>, ladder: seq<Rung>, prior: nat)

  /** A pinned key: not pinned, pinned to a number, or pinned to something that is not one. */
  datatype Pin = Free | Number(n: nat) | Garbage

  function LadderFor(total: nat, servers: seq<nat>): seq<Rung>
    requires forall i :: 0 <= i < |servers| ==> servers[i] > 0
  {
    if servers == [] then []
    else
      var rest := LadderFor(total, servers[1..]);
      if servers[0] == 1 || total / servers[0] >= MIN_BATCH
      then [(Some(servers[0]), Some(BatchCap(total, servers[0])))] + rest
      else rest
  }

  function Rungs(total: nat, servers: Pin, batch: Pin): seq<Rung> {
    if !servers.Free? && !batch.Free? then [(None, None)]
    else if !servers.Free? then
      [(None, if servers.Number? && servers.n > 0 then Some(BatchCap(total, servers.n)) else None)]
    else if !batch.Free? then
      [(if batch.Number? && batch.n > 0 then Some(Max(total / batch.n, 1)) else None, None)]
    else LadderFor(total, SERVER_LADDER)
  }

  predicate AtMost(rung: Rung, want: nat) {
    rung.0.None? || rung.0.value <= want
  }

  /** The last index whose rung is at most `want`, or 0. */
  function LastAtMost(ladder: seq<Rung>, want: nat): (p: nat)
    ensures ladder != [] ==> p < |ladder|
  {
    if ladder == [] then 0
    else if AtMost(ladder[|ladder| - 1], want) then |ladder| - 1
    else LastAtMost(ladder[..|ladder| - 1], want)
  }

  function Want(backend: Backend): nat {
    if backend.Rocm? then ROCM_PRIOR else WGPU_PRIOR
  }

  function NewSpace(threads: Pin, servers: Pin, batch: Pin, depth: nat, backend: Backend, lanes: Option<nat>): Space {
    var total := InFlight(lanes, depth);
    var ladder := Rungs(total, servers, batch);
    Space(total, if threads.Free? then Some(total) else None, ladder, LastAtMost(ladder, Want(backend)))
  }

  lemma {:induction false} LastAtMostIsLast(ladder: seq<Rung>, want: nat)
    requires ladder != [] && AtMost(ladder[0], want)
    ensures var p := LastAtMost(ladder, want);
      && p < |ladder| && AtMost(ladder[p], want)
      && forall i :: p < i < |ladder| ==> !AtMost(ladder[i], want)
  {
    var last := |ladder| - 1;
    if !AtMost(ladder[last], want) {
      LastAtMostIsLast(ladder[..last], want);
    }
  }

  lemma FullLadder(total: nat)
    requires total == 64 || total == 128 || total == 256 || total == 512
    ensures LadderFor(total, SERVER_LADDER) ==
      [(Some(1), Some(total)),
       (Some(2), Some(Max(total / 2, 64))),
       (Some(4), Some(Max(total / 4, 64))),
       (Some(8), Some(64))] + (if total == 64 then [] else [(Some(16), Some(64))])
  {
    assert SERVER_LADDER[1..] == [2, 4, 8, 16];
    assert SERVER_LADDER[1..][1..] == [4, 8, 16];
    assert [4, 8, 16][1..] == [8, 16];
    assert [8, 16][1..] == [16];
    assert LadderFor(total, [16]) == if total == 64 then [] else [(Some(16), Some(64))];
  }

  /** A rung whose batch fits into the positions in flight and whose servers can hold them all. */
  predicate HoldsAll(rung: Rung, total: nat) {
    rung.0.Some? && rung.1.Some? && rung.1.value <= total <= rung.0.value * rung.1.value
  }

  lemma FullLadderIsSane(total: nat, backend: Backend)
    requires total == 64 || total == 128 || total == 256 || total == 512
    ensures var ladder := LadderFor(total, SERVER_LADDER);
      && |ladder| >= 4
      && (forall i :: 0 <= i < |ladder| ==> HoldsAll(ladder[i], total))
      && (forall i, j :: 0 <= i < j < |ladder| ==> ladder[i].0.value < ladder[j].0.value)
      && AtMost(ladder[0], Want(backend))
  {
    FullLadder(total);
  }

  predicate UsableRung(rung: Rung) {
    (rung.0.Some? ==> 0 < rung.0.value <= U32_MAX) && (rung.1.Some? ==> 0 < rung.1.value <= U32_MAX)
  }

  lemma CapIsUsable(total: nat)
    requires total <= 512
    ensures forall servers: nat :: servers > 0 ==> 0 < BatchCap(total, servers) <= 512
  {
    forall servers: nat | servers > 0 ensures 0 < BatchCap(total, servers) <= 512 {
      Shares(total, servers);
    }
  }

  lemma {:induction false} LadderIsUsable(total: nat, servers: seq<nat>, idx: nat)
    requires total <= 512 && forall i :: 0 <= i < |servers| ==> 0 < servers[i] <= 16
    requires idx < |LadderFor(total, servers)|
    ensures UsableRung(LadderFor(total, servers)[idx])
  {
    CapIsUsable(total);
    hide BatchCap;
    if servers[0] == 1 || total / servers[0] >= MIN_BATCH {
      if idx > 0 {
        LadderIsUsable(total, servers[1..], idx - 1);
      }
    } else {
      LadderIsUsable(total, servers[1..], idx);
    }
  }

  /** Whatever is pinned, no rung sets a key to 0. */
  lemma RungsAreUsable(servers: Pin, batch: Pin, depth: nat, lanes: Option<nat>, idx: nat)
    requires idx < |Rungs(InFlight(lanes, depth), servers, batch)|
    ensures UsableRung(Rungs(InFlight(lanes, depth), servers, batch)[idx])
    ensures 0 < InFlight(lanes, depth) <= U32_MAX
  {
    var total := InFlight(lanes, depth);
    InFlightIsSane(lanes, depth);
    hide InFlight, PowerOfTwo, LadderFor, BatchCap;
    if servers.Free? && batch.Free? {
      SmallPowers(total);
      LadderIsUsable(total, SERVER_LADDER, idx);
    } else {
      CapIsUsable(total);
      if servers.Number? && servers.n > 0 {
        Shares(total, servers.n);
      }
      if batch.Number? && batch.n > 0 {
        Shares(total, batch.n);
      }
    }
  }

  lemma {:induction false} ProductGrows(n: int, q: int)
    requires n > 0 && q >= 0
    ensures n * q >= q
    decreases n
  {
    if n > 1 {
      ProductGrows(n - 1, q);
      assert n * q == (n - 1) * q + q;
    }
  }

  lemma Shares(total: int, n: int)
    requires n > 0 && total >= 0
    ensures 0 <= total / n <= total
  {
    var q, r := total / n, total % n;
    assert total == n * q + r && 0 <= r < n;
    ProductGrows(n, q);
  }

  /** Every space has a rung, and its prior indexes it. */
  lemma PriorIsARung(threads: Pin, servers: Pin, batch: Pin, depth: nat, backend: Backend, lanes: Option<nat>)
    ensures var s := NewSpace(threads, servers, batch, depth, backend, lanes); s.prior < |s.ladder|
  {
    if servers.Free? && batch.Free? {
      FreeSpaceIsSane(threads, depth, backend, lanes);
    }
  }

  /** With neither key pinned, the rungs' server counts ascend, every rung's batch fits into the
      positions in flight and its servers can hold them all, and the prior is the last rung not above
      the backend's preference. */
  lemma FreeSpaceIsSane(threads: Pin, depth: nat, backend: Backend, lanes: Option<nat>)
    ensures var s := NewSpace(threads, Free, Free, depth, backend, lanes);
      && s.total == InFlight(lanes, depth)
      && s.prior < |s.ladder| && |s.ladder| >= 4
      && (forall i :: 0 <= i < |s.ladder| ==> HoldsAll(s.ladder[i], s.total))
      && (forall i, j :: 0 <= i < j < |s.ladder| ==> s.ladder[i].0.value < s.ladder[j].0.value)
      && AtMost(s.ladder[s.prior], Want(backend))
      && (forall i :: s.prior < i < |s.ladder| ==> !AtMost(s.ladder[i], Want(backend)))
  {
    hide PowerOfTwo, FloorPow2, BatchCap, LadderFor, InFlight;
    var total := InFlight(lanes, depth);
    InFlightIsSane(lanes, depth);
    SmallPowers(total);
    FullLadderIsSane(total, backend);
    var ladder := Rungs(total, Free, Free);
    assert ladder == LadderFor(total, SERVER_LADDER);
    LastAtMostIsLast(ladder, Want(backend));
  }

  /** With neither key pinned the walk starts at 8 servers on ROCm and at 4 elsewhere. */
  lemma PriorIsTheUsualWinner(threads: Pin, depth: nat, backend: Backend, lanes: Option<nat>)
    ensures var s := NewSpace(threads, Free, Free, depth, backend, lanes);
      s.prior < |s.ladder| && s.ladder[s.prior].0 == Some(if backend.Rocm? then 8 else 4)
  {
    hide PowerOfTwo, FloorPow2, BatchCap, LadderFor, InFlight, LastAtMost;
    var total := InFlight(lanes, depth);
    InFlightIsSane(lanes, depth);
    SmallPowers(total);
    FullLadder(total);
    FreeSpaceIsSane(threads, depth, backend, lanes);
    var s := NewSpace(threads, Free, Free, depth, backend, lanes);
    assert s.ladder[0].0 == Some(1) && s.ladder[1].0 == Some(2) && s.ladder[2].0 == Some(4) && s.ladder[3].0 == Some(8);
    assert AtMost(s.ladder[2], Want(backend)) && (backend.Rocm? ==> AtMost(s.ladder[3], Want(backend)));
  }

  // ----- the walk

  function CandidateAt(space: Space, idx: nat): Candidate
    requires idx < |space.ladder|
  {
    Candidate(space.analysisThreads, space.ladder[idx].0, space.ladder[idx].1)
  }

  predicate IsFixed(space: Space) {
    |space.ladder| <= 1
  }

  /** The rate to beat after these trials: it moves only to a rate more than TIE above it. */
  function Leader(history: seq<Trial>): Option<real> {
    if history == [] then None
    else
      var before, last := Leader(history[..|history| - 1]), history[|history| - 1].1;
      if last.Measured? && (before.None? || last.rate > before.value * (1.0 + TIE)) then Some(last.rate) else before
  }

  lemma LeaderMore(history: seq<Trial>, t: Trial)
    ensures Leader(history + [t]) ==
      if t.1.Measured? && (Leader(history).None? || t.1.rate > Leader(history).value * (1.0 + TIE))
      then Some(t.1.rate) else Leader(history)
  {
    assert (history + [t])[..|history|] == history;
  }

  /** The floor the next trial may be stopped below. */
  function PruneBelow(history: seq<Trial>): Option<real> {
    var leader := Leader(history);
    if leader.Some? then Some(leader.value * PRUNE_RATIO) else None
  }

  ghost predicate NonNegative(history: seq<Trial>) {
    forall i :: 0 <= i < |history| && history[i].1.Measured? ==> history[i].1.rate >= 0.0
  }

  /** Nothing measured is more than TIE above the leader. */
  lemma {:induction false} LeaderIsNearTop(history: seq<Trial>)
    requires NonNegative(history)
    ensures Leader(history).None? <==> forall i :: 0 <= i < |history| ==> !history[i].1.Measured?
    ensures Leader(history).Some? ==> Leader(history).value >= 0.0
    ensures Leader(history).Some? ==>
      forall i :: 0 <= i < |history| && history[i].1.Measured? ==>
        history[i].1.rate <= Leader(history).value * (1.0 + TIE)
  {
    if history != [] {
      LeaderIsNearTop(history[..|history| - 1]);
      assert forall i :: 0 <= i < |history| - 1 ==> history[..|history| - 1][i] == history[i];
    }
  }

  /** A trial may be stopped only once something has been measured, and only clearly below the leader: one
      that stays below its floor could not have won. */
  lemma FloorIsBelowLeader(history: seq<Trial>, rate: real)
    requires NonNegative(history)
    ensures PruneBelow(history).Some? <==> exists i :: 0 <= i < |history| && history[i].1.Measured?
    ensures PruneBelow(history).Some? ==>
      && Leader(history).Some? && PruneBelow(history).value == 0.92 * Leader(history).value
      && (rate < PruneBelow(history).value ==> rate <= Leader(history).value * (1.0 + TIE))
  {
    LeaderIsNearTop(history);
  }

  function FirstUndone(measured: seq<bool>, from: nat): (r: Option<nat>)
    ensures r.Some? ==> from <= r.value < |measured| && !measured[r.value]
    ensures r.None? ==> forall i :: from <= i < |measured| ==> measured[i]
    decreases |measured| - from
  {
    if from >= |measured| then None else if !measured[from] then Some(from) else FirstUndone(measured, from + 1)
  }

  /** The rung one `step` away, if there is one and it has not been measured. */
  function Neighbour(measured: seq<bool>, at: nat, step: int): Option<nat> {
    var idx := at + step;
    if 0 <= idx < |measured| && !measured[idx] then Some(idx) else None
  }

  /** The rungs tried, as a set. */
  ghost function Visited(tried: seq<nat>): set<nat> {
    if tried == [] then {} else Visited(tried[..|tried| - 1]) + {tried[|tried| - 1]}
  }

  /** The trials so far: trial `i` measured rung `tried[i]`, not tried before, with the floor of that
      moment. */
  ghost predicate Recorded(space: Space, oracle: Oracle, tried: seq<nat>, history: seq<Trial>) {
    && |tried| == |history|
    && (tried != [] ==>
          var last := |tried| - 1;
          && Recorded(space, oracle, tried[..last], history[..last])
          && tried[last] < |space.ladder|
          && tried[last] !in Visited(tried[..last])
          && history[last].0 == CandidateAt(space, tried[last])
          && history[last].1 == oracle(last, history[last].0, PruneBelow(history[..last])))
  }

  lemma RecordMore(space: Space, oracle: Oracle, tried: seq<nat>, history: seq<Trial>, idx: nat, outcome: Outcome)
    requires Recorded(space, oracle, tried, history)
    requires idx < |space.ladder| && idx !in Visited(tried)
    requires outcome == oracle(|tried|, CandidateAt(space, idx), PruneBelow(history))
    ensures Recorded(space, oracle, tried + [idx], history + [(CandidateAt(space, idx), outcome)])
    ensures Visited(tried + [idx]) == Visited(tried) + {idx}
  {
    assert (tried + [idx])[..|tried|] == tried;
    assert (history + [(CandidateAt(space, idx), outcome)])[..|history|] == history;
  }

  lemma {:induction false} VisitedIsTried(tried: seq<nat>, i: nat)
    ensures i in Visited(tried) <==> i in tried
  {
    if tried != [] {
      var last := |tried| - 1;
      VisitedIsTried(tried[..last], i);
      assert tried == tried[..last] + [tried[last]];
    }
  }

  /** Trial `i` set the two sides of rung `tried[i]`: its servers and its batch, and the space's analysis
      threads; its outcome is what that candidate gave. */
  lemma {:induction false} TrialSetsItsRung(
    space: Space, oracle: Oracle, tried: seq<nat>, history: seq<Trial>, i: nat)
    requires Recorded(space, oracle, tried, history) && i < |history|
    ensures i < |tried| && tried[i] < |space.ladder|
    ensures var cand := history[i].0;
      && cand.servers == space.ladder[tried[i]].0 && cand.batch == space.ladder[tried[i]].1
      && cand.analysisThreads == space.analysisThreads
      && exists floor :: history[i].1 == oracle(i, cand, floor)
  {
    var last := |tried| - 1;
    if i < last {
      TrialSetsItsRung(space, oracle, tried[..last], history[..last], i);
      assert tried[..last][i] == tried[i] && history[..last][i] == history[i];
    }
  }

  lemma {:induction false} LadderHas(total: nat, servers: seq<nat>, rung: Rung)
    requires forall i :: 0 <= i < |servers| ==> servers[i] > 0
    requires rung in LadderFor(total, servers)
    ensures rung.0.Some? && rung.0.value in servers && (rung.0.value == 1 || total / rung.0.value >= MIN_BATCH)
    ensures rung.1 == Some(Max(Max(total / rung.0.value, Min(HEADROOM_BATCH, total)), 1))
  {
    if rung != (Some(servers[0]), Some(BatchCap(total, servers[0]))) || rung in LadderFor(total, servers[1..]) {
      LadderHas(total, servers[1..], rung);
    }
  }

  /** What a rung means. A pinned key is left alone; with one of the two pinned the other is derived from
      it; with both free, servers come from the ladder, the batch fits into the positions in flight, and
      the servers together hold them all. */
  lemma RungMeans(threads: Pin, servers: Pin, batch: Pin, depth: nat, backend: Backend, lanes: Option<nat>, idx: nat)
    requires idx < |NewSpace(threads, servers, batch, depth, backend, lanes).ladder|
    ensures var space, total := NewSpace(threads, servers, batch, depth, backend, lanes), InFlight(lanes, depth);
      var rung := space.ladder[idx];
      && space.analysisThreads == (if threads.Free? then Some(total) else None)
      && (!servers.Free? ==> rung.0.None?) && (!batch.Free? ==> rung.1.None?)
      && (servers.Free? && batch.Free? ==>
            && rung.0.Some? && rung.0.value in [1, 2, 4, 8, 16]
            && rung.1.Some? && rung.1.value <= total <= rung.0.value * rung.1.value)
      && (servers.Number? && servers.n > 0 && batch.Free? ==>
            rung.1 == Some(Max(Max(total / servers.n, Min(64, total)), 1)))
      && (batch.Number? && batch.n > 0 && servers.Free? ==> rung.0 == Some(Max(total / batch.n, 1)))
      && ((servers.Garbage? || servers == Number(0)) && batch.Free? ==> rung.1.None?)
      && ((batch.Garbage? || batch == Number(0)) && servers.Free? ==> rung.0.None?)
  {
    hide InFlight, LadderFor, LastAtMost;
    if servers.Free? && batch.Free? {
      FreeSpaceIsSane(threads, depth, backend, lanes);
      LadderHas(InFlight(lanes, depth), SERVER_LADDER, LadderFor(InFlight(lanes, depth), SERVER_LADDER)[idx]);
    }
  }

  /** Each rung is tried at most once, so the search takes at most as many trials as there are rungs. */
  lemma {:induction false} NoRungTwice(space: Space, oracle: Oracle, tried: seq<nat>, history: seq<Trial>)
    requires Recorded(space, oracle, tried, history)
    ensures forall i, j :: 0 <= i < j < |tried| ==> tried[i] != tried[j]
    ensures |Visited(tried)| == |tried| <= |space.ladder|
  {
    VisitedIsBounded(space, oracle, tried, history);
    if tried != [] {
      var last := |tried| - 1;
      NoRungTwice(space, oracle, tried[..last], history[..last]);
      forall i | 0 <= i < last ensures tried[i] != tried[last] {
        VisitedIsTried(tried[..last], tried[i]);
        assert tried[..last][i] == tried[i];
      }
    }
  }

  lemma {:induction false} VisitedIsBounded(space: Space, oracle: Oracle, tried: seq<nat>, history: seq<Trial>)
    requires Recorded(space, oracle, tried, history)
    ensures forall i :: i in Visited(tried) ==> i < |space.ladder|
    ensures |Visited(tried)| == |tried| <= |space.ladder|
  {
    if tried != [] {
      VisitedIsBounded(space, oracle, tried[..|tried| - 1], history[..|tried| - 1]);
    }
    BelowBound(Visited(tried), |space.ladder|);
  }

  lemma {:induction false} BelowBound(s: set<nat>, n: nat)
    requires forall i :: i in s ==> i < n
    ensures |s| <= n
    decreases n
  {
    if n == 0 {
      assert s == {};
    } else {
      BelowBound(s - {n - 1}, n - 1);
    }
  }

  /** Both neighbours of rung `w` on the ladder were tried. */
  ghost predicate NeighboursTried(space: Space, tried: seq<nat>, w: nat) {
    (w > 0 ==> w - 1 in Visited(tried)) && (w + 1 < |space.ladder| ==> w + 1 in Visited(tried))
  }

  /** Where the walk goes after a trial: on in its direction while there is a new rung there, once to
      the other side of the best, or, while nothing has succeeded, to any rung not yet tried. */
  method NextRung(measured: seq<bool>, at: nat, turned: bool, found: bool)
    returns (next: Option<nat>, flipped: bool)
    requires found || !turned
    ensures next.Some? ==> next.value < |measured| && !measured[next.value]
    ensures turned ==> flipped
    ensures found && !flipped ==> next == Some(at + 1)
    ensures !turned && flipped ==> found && (at + 1 >= |measured| || measured[at + 1])
    ensures flipped ==> if next.Some? then next.value + 1 == at else at == 0 || at > |measured| || measured[at - 1]
    ensures !found ==> !flipped && (next.None? ==> forall i :: 0 <= i < |measured| ==> measured[i])
  {
    flipped := turned;
    next := Neighbour(measured, at, if flipped then -1 else 1);
    if next.None? && !flipped && found {
      flipped := true;
      next := Neighbour(measured, at, -1);
    }
    if !found && next.None? {
      next := FirstUndone(measured, 0);
    }
  }

  lemma AtLeastTwo(space: Space, oracle: Oracle, tried: seq<nat>, history: seq<Trial>, w: nat)
    requires Recorded(space, oracle, tried, history) && 2 <= |space.ladder| && w < |space.ladder|
    requires w in Visited(tried) && NeighboursTried(space, tried, w)
    ensures |tried| >= 2
  {
    var v := if w > 0 then w - 1 else w + 1;
    VisitedIsBounded(space, oracle, tried, history);
    assert {v, w} <= Visited(tried);
    Common.CardinalityIsMonotone({v, w}, Visited(tried));
  }

  /** Rung `at` is the best so far (if anything has been measured), and the rungs around it are tried
      or next. */
  ghost predicate Steering(measured: seq<bool>, at: nat, flipped: bool, found: bool, next: Option<nat>) {
    && at < |measured|
    && (next.Some? ==> next.value < |measured| && !measured[next.value])
    && (found ==> measured[at])
    && (found && !flipped ==> next == Some(at + 1))
    && (flipped ==> found && (at + 1 == |measured| || measured[at + 1]))
    && (flipped ==> if next.Some? then next.value + 1 == at else at == 0 || measured[at - 1])
    && (!found && next.None? ==> forall i :: 0 <= i < |measured| ==> measured[i])
  }

  /** Both neighbours of rung `at` have been measured. */
  predicate Settled(measured: seq<bool>, at: nat) {
    (0 < at <= |measured| ==> measured[at - 1]) && (at + 1 < |measured| ==> measured[at + 1])
  }

  /** What the walk does after measuring rung `idx`: a win moves it there; a first loss turns it to
      the other side of the best; a second one ends it. */
  method Turn(measured: seq<bool>, idx: nat, at: nat, flipped: bool, found: bool, won: bool)
    returns (over: bool, at': nat, flipped': bool, next: Option<nat>)
    requires Steering(measured, at, flipped, found, Some(idx))
    ensures at' == if won then idx else at
    ensures over ==> found && !won && Settled(measured[idx := true], at')
    ensures !over ==> Steering(measured[idx := true], at', flipped', found || won, next)
  {
    over, at', flipped', next := false, at, flipped, None;
    if won {
      at' := idx;
    } else if found && !flipped {
      flipped' := true;
    } else if found {
      over := true;
      return;
    }
    next, flipped' := NextRung(measured[idx := true], at', flipped', found || won);
  }

  /** The books agree: the trials are on record, and `best` is the leader they make, won by trial
      `top`. */
  ghost predicate Books(
    space: Space, oracle: Oracle, tried: seq<nat>, history: seq<Trial>, best: Option<(nat, real)>, top: nat)
  {
    && Recorded(space, oracle, tried, history)
    && Leader(history) == (if best.Some? then Some(best.value.1) else None)
    && (best.Some? ==>
          && best.value.0 < |space.ladder|
          && top < |tried| && tried[top] == best.value.0
          && history[top] == (CandidateAt(space, best.value.0), Measured(best.value.1)))
  }

  /** One trial of rung `idx`. */
  method Measure(
    space: Space, oracle: Oracle, ghost tried: seq<nat>, trials: nat, history: seq<Trial>,
    best: Option<(nat, real)>, ghost top: nat, idx: nat)
    returns (history': seq<Trial>, best': Option<(nat, real)>, won: bool, ghost top': nat)
    requires Books(space, oracle, tried, history, best, top) && trials == |tried|
    requires idx < |space.ladder| && idx !in Visited(tried)
    ensures Books(space, oracle, tried + [idx], history', best', top')
    ensures Visited(tried + [idx]) == Visited(tried) + {idx}
    ensures trials + 1 <= |space.ladder|
    ensures if won then best'.Some? && best'.value.0 == idx else best' == best
  {
    var cand := CandidateAt(space, idx);
    var pruneBelow := if best.Some? then Some(best.value.1 * PRUNE_RATIO) else None;
    var outcome := oracle(trials, cand, pruneBelow);
    RecordMore(space, oracle, tried, history, idx, outcome);
    LeaderMore(history, (cand, outcome));
    history' := history + [(cand, outcome)];
    VisitedIsBounded(space, oracle, tried + [idx], history');
    won := outcome.Measured? && (best.None? || outcome.rate > best.value.1 * (1.0 + TIE));
    best' := if won then Some((idx, outcome.rate)) else best;
    top' := if won then |tried| else top;
  }

  /** `measured` marks exactly the rungs tried. */
  ghost predicate Marks(space: Space, measured: seq<bool>, tried: seq<nat>) {
    && |measured| == |space.ladder|
    && forall i: nat :: i < |measured| ==> (measured[i] <==> i in Visited(tried))
  }

  lemma MarkMore(space: Space, measured: seq<bool>, tried: seq<nat>, idx: nat)
    requires Marks(space, measured, tried) && idx < |measured|
    requires Visited(tried + [idx]) == Visited(tried) + {idx}
    ensures Marks(space, measured[idx := true], tried + [idx])
  {
    hide Visited;
  }

  lemma NothingTried(space: Space, oracle: Oracle, measured: seq<bool>)
    requires measured == seq(|space.ladder|, i => false)
    ensures Books(space, oracle, [], [], None, 0) && Marks(space, measured, [])
  {
  }

  /** What the marks say when the walk is over. */
  lemma MarksTell(space: Space, measured: seq<bool>, tried: seq<nat>, at: nat)
    requires Marks(space, measured, tried) && at < |measured|
    ensures Settled(measured, at) ==> NeighboursTried(space, tried, at)
    ensures (forall i :: 0 <= i < |measured| ==> measured[i]) ==>
      forall i :: 0 <= i < |space.ladder| ==> i in Visited(tried)
  {
    hide Visited;
  }

  lemma NextIsNew(
    space: Space, measured: seq<bool>, tried: seq<nat>, at: nat, flipped: bool, found: bool, idx: nat)
    requires Marks(space, measured, tried) && Steering(measured, at, flipped, found, Some(idx))
    ensures at < |measured| == |space.ladder| && idx < |measured| && idx !in Visited(tried)
  {
  }

  lemma Resting(measured: seq<bool>, at: nat, flipped: bool, found: bool)
    requires Steering(measured, at, flipped, found, None)
    ensures at < |measured|
    ensures if found then Settled(measured, at) else forall i :: 0 <= i < |measured| ==> measured[i]
  {
  }

  /** The walk itself, on a ladder with at least two rungs. It ends refused (the budget ran out) or
      with the winner's neighbours tried. */
  method Walk(space: Space, oracle: Oracle, mayContinue: nat -> bool)
    returns (best: Option<(nat, real)>, history: seq<Trial>, ghost tried: seq<nat>, ghost top: nat, ghost refused: bool)
    requires space.prior < |space.ladder| && 2 <= |space.ladder|
    ensures Books(space, oracle, tried, history, best, top)
    ensures tried != [] && tried[0] == space.prior
    ensures !refused && best.Some? ==> NeighboursTried(space, tried, best.value.0)
    ensures !refused && best.None? ==> forall i :: 0 <= i < |space.ladder| ==> i in Visited(tried)
    ensures refused ==> |tried| >= 2 && !mayContinue(|tried|)
  {
    var n := |space.ladder|;
    var measured := seq(n, i => false);
    NothingTried(space, oracle, measured);
    assert Steering(measured, space.prior, false, false, Some(space.prior));
    hide Books, Marks, Visited, Steering, Settled, NeighboursTried;
    best, history := None, [];
    var at, flipped, trials := space.prior, false, 0;
    var next: Option<nat> := Some(space.prior);
    tried, top, refused := [], 0, false;
    while next.Some?
      invariant Steering(measured, at, flipped, best.Some?, next)
      invariant Marks(space, measured, tried)
      invariant Books(space, oracle, tried, history, best, top)
      invariant trials == |tried| <= n
      invariant best.Some? ==> at == best.value.0
      invariant if tried == [] then next == Some(space.prior) else tried[0] == space.prior
      invariant !refused
      decreases n - trials
    {
      if trials >= 2 && !mayContinue(trials) {
        refused := true;
        return;
      }
      var idx := next.value;
      NextIsNew(space, measured, tried, at, flipped, best.Some?, idx);
      var found, won := best.Some?, false;
      history, best, won, top := Measure(space, oracle, tried, trials, history, best, top, idx);
      tried := tried + [idx];
      trials := trials + 1;
      var over;
      over, at, flipped, next := Turn(measured, idx, at, flipped, found, won);
      MarkMore(space, measured, tried[..|tried| - 1], idx);
      measured := measured[idx := true];
      if over {
        MarksTell(space, measured, tried, at);
        return;
      }
    }
    Resting(measured, at, flipped, best.Some?);
    MarksTell(space, measured, tried, at);
  }

  /** Measure the prior, step up while each step wins by more than TIE, and look once on the other
      side when a step loses. The first two trials always run; `mayContinue(n)` is asked before
      trial `n` after that. Trial `n` was of rung `tried[n]`; trial `top` is the winner's. */
  method Run(space: Space, oracle: Oracle, mayContinue: nat -> bool)
    returns (report: Report, ghost tried: seq<nat>, ghost top: nat)
    requires space.prior < |space.ladder|
    ensures |space.ladder| <= 1 ==>
      var (servers, batch) := space.ladder[space.prior];
      report == Report(Some((Candidate(space.analysisThreads, servers, batch), 0.0)), [])
    ensures |space.ladder| > 1 ==>
      && Recorded(space, oracle, tried, report.history)
      && |tried| >= 2 && tried[0] == space.prior
      && Leader(report.history) == (if report.best.Some? then Some(report.best.value.1) else None)
      && (report.best.Some? ==>
            top < |tried| && report.history[top] == (report.best.value.0, Measured(report.best.value.1)))
    ensures forall i: nat :: i < |report.history| ==>
      && i < |tried| && tried[i] < |space.ladder|
      && report.history[i].0.servers == space.ladder[tried[i]].0
      && report.history[i].0.batch == space.ladder[tried[i]].1
      && report.history[i].0.analysisThreads == space.analysisThreads
    ensures |report.history| <= |space.ladder|
    ensures report.best.Some? && NonNegative(report.history) ==>
      forall i :: 0 <= i < |report.history| && report.history[i].1.Measured? ==>
        report.history[i].1.rate <= report.best.value.1 * (1.0 + TIE)
    ensures |space.ladder| > 1 && (forall n :: n >= 2 ==> mayContinue(n)) ==>
      if report.best.Some? then NeighboursTried(space, tried, tried[top])
      else forall i :: 0 <= i < |space.ladder| ==> i in Visited(tried)
  {
    tried, top := [], 0;
    if IsFixed(space) {
      report := Report(Some((CandidateAt(space, space.prior), 0.0)), []);
      return;
    }
    var best, history;
    ghost var refused;
    best, history, tried, top, refused := Walk(space, oracle, mayContinue);
    report := Report(if best.Some? then Some((CandidateAt(space, best.value.0), best.value.1)) else None, history);
    VisitedIsBounded(space, oracle, tried, history);
    forall i: nat | i < |history|
      ensures i < |tried| && tried[i] < |space.ladder| && history[i].0.servers == space.ladder[tried[i]].0
      ensures history[i].0.batch == space.ladder[tried[i]].1 && history[i].0.analysisThreads == space.analysisThreads
    {
      TrialSetsItsRung(space, oracle, tried, history, i);
    }
    if !refused {
      if best.Some? {
        VisitedIsTried(tried, best.value.0);
      }
      AtLeastTwo(space, oracle, tried, history, if best.Some? then best.value.0 else 0);
    }
    if NonNegative(history) {
      LeaderIsNearTop(history);
    }
  }
}
