/** The auto-tuner's workload: games cut into chunks of turns, and a feeder that keeps about `depth`
    positions queued. */
module Feed {
  import opened Common

  const CHUNK_TURNS := 16

  /** Turns `lo` to `hi` (exclusive) of one game. */
  datatype Chunk = Chunk(game: nat, lo: nat, hi: nat)

  function Span(game: nat, lo: nat, hi: nat): (r: seq<(nat, nat)>)
    requires lo <= hi
    ensures |r| == hi - lo
  {
    seq(hi - lo, i requires 0 <= i < hi - lo => (game, lo + i))
  }

  predicate Forward(plan: seq<Chunk>) {
    forall i :: 0 <= i < |plan| ==> plan[i].lo < plan[i].hi
  }

  /** Every (game, turn) a plan covers, in order. */
  function Turns(plan: seq<Chunk>): seq<(nat, nat)>
    requires Forward(plan)
  {
    if plan == [] then []
    else
      var last := plan[|plan| - 1];
      Turns(plan[..|plan| - 1]) + Span(last.game, last.lo, last.hi)
  }

  /** Every (game, turn) there is, game by game. */
  function AllTurns(counts: seq<nat>): seq<(nat, nat)> {
    if counts == [] then []
    else AllTurns(counts[..|counts| - 1]) + Span(|counts| - 1, 0, counts[|counts| - 1])
  }

  /** At most `size` turns, and fewer only at the end of a game. */
  predicate Sized(chunk: Chunk, counts: seq<nat>, size: nat) {
    && chunk.game < |counts|
    && chunk.lo < chunk.hi <= counts[chunk.game]
    && chunk.hi - chunk.lo <= size
    && (chunk.hi - chunk.lo < size ==> chunk.hi == counts[chunk.game])
  }

  lemma TurnsSnoc(plan: seq<Chunk>, chunk: Chunk)
    requires Forward(plan) && chunk.lo < chunk.hi
    ensures Forward(plan + [chunk])
    ensures Turns(plan + [chunk]) == Turns(plan) + Span(chunk.game, chunk.lo, chunk.hi)
  {
    assert (plan + [chunk])[..|plan|] == plan;
  }

  lemma NothingToCover(counts: seq<nat>)
    ensures Turns([]) == [] && AllTurns(counts[..0]) == []
  {
  }

  lemma AllTurnsMore(counts: seq<nat>, idx: nat)
    requires idx < |counts|
    ensures AllTurns(counts[..idx + 1]) == AllTurns(counts[..idx]) + Span(idx, 0, counts[idx])
  {
    assert counts[..idx + 1][..idx] == counts[..idx];
  }

  lemma SpanJoin(game: nat, mid: nat, hi: nat)
    requires mid <= hi
    ensures Span(game, 0, mid) + Span(game, mid, hi) == Span(game, 0, hi)
  {
  }

  /** Every turn of every game exactly once, in order, in non-empty chunks of at most `size` turns
      (at most 1 for a size of 0). */
  method Chunks(counts: seq<nat>, size: nat) returns (out: seq<Chunk>)
    ensures Forward(out) && Turns(out) == AllTurns(counts)
    ensures forall i :: 0 <= i < |out| ==> Sized(out[i], counts, Max(size, 1))
    ensures out == [] <==> AllTurns(counts) == []
  {
    hide Span, Turns, AllTurns;
    var most := Max(size, 1);
    out := [];
    NothingToCover(counts);
    for idx := 0 to |counts|
      invariant Forward(out) && Turns(out) == AllTurns(counts[..idx])
      invariant forall i :: 0 <= i < |out| ==> Sized(out[i], counts, most)
      invariant out == [] <==> AllTurns(counts[..idx]) == []
    {
      AllTurnsMore(counts, idx);
      var start, count := 0, counts[idx];
      ghost var before := Turns(out);
      while start < count
        invariant 0 <= start <= count
        invariant Forward(out) && Turns(out) == before + Span(idx, 0, start)
        invariant forall i :: 0 <= i < |out| ==> Sized(out[i], counts, most)
        invariant out == [] <==> before == [] && start == 0
      {
        var end := Min(start + most, count);
        TurnsSnoc(out, Chunk(idx, start, end));
        SpanJoin(idx, start, end);
        out := out + [Chunk(idx, start, end)];
        start := end;
      }
    }
    assert counts[..|counts|] == counts;
  }

  // ----- the feeder

  function Length(chunk: Chunk): int {
    chunk.hi - chunk.lo
  }

  function Total(chunks: seq<Chunk>): int {
    if chunks == [] then 0 else Length(chunks[0]) + Total(chunks[1..])
  }

  lemma {:induction false} TotalConcat(a: seq<Chunk>, b: seq<Chunk>)
    ensures Total(a + b) == Total(a) + Total(b)
  {
    if a == [] {
      assert a + b == b;
    } else {
      assert (a + b)[1..] == a[1..] + b;
      TotalConcat(a[1..], b);
    }
  }

  lemma TotalRemove(chunks: seq<Chunk>, k: nat)
    requires k < |chunks|
    ensures Total(chunks) == Total(chunks[..k] + chunks[k + 1..]) + Length(chunks[k])
  {
    assert chunks == chunks[..k] + chunks[k..] && chunks[k..][1..] == chunks[k + 1..];
    TotalConcat(chunks[..k], chunks[k..]);
    TotalConcat(chunks[..k], chunks[k + 1..]);
  }

  /** A usable plan: not empty, chunks of 1 to CHUNK_TURNS turns. */
  predicate Usable(plan: seq<Chunk>) {
    plan != [] && forall i :: 0 <= i < |plan| ==> 1 <= Length(plan[i]) <= CHUNK_TURNS
  }

  lemma {:induction false} TotalIsPositive(plan: seq<Chunk>, chunks: seq<Chunk>)
    requires Usable(plan) && forall i :: 0 <= i < |chunks| ==> chunks[i] in plan
    ensures Total(chunks) >= |chunks|
  {
    if chunks != [] {
      TotalIsPositive(plan, chunks[1..]);
      assert chunks[0] in plan;
    }
  }

  datatype Wait = Pending | Over(message: string)

  class Feeder {
    const plan: seq<Chunk>
    const depth: nat
    var queued: nat
    var inFlight: seq<Chunk>
    var submitted: seq<Chunk>

    /** `queued` is exactly what is in flight, at most a chunk over the target, and the plan has been
        submitted round and round, in order. */
    ghost predicate Valid()
      reads this
    {
      && (plan != [] ==> Usable(plan))
      && queued == Total(inFlight)
      && (queued < depth + CHUNK_TURNS)
      && (forall i :: 0 <= i < |inFlight| ==> inFlight[i] in plan)
      && (plan == [] ==> submitted == [] && inFlight == [])
      && (plan != [] ==> forall i :: 0 <= i < |submitted| ==> submitted[i] == plan[i % |plan|])
    }

    constructor (plan: seq<Chunk>, depth: nat)
      requires plan != [] ==> Usable(plan)
      ensures Valid() && this.plan == plan && this.depth == depth && inFlight == [] && submitted == []
    {
      this.plan, this.depth := plan, depth;
      queued, inFlight, submitted := 0, [], [];
    }

    /** Submits chunks until `depth` positions are queued. */
    method Fill()
      requires Valid()
      modifies this
      ensures Valid() && (plan != [] ==> depth <= queued)
      ensures old(submitted) <= submitted
      ensures inFlight == old(inFlight) + submitted[|old(submitted)|..]
    {
      while queued < depth
        invariant Valid()
        invariant old(submitted) <= submitted
        invariant inFlight == old(inFlight) + submitted[|old(submitted)|..]
        decreases depth - queued
      {
        if plan == [] {
          break;
        }
        var chunk := plan[|submitted| % |plan|];
        TotalConcat(inFlight, [chunk]);
        assert Total([chunk]) == Length(chunk) by {
          assert [chunk][1..] == [];
        }
        queued := queued + (chunk.hi - chunk.lo);
        inFlight := inFlight + [chunk];
        submitted := submitted + [chunk];
      }
    }

    /** Whichever query finishes first: `k`, with or without an error. */
    method Await(k: nat, error: Option<string>) returns (wait: Wait)
      requires Valid() && (inFlight != [] ==> k < |inFlight|)
      modifies this
      ensures Valid() && submitted == old(submitted)
      ensures old(inFlight) == [] ==> wait == Over("no corpus games") && inFlight == []
      ensures old(inFlight) != [] && error.Some? ==> wait == Over(error.value)
      ensures old(inFlight) != [] && error.None? ==>
        wait == Pending && inFlight == old(inFlight)[..k] + old(inFlight)[k + 1..]
    {
      if inFlight == [] {
        return Over("no corpus games");
      }
      if error.Some? {
        return Over(error.value);
      }
      TotalRemove(inFlight, k);
      assert inFlight[k] in plan;
      var length := inFlight[k].hi - inFlight[k].lo;
      inFlight := inFlight[..k] + inFlight[k + 1..];
      if plan != [] {
        TotalIsPositive(plan, inFlight);
      }
      queued := Max(queued - length, 0);
      wait := Pending;
    }

    /** The feeder over any sequence of completions: whenever it waits on a usable plan, at least
        `depth` and fewer than `depth + CHUNK_TURNS` positions are queued, all of them in flight. */
    method Run(completions: seq<(nat, Option<string>)>) returns (wait: Wait, waits: seq<int>)
      requires Valid() && inFlight == []
      modifies this
      ensures Valid()
      ensures forall i :: 0 <= i < |waits| && plan != [] ==> depth <= waits[i] < depth + CHUNK_TURNS
      ensures plan == [] && completions != [] ==> wait == Over("no corpus games")
      ensures plan != [] && depth > 0 && (forall i :: 0 <= i < |completions| ==> completions[i].1.None?) ==>
        wait == Pending && |waits| == |completions|
    {
      wait, waits := Pending, [];
      for i := 0 to |completions|
        invariant Valid() && wait == Pending && |waits| == i
        invariant forall j :: 0 <= j < |waits| && plan != [] ==> depth <= waits[j] < depth + CHUNK_TURNS
        invariant plan == [] ==> i == 0
      {
        Fill();
        waits := waits + [queued];
        if plan != [] && depth > 0 {
          assert Total(inFlight) > 0;
        }
        var k := if inFlight == [] then 0 else completions[i].0 % |inFlight|;
        wait := Await(k, completions[i].1);
        if wait.Over? {
          return;
        }
      }
    }
  }

  lemma {:induction false} GamesHaveTurns(counts: seq<nat>)
    requires counts != [] && forall i :: 0 <= i < |counts| ==> counts[i] > 0
    ensures AllTurns(counts) != []
  {
    assert counts[|counts| - 1] > 0;
    assert |Span(|counts| - 1, 0, counts[|counts| - 1])| > 0;
  }

  /** The corpus, fed: games of `moves[i]` moves have `moves[i] + 1` turns. */
  method FeedGames(moves: seq<nat>, depth: nat, completions: seq<(nat, Option<string>)>)
    returns (wait: Wait, waits: seq<int>)
    ensures moves != [] ==> forall i :: 0 <= i < |waits| ==> depth <= waits[i] < depth + CHUNK_TURNS
    ensures moves == [] && completions != [] ==> wait == Over("no corpus games")
    ensures moves != [] && depth > 0 && (forall i :: 0 <= i < |completions| ==> completions[i].1.None?) ==>
      wait == Pending && |waits| == |completions|
  {
    hide AllTurns, Turns;
    var counts: seq<nat> := seq(|moves|, i requires 0 <= i < |moves| => moves[i] + 1);
    var plan := Chunks(counts, CHUNK_TURNS);
    if moves != [] {
      GamesHaveTurns(counts);
    } else {
      NothingToCover(counts);
      assert counts[..0] == counts;
    }
    var feeder := new Feeder(plan, depth);
    wait, waits := feeder.Run(completions);
  }
}
