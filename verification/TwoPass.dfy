/** The two-pass analysis: a shallow search of every turn, a deep one of the turns beside moves that
    swing, and the overlay of the second on the first. */
module TwoPass {
  import opened Common
  import opened Annotate
  import opened Config

  predicate IsTwoPass(cfg: EngineConfig) {
    cfg.screenVisits > 0 && cfg.screenVisits < cfg.maxVisits
  }

  function Abs(x: real): real {
    if x < 0.0 then -x else x
  }

  // ----- which turns to refine

  /** The evaluation swings by at least either delta, in either direction. */
  predicate Swings(cfg: EngineConfig, before: Eval, after: Eval) {
    || Abs(before.winrate - after.winrate) >= cfg.refineWinrateDelta
    || Abs(before.scoreLead - after.scoreLead) >= cfg.refineScoreDelta
  }

  /** A gain counts like a loss. */
  lemma SwingsBothWays(cfg: EngineConfig, a: Eval, b: Eval)
    ensures Swings(cfg, a, b) == Swings(cfg, b, a)
  {
  }

  /** A move whose screened evaluations swing, or that misses one. */
  predicate Deserves(p: Perspective, cfg: EngineConfig, moves: Moves, byTurn: ByTurn, index: nat)
    requires index < |moves|
  {
    var (before, after) := MoveEvals(p, moves[index].0, RootAt(byTurn, index), RootAt(byTurn, index + 1));
    before.None? || after.None? || Swings(cfg, before.value, after.value)
  }

  /** Where the player to move is named, a move deserves it exactly if Black's standing changes by at least
      either delta, in whichever direction and whoever moved; a move that misses an evaluation always does. */
  lemma SwingsAreChanges(p: Perspective, cfg: EngineConfig, moves: Moves, byTurn: ByTurn, index: nat)
    requires index < |moves|
    ensures RootAt(byTurn, index).None? || RootAt(byTurn, index + 1).None? ==> Deserves(p, cfg, moves, byTurn, index)
    ensures Evaluated(p, byTurn, |moves|) ==>
      var before, after := Standing(p, byTurn, index), Standing(p, byTurn, index + 1);
      (Deserves(p, cfg, moves, byTurn, index) <==>
         || before.winrate - after.winrate >= cfg.refineWinrateDelta
         || after.winrate - before.winrate >= cfg.refineWinrateDelta
         || before.scoreLead - after.scoreLead >= cfg.refineScoreDelta
         || after.scoreLead - before.scoreLead >= cfg.refineScoreDelta
         || cfg.refineWinrateDelta <= 0.0 || cfg.refineScoreDelta <= 0.0)
  {
    hide AsSeenBy;
    if Evaluated(p, byTurn, |moves|) {
      var color := moves[index].0;
      NamedReading(p, byTurn[index].rootInfo.value, color, color);
      NamedReading(p, byTurn[index + 1].rootInfo.value, color, Other(color));
    }
  }

  /** Beside a move that deserves it. */
  ghost predicate Beside(p: Perspective, cfg: EngineConfig, moves: Moves, byTurn: ByTurn, upTo: nat, turn: nat)
    requires upTo <= |moves|
  {
    exists index: nat :: index < upTo && Deserves(p, cfg, moves, byTurn, index) && (turn == index || turn == index + 1)
  }

  lemma BesideMore(p: Perspective, cfg: EngineConfig, moves: Moves, byTurn: ByTurn, upTo: nat, turn: nat)
    requires upTo < |moves|
    ensures Beside(p, cfg, moves, byTurn, upTo + 1, turn) <==>
      || Beside(p, cfg, moves, byTurn, upTo, turn)
      || (Deserves(p, cfg, moves, byTurn, upTo) && (turn == upTo || turn == upTo + 1))
  {
    hide Deserves;
    if Deserves(p, cfg, moves, byTurn, upTo) && (turn == upTo || turn == upTo + 1) {
      assert Beside(p, cfg, moves, byTurn, upTo + 1, turn);
    }
  }

  /** Exactly both turns beside every move that swings or misses an evaluation. */
  method TurnsToRefine(p: Perspective, cfg: EngineConfig, moves: Moves, screened: seq<TurnResponse>)
    returns (refine: set<nat>)
    ensures forall turn :: turn in refine <==> Beside(p, cfg, moves, Collected(screened), |moves|, turn)
    ensures forall turn :: turn in refine ==> turn <= |moves|
  {
    hide Beside, Swings, MoveEvals, Collected;
    var byTurn := Collect(screened);
    refine := {};
    NothingBeside(p, cfg, moves, byTurn);
    for index := 0 to |moves|
      invariant forall turn :: turn in refine <==> Beside(p, cfg, moves, byTurn, index, turn)
      invariant forall turn :: turn in refine ==> turn <= index
    {
      forall turn: nat
        ensures Beside(p, cfg, moves, byTurn, index + 1, turn) <==>
          || Beside(p, cfg, moves, byTurn, index, turn)
          || (Deserves(p, cfg, moves, byTurn, index) && (turn == index || turn == index + 1))
      {
        BesideMore(p, cfg, moves, byTurn, index, turn);
      }
      var (before, after) := MoveEvals(p, moves[index].0, RootAt(byTurn, index), RootAt(byTurn, index + 1));
      var swings := if before.Some? && after.Some? then Swings(cfg, before.value, after.value) else true;
      assert swings == Deserves(p, cfg, moves, byTurn, index);
      if swings {
        refine := refine + {index, index + 1};
      }
    }
  }

  lemma NothingBeside(p: Perspective, cfg: EngineConfig, moves: Moves, byTurn: ByTurn)
    ensures forall turn :: !Beside(p, cfg, moves, byTurn, 0, turn)
  {
  }

  // ----- the overlay

  ghost predicate InTurnOrder(turns: seq<TurnResponse>) {
    forall i, j :: 0 <= i < j < |turns| ==> turns[i].turnNumber < turns[j].turnNumber
  }

  function Bound(turns: seq<TurnResponse>): nat {
    if turns == [] then 0 else Max(Bound(turns[..|turns| - 1]), turns[|turns| - 1].turnNumber + 1)
  }

  lemma {:induction false} BoundHolds(turns: seq<TurnResponse>, n: nat)
    ensures n in Collected(turns) ==> n < Bound(turns)
  {
    if turns != [] {
      BoundHolds(turns[..|turns| - 1], n);
    }
  }

  /** The table a list makes, read off in order of turns. */
  method InOrder(byTurn: ByTurn, bound: nat) returns (out: seq<TurnResponse>)
    requires forall n :: n in byTurn ==> n < bound && byTurn[n].turnNumber == n
    ensures InTurnOrder(out) && Collected(out) == byTurn
  {
    hide InTurnOrder, Collected;
    NothingCollected();
    OrderedSoFar([], 0);
    out := [];
    for n := 0 to bound
      invariant InTurnOrder(out) && Before(out, n)
      invariant Collected(out) == Below(byTurn, n)
    {
      if n in byTurn {
        OneMoreInOrder(out, byTurn[n], n);
        assert Below(byTurn, n + 1) == Below(byTurn, n)[n := byTurn[n]];
        out := out + [byTurn[n]];
      } else {
        assert Below(byTurn, n + 1) == Below(byTurn, n);
      }
    }
    assert Below(byTurn, bound) == byTurn;
  }

  function Below(byTurn: ByTurn, n: nat): ByTurn {
    map k | k in byTurn && k < n :: byTurn[k]
  }

  predicate Before(turns: seq<TurnResponse>, n: nat) {
    forall i :: 0 <= i < |turns| ==> turns[i].turnNumber < n
  }

  lemma OrderedSoFar(turns: seq<TurnResponse>, n: nat)
    requires turns == []
    ensures InTurnOrder(turns) && Before(turns, n)
  {
  }

  lemma OneMoreInOrder(turns: seq<TurnResponse>, turn: TurnResponse, n: nat)
    requires InTurnOrder(turns) && Before(turns, n) && turn.turnNumber == n
    ensures InTurnOrder(turns + [turn]) && Before(turns + [turn], n + 1)
    ensures Collected(turns + [turn]) == Collected(turns)[n := turn]
  {
    assert (turns + [turn])[..|turns|] == turns;
  }

  function Overlay(screened: seq<TurnResponse>, refined: seq<TurnResponse>): ByTurn {
    Collected(screened) + Collected(refined)
  }

  /** The refined turns over the screened ones, in order of turns. */
  method MergeTurns(screened: seq<TurnResponse>, refined: seq<TurnResponse>) returns (out: seq<TurnResponse>)
    ensures InTurnOrder(out) && Collected(out) == Overlay(screened, refined)
  {
    hide Collected, Bound, InTurnOrder;
    var byTurn := Collect(screened);
    ghost var shallow := byTurn;
    ghost var deep := Collected([]);
    NothingCollected();
    for i := 0 to |refined|
      invariant byTurn == shallow + Collected(refined[..i])
    {
      CollectedMore(refined, i);
      byTurn := byTurn[refined[i].turnNumber := refined[i]];
    }
    assert refined[..|refined|] == refined;
    var bound := Max(Bound(screened), Bound(refined));
    forall n | n in byTurn ensures n < bound && byTurn[n].turnNumber == n {
      BoundHolds(screened, n);
      BoundHolds(refined, n);
      CollectedMembers(screened, n);
      CollectedMembers(refined, n);
    }
    out := InOrder(byTurn, bound);
  }

  lemma NothingCollected()
    ensures Collected([]) == map[]
  {
  }

  lemma CollectedMore(turns: seq<TurnResponse>, i: nat)
    requires i < |turns|
    ensures turns[..0] == []
    ensures Collected(turns[..i + 1]) == Collected(turns[..i])[turns[i].turnNumber := turns[i]]
  {
    assert turns[..i + 1][..i] == turns[..i];
  }

  // ----- what the overlay is

  /** One response per requested turn, in any order. */
  ghost predicate Answers(requested: set<nat>, turns: seq<TurnResponse>) {
    && (forall i, j :: 0 <= i < j < |turns| ==> turns[i].turnNumber != turns[j].turnNumber)
    && (forall i :: 0 <= i < |turns| ==> turns[i].turnNumber in requested)
    && (forall n :: n in requested ==> exists i :: 0 <= i < |turns| && turns[i].turnNumber == n)
  }

  /** The turns 0 to `n`. */
  function Through(n: nat): (turns: set<nat>)
    ensures forall t: nat :: t in turns <==> t <= n
  {
    if n == 0 then {0} else Through(n - 1) + {n}
  }

  lemma AnsweredTable(requested: set<nat>, turns: seq<TurnResponse>)
    requires Answers(requested, turns)
    ensures Collected(turns).Keys == requested
  {
    hide Collected;
    forall n: nat ensures n in Collected(turns) <==> n in requested {
      CollectedMembers(turns, n);
    }
  }

  /** The last of the turns 0 to `n` in order is `n`, and the others are the turns before it. */
  lemma LastTurn(turns: seq<TurnResponse>, n: nat)
    requires InTurnOrder(turns) && Collected(turns).Keys == Through(n)
    ensures turns != [] && turns[|turns| - 1].turnNumber == n
  {
    hide Collected, Through;
    assert n in Collected(turns);
    CollectedMembers(turns, n);
    var i :| 0 <= i < |turns| && turns[i].turnNumber == n;
    var final := turns[|turns| - 1].turnNumber;
    CollectedMembers(turns, final);
    assert final in Through(n);
  }

  lemma TurnsBeforeLast(turns: seq<TurnResponse>, n: nat, k: nat)
    requires InTurnOrder(turns) && Collected(turns).Keys == Through(n)
    requires turns != [] && turns[|turns| - 1].turnNumber == n
    ensures k in Collected(turns[..|turns| - 1]) <==> k < n
  {
    hide Collected, Through;
    var rest := turns[..|turns| - 1];
    CollectedMembers(rest, k);
    CollectedMembers(turns, k);
    if k < n {
      assert k in Through(n);
      var j :| 0 <= j < |turns| && turns[j].turnNumber == k;
      assert rest[j] == turns[j];
    }
    if j :| 0 <= j < |rest| && rest[j].turnNumber == k {
      assert rest[j] == turns[j];
    }
  }

  /** In turn order without a gap: position and turn number are the same. */
  lemma {:induction false} OrderedIsIndexed(turns: seq<TurnResponse>, n: nat)
    requires InTurnOrder(turns) && Collected(turns).Keys == Through(n)
    ensures |turns| == n + 1
    ensures forall t :: 0 <= t <= n ==> turns[t].turnNumber == t
    decreases n
  {
    hide Collected;
    LastTurn(turns, n);
    var rest := turns[..|turns| - 1];
    forall k: nat ensures k in Collected(rest) <==> k < n {
      TurnsBeforeLast(turns, n, k);
    }
    if n > 0 {
      assert Collected(rest).Keys == Through(n - 1);
      OrderedIsIndexed(rest, n - 1);
    } else if rest != [] {
      NothingBefore(rest);
    }
  }

  lemma NothingBefore(turns: seq<TurnResponse>)
    requires turns != []
    ensures turns[0].turnNumber in Collected(turns)
  {
    CollectedMembers(turns, turns[0].turnNumber);
  }

  /** Given one response per requested turn, the merged list has each turn of the game once, in order:
      the refined response where there is one, the screened one elsewhere. */
  lemma MergeIsOverlay(
    screened: seq<TurnResponse>, refined: seq<TurnResponse>, refine: set<nat>, n: nat, out: seq<TurnResponse>)
    requires Answers(Through(n), screened) && Answers(refine, refined) && refine <= Through(n)
    requires InTurnOrder(out) && Collected(out) == Overlay(screened, refined)
    ensures |out| == n + 1
    ensures forall t :: 0 <= t <= n ==>
      && out[t].turnNumber == t
      && (if t in refine then out[t] in refined else out[t] in screened)
  {
    hide Collected, InTurnOrder, Answers;
    AnsweredTable(Through(n), screened);
    AnsweredTable(refine, refined);
    assert Overlay(screened, refined).Keys == Through(n);
    OrderedIsIndexed(out, n);
    forall t | 0 <= t <= n ensures if t in refine then out[t] in refined else out[t] in screened {
      assert t in Through(n);
      CollectedMembers(refined, t);
      CollectedMembers(screened, t);
      OrderedHolds(out, t);
    }
  }

  lemma OrderedHolds(turns: seq<TurnResponse>, t: nat)
    requires InTurnOrder(turns) && t < |turns| && turns[t].turnNumber == t
    ensures t in Collected(turns) && Collected(turns)[t] == turns[t]
  {
    CollectedMembers(turns, t);
    assert t in Collected(turns);
    var r := Collected(turns)[t];
    var j :| 0 <= j < |turns| && turns[j] == r;
  }

  // ----- the whole analysis

  /** What KataGo answers to a query for some turns at some visits. */
  type Engine = (set<nat>, nat) -> seq<TurnResponse>

  ghost predicate Faithful(engine: Engine) {
    forall turns: set<nat>, visits: nat :: Answers(turns, engine(turns, visits))
  }

  /** The table an analysis of the game is made from. */
  ghost predicate MadeFrom(p: Perspective, cfg: EngineConfig, game: Game, engine: Engine, byTurn: ByTurn) {
    var n := |game.moves|;
    && byTurn.Keys == Through(n)
    && (cfg.screenVisits == 0 || cfg.maxVisits <= cfg.screenVisits ==> forall t :: 0 <= t <= n ==>
          byTurn[t].turnNumber == t && byTurn[t] in engine(Through(n), cfg.maxVisits))
    && (0 < cfg.screenVisits < cfg.maxVisits ==>
          var screened := engine(Through(n), cfg.screenVisits);
          exists refine :: Refined(p, cfg, game, screened, engine(refine, cfg.maxVisits), refine, byTurn))
  }

  /** Both turns beside every swinging or unevaluated move come from the deep pass, all others from the
      screening pass. */
  ghost predicate Refined(
    p: Perspective, cfg: EngineConfig, game: Game, screened: seq<TurnResponse>, deep: seq<TurnResponse>,
    refine: set<nat>, byTurn: ByTurn)
  {
    && (forall t: nat :: t in refine <==> Beside(p, cfg, game.moves, Collected(screened), |game.moves|, t))
    && (forall t :: t in byTurn ==>
          && byTurn[t].turnNumber == t
          && (if t in refine then byTurn[t] in deep else byTurn[t] in screened))
  }

  /** One pass at full depth, or a screening pass and a deep pass over the turns worth it. */
  method Analyze(
    p: Perspective, o: Outside, cfg: EngineConfig, game: Game, engine: Engine, profile: Option<string>)
    returns (analysis: Analysis)
    requires Faithful(engine)
    ensures exists byTurn ::
      && MadeFrom(p, cfg, game, engine, byTurn)
      && analysis == AnalysisOf(p, o, game, byTurn, if cfg.humanModel == "" then None else profile)
  {
    hide Collected, AnalysisOf, Beside, Answers, InTurnOrder;
    var n := |game.moves|;
    var turns: seq<TurnResponse>;
    ghost var byTurn: ByTurn;
    if IsTwoPass(cfg) {
      var screened := engine(Through(n), cfg.screenVisits);
      assert Answers(Through(n), engine(Through(n), cfg.screenVisits));
      var refine := TurnsToRefine(p, cfg, game.moves, screened);
      var deep := engine(refine, cfg.maxVisits);
      assert Answers(refine, engine(refine, cfg.maxVisits));
      turns := MergeTurns(screened, deep);
      MergeIsOverlay(screened, deep, refine, n, turns);
      AnsweredTable(Through(n), screened);
      AnsweredTable(refine, deep);
      byTurn := Collected(turns);
      assert byTurn.Keys == Through(n);
      forall t | t in byTurn
        ensures byTurn[t].turnNumber == t && (if t in refine then byTurn[t] in deep else byTurn[t] in screened)
      {
        OrderedHolds(turns, t);
      }
      assert Refined(p, cfg, game, screened, deep, refine, byTurn);
    } else {
      turns := engine(Through(n), cfg.maxVisits);
      assert Answers(Through(n), engine(Through(n), cfg.maxVisits));
      AnsweredTable(Through(n), turns);
      byTurn := Collected(turns);
      forall t | 0 <= t <= n ensures byTurn[t].turnNumber == t && byTurn[t] in turns {
        assert t in Through(n);
        CollectedMembers(turns, t);
      }
    }
    assert MadeFrom(p, cfg, game, engine, byTurn);
    analysis := Assemble(p, o, game, turns, if cfg.humanModel == "" then None else profile);
  }
}
