/** Annotating a game: evaluations rotated into the mover's frame, losses, the two players' reports and
    the per-turn grids. KataGo's reporting perspective is a parameter `p`; the service pins
    `SideToMove`. */
module Annotate {
  import opened Common

  // ----- frames

  datatype Color = Black | White

  function Other(c: Color): Color {
    if c.Black? then White else Black
  }

  datatype Perspective = OfBlack | OfWhite | SideToMove

  /** Whose evaluation a reading is. */
  function Reporter(p: Perspective, currentPlayer: Option<Color>, sideToMove: Color): Color {
    match p
    case OfBlack => Black
    case OfWhite => White
    case SideToMove => if currentPlayer.Some? then currentPlayer.value else sideToMove
  }

  datatype Eval = Eval(winrate: real, scoreLead: real)

  function Flipped(e: Eval): Eval {
    Eval(1.0 - e.winrate, -e.scoreLead)
  }

  datatype RootInfo = RootInfo(winrate: real, scoreLead: real, currentPlayer: Option<Color>)

  function AsSeenBy(p: Perspective, root: RootInfo, viewer: Color, sideToMove: Color): Eval {
    var eval := Eval(root.winrate, root.scoreLead);
    if Reporter(p, root.currentPlayer, sideToMove) == viewer then eval else Flipped(eval)
  }

  type Moves = seq<(Color, string)>

  /** What the model leaves open: the accuracy curve, the square root, and where a move sits in a policy
      array for a board size. */
  datatype Outside = Outside(
    accuracy: real -> real,
    sqrt: real -> real,
    policyIndex: (string, nat) -> Option<nat>)

  /** `topK` is how many candidates the engine section keeps per move. */
  datatype Game = Game(boardSize: nat, moves: Moves, topK: nat)

  /** One candidate as KataGo lists it, in the reported frame; `order` is its rank. */
  datatype MoveInfo = MoveInfo(
    mv: string,
    winrate: real,
    scoreLead: real,
    prior: real,
    humanPrior: Option<real>,
    visits: nat,
    pv: seq<string>,
    order: nat)

  datatype TurnResponse = TurnResponse(
    turnNumber: nat,
    rootInfo: Option<RootInfo>,
    moveInfos: seq<MoveInfo>,
    ownership: Option<seq<real>>,
    ownershipStdev: Option<seq<real>>,
    policy: Option<seq<real>>,
    humanPolicy: Option<seq<real>>)

  /** A candidate in the mover's frame. */
  datatype Candidate = Candidate(
    mv: string,
    winrate: real,
    scoreLead: real,
    prior: real,
    humanPrior: Option<real>,
    visits: nat,
    pv: seq<string>)

  function CandidateAsSeenBy(p: Perspective, info: MoveInfo, viewer: Color, sideToMove: Color): Candidate {
    var eval := Eval(info.winrate, info.scoreLead);
    var seen := if Reporter(p, Some(sideToMove), sideToMove) == viewer then eval else Flipped(eval);
    Candidate(info.mv, seen.winrate, seen.scoreLead, info.prior, info.humanPrior, info.visits, info.pv)
  }

  /** `info` after every entry of at most its rank. */
  function Inserted(sorted: seq<MoveInfo>, info: MoveInfo): seq<MoveInfo> {
    if sorted != [] && sorted[|sorted| - 1].order > info.order
    then Inserted(sorted[..|sorted| - 1], info) + [sorted[|sorted| - 1]]
    else sorted + [info]
  }

  /** By rank; equal ranks stay in the order they came in. */
  function ByRank(infos: seq<MoveInfo>): seq<MoveInfo> {
    if infos == [] then [] else Inserted(ByRank(infos[..|infos| - 1]), infos[|infos| - 1])
  }

  function Seen(p: Perspective, infos: seq<MoveInfo>, color: Color): seq<Candidate> {
    seq(|infos|, i requires 0 <= i < |infos| => CandidateAsSeenBy(p, infos[i], color, color))
  }

  /** The `topK` best candidates, which belong to the mover. */
  function TopMoves(p: Perspective, infos: seq<MoveInfo>, color: Color, topK: nat): seq<Candidate> {
    var ranked := ByRank(infos);
    Seen(p, if |ranked| <= topK then ranked else ranked[..topK], color)
  }

  type ByTurn = map<nat, TurnResponse>

  function InfosAt(byTurn: ByTurn, turn: nat): seq<MoveInfo> {
    if turn in byTurn then byTurn[turn].moveInfos else []
  }

  /** The probability of a move in one turn's policy, which must cover the board and the pass. */
  function PolicyAt(o: Outside, policy: Option<seq<real>>, mv: string, boardSize: nat): Option<real> {
    if policy.None? || |policy.value| != boardSize * boardSize + 1 then None
    else
      var index := o.policyIndex(mv, boardSize);
      if index.None? || index.value >= |policy.value| then None
      else Some(MaxReal(policy.value[index.value], 0.0))
  }

  /** The first candidate for the move that was played. */
  function Played(topMoves: seq<Candidate>, mv: string): Option<Candidate> {
    if topMoves == [] then None
    else if topMoves[0].mv == mv then Some(topMoves[0])
    else Played(topMoves[1..], mv)
  }

  /** The played move's prior: from the full policy, else from its candidate. */
  function PriorOf(
    o: Outside, game: Game, policy: Option<seq<real>>, mv: string, topMoves: seq<Candidate>): Option<real>
  {
    var full, played := PolicyAt(o, policy, mv, game.boardSize), Played(topMoves, mv);
    if full.Some? then full else if played.Some? then Some(played.value.prior) else None
  }

  function HumanPriorOf(
    o: Outside, game: Game, policy: Option<seq<real>>, mv: string, topMoves: seq<Candidate>): Option<real>
  {
    var full, played := PolicyAt(o, policy, mv, game.boardSize), Played(topMoves, mv);
    if full.Some? then full else if played.Some? then played.value.humanPrior else None
  }

  function PolicyOf(byTurn: ByTurn, turn: nat): Option<seq<real>> {
    if turn in byTurn then byTurn[turn].policy else None
  }

  function HumanPolicyOf(byTurn: ByTurn, turn: nat): Option<seq<real>> {
    if turn in byTurn then byTurn[turn].humanPolicy else None
  }

  function RootAt(byTurn: ByTurn, turn: nat): Option<RootInfo> {
    if turn in byTurn then byTurn[turn].rootInfo else None
  }

  /** The colour of the move a turn precedes; past the end, the colour after the last move's. */
  function SideToMoveAt(moves: Moves, turn: nat): Color {
    if turn < |moves| then moves[turn].0
    else if moves == [] then Black
    else Other(moves[|moves| - 1].0)
  }

  /** What the mover `color` had before the move, and what the mover has after it. */
  function MoveEvals(p: Perspective, color: Color, before: Option<RootInfo>, after: Option<RootInfo>)
    : (Option<Eval>, Option<Eval>)
  {
    (if before.Some? then Some(AsSeenBy(p, before.value, color, color)) else None,
     if after.Some? then Some(AsSeenBy(p, after.value, color, Other(color))) else None)
  }

  // ----- losses and classes

  datatype Classification = Good | Inaccuracy | Mistake | Blunder

  function ClassifyWinrate(loss: real): Classification {
    if loss < 0.03 then Good else if loss < 0.07 then Inaccuracy else if loss < 0.15 then Mistake else Blunder
  }

  function ClassifyScore(loss: real): Classification {
    if loss < 1.0 then Good else if loss < 3.0 then Inaccuracy else if loss < 6.0 then Mistake else Blunder
  }

  datatype ClassCounts = ClassCounts(good: nat, inaccuracy: nat, mistake: nat, blunder: nat)

  function Counted(counts: ClassCounts, c: Classification): ClassCounts {
    match c
    case Good => counts.(good := counts.good + 1)
    case Inaccuracy => counts.(inaccuracy := counts.inaccuracy + 1)
    case Mistake => counts.(mistake := counts.mistake + 1)
    case Blunder => counts.(blunder := counts.blunder + 1)
  }

  function CountTotal(counts: ClassCounts): nat {
    counts.good + counts.inaccuracy + counts.mistake + counts.blunder
  }

  datatype Annotation = Annotation(
    moveNumber: nat,
    color: Color,
    mv: string,
    winrate: real,
    bestWinrate: real,
    winrateLoss: real,
    winrateClass: Classification,
    scoreLead: real,
    scoreLoss: real,
    scoreClass: Classification,
    prior: Option<real>,
    humanPrior: Option<real>,
    topMoves: seq<Candidate>)

  /** A missing evaluation before the move reads as even, one after it as no change. */
  function Annotated(
    moveNumber: nat, color: Color, mv: string, before: Option<Eval>, after: Option<Eval>,
    prior: Option<real>, humanPrior: Option<real>, topMoves: seq<Candidate>)
    : (note: Annotation)
    ensures note.color == color && note.winrateLoss >= 0.0 && note.scoreLoss >= 0.0
  {
    var bestWinrate := if before.Some? then before.value.winrate else 0.5;
    var winrate := if after.Some? then after.value.winrate else bestWinrate;
    var winrateLoss := MaxReal(bestWinrate - winrate, 0.0);
    var bestScore := if before.Some? then before.value.scoreLead else 0.0;
    var resultingScore := if after.Some? then after.value.scoreLead else bestScore;
    var scoreLoss := MaxReal(bestScore - resultingScore, 0.0);
    Annotation(moveNumber, color, mv, winrate, bestWinrate, winrateLoss, ClassifyWinrate(winrateLoss),
               bestScore, scoreLoss, ClassifyScore(scoreLoss), prior, humanPrior, topMoves)
  }

  function AnnotatedMove(p: Perspective, o: Outside, game: Game, byTurn: ByTurn, index: nat): Annotation
    requires index < |game.moves|
  {
    var (color, mv) := game.moves[index];
    var (before, after) := MoveEvals(p, color, RootAt(byTurn, index), RootAt(byTurn, index + 1));
    var topMoves := TopMoves(p, InfosAt(byTurn, index), color, game.topK);
    Annotated(index + 1, color, mv, before, after,
              PriorOf(o, game, PolicyOf(byTurn, index), mv, topMoves),
              HumanPriorOf(o, game, HumanPolicyOf(byTurn, index), mv, topMoves),
              topMoves)
  }

  // ----- the players' reports

  datatype Totals = Totals(
    moves: nat,
    winrateLoss: real,
    scoreLoss: real,
    accuracy: real,
    byWinrate: ClassCounts,
    byScore: ClassCounts)

  const NO_COUNTS := ClassCounts(0, 0, 0, 0)
  const NO_TOTALS := Totals(0, 0.0, 0.0, 0.0, NO_COUNTS, NO_COUNTS)

  /** One player's totals over the annotated moves. */
  function TotalsOf(o: Outside, moves: seq<Annotation>, color: Color): Totals {
    if moves == [] then NO_TOTALS
    else
      var last := moves[|moves| - 1];
      var before := TotalsOf(o, moves[..|moves| - 1], color);
      if last.color != color then before
      else
        Totals(before.moves + 1, before.winrateLoss + last.winrateLoss, before.scoreLoss + last.scoreLoss,
               before.accuracy + o.accuracy(last.winrateLoss),
               Counted(before.byWinrate, last.winrateClass), Counted(before.byScore, last.scoreClass))
  }

  datatype PlayerReport = PlayerReport(
    moves: nat,
    accuracy: real,
    meanWinrateLoss: real,
    meanScoreLoss: real,
    byWinrate: ClassCounts,
    byScore: ClassCounts,
    estimatedRank: Option<string>)

  const RANK_MIN_MOVES := 20

  /** A strength band for full-size games with enough moves: the fewer points lost, the stronger. */
  function EstimateRank(boardSize: nat, moves: nat, meanScoreLoss: real): Option<string> {
    if boardSize != 19 || moves < RANK_MIN_MOVES then None
    else
      Some(if meanScoreLoss < 0.8 then "~7d+"
           else if meanScoreLoss < 1.2 then "~5d"
           else if meanScoreLoss < 1.7 then "~3d"
           else if meanScoreLoss < 2.2 then "~1d"
           else if meanScoreLoss < 2.8 then "~2k"
           else if meanScoreLoss < 3.5 then "~5k"
           else if meanScoreLoss < 4.5 then "~8k"
           else if meanScoreLoss < 6.0 then "~12k"
           else "~15k+")
  }

  /** Means over the player's moves; all 0 for a player without any. */
  function Finished(t: Totals, boardSize: nat): PlayerReport {
    var denom := Max(t.moves, 1) as real;
    PlayerReport(t.moves, t.accuracy / denom, t.winrateLoss / denom, t.scoreLoss / denom, t.byWinrate, t.byScore,
                 EstimateRank(boardSize, t.moves, t.scoreLoss / denom))
  }

  class PlayerAccum {
    var moves: nat
    var winrateLossSum: real
    var scoreLossSum: real
    var accuracySum: real
    var byWinrate: ClassCounts
    var byScore: ClassCounts

    ghost function Now(): Totals
      reads this
    {
      Totals(moves, winrateLossSum, scoreLossSum, accuracySum, byWinrate, byScore)
    }

    constructor ()
      ensures Now() == NO_TOTALS
    {
      moves, winrateLossSum, scoreLossSum, accuracySum := 0, 0.0, 0.0, 0.0;
      byWinrate, byScore := NO_COUNTS, NO_COUNTS;
    }

    method Record(o: Outside, winrateLoss: real, scoreLoss: real, winrateClass: Classification,
                  scoreClass: Classification)
      modifies this
      ensures Now() == Totals(
        old(moves) + 1, old(winrateLossSum) + winrateLoss, old(scoreLossSum) + scoreLoss,
        old(accuracySum) + o.accuracy(winrateLoss),
        Counted(old(byWinrate), winrateClass), Counted(old(byScore), scoreClass))
    {
      moves := moves + 1;
      winrateLossSum := winrateLossSum + winrateLoss;
      scoreLossSum := scoreLossSum + scoreLoss;
      accuracySum := accuracySum + o.accuracy(winrateLoss);
      byWinrate := Counted(byWinrate, winrateClass);
      byScore := Counted(byScore, scoreClass);
    }

    method Finish(boardSize: nat) returns (report: PlayerReport)
      ensures report == Finished(Now(), boardSize)
    {
      var denom := Max(moves, 1) as real;
      var meanScoreLoss := scoreLossSum / denom;
      report := PlayerReport(moves, accuracySum / denom, winrateLossSum / denom, meanScoreLoss, byWinrate, byScore,
                             EstimateRank(boardSize, moves, meanScoreLoss));
    }
  }

  // ----- per-turn grids

  datatype Grid = Ownership | OwnershipStdev | Policy | HumanPolicy

  function Field(turn: TurnResponse, grid: Grid): Option<seq<real>> {
    match grid
    case Ownership => turn.ownership
    case OwnershipStdev => turn.ownershipStdev
    case Policy => turn.policy
    case HumanPolicy => turn.humanPolicy
  }

  /** How many entries come after the board's points. */
  function Trailing(grid: Grid): nat {
    if grid.Policy? || grid.HumanPolicy? then 1 else 0
  }

  function Points(game: Game): nat {
    game.boardSize * game.boardSize
  }

  predicate HasGrid(game: Game, byTurn: ByTurn, turn: nat, grid: Grid) {
    turn in byTurn && Field(byTurn[turn], grid).Some? &&
    |Field(byTurn[turn], grid).value| == Points(game) + Trailing(grid)
  }

  function Encoded(raw: seq<real>, turn: nat, encode: (nat, real) -> int): seq<int> {
    seq(|raw|, i requires 0 <= i < |raw| => encode(turn, raw[i]))
  }

  /** The board's points of one turn's grid, encoded. */
  function GridAt(game: Game, byTurn: ByTurn, turn: nat, grid: Grid, encode: (nat, real) -> int): seq<int>
    requires HasGrid(game, byTurn, turn, grid)
  {
    Encoded(Field(byTurn[turn], grid).value[..Points(game)], turn, encode)
  }

  /** All or nothing: empty unless every turn carries a grid of the right size, and then one encoded
      grid per turn. */
  function Grids(game: Game, byTurn: ByTurn, grid: Grid, encode: (nat, real) -> int): seq<seq<int>> {
    if forall turn :: 0 <= turn <= |game.moves| ==> HasGrid(game, byTurn, turn, grid) then
      seq(|game.moves| + 1, turn requires 0 <= turn <= |game.moves| && HasGrid(game, byTurn, turn, grid) =>
        GridAt(game, byTurn, turn, grid, encode))
    else []
  }

  method PerTurnGrid(game: Game, byTurn: ByTurn, grid: Grid, encode: (nat, real) -> int)
    returns (perTurn: seq<seq<int>>)
    ensures perTurn == Grids(game, byTurn, grid, encode)
  {
    hide Encoded, Points;
    perTurn := [];
    for turn := 0 to |game.moves| + 1
      invariant |perTurn| == turn
      invariant forall t: nat :: t < turn ==>
        (HasGrid(game, byTurn, t, grid) && perTurn[t] == GridAt(game, byTurn, t, grid, encode))
    {
      if turn !in byTurn || Field(byTurn[turn], grid).None? {
        assert !HasGrid(game, byTurn, turn, grid);
        return [];
      }
      var raw := Field(byTurn[turn], grid).value;
      if |raw| != Points(game) + Trailing(grid) {
        assert !HasGrid(game, byTurn, turn, grid);
        return [];
      }
      perTurn := perTurn + [Encoded(raw[..Points(game)], turn, encode)];
    }
  }

  /** To the nearest integer, halves away from zero. */
  function Round(x: real): int {
    if x >= 0.0 then (x + 0.5).Floor else -((-x + 0.5).Floor)
  }

  function Hundredths(x: real): int {
    Max(-100, Min(100, Round(x * 100.0)))
  }

  /** The map is in the reported frame and names nobody, so the move list decides whether to flip it
      to Black's. */
  function EncodeOwnership(p: Perspective, moves: Moves): (nat, real) -> int {
    (turn: nat, cell: real) => Hundredths(if Reporter(p, None, SideToMoveAt(moves, turn)).Black? then cell else -cell)
  }

  function EncodeStdev(): (nat, real) -> int {
    (turn: nat, spread: real) => Max(0, Min(100, Round(spread * 100.0)))
  }

  /** A probability as one byte on a square-root scale; an illegal point is 0. */
  function EncodePolicy(o: Outside): (nat, real) -> int {
    (turn: nat, prob: real) => if prob <= 0.0 then 0 else Max(0, Min(255, Round(255.0 * o.sqrt(prob))))
  }

  // ----- the whole analysis

  datatype Analysis = Analysis(
    moves: seq<Annotation>,
    numMoves: nat,
    black: PlayerReport,
    white: PlayerReport,
    ownership: seq<seq<int>>,
    ownershipStdev: seq<seq<int>>,
    policy: seq<seq<int>>,
    humanPolicy: seq<seq<int>>,
    humanProfile: Option<string>)

  function Annotations(p: Perspective, o: Outside, game: Game, byTurn: ByTurn): seq<Annotation> {
    seq(|game.moves|, index requires 0 <= index < |game.moves| => AnnotatedMove(p, o, game, byTurn, index))
  }

  /** The profile is recorded only if the human policy came back. */
  function Recorded(profile: Option<string>, humanPolicy: seq<seq<int>>): Option<string> {
    if humanPolicy == [] then None else profile
  }

  /** The analysis a table of responses gives. */
  function AnalysisOf(p: Perspective, o: Outside, game: Game, byTurn: ByTurn, profile: Option<string>): Analysis {
    var moves := Annotations(p, o, game, byTurn);
    var humanPolicy := Grids(game, byTurn, HumanPolicy, EncodePolicy(o));
    Analysis(moves, |game.moves|,
             Finished(TotalsOf(o, moves, Black), game.boardSize), Finished(TotalsOf(o, moves, White), game.boardSize),
             Grids(game, byTurn, Ownership, EncodeOwnership(p, game.moves)),
             Grids(game, byTurn, OwnershipStdev, EncodeStdev()),
             Grids(game, byTurn, Policy, EncodePolicy(o)),
             humanPolicy,
             Recorded(profile, humanPolicy))
  }

  /** The responses as a table; a later one for the same turn replaces an earlier one. */
  function Collected(turns: seq<TurnResponse>): ByTurn {
    if turns == [] then map[]
    else Collected(turns[..|turns| - 1])[turns[|turns| - 1].turnNumber := turns[|turns| - 1]]
  }

  method Collect(turns: seq<TurnResponse>) returns (byTurn: ByTurn)
    ensures byTurn == Collected(turns)
  {
    byTurn := map[];
    for i := 0 to |turns|
      invariant byTurn == Collected(turns[..i])
    {
      assert turns[..i + 1][..i] == turns[..i];
      byTurn := byTurn[turns[i].turnNumber := turns[i]];
    }
    assert turns[..|turns|] == turns;
  }

  method Assemble(
    p: Perspective, o: Outside, game: Game, turns: seq<TurnResponse>, profile: Option<string>)
    returns (analysis: Analysis)
    ensures analysis == AnalysisOf(p, o, game, Collected(turns), profile)
  {
    hide Annotated, MoveEvals, TotalsOf, Finished, Grids, Collected, Counted;
    hide EncodeOwnership, EncodePolicy, EncodeStdev;
    var byTurn := Collect(turns);
    var moves, black, white := AnnotateMoves(p, o, game, byTurn);
    var ownership := PerTurnGrid(game, byTurn, Ownership, EncodeOwnership(p, game.moves));
    var ownershipStdev := PerTurnGrid(game, byTurn, OwnershipStdev, EncodeStdev());
    var policy := PerTurnGrid(game, byTurn, Policy, EncodePolicy(o));
    var humanPolicy := PerTurnGrid(game, byTurn, HumanPolicy, EncodePolicy(o));
    var humanProfile := if humanPolicy == [] then None else profile;
    analysis := Analysis(moves, |game.moves|, black, white, ownership, ownershipStdev, policy, humanPolicy,
                         humanProfile);
  }

  /** The loop over the moves: each annotated, and counted for its player. */
  method AnnotateMoves(p: Perspective, o: Outside, game: Game, byTurn: ByTurn)
    returns (moves: seq<Annotation>, blackReport: PlayerReport, whiteReport: PlayerReport)
    ensures moves == Annotations(p, o, game, byTurn)
    ensures blackReport == Finished(TotalsOf(o, moves, Black), game.boardSize)
    ensures whiteReport == Finished(TotalsOf(o, moves, White), game.boardSize)
  {
    hide Annotated, MoveEvals, TotalsOf, Finished, Counted, TopMoves, PriorOf, HumanPriorOf;
    moves := [];
    NothingCounted(o);
    var black := new PlayerAccum();
    var white := new PlayerAccum();
    for index := 0 to |game.moves|
      invariant fresh(black) && fresh(white) && black != white
      invariant |moves| == index
      invariant forall i :: 0 <= i < index ==> moves[i] == AnnotatedMove(p, o, game, byTurn, i)
      invariant black.Now() == TotalsOf(o, moves, Black)
      invariant white.Now() == TotalsOf(o, moves, White)
    {
      var (color, mv) := game.moves[index];
      var (before, after) := MoveEvals(p, color, RootAt(byTurn, index), RootAt(byTurn, index + 1));
      var topMoves := TopMoves(p, InfosAt(byTurn, index), color, game.topK);
      var prior := PriorOf(o, game, PolicyOf(byTurn, index), mv, topMoves);
      var humanPrior := HumanPriorOf(o, game, HumanPolicyOf(byTurn, index), mv, topMoves);
      var note := Annotated(index + 1, color, mv, before, after, prior, humanPrior, topMoves);
      TotalsMore(o, moves, note, Black);
      TotalsMore(o, moves, note, White);
      var accum := if color.Black? then black else white;
      accum.Record(o, note.winrateLoss, note.scoreLoss, note.winrateClass, note.scoreClass);
      moves := moves + [note];
    }
    assert moves == Annotations(p, o, game, byTurn);
    blackReport := black.Finish(game.boardSize);
    whiteReport := white.Finish(game.boardSize);
  }

  lemma NothingCounted(o: Outside)
    ensures TotalsOf(o, [], Black) == NO_TOTALS && TotalsOf(o, [], White) == NO_TOTALS
  {
  }

  lemma TotalsMore(o: Outside, moves: seq<Annotation>, note: Annotation, color: Color)
    ensures var t := TotalsOf(o, moves, color);
      TotalsOf(o, moves + [note], color) ==
      if note.color != color then t
      else
        Totals(t.moves + 1, t.winrateLoss + note.winrateLoss, t.scoreLoss + note.scoreLoss,
               t.accuracy + o.accuracy(note.winrateLoss),
               Counted(t.byWinrate, note.winrateClass), Counted(t.byScore, note.scoreClass))
  {
    assert (moves + [note])[..|moves|] == moves;
  }

  // ----- counting

  /** Under both lenses a player's class counts add up to the player's moves. */
  lemma {:induction false} CountsAddUp(o: Outside, moves: seq<Annotation>, color: Color)
    ensures var t := TotalsOf(o, moves, color); CountTotal(t.byWinrate) == t.moves == CountTotal(t.byScore)
  {
    if moves != [] {
      CountsAddUp(o, moves[..|moves| - 1], color);
    }
  }

  /** Every move belongs to exactly one of the two reports. */
  lemma {:induction false} PlayersShareTheMoves(o: Outside, moves: seq<Annotation>)
    ensures TotalsOf(o, moves, Black).moves + TotalsOf(o, moves, White).moves == |moves|
  {
    if moves != [] {
      PlayersShareTheMoves(o, moves[..|moves| - 1]);
    }
  }

  lemma AnalysisCounts(p: Perspective, o: Outside, game: Game, byTurn: ByTurn, profile: Option<string>)
    ensures var a := AnalysisOf(p, o, game, byTurn, profile);
      && a.numMoves == |a.moves| == |game.moves| == a.black.moves + a.white.moves
      && CountTotal(a.black.byWinrate) == CountTotal(a.black.byScore) == a.black.moves
      && CountTotal(a.white.byWinrate) == CountTotal(a.white.byScore) == a.white.moves
  {
    hide Grids, EstimateRank;
    var moves := Annotations(p, o, game, byTurn);
    CountsAddUp(o, moves, Black);
    CountsAddUp(o, moves, White);
    PlayersShareTheMoves(o, moves);
  }

  /** How many annotations are of this kind. */
  function Tally(moves: seq<Annotation>, kind: Annotation -> bool): nat {
    if moves == [] then 0 else Tally(moves[1..], kind) + (if kind(moves[0]) then 1 else 0)
  }

  function SumOf(moves: seq<Annotation>, value: Annotation -> real): real {
    if moves == [] then 0.0 else value(moves[0]) + SumOf(moves[1..], value)
  }

  lemma {:induction false} TallySnoc(moves: seq<Annotation>, note: Annotation, kind: Annotation -> bool)
    ensures Tally(moves + [note], kind) == Tally(moves, kind) + (if kind(note) then 1 else 0)
  {
    if moves == [] {
      assert [note][1..] == [];
    } else {
      assert (moves + [note])[1..] == moves[1..] + [note];
      TallySnoc(moves[1..], note, kind);
    }
  }

  lemma {:induction false} SumSnoc(moves: seq<Annotation>, note: Annotation, value: Annotation -> real)
    ensures SumOf(moves + [note], value) == SumOf(moves, value) + value(note)
  {
    if moves == [] {
      assert [note][1..] == [];
    } else {
      assert (moves + [note])[1..] == moves[1..] + [note];
      SumSnoc(moves[1..], note, value);
    }
  }

  function OfPlayer(color: Color): Annotation -> bool {
    (note: Annotation) => note.color == color
  }

  function WinrateClassed(color: Color, c: Classification): Annotation -> bool {
    (note: Annotation) => note.color == color && note.winrateClass == c
  }

  function ScoreClassed(color: Color, c: Classification): Annotation -> bool {
    (note: Annotation) => note.color == color && note.scoreClass == c
  }

  function Mine(color: Color, value: Annotation -> real): Annotation -> real {
    (note: Annotation) => if note.color == color then value(note) else 0.0
  }

  const WINRATE_LOSS: Annotation -> real := (note: Annotation) => note.winrateLoss
  const SCORE_LOSS: Annotation -> real := (note: Annotation) => note.scoreLoss

  function AccuracyOf(o: Outside): Annotation -> real {
    (note: Annotation) => o.accuracy(note.winrateLoss)
  }

  function CountIn(counts: ClassCounts, c: Classification): nat {
    match c
    case Good => counts.good
    case Inaccuracy => counts.inaccuracy
    case Mistake => counts.mistake
    case Blunder => counts.blunder
  }

  /** A player's totals: the moves, and each class of them under each lens, counted; the losses and the
      accuracies of their win-rate losses summed. */
  lemma {:induction false} TotalsAre(o: Outside, moves: seq<Annotation>, color: Color, c: Classification)
    ensures var t := TotalsOf(o, moves, color);
      && t.moves == Tally(moves, OfPlayer(color))
      && CountIn(t.byWinrate, c) == Tally(moves, WinrateClassed(color, c))
      && CountIn(t.byScore, c) == Tally(moves, ScoreClassed(color, c))
      && t.winrateLoss == SumOf(moves, Mine(color, WINRATE_LOSS))
      && t.scoreLoss == SumOf(moves, Mine(color, SCORE_LOSS))
      && t.accuracy == SumOf(moves, Mine(color, AccuracyOf(o)))
  {
    if moves != [] {
      var last := |moves| - 1;
      var rest, note := moves[..last], moves[last];
      assert moves == rest + [note];
      TotalsAre(o, rest, color, c);
      hide Tally, SumOf, TotalsOf;
      TotalsMore(o, rest, note, color);
      TallySnoc(rest, note, OfPlayer(color));
      TallySnoc(rest, note, WinrateClassed(color, c));
      TallySnoc(rest, note, ScoreClassed(color, c));
      SumSnoc(rest, note, Mine(color, WINRATE_LOSS));
      SumSnoc(rest, note, Mine(color, SCORE_LOSS));
      SumSnoc(rest, note, Mine(color, AccuracyOf(o)));
    }
  }

  lemma Quotient(a: real, b: real)
    requires b != 0.0
    ensures a / b * b == a
  {
  }

  /** A player's report: its means times its moves are the sums over the player's own annotations (or are
      0), its counts are those of its annotations, and its rank is that of its mean score loss. */
  lemma ReportIs(
    p: Perspective, o: Outside, game: Game, byTurn: ByTurn, profile: Option<string>, color: Color, c: Classification)
    ensures var a := AnalysisOf(p, o, game, byTurn, profile);
      var report := if color.Black? then a.black else a.white;
      var n := Max(report.moves, 1) as real;
      && report.moves == Tally(a.moves, OfPlayer(color))
      && CountIn(report.byWinrate, c) == Tally(a.moves, WinrateClassed(color, c))
      && CountIn(report.byScore, c) == Tally(a.moves, ScoreClassed(color, c))
      && report.meanWinrateLoss * n == SumOf(a.moves, Mine(color, WINRATE_LOSS))
      && report.meanScoreLoss * n == SumOf(a.moves, Mine(color, SCORE_LOSS))
      && report.accuracy * n == SumOf(a.moves, Mine(color, AccuracyOf(o)))
      && report.estimatedRank == EstimateRank(game.boardSize, report.moves, report.meanScoreLoss)
  {
    hide Annotations, TotalsOf, Grids, Tally, SumOf, EstimateRank, EncodePolicy, EncodeOwnership, EncodeStdev;
    var moves := Annotations(p, o, game, byTurn);
    TotalsAre(o, moves, color, c);
    var t := TotalsOf(o, moves, color);
    var n := Max(t.moves, 1) as real;
    Quotient(t.winrateLoss, n);
    Quotient(t.scoreLoss, n);
    Quotient(t.accuracy, n);
  }

  const BANDS: seq<string> := ["~7d+", "~5d", "~3d", "~1d", "~2k", "~5k", "~8k", "~12k", "~15k+"]

  /** Only full-size games with enough moves are ranked, from the strongest band to the weakest; losing more
      points never ranks stronger. */
  lemma RanksAscend(boardSize: nat, moves: nat, a: real, b: real) returns (i: nat, j: nat)
    ensures EstimateRank(boardSize, moves, a).Some? <==> boardSize == 19 && moves >= 20
    ensures EstimateRank(boardSize, moves, a).Some? ==>
      && i < |BANDS| && j < |BANDS|
      && EstimateRank(boardSize, moves, a) == Some(BANDS[i]) && EstimateRank(boardSize, moves, b) == Some(BANDS[j])
      && (a <= b ==> i <= j)
  {
    i, j := BandOf(a), BandOf(b);
  }

  function BandOf(loss: real): nat {
    if loss < 0.8 then 0
    else if loss < 1.2 then 1
    else if loss < 1.7 then 2
    else if loss < 2.2 then 3
    else if loss < 2.8 then 4
    else if loss < 3.5 then 5
    else if loss < 4.5 then 6
    else if loss < 6.0 then 7
    else 8
  }

  /** The analysis lists each move's own annotation, in order. */
  lemma AnalysisMoves(p: Perspective, o: Outside, game: Game, byTurn: ByTurn, profile: Option<string>, i: nat)
    requires i < |game.moves|
    ensures var a := AnalysisOf(p, o, game, byTurn, profile);
      i < |a.moves| && a.moves[i] == AnnotatedMove(p, o, game, byTurn, i)
  {
    hide AnnotatedMove, TotalsOf, Finished, Grids, EncodePolicy, EncodeOwnership, EncodeStdev;
  }

  // ----- what the grids hold

  /** A turn's board of numbers for a grid, with its trailing entry (the pass) for a policy. */
  predicate Carries(raw: Option<seq<real>>, entries: nat) {
    raw.Some? && |raw.value| == entries
  }

  /** All four grids: one row of the board's points for every turn, each from its own field of that turn's
      response, or nothing as soon as one turn lacks it; the profile is there only with the human policy. */
  lemma AnalysisGrids(
    p: Perspective, o: Outside, game: Game, byTurn: ByTurn, profile: Option<string>, t: nat, i: nat)
    requires t <= |game.moves| && i < Points(game)
    ensures var a, n := AnalysisOf(p, o, game, byTurn, profile), Points(game);
      && (a.ownership != [] ==>
            t in byTurn && Carries(byTurn[t].ownership, n) && t < |a.ownership| && i < |a.ownership[t]| &&
            a.ownership[t][i] == EncodeOwnership(p, game.moves)(t, byTurn[t].ownership.value[i]))
      && (a.ownershipStdev != [] ==>
            t in byTurn && Carries(byTurn[t].ownershipStdev, n) && t < |a.ownershipStdev| &&
            i < |a.ownershipStdev[t]| &&
            a.ownershipStdev[t][i] == EncodeStdev()(t, byTurn[t].ownershipStdev.value[i]))
      && (a.policy != [] ==>
            t in byTurn && Carries(byTurn[t].policy, n + 1) && t < |a.policy| && i < |a.policy[t]| &&
            a.policy[t][i] == EncodePolicy(o)(t, byTurn[t].policy.value[i]))
      && (a.humanPolicy != [] ==>
            t in byTurn && Carries(byTurn[t].humanPolicy, n + 1) && t < |a.humanPolicy| && i < |a.humanPolicy[t]| &&
            a.humanPolicy[t][i] == EncodePolicy(o)(t, byTurn[t].humanPolicy.value[i]))
      && a.humanProfile == (if a.humanPolicy == [] then None else profile)
  {
    hide Annotations, TotalsOf, Finished, EncodePolicy, EncodeOwnership, EncodeStdev, Points, Grids;
    GridReads(game, byTurn, Ownership, EncodeOwnership(p, game.moves), t, i);
    GridReads(game, byTurn, OwnershipStdev, EncodeStdev(), t, i);
    GridReads(game, byTurn, Policy, EncodePolicy(o), t, i);
    GridReads(game, byTurn, HumanPolicy, EncodePolicy(o), t, i);
  }

  lemma GridReads(game: Game, byTurn: ByTurn, grid: Grid, encode: (nat, real) -> int, t: nat, i: nat)
    requires t <= |game.moves| && i < Points(game)
    ensures var grids := Grids(game, byTurn, grid, encode);
      && (grids == [] <==> exists turn: nat :: turn <= |game.moves| && !HasGrid(game, byTurn, turn, grid))
      && (grids != [] ==>
            && HasGrid(game, byTurn, t, grid) && |grids| == |game.moves| + 1 && |grids[t]| == Points(game)
            && grids[t][i] == encode(t, Field(byTurn[t], grid).value[i]))
  {
    hide Points;
    if forall turn: nat :: turn <= |game.moves| ==> HasGrid(game, byTurn, turn, grid) {
      assert HasGrid(game, byTurn, t, grid);
    }
  }

  /** To the nearest, and of the same size for either sign. */
  lemma RoundIsNearest(x: real)
    ensures -0.5 <= Round(x) as real - x <= 0.5 && Round(-x) == -Round(x)
  {
  }

  /** An ownership cell is its hundredths to the nearest, and the other player's the same with the other
      sign; a spread likewise; a policy entry is its square root in 255ths, and 0 for an illegal point. */
  lemma CellsAreNearest(o: Outside, turn: nat, x: real)
    ensures -100 <= Hundredths(x) <= 100 && Hundredths(-x) == -Hundredths(x)
    ensures -1.0 <= x <= 1.0 ==> -0.5 <= Hundredths(x) as real - x * 100.0 <= 0.5
    ensures 0 <= EncodeStdev()(turn, x) <= 100
    ensures 0.0 <= x <= 1.0 ==> -0.5 <= EncodeStdev()(turn, x) as real - x * 100.0 <= 0.5
    ensures 0 <= EncodePolicy(o)(turn, x) <= 255 && (x <= 0.0 ==> EncodePolicy(o)(turn, x) == 0)
    ensures x > 0.0 && 0.0 <= o.sqrt(x) <= 1.0 ==>
      -0.5 <= EncodePolicy(o)(turn, x) as real - 255.0 * o.sqrt(x) <= 0.5
  {
    hide Round;
    RoundIsNearest(x * 100.0);
    RoundIsNearest(255.0 * o.sqrt(x));
    assert -x * 100.0 == -(x * 100.0);
  }

  // ----- one truth, three perspectives

  /** What is true at a turn, in Black's frame: the evaluation, the candidates, the ownership map if there
      is one, and the grids that are nobody's view. */
  datatype Truth = Truth(
    eval: Eval,
    moveInfos: seq<MoveInfo>,
    ownership: Option<seq<real>>,
    ownershipStdev: Option<seq<real>>,
    policy: Option<seq<real>>,
    humanPolicy: Option<seq<real>>)

  function View(e: Eval, viewer: Color): Eval {
    if viewer.Black? then e else Flipped(e)
  }

  function Signed(cells: seq<real>, viewer: Color): seq<real> {
    seq(|cells|, i requires 0 <= i < |cells| => if viewer.Black? then cells[i] else -cells[i])
  }

  function Reframed(info: MoveInfo, viewer: Color): MoveInfo {
    var eval := View(Eval(info.winrate, info.scoreLead), viewer);
    info.(winrate := eval.winrate, scoreLead := eval.scoreLead)
  }

  function ReframedAll(infos: seq<MoveInfo>, viewer: Color): seq<MoveInfo> {
    seq(|infos|, i requires 0 <= i < |infos| => Reframed(infos[i], viewer))
  }

  /** Whose evaluations KataGo states when `side` is to move. */
  function Frame(p: Perspective, side: Color): Color {
    match p
    case OfBlack => Black
    case OfWhite => White
    case SideToMove => side
  }

  /** The truth as KataGo puts it under `p` with `side` to move, naming the player to move or not. */
  function Put(p: Perspective, truth: Truth, turn: nat, side: Color, named: bool): TurnResponse {
    var frame := Frame(p, side);
    var eval := View(truth.eval, frame);
    TurnResponse(turn, Some(RootInfo(eval.winrate, eval.scoreLead, if named then Some(side) else None)),
                 ReframedAll(truth.moveInfos, frame),
                 if truth.ownership.Some? then Some(Signed(truth.ownership.value, frame)) else None,
                 truth.ownershipStdev, truth.policy, truth.humanPolicy)
  }

  /** Every turn's response puts the truth, with `sides` to move as KataGo has it. */
  ghost predicate Reports(
    p: Perspective, moves: Moves, truth: nat -> Truth, byTurn: ByTurn, sides: nat -> Color, named: bool)
  {
    forall t: nat :: t <= |moves| ==> t in byTurn && byTurn[t] == Put(p, truth(t), t, sides(t), named)
  }

  /** The sides to move by the move list. */
  function Movers(moves: Moves): nat -> Color {
    (t: nat) => SideToMoveAt(moves, t)
  }

  /** KataGo's sides are those of the move list, or nothing is reported in their frame. */
  ghost predicate Fits(p: Perspective, moves: Moves, sides: nat -> Color) {
    !p.SideToMove? || forall t: nat :: t <= |moves| ==> sides(t) == SideToMoveAt(moves, t)
  }

  /** Rotating what KataGo reported gives the viewer's evaluation, whatever side the caller assumed. */
  lemma RotationIsExact(p: Perspective, truth: Truth, turn: nat, side: Color, viewer: Color, assumed: Color)
    ensures AsSeenBy(p, Put(p, truth, turn, side, true).rootInfo.value, viewer, assumed) == View(truth.eval, viewer)
    ensures assumed == side || !p.SideToMove? ==>
      AsSeenBy(p, Put(p, truth, turn, side, false).rootInfo.value, viewer, assumed) == View(truth.eval, viewer)
  {
  }

  /** The candidates of a position in the mover's frame. */
  function TrueTopMoves(truth: Truth, color: Color, topK: nat): seq<Candidate> {
    TopMoves(OfBlack, truth.moveInfos, color, topK)
  }

  /** The annotation of a move that the true evaluations give. */
  function TrueNote(o: Outside, game: Game, truth: nat -> Truth, index: nat): Annotation
    requires index < |game.moves|
  {
    var (color, mv) := game.moves[index];
    var topMoves := TrueTopMoves(truth(index), color, game.topK);
    Annotated(index + 1, color, mv, Some(View(truth(index).eval, color)), Some(View(truth(index + 1).eval, color)),
              PriorOf(o, game, truth(index).policy, mv, topMoves),
              HumanPriorOf(o, game, truth(index).humanPolicy, mv, topMoves),
              topMoves)
  }

  function TrueNotes(o: Outside, game: Game, truth: nat -> Truth): seq<Annotation> {
    seq(|game.moves|, index requires 0 <= index < |game.moves| => TrueNote(o, game, truth, index))
  }

  lemma {:induction false} InsertedReframed(sorted: seq<MoveInfo>, info: MoveInfo, viewer: Color)
    ensures Inserted(ReframedAll(sorted, viewer), Reframed(info, viewer)) == ReframedAll(Inserted(sorted, info), viewer)
  {
    hide View;
    var framed := ReframedAll(sorted, viewer);
    if sorted != [] && sorted[|sorted| - 1].order > info.order {
      assert framed[..|sorted| - 1] == ReframedAll(sorted[..|sorted| - 1], viewer);
      InsertedReframed(sorted[..|sorted| - 1], info, viewer);
    }
  }

  /** Ranking looks at ranks only, so it does not matter in which frame the candidates are. */
  lemma {:induction false} RankingReframed(infos: seq<MoveInfo>, viewer: Color)
    ensures ByRank(ReframedAll(infos, viewer)) == ReframedAll(ByRank(infos), viewer)
  {
    hide Reframed;
    if infos != [] {
      var last := |infos| - 1;
      assert ReframedAll(infos, viewer)[..last] == ReframedAll(infos[..last], viewer);
      RankingReframed(infos[..last], viewer);
      InsertedReframed(ByRank(infos[..last]), infos[last], viewer);
    }
  }

  lemma CandidateIsExact(p: Perspective, info: MoveInfo, side: Color, color: Color)
    requires !p.SideToMove? || side == color
    ensures CandidateAsSeenBy(p, Reframed(info, Frame(p, side)), color, color) ==
      CandidateAsSeenBy(OfBlack, info, color, color)
  {
  }

  lemma TopMovesAreTrue(
    p: Perspective, truth: Truth, turn: nat, side: Color, named: bool, color: Color, topK: nat)
    requires !p.SideToMove? || side == color
    ensures TopMoves(p, Put(p, truth, turn, side, named).moveInfos, color, topK) == TrueTopMoves(truth, color, topK)
  {
    hide CandidateAsSeenBy, Reframed, ByRank, View;
    var frame := Frame(p, side);
    RankingReframed(truth.moveInfos, frame);
    var ranked := ByRank(truth.moveInfos);
    forall i | 0 <= i < |ranked|
      ensures CandidateAsSeenBy(p, Reframed(ranked[i], frame), color, color) ==
        CandidateAsSeenBy(OfBlack, ranked[i], color, color)
    {
      CandidateIsExact(p, ranked[i], side, color);
    }
  }

  /** The candidates of a report with `side` to move come out as the mover's own, whatever the truth. */
  ghost predicate CandidatesFit(p: Perspective, turn: nat, side: Color, color: Color) {
    forall truth: Truth, topK: nat ::
      TopMoves(p, Put(p, truth, turn, side, true).moveInfos, color, topK) == TrueTopMoves(truth, color, topK)
  }

  function Lone(info: MoveInfo): Truth {
    Truth(Eval(0.5, 0.0), [info], None, None, None, None)
  }

  /** Candidates name nobody and are read in the frame of the move's player: right for every truth
      exactly if the perspective is fixed or KataGo has that player to move. */
  lemma CandidatesAreExact(p: Perspective, turn: nat, side: Color, color: Color)
    ensures CandidatesFit(p, turn, side, color) <==> !p.SideToMove? || side == color
  {
    hide TopMoves, Reframed, CandidateAsSeenBy, Put;
    if !p.SideToMove? || side == color {
      forall truth: Truth, topK: nat
        ensures TopMoves(p, Put(p, truth, turn, side, true).moveInfos, color, topK) == TrueTopMoves(truth, color, topK)
      {
        TopMovesAreTrue(p, truth, turn, side, true, color, topK);
      }
    } else {
      var info := MoveInfo("", 0.5, 1.0, 0.0, None, 0, [], 0);
      var reported := Reframed(info, side);
      LoneIsFlipped(info, color);
      PutParts(p, Lone(info), turn, side, true);
      assert ReframedAll([info], side) == [reported];
      TopOfOne(SideToMove, reported, color);
      TopOfOne(OfBlack, info, color);
      assert [CandidateAsSeenBy(SideToMove, reported, color, color)][0] !=
        [CandidateAsSeenBy(OfBlack, info, color, color)][0];
      assert TopMoves(p, Put(p, Lone(info), turn, side, true).moveInfos, color, 1) !=
        TrueTopMoves(Lone(info), color, 1);
    }
  }

  /** A candidate that leads by a point for one player is read as behind by a point for the other. */
  lemma LoneIsFlipped(info: MoveInfo, color: Color)
    requires info.scoreLead == 1.0
    ensures CandidateAsSeenBy(SideToMove, Reframed(info, Other(color)), color, color) !=
      CandidateAsSeenBy(OfBlack, info, color, color)
  {
  }

  lemma TopOfOne(p: Perspective, info: MoveInfo, color: Color)
    ensures TopMoves(p, [info], color, 1) == [CandidateAsSeenBy(p, info, color, color)]
  {
    hide CandidateAsSeenBy;
    assert [info][..0] == [];
    assert ByRank([]) == [];
    assert ByRank([info]) == [info];
  }

  /** The same candidate, perhaps in another frame. */
  predicate Alike(a: Candidate, b: Candidate) {
    a == b.(winrate := a.winrate, scoreLead := a.scoreLead)
  }

  predicate AllAlike(a: seq<Candidate>, b: seq<Candidate>) {
    |a| == |b| && forall i :: 0 <= i < |a| ==> Alike(a[i], b[i])
  }

  /** Whoever KataGo has to move, the candidates are the right ones but for their evaluations. */
  lemma TopMovesAreAlike(
    p: Perspective, truth: Truth, turn: nat, side: Color, named: bool, color: Color, topK: nat)
    ensures AllAlike(TopMoves(p, Put(p, truth, turn, side, named).moveInfos, color, topK),
                     TrueTopMoves(truth, color, topK))
  {
    hide ByRank, View;
    RankingReframed(truth.moveInfos, Frame(p, side));
  }

  lemma {:induction false} PlayedAlike(a: seq<Candidate>, b: seq<Candidate>, mv: string)
    requires AllAlike(a, b)
    ensures Played(a, mv).Some? <==> Played(b, mv).Some?
    ensures Played(a, mv).Some? ==> Alike(Played(a, mv).value, Played(b, mv).value)
  {
    if a != [] {
      assert Alike(a[0], b[0]);
      PlayedAlike(a[1..], b[1..], mv);
    }
  }

  // ----- what ranking does

  function OfRank(infos: seq<MoveInfo>, order: nat): seq<MoveInfo> {
    if infos == [] then []
    else
      var last, rest := infos[|infos| - 1], OfRank(infos[..|infos| - 1], order);
      if last.order == order then rest + [last] else rest
  }

  predicate Ascends(infos: seq<MoveInfo>) {
    forall i, j :: 0 <= i < j < |infos| ==> infos[i].order <= infos[j].order
  }

  predicate AtMost(infos: seq<MoveInfo>, order: nat) {
    forall i :: 0 <= i < |infos| ==> infos[i].order <= order
  }

  lemma {:induction false} InsertedAscends(sorted: seq<MoveInfo>, info: MoveInfo, bound: nat)
    requires Ascends(sorted) && AtMost(sorted, bound) && info.order <= bound
    ensures Ascends(Inserted(sorted, info)) && AtMost(Inserted(sorted, info), bound)
  {
    if sorted != [] && sorted[|sorted| - 1].order > info.order {
      InsertedAscends(sorted[..|sorted| - 1], info, sorted[|sorted| - 1].order);
    }
  }

  lemma OfRankSnoc(infos: seq<MoveInfo>, info: MoveInfo, order: nat)
    ensures OfRank(infos + [info], order) == OfRank(infos, order) + (if info.order == order then [info] else [])
  {
    assert (infos + [info])[..|infos|] == infos;
  }

  lemma {:induction false} InsertedKeepsRanks(sorted: seq<MoveInfo>, info: MoveInfo, order: nat)
    ensures OfRank(Inserted(sorted, info), order) == OfRank(sorted + [info], order)
  {
    hide OfRank;
    if sorted != [] && sorted[|sorted| - 1].order > info.order {
      var rest, last := sorted[..|sorted| - 1], sorted[|sorted| - 1];
      InsertedKeepsRanks(rest, info, order);
      OfRankSnoc(Inserted(rest, info), last, order);
      OfRankSnoc(rest, info, order);
      OfRankSnoc(rest, last, order);
      OfRankSnoc(sorted, info, order);
      assert sorted == rest + [last];
    }
  }

  function TopRank(infos: seq<MoveInfo>): nat {
    if infos == [] then 0 else Max(TopRank(infos[..|infos| - 1]), infos[|infos| - 1].order)
  }

  /** Candidates come out by rank, each exactly as often as it went in, equal ranks in their order. */
  lemma {:induction false} RankingIsStable(infos: seq<MoveInfo>, order: nat)
    ensures Ascends(ByRank(infos)) && AtMost(ByRank(infos), TopRank(infos))
    ensures OfRank(ByRank(infos), order) == OfRank(infos, order)
  {
    hide Inserted;
    if infos != [] {
      var rest, last := infos[..|infos| - 1], infos[|infos| - 1];
      RankingIsStable(rest, order);
      InsertedAscends(ByRank(rest), last, TopRank(infos));
      InsertedKeepsRanks(ByRank(rest), last, order);
      OfRankSnoc(ByRank(rest), last, order);
      OfRankSnoc(rest, last, order);
      assert infos == rest + [last];
    }
  }

  lemma {:induction false} InsertedCount(sorted: seq<MoveInfo>, info: MoveInfo)
    ensures |Inserted(sorted, info)| == |sorted| + 1
  {
    if sorted != [] && sorted[|sorted| - 1].order > info.order {
      InsertedCount(sorted[..|sorted| - 1], info);
    }
  }

  lemma {:induction false} RankingCounts(infos: seq<MoveInfo>)
    ensures |ByRank(infos)| == |infos|
  {
    if infos != [] {
      RankingCounts(infos[..|infos| - 1]);
      InsertedCount(ByRank(infos[..|infos| - 1]), infos[|infos| - 1]);
    }
  }

  /** The candidates kept are the best ranked, as many as there are up to the limit, each with its own
      move and numbers, turned into the mover's frame; none that was dropped ranks before one kept. */
  lemma TopMovesAreBest(p: Perspective, infos: seq<MoveInfo>, color: Color, topK: nat, i: nat, j: nat)
    ensures |TopMoves(p, infos, color, topK)| == Min(topK, |infos|) && |ByRank(infos)| == |infos|
    ensures i < Min(topK, |infos|) ==>
      var seen, info := TopMoves(p, infos, color, topK)[i], ByRank(infos)[i];
      && seen.mv == info.mv && seen.prior == info.prior && seen.humanPrior == info.humanPrior
      && seen.visits == info.visits && seen.pv == info.pv
      && seen.winrate == (if Frame(p, color) == color then info.winrate else 1.0 - info.winrate)
      && seen.scoreLead == (if Frame(p, color) == color then info.scoreLead else -info.scoreLead)
    ensures i < Min(topK, |infos|) <= j < |infos| ==> ByRank(infos)[i].order <= ByRank(infos)[j].order
  {
    hide ByRank;
    RankingCounts(infos);
    RankingIsStable(infos, 0);
  }

  lemma PutParts(p: Perspective, truth: Truth, turn: nat, side: Color, named: bool)
    ensures var put := Put(p, truth, turn, side, named);
      && put.rootInfo.Some? && put.policy == truth.policy && put.humanPolicy == truth.humanPolicy
      && put.ownershipStdev == truth.ownershipStdev && put.ownership.Some? == truth.ownership.Some?
      && put.moveInfos == ReframedAll(truth.moveInfos, Frame(p, side))
  {
  }

  /** The priors depend on the candidates' moves and priors only. */
  lemma PriorsAlike(
    o: Outside, game: Game, policy: Option<seq<real>>, mv: string, a: seq<Candidate>, b: seq<Candidate>)
    requires AllAlike(a, b)
    ensures PriorOf(o, game, policy, mv, a) == PriorOf(o, game, policy, mv, b)
    ensures HumanPriorOf(o, game, policy, mv, a) == HumanPriorOf(o, game, policy, mv, b)
  {
    hide PolicyAt, Played, AllAlike;
    PlayedAlike(a, b, mv);
  }

  /** One move, when each of its turns is read in the frame it was reported in: by name, or because the
      assumed side is right. */
  lemma NoteIsTrue(
    p: Perspective, o: Outside, game: Game, truth: nat -> Truth, byTurn: ByTurn, sides: nat -> Color, named: bool,
    index: nat)
    requires Reports(p, game.moves, truth, byTurn, sides, named) && index < |game.moves|
    requires named || !p.SideToMove? ||
             (sides(index) == game.moves[index].0 && sides(index + 1) == Other(game.moves[index].0))
    ensures var note := AnnotatedMove(p, o, game, byTurn, index);
      && note == TrueNote(o, game, truth, index).(topMoves := note.topMoves)
      && (!p.SideToMove? || sides(index) == game.moves[index].0 ==> note == TrueNote(o, game, truth, index))
  {
    hide Put, AsSeenBy, View, TopMoves, TrueTopMoves, PriorOf, HumanPriorOf, AllAlike, ClassifyWinrate, ClassifyScore;
    var (color, mv) := game.moves[index];
    assert byTurn[index] == Put(p, truth(index), index, sides(index), named);
    assert byTurn[index + 1] == Put(p, truth(index + 1), index + 1, sides(index + 1), named);
    PutParts(p, truth(index), index, sides(index), named);
    PutParts(p, truth(index + 1), index + 1, sides(index + 1), named);
    RotationIsExact(p, truth(index), index, sides(index), color, color);
    RotationIsExact(p, truth(index + 1), index + 1, sides(index + 1), color, Other(color));
    var seen := TopMoves(p, byTurn[index].moveInfos, color, game.topK);
    var right := TrueTopMoves(truth(index), color, game.topK);
    TopMovesAreAlike(p, truth(index), index, sides(index), named, color, game.topK);
    PriorsAlike(o, game, truth(index).policy, mv, seen, right);
    PriorsAlike(o, game, truth(index).humanPolicy, mv, seen, right);
    if !p.SideToMove? || sides(index) == color {
      TopMovesAreTrue(p, truth(index), index, sides(index), named, color, game.topK);
    }
  }

  /** Whomever KataGo names, everything in an annotation but its candidates' evaluations is what the truth
      gives; the candidates are too where the names agree with the move list or the perspective is fixed. */
  lemma NotesAreTrue(
    p: Perspective, o: Outside, game: Game, truth: nat -> Truth, byTurn: ByTurn, sides: nat -> Color)
    requires Reports(p, game.moves, truth, byTurn, sides, true)
    ensures |Annotations(p, o, game, byTurn)| == |TrueNotes(o, game, truth)| == |game.moves|
    ensures forall index: nat :: index < |game.moves| ==>
      var note := Annotations(p, o, game, byTurn)[index];
      note == TrueNotes(o, game, truth)[index].(topMoves := note.topMoves)
    ensures Fits(p, game.moves, sides) ==> Annotations(p, o, game, byTurn) == TrueNotes(o, game, truth)
  {
    hide AnnotatedMove, TrueNote, Reports;
    forall index: nat | index < |game.moves|
      ensures var note := AnnotatedMove(p, o, game, byTurn, index);
        && note == TrueNote(o, game, truth, index).(topMoves := note.topMoves)
        && (!p.SideToMove? || sides(index) == game.moves[index].0 ==> note == TrueNote(o, game, truth, index))
    {
      NoteIsTrue(p, o, game, truth, byTurn, sides, true, index);
    }
  }

  function EncodeTrue(): (nat, real) -> int {
    (turn: nat, cell: real) => Hundredths(cell)
  }

  /** The ownership grids that the true maps give. */
  function TrueGrids(game: Game, truth: nat -> Truth): seq<seq<int>> {
    if forall t :: 0 <= t <= |game.moves| ==> TrulySized(truth, t, Points(game)) then
      seq(|game.moves| + 1, t requires 0 <= t <= |game.moves| && TrulySized(truth, t, Points(game)) =>
        Encoded(truth(t).ownership.value, t, EncodeTrue()))
    else []
  }

  predicate TrulySized(truth: nat -> Truth, t: nat, expected: nat) {
    truth(t).ownership.Some? && |truth(t).ownership.value| == expected
  }

  lemma GridIsTrue(p: Perspective, moves: Moves, truth: Truth, turn: nat, side: Color)
    requires truth.ownership.Some? && (!p.SideToMove? || side == SideToMoveAt(moves, turn))
    ensures var put := Put(p, truth, turn, side, true);
      && put.ownership.Some? && |put.ownership.value| == |truth.ownership.value|
      && Encoded(put.ownership.value, turn, EncodeOwnership(p, moves)) ==
           Encoded(truth.ownership.value, turn, EncodeTrue())
  {
    hide Hundredths;
    var put := Put(p, truth, turn, side, true);
    forall i | 0 <= i < |truth.ownership.value|
      ensures EncodeOwnership(p, moves)(turn, put.ownership.value[i]) == Hundredths(truth.ownership.value[i])
    {
    }
  }

  /** The ownership map of a report with `side` to move comes out as Black's, whatever the truth. */
  ghost predicate OwnershipFits(p: Perspective, moves: Moves, turn: nat, side: Color) {
    forall truth: Truth :: truth.ownership.Some? ==>
      && Put(p, truth, turn, side, true).ownership.Some?
      && Encoded(Put(p, truth, turn, side, true).ownership.value, turn, EncodeOwnership(p, moves)) ==
           Encoded(truth.ownership.value, turn, EncodeTrue())
  }

  /** The map names nobody and is read by the move list: right for every truth exactly if the perspective
      is fixed or KataGo has the move list's side to move. */
  lemma OwnershipIsExact(p: Perspective, moves: Moves, turn: nat, side: Color)
    ensures OwnershipFits(p, moves, turn, side) <==> !p.SideToMove? || side == SideToMoveAt(moves, turn)
  {
    hide Put, Encoded, EncodeOwnership, EncodeTrue, SideToMoveAt;
    if !p.SideToMove? || side == SideToMoveAt(moves, turn) {
      forall truth: Truth | truth.ownership.Some?
        ensures Put(p, truth, turn, side, true).ownership.Some?
        ensures Encoded(Put(p, truth, turn, side, true).ownership.value, turn, EncodeOwnership(p, moves)) ==
          Encoded(truth.ownership.value, turn, EncodeTrue())
      {
        GridIsTrue(p, moves, truth, turn, side);
      }
    } else {
      var truth := Truth(Eval(0.5, 0.0), [], Some([1.0]), None, None, None);
      PointIsMisread(moves, truth, turn, side);
    }
  }

  /** A point of Black's is read as White's. */
  lemma PointIsMisread(moves: Moves, truth: Truth, turn: nat, side: Color)
    requires truth.ownership == Some([1.0]) && side != SideToMoveAt(moves, turn)
    ensures var put := Put(SideToMove, truth, turn, side, true);
      && put.ownership.Some?
      && Encoded(put.ownership.value, turn, EncodeOwnership(SideToMove, moves)) !=
           Encoded(truth.ownership.value, turn, EncodeTrue())
  {
    hide SideToMoveAt, Hundredths;
    HundredthsOfOne();
    var put := Put(SideToMove, truth, turn, side, true);
    assert Encoded(put.ownership.value, turn, EncodeOwnership(SideToMove, moves))[0] == Hundredths(-1.0);
    assert Encoded(truth.ownership.value, turn, EncodeTrue())[0] == Hundredths(1.0);
  }

  lemma HundredthsOfOne()
    ensures Hundredths(1.0) == 100 && Hundredths(-1.0) == -100
  {
  }

  lemma TurnGridIsTrue(
    p: Perspective, game: Game, truth: nat -> Truth, byTurn: ByTurn, sides: nat -> Color, t: nat)
    requires Reports(p, game.moves, truth, byTurn, sides, true) && Fits(p, game.moves, sides) && t <= |game.moves|
    ensures HasGrid(game, byTurn, t, Ownership) <==> TrulySized(truth, t, Points(game))
    ensures HasGrid(game, byTurn, t, Ownership) ==>
      GridAt(game, byTurn, t, Ownership, EncodeOwnership(p, game.moves)) ==
      Encoded(truth(t).ownership.value, t, EncodeTrue())
  {
    hide Encoded, EncodeOwnership, EncodeTrue, Put, Hundredths, SideToMoveAt, Points;
    assert byTurn[t] == Put(p, truth(t), t, sides(t), true);
    PutParts(p, truth(t), t, sides(t), true);
    if truth(t).ownership.Some? {
      GridIsTrue(p, game.moves, truth(t), t, sides(t));
      var raw := byTurn[t].ownership.value;
      assert raw[..|raw|] == raw;
    }
  }

  lemma GridsAreTrue(p: Perspective, game: Game, truth: nat -> Truth, byTurn: ByTurn, sides: nat -> Color)
    requires Reports(p, game.moves, truth, byTurn, sides, true) && Fits(p, game.moves, sides)
    ensures Grids(game, byTurn, Ownership, EncodeOwnership(p, game.moves)) == TrueGrids(game, truth)
  {
    hide HasGrid, GridAt, Encoded, EncodeOwnership, EncodeTrue, Reports, TrulySized, Hundredths, Fits;
    forall t: nat | t <= |game.moves|
      ensures HasGrid(game, byTurn, t, Ownership) <==> TrulySized(truth, t, Points(game))
      ensures HasGrid(game, byTurn, t, Ownership) ==>
        TrulySized(truth, t, Points(game)) && truth(t).ownership.Some? &&
        GridAt(game, byTurn, t, Ownership, EncodeOwnership(p, game.moves)) ==
        Encoded(truth(t).ownership.value, t, EncodeTrue())
    {
      TurnGridIsTrue(p, game, truth, byTurn, sides, t);
      if TrulySized(truth, t, Points(game)) {
        SizedIsThere(truth, t, Points(game));
      }
    }
  }

  lemma SizedIsThere(truth: nat -> Truth, t: nat, expected: nat)
    requires TrulySized(truth, t, expected)
    ensures truth(t).ownership.Some?
  {
  }

  /** A grid that is nobody's view reads the same from two tables that carry the same values. */
  lemma SameGrids(game: Game, a: ByTurn, b: ByTurn, grid: Grid, encode: (nat, real) -> int)
    requires forall t: nat :: t <= |game.moves| ==> t in a && t in b && Field(a[t], grid) == Field(b[t], grid)
    ensures Grids(game, a, grid, encode) == Grids(game, b, grid, encode)
  {
    hide Encoded, Points;
    forall t: nat | t <= |game.moves|
      ensures HasGrid(game, a, t, grid) <==> HasGrid(game, b, t, grid)
      ensures HasGrid(game, a, t, grid) ==> GridAt(game, a, t, grid, encode) == GridAt(game, b, t, grid, encode)
    {
    }
  }

  lemma SharedFields(
    p: Perspective, q: Perspective, moves: Moves, truth: nat -> Truth, byP: ByTurn, byQ: ByTurn,
    sidesP: nat -> Color, sidesQ: nat -> Color, grid: Grid, t: nat)
    requires Reports(p, moves, truth, byP, sidesP, true) && Reports(q, moves, truth, byQ, sidesQ, true)
    requires t <= |moves| && !grid.Ownership?
    ensures t in byP && t in byQ && Field(byP[t], grid) == Field(byQ[t], grid)
  {
    hide Put;
    PutParts(p, truth(t), t, sidesP(t), true);
    PutParts(q, truth(t), t, sidesQ(t), true);
  }

  lemma SharedGrids(
    p: Perspective, q: Perspective, game: Game, truth: nat -> Truth, byP: ByTurn, byQ: ByTurn,
    sidesP: nat -> Color, sidesQ: nat -> Color, grid: Grid, encode: (nat, real) -> int)
    requires Reports(p, game.moves, truth, byP, sidesP, true) && Reports(q, game.moves, truth, byQ, sidesQ, true)
    requires !grid.Ownership?
    ensures Grids(game, byP, grid, encode) == Grids(game, byQ, grid, encode)
  {
    hide Reports, Field, Grids;
    forall t: nat | t <= |game.moves| ensures t in byP && t in byQ && Field(byP[t], grid) == Field(byQ[t], grid) {
      SharedFields(p, q, game.moves, truth, byP, byQ, sidesP, sidesQ, grid, t);
    }
    SameGrids(game, byP, byQ, grid, encode);
  }

  /** The same positions give the same analysis, whichever perspective the engine reports in: losses,
      classes, priors, candidates, reports and all four grids. */
  lemma PerspectiveDoesNotMatter(
    p: Perspective, q: Perspective, o: Outside, game: Game, truth: nat -> Truth, byP: ByTurn, byQ: ByTurn,
    sidesP: nat -> Color, sidesQ: nat -> Color, profile: Option<string>)
    requires Reports(p, game.moves, truth, byP, sidesP, true) && Fits(p, game.moves, sidesP)
    requires Reports(q, game.moves, truth, byQ, sidesQ, true) && Fits(q, game.moves, sidesQ)
    ensures AnalysisOf(p, o, game, byP, profile) == AnalysisOf(q, o, game, byQ, profile)
  {
    hide Reports, Fits, TotalsOf, Finished, Annotations, Grids, TrueGrids, TrueNotes;
    hide EncodeOwnership, EncodePolicy, EncodeStdev;
    NotesAreTrue(p, o, game, truth, byP, sidesP);
    NotesAreTrue(q, o, game, truth, byQ, sidesQ);
    GridsAreTrue(p, game, truth, byP, sidesP);
    GridsAreTrue(q, game, truth, byQ, sidesQ);
    SharedGrids(p, q, game, truth, byP, byQ, sidesP, sidesQ, OwnershipStdev, EncodeStdev());
    SharedGrids(p, q, game, truth, byP, byQ, sidesP, sidesQ, Policy, EncodePolicy(o));
    SharedGrids(p, q, game, truth, byP, byQ, sidesP, sidesQ, HumanPolicy, EncodePolicy(o));
  }

  // ----- without `currentPlayer`

  predicate Alternates(moves: Moves) {
    forall i :: 0 <= i < |moves| - 1 ==> moves[i].0 != moves[i + 1].0
  }

  /** Responses that do not name the player to move are still annotated correctly, whatever the truth. */
  ghost predicate FallbackWorks(p: Perspective, o: Outside, game: Game) {
    forall truth: nat -> Truth, byTurn: ByTurn ::
      Reports(p, game.moves, truth, byTurn, Movers(game.moves), false) ==>
        Annotations(p, o, game, byTurn) == TrueNotes(o, game, truth)
  }

  /** Every turn in its own words, by a player who leads by a point throughout. */
  function Steady(moves: Moves, leader: Color): ByTurn {
    map t: nat | t < |moves| + 1 :: Put(SideToMove, SteadyTruth(leader), t, SideToMoveAt(moves, t), false)
  }

  function SteadyTruth(leader: Color): Truth {
    Truth(View(Eval(0.5, 1.0), leader), [], None, None, None, None)
  }

  function SteadyTruths(leader: Color): nat -> Truth {
    (t: nat) => SteadyTruth(leader)
  }

  lemma SteadyReports(moves: Moves, leader: Color)
    ensures Reports(SideToMove, moves, SteadyTruths(leader), Steady(moves, leader), Movers(moves), false)
  {
    hide Put, SteadyTruth, SideToMoveAt;
  }

  /** The leader's lead is read as a point, or taken from the opponent's frame as minus one. */
  lemma SteadyIsRead(leader: Color, turn: nat)
    ensures var put := Put(SideToMove, SteadyTruth(leader), turn, leader, false);
      && put.rootInfo.Some?
      && AsSeenBy(SideToMove, put.rootInfo.value, leader, leader) == Eval(0.5, 1.0)
      && AsSeenBy(SideToMove, put.rootInfo.value, leader, Other(leader)) == Eval(0.5, -1.0)
      && View(SteadyTruth(leader).eval, leader) == Eval(0.5, 1.0)
  {
  }

  /** Two moves in a row by one player: the second position is read in the wrong frame, and a move that
      cost nothing is charged two points. */
  lemma DoubleMoveIsMisread(o: Outside, game: Game, i: nat)
    requires i + 1 < |game.moves| && game.moves[i].0 == game.moves[i + 1].0
    ensures var leader := game.moves[i].0;
      && Reports(
           SideToMove, game.moves, SteadyTruths(leader), Steady(game.moves, leader), Movers(game.moves), false)
      && AnnotatedMove(SideToMove, o, game, Steady(game.moves, leader), i).scoreLoss == 2.0
      && TrueNote(o, game, SteadyTruths(leader), i).scoreLoss == 0.0
  {
    hide Put, AsSeenBy, View, SteadyTruth, Reports, TopMoves, PriorOf, HumanPriorOf;
    var leader := game.moves[i].0;
    SteadyReports(game.moves, leader);
    SteadyIsRead(leader, i);
    SteadyIsRead(leader, i + 1);
  }

  lemma FallbackSucceeds(p: Perspective, o: Outside, game: Game)
    requires !p.SideToMove? || Alternates(game.moves)
    ensures FallbackWorks(p, o, game)
  {
    hide Reports, AnnotatedMove, TrueNote;
    var moves := game.moves;
    forall truth: nat -> Truth, byTurn: ByTurn | Reports(p, moves, truth, byTurn, Movers(moves), false)
      ensures Annotations(p, o, game, byTurn) == TrueNotes(o, game, truth)
    {
      forall index | 0 <= index < |moves|
        ensures AnnotatedMove(p, o, game, byTurn, index) == TrueNote(o, game, truth, index)
      {
        NoteIsTrue(p, o, game, truth, byTurn, Movers(moves), false, index);
      }
    }
  }

  lemma FallbackFails(o: Outside, game: Game, i: nat)
    requires i + 1 < |game.moves| && game.moves[i].0 == game.moves[i + 1].0
    ensures !FallbackWorks(SideToMove, o, game)
  {
    hide Reports, AnnotatedMove, TrueNote, Steady, SteadyTruth, Movers;
    var leader := game.moves[i].0;
    DoubleMoveIsMisread(o, game, i);
    var truth := SteadyTruths(leader);
    var byTurn := Steady(game.moves, leader);
    assert Reports(SideToMove, game.moves, truth, byTurn, Movers(game.moves), false);
    assert Annotations(SideToMove, o, game, byTurn)[i] != TrueNotes(o, game, truth)[i];
  }

  /** The fallback is right for every truth exactly when the perspective is fixed or the moves alternate. */
  lemma FallbackIsExact(p: Perspective, o: Outside, game: Game)
    ensures FallbackWorks(p, o, game) <==> !p.SideToMove? || Alternates(game.moves)
  {
    hide FallbackWorks;
    if !p.SideToMove? || Alternates(game.moves) {
      FallbackSucceeds(p, o, game);
    } else {
      var i: nat :| i < |game.moves| - 1 && game.moves[i].0 == game.moves[i + 1].0;
      FallbackFails(o, game, i);
    }
  }

  // ----- conservation

  /** Every turn is evaluated, by a player who is named unless the perspective is fixed anyway. */
  ghost predicate Evaluated(p: Perspective, byTurn: ByTurn, n: nat) {
    forall t: nat :: t <= n ==>
      t in byTurn && byTurn[t].rootInfo.Some? && (p.SideToMove? ==> byTurn[t].rootInfo.value.currentPlayer.Some?)
  }

  /** Black's standing at a turn, as the turn's own response puts it. */
  function Standing(p: Perspective, byTurn: ByTurn, t: nat): Eval {
    var root := RootAt(byTurn, t);
    if root.Some? then AsSeenBy(p, root.value, Black, Black) else Eval(0.5, 0.0)
  }

  function Standings(p: Perspective, byTurn: ByTurn, n: nat): seq<Eval> {
    seq(n + 1, t requires 0 <= t => Standing(p, byTurn, t))
  }

  /** What a move gained its player, in points and win probability; a loss counts as nothing. */
  function Gain(color: Color, before: Eval, after: Eval): (real, real) {
    (MaxReal(View(after, color).scoreLead - View(before, color).scoreLead, 0.0),
     MaxReal(View(after, color).winrate - View(before, color).winrate, 0.0))
  }

  /** A player's gains over the first `k` moves. */
  function Gains(moves: Moves, standings: seq<Eval>, k: nat, color: Color): (real, real)
    requires k <= |moves| && k < |standings|
  {
    if k == 0 then (0.0, 0.0)
    else
      var (score, winrate) := Gains(moves, standings, k - 1, color);
      var gain := Gain(color, standings[k - 1], standings[k]);
      if moves[k - 1].0 != color then (score, winrate) else (score + gain.0, winrate + gain.1)
  }

  /** Black's total loss less White's is what Black's standing fell by, plus Black's gains less White's. */
  predicate Conserves(o: Outside, notes: seq<Annotation>, moves: Moves, standings: seq<Eval>)
    requires |notes| <= |moves| && |notes| < |standings|
  {
    var n := |notes|;
    var black, white := TotalsOf(o, notes, Black), TotalsOf(o, notes, White);
    var blackGains, whiteGains := Gains(moves, standings, n, Black), Gains(moves, standings, n, White);
    && black.scoreLoss - white.scoreLoss ==
         standings[0].scoreLead - standings[n].scoreLead + blackGains.0 - whiteGains.0
    && black.winrateLoss - white.winrateLoss ==
         standings[0].winrate - standings[n].winrate + blackGains.1 - whiteGains.1
  }

  /** A named reading is Black's, or its mirror image, for any viewer, whatever side is assumed. */
  lemma NamedReading(p: Perspective, root: RootInfo, viewer: Color, assumed: Color)
    requires p.SideToMove? ==> root.currentPlayer.Some?
    ensures AsSeenBy(p, root, viewer, assumed) == View(AsSeenBy(p, root, Black, Black), viewer)
  {
  }

  /** A move's losses are the falls of Black's standing, or its rises, that the two responses give. */
  lemma LossIsTheFall(p: Perspective, o: Outside, game: Game, byTurn: ByTurn, index: nat)
    requires Evaluated(p, byTurn, |game.moves|) && index < |game.moves|
    ensures var note, color := AnnotatedMove(p, o, game, byTurn, index), game.moves[index].0;
      var before, after := View(Standing(p, byTurn, index), color), View(Standing(p, byTurn, index + 1), color);
      && note.color == color
      && note.scoreLoss == MaxReal(before.scoreLead - after.scoreLead, 0.0)
      && note.winrateLoss == MaxReal(before.winrate - after.winrate, 0.0)
  {
    hide AsSeenBy, View, TopMoves, PriorOf, HumanPriorOf, ClassifyWinrate, ClassifyScore;
    var color := game.moves[index].0;
    NamedReading(p, byTurn[index].rootInfo.value, color, color);
    NamedReading(p, byTurn[index + 1].rootInfo.value, color, Other(color));
  }

  /** What an annotation says where both turns are evaluated: the move list's own move, the mover's
      standing before and after it, its losses and their classes. */
  lemma NoteReads(p: Perspective, o: Outside, game: Game, byTurn: ByTurn, index: nat)
    requires Evaluated(p, byTurn, |game.moves|) && index < |game.moves|
    ensures var note, color := AnnotatedMove(p, o, game, byTurn, index), game.moves[index].0;
      var before, after := View(Standing(p, byTurn, index), color), View(Standing(p, byTurn, index + 1), color);
      && note.moveNumber == index + 1 && note.color == color && note.mv == game.moves[index].1
      && note.bestWinrate == before.winrate && note.winrate == after.winrate && note.scoreLead == before.scoreLead
      && note.winrateLoss == MaxReal(before.winrate - after.winrate, 0.0)
      && note.scoreLoss == MaxReal(before.scoreLead - after.scoreLead, 0.0)
      && note.winrateClass == ClassifyWinrate(note.winrateLoss) && note.scoreClass == ClassifyScore(note.scoreLoss)
  {
    hide AsSeenBy, View, TopMoves, PriorOf, HumanPriorOf, ClassifyWinrate, ClassifyScore;
    var color := game.moves[index].0;
    NamedReading(p, byTurn[index].rootInfo.value, color, color);
    NamedReading(p, byTurn[index + 1].rootInfo.value, color, Other(color));
  }

  /** What a missing evaluation reads as: before the move an even position, after it no change. */
  lemma MissingReads(p: Perspective, o: Outside, game: Game, byTurn: ByTurn, index: nat)
    requires index < |game.moves|
    ensures var note := AnnotatedMove(p, o, game, byTurn, index);
      && (RootAt(byTurn, index).None? ==> note.bestWinrate == 0.5 && note.scoreLead == 0.0)
      && (RootAt(byTurn, index + 1).None? ==>
            note.winrate == note.bestWinrate && note.winrateLoss == 0.0 && note.scoreLoss == 0.0)
  {
    hide TopMoves, PriorOf, HumanPriorOf, ClassifyWinrate, ClassifyScore, AsSeenBy;
  }

  function Severity(c: Classification): nat {
    match c
    case Good => 0
    case Inaccuracy => 1
    case Mistake => 2
    case Blunder => 3
  }

  /** Greater losses are never classed milder; the classes change at their thresholds. */
  lemma ClassesAscend(a: real, b: real)
    ensures a <= b ==> Severity(ClassifyWinrate(a)) <= Severity(ClassifyWinrate(b))
    ensures a <= b ==> Severity(ClassifyScore(a)) <= Severity(ClassifyScore(b))
    ensures ClassifyWinrate(a).Good? <==> a < 0.03
    ensures ClassifyWinrate(a).Mistake? || ClassifyWinrate(a).Blunder? <==> 0.07 <= a
    ensures ClassifyWinrate(a).Blunder? <==> 0.15 <= a
    ensures ClassifyScore(a).Good? <==> a < 1.0
    ensures ClassifyScore(a).Mistake? || ClassifyScore(a).Blunder? <==> 3.0 <= a
    ensures ClassifyScore(a).Blunder? <==> 6.0 <= a
  {
  }

  /** The policy covers the board and the pass, and has an entry for the move. */
  predicate HasEntry(o: Outside, game: Game, policy: Option<seq<real>>, mv: string) {
    && policy.Some? && |policy.value| == game.boardSize * game.boardSize + 1
    && o.policyIndex(mv, game.boardSize).Some? && o.policyIndex(mv, game.boardSize).value < |policy.value|
  }

  /** The first listed candidate for the move. */
  predicate FirstListed(candidates: seq<Candidate>, mv: string, k: nat) {
    k < |candidates| && candidates[k].mv == mv && forall i :: 0 <= i < k ==> candidates[i].mv != mv
  }

  lemma {:induction false} PlayedIsFirst(candidates: seq<Candidate>, mv: string)
    ensures Played(candidates, mv).None? <==> forall i :: 0 <= i < |candidates| ==> candidates[i].mv != mv
    ensures forall k: nat :: FirstListed(candidates, mv, k) ==> Played(candidates, mv) == Some(candidates[k])
  {
    if candidates != [] {
      PlayedIsFirst(candidates[1..], mv);
      forall k: nat | FirstListed(candidates, mv, k) ensures Played(candidates, mv) == Some(candidates[k]) {
        if k > 0 {
          assert FirstListed(candidates[1..], mv, k - 1);
        }
      }
    }
  }

  /** Where the played move's priors come from: the full policy of the turn before it, negative entries
      read as 0; failing that, the first candidate listed for it; failing that, nowhere. */
  lemma PriorsRead(p: Perspective, o: Outside, game: Game, byTurn: ByTurn, index: nat, k: nat)
    requires index < |game.moves| && index in byTurn
    ensures var note, mv, turn := AnnotatedMove(p, o, game, byTurn, index), game.moves[index].1, byTurn[index];
      && (HasEntry(o, game, turn.policy, mv) ==>
            note.prior == Some(MaxReal(turn.policy.value[o.policyIndex(mv, game.boardSize).value], 0.0)))
      && (HasEntry(o, game, turn.humanPolicy, mv) ==>
            note.humanPrior == Some(MaxReal(turn.humanPolicy.value[o.policyIndex(mv, game.boardSize).value], 0.0)))
      && (!HasEntry(o, game, turn.policy, mv) && FirstListed(note.topMoves, mv, k) ==>
            note.prior == Some(note.topMoves[k].prior))
      && (!HasEntry(o, game, turn.humanPolicy, mv) && FirstListed(note.topMoves, mv, k) ==>
            note.humanPrior == note.topMoves[k].humanPrior)
      && ((forall i :: 0 <= i < |note.topMoves| ==> note.topMoves[i].mv != mv) ==>
            && (!HasEntry(o, game, turn.policy, mv) ==> note.prior.None?)
            && (!HasEntry(o, game, turn.humanPolicy, mv) ==> note.humanPrior.None?))
  {
    hide MoveEvals, Played, ByRank, ClassifyWinrate, ClassifyScore;
    PlayedIsFirst(TopMoves(p, InfosAt(byTurn, index), game.moves[index].0, game.topK), game.moves[index].1);
  }

  /** A turn without a response has no candidates and no priors. */
  lemma UnansweredReads(p: Perspective, o: Outside, game: Game, byTurn: ByTurn, index: nat)
    requires index < |game.moves| && index !in byTurn
    ensures var note := AnnotatedMove(p, o, game, byTurn, index);
      note.topMoves == [] && note.prior.None? && note.humanPrior.None?
  {
    hide MoveEvals, ByRank, ClassifyWinrate, ClassifyScore;
    NothingRanked();
  }

  lemma NothingRanked()
    ensures ByRank([]) == []
  {
  }

  lemma {:induction false} ConservedUpTo(p: Perspective, o: Outside, game: Game, byTurn: ByTurn, k: nat)
    requires Evaluated(p, byTurn, |game.moves|) && k <= |game.moves|
    ensures Conserves(o, Annotations(p, o, game, byTurn)[..k], game.moves, Standings(p, byTurn, |game.moves|))
  {
    hide AnnotatedMove, Standing, Counted, TotalsOf;
    var notes := Annotations(p, o, game, byTurn);
    if k == 0 {
      NothingCounted(o);
      assert notes[..0] == [];
    } else {
      ConservedUpTo(p, o, game, byTurn, k - 1);
      LossIsTheFall(p, o, game, byTurn, k - 1);
      assert notes[..k] == notes[..k - 1] + [notes[k - 1]];
      TotalsMore(o, notes[..k - 1], notes[k - 1], Black);
      TotalsMore(o, notes[..k - 1], notes[k - 1], White);
    }
  }

  /** Conservation in one frame, for every move list with every turn evaluated by a named player, whoever
      that is: in points and in win probability. */
  lemma ScoreIsConserved(p: Perspective, o: Outside, game: Game, byTurn: ByTurn)
    requires Evaluated(p, byTurn, |game.moves|)
    ensures Conserves(o, Annotations(p, o, game, byTurn), game.moves, Standings(p, byTurn, |game.moves|))
  {
    ConservedUpTo(p, o, game, byTurn, |game.moves|);
    assert Annotations(p, o, game, byTurn)[..|game.moves|] == Annotations(p, o, game, byTurn);
  }

  function TrueStandings(truth: nat -> Truth, n: nat): seq<Eval> {
    seq(n + 1, t requires 0 <= t => truth(t).eval)
  }

  /** When the responses put the truth, whomever they name, it is the true standing that is conserved. */
  lemma TruthIsConserved(
    p: Perspective, o: Outside, game: Game, truth: nat -> Truth, byTurn: ByTurn, sides: nat -> Color)
    requires Reports(p, game.moves, truth, byTurn, sides, true)
    ensures Conserves(o, Annotations(p, o, game, byTurn), game.moves, TrueStandings(truth, |game.moves|))
  {
    hide Put, AsSeenBy, View, Conserves, Annotations;
    var n := |game.moves|;
    forall t: nat | t <= n
      ensures t in byTurn && byTurn[t].rootInfo.Some? && byTurn[t].rootInfo.value.currentPlayer.Some?
      ensures Standing(p, byTurn, t) == truth(t).eval
    {
      PutNames(p, truth(t), t, sides(t));
    }
    ScoreIsConserved(p, o, game, byTurn);
    assert Standings(p, byTurn, n) == TrueStandings(truth, n);
  }

  lemma PutNames(p: Perspective, truth: Truth, turn: nat, side: Color)
    ensures var put := Put(p, truth, turn, side, true);
      && put.rootInfo.Some? && put.rootInfo.value.currentPlayer == Some(side)
      && AsSeenBy(p, put.rootInfo.value, Black, Black) == truth.eval
  {
    RotationIsExact(p, truth, turn, side, Black, Black);
  }

  // ----- arrival order

  /** No turn was answered in two ways. */
  predicate OneEach(turns: seq<TurnResponse>) {
    forall i, j :: 0 <= i < |turns| && 0 <= j < |turns| && turns[i].turnNumber == turns[j].turnNumber ==>
      turns[i] == turns[j]
  }

  lemma {:induction false} CollectedMembers(turns: seq<TurnResponse>, n: nat)
    ensures n in Collected(turns) <==> exists i :: 0 <= i < |turns| && turns[i].turnNumber == n
    ensures n in Collected(turns) ==> Collected(turns)[n] in turns && Collected(turns)[n].turnNumber == n
  {
    if turns != [] {
      var last := |turns| - 1;
      CollectedMembers(turns[..last], n);
      assert turns == turns[..last] + [turns[last]];
      if i :| 0 <= i < |turns| && turns[i].turnNumber == n && turns[last].turnNumber != n {
        assert turns[..last][i] == turns[i];
      }
    }
  }

  lemma SameTable(a: seq<TurnResponse>, b: seq<TurnResponse>, n: nat)
    requires OneEach(a) && forall t :: t in a <==> t in b
    ensures n in Collected(a) <==> n in Collected(b)
    ensures n in Collected(a) ==> Collected(a)[n] == Collected(b)[n]
  {
    CollectedMembers(a, n);
    CollectedMembers(b, n);
    if i :| 0 <= i < |a| && a[i].turnNumber == n {
      assert a[i] in b;
    }
    if i :| 0 <= i < |b| && b[i].turnNumber == n {
      assert b[i] in a;
    }
  }

  /** The analysis does not depend on the order in which the responses arrived. */
  lemma ArrivalOrderDoesNotMatter(
    p: Perspective, o: Outside, game: Game, a: seq<TurnResponse>, b: seq<TurnResponse>, profile: Option<string>)
    requires OneEach(a) && multiset(a) == multiset(b)
    ensures AnalysisOf(p, o, game, Collected(a), profile) == AnalysisOf(p, o, game, Collected(b), profile)
  {
    hide Collected, OneEach, AnalysisOf;
    forall t ensures t in a <==> t in b {
      assert t in multiset(a) <==> t in multiset(b);
    }
    forall n: nat
      ensures n in Collected(a) <==> n in Collected(b)
      ensures n in Collected(a) ==> Collected(a)[n] == Collected(b)[n]
    {
      SameTable(a, b, n);
    }
    assert Collected(a) == Collected(b);
  }
}
