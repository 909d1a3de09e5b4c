/** `FairGame`: a position together with the evaluation recorded for it. */
module Game {
  import opened Scores
  import opened Boards
  import opened Ranking

  datatype FairGame = FairGame(board: Board, initialPovScore: PovScore, ply: nat)

  /** `FairGame.score`: the recorded evaluation seen from the side to move,
      with `or 1000` as the fallback. */
  function Score(g: FairGame): (r: int)
    ensures r != 0
    ensures g.initialPovScore.relative.Mate? ==> r == Sentinel
    ensures g.initialPovScore.relative.Cp? && g.initialPovScore.relative.cp == 0 ==> r == Sentinel
    ensures g.initialPovScore.relative.Cp? && g.initialPovScore.relative.cp != 0 ==>
      r == (if g.initialPovScore.turn == g.board.turn then 1 else -1) * g.initialPovScore.relative.cp
  {
    Relative(g.initialPovScore, g.board.turn)
  }

  /** `FairGame.uint_score`: the magnitude of `Score`. */
  function UintScore(g: FairGame): (r: nat)
    ensures r > 0
    ensures r == Score(g) || r == -Score(g)
  {
    Abs(Score(g))
  }

  /** The fairness of a game recorded from a line is the line's ranking key:
      both are the magnitude of the same evaluation, whichever side it is read
      from. */
  lemma UintScoreIsSortKey(line: Line, b: Board, ply: nat)
    requires line.score.Some?
    ensures UintScore(FairGame(b, line.score.value, ply)) == SortKey(line)
  {
    MagnitudeSideIndependent(line.score.value, b.turn, White);
  }

  /** The game the search starts from: `FairGame(Board(), PovScore(Cp(1000), WHITE), 0)`. */
  const Unfound: FairGame := FairGame(Initial, PovScore(Cp(Sentinel), White), 0)

  lemma UnfoundIsSentinel()
    ensures Score(Unfound) == Sentinel
    ensures UintScore(Unfound) == Sentinel
  {
  }
}
