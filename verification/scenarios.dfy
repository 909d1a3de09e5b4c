/** Concrete searches against stub engines whose answers depend only on the
    number of moves played, and concrete rankings. */
module Scenarios {
  import opened Wrappers
  import opened Scores
  import opened Boards
  import opened Ranking
  import opened Params
  import opened Game
  import opened Chess

  /** A well-formed line scored `cp` centipawns from White's side. */
  function Scored(cp: int): Line
  {
    Line(Some(["e2e4"]), Some(PovScore(Cp(cp), White)))
  }

  function OneLine(l: Line): Answer
  {
    [l]
  }

  /** An engine answering one line, scored by the ply being analysed. */
  function Stub(scoreAt: nat -> int): Engine
  {
    (b: Board, depth: int, multipv: int) => OneLine(Scored(scoreAt(|b.moves|)))
  }

  lemma SingleLineRank(x: Line)
    ensures Rank([x]) == [x]
  {
  }

  /** On a stub engine the top line is the only line, and every ply is reached. */
  lemma StubFacts(p: GameGenParams, scoreAt: nat -> int, k: nat)
    ensures Reached(p, Stub(scoreAt), k).Some?
    ensures |Reached(p, Stub(scoreAt), k).value.moves| == k
    ensures Top(p, Stub(scoreAt), Reached(p, Stub(scoreAt), k).value) == Scored(scoreAt(k))
  {
    forall b: Board | |b.moves| < k ensures Top(p, Stub(scoreAt), b).pv.Some? && Top(p, Stub(scoreAt), b).score.Some? {
      SingleLineRank(Scored(scoreAt(|b.moves|)));
    }
    ReachedWhileWellFormed(p, Stub(scoreAt), k, k);
    ReachedShape(p, Stub(scoreAt), k);
    SingleLineRank(Scored(scoreAt(k)));
  }

  /** With a stub engine, acceptance at ply `k` is decided by the magnitude
      the stub reports for `k`. */
  lemma StubAccepts(p: GameGenParams, scoreAt: nat -> int, k: nat)
    ensures Accepts(p, Stub(scoreAt), k) <==>
      p.minPly < k < p.maxPly && SortKey(Scored(scoreAt(k))) < p.maxCp
  {
    StubFacts(p, scoreAt, k);
    AcceptsByKey(p, Stub(scoreAt), k);
  }

  /** The game a stub engine's search records at ply `k`. */
  lemma StubCandidate(p: GameGenParams, scoreAt: nat -> int, k: nat)
    ensures Candidate(p, Stub(scoreAt), k).Some?
    ensures Candidate(p, Stub(scoreAt), k).value.initialPovScore == PovScore(Cp(scoreAt(k)), White)
    ensures Candidate(p, Stub(scoreAt), k).value.board.turn == (if k % 2 == 0 then Black else White)
  {
    StubFacts(p, scoreAt, k);
    var b := Reached(p, Stub(scoreAt), k).value;
    assert StepFrom(p, Stub(scoreAt), b).score == PovScore(Cp(scoreAt(k)), White);
    CandidateShape(p, Stub(scoreAt), k);
  }

  /** Plies 0 to 18 score 200, ply 19 scores 3. */
  function LevelAt19(k: nat): int
  {
    if k == 19 then 3 else 200
  }

  /** A search whose accepting plies are exactly `{k}` stops at `k`. */
  lemma UniqueAcceptance(p: GameGenParams, e: Engine, k: nat)
    requires 0 <= p.maxPly
    requires forall j: nat :: Accepts(p, e, j) <==> j == k
    ensures Search(p, e).outcome.Found?
    ensures Search(p, e).outcome.game.ply == k
    ensures Candidate(p, e, k) == Some(Search(p, e).outcome.game)
    ensures Search(p, e).calls == k + 1
  {
    assert Accepts(p, e, k);
    SearchSucceedsIff(p, e);
    SearchOutcome(p, e);
    SearchCalls(p, e);
    assert Accepts(p, e, Search(p, e).outcome.game.ply);
  }

  lemma AcceptsOnlyAt19(k: nat)
    ensures Accepts(Default, Stub(LevelAt19), k) <==> k == 19
  {
    StubAccepts(Default, LevelAt19, k);
  }

  /** With the default parameters the search stops at ply 19 with a
      score of 3 for White, who is to move after 20 moves, having analysed 20
      positions. */
  lemma FoundAtPly19()
    ensures Search(Default, Stub(LevelAt19)).outcome.Found?
    ensures Search(Default, Stub(LevelAt19)).outcome.game.ply == 19
    ensures Search(Default, Stub(LevelAt19)).outcome.game.board.turn == White
    ensures Game.Score(Search(Default, Stub(LevelAt19)).outcome.game) == 3
    ensures Search(Default, Stub(LevelAt19)).calls == 20
  {
    var e := Stub(LevelAt19);
    forall k: nat ensures Accepts(Default, e, k) <==> k == 19 {
      AcceptsOnlyAt19(k);
    }
    UniqueAcceptance(Default, e, 19);
    StubCandidate(Default, LevelAt19, 19);
  }

  /** Every ply scores 200. */
  function NeverLevel(k: nat): int
  {
    200
  }

  /** No ply ever gets below the bound, so the search reports that
      no fair game exists after exactly `max_ply` analyses. */
  lemma ExhaustedAfterBudget()
    ensures Search(Default, Stub(NeverLevel)).outcome == NoFairGame
    ensures Search(Default, Stub(NeverLevel)).calls == 26
  {
    var e := Stub(NeverLevel);
    forall k: nat ensures !Accepts(Default, e, k) {
      StubAccepts(Default, NeverLevel, k);
    }
    SearchSucceedsIff(Default, e);
    SearchOutcome(Default, e);
    SearchCalls(Default, e);
    if Search(Default, e).outcome.EngineFault? {
      var k := Search(Default, e).outcome.ply;
      StubFacts(Default, NeverLevel, k);
      FaultOrder(Default, e, k);
    }
  }

  /** Every ply scores 1: level enough from the first ply on. */
  function AlwaysLevel(k: nat): int
  {
    1
  }

  /** The skipped opening: with `min_ply` 16 the earliest accepted ply is 17,
      although every earlier position is just as level. */
  lemma EarliestAcceptance()
    ensures Search(Default, Stub(AlwaysLevel)).outcome.Found?
    ensures Search(Default, Stub(AlwaysLevel)).outcome.game.ply == 17
  {
    var e := Stub(AlwaysLevel);
    forall k: nat ensures Accepts(Default, e, k) <==> 16 < k < 26 {
      StubAccepts(Default, AlwaysLevel, k);
    }
    SearchOutcome(Default, e);
    SearchSucceedsIff(Default, e);
    assert Accepts(Default, e, 17);
  }

  /** Ply 17 answers a scored line without a `pv`; every other ply scores 200. */
  function MissingPvLine(k: nat): Line
  {
    if k == 17 then Line(None, Some(PovScore(Cp(3), White))) else Scored(200)
  }

  const MissingPvEngine: Engine := (b: Board, depth: int, multipv: int) => OneLine(MissingPvLine(|b.moves|))

  lemma MissingPvEngineFacts(k: nat)
    requires k <= 17
    ensures Reached(Default, MissingPvEngine, k).Some?
    ensures Top(Default, MissingPvEngine, Reached(Default, MissingPvEngine, k).value) == MissingPvLine(k)
  {
    forall b: Board | |b.moves| < 17
      ensures Top(Default, MissingPvEngine, b).pv.Some? && Top(Default, MissingPvEngine, b).score.Some?
    {
      SingleLineRank(MissingPvLine(|b.moves|));
    }
    ReachedWhileWellFormed(Default, MissingPvEngine, 17, k);
    ReachedShape(Default, MissingPvEngine, k);
    SingleLineRank(MissingPvLine(k));
  }

  /** The missing `pv` at ply 17 ends the search there, after 18
      analyses; ply 18 is never analysed. */
  lemma MissingPvAtPly17()
    ensures Search(Default, MissingPvEngine) == Run(EngineFault(17, MissingPv), 18)
  {
    MissingPvEngineFacts(17);
    FaultOrder(Default, MissingPvEngine, 17);
    forall j: nat | j < 17 ensures !Accepts(Default, MissingPvEngine, j) {
    }
    SearchFaultsAt(Default, MissingPvEngine, 17);
  }

  /** The faulting engine's search accepts no ply at all. */
  lemma MissingPvAcceptsNothing()
    ensures forall j: nat :: !Accepts(Default, MissingPvEngine, j)
  {
    MissingPvEngineFacts(17);
    FaultOrder(Default, MissingPvEngine, 17);
    forall j: nat | j < 17 ensures !Accepts(Default, MissingPvEngine, j) {
    }
    FaultExcludesAcceptance(Default, MissingPvEngine, 17);
  }

  /** A line scored 50 either way ranks ahead of a line without a score. */
  lemma RankScoredBeforeUnscored()
    ensures Rank([Line(Some(["d2d4"]), None), Scored(-50)]) == [Scored(-50), Line(Some(["d2d4"]), None)]
  {
  }

  /** Lines without a score keep the engine's order among themselves. */
  lemma RankKeepsUnscoredOrder()
    ensures Rank([Line(Some(["a2a3"]), None), Line(Some(["h2h3"]), None), Scored(50)])
         == [Scored(50), Line(Some(["a2a3"]), None), Line(Some(["h2h3"]), None)]
  {
  }
}
