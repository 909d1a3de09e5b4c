/** `Chess.start_game`: the greedy walk along the engine's top-ranked line that
    returns the first sufficiently level position inside the ply window. */
module Chess {
  import opened Wrappers
  import opened Scores
  import opened Boards
  import opened Ranking
  import opened Params
  import opened Game

  /** The engine's answer to one analysis: at least one line. */
  type Answer = s: seq<Line> | |s| > 0 witness [Line(None, None)]

  /** The engine's `analyse(board, limit=Limit(depth=d), multipv=n)`, as a
      deterministic oracle. */
  type Engine = (Board, int, int) -> Answer

  /** `pvs[0]` after `pvs.sort(key=pv_sort_predicate)`. */
  function Top(p: GameGenParams, e: Engine, b: Board): Line
  {
    Rank(e(b, p.maxDepth, p.maxPv))[0]
  }

  /** The top line is one of the engine's lines, and no line of the answer
      ranks better. */
  lemma TopHasLeastKey(p: GameGenParams, e: Engine, b: Board)
    ensures Top(p, e, b) in e(b, p.maxDepth, p.maxPv)
    ensures forall l :: l in e(b, p.maxDepth, p.maxPv) ==> SortKey(Top(p, e, b)) <= SortKey(l)
  {
    var lines := e(b, p.maxDepth, p.maxPv);
    var ranked := Rank(lines);
    RankSorted(lines);
    RankPermutes(lines);
    assert ranked[0] in multiset(lines);
    forall l | l in lines ensures SortKey(ranked[0]) <= SortKey(l) {
      assert l in multiset(ranked);
    }
  }

  datatype Fault = MissingPv | MissingScore

  /** What one ply does to the position: raise, or push the top line's first
      move and keep its score. */
  datatype Step = Faulted(fault: Fault) | Advanced(board: Board, score: PovScore)

  /** One ply from position `b`. The `pv` check comes first, so a line lacking
      both keys reports the missing `pv`. */
  function StepFrom(p: GameGenParams, e: Engine, b: Board): (r: Step)
    ensures r == Faulted(MissingPv) <==> Top(p, e, b).pv.None?
    ensures r == Faulted(MissingScore) <==> Top(p, e, b).pv.Some? && Top(p, e, b).score.None?
    ensures r.Advanced? ==> Top(p, e, b).score == Some(r.score)
    ensures r.Advanced? ==> r.board == Push(b, Top(p, e, b).pv.value[0])
    ensures r.Advanced? ==> r.board.turn != b.turn && |r.board.moves| == |b.moves| + 1
  {
    var top := Top(p, e, b);
    if top.pv.None? then Faulted(MissingPv)
    else if top.score.None? then Faulted(MissingScore)
    else Advanced(Push(b, top.pv.value[0]), top.score.value)
  }

  /** The position after one more ply, if that ply advances. */
  function Next(p: GameGenParams, e: Engine, at: Option<Board>): Option<Board>
  {
    if at.Some? && StepFrom(p, e, at.value).Advanced? then Some(StepFrom(p, e, at.value).board) else None
  }

  /** The position analysed at ply `k`, if plies `0 .. k-1` all advanced. */
  function Reached(p: GameGenParams, e: Engine, k: nat): Option<Board>
  {
    if k == 0 then Some(Initial) else Next(p, e, Reached(p, e, k - 1))
  }

  /** The fault raised at ply `k`, if that ply is reached and faults. */
  function FaultAt(p: GameGenParams, e: Engine, k: nat): Option<Fault>
  {
    match Reached(p, e, k)
    case None => None
    case Some(b) => if StepFrom(p, e, b).Faulted? then Some(StepFrom(p, e, b).fault) else None
  }

  /** The game recorded at ply `k`: the position after the ply's move, the
      line's score and the ply index. */
  function Candidate(p: GameGenParams, e: Engine, k: nat): Option<FairGame>
  {
    match Reached(p, e, k)
    case None => None
    case Some(b) =>
      match StepFrom(p, e, b)
      case Faulted(_) => None
      case Advanced(b', s) => Some(FairGame(b', s, k))
  }

  /** Ply `k` is past the skipped opening, inside the budget, and its
      candidate is strictly below the fairness bound. */
  predicate Accepts(p: GameGenParams, e: Engine, k: nat)
  {
    && p.minPly < k < p.maxPly
    && Candidate(p, e, k).Some?
    && UintScore(Candidate(p, e, k).value) < p.maxCp
  }

  /** A ply that advances reaches the next position and records a candidate,
      which is accepted exactly when it is inside the window and below the bound. */
  lemma AdvanceFacts(p: GameGenParams, e: Engine, k: nat, b: Board)
    requires Reached(p, e, k) == Some(b)
    requires StepFrom(p, e, b).Advanced?
    ensures Reached(p, e, k + 1) == Some(StepFrom(p, e, b).board)
    ensures Candidate(p, e, k) == Some(FairGame(StepFrom(p, e, b).board, StepFrom(p, e, b).score, k))
    ensures StepFrom(p, e, b).board == Push(b, Top(p, e, b).pv.value[0])
    ensures Accepts(p, e, k) <==>
      p.minPly < k < p.maxPly && UintScore(FairGame(StepFrom(p, e, b).board, StepFrom(p, e, b).score, k)) < p.maxCp
  {
  }

  /** A ply that faults is where the search stops. */
  lemma FaultFacts(p: GameGenParams, e: Engine, k: nat, b: Board)
    requires Reached(p, e, k) == Some(b)
    requires StepFrom(p, e, b).Faulted?
    ensures FaultAt(p, e, k) == Some(StepFrom(p, e, b).fault)
  {
  }

  /** A ply that faults leaves the next ply unreached. */
  lemma FaultBlocksNext(p: GameGenParams, e: Engine, j: nat)
    requires j > 0 && FaultAt(p, e, j - 1).Some?
    ensures Reached(p, e, j) == None
  {
  }

  /** An unreached ply leaves the next ply unreached. */
  lemma UnreachedStaysUnreached(p: GameGenParams, e: Engine, j: nat)
    requires j > 0 && Reached(p, e, j - 1) == None
    ensures Reached(p, e, j) == None
  {
  }

  /** Once a ply is unreached, every later one is. */
  lemma {:induction false} UnreachedForever(p: GameGenParams, e: Engine, i: nat, j: nat)
    requires Reached(p, e, i) == None
    requires i <= j
    ensures Reached(p, e, j) == None
    decreases j - i
  {
    if i < j {
      UnreachedStaysUnreached(p, e, i + 1);
      UnreachedForever(p, e, i + 1, j);
    }
  }

  /** After a fault no later ply is reached. */
  lemma FaultStops(p: GameGenParams, e: Engine, k: nat, j: nat)
    requires FaultAt(p, e, k).Some?
    requires k < j
    ensures Reached(p, e, j) == None
  {
    FaultBlocksNext(p, e, k + 1);
    UnreachedForever(p, e, k + 1, j);
  }

  /** A search that faults at ply `k` without accepting earlier accepts nowhere. */
  lemma FaultExcludesAcceptance(p: GameGenParams, e: Engine, k: nat)
    requires FaultAt(p, e, k).Some?
    requires forall j: nat :: j < k ==> !Accepts(p, e, j)
    ensures forall j: nat :: !Accepts(p, e, j)
  {
    forall j: nat ensures !Accepts(p, e, j) {
      if j == k {
        assert Candidate(p, e, k) == None;
      } else if j > k {
        FaultStops(p, e, k, j);
      }
    }
  }

  /** The `pv` check precedes the `score` check: a top line lacking both
      reports the missing `pv`; a missing `score` is reported only for a top
      line that has a `pv`. */
  lemma FaultOrder(p: GameGenParams, e: Engine, k: nat)
    ensures FaultAt(p, e, k) == Some(MissingPv) <==>
      Reached(p, e, k).Some? && Top(p, e, Reached(p, e, k).value).pv.None?
    ensures FaultAt(p, e, k) == Some(MissingScore) <==>
      Reached(p, e, k).Some? && Top(p, e, Reached(p, e, k).value).pv.Some? && Top(p, e, Reached(p, e, k).value).score.None?
  {
  }

  /** Ply `k` is analysed on a position of `k` moves, White to move on even plies. */
  lemma {:induction false} ReachedShape(p: GameGenParams, e: Engine, k: nat)
    requires Reached(p, e, k).Some?
    ensures |Reached(p, e, k).value.moves| == k
    ensures TurnMatchesParity(Reached(p, e, k).value)
  {
    if k > 0 {
      ReachedShape(p, e, k - 1);
    }
  }

  /** The game recorded at ply `k` holds `k + 1` moves; its side to move
      alternates with the ply, starting from White's first move. */
  lemma {:induction false} CandidateShape(p: GameGenParams, e: Engine, k: nat)
    requires Candidate(p, e, k).Some?
    ensures Candidate(p, e, k).value.ply == k
    ensures Candidate(p, e, k).value.board == Push(Reached(p, e, k).value, Top(p, e, Reached(p, e, k).value).pv.value[0])
    ensures |Candidate(p, e, k).value.board.moves| == k + 1
    ensures Candidate(p, e, k).value.board.turn == (if k % 2 == 0 then Black else White)
  {
    ReachedShape(p, e, k);
  }

  /** Acceptance depends only on the best key the engine reports: a ply is
      accepted exactly when it is in the window, its top line has a `pv` and a
      `score`, and that line's ranking key is below the fairness bound. */
  lemma AcceptsByKey(p: GameGenParams, e: Engine, k: nat)
    ensures Accepts(p, e, k) <==>
      && p.minPly < k < p.maxPly
      && Reached(p, e, k).Some?
      && Top(p, e, Reached(p, e, k).value).pv.Some?
      && Top(p, e, Reached(p, e, k).value).score.Some?
      && SortKey(Top(p, e, Reached(p, e, k).value)) < p.maxCp
  {
    if Reached(p, e, k).Some? {
      var b := Reached(p, e, k).value;
      var top := Top(p, e, b);
      if top.pv.Some? && top.score.Some? {
        UintScoreIsSortKey(top, StepFrom(p, e, b).board, k);
      }
    }
  }

  /** A mate score or a score of exactly zero centipawns on the top line is
      read as 1000, so that ply is never accepted: a perfectly level position
      is rejected along with a decided one. */
  lemma SentinelScoreNeverAccepted(p: GameGenParams, e: Engine, k: nat)
    requires Valid(p)
    requires Reached(p, e, k).Some?
    requires Top(p, e, Reached(p, e, k).value).score.Some?
    requires Top(p, e, Reached(p, e, k).value).score.value.relative.Mate? ||
             Top(p, e, Reached(p, e, k).value).score.value.relative.cp == 0
    ensures !Accepts(p, e, k)
  {
    ValidWindow(p);
    AcceptsByKey(p, e, k);
  }

  /** While the engine's top line carries a `pv` and a `score` on every
      position of fewer than `n` moves, plies `0 .. n` are all reached. */
  lemma {:induction false} ReachedWhileWellFormed(p: GameGenParams, e: Engine, n: nat, k: nat)
    requires k <= n
    requires forall b: Board :: |b.moves| < n ==> Top(p, e, b).pv.Some? && Top(p, e, b).score.Some?
    ensures Reached(p, e, k).Some?
  {
    if k > 0 {
      ReachedWhileWellFormed(p, e, n, k - 1);
      ReachedShape(p, e, k - 1);
      var b := Reached(p, e, k - 1).value;
      assert Top(p, e, b).pv.Some? && Top(p, e, b).score.Some?;
    }
  }

  datatype Outcome = Found(game: FairGame) | EngineFault(ply: nat, fault: Fault) | NoFairGame

  /** The outcome of a search and the number of engine analyses it made. */
  datatype Run = Run(outcome: Outcome, calls: nat)

  /** The search from ply `ply` at position `b`: the loop of `start_game` as a
      recursion over the remaining plies. Running out of plies is reported as
      `NoFairGame`, which is what the final check of `start_game` decides when
      nothing was accepted (the sentinel score exceeds every valid bound). */
  function Walk(p: GameGenParams, e: Engine, ply: nat, b: Board): Run
    decreases p.maxPly - ply
  {
    if ply >= p.maxPly then Run(NoFairGame, 0)
    else match StepFrom(p, e, b)
      case Faulted(f) => Run(EngineFault(ply, f), 1)
      case Advanced(b', s) =>
        if p.minPly < ply && UintScore(FairGame(b', s, ply)) < p.maxCp then Run(Found(FairGame(b', s, ply)), 1)
        else
          var rest := Walk(p, e, ply + 1, b');
          Run(rest.outcome, rest.calls + 1)
  }

  /** The whole search, from the initial position. */
  function Search(p: GameGenParams, e: Engine): Run
  {
    Walk(p, e, 0, Initial)
  }

  /** Calls made from ply `i`: one per ply until the search stops. */
  lemma {:induction false} WalkCalls(p: GameGenParams, e: Engine, i: nat, b: Board)
    requires i <= p.maxPly
    ensures Walk(p, e, i, b).calls <= p.maxPly - i
    ensures Walk(p, e, i, b).outcome.Found? ==>
      i <= Walk(p, e, i, b).outcome.game.ply < p.maxPly &&
      Walk(p, e, i, b).calls == Walk(p, e, i, b).outcome.game.ply + 1 - i
    ensures Walk(p, e, i, b).outcome.EngineFault? ==>
      i <= Walk(p, e, i, b).outcome.ply < p.maxPly &&
      Walk(p, e, i, b).calls == Walk(p, e, i, b).outcome.ply + 1 - i
    ensures Walk(p, e, i, b).outcome.NoFairGame? ==> Walk(p, e, i, b).calls == p.maxPly - i
    decreases p.maxPly - i
  {
    if i < p.maxPly {
      var step := StepFrom(p, e, b);
      if step.Advanced? {
        WalkCalls(p, e, i + 1, step.board);
      }
    }
  }

  /** Calls made by the whole search. */
  lemma SearchCalls(p: GameGenParams, e: Engine)
    requires 0 <= p.maxPly
    ensures Search(p, e).calls <= p.maxPly
    ensures Search(p, e).outcome.Found? ==>
      Search(p, e).outcome.game.ply < p.maxPly && Search(p, e).calls == Search(p, e).outcome.game.ply + 1
    ensures Search(p, e).outcome.EngineFault? ==>
      Search(p, e).outcome.ply < p.maxPly && Search(p, e).calls == Search(p, e).outcome.ply + 1
    ensures Search(p, e).outcome.NoFairGame? ==> Search(p, e).calls == p.maxPly
  {
    WalkCalls(p, e, 0, Initial);
  }

  /** From a reached ply with nothing accepted before it, the walk stops at
      the first accepting ply, at the first fault, or when the budget runs out. */
  lemma {:induction false} WalkFromReached(p: GameGenParams, e: Engine, i: nat, b: Board)
    requires i <= p.maxPly
    requires Reached(p, e, i) == Some(b)
    requires forall j: nat :: j < i ==> !Accepts(p, e, j)
    ensures Walk(p, e, i, b).outcome.Found? ==>
      && Accepts(p, e, Walk(p, e, i, b).outcome.game.ply)
      && Candidate(p, e, Walk(p, e, i, b).outcome.game.ply) == Some(Walk(p, e, i, b).outcome.game)
      && forall j: nat :: j < Walk(p, e, i, b).outcome.game.ply ==> !Accepts(p, e, j)
    ensures Walk(p, e, i, b).outcome.EngineFault? ==>
      && FaultAt(p, e, Walk(p, e, i, b).outcome.ply) == Some(Walk(p, e, i, b).outcome.fault)
      && forall j: nat :: !Accepts(p, e, j)
    ensures Walk(p, e, i, b).outcome.NoFairGame? ==>
      && Reached(p, e, p.maxPly).Some?
      && forall j: nat :: !Accepts(p, e, j)
    decreases p.maxPly - i
  {
    if i == p.maxPly {
      forall j: nat ensures !Accepts(p, e, j) {
        if j < i {
          assert !Accepts(p, e, j);
        }
      }
    } else {
      var step := StepFrom(p, e, b);
      if step.Faulted? {
        FaultFacts(p, e, i, b);
        FaultExcludesAcceptance(p, e, i);
      } else {
        AdvanceFacts(p, e, i, b);
        if !Accepts(p, e, i) {
          forall j: nat | j < i + 1 ensures !Accepts(p, e, j) {
            if j < i {
              assert !Accepts(p, e, j);
            }
          }
          WalkFromReached(p, e, i + 1, step.board);
        }
      }
    }
  }

  /** What the whole search returns: the first accepting ply, the first
      fault (with nothing accepted anywhere), or exhaustion of a budget whose
      every ply advanced without an acceptable candidate. */
  lemma SearchOutcome(p: GameGenParams, e: Engine)
    requires 0 <= p.maxPly
    ensures Search(p, e).outcome.Found? ==>
      && p.minPly < Search(p, e).outcome.game.ply < p.maxPly
      && UintScore(Search(p, e).outcome.game) < p.maxCp
      && Candidate(p, e, Search(p, e).outcome.game.ply) == Some(Search(p, e).outcome.game)
      && forall j: nat :: j < Search(p, e).outcome.game.ply ==> !Accepts(p, e, j)
    ensures Search(p, e).outcome.EngineFault? ==>
      && Search(p, e).outcome.ply < p.maxPly
      && FaultAt(p, e, Search(p, e).outcome.ply) == Some(Search(p, e).outcome.fault)
      && forall j: nat :: !Accepts(p, e, j)
    ensures Search(p, e).outcome.NoFairGame? ==>
      && Reached(p, e, p.maxPly).Some?
      && forall j: nat :: !Accepts(p, e, j)
  {
    WalkFromReached(p, e, 0, Initial);
    WalkCalls(p, e, 0, Initial);
  }

  /** A fault at a ply inside the budget, with no acceptance before it, is
      what the search reports, after one analysis per ply up to the fault. */
  lemma SearchFaultsAt(p: GameGenParams, e: Engine, k: nat)
    requires k < p.maxPly
    requires FaultAt(p, e, k).Some?
    requires forall j: nat :: j < k ==> !Accepts(p, e, j)
    ensures Search(p, e) == Run(EngineFault(k, FaultAt(p, e, k).value), k + 1)
  {
    SearchOutcome(p, e);
    SearchCalls(p, e);
    FaultExcludesAcceptance(p, e, k);
    var o := Search(p, e).outcome;
    if o.Found? {
      assert Accepts(p, e, o.game.ply);
    } else if o.NoFairGame? {
      FaultStops(p, e, k, p.maxPly);
    } else if o.ply < k {
      FaultStops(p, e, o.ply, k);
    } else if o.ply > k {
      FaultStops(p, e, k, o.ply);
    }
  }

  /** The search succeeds exactly when some ply accepts. */
  lemma SearchSucceedsIff(p: GameGenParams, e: Engine)
    requires 0 <= p.maxPly
    ensures Search(p, e).outcome.Found? <==> exists k: nat :: Accepts(p, e, k)
  {
    SearchOutcome(p, e);
    if Search(p, e).outcome.Found? {
      assert Accepts(p, e, Search(p, e).outcome.game.ply);
    }
  }

  /** One ply of `start_game`: analyse the position, rank the lines, check
      the top line for a `pv` and then for a `score`, and push its first move. */
  method AnalysePly(params: GameGenParams, engine: Engine, b: Board) returns (step: Step)
    ensures step == StepFrom(params, engine, b)
    ensures step.Faulted? <==> Top(params, engine, b).pv.None? || Top(params, engine, b).score.None?
  {
    var pvs := engine(b, params.maxDepth, params.maxPv);
    var ranked := Rank(pvs);
    if ranked[0].pv.None? {
      return Faulted(MissingPv);
    }
    if ranked[0].score.None? {
      return Faulted(MissingScore);
    }
    var next := Push(b, ranked[0].pv.value[0]);
    var score := ranked[0].score.value;
    return Advanced(next, score);
  }

  /** `Chess.start_game(params)`, where a missing `params` means the defaults;
      `calls` counts the engine analyses. */
  method StartGame(given: Option<GameGenParams>, engine: Engine) returns (r: Outcome, calls: nat)
    requires given.Some? ==> Valid(given.value)
    ensures Run(r, calls) == Search(Resolve(given), engine)
    ensures calls <= Resolve(given).maxPly
    ensures r.Found? ==>
      Resolve(given).minPly < r.game.ply < Resolve(given).maxPly && UintScore(r.game) < Resolve(given).maxCp
  {
    var params := Resolve(given);
    DefaultValid();
    ValidRanges(params);
    UnfoundIsSentinel();
    SearchCalls(params, engine);
    var b := Initial;
    var fairest := Unfound;
    calls := 0;
    for ply := 0 to params.maxPly
      invariant Search(params, engine).outcome == Walk(params, engine, ply, b).outcome
      invariant Search(params, engine).calls == calls + Walk(params, engine, ply, b).calls
      invariant fairest == Unfound
    {
      ghost var before := b;
      var step := AnalysePly(params, engine, b);
      calls := calls + 1;
      if step.Faulted? {
        r := EngineFault(ply, step.fault);
        return;
      }
      b := step.board;
      if params.minPly < ply {
        var candidate := FairGame(b, step.score, ply);
        if UintScore(candidate) < params.maxCp {
          fairest := candidate;
          break;
        }
      }
    }
    if UintScore(fairest) > params.maxCp {
      r := NoFairGame;
    } else {
      r := Found(fairest);
    }
  }
}
