# Fair starting position search

A Dafny model of the fair-position search at the heart of the chess API:
`Chess.start_game` walks from the initial position along the engine's
top-ranked line, one move per ply. It returns the first position past the
skipped opening whose evaluation, seen from the side to move, is smaller in
magnitude than the fairness bound `max_cp`.

The model covers:

- **Scores** (`scores.dfy`): python-chess's point-of-view scores. A score is
  centipawns or a mate distance, relative to one side. The fallback
  `score() or 1000` turns a mate score *and* a score of exactly 0 into the
  sentinel 1000.
- **Boards** (`boards.dfy`): the board reduced to what the search observes, the
  moves pushed so far and the side to move.
- **Ranking** (`ranking.dfy`): `pv_sort_predicate` and the stable
  `pvs.sort(key=...)`. The sort is a functional insertion sort `Rank`. It is
  proved sorted, a permutation and stable. Any stable sort by the same key
  is proved equal to it, whatever algorithm the runtime uses.
- **Params** (`params.dfy`): `GameGenParams`, its defaults, its per-field
  `gt`/`le` bounds, and construction through validation. Construction yields
  either the values as given or the set of offending fields.
- **Game** (`game.dfy`): `FairGame` with `score` and `uint_score`.
- **Chess** (`chess.dfy`): the loop of `start_game`, written twice.
  - `StartGame` is the loop itself, as a method.
  - `Search` and `Walk` are a recursive reference definition of the loop.
  - A per-ply characterisation describes the loop one ply at a time:
    `Reached` is the position analysed at ply `k`, `FaultAt` is the exception
    raised there, `Candidate` is the game recorded there, and `Accepts`
    says whether that game is accepted.

  `StartGame` is proved equal to `Search`, outcome and number of engine
  calls alike. `Search` is proved to stop at the first accepting ply, at the
  first fault, or when the budget runs out.
- **Scenarios** (`scenarios.dfy`): searches against stub engines, and concrete
  rankings.

The engine is a parameter: a deterministic function of type
`(Board, int, int) -> Answer` standing for
`analyse(board, limit=Limit(depth=max_depth), multipv=max_pv)`.

`ChessException` is modelled as the outcomes `EngineFault(ply, fault)` and
`NoFairGame`. The fault records which check fired: a missing `pv` or a
missing `score`.

Behaviour of the code worth knowing:

- `0 or 1000` is 1000, so a score of exactly 0 centipawns is read as 1000
  and a perfectly level position is never accepted
  (`Chess.SentinelScoreNeverAccepted`).
- The final check of `start_game` raises only when `uint_score > max_cp`.
  Under valid parameters this is the same as `>=`. The game checked there
  is either the accepted game, whose magnitude is below `max_cp`, or the
  initial sentinel game of magnitude 1000. Every valid `max_cp` is at most
  10 (`Params.ValidWindow`).
- The model has no empty `pv`. A line either has a non-empty `pv`
  (`Ranking.Pv`) or has none.

## Model

| member | source | states |
|---|---|---|
| Scores.Pov | api/src/api/chess.py:47 | `pov(c)` keeps the kind of score; a centipawn value keeps its sign when read from the side it is relative to and changes sign from the other side |
| Scores.OrSentinel | api/src/api/chess.py:18 | `v or 1000` is never 0; it is 1000 exactly for no value, for 0 and for 1000 itself, and any other value is kept |
| Scores.Relative | api/src/api/chess.py:47 | a mate or a zero evaluation reads as 1000; any other centipawn value is signed by whether the reading side is the side the score is relative to |
| Scores.RelativeFlip | api/src/api/chess.py:43-47 | reading the same evaluation from the other side negates a nonzero centipawn value and leaves the sentinel unchanged |
| Scores.MagnitudeSideIndependent | api/src/api/chess.py:15-18 | the magnitude of `pov(c).score() or 1000` is the same for both sides: 1000 for a mate or zero score, otherwise the absolute centipawn value |
| Boards.Push | api/src/api/chess.py:90 | pushing appends exactly the move and hands the turn to the other side |
| Boards.PushKeepsParity | api/src/api/chess.py:90 | from the initial position, White is to move exactly after an even number of pushes, and a push keeps that relation |
| Ranking.SortKey | api/src/api/chess.py:15-18 | the key is 1000 for a line without a score or with a mate score, 1000 for a zero score, and otherwise the absolute centipawn value read from White |
| Ranking.Rank | api/src/api/chess.py:80 | sorting keeps the number of lines |
| Ranking.RankSorted | api/src/api/chess.py:80 | the sorted lines are in non-decreasing key order |
| Ranking.RankPermutes | api/src/api/chess.py:80 | sorting neither loses nor duplicates a line (same multiset) |
| Ranking.RankFilter | api/src/api/chess.py:80 | for every key, the lines with that key appear in the engine's order (stability) |
| Ranking.RankStablySorts | api/src/api/chess.py:80 | the ranking is a stable sort by the key: sorted, and order-preserving within each key |
| Ranking.StableSortUnique | api/src/api/chess.py:80 | two sorted sequences with the same lines per key, in the same order, are equal |
| Ranking.AnyStableSortIsRank | api/src/api/chess.py:80 | any stable sort of the answer by the key yields exactly the modelled ranking |
| Ranking.RankHeadIsFirstBest | api/src/api/chess.py:80-82 | `pvs[0]` after sorting is the first line, in the engine's order, with the smallest key |
| Params.Violations | api/src/api/chess.py:21-26 | a field is reported exactly when its value is outside its `gt`/`le` bounds |
| Params.Construct | api/src/api/chess.py:21-26 | construction succeeds exactly when every field lies in its numeric range, and then keeps the values unchanged; otherwise it fails with exactly the out-of-range fields, never clamping |
| Params.Resolve | api/src/api/chess.py:65 | given parameters are used as they are; no parameters means the defaults 16, 26, 10, 5, 5 |
| Params.DefaultValid | api/src/api/chess.py:22-26 | the defaults satisfy every declared bound |
| Params.ValidRanges | api/src/api/chess.py:22-26 | a valid parameter set has min_ply 1..20, max_ply 21..50, max_depth 1..30, max_cp 1..10, max_pv 1..10 |
| Params.ValidWindow | api/src/api/chess.py:22-25 | under valid parameters the skipped opening ends before the ply budget, and the fairness bound is below the sentinel 1000 |
| Game.Score | api/src/api/chess.py:42-47 | `FairGame.score` is never 0: it is 1000 for a mate or zero score, otherwise the centipawn value signed by whether the side to move is the score's side |
| Game.UintScore | api/src/api/chess.py:35-40 | `uint_score` is positive and is `score` or its negation |
| Game.UintScoreIsSortKey | api/src/api/chess.py:35-47 | the fairness of a game recorded from a line equals the line's ranking key, whoever is to move |
| Game.UnfoundIsSentinel | api/src/api/chess.py:67-70 | the initial "fairest" game has score and magnitude 1000 |
| Chess.TopHasLeastKey | api/src/api/chess.py:80-82 | the top line is one of the engine's lines and no line of the answer has a smaller key |
| Chess.StepFrom | api/src/api/chess.py:82-91 | a ply faults with a missing `pv` exactly when the top line lacks one, and with a missing `score` exactly when it has a `pv` but no score; otherwise it keeps the top line's score and pushes the top line's first move, changing the turn |
| Chess.AdvanceFacts | api/src/api/chess.py:90-104 | a ply that advances reaches the position after the top line's first move and records a candidate, accepted exactly when the ply is in the window and the candidate is below the bound |
| Chess.FaultFacts | api/src/api/chess.py:82-88 | a reached ply whose step faults is where the fault is reported |
| Chess.FaultBlocksNext | api/src/api/chess.py:82-88 | a ply that raises leaves the next ply unanalysed |
| Chess.UnreachedForever | api/src/api/chess.py:72 | once a ply is not reached, no later ply is |
| Chess.FaultStops | api/src/api/chess.py:82-88 | after a fault no later ply is analysed |
| Chess.FaultExcludesAcceptance | api/src/api/chess.py:82-104 | a search that faults at ply `k`, accepting nothing before it, accepts nowhere |
| Chess.FaultOrder | api/src/api/chess.py:82-88 | the `pv` check precedes the `score` check: a missing `pv` is reported exactly when the top line lacks one, a missing score exactly when the top line has a `pv` but no score |
| Chess.ReachedShape | api/src/api/chess.py:67-91 | ply `k` analyses a position of `k` moves, White to move exactly on even plies |
| Chess.CandidateShape | api/src/api/chess.py:99 | the game recorded at ply `k` carries ply `k`, the analysed position with the top line's first move pushed, `k + 1` moves, with Black to move after an even ply and White after an odd one |
| Chess.AcceptsByKey | api/src/api/chess.py:93-104 | a ply is accepted exactly when it is past `min_ply` and before `max_ply`, its top line has a `pv` and a score, and that line's ranking key is below `max_cp` |
| Chess.SentinelScoreNeverAccepted | api/src/api/chess.py:102 | under valid parameters a top line with a mate score or a zero score is never accepted |
| Chess.ReachedWhileWellFormed | api/src/api/chess.py:72-91 | if the top line has a `pv` and a score on every position shorter than `n` moves, plies 0 to `n` are all reached |
| Chess.WalkCalls | api/src/api/chess.py:72-78 | from ply `i`, one engine call per ply up to and including the stopping ply, and never more than the remaining budget |
| Chess.SearchCalls | api/src/api/chess.py:72-78 | the search makes at most `max_ply` calls: ply + 1 when it finds a game or faults, exactly `max_ply` when nothing is found |
| Chess.WalkFromReached | api/src/api/chess.py:72-109 | from a reached ply with nothing accepted before, the walk returns the first accepting ply's candidate, or the first fault with nothing accepted anywhere, or exhaustion after every ply advanced without acceptance |
| Chess.SearchOutcome | api/src/api/chess.py:61-109 | a found game is the first accepting ply's candidate, strictly inside the window and below `max_cp`; a fault is reported at a reached ply inside the budget with nothing accepted; "no fair game" means all `max_ply` plies advanced with nothing accepted |
| Chess.SearchFaultsAt | api/src/api/chess.py:82-88 | a fault inside the budget with no earlier acceptance is the search's result, after exactly one call per ply up to it |
| Chess.SearchSucceedsIff | api/src/api/chess.py:99-109 | the search finds a game exactly when some ply accepts |
| Chess.AnalysePly | api/src/api/chess.py:76-91 | one analysis step agrees with `StepFrom`, and faults exactly when the top-ranked line lacks a `pv` or a score |
| Chess.StartGame | api/src/api/chess.py:61-109 | the loop returns the same outcome and makes the same number of engine calls as the reference search; at most `max_ply` calls; a found game lies strictly between `min_ply` and `max_ply` with magnitude below `max_cp` |
| Scenarios.StubAccepts | api/src/api/chess.py:93-104 | with a one-line engine, a ply is accepted exactly when it is in the window and the magnitude reported for it is below `max_cp` |
| Scenarios.StubCandidate | api/src/api/chess.py:99 | with a one-line engine, the game recorded at ply `k` carries that ply's score, with the side to move alternating with the ply |
| Scenarios.UniqueAcceptance | api/src/api/chess.py:99-104 | a search whose only accepting ply is `k` finds the candidate of ply `k` after `k + 1` calls |
| Scenarios.FoundAtPly19 | api/src/api/chess.py:61-109 | defaults, magnitude 200 on plies 0 to 18 and 3 on ply 19: the game is found at ply 19 with score 3, White to move, after 20 calls |
| Scenarios.ExhaustedAfterBudget | api/src/api/chess.py:106-107 | defaults, magnitude 200 everywhere: no fair game, after exactly 26 calls |
| Scenarios.EarliestAcceptance | api/src/api/chess.py:93-97 | defaults, magnitude 1 everywhere: the opening up to ply 16 is skipped and ply 17 is found |
| Scenarios.MissingPvAtPly17 | api/src/api/chess.py:82-84 | defaults, a top line without `pv` at ply 17: the search faults there with a missing `pv` after 18 calls, so ply 18 is never analysed |
| Scenarios.MissingPvAcceptsNothing | api/src/api/chess.py:82-84 | the faulting engine's search accepts no ply at all |
| Scenarios.RankScoredBeforeUnscored | api/src/api/chess.py:15-18 | a line scored -50 ranks ahead of a line without a score |
| Scenarios.RankKeepsUnscoredOrder | api/src/api/chess.py:80 | two lines without a score keep their engine order behind a scored line |

## Left out

- The engine process (`Chess.__init__`, api/src/api/chess.py:57-59) is left out: launching Stockfish, configuring its threads, and the CPU count (line 10). The engine is a pure function parameter, so a nondeterministic or hanging engine is not modelled.
- Logging (lines 11, 73-75, 94-96, 100) is left out: it has no effect on results.
- python-chess internals are left out. The board keeps only the move list and the side to move, with no legality check, because the search pushes what the engine proposes. The move list stands for the position. `Board(b.fen())` at api/src/api/chess.py:99 really keeps only the position and drops the move stack. The only reader of the returned board, api/src/api/api.py:55-58, reads just `fen()` and `turn`. Mate scores are kept only as far as `score()` returns `None` for them.
- The engine oracle is assumed to answer at least one line, and every `pv` it reports to hold at least one move. The types `Chess.Answer` and `Ranking.Pv` encode this assumption. Without it the code would raise `IndexError` at api/src/api/chess.py:82 on an empty answer, or at line 90 on an empty `pv`.
- Pydantic's machinery (error messages, coercion of non-integers) is left out. `Params.Construct` models only the range checks.
- Chess.StartGame: requires its given parameters to be valid. The only caller validates them (api/src/api/api.py:46, through `Query()`), and the defaults are valid (`Params.DefaultValid`). Unvalidated instances, for example from pydantic's `model_construct` or from assigning a field after construction, are not modelled. On such parameters the code behaves differently: for example, when nothing is accepted and `max_cp >= 1000`, the check at line 106 does not raise and the ply-0 sentinel game is returned.
- The text of the `ChessException` messages is left out; the outcome records the ply and the kind of fault instead.
- The HTTP layer (api/src/api/api.py), the web client (webapp/src/game.ts) and the package initialiser (api/src/api/__init__.py) are not part of this model.
- Chess.Walk: reports exhaustion as `NoFairGame` directly rather than re-checking the sentinel game. This is equivalent only under valid parameters, where 1000 exceeds `max_cp`; `Chess.StartGame` performs the check as written and is proved equal to it under that precondition.
