/** The chess board reduced to what the search observes: the moves pushed so
    far and the side to move. python-chess's `Board` is not part of this model. */
module Boards {
  import opened Scores

  /** A move in UCI notation, as the engine proposes it. */
  type Move = string

  datatype Board = Board(moves: seq<Move>, turn: Color)

  /** `Board()`: the initial position, White to move. */
  const Initial: Board := Board([], White)

  /** `Board.push(m)`: appends the move and hands the turn to the other side. */
  function Push(b: Board, m: Move): (r: Board)
    ensures r.moves == b.moves + [m]
    ensures r.turn != b.turn
  {
    Board(b.moves + [m], Flip(b.turn))
  }

  /** After `n` pushes from the initial position, White is to move exactly
      when `n` is even. */
  predicate TurnMatchesParity(b: Board)
  {
    b.turn == (if |b.moves| % 2 == 0 then White else Black)
  }

  lemma PushKeepsParity(b: Board, m: Move)
    requires TurnMatchesParity(b)
    ensures TurnMatchesParity(Push(b, m))
  {
  }
}
