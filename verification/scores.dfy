/** Engine evaluations as python-chess represents them: a score (centipawns or
    a mate distance) relative to one side, and its projection onto either side.
    The fallback `or 1000` used by the search is modelled here once. */
module Scores {
  import opened Wrappers

  datatype Color = White | Black

  function Flip(c: Color): (r: Color)
    ensures r != c
  {
    match c
    case White => Black
    case Black => White
  }

  /** `Cp` and `Mate` of python-chess; a mate score has no centipawn value. */
  datatype Score = Cp(cp: int) | Mate(moves: int)

  function Negate(s: Score): Score
  {
    match s
    case Cp(v) => Cp(-v)
    case Mate(m) => Mate(-m)
  }

  /** A `PovScore`: a score relative to the side `turn`. */
  datatype PovScore = PovScore(relative: Score, turn: Color)

  /** `PovScore.pov(color)`: the same evaluation seen from `color`. */
  function Pov(ps: PovScore, c: Color): (r: Score)
    ensures r.Cp? <==> ps.relative.Cp?
    ensures ps.relative.Cp? ==> r.cp == (if ps.turn == c then ps.relative.cp else -ps.relative.cp)
  {
    if ps.turn == c then ps.relative else Negate(ps.relative)
  }

  /** `Score.score()` with no mate score: the centipawn value, or `None` for a mate. */
  function Centipawns(s: Score): Option<int>
  {
    match s
    case Cp(v) => Some(v)
    case Mate(_) => None
  }

  /** The substitute for an unavailable or falsy evaluation. */
  const Sentinel: int := 1000

  /** Python's `v or 1000`: both `None` and `0` are falsy, so both become 1000. */
  function OrSentinel(v: Option<int>): (r: int)
    ensures r != 0
    ensures r == Sentinel <==> v == None || v == Some(0) || v == Some(Sentinel)
    ensures v.Some? && v.value != 0 ==> r == v.value
  {
    match v
    case None => Sentinel
    case Some(x) => if x == 0 then Sentinel else x
  }

  function Abs(x: int): (r: nat)
    ensures r == x || r == -x
  {
    if x < 0 then -x else x
  }

  /** `pov(c).score() or 1000`: the signed evaluation from `c`'s side. */
  function Relative(ps: PovScore, c: Color): (r: int)
    ensures ps.relative.Mate? ==> r == Sentinel
    ensures ps.relative.Cp? && ps.relative.cp == 0 ==> r == Sentinel
    ensures ps.relative.Cp? && ps.relative.cp != 0 ==>
      r == (if ps.turn == c then ps.relative.cp else -ps.relative.cp)
  {
    OrSentinel(Centipawns(Pov(ps, c)))
  }

  /** Seen from the other side, a numeric evaluation changes sign; a mate or a
      zero evaluation is the sentinel from both sides. */
  lemma RelativeFlip(ps: PovScore, c: Color)
    ensures ps.relative.Mate? || ps.relative.cp == 0 ==>
      Relative(ps, c) == Relative(ps, Flip(c)) == Sentinel
    ensures ps.relative.Cp? && ps.relative.cp != 0 ==>
      Relative(ps, Flip(c)) == -Relative(ps, c)
  {
  }

  /** The magnitude of an evaluation does not depend on the side it is read from. */
  lemma MagnitudeSideIndependent(ps: PovScore, c: Color, d: Color)
    ensures Abs(Relative(ps, c)) == Abs(Relative(ps, d))
    ensures Abs(Relative(ps, c)) == (if ps.relative.Mate? || ps.relative.cp == 0 then Sentinel else Abs(ps.relative.cp))
  {
  }
}
