/** `GameGenParams`: the search configuration and the per-field range checks
    pydantic applies when it is constructed. */
module Params {
  import opened Wrappers

  datatype GameGenParams = GameGenParams(
    minPly: int,
    maxPly: int,
    maxDepth: int,
    maxCp: int,
    maxPv: int)

  datatype Field = MinPly | MaxPly | MaxDepth | MaxCp | MaxPv

  /** The declared bounds of a field: `gt` (exclusive) and `le` (inclusive). */
  function Gt(f: Field): int
  {
    match f
    case MinPly => 0
    case MaxPly => 20
    case MaxDepth => 0
    case MaxCp => 0
    case MaxPv => 0
  }

  function Le(f: Field): int
  {
    match f
    case MinPly => 20
    case MaxPly => 50
    case MaxDepth => 30
    case MaxCp => 10
    case MaxPv => 10
  }

  function Get(p: GameGenParams, f: Field): int
  {
    match f
    case MinPly => p.minPly
    case MaxPly => p.maxPly
    case MaxDepth => p.maxDepth
    case MaxCp => p.maxCp
    case MaxPv => p.maxPv
  }

  predicate InRange(f: Field, v: int)
  {
    Gt(f) < v <= Le(f)
  }

  /** Every field satisfies its own declared bounds; no relation between fields
      is checked. */
  predicate Valid(p: GameGenParams)
  {
    forall f: Field :: InRange(f, Get(p, f))
  }

  /** The fields that fail their bounds. */
  function Violations(p: GameGenParams): (r: set<Field>)
    ensures forall f: Field :: f in r <==> !InRange(f, Get(p, f))
  {
    set f: Field | f in {MinPly, MaxPly, MaxDepth, MaxCp, MaxPv} && !InRange(f, Get(p, f))
  }

  /** Construction through validation: either the parameters exactly as given,
      or the set of offending fields; values are never clamped. */
  function Construct(minPly: int, maxPly: int, maxDepth: int, maxCp: int, maxPv: int): (r: Result<GameGenParams, set<Field>>)
    ensures r.Ok? <==> 1 <= minPly <= 20 && 21 <= maxPly <= 50 && 1 <= maxDepth <= 30 && 1 <= maxCp <= 10 && 1 <= maxPv <= 10
    ensures r.Ok? ==> r.value == GameGenParams(minPly, maxPly, maxDepth, maxCp, maxPv) && Valid(r.value)
    ensures r.Err? ==> r.error != {}
    ensures r.Err? ==> forall f: Field :: f in r.error <==> !InRange(f, Get(GameGenParams(minPly, maxPly, maxDepth, maxCp, maxPv), f))
  {
    var p := GameGenParams(minPly, maxPly, maxDepth, maxCp, maxPv);
    var bad := Violations(p);
    assert MinPly in bad <==> !InRange(MinPly, p.minPly);
    assert MaxPly in bad <==> !InRange(MaxPly, p.maxPly);
    assert MaxDepth in bad <==> !InRange(MaxDepth, p.maxDepth);
    assert MaxCp in bad <==> !InRange(MaxCp, p.maxCp);
    assert MaxPv in bad <==> !InRange(MaxPv, p.maxPv);
    if bad == {} then Ok(p) else Err(bad)
  }

  /** The defaults: `GameGenParams()`. */
  const Default: GameGenParams := GameGenParams(16, 26, 10, 5, 5)

  /** `params or GameGenParams()`. */
  function Resolve(params: Option<GameGenParams>): (r: GameGenParams)
    ensures params.Some? ==> r == params.value
    ensures params.None? ==> r.minPly == 16 && r.maxPly == 26 && r.maxDepth == 10 && r.maxCp == 5 && r.maxPv == 5
  {
    match params
    case Some(p) => p
    case None => Default
  }

  lemma DefaultValid()
    ensures Valid(Default)
  {
  }

  /** The numeric ranges a valid parameter set lies in. */
  lemma ValidRanges(p: GameGenParams)
    requires Valid(p)
    ensures 1 <= p.minPly <= 20 && 21 <= p.maxPly <= 50 && 1 <= p.maxDepth <= 30
    ensures 1 <= p.maxCp <= 10 && 1 <= p.maxPv <= 10
  {
    assert InRange(MinPly, Get(p, MinPly));
    assert InRange(MaxPly, Get(p, MaxPly));
    assert InRange(MaxDepth, Get(p, MaxDepth));
    assert InRange(MaxCp, Get(p, MaxCp));
    assert InRange(MaxPv, Get(p, MaxPv));
  }

  /** Although never checked as a pair, the ranges keep the skipped opening
      strictly inside the ply budget, and the fairness bound below the sentinel. */
  lemma ValidWindow(p: GameGenParams)
    requires Valid(p)
    ensures p.minPly < p.maxPly
    ensures p.maxCp < 1000
  {
    ValidRanges(p);
  }
}
