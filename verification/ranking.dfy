/** Ranking of the engine's candidate lines for one position
    (`pv_sort_predicate` and `pvs.sort(key=...)`). */
module Ranking {
  import opened Wrappers
  import opened Scores
  import opened Boards

  /** A principal variation as the engine reports it: never empty. */
  type Pv = s: seq<Move> | |s| > 0 witness ["e2e4"]

  /** One entry of the engine's multi-PV answer: the `pv` and `score` keys of
      an `InfoDict`, each of which may be absent. */
  datatype Line = Line(pv: Option<Pv>, score: Option<PovScore>)

  /** `pv_sort_predicate`: the magnitude of the line's evaluation from White's
      side, with a missing score, a mate or a zero all ranked as 1000. */
  function SortKey(line: Line): (r: nat)
    ensures line.score.None? ==> r == Sentinel
    ensures line.score.Some? && line.score.value.relative.Mate? ==> r == Sentinel
    ensures line.score.Some? && line.score.value.relative.Cp? ==>
      r == (if line.score.value.relative.cp == 0 then Sentinel else Abs(line.score.value.relative.cp))
  {
    if line.score.None? then Sentinel
    else Abs(Relative(line.score.value, White))
  }

  /** Lines in non-decreasing key order. */
  predicate Sorted(s: seq<Line>)
  {
    forall i, j :: 0 <= i < j < |s| ==> SortKey(s[i]) <= SortKey(s[j])
  }

  /** The lines of `s` whose key is `k`, in their order in `s`. */
  function Filter(s: seq<Line>, k: int): (r: seq<Line>)
    ensures |r| <= |s|
  {
    if s == [] then []
    else if SortKey(s[0]) == k then [s[0]] + Filter(s[1..], k)
    else Filter(s[1..], k)
  }

  /** A stable sort of `input`: `output` is sorted, and for every key the lines
      carrying it appear in the same relative order as in `input`. */
  ghost predicate StablySorts(input: seq<Line>, output: seq<Line>)
  {
    Sorted(output) && forall k :: Filter(output, k) == Filter(input, k)
  }

  /** Filtering a sequence with a line in front. */
  lemma FilterCons(x: Line, s: seq<Line>, k: int)
    ensures Filter([x] + s, k) == if SortKey(x) == k then [x] + Filter(s, k) else Filter(s, k)
  {
    assert ([x] + s)[1..] == s;
  }

  /** A line whose key bounds every key of a sorted sequence can go in front. */
  lemma SortedCons(x: Line, s: seq<Line>)
    requires Sorted(s)
    requires forall y :: y in s ==> SortKey(x) <= SortKey(y)
    ensures Sorted([x] + s)
  {
    forall i, j | 0 <= i < j < |[x] + s|
      ensures SortKey(([x] + s)[i]) <= SortKey(([x] + s)[j])
    {
      if i > 0 {
        assert ([x] + s)[i] == s[i - 1];
      }
      assert ([x] + s)[j] == s[j - 1];
    }
  }

  /** Inserts `x` in front of the first line of `s` whose key is not smaller,
      so that `x` precedes the lines of equal key. */
  function Insert(x: Line, s: seq<Line>): (r: seq<Line>)
    ensures |r| == |s| + 1
  {
    if s == [] then [x]
    else if SortKey(x) <= SortKey(s[0]) then [x] + s
    else [s[0]] + Insert(x, s[1..])
  }

  /** Insertion adds exactly the inserted line. */
  lemma {:induction false} InsertPermutes(x: Line, s: seq<Line>)
    ensures multiset(Insert(x, s)) == multiset(s) + multiset{x}
  {
    if s != [] && SortKey(x) > SortKey(s[0]) {
      InsertPermutes(x, s[1..]);
      assert s == [s[0]] + s[1..];
    }
  }

  lemma {:induction false} InsertSorted(x: Line, s: seq<Line>)
    requires Sorted(s)
    ensures Sorted(Insert(x, s))
  {
    if s == [] {
    } else if SortKey(x) <= SortKey(s[0]) {
      SortedCons(x, s);
    } else {
      var rest := Insert(x, s[1..]);
      InsertSorted(x, s[1..]);
      InsertPermutes(x, s[1..]);
      assert s == [s[0]] + s[1..];
      forall y | y in rest ensures SortKey(s[0]) <= SortKey(y) {
        assert y in multiset(rest);
      }
      SortedCons(s[0], rest);
    }
  }

  /** The inserted line joins the lines of its key at the front; no other key's
      lines move relative to each other. */
  lemma {:induction false} InsertFilter(x: Line, s: seq<Line>, k: int)
    ensures Filter(Insert(x, s), k) == if SortKey(x) == k then [x] + Filter(s, k) else Filter(s, k)
  {
    if s == [] {
      FilterCons(x, [], k);
    } else if SortKey(x) <= SortKey(s[0]) {
      FilterCons(x, s, k);
    } else {
      InsertFilter(x, s[1..], k);
      FilterCons(s[0], Insert(x, s[1..]), k);
      assert s == [s[0]] + s[1..];
      FilterCons(s[0], s[1..], k);
    }
  }

  /** The ranked lines: Python's `list.sort` with `pv_sort_predicate` as key. */
  function Rank(lines: seq<Line>): (r: seq<Line>)
    ensures |r| == |lines|
  {
    if lines == [] then [] else Insert(lines[0], Rank(lines[1..]))
  }

  /** Ranking puts the lines in non-decreasing key order. */
  lemma {:induction false} RankSorted(lines: seq<Line>)
    ensures Sorted(Rank(lines))
  {
    if lines != [] {
      RankSorted(lines[1..]);
      InsertSorted(lines[0], Rank(lines[1..]));
    }
  }

  /** Ranking neither loses nor invents a line. */
  lemma {:induction false} RankPermutes(lines: seq<Line>)
    ensures multiset(Rank(lines)) == multiset(lines)
  {
    if lines != [] {
      RankPermutes(lines[1..]);
      InsertPermutes(lines[0], Rank(lines[1..]));
      assert lines == [lines[0]] + lines[1..];
    }
  }

  /** Ranking is stable: lines of equal key keep the engine's order. */
  lemma {:induction false} RankFilter(lines: seq<Line>, k: int)
    ensures Filter(Rank(lines), k) == Filter(lines, k)
  {
    if lines != [] {
      RankFilter(lines[1..], k);
      InsertFilter(lines[0], Rank(lines[1..]), k);
      assert lines == [lines[0]] + lines[1..];
      FilterCons(lines[0], lines[1..], k);
    }
  }

  /** `Rank` is a stable sort of the engine's answer. */
  lemma RankStablySorts(lines: seq<Line>)
    ensures StablySorts(lines, Rank(lines))
  {
    RankSorted(lines);
    forall k ensures Filter(Rank(lines), k) == Filter(lines, k) {
      RankFilter(lines, k);
    }
  }

  /** A non-empty filter witnesses a line with that key. */
  lemma {:induction false} FilterHasKey(s: seq<Line>, k: int)
    requires |Filter(s, k)| > 0
    ensures exists j :: 0 <= j < |s| && SortKey(s[j]) == k
  {
    if SortKey(s[0]) != k {
      FilterHasKey(s[1..], k);
      var j :| 0 <= j < |s[1..]| && SortKey(s[1..][j]) == k;
      assert SortKey(s[j + 1]) == k;
    }
  }

  /** The first line of a key heads the filter for that key. */
  lemma {:induction false} FilterFirst(s: seq<Line>, i: int)
    requires 0 <= i < |s|
    requires forall j :: 0 <= j < i ==> SortKey(s[j]) != SortKey(s[i])
    ensures |Filter(s, SortKey(s[i]))| > 0
    ensures Filter(s, SortKey(s[i]))[0] == s[i]
  {
    if i > 0 {
      FilterFirst(s[1..], i - 1);
      assert s[1..][i - 1] == s[i];
      assert SortKey(s[0]) != SortKey(s[i]);
    }
  }

  /** Two sorted sequences with the same lines per key start with the same line. */
  lemma HeadsAgree(a: seq<Line>, b: seq<Line>)
    requires |a| > 0 && |b| > 0
    requires Sorted(a) && Sorted(b)
    requires forall k :: Filter(a, k) == Filter(b, k)
    ensures a[0] == b[0]
  {
    var ka, kb := SortKey(a[0]), SortKey(b[0]);
    FilterFirst(a, 0);
    FilterFirst(b, 0);
    assert Filter(b, ka) == Filter(a, ka);
    FilterHasKey(b, ka);
    assert Filter(a, kb) == Filter(b, kb);
    FilterHasKey(a, kb);
  }

  /** Removing an equal head keeps the lines of a key equal. */
  lemma TailAgrees(a: seq<Line>, b: seq<Line>, k: int)
    requires |a| > 0 && |b| > 0 && a[0] == b[0]
    requires Filter(a, k) == Filter(b, k)
    ensures Filter(a[1..], k) == Filter(b[1..], k)
  {
    if SortKey(a[0]) == k {
      assert Filter(a[1..], k) == Filter(a, k)[1..];
      assert Filter(b[1..], k) == Filter(b, k)[1..];
    }
  }

  /** Sortedness and per-key order pin the arrangement down: there is only one
      stable sort of a sequence of lines. */
  lemma {:induction false} StableSortUnique(a: seq<Line>, b: seq<Line>)
    requires Sorted(a) && Sorted(b)
    requires forall k :: Filter(a, k) == Filter(b, k)
    ensures a == b
  {
    if a != [] && b != [] {
      HeadsAgree(a, b);
      forall k ensures Filter(a[1..], k) == Filter(b[1..], k) {
        TailAgrees(a, b, k);
      }
      StableSortUnique(a[1..], b[1..]);
      assert a == [a[0]] + a[1..];
      assert b == [b[0]] + b[1..];
    } else if a != [] {
      FilterFirst(a, 0);
    } else if b != [] {
      FilterFirst(b, 0);
    }
  }

  /** Whatever stable sorting algorithm the runtime uses, its result is `Rank`. */
  lemma AnyStableSortIsRank(lines: seq<Line>, out: seq<Line>)
    requires StablySorts(lines, out)
    ensures out == Rank(lines)
  {
    RankStablySorts(lines);
    StableSortUnique(out, Rank(lines));
  }

  /** Line `i` has the smallest key, and every line before it a larger one. */
  predicate IsFirstBest(lines: seq<Line>, i: int)
  {
    && 0 <= i < |lines|
    && (forall j :: 0 <= j < |lines| ==> SortKey(lines[i]) <= SortKey(lines[j]))
    && (forall j :: 0 <= j < i ==> SortKey(lines[i]) < SortKey(lines[j]))
  }

  /** The top-ranked line (`pvs[0]` after sorting) is the engine's first line
      among those of smallest key. */
  lemma RankHeadIsFirstBest(lines: seq<Line>, i: int)
    requires IsFirstBest(lines, i)
    ensures Rank(lines)[0] == lines[i]
  {
    var r := Rank(lines);
    var k := SortKey(lines[i]);
    RankSorted(lines);
    RankPermutes(lines);
    assert r[0] in multiset(lines);
    var j :| 0 <= j < |lines| && lines[j] == r[0];
    assert lines[i] in multiset(r);
    var m :| 0 <= m < |r| && r[m] == lines[i];
    assert SortKey(r[0]) == k;
    FilterFirst(r, 0);
    FilterFirst(lines, i);
    RankFilter(lines, k);
  }
}
