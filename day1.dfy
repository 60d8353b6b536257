/** Day 1: how often a depth reading is larger than the one a fixed stride before it. */
module Day1 {
  import opened Utils
  import opened Text

  /** `parse`: one decimal integer per line; lines that do not decode are dropped. */
  function Parse(input: string): seq<int>
  {
    Values(Lines(input), ParseInt)
  }

  /** The text of a report, one reading per line. */
  function ReportText(xs: seq<int>): string
  {
    JoinShown(xs, ShowInt, "\n")
  }

  /** Reading back a written report gives its readings, in order. */
  lemma ParseReportText(xs: seq<int>)
    ensures Parse(ReportText(xs)) == xs
  {
    forall i ensures ParseInt(ShowInt(i)) == Some(i) {
      IntRoundTrip(i);
    }
    forall i ensures ShowInt(i) != [] && '\n' !in ShowInt(i) && '\r' !in ShowInt(i) {
      ShowIntPlain(i);
    }
    ValuesOfLines(xs, ShowInt, ParseInt);
  }

  /** The reading at i is exceeded by the reading `shift` places later. */
  predicate Rises(xs: seq<int>, shift: nat, i: int)
  {
    0 <= i && i + shift < |xs| && xs[i] < xs[i + shift]
  }

  /** The indices i whose reading is exceeded by the reading `shift` places later. */
  function IncreasingPairs(xs: seq<int>, shift: nat): set<nat>
  {
    set i: nat | i + shift < |xs| && Rises(xs, shift, i)
  }

  /** The number of counted pairs among the first `n` start indices. */
  function CountBelow(xs: seq<int>, shift: nat, n: nat): (c: nat)
    requires n + shift <= |xs|
    ensures c <= n
  {
    if n == 0 then 0
    else CountBelow(xs, shift, n - 1) + (if xs[n - 1] < xs[n - 1 + shift] then 1 else 0)
  }

  /**
   * `solve`: pair every reading with the one `shift` places later and count the
   * strict increases. Slicing `xs[shift..]` panics when `shift` exceeds the length.
   */
  function Solve(xs: seq<int>, shift: nat): (r: nat)
    requires shift <= |xs|
    ensures r <= |xs| - shift
  {
    CountBelow(xs, shift, |xs| - shift)
  }

  lemma {:induction false} CountBelowIsCardinality(xs: seq<int>, shift: nat, n: nat)
    requires n + shift <= |xs|
    ensures CountBelow(xs, shift, n) == |set i: nat | i < n && Rises(xs, shift, i)|
  {
    var s := set i: nat | i < n && Rises(xs, shift, i);
    if n == 0 {
      assert s == {};
    } else {
      CountBelowIsCardinality(xs, shift, n - 1);
      var t := set i: nat | i < n - 1 && Rises(xs, shift, i);
      if xs[n - 1] < xs[n - 1 + shift] {
        assert s == t + {n - 1};
      } else {
        assert s == t;
      }
    }
  }

  /** The count is the number of indices i in [0, len - shift) with xs[i] < xs[i + shift]. */
  lemma SolveCountsPairs(xs: seq<int>, shift: nat)
    requires shift <= |xs|
    ensures Solve(xs, shift) == |IncreasingPairs(xs, shift)|
  {
    CountBelowIsCardinality(xs, shift, |xs| - shift);
    assert IncreasingPairs(xs, shift) == set i: nat | i < |xs| - shift && Rises(xs, shift, i);
  }

  /** The comparison is strict: a sequence that never increases at the stride counts nothing. */
  lemma {:induction false} SolveNonIncreasing(xs: seq<int>, shift: nat, n: nat)
    requires n + shift <= |xs|
    requires forall i :: 0 <= i < n ==> xs[i] >= xs[i + shift]
    ensures CountBelow(xs, shift, n) == 0
  {
    if n > 0 {
      SolveNonIncreasing(xs, shift, n - 1);
    }
  }

  /** A constant sequence has no increases. */
  lemma SolveConstant(xs: seq<int>, shift: nat)
    requires shift <= |xs|
    requires forall i, j :: 0 <= i < j < |xs| ==> xs[i] == xs[j]
    ensures Solve(xs, shift) == 0
  {
    SolveNonIncreasing(xs, shift, |xs| - shift);
  }

  lemma {:induction false} CountBelowIncreasing(xs: seq<int>, shift: nat, n: nat)
    requires n + shift <= |xs|
    requires forall i :: 0 <= i < n ==> xs[i] < xs[i + shift]
    ensures CountBelow(xs, shift, n) == n
  {
    if n > 0 {
      CountBelowIncreasing(xs, shift, n - 1);
    }
  }

  /** A strictly increasing sequence counts every pair, for any positive stride. */
  lemma SolveIncreasing(xs: seq<int>, shift: nat)
    requires 1 <= shift <= |xs|
    requires forall i, j :: 0 <= i < j < |xs| ==> xs[i] < xs[j]
    ensures Solve(xs, shift) == |xs| - shift
  {
    CountBelowIncreasing(xs, shift, |xs| - shift);
  }

  /** The sum of the three readings starting at i. */
  function Window(xs: seq<int>, i: nat): int
    requires i + 2 < |xs|
  {
    xs[i] + xs[i + 1] + xs[i + 2]
  }

  /** The number of i < n whose window sum is exceeded by the next window's. */
  function WindowIncreases(xs: seq<int>, n: nat): (c: nat)
    requires n + 3 <= |xs|
    ensures c <= n
  {
    if n == 0 then 0
    else WindowIncreases(xs, n - 1) + (if Window(xs, n - 1) < Window(xs, n) then 1 else 0)
  }

  /** Stride 3 counts the increases of the sliding three-reading sums: the middle terms cancel. */
  lemma {:induction false} StrideThreeIsWindows(xs: seq<int>, n: nat)
    requires n + 3 <= |xs|
    ensures CountBelow(xs, 3, n) == WindowIncreases(xs, n)
  {
    if n > 0 {
      StrideThreeIsWindows(xs, n - 1);
    }
  }

  /** `part1`: the increases at stride 1; it panics on an empty input. */
  function Part1(input: string): (r: nat)
    requires |Parse(input)| >= 1
    ensures r == |IncreasingPairs(Parse(input), 1)|
  {
    SolveCountsPairs(Parse(input), 1);
    Solve(Parse(input), 1)
  }

  /** `part2`: the increases of the sliding three-reading sums; it panics on fewer than three readings. */
  function Part2(input: string): (r: nat)
    requires |Parse(input)| >= 3
    ensures r == WindowIncreases(Parse(input), |Parse(input)| - 3)
  {
    StrideThreeIsWindows(Parse(input), |Parse(input)| - 3);
    Solve(Parse(input), 3)
  }

  const Sample: seq<int> := [199, 200, 208, 210, 200, 207, 240, 269, 260, 263]

  /** The sample readings give 7 at stride 1 and 5 at stride 3. */
  lemma SampleAnswers()
    ensures Solve(Sample, 1) == 7
    ensures Solve(Sample, 3) == 5
  {
    assert CountBelow(Sample, 1, 3) == 3;
    assert CountBelow(Sample, 1, 6) == 5;
    assert CountBelow(Sample, 1, 9) == 7;
    assert CountBelow(Sample, 3, 3) == 1;
    assert CountBelow(Sample, 3, 7) == 5;
  }
}
