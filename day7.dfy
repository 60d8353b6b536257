/** Day 7: crabs align on one position; the fuel spent is summed over the crabs. */
module Day7 {
  import opened Utils
  import opened Text

  /** `parse`: the trimmed input split at commas; fragments that are not decimal integers are dropped. */
  function Parse(input: string): seq<int>
  {
    Values(SplitOn(Trim(input), ","), ParseInt)
  }

  /** The text of the crab positions, separated by commas. */
  function PositionsText(xs: seq<int>): string
  {
    JoinShown(xs, ShowInt, ",")
  }

  /** Reading back written positions gives the positions, in order. */
  lemma ParsePositionsText(xs: seq<int>)
    ensures Parse(PositionsText(xs)) == xs
  {
    forall i ensures ParseInt(ShowInt(i)) == Some(i) && ',' !in ShowInt(i) {
      IntRoundTrip(i);
      ShowIntPlain(i);
    }
    forall x, k | 0 <= k < |ShowInt(x)| ensures !IsSpace(ShowInt(x)[k]) {
      ShowIntPlain(x);
    }
    TrimJoinShown(xs, ShowInt, ",");
    ValuesOfSeparated(xs, ShowInt, ParseInt, ',');
  }

  /** The two fuel rules: one unit per step (`|n| n`), or one more unit for every further step (`|n| n * (n + 1) / 2`). */
  datatype Rate = Constant | Growing

  function Abs(n: int): nat
  {
    if n < 0 then -n else n
  }

  /** The fuel a crab spends to move `n` steps: at least one unit per step, none for staying. */
  function Fuel(rate: Rate, n: nat): (r: nat)
    ensures r >= n
    ensures r == 0 <==> n == 0
  {
    TriangularExact(n);
    match rate
    case Constant => n
    case Growing => Triangular(n)
  }

  /** `n * (n + 1) / 2`; the division is exact. */
  function Triangular(n: nat): (r: nat)
  {
    n * (n + 1) / 2
  }

  /** The product of two consecutive naturals is even, so halving it loses nothing. */
  lemma {:induction false} TriangularExact(n: nat)
    ensures 2 * Triangular(n) == n * (n + 1)
    ensures Triangular(n) >= n
  {
    if n > 0 {
      TriangularExact(n - 1);
      assert n * (n + 1) == (n - 1) * n + 2 * n;
    }
  }

  /** Every crab is at `pos`. */
  predicate AllAt(xs: seq<int>, pos: int)
  {
    forall k :: 0 <= k < |xs| ==> xs[k] == pos
  }

  /**
   * `xs.iter().map(|x| fuel((x - pos).abs())).sum()`: nothing is spent
   * exactly when every crab is already at the position.
   */
  function CostAt(xs: seq<int>, pos: int, rate: Rate): (r: nat)
    ensures r == 0 <==> AllAt(xs, pos)
  {
    if xs == [] then 0
    else
      assert AllAt(xs, pos) <==> xs[0] == pos && AllAt(xs[1..], pos) by {
        assert forall k :: 1 <= k < |xs| ==> xs[k] == xs[1..][k - 1];
      }
      Fuel(rate, Abs(xs[0] - pos)) + CostAt(xs[1..], pos, rate)
  }

  /** `cost`: the cheaper of the two candidate positions. */
  function Cost(xs: seq<int>, pos0: int, pos1: int, rate: Rate): (r: nat)
    ensures r <= CostAt(xs, pos0, rate) && r <= CostAt(xs, pos1, rate)
    ensures r == CostAt(xs, pos0, rate) || r == CostAt(xs, pos1, rate)
  {
    var cost0 := CostAt(xs, pos0, rate);
    var cost1 := CostAt(xs, pos1, rate);
    if cost0 <= cost1 then cost0 else cost1
  }

  /** The growing rate never costs less than the constant one. */
  lemma {:induction false} GrowingCostsMore(xs: seq<int>, pos: int)
    ensures CostAt(xs, pos, Constant) <= CostAt(xs, pos, Growing)
  {
    if xs != [] {
      TriangularExact(Abs(xs[0] - pos));
      GrowingCostsMore(xs[1..], pos);
    }
  }

  lemma {:induction false} CostAppend(xs: seq<int>, ys: seq<int>, pos: int, rate: Rate)
    ensures CostAt(xs + ys, pos, rate) == CostAt(xs, pos, rate) + CostAt(ys, pos, rate)
  {
    if xs == [] {
      assert xs + ys == ys;
    } else {
      assert (xs + ys)[1..] == xs[1..] + ys;
      CostAppend(xs[1..], ys, pos, rate);
    }
  }

  /** The cost depends only on which positions occur how often, not on their order. */
  lemma {:induction false} CostPermutation(xs: seq<int>, ys: seq<int>, pos: int, rate: Rate)
    requires multiset(xs) == multiset(ys)
    ensures CostAt(xs, pos, rate) == CostAt(ys, pos, rate)
    decreases |xs|
  {
    if xs != [] {
      var x := xs[0];
      var k := Locate(ys, x);
      var rest := ys[..k] + ys[k + 1..];
      assert multiset(xs[1..]) == multiset(rest) by {
        assert xs == [x] + xs[1..];
        RemoveAt(ys, k);
        Cancel(multiset(xs[1..]), multiset(rest), x);
      }
      CostPermutation(xs[1..], rest, pos, rate);
      CostRemoveAt(ys, k, pos, rate);
    }
  }

  lemma Locate(ys: seq<int>, x: int) returns (k: nat)
    requires x in multiset(ys)
    ensures k < |ys| && ys[k] == x
  {
    assert x in ys;
    k :| 0 <= k < |ys| && ys[k] == x;
  }

  /** Taking one crab out of the line takes out exactly its fuel. */
  lemma {:induction false} CostRemoveAt(ys: seq<int>, k: nat, pos: int, rate: Rate)
    requires k < |ys|
    ensures CostAt(ys, pos, rate) == Fuel(rate, Abs(ys[k] - pos)) + CostAt(ys[..k] + ys[k + 1..], pos, rate)
  {
    if k == 0 {
      assert ys[..k] + ys[k + 1..] == ys[1..];
    } else {
      var tail := ys[1..];
      CostRemoveAt(tail, k - 1, pos, rate);
      var rest := ys[..k] + ys[k + 1..];
      assert rest[0] == ys[0];
      assert rest[1..] == tail[..k - 1] + tail[k..];
    }
  }

  lemma Cancel(a: multiset<int>, b: multiset<int>, x: int)
    requires multiset{x} + a == multiset{x} + b
    ensures a == b
  {
    assert a == (multiset{x} + a) - multiset{x};
    assert b == (multiset{x} + b) - multiset{x};
  }

  lemma RemoveAt(ys: seq<int>, k: nat)
    requires k < |ys|
    ensures ys == ys[..k] + [ys[k]] + ys[k + 1..]
    ensures multiset(ys) == multiset{ys[k]} + multiset(ys[..k] + ys[k + 1..])
  {
    assert ys == ys[..k] + [ys[k]] + ys[k + 1..];
  }

  predicate Sorted(s: seq<int>)
  {
    forall p, q :: 0 <= p < q < |s| ==> s[p] <= s[q]
  }

  /** `xs.sort()`: ascending order, same elements (here by selecting the least remaining element). */
  method Sort(a: array<int>)
    modifies a
    ensures Sorted(a[..])
    ensures multiset(a[..]) == multiset(old(a[..]))
  {
    var i := 0;
    while i < a.Length
      invariant 0 <= i <= a.Length
      invariant forall p, q :: 0 <= p < q < i ==> a[p] <= a[q]
      invariant forall p, q :: 0 <= p < i <= q < a.Length ==> a[p] <= a[q]
      invariant multiset(a[..]) == multiset(old(a[..]))
    {
      var m := MinIndex(a, i);
      a[i], a[m] := a[m], a[i];
      i := i + 1;
    }
  }

  /** The position of a least element of `a[from..]`. */
  method MinIndex(a: array<int>, from: nat) returns (m: nat)
    requires from < a.Length
    ensures from <= m < a.Length
    ensures forall q :: from <= q < a.Length ==> a[m] <= a[q]
  {
    m := from;
    var k := from + 1;
    while k < a.Length
      invariant from <= m < k <= a.Length
      invariant forall q :: from <= q < k ==> a[m] <= a[q]
    {
      if a[k] < a[m] {
        m := k;
      }
      k := k + 1;
    }
  }

  /**
   * Moving a crab at x and a crab at y (x <= y) to any point between them costs y - x at the
   * constant rate, the least it can cost; so a point inside every such nested pair is optimal.
   */
  predicate MedianOf(s: seq<int>, m: int)
  {
    (forall k :: 0 <= k < |s| / 2 ==> s[k] <= m <= Mirror(s, k)) &&
    (|s| % 2 == 1 ==> m == s[|s| / 2])
  }

  /** The element as far from the end as `s[k]` is from the start. */
  function Mirror(s: seq<int>, k: nat): int
    requires k < |s|
  {
    s[|s| - 1 - k]
  }

  lemma {:induction false} MedianOptimal(s: seq<int>, m: int, t: int)
    requires MedianOf(s, m)
    ensures CostAt(s, m, Constant) <= CostAt(s, t, Constant)
    decreases |s|
  {
    if |s| >= 2 {
      MedianInner(s, m);
      MedianOptimal(s[1..|s| - 1], m, t);
      CostEnds(s, m);
      CostEnds(s, t);
      PairBound(s[0], s[|s| - 1], t);
    } else if |s| == 1 {
      assert s[1..] == [];
    }
  }

  /** Dropping the outermost pair keeps a median a median. */
  lemma MedianInner(s: seq<int>, m: int)
    requires MedianOf(s, m) && |s| >= 2
    ensures s[0] <= m <= s[|s| - 1]
    ensures MedianOf(s[1..|s| - 1], m)
  {
    var inner := s[1..|s| - 1];
    assert s[0] <= m <= Mirror(s, 0);
    forall k | 0 <= k < |inner| / 2 ensures inner[k] <= m <= Mirror(inner, k) {
      assert inner[k] == s[k + 1] && Mirror(inner, k) == Mirror(s, k + 1);
    }
    if |inner| % 2 == 1 {
      assert inner[|inner| / 2] == s[|s| / 2];
    }
  }

  /** The cost at the constant rate splits into the outermost pair and the rest. */
  lemma CostEnds(s: seq<int>, p: int)
    requires |s| >= 2
    ensures CostAt(s, p, Constant) == Abs(s[0] - p) + CostAt(s[1..|s| - 1], p, Constant) + Abs(s[|s| - 1] - p)
  {
    var inner := s[1..|s| - 1];
    assert s == [s[0]] + inner + [s[|s| - 1]];
    CostAppend([s[0]] + inner, [s[|s| - 1]], p, Constant);
    CostAppend([s[0]], inner, p, Constant);
  }

  /** In ascending order, the element at `len / 2` lies inside every nested pair. */
  lemma SortedMedian(s: seq<int>)
    requires Sorted(s) && |s| >= 1
    ensures MedianOf(s, s[|s| / 2])
  {
  }

  /**
   * `part1` after parsing: sort, then take the cheaper of `xs[mid]` and `xs[mid - 1]`
   * at the constant rate. The answer is the least cost over every position.
   */
  method AlignConstant(xs: seq<int>) returns (r: nat)
    requires |xs| >= 2
    ensures forall t :: r <= CostAt(xs, t, Constant)
    ensures exists k :: 0 <= k < |xs| && r == CostAt(xs, xs[k], Constant)
  {
    var a := new int[|xs|](k requires 0 <= k < |xs| => xs[k]);
    assert a[..] == xs;
    Sort(a);
    var mid := a.Length / 2;
    r := Cost(a[..], a[mid], a[mid - 1], Constant);
    SortedMedian(a[..]);
    MedianOptimal(a[..], a[mid], a[mid - 1]);
    forall t ensures r <= CostAt(xs, t, Constant) {
      MedianOptimal(a[..], a[mid], t);
      CostPermutation(a[..], xs, t, Constant);
    }
    assert a[mid] in multiset(xs);
    var k :| 0 <= k < |xs| && xs[k] == a[mid];
    CostPermutation(a[..], xs, a[mid], Constant);
  }

  /** `part1`: a list of fewer than two positions makes `mid - 1` underflow. */
  method Part1(input: string) returns (r: nat)
    requires |Parse(input)| >= 2
    ensures forall t :: r <= CostAt(Parse(input), t, Constant)
    ensures exists k :: 0 <= k < |Parse(input)| && r == CostAt(Parse(input), Parse(input)[k], Constant)
  {
    r := AlignConstant(Parse(input));
  }

  function Sum(xs: seq<int>): int
  {
    if xs == [] then 0 else xs[0] + Sum(xs[1..])
  }

  /** Integer division rounding toward zero, as `i32` division does. */
  function TruncDiv(a: int, b: int): (q: int)
    requires b > 0
    ensures a >= 0 ==> q * b <= a < (q + 1) * b
    ensures a < 0 ==> (q - 1) * b < a <= q * b
  {
    if a >= 0 then a / b else -((-a) / b)
  }

  /** `part2` after parsing: the mean, rounded toward zero, and its successor, at the growing rate. */
  function AlignGrowing(xs: seq<int>): (r: nat)
    requires |xs| >= 1
    ensures var mean := TruncDiv(Sum(xs), |xs|);
      r <= CostAt(xs, mean, Growing) && r <= CostAt(xs, mean + 1, Growing) &&
      (r == CostAt(xs, mean, Growing) || r == CostAt(xs, mean + 1, Growing))
  {
    var mean := TruncDiv(Sum(xs), |xs|);
    Cost(xs, mean, mean + 1, Growing)
  }

  /** `part2`: an empty list would divide by zero. */
  function Part2(input: string): nat
    requires |Parse(input)| >= 1
  {
    AlignGrowing(Parse(input))
  }

  /** The sample positions, in two halves. */
  function Sample(): seq<int>
  {
    SampleFront() + SampleBack()
  }

  function SampleFront(): seq<int>
  {
    [16, 1, 2, 0, 4]
  }

  function SampleBack(): seq<int>
  {
    [2, 7, 1, 2, 14]
  }

  /** The cost of a suffix is the first crab's fuel plus the cost of the rest. */
  lemma CostFrom(xs: seq<int>, i: nat, pos: int, rate: Rate)
    requires i < |xs|
    ensures CostAt(xs[i..], pos, rate) == Fuel(rate, Abs(xs[i] - pos)) + CostAt(xs[i + 1..], pos, rate)
  {
    assert xs[i..][1..] == xs[i + 1..];
  }

  /** The cost of a few sample crabs at the constant rate, one crab at a time. */
  lemma CostOfTwo(x: int, y: int, t: int)
    ensures CostAt([x, y], t, Constant) == Abs(x - t) + Abs(y - t)
  {
    var s := [x, y];
    assert s[0..] == s && s[2..] == [];
    CostFrom(s, 0, t, Constant);
    CostFrom(s, 1, t, Constant);
  }

  lemma CostOfThree(x: int, y: int, z: int, t: int)
    ensures CostAt([x, y, z], t, Constant) == Abs(x - t) + Abs(y - t) + Abs(z - t)
  {
    CostOfTwo(y, z, t);
    assert [x, y, z] == [x] + [y, z];
    CostAppend([x], [y, z], t, Constant);
  }

  /** Two crabs at x <= y spend at least y - x to meet anywhere. */
  lemma PairBound(x: int, y: int, t: int)
    requires x <= y
    ensures Abs(x - t) + Abs(y - t) >= y - x
  {
  }

  /** Pairing 16 with 0 and 1 with 4 bounds the first half's cost. */
  lemma FrontLower(t: int)
    ensures CostAt(SampleFront(), t, Constant) >= 19 + Abs(2 - t)
  {
    CostOfTwo(16, 1, t);
    CostOfThree(2, 0, 4, t);
    assert SampleFront() == [16, 1] + [2, 0, 4];
    CostAppend([16, 1], [2, 0, 4], t, Constant);
    PairBound(0, 16, t);
    PairBound(1, 4, t);
  }

  /** Pairing 2 with 7 and 1 with 14 bounds the second half's cost. */
  lemma BackLower(t: int)
    ensures CostAt(SampleBack(), t, Constant) >= 18 + Abs(2 - t)
  {
    CostOfTwo(2, 7, t);
    CostOfThree(1, 2, 14, t);
    assert SampleBack() == [2, 7] + [1, 2, 14];
    CostAppend([2, 7], [1, 2, 14], t, Constant);
    PairBound(2, 7, t);
    PairBound(1, 14, t);
  }

  /** The sample needs 37 fuel at the constant rate, at position 2, and no position needs less. */
  lemma SamplePart1()
    ensures forall t :: 37 <= CostAt(Sample(), t, Constant)
    ensures CostAt(Sample(), 2, Constant) == 37
  {
    forall t ensures 37 <= CostAt(Sample(), t, Constant) {
      FrontLower(t);
      BackLower(t);
      CostAppend(SampleFront(), SampleBack(), t, Constant);
    }
    assert Sample() == [16, 1, 2, 0, 4, 2, 7, 1, 2, 14];
  }

  lemma SampleMean()
    ensures Sum(Sample()) == 49
  {
    assert Sample() == [16, 1, 2, 0, 4, 2, 7, 1, 2, 14];
  }

  lemma FrontGrowing4()
    ensures CostAt([16, 1, 2, 0, 4], 4, Growing) == 97
  {
  }

  lemma FrontGrowing5()
    ensures CostAt([16, 1, 2, 0, 4], 5, Growing) == 98
  {
  }

  lemma BackGrowing4()
    ensures CostAt([2, 7, 1, 2, 14], 4, Growing) == 73
  {
  }

  lemma BackGrowing5()
    ensures CostAt([2, 7, 1, 2, 14], 5, Growing) == 70
  {
  }

  /** The sample needs 170 fuel at the growing rate at position 4, and 168 at position 5. */
  lemma SampleGrowing()
    ensures CostAt(Sample(), 4, Growing) == 170
    ensures CostAt(Sample(), 5, Growing) == 168
  {
    FrontGrowing4();
    FrontGrowing5();
    BackGrowing4();
    BackGrowing5();
    CostAppend(SampleFront(), SampleBack(), 4, Growing);
    CostAppend(SampleFront(), SampleBack(), 5, Growing);
  }

  /** Part 2 on the sample: the truncated mean is 4, and the cheaper candidate costs 168. */
  lemma SamplePart2()
    ensures TruncDiv(Sum(Sample()), |Sample()|) == 4
    ensures AlignGrowing(Sample()) == 168
  {
    SampleMean();
    assert |Sample()| == 10 && TruncDiv(49, 10) == 4;
    SampleGrowing();
  }
}
