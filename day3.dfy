/** Day 3: power consumption and life support ratings from the majority bits of a diagnostic report. */
module Day3 {
  import opened Utils
  import opened Text

  function Pow2(p: nat): (r: nat)
    ensures r >= 1
  {
    if p == 0 then 1 else 2 * Pow2(p - 1)
  }

  /**
   * Bit `p` of `x` in two's complement, so `x & (1 << p)` is `Bit(x, p) * 2^p`.
   * Dafny's division by 2 rounds down, which is the arithmetic shift.
   */
  function Bit(x: int, p: nat): (b: int)
    ensures b == 0 || b == 1
    decreases p
  {
    if p == 0 then x % 2 else Bit(x / 2, p - 1)
  }

  function DecodeBinary(s: string): Option<int>
  {
    ParseSigned(s, 2)
  }

  /**
   * `parse`: the bit width is the index of the first newline (0 if there is
   * none); each line is decoded in base 2 and lines that do not decode are dropped.
   */
  function Parse(input: string): (r: (nat, seq<int>))
    ensures '\n' in input ==> r.0 < |input| && input[r.0] == '\n' && '\n' !in input[..r.0]
    ensures '\n' !in input ==> r.0 == 0
    ensures r.1 == Values(Lines(input), DecodeBinary)
  {
    var n := match IndexOf(input, "\n") case Some(i) => i case None => 0;
    if '\n' in input then
      var i :| 0 <= i < |input| && input[i] == '\n';
      assert Occurs(input, "\n", i) by {
        assert input[i..i + 1] == "\n";
      }
      assert input[n..n + 1] == "\n";
      forall j | 0 <= j < n ensures input[j] != '\n' {
        assert input[j..j + 1] == [input[j]];
        assert !Occurs(input, "\n", j);
      }
      (n, Values(Lines(input), DecodeBinary))
    else
      (n, Values(Lines(input), DecodeBinary))
  }

  /** The number of values whose bit `pos` is `b`. */
  function CountBit(xs: seq<int>, pos: nat, b: int): (c: nat)
    ensures c <= |xs|
  {
    if xs == [] then 0 else (if Bit(xs[0], pos) == b then 1 else 0) + CountBit(xs[1..], pos, b)
  }

  /** Every value has bit `pos` either clear or set. */
  lemma {:induction false} CountBitSplit(xs: seq<int>, pos: nat)
    ensures CountBit(xs, pos, 0) + CountBit(xs, pos, 1) == |xs|
  {
    if xs != [] {
      CountBitSplit(xs[1..], pos);
    }
  }

  /** When no value has bit `pos` equal to `b`, none is counted. */
  lemma {:induction false} CountBitAbsent(xs: seq<int>, pos: nat, b: int)
    requires forall i :: 0 <= i < |xs| ==> Bit(xs[i], pos) != b
    ensures CountBit(xs, pos, b) == 0
  {
    if xs != [] {
      CountBitAbsent(xs[1..], pos, b);
    }
  }

  /** A value with bit `pos` equal to `b` is counted. */
  lemma {:induction false} CountBitPositive(xs: seq<int>, pos: nat, b: int, i: nat)
    requires i < |xs| && Bit(xs[i], pos) == b
    ensures CountBit(xs, pos, b) >= 1
  {
    if i > 0 {
      CountBitPositive(xs[1..], pos, b, i - 1);
    }
  }

  /** The value of `criteria`'s bit: the most common bit with ties going to 1, or the other one when `inv`. */
  function CriteriaBit(xs: seq<int>, pos: nat, inv: bool): (v: int)
    ensures v == 0 || v == 1
    ensures !inv ==> (v == 1 <==> CountBit(xs, pos, 1) >= CountBit(xs, pos, 0))
    ensures inv ==> (v == 1 <==> CountBit(xs, pos, 1) < CountBit(xs, pos, 0))
  {
    CountBitSplit(xs, pos);
    var count0 := CountBit(xs, pos, 0);
    var count1 := |xs| - count0;
    var v := if count1 >= count0 then 1 else 0;
    if inv then 1 - v else v
  }

  /** `criteria`: the chosen bit shifted to position `pos`. */
  function Criteria(xs: seq<int>, pos: nat, inv: bool): (r: int)
    ensures r == 0 || r == Pow2(pos)
    ensures !inv ==> (r == Pow2(pos) <==> CountBit(xs, pos, 1) >= CountBit(xs, pos, 0))
    ensures inv ==> (r == Pow2(pos) <==> CountBit(xs, pos, 1) < CountBit(xs, pos, 0))
  {
    CriteriaBit(xs, pos, inv) * Pow2(pos)
  }

  /** The two criteria are complementary: together they are exactly `1 << pos`. */
  lemma CriteriaComplement(xs: seq<int>, pos: nat)
    ensures Criteria(xs, pos, false) + Criteria(xs, pos, true) == Pow2(pos)
  {
  }

  /** Bitwise OR of two non-negative integers. */
  function BitOr(a: nat, b: nat): nat
    decreases a + b
  {
    if a == 0 then b
    else if b == 0 then a
    else 2 * BitOr(a / 2, b / 2) + (if a % 2 == 1 || b % 2 == 1 then 1 else 0)
  }

  /** Bitwise XOR of two non-negative integers. */
  function BitXor(a: nat, b: nat): nat
    decreases a + b
  {
    if a == 0 then b
    else if b == 0 then a
    else 2 * BitXor(a / 2, b / 2) + (if a % 2 == b % 2 then 0 else 1)
  }

  /**
   * The fold of `part1`: visit positions k-1 down to 0, OR-ing each
   * position's criteria into the accumulator.
   */
  function RateFold(xs: seq<int>, k: nat, acc: nat, inv: bool): nat
  {
    if k == 0 then acc else RateFold(xs, k - 1, BitOr(acc, Criteria(xs, k - 1, inv)), inv)
  }

  /**
   * Gamma (`inv` false) or epsilon (`inv` true) over `n` bit positions: the
   * number whose bit p is the chosen bit at p.
   */
  function Rate(xs: seq<int>, n: nat, inv: bool): (r: nat)
    ensures r == BitsFrom(xs, 0, n, inv)
  {
    RateFoldValue(xs, n, 0, inv);
    assert Shifted(0, n) == 0;
    RateFold(xs, n, 0, inv)
  }

  /** The number whose bit p is the chosen bit at p, for p in [from, n). */
  function BitsFrom(xs: seq<int>, from: nat, n: nat, inv: bool): (r: nat)
    requires from <= n
    decreases n - from
  {
    if from == n then 0 else CriteriaBit(xs, from, inv) + 2 * BitsFrom(xs, from + 1, n, inv)
  }

  /** ORing `2^p` or nothing into a multiple of `2^(p+1)` adds it. */
  lemma {:induction false} OrIntoMultiple(q: nat, p: nat, b: nat)
    requires b == 0 || b == Pow2(p)
    ensures BitOr(Pow2(p + 1) * q, b) == Pow2(p + 1) * q + b
  {
    var a := Pow2(p + 1) * q;
    if a != 0 && b != 0 {
      if p == 0 {
        assert a == 2 * q;
        assert BitOr(a, b) == 2 * BitOr(q, 0) + 1;
      } else {
        assert a == 2 * (Pow2(p) * q) by {
          assert Pow2(p + 1) * q == 2 * Pow2(p) * q;
        }
        assert a / 2 == Pow2(p) * q && a % 2 == 0;
        assert b / 2 == Pow2(p - 1) && b % 2 == 0;
        OrIntoMultiple(q, p - 1, Pow2(p - 1));
      }
    }
  }

  /** The value of bit `e` placed at position `p`. */
  function Place(e: int, p: nat): int
  {
    if e == 0 then 0 else Pow2(p)
  }

  /** The top bit of the bits at [from, k) splits off. */
  lemma {:induction false} BitsFromTop(xs: seq<int>, from: nat, k: nat, inv: bool)
    requires from < k
    ensures BitsFrom(xs, from, k, inv) == BitsFrom(xs, from, k - 1, inv) + Place(CriteriaBit(xs, k - 1, inv), k - 1 - from)
    decreases k - from
  {
    if from < k - 1 {
      BitsFromTop(xs, from + 1, k, inv);
      assert Pow2(k - 1 - from) == 2 * Pow2(k - 1 - (from + 1));
    }
  }

  /** The chosen value at p is the chosen bit placed at p. */
  lemma CriteriaPlace(xs: seq<int>, p: nat, inv: bool)
    ensures var e := CriteriaBit(xs, p, inv);
      Criteria(xs, p, inv) == Place(e, p) == e * Pow2(p)
  {
  }

  /** The chosen bits at [0, k) are those at [0, k - 1) plus the chosen value at k - 1. */
  lemma BitsFromLast(xs: seq<int>, k: nat, inv: bool)
    requires k > 0
    ensures BitsFrom(xs, 0, k, inv) == BitsFrom(xs, 0, k - 1, inv) + Criteria(xs, k - 1, inv)
  {
    CriteriaPlace(xs, k - 1, inv);
    BitsFromTop(xs, 0, k, inv);
  }

  /** `q` shifted left by `k` bits. */
  function Shifted(q: nat, k: nat): nat
  {
    Pow2(k) * q
  }

  /** The OR-fold computes the number whose bits are the chosen bits, added onto the accumulator. */
  lemma {:induction false} RateFoldValue(xs: seq<int>, k: nat, q: nat, inv: bool)
    ensures RateFold(xs, k, Shifted(q, k), inv) == Shifted(q, k) + BitsFrom(xs, 0, k, inv)
  {
    if k > 0 {
      var e := CriteriaBit(xs, k - 1, inv);
      var c := Criteria(xs, k - 1, inv);
      var q' := 2 * q + e;
      assert Shifted(q', k - 1) == Shifted(q, k) + c by {
        CriteriaPlace(xs, k - 1, inv);
        FoldStep(k, q, e);
      }
      assert RateFold(xs, k, Shifted(q, k), inv) == RateFold(xs, k - 1, Shifted(q', k - 1), inv) by {
        CriteriaPlace(xs, k - 1, inv);
        FoldStep(k, q, e);
      }
      RateFoldValue(xs, k - 1, q', inv);
      BitsFromLast(xs, k, inv);
    }
  }

  /** One step of the fold on a multiple of `2^k`: ORing in bit e at k - 1 halves the scale and appends e. */
  lemma FoldStep(k: nat, q: nat, e: int)
    requires k > 0 && (e == 0 || e == 1)
    ensures BitOr(Shifted(q, k), Place(e, k - 1)) == Shifted(q, k) + Place(e, k - 1) == Shifted(2 * q + e, k - 1)
  {
    var half := Pow2(k - 1);
    assert Place(e, k - 1) == e * half;
    Regroup(half, q, e);
    OrIntoMultiple(q, k - 1, Place(e, k - 1));
  }

  lemma Regroup(half: nat, q: nat, e: int)
    ensures (2 * half) * q + e * half == half * (2 * q + e)
  {
  }

  /** Bit p of the number built from bits [from, n) is the chosen bit at from + p. */
  lemma {:induction false} BitsFromBit(xs: seq<int>, from: nat, n: nat, inv: bool, p: nat)
    requires from + p < n
    ensures Bit(BitsFrom(xs, from, n, inv), p) == CriteriaBit(xs, from + p, inv)
    decreases p
  {
    var e := CriteriaBit(xs, from, inv);
    var rest := BitsFrom(xs, from + 1, n, inv);
    var v := BitsFrom(xs, from, n, inv);
    assert v == e + 2 * rest;
    Halve(e, rest);
    if p > 0 {
      assert Bit(v, p) == Bit(rest, p - 1);
      BitsFromBit(xs, from + 1, n, inv, p - 1);
    }
  }

  /** Appending bit `e` below `rest` and shifting right recovers both. */
  lemma Halve(e: int, rest: int)
    requires e == 0 || e == 1
    ensures (e + 2 * rest) % 2 == e && (e + 2 * rest) / 2 == rest
  {
  }

  /** Gamma's bit p is the most common bit at p (ties to 1); epsilon's is the other one. */
  lemma RateBits(xs: seq<int>, n: nat, inv: bool, p: nat)
    requires p < n
    ensures Bit(Rate(xs, n, inv), p) == CriteriaBit(xs, p, inv)
  {
    BitsFromBit(xs, 0, n, inv, p);
  }

  lemma {:induction false} BitsFromComplement(xs: seq<int>, from: nat, n: nat)
    requires from <= n
    ensures BitsFrom(xs, from, n, false) + BitsFrom(xs, from, n, true) == Pow2(n - from) - 1
    decreases n - from
  {
    if from < n {
      BitsFromComplement(xs, from + 1, n);
      assert Pow2(n - from) == 2 * Pow2(n - (from + 1));
    }
  }

  /** Numbers summing to all ones in k bits share no bit, so their XOR is their sum. */
  lemma {:induction false} XorOfComplements(a: nat, b: nat, k: nat)
    requires a + b == Pow2(k) - 1
    ensures BitXor(a, b) == a + b
  {
    if k > 0 && a != 0 && b != 0 {
      assert Pow2(k) == 2 * Pow2(k - 1);
      assert a / 2 + b / 2 == Pow2(k - 1) - 1;
      XorOfComplements(a / 2, b / 2, k - 1);
    }
  }

  /** Gamma and epsilon lie in [0, 2^n) and are bitwise complements: their sum and XOR are 2^n - 1. */
  lemma GammaEpsilon(xs: seq<int>, n: nat)
    ensures Rate(xs, n, false) < Pow2(n) && Rate(xs, n, true) < Pow2(n)
    ensures Rate(xs, n, false) + Rate(xs, n, true) == Pow2(n) - 1
    ensures BitXor(Rate(xs, n, false), Rate(xs, n, true)) == Pow2(n) - 1
  {
    BitsFromComplement(xs, 0, n);
    XorOfComplements(Rate(xs, n, false), Rate(xs, n, true), n);
  }

  /** Gamma times epsilon, where epsilon is gamma's complement in n bits. */
  function PowerConsumption(xs: seq<int>, n: nat): (r: int)
    ensures r == Rate(xs, n, false) * (Pow2(n) - 1 - Rate(xs, n, false))
  {
    var gamma := Rate(xs, n, false);
    var epsilon := Rate(xs, n, true);
    GammaEpsilon(xs, n);
    assert epsilon == Pow2(n) - 1 - gamma;
    gamma * epsilon
  }

  /** An n-bit number whose every bit is the most common bit of the report at that position. */
  predicate IsGamma(xs: seq<int>, n: nat, gamma: nat)
  {
    gamma < Pow2(n) && forall p :: 0 <= p < n ==> Bit(gamma, p) == CriteriaBit(xs, p, false)
  }

  /**
   * `part1`: over the width n of the first line, gamma holds the most common
   * bit of the decodable report lines at every position, and the answer is
   * gamma times its n-bit complement epsilon.
   */
  function Part1(input: string): (r: int)
    ensures var (n, xs) := Parse(input);
      exists gamma: nat :: IsGamma(xs, n, gamma) && r == gamma * (Pow2(n) - 1 - gamma)
  {
    var (n, xs) := Parse(input);
    var gamma := Rate(xs, n, false);
    GammaEpsilon(xs, n);
    assert forall p :: 0 <= p < n ==> Bit(gamma, p) == CriteriaBit(xs, p, false) by {
      forall p | 0 <= p < n ensures Bit(gamma, p) == CriteriaBit(xs, p, false) {
        RateBits(xs, n, false, p);
      }
    }
    assert IsGamma(xs, n, gamma);
    PowerConsumption(xs, n)
  }

  /** The values whose bit `pos` is `b`, in their original order. */
  function Keep(xs: seq<int>, pos: nat, b: int): (r: seq<int>)
    ensures |r| == CountBit(xs, pos, b)
  {
    if xs == [] then []
    else (if Bit(xs[0], pos) == b then [xs[0]] else []) + Keep(xs[1..], pos, b)
  }

  /** Keep keeps exactly the values whose bit `pos` is `b`. */
  lemma {:induction false} KeepMembers(xs: seq<int>, pos: nat, b: int, x: int)
    ensures x in Keep(xs, pos, b) <==> x in xs && Bit(x, pos) == b
  {
    if xs != [] {
      KeepMembers(xs[1..], pos, b, x);
      assert xs == [xs[0]] + xs[1..];
    }
  }

  /** Keep works piecewise, so it preserves the order of what it keeps. */
  lemma {:induction false} KeepAppend(xs: seq<int>, ys: seq<int>, pos: nat, b: int)
    ensures Keep(xs + ys, pos, b) == Keep(xs, pos, b) + Keep(ys, pos, b)
  {
    if xs == [] {
      assert xs + ys == ys;
    } else {
      assert (xs + ys)[1..] == xs[1..] + ys;
      KeepAppend(xs[1..], ys, pos, b);
    }
  }

  /**
   * `step` of `part2`: a single survivor is kept as it is; otherwise keep the
   * values whose bit `pos` matches the criteria bit of the current list.
   */
  function Step(acc: seq<int>, pos: nat, inv: bool): (r: seq<int>)
    ensures |acc| == 1 ==> r == acc
    ensures |acc| != 1 ==> r == Keep(acc, pos, CriteriaBit(acc, pos, inv))
    ensures |acc| != 1 ==> forall x :: x in r <==> x in acc && Bit(x, pos) == CriteriaBit(acc, pos, inv)
    ensures |acc| >= 1 && !inv ==> |r| >= 1
  {
    if |acc| == 1 then acc
    else
      var v := CriteriaBit(acc, pos, inv);
      CountBitSplit(acc, pos);
      forall x ensures x in Keep(acc, pos, v) <==> x in acc && Bit(x, pos) == v {
        KeepMembers(acc, pos, v, x);
      }
      Keep(acc, pos, v)
  }

  /**
   * The CO2 step empties a non-empty list exactly when there are at least two
   * values and all of them agree at bit `pos`.
   */
  lemma Co2StepEmpties(acc: seq<int>, pos: nat)
    requires |acc| >= 1
    ensures Step(acc, pos, true) == [] <==>
      |acc| >= 2 && forall i, j :: 0 <= i < |acc| && 0 <= j < |acc| ==> Bit(acc[i], pos) == Bit(acc[j], pos)
  {
    CountBitSplit(acc, pos);
    if |acc| >= 2 {
      if forall i, j :: 0 <= i < |acc| && 0 <= j < |acc| ==> Bit(acc[i], pos) == Bit(acc[j], pos) {
        var b := Bit(acc[0], pos);
        CountBitAbsent(acc, pos, 1 - b);
      } else {
        var i, j :| 0 <= i < |acc| && 0 <= j < |acc| && Bit(acc[i], pos) != Bit(acc[j], pos);
        CountBitPositive(acc, pos, Bit(acc[i], pos), i);
        CountBitPositive(acc, pos, Bit(acc[j], pos), j);
      }
    }
  }

  /**
   * The filtering fold of `part2` over positions k-1 down to 0. Every
   * survivor is a value of the list, and the oxygen fold (`inv` false) of a
   * non-empty list always leaves a survivor.
   */
  function Rating(acc: seq<int>, k: nat, inv: bool): (r: seq<int>)
    ensures forall x :: x in r ==> x in acc
    ensures |acc| >= 1 && !inv ==> |r| >= 1
    decreases k
  {
    if k == 0 then acc else Rating(Step(acc, k - 1, inv), k - 1, inv)
  }

  /**
   * `part2`: the first oxygen survivor times the first CO2 survivor. Indexing
   * `co2[0]` panics when the CO2 filter empties the list, so both must survive.
   */
  function Part2(input: string): (r: int)
    requires Rating(Parse(input).1, Parse(input).0, false) != []
    requires Rating(Parse(input).1, Parse(input).0, true) != []
    ensures exists i, j ::
      (0 <= i < |Parse(input).1| && 0 <= j < |Parse(input).1| && r == Parse(input).1[i] * Parse(input).1[j])
  {
    var (n, xs) := Parse(input);
    var o2 := Rating(xs, n, false);
    var co2 := Rating(xs, n, true);
    assert o2[0] in o2 && co2[0] in co2;
    o2[0] * co2[0]
  }
}
