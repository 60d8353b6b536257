/** Day 6: lanternfish, counted by timer value in a nine-slot circular buffer. */
module Day6 {
  import opened Utils
  import opened Text

  function ParseAge(s: string): Option<nat>
  {
    ParseUnsigned(s, 10)
  }

  /** `parse`: the trimmed input split at commas; fragments that are not unsigned decimals are dropped. */
  function Parse(input: string): seq<nat>
  {
    Values(SplitOn(Trim(input), ","), ParseAge)
  }

  /** The decimal text of a timer. */
  function ShowAge(n: nat): string
  {
    ShowDigits(n, 10)
  }

  /** Decoding the text of a timer gives the timer back. */
  lemma ParseShowAge(n: nat)
    ensures ParseAge(ShowAge(n)) == Some(n)
  {
    var s := ShowAge(n);
    assert IsDigit(s[0], 10);
    DigitsRoundTrip(n, 10);
  }

  /** The text of a school of fish, timers separated by commas. */
  function AgesText(ages: seq<nat>): string
  {
    JoinShown(ages, ShowAge, ",")
  }

  /** Reading back written timers gives the timers, in order. */
  lemma ParseAgesText(ages: seq<nat>)
    ensures Parse(AgesText(ages)) == ages
  {
    forall n: nat ensures ParseAge(ShowAge(n)) == Some(n) && ',' !in ShowAge(n) {
      ParseShowAge(n);
    }
    TrimJoinShown(ages, ShowAge, ",");
    ValuesOfSeparated(ages, ShowAge, ParseAge, ',');
  }

  /** Every timer indexes the nine slots. */
  predicate ValidAges(ages: seq<nat>)
  {
    forall k :: 0 <= k < |ages| ==> ages[k] < 9
  }

  /** The number of fish whose timer is v. */
  function Count(ages: seq<nat>, v: nat): (c: nat)
    ensures c <= |ages|
  {
    if ages == [] then 0
    else Count(ages[..|ages| - 1], v) + (if ages[|ages| - 1] == v then 1 else 0)
  }

  /** Slot v holds the number of fish with timer v. */
  function Tally(ages: seq<nat>): (c: seq<nat>)
    ensures |c| == 9 && forall v :: 0 <= v < 9 ==> c[v] == Count(ages, v)
  {
    seq(9, v requires 0 <= v < 9 => Count(ages, v))
  }

  /** The population of nine slots (`counts.iter().sum()`). */
  function Total(c: seq<nat>): nat
    requires |c| == 9
  {
    c[0] + c[1] + c[2] + c[3] + c[4] + c[5] + c[6] + c[7] + c[8]
  }

  /** One day by timer value: every timer drops by one, timer 0 restarts at 6 and spawns a fish at 8. */
  function Step(c: seq<nat>): (r: seq<nat>)
    requires |c| == 9
    ensures |r| == 9
    ensures Total(r) == Total(c) + c[0]
  {
    [c[1], c[2], c[3], c[4], c[5], c[6], c[7] + c[0], c[8], c[0]]
  }

  /** The slots after `days` days; the population never shrinks over them. */
  function Simulate(c: seq<nat>, days: nat): (r: seq<nat>)
    requires |c| == 9
    ensures |r| == 9
    ensures Total(r) >= Total(c)
  {
    if days == 0 then c else Step(Simulate(c, days - 1))
  }

  /** The population never shrinks from one day to the next. */
  lemma PopulationGrows(c: seq<nat>, days: nat)
    requires |c| == 9
    ensures Total(Simulate(c, days)) <= Total(Simulate(c, days + 1))
  {
  }

  /** The slots count every fish exactly once. */
  lemma {:induction false} TallyTotal(ages: seq<nat>)
    requires ValidAges(ages)
    ensures Total(Tally(ages)) == |ages|
  {
    if ages != [] {
      var init := ages[..|ages| - 1];
      TallyTotal(init);
    }
  }

  /** One fish's timer after a day. */
  function Age(t: nat): nat
  {
    if t == 0 then 6 else t - 1
  }

  /** Every fish's timer after a day, in order. */
  function AgeAll(ts: seq<nat>): (r: seq<nat>)
    ensures |r| == |ts|
  {
    if ts == [] then [] else AgeAll(ts[..|ts| - 1]) + [Age(ts[|ts| - 1])]
  }

  /** n newborn fish. */
  function Newborns(n: nat): (r: seq<nat>)
    ensures |r| == n && forall k :: 0 <= k < n ==> r[k] == 8
  {
    seq(n, _ => 8)
  }

  /** The reference rule, one fish at a time: age every fish, then append a newborn for each fish that was at 0. */
  function FishStep(ts: seq<nat>): seq<nat>
  {
    AgeAll(ts) + Newborns(Count(ts, 0))
  }

  /** The school of fish after `days` days. */
  function FishSim(ts: seq<nat>, days: nat): seq<nat>
  {
    if days == 0 then ts else FishStep(FishSim(ts, days - 1))
  }

  lemma {:induction false} CountAppend(xs: seq<nat>, ys: seq<nat>, v: nat)
    ensures Count(xs + ys, v) == Count(xs, v) + Count(ys, v)
    decreases |ys|
  {
    if ys == [] {
      assert xs + ys == xs;
    } else {
      var init := ys[..|ys| - 1];
      assert (xs + ys)[..|xs + ys| - 1] == xs + init;
      CountAppend(xs, init, v);
    }
  }

  lemma {:induction false} CountNewborns(n: nat, v: nat)
    ensures Count(Newborns(n), v) == if v == 8 then n else 0
  {
    if n > 0 {
      assert Newborns(n)[..n - 1] == Newborns(n - 1);
      CountNewborns(n - 1, v);
    }
  }

  /** After aging, timer v holds the fish that were at v + 1, and timer 6 also those that were at 0. */
  lemma {:induction false} CountAgeAll(ts: seq<nat>, v: nat)
    requires ValidAges(ts)
    ensures Count(AgeAll(ts), v) ==
      if v == 6 then Count(ts, 7) + Count(ts, 0) else if v < 8 then Count(ts, v + 1) else 0
  {
    if ts != [] {
      var init := ts[..|ts| - 1];
      assert AgeAll(ts)[..|ts| - 1] == AgeAll(init);
      CountAgeAll(init, v);
    }
  }

  /** Counting by timer turns the per-fish rule into the per-slot rule. */
  lemma TallyFishStep(ts: seq<nat>)
    requires ValidAges(ts)
    ensures ValidAges(FishStep(ts))
    ensures Tally(FishStep(ts)) == Step(Tally(ts))
  {
    var next := FishStep(ts);
    forall k | 0 <= k < |ts| ensures AgeAll(ts)[k] < 9 {
      AgeAllAt(ts, k);
    }
    forall v | 0 <= v < 9 ensures Count(next, v) == Step(Tally(ts))[v] {
      CountAppend(AgeAll(ts), Newborns(Count(ts, 0)), v);
      CountAgeAll(ts, v);
      CountNewborns(Count(ts, 0), v);
    }
  }

  lemma {:induction false} AgeAllAt(ts: seq<nat>, k: nat)
    requires k < |ts|
    ensures AgeAll(ts)[k] == Age(ts[k])
  {
    if k < |ts| - 1 {
      AgeAllAt(ts[..|ts| - 1], k);
    }
  }

  /** The slot simulation counts the fish of the per-fish simulation. */
  lemma {:induction false} TallyFishSim(ts: seq<nat>, days: nat)
    requires ValidAges(ts)
    ensures ValidAges(FishSim(ts, days))
    ensures Tally(FishSim(ts, days)) == Simulate(Tally(ts), days)
  {
    if days > 0 {
      TallyFishSim(ts, days - 1);
      TallyFishStep(FishSim(ts, days - 1));
    }
  }

  /** The buffer slot that holds timer i after d rounds. */
  function Slot(d: nat, i: nat): (k: nat)
    ensures k < 9
  {
    (d + i) % 9
  }

  /** One round moves every timer one slot along; only timer 6 lands on the slot that was just added to. */
  lemma Rotate(d: nat, i: nat)
    requires i < 9
    ensures i < 8 ==> Slot(d + 1, i) == Slot(d, i + 1)
    ensures i == 8 ==> Slot(d + 1, i) == Slot(d, 0)
    ensures i == 6 ==> Slot(d + 1, i) == Slot(d, 7)
    ensures i != 6 ==> Slot(d + 1, i) != Slot(d, 7)
  {
    var q := d / 9;
    var r := d % 9;
    assert d == 9 * q + r;
    assert (d + 1 + i) % 9 == (r + 1 + i) % 9;
    assert (d + 7) % 9 == (r + 7) % 9;
    assert (d + i + 1) % 9 == (r + i + 1) % 9;
    assert d % 9 == r;
  }

  /** `for age in ages { counts[age] += 1 }`: slot v ends up holding the number of fish with timer v. */
  method TallyInto(counts: array<nat>, ages: seq<nat>)
    requires counts.Length == 9 && ValidAges(ages)
    requires forall v :: 0 <= v < 9 ==> counts[v] == 0
    modifies counts
    ensures counts[..] == Tally(ages)
  {
    var n := 0;
    while n < |ages|
      invariant 0 <= n <= |ages|
      invariant forall v :: 0 <= v < 9 ==> counts[v] == Count(ages[..n], v)
    {
      assert ages[..n + 1][..n] == ages[..n];
      counts[ages[n]] := counts[ages[n]] + 1;
      n := n + 1;
    }
    assert ages[..n] == ages;
  }

  /**
   * `for day in 0..days { counts[(day + 7) % 9] += counts[day % 9] }`: after d
   * rounds, slot `(d + i) % 9` holds what slot i of the timer table holds after d days.
   */
  method Advance(counts: array<nat>, days: nat)
    requires counts.Length == 9
    modifies counts
    ensures forall i :: 0 <= i < 9 ==> counts[Slot(days, i)] == Simulate(old(counts[..]), days)[i]
  {
    ghost var start := counts[..];
    var day := 0;
    while day < days
      invariant 0 <= day <= days
      invariant forall i :: 0 <= i < 9 ==> counts[Slot(day, i)] == Simulate(start, day)[i]
    {
      ghost var prev := counts[..];
      Round(counts, day);
      RoundIsStep(prev, counts[..], Simulate(start, day), day);
      day := day + 1;
    }
  }

  /** The loop body: the fish whose timers hit 0 on `day` add their count to the slot of timer 6. */
  method Round(counts: array<nat>, day: nat)
    requires counts.Length == 9
    modifies counts
    ensures forall k :: 0 <= k < 9 ==>
      counts[k] == if k == Slot(day, 7) then old(counts[k]) + old(counts[Slot(day, 0)]) else old(counts[k])
  {
    counts[(day + 7) % 9] := counts[(day + 7) % 9] + counts[day % 9];
  }

  /** One round of the buffer update is one day of the timer table, read through the rotation. */
  lemma RoundIsStep(prev: seq<nat>, next: seq<nat>, c: seq<nat>, d: nat)
    requires |prev| == 9 && |c| == 9
    requires forall i :: 0 <= i < 9 ==> prev[Slot(d, i)] == c[i]
    requires |next| == 9
    requires forall k :: 0 <= k < 9 ==> next[k] == if k == Slot(d, 7) then prev[k] + prev[Slot(d, 0)] else prev[k]
    ensures forall i :: 0 <= i < 9 ==> next[Slot(d + 1, i)] == Step(c)[i]
  {
    forall i | 0 <= i < 9 ensures next[Slot(d + 1, i)] == Step(c)[i] {
      Rotate(d, i);
    }
  }

  /** `solve`: tally the timers, advance the circular buffer `days` rounds, and sum the slots. */
  method Solve(ages: seq<nat>, days: nat) returns (r: nat)
    requires ValidAges(ages)
    ensures r == Total(Simulate(Tally(ages), days))
    ensures r == |FishSim(ages, days)|
  {
    var counts := new nat[9](_ => 0);
    TallyInto(counts, ages);
    Advance(counts, days);
    r := counts[0] + counts[1] + counts[2] + counts[3] + counts[4] + counts[5] + counts[6] + counts[7] + counts[8];
    SlotsTotal(counts[..], Simulate(Tally(ages), days), days);
    TallyFishSim(ages, days);
    TallyTotal(FishSim(ages, days));
  }

  /** Rotating the nine slots does not change their total. */
  lemma SlotsTotal(slots: seq<nat>, c: seq<nat>, d: nat)
    requires |slots| == 9 && |c| == 9
    requires forall i :: 0 <= i < 9 ==> slots[Slot(d, i)] == c[i]
    ensures slots[0] + slots[1] + slots[2] + slots[3] + slots[4] + slots[5] + slots[6] + slots[7] + slots[8] == Total(c)
  {
    var r := d % 9;
    forall i | 0 <= i < 9 ensures slots[Wrap(r + i)] == c[i] {
      assert Slot(d, i) == Wrap(r + i) by {
        assert d + i == 9 * (d / 9) + r + i;
      }
    }
    RotatedTotal(slots, c, r);
  }

  lemma RotatedTotal(slots: seq<nat>, c: seq<nat>, r: nat)
    requires |slots| == 9 && |c| == 9 && r < 9
    requires forall i :: 0 <= i < 9 ==> slots[Wrap(r + i)] == c[i]
    ensures slots[0] + slots[1] + slots[2] + slots[3] + slots[4] + slots[5] + slots[6] + slots[7] + slots[8] == Total(c)
  {
    assert slots[Wrap(r + 0)] == c[0] && slots[Wrap(r + 1)] == c[1] && slots[Wrap(r + 2)] == c[2];
    assert slots[Wrap(r + 3)] == c[3] && slots[Wrap(r + 4)] == c[4] && slots[Wrap(r + 5)] == c[5];
    assert slots[Wrap(r + 6)] == c[6] && slots[Wrap(r + 7)] == c[7] && slots[Wrap(r + 8)] == c[8];
  }

  /** A slot index in [0, 18) brought back into [0, 9). */
  function Wrap(k: nat): nat
  {
    if k < 9 then k else k - 9
  }

  /** `part1`: the population after 80 days. */
  method Part1(input: string) returns (r: nat)
    requires ValidAges(Parse(input))
    ensures r == Total(Simulate(Tally(Parse(input)), 80))
  {
    r := Solve(Parse(input), 80);
  }

  /** `part2`: the population after 256 days. */
  method Part2(input: string) returns (r: nat)
    requires ValidAges(Parse(input))
    ensures r == Total(Simulate(Tally(Parse(input)), 256))
  {
    r := Solve(Parse(input), 256);
  }

  /** The sample school of five fish. */
  function SampleAges(): seq<nat>
  {
    [3, 4, 3, 1, 2]
  }

  lemma SampleTally()
    ensures Tally(SampleAges()) == [0, 1, 1, 2, 1, 0, 0, 0, 0]
  {
    var s := SampleAges();
    assert s[..4] == [3, 4, 3, 1] && s[..4][..3] == [3, 4, 3] && s[..4][..3][..2] == [3, 4] && s[..4][..3][..2][..1] == [3];
    forall v | 0 <= v < 9 ensures Count(s, v) == [0, 1, 1, 2, 1, 0, 0, 0, 0][v] {
      assert Count([3], v) == if v == 3 then 1 else 0;
      assert Count([3, 4], v) == Count([3], v) + if v == 4 then 1 else 0;
      assert Count([3, 4, 3], v) == Count([3, 4], v) + if v == 3 then 1 else 0;
      assert Count([3, 4, 3, 1], v) == Count([3, 4, 3], v) + if v == 1 then 1 else 0;
    }
  }

  lemma SampleDays8()
    ensures Simulate([0, 1, 1, 2, 1, 0, 0, 0, 0], 8) == [1, 1, 3, 2, 2, 1, 0, 0, 0]
  {
    assert Simulate([0, 1, 1, 2, 1, 0, 0, 0, 0], 1) == Step(Simulate([0, 1, 1, 2, 1, 0, 0, 0, 0], 0));
    assert Simulate([0, 1, 1, 2, 1, 0, 0, 0, 0], 2) == Step(Simulate([0, 1, 1, 2, 1, 0, 0, 0, 0], 1));
    assert Simulate([0, 1, 1, 2, 1, 0, 0, 0, 0], 3) == Step(Simulate([0, 1, 1, 2, 1, 0, 0, 0, 0], 2));
    assert Simulate([0, 1, 1, 2, 1, 0, 0, 0, 0], 4) == Step(Simulate([0, 1, 1, 2, 1, 0, 0, 0, 0], 3));
    assert Simulate([0, 1, 1, 2, 1, 0, 0, 0, 0], 5) == Step(Simulate([0, 1, 1, 2, 1, 0, 0, 0, 0], 4));
    assert Simulate([0, 1, 1, 2, 1, 0, 0, 0, 0], 6) == Step(Simulate([0, 1, 1, 2, 1, 0, 0, 0, 0], 5));
    assert Simulate([0, 1, 1, 2, 1, 0, 0, 0, 0], 7) == Step(Simulate([0, 1, 1, 2, 1, 0, 0, 0, 0], 6));
    assert Simulate([0, 1, 1, 2, 1, 0, 0, 0, 0], 8) == Step(Simulate([0, 1, 1, 2, 1, 0, 0, 0, 0], 7));
  }

  lemma SampleDays16()
    ensures Simulate([0, 1, 1, 2, 1, 0, 0, 0, 0], 16) == [1, 4, 3, 5, 3, 2, 2, 0, 1]
  {
    SampleDays8();
    assert Simulate([0, 1, 1, 2, 1, 0, 0, 0, 0], 9) == Step(Simulate([0, 1, 1, 2, 1, 0, 0, 0, 0], 8));
    assert Simulate([0, 1, 1, 2, 1, 0, 0, 0, 0], 10) == Step(Simulate([0, 1, 1, 2, 1, 0, 0, 0, 0], 9));
    assert Simulate([0, 1, 1, 2, 1, 0, 0, 0, 0], 11) == Step(Simulate([0, 1, 1, 2, 1, 0, 0, 0, 0], 10));
    assert Simulate([0, 1, 1, 2, 1, 0, 0, 0, 0], 12) == Step(Simulate([0, 1, 1, 2, 1, 0, 0, 0, 0], 11));
    assert Simulate([0, 1, 1, 2, 1, 0, 0, 0, 0], 13) == Step(Simulate([0, 1, 1, 2, 1, 0, 0, 0, 0], 12));
    assert Simulate([0, 1, 1, 2, 1, 0, 0, 0, 0], 14) == Step(Simulate([0, 1, 1, 2, 1, 0, 0, 0, 0], 13));
    assert Simulate([0, 1, 1, 2, 1, 0, 0, 0, 0], 15) == Step(Simulate([0, 1, 1, 2, 1, 0, 0, 0, 0], 14));
    assert Simulate([0, 1, 1, 2, 1, 0, 0, 0, 0], 16) == Step(Simulate([0, 1, 1, 2, 1, 0, 0, 0, 0], 15));
  }

  lemma SampleDays24()
    ensures Simulate([0, 1, 1, 2, 1, 0, 0, 0, 0], 24) == [5, 4, 9, 6, 7, 5, 3, 2, 1]
  {
    SampleDays16();
    assert Simulate([0, 1, 1, 2, 1, 0, 0, 0, 0], 17) == Step(Simulate([0, 1, 1, 2, 1, 0, 0, 0, 0], 16));
    assert Simulate([0, 1, 1, 2, 1, 0, 0, 0, 0], 18) == Step(Simulate([0, 1, 1, 2, 1, 0, 0, 0, 0], 17));
    assert Simulate([0, 1, 1, 2, 1, 0, 0, 0, 0], 19) == Step(Simulate([0, 1, 1, 2, 1, 0, 0, 0, 0], 18));
    assert Simulate([0, 1, 1, 2, 1, 0, 0, 0, 0], 20) == Step(Simulate([0, 1, 1, 2, 1, 0, 0, 0, 0], 19));
    assert Simulate([0, 1, 1, 2, 1, 0, 0, 0, 0], 21) == Step(Simulate([0, 1, 1, 2, 1, 0, 0, 0, 0], 20));
    assert Simulate([0, 1, 1, 2, 1, 0, 0, 0, 0], 22) == Step(Simulate([0, 1, 1, 2, 1, 0, 0, 0, 0], 21));
    assert Simulate([0, 1, 1, 2, 1, 0, 0, 0, 0], 23) == Step(Simulate([0, 1, 1, 2, 1, 0, 0, 0, 0], 22));
    assert Simulate([0, 1, 1, 2, 1, 0, 0, 0, 0], 24) == Step(Simulate([0, 1, 1, 2, 1, 0, 0, 0, 0], 23));
  }

  lemma SampleDays32()
    ensures Simulate([0, 1, 1, 2, 1, 0, 0, 0, 0], 32) == [5, 14, 10, 16, 11, 10, 12, 3, 7]
  {
    SampleDays24();
    assert Simulate([0, 1, 1, 2, 1, 0, 0, 0, 0], 25) == Step(Simulate([0, 1, 1, 2, 1, 0, 0, 0, 0], 24));
    assert Simulate([0, 1, 1, 2, 1, 0, 0, 0, 0], 26) == Step(Simulate([0, 1, 1, 2, 1, 0, 0, 0, 0], 25));
    assert Simulate([0, 1, 1, 2, 1, 0, 0, 0, 0], 27) == Step(Simulate([0, 1, 1, 2, 1, 0, 0, 0, 0], 26));
    assert Simulate([0, 1, 1, 2, 1, 0, 0, 0, 0], 28) == Step(Simulate([0, 1, 1, 2, 1, 0, 0, 0, 0], 27));
    assert Simulate([0, 1, 1, 2, 1, 0, 0, 0, 0], 29) == Step(Simulate([0, 1, 1, 2, 1, 0, 0, 0, 0], 28));
    assert Simulate([0, 1, 1, 2, 1, 0, 0, 0, 0], 30) == Step(Simulate([0, 1, 1, 2, 1, 0, 0, 0, 0], 29));
    assert Simulate([0, 1, 1, 2, 1, 0, 0, 0, 0], 31) == Step(Simulate([0, 1, 1, 2, 1, 0, 0, 0, 0], 30));
    assert Simulate([0, 1, 1, 2, 1, 0, 0, 0, 0], 32) == Step(Simulate([0, 1, 1, 2, 1, 0, 0, 0, 0], 31));
  }

  lemma SampleDays40()
    ensures Simulate([0, 1, 1, 2, 1, 0, 0, 0, 0], 40) == [21, 15, 30, 21, 26, 23, 18, 12, 8]
  {
    SampleDays32();
    assert Simulate([0, 1, 1, 2, 1, 0, 0, 0, 0], 33) == Step(Simulate([0, 1, 1, 2, 1, 0, 0, 0, 0], 32));
    assert Simulate([0, 1, 1, 2, 1, 0, 0, 0, 0], 34) == Step(Simulate([0, 1, 1, 2, 1, 0, 0, 0, 0], 33));
    assert Simulate([0, 1, 1, 2, 1, 0, 0, 0, 0], 35) == Step(Simulate([0, 1, 1, 2, 1, 0, 0, 0, 0], 34));
    assert Simulate([0, 1, 1, 2, 1, 0, 0, 0, 0], 36) == Step(Simulate([0, 1, 1, 2, 1, 0, 0, 0, 0], 35));
    assert Simulate([0, 1, 1, 2, 1, 0, 0, 0, 0], 37) == Step(Simulate([0, 1, 1, 2, 1, 0, 0, 0, 0], 36));
    assert Simulate([0, 1, 1, 2, 1, 0, 0, 0, 0], 38) == Step(Simulate([0, 1, 1, 2, 1, 0, 0, 0, 0], 37));
    assert Simulate([0, 1, 1, 2, 1, 0, 0, 0, 0], 39) == Step(Simulate([0, 1, 1, 2, 1, 0, 0, 0, 0], 38));
    assert Simulate([0, 1, 1, 2, 1, 0, 0, 0, 0], 40) == Step(Simulate([0, 1, 1, 2, 1, 0, 0, 0, 0], 39));
  }

  lemma SampleDays48()
    ensures Simulate([0, 1, 1, 2, 1, 0, 0, 0, 0], 48) == [23, 51, 36, 56, 44, 44, 56, 18, 33]
  {
    SampleDays40();
    assert Simulate([0, 1, 1, 2, 1, 0, 0, 0, 0], 41) == Step(Simulate([0, 1, 1, 2, 1, 0, 0, 0, 0], 40));
    assert Simulate([0, 1, 1, 2, 1, 0, 0, 0, 0], 42) == Step(Simulate([0, 1, 1, 2, 1, 0, 0, 0, 0], 41));
    assert Simulate([0, 1, 1, 2, 1, 0, 0, 0, 0], 43) == Step(Simulate([0, 1, 1, 2, 1, 0, 0, 0, 0], 42));
    assert Simulate([0, 1, 1, 2, 1, 0, 0, 0, 0], 44) == Step(Simulate([0, 1, 1, 2, 1, 0, 0, 0, 0], 43));
    assert Simulate([0, 1, 1, 2, 1, 0, 0, 0, 0], 45) == Step(Simulate([0, 1, 1, 2, 1, 0, 0, 0, 0], 44));
    assert Simulate([0, 1, 1, 2, 1, 0, 0, 0, 0], 46) == Step(Simulate([0, 1, 1, 2, 1, 0, 0, 0, 0], 45));
    assert Simulate([0, 1, 1, 2, 1, 0, 0, 0, 0], 47) == Step(Simulate([0, 1, 1, 2, 1, 0, 0, 0, 0], 46));
    assert Simulate([0, 1, 1, 2, 1, 0, 0, 0, 0], 48) == Step(Simulate([0, 1, 1, 2, 1, 0, 0, 0, 0], 47));
  }

  lemma SampleDays56()
    ensures Simulate([0, 1, 1, 2, 1, 0, 0, 0, 0], 56) == [84, 59, 107, 80, 100, 100, 85, 56, 41]
  {
    SampleDays48();
    assert Simulate([0, 1, 1, 2, 1, 0, 0, 0, 0], 49) == Step(Simulate([0, 1, 1, 2, 1, 0, 0, 0, 0], 48));
    assert Simulate([0, 1, 1, 2, 1, 0, 0, 0, 0], 50) == Step(Simulate([0, 1, 1, 2, 1, 0, 0, 0, 0], 49));
    assert Simulate([0, 1, 1, 2, 1, 0, 0, 0, 0], 51) == Step(Simulate([0, 1, 1, 2, 1, 0, 0, 0, 0], 50));
    assert Simulate([0, 1, 1, 2, 1, 0, 0, 0, 0], 52) == Step(Simulate([0, 1, 1, 2, 1, 0, 0, 0, 0], 51));
    assert Simulate([0, 1, 1, 2, 1, 0, 0, 0, 0], 53) == Step(Simulate([0, 1, 1, 2, 1, 0, 0, 0, 0], 52));
    assert Simulate([0, 1, 1, 2, 1, 0, 0, 0, 0], 54) == Step(Simulate([0, 1, 1, 2, 1, 0, 0, 0, 0], 53));
    assert Simulate([0, 1, 1, 2, 1, 0, 0, 0, 0], 55) == Step(Simulate([0, 1, 1, 2, 1, 0, 0, 0, 0], 54));
    assert Simulate([0, 1, 1, 2, 1, 0, 0, 0, 0], 56) == Step(Simulate([0, 1, 1, 2, 1, 0, 0, 0, 0], 55));
  }

  lemma SampleDays64()
    ensures Simulate([0, 1, 1, 2, 1, 0, 0, 0, 0], 64) == [100, 191, 139, 207, 180, 185, 240, 85, 140]
  {
    SampleDays56();
    assert Simulate([0, 1, 1, 2, 1, 0, 0, 0, 0], 57) == Step(Simulate([0, 1, 1, 2, 1, 0, 0, 0, 0], 56));
    assert Simulate([0, 1, 1, 2, 1, 0, 0, 0, 0], 58) == Step(Simulate([0, 1, 1, 2, 1, 0, 0, 0, 0], 57));
    assert Simulate([0, 1, 1, 2, 1, 0, 0, 0, 0], 59) == Step(Simulate([0, 1, 1, 2, 1, 0, 0, 0, 0], 58));
    assert Simulate([0, 1, 1, 2, 1, 0, 0, 0, 0], 60) == Step(Simulate([0, 1, 1, 2, 1, 0, 0, 0, 0], 59));
    assert Simulate([0, 1, 1, 2, 1, 0, 0, 0, 0], 61) == Step(Simulate([0, 1, 1, 2, 1, 0, 0, 0, 0], 60));
    assert Simulate([0, 1, 1, 2, 1, 0, 0, 0, 0], 62) == Step(Simulate([0, 1, 1, 2, 1, 0, 0, 0, 0], 61));
    assert Simulate([0, 1, 1, 2, 1, 0, 0, 0, 0], 63) == Step(Simulate([0, 1, 1, 2, 1, 0, 0, 0, 0], 62));
    assert Simulate([0, 1, 1, 2, 1, 0, 0, 0, 0], 64) == Step(Simulate([0, 1, 1, 2, 1, 0, 0, 0, 0], 63));
  }

  lemma SampleDays72()
    ensures Simulate([0, 1, 1, 2, 1, 0, 0, 0, 0], 72) == [331, 239, 398, 319, 392, 420, 370, 240, 185]
  {
    SampleDays64();
    assert Simulate([0, 1, 1, 2, 1, 0, 0, 0, 0], 65) == Step(Simulate([0, 1, 1, 2, 1, 0, 0, 0, 0], 64));
    assert Simulate([0, 1, 1, 2, 1, 0, 0, 0, 0], 66) == Step(Simulate([0, 1, 1, 2, 1, 0, 0, 0, 0], 65));
    assert Simulate([0, 1, 1, 2, 1, 0, 0, 0, 0], 67) == Step(Simulate([0, 1, 1, 2, 1, 0, 0, 0, 0], 66));
    assert Simulate([0, 1, 1, 2, 1, 0, 0, 0, 0], 68) == Step(Simulate([0, 1, 1, 2, 1, 0, 0, 0, 0], 67));
    assert Simulate([0, 1, 1, 2, 1, 0, 0, 0, 0], 69) == Step(Simulate([0, 1, 1, 2, 1, 0, 0, 0, 0], 68));
    assert Simulate([0, 1, 1, 2, 1, 0, 0, 0, 0], 70) == Step(Simulate([0, 1, 1, 2, 1, 0, 0, 0, 0], 69));
    assert Simulate([0, 1, 1, 2, 1, 0, 0, 0, 0], 71) == Step(Simulate([0, 1, 1, 2, 1, 0, 0, 0, 0], 70));
    assert Simulate([0, 1, 1, 2, 1, 0, 0, 0, 0], 72) == Step(Simulate([0, 1, 1, 2, 1, 0, 0, 0, 0], 71));
  }

  lemma SampleDays80()
    ensures Simulate([0, 1, 1, 2, 1, 0, 0, 0, 0], 80) == [424, 729, 558, 790, 739, 762, 991, 370, 571]
  {
    SampleDays72();
    assert Simulate([0, 1, 1, 2, 1, 0, 0, 0, 0], 73) == Step(Simulate([0, 1, 1, 2, 1, 0, 0, 0, 0], 72));
    assert Simulate([0, 1, 1, 2, 1, 0, 0, 0, 0], 74) == Step(Simulate([0, 1, 1, 2, 1, 0, 0, 0, 0], 73));
    assert Simulate([0, 1, 1, 2, 1, 0, 0, 0, 0], 75) == Step(Simulate([0, 1, 1, 2, 1, 0, 0, 0, 0], 74));
    assert Simulate([0, 1, 1, 2, 1, 0, 0, 0, 0], 76) == Step(Simulate([0, 1, 1, 2, 1, 0, 0, 0, 0], 75));
    assert Simulate([0, 1, 1, 2, 1, 0, 0, 0, 0], 77) == Step(Simulate([0, 1, 1, 2, 1, 0, 0, 0, 0], 76));
    assert Simulate([0, 1, 1, 2, 1, 0, 0, 0, 0], 78) == Step(Simulate([0, 1, 1, 2, 1, 0, 0, 0, 0], 77));
    assert Simulate([0, 1, 1, 2, 1, 0, 0, 0, 0], 79) == Step(Simulate([0, 1, 1, 2, 1, 0, 0, 0, 0], 78));
    assert Simulate([0, 1, 1, 2, 1, 0, 0, 0, 0], 80) == Step(Simulate([0, 1, 1, 2, 1, 0, 0, 0, 0], 79));
  }

  lemma SampleDays88()
    ensures Simulate([0, 1, 1, 2, 1, 0, 0, 0, 0], 88) == [1300, 982, 1519, 1297, 1552, 1730, 1556, 991, 794]
  {
    SampleDays80();
    assert Simulate([0, 1, 1, 2, 1, 0, 0, 0, 0], 81) == Step(Simulate([0, 1, 1, 2, 1, 0, 0, 0, 0], 80));
    assert Simulate([0, 1, 1, 2, 1, 0, 0, 0, 0], 82) == Step(Simulate([0, 1, 1, 2, 1, 0, 0, 0, 0], 81));
    assert Simulate([0, 1, 1, 2, 1, 0, 0, 0, 0], 83) == Step(Simulate([0, 1, 1, 2, 1, 0, 0, 0, 0], 82));
    assert Simulate([0, 1, 1, 2, 1, 0, 0, 0, 0], 84) == Step(Simulate([0, 1, 1, 2, 1, 0, 0, 0, 0], 83));
    assert Simulate([0, 1, 1, 2, 1, 0, 0, 0, 0], 85) == Step(Simulate([0, 1, 1, 2, 1, 0, 0, 0, 0], 84));
    assert Simulate([0, 1, 1, 2, 1, 0, 0, 0, 0], 86) == Step(Simulate([0, 1, 1, 2, 1, 0, 0, 0, 0], 85));
    assert Simulate([0, 1, 1, 2, 1, 0, 0, 0, 0], 87) == Step(Simulate([0, 1, 1, 2, 1, 0, 0, 0, 0], 86));
    assert Simulate([0, 1, 1, 2, 1, 0, 0, 0, 0], 88) == Step(Simulate([0, 1, 1, 2, 1, 0, 0, 0, 0], 87));
  }

  lemma SampleDays96()
    ensures Simulate([0, 1, 1, 2, 1, 0, 0, 0, 0], 96) == [1776, 2819, 2279, 3071, 3027, 3108, 4021, 1556, 2291]
  {
    SampleDays88();
    assert Simulate([0, 1, 1, 2, 1, 0, 0, 0, 0], 89) == Step(Simulate([0, 1, 1, 2, 1, 0, 0, 0, 0], 88));
    assert Simulate([0, 1, 1, 2, 1, 0, 0, 0, 0], 90) == Step(Simulate([0, 1, 1, 2, 1, 0, 0, 0, 0], 89));
    assert Simulate([0, 1, 1, 2, 1, 0, 0, 0, 0], 91) == Step(Simulate([0, 1, 1, 2, 1, 0, 0, 0, 0], 90));
    assert Simulate([0, 1, 1, 2, 1, 0, 0, 0, 0], 92) == Step(Simulate([0, 1, 1, 2, 1, 0, 0, 0, 0], 91));
    assert Simulate([0, 1, 1, 2, 1, 0, 0, 0, 0], 93) == Step(Simulate([0, 1, 1, 2, 1, 0, 0, 0, 0], 92));
    assert Simulate([0, 1, 1, 2, 1, 0, 0, 0, 0], 94) == Step(Simulate([0, 1, 1, 2, 1, 0, 0, 0, 0], 93));
    assert Simulate([0, 1, 1, 2, 1, 0, 0, 0, 0], 95) == Step(Simulate([0, 1, 1, 2, 1, 0, 0, 0, 0], 94));
    assert Simulate([0, 1, 1, 2, 1, 0, 0, 0, 0], 96) == Step(Simulate([0, 1, 1, 2, 1, 0, 0, 0, 0], 95));
  }

  lemma SampleDays104()
    ensures Simulate([0, 1, 1, 2, 1, 0, 0, 0, 0], 104) == [5110, 4055, 5890, 5306, 6179, 7048, 6440, 4021, 3332]
  {
    SampleDays96();
    assert Simulate([0, 1, 1, 2, 1, 0, 0, 0, 0], 97) == Step(Simulate([0, 1, 1, 2, 1, 0, 0, 0, 0], 96));
    assert Simulate([0, 1, 1, 2, 1, 0, 0, 0, 0], 98) == Step(Simulate([0, 1, 1, 2, 1, 0, 0, 0, 0], 97));
    assert Simulate([0, 1, 1, 2, 1, 0, 0, 0, 0], 99) == Step(Simulate([0, 1, 1, 2, 1, 0, 0, 0, 0], 98));
    assert Simulate([0, 1, 1, 2, 1, 0, 0, 0, 0], 100) == Step(Simulate([0, 1, 1, 2, 1, 0, 0, 0, 0], 99));
    assert Simulate([0, 1, 1, 2, 1, 0, 0, 0, 0], 101) == Step(Simulate([0, 1, 1, 2, 1, 0, 0, 0, 0], 100));
    assert Simulate([0, 1, 1, 2, 1, 0, 0, 0, 0], 102) == Step(Simulate([0, 1, 1, 2, 1, 0, 0, 0, 0], 101));
    assert Simulate([0, 1, 1, 2, 1, 0, 0, 0, 0], 103) == Step(Simulate([0, 1, 1, 2, 1, 0, 0, 0, 0], 102));
    assert Simulate([0, 1, 1, 2, 1, 0, 0, 0, 0], 104) == Step(Simulate([0, 1, 1, 2, 1, 0, 0, 0, 0], 103));
  }

  lemma SampleDays112()
    ensures Simulate([0, 1, 1, 2, 1, 0, 0, 0, 0], 112) == [7387, 11000, 9361, 12069, 12354, 12619, 16179, 6440, 9131]
  {
    SampleDays104();
    assert Simulate([0, 1, 1, 2, 1, 0, 0, 0, 0], 105) == Step(Simulate([0, 1, 1, 2, 1, 0, 0, 0, 0], 104));
    assert Simulate([0, 1, 1, 2, 1, 0, 0, 0, 0], 106) == Step(Simulate([0, 1, 1, 2, 1, 0, 0, 0, 0], 105));
    assert Simulate([0, 1, 1, 2, 1, 0, 0, 0, 0], 107) == Step(Simulate([0, 1, 1, 2, 1, 0, 0, 0, 0], 106));
    assert Simulate([0, 1, 1, 2, 1, 0, 0, 0, 0], 108) == Step(Simulate([0, 1, 1, 2, 1, 0, 0, 0, 0], 107));
    assert Simulate([0, 1, 1, 2, 1, 0, 0, 0, 0], 109) == Step(Simulate([0, 1, 1, 2, 1, 0, 0, 0, 0], 108));
    assert Simulate([0, 1, 1, 2, 1, 0, 0, 0, 0], 110) == Step(Simulate([0, 1, 1, 2, 1, 0, 0, 0, 0], 109));
    assert Simulate([0, 1, 1, 2, 1, 0, 0, 0, 0], 111) == Step(Simulate([0, 1, 1, 2, 1, 0, 0, 0, 0], 110));
    assert Simulate([0, 1, 1, 2, 1, 0, 0, 0, 0], 112) == Step(Simulate([0, 1, 1, 2, 1, 0, 0, 0, 0], 111));
  }

  lemma SampleDays120()
    ensures Simulate([0, 1, 1, 2, 1, 0, 0, 0, 0], 120) == [20131, 16748, 23069, 21715, 24688, 28533, 26446, 16179, 13827]
  {
    SampleDays112();
    assert Simulate([0, 1, 1, 2, 1, 0, 0, 0, 0], 113) == Step(Simulate([0, 1, 1, 2, 1, 0, 0, 0, 0], 112));
    assert Simulate([0, 1, 1, 2, 1, 0, 0, 0, 0], 114) == Step(Simulate([0, 1, 1, 2, 1, 0, 0, 0, 0], 113));
    assert Simulate([0, 1, 1, 2, 1, 0, 0, 0, 0], 115) == Step(Simulate([0, 1, 1, 2, 1, 0, 0, 0, 0], 114));
    assert Simulate([0, 1, 1, 2, 1, 0, 0, 0, 0], 116) == Step(Simulate([0, 1, 1, 2, 1, 0, 0, 0, 0], 115));
    assert Simulate([0, 1, 1, 2, 1, 0, 0, 0, 0], 117) == Step(Simulate([0, 1, 1, 2, 1, 0, 0, 0, 0], 116));
    assert Simulate([0, 1, 1, 2, 1, 0, 0, 0, 0], 118) == Step(Simulate([0, 1, 1, 2, 1, 0, 0, 0, 0], 117));
    assert Simulate([0, 1, 1, 2, 1, 0, 0, 0, 0], 119) == Step(Simulate([0, 1, 1, 2, 1, 0, 0, 0, 0], 118));
    assert Simulate([0, 1, 1, 2, 1, 0, 0, 0, 0], 120) == Step(Simulate([0, 1, 1, 2, 1, 0, 0, 0, 0], 119));
  }

  lemma SampleDays128()
    ensures Simulate([0, 1, 1, 2, 1, 0, 0, 0, 0], 128) == [30575, 43200, 38463, 47757, 50248, 51134, 64843, 26446, 36310]
  {
    SampleDays120();
    assert Simulate([0, 1, 1, 2, 1, 0, 0, 0, 0], 121) == Step(Simulate([0, 1, 1, 2, 1, 0, 0, 0, 0], 120));
    assert Simulate([0, 1, 1, 2, 1, 0, 0, 0, 0], 122) == Step(Simulate([0, 1, 1, 2, 1, 0, 0, 0, 0], 121));
    assert Simulate([0, 1, 1, 2, 1, 0, 0, 0, 0], 123) == Step(Simulate([0, 1, 1, 2, 1, 0, 0, 0, 0], 122));
    assert Simulate([0, 1, 1, 2, 1, 0, 0, 0, 0], 124) == Step(Simulate([0, 1, 1, 2, 1, 0, 0, 0, 0], 123));
    assert Simulate([0, 1, 1, 2, 1, 0, 0, 0, 0], 125) == Step(Simulate([0, 1, 1, 2, 1, 0, 0, 0, 0], 124));
    assert Simulate([0, 1, 1, 2, 1, 0, 0, 0, 0], 126) == Step(Simulate([0, 1, 1, 2, 1, 0, 0, 0, 0], 125));
    assert Simulate([0, 1, 1, 2, 1, 0, 0, 0, 0], 127) == Step(Simulate([0, 1, 1, 2, 1, 0, 0, 0, 0], 126));
    assert Simulate([0, 1, 1, 2, 1, 0, 0, 0, 0], 128) == Step(Simulate([0, 1, 1, 2, 1, 0, 0, 0, 0], 127));
  }

  lemma SampleDays136()
    ensures Simulate([0, 1, 1, 2, 1, 0, 0, 0, 0], 136) == [79510, 69038, 90957, 88711, 98891, 115091, 108155, 64843, 57021]
  {
    SampleDays128();
    assert Simulate([0, 1, 1, 2, 1, 0, 0, 0, 0], 129) == Step(Simulate([0, 1, 1, 2, 1, 0, 0, 0, 0], 128));
    assert Simulate([0, 1, 1, 2, 1, 0, 0, 0, 0], 130) == Step(Simulate([0, 1, 1, 2, 1, 0, 0, 0, 0], 129));
    assert Simulate([0, 1, 1, 2, 1, 0, 0, 0, 0], 131) == Step(Simulate([0, 1, 1, 2, 1, 0, 0, 0, 0], 130));
    assert Simulate([0, 1, 1, 2, 1, 0, 0, 0, 0], 132) == Step(Simulate([0, 1, 1, 2, 1, 0, 0, 0, 0], 131));
    assert Simulate([0, 1, 1, 2, 1, 0, 0, 0, 0], 133) == Step(Simulate([0, 1, 1, 2, 1, 0, 0, 0, 0], 132));
    assert Simulate([0, 1, 1, 2, 1, 0, 0, 0, 0], 134) == Step(Simulate([0, 1, 1, 2, 1, 0, 0, 0, 0], 133));
    assert Simulate([0, 1, 1, 2, 1, 0, 0, 0, 0], 135) == Step(Simulate([0, 1, 1, 2, 1, 0, 0, 0, 0], 134));
    assert Simulate([0, 1, 1, 2, 1, 0, 0, 0, 0], 136) == Step(Simulate([0, 1, 1, 2, 1, 0, 0, 0, 0], 135));
  }

  lemma SampleDays144()
    ensures Simulate([0, 1, 1, 2, 1, 0, 0, 0, 0], 144) == [126059, 170467, 157749, 189848, 203802, 207046, 259444, 108155, 144353]
  {
    SampleDays136();
    assert Simulate([0, 1, 1, 2, 1, 0, 0, 0, 0], 137) == Step(Simulate([0, 1, 1, 2, 1, 0, 0, 0, 0], 136));
    assert Simulate([0, 1, 1, 2, 1, 0, 0, 0, 0], 138) == Step(Simulate([0, 1, 1, 2, 1, 0, 0, 0, 0], 137));
    assert Simulate([0, 1, 1, 2, 1, 0, 0, 0, 0], 139) == Step(Simulate([0, 1, 1, 2, 1, 0, 0, 0, 0], 138));
    assert Simulate([0, 1, 1, 2, 1, 0, 0, 0, 0], 140) == Step(Simulate([0, 1, 1, 2, 1, 0, 0, 0, 0], 139));
    assert Simulate([0, 1, 1, 2, 1, 0, 0, 0, 0], 141) == Step(Simulate([0, 1, 1, 2, 1, 0, 0, 0, 0], 140));
    assert Simulate([0, 1, 1, 2, 1, 0, 0, 0, 0], 142) == Step(Simulate([0, 1, 1, 2, 1, 0, 0, 0, 0], 141));
    assert Simulate([0, 1, 1, 2, 1, 0, 0, 0, 0], 143) == Step(Simulate([0, 1, 1, 2, 1, 0, 0, 0, 0], 142));
    assert Simulate([0, 1, 1, 2, 1, 0, 0, 0, 0], 144) == Step(Simulate([0, 1, 1, 2, 1, 0, 0, 0, 0], 143));
  }

  lemma SampleDays152()
    ensures Simulate([0, 1, 1, 2, 1, 0, 0, 0, 0], 152) == [314820, 283808, 360315, 361551, 396894, 463246, 441260, 259444, 234214]
  {
    SampleDays144();
    assert Simulate([0, 1, 1, 2, 1, 0, 0, 0, 0], 145) == Step(Simulate([0, 1, 1, 2, 1, 0, 0, 0, 0], 144));
    assert Simulate([0, 1, 1, 2, 1, 0, 0, 0, 0], 146) == Step(Simulate([0, 1, 1, 2, 1, 0, 0, 0, 0], 145));
    assert Simulate([0, 1, 1, 2, 1, 0, 0, 0, 0], 147) == Step(Simulate([0, 1, 1, 2, 1, 0, 0, 0, 0], 146));
    assert Simulate([0, 1, 1, 2, 1, 0, 0, 0, 0], 148) == Step(Simulate([0, 1, 1, 2, 1, 0, 0, 0, 0], 147));
    assert Simulate([0, 1, 1, 2, 1, 0, 0, 0, 0], 149) == Step(Simulate([0, 1, 1, 2, 1, 0, 0, 0, 0], 148));
    assert Simulate([0, 1, 1, 2, 1, 0, 0, 0, 0], 150) == Step(Simulate([0, 1, 1, 2, 1, 0, 0, 0, 0], 149));
    assert Simulate([0, 1, 1, 2, 1, 0, 0, 0, 0], 151) == Step(Simulate([0, 1, 1, 2, 1, 0, 0, 0, 0], 150));
    assert Simulate([0, 1, 1, 2, 1, 0, 0, 0, 0], 152) == Step(Simulate([0, 1, 1, 2, 1, 0, 0, 0, 0], 151));
  }

  lemma SampleDays160()
    ensures Simulate([0, 1, 1, 2, 1, 0, 0, 0, 0], 160) == [518022, 675135, 645359, 757209, 824797, 838154, 1037510, 441260, 574264]
  {
    SampleDays152();
    assert Simulate([0, 1, 1, 2, 1, 0, 0, 0, 0], 153) == Step(Simulate([0, 1, 1, 2, 1, 0, 0, 0, 0], 152));
    assert Simulate([0, 1, 1, 2, 1, 0, 0, 0, 0], 154) == Step(Simulate([0, 1, 1, 2, 1, 0, 0, 0, 0], 153));
    assert Simulate([0, 1, 1, 2, 1, 0, 0, 0, 0], 155) == Step(Simulate([0, 1, 1, 2, 1, 0, 0, 0, 0], 154));
    assert Simulate([0, 1, 1, 2, 1, 0, 0, 0, 0], 156) == Step(Simulate([0, 1, 1, 2, 1, 0, 0, 0, 0], 155));
    assert Simulate([0, 1, 1, 2, 1, 0, 0, 0, 0], 157) == Step(Simulate([0, 1, 1, 2, 1, 0, 0, 0, 0], 156));
    assert Simulate([0, 1, 1, 2, 1, 0, 0, 0, 0], 158) == Step(Simulate([0, 1, 1, 2, 1, 0, 0, 0, 0], 157));
    assert Simulate([0, 1, 1, 2, 1, 0, 0, 0, 0], 159) == Step(Simulate([0, 1, 1, 2, 1, 0, 0, 0, 0], 158));
    assert Simulate([0, 1, 1, 2, 1, 0, 0, 0, 0], 160) == Step(Simulate([0, 1, 1, 2, 1, 0, 0, 0, 0], 159));
  }

  lemma SampleDays168()
    ensures Simulate([0, 1, 1, 2, 1, 0, 0, 0, 0], 168) == [1249399, 1163381, 1432344, 1470156, 1595363, 1862307, 1797436, 1037510, 959282]
  {
    SampleDays160();
    assert Simulate([0, 1, 1, 2, 1, 0, 0, 0, 0], 161) == Step(Simulate([0, 1, 1, 2, 1, 0, 0, 0, 0], 160));
    assert Simulate([0, 1, 1, 2, 1, 0, 0, 0, 0], 162) == Step(Simulate([0, 1, 1, 2, 1, 0, 0, 0, 0], 161));
    assert Simulate([0, 1, 1, 2, 1, 0, 0, 0, 0], 163) == Step(Simulate([0, 1, 1, 2, 1, 0, 0, 0, 0], 162));
    assert Simulate([0, 1, 1, 2, 1, 0, 0, 0, 0], 164) == Step(Simulate([0, 1, 1, 2, 1, 0, 0, 0, 0], 163));
    assert Simulate([0, 1, 1, 2, 1, 0, 0, 0, 0], 165) == Step(Simulate([0, 1, 1, 2, 1, 0, 0, 0, 0], 164));
    assert Simulate([0, 1, 1, 2, 1, 0, 0, 0, 0], 166) == Step(Simulate([0, 1, 1, 2, 1, 0, 0, 0, 0], 165));
    assert Simulate([0, 1, 1, 2, 1, 0, 0, 0, 0], 167) == Step(Simulate([0, 1, 1, 2, 1, 0, 0, 0, 0], 166));
    assert Simulate([0, 1, 1, 2, 1, 0, 0, 0, 0], 168) == Step(Simulate([0, 1, 1, 2, 1, 0, 0, 0, 0], 167));
  }

  lemma SampleDays176()
    ensures Simulate([0, 1, 1, 2, 1, 0, 0, 0, 0], 176) == [2122663, 2681743, 2633537, 3027707, 3332463, 3392799, 4149216, 1797436, 2286909]
  {
    SampleDays168();
    assert Simulate([0, 1, 1, 2, 1, 0, 0, 0, 0], 169) == Step(Simulate([0, 1, 1, 2, 1, 0, 0, 0, 0], 168));
    assert Simulate([0, 1, 1, 2, 1, 0, 0, 0, 0], 170) == Step(Simulate([0, 1, 1, 2, 1, 0, 0, 0, 0], 169));
    assert Simulate([0, 1, 1, 2, 1, 0, 0, 0, 0], 171) == Step(Simulate([0, 1, 1, 2, 1, 0, 0, 0, 0], 170));
    assert Simulate([0, 1, 1, 2, 1, 0, 0, 0, 0], 172) == Step(Simulate([0, 1, 1, 2, 1, 0, 0, 0, 0], 171));
    assert Simulate([0, 1, 1, 2, 1, 0, 0, 0, 0], 173) == Step(Simulate([0, 1, 1, 2, 1, 0, 0, 0, 0], 172));
    assert Simulate([0, 1, 1, 2, 1, 0, 0, 0, 0], 174) == Step(Simulate([0, 1, 1, 2, 1, 0, 0, 0, 0], 173));
    assert Simulate([0, 1, 1, 2, 1, 0, 0, 0, 0], 175) == Step(Simulate([0, 1, 1, 2, 1, 0, 0, 0, 0], 174));
    assert Simulate([0, 1, 1, 2, 1, 0, 0, 0, 0], 176) == Step(Simulate([0, 1, 1, 2, 1, 0, 0, 0, 0], 175));
  }

  lemma SampleDays184()
    ensures Simulate([0, 1, 1, 2, 1, 0, 0, 0, 0], 184) == [4968652, 4756200, 5709450, 5966000, 6420506, 7481679, 7312898, 4149216, 3920099]
  {
    SampleDays176();
    assert Simulate([0, 1, 1, 2, 1, 0, 0, 0, 0], 177) == Step(Simulate([0, 1, 1, 2, 1, 0, 0, 0, 0], 176));
    assert Simulate([0, 1, 1, 2, 1, 0, 0, 0, 0], 178) == Step(Simulate([0, 1, 1, 2, 1, 0, 0, 0, 0], 177));
    assert Simulate([0, 1, 1, 2, 1, 0, 0, 0, 0], 179) == Step(Simulate([0, 1, 1, 2, 1, 0, 0, 0, 0], 178));
    assert Simulate([0, 1, 1, 2, 1, 0, 0, 0, 0], 180) == Step(Simulate([0, 1, 1, 2, 1, 0, 0, 0, 0], 179));
    assert Simulate([0, 1, 1, 2, 1, 0, 0, 0, 0], 181) == Step(Simulate([0, 1, 1, 2, 1, 0, 0, 0, 0], 180));
    assert Simulate([0, 1, 1, 2, 1, 0, 0, 0, 0], 182) == Step(Simulate([0, 1, 1, 2, 1, 0, 0, 0, 0], 181));
    assert Simulate([0, 1, 1, 2, 1, 0, 0, 0, 0], 183) == Step(Simulate([0, 1, 1, 2, 1, 0, 0, 0, 0], 182));
    assert Simulate([0, 1, 1, 2, 1, 0, 0, 0, 0], 184) == Step(Simulate([0, 1, 1, 2, 1, 0, 0, 0, 0], 183));
  }

  lemma SampleDays192()
    ensures Simulate([0, 1, 1, 2, 1, 0, 0, 0, 0], 192) == [8676299, 10678102, 10722200, 12129956, 13447679, 13733404, 16599547, 7312898, 9117868]
  {
    SampleDays184();
    assert Simulate([0, 1, 1, 2, 1, 0, 0, 0, 0], 185) == Step(Simulate([0, 1, 1, 2, 1, 0, 0, 0, 0], 184));
    assert Simulate([0, 1, 1, 2, 1, 0, 0, 0, 0], 186) == Step(Simulate([0, 1, 1, 2, 1, 0, 0, 0, 0], 185));
    assert Simulate([0, 1, 1, 2, 1, 0, 0, 0, 0], 187) == Step(Simulate([0, 1, 1, 2, 1, 0, 0, 0, 0], 186));
    assert Simulate([0, 1, 1, 2, 1, 0, 0, 0, 0], 188) == Step(Simulate([0, 1, 1, 2, 1, 0, 0, 0, 0], 187));
    assert Simulate([0, 1, 1, 2, 1, 0, 0, 0, 0], 189) == Step(Simulate([0, 1, 1, 2, 1, 0, 0, 0, 0], 188));
    assert Simulate([0, 1, 1, 2, 1, 0, 0, 0, 0], 190) == Step(Simulate([0, 1, 1, 2, 1, 0, 0, 0, 0], 189));
    assert Simulate([0, 1, 1, 2, 1, 0, 0, 0, 0], 191) == Step(Simulate([0, 1, 1, 2, 1, 0, 0, 0, 0], 190));
    assert Simulate([0, 1, 1, 2, 1, 0, 0, 0, 0], 192) == Step(Simulate([0, 1, 1, 2, 1, 0, 0, 0, 0], 191));
  }

  lemma SampleDays200()
    ensures Simulate([0, 1, 1, 2, 1, 0, 0, 0, 0], 200) == [19795970, 19398499, 22808058, 24169879, 25863360, 30047226, 29722601, 16599547, 15989197]
  {
    SampleDays192();
    assert Simulate([0, 1, 1, 2, 1, 0, 0, 0, 0], 193) == Step(Simulate([0, 1, 1, 2, 1, 0, 0, 0, 0], 192));
    assert Simulate([0, 1, 1, 2, 1, 0, 0, 0, 0], 194) == Step(Simulate([0, 1, 1, 2, 1, 0, 0, 0, 0], 193));
    assert Simulate([0, 1, 1, 2, 1, 0, 0, 0, 0], 195) == Step(Simulate([0, 1, 1, 2, 1, 0, 0, 0, 0], 194));
    assert Simulate([0, 1, 1, 2, 1, 0, 0, 0, 0], 196) == Step(Simulate([0, 1, 1, 2, 1, 0, 0, 0, 0], 195));
    assert Simulate([0, 1, 1, 2, 1, 0, 0, 0, 0], 197) == Step(Simulate([0, 1, 1, 2, 1, 0, 0, 0, 0], 196));
    assert Simulate([0, 1, 1, 2, 1, 0, 0, 0, 0], 198) == Step(Simulate([0, 1, 1, 2, 1, 0, 0, 0, 0], 197));
    assert Simulate([0, 1, 1, 2, 1, 0, 0, 0, 0], 199) == Step(Simulate([0, 1, 1, 2, 1, 0, 0, 0, 0], 198));
    assert Simulate([0, 1, 1, 2, 1, 0, 0, 0, 0], 200) == Step(Simulate([0, 1, 1, 2, 1, 0, 0, 0, 0], 199));
  }

  lemma SampleDays208()
    ensures Simulate([0, 1, 1, 2, 1, 0, 0, 0, 0], 208) == [35387696, 42604028, 43568378, 48671418, 54217105, 55585961, 66442743, 29722601, 36395517]
  {
    SampleDays200();
    assert Simulate([0, 1, 1, 2, 1, 0, 0, 0, 0], 201) == Step(Simulate([0, 1, 1, 2, 1, 0, 0, 0, 0], 200));
    assert Simulate([0, 1, 1, 2, 1, 0, 0, 0, 0], 202) == Step(Simulate([0, 1, 1, 2, 1, 0, 0, 0, 0], 201));
    assert Simulate([0, 1, 1, 2, 1, 0, 0, 0, 0], 203) == Step(Simulate([0, 1, 1, 2, 1, 0, 0, 0, 0], 202));
    assert Simulate([0, 1, 1, 2, 1, 0, 0, 0, 0], 204) == Step(Simulate([0, 1, 1, 2, 1, 0, 0, 0, 0], 203));
    assert Simulate([0, 1, 1, 2, 1, 0, 0, 0, 0], 205) == Step(Simulate([0, 1, 1, 2, 1, 0, 0, 0, 0], 204));
    assert Simulate([0, 1, 1, 2, 1, 0, 0, 0, 0], 206) == Step(Simulate([0, 1, 1, 2, 1, 0, 0, 0, 0], 205));
    assert Simulate([0, 1, 1, 2, 1, 0, 0, 0, 0], 207) == Step(Simulate([0, 1, 1, 2, 1, 0, 0, 0, 0], 206));
    assert Simulate([0, 1, 1, 2, 1, 0, 0, 0, 0], 208) == Step(Simulate([0, 1, 1, 2, 1, 0, 0, 0, 0], 207));
  }

  lemma SampleDays216()
    ensures Simulate([0, 1, 1, 2, 1, 0, 0, 0, 0], 216) == [78999545, 78956074, 91275446, 97785483, 104257379, 120659848, 120696258, 66442743, 65110297]
  {
    SampleDays208();
    assert Simulate([0, 1, 1, 2, 1, 0, 0, 0, 0], 209) == Step(Simulate([0, 1, 1, 2, 1, 0, 0, 0, 0], 208));
    assert Simulate([0, 1, 1, 2, 1, 0, 0, 0, 0], 210) == Step(Simulate([0, 1, 1, 2, 1, 0, 0, 0, 0], 209));
    assert Simulate([0, 1, 1, 2, 1, 0, 0, 0, 0], 211) == Step(Simulate([0, 1, 1, 2, 1, 0, 0, 0, 0], 210));
    assert Simulate([0, 1, 1, 2, 1, 0, 0, 0, 0], 212) == Step(Simulate([0, 1, 1, 2, 1, 0, 0, 0, 0], 211));
    assert Simulate([0, 1, 1, 2, 1, 0, 0, 0, 0], 213) == Step(Simulate([0, 1, 1, 2, 1, 0, 0, 0, 0], 212));
    assert Simulate([0, 1, 1, 2, 1, 0, 0, 0, 0], 214) == Step(Simulate([0, 1, 1, 2, 1, 0, 0, 0, 0], 213));
    assert Simulate([0, 1, 1, 2, 1, 0, 0, 0, 0], 215) == Step(Simulate([0, 1, 1, 2, 1, 0, 0, 0, 0], 214));
    assert Simulate([0, 1, 1, 2, 1, 0, 0, 0, 0], 216) == Step(Simulate([0, 1, 1, 2, 1, 0, 0, 0, 0], 215));
  }

  lemma SampleDays224()
    ensures Simulate([0, 1, 1, 2, 1, 0, 0, 0, 0], 224) == [144066371, 170274991, 176741557, 195532825, 218445331, 224953637, 266102136, 120696258, 145442288]
  {
    SampleDays216();
    assert Simulate([0, 1, 1, 2, 1, 0, 0, 0, 0], 217) == Step(Simulate([0, 1, 1, 2, 1, 0, 0, 0, 0], 216));
    assert Simulate([0, 1, 1, 2, 1, 0, 0, 0, 0], 218) == Step(Simulate([0, 1, 1, 2, 1, 0, 0, 0, 0], 217));
    assert Simulate([0, 1, 1, 2, 1, 0, 0, 0, 0], 219) == Step(Simulate([0, 1, 1, 2, 1, 0, 0, 0, 0], 218));
    assert Simulate([0, 1, 1, 2, 1, 0, 0, 0, 0], 220) == Step(Simulate([0, 1, 1, 2, 1, 0, 0, 0, 0], 219));
    assert Simulate([0, 1, 1, 2, 1, 0, 0, 0, 0], 221) == Step(Simulate([0, 1, 1, 2, 1, 0, 0, 0, 0], 220));
    assert Simulate([0, 1, 1, 2, 1, 0, 0, 0, 0], 222) == Step(Simulate([0, 1, 1, 2, 1, 0, 0, 0, 0], 221));
    assert Simulate([0, 1, 1, 2, 1, 0, 0, 0, 0], 223) == Step(Simulate([0, 1, 1, 2, 1, 0, 0, 0, 0], 222));
    assert Simulate([0, 1, 1, 2, 1, 0, 0, 0, 0], 224) == Step(Simulate([0, 1, 1, 2, 1, 0, 0, 0, 0], 223));
  }

  lemma SampleDays232()
    ensures Simulate([0, 1, 1, 2, 1, 0, 0, 0, 0], 232) == [315717279, 320807928, 365807816, 395186888, 420486462, 484547467, 489716266, 266102136, 264762629]
  {
    SampleDays224();
    assert Simulate([0, 1, 1, 2, 1, 0, 0, 0, 0], 225) == Step(Simulate([0, 1, 1, 2, 1, 0, 0, 0, 0], 224));
    assert Simulate([0, 1, 1, 2, 1, 0, 0, 0, 0], 226) == Step(Simulate([0, 1, 1, 2, 1, 0, 0, 0, 0], 225));
    assert Simulate([0, 1, 1, 2, 1, 0, 0, 0, 0], 227) == Step(Simulate([0, 1, 1, 2, 1, 0, 0, 0, 0], 226));
    assert Simulate([0, 1, 1, 2, 1, 0, 0, 0, 0], 228) == Step(Simulate([0, 1, 1, 2, 1, 0, 0, 0, 0], 227));
    assert Simulate([0, 1, 1, 2, 1, 0, 0, 0, 0], 229) == Step(Simulate([0, 1, 1, 2, 1, 0, 0, 0, 0], 228));
    assert Simulate([0, 1, 1, 2, 1, 0, 0, 0, 0], 230) == Step(Simulate([0, 1, 1, 2, 1, 0, 0, 0, 0], 229));
    assert Simulate([0, 1, 1, 2, 1, 0, 0, 0, 0], 231) == Step(Simulate([0, 1, 1, 2, 1, 0, 0, 0, 0], 230));
    assert Simulate([0, 1, 1, 2, 1, 0, 0, 0, 0], 232) == Step(Simulate([0, 1, 1, 2, 1, 0, 0, 0, 0], 231));
  }

  lemma SampleDays240()
    ensures Simulate([0, 1, 1, 2, 1, 0, 0, 0, 0], 240) == [585570557, 681525095, 715994816, 786294278, 879734355, 910202728, 1066366882, 489716266, 581819415]
  {
    SampleDays232();
    assert Simulate([0, 1, 1, 2, 1, 0, 0, 0, 0], 233) == Step(Simulate([0, 1, 1, 2, 1, 0, 0, 0, 0], 232));
    assert Simulate([0, 1, 1, 2, 1, 0, 0, 0, 0], 234) == Step(Simulate([0, 1, 1, 2, 1, 0, 0, 0, 0], 233));
    assert Simulate([0, 1, 1, 2, 1, 0, 0, 0, 0], 235) == Step(Simulate([0, 1, 1, 2, 1, 0, 0, 0, 0], 234));
    assert Simulate([0, 1, 1, 2, 1, 0, 0, 0, 0], 236) == Step(Simulate([0, 1, 1, 2, 1, 0, 0, 0, 0], 235));
    assert Simulate([0, 1, 1, 2, 1, 0, 0, 0, 0], 237) == Step(Simulate([0, 1, 1, 2, 1, 0, 0, 0, 0], 236));
    assert Simulate([0, 1, 1, 2, 1, 0, 0, 0, 0], 238) == Step(Simulate([0, 1, 1, 2, 1, 0, 0, 0, 0], 237));
    assert Simulate([0, 1, 1, 2, 1, 0, 0, 0, 0], 239) == Step(Simulate([0, 1, 1, 2, 1, 0, 0, 0, 0], 238));
    assert Simulate([0, 1, 1, 2, 1, 0, 0, 0, 0], 240) == Step(Simulate([0, 1, 1, 2, 1, 0, 0, 0, 0], 239));
  }

  lemma SampleDays248()
    ensures Simulate([0, 1, 1, 2, 1, 0, 0, 0, 0], 248) == [1263344510, 1301565373, 1467819373, 1595729171, 1696497006, 1946101237, 1985489551, 1066366882, 1075286823]
  {
    SampleDays240();
    assert Simulate([0, 1, 1, 2, 1, 0, 0, 0, 0], 241) == Step(Simulate([0, 1, 1, 2, 1, 0, 0, 0, 0], 240));
    assert Simulate([0, 1, 1, 2, 1, 0, 0, 0, 0], 242) == Step(Simulate([0, 1, 1, 2, 1, 0, 0, 0, 0], 241));
    assert Simulate([0, 1, 1, 2, 1, 0, 0, 0, 0], 243) == Step(Simulate([0, 1, 1, 2, 1, 0, 0, 0, 0], 242));
    assert Simulate([0, 1, 1, 2, 1, 0, 0, 0, 0], 244) == Step(Simulate([0, 1, 1, 2, 1, 0, 0, 0, 0], 243));
    assert Simulate([0, 1, 1, 2, 1, 0, 0, 0, 0], 245) == Step(Simulate([0, 1, 1, 2, 1, 0, 0, 0, 0], 244));
    assert Simulate([0, 1, 1, 2, 1, 0, 0, 0, 0], 246) == Step(Simulate([0, 1, 1, 2, 1, 0, 0, 0, 0], 245));
    assert Simulate([0, 1, 1, 2, 1, 0, 0, 0, 0], 247) == Step(Simulate([0, 1, 1, 2, 1, 0, 0, 0, 0], 246));
    assert Simulate([0, 1, 1, 2, 1, 0, 0, 0, 0], 248) == Step(Simulate([0, 1, 1, 2, 1, 0, 0, 0, 0], 247));
  }

  lemma SampleDays256()
    ensures Simulate([0, 1, 1, 2, 1, 0, 0, 0, 0], 256) == [2376852196, 2731163883, 2897294544, 3164316379, 3541830408, 3681986557, 4275812629, 1985489551, 2329711392]
  {
    SampleDays248();
    assert Simulate([0, 1, 1, 2, 1, 0, 0, 0, 0], 249) == Step(Simulate([0, 1, 1, 2, 1, 0, 0, 0, 0], 248));
    assert Simulate([0, 1, 1, 2, 1, 0, 0, 0, 0], 250) == Step(Simulate([0, 1, 1, 2, 1, 0, 0, 0, 0], 249));
    assert Simulate([0, 1, 1, 2, 1, 0, 0, 0, 0], 251) == Step(Simulate([0, 1, 1, 2, 1, 0, 0, 0, 0], 250));
    assert Simulate([0, 1, 1, 2, 1, 0, 0, 0, 0], 252) == Step(Simulate([0, 1, 1, 2, 1, 0, 0, 0, 0], 251));
    assert Simulate([0, 1, 1, 2, 1, 0, 0, 0, 0], 253) == Step(Simulate([0, 1, 1, 2, 1, 0, 0, 0, 0], 252));
    assert Simulate([0, 1, 1, 2, 1, 0, 0, 0, 0], 254) == Step(Simulate([0, 1, 1, 2, 1, 0, 0, 0, 0], 253));
    assert Simulate([0, 1, 1, 2, 1, 0, 0, 0, 0], 255) == Step(Simulate([0, 1, 1, 2, 1, 0, 0, 0, 0], 254));
    assert Simulate([0, 1, 1, 2, 1, 0, 0, 0, 0], 256) == Step(Simulate([0, 1, 1, 2, 1, 0, 0, 0, 0], 255));
  }

  /** The sample school numbers 5934 fish after 80 days and 26984457539 after 256. */
  lemma SampleAnswers()
    ensures Total(Simulate(Tally(SampleAges()), 80)) == 5934
    ensures Total(Simulate(Tally(SampleAges()), 256)) == 26984457539
  {
    SampleTally();
    SampleDays80();
    SampleDays256();
  }
}
