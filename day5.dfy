/** Day 5: rasterise vent segments onto a grid and count the cells covered more than once. */
module Day5 {
  import opened Utils
  import opened Text

  datatype Pos = Pos(x: int, y: int)

  /** A segment from `a` to `b`, both ends included. */
  datatype Line = Line(a: Pos, b: Pos)

  /** `parse_pos`: "x,y", split at the first comma, both halves decimal integers. */
  function ParsePos(s: string): (r: Option<Pos>)
    ensures ',' !in s ==> r.None?
    ensures r.Some? ==> exists sx, sy :: s == sx + "," + sy && ParseInt(sx) == Some(r.value.x) && ParseInt(sy) == Some(r.value.y)
    ensures forall sx, sy :: s == sx + "," + sy && ',' !in sx && ParseInt(sx).Some? && ParseInt(sy).Some? ==>
      r == Some(Pos(ParseInt(sx).value, ParseInt(sy).value))
  {
    assert forall sx, sy :: s == sx + "," + sy && ',' !in sx ==> SplitOnce(s, ",") == Some((sx, sy)) by {
      forall sx, sy | s == sx + "," + sy && ',' !in sx ensures SplitOnce(s, ",") == Some((sx, sy)) {
        SplitOnceAt(sx, ",", sy);
      }
    }
    match SplitOnce(s, ",")
    case None =>
      assert ',' !in s ==> forall i :: !Occurs(s, ",", i);
      None
    case Some((sx, sy)) =>
      match (ParseInt(sx), ParseInt(sy))
      case (Some(x), Some(y)) => Some(Pos(x, y))
      case _ => None
  }

  /** `parse_line`: "x1,y1 -> x2,y2", split at the first arrow. */
  function ParseLine(s: string): (r: Option<Line>)
    ensures (forall i :: !Occurs(s, " -> ", i)) ==> r.None?
    ensures r.Some? ==> exists sa, sb :: s == sa + " -> " + sb && ParsePos(sa) == Some(r.value.a) && ParsePos(sb) == Some(r.value.b)
    ensures forall sa, sb :: FirstSplit(s, " -> ", sa, sb) && ParsePos(sa).Some? && ParsePos(sb).Some? ==>
      r == Some(Line(ParsePos(sa).value, ParsePos(sb).value))
  {
    assert forall sa, sb :: FirstSplit(s, " -> ", sa, sb) ==> SplitOnce(s, " -> ") == Some((sa, sb)) by {
      forall sa, sb | FirstSplit(s, " -> ", sa, sb) ensures SplitOnce(s, " -> ") == Some((sa, sb)) {
        SplitOnceFirst(s, " -> ", sa, sb);
      }
    }
    match SplitOnce(s, " -> ")
    case None => None
    case Some((sa, sb)) =>
      match (ParsePos(sa), ParsePos(sb))
      case (Some(a), Some(b)) => Some(Line(a, b))
      case _ => None
  }

  /** `parse`: one segment per line; lines that do not decode are dropped. */
  function Parse(input: string): seq<Line>
  {
    Values(Lines(input), ParseLine)
  }

  function ShowPos(p: Pos): string
  {
    ShowInt(p.x) + "," + ShowInt(p.y)
  }

  /** The text of a segment, as the puzzle input writes it. */
  function ShowLine(l: Line): string
  {
    ShowPos(l.a) + " -> " + ShowPos(l.b)
  }

  /** Decoding the text of a position gives the position back. */
  lemma ParseShowPos(p: Pos)
    ensures ParsePos(ShowPos(p)) == Some(p)
  {
    SplitOnceAt(ShowInt(p.x), ",", ShowInt(p.y));
    IntRoundTrip(p.x);
    IntRoundTrip(p.y);
  }

  /** The text of a segment is one non-empty line. */
  lemma ShowLinePlain(l: Line)
    ensures ShowLine(l) != [] && '\n' !in ShowLine(l) && '\r' !in ShowLine(l)
  {
    ShowIntPlain(l.a.x);
    ShowIntPlain(l.a.y);
    ShowIntPlain(l.b.x);
    ShowIntPlain(l.b.y);
  }

  /** The text of a list of segments, one per line. */
  function SegmentsText(ls: seq<Line>): string
  {
    JoinShown(ls, ShowLine, "\n")
  }

  /** Reading back written segments gives the segments, in order. */
  lemma ParseSegmentsText(ls: seq<Line>)
    ensures Parse(SegmentsText(ls)) == ls
  {
    forall l ensures ParseLine(ShowLine(l)) == Some(l) && ShowLine(l) != [] && '\n' !in ShowLine(l) && '\r' !in ShowLine(l) {
      ParseShowLine(l);
      ShowLinePlain(l);
    }
    ValuesOfLines(ls, ShowLine, ParseLine);
  }

  /** Decoding the text of a segment gives the segment back. */
  lemma ParseShowLine(l: Line)
    ensures ParseLine(ShowLine(l)) == Some(l)
  {
    var sa := ShowPos(l.a);
    assert ' ' !in sa by {
      assert sa == ShowInt(l.a.x) + "," + ShowInt(l.a.y);
      forall k | 0 <= k < |sa| ensures sa[k] != ' ' {
        if k < |ShowInt(l.a.x)| {
          assert sa[k] == ShowInt(l.a.x)[k];
        } else if k > |ShowInt(l.a.x)| {
          assert sa[k] == ShowInt(l.a.y)[k - |ShowInt(l.a.x)| - 1];
        }
      }
    }
    SplitOnceAt(sa, " -> ", ShowPos(l.b));
    ParseShowPos(l.a);
    ParseShowPos(l.b);
  }

  /** `i32::signum`. */
  function Sign(d: int): (s: int)
    ensures s == -1 || s == 0 || s == 1
    ensures (s > 0 <==> d > 0) && (s < 0 <==> d < 0)
  {
    if d > 0 then 1 else if d < 0 then -1 else 0
  }

  function Abs(d: int): (r: nat)
    ensures r == d || r == -d
  {
    if d < 0 then -d else d
  }

  /** `direction`: the sign of `b - a` on each axis, a unit step from `a` towards `b`. */
  function Direction(l: Line): (r: Pos)
    ensures -1 <= r.x <= 1 && -1 <= r.y <= 1
    ensures (r.x > 0 <==> l.b.x > l.a.x) && (r.x < 0 <==> l.b.x < l.a.x)
    ensures (r.y > 0 <==> l.b.y > l.a.y) && (r.y < 0 <==> l.b.y < l.a.y)
  {
    Pos(Sign(l.b.x - l.a.x), Sign(l.b.y - l.a.y))
  }

  /** `length`: the larger of the distances along the two axes. */
  function Length(l: Line): (n: nat)
    ensures n >= Abs(l.b.x - l.a.x) && n >= Abs(l.b.y - l.a.y)
    ensures n == Abs(l.b.x - l.a.x) || n == Abs(l.b.y - l.a.y)
  {
    var dx := Abs(l.b.x - l.a.x);
    var dy := Abs(l.b.y - l.a.y);
    if dx >= dy then dx else dy
  }

  /** `is_horizontal` as the source names it: both ends share their x. */
  predicate IsHorizontal(l: Line) { l.a.x == l.b.x }

  /** `is_vertical` as the source names it: both ends share their y. */
  predicate IsVertical(l: Line) { l.a.y == l.b.y }

  /** `is_diagonal`: neither coordinate is shared, so each step moves along both axes. */
  predicate IsDiagonal(l: Line)
    ensures IsDiagonal(l) <==> Direction(l).x != 0 && Direction(l).y != 0
  {
    !IsHorizontal(l) && !IsVertical(l)
  }

  /** The segments the puzzle promises: axis-parallel or at exactly 45 degrees. */
  predicate Admissible(l: Line)
  {
    !IsDiagonal(l) || Abs(l.b.x - l.a.x) == Abs(l.b.y - l.a.y)
  }

  /**
   * `line.a + k * line.direction()`: step 0 is `a`, and on an admissible
   * segment step `length` is `b`.
   */
  function PointAt(l: Line, k: int): (r: Pos)
    ensures k == 0 ==> r == l.a
    ensures Admissible(l) && k == Length(l) ==> r == l.b
  {
    var d := Direction(l);
    Pos(l.a.x + k * d.x, l.a.y + k * d.y)
  }

  /** `add_line` visits this point: `a + k * direction` for some k in `0..=length`. */
  predicate OnLine(l: Line, p: Pos)
  {
    exists k :: 0 <= k <= Length(l) && PointAt(l, k) == p
  }

  /** `v` lies between `u` and `w`, in either order. */
  predicate Between(u: int, v: int, w: int)
  {
    (u <= v <= w) || (w <= v <= u)
  }

  /** The lattice points of the segment from `a` to `b`, described geometrically. */
  predicate OnSegment(l: Line, p: Pos)
  {
    Between(l.a.x, p.x, l.b.x) && Between(l.a.y, p.y, l.b.y)
      && (IsHorizontal(l) || IsVertical(l) || Abs(p.x - l.a.x) == Abs(p.y - l.a.y))
  }

  /** One step along the segment: the sign times a distance. */
  lemma SignStep(k: int, d: int)
    ensures k * Sign(d) == (if d > 0 then k else if d < 0 then -k else 0)
  {
  }

  /**
   * For an admissible segment the points `add_line` visits are exactly the
   * lattice points from `a` to `b`.
   */
  lemma OnLineIsOnSegment(l: Line, p: Pos)
    requires Admissible(l)
    ensures OnLine(l, p) <==> OnSegment(l, p)
  {
    var dx := l.b.x - l.a.x;
    var dy := l.b.y - l.a.y;
    if OnLine(l, p) {
      var k :| 0 <= k <= Length(l) && PointAt(l, k) == p;
      SignStep(k, dx);
      SignStep(k, dy);
    }
    if OnSegment(l, p) {
      var k := if dx != 0 then Abs(p.x - l.a.x) else Abs(p.y - l.a.y);
      SignStep(k, dx);
      SignStep(k, dy);
      assert PointAt(l, k) == p;
    }
  }

  /** The segment with its ends swapped. */
  function Swap(l: Line): Line
  {
    Line(l.b, l.a)
  }

  /** Swapping the ends of an admissible segment visits the same points. */
  lemma SwapSamePoints(l: Line, p: Pos)
    requires Admissible(l)
    ensures OnLine(Swap(l), p) <==> OnLine(l, p)
  {
    OnLineIsOnSegment(l, p);
    OnLineIsOnSegment(Swap(l), p);
  }

  /** The points `add_line` visits are pairwise distinct. */
  lemma PointsDistinct(l: Line, k1: int, k2: int)
    requires 0 <= k1 < k2 <= Length(l)
    ensures PointAt(l, k1) != PointAt(l, k2)
  {
    var d := Direction(l);
    if l.b.x != l.a.x {
      SignStep(k1, l.b.x - l.a.x);
      SignStep(k2, l.b.x - l.a.x);
    } else {
      SignStep(k1, l.b.y - l.a.y);
      SignStep(k2, l.b.y - l.a.y);
    }
  }

  /** The points visited for k in [0, n). */
  function PointsBelow(l: Line, n: nat): set<Pos>
  {
    set k | 0 <= k < n :: PointAt(l, k)
  }

  /** `add_line` visits exactly `length + 1` distinct cells. */
  lemma {:induction false} PointCount(l: Line, n: nat)
    requires n <= Length(l) + 1
    ensures |PointsBelow(l, n)| == n
  {
    if n > 0 {
      PointCount(l, n - 1);
      PointsBelowSnoc(l, n);
      PointFresh(l, n);
    }
  }

  lemma PointsBelowSnoc(l: Line, n: nat)
    requires n > 0
    ensures PointsBelow(l, n) == PointsBelow(l, n - 1) + {PointAt(l, n - 1)}
  {
  }

  /** Step n - 1 lands on a point that no earlier step visited. */
  lemma PointFresh(l: Line, n: nat)
    requires 0 < n <= Length(l) + 1
    ensures PointAt(l, n - 1) !in PointsBelow(l, n - 1)
  {
    forall k | 0 <= k < n - 1 ensures PointAt(l, k) != PointAt(l, n - 1) {
      PointsDistinct(l, k, n - 1);
    }
  }

  /** How many of the first n steps land on p. */
  function HitsBelow(l: Line, n: nat, p: Pos): (c: nat)
    ensures c <= n
  {
    if n == 0 then 0 else HitsBelow(l, n - 1, p) + (if PointAt(l, n - 1) == p then 1 else 0)
  }

  /** How much `add_line` adds at p. */
  function Hits(l: Line, p: Pos): nat
  {
    HitsBelow(l, Length(l) + 1, p)
  }

  lemma {:induction false} HitsBelowOnce(l: Line, n: nat, p: Pos)
    requires n <= Length(l) + 1
    ensures HitsBelow(l, n, p) == if exists k :: 0 <= k < n && PointAt(l, k) == p then 1 else 0
  {
    if n > 0 {
      HitsBelowOnce(l, n - 1, p);
      if PointAt(l, n - 1) == p {
        forall k | 0 <= k < n - 1 ensures PointAt(l, k) != p {
          PointsDistinct(l, k, n - 1);
        }
      }
    }
  }

  /** `add_line` adds one to each point it visits and nothing anywhere else. */
  lemma HitsIsOnLine(l: Line, p: Pos)
    ensures Hits(l, p) == if OnLine(l, p) then 1 else 0
  {
    HitsBelowOnce(l, Length(l) + 1, p);
  }

  /** The cell (p.x, p.y) exists in the grid. */
  predicate InBoard(board: array2<int>, p: Pos)
  {
    0 <= p.x < board.Length0 && 0 <= p.y < board.Length1
  }

  /** `add_line`: add one at `a + k * direction` for every k in `0..=length`; indexing panics off the grid. */
  method AddLine(board: array2<int>, l: Line)
    requires forall k :: 0 <= k <= Length(l) ==> InBoard(board, PointAt(l, k))
    modifies board
    ensures forall i, j :: 0 <= i < board.Length0 && 0 <= j < board.Length1 ==>
      board[i, j] == old(board[i, j]) + Hits(l, Pos(i, j))
  {
    var n := Length(l);
    var k := 0;
    while k <= n
      invariant 0 <= k <= n + 1
      invariant forall i, j :: 0 <= i < board.Length0 && 0 <= j < board.Length1 ==>
        board[i, j] == old(board[i, j]) + HitsBelow(l, k, Pos(i, j))
    {
      var p := PointAt(l, k);
      board[p.x, p.y] := board[p.x, p.y] + 1;
      k := k + 1;
    }
  }

  /** The largest x of any end point, 0 without segments (`max().unwrap_or(0)`). */
  function MaxX(ls: seq<Line>): (m: int)
    ensures forall i :: 0 <= i < |ls| ==> ls[i].a.x <= m && ls[i].b.x <= m
    ensures ls != [] ==> exists i :: 0 <= i < |ls| && (m == ls[i].a.x || m == ls[i].b.x)
  {
    if ls == [] then 0
    else
      var top := if ls[0].a.x >= ls[0].b.x then ls[0].a.x else ls[0].b.x;
      if |ls| == 1 then top
      else
        var m := MaxX(ls[1..]);
        assert forall i :: 1 <= i < |ls| ==> ls[i] == ls[1..][i - 1];
        if top >= m then top else m
  }

  /** The largest y of any end point, 0 without segments (`max().unwrap_or(0)`). */
  function MaxY(ls: seq<Line>): (m: int)
    ensures forall i :: 0 <= i < |ls| ==> ls[i].a.y <= m && ls[i].b.y <= m
    ensures ls != [] ==> exists i :: 0 <= i < |ls| && (m == ls[i].a.y || m == ls[i].b.y)
  {
    if ls == [] then 0
    else
      var top := if ls[0].a.y >= ls[0].b.y then ls[0].a.y else ls[0].b.y;
      if |ls| == 1 then top
      else
        var m := MaxY(ls[1..]);
        assert forall i :: 1 <= i < |ls| ==> ls[i] == ls[1..][i - 1];
        if top >= m then top else m
  }

  /** `create_board`: a zero grid one larger than the largest coordinates; a negative size cannot be allocated. */
  method CreateBoard(ls: seq<Line>) returns (board: array2<int>)
    requires MaxX(ls) >= 0 && MaxY(ls) >= 0
    ensures fresh(board)
    ensures board.Length0 == MaxX(ls) + 1 && board.Length1 == MaxY(ls) + 1
    ensures forall i, j :: 0 <= i < board.Length0 && 0 <= j < board.Length1 ==> board[i, j] == 0
  {
    board := new int[MaxX(ls) + 1, MaxY(ls) + 1]((i, j) => 0);
  }

  /** Segments with non-negative ends that `add_line` keeps between its ends fit in the grid `create_board` makes. */
  lemma EndsInBoard(ls: seq<Line>, i: nat, p: Pos)
    requires i < |ls| && Admissible(ls[i]) && OnLine(ls[i], p)
    requires 0 <= ls[i].a.x && 0 <= ls[i].a.y && 0 <= ls[i].b.x && 0 <= ls[i].b.y
    ensures 0 <= p.x <= MaxX(ls) && 0 <= p.y <= MaxY(ls)
  {
    OnLineIsOnSegment(ls[i], p);
  }

  /** A segment takes part: part 2 takes all of them, part 1 only those that are not diagonal. */
  predicate Counted(l: Line, diagonals: bool)
  {
    diagonals || !IsDiagonal(l)
  }

  /** No counted segment visits p. */
  predicate Untouched(ls: seq<Line>, p: Pos, diagonals: bool)
  {
    forall i :: 0 <= i < |ls| && Counted(ls[i], diagonals) ==> !OnLine(ls[i], p)
  }

  /**
   * How many times the counted segments among `ls` cover p: at most once per
   * segment, and not at all exactly when no counted segment visits p.
   */
  function Coverage(ls: seq<Line>, p: Pos, diagonals: bool): (r: nat)
    ensures r <= |ls|
    ensures r == 0 <==> Untouched(ls, p, diagonals)
  {
    if ls == [] then 0
    else
      var last := ls[|ls| - 1];
      HitsIsOnLine(last, p);
      assert forall i :: 0 <= i < |ls| - 1 ==> ls[..|ls| - 1][i] == ls[i];
      Coverage(ls[..|ls| - 1], p, diagonals) + (if Counted(last, diagonals) then Hits(last, p) else 0)
  }

  /** Every point the counted segments visit is a grid cell. */
  predicate Fits(ls: seq<Line>, diagonals: bool)
  {
    MaxX(ls) >= 0 && MaxY(ls) >= 0 &&
    forall i, k :: 0 <= i < |ls| && Counted(ls[i], diagonals) && 0 <= k <= Length(ls[i]) ==>
      0 <= PointAt(ls[i], k).x <= MaxX(ls) && 0 <= PointAt(ls[i], k).y <= MaxY(ls)
  }

  /** Admissible segments with non-negative ends always fit. */
  lemma AdmissibleFits(ls: seq<Line>, diagonals: bool)
    requires forall i :: 0 <= i < |ls| ==> Admissible(ls[i])
    requires forall i :: 0 <= i < |ls| ==> 0 <= ls[i].a.x && 0 <= ls[i].a.y && 0 <= ls[i].b.x && 0 <= ls[i].b.y
    ensures Fits(ls, diagonals)
  {
    if ls != [] {
      assert 0 <= ls[0].a.x <= MaxX(ls) && 0 <= ls[0].a.y <= MaxY(ls);
    }
    forall i, k | 0 <= i < |ls| && Counted(ls[i], diagonals) && 0 <= k <= Length(ls[i])
      ensures 0 <= PointAt(ls[i], k).x <= MaxX(ls) && 0 <= PointAt(ls[i], k).y <= MaxY(ls)
    {
      EndsInBoard(ls, i, PointAt(ls[i], k));
    }
  }

  /** Every cell of the grid holds how often the counted segments of `ls` cover it. */
  predicate Tallies(board: array2<int>, ls: seq<Line>, diagonals: bool)
    reads board
  {
    forall i, j :: 0 <= i < board.Length0 && 0 <= j < board.Length1 ==> board[i, j] == Coverage(ls, Pos(i, j), diagonals)
  }

  /** A cell that held the coverage by the first n segments, plus the hits of segment n when counted, holds the coverage by n + 1. */
  lemma CoverageStep(ls: seq<Line>, n: nat, p: Pos, diagonals: bool, before: int, after: int)
    requires n < |ls|
    requires before == Coverage(ls[..n], p, diagonals)
    requires after == before + (if Counted(ls[n], diagonals) then Hits(ls[n], p) else 0)
    ensures after == Coverage(ls[..n + 1], p, diagonals)
  {
    assert ls[..n + 1][..n] == ls[..n];
  }

  /** One turn of the loop below: add segment n, when counted, to a grid that tallies the segments before it. */
  method AddNext(board: array2<int>, ls: seq<Line>, n: nat, diagonals: bool)
    requires n < |ls| && Fits(ls, diagonals)
    requires board.Length0 == MaxX(ls) + 1 && board.Length1 == MaxY(ls) + 1
    requires Tallies(board, ls[..n], diagonals)
    modifies board
    ensures Tallies(board, ls[..n + 1], diagonals)
  {
    if Counted(ls[n], diagonals) {
      AddLine(board, ls[n]);
    }
    forall i, j | 0 <= i < board.Length0 && 0 <= j < board.Length1
      ensures board[i, j] == Coverage(ls[..n + 1], Pos(i, j), diagonals)
    {
      CoverageStep(ls, n, Pos(i, j), diagonals, old(board[i, j]), board[i, j]);
    }
  }

  /** The loop of `part1` (without diagonals) or `part2` (with them): add every counted segment to a fresh grid. */
  method Rasterise(ls: seq<Line>, diagonals: bool) returns (board: array2<int>)
    requires Fits(ls, diagonals)
    ensures board.Length0 == MaxX(ls) + 1 && board.Length1 == MaxY(ls) + 1
    ensures Tallies(board, ls, diagonals)
  {
    board := CreateBoard(ls);
    var n := 0;
    while n < |ls|
      invariant 0 <= n <= |ls|
      invariant board.Length0 == MaxX(ls) + 1 && board.Length1 == MaxY(ls) + 1
      invariant Tallies(board, ls[..n], diagonals)
    {
      AddNext(board, ls, n, diagonals);
      n := n + 1;
    }
    assert ls[..n] == ls;
  }

  /** The cells covered more than once. */
  function OverlapCells(board: array2<int>): set<(int, int)>
    reads board
  {
    set i, j | 0 <= i < board.Length0 && 0 <= j < board.Length1 && board[i, j] > 1 :: (i, j)
  }

  /** The overlapping cells among the rows before i and the first j cells of row i. */
  function OverlapsBefore(board: array2<int>, i: int, j: int): set<(int, int)>
    reads board
  {
    set x, y | 0 <= x < board.Length0 && 0 <= y < board.Length1 && (x < i || (x == i && y < j)) && board[x, y] > 1 :: (x, y)
  }

  /** `board.into_iter().filter(|&x| x > 1).count()`. */
  method CountOverlaps(board: array2<int>) returns (r: nat)
    ensures r == |OverlapCells(board)|
  {
    r := 0;
    var i := 0;
    while i < board.Length0
      invariant 0 <= i <= board.Length0
      invariant r == |OverlapsBefore(board, i, 0)|
    {
      var j := 0;
      while j < board.Length1
        invariant 0 <= j <= board.Length1
        invariant r == |OverlapsBefore(board, i, j)|
      {
        if board[i, j] > 1 {
          assert OverlapsBefore(board, i, j + 1) == OverlapsBefore(board, i, j) + {(i, j)};
          r := r + 1;
        } else {
          assert OverlapsBefore(board, i, j + 1) == OverlapsBefore(board, i, j);
        }
        j := j + 1;
      }
      assert OverlapsBefore(board, i + 1, 0) == OverlapsBefore(board, i, board.Length1);
      i := i + 1;
    }
    assert OverlapsBefore(board, i, 0) == OverlapCells(board);
  }

  /** The grid cells that the counted segments cover more than once. */
  function Overlaps(ls: seq<Line>, diagonals: bool): set<(int, int)>
  {
    set x, y | 0 <= x <= MaxX(ls) && 0 <= y <= MaxY(ls) && Coverage(ls, Pos(x, y), diagonals) > 1 :: (x, y)
  }

  /** A grid holding the coverage of every cell has exactly the overlapping cells above one. */
  lemma OverlapCellsAre(board: array2<int>, ls: seq<Line>, diagonals: bool)
    requires board.Length0 == MaxX(ls) + 1 && board.Length1 == MaxY(ls) + 1
    requires Tallies(board, ls, diagonals)
    ensures OverlapCells(board) == Overlaps(ls, diagonals)
  {
    forall c | c in OverlapCells(board) ensures c in Overlaps(ls, diagonals) {
      assert board[c.0, c.1] == Coverage(ls, Pos(c.0, c.1), diagonals);
    }
    forall c | c in Overlaps(ls, diagonals) ensures c in OverlapCells(board) {
      assert board[c.0, c.1] == Coverage(ls, Pos(c.0, c.1), diagonals);
    }
  }

  /** `part1`: the cells covered by at least two segments that are not diagonal. */
  method Part1(input: string) returns (r: nat)
    requires Fits(Parse(input), false)
    ensures r == |Overlaps(Parse(input), false)|
  {
    var ls := Parse(input);
    var board := Rasterise(ls, false);
    r := CountOverlaps(board);
    OverlapCellsAre(board, ls, false);
  }

  /** `part2`: the cells covered by at least two segments, diagonals included. */
  method Part2(input: string) returns (r: nat)
    requires Fits(Parse(input), true)
    ensures r == |Overlaps(Parse(input), true)|
  {
    var ls := Parse(input);
    var board := Rasterise(ls, true);
    r := CountOverlaps(board);
    OverlapCellsAre(board, ls, true);
  }

  /** Adding the diagonals can only add coverage. */
  lemma {:induction false} CoverageGrows(ls: seq<Line>, p: Pos)
    ensures Coverage(ls, p, false) <= Coverage(ls, p, true)
  {
    if ls != [] {
      CoverageGrows(ls[..|ls| - 1], p);
    }
  }

  /** Part 1 never counts more overlapping cells than part 2 on the same segments. */
  lemma PartOneAtMostPartTwo(ls: seq<Line>)
    ensures |Overlaps(ls, false)| <= |Overlaps(ls, true)|
  {
    forall c | c in Overlaps(ls, false) ensures c in Overlaps(ls, true) {
      CoverageGrows(ls, Pos(c.0, c.1));
    }
    SubsetCard(Overlaps(ls, false), Overlaps(ls, true));
  }

  lemma SubsetCard<T>(a: set<T>, b: set<T>)
    requires a <= b
    ensures |a| <= |b|
  {
    assert b == a + (b - a);
  }
}
