/** Day 4: bingo. A board wins at the first turn by which one of its rows or columns is fully drawn. */
module Day4 {
  import opened Utils
  import opened Text

  /** The largest number and the largest turn the game allows for (`INF`). */
  const INF: nat := 100

  /** A 5x5 board in row-major order: cell (i, j) is at index 5 * i + j. */
  type Board = seq<int>

  /** Every number is a valid index of the turn table. */
  predicate InRange(xs: seq<int>)
  {
    forall k :: 0 <= k < |xs| ==> 0 <= xs[k] < INF
  }

  /** `Board::from_shape_vec((5, 5), cells).ok()` over the integers of one block. */
  function BoardOf(block: string): (r: Option<Board>)
    ensures r.Some? <==> |Values(Words(block), ParseInt)| == 25
    ensures r.Some? ==> r.value == Values(Words(block), ParseInt)
  {
    var cells := Values(Words(block), ParseInt);
    if |cells| == 25 then Some(cells) else None
  }

  /**
   * `Game::parse`: blocks separated by blank lines; the first holds the
   * comma-separated draws, each later one a board, dropped unless it holds
   * exactly 25 integers.
   */
  function Parse(input: string): (r: (seq<Board>, seq<int>))
    ensures forall i :: 0 <= i < |r.0| ==> |r.0[i]| == 25
    ensures r.0 == Values(SplitOn(input, "\n\n")[1..], BoardOf)
    ensures r.1 == Values(SplitOn(SplitOn(input, "\n\n")[0], ","), ParseInt)
  {
    var parts := SplitOn(input, "\n\n");
    var boards := Values(parts[1..], BoardOf);
    forall i | 0 <= i < |boards| ensures |boards[i]| == 25 {
      assert boards[i] in boards;
      ValuesMembership(parts[1..], BoardOf, boards[i]);
    }
    (boards, Values(SplitOn(parts[0], ","), ParseInt))
  }

  /** The text of a board: its cells in decimal, separated by single spaces. */
  function BoardText(b: Board): string
  {
    JoinShown(b, ShowInt, " ")
  }

  /** Reading back the text of a 25-cell board gives the board. */
  lemma BoardOfShown(b: Board)
    requires |b| == 25
    ensures BoardOf(BoardText(b)) == Some(b)
  {
    forall x ensures ParseInt(ShowInt(x)) == Some(x) {
      IntRoundTrip(x);
    }
    forall x ensures ShowInt(x) != [] && forall k :: 0 <= k < |ShowInt(x)| ==> !IsSpace(ShowInt(x)[k]) {
      ShowIntPlain(x);
    }
    ValuesOfWords(b, ShowInt, ParseInt);
  }

  /** The text of the draws: decimal numbers separated by commas. */
  function DrawsText(draws: seq<int>): string
  {
    JoinShown(draws, ShowInt, ",")
  }

  /** The text of every board, in order. */
  function BoardTexts(boards: seq<Board>): (r: seq<string>)
    ensures |r| == |boards| && forall i :: 0 <= i < |boards| ==> r[i] == BoardText(boards[i])
  {
    seq(|boards|, i requires 0 <= i < |boards| => BoardText(boards[i]))
  }

  /** The text of a game: the draws, then each board, blocks separated by blank lines. */
  function GameText(boards: seq<Board>, draws: seq<int>): string
  {
    Join([DrawsText(draws)] + BoardTexts(boards), "\n\n")
  }

  /** The blocks of a game's text are the draws' text and the boards' texts. */
  lemma GameBlocks(boards: seq<Board>, draws: seq<int>)
    ensures SplitOn(GameText(boards, draws), "\n\n") == [DrawsText(draws)] + BoardTexts(boards)
  {
    var texts := BoardTexts(boards);
    var blocks := [DrawsText(draws)] + texts;
    forall x ensures '\n' !in ShowInt(x) {
      ShowIntPlain(x);
    }
    JoinShownFree(draws, ShowInt, ",", '\n');
    forall k | 0 <= k < |blocks| ensures '\n' !in blocks[k] {
      if k > 0 {
        JoinShownFree(boards[k - 1], ShowInt, " ", '\n');
      }
    }
    SplitOnJoinFree(blocks, "\n\n");
  }

  /** Reading back the draws' text gives the draws. */
  lemma DrawsRoundTrip(draws: seq<int>)
    ensures Values(SplitOn(DrawsText(draws), ","), ParseInt) == draws
  {
    forall x ensures ParseInt(ShowInt(x)) == Some(x) && ',' !in ShowInt(x) {
      IntRoundTrip(x);
      ShowIntPlain(x);
    }
    ValuesOfSeparated(draws, ShowInt, ParseInt, ',');
  }

  /** Reading back the boards' texts gives the boards. */
  lemma BoardsRoundTrip(boards: seq<Board>)
    requires forall i :: 0 <= i < |boards| ==> |boards[i]| == 25
    ensures Values(BoardTexts(boards), BoardOf) == boards
  {
    var texts := BoardTexts(boards);
    forall i | 0 <= i < |boards| ensures BoardOf(texts[i]) == Some(boards[i]) {
      BoardOfShown(boards[i]);
    }
    ValuesAllDecode(texts, BoardOf);
  }

  /** Reading back the text of a game gives its boards and its draws. */
  lemma ParseShowGame(boards: seq<Board>, draws: seq<int>)
    requires forall i :: 0 <= i < |boards| ==> |boards[i]| == 25
    ensures Parse(GameText(boards, draws)) == (boards, draws)
  {
    var parts := SplitOn(GameText(boards, draws), "\n\n");
    GameBlocks(boards, draws);
    assert parts[0] == DrawsText(draws);
    assert parts[1..] == BoardTexts(boards);
    DrawsRoundTrip(draws);
    BoardsRoundTrip(boards);
  }

  /** The first index at or after `i` where `n` is drawn, or INF when it is never drawn there. */
  function FirstFrom(numbers: seq<int>, i: nat, n: int): (r: nat)
    requires i <= |numbers|
    ensures (exists k :: i <= k < |numbers| && numbers[k] == n) ==>
      i <= r < |numbers| && numbers[r] == n && forall k :: i <= k < r ==> numbers[k] != n
    ensures (forall k :: i <= k < |numbers| ==> numbers[k] != n) ==> r == INF
    decreases |numbers| - i
  {
    if i == |numbers| then INF
    else if numbers[i] == n then i
    else FirstFrom(numbers, i + 1, n)
  }

  /** The turn at which `n` is first drawn, or INF when it is never drawn. */
  function FirstTurn(numbers: seq<int>, n: int): (r: nat)
    ensures n in numbers ==> r < |numbers| && numbers[r] == n && n !in numbers[..r]
    ensures n !in numbers ==> r == INF
  {
    FirstFrom(numbers, 0, n)
  }

  /** The table `invert` builds: entry n is the first turn of n. */
  function Table(numbers: seq<int>): (turns: seq<nat>)
    ensures |turns| == INF
  {
    seq(INF, n requires 0 <= n < INF => FirstTurn(numbers, n))
  }

  /**
   * `Game::invert`: start from INF everywhere and walk the draws backwards,
   * so that the earliest draw of a number is written last.
   */
  method Invert(numbers: seq<int>) returns (turns: seq<nat>)
    requires InRange(numbers)
    ensures turns == Table(numbers)
  {
    var table := new nat[INF](_ => INF);
    var i := |numbers|;
    while i > 0
      invariant 0 <= i <= |numbers|
      invariant forall n :: 0 <= n < INF ==> table[n] == FirstFrom(numbers, i, n)
    {
      i := i - 1;
      table[numbers[i]] := i;
    }
    turns := table[..];
  }

  /** `n` has been drawn at some turn no later than `t`. */
  predicate Drawn(numbers: seq<int>, n: int, t: int)
  {
    exists i :: 0 <= i <= t && i < |numbers| && numbers[i] == n
  }

  /** Below INF, the first turn of n is at most t exactly when n is drawn by turn t. */
  lemma FirstTurnDrawn(numbers: seq<int>, n: int, t: int)
    requires 0 <= t < INF
    ensures FirstTurn(numbers, n) <= t <==> Drawn(numbers, n, t)
  {
    var r := FirstTurn(numbers, n);
    if Drawn(numbers, n, t) {
      var i :| 0 <= i <= t && i < |numbers| && numbers[i] == n;
      assert n in numbers;
    }
  }

  /** With at most INF draws, no entry of the table exceeds INF. */
  lemma TableBound(numbers: seq<int>)
    requires |numbers| <= INF
    ensures forall n :: 0 <= n < INF ==> Table(numbers)[n] <= INF
  {
  }

  /** The largest of `ts`, or `dflt` when there is none (`max().unwrap_or`). */
  function MaxOr(ts: seq<nat>, dflt: nat): (r: nat)
    ensures ts == [] ==> r == dflt
    ensures ts != [] ==> (exists i :: 0 <= i < |ts| && r == ts[i]) && forall i :: 0 <= i < |ts| ==> ts[i] <= r
  {
    if ts == [] then dflt
    else if |ts| == 1 then ts[0]
    else
      var m := MaxOr(ts[1..], dflt);
      assert forall i :: 1 <= i < |ts| ==> ts[i] == ts[1..][i - 1];
      if ts[0] >= m then ts[0] else m
  }

  /** The smallest of `ts`, or `dflt` when there is none (`min().unwrap_or`). */
  function MinOr(ts: seq<nat>, dflt: nat): (r: nat)
    ensures ts == [] ==> r == dflt
    ensures ts != [] ==> (exists i :: 0 <= i < |ts| && r == ts[i]) && forall i :: 0 <= i < |ts| ==> r <= ts[i]
  {
    if ts == [] then dflt
    else if |ts| == 1 then ts[0]
    else
      var m := MinOr(ts[1..], dflt);
      assert forall i :: 1 <= i < |ts| ==> ts[i] == ts[1..][i - 1];
      if ts[0] <= m then ts[0] else m
  }

  /** Row i of a board. */
  function Row(b: Board, i: nat): (r: seq<int>)
    requires |b| == 25 && i < 5
    ensures |r| == 5 && forall k :: 0 <= k < 5 ==> r[k] == b[5 * i + k]
  {
    b[5 * i..5 * i + 5]
  }

  /** Column j of a board. */
  function Col(b: Board, j: nat): (r: seq<int>)
    requires |b| == 25 && j < 5
    ensures |r| == 5 && forall k :: 0 <= k < 5 ==> r[k] == b[5 * k + j]
  {
    seq(5, k requires 0 <= k < 5 => b[5 * k + j])
  }

  /** The five rows followed by the five columns (`rows().chain(columns())`); diagonals do not count. */
  function BoardLines(b: Board): (ls: seq<seq<int>>)
    requires |b| == 25
    ensures |ls| == 10 && forall k :: 0 <= k < 10 ==> |ls[k]| == 5
  {
    var ls := seq(10, k requires 0 <= k < 10 => if k < 5 then Row(b, k) else Col(b, k - 5));
    forall k | 0 <= k < 10 ensures |ls[k]| == 5 {
      if k < 5 {
        assert ls[k] == Row(b, k);
      } else {
        assert ls[k] == Col(b, k - 5);
      }
    }
    ls
  }

  /** Where cell i of line k sits in the row-major board. */
  function CellIndex(k: nat, i: nat): (c: nat)
    requires k < 10 && i < 5
    ensures c < 25
  {
    if k < 5 then 5 * k + i else 5 * i + (k - 5)
  }

  /** Cell i of line k is a cell of the board. */
  lemma LineCell(b: Board, k: nat, i: nat)
    requires |b| == 25 && k < 10 && i < 5
    ensures BoardLines(b)[k][i] == b[CellIndex(k, i)]
  {
    if k < 5 {
      assert BoardLines(b)[k] == Row(b, k);
    } else {
      assert BoardLines(b)[k] == Col(b, k - 5);
    }
  }

  /** The turns of the cells of a line. */
  function TurnsOf(turns: seq<nat>, line: seq<int>): (ts: seq<nat>)
    requires |turns| == INF && InRange(line)
    ensures |ts| == |line| && forall i :: 0 <= i < |line| ==> ts[i] == turns[line[i]]
  {
    seq(|line|, i requires 0 <= i < |line| => turns[line[i]])
  }

  /** `all_turn`: the turn by which every cell of the line has been drawn; INF for an empty line. */
  function AllTurn(turns: seq<nat>, line: seq<int>): (r: nat)
    requires |turns| == INF && InRange(line)
    ensures line == [] ==> r == INF
    ensures forall i :: 0 <= i < |line| ==> turns[line[i]] <= r
    ensures line != [] ==> exists i :: 0 <= i < |line| && r == turns[line[i]]
  {
    MaxOr(TurnsOf(turns, line), INF)
  }

  /** Every cell of the line is drawn by turn t. */
  predicate LineComplete(numbers: seq<int>, line: seq<int>, t: int)
  {
    forall i :: 0 <= i < |line| ==> Drawn(numbers, line[i], t)
  }

  /** The lines of a board hold only numbers of the board. */
  lemma LinesInRange(b: Board)
    requires |b| == 25 && InRange(b)
    ensures forall k :: 0 <= k < 10 ==> InRange(BoardLines(b)[k])
  {
    var ls := BoardLines(b);
    forall k, i | 0 <= k < 10 && 0 <= i < |ls[k]| ensures 0 <= ls[k][i] < INF {
      LineCell(b, k, i);
    }
  }

  /** Every cell of line k has a turn of at most t. */
  predicate LineDoneBy(turns: seq<nat>, b: Board, k: int, t: int)
    requires |turns| == INF && |b| == 25 && InRange(b) && 0 <= k < 10
  {
    forall i :: 0 <= i < 5 ==> turns[b[CellIndex(k, i)]] <= t
  }

  /** Every cell of line k has a turn before t. */
  predicate LineDoneBefore(turns: seq<nat>, b: Board, k: int, t: int)
    requires |turns| == INF && |b| == 25 && InRange(b) && 0 <= k < 10
  {
    forall i :: 0 <= i < 5 ==> turns[b[CellIndex(k, i)]] < t
  }

  /**
   * `winning_turn`: the smallest `all_turn` over the rows and columns. Some
   * line is done by it, and no line is done before it.
   */
  function WinningTurn(turns: seq<nat>, b: Board): (r: nat)
    requires |turns| == INF && |b| == 25 && InRange(b)
    ensures exists k :: 0 <= k < 10 && LineDoneBy(turns, b, k, r)
    ensures forall k :: 0 <= k < 10 ==> !LineDoneBefore(turns, b, k, r)
  {
    LinesInRange(b);
    var ls := BoardLines(b);
    var vs := seq(10, k requires 0 <= k < 10 => AllTurn(turns, ls[k]));
    forall k | 0 <= k < 10 ensures LineDoneBy(turns, b, k, vs[k]) && !LineDoneBefore(turns, b, k, vs[k]) {
      forall i | 0 <= i < 5 ensures ls[k][i] == b[CellIndex(k, i)] {
        LineCell(b, k, i);
      }
    }
    var r := MinOr(vs, INF);
    forall k | 0 <= k < 10 ensures !LineDoneBefore(turns, b, k, r) {
      assert r <= vs[k];
    }
    r
  }

  /** The board has a row or column fully drawn by turn t. */
  predicate BoardWins(numbers: seq<int>, b: Board, t: int)
    requires |b| == 25
  {
    exists k :: 0 <= k < 10 && LineComplete(numbers, BoardLines(b)[k], t)
  }

  /** Below INF, a line's `all_turn` is at most t exactly when the line is non-empty and fully drawn by t. */
  lemma AllTurnAtMost(numbers: seq<int>, line: seq<int>, t: int)
    requires InRange(line) && 0 <= t < INF
    ensures AllTurn(Table(numbers), line) <= t <==> line != [] && LineComplete(numbers, line, t)
  {
    var ts := TurnsOf(Table(numbers), line);
    forall i | 0 <= i < |line| ensures ts[i] <= t <==> Drawn(numbers, line[i], t) {
      FirstTurnDrawn(numbers, line[i], t);
    }
  }

  /** Below INF, the winning turn is at most t exactly when some row or column is fully drawn by t. */
  lemma WinningTurnAtMost(numbers: seq<int>, b: Board, t: int)
    requires |b| == 25 && InRange(b) && 0 <= t < INF
    ensures WinningTurn(Table(numbers), b) <= t <==> BoardWins(numbers, b, t)
  {
    LinesInRange(b);
    var turns := Table(numbers);
    var ls := BoardLines(b);
    var vs := seq(10, k requires 0 <= k < 10 => AllTurn(turns, ls[k]));
    assert WinningTurn(turns, b) == MinOr(vs, INF);
    MinOrAtMost(vs, INF, t);
    forall k | 0 <= k < 10 ensures vs[k] <= t <==> LineComplete(numbers, ls[k], t) {
      AllTurnAtMost(numbers, ls[k], t);
    }
  }

  /** The smallest of a non-empty sequence is at most t exactly when some element is. */
  lemma MinOrAtMost(ts: seq<nat>, dflt: nat, t: int)
    requires ts != []
    ensures MinOr(ts, dflt) <= t <==> exists k :: 0 <= k < |ts| && ts[k] <= t
  {
  }

  /**
   * A winning turn below INF is the first turn at which the board wins: it
   * wins then and at no earlier turn.
   */
  lemma WinningTurnIsFirstWin(numbers: seq<int>, b: Board)
    requires |b| == 25 && InRange(b)
    ensures var w := WinningTurn(Table(numbers), b);
      w < INF ==> BoardWins(numbers, b, w) && forall t :: 0 <= t < w ==> !BoardWins(numbers, b, t)
  {
    var w := WinningTurn(Table(numbers), b);
    if w < INF {
      WinningTurnAtMost(numbers, b, w);
      forall t | 0 <= t < w ensures !BoardWins(numbers, b, t) {
        WinningTurnAtMost(numbers, b, t);
      }
    }
  }

  /** With at most INF draws the winning turn is at most INF, and it is INF exactly when the board never wins. */
  lemma WinningTurnNever(numbers: seq<int>, b: Board)
    requires |b| == 25 && InRange(b) && |numbers| <= INF
    ensures WinningTurn(Table(numbers), b) <= INF
    ensures WinningTurn(Table(numbers), b) == INF <==> !BoardWins(numbers, b, INF - 1)
  {
    var turns := Table(numbers);
    TableBound(numbers);
    LinesInRange(b);
    var ls := BoardLines(b);
    forall k | 0 <= k < 10 ensures AllTurn(turns, ls[k]) <= INF {
      var ts := TurnsOf(turns, ls[k]);
      assert forall i :: 0 <= i < |ts| ==> ts[i] <= INF;
    }
    WinningTurnAtMost(numbers, b, INF - 1);
  }

  /** The number drawn at a winning turn below INF lies on the board: it is the call that completes the line. */
  lemma WinnerLastCall(numbers: seq<int>, b: Board)
    requires |b| == 25 && InRange(b) && WinningTurn(Table(numbers), b) < INF
    ensures WinningTurn(Table(numbers), b) < |numbers|
    ensures numbers[WinningTurn(Table(numbers), b)] in b
  {
    var turns := Table(numbers);
    LinesInRange(b);
    var ls := BoardLines(b);
    var w := WinningTurn(turns, b);
    var k :| 0 <= k < 10 && w == AllTurn(turns, ls[k]);
    var ts := TurnsOf(turns, ls[k]);
    var i :| 0 <= i < |ts| && w == ts[i];
    var n := ls[k][i];
    assert w == FirstTurn(numbers, n);
    LineCell(b, k, i);
    assert n == b[CellIndex(k, i)];
  }

  /** The sum of the cells whose first turn is after t (`filter(turns[n] > turn).sum()`). */
  function Unmarked(turns: seq<nat>, cells: seq<int>, t: int): int
    requires |turns| == INF && InRange(cells)
  {
    if cells == [] then 0
    else (if turns[cells[0]] > t then cells[0] else 0) + Unmarked(turns, cells[1..], t)
  }

  /** The sum of the cells not yet drawn by turn t. */
  function SumUndrawn(numbers: seq<int>, cells: seq<int>, t: int): int
  {
    if cells == [] then 0
    else (if Drawn(numbers, cells[0], t) then 0 else cells[0]) + SumUndrawn(numbers, cells[1..], t)
  }

  /** Below INF, the unmarked cells are exactly the cells not drawn by turn t. */
  lemma {:induction false} UnmarkedIsUndrawn(numbers: seq<int>, cells: seq<int>, t: int)
    requires InRange(cells) && 0 <= t < INF
    ensures Unmarked(Table(numbers), cells, t) == SumUndrawn(numbers, cells, t)
  {
    if cells != [] {
      FirstTurnDrawn(numbers, cells[0], t);
      UnmarkedIsUndrawn(numbers, cells[1..], t);
    }
  }

  /** `score`: the number drawn at turn t times the sum of the unmarked cells; `numbers[turn]` needs t < |numbers|. */
  function Score(numbers: seq<int>, turns: seq<nat>, b: Board, t: nat): (r: int)
    requires t < |numbers| && |turns| == INF && InRange(b)
    ensures turns == Table(numbers) && t < INF ==> r == numbers[t] * SumUndrawn(numbers, b, t)
  {
    if t < INF then UnmarkedIsUndrawn(numbers, b, t); numbers[t] * Unmarked(turns, b, t)
    else numbers[t] * Unmarked(turns, b, t)
  }

  /** The winning turn of every board, in order. */
  function WinningTurns(turns: seq<nat>, boards: seq<Board>): (ws: seq<nat>)
    requires |turns| == INF && forall i :: 0 <= i < |boards| ==> |boards[i]| == 25 && InRange(boards[i])
    ensures |ws| == |boards| && forall i :: 0 <= i < |boards| ==> ws[i] == WinningTurn(turns, boards[i])
  {
    seq(|boards|, i requires 0 <= i < |boards| => WinningTurn(turns, boards[i]))
  }

  /** Position i holds the smallest key, and no earlier position does. */
  predicate IsFirstMin(ts: seq<nat>, i: int)
  {
    0 <= i < |ts| && (forall j :: 0 <= j < |ts| ==> ts[i] <= ts[j]) && (forall j :: 0 <= j < i ==> ts[j] > ts[i])
  }

  /** Position i holds the largest key, and no later position does. */
  predicate IsLastMax(ts: seq<nat>, i: int)
  {
    0 <= i < |ts| && (forall j :: 0 <= j < |ts| ==> ts[j] <= ts[i]) && (forall j :: i < j < |ts| ==> ts[j] < ts[i])
  }

  /** `min_by_key`: the first position holding the smallest key. */
  function FirstArgMin(ts: seq<nat>): (i: nat)
    requires |ts| >= 1
    ensures IsFirstMin(ts, i)
  {
    if |ts| == 1 then 0
    else
      var k := FirstArgMin(ts[..|ts| - 1]);
      assert forall j :: 0 <= j < |ts| - 1 ==> ts[..|ts| - 1][j] == ts[j];
      if ts[|ts| - 1] < ts[k] then |ts| - 1 else k
  }

  /** `max_by_key`: the last position holding the largest key. */
  function LastArgMax(ts: seq<nat>): (i: nat)
    requires |ts| >= 1
    ensures IsLastMax(ts, i)
  {
    if |ts| == 1 then 0
    else
      var k := LastArgMax(ts[..|ts| - 1]);
      assert forall j :: 0 <= j < |ts| - 1 ==> ts[..|ts| - 1][j] == ts[j];
      if ts[|ts| - 1] >= ts[k] then |ts| - 1 else k
  }

  /** Every draw and every cell of every board is a valid index of the turn table. */
  predicate ValidGame(boards: seq<Board>, numbers: seq<int>)
  {
    InRange(numbers) && forall i :: 0 <= i < |boards| ==> |boards[i]| == 25 && InRange(boards[i])
  }

  /** r is the score of the first board to win, the first such board on ties. */
  predicate ScoresFirstWinner(boards: seq<Board>, numbers: seq<int>, r: int)
    requires ValidGame(boards, numbers)
  {
    var ws := WinningTurns(Table(numbers), boards);
    exists i :: 0 <= i < |boards| && IsFirstMin(ws, i) && ws[i] < |numbers| && r == Score(numbers, Table(numbers), boards[i], ws[i])
  }

  /** r is the score of the last board to win, the last such board on ties. */
  predicate ScoresLastWinner(boards: seq<Board>, numbers: seq<int>, r: int)
    requires ValidGame(boards, numbers)
  {
    var ws := WinningTurns(Table(numbers), boards);
    exists i :: 0 <= i < |boards| && IsLastMax(ws, i) && ws[i] < |numbers| && r == Score(numbers, Table(numbers), boards[i], ws[i])
  }

  /** Score the board that wins first, the first such board on ties (`min_by_key`). */
  method FirstWinnerScore(boards: seq<Board>, numbers: seq<int>) returns (r: int)
    requires ValidGame(boards, numbers) && |boards| >= 1
    requires exists i :: 0 <= i < |boards| && WinningTurn(Table(numbers), boards[i]) < |numbers|
    ensures ScoresFirstWinner(boards, numbers, r)
  {
    var turns := Invert(numbers);
    var ws := WinningTurns(turns, boards);
    var i := FirstArgMin(ws);
    var j :| 0 <= j < |boards| && WinningTurn(turns, boards[j]) < |numbers|;
    assert ws[i] <= ws[j];
    r := Score(numbers, turns, boards[i], ws[i]);
  }

  /** Score the board that wins last, the last such board on ties (`max_by_key`). */
  method LastWinnerScore(boards: seq<Board>, numbers: seq<int>) returns (r: int)
    requires ValidGame(boards, numbers) && |boards| >= 1
    requires forall i :: 0 <= i < |boards| ==> WinningTurn(Table(numbers), boards[i]) < |numbers|
    ensures ScoresLastWinner(boards, numbers, r)
  {
    var turns := Invert(numbers);
    var ws := WinningTurns(turns, boards);
    var i := LastArgMax(ws);
    r := Score(numbers, turns, boards[i], ws[i]);
  }

  /**
   * `part1`: the score of the first winner. `unwrap` panics without boards,
   * and `score` indexes the draws at the winning turn.
   */
  method Part1(input: string) returns (r: int)
    requires ValidGame(Parse(input).0, Parse(input).1) && |Parse(input).0| >= 1
    requires exists i :: 0 <= i < |Parse(input).0| && WinningTurn(Table(Parse(input).1), Parse(input).0[i]) < |Parse(input).1|
    ensures ScoresFirstWinner(Parse(input).0, Parse(input).1, r)
  {
    r := FirstWinnerScore(Parse(input).0, Parse(input).1);
  }

  /**
   * `part2`: the score of the last winner. `score` indexes the draws at its
   * winning turn, so every board must win within the draws.
   */
  method Part2(input: string) returns (r: int)
    requires ValidGame(Parse(input).0, Parse(input).1) && |Parse(input).0| >= 1
    requires forall i :: 0 <= i < |Parse(input).0| ==> WinningTurn(Table(Parse(input).1), Parse(input).0[i]) < |Parse(input).1|
    ensures ScoresLastWinner(Parse(input).0, Parse(input).1, r)
  {
    r := LastWinnerScore(Parse(input).0, Parse(input).1);
  }
}
