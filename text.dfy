/**
 * The string operations of Rust's standard library that the puzzle parsers
 * use (`find`, `split_once`, `split`, `lines`, `split_whitespace`, `trim`
 * and integer decoding), stated on `seq<char>`.
 */
module Text {
  import opened Utils

  /** `sep` occurs in `s` starting at index `i`. */
  predicate Occurs(s: string, sep: string, i: int)
  {
    0 <= i && i + |sep| <= |s| && s[i..i + |sep|] == sep
  }

  /** The first occurrence of `sep` at or after `from`. */
  function IndexOfFrom(s: string, sep: string, from: nat): (r: Option<nat>)
    requires |sep| > 0 && from <= |s|
    ensures r.Some? ==> from <= r.value && Occurs(s, sep, r.value)
    ensures forall i :: from <= i && (r.None? || i < r.value) ==> !Occurs(s, sep, i)
    decreases |s| - from
  {
    if from + |sep| > |s| then None
    else if s[from..from + |sep|] == sep then Some(from)
    else IndexOfFrom(s, sep, from + 1)
  }

  /** `str::find`: the first occurrence of `sep` in `s`. */
  function IndexOf(s: string, sep: string): (r: Option<nat>)
    requires |sep| > 0
    ensures r.Some? ==> Occurs(s, sep, r.value)
    ensures forall i :: (r.None? || i < r.value) ==> !Occurs(s, sep, i)
  {
    IndexOfFrom(s, sep, 0)
  }

  /** `str::split_once`: the text before and after the first occurrence of `sep`. */
  function SplitOnce(s: string, sep: string): (r: Option<(string, string)>)
    requires |sep| > 0
    ensures r.Some? <==> exists i :: Occurs(s, sep, i)
    ensures r.Some? ==> s == r.value.0 + sep + r.value.1
    ensures r.Some? ==> forall i :: i < |r.value.0| ==> !Occurs(s, sep, i)
  {
    match IndexOf(s, sep)
    case None => None
    case Some(i) =>
      assert s == s[..i] + sep + s[i + |sep|..] by {
        assert s[i..i + |sep|] == sep;
      }
      Some((s[..i], s[i + |sep|..]))
  }

  /** Splitting at the first occurrence finds the separator right after a prefix that cannot start it. */
  /** `s` is `a`, then `sep`, then `b`, and `sep` does not start anywhere inside `a`. */
  predicate FirstSplit(s: string, sep: string, a: string, b: string)
  {
    s == a + sep + b && forall i :: 0 <= i < |a| ==> !Occurs(s, sep, i)
  }

  /** Splitting at the first occurrence of the separator gives exactly that split. */
  lemma SplitOnceFirst(s: string, sep: string, a: string, b: string)
    requires |sep| > 0 && FirstSplit(s, sep, a, b)
    ensures SplitOnce(s, sep) == Some((a, b))
  {
    assert Occurs(s, sep, |a|) by {
      assert s[|a|..|a| + |sep|] == sep;
    }
    var r := SplitOnce(s, sep);
    var a', b' := r.value.0, r.value.1;
    assert Occurs(s, sep, |a'|) by {
      assert s[|a'|..|a'| + |sep|] == sep;
    }
    assert |a'| == |a|;
    assert a' == s[..|a|] == a;
    assert b' == s[|a| + |sep|..] == b;
  }

  lemma SplitOnceAt(a: string, sep: string, b: string)
    requires |sep| > 0 && sep[0] !in a
    ensures SplitOnce(a + sep + b, sep) == Some((a, b))
  {
    var s := a + sep + b;
    assert Occurs(s, sep, |a|) by {
      assert s[|a|..|a| + |sep|] == sep;
    }
    forall i | 0 <= i < |a| ensures !Occurs(s, sep, i) {
      assert s[i] == a[i];
    }
    assert IndexOf(s, sep) == Some(|a|);
    assert s[..|a|] == a;
    assert s[|a| + |sep|..] == b;
  }

  /** The pieces glued back together with `sep` between neighbours. */
  function Join(pieces: seq<string>, sep: string): string
  {
    if |pieces| == 0 then []
    else if |pieces| == 1 then pieces[0]
    else pieces[0] + sep + Join(pieces[1..], sep)
  }

  /** `str::split` with a non-empty pattern: the pieces between occurrences, left to right. */
  function SplitOn(s: string, sep: string): (r: seq<string>)
    requires |sep| > 0
    ensures |r| >= 1
    ensures Join(r, sep) == s
    ensures forall k, i :: 0 <= k < |r| ==> !Occurs(r[k], sep, i)
    decreases |s|
  {
    match IndexOf(s, sep)
    case None => [s]
    case Some(i) =>
      var head := s[..i];
      var rest := SplitOn(s[i + |sep|..], sep);
      FirstPiece(s, sep, i);
      JoinCons(head, rest, sep);
      [head] + rest
  }

  /** The text before the first occurrence of `sep`, the separator and the text after it make up `s`. */
  lemma FirstPiece(s: string, sep: string, i: nat)
    requires |sep| > 0 && Occurs(s, sep, i)
    requires forall j :: j < i ==> !Occurs(s, sep, j)
    ensures s == s[..i] + sep + s[i + |sep|..]
    ensures forall j :: !Occurs(s[..i], sep, j)
  {
    assert s[i..i + |sep|] == sep;
    var head := s[..i];
    forall j | 0 <= j && j + |sep| <= |head| ensures !Occurs(head, sep, j) {
      assert head[j..j + |sep|] == s[j..j + |sep|];
      assert !Occurs(s, sep, j);
    }
  }

  /** Joining a piece in front of at least one other puts one separator after it. */
  lemma JoinCons(head: string, rest: seq<string>, sep: string)
    requires |rest| >= 1
    ensures Join([head] + rest, sep) == head + sep + Join(rest, sep)
  {
    assert ([head] + rest)[1..] == rest;
  }

  /** Splitting text joined with a one-character separator gives the pieces back. */
  lemma {:induction false} SplitOnJoin(pieces: seq<string>, c: char)
    requires |pieces| >= 1
    requires forall k :: 0 <= k < |pieces| ==> c !in pieces[k]
    ensures SplitOn(Join(pieces, [c]), [c]) == pieces
  {
    var s := Join(pieces, [c]);
    if |pieces| > 1 {
      var p := pieces[0];
      assert s == p + [c] + Join(pieces[1..], [c]);
      assert Occurs(s, [c], |p|) by {
        assert s[|p|..|p| + 1] == [c];
      }
      forall i | 0 <= i < |p| ensures !Occurs(s, [c], i) {
        assert s[i] == p[i];
      }
      assert IndexOf(s, [c]) == Some(|p|);
      assert s[..|p|] == p;
      assert s[|p| + 1..] == Join(pieces[1..], [c]);
      SplitOnJoin(pieces[1..], c);
    }
  }

  /** Drops one trailing carriage return. */
  function StripCR(line: string): string
  {
    if |line| > 0 && line[|line| - 1] == '\r' then line[..|line| - 1] else line
  }

  /**
   * `str::lines`: pieces between newlines, a `\r` before a newline removed,
   * and no empty last line after a final newline (so "" has no lines).
   */
  function Lines(s: string): (r: seq<string>)
    ensures forall k :: 0 <= k < |r| ==> '\n' !in r[k]
  {
    var parts := SplitOn(s, "\n");
    NoNewlineInPieces(parts);
    LinesOfPieces(parts)
  }

  /** Every piece but the last loses a trailing `\r`; an empty last piece is dropped. */
  function LinesOfPieces(parts: seq<string>): (r: seq<string>)
    requires |parts| >= 1
    requires forall k :: 0 <= k < |parts| ==> '\n' !in parts[k]
    ensures forall k :: 0 <= k < |r| ==> '\n' !in r[k]
  {
    var last := parts[|parts| - 1];
    var ended := seq(|parts| - 1, k requires 0 <= k < |parts| - 1 => StripCR(parts[k]));
    assert forall k :: 0 <= k < |ended| ==> '\n' !in ended[k] by {
      forall k | 0 <= k < |ended| ensures '\n' !in ended[k] {
        assert '\n' !in parts[k];
      }
    }
    if last == [] then ended else ended + [last]
  }

  lemma NoNewlineInPieces(parts: seq<string>)
    requires forall k, i :: 0 <= k < |parts| ==> !Occurs(parts[k], "\n", i)
    ensures forall k :: 0 <= k < |parts| ==> '\n' !in parts[k]
  {
    forall k, j | 0 <= k < |parts| && 0 <= j < |parts[k]| ensures parts[k][j] != '\n' {
      assert parts[k][j..j + 1] == [parts[k][j]];
      assert !Occurs(parts[k], "\n", j);
    }
  }

  /** Lines of text written one per line, each without newline or carriage return, the last one non-empty. */
  lemma LinesJoin(lines: seq<string>)
    requires |lines| >= 1 && lines[|lines| - 1] != []
    requires forall k :: 0 <= k < |lines| ==> '\n' !in lines[k] && '\r' !in lines[k]
    ensures Lines(Join(lines, "\n")) == lines
  {
    SplitOnJoin(lines, '\n');
    assert Lines(Join(lines, "\n")) == LinesOfPieces(lines);
    LinesOfCleanPieces(lines);
  }

  /** Pieces without carriage returns and with a non-empty last piece are their own lines. */
  lemma LinesOfCleanPieces(lines: seq<string>)
    requires |lines| >= 1 && lines[|lines| - 1] != []
    requires forall k :: 0 <= k < |lines| ==> '\n' !in lines[k] && '\r' !in lines[k]
    ensures LinesOfPieces(lines) == lines
  {
    var n := |lines|;
    var ended := seq(n - 1, k requires 0 <= k < n - 1 => StripCR(lines[k]));
    assert LinesOfPieces(lines) == ended + [lines[n - 1]];
    forall k | 0 <= k < n - 1 ensures ended[k] == lines[k] {
      NoCR(lines[k]);
    }
    assert ended == lines[..n - 1];
    assert lines[..n - 1] + [lines[n - 1]] == lines;
  }

  lemma NoCR(line: string)
    requires '\r' !in line
    ensures StripCR(line) == line
  {
    if |line| > 0 {
      assert line[|line| - 1] in line;
    }
  }

  /** The characters `split_whitespace` and `trim` treat as white space (ASCII only). */
  predicate IsSpace(c: char)
  {
    c == ' ' || c == '\t' || c == '\n' || c == '\r' || c == '\U{000B}' || c == '\U{000C}'
  }

  /** The longest prefix of `s` without white space. */
  function TakeWord(s: string): (w: string)
    ensures |w| <= |s| && w == s[..|w|]
    ensures forall i :: 0 <= i < |w| ==> !IsSpace(w[i])
    ensures |w| < |s| ==> IsSpace(s[|w|])
  {
    if s == [] || IsSpace(s[0]) then [] else [s[0]] + TakeWord(s[1..])
  }

  /** `str::split_whitespace`: the maximal runs of non-space characters. */
  function Words(s: string): (r: seq<string>)
    ensures forall k :: 0 <= k < |r| ==> r[k] != [] && forall i :: 0 <= i < |r[k]| ==> !IsSpace(r[k][i])
    decreases |s|
  {
    if s == [] then []
    else if IsSpace(s[0]) then Words(s[1..])
    else
      var w := TakeWord(s);
      [w] + Words(s[|w|..])
  }

  /** The characters of `s` that are not white space. */
  function NonSpace(s: string): string
  {
    if s == [] then [] else (if IsSpace(s[0]) then [] else [s[0]]) + NonSpace(s[1..])
  }

  /** All the pieces, concatenated. */
  function Concat(pieces: seq<string>): string
  {
    if pieces == [] then [] else pieces[0] + Concat(pieces[1..])
  }

  lemma {:induction false} NonSpaceAppend(a: string, b: string)
    ensures NonSpace(a + b) == NonSpace(a) + NonSpace(b)
  {
    if a != [] {
      assert (a + b)[1..] == a[1..] + b;
      NonSpaceAppend(a[1..], b);
    } else {
      assert a + b == b;
    }
  }

  lemma {:induction false} NonSpaceOfWord(w: string)
    requires forall i :: 0 <= i < |w| ==> !IsSpace(w[i])
    ensures NonSpace(w) == w
  {
    if w != [] {
      NonSpaceOfWord(w[1..]);
    }
  }

  /** The words together hold exactly the non-space characters, in order: nothing is lost or invented. */
  lemma {:induction false} WordsKeepText(s: string)
    ensures Concat(Words(s)) == NonSpace(s)
    decreases |s|
  {
    if s == [] {
    } else if IsSpace(s[0]) {
      WordsKeepText(s[1..]);
    } else {
      var w := TakeWord(s);
      WordsKeepText(s[|w|..]);
      assert s == w + s[|w|..];
      NonSpaceAppend(w, s[|w|..]);
      NonSpaceOfWord(w);
    }
  }

  /** `str::trim_start`. */
  function TrimStart(s: string): (r: string)
    ensures |r| <= |s| && r == s[|s| - |r|..]
    ensures r == [] || !IsSpace(r[0])
    ensures forall i :: 0 <= i < |s| - |r| ==> IsSpace(s[i])
  {
    if s != [] && IsSpace(s[0]) then TrimStart(s[1..]) else s
  }

  /** `str::trim_end`. */
  function TrimEnd(s: string): (r: string)
    ensures |r| <= |s| && r == s[..|r|]
    ensures r == [] || !IsSpace(r[|r| - 1])
    ensures forall i :: |r| <= i < |s| ==> IsSpace(s[i])
  {
    if s != [] && IsSpace(s[|s| - 1]) then TrimEnd(s[..|s| - 1]) else s
  }

  /** `str::trim`: white space removed at both ends. */
  function Trim(s: string): string
  {
    TrimEnd(TrimStart(s))
  }

  /** `c` is a digit in base `radix` (2 to 10). */
  predicate IsDigit(c: char, radix: nat)
  {
    '0' <= c && (c as int) - ('0' as int) < radix
  }

  function DigitOf(c: char): int
  {
    (c as int) - ('0' as int)
  }

  /** The value of a non-empty string of base-`radix` digits, most significant first. */
  function DigitsValue(s: string, radix: nat): (r: Option<nat>)
    requires 2 <= radix <= 10
    ensures r.Some? <==> s != [] && forall i :: 0 <= i < |s| ==> IsDigit(s[i], radix)
  {
    if s == [] || !IsDigit(s[|s| - 1], radix) then None
    else if |s| == 1 then Some(DigitOf(s[0]))
    else match DigitsValue(s[..|s| - 1], radix)
      case None => None
      case Some(v) => Some(v * radix + DigitOf(s[|s| - 1]))
  }

  /** Unsigned decoding (`usize::from_str`): an optional `+`, then digits; overflow is not modelled. */
  function ParseUnsigned(s: string, radix: nat): (r: Option<nat>)
    requires 2 <= radix <= 10
  {
    if |s| > 0 && s[0] == '+' then DigitsValue(s[1..], radix) else DigitsValue(s, radix)
  }

  /**
   * Signed decoding (`i32::from_str`, `i32::from_str_radix`): an optional `-` or `+`,
   * then at least one digit and nothing else; overflow is not modelled.
   */
  function ParseSigned(s: string, radix: nat): (r: Option<int>)
    requires 2 <= radix <= 10
    ensures r.Some? ==> s != [] && IsDigit(s[|s| - 1], radix)
    ensures r.Some? && r.value < 0 ==> s[0] == '-'
  {
    if |s| > 0 && s[0] == '-' then
      match DigitsValue(s[1..], radix)
      case None => None
      case Some(v) => Some(-(v as int))
    else
      match ParseUnsigned(s, radix)
      case None => None
      case Some(v) => Some(v)
  }

  /** Decimal decoding of an `i32`. */
  function ParseInt(s: string): Option<int>
  {
    ParseSigned(s, 10)
  }

  /** The digits of `n` in base `radix`, most significant first, without leading zeros. */
  function ShowDigits(n: nat, radix: nat): (s: string)
    requires 2 <= radix <= 10
    ensures s != [] && forall i :: 0 <= i < |s| ==> IsDigit(s[i], radix)
  {
    if n < radix then [('0' as int + n) as char]
    else ShowDigits(n / radix, radix) + [('0' as int + n % radix) as char]
  }

  /** Decimal text of an integer, with a `-` for negatives. */
  function ShowInt(i: int): (s: string)
    ensures s != [] && s[0] != '+'
    ensures forall k :: 0 <= k < |s| ==> s[k] == '-' || '0' <= s[k] <= '9'
  {
    if i < 0 then "-" + ShowDigits(-i, 10) else ShowDigits(i, 10)
  }

  /** Decoding digits with one more digit appended shifts the value up one place. */
  lemma DigitsValueSnoc(p: string, c: char, radix: nat)
    requires 2 <= radix <= 10 && p != [] && IsDigit(c, radix)
    ensures DigitsValue(p + [c], radix) ==
      if DigitsValue(p, radix).Some? then Some(DigitsValue(p, radix).value * radix + DigitOf(c)) else None
  {
    var s := p + [c];
    assert s[..|s| - 1] == p;
  }

  /** A number splits into its quotient and remainder by the radix, and the quotient is smaller. */
  lemma DivMod(n: nat, radix: nat)
    requires n >= radix >= 2
    ensures (n / radix) * radix + n % radix == n
    ensures n / radix < n
  {
  }

  /** Decoding the digits of a number gives the number back. */
  lemma {:induction false} DigitsRoundTrip(n: nat, radix: nat)
    requires 2 <= radix <= 10
    ensures DigitsValue(ShowDigits(n, radix), radix) == Some(n)
  {
    if n >= radix {
      var q, d := n / radix, n % radix;
      var last := ('0' as int + d) as char;
      DivMod(n, radix);
      assert ShowDigits(n, radix) == ShowDigits(q, radix) + [last];
      DigitsRoundTrip(q, radix);
      DigitsValueSnoc(ShowDigits(q, radix), last, radix);
    }
  }

  /** Decoding the decimal text of an integer gives the integer back. */
  lemma IntRoundTrip(i: int)
    ensures ParseInt(ShowInt(i)) == Some(i)
  {
    if i < 0 {
      DigitsRoundTrip(-i, 10);
      assert ShowInt(i)[1..] == ShowDigits(-i, 10);
    } else {
      DigitsRoundTrip(i, 10);
      var s := ShowDigits(i, 10);
      assert s[0] != '-' && s[0] != '+' by {
        assert IsDigit(s[0], 10);
      }
    }
  }

  /** The text of each value, glued together with `sep` between neighbours. */
  function JoinShown<A>(xs: seq<A>, show: A -> string, sep: string): string
  {
    Join(seq(|xs|, i requires 0 <= i < |xs| => show(xs[i])), sep)
  }

  /** A character property that holds of every piece and of the separator holds of their join. */
  lemma {:induction false} JoinKeeps(pieces: seq<string>, sep: string, ok: char -> bool)
    requires forall i :: 0 <= i < |sep| ==> ok(sep[i])
    requires forall k, i :: 0 <= k < |pieces| && 0 <= i < |pieces[k]| ==> ok(pieces[k][i])
    ensures forall i :: 0 <= i < |Join(pieces, sep)| ==> ok(Join(pieces, sep)[i])
  {
    if |pieces| > 1 {
      var head := pieces[0];
      var rest := Join(pieces[1..], sep);
      JoinKeeps(pieces[1..], sep, ok);
      var s := head + sep + rest;
      forall i | 0 <= i < |s| ensures ok(s[i]) {
        if i < |head| {
          assert s[i] == head[i];
        } else if i < |head| + |sep| {
          assert s[i] == sep[i - |head|];
        } else {
          assert s[i] == rest[i - |head| - |sep|];
        }
      }
    }
  }

  /** Splitting a join gives the pieces back when no piece holds the separator's first character. */
  lemma {:induction false} SplitOnJoinFree(pieces: seq<string>, sep: string)
    requires |sep| > 0 && |pieces| >= 1
    requires forall k :: 0 <= k < |pieces| ==> sep[0] !in pieces[k]
    ensures SplitOn(Join(pieces, sep), sep) == pieces
  {
    var s := Join(pieces, sep);
    if |pieces| > 1 {
      var p := pieces[0];
      var rest := Join(pieces[1..], sep);
      assert s == p + sep + rest;
      assert Occurs(s, sep, |p|) by {
        assert s[|p|..|p| + |sep|] == sep;
      }
      forall i | 0 <= i < |p| ensures !Occurs(s, sep, i) {
        assert s[i] == p[i];
      }
      assert IndexOf(s, sep) == Some(|p|);
      assert s[..|p|] == p;
      assert s[|p| + |sep|..] == rest;
      SplitOnJoinFree(pieces[1..], sep);
    }
  }

  /** Values written with `sep` between them and read back with an inverse decoder come back in order. */
  lemma ValuesOfSeparated<A>(xs: seq<A>, show: A -> string, decode: string -> Option<A>, c: char)
    requires forall x :: decode(show(x)) == Some(x)
    requires decode([]) == None
    requires forall x :: c !in show(x)
    ensures Values(SplitOn(JoinShown(xs, show, [c]), [c]), decode) == xs
  {
    var pieces := seq(|xs|, i requires 0 <= i < |xs| => show(xs[i]));
    if xs == [] {
      assert SplitOn([], [c]) == [[]];
    } else {
      SplitOnJoinFree(pieces, [c]);
      ValuesAllDecode(pieces, decode);
    }
  }

  /** Values written one per line and read back with an inverse decoder come back in order. */
  lemma ValuesOfLines<A>(xs: seq<A>, show: A -> string, decode: string -> Option<A>)
    requires forall x :: decode(show(x)) == Some(x)
    requires forall x :: show(x) != [] && '\n' !in show(x) && '\r' !in show(x)
    ensures Values(Lines(JoinShown(xs, show, "\n")), decode) == xs
  {
    var lines := seq(|xs|, i requires 0 <= i < |xs| => show(xs[i]));
    if xs == [] {
      assert SplitOn([], "\n") == [[]];
    } else {
      LinesJoin(lines);
      ValuesAllDecode(lines, decode);
    }
  }

  /** A character absent from every shown value and from the separator is absent from their join. */
  lemma JoinShownFree<A>(xs: seq<A>, show: A -> string, sep: string, c: char)
    requires c !in sep
    requires forall x :: c !in show(x)
    ensures c !in JoinShown(xs, show, sep)
  {
    var pieces := seq(|xs|, i requires 0 <= i < |xs| => show(xs[i]));
    var ok := d => d != c;
    forall k, i | 0 <= k < |pieces| && 0 <= i < |pieces[k]| ensures ok(pieces[k][i]) {
      assert pieces[k][i] in show(xs[k]);
    }
    JoinKeeps(pieces, sep, ok);
  }

  /** Values written with single spaces between them and read back word by word come back in order. */
  lemma ValuesOfWords<A>(xs: seq<A>, show: A -> string, decode: string -> Option<A>)
    requires forall x :: decode(show(x)) == Some(x)
    requires forall x :: show(x) != [] && forall k :: 0 <= k < |show(x)| ==> !IsSpace(show(x)[k])
    ensures Values(Words(JoinShown(xs, show, " ")), decode) == xs
  {
    var pieces := seq(|xs|, i requires 0 <= i < |xs| => show(xs[i]));
    WordsJoin(pieces);
    ValuesAllDecode(pieces, decode);
  }

  /** The first word of a word followed by white space, or by nothing, is that word. */
  lemma {:induction false} TakeWordOf(w: string, t: string)
    requires forall i :: 0 <= i < |w| ==> !IsSpace(w[i])
    requires t == [] || IsSpace(t[0])
    ensures TakeWord(w + t) == w
  {
    if w == [] {
      assert w + t == t;
    } else {
      assert (w + t)[1..] == w[1..] + t;
      TakeWordOf(w[1..], t);
    }
  }

  /** `split_whitespace` of words joined by single spaces gives the words back. */
  lemma {:induction false} WordsJoin(ws: seq<string>)
    requires forall k :: 0 <= k < |ws| ==> ws[k] != [] && forall i :: 0 <= i < |ws[k]| ==> !IsSpace(ws[k][i])
    ensures Words(Join(ws, " ")) == ws
  {
    if |ws| == 1 {
      TakeWordOf(ws[0], []);
      assert ws[0] + [] == ws[0];
      assert ws[0][|ws[0]|..] == [];
    } else if |ws| > 1 {
      var w := ws[0];
      var rest := Join(ws[1..], " ");
      var s := Join(ws, " ");
      assert s == w + (" " + rest);
      assert s[0] == w[0];
      TakeWordOf(w, " " + rest);
      assert s[|w|..] == " " + rest;
      assert (" " + rest)[1..] == rest;
      WordsJoin(ws[1..]);
      assert ws == [w] + ws[1..];
    }
  }

  /** Text without white space is its own trim. */
  lemma TrimNoSpace(s: string)
    requires forall i :: 0 <= i < |s| ==> !IsSpace(s[i])
    ensures Trim(s) == s
  {
  }

  /** Joining white-space-free texts with a white-space-free separator leaves nothing to trim. */
  lemma TrimJoinShown<A>(xs: seq<A>, show: A -> string, sep: string)
    requires forall x, k :: 0 <= k < |show(x)| ==> !IsSpace(show(x)[k])
    requires forall i :: 0 <= i < |sep| ==> !IsSpace(sep[i])
    ensures Trim(JoinShown(xs, show, sep)) == JoinShown(xs, show, sep)
  {
    var pieces := seq(|xs|, i requires 0 <= i < |xs| => show(xs[i]));
    JoinKeeps(pieces, sep, c => !IsSpace(c));
    TrimNoSpace(Join(pieces, sep));
  }

  /** The decimal text of an integer is non-empty and holds no white space and no comma. */
  lemma ShowIntPlain(i: int)
    ensures forall k :: 0 <= k < |ShowInt(i)| ==> !IsSpace(ShowInt(i)[k]) && ShowInt(i)[k] != ','
    ensures ShowInt(i) != [] && '\n' !in ShowInt(i) && '\r' !in ShowInt(i) && ',' !in ShowInt(i)
  {
  }
}
