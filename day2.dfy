/** Day 2: steer the submarine by folding a command list through one of two state machines. */
module Day2 {
  import opened Utils
  import opened Text

  datatype Command = Up(n: int) | Down(n: int) | Forward(n: int)

  /** Why `Command::from_str` rejects a line. */
  datatype CommandError = BadFormat | BadArgument | BadCommand

  datatype Result<T, E> = Ok(value: T) | Err(error: E)

  /**
   * `Command::from_str`: split at the first space, decode the argument, then
   * match the verb. The checks run in that order, so "left x" is a bad argument.
   */
  function ParseCommand(s: string): (r: Result<Command, CommandError>)
    ensures r == Err(BadFormat) <==> ' ' !in s
    ensures r == Err(BadArgument) <==>
      exists verb, arg :: s == verb + " " + arg && ' ' !in verb && ParseInt(arg) == None
    ensures r == Err(BadCommand) <==>
      exists verb, arg :: s == verb + " " + arg && ' ' !in verb && ParseInt(arg).Some? && verb !in {"up", "down", "forward"}
    ensures r.Ok? ==> exists verb, arg ::
      s == verb + " " + arg && ' ' !in verb && VerbOf(r.value) == verb && ParseInt(arg) == Some(r.value.n)
  {
    match SplitOnce(s, " ")
    case None =>
      assert forall i :: 0 <= i < |s| ==> !Occurs(s, " ", i) ==> s[i] != ' ' by {
        forall i | 0 <= i < |s| && s[i] == ' ' ensures Occurs(s, " ", i) {
          assert s[i..i + 1] == " ";
        }
      }
      Err(BadFormat)
    case Some((verb, arg)) =>
      assert ' ' in s by {
        assert s[|verb|] == ' ';
      }
      assert ' ' !in verb by {
        forall i | 0 <= i < |verb| ensures verb[i] != ' ' {
          assert !Occurs(s, " ", i);
          assert s[i..i + 1] == [verb[i]];
        }
      }
      assert forall v, a :: s == v + " " + a && ' ' !in v ==> v == verb && a == arg by {
        forall v: string, a: string | s == v + " " + a && ' ' !in v ensures v == verb && a == arg {
          SplitOnceAt(v, " ", a);
        }
      }
      match ParseInt(arg)
      case None => Err(BadArgument)
      case Some(n) =>
        if verb == "up" then Ok(Up(n))
        else if verb == "down" then Ok(Down(n))
        else if verb == "forward" then Ok(Forward(n))
        else Err(BadCommand)
  }

  /** The verb that names a command. */
  function VerbOf(c: Command): string
  {
    match c
    case Up(_) => "up"
    case Down(_) => "down"
    case Forward(_) => "forward"
  }

  /** The text of a command, as the puzzle input writes it. */
  function ShowCommand(c: Command): string
  {
    VerbOf(c) + " " + ShowInt(c.n)
  }

  /** Decoding the text of a command gives the command back. */
  lemma ParseShowCommand(c: Command)
    ensures ParseCommand(ShowCommand(c)) == Ok(c)
  {
    ParseVerb(VerbOf(c), c.n);
  }

  lemma ParseVerb(verb: string, n: int)
    requires verb in {"up", "down", "forward"}
    ensures ParseCommand(verb + " " + ShowInt(n)) ==
      if verb == "up" then Ok(Up(n)) else if verb == "down" then Ok(Down(n)) else Ok(Forward(n))
  {
    SplitOnceAt(verb, " ", ShowInt(n));
    IntRoundTrip(n);
  }

  function DecodeCommand(s: string): Option<Command>
  {
    match ParseCommand(s)
    case Ok(c) => Some(c)
    case Err(_) => None
  }

  /** `parse`: one command per line; lines that do not decode are dropped. */
  function Parse(input: string): seq<Command>
  {
    Values(Lines(input), DecodeCommand)
  }

  /** The state of part 1. */
  datatype State1 = State1(position: int, depth: int)

  /** `State1::update`: one command moves the position by its forward amount and the depth by down minus up. */
  function Update1(st: State1, c: Command): (r: State1)
    ensures r.position == st.position + SumForward([c])
    ensures r.depth == st.depth + NetDepth([c])
  {
    match c
    case Up(n) => st.(depth := st.depth - n)
    case Down(n) => st.(depth := st.depth + n)
    case Forward(n) => st.(position := st.position + n)
  }

  /**
   * `commands.into_iter().fold(state, State1::update)`, in closed form: the
   * position gains the sum of the forwards, the depth the downs minus the ups.
   */
  function Fold1(cmds: seq<Command>, st: State1): (r: State1)
    ensures r == State1(st.position + SumForward(cmds), st.depth + NetDepth(cmds))
  {
    if cmds == [] then st else Fold1(cmds[1..], Update1(st, cmds[0]))
  }

  /** The state of part 2. */
  datatype State2 = State2(position: int, depth: int, aim: int)

  /** `State2::update`: aim moves exactly as part 1's depth does, and position as part 1's position. */
  function Update2(st: State2, c: Command): (r: State2)
    ensures var s1 := Update1(State1(st.position, st.aim), c); r.position == s1.position && r.aim == s1.depth
  {
    match c
    case Up(n) => st.(aim := st.aim - n)
    case Down(n) => st.(aim := st.aim + n)
    case Forward(n) => st.(position := st.position + n, depth := st.depth + st.aim * n)
  }

  /**
   * `commands.into_iter().fold(state, State2::update)`: the position and the
   * aim move exactly as part 1's position and depth do.
   */
  function Fold2(cmds: seq<Command>, st: State2): (r: State2)
    ensures r.position == st.position + SumForward(cmds)
    ensures r.aim == st.aim + NetDepth(cmds)
  {
    if cmds == [] then st else Fold2(cmds[1..], Update2(st, cmds[0]))
  }

  const Start1 := State1(0, 0)
  const Start2 := State2(0, 0, 0)

  /** The total forward distance of the commands. */
  function SumForward(cmds: seq<Command>): int
  {
    if cmds == [] then 0 else (if cmds[0].Forward? then cmds[0].n else 0) + SumForward(cmds[1..])
  }

  /** The net descent of the commands: every `down n` adds n, every `up n` subtracts it. */
  function NetDepth(cmds: seq<Command>): int
  {
    if cmds == [] then 0
    else
      (match cmds[0]
       case Down(n) => n
       case Up(n) => -n
       case Forward(_) => 0) + NetDepth(cmds[1..])
  }

  /** Folding two runs of commands is folding the second from where the first ended. */
  lemma {:induction false} Fold1Append(xs: seq<Command>, ys: seq<Command>, st: State1)
    ensures Fold1(xs + ys, st) == Fold1(ys, Fold1(xs, st))
  {
    if xs == [] {
      assert xs + ys == ys;
    } else {
      assert (xs + ys)[1..] == xs[1..] + ys;
      Fold1Append(xs[1..], ys, Update1(st, xs[0]));
    }
  }

  /** Folding two runs of commands is folding the second from where the first ended. */
  lemma {:induction false} Fold2Append(xs: seq<Command>, ys: seq<Command>, st: State2)
    ensures Fold2(xs + ys, st) == Fold2(ys, Fold2(xs, st))
  {
    if xs == [] {
      assert xs + ys == ys;
    } else {
      assert (xs + ys)[1..] == xs[1..] + ys;
      Fold2Append(xs[1..], ys, Update2(st, xs[0]));
    }
  }

  /**
   * Part 2's depth, stated without the aim: every `Forward n` adds n times the
   * net depth of the commands before it, which is part 1's depth at that point.
   */
  function DepthByPrefix(cmds: seq<Command>): int
  {
    if cmds == [] then 0
    else
      var init := cmds[..|cmds| - 1];
      DepthByPrefix(init)
        + match cmds[|cmds| - 1]
          case Forward(n) => n * NetDepth(init)
          case _ => 0
  }

  /** Part 2's depth is the sum, over forward commands, of the step times part 1's depth so far. */
  lemma {:induction false} Fold2Depth(cmds: seq<Command>)
    ensures Fold2(cmds, Start2).depth == DepthByPrefix(cmds)
    decreases |cmds|
  {
    if cmds != [] {
      var init := cmds[..|cmds| - 1];
      var last := cmds[|cmds| - 1];
      assert cmds == init + [last];
      Fold2Depth(init);
      Fold2Snoc(init, last);
    }
  }

  /** One more command after `init`: a `forward n` adds n times the aim, which is the net depth of `init`. */
  lemma Fold2Snoc(init: seq<Command>, last: Command)
    ensures Fold2(init + [last], Start2).depth ==
      Fold2(init, Start2).depth + (if last.Forward? then last.n * NetDepth(init) else 0)
  {
    var st := Fold2(init, Start2);
    Fold2Append(init, [last], Start2);
    Fold2One(st, last);
    Update2Depth(st, last);
  }

  /** Folding a single command is one update. */
  lemma Fold2One(st: State2, c: Command)
    ensures Fold2([c], st) == Update2(st, c)
  {
    assert [c][1..] == [];
  }

  /** Only a `forward n` changes the depth, by n times the aim. */
  lemma Update2Depth(st: State2, c: Command)
    ensures Update2(st, c).depth == st.depth + (if c.Forward? then c.n * st.aim else 0)
  {
  }

  /** Position times depth after folding part 1's machine from the origin. */
  function Course1(cmds: seq<Command>): (r: int)
    ensures r == SumForward(cmds) * NetDepth(cmds)
  {
    var st := Fold1(cmds, Start1);
    st.position * st.depth
  }

  /** Position times depth after folding part 2's machine from the origin. */
  function Course2(cmds: seq<Command>): (r: int)
    ensures r == SumForward(cmds) * DepthByPrefix(cmds)
  {
    Fold2Depth(cmds);
    var st := Fold2(cmds, Start2);
    st.position * st.depth
  }

  /** `part1`: forward distance times net depth over the decodable commands. */
  function Part1(input: string): (r: int)
    ensures var cs := Parse(input); r == SumForward(cs) * NetDepth(cs)
  {
    Course1(Parse(input))
  }

  /** `part2`: forward distance times the depth gained by moving forward along the aim. */
  function Part2(input: string): (r: int)
    ensures var cs := Parse(input); r == SumForward(cs) * DepthByPrefix(cs)
  {
    Course2(Parse(input))
  }

  /** The text of a command list, one command per line. */
  function CommandsText(cs: seq<Command>): string
  {
    JoinShown(cs, ShowCommand, "\n")
  }

  /** The text of a command holds no line break. */
  lemma ShowCommandPlain(c: Command)
    ensures ShowCommand(c) != [] && '\n' !in ShowCommand(c) && '\r' !in ShowCommand(c)
  {
    var t := ShowCommand(c);
    forall k | 0 <= k < |t| ensures t[k] != '\n' && t[k] != '\r' {
      if k > |VerbOf(c)| {
        assert t[k] == ShowInt(c.n)[k - |VerbOf(c)| - 1];
      }
    }
  }

  /** Reading back a written command list gives the list. */
  lemma ParseCommandsText(cs: seq<Command>)
    ensures Parse(CommandsText(cs)) == cs
  {
    forall c ensures DecodeCommand(ShowCommand(c)) == Some(c) {
      ParseShowCommand(c);
    }
    forall c ensures ShowCommand(c) != [] && '\n' !in ShowCommand(c) && '\r' !in ShowCommand(c) {
      ShowCommandPlain(c);
    }
    ValuesOfLines(cs, ShowCommand, DecodeCommand);
  }

  const Sample: seq<Command> := [Forward(5), Down(5), Forward(8), Up(3), Down(8), Forward(2)]

  /** The sample course gives 150 for part 1 and 900 for part 2. */
  lemma SampleAnswers()
    ensures Course1(Sample) == 150
    ensures Course2(Sample) == 900
  {
    var st := Fold1(Sample, Start1);
    assert st.position == 15 && st.depth == 10;
    var tail3: seq<Command> := [Up(3), Down(8), Forward(2)];
    assert Sample == [Forward(5), Down(5), Forward(8)] + tail3;
    Fold2Append([Forward(5), Down(5), Forward(8)], tail3, Start2);
    var st2 := Fold2(Sample, Start2);
    assert st2 == Fold2(tail3, State2(13, 40, 5));
    assert st2.position == 15 && st2.depth == 60;
  }
}
