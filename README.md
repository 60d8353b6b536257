# Advent of Code 2021, days 1–7, in Dafny

This project models the solvers for the first seven puzzles of Advent of Code
2021, together with the shared input helper they use. Each solver reads the
puzzle text and returns the answer for part 1 and part 2:

- **Day 1.** Count the depth readings that exceed the reading one place earlier, or three places earlier.
- **Day 2.** Fold a list of submarine commands (`up n`, `down n`, `forward n`) through two state machines: without aim and with aim.
- **Day 3.** Build gamma and epsilon from the most and least common bit of each position. Then filter the report bit by bit down to the oxygen and CO2 ratings.
- **Day 4.** Bingo. Invert the list of drawn numbers into a table from number to turn. A board wins at the first turn when a whole row or column has been drawn. Score the first winning board and the last.
- **Day 5.** Rasterise vent segments onto a grid and count the cells covered at least twice. Part 1 skips diagonal segments; part 2 includes them.
- **Day 6.** Simulate lanternfish as nine age counters in a rotating buffer for 80 and 256 days.
- **Day 7.** Align crab positions. Part 1 uses linear fuel and a median candidate. Part 2 uses triangular fuel and candidates next to the mean.

There is one module per source file:

| module | file | source |
|---|---|---|
| `Utils` | `utils.dfy` | `src/utils/mod.rs` |
| `Text` | `text.dfy` | the standard-library string operations the solvers call |
| `Day1` … `Day7` | `day1.dfy` … `day7.dfy` | `src/days/dayN/mod.rs` |

Pure code is modelled as functions and lemmas. The code that mutates state is written as methods with loop invariants:

- Day 4's `invert` loop.
- Day 5's grid (an `array2`) and its `add_line` loop.
- Day 6's nine-slot counter array.
- Day 7's sort.

Each method is proved against a specification function. The properties of that function are then proved as lemmas.

Integers are mathematical. Where the solvers work on `i32` or `usize`, the model assumes that no value overflows.

## Model

| member | source | states |
|---|---|---|
| Utils.Values | src/utils/mod.rs:8-10 | keeps the decodable fragments only, so never more values than fragments |
| Utils.ValuesAppend | src/utils/mod.rs:8-10 | decoding two runs of fragments gives the values of each run, in order |
| Utils.ValuesMembership | src/utils/mod.rs:9 | a value comes out exactly when some fragment decodes to it |
| Utils.ValuesAllDecode | src/utils/mod.rs:9 | when every fragment decodes, nothing is dropped and the i-th value comes from the i-th fragment |
| Text.SplitOnce | src/days/day2/mod.rs:13 | `split_once` succeeds exactly when the separator occurs; the two halves rebuild the input around the first occurrence |
| Text.SplitOnceFirst | src/days/day5/mod.rs:23 | when `s` is `a + sep + b` and `sep` starts nowhere inside `a`, `split_once` returns `(a, b)` |
| Text.SplitOnceAt | src/days/day5/mod.rs:16 | splitting `a + sep + b`, where `a` cannot hold the separator, returns `(a, b)` |
| Text.SplitOn | src/days/day7/mod.rs:4 | `split` returns at least one piece; no piece contains the separator; joining the pieces gives the input back |
| Text.SplitOnJoin | src/days/day6/mod.rs:3 | splitting a join on a one-character separator returns the original pieces |
| Text.Lines | src/days/day1/mod.rs:4 | no line contains a newline |
| Text.LinesJoin | src/days/day2/mod.rs:26 | the lines of newline-joined, carriage-return-free lines are those lines |
| Text.Words | src/days/day4/mod.rs:25 | `split_whitespace` yields non-empty words without whitespace |
| Text.WordsKeepText | src/days/day4/mod.rs:25 | the words, concatenated, are the input with its whitespace removed |
| Text.TrimStart | src/days/day6/mod.rs:3 | removes exactly the leading whitespace |
| Text.TrimEnd | src/days/day7/mod.rs:4 | removes exactly the trailing whitespace |
| Text.DigitsValue | src/days/day3/mod.rs:5 | digits in the given radix decode exactly when the string is non-empty and all digits |
| Text.DigitsRoundTrip | src/days/day3/mod.rs:5 | decoding the digits of n in any radix from 2 to 10 gives n |
| Text.IntRoundTrip | src/days/day1/mod.rs:4 | parsing the decimal text of any integer gives the integer back |
| Text.SplitOnJoinFree | src/days/day4/mod.rs:17 | splitting a join returns the pieces when no piece holds the separator's first character |
| Text.ValuesOfSeparated | src/days/day6/mod.rs:3 | values written with a one-character separator and read back with an inverse decoder come back in order |
| Text.ValuesOfLines | src/days/day1/mod.rs:4 | values written one per line and read back with an inverse decoder come back in order |
| Text.WordsJoin | src/days/day4/mod.rs:25 | `split_whitespace` of non-empty, whitespace-free words joined by single spaces gives the words back |
| Text.ValuesOfWords | src/days/day4/mod.rs:24-27 | values written with single spaces between them and read back word by word come back in order |
| Text.TrimJoinShown | src/days/day7/mod.rs:4 | `trim` leaves a join of whitespace-free texts unchanged |
| Day1.Solve | src/days/day1/mod.rs:6-10 | the count of pairs is at most `len - shift` |
| Day1.CountBelowIsCardinality | src/days/day1/mod.rs:7-9 | the recursive count is the size of the set of rising start indices |
| Day1.SolveCountsPairs | src/days/day1/mod.rs:6-10 | `solve` is the number of indices i with `xs[i] < xs[i + shift]` |
| Day1.SolveNonIncreasing | src/days/day1/mod.rs:8 | the comparison is strict: a stride that never rises counts nothing |
| Day1.SolveConstant | src/days/day1/mod.rs:8 | a constant sequence counts zero |
| Day1.CountBelowIncreasing | src/days/day1/mod.rs:8 | a stride that always rises counts every pair |
| Day1.SolveIncreasing | src/days/day1/mod.rs:6-10 | a strictly increasing sequence counts `len - shift` for every positive stride |
| Day1.WindowIncreases | src/days/day1/mod.rs:14 | counts increases of consecutive three-reading sums, at most one per window pair |
| Day1.StrideThreeIsWindows | src/days/day1/mod.rs:14 | stride 3 equals the number of increases of the sliding three-reading sums |
| Day1.Part1 | src/days/day1/mod.rs:12 | part 1 is the number of rises at stride 1 |
| Day1.Part2 | src/days/day1/mod.rs:14 | part 2 is the number of increasing three-reading windows |
| Day1.SampleAnswers | src/days/day1/mod.rs:23-29 | the example readings give 7 and 5 |
| Day1.ParseReportText | src/days/day1/mod.rs:4 | reading back readings written one per line gives the readings, in order |
| Day2.ParseCommand | src/days/day2/mod.rs:12-21 | "bad format" exactly when there is no space; "bad argument" exactly when the text after the first space is not an integer; "bad command" exactly when it is, but the verb is not `up`, `down` or `forward`; success carries the verb before the first space and the integer after it |
| Day2.ParseShowCommand | src/days/day2/mod.rs:12-21 | parsing the text of any command returns that command |
| Day2.ParseVerb | src/days/day2/mod.rs:15-18 | each of the three verbs maps to its command with the argument unchanged |
| Day2.ParseCommandsText | src/days/day2/mod.rs:24-29 | reading back commands written one per line gives the commands, in order |
| Day2.Update1 | src/days/day2/mod.rs:38-47 | one command moves the position by its forward amount and the depth by down minus up |
| Day2.Fold1 | src/days/day2/mod.rs:51 | folding `State1::update` adds the forward sum to the position and down minus up to the depth |
| Day2.Update2 | src/days/day2/mod.rs:63-75 | the aim moves as part 1's depth does and the position as part 1's position does |
| Day2.Fold2 | src/days/day2/mod.rs:79 | after folding `State2::update`, the position is the forward sum and the aim is down minus up |
| Day2.Fold1Append | src/days/day2/mod.rs:51 | folding a concatenation is folding one part, then the other |
| Day2.Fold2Append | src/days/day2/mod.rs:79 | the same for `State2` |
| Day2.Fold2Depth | src/days/day2/mod.rs:64-79 | part 2's depth is the sum over forward moves of n times the aim so far |
| Day2.Course1 | src/days/day2/mod.rs:49-53 | part 1's product is forward sum × (down − up) |
| Day2.Course2 | src/days/day2/mod.rs:77-81 | part 2's product is forward sum × the aim-weighted depth |
| Day2.Part1 | src/days/day2/mod.rs:49-53 | the answer is the forward sum times (down minus up) over the decodable commands |
| Day2.Part2 | src/days/day2/mod.rs:77-81 | the answer is the forward sum times the depth gained by every `forward n`: n times the aim (part 1's depth) reached just before it |
| Day2.SampleAnswers | src/days/day2/mod.rs:90-96 | the example course gives 150 and 900 |
| Day3.Parse | src/days/day3/mod.rs:1-8 | the width is the index of the first newline (0 without one); the numbers are the lines that decode in radix 2 |
| Day3.CountBitSplit | src/days/day3/mod.rs:12-13 | every number has a 0 or a 1 at each position, so `count1 = len − count0` |
| Day3.CountBitAbsent | src/days/day3/mod.rs:12 | no number has that bit, so the count is zero |
| Day3.CountBitPositive | src/days/day3/mod.rs:12 | a number has that bit, so the count is positive |
| Day3.CriteriaBit | src/days/day3/mod.rs:14-15 | 1 exactly when ones are at least as common as zeros, inverted for CO2 |
| Day3.Criteria | src/days/day3/mod.rs:10-17 | the criterion bit shifted to its place: `2^pos` exactly when the criterion holds, else 0 |
| Day3.CriteriaComplement | src/days/day3/mod.rs:15 | the plain and inverted criteria add up to `2^pos` |
| Day3.OrIntoMultiple | src/days/day3/mod.rs:25 | or-ing a lower bit into a multiple of a higher power adds it |
| Day3.Rate | src/days/day3/mod.rs:23-29 | the OR-fold over `(0..n).rev()` is the number whose bit p is the chosen criterion bit at p |
| Day3.RateFoldValue | src/days/day3/mod.rs:28-29 | the fold over `(0..n).rev()` builds the number whose bits are the criteria |
| Day3.BitsFromTop | src/days/day3/mod.rs:28 | adding the top position adds its criterion bit at its place |
| Day3.BitsFromBit | src/days/day3/mod.rs:28 | bit p of the assembled number is the criterion at position p |
| Day3.RateBits | src/days/day3/mod.rs:28-29 | bit p of gamma (epsilon) is the most (least) common bit at p |
| Day3.BitsFromComplement | src/days/day3/mod.rs:28-29 | gamma plus epsilon is `2^n − 1` |
| Day3.XorOfComplements | src/days/day3/mod.rs:28-29 | two numbers that add up to `2^n − 1` have no common bits, so their xor is their sum |
| Day3.GammaEpsilon | src/days/day3/mod.rs:28-29 | gamma and epsilon are below `2^n`, add up to `2^n − 1`, and are bitwise complements |
| Day3.PowerConsumption | src/days/day3/mod.rs:30 | the product is gamma × (`2^n − 1` − gamma) |
| Day3.Part1 | src/days/day3/mod.rs:20-31 | the answer is gamma × (`2^n − 1` − gamma), for a gamma below `2^n` whose bit p is the most common bit at p (ties to 1) |
| Day3.Keep | src/days/day3/mod.rs:41 | keeps as many numbers as have that bit |
| Day3.KeepMembers | src/days/day3/mod.rs:41 | a number is kept exactly when it is in the list and has the bit |
| Day3.KeepAppend | src/days/day3/mod.rs:41 | filtering distributes over concatenation |
| Day3.Step | src/days/day3/mod.rs:37-43 | a single survivor is kept as is; otherwise a number survives exactly when it is in the list and has the criterion bit at `pos`; the oxygen step never empties a non-empty list |
| Day3.Co2StepEmpties | src/days/day3/mod.rs:37-43 | the CO2 step empties the list exactly when all numbers agree at that bit and there are at least two |
| Day3.Rating | src/days/day3/mod.rs:45-46 | every survivor is a number of the report, and the oxygen rating of a non-empty report always leaves one, so `o2[0]` is safe |
| Day3.Part2 | src/days/day3/mod.rs:34-48 | part 2 is the product of two numbers of the report |
| Day4.BoardOf | src/days/day4/mod.rs:24-28 | a block makes a board exactly when it holds 25 integers, kept in order |
| Day4.BoardOfShown | src/days/day4/mod.rs:24-28 | the text of any 25 integers, separated by single spaces, makes that board |
| Day4.Parse | src/days/day4/mod.rs:16-32 | the draws come from the first block split on commas; the boards are the later blocks that make a board, in order, each of 25 cells |
| Day4.GameBlocks | src/days/day4/mod.rs:17 | the blank-line blocks of a game's text are the draws' text and each board's text |
| Day4.DrawsRoundTrip | src/days/day4/mod.rs:18-21 | reading back comma-separated draws gives the draws |
| Day4.BoardsRoundTrip | src/days/day4/mod.rs:22-30 | reading back the boards' texts gives the boards |
| Day4.ParseShowGame | src/days/day4/mod.rs:16-32 | reading back the text of a game gives its boards and its draws |
| Day4.FirstTurn | src/days/day4/mod.rs:36-37 | the first index where the number is drawn, or INF if it is never drawn |
| Day4.Table | src/days/day4/mod.rs:34-40 | a table of INF entries |
| Day4.Invert | src/days/day4/mod.rs:34-40 | the reverse loop leaves, for each number, the first turn it is drawn |
| Day4.FirstTurnDrawn | src/days/day4/mod.rs:34-40 | the turn is at most t exactly when the number is drawn by t |
| Day4.TableBound | src/days/day4/mod.rs:35 | every entry of the table is at most INF |
| Day4.Row | src/days/day4/mod.rs:54 | row i is cells `5i … 5i+4` |
| Day4.Col | src/days/day4/mod.rs:55 | column j is cells `j, j+5, …, j+20` |
| Day4.BoardLines | src/days/day4/mod.rs:54-55 | five rows, then five columns, each of five cells |
| Day4.LineCell | src/days/day4/mod.rs:54-55 | each cell of a line is the board cell `CellIndex` names |
| Day4.TurnsOf | src/days/day4/mod.rs:49 | the turn of each number in a line |
| Day4.AllTurn | src/days/day4/mod.rs:48-51 | the largest turn of the line's numbers: at least each of them and equal to one; INF for an empty line |
| Day4.AllTurnAtMost | src/days/day4/mod.rs:48-51 | below INF, `all_turn` is at most t exactly when the whole line is drawn by t |
| Day4.WinningTurn | src/days/day4/mod.rs:53-57 | some row or column has every cell drawn by the winning turn, and none has every cell drawn before it |
| Day4.WinningTurnAtMost | src/days/day4/mod.rs:53-57 | below INF, the winning turn is at most t exactly when some row or column is complete by t |
| Day4.MinOrAtMost | src/days/day4/mod.rs:56 | the minimum is at most t exactly when some element is |
| Day4.WinningTurnIsFirstWin | src/days/day4/mod.rs:53-57 | a winning turn below INF is the first turn at which the board wins |
| Day4.WinningTurnNever | src/days/day4/mod.rs:56 | with at most INF draws, the winning turn is at most INF, and it is INF exactly when the board never wins |
| Day4.WinnerLastCall | src/days/day4/mod.rs:53-60 | a winning turn below INF indexes the draws, and the number drawn then lies on the board |
| Day4.UnmarkedIsUndrawn | src/days/day4/mod.rs:61-63 | the cells with turn greater than t are exactly the cells not drawn by t |
| Day4.Score | src/days/day4/mod.rs:59-65 | on the inverted draws and below INF, the number drawn at the turn times the sum of the cells not drawn by then |
| Day4.WinningTurns | src/days/day4/mod.rs:70-71 | the winning turn of every board, in order |
| Day4.FirstArgMin | src/days/day4/mod.rs:72 | `min_by_key` picks the first position of the least key |
| Day4.LastArgMax | src/days/day4/mod.rs:80 | `max_by_key` picks the last position of the greatest key |
| Day4.FirstWinnerScore | src/days/day4/mod.rs:68-74 | the score of the board that wins first; the first such board on ties |
| Day4.LastWinnerScore | src/days/day4/mod.rs:76-82 | the score of the board that wins last; the last such board on ties |
| Day4.Part1 | src/days/day4/mod.rs:68-74 | part 1 scores the first winner of the parsed game |
| Day4.Part2 | src/days/day4/mod.rs:76-82 | part 2 scores the last winner of the parsed game |
| Day5.ParsePos | src/days/day5/mod.rs:15-20 | fails without a comma; when the halves around the first comma both decode, the result is the position they spell; on success, those halves are the coordinates |
| Day5.ParseLine | src/days/day5/mod.rs:22-27 | fails without an arrow; when the halves around the first arrow both parse as positions, the result is the segment between them; on success, those halves are the end points |
| Day5.ParseShowPos | src/days/day5/mod.rs:15-20 | parsing the text of any position returns it |
| Day5.ParseShowLine | src/days/day5/mod.rs:22-27 | parsing the text of any segment returns it |
| Day5.ParseSegmentsText | src/days/day5/mod.rs:29 | reading back segments written one per line gives the segments, in order |
| Day5.Sign | src/days/day5/mod.rs:42 | `signum` is −1, 0 or 1, with the sign of its argument |
| Day5.Direction | src/days/day5/mod.rs:40-43 | a unit step on each axis, positive, zero or negative as `b` lies above, level with or below `a` on that axis |
| Day5.Length | src/days/day5/mod.rs:45-48 | the larger of the two axis distances |
| Day5.IsDiagonal | src/days/day5/mod.rs:50-52 | a segment is diagonal exactly when its direction moves along both axes |
| Day5.PointAt | src/days/day5/mod.rs:63 | step 0 is `a`; on an admissible segment step `length` is `b` |
| Day5.OnLineIsOnSegment | src/days/day5/mod.rs:61-66 | on an admissible segment, the visited cells are exactly the lattice points from `a` to `b` |
| Day5.SwapSamePoints | src/days/day5/mod.rs:61-66 | reversing an admissible segment visits the same cells |
| Day5.PointsDistinct | src/days/day5/mod.rs:62-63 | the steps visit pairwise distinct cells |
| Day5.PointCount | src/days/day5/mod.rs:62 | `add_line` visits `length + 1` distinct cells |
| Day5.HitsBelowOnce | src/days/day5/mod.rs:62-64 | the first n steps hit a cell at most once |
| Day5.HitsIsOnLine | src/days/day5/mod.rs:61-66 | `add_line` adds 1 to each visited cell and 0 to every other cell |
| Day5.AddLine | src/days/day5/mod.rs:61-66 | the new grid is the old grid plus the segment's hits, cell by cell |
| Day5.MaxX | src/days/day5/mod.rs:56 | the largest x of any end point (0 without segments) |
| Day5.MaxY | src/days/day5/mod.rs:57 | the largest y of any end point (0 without segments) |
| Day5.CreateBoard | src/days/day5/mod.rs:55-59 | a fresh zero grid of size `(max_x + 1) × (max_y + 1)` |
| Day5.EndsInBoard | src/days/day5/mod.rs:55-64 | every cell that a non-negative admissible segment visits lies in that grid |
| Day5.AdmissibleFits | src/days/day5/mod.rs:55-64 | non-negative admissible input never indexes off the grid |
| Day5.Coverage | src/days/day5/mod.rs:71-73 | the counted segments cover a cell at most once each, and not at all exactly when none of them visits it |
| Day5.AddNext | src/days/day5/mod.rs:70-72 | one loop turn turns a grid tallying the first n segments into one tallying the first n + 1 |
| Day5.Rasterise | src/days/day5/mod.rs:70-73 | after the loop, each cell holds how many counted segments cover it |
| Day5.CountOverlaps | src/days/day5/mod.rs:74 | the count is the number of cells holding more than 1 |
| Day5.OverlapCellsAre | src/days/day5/mod.rs:74 | a grid holding every cell's coverage has exactly the overlapping cells above 1 |
| Day5.Part1 | src/days/day5/mod.rs:68-75 | part 1 is the number of cells covered by at least two non-diagonal segments |
| Day5.Part2 | src/days/day5/mod.rs:77-84 | part 2 is the number of cells covered by at least two segments |
| Day5.CoverageGrows | src/days/day5/mod.rs:71-80 | adding the diagonals never lowers a cell's coverage |
| Day5.PartOneAtMostPartTwo | src/days/day5/mod.rs:68-84 | part 1's answer is at most part 2's |
| Day6.Tally | src/days/day6/mod.rs:6-7 | slot v counts the fish of age v |
| Day6.TallyInto | src/days/day6/mod.rs:6-7 | the counting loop fills the array with the tally of the ages |
| Day6.TallyTotal | src/days/day6/mod.rs:7 | the tally adds up to the number of fish |
| Day6.Step | src/days/day6/mod.rs:8 | one day adds as many fish as were at age 0 |
| Day6.Simulate | src/days/day6/mod.rs:8 | nine slots after any number of days, and the population never shrinks |
| Day6.PopulationGrows | src/days/day6/mod.rs:8 | the population never shrinks |
| Day6.CountAppend | src/days/day6/mod.rs:7 | counting distributes over concatenation |
| Day6.CountNewborns | src/days/day6/mod.rs:8 | newborns are all of age 8 |
| Day6.CountAgeAll | src/days/day6/mod.rs:8 | ageing moves every fish one slot down and age-0 fish to 6 |
| Day6.TallyFishStep | src/days/day6/mod.rs:8 | the counter step equals ageing every fish individually, with newborns appended |
| Day6.AgeAllAt | src/days/day6/mod.rs:8 | ageing acts on each fish independently |
| Day6.TallyFishSim | src/days/day6/mod.rs:5-8 | after any number of days, the counters are the tally of the individually simulated school |
| Day6.Slot | src/days/day6/mod.rs:8 | buffer positions are taken modulo 9 |
| Day6.Rotate | src/days/day6/mod.rs:8 | moving to the next day shifts every slot by one, wrapping slot 0 to 8; the slot just added to becomes age 6 and no other |
| Day6.Round | src/days/day6/mod.rs:8 | one loop turn adds the slot of timer 0 into the slot of timer 7 and leaves the other eight slots alone |
| Day6.RoundIsStep | src/days/day6/mod.rs:8 | one `counts[(day+7)%9] += counts[day%9]` on the rotated buffer is one simulated day |
| Day6.Advance | src/days/day6/mod.rs:8 | after `days` rounds, slot `(days + i) % 9` holds the simulated count of age i |
| Day6.SlotsTotal | src/days/day6/mod.rs:9 | summing a rotated buffer gives the population |
| Day6.Solve | src/days/day6/mod.rs:5-10 | the sum is the simulated population, and equals the size of the individually simulated school |
| Day6.Part1 | src/days/day6/mod.rs:12 | the population after 80 days |
| Day6.Part2 | src/days/day6/mod.rs:14 | the population after 256 days |
| Day6.SampleTally | src/days/day6/mod.rs:7 | the ages 3,4,3,1,2 tally to `[0,1,1,2,1,0,0,0,0]` |
| Day6.SampleAnswers | src/days/day6/mod.rs:23-29 | the example school grows to 5934 fish after 80 days and 26984457539 after 256 |
| Day6.ParseShowAge | src/days/day6/mod.rs:3 | decoding the decimal text of a timer gives the timer |
| Day6.ParseAgesText | src/days/day6/mod.rs:3 | reading back comma-separated timers gives the timers, in order |
| Day7.TriangularExact | src/days/day7/mod.rs:22 | `n(n+1)/2` is exact, and at least n |
| Day7.Fuel | src/days/day7/mod.rs:16-22 | either fuel rule spends at least one unit per step and nothing exactly when the crab stays |
| Day7.Cost | src/days/day7/mod.rs:6-10 | the lesser of the two candidate costs: at most both, and equal to one of them |
| Day7.CostAt | src/days/day7/mod.rs:7-8 | the summed fuel is zero exactly when every crab is already at the position |
| Day7.GrowingCostsMore | src/days/day7/mod.rs:16-22 | triangular fuel never costs less than linear fuel |
| Day7.CostAppend | src/days/day7/mod.rs:7 | the cost of a concatenation is the sum of the costs |
| Day7.CostPermutation | src/days/day7/mod.rs:13-14 | the cost does not depend on the order of the crabs, so sorting is harmless |
| Day7.Sort | src/days/day7/mod.rs:14 | the array ends sorted and is a permutation of the original |
| Day7.MinIndex | src/days/day7/mod.rs:14 | finds the position of a least element of the unsorted suffix |
| Day7.MedianOptimal | src/days/day7/mod.rs:15-16 | linear cost at a median is at most the cost at any position |
| Day7.MedianInner | src/days/day7/mod.rs:15 | a median of a sorted list of at least two lies between its ends |
| Day7.CostEnds | src/days/day7/mod.rs:7 | the cost splits into the two ends plus the inner part |
| Day7.SortedMedian | src/days/day7/mod.rs:15-16 | `xs[len/2]` is a median of a sorted list |
| Day7.AlignConstant | src/days/day7/mod.rs:12-17 | the answer is the least linear cost over all positions, reached at one of the crabs |
| Day7.Part1 | src/days/day7/mod.rs:12-17 | part 1 is the optimal linear alignment cost of the parsed crabs |
| Day7.TruncDiv | src/days/day7/mod.rs:21 | `i32` division rounds toward zero for either sign of the sum |
| Day7.AlignGrowing | src/days/day7/mod.rs:19-23 | the lesser triangular cost at the truncated mean and at the mean plus one |
| Day7.SamplePart1 | src/days/day7/mod.rs:32 | no position aligns the example for less than 37, and position 2 costs exactly 37 |
| Day7.SamplePart2 | src/days/day7/mod.rs:38 | the example's truncated mean is 4, and the answer is 168 |
| Day7.ParsePositionsText | src/days/day7/mod.rs:4 | reading back comma-separated positions gives the positions, in order |

## Left out

- Overflow. `i32` and `usize` arithmetic is unbounded here; the solvers' wrap-around or overflow panics are not modelled.
- Parsing of numbers. `str::parse` is modelled as an optional sign followed by ASCII digits, with no range limits. `Text.IsSpace` knows only ASCII whitespace. `lines` strips one trailing carriage return.
- I/O. The puzzle files, the command-line driver and the `include_str!` fixtures are outside the model. The example inputs are written as literal values instead.
- Libraries. `ndarray` boards and `nalgebra` vectors are replaced by sequences, `array2` and a `Pos` datatype.
- `Game::new` has no member of its own. Its `parse` is called by `Day4.Part1` and `Day4.Part2`; its `invert` runs inside `Day4.FirstWinnerScore` and `Day4.LastWinnerScore`.
- `slice::sort` is modelled by a selection sort (`Day7.Sort`). Only the result matters to the solver: a sorted permutation.
- Day 3 and day 5 example answers (198/230 and 5/12) are not evaluated: the example files are not part of this model.
- Day 4 example answers (4512/1924) are not evaluated: evaluating 3 boards against 27 draws symbolically is beyond the verifier's budget.
- Day6.Solve: ages of 9 or more index outside the counter array and panic. The model requires every age to be below 9 instead of modelling the panic.
- Day7.AlignGrowing: it is not claimed to be the optimal triangular cost. The mean and mean-plus-one candidates are the solver's heuristic; only the candidates and their minimum are stated.
- Day7.Part2 has no contract. It divides by the number of crabs, so the empty input panics; the non-empty case is `Day7.AlignGrowing`.
- Day3.Part2 states only that the answer is a product of two report values. The oxygen rating's survivor is proved to exist (`Day3.Rating`); the CO2 one is demanded by the precondition, because the source panics when the CO2 filter empties.
- Day1.Part1 and Day1.Part2 require at least one and at least three decodable readings. With fewer, `&xs[shift..]` panics; the panic is not modelled.
- Day4.Part1 and Day4.Part2 require at least one board, every draw and every cell in `0..100`, and a winning turn that indexes the draws. Without a board `unwrap` panics; a number outside `0..100` indexes `turns` out of bounds; a winning turn past the draws makes `numbers[turn]` panic. These panics are not modelled.
- Day5.Part1 and Day5.Part2 require every visited cell to lie on the grid (`Day5.Fits`). A segment that leaves the grid makes the board index panic; the panic is not modelled. `Day5.AdmissibleFits` shows that non-negative, axis-parallel or 45-degree segments always fit.
- Day7.Part1 requires at least two crabs. With fewer, `mid - 1` underflows or `xs[mid]` is out of bounds, and the solver panics; the panic is not modelled.
- Day3.Parse takes the width as the index of the first newline counted in characters. `str::find` returns a byte offset, so the two agree only on ASCII input.
