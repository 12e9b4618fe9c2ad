# Scratchcards and calibration digits, modelled in Dafny

This project models two small Advent of Code 2023 solvers from the same
repository, and proves what their code promises.

- **The scratchcard scorer** (`day_04/src/bin/part_one.rs`):
  - A nom parser reads lines of the form `Card <id>: <numbers> | <numbers>`.
  - Each line becomes a `Card` holding the owned numbers and the winning numbers, both as digit strings.
  - A card with m owned numbers among the winning ones scores 0 when m = 0, and 2^(m-1) otherwise.
  - `run` adds the scores.
- **The digit extractor** (`src/bin/part_two.rs`):
  - Every line keeps only its decimal digit characters.
  - The line contributes ten times its first digit plus its last digit. A line with one digit uses that digit twice.
  - A line without a digit makes `expect` panic.
  - `run` sums the contributions.

Both programs are pure functions from text to a number. The model consists of datatypes, functions and lemmas.

## Files

- `wrappers.dfy`: `Option`.
- `card_scorer.dfy` (module `CardScorer`): the nom combinators written out by hand over `string`, plus `side`, the sides of a card, the header, `card`, `parser`, `Card::score` and `run`.
  - Each parser returns `Parsed<T>`: `Ok(value, rest)`, `Error` or `Abort`.
  - `Error` is nom's recoverable `Err::Error`. An enclosing `separated_list1` stops and backtracks on it.
  - `Abort` is the panic of `sides[1]` on a card with a single side.
  - `Run` returns `None` where `unwrap` panics.
- `card_parser_lemmas.dfy` (module `CardParserLemmas`): a printer for cards, with any space runs the grammar accepts. The parser is proved to be its inverse at every level: number rounds, `side`, the bar, the sides, the header, `card`, the "line ending, card" rounds, `parser` and `run`. Also proved: how a one-sided card, a rejected later line, trailing spaces and a non-card input behave.
- `card_score_lemmas.dfy` (module `CardScoreLemmas`):
  - the doubling law of the score;
  - how the match count behaves under concatenation, reordering and duplicates;
  - its relation to the shared numbers;
  - the total's additivity and order independence.
- `card_sample.dfy` (module `CardSample`): the six-line test of `part_one.rs`. Its text is the six sample cards printed, and `run` on it returns 13.
- `digit_extractor.dfy` (module `DigitExtractor`):
  - `filter_map(to_digit(10))`, the first/last selection, the value of a line, `str::lines` and the sum;
  - their properties, and the test of `part_two.rs`.

Numbers on a card are compared as text, as `Vec<&str>::contains` compares them: `"06"` and `"6"` are different numbers.

The code behaves in ways a reader of the grammar might not expect:

- **A line that `card` rejects after the first card does not abort `run`.** `separated_list1(line_ending, card)` stops before any line that `card` rejects, and `run` ignores the unconsumed input.
  - This holds for every rejected line (`RunIgnoresTrailingLine`). One example is a line that starts with `Card` and a well-formed header but has no number after it, such as `Card 2: x` (`RunIgnoresMalformedCard`).
  - Every line after the rejected one is dropped as well, even a well-formed card.
  - A first line that `card` rejects does abort, because `parser` itself fails and `unwrap` panics (`RunRejectsRejectedFirstLine`). This covers a line that does not start with `Card` (`NonCardRejected`, `RunRejectsNonCard`) and a header with no number after it, such as `Card 1: x` (`MalformedBodyRejected`).
  - A card with a single side aborts, because the index `sides[1]` panics. This happens on the first line (`RunAbortsOnOneSidedFirstCard`), or on a later line when every line before it is a well-formed card (`RunAbortsOnOneSidedCard`). After a rejected line or a trailing space run the list has already ended, so the one-sided card is never read (`RunIgnoresTrailingLine`, `RunStopsAtTrailingSpaces`).
- **A space at the end of a card line silently drops every later card.** The last side stops before the trailing space run, so `card` leaves that run unconsumed. `line_ending` then fails on a space, and `parser` ends after that card. For example, `Card 1: 1 | 1 ` followed by a line feed and `Card 2: 2 | 2` totals 1, not 2 (`RunStopsAtTrailingSpaces`).
- **The match count is not bounded by the number of winning numbers.** An owned number written twice matches twice (`DuplicatesCountTwice`). Without repeated owned numbers, the count is at most the length of the shorter list (`CountMatchesDistinct`).

## Model

| member | source | states |
|---|---|---|
| CardScorer.SpanIsLongest | day_04/src/bin/part_one.rs:46-47 | every character of the measured run satisfies the class, and the character after it does not: `space1` and `digit1` take the longest run |
| CardScorer.Tag | day_04/src/bin/part_one.rs:46 | `tag` succeeds exactly when the literal is a prefix, and the input is the literal followed by the rest |
| CardScorer.Digit1 | day_04/src/bin/part_one.rs:47 | `digit1` succeeds exactly when the input starts with a digit; the rest is shorter and does not start with a digit |
| CardScorer.Digit1Reads | day_04/src/bin/part_one.rs:47 | what `digit1` reads is a non-empty run of ASCII digits, and the input is that run followed by the rest |
| CardScorer.Space1 | day_04/src/bin/part_one.rs:46 | `space1` succeeds exactly when the input starts with a space or tab; the rest does not start with one |
| CardScorer.Space1Reads | day_04/src/bin/part_one.rs:46 | what `space1` reads is a non-empty run of spaces and tabs, and the input is that run followed by the rest |
| CardScorer.LineEnding | day_04/src/bin/part_one.rs:40 | `line_ending` succeeds exactly on input starting with `\n` or `\r\n`, and leaves what follows the line feed or the carriage return and line feed |
| CardScorer.Side | day_04/src/bin/part_one.rs:60-62 | `side` succeeds exactly when the input starts with a digit, and consumes something |
| CardScorer.MoreNumbers | day_04/src/bin/part_one.rs:61 | the "space run, number" rounds never grow the input |
| CardScorer.MoreNumbersReads | day_04/src/bin/part_one.rs:61 | the rounds read numbers only; they stop where neither a digit nor a "space run, digit" round follows |
| CardScorer.SideReads | day_04/src/bin/part_one.rs:60-62 | `side` reads a non-empty list of numbers and stops where neither a digit nor a "space run, digit" round follows |
| CardScorer.BarSep | day_04/src/bin/part_one.rs:50 | the separator `space1 "\|" space1` consumes something when it succeeds |
| CardScorer.Sides | day_04/src/bin/part_one.rs:50 | the sides parser succeeds exactly when the input starts with a digit, and then yields at least one side |
| CardScorer.MoreSides | day_04/src/bin/part_one.rs:50 | the "bar, side" rounds never grow the input |
| CardScorer.MoreSidesRead | day_04/src/bin/part_one.rs:50 | every side read by the rounds is a non-empty list of numbers |
| CardScorer.SidesRead | day_04/src/bin/part_one.rs:50 | every side read is a non-empty list of numbers |
| CardScorer.HeaderReads | day_04/src/bin/part_one.rs:45-49 | the header is `Card`, a space run, digits, `:` and a space run, in that order, and nothing else; a space cannot follow it |
| CardScorer.Header | day_04/src/bin/part_one.rs:45-49 | the header succeeds only on input starting with `Card`, and it consumes input |
| CardScorer.ParseCard | day_04/src/bin/part_one.rs:44-58 | a card that parses consumes input |
| CardScorer.ParseCardValid | day_04/src/bin/part_one.rs:50-56 | both sides of a parsed card are non-empty lists of numbers |
| CardScorer.ParseCards | day_04/src/bin/part_one.rs:39-42 | a successful `parser` yields at least one card |
| CardScorer.MoreCards | day_04/src/bin/part_one.rs:40 | the "line ending, card" rounds never fail recoverably: a card that does not parse ends the list |
| CardScorer.CountMatches | day_04/src/bin/part_one.rs:16-20 | the match count is at most the number of owned numbers, and is zero exactly when no owned number is a winning one |
| CardScorer.Matches | day_04/src/bin/part_one.rs:16-20 | a card never has more matches than owned numbers |
| CardScorer.Pow2 | day_04/src/bin/part_one.rs:22 | a power of two is at least 1 |
| CardScorer.Points | day_04/src/bin/part_one.rs:21-24 | points are zero exactly when there is no match (`checked_sub` fails), and a single match is worth one point |
| CardScorer.Score | day_04/src/bin/part_one.rs:15-25 | a card scores nothing exactly when it has no match |
| CardScorer.Total | day_04/src/bin/part_one.rs:36 | the total is zero exactly when every card scores zero |
| CardScorer.Run | day_04/src/bin/part_one.rs:34-37 | `run` returns a total only for input starting with `Card`; anything else panics in `unwrap` |
| CardParserLemmas.Digit1Number | day_04/src/bin/part_one.rs:47 | `digit1` on a number followed by a non-digit reads exactly that number |
| CardParserLemmas.Space1Gap | day_04/src/bin/part_one.rs:46 | `space1` on a space run followed by a non-space reads exactly that run |
| CardParserLemmas.SideStopsAtTrailingSpaces | day_04/src/bin/part_one.rs:60-62 | `side` stops before a space run that no number follows and leaves the run unconsumed |
| CardParserLemmas.MoreNumbersStep | day_04/src/bin/part_one.rs:61 | one "space run, number" round reads the number and goes on after it |
| CardParserLemmas.MoreNumbersRoundTrip | day_04/src/bin/part_one.rs:61 | the rounds read back every printed number, whatever the space runs, up to a boundary |
| CardParserLemmas.SideStep | day_04/src/bin/part_one.rs:60-62 | `side` reads its first number, then the rounds |
| CardParserLemmas.SideRoundTrip | day_04/src/bin/part_one.rs:60-62 | `side` reads back a printed side, when what follows neither extends the last number nor starts another round |
| CardParserLemmas.BarSepRoundTrip | day_04/src/bin/part_one.rs:50 | the separator reads a printed bar with any space runs |
| CardParserLemmas.BarStopsSide | day_04/src/bin/part_one.rs:50 | a bar starts with a space run that `\|`, not a digit, follows, so `side` stops before it |
| CardParserLemmas.AfterSide | day_04/src/bin/part_one.rs:50 | inside printed sides, what follows a side never extends it |
| CardParserLemmas.MoreSidesRoundTrip | day_04/src/bin/part_one.rs:50 | the "bar, side" rounds read back every printed side |
| CardParserLemmas.SidesRoundTrip | day_04/src/bin/part_one.rs:50 | the sides parser reads back all printed sides, in order |
| CardParserLemmas.HeaderRoundTrip | day_04/src/bin/part_one.rs:45-49 | the header parser reads any printed header and leaves exactly what follows it |
| CardParserLemmas.CardStep | day_04/src/bin/part_one.rs:44-58 | after a header, `card` aborts on one side and otherwise takes the first two sides as owned and winning numbers |
| CardParserLemmas.BodyOfSides | day_04/src/bin/part_one.rs:50 | printed sides start with a digit, and the sides parser reads them back |
| CardParserLemmas.CardOfSides | day_04/src/bin/part_one.rs:44-58 | `card` on a printed header and sides: one side aborts; otherwise the first two sides become the card and any further sides are read and dropped; the id plays no part |
| CardParserLemmas.CardRoundTrip | day_04/src/bin/part_one.rs:44-58 | `card` reads back a card printed with any layout |
| CardParserLemmas.MoreCardsStep | day_04/src/bin/part_one.rs:40 | one "line ending, card" round reads the card and goes on after it |
| CardParserLemmas.MoreCardsStepCrlf | day_04/src/bin/part_one.rs:40 | the same round with a carriage return and line feed as the line ending reads the card and goes on after it |
| CardParserLemmas.MoreCardsRound | day_04/src/bin/part_one.rs:40 | a round whose card parses prepends that card to what the following rounds read |
| CardParserLemmas.MoreCardsRoundTrip | day_04/src/bin/part_one.rs:40 | the rounds read back every printed card, in order |
| CardParserLemmas.ParseCardsStep | day_04/src/bin/part_one.rs:39-42 | `parser` reads the first card, then the rounds |
| CardParserLemmas.FirstCardOfPrinted | day_04/src/bin/part_one.rs:39-42 | `parser` on printed cards reads the first card, then the rounds after it |
| CardParserLemmas.ParseCardsRoundTrip | day_04/src/bin/part_one.rs:39-42 | `parser` reads back every printed card, in order, then what the rounds make of the rest |
| CardParserLemmas.BoundaryStops | day_04/src/bin/part_one.rs:50 | at a boundary (after any leading space run comes nothing, or a character that is neither a digit nor `\|`) the last number does not go on, no further "space run, number" round starts, and no further "bar, side" round starts |
| CardParserLemmas.NoMoreCards | day_04/src/bin/part_one.rs:40 | the rounds read nothing when no line ending follows, or when `card` rejects what comes after the line ending |
| CardParserLemmas.RunRoundTrip | day_04/src/bin/part_one.rs:34-37 | `run` on printed cards is the total of their scores |
| CardParserLemmas.RunIgnoresTrailingLine | day_04/src/bin/part_one.rs:34-42 | a line after the printed cards that `card` rejects leaves the total unchanged, together with everything after it; this includes a final line feed, an empty line and a malformed line |
| CardParserLemmas.NonCardRejected | day_04/src/bin/part_one.rs:44-49 | `card` rejects a line that does not start with `Card` |
| CardParserLemmas.MalformedBodyRejected | day_04/src/bin/part_one.rs:44-50 | `card` rejects a well-formed header followed by something other than a number, such as `Card 2: x` |
| CardParserLemmas.RunIgnoresMalformedCard | day_04/src/bin/part_one.rs:34-50 | a later line with a well-formed header and no number after it is ignored, and so is every line after it |
| CardParserLemmas.GapThenLineFeed | day_04/src/bin/part_one.rs:40 | a space run followed by a line feed is a boundary for the card parsers, and `line_ending` fails there |
| CardParserLemmas.RunStopsAtTrailingSpaces | day_04/src/bin/part_one.rs:34-61 | a space run at the end of a card line ends `parser`: `run` returns the total of the cards up to that line, and every later card is dropped |
| CardParserLemmas.OneSidedCardAborts | day_04/src/bin/part_one.rs:50-56 | a line holding a card with one side aborts the "line ending, card" rounds |
| CardParserLemmas.RunAbortsOnOneSidedCard | day_04/src/bin/part_one.rs:34-56 | a one-sided card on a line that directly follows well-formed card lines makes `run` fail |
| CardParserLemmas.RunAbortsOnOneSidedFirstCard | day_04/src/bin/part_one.rs:34-56 | a one-sided card on the first line makes `run` fail |
| CardParserLemmas.RunRejectsRejectedFirstLine | day_04/src/bin/part_one.rs:34-42 | `run` fails whenever `card` rejects the first line |
| CardParserLemmas.RunRejectsNonCard | day_04/src/bin/part_one.rs:35-46 | input that does not start with `Card` makes `run` fail |
| CardScoreLemmas.PointsAreDoubling | day_04/src/bin/part_one.rs:21-24 | the closed form 2^(m-1) equals the rule "one point for the first match, doubled for every further match" |
| CardScoreLemmas.ScoreZeroIffNoMatch | day_04/src/bin/part_one.rs:16-24 | a card scores zero exactly when no owned number is a winning number |
| CardScoreLemmas.Pow2Add | day_04/src/bin/part_one.rs:22 | 2^(a+b) = 2^a · 2^b |
| CardScoreLemmas.PointsGeometric | day_04/src/bin/part_one.rs:21-22 | k further matches multiply the points by 2^k |
| CardScoreLemmas.PointsMonotone | day_04/src/bin/part_one.rs:21-24 | more matches never score fewer points |
| CardScoreLemmas.CountMatchesAppend | day_04/src/bin/part_one.rs:16-20 | the match count adds up over concatenated owned lists |
| CardScoreLemmas.CountMatchesPermutation | day_04/src/bin/part_one.rs:16-20 | reordering the owned numbers does not change the match count |
| CardScoreLemmas.CountMatchesSameWinning | day_04/src/bin/part_one.rs:19 | only membership in the winning numbers matters, not their order or repetitions |
| CardScoreLemmas.DuplicatesCountTwice | day_04/src/bin/part_one.rs:16-20 | an owned number written twice matches twice against one winning number, scoring 2 |
| CardScoreLemmas.CountMatchesShared | day_04/src/bin/part_one.rs:16-20 | without repeated owned numbers, the count is the number of distinct numbers the lists share |
| CardScoreLemmas.CountMatchesDistinct | day_04/src/bin/part_one.rs:16-20 | without repeated owned numbers, the count is at most the length of each list |
| CardScoreLemmas.TotalAppend | day_04/src/bin/part_one.rs:36 | the total of concatenated card lists is the sum of their totals |
| CardScoreLemmas.ScoreAtMostTotal | day_04/src/bin/part_one.rs:36 | every card's score is at most the total |
| CardScoreLemmas.TotalPermutation | day_04/src/bin/part_one.rs:36 | reordering the cards does not change the total |
| CardSample.PrintLine1 | day_04/src/bin/part_one.rs:70 | the first test line is card 1 printed |
| CardSample.PrintLine2 | day_04/src/bin/part_one.rs:71 | the second test line is card 2 printed |
| CardSample.PrintLine3 | day_04/src/bin/part_one.rs:72 | the third test line is card 3 printed, with two spaces after the colon |
| CardSample.PrintLine4 | day_04/src/bin/part_one.rs:73 | the fourth test line is card 4 printed |
| CardSample.PrintLine5 | day_04/src/bin/part_one.rs:74 | the fifth test line is card 5 printed |
| CardSample.PrintLine6 | day_04/src/bin/part_one.rs:75 | the sixth test line is card 6 printed |
| CardSample.Score1 | day_04/src/bin/part_one.rs:70 | card 1 has 4 matches and scores 8 |
| CardSample.Score2 | day_04/src/bin/part_one.rs:71 | card 2 has 2 matches and scores 2 |
| CardSample.Score3 | day_04/src/bin/part_one.rs:72 | card 3 has 2 matches and scores 2 |
| CardSample.Score4 | day_04/src/bin/part_one.rs:73 | card 4 has 1 match and scores 1 |
| CardSample.Score5 | day_04/src/bin/part_one.rs:74 | card 5 has no match and scores 0 |
| CardSample.Score6 | day_04/src/bin/part_one.rs:75 | card 6 has no match and scores 0 |
| CardSample.SampleIsPrinted | day_04/src/bin/part_one.rs:70-75 | the test input is the six cards printed with their layouts, one per line |
| CardSample.SampleFits | day_04/src/bin/part_one.rs:70-75 | every layout of the test input is one the grammar accepts |
| CardSample.SampleTotal | day_04/src/bin/part_one.rs:70-77 | the six cards score 13 in total |
| CardSample.SampleRun | day_04/src/bin/part_one.rs:70-77 | `run` on the test input returns 13 |
| DigitExtractor.DigitValue | src/bin/part_two.rs:11 | a digit's value is at most 9 |
| DigitExtractor.ToDigit | src/bin/part_two.rs:11 | `to_digit(10)` yields a value exactly for `'0'`..`'9'`, and that value is at most 9 |
| DigitExtractor.Digits | src/bin/part_two.rs:11 | the filter keeps at most as many values as the line has characters |
| DigitExtractor.DigitOf | src/bin/part_two.rs:11 | one character yields at most one value |
| DigitExtractor.DigitsAtMostNine | src/bin/part_two.rs:11 | every value the filter yields is at most 9 |
| DigitExtractor.DigitsEmpty | src/bin/part_two.rs:11-12 | the filter comes back empty exactly when the line has no digit character |
| DigitExtractor.Last | src/bin/part_two.rs:13 | `last` yields nothing exactly when no digit remains |
| DigitExtractor.LastAppend | src/bin/part_two.rs:13 | `last` consumes the whole iterator: the result is the last element of any non-empty tail, whatever comes before it |
| DigitExtractor.LineValue | src/bin/part_two.rs:12-16 | a line's value is at most 99 |
| DigitExtractor.SumLines | src/bin/part_two.rs:18 | the sum over n lines is at most 99·n |
| DigitExtractor.NewlineAt | src/bin/part_two.rs:9 | the index found is the first newline, and no index means no newline |
| DigitExtractor.Lines | src/bin/part_two.rs:9 | no line contains a newline |
| DigitExtractor.LineValueNone | src/bin/part_two.rs:12 | a line fails exactly when it has no digit character |
| DigitExtractor.DigitsAppend | src/bin/part_two.rs:11 | filtering distributes over concatenation |
| DigitExtractor.DigitsFromFirst | src/bin/part_two.rs:12 | everything before the first digit character is dropped |
| DigitExtractor.DigitsToLast | src/bin/part_two.rs:13 | everything after the last digit character is dropped |
| DigitExtractor.LineValueFirstLast | src/bin/part_two.rs:12-16 | a line contributes ten times its leftmost digit character plus its rightmost |
| DigitExtractor.SingleDigitDoubled | src/bin/part_two.rs:15 | a line with exactly one digit d contributes 11·d |
| DigitExtractor.NonDigitDropped | src/bin/part_two.rs:11 | inserting a non-digit character leaves the filtered digits unchanged |
| DigitExtractor.NonDigitIgnored | src/bin/part_two.rs:11-16 | inserting a non-digit character anywhere leaves the line's value unchanged |
| DigitExtractor.SumLinesFails | src/bin/part_two.rs:12-18 | the sum fails exactly when some line has no digit character |
| DigitExtractor.Run | src/bin/part_two.rs:7-20 | `run` returns at most 99 for each line of the input |
| DigitExtractor.RunFailsIff | src/bin/part_two.rs:7-20 | `run` fails exactly when some line of the input has no digit character |
| DigitExtractor.SumLinesAppend | src/bin/part_two.rs:18 | the sum over concatenated line lists adds up |
| DigitExtractor.LinesJoinLines | src/bin/part_two.rs:9 | splitting joined lines gives them back when no line has a newline and the last line is not empty |
| DigitExtractor.LinesDropFinalNewline | src/bin/part_two.rs:9 | a final newline does not start an extra, empty line: joined lines followed by a newline split into the same lines |
| DigitExtractor.RunFailsOnDigitlessLine | src/bin/part_two.rs:7-20 | `run` on joined lines fails when one of them has no digit character |
| DigitExtractor.TestInputAborts | src/bin/part_two.rs:28-35 | `run` on the test's seven lines fails: the second line holds no digit character |
| DigitExtractor.ExampleLineOne | src/bin/part_two.rs:11-16 | `1abc2` contributes 12 |
| DigitExtractor.ExampleLineTwo | src/bin/part_two.rs:11-16 | `pqr3stu8vwx` contributes 38 |
| DigitExtractor.ExampleLineThree | src/bin/part_two.rs:11-16 | `a1b2c3d4e5f` contributes 15 |
| DigitExtractor.ExampleLineFour | src/bin/part_two.rs:11-16 | `treb7uchet` contributes 77, its single digit taken twice |
| DigitExtractor.DigitsOnlySum | src/bin/part_two.rs:7-20 | the four digits-only example lines total 142 |
| DigitExtractor.DigitsOnlyTotal | src/bin/part_two.rs:28-35 | `run` on the four digits-only example lines returns the 142 the test expects |

## Left out

- `main` in both files: reading the bundled input and printing the result are I/O.
- The nom library's generic signatures and error types: the combinators are written out over `string`, and the result is one of `Ok`, `Error` or `Abort`.
- Panics (`unwrap`, `expect`, the index `sides[1]`) end the process in the source. The model turns them into `None` from `Run` and `Abort` from the card parsers.
- CardScorer.Points: does not model the `u32` overflow of `2u32.pow` for more than 32 matches; points are unbounded naturals.
- CardScorer.Total: does not model the `u32` overflow of the sum; the total is an unbounded natural.
- DigitExtractor.SumLines: does not model the `u32` overflow of the sum; the sum is an unbounded natural.
- DigitExtractor.LineValue: the `format!` then `parse::<u32>` step is the arithmetic `10 * first + last`. Two digits always parse, so its `expect` never fires.
- DigitExtractor.Lines: does not strip a `\r` before a newline as `str::lines` does. This changes no value, because `\r` is not a digit (`NonDigitIgnored`).

## Findings

| source | as written | input that shows it | evidently intended | confidence | as-written member | corrected member |
|---|---|---|---|---|---|---|
| src/bin/part_two.rs:28-35 | the test passes the seven example lines with spelled-out digits and expects 142 | the second line, `eightwothree` after eight spaces of indentation, holds no digit character, so `expect("Should be u32")` panics and the test cannot pass | the four digits-only example lines `1abc2`, `pqr3stu8vwx`, `a1b2c3d4e5f`, `treb7uchet`, whose total is 142 | high, not executed | DigitExtractor.TestInputAborts | DigitExtractor.DigitsOnlyTotal |
