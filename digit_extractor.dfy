/** The digit extractor (src/bin/part_two.rs): every line contributes the
    two-digit number made of its first and last decimal digit, and `run`
    sums those numbers over the lines of the input. */
module DigitExtractor {

  import opened Wrappers

  predicate IsDigit(c: char) {
    '0' <= c <= '9'
  }

  /** No character of `s` is a decimal digit. */
  predicate NoDigits(s: string) {
    forall k :: 0 <= k < |s| ==> !IsDigit(s[k])
  }

  /** The numeric value of a digit character. */
  function DigitValue(c: char): (d: nat)
    requires IsDigit(c)
    ensures d <= 9
  {
    c as int - '0' as int
  }

  /** `char::to_digit(10)`: the value of an ASCII decimal digit, nothing for
      every other character. */
  function ToDigit(c: char): (d: Option<nat>)
    ensures d.Some? <==> IsDigit(c)
    ensures d.Some? ==> d.value <= 9
  {
    if IsDigit(c) then Some(DigitValue(c)) else None
  }

  /** `line.chars().filter_map(|c| c.to_digit(10))`: the values of the digit
      characters of `line`, in order. */
  function Digits(line: string): (ds: seq<nat>)
    ensures |ds| <= |line|
  {
    if |line| == 0 then [] else DigitOf(line[0]) + Digits(line[1..])
  }

  /** What the filter keeps of one character. */
  function DigitOf(c: char): (ds: seq<nat>)
    ensures |ds| <= 1
  {
    match ToDigit(c)
    case Some(d) => [d]
    case None => []
  }

  /** Every value the filter yields is a single decimal digit. */
  lemma {:induction false} DigitsAtMostNine(line: string)
    ensures forall k :: 0 <= k < |Digits(line)| ==> Digits(line)[k] <= 9
    decreases |line|
  {
    if |line| > 0 {
      DigitsAtMostNine(line[1..]);
    }
  }

  /** The filter comes back empty exactly when the line has no digit
      character. */
  lemma {:induction false} DigitsEmpty(line: string)
    ensures Digits(line) == [] <==> NoDigits(line)
    decreases |line|
  {
    if |line| > 0 {
      NoDigitsUncons(line);
      DigitsEmpty(line[1..]);
    }
  }

  lemma NoDigitsUncons(line: string)
    requires |line| > 0
    ensures NoDigits(line) <==> !IsDigit(line[0]) && NoDigits(line[1..])
  {
    if NoDigits(line[1..]) && !IsDigit(line[0]) {
      forall k | 0 <= k < |line| ensures !IsDigit(line[k]) {
        if k > 0 { assert line[k] == line[1..][k - 1]; }
      }
    }
  }

  /** `Iterator::last`: the final element, if any. */
  function Last(ds: seq<nat>): (r: Option<nat>)
    ensures r.None? <==> |ds| == 0
  {
    if |ds| == 0 then None else Some(ds[|ds| - 1])
  }

  /** The value one line contributes: `None` when `it.next().expect(..)`
      fails because the line has no digit; otherwise the first digit in the
      tens place and, in the units place, the last of the remaining digits,
      or the first digit again when no digit remains. The
      `format!`-then-`parse` step is the arithmetic `10 * first + last`. */
  function LineValue(line: string): (v: Option<nat>)
    ensures v.Some? ==> v.value <= 99
  {
    var ds := Digits(line);
    DigitsAtMostNine(line);
    if |ds| == 0 then None
    else
      var first := ds[0];
      match Last(ds[1..])
      case Some(n) => Some(10 * first + n)
      case None => Some(10 * first + first)
  }

  /** `lines().map(..).sum()`: the sum of the line values, or `None` as soon
      as one line has no digit. */
  function SumLines(lines: seq<string>): (total: Option<nat>)
    ensures total.Some? ==> total.value <= 99 * |lines|
  {
    if |lines| == 0 then Some(0)
    else
      match LineValue(lines[0])
      case None => None
      case Some(v) =>
        var rest := SumLines(lines[1..]);
        if rest.None? then None else Some(v + rest.value)
  }

  /** Index of the first newline of `s`, if any. */
  function NewlineAt(s: string): (i: Option<nat>)
    ensures i.Some? ==> i.value < |s| && s[i.value] == '\n' && '\n' !in s[..i.value]
    ensures i.None? ==> '\n' !in s
  {
    if |s| == 0 then None
    else if s[0] == '\n' then Some(0)
    else match NewlineAt(s[1..])
      case None => None
      case Some(j) => Some(j + 1)
  }

  /** `str::lines` without its carriage-return stripping: the pieces between
      newlines, where a final newline does not start an extra, empty line. */
  function Lines(s: string): (ls: seq<string>)
    ensures forall i :: 0 <= i < |ls| ==> '\n' !in ls[i]
    decreases |s|
  {
    if |s| == 0 then []
    else match NewlineAt(s)
      case None => [s]
      case Some(i) => [s[..i]] + Lines(s[i + 1..])
  }

  /** The inverse of `Lines`: the lines joined by newlines. */
  function JoinLines(ls: seq<string>): string {
    if |ls| == 0 then ""
    else if |ls| == 1 then ls[0]
    else ls[0] + "\n" + JoinLines(ls[1..])
  }

  /** `run`: the sum over all lines of the input, each line adding at most
      99. */
  function Run(input: string): (r: Option<nat>)
    ensures r.Some? ==> r.value <= 99 * |Lines(input)|
  {
    SumLines(Lines(input))
  }

  // ---------------------------------------------------------------------
  // Properties

  /** A line fails exactly when it has no digit character. */
  lemma LineValueNone(line: string)
    ensures LineValue(line).None? <==> NoDigits(line)
  {
    DigitsEmpty(line);
  }

  /** Filtering distributes over concatenation. */
  lemma {:induction false} DigitsAppend(a: string, b: string)
    ensures Digits(a + b) == Digits(a) + Digits(b)
    decreases |a|
  {
    if |a| == 0 {
      assert a + b == b;
    } else {
      assert (a + b)[0] == a[0];
      assert (a + b)[1..] == a[1..] + b;
      DigitsAppend(a[1..], b);
      Associative(DigitOf(a[0]), Digits(a[1..]), Digits(b));
    }
  }

  lemma Associative(x: seq<nat>, y: seq<nat>, z: seq<nat>)
    ensures x + (y + z) == (x + y) + z
  {
  }

  /** Everything before the first digit character is dropped. */
  lemma DigitsFromFirst(line: string, i: nat)
    requires i < |line| && IsDigit(line[i]) && NoDigits(line[..i])
    ensures Digits(line) == [DigitValue(line[i])] + Digits(line[i + 1..])
  {
    var before, after := line[..i], line[i + 1..];
    SplitAround(line, i);
    DigitsAppend(before, [line[i]] + after);
    DigitsEmpty(before);
    DigitsOfFirst(line[i], after);
    NothingBefore(Digits(line), Digits(before), DigitOf(line[i]), Digits(after));
  }

  lemma NothingBefore(ds: seq<nat>, pre: seq<nat>, one: seq<nat>, post: seq<nat>)
    requires ds == pre + (one + post) && pre == []
    ensures ds == one + post
  {
  }

  lemma SplitAround(line: string, i: nat)
    requires i < |line|
    ensures line == line[..i] + ([line[i]] + line[i + 1..])
  {
  }

  lemma DigitsOfFirst(c: char, rest: string)
    ensures Digits([c] + rest) == DigitOf(c) + Digits(rest)
  {
    assert ([c] + rest)[1..] == rest;
  }

  /** Everything after the last digit character is dropped. */
  lemma DigitsToLast(line: string, j: nat)
    requires j < |line| && IsDigit(line[j]) && NoDigits(line[j + 1..])
    ensures Digits(line) == Digits(line[..j]) + [DigitValue(line[j])]
  {
    assert line == (line[..j] + [line[j]]) + line[j + 1..];
    DigitsAppend(line[..j] + [line[j]], line[j + 1..]);
    DigitsAppend(line[..j], [line[j]]);
    DigitsEmpty(line[j + 1..]);
  }

  /** A line contributes ten times its leftmost digit plus its rightmost
      digit; when those are the same character (the line has one digit
      only) that digit is used twice. */
  lemma LineValueFirstLast(line: string, i: nat, j: nat)
    requires i <= j < |line|
    requires IsDigit(line[i]) && IsDigit(line[j])
    requires NoDigits(line[..i]) && NoDigits(line[j + 1..])
    ensures LineValue(line) == Some(10 * DigitValue(line[i]) + DigitValue(line[j]))
  {
    var ds := Digits(line);
    var rest := line[i + 1..];
    assert ds == [DigitValue(line[i])] + Digits(rest) by {
      DigitsFromFirst(line, i);
    }
    var last := Last(ds[1..]);
    if i == j {
      assert last == None by {
        DigitsEmpty(rest);
      }
    } else {
      assert last == Some(DigitValue(line[j])) by {
        assert rest[j - i - 1] == line[j];
        assert rest[j - i..] == line[j + 1..];
        DigitsToLast(rest, j - i - 1);
      }
    }
  }

  /** A line with exactly one digit `d` contributes `11 * d`. */
  lemma SingleDigitDoubled(line: string, i: nat)
    requires i < |line| && IsDigit(line[i])
    requires forall k :: 0 <= k < |line| && k != i ==> !IsDigit(line[k])
    ensures LineValue(line) == Some(11 * DigitValue(line[i]))
  {
    assert forall k :: 0 <= k < i ==> line[..i][k] == line[k];
    var after := line[i + 1..];
    forall k | 0 <= k < |after| ensures !IsDigit(after[k]) {
      assert after[k] == line[i + 1 + k];
    }
    LineValueFirstLast(line, i, i);
  }

  /** Non-digit characters are ignored: inserting one anywhere leaves the
      line's value unchanged. */
  lemma NonDigitIgnored(a: string, c: char, b: string)
    requires !IsDigit(c)
    ensures LineValue(a + [c] + b) == LineValue(a + b)
  {
    NonDigitDropped(a, c, b);
  }

  lemma NonDigitDropped(a: string, c: char, b: string)
    requires !IsDigit(c)
    ensures Digits(a + [c] + b) == Digits(a + b)
  {
    DigitsAppend(a + [c], b);
    DigitsAppend(a, [c]);
    DigitsAppend(a, b);
    assert Digits([c]) == [] by {
      assert [c][1..] == [];
    }
    assert Digits(a) + [] == Digits(a);
  }

  /** `run` fails exactly when some line has no digit character. */
  lemma {:induction false} SumLinesFails(lines: seq<string>)
    ensures SumLines(lines).None? <==> exists i :: 0 <= i < |lines| && NoDigits(lines[i])
    decreases |lines|
  {
    if |lines| > 0 {
      LineValueNone(lines[0]);
      SumLinesFails(lines[1..]);
      if exists i :: 0 <= i < |lines| - 1 && NoDigits(lines[1..][i]) {
        var i :| 0 <= i < |lines| - 1 && NoDigits(lines[1..][i]);
        assert NoDigits(lines[i + 1]);
      }
      if exists i :: 0 <= i < |lines| && NoDigits(lines[i]) {
        var i :| 0 <= i < |lines| && NoDigits(lines[i]);
        if i > 0 { assert NoDigits(lines[1..][i - 1]); }
      }
    }
  }

  /** `run` fails exactly when some line of the input has no digit
      character. */
  lemma RunFailsIff(input: string)
    ensures Run(input).None? <==> exists line <- Lines(input) :: NoDigits(line)
  {
    var ls := Lines(input);
    SumLinesFails(ls);
    if exists line <- ls :: NoDigits(line) {
      var line :| line in ls && NoDigits(line);
      var i :| 0 <= i < |ls| && ls[i] == line;
      assert NoDigits(ls[i]);
    }
  }

  /** `last` consumes the whole iterator: whatever comes before a
      non-empty tail, the tail's last element is the result. */
  lemma LastAppend(a: seq<nat>, b: seq<nat>)
    requires |b| > 0
    ensures Last(a + b) == Last(b)
  {
    assert (a + b)[|a + b| - 1] == b[|b| - 1];
  }

  /** The total over a concatenation of line lists adds up. */
  lemma {:induction false} SumLinesAppend(xs: seq<string>, ys: seq<string>)
    requires SumLines(xs).Some? && SumLines(ys).Some?
    ensures SumLines(xs + ys) == Some(SumLines(xs).value + SumLines(ys).value)
    decreases |xs|
  {
    if |xs| == 0 {
      assert xs + ys == ys;
    } else {
      assert (xs + ys)[1..] == xs[1..] + ys;
      SumLinesAppend(xs[1..], ys);
    }
  }

  /** Splitting joined lines gives them back, as long as no line contains a
      newline and the last line is not empty (a final empty line is not a
      line for `str::lines`). */
  lemma {:induction false} LinesJoinLines(ls: seq<string>)
    requires forall i :: 0 <= i < |ls| ==> '\n' !in ls[i]
    requires |ls| > 0 ==> |ls[|ls| - 1]| > 0
    ensures Lines(JoinLines(ls)) == ls
    decreases |ls|
  {
    if |ls| == 1 {
      NewlineAtAbsent(ls[0]);
    } else if |ls| > 1 {
      var s := JoinLines(ls);
      assert s == ls[0] + ("\n" + JoinLines(ls[1..]));
      NewlineAtPrefix(ls[0], "\n" + JoinLines(ls[1..]));
      assert s[|ls[0]| + 1..] == JoinLines(ls[1..]);
      assert s[..|ls[0]|] == ls[0];
      LinesJoinLines(ls[1..]);
    }
  }

  lemma {:induction false} NewlineAtAbsent(s: string)
    requires '\n' !in s
    ensures NewlineAt(s).None?
    decreases |s|
  {
    if |s| > 0 {
      NewlineAtAbsent(s[1..]);
    }
  }

  /** A final newline does not start an extra, empty line: joined lines
      followed by a newline split into the same lines. */
  lemma {:induction false} LinesDropFinalNewline(ls: seq<string>)
    requires |ls| > 0
    requires forall i :: 0 <= i < |ls| ==> '\n' !in ls[i]
    ensures Lines(JoinLines(ls) + "\n") == ls
    decreases |ls|
  {
    var s := JoinLines(ls) + "\n";
    if |ls| == 1 {
      NewlineAtPrefix(ls[0], "\n");
      assert s[..|ls[0]|] == ls[0];
      assert s[|ls[0]| + 1..] == "";
    } else {
      var t := JoinLines(ls[1..]) + "\n";
      assert s == ls[0] + ("\n" + t);
      NewlineAtPrefix(ls[0], "\n" + t);
      assert s[..|ls[0]|] == ls[0];
      assert s[|ls[0]| + 1..] == t;
      LinesDropFinalNewline(ls[1..]);
    }
  }

  lemma {:induction false} NewlineAtPrefix(a: string, b: string)
    requires '\n' !in a && |b| > 0 && b[0] == '\n'
    ensures NewlineAt(a + b) == Some(|a|)
    decreases |a|
  {
    if |a| > 0 {
      assert (a + b)[1..] == a[1..] + b;
      NewlineAtPrefix(a[1..], b);
    } else {
      assert a + b == b;
    }
  }

  // ---------------------------------------------------------------------
  // The example of the test module (src/bin/part_two.rs:28-35)

  /** The seven lines the test passes to `run`; the test literal is
      indented, so all but the first start with eight spaces. */
  function TestLines(): seq<string> {
    [ "two1nine",
      Indent + "eightwothree",
      Indent + "abcone2threexyz",
      Indent + "xtwone3four",
      Indent + "4nineeightseven2",
      Indent + "zoneight234",
      Indent + "7pqrstsixteen" ]
  }

  const Indent: string := "        "

  /** `run` fails on joined lines as soon as one of them has no digit
      character. */
  lemma RunFailsOnDigitlessLine(ls: seq<string>, k: nat)
    requires forall i :: 0 <= i < |ls| ==> '\n' !in ls[i]
    requires |ls| > 0 ==> |ls[|ls| - 1]| > 0
    requires k < |ls| && NoDigits(ls[k])
    ensures Run(JoinLines(ls)) == None
  {
    LinesJoinLines(ls);
    SumLinesFails(ls);
  }

  /** As written, `run` does not return the 142 the test expects: the second
      line spells its digits out and holds no digit character, so
      `expect` fails. */
  lemma TestInputAborts()
    ensures Run(JoinLines(TestLines())) == None
  {
    TestLinesHaveNoNewline();
    SecondTestLineHasNoDigit();
    RunFailsOnDigitlessLine(TestLines(), 1);
  }

  lemma TestLinesHaveNoNewline()
    ensures forall i :: 0 <= i < |TestLines()| ==> '\n' !in TestLines()[i]
  {
  }

  lemma SecondTestLineHasNoDigit()
    ensures |TestLines()| > 1 && NoDigits(TestLines()[1])
  {
  }

  /** Four lines whose digits-only total is the 142 the test expects. */
  function DigitsOnlyLines(): seq<string> {
    ["1abc2", "pqr3stu8vwx", "a1b2c3d4e5f", "treb7uchet"]
  }

  lemma ExampleLineOne()
    ensures LineValue("1abc2") == Some(12)
  {
    LineValueFirstLast("1abc2", 0, 4);
  }

  lemma ExampleLineTwo()
    ensures LineValue("pqr3stu8vwx") == Some(38)
  {
    assert NoDigits("pqr") && NoDigits("vwx");
    LineValueFirstLast("pqr3stu8vwx", 3, 7);
  }

  lemma ExampleLineThree()
    ensures LineValue("a1b2c3d4e5f") == Some(15)
  {
    assert NoDigits("a") && NoDigits("f");
    LineValueFirstLast("a1b2c3d4e5f", 1, 9);
  }

  lemma ExampleLineFour()
    ensures LineValue("treb7uchet") == Some(77)
  {
    assert NoDigits("treb") && NoDigits("uchet");
    LineValueFirstLast("treb7uchet", 4, 4);
  }

  lemma SumOfFourLines(w: string, x: string, y: string, z: string, a: nat, b: nat, c: nat, d: nat)
    requires LineValue(w) == Some(a) && LineValue(x) == Some(b)
    requires LineValue(y) == Some(c) && LineValue(z) == Some(d)
    ensures SumLines([w, x, y, z]) == Some(a + b + c + d)
  {
    assert SumLines([z]) == Some(d);
    assert [y, z][1..] == [z];
    assert SumLines([y, z]) == Some(c + d);
    assert [x, y, z][1..] == [y, z];
    assert SumLines([x, y, z]) == Some(b + c + d);
    assert [w, x, y, z][1..] == [x, y, z];
  }

  lemma DigitsOnlySum()
    ensures SumLines(DigitsOnlyLines()) == Some(142)
  {
    ExampleLineOne();
    ExampleLineTwo();
    ExampleLineThree();
    ExampleLineFour();
    SumOfFourLines("1abc2", "pqr3stu8vwx", "a1b2c3d4e5f", "treb7uchet", 12, 38, 15, 77);
  }

  lemma DigitsOnlyTotal()
    ensures Run(JoinLines(DigitsOnlyLines())) == Some(142)
  {
    LinesJoinLines(DigitsOnlyLines());
    DigitsOnlySum();
  }
}
