/** What the scratchcard parser promises: the grammar read by `card` and
    `parser` is the inverse of printing cards with any spacing the grammar
    allows, and `run` on printed cards is the sum of their scores. */
module CardParserLemmas {

  import opened Wrappers
  import opened CardScorer

  // ---------------------------------------------------------------------
  // Printing cards: the partner of the parser

  /** A side as written: its numbers and the space runs between
      neighbouring numbers. */
  datatype SideText = SideText(numbers: seq<string>, gaps: seq<string>)

  predicate WellWritten(w: SideText) {
    IsSide(w.numbers) && |w.gaps| + 1 == |w.numbers| && forall g <- w.gaps :: IsGap(g)
  }

  function PrintSide(w: SideText): string {
    if |w.numbers| == 0 then "" else w.numbers[0] + PrintNumberRounds(w.numbers[1..], w.gaps)
  }

  /** Each further number preceded by its space run. */
  function PrintNumberRounds(ts: seq<string>, gaps: seq<string>): string
    decreases |ts|
  {
    if |ts| == 0 || |gaps| == 0 then "" else gaps[0] + ts[0] + PrintNumberRounds(ts[1..], gaps[1..])
  }

  /** The space runs either side of the `|` between two sides. */
  datatype Bar = Bar(before: string, after: string)

  predicate WellWrittenBar(b: Bar) {
    IsGap(b.before) && IsGap(b.after)
  }

  function PrintBar(b: Bar): string {
    b.before + "|" + b.after
  }

  /** Every side of a sequence is well written. */
  predicate AllWritten(ws: seq<SideText>) {
    |ws| == 0 || (WellWritten(ws[0]) && AllWritten(ws[1..]))
  }

  /** Every bar of a sequence is well written. */
  predicate AllBars(bars: seq<Bar>) {
    |bars| == 0 || (WellWrittenBar(bars[0]) && AllBars(bars[1..]))
  }

  function PrintSides(ws: seq<SideText>, bars: seq<Bar>): string {
    if |ws| == 0 then "" else PrintSide(ws[0]) + PrintSideRounds(ws[1..], bars)
  }

  /** Each further side preceded by its bar. */
  function PrintSideRounds(ws: seq<SideText>, bars: seq<Bar>): string
    decreases |ws|
  {
    if |ws| == 0 || |bars| == 0 then ""
    else PrintBar(bars[0]) + PrintSide(ws[0]) + PrintSideRounds(ws[1..], bars[1..])
  }

  function NumbersOf(ws: seq<SideText>): (sides: seq<seq<string>>)
    ensures |sides| == |ws|
  {
    if |ws| == 0 then [] else [ws[0].numbers] + NumbersOf(ws[1..])
  }

  /** How one card is laid out on its line: the space runs, the id and the
      bar; the numbers come from the card. */
  datatype Layout = Layout(afterCard: string, id: string, afterColon: string,
                           ownedGaps: seq<string>, bar: Bar, winningGaps: seq<string>)

  predicate Fits(c: Card, lay: Layout) {
    && IsGap(lay.afterCard) && IsNumber(lay.id) && IsGap(lay.afterColon)
    && WellWritten(SideText(c.owned, lay.ownedGaps))
    && WellWrittenBar(lay.bar)
    && WellWritten(SideText(c.winning, lay.winningGaps))
  }

  function PrintCard(c: Card, lay: Layout): string {
    HeaderText(lay.afterCard, lay.id, lay.afterColon)
      + PrintSide(SideText(c.owned, lay.ownedGaps))
      + PrintBar(lay.bar)
      + PrintSide(SideText(c.winning, lay.winningGaps))
  }

  predicate AllFit(cards: seq<Card>, lays: seq<Layout>) {
    |cards| == |lays| && (|cards| == 0 || (Fits(cards[0], lays[0]) && AllFit(cards[1..], lays[1..])))
  }

  /** The cards, one per line, separated by line feeds. */
  function PrintCards(cards: seq<Card>, lays: seq<Layout>): string {
    if |cards| == 0 || |lays| == 0 then ""
    else PrintCard(cards[0], lays[0]) + PrintCardRounds(cards[1..], lays[1..])
  }

  /** Each further card preceded by a line feed. */
  function PrintCardRounds(cards: seq<Card>, lays: seq<Layout>): string
    decreases |cards|
  {
    if |cards| == 0 || |lays| == 0 then ""
    else "\n" + PrintCard(cards[0], lays[0]) + PrintCardRounds(cards[1..], lays[1..])
  }

  /** Text at which every parser of a card stops: after its leading run of
      spaces, if any, comes nothing, or a character that is neither a digit
      nor a `|`. */
  predicate Boundary(s: string) {
    var g := Span(s, IsSpace);
    g == |s| || (!IsDigit(s[g]) && s[g] != '|')
  }

  /** The cards in front of the outcome of parsing what follows them. */
  function Prepend(cards: seq<Card>, p: Parsed<seq<Card>>): Parsed<seq<Card>> {
    match p
    case Ok(more, rest) => Ok(cards + more, rest)
    case Error => Error
    case Abort => Abort
  }

  // ---------------------------------------------------------------------
  // The primitive parsers read exactly one token

  lemma Regroup(a: string, b: string, c: string, d: string)
    ensures a + b + c + d == a + (b + (c + d))
  {
  }

  lemma RegroupLine(a: string, b: string, c: string, d: string)
    ensures a + "\n" + b + c + d == a + ("\n" + (b + c + d))
  {
  }

  lemma {:induction false} SpanConcat(a: string, b: string, p: char -> bool)
    requires forall k :: 0 <= k < |a| ==> p(a[k])
    requires |b| == 0 || !p(b[0])
    ensures Span(a + b, p) == |a|
    decreases |a|
  {
    if |a| == 0 {
      assert a + b == b;
    } else {
      assert (a + b)[0] == a[0];
      assert (a + b)[1..] == a[1..] + b;
      SpanConcat(a[1..], b, p);
    }
  }

  lemma Digit1Number(t: string, rest: string)
    requires IsNumber(t) && !StartsWithDigit(rest)
    ensures Digit1(t + rest) == Some((t, rest))
  {
    SpanConcat(t, rest, IsDigit);
    assert (t + rest)[..|t|] == t && (t + rest)[|t|..] == rest;
  }

  lemma Space1Gap(g: string, rest: string)
    requires IsGap(g) && !StartsWithSpace(rest)
    ensures Space1(g + rest) == Some((g, rest))
  {
    SpanConcat(g, rest, IsSpace);
    assert (g + rest)[..|g|] == g && (g + rest)[|g|..] == rest;
  }

  // ---------------------------------------------------------------------
  // `side`

  /** `side` stops before a space run that no number follows and leaves
      that run unconsumed. */
  lemma SideStopsAtTrailingSpaces(t: string, g: string, rest: string)
    requires IsNumber(t) && IsGap(g) && !StartsWithDigit(rest) && !StartsWithSpace(rest)
    ensures Side(t + g + rest) == Some(([t], g + rest))
  {
    assert t + g + rest == t + (g + rest);
    Digit1Number(t, g + rest);
    Space1Gap(g, rest);
    assert Digit1(rest).None?;
    assert MoreNumbers(g + rest) == ([], g + rest);
    assert [t] + [] == [t];
  }

  /** One "space run, number" round of `side`. */
  lemma MoreNumbersStep(g: string, t: string, x: string)
    requires IsGap(g) && IsNumber(t) && !StartsWithDigit(x)
    ensures !StartsWithDigit(g + (t + x))
    ensures MoreNumbers(g + (t + x)) == ([t] + MoreNumbers(x).0, MoreNumbers(x).1)
  {
    assert (t + x)[0] == t[0];
    Space1Gap(g, t + x);
    Digit1Number(t, x);
    assert (g + (t + x))[0] == g[0];
  }

  lemma {:induction false} MoreNumbersRoundTrip(ts: seq<string>, gaps: seq<string>, rest: string)
    requires |ts| == |gaps|
    requires forall t <- ts :: IsNumber(t)
    requires forall g <- gaps :: IsGap(g)
    requires !StartsWithDigit(rest) && !ContinuesSide(rest)
    ensures !StartsWithDigit(PrintNumberRounds(ts, gaps) + rest)
    ensures MoreNumbers(PrintNumberRounds(ts, gaps) + rest) == (ts, rest)
    decreases |ts|
  {
    if |ts| == 0 {
      NoNumberRounds(ts, gaps, rest);
    } else {
      var x := PrintNumberRounds(ts[1..], gaps[1..]) + rest;
      MoreNumbersRoundTrip(ts[1..], gaps[1..], rest);
      Regroup(gaps[0], ts[0], PrintNumberRounds(ts[1..], gaps[1..]), rest);
      assert ts[0] in ts && gaps[0] in gaps;
      MoreNumbersStep(gaps[0], ts[0], x);
      ConsFirst(ts);
    }
  }

  lemma NoNumberRounds(ts: seq<string>, gaps: seq<string>, rest: string)
    requires |ts| == 0
    ensures PrintNumberRounds(ts, gaps) + rest == rest
  {
  }

  /** A non-empty sequence is its first element followed by the others. */
  lemma ConsFirst<T>(s: seq<T>)
    requires |s| > 0
    ensures [s[0]] + s[1..] == s
  {
  }

  /** A printed side is its first number followed by the rounds. */
  lemma SideSplit(w: SideText, rest: string)
    requires |w.numbers| > 0
    ensures PrintSide(w) + rest == w.numbers[0] + (PrintNumberRounds(w.numbers[1..], w.gaps) + rest)
  {
  }

  /** `side` reads back the numbers of a side written with any space runs,
      when what follows neither extends the last number nor starts another
      "space run, number" round. */
  lemma SideRoundTrip(w: SideText, rest: string)
    requires WellWritten(w)
    requires !StartsWithDigit(rest) && !ContinuesSide(rest)
    ensures Side(PrintSide(w) + rest) == Some((w.numbers, rest))
  {
    var x := PrintNumberRounds(w.numbers[1..], w.gaps) + rest;
    assert w.numbers[0] in w.numbers;
    assert forall t <- w.numbers[1..] :: t in w.numbers;
    MoreNumbersRoundTrip(w.numbers[1..], w.gaps, rest);
    SideSplit(w, rest);
    SideStep(w.numbers[0], x);
    ConsFirst(w.numbers);
  }

  /** The first number of `side`, then its rounds. */
  lemma SideStep(t: string, x: string)
    requires IsNumber(t) && !StartsWithDigit(x)
    ensures Side(t + x) == Some(([t] + MoreNumbers(x).0, MoreNumbers(x).1))
  {
    Digit1Number(t, x);
  }

  // ---------------------------------------------------------------------
  // The sides of a card

  lemma BarSepRoundTrip(b: Bar, rest: string)
    requires WellWrittenBar(b) && !StartsWithSpace(rest)
    ensures BarSep(PrintBar(b) + rest) == Some(rest)
  {
    Regroup(b.before, "|", b.after, rest);
    Space1Gap(b.before, "|" + (b.after + rest));
    Space1Gap(b.after, rest);
  }

  lemma SideStartsWithDigit(w: SideText, x: string)
    requires WellWritten(w)
    ensures StartsWithDigit(PrintSide(w) + x)
  {
    assert w.numbers[0] in w.numbers;
    SideSplit(w, x);
  }

  /** A bar starts with a space run that a `|`, not a digit, follows. */
  lemma BarStopsSide(b: Bar, y: string, s: string)
    requires WellWrittenBar(b) && s == PrintBar(b) + y
    ensures !StartsWithDigit(s) && !ContinuesSide(s) && StartsWithSpace(s)
  {
    assert s == b.before + ("|" + (b.after + y)) by {
      Regroup(b.before, "|", b.after, y);
    }
    SpanConcat(b.before, "|" + (b.after + y), IsSpace);
    assert s[0] == b.before[0];
    assert s[|b.before|] == '|';
  }

  /** At a boundary neither the last number nor the sides go on. */
  lemma BoundaryStops(rest: string)
    requires Boundary(rest)
    ensures !StartsWithDigit(rest) && !ContinuesSide(rest)
    ensures MoreSides(rest) == ([], rest)
  {
    SpanIsLongest(rest, IsSpace);
    var g := Span(rest, IsSpace);
    if g > 0 {
      assert Space1(rest) == Some((rest[..g], rest[g..]));
      assert g < |rest| ==> rest[g..][0] == rest[g];
      assert Tag("|", rest[g..]).None?;
    }
  }

  /** No rounds print nothing. */
  lemma NoSideRounds(ws: seq<SideText>, bars: seq<Bar>, rest: string)
    requires |ws| == 0
    ensures PrintSideRounds(ws, bars) + rest == rest
  {
  }

  /** The first round of printed sides is its bar and its side. */
  lemma SideRoundsSplit(ws: seq<SideText>, bars: seq<Bar>, rest: string)
    requires |ws| > 0 && |bars| > 0
    ensures PrintSideRounds(ws, bars) + rest
         == PrintBar(bars[0]) + (PrintSide(ws[0]) + (PrintSideRounds(ws[1..], bars[1..]) + rest))
  {
    Regroup(PrintBar(bars[0]), PrintSide(ws[0]), PrintSideRounds(ws[1..], bars[1..]), rest);
  }

  /** What follows a side inside printed sides: the next bar, or a
      boundary. */
  lemma AfterSide(ws: seq<SideText>, bars: seq<Bar>, rest: string)
    requires |ws| == |bars|
    requires AllWritten(ws)
    requires AllBars(bars)
    requires Boundary(rest)
    ensures !StartsWithDigit(PrintSideRounds(ws, bars) + rest)
    ensures !ContinuesSide(PrintSideRounds(ws, bars) + rest)
  {
    if |ws| == 0 {
      NoSideRounds(ws, bars, rest);
      BoundaryStops(rest);
    } else {
      SideRoundsSplit(ws, bars, rest);
      BarStopsSide(bars[0], PrintSide(ws[0]) + (PrintSideRounds(ws[1..], bars[1..]) + rest),
                   PrintSideRounds(ws, bars) + rest);
    }
  }

  lemma {:induction false} MoreSidesRoundTrip(ws: seq<SideText>, bars: seq<Bar>, rest: string)
    requires |ws| == |bars|
    requires AllWritten(ws)
    requires AllBars(bars)
    requires Boundary(rest)
    ensures MoreSides(PrintSideRounds(ws, bars) + rest) == (NumbersOf(ws), rest)
    decreases |ws|
  {
    if |ws| == 0 {
      NoSideRounds(ws, bars, rest);
      BoundaryStops(rest);
    } else {
      var z := PrintSideRounds(ws[1..], bars[1..]) + rest;
      var s := PrintSideRounds(ws, bars) + rest;
      SideRoundsSplit(ws, bars, rest);
      assert BarSep(s) == Some(PrintSide(ws[0]) + z) by {
        SideStartsWithDigit(ws[0], z);
        BarSepRoundTrip(bars[0], PrintSide(ws[0]) + z);
      }
      assert Side(PrintSide(ws[0]) + z) == Some((ws[0].numbers, z)) by {
        AfterSide(ws[1..], bars[1..], rest);
        SideRoundTrip(ws[0], z);
      }
      MoreSidesRoundTrip(ws[1..], bars[1..], rest);
    }
  }

  /** `separated_list1` over sides reads back every printed side. */
  lemma SidesRoundTrip(ws: seq<SideText>, bars: seq<Bar>, rest: string)
    requires |ws| == |bars| + 1
    requires AllWritten(ws)
    requires AllBars(bars)
    requires Boundary(rest)
    ensures Sides(PrintSides(ws, bars) + rest) == Some((NumbersOf(ws), rest))
  {
    var z := PrintSideRounds(ws[1..], bars) + rest;
    SidesSplit(ws, bars, rest);
    assert Side(PrintSide(ws[0]) + z) == Some((ws[0].numbers, z)) by {
      AfterSide(ws[1..], bars, rest);
      SideRoundTrip(ws[0], z);
    }
    MoreSidesRoundTrip(ws[1..], bars, rest);
  }

  /** Printed sides are the first side followed by the rounds. */
  lemma SidesSplit(ws: seq<SideText>, bars: seq<Bar>, rest: string)
    requires |ws| > 0
    ensures PrintSides(ws, bars) + rest == PrintSide(ws[0]) + (PrintSideRounds(ws[1..], bars) + rest)
  {
  }

  // ---------------------------------------------------------------------
  // `card`

  /** The header takes "Card", a space run, an id, ":" and a space run, in
      that order, and passes on exactly what follows. */
  lemma HeaderRoundTrip(g1: string, id: string, g2: string, body: string)
    requires IsGap(g1) && IsNumber(id) && IsGap(g2) && !StartsWithSpace(body)
    ensures Header(HeaderText(g1, id, g2) + body) == Some((g1, id, g2, body))
  {
    var s3 := ":" + (g2 + body);
    var s2 := id + s3;
    var s1 := g1 + s2;
    assert HeaderText(g1, id, g2) + body == "Card" + s1;
    Space1Gap(g1, s2);
    Digit1Number(id, s3);
    Space1Gap(g2, body);
  }

  /** `card` on a header followed by printed sides: one side aborts, and
      otherwise the first two sides become the owned and the winning
      numbers while any further side is read and dropped. The id plays no
      part in the outcome. */
  lemma CardOfSides(g1: string, id: string, g2: string, ws: seq<SideText>, bars: seq<Bar>, rest: string)
    requires IsGap(g1) && IsNumber(id) && IsGap(g2)
    requires |ws| == |bars| + 1
    requires AllWritten(ws)
    requires AllBars(bars)
    requires Boundary(rest)
    ensures ParseCard(HeaderText(g1, id, g2) + (PrintSides(ws, bars) + rest))
         == if |ws| < 2 then Abort else Ok(Card(ws[0].numbers, ws[1].numbers), rest)
  {
    var body := PrintSides(ws, bars) + rest;
    BodyOfSides(ws, bars, rest);
    CardStep(g1, id, g2, body, NumbersOf(ws), rest);
    if |ws| >= 2 {
      assert NumbersOf(ws)[1] == NumbersOf(ws[1..])[0];
    }
  }

  /** Printed sides start with a digit, and `sides` reads them back. */
  lemma BodyOfSides(ws: seq<SideText>, bars: seq<Bar>, rest: string)
    requires |ws| == |bars| + 1
    requires AllWritten(ws)
    requires AllBars(bars)
    requires Boundary(rest)
    ensures !StartsWithSpace(PrintSides(ws, bars) + rest)
    ensures Sides(PrintSides(ws, bars) + rest) == Some((NumbersOf(ws), rest))
  {
    SidesSplit(ws, bars, rest);
    SideStartsWithDigit(ws[0], PrintSideRounds(ws[1..], bars) + rest);
    SidesRoundTrip(ws, bars, rest);
  }

  /** `card` after a well-formed header: what the sides yield decides. */
  lemma CardStep(g1: string, id: string, g2: string, body: string, sides: seq<seq<string>>, rest: string)
    requires IsGap(g1) && IsNumber(id) && IsGap(g2) && !StartsWithSpace(body)
    requires Sides(body) == Some((sides, rest))
    ensures ParseCard(HeaderText(g1, id, g2) + body)
         == if |sides| < 2 then Abort else Ok(Card(sides[0], sides[1]), rest)
  {
    HeaderRoundTrip(g1, id, g2, body);
  }

  /** `card` reads back a card printed with any layout. */
  lemma CardRoundTrip(c: Card, lay: Layout, rest: string)
    requires Fits(c, lay) && Boundary(rest)
    ensures ParseCard(PrintCard(c, lay) + rest) == Ok(c, rest)
  {
    var ws := [SideText(c.owned, lay.ownedGaps), SideText(c.winning, lay.winningGaps)];
    var bars := [lay.bar];
    assert PrintSideRounds(ws[1..], bars) == PrintBar(lay.bar) + PrintSide(ws[1]) + PrintSideRounds([], []);
    assert PrintCard(c, lay) + rest == HeaderText(lay.afterCard, lay.id, lay.afterColon) + (PrintSides(ws, bars) + rest);
    CardOfSides(lay.afterCard, lay.id, lay.afterColon, ws, bars, rest);
  }

  // ---------------------------------------------------------------------
  // `parser` and `run`

  /** Printed cards followed by a boundary start with a boundary: either
      nothing was printed, or a line feed comes first. */
  lemma BoundaryAfterCards(cards: seq<Card>, lays: seq<Layout>, suffix: string)
    requires Boundary(suffix)
    ensures Boundary(PrintCardRounds(cards, lays) + suffix)
  {
    if |cards| == 0 || |lays| == 0 {
      assert PrintCardRounds(cards, lays) + suffix == suffix;
    } else {
      assert (PrintCardRounds(cards, lays) + suffix)[0] == '\n';
    }
  }

  /** One round of `separated_list1` over cards: a line feed and a card. */
  lemma MoreCardsStep(c: Card, lay: Layout, w: string)
    requires Fits(c, lay) && Boundary(w)
    ensures MoreCards("\n" + (PrintCard(c, lay) + w)) == Prepend([c], MoreCards(w))
  {
    AfterLineFeed(PrintCard(c, lay) + w);
    CardRoundTrip(c, lay, w);
    MoreCardsRound("\n" + (PrintCard(c, lay) + w), c, w);
  }

  /** The same round after a carriage return and a line feed. */
  lemma MoreCardsStepCrlf(c: Card, lay: Layout, w: string)
    requires Fits(c, lay) && Boundary(w)
    ensures MoreCards("\r\n" + (PrintCard(c, lay) + w)) == Prepend([c], MoreCards(w))
  {
    AfterCrlf(PrintCard(c, lay) + w);
    CardRoundTrip(c, lay, w);
  }

  lemma AfterCrlf(x: string)
    ensures "\r\n" <= "\r\n" + x && ("\r\n" + x)[2..] == x
  {
  }

  lemma AfterLineFeed(x: string)
    ensures "\n" <= "\n" + x && ("\n" + x)[1..] == x
  {
  }

  /** A round of `separated_list1` whose card parses goes on after it. */
  lemma MoreCardsRound(s: string, c: Card, w: string)
    requires "\n" <= s && ParseCard(s[1..]) == Ok(c, w)
    ensures MoreCards(s) == Prepend([c], MoreCards(w))
  {
  }

  /** Putting the first card back in front of the others. */
  lemma PrependFirst(cards: seq<Card>, p: Parsed<seq<Card>>)
    requires |cards| > 0
    ensures Prepend([cards[0]], Prepend(cards[1..], p)) == Prepend(cards, p)
  {
    if p.Ok? {
      assert [cards[0]] + (cards[1..] + p.value) == cards + p.value;
    }
  }

  lemma {:induction false} MoreCardsRoundTrip(cards: seq<Card>, lays: seq<Layout>, suffix: string)
    requires AllFit(cards, lays) && Boundary(suffix)
    ensures MoreCards(PrintCardRounds(cards, lays) + suffix) == Prepend(cards, MoreCards(suffix))
    decreases |cards|
  {
    if |cards| == 0 {
      assert PrintCardRounds(cards, lays) + suffix == suffix;
      var m := MoreCards(suffix);
      if m.Ok? { assert cards + m.value == m.value; }
    } else {
      var w := PrintCardRounds(cards[1..], lays[1..]) + suffix;
      assert PrintCardRounds(cards, lays) + suffix == "\n" + (PrintCard(cards[0], lays[0]) + w) by {
        Regroup("\n", PrintCard(cards[0], lays[0]), PrintCardRounds(cards[1..], lays[1..]), suffix);
      }
      BoundaryAfterCards(cards[1..], lays[1..], suffix);
      MoreCardsStep(cards[0], lays[0], w);
      MoreCardsRoundTrip(cards[1..], lays[1..], suffix);
      PrependFirst(cards, MoreCards(suffix));
    }
  }

  /** The first card, then whatever the rounds after it yield. */
  lemma ParseCardsStep(c: Card, lay: Layout, w: string)
    requires Fits(c, lay) && Boundary(w)
    ensures ParseCards(PrintCard(c, lay) + w) == Prepend([c], MoreCards(w))
  {
    CardRoundTrip(c, lay, w);
    var m := MoreCards(w);
    if m.Ok? {
      assert ParseCards(PrintCard(c, lay) + w) == Ok([c] + m.value, m.rest);
    }
  }

  /** Printed cards split into their first card and the rounds after it. */
  lemma FirstCardOfPrinted(cards: seq<Card>, lays: seq<Layout>, suffix: string)
    requires AllFit(cards, lays) && |cards| > 0 && Boundary(suffix)
    ensures ParseCards(PrintCards(cards, lays) + suffix)
         == Prepend([cards[0]], MoreCards(PrintCardRounds(cards[1..], lays[1..]) + suffix))
  {
    var w := PrintCardRounds(cards[1..], lays[1..]) + suffix;
    assert PrintCards(cards, lays) + suffix == PrintCard(cards[0], lays[0]) + w;
    BoundaryAfterCards(cards[1..], lays[1..], suffix);
    ParseCardsStep(cards[0], lays[0], w);
  }

  lemma ParseCardsRoundTrip(cards: seq<Card>, lays: seq<Layout>, suffix: string)
    requires AllFit(cards, lays) && |cards| > 0 && Boundary(suffix)
    ensures ParseCards(PrintCards(cards, lays) + suffix) == Prepend(cards, MoreCards(suffix))
  {
    FirstCardOfPrinted(cards, lays, suffix);
    MoreCardsRoundTrip(cards[1..], lays[1..], suffix);
    PrependFirst(cards, MoreCards(suffix));
  }

  /** `run` on printed cards is the sum of their scores. */
  lemma RunRoundTrip(cards: seq<Card>, lays: seq<Layout>)
    requires AllFit(cards, lays) && |cards| > 0
    ensures Run(PrintCards(cards, lays)) == Some(Total(cards))
  {
    NothingAppended(PrintCards(cards, lays));
    ParseCardsRoundTrip(cards, lays, "");
    NoMoreCards(cards, "");
  }

  lemma NothingAppended(s: string)
    ensures s + "" == s
  {
  }

  /** Rounds that read no card leave the cards read before them: no line
      ending follows, or `card` rejects what comes after it. */
  lemma NoMoreCards(cards: seq<Card>, rest: string)
    requires LineEnding(rest).None? || ParseCard(LineEnding(rest).value).Error?
    ensures Prepend(cards, MoreCards(rest)) == Ok(cards, rest)
  {
    assert cards + [] == cards;
  }

  /** A line after the last card that `card` rejects is ignored, together
      with everything after it: a final line feed, an empty line or a
      malformed line does not change the total. */
  lemma RunIgnoresTrailingLine(cards: seq<Card>, lays: seq<Layout>, tail: string)
    requires AllFit(cards, lays) && |cards| > 0
    requires ParseCard(tail).Error?
    ensures Run(PrintCards(cards, lays) + "\n" + tail) == Some(Total(cards))
  {
    AfterLineFeed(tail);
    RegroupLineFeed(PrintCards(cards, lays), tail);
    ParseCardsRoundTrip(cards, lays, "\n" + tail);
    NoMoreCards(cards, "\n" + tail);
  }

  /** `card` rejects a line that does not start with `Card`. */
  lemma NonCardRejected(s: string)
    requires !("Card" <= s)
    ensures ParseCard(s) == Error
  {
  }

  /** `card` rejects a well-formed header followed by something other than
      a number, such as `Card 2: x`. */
  lemma MalformedBodyRejected(g1: string, id: string, g2: string, body: string)
    requires IsGap(g1) && IsNumber(id) && IsGap(g2)
    requires !StartsWithDigit(body) && !StartsWithSpace(body)
    ensures ParseCard(HeaderText(g1, id, g2) + body) == Error
  {
    HeaderRoundTrip(g1, id, g2, body);
  }

  /** A later line with a well-formed header and no numbers after it is
      ignored, together with every line after it. */
  lemma RunIgnoresMalformedCard(cards: seq<Card>, lays: seq<Layout>,
                                g1: string, id: string, g2: string, body: string)
    requires AllFit(cards, lays) && |cards| > 0
    requires IsGap(g1) && IsNumber(id) && IsGap(g2)
    requires !StartsWithDigit(body) && !StartsWithSpace(body)
    ensures Run(PrintCards(cards, lays) + "\n" + (HeaderText(g1, id, g2) + body)) == Some(Total(cards))
  {
    MalformedBodyRejected(g1, id, g2, body);
    RunIgnoresTrailingLine(cards, lays, HeaderText(g1, id, g2) + body);
  }

  /** A space run at the end of a card line stops `parser`: the line ending
      after it is never reached, so every later card is dropped from the
      total. */
  lemma RunStopsAtTrailingSpaces(cards: seq<Card>, lays: seq<Layout>, g: string, more: string)
    requires AllFit(cards, lays) && |cards| > 0
    requires IsGap(g)
    ensures Run(PrintCards(cards, lays) + (g + ("\n" + more))) == Some(Total(cards))
  {
    GapThenLineFeed(g, more);
    ParseCardsRoundTrip(cards, lays, g + ("\n" + more));
    NoMoreCards(cards, g + ("\n" + more));
  }

  /** A space run and a line feed form a boundary, and no line ending
      starts there. */
  lemma GapThenLineFeed(g: string, more: string)
    requires IsGap(g)
    ensures Boundary(g + ("\n" + more))
    ensures LineEnding(g + ("\n" + more)).None?
  {
    SpanConcat(g, "\n" + more, IsSpace);
    assert (g + ("\n" + more))[|g|] == '\n';
    assert (g + ("\n" + more))[0] == g[0];
  }

  lemma RegroupLineFeed(a: string, t: string)
    ensures a + "\n" + t == a + ("\n" + t)
  {
  }

  /** A line holding a card with one side aborts the "line ending, card"
      rounds. */
  lemma OneSidedCardAborts(g1: string, id: string, g2: string, w: SideText, rest: string)
    requires IsGap(g1) && IsNumber(id) && IsGap(g2) && WellWritten(w) && Boundary(rest)
    ensures MoreCards("\n" + (HeaderText(g1, id, g2) + PrintSide(w) + rest)) == Abort
  {
    var line := HeaderText(g1, id, g2) + PrintSide(w) + rest;
    assert PrintSides([w], []) == PrintSide(w);
    CardOfSides(g1, id, g2, [w], [], rest);
    assert line == HeaderText(g1, id, g2) + (PrintSides([w], []) + rest);
    assert ("\n" + line)[1..] == line;
  }

  /** A one-sided card on a line that directly follows well-formed card
      lines aborts `run`. */
  lemma RunAbortsOnOneSidedCard(cards: seq<Card>, lays: seq<Layout>,
                                g1: string, id: string, g2: string, w: SideText, rest: string)
    requires AllFit(cards, lays) && |cards| > 0
    requires IsGap(g1) && IsNumber(id) && IsGap(g2) && WellWritten(w) && Boundary(rest)
    ensures Run(PrintCards(cards, lays) + "\n" + HeaderText(g1, id, g2) + PrintSide(w) + rest) == None
  {
    var suffix := "\n" + (HeaderText(g1, id, g2) + PrintSide(w) + rest);
    OneSidedCardAborts(g1, id, g2, w, rest);
    ParseCardsRoundTrip(cards, lays, suffix);
    RegroupLine(PrintCards(cards, lays), HeaderText(g1, id, g2), PrintSide(w), rest);
  }

  /** A card with one side on the first line makes `run` fail too. */
  lemma RunAbortsOnOneSidedFirstCard(g1: string, id: string, g2: string, w: SideText, rest: string)
    requires IsGap(g1) && IsNumber(id) && IsGap(g2) && WellWritten(w) && Boundary(rest)
    ensures Run(HeaderText(g1, id, g2) + (PrintSide(w) + rest)) == None
  {
    assert PrintSides([w], []) == PrintSide(w);
    CardOfSides(g1, id, g2, [w], [], rest);
  }

  /** `unwrap` panics when `card` rejects the first line, whatever the
      reason: a missing `Card`, a malformed header, or no number after it. */
  lemma RunRejectsRejectedFirstLine(input: string)
    requires ParseCard(input).Error?
    ensures Run(input) == None
  {
  }

  /** Input whose first line is not a card makes `run` fail. */
  lemma RunRejectsNonCard(input: string)
    requires !("Card" <= input)
    ensures Run(input) == None
  {
  }
}
