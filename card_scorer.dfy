/** The scratchcard scorer (day_04/src/bin/part_one.rs). Every input line
    `Card <id>: <numbers> | <numbers>` becomes a card holding the numbers the
    player owns and the winning numbers, both kept as the digit strings
    written on the card; a card with m owned numbers among the winning ones
    is worth 0 points when m = 0 and 2^(m-1) points otherwise, and `run`
    adds the points of all cards.

    The nom combinators the parser is built from (`tag`, `space1`, `digit1`,
    `line_ending`, `separated_list1`, `delimited`, `tuple`) are written out
    by hand over `string`; each parser returns the value it read together
    with the input it left unconsumed. */
module CardScorer {

  import opened Wrappers

  // ---------------------------------------------------------------------
  // Characters and tokens

  /** `digit1` accepts the ASCII digits only. */
  predicate IsDigit(c: char) {
    '0' <= c <= '9'
  }

  /** `space1` accepts spaces and tabs. */
  predicate IsSpace(c: char) {
    c == ' ' || c == '\t'
  }

  predicate StartsWithDigit(s: string) {
    |s| > 0 && IsDigit(s[0])
  }

  predicate StartsWithSpace(s: string) {
    |s| > 0 && IsSpace(s[0])
  }

  /** A number token: one or more digits. */
  predicate IsNumber(t: string) {
    |t| > 0 && forall k :: 0 <= k < |t| ==> IsDigit(t[k])
  }

  /** A run of one or more spaces or tabs. */
  predicate IsGap(g: string) {
    |g| > 0 && forall k :: 0 <= k < |g| ==> IsSpace(g[k])
  }

  /** A side of a card: a non-empty list of number tokens. */
  predicate IsSide(ts: seq<string>) {
    |ts| > 0 && forall t <- ts :: IsNumber(t)
  }

  // ---------------------------------------------------------------------
  // Data model

  /** `Card`: the owned numbers (`self_numbers`) and the winning numbers, as
      text, in the order written, duplicates kept. */
  datatype Card = Card(owned: seq<string>, winning: seq<string>)

  /** A card as `card` can produce it: both sides are lists of numbers. */
  predicate ValidCard(c: Card) {
    IsSide(c.owned) && IsSide(c.winning)
  }

  /** The outcome of a parser: the value read and the unconsumed input; a
      recoverable `Err::Error`, on which an enclosing `separated_list1` stops
      and backtracks; or an abort, for the `sides[1]` index that panics. */
  datatype Parsed<T> = Ok(value: T, rest: string) | Error | Abort

  // ---------------------------------------------------------------------
  // The primitive parsers

  /** Length of the longest prefix of `s` whose characters satisfy `p`. */
  function Span(s: string, p: char -> bool): (n: nat)
    ensures n <= |s|
  {
    if |s| > 0 && p(s[0]) then Span(s[1..], p) + 1 else 0
  }

  /** `Span` is the length of the longest prefix satisfying `p`. */
  lemma {:induction false} SpanIsLongest(s: string, p: char -> bool)
    ensures forall k :: 0 <= k < Span(s, p) ==> p(s[k])
    ensures Span(s, p) < |s| ==> !p(s[Span(s, p)])
    decreases |s|
  {
    if |s| > 0 && p(s[0]) {
      SpanIsLongest(s[1..], p);
      assert forall k :: 1 <= k < Span(s, p) ==> s[k] == s[1..][k - 1];
    }
  }

  /** `tag(lit)`: the literal itself, then the rest. */
  function Tag(lit: string, s: string): (r: Option<string>)
    ensures r.Some? <==> lit <= s
    ensures r.Some? ==> s == lit + r.value
  {
    if lit <= s then Some(s[|lit|..]) else None
  }

  /** `digit1`: the longest non-empty run of digits, and the rest. */
  function Digit1(s: string): (r: Option<(string, string)>)
    ensures r.Some? <==> StartsWithDigit(s)
    ensures r.Some? ==> |r.value.1| < |s| && !StartsWithDigit(r.value.1)
  {
    var n := Span(s, IsDigit);
    SpanIsLongest(s, IsDigit);
    if n == 0 then None else Some((s[..n], s[n..]))
  }

  /** What `digit1` reads is a number, and the input is that number
      followed by the rest. */
  lemma Digit1Reads(s: string)
    requires Digit1(s).Some?
    ensures IsNumber(Digit1(s).value.0) && s == Digit1(s).value.0 + Digit1(s).value.1
  {
    SpanIsLongest(s, IsDigit);
  }

  /** `space1`: the longest non-empty run of spaces and tabs, and the rest. */
  function Space1(s: string): (r: Option<(string, string)>)
    ensures r.Some? <==> StartsWithSpace(s)
    ensures r.Some? ==> |r.value.1| < |s| && !StartsWithSpace(r.value.1)
  {
    var n := Span(s, IsSpace);
    SpanIsLongest(s, IsSpace);
    if n == 0 then None else Some((s[..n], s[n..]))
  }

  /** What `space1` reads is a space run, and the input is that run
      followed by the rest. */
  lemma Space1Reads(s: string)
    requires Space1(s).Some?
    ensures IsGap(Space1(s).value.0) && s == Space1(s).value.0 + Space1(s).value.1
  {
    SpanIsLongest(s, IsSpace);
  }

  /** `line_ending`: a line feed, or a carriage return and a line feed. */
  function LineEnding(s: string): (r: Option<string>)
    ensures r.Some? <==> "\n" <= s || "\r\n" <= s
    ensures "\n" <= s ==> r == Some(s[1..])
    ensures "\r\n" <= s ==> r == Some(s[2..])
    ensures r.Some? ==> |r.value| < |s|
  {
    assert "\r\n" <= s ==> s[0] == '\r';
    match Tag("\n", s)
    case Some(rest) => Some(rest)
    case None => Tag("\r\n", s)
  }

  // ---------------------------------------------------------------------
  // `side`: separated_list1(space1, digit1)

  /** `s` begins with a run of spaces followed by a digit, so that `side`
      would go on to read another number from it. */
  predicate ContinuesSide(s: string) {
    var g := Span(s, IsSpace);
    0 < g < |s| && IsDigit(s[g])
  }

  /** `side`: a first number, then as many "space run, number" rounds as
      succeed. */
  function Side(s: string): (r: Option<(seq<string>, string)>)
    ensures r.Some? <==> StartsWithDigit(s)
    ensures r.Some? ==> |r.value.1| < |s|
  {
    match Digit1(s)
    case None => None
    case Some((t, s1)) =>
      var (ts, s2) := MoreNumbers(s1);
      Some(([t] + ts, s2))
  }

  /** The rounds of `side` after its first number. A round whose number is
      missing fails, and `separated_list1` then returns what it has with the
      space run of that round left unconsumed. */
  function MoreNumbers(s: string): (r: (seq<string>, string))
    requires !StartsWithDigit(s)
    ensures |r.1| <= |s|
    decreases |s|
  {
    match Space1(s)
    case None => ([], s)
    case Some((_, s1)) =>
      match Digit1(s1)
      case None => ([], s)
      case Some((t, s2)) =>
        var (ts, s3) := MoreNumbers(s2);
        ([t] + ts, s3)
  }

  /** The rounds read numbers only, and they stop where neither the last
      number goes on nor another "space run, number" round begins. */
  lemma {:induction false} MoreNumbersReads(s: string)
    requires !StartsWithDigit(s)
    ensures forall t <- MoreNumbers(s).0 :: IsNumber(t)
    ensures !StartsWithDigit(MoreNumbers(s).1) && !ContinuesSide(MoreNumbers(s).1)
    decreases |s|
  {
    var n := Span(s, IsSpace);
    match Space1(s)
    case None =>
      assert n == 0;
    case Some((_, s1)) =>
      assert s1 == s[n..];
      match Digit1(s1)
      case None =>
        assert n < |s| ==> s[n] == s1[0];
      case Some((t, s2)) =>
        Digit1Reads(s1);
        MoreNumbersReads(s2);
  }

  /** `side` reads a side and stops where neither the last number goes on
      nor another "space run, number" round begins. */
  lemma SideReads(s: string)
    requires Side(s).Some?
    ensures IsSide(Side(s).value.0)
    ensures !StartsWithDigit(Side(s).value.1) && !ContinuesSide(Side(s).value.1)
  {
    Digit1Reads(s);
    MoreNumbersReads(Digit1(s).value.1);
  }

  // ---------------------------------------------------------------------
  // The sides of a card: separated_list1(tuple((space1, tag("|"), space1)), side)

  /** `tuple((space1, tag("|"), space1))`: the bar between two sides. */
  function BarSep(s: string): (r: Option<string>)
    ensures r.Some? ==> |r.value| < |s|
  {
    match Space1(s)
    case None => None
    case Some((_, s1)) =>
      match Tag("|", s1)
      case None => None
      case Some(s2) =>
        match Space1(s2)
        case None => None
        case Some((_, s3)) => Some(s3)
  }

  /** Every side of the card, in order. */
  function Sides(s: string): (r: Option<(seq<seq<string>>, string)>)
    ensures r.Some? <==> StartsWithDigit(s)
    ensures r.Some? ==> |r.value.0| > 0 && |r.value.1| < |s|
  {
    match Side(s)
    case None => None
    case Some((side, s1)) =>
      var (more, s2) := MoreSides(s1);
      Some(([side] + more, s2))
  }

  /** The "bar, side" rounds after the first side; a round whose side is
      missing leaves its bar unconsumed. */
  function MoreSides(s: string): (r: (seq<seq<string>>, string))
    ensures |r.1| <= |s|
    decreases |s|
  {
    match BarSep(s)
    case None => ([], s)
    case Some(s1) =>
      match Side(s1)
      case None => ([], s)
      case Some((side, s2)) =>
        var (more, s3) := MoreSides(s2);
        ([side] + more, s3)
  }

  lemma {:induction false} MoreSidesRead(s: string)
    ensures forall side <- MoreSides(s).0 :: IsSide(side)
    decreases |s|
  {
    match BarSep(s)
    case None =>
    case Some(s1) =>
      match Side(s1)
      case None =>
      case Some((side, s2)) =>
        SideReads(s1);
        MoreSidesRead(s2);
  }

  /** Every side read is a non-empty list of numbers. */
  lemma SidesRead(s: string)
    requires Sides(s).Some?
    ensures forall side <- Sides(s).value.0 :: IsSide(side)
  {
    SideReads(s);
    MoreSidesRead(Side(s).value.1);
  }

  // ---------------------------------------------------------------------
  // `card` and `parser`

  /** `delimited(tuple((tag("Card"), space1)), digit1, tuple((tag(":"),
      space1)))`: the card header. Besides the rest of the input it returns
      the space runs and the id it read, which `card` drops. */
  function Header(s: string): (r: Option<(string, string, string, string)>)
    ensures r.Some? ==> "Card" <= s && |r.value.3| < |s|
  {
    match Tag("Card", s)
    case None => None
    case Some(s1) =>
      match Space1(s1)
      case None => None
      case Some((g1, s2)) =>
        match Digit1(s2)
        case None => None
        case Some((id, s3)) =>
          match Tag(":", s3)
          case None => None
          case Some(s4) =>
            match Space1(s4)
            case None => None
            case Some((g2, s5)) => Some((g1, id, g2, s5))
  }

  /** The text of a header with the given space runs and id. */
  function HeaderText(g1: string, id: string, g2: string): string {
    "Card" + g1 + id + ":" + g2
  }

  /** The header takes "Card", a space run, digits, ":" and a space run, in
      that order and nothing else. */
  lemma HeaderReads(s: string)
    requires Header(s).Some?
    ensures var (g1, id, g2, rest) := Header(s).value;
      IsGap(g1) && IsNumber(id) && IsGap(g2) && !StartsWithSpace(rest) &&
      s == HeaderText(g1, id, g2) + rest
  {
    var s1 := Tag("Card", s).value;
    Space1Reads(s1);
    var (g1, s2) := Space1(s1).value;
    Digit1Reads(s2);
    var (id, s3) := Digit1(s2).value;
    var s4 := Tag(":", s3).value;
    Space1Reads(s4);
    var (g2, s5) := Space1(s4).value;
    HeaderSplit(s, s1, s2, s3, s4, s5, g1, id, g2);
  }

  lemma HeaderSplit(s: string, s1: string, s2: string, s3: string, s4: string, s5: string,
                    g1: string, id: string, g2: string)
    requires s == "Card" + s1 && s1 == g1 + s2 && s2 == id + s3
    requires s3 == ":" + s4 && s4 == g2 + s5
    ensures s == HeaderText(g1, id, g2) + s5
  {
    assert s2 == id + ":" + g2 + s5;
  }

  /** `card`: the header, then the sides; the first side is the owned
      numbers, the second the winning numbers and any further side is
      dropped. A card with one side aborts, as `sides[1]` panics. */
  function ParseCard(s: string): (r: Parsed<Card>)
    ensures r.Ok? ==> |r.rest| < |s|
  {
    match Header(s)
    case None => Error
    case Some((_, _, _, s1)) =>
      match Sides(s1)
      case None => Error
      case Some((sides, s2)) =>
        if |sides| < 2 then Abort
        else Ok(Card(sides[0], sides[1]), s2)
  }

  /** Both sides of a card `card` reads are lists of numbers. */
  lemma ParseCardValid(s: string)
    requires ParseCard(s).Ok?
    ensures ValidCard(ParseCard(s).value)
  {
    var s1 := Header(s).value.3;
    SidesRead(s1);
    var sides := Sides(s1).value.0;
    assert sides[0] in sides && sides[1] in sides;
  }

  /** `parser`: separated_list1(line_ending, card). */
  function ParseCards(s: string): (r: Parsed<seq<Card>>)
    ensures r.Ok? ==> |r.value| > 0
  {
    match ParseCard(s)
    case Error => Error
    case Abort => Abort
    case Ok(c, s1) =>
      var more := MoreCards(s1);
      if more.Ok? then Ok([c] + more.value, more.rest) else Abort
  }

  /** The "line ending, card" rounds after the first card. A round whose
      card fails to parse ends the list and leaves its line ending
      unconsumed, so this never yields `Error`; a card that aborts aborts the
      whole list. */
  function MoreCards(s: string): (r: Parsed<seq<Card>>)
    ensures !r.Error?
    decreases |s|
  {
    match LineEnding(s)
    case None => Ok([], s)
    case Some(s1) =>
      match ParseCard(s1)
      case Error => Ok([], s)
      case Abort => Abort
      case Ok(c, s2) =>
        var more := MoreCards(s2);
        if more.Ok? then Ok([c] + more.value, more.rest) else Abort
  }

  // ---------------------------------------------------------------------
  // Scoring

  /** How many owned numbers, duplicates included, occur among the winning
      numbers: `filter(|n| winning.contains(n)).count()`. */
  function CountMatches(owned: seq<string>, winning: seq<string>): (m: nat)
    ensures m <= |owned|
    ensures m == 0 <==> forall k :: 0 <= k < |owned| ==> owned[k] !in winning
  {
    if |owned| == 0 then 0
    else
      var rest := CountMatches(owned[1..], winning);
      assert forall k :: 1 <= k < |owned| ==> owned[k] == owned[1..][k - 1];
      (if owned[0] in winning then 1 else 0) + rest
  }

  /** The number of matches of a card, never more than its owned numbers. */
  function Matches(c: Card): (m: nat)
    ensures m <= |c.owned|
  {
    CountMatches(c.owned, c.winning)
  }

  function Pow2(n: nat): (p: nat)
    ensures p >= 1
  {
    if n == 0 then 1 else 2 * Pow2(n - 1)
  }

  /** The points of m matches: `checked_sub(1)` fails for m = 0, which is
      worth nothing, and otherwise the points are 2^(m-1). */
  function Points(m: nat): (p: nat)
    ensures p == 0 <==> m == 0
    ensures m == 1 ==> p == 1
  {
    if m == 0 then 0 else Pow2(m - 1)
  }

  /** `Card::score`: nothing exactly when no owned number wins. */
  function Score(c: Card): (s: nat)
    ensures s == 0 <==> Matches(c) == 0
  {
    Points(Matches(c))
  }

  /** The sum of the scores of the cards, in order. */
  function Total(cards: seq<Card>): (t: nat)
    ensures t == 0 <==> forall k :: 0 <= k < |cards| ==> Score(cards[k]) == 0
  {
    if |cards| == 0 then 0
    else
      var rest := Total(cards[1..]);
      assert forall k :: 1 <= k < |cards| ==> cards[k] == cards[1..][k - 1];
      Score(cards[0]) + rest
  }

  /** `run`: parse the whole input and add up the scores; `None` where
      `unwrap` panics on a parse error or a card aborts. Input left after the
      last card is ignored. */
  function Run(input: string): (r: Option<nat>)
    ensures r.Some? ==> "Card" <= input
  {
    match ParseCards(input)
    case Ok(cards, _) => Some(Total(cards))
    case _ => None
  }
}
