/** What `Card::score` and the sum in `run` promise: a card without a
    match is worth nothing, the first match is worth one point and every
    further match doubles it, the match count counts owned numbers with
    their repetitions, and the total adds the card scores in any grouping. */
module CardScoreLemmas {

  import opened CardScorer

  // ---------------------------------------------------------------------
  // Points

  /** The reading of the scoring rule: one point for the first match,
      doubled for every match after it. */
  function DoublingPoints(m: nat): nat {
    if m <= 1 then m else 2 * DoublingPoints(m - 1)
  }

  /** The closed form `2^(m-1)` behind `checked_sub` agrees with the
      doubling rule for every match count. */
  lemma {:induction false} PointsAreDoubling(m: nat)
    ensures Points(m) == DoublingPoints(m)
  {
    if m > 1 {
      PointsAreDoubling(m - 1);
    }
  }

  /** A card without a match scores nothing, and one with a match scores at
      least one point. */
  lemma ScoreZeroIffNoMatch(c: Card)
    ensures Score(c) == 0 <==> forall k :: 0 <= k < |c.owned| ==> c.owned[k] !in c.winning
  {
    if Matches(c) > 0 {
      assert Score(c) == Pow2(Matches(c) - 1);
    }
  }

  lemma {:induction false} Pow2Add(a: nat, b: nat)
    ensures Pow2(a + b) == Pow2(a) * Pow2(b)
    decreases a
  {
    if a > 0 {
      Pow2Add(a - 1, b);
    }
  }

  /** k further matches multiply the points by 2^k. */
  lemma PointsGeometric(m: nat, k: nat)
    requires m >= 1
    ensures Points(m + k) == Pow2(k) * Points(m)
  {
    Pow2Add(k, m - 1);
    assert m + k - 1 == k + (m - 1);
  }

  /** More matches never score fewer points. */
  lemma {:induction false} PointsMonotone(m: nat, n: nat)
    requires m <= n
    ensures Points(m) <= Points(n)
    decreases n - m
  {
    if m < n {
      PointsMonotone(m, n - 1);
      if n - 1 >= 1 {
        PointsGeometric(n - 1, 1);
      }
    }
  }

  // ---------------------------------------------------------------------
  // Matches

  lemma {:induction false} CountMatchesAppend(a: seq<string>, b: seq<string>, winning: seq<string>)
    ensures CountMatches(a + b, winning) == CountMatches(a, winning) + CountMatches(b, winning)
    decreases |a|
  {
    if |a| == 0 {
      assert a + b == b;
    } else {
      assert (a + b)[0] == a[0];
      assert (a + b)[1..] == a[1..] + b;
      CountMatchesAppend(a[1..], b, winning);
    }
  }

  /** Taking the same element off two sequences with equal multisets
      leaves equal multisets. */
  lemma RemoveMatching<T>(a: seq<T>, b: seq<T>, i: nat)
    requires multiset(a) == multiset(b) && |a| > 0 && i < |b| && b[i] == a[0]
    ensures multiset(a[1..]) == multiset(b[..i] + b[i + 1..])
  {
    var others := b[..i] + b[i + 1..];
    assert a == [a[0]] + a[1..];
    assert b == b[..i] + [b[i]] + b[i + 1..];
    assert multiset(b) == multiset{a[0]} + multiset(others);
    assert multiset(a) == multiset{a[0]} + multiset(a[1..]);
    forall x ensures multiset(a[1..])[x] == multiset(others)[x] {
      assert multiset(a)[x] == multiset{a[0]}[x] + multiset(a[1..])[x];
      assert multiset(b)[x] == multiset{a[0]}[x] + multiset(others)[x];
    }
  }

  /** The count depends on the owned numbers only as a multiset: listing
      them in another order scores the same. */
  lemma {:induction false} CountMatchesPermutation(a: seq<string>, b: seq<string>, winning: seq<string>)
    requires multiset(a) == multiset(b)
    ensures CountMatches(a, winning) == CountMatches(b, winning)
    decreases |a|
  {
    if |a| == 0 {
      assert |b| == |multiset(b)|;
    } else {
      assert a[0] in multiset(b);
      var i :| 0 <= i < |b| && b[i] == a[0];
      var others := b[..i] + b[i + 1..];
      assert b == b[..i] + ([b[i]] + b[i + 1..]);
      RemoveMatching(a, b, i);
      CountMatchesPermutation(a[1..], others, winning);
      CountMatchesAppend(b[..i], [b[i]] + b[i + 1..], winning);
      CountMatchesAppend([b[i]], b[i + 1..], winning);
      CountMatchesAppend(b[..i], b[i + 1..], winning);
    }
  }

  /** Only membership in the winning numbers matters: their order and
      repetitions do not. */
  lemma {:induction false} CountMatchesSameWinning(owned: seq<string>, w1: seq<string>, w2: seq<string>)
    requires forall x :: x in w1 <==> x in w2
    ensures CountMatches(owned, w1) == CountMatches(owned, w2)
    decreases |owned|
  {
    if |owned| > 0 {
      CountMatchesSameWinning(owned[1..], w1, w2);
    }
  }

  /** The count is not bounded by the number of winning numbers: an owned
      number written twice matches twice against one winning number. */
  lemma DuplicatesCountTwice()
    ensures Matches(Card(["7", "7"], ["7"])) == 2
    ensures Score(Card(["7", "7"], ["7"])) == 2
  {
    assert ["7", "7"][1..] == ["7"];
    assert CountMatches(["7"], ["7"]) == 1 by {
      assert ["7"][1..] == [];
    }
  }

  predicate Distinct(s: seq<string>) {
    forall i, j :: 0 <= i < j < |s| ==> s[i] != s[j]
  }

  /** The set of the elements of a sequence. */
  function Elements(s: seq<string>): (e: set<string>)
    ensures |e| <= |s|
    ensures forall x :: x in e <==> x in s
  {
    if |s| == 0 then {}
    else
      var rest := Elements(s[1..]);
      assert forall x :: x in s <==> x == s[0] || x in s[1..];
      {s[0]} + rest
  }

  lemma SubsetSize(a: set<string>, b: set<string>)
    requires a <= b
    ensures |a| <= |b|
  {
    assert b == a + (b - a);
  }

  /** Dropping the first of distinct numbers leaves distinct numbers none
      of which is the first. */
  lemma DistinctTail(owned: seq<string>)
    requires Distinct(owned) && |owned| > 0
    ensures Distinct(owned[1..]) && owned[0] !in owned[1..]
  {
    forall i, j | 0 <= i < j < |owned| - 1 ensures owned[1..][i] != owned[1..][j] {
      assert owned[1..][i] == owned[i + 1] && owned[1..][j] == owned[j + 1];
    }
    forall j | 0 <= j < |owned| - 1 ensures owned[1..][j] != owned[0] {
      assert owned[1..][j] == owned[j + 1];
    }
  }

  /** The shared numbers are the first owned number, when it wins, and the
      numbers the rest of the owned ones share. */
  lemma SharedSplit(owned: seq<string>, winning: seq<string>)
    requires |owned| > 0
    ensures Elements(owned) * Elements(winning)
         == (if owned[0] in winning then {owned[0]} else {}) + Elements(owned[1..]) * Elements(winning)
  {
    assert forall x :: x in owned <==> x == owned[0] || x in owned[1..];
  }

  /** Without repeated owned numbers, the count is the number of distinct
      numbers the two lists share. */
  lemma {:induction false} CountMatchesShared(owned: seq<string>, winning: seq<string>)
    requires Distinct(owned)
    ensures CountMatches(owned, winning) == |Elements(owned) * Elements(winning)|
    decreases |owned|
  {
    if |owned| > 0 {
      DistinctTail(owned);
      CountMatchesShared(owned[1..], winning);
      SharedSplit(owned, winning);
      assert owned[0] !in Elements(owned[1..]) * Elements(winning);
    }
  }

  /** Without repeated owned numbers, the count is at most the length of
      the shorter list. */
  lemma CountMatchesDistinct(owned: seq<string>, winning: seq<string>)
    requires Distinct(owned)
    ensures CountMatches(owned, winning) <= |winning|
    ensures CountMatches(owned, winning) <= |owned|
  {
    CountMatchesShared(owned, winning);
    SubsetSize(Elements(owned) * Elements(winning), Elements(winning));
  }

  // ---------------------------------------------------------------------
  // The total

  lemma {:induction false} TotalAppend(a: seq<Card>, b: seq<Card>)
    ensures Total(a + b) == Total(a) + Total(b)
    decreases |a|
  {
    if |a| == 0 {
      assert a + b == b;
    } else {
      assert (a + b)[0] == a[0];
      assert (a + b)[1..] == a[1..] + b;
      TotalAppend(a[1..], b);
    }
  }

  /** Every card's score is part of the total. */
  lemma {:induction false} ScoreAtMostTotal(cards: seq<Card>, k: nat)
    requires k < |cards|
    ensures Score(cards[k]) <= Total(cards)
    decreases k
  {
    if k > 0 {
      ScoreAtMostTotal(cards[1..], k - 1);
      assert cards[1..][k - 1] == cards[k];
    }
  }

  /** The total does not depend on the order of the cards. */
  lemma {:induction false} TotalPermutation(a: seq<Card>, b: seq<Card>)
    requires multiset(a) == multiset(b)
    ensures Total(a) == Total(b)
    decreases |a|
  {
    if |a| == 0 {
      assert |b| == |multiset(b)|;
    } else {
      assert a[0] in multiset(b);
      var i :| 0 <= i < |b| && b[i] == a[0];
      var others := b[..i] + b[i + 1..];
      assert b == b[..i] + ([b[i]] + b[i + 1..]);
      RemoveMatching(a, b, i);
      TotalPermutation(a[1..], others);
      TotalAppend(b[..i], [b[i]] + b[i + 1..]);
      TotalAppend([b[i]], b[i + 1..]);
      TotalAppend(b[..i], b[i + 1..]);
    }
  }
}
