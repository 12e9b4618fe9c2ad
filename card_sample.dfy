/** The six-card example of the scratchcard solver: its text parses into
    the six cards as written and adds up to 13 points. */
module CardSample {

  import opened Wrappers
  import opened CardScorer
  import opened CardParserLemmas

  // The lines of the test input of `run`, each written as its header, its
  // owned numbers, the bar and its winning numbers.
  const Line1: string := "Card 1: " + "41 48 83 86 17" + " | " + "83 86  6 31 17  9 48 53"
  const Line2: string := "Card 2: " + "13 32 20 16 61" + " | " + "61 30 68 82 17 32 24 19"
  const Line3: string := "Card 3:  " + "1 21 53 59 44" + " | " + "69 82 63 72 16 21 14  1"
  const Line4: string := "Card 4: " + "41 92 73 84 69" + " | " + "59 84 76 51 58  5 54 83"
  const Line5: string := "Card 5: " + "87 83 26 28 32" + " | " + "88 30 70 12 93 22 82 36"
  const Line6: string := "Card 6: " + "31 18 13 56 72" + " | " + "74 77 10 23 35 67 36 11"

  /** The test input: the six lines joined by line feeds, with no final
      line feed. */
  const SampleText: string := Joined([Line1, Line2, Line3, Line4, Line5, Line6])

  /** Lines separated by line feeds. */
  function Joined(lines: seq<string>): string
    decreases |lines|
  {
    if |lines| == 0 then ""
    else if |lines| == 1 then lines[0]
    else lines[0] + "\n" + Joined(lines[1..])
  }

  const Card1: Card := Card(["41", "48", "83", "86", "17"], ["83", "86", "6", "31", "17", "9", "48", "53"])
  const Card2: Card := Card(["13", "32", "20", "16", "61"], ["61", "30", "68", "82", "17", "32", "24", "19"])
  const Card3: Card := Card(["1", "21", "53", "59", "44"], ["69", "82", "63", "72", "16", "21", "14", "1"])
  const Card4: Card := Card(["41", "92", "73", "84", "69"], ["59", "84", "76", "51", "58", "5", "54", "83"])
  const Card5: Card := Card(["87", "83", "26", "28", "32"], ["88", "30", "70", "12", "93", "22", "82", "36"])
  const Card6: Card := Card(["31", "18", "13", "56", "72"], ["74", "77", "10", "23", "35", "67", "36", "11"])

  /** The two space runs the sample uses. */
  const One: string := " "
  const Two: string := "  "

  /** The layout of a line; the sides have five and eight numbers. */
  function LayoutOf(id: string, afterColon: string, winningGaps: seq<string>): Layout {
    Layout(One, id, afterColon, [One, One, One, One], Bar(One, One), winningGaps)
  }

  const Plain: seq<string> := [One, One, One, One, One, One, One]

  const Layouts: seq<Layout> := [
    LayoutOf("1", One, [One, Two, One, One, Two, One, One]),
    LayoutOf("2", One, Plain),
    LayoutOf("3", Two, [One, One, One, One, One, One, Two]),
    LayoutOf("4", One, [One, One, One, One, Two, One, One]),
    LayoutOf("5", One, Plain),
    LayoutOf("6", One, Plain)
  ]

  const Cards: seq<Card> := [Card1, Card2, Card3, Card4, Card5, Card6]

  // ---------------------------------------------------------------------
  // The lines are the sample cards printed with their layouts

  lemma SideOfFive(a: string, b: string, c: string, d: string, e: string,
                   g1: string, g2: string, g3: string, g4: string)
    ensures PrintSide(SideText([a, b, c, d, e], [g1, g2, g3, g4]))
         == a + (g1 + b + (g2 + c + (g3 + d + (g4 + e + ""))))
  {
    assert [a, b, c, d, e][1..] == [b, c, d, e];
    assert PrintNumberRounds([e], [g4]) == g4 + e + "" by {
      assert [e][1..] == [] && [g4][1..] == [];
    }
    assert PrintNumberRounds([d, e], [g3, g4]) == g3 + d + PrintNumberRounds([e], [g4]) by {
      assert [d, e][1..] == [e] && [g3, g4][1..] == [g4];
    }
    assert PrintNumberRounds([c, d, e], [g2, g3, g4]) == g2 + c + PrintNumberRounds([d, e], [g3, g4]) by {
      assert [c, d, e][1..] == [d, e] && [g2, g3, g4][1..] == [g3, g4];
    }
    assert PrintNumberRounds([b, c, d, e], [g1, g2, g3, g4]) == g1 + b + PrintNumberRounds([c, d, e], [g2, g3, g4]) by {
      assert [b, c, d, e][1..] == [c, d, e] && [g1, g2, g3, g4][1..] == [g2, g3, g4];
    }
  }

  lemma SideOfEight(a: string, b: string, c: string, d: string, e: string, f: string, g: string, h: string,
                    g1: string, g2: string, g3: string, g4: string, g5: string, g6: string, g7: string)
    ensures PrintSide(SideText([a, b, c, d, e, f, g, h], [g1, g2, g3, g4, g5, g6, g7]))
         == a + (g1 + b + (g2 + c + (g3 + d + (g4 + e + (g5 + f + (g6 + g + (g7 + h + "")))))))
  {
    assert [a, b, c, d, e, f, g, h][1..] == [b, c, d, e, f, g, h];
    assert PrintNumberRounds([h], [g7]) == g7 + h + "" by {
      assert [h][1..] == [] && [g7][1..] == [];
    }
    assert PrintNumberRounds([g, h], [g6, g7]) == g6 + g + PrintNumberRounds([h], [g7]) by {
      assert [g, h][1..] == [h] && [g6, g7][1..] == [g7];
    }
    assert PrintNumberRounds([f, g, h], [g5, g6, g7]) == g5 + f + PrintNumberRounds([g, h], [g6, g7]) by {
      assert [f, g, h][1..] == [g, h] && [g5, g6, g7][1..] == [g6, g7];
    }
    assert PrintNumberRounds([e, f, g, h], [g4, g5, g6, g7])
        == g4 + e + PrintNumberRounds([f, g, h], [g5, g6, g7]) by {
      assert [e, f, g, h][1..] == [f, g, h] && [g4, g5, g6, g7][1..] == [g5, g6, g7];
    }
    assert PrintNumberRounds([d, e, f, g, h], [g3, g4, g5, g6, g7])
        == g3 + d + PrintNumberRounds([e, f, g, h], [g4, g5, g6, g7]) by {
      assert [d, e, f, g, h][1..] == [e, f, g, h] && [g3, g4, g5, g6, g7][1..] == [g4, g5, g6, g7];
    }
    assert PrintNumberRounds([c, d, e, f, g, h], [g2, g3, g4, g5, g6, g7])
        == g2 + c + PrintNumberRounds([d, e, f, g, h], [g3, g4, g5, g6, g7]) by {
      assert [c, d, e, f, g, h][1..] == [d, e, f, g, h];
      assert [g2, g3, g4, g5, g6, g7][1..] == [g3, g4, g5, g6, g7];
    }
    assert PrintNumberRounds([b, c, d, e, f, g, h], [g1, g2, g3, g4, g5, g6, g7])
        == g1 + b + PrintNumberRounds([c, d, e, f, g, h], [g2, g3, g4, g5, g6, g7]) by {
      assert [b, c, d, e, f, g, h][1..] == [c, d, e, f, g, h];
      assert [g1, g2, g3, g4, g5, g6, g7][1..] == [g2, g3, g4, g5, g6, g7];
    }
  }

  lemma OwnedText1()
    ensures PrintSide(SideText(Card1.owned, Layouts[0].ownedGaps)) == "41 48 83 86 17"
  {
    SideOfFive("41", "48", "83", "86", "17", One, One, One, One);
    assert "41 48 83 86 17" == "41" + (One + "48" + (One + "83" + (One + "86" + (One + "17" + ""))));
  }

  lemma WinningText1()
    ensures PrintSide(SideText(Card1.winning, Layouts[0].winningGaps)) == "83 86  6 31 17  9 48 53"
  {
    SideOfEight("83", "86", "6", "31", "17", "9", "48", "53",
                One, Two, One, One, Two, One, One);
    WinningSpelled1();
  }

  lemma WinningSpelled1()
    ensures "83 86  6 31 17  9 48 53"
         == "83" + (One + "86" + (Two + "6" + (One + "31" + (One + "17" + (Two + "9" + (One + "48" + (One + "53" + "")))))))
  {
  }

  lemma PrintLine1()
    ensures PrintCard(Card1, Layouts[0]) == Line1
  {
    OwnedText1();
    WinningText1();
    assert HeaderText(One, "1", One) == "Card 1: ";
  }

  lemma OwnedText2()
    ensures PrintSide(SideText(Card2.owned, Layouts[1].ownedGaps)) == "13 32 20 16 61"
  {
    SideOfFive("13", "32", "20", "16", "61", One, One, One, One);
    assert "13 32 20 16 61" == "13" + (One + "32" + (One + "20" + (One + "16" + (One + "61" + ""))));
  }

  lemma WinningText2()
    ensures PrintSide(SideText(Card2.winning, Layouts[1].winningGaps)) == "61 30 68 82 17 32 24 19"
  {
    SideOfEight("61", "30", "68", "82", "17", "32", "24", "19",
                One, One, One, One, One, One, One);
    WinningSpelled2();
  }

  lemma WinningSpelled2()
    ensures "61 30 68 82 17 32 24 19"
         == "61" + (One + "30" + (One + "68" + (One + "82" + (One + "17" + (One + "32" + (One + "24" + (One + "19" + "")))))))
  {
  }

  lemma PrintLine2()
    ensures PrintCard(Card2, Layouts[1]) == Line2
  {
    OwnedText2();
    WinningText2();
    assert HeaderText(One, "2", One) == "Card 2: ";
  }

  lemma OwnedText3()
    ensures PrintSide(SideText(Card3.owned, Layouts[2].ownedGaps)) == "1 21 53 59 44"
  {
    SideOfFive("1", "21", "53", "59", "44", One, One, One, One);
    assert "1 21 53 59 44" == "1" + (One + "21" + (One + "53" + (One + "59" + (One + "44" + ""))));
  }

  lemma WinningText3()
    ensures PrintSide(SideText(Card3.winning, Layouts[2].winningGaps)) == "69 82 63 72 16 21 14  1"
  {
    SideOfEight("69", "82", "63", "72", "16", "21", "14", "1",
                One, One, One, One, One, One, Two);
    WinningSpelled3();
  }

  lemma WinningSpelled3()
    ensures "69 82 63 72 16 21 14  1"
         == "69" + (One + "82" + (One + "63" + (One + "72" + (One + "16" + (One + "21" + (One + "14" + (Two + "1" + "")))))))
  {
  }

  lemma PrintLine3()
    ensures PrintCard(Card3, Layouts[2]) == Line3
  {
    OwnedText3();
    WinningText3();
    assert HeaderText(One, "3", Two) == "Card 3:  ";
  }

  lemma OwnedText4()
    ensures PrintSide(SideText(Card4.owned, Layouts[3].ownedGaps)) == "41 92 73 84 69"
  {
    SideOfFive("41", "92", "73", "84", "69", One, One, One, One);
    assert "41 92 73 84 69" == "41" + (One + "92" + (One + "73" + (One + "84" + (One + "69" + ""))));
  }

  lemma WinningText4()
    ensures PrintSide(SideText(Card4.winning, Layouts[3].winningGaps)) == "59 84 76 51 58  5 54 83"
  {
    SideOfEight("59", "84", "76", "51", "58", "5", "54", "83",
                One, One, One, One, Two, One, One);
    WinningSpelled4();
  }

  lemma WinningSpelled4()
    ensures "59 84 76 51 58  5 54 83"
         == "59" + (One + "84" + (One + "76" + (One + "51" + (One + "58" + (Two + "5" + (One + "54" + (One + "83" + "")))))))
  {
  }

  lemma PrintLine4()
    ensures PrintCard(Card4, Layouts[3]) == Line4
  {
    OwnedText4();
    WinningText4();
    assert HeaderText(One, "4", One) == "Card 4: ";
  }

  lemma OwnedText5()
    ensures PrintSide(SideText(Card5.owned, Layouts[4].ownedGaps)) == "87 83 26 28 32"
  {
    SideOfFive("87", "83", "26", "28", "32", One, One, One, One);
    assert "87 83 26 28 32" == "87" + (One + "83" + (One + "26" + (One + "28" + (One + "32" + ""))));
  }

  lemma WinningText5()
    ensures PrintSide(SideText(Card5.winning, Layouts[4].winningGaps)) == "88 30 70 12 93 22 82 36"
  {
    SideOfEight("88", "30", "70", "12", "93", "22", "82", "36",
                One, One, One, One, One, One, One);
    WinningSpelled5();
  }

  lemma WinningSpelled5()
    ensures "88 30 70 12 93 22 82 36"
         == "88" + (One + "30" + (One + "70" + (One + "12" + (One + "93" + (One + "22" + (One + "82" + (One + "36" + "")))))))
  {
  }

  lemma PrintLine5()
    ensures PrintCard(Card5, Layouts[4]) == Line5
  {
    OwnedText5();
    WinningText5();
    assert HeaderText(One, "5", One) == "Card 5: ";
  }

  lemma OwnedText6()
    ensures PrintSide(SideText(Card6.owned, Layouts[5].ownedGaps)) == "31 18 13 56 72"
  {
    SideOfFive("31", "18", "13", "56", "72", One, One, One, One);
    assert "31 18 13 56 72" == "31" + (One + "18" + (One + "13" + (One + "56" + (One + "72" + ""))));
  }

  lemma WinningText6()
    ensures PrintSide(SideText(Card6.winning, Layouts[5].winningGaps)) == "74 77 10 23 35 67 36 11"
  {
    SideOfEight("74", "77", "10", "23", "35", "67", "36", "11",
                One, One, One, One, One, One, One);
    WinningSpelled6();
  }

  lemma WinningSpelled6()
    ensures "74 77 10 23 35 67 36 11"
         == "74" + (One + "77" + (One + "10" + (One + "23" + (One + "35" + (One + "67" + (One + "36" + (One + "11" + "")))))))
  {
  }

  lemma PrintLine6()
    ensures PrintCard(Card6, Layouts[5]) == Line6
  {
    OwnedText6();
    WinningText6();
    assert HeaderText(One, "6", One) == "Card 6: ";
  }

  // ---------------------------------------------------------------------
  // The scores

  function Hit(x: string, winning: seq<string>): nat {
    if x in winning then 1 else 0
  }

  lemma CountOfFive(a: string, b: string, c: string, d: string, e: string, w: seq<string>)
    ensures CountMatches([a, b, c, d, e], w) == Hit(a, w) + Hit(b, w) + Hit(c, w) + Hit(d, w) + Hit(e, w)
  {
    assert CountMatches([e], w) == Hit(e, w) by {
      assert [e][1..] == [];
    }
    assert CountMatches([d, e], w) == Hit(d, w) + CountMatches([e], w) by {
      assert [d, e][1..] == [e];
    }
    assert CountMatches([c, d, e], w) == Hit(c, w) + CountMatches([d, e], w) by {
      assert [c, d, e][1..] == [d, e];
    }
    assert CountMatches([b, c, d, e], w) == Hit(b, w) + CountMatches([c, d, e], w) by {
      assert [b, c, d, e][1..] == [c, d, e];
    }
    assert [a, b, c, d, e][1..] == [b, c, d, e];
  }

  lemma Hits1()
    ensures Hit("41", Card1.winning) + Hit("48", Card1.winning) + Hit("83", Card1.winning) + Hit("86", Card1.winning) + Hit("17", Card1.winning) == 4
  {
    assert "41" !in Card1.winning;
    assert Card1.winning[6] == "48";
    assert Card1.winning[0] == "83";
    assert Card1.winning[1] == "86";
    assert Card1.winning[4] == "17";
  }

  lemma Score1()
    ensures Matches(Card1) == 4 && Score(Card1) == 8
  {
    CountOfFive("41", "48", "83", "86", "17", Card1.winning);
    Hits1();
  }

  lemma Hits2()
    ensures Hit("13", Card2.winning) + Hit("32", Card2.winning) + Hit("20", Card2.winning) + Hit("16", Card2.winning) + Hit("61", Card2.winning) == 2
  {
    assert "13" !in Card2.winning;
    assert Card2.winning[5] == "32";
    assert "20" !in Card2.winning;
    assert "16" !in Card2.winning;
    assert Card2.winning[0] == "61";
  }

  lemma Score2()
    ensures Matches(Card2) == 2 && Score(Card2) == 2
  {
    CountOfFive("13", "32", "20", "16", "61", Card2.winning);
    Hits2();
  }

  lemma Hits3()
    ensures Hit("1", Card3.winning) + Hit("21", Card3.winning) + Hit("53", Card3.winning) + Hit("59", Card3.winning) + Hit("44", Card3.winning) == 2
  {
    assert Card3.winning[7] == "1";
    assert Card3.winning[5] == "21";
    assert "53" !in Card3.winning;
    assert "59" !in Card3.winning;
    assert "44" !in Card3.winning;
  }

  lemma Score3()
    ensures Matches(Card3) == 2 && Score(Card3) == 2
  {
    CountOfFive("1", "21", "53", "59", "44", Card3.winning);
    Hits3();
  }

  lemma Hits4()
    ensures Hit("41", Card4.winning) + Hit("92", Card4.winning) + Hit("73", Card4.winning) + Hit("84", Card4.winning) + Hit("69", Card4.winning) == 1
  {
    assert "41" !in Card4.winning;
    assert "92" !in Card4.winning;
    assert "73" !in Card4.winning;
    assert Card4.winning[1] == "84";
    assert "69" !in Card4.winning;
  }

  lemma Score4()
    ensures Matches(Card4) == 1 && Score(Card4) == 1
  {
    CountOfFive("41", "92", "73", "84", "69", Card4.winning);
    Hits4();
  }

  lemma Hits5()
    ensures Hit("87", Card5.winning) + Hit("83", Card5.winning) + Hit("26", Card5.winning) + Hit("28", Card5.winning) + Hit("32", Card5.winning) == 0
  {
    assert "87" !in Card5.winning;
    assert "83" !in Card5.winning;
    assert "26" !in Card5.winning;
    assert "28" !in Card5.winning;
    assert "32" !in Card5.winning;
  }

  lemma Score5()
    ensures Matches(Card5) == 0 && Score(Card5) == 0
  {
    CountOfFive("87", "83", "26", "28", "32", Card5.winning);
    Hits5();
  }

  lemma Hits6()
    ensures Hit("31", Card6.winning) + Hit("18", Card6.winning) + Hit("13", Card6.winning) + Hit("56", Card6.winning) + Hit("72", Card6.winning) == 0
  {
    assert "31" !in Card6.winning;
    assert "18" !in Card6.winning;
    assert "13" !in Card6.winning;
    assert "56" !in Card6.winning;
    assert "72" !in Card6.winning;
  }

  lemma Score6()
    ensures Matches(Card6) == 0 && Score(Card6) == 0
  {
    CountOfFive("31", "18", "13", "56", "72", Card6.winning);
    Hits6();
  }

  // ---------------------------------------------------------------------
  // The whole sample

  /** Each card, printed with its layout, is the line at its position. */
  predicate PrintsAs(cards: seq<Card>, lays: seq<Layout>, lines: seq<string>) {
    && |cards| == |lays| == |lines|
    && (|cards| == 0 || (PrintCard(cards[0], lays[0]) == lines[0] && PrintsAs(cards[1..], lays[1..], lines[1..])))
  }

  lemma {:induction false} RoundsJoined(cards: seq<Card>, lays: seq<Layout>, lines: seq<string>)
    requires PrintsAs(cards, lays, lines)
    ensures PrintCardRounds(cards, lays) == if |cards| == 0 then "" else "\n" + Joined(lines)
    decreases |cards|
  {
    if |cards| > 0 {
      RoundsJoined(cards[1..], lays[1..], lines[1..]);
      if |cards| > 1 {
        LineFeedBefore(lines[0], Joined(lines[1..]));
      } else {
        NothingAppended("\n" + lines[0]);
      }
    }
  }

  lemma LineFeedBefore(x: string, j: string)
    ensures "\n" + x + ("\n" + j) == "\n" + (x + "\n" + j)
  {
  }

  /** Printing cards gives their printed lines joined by line feeds. */
  lemma PrintCardsJoined(cards: seq<Card>, lays: seq<Layout>, lines: seq<string>)
    requires PrintsAs(cards, lays, lines) && |cards| > 0
    ensures PrintCards(cards, lays) == Joined(lines)
  {
    RoundsJoined(cards[1..], lays[1..], lines[1..]);
    if |cards| > 1 {
      LineFeedBetween(lines[0], Joined(lines[1..]));
    } else {
      NothingAppended(lines[0]);
    }
  }

  lemma LineFeedBetween(x: string, j: string)
    ensures x + ("\n" + j) == x + "\n" + j
  {
  }

  lemma PrintsAsSix(c1: Card, c2: Card, c3: Card, c4: Card, c5: Card, c6: Card,
                    l1: Layout, l2: Layout, l3: Layout, l4: Layout, l5: Layout, l6: Layout,
                    s1: string, s2: string, s3: string, s4: string, s5: string, s6: string)
    requires PrintCard(c1, l1) == s1 && PrintCard(c2, l2) == s2 && PrintCard(c3, l3) == s3
    requires PrintCard(c4, l4) == s4 && PrintCard(c5, l5) == s5 && PrintCard(c6, l6) == s6
    ensures PrintsAs([c1, c2, c3, c4, c5, c6], [l1, l2, l3, l4, l5, l6], [s1, s2, s3, s4, s5, s6])
  {
    assert PrintsAs([c6], [l6], [s6]) by {
      assert [c6][1..] == [] && [l6][1..] == [] && [s6][1..] == [];
    }
    assert PrintsAs([c5, c6], [l5, l6], [s5, s6]) by {
      assert [c5, c6][1..] == [c6] && [l5, l6][1..] == [l6] && [s5, s6][1..] == [s6];
    }
    assert PrintsAs([c4, c5, c6], [l4, l5, l6], [s4, s5, s6]) by {
      assert [c4, c5, c6][1..] == [c5, c6] && [l4, l5, l6][1..] == [l5, l6];
      assert [s4, s5, s6][1..] == [s5, s6];
    }
    assert PrintsAs([c3, c4, c5, c6], [l3, l4, l5, l6], [s3, s4, s5, s6]) by {
      assert [c3, c4, c5, c6][1..] == [c4, c5, c6] && [l3, l4, l5, l6][1..] == [l4, l5, l6];
      assert [s3, s4, s5, s6][1..] == [s4, s5, s6];
    }
    assert PrintsAs([c2, c3, c4, c5, c6], [l2, l3, l4, l5, l6], [s2, s3, s4, s5, s6]) by {
      assert [c2, c3, c4, c5, c6][1..] == [c3, c4, c5, c6];
      assert [l2, l3, l4, l5, l6][1..] == [l3, l4, l5, l6];
      assert [s2, s3, s4, s5, s6][1..] == [s3, s4, s5, s6];
    }
    assert [c1, c2, c3, c4, c5, c6][1..] == [c2, c3, c4, c5, c6];
    assert [l1, l2, l3, l4, l5, l6][1..] == [l2, l3, l4, l5, l6];
    assert [s1, s2, s3, s4, s5, s6][1..] == [s2, s3, s4, s5, s6];
  }

  lemma SampleIsPrinted()
    ensures PrintCards(Cards, Layouts) == SampleText
  {
    PrintLine1(); PrintLine2(); PrintLine3(); PrintLine4(); PrintLine5(); PrintLine6();
    PrintsAsSix(Card1, Card2, Card3, Card4, Card5, Card6,
                Layouts[0], Layouts[1], Layouts[2], Layouts[3], Layouts[4], Layouts[5],
                Line1, Line2, Line3, Line4, Line5, Line6);
    PrintCardsJoined(Cards, Layouts, [Line1, Line2, Line3, Line4, Line5, Line6]);
  }

  /** A layout of the sample fits every card with five owned and eight
      winning numbers. */
  lemma LayoutFits(c: Card, id: string, afterColon: string, winningGaps: seq<string>)
    requires IsSide(c.owned) && |c.owned| == 5 && IsSide(c.winning) && |c.winning| == 8
    requires IsNumber(id) && (afterColon == One || afterColon == Two)
    requires |winningGaps| == 7 && forall g <- winningGaps :: g == One || g == Two
    ensures Fits(c, LayoutOf(id, afterColon, winningGaps))
  {
  }

  lemma FiveNumbers(a: string, b: string, c: string, d: string, e: string)
    requires IsNumber(a) && IsNumber(b) && IsNumber(c) && IsNumber(d) && IsNumber(e)
    ensures IsSide([a, b, c, d, e])
  {
  }

  lemma EightNumbers(a: string, b: string, c: string, d: string, e: string, f: string, g: string, h: string)
    requires IsNumber(a) && IsNumber(b) && IsNumber(c) && IsNumber(d)
    requires IsNumber(e) && IsNumber(f) && IsNumber(g) && IsNumber(h)
    ensures IsSide([a, b, c, d, e, f, g, h])
  {
  }

  lemma Fits1() ensures Fits(Card1, Layouts[0]) {
    FiveNumbers("41", "48", "83", "86", "17");
    EightNumbers("83", "86", "6", "31", "17", "9", "48", "53");
    LayoutFits(Card1, "1", One, [One, Two, One, One, Two, One, One]);
  }

  lemma Fits2() ensures Fits(Card2, Layouts[1]) {
    FiveNumbers("13", "32", "20", "16", "61");
    EightNumbers("61", "30", "68", "82", "17", "32", "24", "19");
    LayoutFits(Card2, "2", One, Plain);
  }

  lemma Fits3() ensures Fits(Card3, Layouts[2]) {
    FiveNumbers("1", "21", "53", "59", "44");
    EightNumbers("69", "82", "63", "72", "16", "21", "14", "1");
    LayoutFits(Card3, "3", Two, [One, One, One, One, One, One, Two]);
  }

  lemma Fits4() ensures Fits(Card4, Layouts[3]) {
    FiveNumbers("41", "92", "73", "84", "69");
    EightNumbers("59", "84", "76", "51", "58", "5", "54", "83");
    LayoutFits(Card4, "4", One, [One, One, One, One, Two, One, One]);
  }

  lemma Fits5() ensures Fits(Card5, Layouts[4]) {
    FiveNumbers("87", "83", "26", "28", "32");
    EightNumbers("88", "30", "70", "12", "93", "22", "82", "36");
    LayoutFits(Card5, "5", One, Plain);
  }

  lemma Fits6() ensures Fits(Card6, Layouts[5]) {
    FiveNumbers("31", "18", "13", "56", "72");
    EightNumbers("74", "77", "10", "23", "35", "67", "36", "11");
    LayoutFits(Card6, "6", One, Plain);
  }

  lemma SampleFits()
    ensures AllFit(Cards, Layouts)
  {
    Fits1(); Fits2(); Fits3(); Fits4(); Fits5(); Fits6();
    assert AllFit(Cards[5..], Layouts[5..]);
    assert AllFit(Cards[4..], Layouts[4..]);
    assert AllFit(Cards[3..], Layouts[3..]);
    assert AllFit(Cards[2..], Layouts[2..]);
    assert AllFit(Cards[1..], Layouts[1..]);
  }

  lemma TotalOfSix(c1: Card, c2: Card, c3: Card, c4: Card, c5: Card, c6: Card)
    ensures Total([c1, c2, c3, c4, c5, c6])
         == Score(c1) + Score(c2) + Score(c3) + Score(c4) + Score(c5) + Score(c6)
  {
    assert Total([c6]) == Score(c6) by {
      assert [c6][1..] == [];
    }
    assert Total([c5, c6]) == Score(c5) + Total([c6]) by {
      assert [c5, c6][1..] == [c6];
    }
    assert Total([c4, c5, c6]) == Score(c4) + Total([c5, c6]) by {
      assert [c4, c5, c6][1..] == [c5, c6];
    }
    assert Total([c3, c4, c5, c6]) == Score(c3) + Total([c4, c5, c6]) by {
      assert [c3, c4, c5, c6][1..] == [c4, c5, c6];
    }
    assert Total([c2, c3, c4, c5, c6]) == Score(c2) + Total([c3, c4, c5, c6]) by {
      assert [c2, c3, c4, c5, c6][1..] == [c3, c4, c5, c6];
    }
    assert [c1, c2, c3, c4, c5, c6][1..] == [c2, c3, c4, c5, c6];
  }

  lemma SampleTotal()
    ensures Total(Cards) == 13
  {
    Score1(); Score2(); Score3(); Score4(); Score5(); Score6();
    TotalOfSix(Card1, Card2, Card3, Card4, Card5, Card6);
  }

  /** The test of `run`: the six-line example adds up to 13 points. */
  lemma SampleRun()
    ensures Run(SampleText) == Some(13)
  {
    SampleIsPrinted();
    SampleFits();
    SampleTotal();
    RunRoundTrip(Cards, Layouts);
  }
}
