/**
 * The checking job's deterministic core: `check_winning` (match counts and the
 * prize tables of the two games) and `format_number_comparison` (the numbers
 * shown side by side in the result mail).
 */
module Check {
  import opened Wrappers
  import opened PyText
  import opened Games
  import opened TicketFormat

  /** A subset is no larger than the set containing it. */
  lemma SubsetSize(s: set<int>, t: set<int>)
    requires s <= t
    ensures |s| <= |t|
  {
    assert t == s + (t - s);
    assert s * (t - s) == {};
  }

  /** `len(set(a) & set(b))`: how many values two groups share. */
  function MatchCount(a: seq<int>, b: seq<int>): (n: nat)
    ensures n <= |SetOf(a)| && n <= |SetOf(b)|
    ensures n <= |a| && n <= |b|
  {
    SubsetSize(SetOf(a) * SetOf(b), SetOf(a));
    SubsetSize(SetOf(a) * SetOf(b), SetOf(b));
    SetOfSize(a);
    SetOfSize(b);
    |SetOf(a) * SetOf(b)|
  }

  /** Lists with the same values have the same set of values. */
  lemma SameSetOf(a: seq<int>, a': seq<int>)
    requires forall x :: x in a <==> x in a'
    ensures SetOf(a) == SetOf(a')
  {
    forall x ensures x in SetOf(a) <==> x in SetOf(a') {
    }
  }

  /** Only the values of each group matter, not their order or repeats, and the two sides can swap. */
  lemma MatchCountOfSets(a: seq<int>, a': seq<int>, b: seq<int>, b': seq<int>)
    requires forall x :: x in a <==> x in a'
    requires forall x :: x in b <==> x in b'
    ensures MatchCount(a, b) == MatchCount(a', b') == MatchCount(b', a')
  {
    SameSetOf(a, a');
    SameSetOf(b, b');
    assert SetOf(a') * SetOf(b') == SetOf(b') * SetOf(a');
  }

  /** Reordering a group keeps its values. */
  lemma PermutationKeepsValues(a: seq<int>, a': seq<int>)
    ensures multiset(a) == multiset(a') ==> forall x :: x in a <==> x in a'
  {
    if multiset(a) == multiset(a') {
      forall x ensures x in a <==> x in a' {
        assert x in a <==> x in multiset(a);
        assert x in a' <==> x in multiset(a');
      }
    }
  }

  /** Repeating one of a group's entries keeps its values. */
  lemma RepeatKeepsValues(a: seq<int>, i: nat)
    requires i < |a|
    ensures forall x :: x in a <==> x in a + [a[i]]
  {
  }

  // ---------------------------------------------------------------- prize tiers

  /** 一等奖 down to 六等奖, then no prize. */
  datatype Tier = First | Second | Third | Fourth | Fifth | Sixth | NoWin

  /** 1 for 一等奖 through 6 for 六等奖; 7 for no prize. A smaller rank is a better result. */
  function Rank(t: Tier): nat {
    match t
    case First => 1
    case Second => 2
    case Third => 3
    case Fourth => 4
    case Fifth => 5
    case Sixth => 6
    case NoWin => 7
  }

  /** The sentence `check_winning` returns for each outcome. */
  function Message(t: Tier): string {
    match t
    case First => "恭喜您中了一等奖！"
    case Second => "恭喜您中了二等奖！"
    case Third => "恭喜您中了三等奖！"
    case Fourth => "恭喜您中了四等奖！"
    case Fifth => "恭喜您中了五等奖！"
    case Sixth => "恭喜您中了六等奖！"
    case NoWin => "很遗憾，您没有中奖。"
  }

  /** The seven sentences are pairwise different, so the sentence tells the outcome. */
  lemma MessagesDistinct(t: Tier, u: Tier)
    ensures Message(t) == Message(u) <==> t == u
  {
    if t != u {
      assert Message(t)[0] != Message(u)[0] || Message(t)[5] != Message(u)[5];
    }
  }

  /** The 大乐透 table: front and back match counts, first matching row wins. */
  function DltTier(front: int, back: int): Tier {
    if front == 5 && back == 2 then First
    else if front == 5 && back == 1 then Second
    else if front == 5 && back == 0 then Third
    else if front == 4 && back == 2 then Fourth
    else if (front == 4 && back == 1) || (front == 3 && back == 2) then Fifth
    else if (front == 4 && back == 0) || (front == 3 && back == 1) || (front == 2 && back == 2) then Sixth
    else NoWin
  }

  /** The 双色球 table: red match count and whether the blue number matches. */
  function SsqTier(red: int, blueMatch: bool): Tier {
    if red == 6 && blueMatch then First
    else if red == 6 && !blueMatch then Second
    else if red == 5 && blueMatch then Third
    else if (red == 5 && !blueMatch) || (red == 4 && blueMatch) then Fourth
    else if (red == 4 && !blueMatch) || (red == 3 && blueMatch) then Fifth
    else if (red == 2 && blueMatch) || (red == 1 && blueMatch) || (red == 0 && blueMatch) then Sixth
    else NoWin
  }

  /** Each 大乐透 outcome, stated as exactly the count pairs that reach it. */
  lemma DltTable(front: int, back: int)
    ensures DltTier(front, back) == First <==> front == 5 && back == 2
    ensures DltTier(front, back) == Second <==> front == 5 && back == 1
    ensures DltTier(front, back) == Third <==> front == 5 && back == 0
    ensures DltTier(front, back) == Fourth <==> front == 4 && back == 2
    ensures DltTier(front, back) == Fifth <==> (front, back) in {(4, 1), (3, 2)}
    ensures DltTier(front, back) == Sixth <==> (front, back) in {(4, 0), (3, 1), (2, 2)}
    ensures DltTier(front, back) == NoWin <==>
      (front, back) !in {(5, 2), (5, 1), (5, 0), (4, 2), (4, 1), (3, 2), (4, 0), (3, 1), (2, 2)}
    ensures front <= 1 || (front, back) in {(3, 0), (2, 0), (2, 1)} ==> DltTier(front, back) == NoWin
  {
  }

  /** Each 双色球 outcome, stated as exactly the (red, blue) results that reach it. */
  lemma SsqTable(red: int, blueMatch: bool)
    ensures SsqTier(red, blueMatch) == First <==> red == 6 && blueMatch
    ensures SsqTier(red, blueMatch) == Second <==> red == 6 && !blueMatch
    ensures SsqTier(red, blueMatch) == Third <==> red == 5 && blueMatch
    ensures SsqTier(red, blueMatch) == Fourth <==> (red == 5 && !blueMatch) || (red == 4 && blueMatch)
    ensures SsqTier(red, blueMatch) == Fifth <==> (red == 4 && !blueMatch) || (red == 3 && blueMatch)
    ensures SsqTier(red, blueMatch) == Sixth <==> blueMatch && 0 <= red <= 2
    ensures 0 <= red <= 3 && !blueMatch ==> SsqTier(red, blueMatch) == NoWin
  {
  }

  /** Within the counts a 大乐透 ticket can reach, matching more never gives a worse outcome. */
  lemma DltMoreMatchesNeverWorse(front: int, back: int, front': int, back': int)
    requires 0 <= front <= front' <= 5 && 0 <= back <= back' <= 2
    ensures Rank(DltTier(front', back')) <= Rank(DltTier(front, back))
  {
  }

  /** Within the counts a 双色球 ticket can reach, matching more never gives a worse outcome. */
  lemma SsqMoreMatchesNeverWorse(red: int, blueMatch: bool, red': int, blueMatch': bool)
    requires 0 <= red <= red' <= 6 && (blueMatch ==> blueMatch')
    ensures Rank(SsqTier(red', blueMatch')) <= Rank(SsqTier(red, blueMatch))
  {
  }

  /** The outcome of a recommended ticket against the winning ticket of the same game. */
  function Classify(rec: Ticket, win: Ticket): Tier
    requires GameOf(rec) == GameOf(win)
  {
    if rec.FrontBack? then DltTier(MatchCount(rec.front, win.front), MatchCount(rec.back, win.back))
    else SsqTier(MatchCount(rec.red, win.red), rec.blue == win.blue)
  }

  /** Which side is "recommended" and which is "winning" does not matter. */
  lemma ClassifySymmetric(rec: Ticket, win: Ticket)
    requires GameOf(rec) == GameOf(win)
    ensures Classify(rec, win) == Classify(win, rec)
  {
    if rec.FrontBack? {
      MatchCountOfSets(rec.front, rec.front, win.front, win.front);
      MatchCountOfSets(rec.back, rec.back, win.back, win.back);
    } else {
      MatchCountOfSets(rec.red, rec.red, win.red, win.red);
    }
  }

  /** Two recommended tickets with the same values in each group get the same outcome. */
  lemma ClassifyByValues(rec: Ticket, rec': Ticket, win: Ticket)
    requires GameOf(rec) == GameOf(rec') == GameOf(win)
    requires rec.FrontBack? ==> (forall x :: x in rec.front <==> x in rec'.front) && (forall x :: x in rec.back <==> x in rec'.back)
    requires rec.RedBlue? ==> (forall x :: x in rec.red <==> x in rec'.red) && rec.blue == rec'.blue
    ensures Classify(rec, win) == Classify(rec', win)
  {
    if rec.FrontBack? {
      MatchCountOfSets(rec.front, rec'.front, win.front, win.front);
      MatchCountOfSets(rec.back, rec'.back, win.back, win.back);
    } else {
      MatchCountOfSets(rec.red, rec'.red, win.red, win.red);
    }
  }

  /**
   * `check_winning(lottery_type, recommended_numbers, winning_numbers)`:
   * the sentence for the outcome, or `None` where parsing raises.
   */
  function CheckWinning(lotteryType: string, recommended: string, winning: seq<string>): Option<string>
    requires |winning| == 7
  {
    var rec, win := Parse(lotteryType, recommended), ParseWinning(lotteryType, winning);
    if rec.Some? && win.Some? then Some(Message(Classify(rec.value, win.value))) else None
  }

  /**
   * `check_winning` raises exactly when the ticket string does not parse or one
   * of the seven winning fields is not an integer; otherwise it returns one of
   * the seven sentences.
   */
  lemma CheckWinningDefined(lotteryType: string, recommended: string, winning: seq<string>)
    requires |winning| == 7
    ensures CheckWinning(lotteryType, recommended, winning).Some?
        <==> Parse(lotteryType, recommended).Some? && forall i :: 0 <= i < 7 ==> ParseNumber(winning[i]).Some?
    ensures CheckWinning(lotteryType, recommended, winning).Some? ==>
      exists t :: CheckWinning(lotteryType, recommended, winning).value == Message(t)
  {
    WinningDefined(lotteryType, winning);
  }

  /**
   * A ticket string written by the generator is judged on exactly the numbers
   * it was written from.
   */
  lemma CheckGeneratedTicket(lotteryType: string, t: Ticket, winning: seq<string>, w: Ticket)
    requires HasGroups(t) && Branch(lotteryType) == GameOf(t)
    requires |winning| == 7 && ParseWinning(lotteryType, winning) == Some(w)
    ensures CheckWinning(lotteryType, Render(t), winning) == Some(Message(Classify(t, w)))
  {
    ParseRender(lotteryType, t);
  }

  lemma SetOfOneToSix()
    ensures SetOf([1, 2, 3, 4, 5, 6]) == {1, 2, 3, 4, 5, 6}
  {
    var a := [1, 2, 3, 4, 5, 6];
    forall x ensures x in SetOf(a) <==> x in {1, 2, 3, 4, 5, 6} {
      if x in {1, 2, 3, 4, 5, 6} { assert a[x - 1] == x; }
    }
  }

  lemma SetOfOneToFiveAndEight()
    ensures SetOf([1, 2, 3, 4, 5, 8]) == {1, 2, 3, 4, 5, 8}
  {
    var b := [1, 2, 3, 4, 5, 8];
    forall x ensures x in SetOf(b) <==> x in {1, 2, 3, 4, 5, 8} {
      if x in {1, 2, 3, 4, 5} { assert b[x - 1] == x; }
      if x == 8 { assert b[5] == x; }
    }
  }

  lemma SetOfOneToFive()
    ensures SetOf([1, 2, 3, 4, 5]) == {1, 2, 3, 4, 5}
  {
    var c := [1, 2, 3, 4, 5];
    forall x ensures x in SetOf(c) <==> x in {1, 2, 3, 4, 5} {
      if x in {1, 2, 3, 4, 5} { assert c[x - 1] == x; }
    }
  }

  lemma SetOfOneToFourAndNine()
    ensures SetOf([1, 2, 3, 4, 9]) == {1, 2, 3, 4, 9}
  {
    var d := [1, 2, 3, 4, 9];
    forall x ensures x in SetOf(d) <==> x in {1, 2, 3, 4, 9} {
      if x in {1, 2, 3, 4} { assert d[x - 1] == x; }
      if x == 9 { assert d[4] == x; }
    }
  }

  /** Worked example: all six red numbers and the blue number match. */
  lemma ExampleSsqFirst()
    ensures Classify(RedBlue([1, 2, 3, 4, 5, 6], 7), RedBlue([1, 2, 3, 4, 5, 6], 7)) == First
  {
    SetOfOneToSix();
    var m := SetOf([1, 2, 3, 4, 5, 6]) * SetOf([1, 2, 3, 4, 5, 6]);
    assert m == {1, 2, 3, 4, 5, 6};
    assert |m| == 6;
  }

  /** Worked example: five red numbers and the blue number match. */
  lemma ExampleSsqThird()
    ensures Classify(RedBlue([1, 2, 3, 4, 5, 6], 7), RedBlue([1, 2, 3, 4, 5, 8], 7)) == Third
  {
    SetOfOneToSix();
    SetOfOneToFiveAndEight();
    var m := SetOf([1, 2, 3, 4, 5, 6]) * SetOf([1, 2, 3, 4, 5, 8]);
    assert m == {1, 2, 3, 4, 5};
    assert |m| == 5;
  }

  /** Worked example: four front numbers and one back number match. */
  lemma ExampleDltFifth()
    ensures Classify(FrontBack([1, 2, 3, 4, 5], [1, 2]), FrontBack([1, 2, 3, 4, 9], [1, 9])) == Fifth
  {
    SetOfOneToFive();
    SetOfOneToFourAndNine();
    var m := SetOf([1, 2, 3, 4, 5]) * SetOf([1, 2, 3, 4, 9]);
    assert m == {1, 2, 3, 4};
    assert |m| == 4;
    var b, w := [1, 2], [1, 9];
    forall x ensures x in SetOf(b) * SetOf(w) <==> x == 1 {
      if x == 1 { assert b[0] == x && w[0] == x; }
    }
    assert SetOf(b) * SetOf(w) == {1};
  }

  /** Worked example: nothing matches. */
  lemma ExampleDltNoWin()
    ensures Classify(FrontBack([1, 2, 3, 4, 5], [1, 2]), FrontBack([9, 9, 9, 9, 9], [9, 9])) == NoWin
  {
    var c, b, w := [1, 2, 3, 4, 5], [1, 2], [9, 9];
    forall x ensures x !in SetOf(c) * SetOf([9, 9, 9, 9, 9]) {
      if x in c { assert 1 <= x <= 5; }
    }
    forall x ensures x !in SetOf(b) * SetOf(w) {
      if x in b { assert 1 <= x <= 2; }
    }
    assert SetOf(c) * SetOf([9, 9, 9, 9, 9]) == {};
    assert SetOf(b) * SetOf(w) == {};
  }

  // ---------------------------------------------------------------- comparison

  /** One group as the result mail shows it: both sides, padded, and the shared values. */
  datatype GroupRow = GroupRow(recommended: string, drawn: string, matched: set<int>)

  /** The content of `format_number_comparison`'s HTML for each game. */
  datatype Comparison =
    | FrontBackRows(front: GroupRow, back: GroupRow)
    | RedBlueRows(red: GroupRow, blueRecommended: string, blueDrawn: string, blueMatch: bool)

  /** `[f"{n:02d}" for n in ns]`. */
  function Padded(ns: seq<int>): (r: seq<string>)
    ensures |r| == |ns|
    ensures forall i :: 0 <= i < |ns| ==> r[i] == Pad2(ns[i])
    decreases |ns|
  {
    if |ns| == 0 then [] else [Pad2(ns[0])] + Padded(ns[1..])
  }

  /** `" ".join([f"{n:02d}" for n in ns])`. */
  function PaddedRow(ns: seq<int>): string {
    Join(" ", Padded(ns))
  }

  /**
   * A padded row splits at its spaces into one field per number; each field
   * reads back as its number, and a number of 0..99 takes exactly two digits.
   */
  lemma PaddedRowFields(ns: seq<int>)
    requires |ns| > 0
    ensures |Split(PaddedRow(ns), ' ')| == |ns|
    ensures forall i :: 0 <= i < |ns| ==> PyInt(Split(PaddedRow(ns), ' ')[i]) == Some(ns[i])
    ensures forall i :: 0 <= i < |ns| && 0 <= ns[i] < 100 ==> |Split(PaddedRow(ns), ' ')[i]| == 2
  {
    SplitJoin(Padded(ns), ' ');
    forall i | 0 <= i < |ns| ensures PyInt(Padded(ns)[i]) == Some(ns[i]) {
      Pad2ReadsBack(ns[i]);
    }
  }

  /** One group of the comparison: both sides padded, and the values they share. */
  function Row(rec: seq<int>, win: seq<int>): GroupRow {
    GroupRow(PaddedRow(rec), PaddedRow(win), SetOf(rec) * SetOf(win))
  }

  /**
   * `format_number_comparison(lottery_type, recommended_numbers, winning_numbers)`,
   * or `None` where parsing raises. The matched values are a set: the order in
   * which Python prints them is not fixed.
   */
  function FormatNumberComparison(lotteryType: string, recommended: string, winning: seq<string>): Option<Comparison>
    requires |winning| == 7
  {
    var rec, win := Parse(lotteryType, recommended), ParseWinning(lotteryType, winning);
    if !(rec.Some? && win.Some?) then None
    else if rec.value.FrontBack? then
      Some(FrontBackRows(Row(rec.value.front, win.value.front), Row(rec.value.back, win.value.back)))
    else
      Some(RedBlueRows(Row(rec.value.red, win.value.red), Pad2(rec.value.blue), Pad2(win.value.blue),
                       rec.value.blue == win.value.blue))
  }

  /**
   * The comparison shows exactly the matches `check_winning` classifies: it
   * exists exactly when a verdict does, and the verdict is the table applied
   * to the sizes of the matched sets it shows.
   */
  lemma ComparisonAgreesWithVerdict(lotteryType: string, recommended: string, winning: seq<string>)
    requires |winning| == 7
    ensures FormatNumberComparison(lotteryType, recommended, winning).Some?
        <==> CheckWinning(lotteryType, recommended, winning).Some?
    ensures var c := FormatNumberComparison(lotteryType, recommended, winning);
      c.Some? && c.value.FrontBackRows? ==>
        CheckWinning(lotteryType, recommended, winning)
          == Some(Message(DltTier(|c.value.front.matched|, |c.value.back.matched|)))
    ensures var c := FormatNumberComparison(lotteryType, recommended, winning);
      c.Some? && c.value.RedBlueRows? ==>
        CheckWinning(lotteryType, recommended, winning)
          == Some(Message(SsqTier(|c.value.red.matched|, c.value.blueMatch)))
  {
  }
}
