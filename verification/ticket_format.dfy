/**
 * The ticket string shared by the two scripts: `generate_numbers` writes it,
 * `check_winning` and `format_number_comparison` read it back. Numbers in a
 * group are joined by the ASCII ", "; the two groups are joined by the
 * full-width comma '，'. This module also reads the seven scraped winning
 * fields into the same `Ticket` shape.
 */
module TicketFormat {
  import opened Wrappers
  import opened PyText
  import opened Games

  const FrontLabel := "前区："
  const BackLabel := "后区："
  const RedLabel := "红球："
  const BlueLabel := "蓝球："

  /** The full-width comma that separates the two groups of a ticket string. */
  const GroupSep: char := '，'

  /** `map(str, ns)`. */
  function Decimals(ns: seq<int>): (r: seq<string>)
    ensures |r| == |ns|
    ensures forall i :: 0 <= i < |ns| ==> r[i] == Str(ns[i])
    decreases |ns|
  {
    if |ns| == 0 then [] else [Str(ns[0])] + Decimals(ns[1..])
  }

  /** `', '.join(map(str, ns))`. */
  function Group(ns: seq<int>): string {
    Join(", ", Decimals(ns))
  }

  /** The f-strings that `generate_numbers` returns. */
  function Render(t: Ticket): string {
    match t
    case FrontBack(front, back) => FrontLabel + Group(front) + [GroupSep] + BackLabel + Group(back)
    case RedBlue(red, blue) => RedLabel + Group(red) + [GroupSep] + BlueLabel + Str(blue)
  }

  /** `int(n.strip())`; `None` where Python raises `ValueError`. */
  function ParseNumber(piece: string): Option<int> {
    PyInt(Strip(piece))
  }

  /** `int()` strips by itself, so `int(n.strip())` and `int(n)` always agree. */
  lemma ParseNumberIsInt(piece: string)
    ensures ParseNumber(piece) == PyInt(piece)
  {
    var t := Strip(piece);
    StripUntouched(t);
    assert PyInt(t) == ReadInt(t);
  }

  /** `[f(n) for n in pieces]` for any per-piece parser `f`: fails as soon as one piece fails. */
  function ParseEach(f: string -> Option<int>, pieces: seq<string>): (r: Option<seq<int>>)
    ensures r.Some? ==> |r.value| == |pieces|
    decreases |pieces|
  {
    if |pieces| == 0 then Some([])
    else
      var head, tail := f(pieces[0]), ParseEach(f, pieces[1..]);
      if head.Some? && tail.Some? then Some([head.value] + tail.value) else None
  }

  /** `[int(n.strip()) for n in pieces]`. */
  function ParseNumbers(pieces: seq<string>): Option<seq<int>> {
    ParseEach(ParseNumber, pieces)
  }

  /** `[int(n.strip()) for n in group.split(",")]`. */
  function ParseGroup(g: string): Option<seq<int>> {
    ParseNumbers(Split(g, ','))
  }

  /**
   * The parsing half of `check_winning` and `format_number_comparison`: strip
   * the two labels, split at the full-width comma, read the first piece as a
   * group and the second as a group (大乐透) or one number (双色球). Pieces
   * after the second are ignored. `None` stands for the `ValueError` or
   * `IndexError` Python raises on a malformed string.
   */
  function Parse(lotteryType: string, s: string): (r: Option<Ticket>)
    ensures r.Some? ==> GameOf(r.value) == Branch(lotteryType)
  {
    if Branch(lotteryType) == DaLeTou then
      var groups := Split(Replace(Replace(s, FrontLabel, ""), BackLabel, ""), GroupSep);
      if |groups| < 2 then None
      else
        match (ParseGroup(groups[0]), ParseGroup(groups[1]))
        case (Some(front), Some(back)) => Some(FrontBack(front, back))
        case _ => None
    else
      var groups := Split(Replace(Replace(s, RedLabel, ""), BlueLabel, ""), GroupSep);
      if |groups| < 2 then None
      else
        match (ParseGroup(groups[0]), ParseNumber(groups[1]))
        case (Some(red), Some(blue)) => Some(RedBlue(red, blue))
        case _ => None
  }

  /**
   * The winning numbers: `int(n)` of the seven scraped fields, the first five
   * (大乐透) or six (双色球) forming the first group and the rest the second.
   */
  function ParseWinning(lotteryType: string, fields: seq<string>): (r: Option<Ticket>)
    requires |fields| == 7
    ensures r.Some? ==> GameOf(r.value) == Branch(lotteryType)
    ensures r.Some? && r.value.FrontBack? ==> |r.value.front| == 5 && |r.value.back| == 2
    ensures r.Some? && r.value.RedBlue? ==> |r.value.red| == 6
  {
    var cut := if Branch(lotteryType) == DaLeTou then 5 else 6;
    var first, second := ParseNumbers(fields[..cut]), ParseNumbers(fields[cut..]);
    if !(first.Some? && second.Some?) then None
    else if cut == 5 then Some(FrontBack(first.value, second.value))
    else Some(RedBlue(first.value, second.value[0]))
  }

  /** The list parses exactly when every piece does, and then holds the pieces' values in order. */
  lemma {:induction false} ParseEachPointwise(f: string -> Option<int>, pieces: seq<string>)
    ensures ParseEach(f, pieces).Some? <==> forall i :: 0 <= i < |pieces| ==> f(pieces[i]).Some?
    ensures ParseEach(f, pieces).Some? ==>
      forall i :: 0 <= i < |pieces| ==> f(pieces[i]) == Some(ParseEach(f, pieces).value[i])
    decreases |pieces|
  {
    if |pieces| > 0 {
      ParseEachPointwise(f, pieces[1..]);
      forall i | 0 < i < |pieces| ensures pieces[i] == pieces[1..][i - 1] {
      }
    }
  }

  /** Cutting the list in two: both halves parse exactly when the whole does. */
  lemma SplitParse(f: string -> Option<int>, pieces: seq<string>, cut: nat)
    requires cut <= |pieces|
    ensures ParseEach(f, pieces[..cut]).Some? && ParseEach(f, pieces[cut..]).Some? <==> ParseEach(f, pieces).Some?
  {
    var first, second := pieces[..cut], pieces[cut..];
    ParseEachPointwise(f, first);
    ParseEachPointwise(f, second);
    ParseEachPointwise(f, pieces);
    forall i | 0 <= i < cut ensures pieces[i] == first[i] {
    }
    forall i | cut <= i < |pieces| ensures pieces[i] == second[i - cut] {
    }
  }

  /** After a cut, each half holds the values of its own pieces, in order. */
  lemma CutValues(f: string -> Option<int>, pieces: seq<string>, cut: nat)
    requires cut <= |pieces|
    ensures var first := ParseEach(f, pieces[..cut]);
      first.Some? ==> forall i :: 0 <= i < cut ==> f(pieces[i]) == Some(first.value[i])
    ensures var second := ParseEach(f, pieces[cut..]);
      second.Some? ==> forall i :: 0 <= i < |pieces| - cut ==> f(pieces[cut + i]) == Some(second.value[i])
  {
    var first, second := pieces[..cut], pieces[cut..];
    ParseEachPointwise(f, first);
    ParseEachPointwise(f, second);
    forall i | 0 <= i < cut ensures pieces[i] == first[i] {
    }
    forall i | 0 <= i < |pieces| - cut ensures pieces[cut + i] == second[i] {
    }
  }

  /** The seven winning fields parse exactly when all seven are integers. */
  lemma WinningDefined(lotteryType: string, fields: seq<string>)
    requires |fields| == 7
    ensures ParseWinning(lotteryType, fields).Some? <==> forall i :: 0 <= i < 7 ==> ParseNumber(fields[i]).Some?
  {
    var cut := if Branch(lotteryType) == DaLeTou then 5 else 6;
    DefinedAtCut(fields, cut);
  }

  lemma DefinedAtCut(fields: seq<string>, cut: nat)
    requires cut <= |fields|
    ensures ParseNumbers(fields[..cut]).Some? && ParseNumbers(fields[cut..]).Some?
        <==> forall i :: 0 <= i < |fields| ==> ParseNumber(fields[i]).Some?
  {
    ParseEachPointwise(ParseNumber, fields);
    SplitParse(ParseNumber, fields, cut);
  }

  /**
   * 大乐透 winning fields split at index 5: the front group is the first five
   * fields in order, the back group the last two. (`ParseNumber` is `int()`
   * itself: see `ParseNumberIsInt`.)
   */
  lemma WinningDaLeTou(fields: seq<string>)
    requires |fields| == 7
    ensures var r := ParseWinning(Name(DaLeTou), fields);
      r.Some? ==>
        && (forall i :: 0 <= i < 5 ==> ParseNumber(fields[i]) == Some(r.value.front[i]))
        && (forall i :: 0 <= i < 2 ==> ParseNumber(fields[5 + i]) == Some(r.value.back[i]))
  {
    if ParseWinning(Name(DaLeTou), fields).Some? {
      CutValues(ParseNumber, fields, 5);
    }
  }

  /**
   * 双色球 winning fields split at index 6: the red group is the first six
   * fields in order, the blue number the seventh.
   */
  lemma WinningShuangSeQiu(fields: seq<string>)
    requires |fields| == 7
    ensures var r := ParseWinning(Name(ShuangSeQiu), fields);
      r.Some? ==>
        && (forall i :: 0 <= i < 6 ==> ParseNumber(fields[i]) == Some(r.value.red[i]))
        && ParseNumber(fields[6]) == Some(r.value.blue)
  {
    if ParseWinning(Name(ShuangSeQiu), fields).Some? {
      CutValues(ParseNumber, fields, 6);
    }
  }

  // ---------------------------------------------------------------- round trip

  /** The characters a group of numbers is written with. */
  predicate Plain(c: char) {
    IsDigit(c) || c == '-' || c == ',' || c == ' '
  }

  lemma GroupCons(ns: seq<int>)
    requires |ns| >= 2
    ensures Group(ns) == Str(ns[0]) + ", " + Group(ns[1..])
  {
    assert Decimals(ns)[1..] == Decimals(ns[1..]);
  }

  lemma {:induction false} GroupChars(ns: seq<int>)
    ensures forall c :: c in Group(ns) ==> Plain(c)
    decreases |ns|
  {
    if |ns| >= 2 {
      GroupChars(ns[1..]);
      GroupCons(ns);
    }
  }

  lemma ParseNumbersLeadingSpace(pieces: seq<string>)
    requires |pieces| >= 1
    ensures ParseNumbers([[' '] + pieces[0]] + pieces[1..]) == ParseNumbers(pieces)
  {
    StripLeadingSpace(' ', pieces[0]);
    assert ([[' '] + pieces[0]] + pieces[1..])[1..] == pieces[1..];
  }

  lemma CommaSpace(x: string, y: string)
    ensures x + ", " + y == x + [','] + ([' '] + y)
  {
    assert ", " == [','] + [' '];
  }

  /** A piece followed by ", " and more pieces reads as that number in front of the rest. */
  lemma ParseGroupCons(first: string, tail: string, n: int, ns: seq<int>)
    requires ',' !in first
    requires ParseNumber(first) == Some(n) && ParseGroup(tail) == Some(ns)
    ensures ParseGroup(first + ", " + tail) == Some([n] + ns)
  {
    CommaSpace(first, tail);
    SplitAfter(first, ',', [' '] + tail);
    SplitLeading(' ', tail, ',');
    ParseNumbersLeadingSpace(Split(tail, ','));
    var all := [first] + Split([' '] + tail, ',');
    assert all[1..] == Split([' '] + tail, ',');
  }

  /** A written number contains no comma and reads back as itself. */
  lemma StrPiece(n: int)
    ensures ',' !in Str(n) && ParseNumber(Str(n)) == Some(n)
  {
    StrNoComma(n);
    StrParses(n);
  }

  lemma StrNoComma(n: int)
    ensures ',' !in Str(n)
  {
    assert !IsDigit(',');
  }

  lemma StrParses(n: int)
    ensures ParseNumber(Str(n)) == Some(n)
  {
    StrRoundTrip(n);
  }

  /** A single number reads back as itself. */
  lemma GroupSingle(n: int)
    ensures ParseGroup(Group([n])) == Some([n])
  {
    var first := Str(n);
    StrPiece(n);
    assert Decimals([n]) == [first];
    SplitWithout(first, ',');
    assert ParseNumbers([first][1..]) == Some([]);
    assert [n] + [] == [n];
  }

  /** Reading a written group gives back its numbers, negative ones included. */
  lemma {:induction false} GroupRoundTrip(ns: seq<int>)
    requires |ns| >= 1
    ensures ParseGroup(Group(ns)) == Some(ns)
    decreases |ns|
  {
    if |ns| == 1 {
      GroupSingle(ns[0]);
      assert [ns[0]] == ns;
    } else {
      GroupRoundTrip(ns[1..]);
      GroupStep(ns);
    }
  }

  /** One more number in front of a group that reads back reads back too. */
  lemma GroupStep(ns: seq<int>)
    requires |ns| >= 2 && ParseGroup(Group(ns[1..])) == Some(ns[1..])
    ensures ParseGroup(Group(ns)) == Some(ns)
  {
    var first, tail, g := Str(ns[0]), Group(ns[1..]), Group(ns);
    GroupCons(ns);
    assert g == first + ", " + tail;
    StrPiece(ns[0]);
    ParseGroupCons(first, tail, ns[0], ns[1..]);
    assert ParseGroup(g) == Some([ns[0]] + ns[1..]);
    assert [ns[0]] + ns[1..] == ns;
  }

  /** Removing a label at the front that occurs nowhere else. */
  lemma DropLabel(tag: string, rest: string)
    requires |tag| > 0 && tag[0] !in rest
    ensures Replace(tag + rest, tag, "") == rest
  {
    ReplaceFront(tag, rest, "");
    ReplaceAbsent(rest, tag, "");
    assert "" + rest == rest;
  }

  /** Removing the two labels leaves the two groups joined by the separator. */
  lemma DropLabels(first: string, a: string, sep: char, second: string, b: string)
    requires |first| > 0 && |second| > 0
    requires first[0] !in a && first[0] != sep && first[0] !in second && first[0] !in b
    requires second[0] !in a && second[0] != sep && second[0] !in b
    ensures Replace(Replace(first + a + [sep] + second + b, first, ""), second, "") == a + [sep] + b
  {
    DropFirstLabel(first, a, sep, second, b);
    DropSecondLabel(a, sep, second, b);
  }

  lemma DropFirstLabel(first: string, a: string, sep: char, second: string, b: string)
    requires |first| > 0
    requires first[0] !in a && first[0] != sep && first[0] !in second && first[0] !in b
    ensures Replace(first + a + [sep] + second + b, first, "") == a + [sep] + second + b
  {
    var rest := a + [sep] + second + b;
    assert first + a + [sep] + second + b == first + rest;
    assert first[0] !in rest;
    DropLabel(first, rest);
  }

  lemma DropSecondLabel(a: string, sep: char, second: string, b: string)
    requires |second| > 0
    requires second[0] !in a && second[0] != sep && second[0] !in b
    ensures Replace(a + [sep] + second + b, second, "") == a + [sep] + b
  {
    var front := a + [sep];
    assert a + [sep] + second + b == front + (second + b);
    assert second[0] !in front;
    ReplaceSkip(front, second + b, second, "");
    DropLabel(second, b);
    assert front + b == a + [sep] + b;
  }

  /** The pieces the parser sees once the labels are gone and the string is split. */
  lemma {:induction false} RenderedGroups(t: Ticket)
    ensures t.FrontBack? ==> Split(Replace(Replace(Render(t), FrontLabel, ""), BackLabel, ""), GroupSep)
                             == [Group(t.front), Group(t.back)]
    ensures t.RedBlue? ==> Split(Replace(Replace(Render(t), RedLabel, ""), BlueLabel, ""), GroupSep)
                           == [Group(t.red), Str(t.blue)]
  {
    match t
    case FrontBack(front, back) =>
      var a, b := Group(front), Group(back);
      GroupChars(front);
      GroupChars(back);
      DropLabels(FrontLabel, a, GroupSep, BackLabel, b);
      SplitAfter(a, GroupSep, b);
      SplitWithout(b, GroupSep);
    case RedBlue(red, blue) =>
      var a, b := Group(red), Str(blue);
      GroupChars(red);
      DropLabels(RedLabel, a, GroupSep, BlueLabel, b);
      SplitAfter(a, GroupSep, b);
      SplitWithout(b, GroupSep);
  }

  /**
   * Round trip: the checker's parser reads a ticket string written by the
   * generator back into the very ticket it was written from.
   */
  lemma ParseRender(lotteryType: string, t: Ticket)
    requires HasGroups(t) && Branch(lotteryType) == GameOf(t)
    ensures Parse(lotteryType, Render(t)) == Some(t)
  {
    match t
    case FrontBack(front, back) => ParseRenderFrontBack(lotteryType, front, back);
    case RedBlue(red, blue) => ParseRenderRedBlue(lotteryType, red, blue);
  }

  lemma ParseRenderFrontBack(lotteryType: string, front: seq<int>, back: seq<int>)
    requires |front| >= 1 && |back| >= 1 && Branch(lotteryType) == DaLeTou
    ensures Parse(lotteryType, Render(FrontBack(front, back))) == Some(FrontBack(front, back))
  {
    var t := FrontBack(front, back);
    var groups := Split(Replace(Replace(Render(t), FrontLabel, ""), BackLabel, ""), GroupSep);
    RenderedGroups(t);
    assert groups == [Group(front), Group(back)];
    GroupRoundTrip(front);
    GroupRoundTrip(back);
  }

  lemma ParseRenderRedBlue(lotteryType: string, red: seq<int>, blue: int)
    requires |red| >= 1 && Branch(lotteryType) == ShuangSeQiu
    ensures Parse(lotteryType, Render(RedBlue(red, blue))) == Some(RedBlue(red, blue))
  {
    var t := RedBlue(red, blue);
    var groups := Split(Replace(Replace(Render(t), RedLabel, ""), BlueLabel, ""), GroupSep);
    RenderedGroups(t);
    assert groups == [Group(red), Str(blue)];
    GroupRoundTrip(red);
    StrPiece(blue);
  }
}
