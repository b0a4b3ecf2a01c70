/**
 * `generate_numbers` of the recommendation job. The random draw is an input:
 * `random.sample(range(lo, hi + 1), k)` is modelled by what it guarantees
 * (k pairwise-distinct values of the range, in some order) and
 * `random.randint(1, 16)` by its range.
 */
module Recommendation {
  import opened Wrappers
  import opened Games
  import opened TicketFormat

  /** The per-ticket analysis dictionary; the scripts only ever produce `{}`. */
  type Analysis = map<string, string>

  /** The values the random module handed back for one ticket. */
  datatype Draw =
    | FrontBackDraw(front: seq<int>, back: seq<int>)
    | RedBlueDraw(red: seq<int>, blue: int)

  /** What `random.sample(range(lo, hi + 1), count)` guarantees of its result. */
  predicate Sample(s: seq<int>, count: nat, lo: int, hi: int) {
    |s| == count && Distinct(s) && Within(s, lo, hi)
  }

  /** The draw `generate_numbers` makes for the game `g`. */
  predicate DrawFor(g: Game, d: Draw) {
    match d
    case FrontBackDraw(front, back) => g == DaLeTou && Sample(front, 5, 1, 35) && Sample(back, 2, 1, 12)
    case RedBlueDraw(red, blue) => g == ShuangSeQiu && Sample(red, 6, 1, 33) && 1 <= blue <= 16
  }

  lemma ConsSorted(h: int, s: seq<int>)
    requires Sorted(s) && forall k :: 0 <= k < |s| ==> h <= s[k]
    ensures Sorted([h] + s)
  {
    var r := [h] + s;
    forall i, j | 0 <= i < j < |r| ensures r[i] <= r[j] {
      if i > 0 {
        assert r[i] == s[i - 1] && r[j] == s[j - 1];
      }
    }
  }

  lemma ConsDistinct(h: int, s: seq<int>)
    ensures Distinct(s) && (forall k :: 0 <= k < |s| ==> h != s[k]) ==> Distinct([h] + s)
  {
    if Distinct(s) && forall k :: 0 <= k < |s| ==> h != s[k] {
      var r := [h] + s;
      forall i, j | 0 <= i < j < |r| ensures r[i] != r[j] {
        if i > 0 {
          assert r[i] == s[i - 1] && r[j] == s[j - 1];
        }
      }
    }
  }

  /** Places `x` into the sorted list `s`, in front of the first entry not smaller than it. */
  function Insert(x: int, s: seq<int>): seq<int>
    decreases |s|
  {
    if |s| == 0 || x <= s[0] then [x] + s else [s[0]] + Insert(x, s[1..])
  }

  /** Inserting adds exactly the one value. */
  lemma {:induction false} InsertAdds(x: int, s: seq<int>)
    ensures multiset(Insert(x, s)) == multiset(s) + multiset{x}
    decreases |s|
  {
    if |s| > 0 && x > s[0] {
      InsertAdds(x, s[1..]);
      assert s == [s[0]] + s[1..];
    }
  }

  /** Every entry of the result is `x` or an entry of `s`. */
  lemma InsertFrom(x: int, s: seq<int>, k: int)
    requires 0 <= k < |Insert(x, s)|
    ensures Insert(x, s)[k] == x || Insert(x, s)[k] in s
  {
    InsertAdds(x, s);
    assert Insert(x, s)[k] in multiset(Insert(x, s));
  }

  /** Inserting into a sorted list keeps it sorted. */
  lemma {:induction false} InsertSorted(x: int, s: seq<int>)
    requires Sorted(s)
    ensures Sorted(Insert(x, s))
    decreases |s|
  {
    if |s| == 0 || x <= s[0] {
      ConsSorted(x, s);
    } else {
      var rest := Insert(x, s[1..]);
      InsertSorted(x, s[1..]);
      forall k | 0 <= k < |rest| ensures s[0] <= rest[k] {
        InsertFrom(x, s[1..], k);
      }
      ConsSorted(s[0], rest);
    }
  }

  /** Inserting a new value into a list without repeats leaves it without repeats. */
  lemma {:induction false} InsertDistinct(x: int, s: seq<int>)
    requires Distinct(s) && x !in s
    ensures Distinct(Insert(x, s))
    decreases |s|
  {
    if |s| == 0 || x <= s[0] {
      ConsDistinct(x, s);
    } else {
      var rest := Insert(x, s[1..]);
      assert s == [s[0]] + s[1..];
      InsertDistinct(x, s[1..]);
      forall k | 0 <= k < |rest| ensures s[0] != rest[k] {
        InsertFrom(x, s[1..], k);
      }
      ConsDistinct(s[0], rest);
    }
  }

  /** `sorted(xs)`: the same values, ascending. */
  function SortAscending(xs: seq<int>): (r: seq<int>)
    ensures Sorted(r)
    ensures multiset(r) == multiset(xs)
    decreases |xs|
  {
    if |xs| == 0 then []
    else
      var rest := SortAscending(xs[1..]);
      assert xs == [xs[0]] + xs[1..];
      InsertSorted(xs[0], rest);
      InsertAdds(xs[0], rest);
      Insert(xs[0], rest)
  }

  /** Values drawn without repeats stay without repeats once sorted. */
  lemma {:induction false} SortKeepsDistinct(xs: seq<int>)
    requires Distinct(xs)
    ensures Distinct(SortAscending(xs))
    decreases |xs|
  {
    if |xs| > 0 {
      var rest := SortAscending(xs[1..]);
      assert xs == [xs[0]] + xs[1..];
      SortKeepsDistinct(xs[1..]);
      forall k | 0 <= k < |xs| - 1 ensures xs[1..][k] != xs[0] {
        assert xs[1..][k] == xs[k + 1];
      }
      assert xs[0] !in multiset(xs[1..]);
      assert xs[0] !in rest by {
        assert multiset(rest) == multiset(xs[1..]);
      }
      InsertDistinct(xs[0], rest);
    }
  }

  /** Sorting keeps every value inside the range it was drawn from. */
  lemma SortedSampleIsPick(xs: seq<int>, count: nat, lo: int, hi: int)
    requires Sample(xs, count, lo, hi)
    ensures Pick(SortAscending(xs), count, lo, hi)
  {
    var r := SortAscending(xs);
    SortKeepsDistinct(xs);
    assert |r| == |multiset(r)| == |multiset(xs)| == |xs|;
    forall i | 0 <= i < |r| ensures lo <= r[i] <= hi {
      assert r[i] in multiset(xs);
    }
  }

  /** The ticket a draw turns into: each sampled group sorted ascending. */
  function TicketOf(d: Draw): Ticket {
    match d
    case FrontBackDraw(front, back) => FrontBack(SortAscending(front), SortAscending(back))
    case RedBlueDraw(red, blue) => RedBlue(SortAscending(red), blue)
  }

  /**
   * `generate_numbers(lottery_type)`: the ticket string and the empty analysis.
   * The string reads back, with the checker's parser, as a valid ticket of the
   * requested game whose groups hold exactly the drawn values.
   */
  function GenerateNumbers(lotteryType: string, d: Draw): (r: (string, Analysis))
    requires DrawFor(Branch(lotteryType), d)
    ensures r.1 == map[]
    ensures Parse(lotteryType, r.0).Some?
    ensures var t := Parse(lotteryType, r.0).value;
      && ValidTicket(t) && GameOf(t) == Branch(lotteryType)
      && (t.FrontBack? ==> multiset(t.front) == multiset(d.front) && multiset(t.back) == multiset(d.back))
      && (t.RedBlue? ==> multiset(t.red) == multiset(d.red) && t.blue == d.blue)
  {
    var t := TicketOf(d);
    match d
    case FrontBackDraw(front, back) =>
      SortedSampleIsPick(front, 5, 1, 35);
      SortedSampleIsPick(back, 2, 1, 12);
      ParseRender(lotteryType, t);
      (Render(t), map[])
    case RedBlueDraw(red, blue) =>
      SortedSampleIsPick(red, 6, 1, 33);
      ParseRender(lotteryType, t);
      (Render(t), map[])
  }
}
