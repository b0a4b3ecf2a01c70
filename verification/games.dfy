/**
 * The two games, the weekday schedule that picks one of them, and the shape
 * of a valid ticket for each.
 */
module Games {

  /** 大乐透 is the front/back game, 双色球 the red/blue game. */
  datatype Game = DaLeTou | ShuangSeQiu

  /** The `lottery_type` string the scripts pass around for each game. */
  function Name(g: Game): string {
    match g
    case DaLeTou => "大乐透"
    case ShuangSeQiu => "双色球"
  }

  /**
   * Every branch in the scripts tests `lottery_type == "大乐透"`; any other
   * string takes the 双色球 branch.
   */
  function Branch(lotteryType: string): (g: Game)
    ensures g == DaLeTou <==> lotteryType == Name(DaLeTou)
  {
    if lotteryType == "大乐透" then DaLeTou else ShuangSeQiu
  }

  /** The names are distinct, and each name selects its own game. */
  lemma NamesSelectTheirGame(g: Game, h: Game)
    ensures Branch(Name(g)) == g
    ensures Name(g) == Name(h) <==> g == h
  {
  }

  /**
   * `get_lottery_type()` with `datetime.now().weekday()` as the input
   * (0 is Monday): 大乐透 on Monday, Wednesday and Saturday, 双色球 otherwise.
   * Both scripts carry an identical copy of this function.
   */
  function LotteryType(weekday: int): (lotteryType: string)
    ensures lotteryType == Name(Branch(lotteryType))
    ensures Branch(lotteryType) == DaLeTou <==> weekday == 0 || weekday == 2 || weekday == 5
  {
    if weekday in [0, 2, 5] then Name(DaLeTou) else Name(ShuangSeQiu)
  }

  /** The draw days listed, per game, in the comments of the recommendation script's `get_lottery_type`. */
  function DrawDays(g: Game): set<int> {
    match g
    case DaLeTou => {0, 2, 5}
    case ShuangSeQiu => {1, 3, 6}
  }

  /**
   * Each weekday gets exactly one game; every listed draw day gets its own
   * game; Friday (4) is the one weekday on neither list, and it gets 双色球.
   */
  lemma ScheduleFollowsDrawDays(weekday: int)
    requires 0 <= weekday <= 6
    ensures LotteryType(weekday) == Name(DaLeTou) || LotteryType(weekday) == Name(ShuangSeQiu)
    ensures LotteryType(weekday) != Name(DaLeTou) || LotteryType(weekday) != Name(ShuangSeQiu)
    ensures forall g :: weekday in DrawDays(g) ==> LotteryType(weekday) == Name(g)
    ensures Branch(LotteryType(weekday)) == DaLeTou <==> weekday in DrawDays(DaLeTou)
    ensures weekday !in DrawDays(DaLeTou) + DrawDays(ShuangSeQiu) <==> weekday == 4
    ensures LotteryType(4) == Name(ShuangSeQiu)
  {
  }

  // ---------------------------------------------------------------- tickets

  /** A ticket: 大乐透 has front and back groups, 双色球 a red group and one blue number. */
  datatype Ticket =
    | FrontBack(front: seq<int>, back: seq<int>)
    | RedBlue(red: seq<int>, blue: int)

  function GameOf(t: Ticket): Game {
    match t
    case FrontBack(_, _) => DaLeTou
    case RedBlue(_, _) => ShuangSeQiu
  }

  predicate Sorted(s: seq<int>) {
    forall i, j :: 0 <= i < j < |s| ==> s[i] <= s[j]
  }

  predicate Distinct(s: seq<int>) {
    forall i, j :: 0 <= i < j < |s| ==> s[i] != s[j]
  }

  predicate Within(s: seq<int>, lo: int, hi: int) {
    forall i :: 0 <= i < |s| ==> lo <= s[i] <= hi
  }

  /** `count` pairwise-distinct numbers of `[lo, hi]`, sorted ascending. */
  predicate Pick(s: seq<int>, count: nat, lo: int, hi: int) {
    |s| == count && Sorted(s) && Distinct(s) && Within(s, lo, hi)
  }

  /**
   * A ticket the generator can produce: 大乐透 takes 5 of 1..35 and 2 of 1..12,
   * 双色球 takes 6 of 1..33 and one blue of 1..16.
   */
  predicate ValidTicket(t: Ticket) {
    match t
    case FrontBack(front, back) => Pick(front, 5, 1, 35) && Pick(back, 2, 1, 12)
    case RedBlue(red, blue) => Pick(red, 6, 1, 33) && 1 <= blue <= 16
  }

  /** Every group the ticket format can write out and read back is non-empty. */
  predicate HasGroups(t: Ticket) {
    match t
    case FrontBack(front, back) => |front| > 0 && |back| > 0
    case RedBlue(red, _) => |red| > 0
  }
}
