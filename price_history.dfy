/** The live-crypto panel's price histories: each tracked symbol is seeded
    with 24 hourly points ending at the current price the first time data
    arrives, and every later arrival appends one point per symbol and keeps
    the last 48. Simulated prices and the wall-clock label are parameters. */
module PriceHistory {
  import opened Util

  /** One point of a history chart. */
  datatype Point = Point(time: string, price: int)

  /** A symbol's entry in the live price map. */
  datatype PriceData = PriceData(price: int, symbol: string, name: string, dayHigh: Option<int>, dayLow: Option<int>)

  type PriceMap = map<string, PriceData>
  type Histories = map<string, seq<Point>>

  /** Points in a seeded history. */
  const Points: nat := 24
  /** Points a refreshed history keeps. */
  const WindowSize: nat := 48
  /** The symbols the panel charts. */
  const Tracked: seq<string> := ["BTC", "XRP", "TRX"]

  /** `${hour.toString().padStart(2, '0')}:00`. */
  function HourLabel(hour: nat): string
  {
    PadStart(NatToString(hour), 2, '0') + ":00"
  }

  /** Hours below 100 are written with exactly two digits. */
  lemma HourLabelDigits(hour: nat)
    requires hour < 100
    ensures HourLabel(hour) == [DigitChar(hour / 10), DigitChar(hour % 10), ':', '0', '0']
  {
    NatToStringBelow100(hour);
    var digits := NatToString(hour);
    var padded := [DigitChar(hour / 10), DigitChar(hour % 10)];
    if hour < 10 {
      assert PadStart(digits, 2, '0') == padded by {
        assert digits == [DigitChar(hour % 10)];
        assert DigitChar(hour / 10) == '0';
      }
    } else {
      assert PadStart(digits, 2, '0') == padded;
    }
  }

  /** Different hours of the day get different labels. */
  lemma HourLabelsDistinct(i: nat, j: nat)
    requires i < Points && j < Points && i != j
    ensures HourLabel(i) != HourLabel(j)
  {
    HourLabelDigits(i);
    HourLabelDigits(j);
    DigitPairsDistinct(i, j);
  }

  /** Two numbers below 100 differ in their tens or in their units digit. */
  lemma DigitPairsDistinct(i: nat, j: nat)
    requires i < 100 && j < 100 && i != j
    ensures [DigitChar(i / 10), DigitChar(i % 10), ':', '0', '0']
         != [DigitChar(j / 10), DigitChar(j % 10), ':', '0', '0']
  {
    var a := [DigitChar(i / 10), DigitChar(i % 10), ':', '0', '0'];
    var b := [DigitChar(j / 10), DigitChar(j % 10), ':', '0', '0'];
    if i / 10 == j / 10 {
      assert i % 10 != j % 10;
      assert a[1] != b[1];
    } else {
      assert a[0] != b[0];
    }
  }

  /** The seeded history as a value: point `i` is labelled with hour `i` and
      carries the `i`-th simulated price, except the last, which carries the
      current price. */
  function InitialHistory(price: int, simulated: nat -> int): seq<Point>
  {
    seq(Points, i requires 0 <= i < Points => Point(HourLabel(i), if i == Points - 1 then price else simulated(i)))
  }

  /** `generateInitialHistory`: a loop pushing 24 points, then an overwrite
      of the last point's price. `simulated(i)` stands for the `i`-th random
      price. */
  method GenerateInitialHistory(price: int, simulated: nat -> int) returns (history: seq<Point>)
    ensures |history| == 24
    ensures forall i :: 0 <= i < |history| ==> history[i].time == HourLabel(i)
    ensures history[|history| - 1].price == price
    ensures forall i :: 0 <= i < |history| - 1 ==> history[i].price == simulated(i)
    ensures history == InitialHistory(price, simulated)
  {
    history := [];
    for i := 0 to Points
      invariant |history| == i
      invariant forall k :: 0 <= k < i ==> history[k] == Point(HourLabel(k), simulated(k))
    {
      var hour := 24 - Points + i;
      var timeStr := PadStart(NatToString(hour), 2, '0') + ":00";
      history := history + [Point(timeStr, simulated(i))];
    }
    if |history| > 0 {
      var last := |history| - 1;
      history := history[last := history[last].(price := price)];
    }
  }

  /** `slice(-n)`: the last `n` elements, all of them when there are fewer. */
  function Last(h: seq<Point>, n: nat): seq<Point>
  {
    if |h| <= n then h else h[|h| - n..]
  }

  /** The histories the seed branch builds: one seeded history for every
      tracked symbol present in the data. */
  function Seed(prices: PriceMap, simulated: string -> nat -> int): Histories
  {
    map s | s in prices && s in Tracked :: InitialHistory(prices[s].price, simulated(s))
  }

  /** A symbol's history after one refresh: the previous history (or an
      empty one) with the new point at the end, cut to the last 48. */
  function Extend(prev: Histories, symbol: string, point: Point): seq<Point>
  {
    Last((if symbol in prev then prev[symbol] else []) + [point], WindowSize)
  }

  /** The histories the append branch builds; symbols missing from the new
      data are dropped. */
  function Append(prev: Histories, prices: PriceMap, timeStr: string): Histories
  {
    map s | s in prices && s in Tracked :: Extend(prev, s, Point(timeStr, prices[s].price))
  }

  /** The panel's state: the histories and whether they have been seeded. */
  datatype PanelState = PanelState(histories: Histories, initialized: bool)

  /** One run of the effect, given the price map if data has arrived. */
  function Effect(st: PanelState, prices: Option<PriceMap>, timeStr: string,
                  simulated: string -> nat -> int): PanelState
  {
    if prices.Some? && !st.initialized then PanelState(Seed(prices.value, simulated), true)
    else if prices.Some? && st.initialized then PanelState(Append(st.histories, prices.value, timeStr), true)
    else st
  }

  /** Every seeded history has 24 points labelled 00:00 to 23:00 and ends
      at the current price. */
  lemma InitialHistoryShape(price: int, simulated: nat -> int)
    ensures |InitialHistory(price, simulated)| == Points
    ensures forall i :: 0 <= i < Points ==> InitialHistory(price, simulated)[i].time == HourLabel(i)
    ensures InitialHistory(price, simulated)[Points - 1].price == price
    ensures HourLabel(0) == "00:00" && HourLabel(Points - 1) == "23:00"
  {
    HourLabelDigits(0);
    HourLabelDigits(Points - 1);
  }

  /** The seed branch charts exactly the tracked symbols present in the
      data, each with 24 points ending at its current price. */
  lemma SeedCharts(prices: PriceMap, simulated: string -> nat -> int, s: string)
    ensures s in Seed(prices, simulated) <==> s in Tracked && s in prices
    ensures s in Seed(prices, simulated) ==>
      |Seed(prices, simulated)[s]| == Points
      && Seed(prices, simulated)[s][Points - 1].price == prices[s].price
  {
  }

  /** A refreshed history ends with the new point, holds at most 48 points,
      and is what remains of the previous history plus the new point after
      dropping the oldest ones, in their order. Untracked symbols and symbols
      missing from the data get no history. */
  lemma AppendWindow(prev: Histories, prices: PriceMap, timeStr: string, s: string)
    ensures s in Append(prev, prices, timeStr) <==> s in Tracked && s in prices
    ensures s in Append(prev, prices, timeStr) ==>
      var before := if s in prev then prev[s] else [];
      var h := Append(prev, prices, timeStr)[s];
      |h| == (if |before| + 1 <= WindowSize then |before| + 1 else WindowSize)
      && h[|h| - 1] == Point(timeStr, prices[s].price)
      && h == (before + [Point(timeStr, prices[s].price)])[|before| + 1 - |h|..]
  {
  }

  /** Cutting to the last `n` after each append is the same as cutting the
      whole log once: the window slides over everything appended. */
  lemma LastOfAppend(a: seq<Point>, b: seq<Point>, n: nat)
    ensures Last(Last(a, n) + b, n) == Last(a + b, n)
  {
    if |a| > n {
      var t := a[|a| - n..];
      var lhs := Last(t + b, n);
      var rhs := Last(a + b, n);
      assert |lhs| == n == |rhs|;
      forall i | 0 <= i < n ensures lhs[i] == rhs[i] {
        var k := |b| + i;
        assert lhs[i] == (t + b)[k];
        assert rhs[i] == (a + b)[|a| - n + k];
        if k < n {
          assert (t + b)[k] == a[|a| - n + k];
        } else {
          assert (t + b)[k] == b[k - n];
        }
      }
    }
  }

  /** The first data seeds, and every later data appends; with no data the
      state is unchanged. */
  lemma SeedThenAppend(prices: PriceMap, next: PriceMap, timeStr: string, later: string,
                       simulated: string -> nat -> int)
    ensures var st := Effect(PanelState(map[], false), Some(prices), timeStr, simulated);
      st == PanelState(Seed(prices, simulated), true)
      && Effect(st, Some(next), later, simulated) == PanelState(Append(st.histories, next, later), true)
      && Effect(st, None, later, simulated) == st
  {
  }

  /** One render after the data changed, as React schedules the effect
      whose dependencies are the data and `initialized`: the effect runs,
      and when that run flipped `initialized` it runs once more on the same
      data, at `rerunTimeStr`. */
  function DataChanged(st: PanelState, prices: Option<PriceMap>, timeStr: string, rerunTimeStr: string,
                       simulated: string -> nat -> int): PanelState
  {
    var first := Effect(st, prices, timeStr, simulated);
    if first.initialized != st.initialized then Effect(first, prices, rerunTimeStr, simulated) else first
  }

  /** As written, the first data leaves each charted symbol with 25 points:
      the 24 seeded ones, then a second point at the current price that the
      re-run appends. */
  lemma FirstArrivalAppendsTwice(prices: PriceMap, timeStr: string, rerunTimeStr: string,
                                 simulated: string -> nat -> int, s: string)
    requires s in Tracked && s in prices
    ensures var st := DataChanged(PanelState(map[], false), Some(prices), timeStr, rerunTimeStr, simulated);
      s in st.histories
      && |st.histories[s]| == Points + 1
      && st.histories[s][..Points] == InitialHistory(prices[s].price, simulated(s))
      && st.histories[s][Points] == Point(rerunTimeStr, prices[s].price)
      && st.histories[s][Points - 1].price == st.histories[s][Points].price
  {
    var seeded := Seed(prices, simulated);
    assert s in seeded;
    var h := seeded[s] + [Point(rerunTimeStr, prices[s].price)];
    assert |h| == Points + 1;
    assert h[..Points] == seeded[s];
  }

  /** The evidently intended cycle: the effect runs once per data change. */
  function DataChangedOnce(st: PanelState, prices: Option<PriceMap>, timeStr: string,
                           simulated: string -> nat -> int): PanelState
  {
    Effect(st, prices, timeStr, simulated)
  }

  /** With one run per data change, the first data leaves each charted
      symbol with exactly its 24 seeded points, ending at the current price,
      and each later data appends exactly one point. */
  lemma FirstArrivalSeedsOnly(prices: PriceMap, next: PriceMap, timeStr: string, later: string,
                              simulated: string -> nat -> int, s: string)
    requires s in Tracked && s in prices && s in next
    ensures var st := DataChangedOnce(PanelState(map[], false), Some(prices), timeStr, simulated);
      var st2 := DataChangedOnce(st, Some(next), later, simulated);
      st.histories[s] == InitialHistory(prices[s].price, simulated(s))
      && |st.histories[s]| == Points
      && st.histories[s][Points - 1].price == prices[s].price
      && st2.histories[s] == st.histories[s] + [Point(later, next[s].price)]
  {
    var st := DataChangedOnce(PanelState(map[], false), Some(prices), timeStr, simulated);
    assert s in st.histories;
    assert |st.histories[s] + [Point(later, next[s].price)]| == Points + 1;
  }

  /** The seed branch's `forEach`: a seeded history for each tracked
      symbol present in the data. */
  method SeedHistories(data: PriceMap, simulated: string -> nat -> int) returns (histories: Histories)
    ensures histories == Seed(data, simulated)
  {
    histories := map[];
    for k := 0 to |Tracked|
      invariant histories.Keys == set s | s in data && s in Tracked[..k]
      invariant forall s :: s in histories ==> histories[s] == InitialHistory(data[s].price, simulated(s))
    {
      var symbol := Tracked[k];
      assert Tracked[..k + 1] == Tracked[..k] + [symbol];
      if symbol in data {
        var h := GenerateInitialHistory(data[symbol].price, simulated(symbol));
        histories := histories[symbol := h];
      }
    }
    assert Tracked[..|Tracked|] == Tracked;
  }

  /** The append branch's `forEach`: the new point appended to each tracked
      symbol present in the data, cut to the last 48. */
  method AppendPoints(prev: Histories, data: PriceMap, timeStr: string) returns (newHistories: Histories)
    ensures newHistories == Append(prev, data, timeStr)
  {
    newHistories := map[];
    for k := 0 to |Tracked|
      invariant newHistories.Keys == set s | s in data && s in Tracked[..k]
      invariant forall s :: s in newHistories ==> newHistories[s] == Extend(prev, s, Point(timeStr, data[s].price))
    {
      var symbol := Tracked[k];
      assert Tracked[..k + 1] == Tracked[..k] + [symbol];
      if symbol in data {
        var existing := if symbol in prev then prev[symbol] else [];
        var updated := existing + [Point(timeStr, data[symbol].price)];
        newHistories := newHistories[symbol := Last(updated, WindowSize)];
      }
    }
    assert Tracked[..|Tracked|] == Tracked;
  }

  class HistoryPanel {
    var priceHistories: Histories
    var initialized: bool

    function State(): PanelState
      reads this
    {
      PanelState(priceHistories, initialized)
    }

    /** A mounted panel: no histories, not seeded. */
    constructor ()
      ensures priceHistories == map[] && !initialized
    {
      priceHistories := map[];
      initialized := false;
    }

    /** The effect body: seed on the first data, append on later data. */
    method RunEffect(prices: Option<PriceMap>, timeStr: string, simulated: string -> nat -> int)
      modifies this
      ensures State() == Effect(old(State()), prices, timeStr, simulated)
    {
      if prices.Some? && !initialized {
        priceHistories := SeedHistories(prices.value, simulated);
        initialized := true;
      } else if prices.Some? && initialized {
        priceHistories := AppendPoints(priceHistories, prices.value, timeStr);
      }
    }
  }
}
