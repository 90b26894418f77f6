/** Daily bars, oldest first, as the repositories hand them to the engine. Dates are day numbers. */
module MarketData {

  datatype Bar = Bar(date: int, high: real, low: real, close: real, adjClose: real, volume: int)

  /** Every bar can be bought and sold at its close. */
  ghost predicate Tradable(prices: seq<Bar>) {
    forall i | 0 <= i < |prices| :: prices[i].close > 0.0
  }

  /** Each bar's close lies inside its day's range. */
  ghost predicate WellFormedBars(prices: seq<Bar>) {
    forall i | 0 <= i < |prices| :: prices[i].low <= prices[i].close <= prices[i].high
  }

  function Closes(prices: seq<Bar>): (closes: seq<real>)
    ensures |closes| == |prices|
    ensures forall i | 0 <= i < |prices| :: closes[i] == prices[i].close
  {
    seq(|prices|, i requires 0 <= i < |prices| => prices[i].close)
  }

  // ----- Local extremes of highs or lows

  function ValueAt(window: seq<Bar>, high: bool, idx: nat): real
    requires idx < |window|
  {
    if high then window[idx].high else window[idx].low
  }

  /** Strictly above (below) every neighbour within `strength` bars on either side. */
  ghost predicate IsExtreme(window: seq<Bar>, high: bool, strength: nat, j: nat)
    requires strength <= j && j + strength < |window|
  {
    forall k | j - strength <= k <= j + strength && k != j ::
      if high then ValueAt(window, high, k) < ValueAt(window, high, j)
      else ValueAt(window, high, k) > ValueAt(window, high, j)
  }
}
