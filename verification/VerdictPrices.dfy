/** Verdicts and returns of past picks in terms of the adjusted closes they come from. */
module VerdictPrices {
  import opened Decimals
  import opened MarketData
  import opened PickEvaluation

  lemma {:induction false} RoundedSign(x: real, scale: real)
    requires scale > 0.0
    ensures RoundAt(x, scale) > 0.0 <==> x * scale >= 0.5
    ensures RoundAt(x, scale) < 0.0 <==> x * scale <= -0.5
  {
    var n := Nearest(x * scale);
    QuotientSign(n as real, scale);
  }

  lemma {:induction false} QuotientSign(a: real, d: real)
    requires d > 0.0
    ensures (a / d > 0.0 <==> a > 0.0) && (a / d < 0.0 <==> a < 0.0)
  {
    var q := a / d;
    assert q * d == a;
    if q > 0.0 {
      assert q * d > 0.0;
    } else if q < 0.0 {
      assert q * d < 0.0;
    }
  }

  lemma {:induction false} SixPlaces()
    ensures Pow10(6) == 1000000.0
  {
    assert Pow10(3) == 1000.0;
  }

  lemma {:induction false} GainAtLeast(base: real, price: real)
    requires base > 0.0
    ensures (price / base - 1.0) * 1000000.0 >= 0.5 <==> 2000000.0 * (price - base) >= base
    ensures (price / base - 1.0) * 1000000.0 <= -0.5 <==> 2000000.0 * (base - price) >= base
  {
    var q := price / base;
    assert q * base == price;
    QuotientOrder(price, base, 1.0000005);
    QuotientOrder(price, base, 0.9999995);
  }

  lemma {:induction false} QuotientOrder(a: real, d: real, limit: real)
    requires d > 0.0
    ensures (a / d >= limit <==> a >= limit * d) && (a / d <= limit <==> a <= limit * d)
  {
    var q := a / d;
    assert q * d == a;
    if q > limit {
      assert (q - limit) * d > 0.0;
    } else if q < limit {
      assert (limit - q) * d > 0.0;
    }
  }

  /** A filled-in return is the move of the adjusted close, to half a millionth; it is positive (negative) exactly when
      the price has risen (fallen) by at least half a millionth of the base, and the other way round for a sale. */
  lemma {:induction false} ReturnOverPrices(bars: seq<Bar>, sell: bool, h: nat)
    requires h < |bars| && bars[0].adjClose > 0.0
    ensures var base, price, r := bars[0].adjClose, bars[h].adjClose, ReturnAfter(bars, sell, h);
      && r.Some?
      && var gain := if sell then -r.value else r.value;
         && -0.0000005 <= gain - (price / base - 1.0) <= 0.0000005
         && (gain > 0.0 <==> 2000000.0 * (price - base) >= base)
         && (gain < 0.0 <==> 2000000.0 * (base - price) >= base)
  {
    var gain := bars[h].adjClose / bars[0].adjClose - 1.0;
    SixPlaces();
    RoundError(gain, 6);
    RoundError(-gain, 6);
    RoundedSign(gain, 1000000.0);
    RoundedSign(-gain, 1000000.0);
    GainAtLeast(bars[0].adjClose, bars[h].adjClose);
  }

  /** Is a stored return the move between two adjusted closes, to half a millionth? */
  predicate IsMove(r: Option<real>, base: real, price: real)
    requires base != 0.0
  {
    r.Some? && -0.0000005 <= r.value - (price / base - 1.0) <= 0.0000005
  }

  /** The verdict on a pending pick over prices: with a positive base, its fifth bar there and no corporate action it
      wins (loses) exactly when the adjusted close is up (down) by at least half a millionth of the base. */
  lemma {:induction false} VerdictOverPrices(row: PickRow, market: Market, now: int)
    requires SoundRow(row) && Pending(row, now)
    requires var bars := BarsFrom(market, row.ticker, row.pickDate, DateOf(now));
      |bars| > 5 && bars[0].adjClose > 0.0 && !CorporateAction(market, row.ticker, bars)
    ensures var bars, next := BarsFrom(market, row.ticker, row.pickDate, DateOf(now)), Next(row, market, now);
      var base, price := bars[0].adjClose, bars[5].adjClose;
      && next.evaluatedAt == Some(now) && IsMove(next.return1D, base, bars[1].adjClose)
      && IsMove(next.return3D, base, bars[3].adjClose) && IsMove(next.return5D, base, price)
      && (next.outcome == Some(Win) <==> 2000000.0 * (price - base) >= base)
      && (next.outcome == Some(Lose) <==> 2000000.0 * (base - price) >= base)
      && (next.outcome == Some(Draw) <==> -base < 2000000.0 * (price - base) < base)
  {
    hide Between, CorporateAction, ReturnAfter;
    var bars := BarsFrom(market, row.ticker, row.pickDate, DateOf(now));
    VerdictMeaning(row, market, now);
    ReturnOverPrices(bars, false, 1);
    ReturnOverPrices(bars, false, 3);
    ReturnOverPrices(bars, false, 5);
  }

  ghost predicate DatesAscend(bars: seq<Bar>) {
    forall i, j | 0 <= i < j < |bars| :: bars[i].date < bars[j].date
  }

  /** The bars a pick is judged on are the symbol's bars from the pick's date to today, oldest first. */
  lemma {:induction false} BarsSeen(bars: seq<Bar>, from: int, upTo: int)
    ensures forall b :: b in Between(bars, from, upTo) <==> b in bars && from <= b.date <= upTo
    ensures DatesAscend(bars) ==> DatesAscend(Between(bars, from, upTo))
    decreases |bars|
  {
    if bars != [] {
      var n := |bars| - 1;
      BarsSeen(bars[..n], from, upTo);
      assert bars == bars[..n] + [bars[n]];
      var before := Between(bars[..n], from, upTo);
      forall b | b in before ensures DatesAscend(bars) ==> b.date < bars[n].date {
        var i :| 0 <= i < n && bars[i] == b;
      }
    }
  }
}
