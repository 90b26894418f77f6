/** Stochastics and the directional movement indicators (+DI, -DI, ADX), as functions of a history. */
module Oscillators {
  import opened Decimals
  import opened MarketData
  import opened Indicators

  // ----- Stochastics

  function Highest(bars: seq<Bar>): real
    requires |bars| >= 1
    decreases |bars|
  {
    if |bars| == 1 then bars[0].high else Max(bars[|bars| - 1].high, Highest(bars[..|bars| - 1]))
  }

  function Lowest(bars: seq<Bar>): real
    requires |bars| >= 1
    decreases |bars|
  {
    if |bars| == 1 then bars[0].low else Min(bars[|bars| - 1].low, Lowest(bars[..|bars| - 1]))
  }

  method Range(prices: seq<Bar>, lo: nat, i: nat) returns (hh: real, ll: real)
    requires lo <= i < |prices|
    ensures hh == Highest(prices[lo..i + 1]) && ll == Lowest(prices[lo..i + 1])
  {
    hh, ll := prices[i].high, prices[i].low;
    for j := lo to i + 1
      invariant j == lo ==> hh == prices[i].high && ll == prices[i].low
      invariant j > lo ==> hh == Max(prices[i].high, Highest(prices[lo..j]))
      invariant j > lo ==> ll == Min(prices[i].low, Lowest(prices[lo..j]))
    {
      assert j > lo ==> prices[lo..j + 1][..j - lo] == prices[lo..j];
      assert prices[lo..j + 1][j - lo] == prices[j];
      if prices[j].high > hh {
        hh := prices[j].high;
      }
      if prices[j].low < ll {
        ll := prices[j].low;
      }
    }
    assert prices[lo..i + 1][i - lo] == prices[i];
  }

  function Position(close: real, hh: real, ll: real): real {
    if hh - ll == 0.0 then 0.0 else (close - ll) / (hh - ll) * 100.0
  }

  function FastK(h: seq<Bar>, kPeriod: nat): real
    requires kPeriod >= 1
  {
    if |h| < kPeriod then 0.0
    else Position(h[|h| - 1].close, Highest(Window(h, kPeriod)), Lowest(Window(h, kPeriod)))
  }

  /** The last `count` values of %K. */
  function RecentK(h: seq<Bar>, kPeriod: nat, count: nat): (ks: seq<real>)
    requires kPeriod >= 1 && count <= |h|
    ensures |ks| == count
  {
    seq(count, j requires 0 <= j < count => FastK(h[..|h| - count + j + 1], kPeriod))
  }

  function SlowD(h: seq<Bar>, kPeriod: nat, dPeriod: nat): real
    requires kPeriod >= 1 && dPeriod >= 1
  {
    if |h| < kPeriod + dPeriod - 1 then 0.0 else Sum(RecentK(h, kPeriod, dPeriod)) / dPeriod as real
  }

  datatype StochasticsResult = StochasticsResult(k: real, d: real)

  method CalculateStochastics(prices: seq<Bar>, kPeriod: int,
                              dPeriod: int) returns (out: Option<seq<StochasticsResult>>)
    ensures out.None? <==> kPeriod <= 0 || dPeriod <= 0 || |prices| < kPeriod + dPeriod - 1
    ensures out.Some? ==> |out.value| == |prices|
    ensures out.Some? ==> forall i | 0 <= i < |prices| ::
      out.value[i] == StochasticsResult(FastK(prices[..i + 1], kPeriod), SlowD(prices[..i + 1], kPeriod, dPeriod))
  {
    var n := |prices|;
    if kPeriod <= 0 || dPeriod <= 0 || n < kPeriod + dPeriod - 1 {
      return None;
    }
    hide FastK, SlowD;
    var kValues := FastKSeries(prices, kPeriod);
    var dValues := SlowDSeries(prices, kPeriod, dPeriod, kValues);
    out := Some(seq(n, i requires 0 <= i < n => StochasticsResult(kValues[i], dValues[i])));
  }

  method SlowDSeries(prices: seq<Bar>, kPeriod: nat, dPeriod: nat, kValues: seq<real>) returns (dValues: seq<real>)
    requires 1 <= kPeriod && 1 <= dPeriod && |kValues| == |prices|
    requires forall i | 0 <= i < |prices| :: kValues[i] == FastK(prices[..i + 1], kPeriod)
    ensures |dValues| == |prices|
    ensures forall i | 0 <= i < |prices| :: dValues[i] == SlowD(prices[..i + 1], kPeriod, dPeriod)
  {
    hide FastK, Sum, RecentK;
    var out := new real[|prices|](_ => 0.0);
    for i := 0 to |prices|
      invariant forall j | 0 <= j < i :: out[j] == SlowD(prices[..j + 1], kPeriod, dPeriod)
    {
      if i < kPeriod + dPeriod - 2 {
        out[i] := 0.0;
        continue;
      }
      RecentKOfPrefix(prices, kValues, kPeriod, dPeriod, i);
      out[i] := MeanBetween(kValues, i + 1 - dPeriod, dPeriod);
    }
    dValues := out[..];
  }

  lemma {:induction false} RecentKOfPrefix(prices: seq<Bar>, kValues: seq<real>, kPeriod: nat, count: nat, i: nat)
    requires kPeriod >= 1 && count <= i + 1 <= |prices| == |kValues|
    requires forall j | 0 <= j < |prices| :: kValues[j] == FastK(prices[..j + 1], kPeriod)
    ensures kValues[i + 1 - count..i + 1 - count + count] == RecentK(prices[..i + 1], kPeriod, count)
  {
    hide FastK;
    var part := kValues[i + 1 - count..i + 1 - count + count];
    forall j | 0 <= j < count
      ensures part[j] == RecentK(prices[..i + 1], kPeriod, count)[j]
    {
      var m := i + 1 - count + j;
      assert prices[..i + 1][..m + 1] == prices[..m + 1];
    }
  }

  method FastKSeries(prices: seq<Bar>, kPeriod: nat) returns (kValues: seq<real>)
    requires 1 <= kPeriod
    ensures |kValues| == |prices|
    ensures forall i | 0 <= i < |prices| :: kValues[i] == FastK(prices[..i + 1], kPeriod)
  {
    hide Position, Highest, Lowest;
    var out := new real[|prices|](_ => 0.0);
    var i := kPeriod - 1;
    while i < |prices|
      invariant kPeriod - 1 <= i
      invariant forall j | 0 <= j < i && j < |prices| :: out[j] == FastK(prices[..j + 1], kPeriod)
      invariant forall j | i <= j < |prices| :: out[j] == 0.0
    {
      WindowAt(prices, i, kPeriod);
      var hh, ll := Range(prices, i + 1 - kPeriod, i);
      out[i] := Position(prices[i].close, hh, ll);
      i := i + 1;
    }
    kValues := out[..];
  }

  // ----- Directional movement

  function UpMove(before: Bar, bar: Bar): real {
    bar.high - before.high
  }

  function DownMove(before: Bar, bar: Bar): real {
    before.low - bar.low
  }

  function PlusDM(before: Bar, bar: Bar): real {
    if UpMove(before, bar) > DownMove(before, bar) && UpMove(before, bar) > 0.0 then UpMove(before, bar) else 0.0
  }

  function MinusDM(before: Bar, bar: Bar): real {
    if DownMove(before, bar) > UpMove(before, bar) && DownMove(before, bar) > 0.0 then DownMove(before, bar) else 0.0
  }

  function PlusDMs(h: seq<Bar>): (xs: seq<real>)
    requires |h| >= 1
    ensures |xs| == |h| - 1
  {
    seq(|h| - 1, j requires 0 <= j < |h| - 1 => PlusDM(h[j], h[j + 1]))
  }

  function MinusDMs(h: seq<Bar>): (xs: seq<real>)
    requires |h| >= 1
    ensures |xs| == |h| - 1
  {
    seq(|h| - 1, j requires 0 <= j < |h| - 1 => MinusDM(h[j], h[j + 1]))
  }

  method CalcDMTR(prices: seq<Bar>) returns (plusDM: seq<real>, minusDM: seq<real>, tr: seq<real>)
    requires |prices| >= 1
    ensures |plusDM| == |minusDM| == |tr| == |prices|
    ensures plusDM[1..] == PlusDMs(prices) && minusDM[1..] == MinusDMs(prices) && tr[1..] == TrueRanges(prices)
  {
    hide PlusDMs, MinusDMs, TrueRanges;
    plusDM, minusDM := DirectionalMoves(prices);
    tr := TrueRangeSeries(prices);
  }

  method DirectionalMoves(prices: seq<Bar>) returns (plusDM: seq<real>, minusDM: seq<real>)
    requires |prices| >= 1
    ensures |plusDM| == |minusDM| == |prices|
    ensures plusDM[1..] == PlusDMs(prices) && minusDM[1..] == MinusDMs(prices)
  {
    var n := |prices|;
    var plus, minus := new real[n](_ => 0.0), new real[n](_ => 0.0);
    for i := 1 to n
      invariant forall j | 1 <= j < i :: plus[j] == PlusDM(prices[j - 1], prices[j])
      invariant forall j | 1 <= j < i :: minus[j] == MinusDM(prices[j - 1], prices[j])
      invariant forall j | i <= j < n :: plus[j] == minus[j] == 0.0
    {
      var upMove := prices[i].high - prices[i - 1].high;
      var downMove := prices[i - 1].low - prices[i].low;
      if upMove > downMove && upMove > 0.0 {
        plus[i] := upMove;
      }
      if downMove > upMove && downMove > 0.0 {
        minus[i] := downMove;
      }
    }
    plusDM, minusDM := plus[..], minus[..];
  }

  /** Wilder's accumulation: a sum of `period` values that from then on gives up one part in `period` per day. */
  function Accumulated(xs: seq<real>, period: nat): real
    requires 1 <= period <= |xs|
    decreases |xs|
  {
    if |xs| == period then Sum(xs) else Decay(Accumulated(xs[..|xs| - 1], period), xs[|xs| - 1], period)
  }

  function Decay(previous: real, x: real, period: nat): real
    requires period >= 1
  {
    previous - previous / period as real + x
  }

  function Percent(part: real, whole: real): real {
    if whole == 0.0 then 0.0 else part / whole * 100.0
  }

  function PlusDI(h: seq<Bar>, period: nat): real
    requires period >= 1
  {
    if |h| <= period then 0.0 else Percent(Accumulated(PlusDMs(h), period), Accumulated(TrueRanges(h), period))
  }

  function MinusDI(h: seq<Bar>, period: nat): real
    requires period >= 1
  {
    if |h| <= period then 0.0 else Percent(Accumulated(MinusDMs(h), period), Accumulated(TrueRanges(h), period))
  }

  function Spread(pdi: real, mdi: real): real {
    if pdi + mdi == 0.0 then 0.0 else Abs(pdi - mdi) / (pdi + mdi) * 100.0
  }

  function Dx(h: seq<Bar>, period: nat): real
    requires period >= 1
  {
    Spread(PlusDI(h, period), MinusDI(h, period))
  }

  /** DX from its first defined day on. */
  function DxTail(h: seq<Bar>, period: nat): (xs: seq<real>)
    requires 1 <= period <= |h|
    ensures |xs| == |h| - period
  {
    seq(|h| - period, j requires 0 <= j < |h| - period => Dx(h[..period + j + 1], period))
  }

  function Adx(h: seq<Bar>, period: nat): real
    requires period >= 1
  {
    if |h| < 2 * period then 0.0 else Wilder(DxTail(h, period), period)
  }

  datatype ADXResult = ADXResult(adx: real, plusDI: real, minusDI: real)

  function Directional(h: seq<Bar>, period: nat): ADXResult
    requires period >= 1
  {
    ADXResult(Adx(h, period), PlusDI(h, period), MinusDI(h, period))
  }

  /** The running accumulation of a series whose entry 0 is unused. */
  method Accumulate(xs: seq<real>, period: nat) returns (sm: seq<real>)
    requires 1 <= period < |xs|
    ensures |sm| == |xs|
    ensures forall i | period <= i < |xs| :: sm[i] == Accumulated(xs[1..i + 1], period)
  {
    hide Decay;
    var out := new real[|xs|](_ => 0.0);
    out[period] := SumBetween(xs, 1, period + 1);
    for i := period + 1 to |xs|
      invariant forall j | period <= j < i :: out[j] == Accumulated(xs[1..j + 1], period)
    {
      assert xs[1..i + 1][..i - 1] == xs[1..i];
      out[i] := Decay(out[i - 1], xs[i], period);
    }
    sm := out[..];
  }

  /** DI series and DX series. A zero true range leaves the entries at zero. */
  method DirectionalSeries(prices: seq<Bar>, period: nat) returns (pdi: seq<real>, mdi: seq<real>, dx: seq<real>)
    requires 1 <= period < |prices|
    ensures |pdi| == |mdi| == |dx| == |prices|
    ensures forall i | 0 <= i < |prices| ::
      pdi[i] == PlusDI(prices[..i + 1], period) && mdi[i] == MinusDI(prices[..i + 1], period)
    ensures forall i | 0 <= i < |prices| :: dx[i] == Dx(prices[..i + 1], period)
  {
    hide Percent, Spread, TrueRange, Accumulated;
    var n := |prices|;
    var plusDM, minusDM, tr := CalcDMTR(prices);
    var smPlus := Accumulate(plusDM, period);
    var smMinus := Accumulate(minusDM, period);
    var smTR := Accumulate(tr, period);
    var p, m, d := new real[n](_ => 0.0), new real[n](_ => 0.0), new real[n](_ => 0.0);
    for i := 0 to n
      invariant forall j | 0 <= j < i ::
        p[j] == PlusDI(prices[..j + 1], period) && m[j] == MinusDI(prices[..j + 1], period)
      invariant forall j | 0 <= j < i :: d[j] == Dx(prices[..j + 1], period)
      invariant forall j | i <= j < n :: p[j] == m[j] == d[j] == 0.0
    {
      ZeroSpread();
      if i < period {
        continue;
      }
      MovementOfPrefix(prices, plusDM, minusDM, tr, i);
      ZeroWhole(smPlus[i], smMinus[i], smTR[i]);
      if smTR[i] == 0.0 {
        continue;
      }
      p[i] := Percent(smPlus[i], smTR[i]);
      m[i] := Percent(smMinus[i], smTR[i]);
      d[i] := Spread(p[i], m[i]);
    }
    pdi, mdi, dx := p[..], m[..], d[..];
  }

  lemma {:induction false} ZeroSpread()
    ensures Spread(0.0, 0.0) == 0.0
  {
  }

  lemma {:induction false} ZeroWhole(plus: real, minus: real, whole: real)
    ensures whole == 0.0 ==> Percent(plus, whole) == Percent(minus, whole) == 0.0
  {
  }

  lemma {:induction false} MovementOfPrefix(prices: seq<Bar>, plusDM: seq<real>, minusDM: seq<real>, tr: seq<real>,
                                            i: nat)
    requires 1 <= i < |prices| == |plusDM| == |minusDM| == |tr|
    requires plusDM[1..] == PlusDMs(prices) && minusDM[1..] == MinusDMs(prices) && tr[1..] == TrueRanges(prices)
    ensures plusDM[1..i + 1] == PlusDMs(prices[..i + 1])
    ensures minusDM[1..i + 1] == MinusDMs(prices[..i + 1])
    ensures tr[1..i + 1] == TrueRanges(prices[..i + 1])
  {
    hide PlusDM, MinusDM, TrueRange;
    assert plusDM[1..i + 1] == plusDM[1..][..i] == PlusDMs(prices)[..i];
    assert minusDM[1..i + 1] == minusDM[1..][..i] == MinusDMs(prices)[..i];
    assert tr[1..i + 1] == tr[1..][..i] == TrueRanges(prices)[..i];
  }

  method CalculateADX(prices: seq<Bar>, period: int) returns (out: Option<seq<ADXResult>>)
    ensures out.None? <==> period <= 0 || |prices| < 2 * period
    ensures out.Some? ==> |out.value| == |prices|
    ensures out.Some? ==> forall i | 0 <= i < |prices| :: out.value[i] == Directional(prices[..i + 1], period)
  {
    var n := |prices|;
    if period <= 0 || n < 2 * period {
      return None;
    }
    hide PlusDI, MinusDI, Dx, Adx;
    var pdi, mdi, dx := DirectionalSeries(prices, period);
    var adx := AdxSeries(prices, period, dx);
    out := Some(seq(n, i requires 0 <= i < n => ADXResult(adx[i], pdi[i], mdi[i])));
  }

  method AdxSeries(ghost prices: seq<Bar>, period: nat, dx: seq<real>) returns (adx: seq<real>)
    requires 1 <= period && 2 * period <= |prices| == |dx|
    requires forall i | 0 <= i < |dx| :: dx[i] == Dx(prices[..i + 1], period)
    ensures |adx| == |dx|
    ensures forall i | 0 <= i < |dx| :: adx[i] == Adx(prices[..i + 1], period)
  {
    hide Dx, Wilder, Smooth, DxTail, Sum;
    var out := new real[|dx|](_ => 0.0);
    FirstAdx(prices, period, dx);
    out[2 * period - 1] := MeanBetween(dx, period, period);
    for i := 2 * period to |dx|
      invariant forall j | 0 <= j < i :: out[j] == Adx(prices[..j + 1], period)
    {
      NextAdx(prices, period, i);
      out[i] := Smooth(out[i - 1], dx[i], period);
    }
    adx := out[..];
  }

  lemma {:induction false} FirstAdx(prices: seq<Bar>, period: nat, dx: seq<real>)
    requires 1 <= period && 2 * period <= |prices| == |dx|
    requires forall i | 0 <= i < |prices| :: dx[i] == Dx(prices[..i + 1], period)
    ensures Adx(prices[..2 * period], period) == Sum(dx[period..period + period]) / period as real
  {
    hide Dx;
    var h := prices[..2 * period];
    forall j | 0 <= j < period ensures dx[period + j] == DxTail(h, period)[j] {
      assert h[..period + j + 1] == prices[..period + j + 1];
    }
    assert dx[period..period + period] == DxTail(h, period);
  }

  lemma {:induction false} NextAdx(prices: seq<Bar>, period: nat, i: nat)
    requires 1 <= period && 2 * period <= i < |prices|
    ensures Adx(prices[..i + 1], period) == Smooth(Adx(prices[..i], period), Dx(prices[..i + 1], period), period)
  {
    hide Dx, Smooth;
    var h, g := prices[..i + 1], prices[..i];
    forall j | 0 <= j < i - period ensures DxTail(h, period)[j] == DxTail(g, period)[j] {
      assert h[..period + j + 1] == g[..period + j + 1];
    }
    assert DxTail(h, period)[..i - period] == DxTail(g, period);
    assert h[..period + (i - period) + 1] == h;
  }
}
