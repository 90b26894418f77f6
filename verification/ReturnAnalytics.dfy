/** Return statistics of a price series: drawdown, simple returns, covariance and correlation. */
module ReturnAnalytics {
  import opened Decimals

  ghost predicate AllPositive(prices: seq<real>) {
    forall i | 0 <= i < |prices| :: prices[i] > 0.0
  }

  // ----- Maximum drawdown

  /** Running peak of a non-empty prefix. */
  function PeakOf(prices: seq<real>, k: nat): real
    requires 0 < k <= |prices|
  {
    if k == 1 then prices[0] else Max(prices[k - 1], PeakOf(prices, k - 1))
  }

  /** Worst relative fall from the running peak over a prefix; days whose peak is zero are skipped. */
  function WorstFall(prices: seq<real>, k: nat): real
    requires k <= |prices|
  {
    if k == 0 then 0.0
    else
      var worst := WorstFall(prices, k - 1);
      var peak := PeakOf(prices, k);
      if peak == 0.0 then worst else Min((prices[k - 1] - peak) / peak, worst)
  }

  method MaxDrawdown(prices: seq<real>) returns (maxDD: real)
    ensures maxDD == WorstFall(prices, |prices|)
  {
    if |prices| == 0 {
      return 0.0;
    }
    var peak := prices[0];
    maxDD := 0.0;
    for i := 0 to |prices|
      invariant peak == if i == 0 then prices[0] else PeakOf(prices, i)
      invariant maxDD == WorstFall(prices, i)
    {
      var p := prices[i];
      if p > peak {
        peak := p;
      }
      if peak == 0.0 {
        continue;
      }
      var dd := (p - peak) / peak;
      if dd < maxDD {
        maxDD := dd;
      }
    }
  }

  /** Return of buying on day i and selling on day j. */
  function Change(prices: seq<real>, i: nat, j: nat): real
    requires i < |prices| && j < |prices| && prices[i] != 0.0
  {
    prices[j] / prices[i] - 1.0
  }

  lemma {:induction false} PeakIsMaximum(prices: seq<real>, k: nat) returns (at: nat)
    requires 0 < k <= |prices|
    ensures forall i | 0 <= i < k :: prices[i] <= PeakOf(prices, k)
    ensures at < k && prices[at] == PeakOf(prices, k)
  {
    if k == 1 {
      at := 0;
    } else {
      at := PeakIsMaximum(prices, k - 1);
      if prices[k - 1] > PeakOf(prices, k - 1) {
        at := k - 1;
      }
    }
  }

  lemma ChangeAntitone(low: real, high: real, price: real)
    requires 0.0 < low <= high && 0.0 < price
    ensures price / high - 1.0 <= price / low - 1.0
  {
    var q := price / high;
    assert q * high == price;
    QuotientPositive(price, high);
    ProductMonotone(low, high, q);
    QuotientAtLeast(price, q, low);
  }

  lemma FallIsChange(price: real, peak: real)
    requires peak > 0.0 && price > 0.0
    ensures (price - peak) / peak == price / peak - 1.0
    ensures (price - peak) / peak > -1.0
  {
    QuotientPositive(price, peak);
    var q := price / peak;
    assert (q - 1.0) * peak == price - peak;
    QuotientIs(price - peak, peak, q - 1.0);
  }

  /** The running-peak scan equals the brute-force search over every buy day and every later sell day. */
  lemma {:induction false} DrawdownIsWorstChange(prices: seq<real>, k: nat) returns (buy: nat, sell: nat)
    requires AllPositive(prices) && 0 < k <= |prices|
    ensures forall i, j | 0 <= i <= j < k :: WorstFall(prices, k) <= Change(prices, i, j)
    ensures buy <= sell < k && Change(prices, buy, sell) == WorstFall(prices, k)
    ensures -1.0 < WorstFall(prices, k) <= 0.0
  {
    var peakDay := PeakIsMaximum(prices, k);
    var peak := PeakOf(prices, k);
    FallIsChange(prices[k - 1], peak);
    if k == 1 {
      buy, sell := 0, 0;
    } else {
      buy, sell := DrawdownIsWorstChange(prices, k - 1);
      if Change(prices, peakDay, k - 1) < WorstFall(prices, k - 1) {
        buy, sell := peakDay, k - 1;
      }
    }
    forall i, j | 0 <= i <= j < k
      ensures WorstFall(prices, k) <= Change(prices, i, j)
    {
      if j == k - 1 {
        ChangeAntitone(prices[i], peak, prices[j]);
      }
    }
  }

  // ----- Simple returns

  method DailyReturns(prices: seq<real>) returns (out: seq<real>)
    ensures |prices| < 2 ==> out == []
    ensures |prices| >= 2 ==> |out| == |prices| - 1
    ensures forall i | 0 <= i < |out| ::
      out[i] == if prices[i] == 0.0 then 0.0 else Change(prices, i, i + 1)
  {
    if |prices| < 2 {
      return [];
    }
    out := [];
    for i := 1 to |prices|
      invariant |out| == i - 1
      invariant forall j | 0 <= j < i - 1 ::
        out[j] == if prices[j] == 0.0 then 0.0 else Change(prices, j, j + 1)
    {
      var prev := prices[i - 1];
      if prev == 0.0 {
        out := out + [0.0];
        continue;
      }
      out := out + [prices[i] / prev - 1.0];
    }
  }

  function CumulativeReturn(prices: seq<real>): real {
    if |prices| < 2 then 0.0
    else if prices[0] == 0.0 then 0.0
    else prices[|prices| - 1] / prices[0] - 1.0
  }

  /** Product of one plus each of the first k returns. */
  function Compound(rs: seq<real>, k: nat): real
    requires k <= |rs|
  {
    if k == 0 then 1.0 else Compound(rs, k - 1) * (1.0 + rs[k - 1])
  }

  lemma TelescopeStep(prices: seq<real>, rs: seq<real>, k: nat)
    requires 0 < k <= |rs| && |prices| == |rs| + 1
    requires prices[0] != 0.0 && prices[k - 1] != 0.0
    requires Compound(rs, k - 1) == prices[k - 1] / prices[0] && rs[k - 1] == prices[k] / prices[k - 1] - 1.0
    ensures Compound(rs, k) == prices[k] / prices[0]
  {
    var compounded, step := Compound(rs, k - 1), prices[k] / prices[k - 1];
    assert compounded * prices[0] == prices[k - 1] && step * prices[k - 1] == prices[k];
    assert (compounded * step) * prices[0] == prices[k];
    QuotientIs(prices[k], prices[0], compounded * step);
  }

  ghost predicate AreDailyReturns(prices: seq<real>, rs: seq<real>) {
    && |prices| == |rs| + 1
    && (forall i | 0 <= i < |rs| :: prices[i] != 0.0 && rs[i] == Change(prices, i, i + 1))
  }

  lemma {:induction false} ReturnsTelescopeUpTo(prices: seq<real>, rs: seq<real>, k: nat)
    requires AreDailyReturns(prices, rs) && k <= |rs| && 0 < |rs|
    ensures Compound(rs, k) == prices[k] / prices[0]
  {
    assert prices[0] != 0.0;
    if k == 0 {
      QuotientIs(prices[0], prices[0], 1.0);
    } else {
      ReturnsTelescopeUpTo(prices, rs, k - 1);
      TelescopeStep(prices, rs, k);
    }
  }

  /** The daily returns compound to exactly the cumulative return; only the last price may be zero. */
  lemma ReturnsTelescope(prices: seq<real>, rs: seq<real>)
    requires AreDailyReturns(prices, rs) && 0 < |rs|
    ensures Compound(rs, |rs|) == 1.0 + CumulativeReturn(prices)
  {
    assert prices[0] != 0.0;
    ReturnsTelescopeUpTo(prices, rs, |rs|);
  }
}
