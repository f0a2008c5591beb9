/** The "Sonar" funnel diagnosis: from ad-manager counts it derives the
    funnel ratios, scores five of them 0, 1 or 2 against fixed thresholds,
    averages the score into a 0..2 performance and picks a status message.
    Form values arrive already parsed as reals. */
module Sonar {
  import opened Common

  datatype Form = Form(impressions: real, clicks: real, cpm: real, cpc: real, pageviews: real,
                       checkouts: real, purchases: real, adSpend: real, avgOrder: real)

  datatype Field = Impressions | Clicks | Cpm | Cpc | Pageviews | Checkouts | Purchases | AdSpend | AvgOrder

  datatype Metrics = Metrics(ctr: real, conn: real, pconv: real, cconv: real, totalConversion: real,
                             cac: real, roas: real, purchases: real, revenue: real, profit: real,
                             cpm: real, cpc: real)

  datatype Status = Optimisation | Almost | Ideal

  /** The thresholds `T` of the source: [low, high] per scored metric. */
  const CtrLow := 1.0
  const CtrHigh := 2.0
  const ConnLow := 75.0
  const ConnHigh := 90.0
  const PconvLow := 5.0
  const PconvHigh := 10.0
  const CconvLow := 20.0
  const CconvHigh := 40.0
  const RoasLow := 1.5
  const RoasHigh := 2.5

  function Get(f: Form, field: Field): real
  {
    match field
    case Impressions => f.impressions
    case Clicks => f.clicks
    case Cpm => f.cpm
    case Cpc => f.cpc
    case Pageviews => f.pageviews
    case Checkouts => f.checkouts
    case Purchases => f.purchases
    case AdSpend => f.adSpend
    case AvgOrder => f.avgOrder
  }

  /** `handleFormChange`. */
  function HandleFormChange(f: Form, field: Field, v: real): (r: Form)
    ensures Get(r, field) == v
    ensures forall g :: g != field ==> Get(r, g) == Get(f, g)
  {
    match field
    case Impressions => f.(impressions := v)
    case Clicks => f.(clicks := v)
    case Cpm => f.(cpm := v)
    case Cpc => f.(cpc := v)
    case Pageviews => f.(pageviews := v)
    case Checkouts => f.(checkouts := v)
    case Purchases => f.(purchases := v)
    case AdSpend => f.(adSpend := v)
    case AvgOrder => f.(avgOrder := v)
  }

  /** The ratios of `handleSubmit`, each guarded against a zero (or
      negative) denominator. */
  function ComputeMetrics(f: Form): (m: Metrics)
    ensures f.impressions > 0.0 ==> m.ctr * f.impressions == f.clicks * 100.0
    ensures f.clicks > 0.0 ==> m.conn * f.clicks == f.pageviews * 100.0
    ensures f.pageviews > 0.0 ==> m.pconv * f.pageviews == f.checkouts * 100.0
    ensures f.checkouts > 0.0 ==> m.cconv * f.checkouts == f.purchases * 100.0
    ensures f.impressions > 0.0 ==> m.totalConversion * f.impressions == f.purchases * 1000.0
    ensures f.purchases > 0.0 ==> m.cac * f.purchases == f.adSpend
    ensures f.adSpend > 0.0 ==> m.roas * f.adSpend == f.purchases * f.avgOrder
    ensures f.impressions <= 0.0 ==> m.ctr == 0.0 && m.totalConversion == 0.0
    ensures f.clicks <= 0.0 ==> m.conn == 0.0
    ensures f.pageviews <= 0.0 ==> m.pconv == 0.0
    ensures f.checkouts <= 0.0 ==> m.cconv == 0.0
    ensures f.purchases <= 0.0 ==> m.cac == 0.0
    ensures f.adSpend <= 0.0 ==> m.roas == 0.0
    ensures m.revenue == f.purchases * f.avgOrder && m.profit + f.adSpend == m.revenue
    ensures m.purchases == f.purchases && m.cpm == f.cpm && m.cpc == f.cpc
  {
    var I, C, PV, CO, P, SP, AO := f.impressions, f.clicks, f.pageviews, f.checkouts, f.purchases, f.adSpend, f.avgOrder;
    var ctr := Guarded(C, I) * 100.0;
    var conn := Guarded(PV, C) * 100.0;
    var pconv := Guarded(CO, PV) * 100.0;
    var cconv := Guarded(P, CO) * 100.0;
    var total := Guarded(P, I) * 1000.0;
    assert I > 0.0 ==> ctr * I == C * 100.0 by {
      if I > 0.0 { assert ctr * I == (Guarded(C, I) * I) * 100.0; }
    }
    assert C > 0.0 ==> conn * C == PV * 100.0 by {
      if C > 0.0 { assert conn * C == (Guarded(PV, C) * C) * 100.0; }
    }
    assert PV > 0.0 ==> pconv * PV == CO * 100.0 by {
      if PV > 0.0 { assert pconv * PV == (Guarded(CO, PV) * PV) * 100.0; }
    }
    assert CO > 0.0 ==> cconv * CO == P * 100.0 by {
      if CO > 0.0 { assert cconv * CO == (Guarded(P, CO) * CO) * 100.0; }
    }
    assert I > 0.0 ==> total * I == P * 1000.0 by {
      if I > 0.0 { assert total * I == (Guarded(P, I) * I) * 1000.0; }
    }
    Metrics(ctr, conn, pconv, cconv, total, Guarded(SP, P), Guarded(P * AO, SP),
            P, P * AO, P * AO - SP, f.cpm, f.cpc)
  }

  /** `x >= high ? 2 : x >= low ? 1 : 0`. */
  function MetricScore(x: real, low: real, high: real): (s: int)
    ensures 0 <= s <= 2
    ensures s == 2 <==> x >= high
    ensures s == 1 <==> low <= x < high
    ensures s == 0 <==> x < high && x < low
  {
    if x >= high then 2 else if x >= low then 1 else 0
  }

  /** A metric's score never drops as the metric grows. */
  lemma MetricScoreMonotone(x: real, y: real, low: real, high: real)
    requires x <= y
    ensures MetricScore(x, low, high) <= MetricScore(y, low, high)
  {
  }

  /** The score the five `sum +=` steps accumulate. */
  function TotalScore(m: Metrics): int
  {
    MetricScore(m.ctr, CtrLow, CtrHigh) + MetricScore(m.conn, ConnLow, ConnHigh)
    + MetricScore(m.pconv, PconvLow, PconvHigh) + MetricScore(m.cconv, CconvLow, CconvHigh)
    + MetricScore(m.roas, RoasLow, RoasHigh)
  }

  /** All five scored metrics reach their upper threshold. */
  predicate AllAtTop(m: Metrics)
  {
    m.ctr >= CtrHigh && m.conn >= ConnHigh && m.pconv >= PconvHigh && m.cconv >= CconvHigh
    && m.roas >= RoasHigh
  }

  /** `handleSubmit`: the metrics, and the performance `sum / 5`. */
  method HandleSubmit(f: Form) returns (m: Metrics, sum: int, performance: real)
    ensures m == ComputeMetrics(f)
    ensures sum == TotalScore(m)
    ensures 0 <= sum <= 10
    ensures performance * 5.0 == sum as real
    ensures 0.0 <= performance <= 2.0
  {
    m := ComputeMetrics(f);
    sum := 0;
    sum := sum + MetricScore(m.ctr, CtrLow, CtrHigh);
    sum := sum + MetricScore(m.conn, ConnLow, ConnHigh);
    sum := sum + MetricScore(m.pconv, PconvLow, PconvHigh);
    sum := sum + MetricScore(m.cconv, CconvLow, CconvHigh);
    sum := sum + MetricScore(m.roas, RoasLow, RoasHigh);
    performance := sum as real / 5.0;
  }

  /** The memoised status message. */
  function StatusOf(performance: real): Status
  {
    if performance < 1.0 then Optimisation else if performance < 2.0 then Almost else Ideal
  }

  /** "Ideal" is reached exactly when every scored metric is at its upper
      threshold; "optimisation" exactly when the score is below 5. */
  lemma StatusMeaning(m: Metrics)
    ensures StatusOf(TotalScore(m) as real / 5.0) == Ideal <==> AllAtTop(m)
    ensures StatusOf(TotalScore(m) as real / 5.0) == Optimisation <==> TotalScore(m) < 5
  {
    var s := TotalScore(m);
    assert s <= 10;
    if s == 10 {
      assert MetricScore(m.ctr, CtrLow, CtrHigh) == 2;
      assert MetricScore(m.conn, ConnLow, ConnHigh) == 2;
      assert MetricScore(m.pconv, PconvLow, PconvHigh) == 2;
      assert MetricScore(m.cconv, CconvLow, CconvHigh) == 2;
      assert MetricScore(m.roas, RoasLow, RoasHigh) == 2;
    }
  }
}
