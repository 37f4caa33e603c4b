/** Staff performance: the daily rating of a role's metrics, the trend of a rating
    history, improvement suggestions from the latest day, and a team summary. */
module Performance {

  import opened Wrappers
  import opened Types
  import Seqs

  /** A number is truthy in JavaScript when it is present and not zero. */
  predicate Given(x: Option<real>)
  {
    x.Some? && x.value != 0.0
  }

  /** `x || 0` for an optional number. */
  function OrZero(x: Option<real>): real
  {
    if x.Some? then x.value else 0.0
  }

  // ---------------------------------------------------------------------------
  // The daily rating, specified as a table of threshold rules per role
  // ---------------------------------------------------------------------------

  datatype MetricName = OrdersProcessed | AverageServiceTime | TotalSales | TicketsScanned | IncidentsLogged | WastageReported

  function Value(m: Metrics, name: MetricName): Option<real>
  {
    match name
    case OrdersProcessed => m.ordersProcessed
    case AverageServiceTime => m.averageServiceTime
    case TotalSales => m.totalSales
    case TicketsScanned => m.ticketsScanned
    case IncidentsLogged => m.incidentsLogged
    case WastageReported => m.wastageReported
  }

  /** The same metrics with one reading replaced. */
  function WithValue(m: Metrics, name: MetricName, x: Option<real>): (r: Metrics)
    ensures Value(r, name) == x
    ensures forall other: MetricName :: other != name ==> Value(r, other) == Value(m, other)
  {
    match name
    case OrdersProcessed => m.(ordersProcessed := x)
    case AverageServiceTime => m.(averageServiceTime := x)
    case TotalSales => m.(totalSales := x)
    case TicketsScanned => m.(ticketsScanned := x)
    case IncidentsLogged => m.(incidentsLogged := x)
    case WastageReported => m.(wastageReported := x)
  }

  /** A rule looks at a reading when it is truthy, or (for incidents) whenever it is set. */
  datatype Guard = WhenTruthy | WhenDefined

  datatype Comparison = Above(threshold: real) | Below(threshold: real)

  /** A rating rule: when the guarded reading passes the comparison, add `delta`. */
  datatype Rule = Rule(metric: MetricName, guard: Guard, cmp: Comparison, delta: real)

  predicate Passes(cmp: Comparison, x: real)
  {
    match cmp
    case Above(t) => x > t
    case Below(t) => x < t
  }

  predicate Fires(r: Rule, m: Metrics)
  {
    var x := Value(m, r.metric);
    (match r.guard
     case WhenTruthy => Given(x)
     case WhenDefined => x.Some?)
    && Passes(r.cmp, x.value)
  }

  function Contribution(r: Rule, m: Metrics): real
  {
    if Fires(r, m) then r.delta else 0.0
  }

  /** The total of the deltas of the rules that fire. */
  function Adjustment(rules: seq<Rule>, m: Metrics): real
    decreases |rules|
  {
    if rules == [] then 0.0 else Contribution(rules[0], m) + Adjustment(rules[1..], m)
  }

  /** The contribution of the rule at `i`, or nothing past the end. */
  function ContributionAt(rules: seq<Rule>, i: nat, m: Metrics): real
  {
    if i < |rules| then Contribution(rules[i], m) else 0.0
  }

  /** A table of up to five rules adjusts by the sum of its five positions. */
  lemma {:induction false} AdjustmentExpanded(rules: seq<Rule>, m: Metrics)
    requires |rules| <= 5
    ensures Adjustment(rules, m) == ContributionAt(rules, 0, m) + ContributionAt(rules, 1, m)
      + ContributionAt(rules, 2, m) + ContributionAt(rules, 3, m) + ContributionAt(rules, 4, m)
    decreases |rules|
  {
    if rules != [] {
      var rest := rules[1..];
      AdjustmentExpanded(rest, m);
      assert forall i: nat :: ContributionAt(rest, i, m) == ContributionAt(rules, i + 1, m);
    }
  }

  /** The rules of each role; a role without rules keeps the base rating. */
  function RatingRules(role: string): seq<Rule>
  {
    if role == "waiter" then
      [Rule(AverageServiceTime, WhenTruthy, Above(6.0), -0.5),
       Rule(AverageServiceTime, WhenTruthy, Above(8.0), -0.5),
       Rule(AverageServiceTime, WhenTruthy, Below(4.0), 0.2),
       Rule(OrdersProcessed, WhenTruthy, Above(25.0), 0.3),
       Rule(OrdersProcessed, WhenTruthy, Below(10.0), -0.3)]
    else if role == "bartender" then
      [Rule(OrdersProcessed, WhenTruthy, Above(40.0), 0.3),
       Rule(OrdersProcessed, WhenTruthy, Below(20.0), -0.3),
       Rule(TotalSales, WhenTruthy, Above(15000.0), 0.2),
       Rule(TotalSales, WhenTruthy, Below(8000.0), -0.2)]
    else if role == "kitchen" then
      [Rule(AverageServiceTime, WhenTruthy, Above(12.0), -0.5),
       Rule(AverageServiceTime, WhenTruthy, Above(15.0), -0.5),
       Rule(AverageServiceTime, WhenTruthy, Below(8.0), 0.2),
       Rule(OrdersProcessed, WhenTruthy, Above(30.0), 0.3),
       Rule(OrdersProcessed, WhenTruthy, Below(15.0), -0.3)]
    else if role == "security" then
      [Rule(TicketsScanned, WhenTruthy, Above(50.0), 0.3),
       Rule(TicketsScanned, WhenTruthy, Below(20.0), -0.2),
       Rule(IncidentsLogged, WhenDefined, Above(5.0), -0.3)]
    else []
  }

  /** `Math.max(1.0, Math.min(5.0, x))`. */
  function Clamp(x: real): (r: real)
    ensures 1.0 <= r <= 5.0
    ensures 1.0 <= x <= 5.0 ==> r == x
  {
    if 5.0 < x then 5.0 else if x < 1.0 then 1.0 else x
  }

  /** The rating of a day: 5.0 moved by the role's firing rules, kept within 1 to 5. */
  function DailyRating(role: string, m: Metrics): real
  {
    Clamp(5.0 + Adjustment(RatingRules(role), m))
  }

  /** `calculateDailyRating`: starts at 5.0 and adjusts it threshold by threshold. */
  method CalculateDailyRating(role: string, metrics: Metrics) returns (rating: real)
    ensures rating == DailyRating(role, metrics)
  {
    AdjustmentExpanded(RatingRules(role), metrics);
    rating := 5.0;
    if role == "waiter" {
      if Given(metrics.averageServiceTime) {
        var t := metrics.averageServiceTime.value;
        if t > 6.0 { rating := rating - 0.5; }
        if t > 8.0 { rating := rating - 0.5; }
        if t < 4.0 { rating := rating + 0.2; }
      }
      if Given(metrics.ordersProcessed) {
        var n := metrics.ordersProcessed.value;
        if n > 25.0 { rating := rating + 0.3; }
        if n < 10.0 { rating := rating - 0.3; }
      }
    } else if role == "bartender" {
      if Given(metrics.ordersProcessed) {
        var n := metrics.ordersProcessed.value;
        if n > 40.0 { rating := rating + 0.3; }
        if n < 20.0 { rating := rating - 0.3; }
      }
      if Given(metrics.totalSales) {
        var s := metrics.totalSales.value;
        if s > 15000.0 { rating := rating + 0.2; }
        if s < 8000.0 { rating := rating - 0.2; }
      }
    } else if role == "kitchen" {
      if Given(metrics.averageServiceTime) {
        var t := metrics.averageServiceTime.value;
        if t > 12.0 { rating := rating - 0.5; }
        if t > 15.0 { rating := rating - 0.5; }
        if t < 8.0 { rating := rating + 0.2; }
      }
      if Given(metrics.ordersProcessed) {
        var n := metrics.ordersProcessed.value;
        if n > 30.0 { rating := rating + 0.3; }
        if n < 15.0 { rating := rating - 0.3; }
      }
    } else if role == "security" {
      if Given(metrics.ticketsScanned) {
        var n := metrics.ticketsScanned.value;
        if n > 50.0 { rating := rating + 0.3; }
        if n < 20.0 { rating := rating - 0.2; }
      }
      if metrics.incidentsLogged.Some? {
        if metrics.incidentsLogged.value > 5.0 { rating := rating - 0.3; }
      }
    }
    var capped := if rating < 5.0 then rating else 5.0;
    rating := if 1.0 < capped then capped else 1.0;
  }

  /** Rules whose firing agrees on two metric sets adjust them equally. */
  lemma {:induction false} AdjustmentCongruent(rules: seq<Rule>, m1: Metrics, m2: Metrics)
    requires forall i :: 0 <= i < |rules| ==> Fires(rules[i], m1) == Fires(rules[i], m2)
    ensures Adjustment(rules, m1) == Adjustment(rules, m2)
    decreases |rules|
  {
    if rules != [] {
      AdjustmentCongruent(rules[1..], m1, m2);
    }
  }

  /** The rating never falls below 3.7 (4.5 for bartenders and security), so the lower
      bound of 1.0 is never what decides it; it never exceeds 5.0, and roles without
      rules keep 5.0. */
  lemma RatingBounds(role: string, m: Metrics)
    ensures 3.7 <= DailyRating(role, m) <= 5.0
    ensures role == "bartender" || role == "security" ==> 4.5 <= DailyRating(role, m)
    ensures 1.0 < 5.0 + Adjustment(RatingRules(role), m)
    ensures role !in {"waiter", "bartender", "kitchen", "security"} ==> DailyRating(role, m) == 5.0
  {
    AdjustmentExpanded(RatingRules(role), m);
  }

  /** Both lower bounds are reached: a slow waiter (or cook) with few orders gets 3.7,
      and a security guard with few scans and many incidents gets 4.5. */
  lemma WaiterLowest()
    ensures DailyRating("waiter", Metrics(Some(5.0), Some(9.0), None, None, None, None, None)) == 3.7
  {
    AdjustmentExpanded(RatingRules("waiter"), Metrics(Some(5.0), Some(9.0), None, None, None, None, None));
  }

  lemma KitchenLowest()
    ensures DailyRating("kitchen", Metrics(Some(5.0), Some(16.0), None, None, None, None, None)) == 3.7
  {
    AdjustmentExpanded(RatingRules("kitchen"), Metrics(Some(5.0), Some(16.0), None, None, None, None, None));
  }

  lemma SecurityLowest()
    ensures DailyRating("security", Metrics(None, None, None, None, Some(10.0), Some(6.0), None)) == 4.5
  {
    AdjustmentExpanded(RatingRules("security"), Metrics(None, None, None, None, Some(10.0), Some(6.0), None));
  }

  /** A reading of zero counts as no reading at all. */
  lemma ZeroIsNoReading(role: string, m: Metrics, name: MetricName)
    ensures DailyRating(role, WithValue(m, name, Some(0.0))) == DailyRating(role, WithValue(m, name, None))
  {
    var rules := RatingRules(role);
    var m1 := WithValue(m, name, Some(0.0));
    var m2 := WithValue(m, name, None);
    forall i | 0 <= i < |rules|
      ensures Fires(rules[i], m1) == Fires(rules[i], m2)
    {
      var r := rules[i];
      assert r.guard == WhenDefined ==> r.cmp.Above? && r.cmp.threshold > 0.0;
    }
    AdjustmentCongruent(rules, m1, m2);
  }

  /** A longer service time never raises a rating; both readings are given (non-zero). */
  lemma ServiceTimeMonotone(role: string, m: Metrics, a: real, b: real)
    requires a != 0.0 && b != 0.0 && a <= b
    ensures DailyRating(role, m.(averageServiceTime := Some(b))) <= DailyRating(role, m.(averageServiceTime := Some(a)))
  {
    AdjustmentExpanded(RatingRules(role), m.(averageServiceTime := Some(a)));
    AdjustmentExpanded(RatingRules(role), m.(averageServiceTime := Some(b)));
  }

  /** More orders never lower a rating; both readings are given (non-zero). */
  lemma OrdersMonotone(role: string, m: Metrics, a: real, b: real)
    requires a != 0.0 && b != 0.0 && a <= b
    ensures DailyRating(role, m.(ordersProcessed := Some(a))) <= DailyRating(role, m.(ordersProcessed := Some(b)))
  {
    AdjustmentExpanded(RatingRules(role), m.(ordersProcessed := Some(a)));
    AdjustmentExpanded(RatingRules(role), m.(ordersProcessed := Some(b)));
  }

  // ---------------------------------------------------------------------------
  // The trend of a rating history
  // ---------------------------------------------------------------------------

  datatype Trend = Improving | Declining | Stable

  function Ratings(h: seq<PerformanceMetrics>): (r: seq<real>)
    ensures |r| == |h|
    ensures forall i :: 0 <= i < |h| ==> r[i] == h[i].rating
  {
    seq(|h|, i requires 0 <= i < |h| => h[i].rating)
  }

  function Average(xs: seq<real>): real
    requires xs != []
  {
    Seqs.Sum(xs) / |xs| as real
  }

  /** `slice(-6, -3)`: the up to three entries before the last three. */
  function Previous(h: seq<PerformanceMetrics>): (r: seq<PerformanceMetrics>)
    ensures |r| == if |h| <= 3 then 0 else if |h| >= 6 then 3 else |h| - 3
  {
    if |h| < 3 then [] else h[if |h| >= 6 then |h| - 6 else 0..|h| - 3]
  }

  /** `getPerformanceTrend`. */
  function PerformanceTrend(history: seq<PerformanceMetrics>): Trend
  {
    if |history| < 3 then Stable
    else
      var recent := Seqs.LastN(history, 3);
      var previous := Previous(history);
      if |recent| == 0 || |previous| == 0 then Stable
      else
        var difference := Average(Ratings(recent)) - Average(Ratings(previous));
        if difference > 0.2 then Improving
        else if difference < -0.2 then Declining
        else Stable
  }

  /** Up to three entries there is nothing to compare; beyond that the trend is decided
      by the last three ratings against the up to three before them, with a margin of
      0.2 either way. */
  lemma TrendRules(h: seq<PerformanceMetrics>)
    ensures |h| <= 3 ==> PerformanceTrend(h) == Stable
    ensures |h| > 3 ==>
      var recent := Average(Ratings(h[|h| - 3..]));
      var previous := Average(Ratings(h[if |h| >= 6 then |h| - 6 else 0..|h| - 3]));
      (PerformanceTrend(h) == Improving <==> recent > previous + 0.2)
      && (PerformanceTrend(h) == Declining <==> recent < previous - 0.2)
  {
  }

  /** Only the last six entries matter. */
  lemma TrendWindow(h: seq<PerformanceMetrics>)
    ensures PerformanceTrend(h) == PerformanceTrend(Seqs.LastN(h, 6))
  {
    if |h| > 6 {
      var w := Seqs.LastN(h, 6);
      assert Seqs.LastN(w, 3) == Seqs.LastN(h, 3);
      assert Previous(w) == Previous(h);
    }
  }

  /** Summing a constant. */
  lemma {:induction false} SumConstant(xs: seq<real>, c: real)
    requires forall i :: 0 <= i < |xs| ==> xs[i] == c
    ensures Seqs.Sum(xs) == |xs| as real * c
    decreases |xs|
  {
    if xs != [] {
      SumConstant(xs[..|xs| - 1], c);
    }
  }

  /** Summing the reflections `c - x`. */
  lemma {:induction false} SumReflect(xs: seq<real>, ys: seq<real>, c: real)
    requires |xs| == |ys|
    requires forall i :: 0 <= i < |xs| ==> ys[i] == c - xs[i]
    ensures Seqs.Sum(ys) == |xs| as real * c - Seqs.Sum(xs)
    decreases |xs|
  {
    if xs != [] {
      SumReflect(xs[..|xs| - 1], ys[..|ys| - 1], c);
    }
  }

  lemma AverageReflect(xs: seq<real>, ys: seq<real>, c: real)
    requires xs != [] && |xs| == |ys|
    requires forall i :: 0 <= i < |xs| ==> ys[i] == c - xs[i]
    ensures Average(ys) == c - Average(xs)
  {
    SumReflect(xs, ys, c);
    var n := |xs| as real;
    assert Seqs.Sum(ys) / n == (n * c - Seqs.Sum(xs)) / n;
    assert (n * c - Seqs.Sum(xs)) / n == c - Seqs.Sum(xs) / n;
  }

  /** A history of one fixed rating is stable. */
  lemma ConstantRatingsStable(h: seq<PerformanceMetrics>, c: real)
    requires forall i :: 0 <= i < |h| ==> h[i].rating == c
    ensures PerformanceTrend(h) == Stable
  {
    if |h| > 3 {
      var recent := Ratings(Seqs.LastN(h, 3));
      var previous := Ratings(Previous(h));
      SumConstant(recent, c);
      SumConstant(previous, c);
    }
  }

  function Mirror(t: Trend): Trend
  {
    match t
    case Improving => Declining
    case Declining => Improving
    case Stable => Stable
  }

  /** Reflecting every rating (`c - rating`) turns improving into declining and back. */
  lemma TrendReflect(h: seq<PerformanceMetrics>, g: seq<PerformanceMetrics>, c: real)
    requires |h| == |g|
    requires forall i :: 0 <= i < |h| ==> g[i].rating == c - h[i].rating
    ensures PerformanceTrend(g) == Mirror(PerformanceTrend(h))
  {
    if |h| > 3 {
      var rh := Ratings(Seqs.LastN(h, 3));
      var rg := Ratings(Seqs.LastN(g, 3));
      var ph := Ratings(Previous(h));
      var pg := Ratings(Previous(g));
      AverageReflect(rh, rg, c);
      AverageReflect(ph, pg, c);
    }
  }

  // ---------------------------------------------------------------------------
  // Improvement suggestions
  // ---------------------------------------------------------------------------

  const ReduceServiceTime := "Consider reviewing order flow to reduce service time"
  const RaiseOrderVolume := "Focus on increasing order volume during peak hours"
  const SpeedUpOrders := "Work on improving order processing speed"
  const Upsell := "Consider upselling techniques to increase sales"
  const FasterPreparation := "Review kitchen workflow to reduce preparation time"
  const ReduceWaste := "Focus on reducing food waste and improving portion control"
  const CheckTickets := "Increase vigilance in checking customer tickets"
  const PreventIncidents := "Review incident prevention strategies"

  /** A suggestion rule: when the truthy reading passes the comparison, say `message`. */
  datatype Advice = Advice(metric: MetricName, cmp: Comparison, message: string)

  function AdviceRules(role: string): seq<Advice>
  {
    if role == "waiter" then
      [Advice(AverageServiceTime, Above(6.0), ReduceServiceTime),
       Advice(OrdersProcessed, Below(15.0), RaiseOrderVolume)]
    else if role == "bartender" then
      [Advice(OrdersProcessed, Below(25.0), SpeedUpOrders),
       Advice(TotalSales, Below(10000.0), Upsell)]
    else if role == "kitchen" then
      [Advice(AverageServiceTime, Above(10.0), FasterPreparation),
       Advice(WastageReported, Above(3.0), ReduceWaste)]
    else if role == "security" then
      [Advice(TicketsScanned, Below(30.0), CheckTickets),
       Advice(IncidentsLogged, Above(3.0), PreventIncidents)]
    else []
  }

  predicate Applies(a: Advice, m: Metrics)
  {
    Given(Value(m, a.metric)) && Passes(a.cmp, Value(m, a.metric).value)
  }

  /** The messages of the applying rules, in table order. */
  function Advise(rules: seq<Advice>, m: Metrics): (r: seq<string>)
    ensures |r| <= |rules|
    decreases |rules|
  {
    if rules == [] then [] else (if Applies(rules[0], m) then [rules[0].message] else []) + Advise(rules[1..], m)
  }

  /** A table of up to two suggestion rules gives the first message, then the second. */
  lemma AdviseExpanded(rules: seq<Advice>, m: Metrics)
    requires |rules| <= 2
    ensures |rules| == 0 ==> Advise(rules, m) == []
    ensures |rules| == 1 ==> Advise(rules, m) == (if Applies(rules[0], m) then [rules[0].message] else [])
    ensures |rules| == 2 ==>
      Advise(rules, m) == (if Applies(rules[0], m) then [rules[0].message] else [])
                          + (if Applies(rules[1], m) then [rules[1].message] else [])
  {
    if |rules| == 2 {
      assert rules[1..][1..] == [];
    }
  }

  /** The suggestions for a history: those of the latest entry's role and readings. */
  function Suggestions(history: seq<PerformanceMetrics>): seq<string>
  {
    if history == [] then []
    else
      var latest := history[|history| - 1];
      Advise(AdviceRules(latest.role), latest.metrics)
  }

  /** `generateImprovementSuggestions`: pushes each suggestion whose threshold the latest
      day crosses. The user argument is not consulted. */
  method GenerateImprovementSuggestions(user: User, history: seq<PerformanceMetrics>)
    returns (suggestions: seq<string>)
    ensures suggestions == Suggestions(history)
  {
    suggestions := [];
    if |history| == 0 {
      return;
    }
    var latest := history[|history| - 1];
    var role, metrics := latest.role, latest.metrics;
    AdviseExpanded(AdviceRules(role), metrics);
    if role == "waiter" {
      if Given(metrics.averageServiceTime) && metrics.averageServiceTime.value > 6.0 {
        suggestions := suggestions + [ReduceServiceTime];
      }
      if Given(metrics.ordersProcessed) && metrics.ordersProcessed.value < 15.0 {
        suggestions := suggestions + [RaiseOrderVolume];
      }
    } else if role == "bartender" {
      if Given(metrics.ordersProcessed) && metrics.ordersProcessed.value < 25.0 {
        suggestions := suggestions + [SpeedUpOrders];
      }
      if Given(metrics.totalSales) && metrics.totalSales.value < 10000.0 {
        suggestions := suggestions + [Upsell];
      }
    } else if role == "kitchen" {
      if Given(metrics.averageServiceTime) && metrics.averageServiceTime.value > 10.0 {
        suggestions := suggestions + [FasterPreparation];
      }
      if Given(metrics.wastageReported) && metrics.wastageReported.value > 3.0 {
        suggestions := suggestions + [ReduceWaste];
      }
    } else if role == "security" {
      if Given(metrics.ticketsScanned) && metrics.ticketsScanned.value < 30.0 {
        suggestions := suggestions + [CheckTickets];
      }
      if Given(metrics.incidentsLogged) && metrics.incidentsLogged.value > 3.0 {
        suggestions := suggestions + [PreventIncidents];
      }
    }
  }

  /** A message is suggested exactly when one of its rules applies. */
  lemma {:induction false} AdviseMembership(rules: seq<Advice>, m: Metrics, msg: string)
    ensures msg in Advise(rules, m) <==> exists i :: 0 <= i < |rules| && rules[i].message == msg && Applies(rules[i], m)
    decreases |rules|
  {
    if rules != [] {
      AdviseMembership(rules[1..], m, msg);
      if exists i :: 0 <= i < |rules| && rules[i].message == msg && Applies(rules[i], m) {
        var i :| 0 <= i < |rules| && rules[i].message == msg && Applies(rules[i], m);
        if i > 0 {
          assert rules[1..][i - 1] == rules[i];
        }
      }
      if exists i :: 0 <= i < |rules[1..]| && rules[1..][i].message == msg && Applies(rules[1..][i], m) {
        var i :| 0 <= i < |rules[1..]| && rules[1..][i].message == msg && Applies(rules[1..][i], m);
        assert rules[i + 1] == rules[1..][i];
      }
    }
  }

  /** At most two suggestions, none without history, and none for a role without rules. */
  lemma SuggestionBounds(history: seq<PerformanceMetrics>)
    ensures |Suggestions(history)| <= 2
    ensures history == [] ==> Suggestions(history) == []
    ensures history != [] && history[|history| - 1].role !in {"waiter", "bartender", "kitchen", "security"}
      ==> Suggestions(history) == []
  {
    if history != [] {
      var role := history[|history| - 1].role;
      assert |AdviceRules(role)| <= 2;
    }
  }

  /** A rating penalty on a metric the role's suggestions cover always comes with that
      suggestion: the suggestion thresholds are looser than the penalty thresholds. */
  lemma PenaltyIsAdvised(role: string, m: Metrics, i: nat, j: nat)
    requires i < |RatingRules(role)| && RatingRules(role)[i].delta < 0.0 && Fires(RatingRules(role)[i], m)
    requires j < |AdviceRules(role)| && AdviceRules(role)[j].metric == RatingRules(role)[i].metric
    ensures AdviceRules(role)[j].message in Advise(AdviceRules(role), m)
  {
    var advice := AdviceRules(role);
    assert Applies(advice[j], m) by {
      var r := RatingRules(role)[i];
      if role == "waiter" {
        assert r.cmp == Above(6.0) || r.cmp == Above(8.0) || r.cmp == Below(10.0);
      } else if role == "bartender" {
        assert r.cmp == Below(20.0) || r.cmp == Below(8000.0);
      } else if role == "kitchen" {
        assert r.cmp == Above(12.0) || r.cmp == Above(15.0);
      } else {
        assert r.cmp == Below(20.0) || r.cmp == Above(5.0);
      }
    }
    AdviseMembership(advice, m, advice[j].message);
  }

  /** The kitchen's penalty for few orders has no suggestion: five orders cost a cook
      0.3 of the rating and are not mentioned. */
  lemma KitchenOrdersUnadvised()
    ensures var m := Metrics(Some(5.0), None, None, None, None, None, None);
      DailyRating("kitchen", m) == 4.7 && Advise(AdviceRules("kitchen"), m) == []
  {
    var m := Metrics(Some(5.0), None, None, None, None, None, None);
    AdjustmentExpanded(RatingRules("kitchen"), m);
    AdviseExpanded(AdviceRules("kitchen"), m);
  }

  // ---------------------------------------------------------------------------
  // The team summary
  // ---------------------------------------------------------------------------

  /** The latest entry recorded for a member, if any. */
  function LatestFor(member: User, data: seq<PerformanceMetrics>): (r: Option<PerformanceMetrics>)
  {
    var mine := Seqs.Filter(data, (p: PerformanceMetrics) => p.userId == member.id);
    if mine == [] then None else Some(mine[|mine| - 1])
  }

  datatype TeamEntry = TeamEntry(member: User, performance: PerformanceMetrics)

  /** The members that have data, each with their latest entry, in member order. */
  function TeamEntries(members: seq<User>, data: seq<PerformanceMetrics>): (r: seq<TeamEntry>)
    ensures |r| <= |members|
    decreases |members|
  {
    if members == [] then []
    else
      var latest := LatestFor(members[0], data);
      (if latest.Some? then [TeamEntry(members[0], latest.value)] else []) + TeamEntries(members[1..], data)
  }

  function EntryRatings(es: seq<TeamEntry>): (r: seq<real>)
    ensures |r| == |es|
    ensures forall i :: 0 <= i < |es| ==> r[i] == es[i].performance.rating
  {
    seq(|es|, i requires 0 <= i < |es| => es[i].performance.rating)
  }

  function EntryOrders(es: seq<TeamEntry>): seq<real>
  {
    seq(|es|, i requires 0 <= i < |es| => OrZero(es[i].performance.metrics.ordersProcessed))
  }

  function EntrySales(es: seq<TeamEntry>): seq<real>
  {
    seq(|es|, i requires 0 <= i < |es| => OrZero(es[i].performance.metrics.totalSales))
  }

  /** The index kept by `reduce((best, current) => current.rating > best.rating ?
      current : best)`: the first entry of the highest rating. */
  function BestIndex(es: seq<TeamEntry>): (k: nat)
    requires es != []
    ensures k < |es|
    ensures forall j :: 0 <= j < |es| ==> es[j].performance.rating <= es[k].performance.rating
    ensures forall j :: 0 <= j < k ==> es[j].performance.rating < es[k].performance.rating
    decreases |es|
  {
    if |es| == 1 then 0
    else
      var b := BestIndex(es[..|es| - 1]);
      if es[|es| - 1].performance.rating > es[b].performance.rating then |es| - 1 else b
  }

  datatype TeamSummary = TeamSummary(averageRating: real, totalOrders: real, totalSales: real, topPerformer: Option<User>)

  /** `calculateTeamPerformance`. */
  function TeamPerformance(members: seq<User>, data: seq<PerformanceMetrics>): TeamSummary
  {
    var es := TeamEntries(members, data);
    TeamSummary(
      if |es| > 0 then Seqs.Sum(EntryRatings(es)) / |es| as real else 0.0,
      Seqs.Sum(EntryOrders(es)),
      Seqs.Sum(EntrySales(es)),
      if |es| > 0 then Some(es[BestIndex(es)].member) else None)
  }

  /** An entry is in the team list exactly when its member is on the team and it is
      that member's latest entry. */
  lemma {:induction false} TeamEntriesMembership(members: seq<User>, data: seq<PerformanceMetrics>, e: TeamEntry)
    ensures e in TeamEntries(members, data) <==> e.member in members && LatestFor(e.member, data) == Some(e.performance)
    decreases |members|
  {
    if members != [] {
      TeamEntriesMembership(members[1..], data, e);
      assert members == [members[0]] + members[1..];
    }
  }

  /** A member has a latest entry exactly when some entry carries their id, and it is
      the last such entry. */
  lemma LatestForRule(member: User, data: seq<PerformanceMetrics>)
    ensures LatestFor(member, data).Some? <==> exists i :: 0 <= i < |data| && data[i].userId == member.id
    ensures LatestFor(member, data).Some? ==> LatestFor(member, data).value.userId == member.id
  {
    var p := (q: PerformanceMetrics) => q.userId == member.id;
    var mine := Seqs.Filter(data, p);
    if exists i :: 0 <= i < |data| && data[i].userId == member.id {
      var i :| 0 <= i < |data| && data[i].userId == member.id;
      Seqs.FilterMembership(data, p, data[i]);
    } else {
      Seqs.FilterNone(data, p);
    }
    if mine != [] {
      Seqs.FilterMembership(data, p, mine[|mine| - 1]);
    }
  }

  /** The team list is empty exactly when no member has data. */
  lemma TeamEntriesEmpty(members: seq<User>, data: seq<PerformanceMetrics>)
    ensures TeamEntries(members, data) == [] <==> forall m :: m in members ==> LatestFor(m, data).None?
  {
    var es := TeamEntries(members, data);
    if exists m :: m in members && LatestFor(m, data).Some? {
      var m :| m in members && LatestFor(m, data).Some?;
      TeamEntriesMembership(members, data, TeamEntry(m, LatestFor(m, data).value));
    }
    if es != [] {
      TeamEntriesMembership(members, data, es[0]);
    }
  }

  /** There is a top performer exactly when some member has data, and it is a member of
      the team; without one, the average and both totals are 0. */
  lemma TopPerformerPresence(members: seq<User>, data: seq<PerformanceMetrics>)
    ensures var s := TeamPerformance(members, data);
      s.topPerformer.Some? <==> exists m :: m in members && LatestFor(m, data).Some?
    ensures var s := TeamPerformance(members, data);
      s.topPerformer.Some? ==> s.topPerformer.value in members
    ensures var s := TeamPerformance(members, data);
      s.topPerformer.None? ==> s.averageRating == 0.0 && s.totalOrders == 0.0 && s.totalSales == 0.0
  {
    TeamEntriesEmpty(members, data);
    var es := TeamEntries(members, data);
    if es != [] {
      TeamEntriesMembership(members, data, es[BestIndex(es)]);
    }
  }

  /** With every latest rating between 1 and 5, so is the team average. */
  lemma AverageRatingBounds(members: seq<User>, data: seq<PerformanceMetrics>)
    requires var es := TeamEntries(members, data);
      es != [] && forall i :: 0 <= i < |es| ==> 1.0 <= es[i].performance.rating <= 5.0
    ensures 1.0 <= TeamPerformance(members, data).averageRating <= 5.0
  {
    var es := TeamEntries(members, data);
    Seqs.MeanBounds(EntryRatings(es), 1.0, 5.0);
  }

  /** The top performer is the first entry of the highest latest rating. */
  lemma TopPerformerIsFirstBest(members: seq<User>, data: seq<PerformanceMetrics>)
    requires TeamEntries(members, data) != []
    ensures var es := TeamEntries(members, data);
      exists k :: 0 <= k < |es| && TeamPerformance(members, data).topPerformer == Some(es[k].member)
        && (forall j :: 0 <= j < |es| ==> es[j].performance.rating <= es[k].performance.rating)
        && (forall j :: 0 <= j < k ==> es[j].performance.rating < es[k].performance.rating)
  {
    var es := TeamEntries(members, data);
    var k := BestIndex(es);
    assert TeamPerformance(members, data).topPerformer == Some(es[k].member);
  }
}
