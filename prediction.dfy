/** A stored prediction record: its expiry, its colour class, the chart
    series drawn for it and the maintenance recommendation table that goes
    with it. Timestamps are whole seconds and the chart noise, drawn at
    random in the running system, is an input. */
module Predictions {
  import opened Common
  import opened Text
  import opened Locomotives

  const SecondsPerDay: int := 86400

  /** The chart series: one label, one performance value and one risk
      value per day of the period. */
  datatype ChartData = ChartData(labels: seq<string>, performance: seq<real>, risk: seq<real>)

  datatype RecommendationKind =
    | MajorOverhaul
    | EngineInspection
    | TransmissionOverhaul
    | TransmissionService
    | RoutineMaintenance
    | OverdueMaintenance(overdueBy: int)
    | ScheduledMaintenance
    | ComprehensiveInspection

  datatype Recommendation = Recommendation(
    kind: RecommendationKind,
    priority: Level,
    estimatedCost: Level,
    timeframe: string)

  class Prediction {
    var locomotiveId: int
    var predictionType: string
    var predictionPeriod: int
    var riskScore: real
    var riskLevel: string
    var predictionData: Option<ChartData>
    var recommendations: Option<seq<Recommendation>>
    var expiresAt: int
    var isActive: bool

    /** A new record expires `predictionPeriod` days after `now`; absent
        chart data and an empty recommendation list are both stored as None. */
    constructor(locomotiveId: int, predictionType: string, predictionPeriod: int, riskScore: real,
                riskLevel: string, predictionData: Option<ChartData>,
                recommendations: seq<Recommendation>, now: int)
      ensures this.locomotiveId == locomotiveId && this.predictionType == predictionType
      ensures this.predictionPeriod == predictionPeriod && this.riskScore == riskScore
      ensures this.riskLevel == riskLevel && this.predictionData == predictionData
      ensures this.recommendations == (if |recommendations| == 0 then None else Some(recommendations))
      ensures this.expiresAt == ExpiresAt(now, predictionPeriod)
      ensures this.isActive
    {
      this.locomotiveId := locomotiveId;
      this.predictionType := predictionType;
      this.predictionPeriod := predictionPeriod;
      this.riskScore := riskScore;
      this.riskLevel := riskLevel;
      this.predictionData := predictionData;
      this.recommendations := if |recommendations| == 0 then None else Some(recommendations);
      this.expiresAt := ExpiresAt(now, predictionPeriod);
      this.isActive := true;
    }

    /** Expired once the clock has passed the expiry instant. */
    function IsExpired(now: int): (b: bool)
      reads this
      ensures b <==> Expired(expiresAt, now)
    {
      now > expiresAt
    }

    function RiskColor(): (c: string)
      reads this
      ensures c == RiskColorOf(riskLevel)
    {
      RiskColorOf(riskLevel)
    }
  }

  /** The expiry instant: `period` whole days after `created`. */
  function ExpiresAt(created: int, period: int): (e: int)
    ensures e - created == period * SecondsPerDay
  {
    created + period * SecondsPerDay
  }

  predicate Expired(expiresAt: int, now: int)
  {
    now > expiresAt
  }

  /** A record is expired exactly when more than its period has elapsed
      since it was created; one with a non-negative period is not expired
      at creation, and once expired it stays expired. */
  lemma ExpiryWindow(created: int, period: int, now: int, later: int)
    ensures Expired(ExpiresAt(created, period), now) <==> now - created > period * SecondsPerDay
    ensures period >= 0 ==> !Expired(ExpiresAt(created, period), created)
    ensures Expired(ExpiresAt(created, period), now) && now <= later ==> Expired(ExpiresAt(created, period), later)
  {
  }

  /** The colour class of a risk level; an unknown level is 'secondary'. */
  function RiskColorOf(level: string): (c: string)
    ensures c == "success" <==> level == "Low"
    ensures c == "warning" <==> level == "Medium"
    ensures c == "danger" <==> level == "High"
    ensures c == "secondary" <==> level != "Low" && level != "Medium" && level != "High"
  {
    if level == "Low" then "success"
    else if level == "Medium" then "warning"
    else if level == "High" then "danger"
    else "secondary"
  }

  // ---------------------------------------------------------------------
  // Chart series.

  /** The performance the series starts from, before the daily decline. */
  function BasePerformance(age: int, hours: int): real
  {
    90.0 - age as real * 1.5 - hours as real / 10000.0
  }

  /** The performance point of day `day`: degraded by 0.3 a day, noise
      added, floored at 20 and rounded to one decimal. */
  function PerformancePoint(base: real, day: int, noise: real): (p: real)
    ensures p >= 20.0
    ensures MaxR(20.0, base - day as real * 0.3 + noise) - 0.05 < p
    ensures p <= MaxR(20.0, base - day as real * 0.3 + noise) + 0.05
  {
    var raw := MaxR(20.0, base - day as real * 0.3 + noise);
    Round1Monotone(20.0, raw);
    assert Round1(20.0) == 20.0 by { assert (20.0 * 10.0 + 0.5).Floor == 200; }
    Round1IsClose(raw);
    Round1(raw)
  }

  /** The risk point of day `day`: raised by 0.2 a day, noise added, capped
      at 95 and rounded to one decimal. */
  function RiskPoint(baseRisk: real, day: int, noise: real): (r: real)
    ensures r <= 95.0
    ensures MinR(95.0, baseRisk + day as real * 0.2 + noise) - 0.05 < r
    ensures r <= MinR(95.0, baseRisk + day as real * 0.2 + noise) + 0.05
  {
    var raw := MinR(95.0, baseRisk + day as real * 0.2 + noise);
    Round1Monotone(raw, 95.0);
    assert Round1(95.0) == 95.0 by { assert (95.0 * 10.0 + 0.5).Floor == 950; }
    Round1IsClose(raw);
    Round1(raw)
  }

  /** Without noise, performance never rises and risk never falls as the
      days go by. */
  lemma TrendsWithoutNoise(base: real, baseRisk: real, d1: int, d2: int)
    requires d1 <= d2
    ensures PerformancePoint(base, d2, 0.0) <= PerformancePoint(base, d1, 0.0)
    ensures RiskPoint(baseRisk, d1, 0.0) <= RiskPoint(baseRisk, d2, 0.0)
  {
    Round1Monotone(MaxR(20.0, base - d2 as real * 0.3), MaxR(20.0, base - d1 as real * 0.3));
    Round1Monotone(MinR(95.0, baseRisk + d1 as real * 0.2), MinR(95.0, baseRisk + d2 as real * 0.2));
  }

  /** The chart label of a day: "Day " and the day's number in decimal. */
  function DayLabel(day: nat): (s: string)
    ensures |s| > 4 && s[..4] == "Day "
  {
    "Day " + DecimalString(day)
  }

  /** After "Day " a label spells its day in decimal digits, with no
      leading zero. */
  lemma DayLabelSpellsDay(day: nat)
    ensures AllDigits(DayLabel(day)[4..]) && DigitsValue(DayLabel(day)[4..]) == day
    ensures DayLabel(day)[4] == '0' ==> DayLabel(day) == "Day 0"
  {
    assert DayLabel(day)[4..] == DecimalString(day);
  }

  /** Different days get different labels, so the chart's labels "Day 1"
      to "Day n" are pairwise distinct. */
  lemma DayLabelsDistinct(i: nat, j: nat)
    requires i != j
    ensures DayLabel(i) != DayLabel(j)
  {
    DayLabelSpellsDay(i);
    DayLabelSpellsDay(j);
  }

  /** The chart series for `periodDays` days (none when the period is not
      positive); `performanceNoise(i)` and `riskNoise(i)` are the draws for
      the i-th day, from [-5, 5] and [-2, 2] in the running system. */
  method GeneratePredictionData(loco: Locomotive, currentYear: int, today: int, periodDays: int,
                                performanceNoise: int -> real, riskNoise: int -> real)
    returns (data: ChartData)
    ensures var n := if periodDays > 0 then periodDays else 0;
            |data.labels| == n && |data.performance| == n && |data.risk| == n
    ensures forall i :: 0 <= i < |data.labels| ==> data.labels[i] == DayLabel(i + 1)
    ensures forall i :: 0 <= i < |data.performance| ==>
              data.performance[i] == PerformancePoint(BasePerformance(Age(loco, currentYear), loco.operatingHours),
                                                      i + 1, performanceNoise(i))
    ensures forall i :: 0 <= i < |data.risk| ==>
              data.risk[i] == RiskPoint(CalculateRiskScore(loco, currentYear, today), i + 1, riskNoise(i))
    ensures forall i :: 0 <= i < |data.performance| ==> data.performance[i] >= 20.0
    ensures forall i :: 0 <= i < |data.risk| ==> data.risk[i] <= 95.0
  {
    var basePerformance := BasePerformance(Age(loco, currentYear), loco.operatingHours);
    var baseRisk := CalculateRiskScore(loco, currentYear, today);
    var labels: seq<string> := [];
    var performance: seq<real> := [];
    var risk: seq<real> := [];
    var n := if periodDays > 0 then periodDays else 0;
    var i := 0;
    while i < n
      invariant 0 <= i <= n
      invariant |labels| == i && |performance| == i && |risk| == i
      invariant forall k :: 0 <= k < i ==> labels[k] == DayLabel(k + 1)
      invariant forall k :: 0 <= k < i ==> performance[k] == PerformancePoint(basePerformance, k + 1, performanceNoise(k))
      invariant forall k :: 0 <= k < i ==> risk[k] == RiskPoint(baseRisk, k + 1, riskNoise(k))
    {
      var day := i + 1;
      labels := labels + [DayLabel(day)];
      performance := performance + [PerformancePoint(basePerformance, day, performanceNoise(i))];
      risk := risk + [RiskPoint(baseRisk, day, riskNoise(i))];
      i := i + 1;
    }
    assert forall k :: 0 <= k < n ==> performance[k] >= 20.0;
    assert forall k :: 0 <= k < n ==> risk[k] <= 95.0;
    data := ChartData(labels, performance, risk);
  }

  // ---------------------------------------------------------------------
  // The record's recommendation table.

  function AgeRecommendations(age: int): (r: seq<Recommendation>)
    ensures |r| <= 1 && forall i :: 0 <= i < |r| ==> Group(r[i].kind) == 0
  {
    if age > 25 then [Recommendation(MajorOverhaul, High, High, "30-60 days")]
    else if age > 20 then [Recommendation(EngineInspection, Medium, Medium, "7-14 days")]
    else []
  }

  function UsageRecommendations(hours: int): (r: seq<Recommendation>)
    ensures |r| <= 1 && forall i :: 0 <= i < |r| ==> Group(r[i].kind) == 1
  {
    if hours > 60000 then [Recommendation(TransmissionOverhaul, High, High, "14-30 days")]
    else if hours > 40000 then [Recommendation(RecommendationKind.TransmissionService, Medium, Medium, "3-7 days")]
    else []
  }

  function MaintenanceHistoryRecommendations(days: Option<int>): (r: seq<Recommendation>)
    ensures |r| <= 1 && forall i :: 0 <= i < |r| ==> Group(r[i].kind) == 2
  {
    match days
    case None => [Recommendation(RecommendationKind.RoutineMaintenance, High, Low, "1-3 days")]
    case Some(d) =>
      if d > 90 then [Recommendation(OverdueMaintenance(d - 90), High, Medium, "1-7 days")]
      else if d > 60 then [Recommendation(ScheduledMaintenance, Medium, Low, "7-14 days")]
      else []
  }

  function RiskRecommendations(score: real): (r: seq<Recommendation>)
    ensures |r| <= 1 && forall i :: 0 <= i < |r| ==> Group(r[i].kind) == 3
  {
    if score > 70.0 then [Recommendation(RecommendationKind.ComprehensiveInspection, High, Medium, "3-7 days")] else []
  }

  /** The table in its fixed order: age, usage, maintenance history, risk. */
  function RecommendationsOf(age: int, hours: int, days: Option<int>, score: real): (recs: seq<Recommendation>)
    ensures |recs| <= 4
  {
    AgeRecommendations(age) + UsageRecommendations(hours)
    + MaintenanceHistoryRecommendations(days) + RiskRecommendations(score)
  }

  function Kinds(recs: seq<Recommendation>): (ks: seq<RecommendationKind>)
    ensures |ks| == |recs|
    ensures forall i :: 0 <= i < |recs| ==> ks[i] == recs[i].kind
  {
    seq(|recs|, i requires 0 <= i < |recs| => recs[i].kind)
  }

  lemma KindsConcat(a: seq<Recommendation>, b: seq<Recommendation>)
    ensures Kinds(a + b) == Kinds(a) + Kinds(b)
  {
  }

  /** The group a kind belongs to, in table order. */
  function Group(k: RecommendationKind): nat
  {
    match k
    case MajorOverhaul => 0
    case EngineInspection => 0
    case TransmissionOverhaul => 1
    case TransmissionService => 1
    case RoutineMaintenance => 2
    case OverdueMaintenance(_) => 2
    case ScheduledMaintenance => 2
    case ComprehensiveInspection => 3
  }

  /** At most one item per group, groups in table order. */
  lemma RecommendationsOrdered(age: int, hours: int, days: Option<int>, score: real)
    ensures var recs := RecommendationsOf(age, hours, days, score);
            forall i, j :: 0 <= i < j < |recs| ==> Group(recs[i].kind) < Group(recs[j].kind)
  {
  }

  /** The kinds of the table are the kinds of its four groups, in order. */
  lemma TableKinds(age: int, hours: int, days: Option<int>, score: real)
    ensures Kinds(RecommendationsOf(age, hours, days, score))
            == Kinds(AgeRecommendations(age)) + Kinds(UsageRecommendations(hours))
               + Kinds(MaintenanceHistoryRecommendations(days)) + Kinds(RiskRecommendations(score))
  {
    var a, u, m, r := AgeRecommendations(age), UsageRecommendations(hours),
                      MaintenanceHistoryRecommendations(days), RiskRecommendations(score);
    KindsConcat(a, u);
    KindsConcat(a + u, m);
    KindsConcat(a + u + m, r);
  }

  /** Each age or usage item is present exactly when its condition holds,
      so the two age items exclude each other and so do the two usage items. */
  lemma AgeAndUsagePresence(age: int, hours: int, days: Option<int>, score: real)
    ensures var ks := Kinds(RecommendationsOf(age, hours, days, score));
      && (MajorOverhaul in ks <==> age > 25)
      && (EngineInspection in ks <==> 20 < age <= 25)
      && (TransmissionOverhaul in ks <==> hours > 60000)
      && (RecommendationKind.TransmissionService in ks <==> 40000 < hours <= 60000)
  {
    TableKinds(age, hours, days, score);
    var ka, ku := Kinds(AgeRecommendations(age)), Kinds(UsageRecommendations(hours));
    var km, kr := Kinds(MaintenanceHistoryRecommendations(days)), Kinds(RiskRecommendations(score));
    AgeKinds(age);
    UsageKinds(hours);
    MaintenanceKinds(days);
    RiskKinds(score);
    var ks := ka + ku + km + kr;
    assert forall k :: Group(k) == 0 ==> (k in ks <==> k in ka);
    assert forall k :: Group(k) == 1 ==> (k in ks <==> k in ku);
  }

  /** A missing record gives routine maintenance; otherwise more than 90
      days gives the overdue item, carrying the days beyond 90, and more
      than 60 the scheduled one; a high risk score adds the inspection. */
  lemma HistoryAndRiskPresence(age: int, hours: int, days: Option<int>, score: real)
    ensures var ks := Kinds(RecommendationsOf(age, hours, days, score));
      && (RecommendationKind.RoutineMaintenance in ks <==> days.None?)
      && (days.Some? && days.value > 90 ==> OverdueMaintenance(days.value - 90) in ks)
      && (forall n :: OverdueMaintenance(n) in ks ==> days.Some? && days.value > 90 && n == days.value - 90)
      && (ScheduledMaintenance in ks <==> days.Some? && 60 < days.value <= 90)
      && (RecommendationKind.ComprehensiveInspection in ks <==> score > 70.0)
  {
    TableKinds(age, hours, days, score);
    var ka, ku := Kinds(AgeRecommendations(age)), Kinds(UsageRecommendations(hours));
    var km, kr := Kinds(MaintenanceHistoryRecommendations(days)), Kinds(RiskRecommendations(score));
    AgeKinds(age);
    UsageKinds(hours);
    MaintenanceKinds(days);
    RiskKinds(score);
    var ks := ka + ku + km + kr;
    assert forall k :: Group(k) == 3 ==> (k in ks <==> k in kr);
    MaintenancePresence(age, hours, days, score);
  }

  /** The maintenance conditions alone, in the whole table. */
  lemma MaintenancePresence(age: int, hours: int, days: Option<int>, score: real)
    ensures var ks := Kinds(RecommendationsOf(age, hours, days, score));
      && (RecommendationKind.RoutineMaintenance in ks <==> days.None?)
      && (days.Some? && days.value > 90 ==> OverdueMaintenance(days.value - 90) in ks)
      && (forall n :: OverdueMaintenance(n) in ks ==> days.Some? && days.value > 90 && n == days.value - 90)
      && (ScheduledMaintenance in ks <==> days.Some? && 60 < days.value <= 90)
  {
    TableKinds(age, hours, days, score);
    var ka, ku := Kinds(AgeRecommendations(age)), Kinds(UsageRecommendations(hours));
    var km, kr := Kinds(MaintenanceHistoryRecommendations(days)), Kinds(RiskRecommendations(score));
    AgeKinds(age);
    UsageKinds(hours);
    MaintenanceKinds(days);
    RiskKinds(score);
    var ks := ka + ku + km + kr;
    assert forall k :: Group(k) == 2 ==> (k in ks <==> k in km);
    if days.Some? && days.value > 90 {
      assert km == [OverdueMaintenance(days.value - 90)];
    }
  }

  /** The age group: Major Overhaul above 25 years, Engine Inspection above 20. */
  lemma AgeKinds(age: int)
    ensures forall k :: k in Kinds(AgeRecommendations(age)) ==> Group(k) == 0
    ensures Kinds(AgeRecommendations(age))
            == if age > 25 then [MajorOverhaul] else if age > 20 then [EngineInspection] else []
  {
  }

  /** The usage group: Transmission Overhaul above 60000 hours, Transmission
      Service above 40000. */
  lemma UsageKinds(hours: int)
    ensures forall k :: k in Kinds(UsageRecommendations(hours)) ==> Group(k) == 1
    ensures Kinds(UsageRecommendations(hours))
            == if hours > 60000 then [TransmissionOverhaul]
               else if hours > 40000 then [RecommendationKind.TransmissionService] else []
  {
  }

  /** The maintenance group: routine without a record, overdue above 90
      days, scheduled above 60. */
  lemma MaintenanceKinds(days: Option<int>)
    ensures forall k :: k in Kinds(MaintenanceHistoryRecommendations(days)) ==> Group(k) == 2
    ensures Kinds(MaintenanceHistoryRecommendations(days))
            == match days
               case None => [RecommendationKind.RoutineMaintenance]
               case Some(d) => if d > 90 then [OverdueMaintenance(d - 90)]
                               else if d > 60 then [ScheduledMaintenance] else []
  {
  }

  /** The risk group: Comprehensive Inspection above a score of 70. */
  lemma RiskKinds(score: real)
    ensures forall k :: k in Kinds(RiskRecommendations(score)) ==> Group(k) == 3
    ensures Kinds(RiskRecommendations(score))
            == if score > 70.0 then [RecommendationKind.ComprehensiveInspection] else []
  {
  }

  /** Major overhaul, transmission overhaul, missing or overdue maintenance
      and a high risk score are High priority; the rest are Medium. */
  lemma RecommendationsPriority(age: int, hours: int, days: Option<int>, score: real)
    ensures var recs := RecommendationsOf(age, hours, days, score);
            forall i :: 0 <= i < |recs| ==>
              (recs[i].priority == High <==>
                 recs[i].kind in {MajorOverhaul, TransmissionOverhaul, RecommendationKind.RoutineMaintenance, RecommendationKind.ComprehensiveInspection}
                 || recs[i].kind.OverdueMaintenance?)
  {
  }

  /** The recommendation table of a locomotive, built by appending. */
  method GenerateRecommendations(loco: Locomotive, currentYear: int, today: int)
    returns (recs: seq<Recommendation>)
    ensures recs == RecommendationsOf(Age(loco, currentYear), loco.operatingHours,
                                      DaysSince(loco, today), CalculateRiskScore(loco, currentYear, today))
  {
    var age := Age(loco, currentYear);
    var hours := loco.operatingHours;
    recs := [];
    if age > 25 {
      recs := recs + [Recommendation(MajorOverhaul, High, High, "30-60 days")];
    } else if age > 20 {
      recs := recs + [Recommendation(EngineInspection, Medium, Medium, "7-14 days")];
    }
    assert recs == AgeRecommendations(age);
    if hours > 60000 {
      recs := recs + [Recommendation(TransmissionOverhaul, High, High, "14-30 days")];
    } else if hours > 40000 {
      recs := recs + [Recommendation(RecommendationKind.TransmissionService, Medium, Medium, "3-7 days")];
    }
    assert recs == AgeRecommendations(age) + UsageRecommendations(hours);
    if loco.lastMaintenance.None? {
      recs := recs + [Recommendation(RecommendationKind.RoutineMaintenance, High, Low, "1-3 days")];
    } else {
      var days := today - loco.lastMaintenance.value;
      if days > 90 {
        recs := recs + [Recommendation(OverdueMaintenance(days - 90), High, Medium, "1-7 days")];
      } else if days > 60 {
        recs := recs + [Recommendation(ScheduledMaintenance, Medium, Low, "7-14 days")];
      }
    }
    assert recs == AgeRecommendations(age) + UsageRecommendations(hours)
                   + MaintenanceHistoryRecommendations(DaysSince(loco, today));
    var score := CalculateRiskScore(loco, currentYear, today);
    if score > 70.0 {
      recs := recs + [Recommendation(RecommendationKind.ComprehensiveInspection, High, Medium, "3-7 days")];
    }
  }
}
