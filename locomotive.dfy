/** The locomotive record and the building blocks computed from it: age,
    the additive risk score and its level, the reliability percentage, the
    maintenance items and the fleet utilisation. The current year and
    today's day number are parameters; a maintenance date is a day number. */
module Locomotives {
  import opened Common

  datatype Locomotive = Locomotive(
    locomotiveId: string,
    model: string,
    manufacturingYear: int,
    operatingHours: int,
    lastMaintenance: Option<int>,
    currentStatus: string)

  /** Low / Medium / High, shared by every risk and performance level. */
  datatype Level = Low | Medium | High

  function Age(loco: Locomotive, currentYear: int): (age: int)
    ensures loco.manufacturingYear + age == currentYear
  {
    currentYear - loco.manufacturingYear
  }

  /** Days since the last maintenance, None when there is no record. */
  function DaysSince(loco: Locomotive, today: int): (days: Option<int>)
    ensures days.None? <==> loco.lastMaintenance.None?
    ensures days.Some? ==> loco.lastMaintenance.value + days.value == today
  {
    match loco.lastMaintenance
    case None => None
    case Some(d) => Some(today - d)
  }

  // ---------------------------------------------------------------------
  // Risk score: three capped components, total capped at 100.

  function AgeRisk(age: int): (r: real)
    ensures r <= 50.0 && r <= 2.0 * age as real
    ensures r == 50.0 || r == 2.0 * age as real
  {
    MinR(50.0, 2.0 * age as real)
  }

  function UsageRisk(hours: int): (r: real)
    ensures r <= 30.0 && r <= hours as real / 1000.0 * 0.6
    ensures r == 30.0 || r == hours as real / 1000.0 * 0.6
  {
    MinR(30.0, hours as real / 1000.0 * 0.6)
  }

  /** A missing maintenance record scores the full 20 points. */
  function MaintenanceRisk(days: Option<int>): (r: real)
    ensures r <= 20.0
    ensures days.None? ==> r == 20.0
    ensures days.Some? ==> r <= days.value as real * 0.2 && (r == 20.0 || r == days.value as real * 0.2)
  {
    match days
    case None => 20.0
    case Some(d) => MinR(20.0, d as real * 0.2)
  }

  function RiskScoreOf(age: int, hours: int, days: Option<int>): (score: real)
    ensures score <= 100.0
    ensures score <= AgeRisk(age) + UsageRisk(hours) + MaintenanceRisk(days)
    ensures score == 100.0 || score == AgeRisk(age) + UsageRisk(hours) + MaintenanceRisk(days)
    ensures age >= 0 && hours >= 0 && (days.Some? ==> days.value >= 0) ==> 0.0 <= score
  {
    MinR(100.0, AgeRisk(age) + UsageRisk(hours) + MaintenanceRisk(days))
  }

  function CalculateRiskScore(loco: Locomotive, currentYear: int, today: int): (score: real)
    ensures score <= 100.0
    ensures currentYear >= loco.manufacturingYear && loco.operatingHours >= 0
            && (loco.lastMaintenance.Some? ==> loco.lastMaintenance.value <= today)
            ==> 0.0 <= score
  {
    RiskScoreOf(Age(loco, currentYear), loco.operatingHours, DaysSince(loco, today))
  }

  /** "At least as overdue": a missing record counts as the longest gap. */
  predicate NoLonger(d1: Option<int>, d2: Option<int>)
  {
    d2.None? || (d1.Some? && d1.value <= d2.value)
  }

  /** The score never falls when age, hours or days since maintenance grow. */
  lemma RiskScoreMonotone(a1: int, a2: int, h1: int, h2: int, d1: Option<int>, d2: Option<int>)
    requires a1 <= a2 && h1 <= h2 && NoLonger(d1, d2)
    ensures RiskScoreOf(a1, h1, d1) <= RiskScoreOf(a2, h2, d2)
  {
    assert MaintenanceRisk(d1) <= MaintenanceRisk(d2);
  }

  /** Having no maintenance record scores exactly like a gap of 100 days or more. */
  lemma MissingRecordLikeLongGap(age: int, hours: int, days: int)
    requires days >= 100
    ensures RiskScoreOf(age, hours, None) == RiskScoreOf(age, hours, Some(days))
  {
  }

  /** High at 70 and above, Medium from 40, Low below. */
  function LevelOf(score: real): (level: Level)
    ensures level == High <==> score >= 70.0
    ensures level == Medium <==> 40.0 <= score < 70.0
    ensures level == Low <==> score < 40.0
  {
    if score >= 70.0 then High else if score >= 40.0 then Medium else Low
  }

  function RiskLevel(loco: Locomotive, currentYear: int, today: int): (level: Level)
    ensures level == LevelOf(CalculateRiskScore(loco, currentYear, today))
  {
    LevelOf(CalculateRiskScore(loco, currentYear, today))
  }

  // ---------------------------------------------------------------------
  // Reliability percentage.

  /** The reduction for a missing or late maintenance: 15 without a record,
      nothing up to 90 days, then a tenth of a point a day up to 15. */
  function MaintenanceDeduction(days: Option<int>): (d: real)
    ensures 0.0 <= d <= 15.0
    ensures days.None? ==> d == 15.0
    ensures days.Some? && days.value <= 90 ==> d == 0.0
    ensures days.Some? && days.value > 90 ==> d == MinR(15.0, (days.value - 90) as real * 0.1)
  {
    match days
    case None => 15.0
    case Some(n) => if n > 90 then MinR(15.0, (n - 90) as real * 0.1) else 0.0
  }

  /** 'repair' costs 25 points, 'maintenance' 10, any other status nothing. */
  function StatusDeduction(status: string): (d: real)
    ensures status == "repair" <==> d == 25.0
    ensures status == "maintenance" <==> d == 10.0
    ensures d == 0.0 <==> status != "repair" && status != "maintenance"
  {
    if status == "repair" then 25.0 else if status == "maintenance" then 10.0 else 0.0
  }

  function Clamp100(x: real): (r: real)
    ensures 0.0 <= r <= 100.0
    ensures 0.0 <= x <= 100.0 ==> r == x
    ensures x < 0.0 ==> r == 0.0
    ensures x > 100.0 ==> r == 100.0
  {
    MaxR(0.0, MinR(100.0, x))
  }

  /** Reliability: 100 less the age (at most 30), usage (at most 20),
      maintenance and status deductions, clamped to [0, 100]. */
  function ReliabilityOf(age: int, hours: int, days: Option<int>, status: string): (r: real)
    ensures 0.0 <= r <= 100.0
  {
    Clamp100(100.0 - MinR(30.0, age as real * 1.5) - MinR(20.0, hours as real / 10000.0 * 2.0)
             - MaintenanceDeduction(days) - StatusDeduction(status))
  }

  /** Starts at 100 and takes each deduction off a running value. */
  method CalculateReliability(loco: Locomotive, currentYear: int, today: int) returns (reliability: real)
    ensures reliability == ReliabilityOf(Age(loco, currentYear), loco.operatingHours, DaysSince(loco, today), loco.currentStatus)
    ensures 0.0 <= reliability <= 100.0
  {
    var age := Age(loco, currentYear);
    reliability := 100.0;
    var ageFactor := MinR(30.0, age as real * 1.5);
    reliability := reliability - ageFactor;
    var usageFactor := MinR(20.0, loco.operatingHours as real / 10000.0 * 2.0);
    reliability := reliability - usageFactor;
    match loco.lastMaintenance {
      case Some(d) =>
        var daysSince := today - d;
        if daysSince > 90 {
          var maintenanceFactor := MinR(15.0, (daysSince - 90) as real * 0.1);
          reliability := reliability - maintenanceFactor;
        }
      case None =>
        reliability := reliability - 15.0;
    }
    if loco.currentStatus == "repair" {
      reliability := reliability - 25.0;
    } else if loco.currentStatus == "maintenance" {
      reliability := reliability - 10.0;
    }
    reliability := MaxR(0.0, MinR(100.0, reliability));
  }

  // ---------------------------------------------------------------------
  // Maintenance items.

  datatype MaintenanceKind = EngineOverhaul | TransmissionService | RoutineMaintenance | ComprehensiveInspection
  datatype MaintenanceItem = MaintenanceItem(kind: MaintenanceKind, priority: Level)

  function KindRank(k: MaintenanceKind): nat
  {
    match k
    case EngineOverhaul => 0
    case TransmissionService => 1
    case RoutineMaintenance => 2
    case ComprehensiveInspection => 3
  }

  predicate HasKind(items: seq<MaintenanceItem>, k: MaintenanceKind)
  {
    exists i :: 0 <= i < |items| && items[i].kind == k
  }

  predicate RoutineDue(days: Option<int>)
  {
    days.None? || days.value > 90
  }

  function Optional(present: bool, item: MaintenanceItem): seq<MaintenanceItem>
  {
    if present then [item] else []
  }

  /** The items that get_maintenance_recommendations lists, as one value. */
  function MaintenanceItemsOf(age: int, hours: int, days: Option<int>, score: real): (items: seq<MaintenanceItem>)
    ensures |items| <= 4
  {
    Optional(age > 20, MaintenanceItem(EngineOverhaul, if age > 25 then High else Medium))
    + Optional(hours > 50000, MaintenanceItem(TransmissionService, High))
    + Optional(RoutineDue(days), MaintenanceItem(RoutineMaintenance, High))
    + Optional(score > 60.0, MaintenanceItem(ComprehensiveInspection, High))
  }

  lemma HasKindConcat(a: seq<MaintenanceItem>, b: seq<MaintenanceItem>, k: MaintenanceKind)
    ensures HasKind(a + b, k) <==> HasKind(a, k) || HasKind(b, k)
  {
    if HasKind(a + b, k) {
      var i :| 0 <= i < |a + b| && (a + b)[i].kind == k;
      if i >= |a| { assert b[i - |a|].kind == k; }
    }
    if HasKind(a, k) {
      var i :| 0 <= i < |a| && a[i].kind == k;
      assert (a + b)[i].kind == k;
    }
    if HasKind(b, k) {
      var i :| 0 <= i < |b| && b[i].kind == k;
      assert (a + b)[|a| + i].kind == k;
    }
  }

  /** The items come in the fixed order overhaul, transmission, routine,
      inspection, so there are never two of a kind. */
  lemma MaintenanceItemsOrdered(age: int, hours: int, days: Option<int>, score: real)
    ensures var items := MaintenanceItemsOf(age, hours, days, score);
      forall i, j :: 0 <= i < j < |items| ==> KindRank(items[i].kind) < KindRank(items[j].kind)
  {
  }

  /** Each item is listed exactly when its condition holds. */
  lemma MaintenanceItemsPresence(age: int, hours: int, days: Option<int>, score: real)
    ensures var items := MaintenanceItemsOf(age, hours, days, score);
      && (HasKind(items, EngineOverhaul) <==> age > 20)
      && (HasKind(items, TransmissionService) <==> hours > 50000)
      && (HasKind(items, RoutineMaintenance) <==> RoutineDue(days))
      && (HasKind(items, ComprehensiveInspection) <==> score > 60.0)
  {
    var p1 := Optional(age > 20, MaintenanceItem(EngineOverhaul, if age > 25 then High else Medium));
    var p2 := Optional(hours > 50000, MaintenanceItem(TransmissionService, High));
    var p3 := Optional(RoutineDue(days), MaintenanceItem(RoutineMaintenance, High));
    var p4 := Optional(score > 60.0, MaintenanceItem(ComprehensiveInspection, High));
    forall k: MaintenanceKind
      ensures HasKind(p1 + p2 + p3 + p4, k) <==> HasKind(p1, k) || HasKind(p2, k) || HasKind(p3, k) || HasKind(p4, k)
    {
      HasKindConcat(p1 + p2 + p3, p4, k);
      HasKindConcat(p1 + p2, p3, k);
      HasKindConcat(p1, p2, k);
    }
    if age > 20 { assert p1[0].kind == EngineOverhaul; }
    if hours > 50000 { assert p2[0].kind == TransmissionService; }
    if RoutineDue(days) { assert p3[0].kind == RoutineMaintenance; }
    if score > 60.0 { assert p4[0].kind == ComprehensiveInspection; }
  }

  /** Only the overhaul can be Medium; it is High exactly past 25 years. */
  lemma MaintenanceItemsPriority(age: int, hours: int, days: Option<int>, score: real)
    ensures var items := MaintenanceItemsOf(age, hours, days, score);
      && (forall i :: 0 <= i < |items| && items[i].kind == EngineOverhaul ==> (items[i].priority == High <==> age > 25))
      && (forall i :: 0 <= i < |items| && items[i].kind != EngineOverhaul ==> items[i].priority == High)
  {
  }

  /** Appends each item whose condition holds, as the source does. */
  method MaintenanceRecommendations(loco: Locomotive, currentYear: int, today: int) returns (items: seq<MaintenanceItem>)
    ensures items == MaintenanceItemsOf(Age(loco, currentYear), loco.operatingHours, DaysSince(loco, today),
                                        CalculateRiskScore(loco, currentYear, today))
  {
    items := [];
    var score := CalculateRiskScore(loco, currentYear, today);
    var age := Age(loco, currentYear);
    if age > 20 {
      items := items + [MaintenanceItem(EngineOverhaul, if age > 25 then High else Medium)];
    }
    if loco.operatingHours > 50000 {
      items := items + [MaintenanceItem(TransmissionService, High)];
    }
    if loco.lastMaintenance.None? || today - loco.lastMaintenance.value > 90 {
      items := items + [MaintenanceItem(RoutineMaintenance, High)];
    }
    if score > 60.0 {
      items := items + [MaintenanceItem(ComprehensiveInspection, High)];
    }
  }

  // ---------------------------------------------------------------------
  // Fleet statistics.

  function CountStatus(fleet: seq<Locomotive>, status: string): (n: nat)
    ensures n <= |fleet|
  {
    if fleet == [] then 0
    else (if fleet[0].currentStatus == status then 1 else 0) + CountStatus(fleet[1..], status)
  }

  /** Share of active locomotives in percent, one decimal, 0 for an empty fleet. */
  function Utilisation(active: nat, total: nat): (u: real)
  {
    if total > 0 then Round1(active as real / total as real * 100.0) else 0.0
  }

  /** The utilisation is the active share to within half a unit of the
      first decimal, and always a percentage. */
  lemma UtilisationBounds(active: nat, total: nat)
    requires active <= total
    ensures 0.0 <= Utilisation(active, total) <= 100.0
    ensures total == 0 ==> Utilisation(active, total) == 0.0
    ensures total > 0 ==> var rate := active as real / total as real * 100.0;
      rate - 0.05 < Utilisation(active, total) <= rate + 0.05
  {
    if total > 0 {
      var x := active as real / total as real * 100.0;
      assert active as real / total as real <= 1.0;
      Round1Within(x, 0, 100);
      Round1IsClose(x);
    }
  }

  datatype FleetStatistics = FleetStatistics(total: nat, active: nat, maintenance: nat, repair: nat, retired: nat, utilisation: real)

  function FleetStatisticsOf(fleet: seq<Locomotive>): (st: FleetStatistics)
    ensures st.total == |fleet|
    ensures st.active + st.maintenance + st.repair + st.retired <= st.total
    ensures 0.0 <= st.utilisation <= 100.0
  {
    var active := CountStatus(fleet, "active");
    StatusCountsBounded(fleet);
    UtilisationBounds(active, |fleet|);
    FleetStatistics(|fleet|, active, CountStatus(fleet, "maintenance"),
                    CountStatus(fleet, "repair"), CountStatus(fleet, "retired"),
                    Utilisation(active, |fleet|))
  }

  /** Each locomotive has one status, so the four status counts never exceed the fleet. */
  lemma {:induction false} StatusCountsBounded(fleet: seq<Locomotive>)
    ensures CountStatus(fleet, "active") + CountStatus(fleet, "maintenance")
            + CountStatus(fleet, "repair") + CountStatus(fleet, "retired") <= |fleet|
  {
    if fleet != [] {
      StatusCountsBounded(fleet[1..]);
    }
  }
}
