/** The report generators: fleet overview, maintenance schedule,
    utilisation analysis, failure predictions, risk assessment and
    maintenance planning. Each walks the fleet once, bucketing or scoring
    every locomotive, and then orders what it collected. The fleet is a
    sequence (the query result) and the clock a parameter. */
module Reports {
  import opened Common
  import opened Locomotives
  import opened Sorting
  import opened Counting
  import MlFeatures
  import MlService

  // ---------------------------------------------------------------------
  // Fleet overview: status counts, model distribution, age groups.

  datatype StatusCounts = StatusCounts(total: nat, active: nat, maintenance: nat, repair: nat, retired: nat)

  /** The overview's status counts are the same counts the fleet
      statistics report, and no locomotive is counted twice. */
  function OverviewStats(fleet: seq<Locomotive>): (st: StatusCounts)
    ensures st.total == |fleet|
    ensures var fs := FleetStatisticsOf(fleet);
            st.active == fs.active && st.maintenance == fs.maintenance
            && st.repair == fs.repair && st.retired == fs.retired
    ensures st.active + st.maintenance + st.repair + st.retired <= st.total
  {
    StatusCountsBounded(fleet);
    StatusCounts(|fleet|, CountStatus(fleet, "active"), CountStatus(fleet, "maintenance"),
                 CountStatus(fleet, "repair"), CountStatus(fleet, "retired"))
  }

  function ModelOf(loco: Locomotive): string
  {
    loco.model
  }

  /** What the counters hold after counting `prefix`. */
  ghost predicate Tallied(prefix: seq<Locomotive>, models: seq<string>, counts: map<string, nat>)
  {
    && Distinct(models)
    && (forall m :: m in counts <==> m in models)
    && (forall j :: 0 <= j < |prefix| ==> prefix[j].model in counts)
    && (forall m :: m in counts ==> counts[m] == |Select(prefix, ModelOf, m)|)
  }

  /** Counting one more locomotive: a new model gets a key at the end. */
  method Tally(prefix: seq<Locomotive>, x: Locomotive, models: seq<string>, counts: map<string, nat>)
    returns (models': seq<string>, counts': map<string, nat>)
    requires Tallied(prefix, models, counts)
    ensures Tallied(prefix + [x], models', counts')
    ensures models' == if x.model in counts then models else models + [x.model]
  {
    var m := x.model;
    models', counts' := models, counts;
    if m !in counts' {
      models' := models' + [m];
      counts' := counts'[m := 0];
    }
    counts' := counts'[m := counts'[m] + 1];
    TallyStep(prefix, x, models, counts, models', counts');
  }

  /** The counters after one more locomotive hold the counts of the longer prefix. */
  lemma TallyStep(prefix: seq<Locomotive>, x: Locomotive, models: seq<string>, counts: map<string, nat>,
                  models': seq<string>, counts': map<string, nat>)
    requires Tallied(prefix, models, counts)
    requires models' == if x.model in counts then models else models + [x.model]
    requires counts' == counts[x.model := if x.model in counts then counts[x.model] + 1 else 1]
    ensures Tallied(prefix + [x], models', counts')
  {
    TallyKeys(prefix, x, models, counts, models', counts');
    if x.model !in counts {
      assert forall i :: 0 <= i < |prefix| ==> ModelOf(prefix[i]) != x.model by {
        assert forall i :: 0 <= i < |prefix| ==> prefix[i].model in counts;
      }
      SelectNone(prefix, ModelOf, x.model);
    }
    TallyCounts(prefix, x, counts, counts');
  }

  /** The keys after one more locomotive: still distinct, still those of
      the map, and now covering the new locomotive's model too. */
  lemma TallyKeys(prefix: seq<Locomotive>, x: Locomotive, models: seq<string>, counts: map<string, nat>,
                  models': seq<string>, counts': map<string, nat>)
    requires Distinct(models) && (forall m :: m in counts <==> m in models)
    requires forall j :: 0 <= j < |prefix| ==> prefix[j].model in counts
    requires models' == if x.model in counts then models else models + [x.model]
    requires counts' == counts[x.model := if x.model in counts then counts[x.model] + 1 else 1]
    ensures Distinct(models') && (forall m :: m in counts' <==> m in models')
    ensures forall j :: 0 <= j < |prefix + [x]| ==> (prefix + [x])[j].model in counts'
  {
    if x.model !in counts {
      assert x.model !in models;
      assert forall i :: 0 <= i < |models| ==> models'[i] == models[i];
    }
    forall j | 0 <= j < |prefix + [x]| ensures (prefix + [x])[j].model in counts' {
      if j < |prefix| {
        assert (prefix + [x])[j] == prefix[j];
      }
    }
  }

  /** The counts after one more locomotive: one more under its model. */
  lemma TallyCounts(prefix: seq<Locomotive>, x: Locomotive, counts: map<string, nat>, counts': map<string, nat>)
    requires forall m :: m in counts ==> counts[m] == |Select(prefix, ModelOf, m)|
    requires x.model !in counts ==> Select(prefix, ModelOf, x.model) == []
    requires counts' == counts[x.model := if x.model in counts then counts[x.model] + 1 else 1]
    ensures forall m :: m in counts' ==> counts'[m] == |Select(prefix + [x], ModelOf, m)|
  {
    forall m | m in counts'
      ensures counts'[m] == |Select(prefix + [x], ModelOf, m)|
    {
      SelectSnoc(prefix, x, ModelOf, m);
    }
  }

  lemma TalliedAddsUp(fleet: seq<Locomotive>, models: seq<string>, counts: map<string, nat>)
    requires Tallied(fleet, models, counts)
    ensures SumCounts(fleet, ModelOf, models) == |fleet|
  {
    forall j | 0 <= j < |fleet|
      ensures ModelOf(fleet[j]) in models
    {
      assert fleet[j].model in counts;
    }
    CountsPartition(fleet, ModelOf, models);
  }

  /** The model distribution: one counter per model, keys in order of
      first appearance, every locomotive counted under its own model, so
      the counters add up to the fleet size. */
  method ModelDistribution(fleet: seq<Locomotive>) returns (models: seq<string>, counts: map<string, nat>)
    ensures Distinct(models)
    ensures forall m :: m in counts <==> m in models
    ensures forall i :: 0 <= i < |fleet| ==> fleet[i].model in counts
    ensures forall m :: m in counts ==> counts[m] == |Select(fleet, ModelOf, m)|
    ensures SumCounts(fleet, ModelOf, models) == |fleet|
  {
    models := [];
    counts := map[];
    var i := 0;
    while i < |fleet|
      invariant 0 <= i <= |fleet|
      invariant Tallied(fleet[..i], models, counts)
    {
      models, counts := Tally(fleet[..i], fleet[i], models, counts);
      TakeOneMore(fleet, i);
      i := i + 1;
    }
    assert fleet[..|fleet|] == fleet;
    TalliedAddsUp(fleet, models, counts);
  }

  datatype AgeGroup = UpTo10 | From11To20 | From21To30 | Over30

  function AgeGroupOf(age: int): (g: AgeGroup)
    ensures g == UpTo10 <==> age <= 10
    ensures g == From11To20 <==> 10 < age <= 20
    ensures g == From21To30 <==> 20 < age <= 30
    ensures g == Over30 <==> age > 30
  {
    if age <= 10 then UpTo10 else if age <= 20 then From11To20 else if age <= 30 then From21To30 else Over30
  }

  function AgeGroupKey(currentYear: int): Locomotive -> AgeGroup
  {
    loco => AgeGroupOf(Age(loco, currentYear))
  }

  datatype AgeGroupCounts = AgeGroupCounts(upTo10: nat, from11To20: nat, from21To30: nat, over30: nat)

  /** The four counters hold the sizes of the four age groups of prefix. */
  ghost predicate AgesTallied(prefix: seq<Locomotive>, currentYear: int, groups: AgeGroupCounts)
  {
    var key := AgeGroupKey(currentYear);
    && groups.upTo10 == |Select(prefix, key, UpTo10)|
    && groups.from11To20 == |Select(prefix, key, From11To20)|
    && groups.from21To30 == |Select(prefix, key, From21To30)|
    && groups.over30 == |Select(prefix, key, Over30)|
  }

  /** Bumping the counter of one locomotive's age group. */
  method CountAge(prefix: seq<Locomotive>, loco: Locomotive, currentYear: int, groups: AgeGroupCounts)
    returns (groups': AgeGroupCounts)
    requires AgesTallied(prefix, currentYear, groups)
    ensures AgesTallied(prefix + [loco], currentYear, groups')
  {
    var key := AgeGroupKey(currentYear);
    SelectSnoc(prefix, loco, key, UpTo10);
    SelectSnoc(prefix, loco, key, From11To20);
    SelectSnoc(prefix, loco, key, From21To30);
    SelectSnoc(prefix, loco, key, Over30);
    match AgeGroupOf(Age(loco, currentYear)) {
      case UpTo10 => groups' := groups.(upTo10 := groups.upTo10 + 1);
      case From11To20 => groups' := groups.(from11To20 := groups.from11To20 + 1);
      case From21To30 => groups' := groups.(from21To30 := groups.from21To30 + 1);
      case Over30 => groups' := groups.(over30 := groups.over30 + 1);
    }
  }

  /** Every locomotive falls in one of the four age groups, so the group
      sizes add up to the fleet. */
  lemma AgeCountsAddUp(fleet: seq<Locomotive>, currentYear: int)
    ensures var key := AgeGroupKey(currentYear);
      |Select(fleet, key, UpTo10)| + |Select(fleet, key, From11To20)|
      + |Select(fleet, key, From21To30)| + |Select(fleet, key, Over30)| == |fleet|
  {
    var key := AgeGroupKey(currentYear);
    forall j | 0 <= j < |fleet|
      ensures key(fleet[j]) == UpTo10 || key(fleet[j]) == From11To20 || key(fleet[j]) == From21To30 || key(fleet[j]) == Over30
    {
      match key(fleet[j]) { case UpTo10 => case From11To20 => case From21To30 => case Over30 => }
    }
    FourWayCounts(fleet, key, UpTo10, From11To20, From21To30, Over30);
  }

  /** One counter per age group; each counter is the size of its group
      and, the groups being a partition, the four add up to the fleet. */
  method AgeDistribution(fleet: seq<Locomotive>, currentYear: int) returns (groups: AgeGroupCounts)
    ensures groups.upTo10 == |Select(fleet, AgeGroupKey(currentYear), UpTo10)|
    ensures groups.from11To20 == |Select(fleet, AgeGroupKey(currentYear), From11To20)|
    ensures groups.from21To30 == |Select(fleet, AgeGroupKey(currentYear), From21To30)|
    ensures groups.over30 == |Select(fleet, AgeGroupKey(currentYear), Over30)|
    ensures groups.upTo10 + groups.from11To20 + groups.from21To30 + groups.over30 == |fleet|
  {
    groups := AgeGroupCounts(0, 0, 0, 0);
    var i := 0;
    while i < |fleet|
      invariant 0 <= i <= |fleet|
      invariant AgesTallied(fleet[..i], currentYear, groups)
    {
      groups := CountAge(fleet[..i], fleet[i], currentYear, groups);
      TakeOneMore(fleet, i);
      i := i + 1;
    }
    assert fleet[..|fleet|] == fleet;
    AgeCountsAddUp(fleet, currentYear);
  }

  // ---------------------------------------------------------------------
  // Maintenance schedule.

  /** Priority from age and hours alone. */
  function BasePriority(age: int, hours: int): (p: Level)
    ensures p == High <==> age > 25 || hours > 50000
    ensures p == Medium <==> !(age > 25 || hours > 50000) && (age > 20 || hours > 40000)
  {
    if age > 25 || hours > 50000 then High
    else if age > 20 || hours > 40000 then Medium
    else Low
  }

  /** More than 60 days since maintenance forces High and more than 30
      forces Medium, even over a High base; no record (or 0 days) leaves
      the base priority. */
  function SchedulePriority(age: int, hours: int, days: Option<int>): (p: Level)
    ensures days.Some? && days.value > 60 ==> p == High
    ensures days.Some? && 30 < days.value <= 60 ==> p == Medium
    ensures days.None? || days.value <= 30 ==> p == BasePriority(age, hours)
  {
    var base := BasePriority(age, hours);
    match days
    case None => base
    case Some(d) =>
      if d != 0 && d > 60 then High
      else if d != 0 && d > 30 then Medium
      else base
  }

  datatype ScheduleEntry = ScheduleEntry(loco: Locomotive, daysSinceMaintenance: Option<int>, priority: Level)

  function ScheduleEntryOf(loco: Locomotive, currentYear: int, today: int): ScheduleEntry
  {
    var days := DaysSince(loco, today);
    ScheduleEntry(loco, days, SchedulePriority(Age(loco, currentYear), loco.operatingHours, days))
  }

  function ScheduleEntries(fleet: seq<Locomotive>, currentYear: int, today: int): (entries: seq<ScheduleEntry>)
    ensures |entries| == |fleet|
    ensures forall i :: 0 <= i < |fleet| ==> entries[i] == ScheduleEntryOf(fleet[i], currentYear, today)
  {
    seq(|fleet|, i requires 0 <= i < |fleet| => ScheduleEntryOf(fleet[i], currentYear, today))
  }

  function EntryPriority(e: ScheduleEntry): Level
  {
    e.priority
  }

  /** The sort position of a priority: High 1, Medium 2, Low 3. */
  function PriorityRank(p: Level): nat
  {
    match p
    case High => 1
    case Medium => 2
    case Low => 3
  }

  /** A stable sort on the priority rank: the High entries, then the
      Medium ones, then the Low ones, each group in its original order. */
  function ByPriority(entries: seq<ScheduleEntry>): (r: seq<ScheduleEntry>)
  {
    Select(entries, EntryPriority, High) + Select(entries, EntryPriority, Medium)
    + Select(entries, EntryPriority, Low)
  }

  /** Where each priority sits in the sorted schedule: the High entries
      first, then the Medium ones, then the Low ones. */
  lemma ByPriorityBlocks(entries: seq<ScheduleEntry>)
    ensures var h, m := Select(entries, EntryPriority, High), Select(entries, EntryPriority, Medium);
            var r := ByPriority(entries);
      && (forall k :: 0 <= k < |h| ==> r[k].priority == High)
      && (forall k :: |h| <= k < |h| + |m| ==> r[k].priority == Medium)
      && (forall k :: |h| + |m| <= k < |r| ==> r[k].priority == Low)
  {
    var h, m, l := Select(entries, EntryPriority, High), Select(entries, EntryPriority, Medium),
                   Select(entries, EntryPriority, Low);
    var r := ByPriority(entries);
    assert r == h + m + l;
    forall k | 0 <= k < |h| ensures r[k].priority == High { assert r[k] == h[k]; }
    forall k | |h| <= k < |h| + |m| ensures r[k].priority == Medium { assert r[k] == m[k - |h|]; }
    forall k | |h| + |m| <= k < |r| ensures r[k].priority == Low { assert r[k] == l[k - |h| - |m|]; }
  }

  /** The priority sort orders by rank and is a permutation. */
  lemma ByPrioritySortedPermutation(entries: seq<ScheduleEntry>)
    ensures var r := ByPriority(entries);
      && |r| == |entries|
      && multiset(r) == multiset(entries)
      && forall i, j :: 0 <= i < j < |r| ==> PriorityRank(r[i].priority) <= PriorityRank(r[j].priority)
  {
    var r := ByPriority(entries);
    forall i | 0 <= i < |entries|
      ensures EntryPriority(entries[i]) == High || EntryPriority(entries[i]) == Medium || EntryPriority(entries[i]) == Low
    {
      match entries[i].priority {
        case High =>
        case Medium =>
        case Low =>
      }
    }
    ThreeWayPermutation(entries, EntryPriority, High, Medium, Low);
    assert |r| == |multiset(r)| == |multiset(entries)| == |entries|;
    ByPriorityBlocks(entries);
  }

  /** The schedule: one entry per locomotive, sorted by priority. */
  method MaintenanceSchedule(fleet: seq<Locomotive>, currentYear: int, today: int)
    returns (due: seq<ScheduleEntry>)
    ensures due == ByPriority(ScheduleEntries(fleet, currentYear, today))
    ensures |due| == |fleet| && multiset(due) == multiset(ScheduleEntries(fleet, currentYear, today))
    ensures forall i, j :: 0 <= i < j < |due| ==> PriorityRank(due[i].priority) <= PriorityRank(due[j].priority)
  {
    var entries: seq<ScheduleEntry> := [];
    var i := 0;
    while i < |fleet|
      invariant 0 <= i <= |fleet|
      invariant entries == ScheduleEntries(fleet[..i], currentYear, today)
    {
      var loco := fleet[i];
      var days: Option<int> := None;
      if loco.lastMaintenance.Some? {
        days := Some(today - loco.lastMaintenance.value);
      }
      var age := Age(loco, currentYear);
      var priority := Low;
      if age > 25 || loco.operatingHours > 50000 {
        priority := High;
      } else if age > 20 || loco.operatingHours > 40000 {
        priority := Medium;
      }
      if days.Some? && days.value != 0 && days.value > 60 {
        priority := High;
      } else if days.Some? && days.value != 0 && days.value > 30 {
        priority := Medium;
      }
      entries := entries + [ScheduleEntry(loco, days, priority)];
      i := i + 1;
    }
    assert fleet[..|fleet|] == fleet;
    due := ByPriority(entries);
    ByPrioritySortedPermutation(entries);
  }

  // ---------------------------------------------------------------------
  // Utilisation analysis.

  /** 100 less two points a year of age and one per thousand hours,
      clamped to [0, 100]. */
  function UtilisationRate(age: int, hours: int): (u: real)
    ensures 0.0 <= u <= 100.0
    ensures var raw := 100.0 - (age * 2) as real - hours as real / 1000.0;
            (0.0 <= raw <= 100.0 ==> u == raw) && (raw < 0.0 ==> u == 0.0) && (raw > 100.0 ==> u == 100.0)
  {
    MinR(100.0, MaxR(0.0, 100.0 - (age * 2) as real - hours as real / 1000.0))
  }

  function UtilisationStatus(rate: real): (status: Level)
    ensures status == High <==> rate >= 80.0
    ensures status == Medium <==> 60.0 <= rate < 80.0
    ensures status == Low <==> rate < 60.0
  {
    if rate >= 80.0 then High else if rate >= 60.0 then Medium else Low
  }

  datatype UtilisationEntry = UtilisationEntry(loco: Locomotive, utilisationRate: real, status: Level)

  /** The stored rate is rounded to one decimal; the status is read from
      the unrounded rate. */
  function UtilisationEntryOf(loco: Locomotive, currentYear: int): (e: UtilisationEntry)
    ensures 0.0 <= e.utilisationRate <= 100.0
    ensures e.status == UtilisationStatus(UtilisationRate(Age(loco, currentYear), loco.operatingHours))
  {
    var rate := UtilisationRate(Age(loco, currentYear), loco.operatingHours);
    Round1Within(rate, 0, 100);
    UtilisationEntry(loco, Round1(rate), UtilisationStatus(rate))
  }

  function UtilisationEntries(fleet: seq<Locomotive>, currentYear: int): (entries: seq<UtilisationEntry>)
    ensures |entries| == |fleet|
    ensures forall i :: 0 <= i < |fleet| ==> entries[i] == UtilisationEntryOf(fleet[i], currentYear)
  {
    seq(|fleet|, i requires 0 <= i < |fleet| => UtilisationEntryOf(fleet[i], currentYear))
  }

  function RateKey(e: UtilisationEntry): real
  {
    e.utilisationRate
  }

  /** The utilisation list, highest rate first; every rate lies in [0, 100]. */
  method UtilisationAnalysis(fleet: seq<Locomotive>, currentYear: int) returns (data: seq<UtilisationEntry>)
    ensures data == SortDesc(UtilisationEntries(fleet, currentYear), RateKey)
    ensures SortedDesc(data, RateKey) && multiset(data) == multiset(UtilisationEntries(fleet, currentYear))
    ensures forall i :: 0 <= i < |data| ==> 0.0 <= data[i].utilisationRate <= 100.0
  {
    var entries: seq<UtilisationEntry> := [];
    var i := 0;
    while i < |fleet|
      invariant 0 <= i <= |fleet|
      invariant entries == UtilisationEntries(fleet[..i], currentYear)
    {
      var rate := UtilisationRate(Age(fleet[i], currentYear), fleet[i].operatingHours);
      Round1Within(rate, 0, 100);
      entries := entries + [UtilisationEntry(fleet[i], Round1(rate), UtilisationStatus(rate))];
      i := i + 1;
    }
    assert fleet[..|fleet|] == fleet;
    data := SortDesc(entries, RateKey);
    forall i | 0 <= i < |data|
      ensures 0.0 <= data[i].utilisationRate <= 100.0
    {
      assert data[i] in multiset(entries);
    }
  }

  // ---------------------------------------------------------------------
  // Failure predictions: the report's own risk formula.

  /** Age counts two points a year up to 50, hours one point per thousand
      up to 30, days since maintenance one point per three days up to 20;
      a missing record adds nothing. */
  function FailureRisk(age: int, hours: int, days: Option<int>): (score: real)
    ensures score <= 100.0
    ensures age >= 0 && hours >= 0 && (days.Some? ==> days.value >= 0) ==> score >= 0.0
  {
    var maintenanceFactor := match days
      case None => 0.0
      case Some(d) => MinR(20.0, d as real / 3.0);
    MinR(100.0, MinR(50.0, (age * 2) as real) + MinR(30.0, hours as real / 1000.0) + maintenanceFactor)
  }

  /** Here a missing record scores like maintenance done today. */
  lemma FailureRiskMissingRecord(age: int, hours: int)
    ensures FailureRisk(age, hours, None) == FailureRisk(age, hours, Some(0))
  {
  }

  /** Against the locomotive's own score: with a record the report never
      scores lower, since hours and days weigh more; without one it never
      scores higher, since the 20 points of the missing record are gone. */
  lemma FailureRiskAgainstCoreScore(age: int, hours: int, days: Option<int>)
    requires hours >= 0 && (days.Some? ==> days.value >= 0)
    ensures days.Some? ==> RiskScoreOf(age, hours, days) <= FailureRisk(age, hours, days)
    ensures days.None? ==> FailureRisk(age, hours, days) <= RiskScoreOf(age, hours, days)
  {
  }

  datatype FailureAdvice = EngineOverhaulRecommended | TransmissionServiceRequired | RoutineMaintenanceOverdue

  /** Engine overhaul past 20 years, transmission service past 50000
      hours, routine maintenance when unrecorded or more than 90 days ago. */
  function FailureAdviceOf(age: int, hours: int, days: Option<int>): (advice: seq<FailureAdvice>)
    ensures |advice| <= 3
    ensures EngineOverhaulRecommended in advice <==> age > 20
    ensures TransmissionServiceRequired in advice <==> hours > 50000
    ensures RoutineMaintenanceOverdue in advice <==> days.None? || days.value > 90
    ensures forall i, j :: 0 <= i < j < |advice| ==> advice[i] != advice[j]
  {
    (if age > 20 then [EngineOverhaulRecommended] else [])
    + (if hours > 50000 then [TransmissionServiceRequired] else [])
    + (if days.None? || days.value > 90 then [RoutineMaintenanceOverdue] else [])
  }

  datatype FailureEntry = FailureEntry(loco: Locomotive, riskScore: real, riskLevel: Level, recommendations: seq<FailureAdvice>)

  /** The stored score is rounded to one decimal; the level is read from
      the unrounded score. */
  function FailureEntryOf(loco: Locomotive, currentYear: int, today: int): FailureEntry
  {
    var age, days := Age(loco, currentYear), DaysSince(loco, today);
    var score := FailureRisk(age, loco.operatingHours, days);
    FailureEntry(loco, Round1(score), LevelOf(score), FailureAdviceOf(age, loco.operatingHours, days))
  }

  function FailureEntries(fleet: seq<Locomotive>, currentYear: int, today: int): (entries: seq<FailureEntry>)
    ensures |entries| == |fleet|
    ensures forall i :: 0 <= i < |fleet| ==> entries[i] == FailureEntryOf(fleet[i], currentYear, today)
  {
    seq(|fleet|, i requires 0 <= i < |fleet| => FailureEntryOf(fleet[i], currentYear, today))
  }

  function FailureScoreKey(e: FailureEntry): real
  {
    e.riskScore
  }

  /** The failure list, highest score first, each entry with at most three
      recommendations. */
  method FailurePredictions(fleet: seq<Locomotive>, currentYear: int, today: int)
    returns (assessment: seq<FailureEntry>)
    ensures assessment == SortDesc(FailureEntries(fleet, currentYear, today), FailureScoreKey)
    ensures SortedDesc(assessment, FailureScoreKey)
    ensures multiset(assessment) == multiset(FailureEntries(fleet, currentYear, today))
    ensures forall i :: 0 <= i < |assessment| ==> |assessment[i].recommendations| <= 3
  {
    var entries: seq<FailureEntry> := [];
    var i := 0;
    while i < |fleet|
      invariant 0 <= i <= |fleet|
      invariant entries == FailureEntries(fleet[..i], currentYear, today)
    {
      entries := entries + [FailureEntryOf(fleet[i], currentYear, today)];
      i := i + 1;
    }
    assert fleet[..|fleet|] == fleet;
    assessment := SortDesc(entries, FailureScoreKey);
    forall i | 0 <= i < |assessment|
      ensures |assessment[i].recommendations| <= 3
    {
      assert assessment[i] in multiset(entries);
    }
  }

  // ---------------------------------------------------------------------
  // Risk assessment and maintenance planning, from the prediction service.

  /** The risk figures of one locomotive, from an 'all' prediction over 365 days. */
  function AssessmentOf(models: Option<MlFeatures.ModelBundle>, loco: Locomotive, clock: Clock): MlService.PredictionResult
  {
    MlService.PerformanceOf(models, loco, "all", 365, clock)
  }

  datatype AssessmentEntry = AssessmentEntry(
    loco: Locomotive,
    riskScore: real,
    riskLevel: Level,
    reliabilityCategory: MlFeatures.ReliabilityCategory,
    age: int,
    operatingHours: int,
    status: string)

  function AssessmentEntryOf(loco: Locomotive, result: MlService.PredictionResult, currentYear: int): AssessmentEntry
  {
    AssessmentEntry(loco, result.riskScore, result.riskLevel, result.reliabilityCategory,
                    Age(loco, currentYear), loco.operatingHours, loco.currentStatus)
  }

  function AssessmentEntries(models: Option<MlFeatures.ModelBundle>, fleet: seq<Locomotive>, clock: Clock): (entries: seq<AssessmentEntry>)
    ensures |entries| == |fleet|
    ensures forall i :: 0 <= i < |fleet| ==> entries[i] == AssessmentEntryOf(fleet[i], AssessmentOf(models, fleet[i], clock), clock.year)
  {
    seq(|fleet|, i requires 0 <= i < |fleet| => AssessmentEntryOf(fleet[i], AssessmentOf(models, fleet[i], clock), clock.year))
  }

  function AssessmentLevel(e: AssessmentEntry): Level
  {
    e.riskLevel
  }

  function AssessmentScoreKey(e: AssessmentEntry): real
  {
    e.riskScore
  }

  lemma AssessmentEntriesSnoc(models: Option<MlFeatures.ModelBundle>, prefix: seq<Locomotive>, loco: Locomotive, clock: Clock)
    ensures AssessmentEntries(models, prefix + [loco], clock)
            == AssessmentEntries(models, prefix, clock) + [AssessmentEntryOf(loco, AssessmentOf(models, loco, clock), clock.year)]
  {
  }

  /** The three counters hold the sizes of the three level classes. */
  ghost predicate LevelsTallied(entries: seq<AssessmentEntry>, high: nat, medium: nat, low: nat)
  {
    && high == |Select(entries, AssessmentLevel, High)|
    && medium == |Select(entries, AssessmentLevel, Medium)|
    && low == |Select(entries, AssessmentLevel, Low)|
  }

  /** Bumping the counter of an entry's level. */
  method CountLevel(entries: seq<AssessmentEntry>, entry: AssessmentEntry, high: nat, medium: nat, low: nat)
    returns (high': nat, medium': nat, low': nat)
    requires LevelsTallied(entries, high, medium, low)
    ensures LevelsTallied(entries + [entry], high', medium', low')
  {
    high', medium', low' := high, medium, low;
    match entry.riskLevel {
      case High => high' := high + 1;
      case Medium => medium' := medium + 1;
      case Low => low' := low + 1;
    }
    SelectSnoc(entries, entry, AssessmentLevel, High);
    SelectSnoc(entries, entry, AssessmentLevel, Medium);
    SelectSnoc(entries, entry, AssessmentLevel, Low);
  }

  /** Every entry has one of the three levels, so the counts add up. */
  lemma LevelCountsAddUp(entries: seq<AssessmentEntry>)
    ensures |Select(entries, AssessmentLevel, High)| + |Select(entries, AssessmentLevel, Medium)|
            + |Select(entries, AssessmentLevel, Low)| == |entries|
  {
    forall j | 0 <= j < |entries|
      ensures AssessmentLevel(entries[j]) == High || AssessmentLevel(entries[j]) == Medium
              || AssessmentLevel(entries[j]) == Low
    {
      match entries[j].riskLevel {
        case High =>
        case Medium =>
        case Low =>
      }
    }
    ThreeWayCounts(entries, AssessmentLevel, High, Medium, Low);
  }

  datatype RiskReport = RiskReport(
    totalLocomotives: nat,
    highRiskCount: nat,
    mediumRiskCount: nat,
    lowRiskCount: nat,
    riskData: seq<AssessmentEntry>)

  /** One locomotive's entry, from an 'all' prediction over 365 days. */
  method AssessOne(service: MlService.LocomotiveMLService, loco: Locomotive, clock: Clock) returns (entry: AssessmentEntry)
    requires service.Valid()
    ensures entry == AssessmentEntryOf(loco, AssessmentOf(service.models, loco, clock), clock.year)
  {
    var result := service.PredictPerformance(loco, "all", 365, clock);
    entry := AssessmentEntryOf(loco, result, clock.year);
  }

  /** The entries of the first i locomotives, in fleet order. */
  ghost predicate AssessedUpTo(models: Option<MlFeatures.ModelBundle>, fleet: seq<Locomotive>, clock: Clock, i: nat,
                               entries: seq<AssessmentEntry>)
  {
    i <= |fleet| && entries == AssessmentEntries(models, fleet[..i], clock)
  }

  /** One step of the risk-assessment loop: assess the next locomotive and
      append its entry. */
  method AssessNext(service: MlService.LocomotiveMLService, fleet: seq<Locomotive>, clock: Clock, i: nat,
                    entries: seq<AssessmentEntry>)
    returns (entries': seq<AssessmentEntry>, entry: AssessmentEntry)
    requires service.Valid() && i < |fleet|
    requires AssessedUpTo(service.models, fleet, clock, i, entries)
    ensures AssessedUpTo(service.models, fleet, clock, i + 1, entries')
    ensures entries' == entries + [entry]
  {
    entry := AssessOne(service, fleet[i], clock);
    entries' := entries + [entry];
    AssessedStep(service.models, fleet, clock, i, entries, entry);
  }

  lemma AssessedStep(models: Option<MlFeatures.ModelBundle>, fleet: seq<Locomotive>, clock: Clock, i: nat,
                     entries: seq<AssessmentEntry>, entry: AssessmentEntry)
    requires i < |fleet| && AssessedUpTo(models, fleet, clock, i, entries)
    requires entry == AssessmentEntryOf(fleet[i], AssessmentOf(models, fleet[i], clock), clock.year)
    ensures AssessedUpTo(models, fleet, clock, i + 1, entries + [entry])
  {
    TakeOneMore(fleet, i);
    AssessmentEntriesSnoc(models, fleet[..i], fleet[i], clock);
  }

  /** The per-locomotive loop of the risk assessment: one entry per
      locomotive, in fleet order, and one counter bump per entry. */
  method AssessFleet(service: MlService.LocomotiveMLService, fleet: seq<Locomotive>, clock: Clock)
    returns (entries: seq<AssessmentEntry>, high: nat, medium: nat, low: nat)
    requires service.Valid()
    ensures entries == AssessmentEntries(service.models, fleet, clock)
    ensures LevelsTallied(entries, high, medium, low)
  {
    entries := [];
    high, medium, low := 0, 0, 0;
    var i := 0;
    while i < |fleet|
      invariant AssessedUpTo(service.models, fleet, clock, i, entries)
      invariant LevelsTallied(entries, high, medium, low)
    {
      var next, entry := AssessNext(service, fleet, clock, i, entries);
      high, medium, low := CountLevel(entries, entry, high, medium, low);
      entries := next;
      i := i + 1;
    }
    assert fleet[..|fleet|] == fleet;
  }

  /** The risk distribution counts each locomotive once under its level,
      and the list keeps the 50 highest scores. */
  method RiskAssessment(service: MlService.LocomotiveMLService, fleet: seq<Locomotive>, clock: Clock)
    returns (report: RiskReport)
    requires service.Valid()
    ensures var entries := AssessmentEntries(service.models, fleet, clock);
      && report.totalLocomotives == |fleet|
      && report.highRiskCount == |Select(entries, AssessmentLevel, High)|
      && report.mediumRiskCount == |Select(entries, AssessmentLevel, Medium)|
      && report.lowRiskCount == |Select(entries, AssessmentLevel, Low)|
      && report.riskData == Take(SortDesc(entries, AssessmentScoreKey), 50)
    ensures report.highRiskCount + report.mediumRiskCount + report.lowRiskCount == |fleet|
    ensures |report.riskData| <= 50 && SortedDesc(report.riskData, AssessmentScoreKey)
  {
    var entries, high, medium, low := AssessFleet(service, fleet, clock);
    LevelCountsAddUp(entries);
    var sorted := SortDesc(entries, AssessmentScoreKey);
    report := RiskReport(|fleet|, high, medium, low, Take(sorted, 50));
  }

  datatype Tier = Urgent | Scheduled | Routine

  /** Urgent for High risk or more than 90 days, otherwise Scheduled for
      Medium risk or more than 60 days, otherwise Routine. */
  function TierOf(level: Level, days: int): (t: Tier)
    ensures t == Urgent <==> level == High || days > 90
    ensures t == Scheduled <==> !(level == High || days > 90) && (level == Medium || days > 60)
    ensures t == Routine <==> level == Low && days <= 60
  {
    match level
    case High => Urgent
    case Medium => if days > 90 then Urgent else Scheduled
    case Low => if days > 90 then Urgent else if days > 60 then Scheduled else Routine
  }

  /** Days since maintenance for planning: a missing record counts as 0. */
  function PlanningDays(loco: Locomotive, today: int): (days: int)
    ensures loco.lastMaintenance.None? ==> days == 0
    ensures loco.lastMaintenance.Some? ==> days == today - loco.lastMaintenance.value
  {
    match DaysSince(loco, today)
    case None => 0
    case Some(d) => d
  }

  datatype PlanItem = PlanItem(loco: Locomotive, riskScore: real, riskLevel: Level, daysSinceMaintenance: int, tier: Tier)

  /** The plan entry of one locomotive, from its prediction. */
  function PlanItemOf(loco: Locomotive, result: MlService.PredictionResult, today: int): (item: PlanItem)
    ensures item.tier == TierOf(result.riskLevel, PlanningDays(loco, today))
    ensures item.loco == loco && item.riskScore == result.riskScore && item.riskLevel == result.riskLevel
  {
    var days := PlanningDays(loco, today);
    PlanItem(loco, result.riskScore, result.riskLevel, days, TierOf(result.riskLevel, days))
  }

  function PlanItems(models: Option<MlFeatures.ModelBundle>, fleet: seq<Locomotive>, clock: Clock): (items: seq<PlanItem>)
    ensures |items| == |fleet|
    ensures forall i :: 0 <= i < |fleet| ==> items[i] == PlanItemOf(fleet[i], AssessmentOf(models, fleet[i], clock), clock.today)
  {
    seq(|fleet|, i requires 0 <= i < |fleet| => PlanItemOf(fleet[i], AssessmentOf(models, fleet[i], clock), clock.today))
  }

  lemma PlanItemsSnoc(models: Option<MlFeatures.ModelBundle>, prefix: seq<Locomotive>, loco: Locomotive, clock: Clock)
    ensures PlanItems(models, prefix + [loco], clock)
            == PlanItems(models, prefix, clock) + [PlanItemOf(loco, AssessmentOf(models, loco, clock), clock.today)]
  {
  }

  function ItemTier(item: PlanItem): Tier
  {
    item.tier
  }

  function PlanScoreKey(item: PlanItem): real
  {
    item.riskScore
  }

  datatype Plan = Plan(urgent: seq<PlanItem>, scheduled: seq<PlanItem>, routine: seq<PlanItem>, totalLocomotives: nat)

  /** The three buckets hold the items of each tier, in fleet order. */
  ghost predicate Bucketed(items: seq<PlanItem>, urgent: seq<PlanItem>, scheduled: seq<PlanItem>, routine: seq<PlanItem>)
  {
    && urgent == Select(items, ItemTier, Urgent)
    && scheduled == Select(items, ItemTier, Scheduled)
    && routine == Select(items, ItemTier, Routine)
  }

  /** Appending one item to the bucket of its tier. */
  method Push(items: seq<PlanItem>, item: PlanItem, urgent: seq<PlanItem>, scheduled: seq<PlanItem>, routine: seq<PlanItem>)
    returns (urgent': seq<PlanItem>, scheduled': seq<PlanItem>, routine': seq<PlanItem>)
    requires Bucketed(items, urgent, scheduled, routine)
    ensures Bucketed(items + [item], urgent', scheduled', routine')
  {
    urgent', scheduled', routine' := urgent, scheduled, routine;
    match item.tier {
      case Urgent => urgent' := urgent + [item];
      case Scheduled => scheduled' := scheduled + [item];
      case Routine => routine' := routine + [item];
    }
    SelectSnoc(items, item, ItemTier, Urgent);
    SelectSnoc(items, item, ItemTier, Scheduled);
    SelectSnoc(items, item, ItemTier, Routine);
  }

  /** One prediction for one locomotive, turned into its plan entry. */
  method PlanOne(service: MlService.LocomotiveMLService, loco: Locomotive, clock: Clock) returns (item: PlanItem)
    requires service.Valid()
    ensures item == PlanItemOf(loco, AssessmentOf(service.models, loco, clock), clock.today)
  {
    var result := service.PredictPerformance(loco, "all", 365, clock);
    var days := 0;
    if loco.lastMaintenance.Some? {
      days := clock.today - loco.lastMaintenance.value;
    }
    var tier := if result.riskLevel == High || days > 90 then Urgent
                else if result.riskLevel == Medium || days > 60 then Scheduled
                else Routine;
    item := PlanItem(loco, result.riskScore, result.riskLevel, days, tier);
  }

  /** The plan entries of the first i locomotives, in fleet order. */
  ghost predicate PlannedUpTo(models: Option<MlFeatures.ModelBundle>, fleet: seq<Locomotive>, clock: Clock, i: nat,
                              items: seq<PlanItem>)
  {
    i <= |fleet| && items == PlanItems(models, fleet[..i], clock)
  }

  /** One step of the planning loop: plan the next locomotive and append
      its entry. */
  method PlanNext(service: MlService.LocomotiveMLService, fleet: seq<Locomotive>, clock: Clock, i: nat,
                  items: seq<PlanItem>)
    returns (items': seq<PlanItem>, item: PlanItem)
    requires service.Valid() && i < |fleet|
    requires PlannedUpTo(service.models, fleet, clock, i, items)
    ensures PlannedUpTo(service.models, fleet, clock, i + 1, items')
    ensures items' == items + [item]
  {
    item := PlanOne(service, fleet[i], clock);
    items' := items + [item];
    PlannedStep(service.models, fleet, clock, i, items, item);
  }

  lemma PlannedStep(models: Option<MlFeatures.ModelBundle>, fleet: seq<Locomotive>, clock: Clock, i: nat,
                    items: seq<PlanItem>, item: PlanItem)
    requires i < |fleet| && PlannedUpTo(models, fleet, clock, i, items)
    requires item == PlanItemOf(fleet[i], AssessmentOf(models, fleet[i], clock), clock.today)
    ensures PlannedUpTo(models, fleet, clock, i + 1, items + [item])
  {
    TakeOneMore(fleet, i);
    PlanItemsSnoc(models, fleet[..i], fleet[i], clock);
  }

  /** The loop over the fleet: one prediction per locomotive, each entry
      pushed into the bucket of its tier. */
  method BucketFleet(service: MlService.LocomotiveMLService, fleet: seq<Locomotive>, clock: Clock)
    returns (items: seq<PlanItem>, urgent: seq<PlanItem>, scheduled: seq<PlanItem>, routine: seq<PlanItem>)
    requires service.Valid()
    ensures items == PlanItems(service.models, fleet, clock)
    ensures Bucketed(items, urgent, scheduled, routine)
  {
    items, urgent, scheduled, routine := [], [], [], [];
    var i := 0;
    while i < |fleet|
      invariant PlannedUpTo(service.models, fleet, clock, i, items)
      invariant Bucketed(items, urgent, scheduled, routine)
    {
      var next, item := PlanNext(service, fleet, clock, i, items);
      urgent, scheduled, routine := Push(items, item, urgent, scheduled, routine);
      items := next;
      i := i + 1;
    }
    assert fleet[..|fleet|] == fleet;
  }

  /** Every item has one of the three tiers, so the bucket sizes add up. */
  lemma TierCountsAddUp(items: seq<PlanItem>)
    ensures |Select(items, ItemTier, Urgent)| + |Select(items, ItemTier, Scheduled)|
            + |Select(items, ItemTier, Routine)| == |items|
  {
    forall j | 0 <= j < |items|
      ensures ItemTier(items[j]) == Urgent || ItemTier(items[j]) == Scheduled || ItemTier(items[j]) == Routine
    {
      match items[j].tier {
        case Urgent =>
        case Scheduled =>
        case Routine =>
      }
    }
    ThreeWayCounts(items, ItemTier, Urgent, Scheduled, Routine);
  }

  /** Each locomotive lands in exactly one tier; each tier is sorted by
      risk score, highest first, and the three tier counts add up to the
      fleet. */
  method MaintenancePlanning(service: MlService.LocomotiveMLService, fleet: seq<Locomotive>, clock: Clock)
    returns (plan: Plan)
    requires service.Valid()
    ensures var items := PlanItems(service.models, fleet, clock);
      && plan.urgent == SortDesc(Select(items, ItemTier, Urgent), PlanScoreKey)
      && plan.scheduled == SortDesc(Select(items, ItemTier, Scheduled), PlanScoreKey)
      && plan.routine == SortDesc(Select(items, ItemTier, Routine), PlanScoreKey)
    ensures plan.totalLocomotives == |fleet|
    ensures |plan.urgent| + |plan.scheduled| + |plan.routine| == |fleet|
    ensures forall i :: 0 <= i < |plan.urgent| ==> plan.urgent[i].tier == Urgent
    ensures forall i :: 0 <= i < |plan.scheduled| ==> plan.scheduled[i].tier == Scheduled
    ensures forall i :: 0 <= i < |plan.routine| ==> plan.routine[i].tier == Routine
  {
    var items, urgent, scheduled, routine := BucketFleet(service, fleet, clock);
    TierCountsAddUp(items);
    var u, s, r := SortDesc(urgent, PlanScoreKey), SortDesc(scheduled, PlanScoreKey), SortDesc(routine, PlanScoreKey);
    forall k | 0 <= k < |u| ensures u[k].tier == Urgent { assert u[k] in multiset(urgent); }
    forall k | 0 <= k < |s| ensures s[k].tier == Scheduled { assert s[k] in multiset(scheduled); }
    forall k | 0 <= k < |r| ensures r[k].tier == Routine { assert r[k] in multiset(routine); }
    plan := Plan(u, s, r, |fleet|);
  }
}
