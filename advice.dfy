/** Recommendation lists. Each recommendation sentence is a tag: the
    bulk route's copies of the sentences differ from the service's only
    in their character encoding, so both map to the same tag. */
module Advice {
  import opened Locomotives
  import MlFeatures
  import Sorting

  /** What a helper's advice is about. ReliabilityByRisk is the bulk route's
      reliability helper, whose tiers follow the risk level and whose
      wording differs from the service's. */
  datatype Topic = Availability | Distance | DailyDistance | Failures | Reliability | ReliabilityByRisk | FuelEfficiency

  /** The three tiers every helper chooses between, worst first. */
  datatype Grade = Severe | Moderate | Mild

  datatype Season = Winter | Summer | NoSeason

  datatype AgeBand = Over25 | Over20 | Over15
  datatype UsageBand = Over60000 | Over50000

  datatype Rec =
    | Headline(level: Level)                          // the risk-level statement that opens a list
    | TierLine(topic: Topic, grade: Grade, line: nat) // the two tier sentences of a helper
    | AgedLine(topic: Topic)                          // the age > 20 sentence of a helper
    | HighUsageLine(topic: Topic)                     // the hours > 50000 sentence of a helper
    | FuelSeasonLine(season: Season)                  // the fuel helper's seasonal sentence
    | ContinueMonitoring                              // "continue regular maintenance and monitoring"
    | FallbackRiskLine(level: Level, line: nat)
    | FallbackAgeLine(band: AgeBand, line: nat)
    | FallbackUsageLine(usage: UsageBand, line: nat)
    | FallbackSeasonLine(season: Season, line: nat)
    | FleetProtocolLine(model: string)               // the DE10 / DE11 fleet sentence
    | ContinueRegular                                 // the fallback's "continue regular maintenance schedule"

  /** December to February is winter, June to August summer. */
  function SeasonOf(month: int): (s: Season)
    ensures s == Winter <==> month == 12 || month == 1 || month == 2
    ensures s == Summer <==> 6 <= month <= 8
  {
    if month == 12 || month == 1 || month == 2 then Winter
    else if month == 6 || month == 7 || month == 8 then Summer
    else NoSeason
  }

  /** The tier of the risk-keyed helpers. */
  function GradeOfLevel(level: Level): (g: Grade)
    ensures g == Severe <==> level == High
    ensures g == Moderate <==> level == Medium
    ensures g == Mild <==> level == Low
  {
    match level
    case High => Severe
    case Medium => Moderate
    case Low => Mild
  }

  /** The service's reliability helper follows the reliability category:
      Critical, then Low, then anything else. */
  function ReliabilityGrade(c: MlFeatures.ReliabilityCategory): (g: Grade)
    ensures g == Severe <==> c.Critical?
    ensures g == Moderate <==> c.Low?
    ensures g == Mild <==> c.High? || c.Medium?
  {
    match c
    case Critical => Severe
    case Low => Moderate
    case _ => Mild
  }

  /** The fuel helper follows age and hours, not the risk: poor when old
      and heavily used, moderate when either is high, good otherwise. */
  function FuelGrade(age: int, hours: int): (g: Grade)
    ensures g == Severe <==> age > 20 && hours > 50000
    ensures g == Moderate <==> !(age > 20 && hours > 50000) && (age > 15 || hours > 40000)
    ensures g == Mild <==> age <= 15 && hours <= 40000
  {
    if age > 20 && hours > 50000 then Severe
    else if age > 15 || hours > 40000 then Moderate
    else Mild
  }

  predicate HasAgeLine(topic: Topic)
  {
    topic == Availability || topic == DailyDistance || topic == Failures
    || topic == Reliability || topic == ReliabilityByRisk
  }

  predicate HasUsageLine(topic: Topic)
  {
    topic == Distance || topic == Failures
  }

  /** What the helper for a topic returns: its two tier sentences, then
      the age sentence, the usage sentence or the seasonal sentence. */
  function TopicAdvice(topic: Topic, grade: Grade, age: int, hours: int, month: int): (recs: seq<Rec>)
    ensures 2 <= |recs| <= 4
    ensures ContinueMonitoring !in recs
  {
    [TierLine(topic, grade, 0), TierLine(topic, grade, 1)]
    + (if HasAgeLine(topic) && age > 20 then [AgedLine(topic)] else [])
    + (if HasUsageLine(topic) && hours > 50000 then [HighUsageLine(topic)] else [])
    + (if topic == FuelEfficiency && SeasonOf(month) != NoSeason then [FuelSeasonLine(SeasonOf(month))] else [])
  }

  /** Each helper opens with its two tier sentences and adds a conditional
      sentence exactly when its condition holds; the fuel helper adds at
      most one seasonal sentence, and none outside winter and summer. */
  lemma TopicAdviceFacts(topic: Topic, grade: Grade, age: int, hours: int, month: int)
    ensures var recs := TopicAdvice(topic, grade, age, hours, month);
      && recs[0] == TierLine(topic, grade, 0) && recs[1] == TierLine(topic, grade, 1)
      && (AgedLine(topic) in recs <==> HasAgeLine(topic) && age > 20)
      && (HighUsageLine(topic) in recs <==> HasUsageLine(topic) && hours > 50000)
      && (FuelSeasonLine(Winter) in recs <==> topic == FuelEfficiency && SeasonOf(month) == Winter)
      && (FuelSeasonLine(Summer) in recs <==> topic == FuelEfficiency && SeasonOf(month) == Summer)
      && FuelSeasonLine(NoSeason) !in recs
      && |recs| == 2 + (if HasAgeLine(topic) && age > 20 then 1 else 0)
                     + (if HasUsageLine(topic) && hours > 50000 then 1 else 0)
                     + (if topic == FuelEfficiency && SeasonOf(month) != NoSeason then 1 else 0)
  {
  }

  // ---------------------------------------------------------------------
  // The helpers, one method each, appending to a local list.

  /** The two tier sentences for a topic and grade, appended in order. */
  method TierLines(topic: Topic, grade: Grade) returns (recs: seq<Rec>)
    ensures recs == [TierLine(topic, grade, 0), TierLine(topic, grade, 1)]
  {
    recs := [];
    recs := recs + [TierLine(topic, grade, 0)];
    recs := recs + [TierLine(topic, grade, 1)];
  }

  method AvailabilityRecommendations(level: Level, age: int) returns (recs: seq<Rec>)
    ensures recs == TopicAdvice(Availability, GradeOfLevel(level), age, 0, 0)
  {
    if level == High {
      recs := TierLines(Availability, Severe);
    } else if level == Medium {
      recs := TierLines(Availability, Moderate);
    } else {
      recs := TierLines(Availability, Mild);
    }
    if age > 20 {
      recs := recs + [AgedLine(Availability)];
    }
  }

  method DistanceRecommendations(level: Level, hours: int) returns (recs: seq<Rec>)
    ensures recs == TopicAdvice(Distance, GradeOfLevel(level), 0, hours, 0)
  {
    if level == High {
      recs := TierLines(Distance, Severe);
    } else if level == Medium {
      recs := TierLines(Distance, Moderate);
    } else {
      recs := TierLines(Distance, Mild);
    }
    if hours > 50000 {
      recs := recs + [HighUsageLine(Distance)];
    }
  }

  method DailyDistanceRecommendations(level: Level, age: int) returns (recs: seq<Rec>)
    ensures recs == TopicAdvice(DailyDistance, GradeOfLevel(level), age, 0, 0)
  {
    if level == High {
      recs := TierLines(DailyDistance, Severe);
    } else if level == Medium {
      recs := TierLines(DailyDistance, Moderate);
    } else {
      recs := TierLines(DailyDistance, Mild);
    }
    if age > 20 {
      recs := recs + [AgedLine(DailyDistance)];
    }
  }

  method FailureRecommendations(level: Level, age: int, hours: int) returns (recs: seq<Rec>)
    ensures recs == TopicAdvice(Failures, GradeOfLevel(level), age, hours, 0)
  {
    if level == High {
      recs := TierLines(Failures, Severe);
    } else if level == Medium {
      recs := TierLines(Failures, Moderate);
    } else {
      recs := TierLines(Failures, Mild);
    }
    if age > 20 {
      recs := recs + [AgedLine(Failures)];
    }
    if hours > 50000 {
      recs := recs + [HighUsageLine(Failures)];
    }
  }

  /** The service's reliability helper, keyed by the reliability category. */
  method ReliabilityRecommendations(category: MlFeatures.ReliabilityCategory, age: int) returns (recs: seq<Rec>)
    ensures recs == TopicAdvice(Reliability, ReliabilityGrade(category), age, 0, 0)
  {
    if category.Critical? {
      recs := TierLines(Reliability, Severe);
    } else if category.Low? {
      recs := TierLines(Reliability, Moderate);
    } else {
      recs := TierLines(Reliability, Mild);
    }
    if age > 20 {
      recs := recs + [AgedLine(Reliability)];
    }
  }

  /** The bulk route's reliability helper, keyed by the risk level. */
  method ReliabilityByRiskRecommendations(level: Level, age: int) returns (recs: seq<Rec>)
    ensures recs == TopicAdvice(ReliabilityByRisk, GradeOfLevel(level), age, 0, 0)
  {
    if level == High {
      recs := TierLines(ReliabilityByRisk, Severe);
    } else if level == Medium {
      recs := TierLines(ReliabilityByRisk, Moderate);
    } else {
      recs := TierLines(ReliabilityByRisk, Mild);
    }
    if age > 20 {
      recs := recs + [AgedLine(ReliabilityByRisk)];
    }
  }

  method FuelEfficiencyRecommendations(age: int, hours: int, month: int) returns (recs: seq<Rec>)
    ensures recs == TopicAdvice(FuelEfficiency, FuelGrade(age, hours), age, hours, month)
  {
    if age > 20 && hours > 50000 {
      recs := TierLines(FuelEfficiency, Severe);
    } else if age > 15 || hours > 40000 {
      recs := TierLines(FuelEfficiency, Moderate);
    } else {
      recs := TierLines(FuelEfficiency, Mild);
    }
    if month == 12 || month == 1 || month == 2 {
      recs := recs + [FuelSeasonLine(Winter)];
    } else if month == 6 || month == 7 || month == 8 {
      recs := recs + [FuelSeasonLine(Summer)];
    }
  }

  // ---------------------------------------------------------------------
  // Assembling the list for a request.

  datatype Metric = AvailabilityDays | DistanceTravelled | DistancePerDay | TotalFailures | ReliabilityMetric | FuelEfficiencyMetric

  /** A prediction_type value: 'all', one metric's key, or anything else. */
  datatype Request = All | Only(metric: Metric) | Unrecognised

  function RequestOf(predictionType: string): (r: Request)
    ensures r == All <==> predictionType == "all"
    ensures r == Only(AvailabilityDays) <==> predictionType == "availability_days"
    ensures r == Only(DistanceTravelled) <==> predictionType == "distance_travelled"
    ensures r == Only(DistancePerDay) <==> predictionType == "distance_per_day"
    ensures r == Only(TotalFailures) <==> predictionType == "total_failures"
    ensures r == Only(ReliabilityMetric) <==> predictionType == "reliability"
    ensures r == Only(FuelEfficiencyMetric) <==> predictionType == "fuel_efficiency"
  {
    if predictionType == "all" then All
    else if predictionType == "availability_days" then Only(AvailabilityDays)
    else if predictionType == "distance_travelled" then Only(DistanceTravelled)
    else if predictionType == "distance_per_day" then Only(DistancePerDay)
    else if predictionType == "total_failures" then Only(TotalFailures)
    else if predictionType == "reliability" then Only(ReliabilityMetric)
    else if predictionType == "fuel_efficiency" then Only(FuelEfficiencyMetric)
    else Unrecognised
  }

  /** The sentences a request adds after the headline; reliabilityGrade and
      reliabilityTopic say which reliability helper the caller uses. */
  function RequestAdvice(request: Request, level: Level, reliabilityTopic: Topic, reliabilityGrade: Grade,
                         age: int, hours: int, month: int): seq<Rec>
  {
    var g := GradeOfLevel(level);
    match request
    case Only(AvailabilityDays) => TopicAdvice(Availability, g, age, 0, 0)
    case Only(DistanceTravelled) => TopicAdvice(Distance, g, 0, hours, 0)
    case Only(DistancePerDay) => TopicAdvice(DailyDistance, g, age, 0, 0)
    case Only(TotalFailures) => TopicAdvice(Failures, g, age, hours, 0)
    case Only(ReliabilityMetric) => TopicAdvice(reliabilityTopic, reliabilityGrade, age, 0, 0)
    case Only(FuelEfficiencyMetric) => TopicAdvice(FuelEfficiency, FuelGrade(age, hours), age, hours, month)
    case All =>
      TopicAdvice(Availability, g, age, 0, 0)[..1]
      + TopicAdvice(DailyDistance, g, age, 0, 0)[..1]
      + TopicAdvice(FuelEfficiency, FuelGrade(age, hours), age, hours, month)[..1]
      + TopicAdvice(Failures, g, age, hours, 0)[..1]
    case Unrecognised => []
  }

  /** The headline, the request's sentences, and the "continue" sentence
      when nothing else was added; not yet cut to any length. */
  function AssembledAdvice(request: Request, level: Level, reliabilityTopic: Topic, reliabilityGrade: Grade,
                           age: int, hours: int, month: int): seq<Rec>
  {
    var recs := [Headline(level)] + RequestAdvice(request, level, reliabilityTopic, reliabilityGrade, age, hours, month);
    if |recs| == 1 then recs + [ContinueMonitoring] else recs
  }

  /** The list opens with the headline and holds 2 to 5 sentences; the
      "continue" sentence appears exactly for an unrecognised request. */
  lemma AssembledAdviceShape(request: Request, level: Level, reliabilityTopic: Topic, reliabilityGrade: Grade,
                             age: int, hours: int, month: int)
    requires reliabilityTopic == Reliability || reliabilityTopic == ReliabilityByRisk
    ensures var recs := AssembledAdvice(request, level, reliabilityTopic, reliabilityGrade, age, hours, month);
      && recs[0] == Headline(level)
      && 2 <= |recs| <= 5
      && (ContinueMonitoring in recs <==> request == Unrecognised)
      && (request == Unrecognised ==> recs == [Headline(level), ContinueMonitoring])
  {
    RequestAdviceShape(request, level, reliabilityTopic, reliabilityGrade, age, hours, month);
  }

  /** A request adds at most four sentences, none of them "continue", and
      adds nothing exactly when it is not recognised. */
  lemma RequestAdviceShape(request: Request, level: Level, reliabilityTopic: Topic, reliabilityGrade: Grade,
                           age: int, hours: int, month: int)
    ensures var body := RequestAdvice(request, level, reliabilityTopic, reliabilityGrade, age, hours, month);
      && |body| <= 4
      && (body == [] <==> request == Unrecognised)
      && ContinueMonitoring !in body
  {
    var g := GradeOfLevel(level);
    match request
    case All =>
      assert RequestAdvice(request, level, reliabilityTopic, reliabilityGrade, age, hours, month)
             == [TierLine(Availability, g, 0), TierLine(DailyDistance, g, 0),
                 TierLine(FuelEfficiency, FuelGrade(age, hours), 0), TierLine(Failures, g, 0)];
    case Only(m) =>
    case Unrecognised =>
  }

  /** 'all' takes the first sentence of the availability, daily-distance,
      fuel and failure helpers, in that order: exactly five sentences. */
  lemma AllRequestAdvice(level: Level, reliabilityTopic: Topic, reliabilityGrade: Grade, age: int, hours: int, month: int)
    ensures AssembledAdvice(All, level, reliabilityTopic, reliabilityGrade, age, hours, month)
            == [Headline(level), TierLine(Availability, GradeOfLevel(level), 0),
                TierLine(DailyDistance, GradeOfLevel(level), 0),
                TierLine(FuelEfficiency, FuelGrade(age, hours), 0),
                TierLine(Failures, GradeOfLevel(level), 0)]
  {
  }

  /** The service's list: the assembled list cut to six, with the
      reliability helper keyed by the reliability category. */
  function ServiceAdvice(request: Request, level: Level, category: MlFeatures.ReliabilityCategory,
                         age: int, hours: int, month: int): seq<Rec>
  {
    Sorting.Take(AssembledAdvice(request, level, Reliability, ReliabilityGrade(category), age, hours, month), 6)
  }

  /** The cut to six never removes anything: no list is longer than five. */
  lemma ServiceCutIsInert(request: Request, level: Level, category: MlFeatures.ReliabilityCategory,
                          age: int, hours: int, month: int)
    ensures ServiceAdvice(request, level, category, age, hours, month)
            == AssembledAdvice(request, level, Reliability, ReliabilityGrade(category), age, hours, month)
  {
    AssembledAdviceShape(request, level, Reliability, ReliabilityGrade(category), age, hours, month);
  }

  /** Builds the list the way the service does: headline, then the helper
      for the request (or the first sentence of four helpers for 'all'). */
  method AssembleRecommendations(request: Request, level: Level, category: MlFeatures.ReliabilityCategory,
                                 age: int, hours: int, month: int, capAtSix: bool, byRisk: bool)
    returns (recs: seq<Rec>)
    ensures var topic := if byRisk then ReliabilityByRisk else Reliability;
            var grade := if byRisk then GradeOfLevel(level) else ReliabilityGrade(category);
            var full := AssembledAdvice(request, level, topic, grade, age, hours, month);
            recs == if capAtSix then Sorting.Take(full, 6) else full
  {
    if level == High {
      recs := [Headline(High)];
    } else if level == Medium {
      recs := [Headline(Medium)];
    } else {
      recs := [Headline(Low)];
    }
    var more := RequestRecommendations(request, level, category, age, hours, month, byRisk);
    recs := recs + more;
    if |recs| == 1 {
      recs := recs + [ContinueMonitoring];
    }
    if capAtSix {
      recs := Sorting.Take(recs, 6);
    }
  }

  /** The sentences the request's helper (or helpers, for 'all') adds. */
  method RequestRecommendations(request: Request, level: Level, category: MlFeatures.ReliabilityCategory,
                                age: int, hours: int, month: int, byRisk: bool)
    returns (recs: seq<Rec>)
    ensures var topic := if byRisk then ReliabilityByRisk else Reliability;
            var grade := if byRisk then GradeOfLevel(level) else ReliabilityGrade(category);
            recs == RequestAdvice(request, level, topic, grade, age, hours, month)
  {
    recs := [];
    var more: seq<Rec>;
    match request {
      case Only(AvailabilityDays) =>
        recs := AvailabilityRecommendations(level, age);
      case Only(DistanceTravelled) =>
        recs := DistanceRecommendations(level, hours);
      case Only(DistancePerDay) =>
        recs := DailyDistanceRecommendations(level, age);
      case Only(TotalFailures) =>
        recs := FailureRecommendations(level, age, hours);
      case Only(ReliabilityMetric) =>
        if byRisk {
          recs := ReliabilityByRiskRecommendations(level, age);
        } else {
          recs := ReliabilityRecommendations(category, age);
        }
      case Only(FuelEfficiencyMetric) =>
        recs := FuelEfficiencyRecommendations(age, hours, month);
      case All =>
        more := AvailabilityRecommendations(level, age);
        recs := recs + more[..1];
        more := DailyDistanceRecommendations(level, age);
        recs := recs + more[..1];
        more := FuelEfficiencyRecommendations(age, hours, month);
        recs := recs + more[..1];
        more := FailureRecommendations(level, age, hours);
        recs := recs + more[..1];
      case Unrecognised =>
    }
  }

  // ---------------------------------------------------------------------
  // The fallback path's own, longer list.

  function FallbackAgeAdvice(age: int): seq<Rec>
  {
    if age > 25 then [FallbackAgeLine(Over25, 0), FallbackAgeLine(Over25, 1)]
    else if age > 20 then [FallbackAgeLine(Over20, 0), FallbackAgeLine(Over20, 1)]
    else if age > 15 then [FallbackAgeLine(Over15, 0)]
    else []
  }

  function FallbackUsageAdvice(hours: int): seq<Rec>
  {
    if hours > 60000 then [FallbackUsageLine(Over60000, 0), FallbackUsageLine(Over60000, 1)]
    else if hours > 50000 then [FallbackUsageLine(Over50000, 0)]
    else []
  }

  function FallbackSeasonAdvice(month: int): seq<Rec>
  {
    match SeasonOf(month)
    case Winter => [FallbackSeasonLine(Winter, 0), FallbackSeasonLine(Winter, 1)]
    case Summer => [FallbackSeasonLine(Summer, 0), FallbackSeasonLine(Summer, 1)]
    case NoSeason => []
  }

  /** The fuel sentences by the predicted fuel efficiency: below 60 the
      fuel helper's poor pair, below 75 its moderate pair, else its first
      good sentence. */
  function FallbackFuelAdvice(fuel: real): seq<Rec>
  {
    if fuel < 60.0 then [TierLine(FuelEfficiency, Severe, 0), TierLine(FuelEfficiency, Severe, 1)]
    else if fuel < 75.0 then [TierLine(FuelEfficiency, Moderate, 0), TierLine(FuelEfficiency, Moderate, 1)]
    else [TierLine(FuelEfficiency, Mild, 0)]
  }

  function FallbackFleetAdvice(model: string): seq<Rec>
  {
    if model == "DE10" then [FleetProtocolLine("DE10")]
    else if model == "DE11" then [FleetProtocolLine("DE11")]
    else []
  }

  /** The fallback list: risk pair, age, usage, season, fuel and fleet
      sentences, with a "continue" sentence if it were ever empty. */
  function FallbackAdvice(level: Level, age: int, hours: int, month: int, model: string, fuel: real): seq<Rec>
  {
    var recs := [FallbackRiskLine(level, 0), FallbackRiskLine(level, 1)]
                + FallbackAgeAdvice(age) + FallbackUsageAdvice(hours) + FallbackSeasonAdvice(month)
                + FallbackFuelAdvice(fuel) + FallbackFleetAdvice(model);
    if |recs| == 0 then [ContinueRegular] else recs
  }

  /** The fallback list always opens with the risk pair and holds 3 to 11
      sentences: it is never empty, so its "continue" sentence never
      appears, and it is not cut to six. */
  lemma FallbackAdviceBounds(level: Level, age: int, hours: int, month: int, model: string, fuel: real)
    ensures var recs := FallbackAdvice(level, age, hours, month, model, fuel);
      && 3 <= |recs| <= 11
      && recs[0] == FallbackRiskLine(level, 0) && recs[1] == FallbackRiskLine(level, 1)
      && ContinueRegular !in recs
  {
    var recs := [FallbackRiskLine(level, 0), FallbackRiskLine(level, 1)]
                + FallbackAgeAdvice(age) + FallbackUsageAdvice(hours) + FallbackSeasonAdvice(month)
                + FallbackFuelAdvice(fuel) + FallbackFleetAdvice(model);
    assert recs[0] == FallbackRiskLine(level, 0);
    assert ContinueRegular !in FallbackFuelAdvice(fuel) && ContinueRegular !in FallbackFleetAdvice(model);
  }

  /** An old, heavily used DE10 in winter with a low fuel figure gets all
      eleven sentences, more than the six the ML path keeps. */
  lemma FallbackAdviceReachesEleven()
    ensures |FallbackAdvice(High, 30, 70000, 1, "DE10", 0.0)| == 11
  {
  }

  method AppendAgeAdvice(recs: seq<Rec>, age: int) returns (out: seq<Rec>)
    ensures out == recs + FallbackAgeAdvice(age)
  {
    out := recs;
    if age > 25 {
      out := out + [FallbackAgeLine(Over25, 0)];
      out := out + [FallbackAgeLine(Over25, 1)];
    } else if age > 20 {
      out := out + [FallbackAgeLine(Over20, 0)];
      out := out + [FallbackAgeLine(Over20, 1)];
    } else if age > 15 {
      out := out + [FallbackAgeLine(Over15, 0)];
    }
  }

  method AppendUsageAdvice(recs: seq<Rec>, hours: int) returns (out: seq<Rec>)
    ensures out == recs + FallbackUsageAdvice(hours)
  {
    out := recs;
    if hours > 60000 {
      out := out + [FallbackUsageLine(Over60000, 0)];
      out := out + [FallbackUsageLine(Over60000, 1)];
    } else if hours > 50000 {
      out := out + [FallbackUsageLine(Over50000, 0)];
    }
  }

  method AppendSeasonAdvice(recs: seq<Rec>, month: int) returns (out: seq<Rec>)
    ensures out == recs + FallbackSeasonAdvice(month)
  {
    out := recs;
    if month == 12 || month == 1 || month == 2 {
      out := out + [FallbackSeasonLine(Winter, 0)];
      out := out + [FallbackSeasonLine(Winter, 1)];
    } else if month == 6 || month == 7 || month == 8 {
      out := out + [FallbackSeasonLine(Summer, 0)];
      out := out + [FallbackSeasonLine(Summer, 1)];
    }
  }

  method AppendFuelAdvice(recs: seq<Rec>, fuel: real) returns (out: seq<Rec>)
    ensures out == recs + FallbackFuelAdvice(fuel)
  {
    out := recs;
    if fuel < 60.0 {
      out := out + [TierLine(FuelEfficiency, Severe, 0)];
      out := out + [TierLine(FuelEfficiency, Severe, 1)];
    } else if fuel < 75.0 {
      out := out + [TierLine(FuelEfficiency, Moderate, 0)];
      out := out + [TierLine(FuelEfficiency, Moderate, 1)];
    } else {
      out := out + [TierLine(FuelEfficiency, Mild, 0)];
    }
  }

  method AppendFleetAdvice(recs: seq<Rec>, model: string) returns (out: seq<Rec>)
    ensures out == recs + FallbackFleetAdvice(model)
  {
    out := recs;
    if model == "DE10" {
      out := out + [FleetProtocolLine("DE10")];
    } else if model == "DE11" {
      out := out + [FleetProtocolLine("DE11")];
    }
  }

  /** Builds the fallback list by appending each group in turn. */
  method FallbackRecommendations(level: Level, age: int, hours: int, month: int, model: string, fuel: real)
    returns (recs: seq<Rec>)
    ensures recs == FallbackAdvice(level, age, hours, month, model, fuel)
  {
    recs := [];
    recs := recs + [FallbackRiskLine(level, 0)];
    recs := recs + [FallbackRiskLine(level, 1)];
    ghost var built := [FallbackRiskLine(level, 0), FallbackRiskLine(level, 1)];
    assert recs == built;
    recs := AppendAgeAdvice(recs, age);
    built := built + FallbackAgeAdvice(age);
    recs := AppendUsageAdvice(recs, hours);
    built := built + FallbackUsageAdvice(hours);
    recs := AppendSeasonAdvice(recs, month);
    built := built + FallbackSeasonAdvice(month);
    recs := AppendFuelAdvice(recs, fuel);
    built := built + FallbackFuelAdvice(fuel);
    recs := AppendFleetAdvice(recs, model);
    built := built + FallbackFleetAdvice(model);
    assert recs == built && |built| >= 2;
    if |recs| == 0 {
      recs := recs + [ContinueRegular];
    }
  }
}
