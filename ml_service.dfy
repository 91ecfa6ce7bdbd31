/** The prediction service: it turns a locomotive into features, asks the
    trained models for a raw risk and a reliability class, rescales the
    risk, fills in the requested metric predictions and assembles the
    recommendations. Whenever the models are not loaded, the features
    cannot be prepared or any model step fails, it answers with the
    formula-only fallback instead. */
module MlService {
  import opened Common
  import opened Locomotives
  import MlFeatures
  import opened Advice

  /** The metrics a request asks for: all six, one, or none. */
  function MetricsFor(request: Request): (ms: set<Metric>)
    ensures request == All ==> |ms| == 6
    ensures request.Only? ==> ms == {request.metric}
    ensures request == Unrecognised ==> ms == {}
  {
    match request
    case All =>
      var all := {AvailabilityDays, DistanceTravelled, DistancePerDay, TotalFailures, ReliabilityMetric, FuelEfficiencyMetric};
      assert |all| == 6 by {
        assert all == {AvailabilityDays} + {DistanceTravelled} + {DistancePerDay} + {TotalFailures}
                      + {ReliabilityMetric} + {FuelEfficiencyMetric};
      }
      all
    case Only(m) => {m}
    case Unrecognised => {}
  }

  /** Every metric is asked for by 'all' or by its own key. */
  lemma MetricsForAll(m: Metric)
    ensures m in MetricsFor(All)
  {
  }

  /** One step of filling the dictionary: the metric's entry is set when
      the request asks for it. */
  method AddIfRequested(p: map<Metric, real>, request: Request, m: Metric, value: Metric -> real)
    returns (q: map<Metric, real>)
    ensures q == if m in MetricsFor(request) then p[m := value(m)] else p
  {
    q := p;
    if request == All || request == Only(m) {
      q := q[m := value(m)];
    }
  }

  /** Fills the prediction dictionary one requested metric at a time, in
      the source's order. */
  method FillPredictions(request: Request, value: Metric -> real) returns (p: map<Metric, real>)
    ensures p == map m | m in MetricsFor(request) :: value(m)
  {
    p := map[];
    ghost var done: set<Metric> := {};
    p := AddIfRequested(p, request, AvailabilityDays, value);
    FilledStep(map[], request, AvailabilityDays, value, done);
    done := done + {AvailabilityDays};
    ghost var q := p;
    p := AddIfRequested(p, request, DistanceTravelled, value);
    FilledStep(q, request, DistanceTravelled, value, done);
    done, q := done + {DistanceTravelled}, p;
    p := AddIfRequested(p, request, DistancePerDay, value);
    FilledStep(q, request, DistancePerDay, value, done);
    done, q := done + {DistancePerDay}, p;
    p := AddIfRequested(p, request, TotalFailures, value);
    FilledStep(q, request, TotalFailures, value, done);
    done, q := done + {TotalFailures}, p;
    p := AddIfRequested(p, request, ReliabilityMetric, value);
    FilledStep(q, request, ReliabilityMetric, value, done);
    done, q := done + {ReliabilityMetric}, p;
    p := AddIfRequested(p, request, FuelEfficiencyMetric, value);
    FilledStep(q, request, FuelEfficiencyMetric, value, done);
    done := done + {FuelEfficiencyMetric};
    forall m: Metric
      ensures m in done
    {
      match m
      case AvailabilityDays =>
      case DistanceTravelled =>
      case DistancePerDay =>
      case TotalFailures =>
      case ReliabilityMetric =>
      case FuelEfficiencyMetric =>
    }
    assert MetricsFor(request) * done == MetricsFor(request);
  }

  /** Filling one more metric: the dictionary holds the requested metrics
      among those filled so far. */
  lemma FilledStep(p: map<Metric, real>, request: Request, m: Metric, value: Metric -> real, done: set<Metric>)
    requires p == map k | k in MetricsFor(request) * done :: value(k)
    ensures (if m in MetricsFor(request) then p[m := value(m)] else p)
            == map k | k in MetricsFor(request) * (done + {m}) :: value(k)
  {
  }

  predicate IsWhole(x: real)
  {
    x == x.Floor as real
  }

  // ---------------------------------------------------------------------
  // The ML path.

  /** The model's raw risk before clamping: small raw values are stretched
      by 8 and topped up from age and hours, others doubled. */
  function UnclampedRisk(raw: real, age: int, hours: int): real
  {
    if raw < 10.0 then raw * 8.0 + age as real * 1.5 + hours as real / 1000.0 * 0.3
    else raw * 2.0 + age as real * 0.5
  }

  /** The rescaled risk lies in [5, 100] and equals the stretched value
      whenever that value does. */
  function Rescale(raw: real, age: int, hours: int): (score: real)
    ensures 5.0 <= score <= 100.0
    ensures 5.0 <= UnclampedRisk(raw, age, hours) <= 100.0 ==> score == UnclampedRisk(raw, age, hours)
    ensures UnclampedRisk(raw, age, hours) < 5.0 ==> score == 5.0
    ensures UnclampedRisk(raw, age, hours) > 100.0 ==> score == 100.0
  {
    MaxR(5.0, MinR(100.0, UnclampedRisk(raw, age, hours)))
  }

  /** The ML path's annual metric estimates for a given risk score. */
  function MlMetricValue(m: Metric, age: int, hours: int, risk: real): (v: real)
    ensures v >= 0.0
    ensures m == ReliabilityMetric || m == FuelEfficiencyMetric ==> v <= 100.0
    ensures m == AvailabilityDays || m == DistanceTravelled || m == TotalFailures ==> IsWhole(v)
  {
    match m
    case AvailabilityDays =>
      MaxR(0.0, Trunc(MaxR(250.0, (365 - age * 8) as real) * (1.0 - risk / 200.0)) as real)
    case DistanceTravelled =>
      MaxR(0.0, Trunc((hours * 45) as real * (1.0 - risk / 300.0)) as real)
    case DistancePerDay =>
      MaxR(0.0, Round2(120.0 * (1.0 - risk / 200.0)))
    case TotalFailures =>
      MaxR(0.0, Trunc((age as real * 0.5 + hours as real / 15000.0) * (1.0 + risk / 100.0)) as real)
    case ReliabilityMetric =>
      Clamp100(Round2(MaxR(50.0, 95.0 - age as real * 2.5) * (1.0 - risk / 150.0)))
    case FuelEfficiencyMetric =>
      Clamp100(Round2(MaxR(60.0, 90.0 - age as real * 1.8) * (1.0 - risk / 200.0)))
  }

  /** _generate_specific_predictions: exactly the requested keys, each
      with the ML estimate. */
  method GenerateSpecificPredictions(request: Request, age: int, hours: int, risk: real) returns (p: map<Metric, real>)
    ensures p.Keys == MetricsFor(request)
    ensures forall m :: m in p ==> p[m] == MlMetricValue(m, age, hours, risk)
    ensures forall m :: m in p ==> p[m] >= 0.0
    ensures forall m :: m in p && (m == ReliabilityMetric || m == FuelEfficiencyMetric) ==> p[m] <= 100.0
  {
    p := FillPredictions(request, m => MlMetricValue(m, age, hours, risk));
  }

  /** What the models say: a raw risk and a reliability class. */
  datatype Inferred = Inferred(raw: real, category: MlFeatures.ReliabilityCategory)

  /** Scaling and the three model calls; None when any of them fails. */
  function Inference(bundle: MlFeatures.ModelBundle, features: seq<real>): (r: Option<Inferred>)
    ensures r.Some? ==> bundle.scaler(features).Some?
    ensures r.Some? <==> bundle.scaler(features).Some?
                         && bundle.riskModel(bundle.scaler(features).value).Some?
                         && bundle.reliabilityModel(bundle.scaler(features).value).Some?
                         && bundle.reliabilityDecoder(bundle.reliabilityModel(bundle.scaler(features).value).value).Some?
  {
    match bundle.scaler(features)
    case None => None
    case Some(scaled) =>
      match bundle.riskModel(scaled)
      case None => None
      case Some(raw) =>
        match bundle.reliabilityModel(scaled)
        case None => None
        case Some(code) =>
          match bundle.reliabilityDecoder(code)
          case None => None
          case Some(category) => Some(Inferred(raw, category))
  }

  datatype PredictionMethod = MlPerformanceModel | FallbackMethod | SimplifiedBulkModel

  datatype PredictionResult = PredictionResult(
    predictionType: string,
    periodDays: int,
    riskScore: real,
    riskLevel: Level,
    reliabilityCategory: MlFeatures.ReliabilityCategory,
    predictions: map<Metric, real>,
    recommendations: seq<Rec>,
    predictionMethod: PredictionMethod)

  function MlResultOf(loco: Locomotive, predictionType: string, periodDays: int, clock: Clock, inferred: Inferred): PredictionResult
  {
    var age := Age(loco, clock.year);
    var request := RequestOf(predictionType);
    var score := Rescale(inferred.raw, age, loco.operatingHours);
    var level := LevelOf(score);
    PredictionResult(predictionType, periodDays, score, level, inferred.category,
                     map m | m in MetricsFor(request) :: MlMetricValue(m, age, loco.operatingHours, score),
                     ServiceAdvice(request, level, inferred.category, age, loco.operatingHours, clock.month),
                     MlPerformanceModel)
  }

  // ---------------------------------------------------------------------
  // The fallback path.

  /** int(age * 1.5), never negative. */
  function FailuresEstimate(age: int): (v: real)
    ensures v >= 0.0 && IsWhole(v)
  {
    MaxR(0.0, Trunc(age as real * 1.5) as real)
  }

  function ReliabilityEstimate(age: int): (v: real)
    ensures v >= 50.0
  {
    MaxR(50.0, (95 - age * 3) as real)
  }

  function FuelEstimate(age: int): (v: real)
    ensures v >= 60.0
  {
    MaxR(60.0, (90 - age * 2) as real)
  }

  /** The fallback's metric estimates over the requested period. */
  function FallbackMetricValue(m: Metric, age: int, hours: int, periodDays: int): (v: real)
    ensures m == AvailabilityDays ==> v >= 200.0
    ensures m == TotalFailures ==> v >= 0.0
    ensures m == ReliabilityMetric ==> v >= 50.0
    ensures m == FuelEfficiencyMetric ==> v >= 60.0
  {
    match m
    case AvailabilityDays => MaxR(200.0, (365 - age * 10) as real)
    case DistanceTravelled => Trunc((hours * 40) as real * (periodDays as real / 365.0)) as real
    case DistancePerDay => (100 - age * 2) as real
    case TotalFailures => FailuresEstimate(age)
    case ReliabilityMetric => ReliabilityEstimate(age)
    case FuelEfficiencyMetric => FuelEstimate(age)
  }

  /** predictions.get('fuel_efficiency', 0). */
  function FuelOrZero(p: map<Metric, real>): real
  {
    if FuelEfficiencyMetric in p then p[FuelEfficiencyMetric] else 0.0
  }

  function FallbackResultOf(loco: Locomotive, predictionType: string, periodDays: int, clock: Clock): PredictionResult
  {
    var age := Age(loco, clock.year);
    var request := RequestOf(predictionType);
    var predictions := map m | m in MetricsFor(request) :: FallbackMetricValue(m, age, loco.operatingHours, periodDays);
    var level := RiskLevel(loco, clock.year, clock.today);
    PredictionResult(predictionType, periodDays, CalculateRiskScore(loco, clock.year, clock.today), level,
                     MlFeatures.Medium, predictions,
                     FallbackAdvice(level, age, loco.operatingHours, clock.month, loco.model, FuelOrZero(predictions)),
                     FallbackMethod)
  }

  /** The fallback always reports reliability category Medium and the
      fallback method, holds exactly the requested metrics, and lists 3 to
      11 recommendations. */
  lemma FallbackResultFacts(loco: Locomotive, predictionType: string, periodDays: int, clock: Clock)
    ensures var r := FallbackResultOf(loco, predictionType, periodDays, clock);
      && r.reliabilityCategory == MlFeatures.Medium
      && r.predictionMethod == FallbackMethod
      && r.predictions.Keys == MetricsFor(RequestOf(predictionType))
      && r.riskScore <= 100.0
      && r.riskLevel == LevelOf(r.riskScore)
      && 3 <= |r.recommendations| <= 11
      && r.recommendations[0] == FallbackRiskLine(r.riskLevel, 0)
  {
    var r := FallbackResultOf(loco, predictionType, periodDays, clock);
    FallbackAdviceBounds(r.riskLevel, Age(loco, clock.year), loco.operatingHours, clock.month, loco.model,
                         FuelOrZero(r.predictions));
  }

  /** The fuel sentences read predictions.get('fuel_efficiency', 0): a
      request that does not include fuel efficiency always gets the
      poor-fuel pair, and one that does never gets it, since the estimate
      is at least 60. */
  lemma {:induction false} FallbackPoorFuelIffFuelNotRequested(loco: Locomotive, predictionType: string, periodDays: int, clock: Clock)
    ensures var r := FallbackResultOf(loco, predictionType, periodDays, clock);
      TierLine(FuelEfficiency, Severe, 0) in r.recommendations
      <==> FuelEfficiencyMetric !in MetricsFor(RequestOf(predictionType))
  {
    var r := FallbackResultOf(loco, predictionType, periodDays, clock);
    var age := Age(loco, clock.year);
    var level := r.riskLevel;
    var fuel := FuelOrZero(r.predictions);
    var head := [FallbackRiskLine(level, 0), FallbackRiskLine(level, 1)]
                + FallbackAgeAdvice(age) + FallbackUsageAdvice(loco.operatingHours) + FallbackSeasonAdvice(clock.month);
    assert TierLine(FuelEfficiency, Severe, 0) !in head;
    assert TierLine(FuelEfficiency, Severe, 0) !in FallbackFleetAdvice(loco.model);
    assert r.recommendations == head + FallbackFuelAdvice(fuel) + FallbackFleetAdvice(loco.model);
    if FuelEfficiencyMetric in MetricsFor(RequestOf(predictionType)) {
      assert fuel == FuelEstimate(age) >= 60.0;
    } else {
      assert fuel == 0.0;
    }
  }

  /** _fallback_prediction, filling the dictionary and the list step by step. */
  method FallbackPrediction(loco: Locomotive, predictionType: string, periodDays: int, clock: Clock)
    returns (r: PredictionResult)
    ensures r == FallbackResultOf(loco, predictionType, periodDays, clock)
  {
    var riskScore := CalculateRiskScore(loco, clock.year, clock.today);
    var riskLevel := RiskLevel(loco, clock.year, clock.today);
    var age := Age(loco, clock.year);
    var hours := loco.operatingHours;
    var predictions := FillPredictions(RequestOf(predictionType), m => FallbackMetricValue(m, age, hours, periodDays));
    var fuel := if FuelEfficiencyMetric in predictions then predictions[FuelEfficiencyMetric] else 0.0;
    var recommendations := FallbackRecommendations(riskLevel, age, hours, clock.month, loco.model, fuel);
    r := PredictionResult(predictionType, periodDays, riskScore, riskLevel, MlFeatures.Medium,
                          predictions, recommendations, FallbackMethod);
  }

  // ---------------------------------------------------------------------
  // Routing.

  /** predict_performance as one value: the ML result when the models are
      loaded and every step succeeds, the fallback otherwise. */
  function PerformanceOf(models: Option<MlFeatures.ModelBundle>, loco: Locomotive, predictionType: string,
                         periodDays: int, clock: Clock): PredictionResult
  {
    match models
    case None => FallbackResultOf(loco, predictionType, periodDays, clock)
    case Some(bundle) =>
      match MlFeatures.PrepareFeatures(bundle, loco.model, clock.year, Age(loco, clock.year), loco.operatingHours)
      case None => FallbackResultOf(loco, predictionType, periodDays, clock)
      case Some(features) =>
        match Inference(bundle, features)
        case None => FallbackResultOf(loco, predictionType, periodDays, clock)
        case Some(inferred) => MlResultOf(loco, predictionType, periodDays, clock, inferred)
  }

  /** Unloaded models, unpreparable features or a failing model step all
      give exactly the fallback result; otherwise the ML result has a risk
      in [5, 100], the level of that risk and 2 to 5 recommendations
      opening with the level's headline. */
  lemma PerformanceRouting(models: Option<MlFeatures.ModelBundle>, loco: Locomotive, predictionType: string,
                           periodDays: int, clock: Clock)
    ensures var r := PerformanceOf(models, loco, predictionType, periodDays, clock);
      var features := if models.None? then None
                      else MlFeatures.PrepareFeatures(models.value, loco.model, clock.year, Age(loco, clock.year), loco.operatingHours);
      && (r.predictionMethod == FallbackMethod <==>
            models.None? || features.None? || Inference(models.value, features.value).None?)
      && (r.predictionMethod == FallbackMethod ==> r == FallbackResultOf(loco, predictionType, periodDays, clock))
      && r.predictionMethod != SimplifiedBulkModel
      && (r.predictionMethod == MlPerformanceModel ==>
            && 5.0 <= r.riskScore <= 100.0
            && r.riskLevel == LevelOf(r.riskScore)
            && r.predictions.Keys == MetricsFor(RequestOf(predictionType))
            && 2 <= |r.recommendations| <= 5
            && r.recommendations[0] == Headline(r.riskLevel))
  {
    var r := PerformanceOf(models, loco, predictionType, periodDays, clock);
    if r.predictionMethod == MlPerformanceModel {
      var bundle := models.value;
      var age := Age(loco, clock.year);
      var features := MlFeatures.PrepareFeatures(bundle, loco.model, clock.year, age, loco.operatingHours).value;
      var inferred := Inference(bundle, features).value;
      var request := RequestOf(predictionType);
      ServiceCutIsInert(request, r.riskLevel, inferred.category, age, loco.operatingHours, clock.month);
      AssembledAdviceShape(request, r.riskLevel, Reliability, ReliabilityGrade(inferred.category),
                           age, loco.operatingHours, clock.month);
    }
  }

  /** The service object: the loaded artifacts and the flag saying whether
      loading succeeded. */
  class LocomotiveMLService {
    var modelsLoaded: bool
    var models: Option<MlFeatures.ModelBundle>

    predicate Valid()
      reads this
    {
      modelsLoaded <==> models.Some?
    }

    /** Starts unloaded and then loads; `loaded` is what loading the
        artifacts yields, None when any of them cannot be loaded. */
    constructor(loaded: Option<MlFeatures.ModelBundle>)
      ensures Valid()
      ensures modelsLoaded == loaded.Some? && models == loaded
    {
      modelsLoaded := false;
      models := None;
      new;
      LoadModels(loaded);
    }

    /** The flag is set only once every artifact is in place. */
    method LoadModels(loaded: Option<MlFeatures.ModelBundle>)
      modifies this
      ensures Valid()
      ensures modelsLoaded == loaded.Some? && models == loaded
    {
      match loaded {
        case None =>
          models := None;
          modelsLoaded := false;
        case Some(bundle) =>
          models := Some(bundle);
          modelsLoaded := true;
      }
    }

    /** predict_performance: each step that can fail falls back. */
    method PredictPerformance(loco: Locomotive, predictionType: string, periodDays: int, clock: Clock)
      returns (r: PredictionResult)
      requires Valid()
      ensures r == PerformanceOf(models, loco, predictionType, periodDays, clock)
    {
      if !modelsLoaded {
        r := FallbackPrediction(loco, predictionType, periodDays, clock);
        return;
      }
      var bundle := models.value;
      var age := Age(loco, clock.year);
      var hours := loco.operatingHours;
      var features := MlFeatures.PrepareFeatures(bundle, loco.model, clock.year, age, hours);
      if features.None? {
        r := FallbackPrediction(loco, predictionType, periodDays, clock);
        return;
      }
      var scaled := bundle.scaler(features.value);
      if scaled.None? {
        r := FallbackPrediction(loco, predictionType, periodDays, clock);
        return;
      }
      var raw := bundle.riskModel(scaled.value);
      var code := bundle.reliabilityModel(scaled.value);
      if raw.None? || code.None? {
        r := FallbackPrediction(loco, predictionType, periodDays, clock);
        return;
      }
      var category := bundle.reliabilityDecoder(code.value);
      if category.None? {
        r := FallbackPrediction(loco, predictionType, periodDays, clock);
        return;
      }
      assert Inference(bundle, features.value) == Some(Inferred(raw.value, category.value));
      r := MlPrediction(loco, predictionType, periodDays, clock, Inferred(raw.value, category.value));
    }
  }

  /** The result built from what the models said. */
  method MlPrediction(loco: Locomotive, predictionType: string, periodDays: int, clock: Clock, inferred: Inferred)
    returns (r: PredictionResult)
    ensures r == MlResultOf(loco, predictionType, periodDays, clock, inferred)
  {
    var age := Age(loco, clock.year);
    var hours := loco.operatingHours;
    var riskScore := Rescale(inferred.raw, age, hours);
    var riskLevel := LevelOf(riskScore);
    var request := RequestOf(predictionType);
    var predictions := GenerateSpecificPredictions(request, age, hours, riskScore);
    var recommendations := AssembleRecommendations(request, riskLevel, inferred.category, age, hours, clock.month, true, false);
    r := PredictionResult(predictionType, periodDays, riskScore, riskLevel, inferred.category,
                          predictions, recommendations, MlPerformanceModel);
  }
}
