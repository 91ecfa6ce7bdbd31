/** The 21-feature vector the prediction service hands to its trained
    models. The derived features are closed-form expressions in a
    locomotive's age and operating hours; the three categorical features go
    through label encoders, which, like every trained artifact, are unknown
    functions that either give a value or fail. */
module MlFeatures {
  import opened Common

  datatype ReliabilityCategory = High | Medium | Low | Critical
  datatype AgeCategory = New | Young | Mature | Old

  /** The trained artifacts. Each one may fail (raise) on its input. */
  datatype ModelBundle = ModelBundle(
    riskModel: seq<real> -> Option<real>,
    reliabilityModel: seq<real> -> Option<real>,
    scaler: seq<real> -> Option<seq<real>>,
    fleetEncoder: string -> Option<real>,
    reliabilityEncoder: string -> Option<real>,
    reliabilityDecoder: real -> Option<ReliabilityCategory>,
    ageEncoder: string -> Option<real>)

  function ReliabilityCategoryOf(reliability: real): (c: ReliabilityCategory)
    ensures c == High <==> reliability >= 90.0
    ensures c == Medium <==> 75.0 <= reliability < 90.0
    ensures c == Low <==> 60.0 <= reliability < 75.0
    ensures c == Critical <==> reliability < 60.0
  {
    if reliability >= 90.0 then High
    else if reliability >= 75.0 then Medium
    else if reliability >= 60.0 then Low
    else Critical
  }

  function AgeCategoryOf(age: int): (c: AgeCategory)
    ensures c == New <==> age <= 5
    ensures c == Young <==> 5 < age <= 10
    ensures c == Mature <==> 10 < age <= 20
    ensures c == Old <==> age > 20
  {
    if age <= 5 then New else if age <= 10 then Young else if age <= 20 then Mature else Old
  }

  /** The label each category is encoded under. */
  function ReliabilityLabel(c: ReliabilityCategory): string
  {
    match c
    case High => "High"
    case Medium => "Medium"
    case Low => "Low"
    case Critical => "Critical"
  }

  function AgeLabel(c: AgeCategory): string
  {
    match c
    case New => "New"
    case Young => "Young"
    case Mature => "Mature"
    case Old => "Old"
  }

  /** The features derived from age and operating hours. */
  datatype Derived = Derived(
    availabilityDays: real,
    distanceTravelled: real,
    distancePerDay: real,
    totalFailures: real,
    reliability: real,
    failureRate: real,
    usageIntensity: real,
    maintenanceFrequency: real,
    fuelEfficiency: real,
    efficiencyScore: real,
    maintenanceScore: real,
    reliabilityCategory: ReliabilityCategory,
    ageCategory: AgeCategory,
    failureRatePerHour: real,
    distancePerHour: real,
    availabilityRate: real)

  /** Every ratio divides by max(1, ...), so no input divides by zero. */
  function Derive(age: int, hours: int): (d: Derived)
    ensures d.availabilityDays >= 300.0
    ensures d.totalFailures >= 0.0
    ensures d.reliability >= 60.0
    ensures d.maintenanceFrequency >= 2.0
    ensures d.fuelEfficiency >= 70.0
    ensures 60.0 <= d.maintenanceScore <= 80.0
    ensures d.efficiencyScore >= 65.0
    ensures d.distancePerDay * 365.0 == d.distanceTravelled
    ensures d.reliabilityCategory == ReliabilityCategoryOf(d.reliability)
    ensures d.ageCategory == AgeCategoryOf(age)
  {
    var availabilityDays := MaxR(300.0, (365 - age * 5) as real);
    var distanceTravelled := (hours * 50) as real;
    var distancePerDay := if availabilityDays > 0.0 then distanceTravelled / 365.0 else 0.0;
    var totalFailures := MaxR(0.0, (age * 2) as real + hours as real / 10000.0);
    var reliability := MaxR(60.0, 95.0 - (age * 2) as real - totalFailures * 5.0);
    var failureRate := totalFailures / MaxR(1.0, hours as real / 1000.0);
    var usageIntensity := hours as real / MaxR(1.0, (age * 365 * 24) as real);
    var maintenanceFrequency := MaxR(2.0, age as real * 0.5);
    var fuelEfficiency := MaxR(70.0, 90.0 - age as real * 1.5);
    var efficiencyScore := (reliability + fuelEfficiency) / 2.0;
    var maintenanceScore := MaxR(60.0, 100.0 - maintenanceFrequency * 10.0);
    Derived(availabilityDays, distanceTravelled, distancePerDay, totalFailures, reliability,
            failureRate, usageIntensity, maintenanceFrequency, fuelEfficiency, efficiencyScore,
            maintenanceScore, ReliabilityCategoryOf(reliability), AgeCategoryOf(age),
            totalFailures / MaxR(1.0, hours as real), distanceTravelled / MaxR(1.0, hours as real),
            availabilityDays / 365.0)
  }

  /** With no operating hours the guarded ratios stay finite: the per-hour
      failure rate is the failure count and the distance per hour is 0. */
  lemma ZeroHoursRatios(age: int)
    ensures var d := Derive(age, 0);
      && d.failureRatePerHour == d.totalFailures
      && d.failureRate == d.totalFailures
      && d.distancePerHour == 0.0
      && d.usageIntensity == 0.0
  {
  }

  /** Reliability is floored at 60, so the Critical category never occurs. */
  lemma NeverCritical(age: int, hours: int)
    ensures Derive(age, hours).reliabilityCategory != Critical
  {
  }

  /** DE10 is type 1, every other model type 2. */
  function LocoType(model: string): (t: real)
    ensures t == 1.0 <==> model == "DE10"
    ensures t == 1.0 || t == 2.0
  {
    if model == "DE10" then 1.0 else 2.0
  }

  /** The fleet label: the locomotive record has no fleet attribute, so
      the default 'NRZ' is what the encoder always receives. */
  const FleetLabel: string := "NRZ"

  /** The feature vector in training order: type, year, availability,
      distance, distance per day, failures, reliability, failure rate,
      age, usage intensity, maintenance frequency, fuel efficiency, hours,
      fleet code, efficiency score, maintenance score, reliability code,
      age code, failures per hour, distance per hour, availability rate. */
  function FeatureVector(model: string, year: int, age: int, hours: int, d: Derived,
                         fleetCode: real, reliabilityCode: real, ageCode: real): (v: seq<real>)
    ensures |v| == 21
  {
    [LocoType(model), year as real, d.availabilityDays, d.distanceTravelled, d.distancePerDay,
     d.totalFailures, d.reliability, d.failureRate, age as real, d.usageIntensity,
     d.maintenanceFrequency, d.fuelEfficiency, hours as real, fleetCode, d.efficiencyScore,
     d.maintenanceScore, reliabilityCode, ageCode, d.failureRatePerHour, d.distancePerHour,
     d.availabilityRate]
  }

  /** The prepared features, or None when an encoder fails. */
  function PrepareFeatures(bundle: ModelBundle, model: string, year: int, age: int, hours: int): (v: Option<seq<real>>)
    ensures v.None? <==>
              bundle.fleetEncoder(FleetLabel).None?
              || bundle.reliabilityEncoder(ReliabilityLabel(Derive(age, hours).reliabilityCategory)).None?
              || bundle.ageEncoder(AgeLabel(AgeCategoryOf(age))).None?
    ensures v.Some? ==> |v.value| == 21 && v.value[0] == LocoType(model) && v.value[1] == year as real
                        && v.value[8] == age as real && v.value[12] == hours as real
                        && v.value[2] >= 300.0 && v.value[5] >= 0.0 && v.value[6] >= 60.0
                        && v.value[10] >= 2.0 && v.value[11] >= 70.0 && v.value[15] >= 60.0
  {
    var d := Derive(age, hours);
    var fleetCode := bundle.fleetEncoder(FleetLabel);
    var reliabilityCode := bundle.reliabilityEncoder(ReliabilityLabel(d.reliabilityCategory));
    var ageCode := bundle.ageEncoder(AgeLabel(d.ageCategory));
    if fleetCode.None? || reliabilityCode.None? || ageCode.None? then None
    else Some(FeatureVector(model, year, age, hours, d, fleetCode.value, reliabilityCode.value, ageCode.value))
  }
}
