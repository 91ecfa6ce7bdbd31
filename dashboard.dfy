/** The dashboard figures computed from the whole fleet: the reliability
    bands of the performance chart, the mean reliability and the number of
    high-risk locomotives of the metrics endpoint, and the DE10 / DE11
    counts of the fleet-type chart. The locomotive query becomes the input
    sequence; the current year and today's day number are parameters. */
module Dashboard {
  import opened Common
  import opened Locomotives
  import opened Counting

  /** The reliability percentage of one locomotive. */
  function Reliability(loco: Locomotive, currentYear: int, today: int): (r: real)
    ensures 0.0 <= r <= 100.0
  {
    ReliabilityOf(Age(loco, currentYear), loco.operatingHours, DaysSince(loco, today), loco.currentStatus)
  }

  datatype Band = HighBand | MediumBand | LowBand

  /** At least 80 is high, at least 60 medium, anything lower low. */
  function BandOf(reliability: real): (band: Band)
    ensures band == HighBand <==> reliability >= 80.0
    ensures band == MediumBand <==> 60.0 <= reliability < 80.0
    ensures band == LowBand <==> reliability < 60.0
  {
    if reliability >= 80.0 then HighBand else if reliability >= 60.0 then MediumBand else LowBand
  }

  datatype Trends = Trends(high: nat, medium: nat, low: nat)

  /** The three reliability counts of the performance chart: each is the
      number of locomotives in its band, and together they cover the fleet. */
  function PerformanceTrends(fleet: seq<Locomotive>, currentYear: int, today: int): (t: Trends)
    ensures var band := (loco: Locomotive) => BandOf(Reliability(loco, currentYear, today));
      && t.high == |Select(fleet, band, HighBand)|
      && t.medium == |Select(fleet, band, MediumBand)|
      && t.low == |Select(fleet, band, LowBand)|
    ensures t.high + t.medium + t.low == |fleet|
  {
    var band := (loco: Locomotive) => BandOf(Reliability(loco, currentYear, today));
    ThreeWayCounts(fleet, band, HighBand, MediumBand, LowBand);
    Trends(|Select(fleet, band, HighBand)|, |Select(fleet, band, MediumBand)|, |Select(fleet, band, LowBand)|)
  }

  /** Every locomotive counted in a band has a reliability in that band. */
  lemma BandMembers(fleet: seq<Locomotive>, currentYear: int, today: int)
    ensures var band := (loco: Locomotive) => BandOf(Reliability(loco, currentYear, today));
      && (forall loco :: loco in Select(fleet, band, HighBand) ==> Reliability(loco, currentYear, today) >= 80.0)
      && (forall loco :: loco in Select(fleet, band, LowBand) ==> Reliability(loco, currentYear, today) < 60.0)
  {
    var band := (loco: Locomotive) => BandOf(Reliability(loco, currentYear, today));
    var high, low := Select(fleet, band, HighBand), Select(fleet, band, LowBand);
    assert forall i :: 0 <= i < |high| ==> band(high[i]) == HighBand;
    assert forall i :: 0 <= i < |low| ==> band(low[i]) == LowBand;
  }

  function TotalReliability(fleet: seq<Locomotive>, currentYear: int, today: int): (sum: real)
    ensures 0.0 <= sum <= 100.0 * |fleet| as real
  {
    if fleet == [] then 0.0
    else Reliability(fleet[0], currentYear, today) + TotalReliability(fleet[1..], currentYear, today)
  }

  /** The mean reliability to one decimal, and 0 for an empty fleet; it
      always lies in [0, 100]. */
  function AverageReliability(fleet: seq<Locomotive>, currentYear: int, today: int): (avg: real)
    ensures fleet == [] ==> avg == 0.0
    ensures fleet != [] ==>
      var mean := Mean(TotalReliability(fleet, currentYear, today), |fleet|);
      mean - 0.05 < avg <= mean + 0.05
    ensures 0.0 <= avg <= 100.0
  {
    if fleet == [] then 0.0
    else
      var mean := Mean(TotalReliability(fleet, currentYear, today), |fleet|);
      MeanWithin(TotalReliability(fleet, currentYear, today), |fleet|, 100.0);
      Round1Within(mean, 0, 100);
      Round1IsClose(mean);
      Round1(mean)
  }

  /** The number of locomotives whose risk level is High: exactly the size
      of the High class of the fleet grouped by risk level. */
  function HighRiskCount(fleet: seq<Locomotive>, currentYear: int, today: int): (n: nat)
    ensures n == |Select(fleet, (loco: Locomotive) => RiskLevel(loco, currentYear, today), High)|
    ensures n <= |fleet|
    ensures n == 0 <==> forall i :: 0 <= i < |fleet| ==> RiskLevel(fleet[i], currentYear, today) != High
    ensures n == |fleet| <==> forall i :: 0 <= i < |fleet| ==> RiskLevel(fleet[i], currentYear, today) == High
  {
    if fleet == [] then 0
    else
      var rest := HighRiskCount(fleet[1..], currentYear, today);
      var key := (loco: Locomotive) => RiskLevel(loco, currentYear, today);
      SelectCons(fleet[0], fleet[1..], key, High);
      assert [fleet[0]] + fleet[1..] == fleet;
      SelectAll(fleet, key, High);
      SelectNoneIff(fleet, key, High);
      (if RiskLevel(fleet[0], currentYear, today) == High then 1 else 0) + rest
  }

  /** The number of locomotives of one model. */
  function CountModel(fleet: seq<Locomotive>, model: string): (n: nat)
    ensures n <= |fleet|
  {
    if fleet == [] then 0
    else (if fleet[0].model == model then 1 else 0) + CountModel(fleet[1..], model)
  }

  /** The fleet-type chart: DE10 and DE11 only, so the two counts never
      exceed the fleet and locomotives of other models are not counted. */
  function FleetTypeDistribution(fleet: seq<Locomotive>): (counts: (nat, nat))
    ensures counts.0 == CountModel(fleet, "DE10") && counts.1 == CountModel(fleet, "DE11")
    ensures counts.0 + counts.1 <= |fleet|
  {
    TwoModelsBounded(fleet, "DE10", "DE11");
    (CountModel(fleet, "DE10"), CountModel(fleet, "DE11"))
  }

  /** Two different models are counted apart, so their counts add up to at
      most the fleet size, and exactly to it when no other model is present. */
  lemma {:induction false} TwoModelsBounded(fleet: seq<Locomotive>, a: string, b: string)
    requires a != b
    ensures CountModel(fleet, a) + CountModel(fleet, b) <= |fleet|
    ensures (forall i :: 0 <= i < |fleet| ==> fleet[i].model == a || fleet[i].model == b) ==>
      CountModel(fleet, a) + CountModel(fleet, b) == |fleet|
  {
    if fleet != [] {
      TwoModelsBounded(fleet[1..], a, b);
      assert forall i :: 1 <= i < |fleet| ==> fleet[i] == fleet[1..][i - 1];
    }
  }
}
