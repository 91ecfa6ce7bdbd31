/** A train movement read off a monthly graph: the metrics computed in
    place from its times, distance and load, and the summary of one month's
    movements. Times are seconds; the database query that picks a month's
    movements becomes a filter over a sequence of stored rows. */
module TrainMovements {
  import opened Common
  import opened Counting

  /** The three computed metrics; None while a metric has never been set. */
  datatype Metrics = Metrics(durationHours: Option<real>, averageSpeedKmh: Option<real>, loadEfficiency: Option<real>)

  /** The metrics after a recalculation, given the metrics before it. The
      duration is replaced when both times exist, the speed only when the
      distance is non-zero and the new duration positive, the efficiency
      only when there are wagons; anything not replaced is kept. */
  function Recalculated(departure: Option<int>, arrival: Option<int>, distanceKm: real,
                        loadTons: real, wagons: int, before: Metrics): (after: Metrics)
    ensures departure.Some? && arrival.Some? ==>
      after.durationHours == Some((arrival.value - departure.value) as real / 3600.0)
    ensures !(departure.Some? && arrival.Some?) ==> after.durationHours == before.durationHours
    ensures after.averageSpeedKmh != before.averageSpeedKmh ==>
      && departure.Some? && arrival.Some? && distanceKm != 0.0 && arrival.value > departure.value
      && after.averageSpeedKmh.Some? && after.averageSpeedKmh.value * after.durationHours.value == distanceKm
    ensures departure.Some? && arrival.Some? && distanceKm != 0.0 && arrival.value > departure.value ==>
      after.averageSpeedKmh.Some? && after.averageSpeedKmh.value * after.durationHours.value == distanceKm
    ensures wagons > 0 ==>
      after.loadEfficiency.Some? && after.loadEfficiency.value * (wagons * 50) as real == loadTons * 100.0
    ensures wagons <= 0 ==> after.loadEfficiency == before.loadEfficiency
  {
    var duration := if departure.Some? && arrival.Some?
                    then Some((arrival.value - departure.value) as real / 3600.0)
                    else before.durationHours;
    var speed := if departure.Some? && arrival.Some? && distanceKm != 0.0 && duration.value > 0.0
                 then Some(distanceKm / duration.value)
                 else before.averageSpeedKmh;
    var efficiency := if wagons > 0 then Some(loadTons / (wagons * 50) as real * 100.0)
                      else before.loadEfficiency;
    Metrics(duration, speed, efficiency)
  }

  /** Recalculating a second time changes nothing. */
  lemma RecalculateIdempotent(departure: Option<int>, arrival: Option<int>, distanceKm: real,
                              loadTons: real, wagons: int, before: Metrics)
    ensures var once := Recalculated(departure, arrival, distanceKm, loadTons, wagons, before);
            Recalculated(departure, arrival, distanceKm, loadTons, wagons, once) == once
  {
  }

  /** A stored row as the monthly query reads it. */
  datatype MovementRow = MovementRow(
    trainNumber: string,
    locomotiveNumber: string,
    distanceKm: real,
    loadTons: real,
    averageSpeedKmh: Option<real>,
    graphYear: int,
    graphMonth: int)

  class TrainMovement {
    var trainNumber: string
    var locomotiveNumber: string
    var departureTime: Option<int>
    var arrivalTime: Option<int>
    var loadTons: real
    var wagonsCount: int
    var distanceKm: real
    var graphYear: int
    var graphMonth: int
    var journeyDurationHours: Option<real>
    var averageSpeedKmh: Option<real>
    var loadEfficiency: Option<real>

    constructor(trainNumber: string, locomotiveNumber: string, departureTime: Option<int>, arrivalTime: Option<int>,
                loadTons: real, wagonsCount: int, distanceKm: real, graphYear: int, graphMonth: int)
      ensures this.trainNumber == trainNumber && this.locomotiveNumber == locomotiveNumber
      ensures this.departureTime == departureTime && this.arrivalTime == arrivalTime
      ensures this.loadTons == loadTons && this.wagonsCount == wagonsCount && this.distanceKm == distanceKm
      ensures this.graphYear == graphYear && this.graphMonth == graphMonth
      ensures CurrentMetrics() == Metrics(None, None, None)
    {
      this.trainNumber := trainNumber;
      this.locomotiveNumber := locomotiveNumber;
      this.departureTime := departureTime;
      this.arrivalTime := arrivalTime;
      this.loadTons := loadTons;
      this.wagonsCount := wagonsCount;
      this.distanceKm := distanceKm;
      this.graphYear := graphYear;
      this.graphMonth := graphMonth;
      this.journeyDurationHours := None;
      this.averageSpeedKmh := None;
      this.loadEfficiency := None;
    }

    function CurrentMetrics(): Metrics
      reads this
    {
      Metrics(journeyDurationHours, averageSpeedKmh, loadEfficiency)
    }

    /** The row the monthly summary reads for this movement. */
    function Row(): (row: MovementRow)
      reads this
      ensures row.trainNumber == trainNumber && row.locomotiveNumber == locomotiveNumber
      ensures row.distanceKm == distanceKm && row.loadTons == loadTons && row.averageSpeedKmh == averageSpeedKmh
      ensures row.graphYear == graphYear && row.graphMonth == graphMonth
    {
      MovementRow(trainNumber, locomotiveNumber, distanceKm, loadTons, averageSpeedKmh, graphYear, graphMonth)
    }

    /** Updates the three metrics in place; every other field keeps its value. */
    method CalculateMetrics()
      modifies this
      ensures CurrentMetrics() == Recalculated(departureTime, arrivalTime, distanceKm, loadTons, wagonsCount, old(CurrentMetrics()))
      ensures trainNumber == old(trainNumber) && locomotiveNumber == old(locomotiveNumber)
      ensures departureTime == old(departureTime) && arrivalTime == old(arrivalTime)
      ensures loadTons == old(loadTons) && wagonsCount == old(wagonsCount) && distanceKm == old(distanceKm)
      ensures graphYear == old(graphYear) && graphMonth == old(graphMonth)
    {
      if departureTime.Some? && arrivalTime.Some? {
        var duration := arrivalTime.value - departureTime.value;
        journeyDurationHours := Some(duration as real / 3600.0);
        if distanceKm != 0.0 && journeyDurationHours.value > 0.0 {
          averageSpeedKmh := Some(distanceKm / journeyDurationHours.value);
        }
      }
      if wagonsCount > 0 {
        var totalCapacity := wagonsCount * 50;
        loadEfficiency := Some(if totalCapacity > 0 then loadTons / totalCapacity as real * 100.0 else 0.0);
      }
    }
  }

  // ---------------------------------------------------------------------
  // Monthly summary.

  datatype MonthlySummary = MonthlySummary(
    totalMovements: nat,
    totalDistance: real,
    totalLoad: real,
    averageSpeed: real,
    uniqueTrains: nat,
    uniqueLocomotives: nat)

  /** The (year, month) a movement is filed under. */
  function MonthOf(row: MovementRow): (int, int)
  {
    (row.graphYear, row.graphMonth)
  }

  /** The rows of the given month, in their stored order: the month's class
      of the rows grouped by MonthOf, so every row of the month is kept and
      no other row is. */
  function InMonth(rows: seq<MovementRow>, year: int, month: int): (picked: seq<MovementRow>)
    ensures picked == Select(rows, MonthOf, (year, month))
    ensures |picked| <= |rows|
    ensures forall i :: 0 <= i < |picked| ==> picked[i].graphYear == year && picked[i].graphMonth == month
    ensures forall i :: 0 <= i < |rows| && rows[i].graphYear == year && rows[i].graphMonth == month ==> rows[i] in picked
    ensures picked == [] <==> forall i :: 0 <= i < |rows| ==> !(rows[i].graphYear == year && rows[i].graphMonth == month)
  {
    if rows == [] then []
    else
      var rest := InMonth(rows[1..], year, month);
      SelectCons(rows[0], rows[1..], MonthOf, (year, month));
      assert [rows[0]] + rows[1..] == rows;
      assert forall i :: 1 <= i < |rows| ==> rows[i] == rows[1..][i - 1];
      if rows[0].graphYear == year && rows[0].graphMonth == month then [rows[0]] + rest else rest
  }

  function TotalDistance(rows: seq<MovementRow>): real
  {
    if rows == [] then 0.0 else rows[0].distanceKm + TotalDistance(rows[1..])
  }

  function TotalLoad(rows: seq<MovementRow>): real
  {
    if rows == [] then 0.0 else rows[0].loadTons + TotalLoad(rows[1..])
  }

  /** A movement without a recorded speed adds 0. */
  function SpeedOrZero(row: MovementRow): real
  {
    match row.averageSpeedKmh
    case Some(v) => v
    case None => 0.0
  }

  function TotalSpeed(rows: seq<MovementRow>): real
  {
    if rows == [] then 0.0 else SpeedOrZero(rows[0]) + TotalSpeed(rows[1..])
  }

  function TrainNumbers(rows: seq<MovementRow>): (names: seq<string>)
    ensures |names| == |rows|
    ensures forall i :: 0 <= i < |rows| ==> names[i] == rows[i].trainNumber
  {
    if rows == [] then [] else [rows[0].trainNumber] + TrainNumbers(rows[1..])
  }

  function LocomotiveNumbers(rows: seq<MovementRow>): (names: seq<string>)
    ensures |names| == |rows|
    ensures forall i :: 0 <= i < |rows| ==> names[i] == rows[i].locomotiveNumber
  {
    if rows == [] then [] else [rows[0].locomotiveNumber] + LocomotiveNumbers(rows[1..])
  }

  /** The number of different values in a sequence. */
  function DistinctCount(names: seq<string>): (n: nat)
    ensures n <= |names|
    ensures names != [] ==> 1 <= n
  {
    var values := set x | x in names;
    CardinalityBound(names);
    assert names != [] ==> names[0] in values;
    |values|
  }

  /** A sequence holds at most as many different values as it has elements. */
  lemma {:induction false} CardinalityBound(names: seq<string>)
    ensures |set x | x in names| <= |names|
  {
    if names != [] {
      var init := names[..|names| - 1];
      CardinalityBound(init);
      assert names == init + [names[|names| - 1]];
      assert (set x | x in names) == (set x | x in init) + {names[|names| - 1]};
    }
  }

  /** None for a month without movements, otherwise the summary of the
      month's movements. */
  function MonthlySummaryOf(rows: seq<MovementRow>, year: int, month: int): (summary: Option<MonthlySummary>)
    ensures summary.None? <==> forall i :: 0 <= i < |rows| ==> !(rows[i].graphYear == year && rows[i].graphMonth == month)
    ensures summary.Some? ==> summary.value == SummaryOf(InMonth(rows, year, month))
  {
    var picked := InMonth(rows, year, month);
    if picked == [] then None else Some(SummaryOf(picked))
  }

  /** The summary of a non-empty list of movements: their count, the sums
      of distance and load, the mean speed (a missing speed counting as 0)
      and the numbers of different trains and locomotives. */
  function SummaryOf(picked: seq<MovementRow>): (summary: MonthlySummary)
    requires picked != []
    ensures summary.totalMovements == |picked|
    ensures summary.totalDistance == TotalDistance(picked) && summary.totalLoad == TotalLoad(picked)
    ensures summary.averageSpeed * |picked| as real == TotalSpeed(picked)
    ensures 1 <= summary.uniqueTrains <= |picked| && 1 <= summary.uniqueLocomotives <= |picked|
  {
    MonthlySummary(|picked|, TotalDistance(picked), TotalLoad(picked), Mean(TotalSpeed(picked), |picked|),
                   DistinctCount(TrainNumbers(picked)), DistinctCount(LocomotiveNumbers(picked)))
  }

  /** With every recorded speed in [0, top], the speeds add up to at most
      top per movement. */
  lemma {:induction false} TotalSpeedBounds(rows: seq<MovementRow>, top: real)
    requires 0.0 <= top
    requires forall r :: r in rows && r.averageSpeedKmh.Some? ==> 0.0 <= r.averageSpeedKmh.value <= top
    ensures 0.0 <= TotalSpeed(rows) <= Times(|rows|, top)
  {
    if rows != [] {
      assert rows[0] in rows;
      assert forall r :: r in rows[1..] ==> r in rows;
      TotalSpeedBounds(rows[1..], top);
    }
  }

  /** n copies of x added up. */
  function Times(n: nat, x: real): (r: real)
    ensures r == n as real * x
  {
    if n == 0 then 0.0 else x + Times(n - 1, x)
  }

  /** With every recorded speed in [0, top], the mean speed lies in [0, top]. */
  lemma MeanSpeedBounds(picked: seq<MovementRow>, top: real)
    requires picked != [] && 0.0 <= top
    requires forall r :: r in picked && r.averageSpeedKmh.Some? ==> 0.0 <= r.averageSpeedKmh.value <= top
    ensures 0.0 <= SummaryOf(picked).averageSpeed <= top
  {
    TotalSpeedBounds(picked, top);
    MeanWithin(TotalSpeed(picked), |picked|, top);
  }

  /** The same bound for the summary of a month. */
  lemma AverageSpeedBounds(rows: seq<MovementRow>, year: int, month: int, top: real)
    requires 0.0 <= top
    requires forall r :: r in rows && r.averageSpeedKmh.Some? ==> 0.0 <= r.averageSpeedKmh.value <= top
    ensures MonthlySummaryOf(rows, year, month).Some? ==>
      0.0 <= MonthlySummaryOf(rows, year, month).value.averageSpeed <= top
  {
    var picked := InMonth(rows, year, month);
    if picked != [] {
      InMonthMembers(rows, year, month);
      MeanSpeedBounds(picked, top);
    }
  }

  /** Every picked row is one of the input rows. */
  lemma {:induction false} InMonthMembers(rows: seq<MovementRow>, year: int, month: int)
    ensures forall r :: r in InMonth(rows, year, month) ==> r in rows
  {
    if rows != [] {
      InMonthMembers(rows[1..], year, month);
    }
  }
}
