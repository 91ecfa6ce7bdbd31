/** The bulk prediction route: a textarea of locomotive numbers, one per
    line, becomes at most 20 ids; each id is looked up in the fleet and
    yields either a simplified prediction or a "not found" error. The
    simplified prediction uses the additive risk score, its own metric
    formulas, a reliability category read off the risk, and the same
    recommendation assembly as the service without the cut to six. */
module Bulk {
  import opened Common
  import opened Text
  import opened Locomotives
  import MlFeatures
  import opened Advice
  import opened MlService

  // ---------------------------------------------------------------------
  // Parsing the textarea.

  /** The stripped, non-blank lines, in order. */
  function NonBlankLines(lines: seq<string>): (ids: seq<string>)
    ensures |ids| <= |lines|
    ensures forall k :: 0 <= k < |ids| ==> ids[k] != [] && !IsSpace(ids[k][0]) && !IsSpace(ids[k][|ids[k]| - 1])
  {
    if lines == [] then []
    else (if Strip(lines[0]) != [] then [Strip(lines[0])] else []) + NonBlankLines(lines[1..])
  }

  /** The ids of the textarea: its lines split at each newline, stripped,
      and kept when not blank. */
  function ParseIds(text: string): (ids: seq<string>)
    ensures forall k :: 0 <= k < |ids| ==> ids[k] != [] && '\n' !in ids[k]
  {
    NonBlankLinesHaveNoNewline(SplitLines(text));
    NonBlankLines(SplitLines(text))
  }

  /** Every id is a stripped line of the text, and every line of the text
      that is not blank gives its id. */
  lemma ParseIdsMembers(text: string)
    ensures forall k :: 0 <= k < |ParseIds(text)| ==>
              exists j :: 0 <= j < |SplitLines(text)| && ParseIds(text)[k] == Strip(SplitLines(text)[j])
    ensures forall j :: 0 <= j < |SplitLines(text)| && Strip(SplitLines(text)[j]) != [] ==>
              Strip(SplitLines(text)[j]) in ParseIds(text)
  {
    NonBlankLinesFromLines(SplitLines(text));
    NonBlankLinesKeepLines(SplitLines(text));
    forall k | 0 <= k < |ParseIds(text)|
      ensures exists j :: 0 <= j < |SplitLines(text)| && ParseIds(text)[k] == Strip(SplitLines(text)[j])
    {
      assert ParseIds(text)[k] == NonBlankLines(SplitLines(text))[k];
    }
  }

  /** Every id is the stripped form of one of the lines. */
  lemma {:induction false} NonBlankLinesFromLines(lines: seq<string>)
    ensures forall k :: 0 <= k < |NonBlankLines(lines)| ==>
              exists j :: 0 <= j < |lines| && NonBlankLines(lines)[k] == Strip(lines[j])
  {
    if lines == [] {
      assert NonBlankLines(lines) == [];
    } else {
      var ids, tail := NonBlankLines(lines), lines[1..];
      var rest := NonBlankLines(tail);
      NonBlankLinesFromLines(tail);
      var head := if Strip(lines[0]) != [] then [Strip(lines[0])] else [];
      assert ids == head + rest;
      forall k | 0 <= k < |ids| ensures exists j :: 0 <= j < |lines| && ids[k] == Strip(lines[j]) {
        if k < |head| {
          assert 0 < |lines| && ids[k] == Strip(lines[0]);
        } else {
          assert ids[k] == rest[k - |head|];
          var j :| 0 <= j < |tail| && rest[k - |head|] == Strip(tail[j]);
          assert tail[j] == lines[j + 1];
          assert 0 <= j + 1 < |lines| && ids[k] == Strip(lines[j + 1]);
        }
      }
    }
  }

  /** Every line that is not blank gives its stripped form as an id. */
  lemma {:induction false} NonBlankLinesKeepLines(lines: seq<string>)
    ensures forall j :: 0 <= j < |lines| && Strip(lines[j]) != [] ==> Strip(lines[j]) in NonBlankLines(lines)
  {
    if lines != [] {
      var ids, tail := NonBlankLines(lines), lines[1..];
      var rest := NonBlankLines(tail);
      NonBlankLinesKeepLines(tail);
      var head := if Strip(lines[0]) != [] then [Strip(lines[0])] else [];
      assert ids == head + rest;
      forall j | 0 <= j < |lines| && Strip(lines[j]) != [] ensures Strip(lines[j]) in ids {
        if j == 0 {
          assert ids[0] == Strip(lines[0]);
        } else {
          assert lines[j] == tail[j - 1];
          assert Strip(tail[j - 1]) in rest;
        }
      }
    }
  }

  /** A text made of two texts joined by a newline yields the ids of the
      first followed by the ids of the second. */
  lemma ParseIdsJoin(a: string, b: string)
    ensures ParseIds(a + "\n" + b) == ParseIds(a) + ParseIds(b)
  {
    SplitLinesJoin(a, b);
    NonBlankLinesAppend(SplitLines(a), SplitLines(b));
  }

  /** A single line yields its stripped form when it is not blank, and
      nothing otherwise. */
  lemma ParseIdsLine(line: string)
    requires '\n' !in line
    ensures ParseIds(line) == if Strip(line) != [] then [Strip(line)] else []
  {
    SplitLinesOneLine(line);
    assert NonBlankLines([line]) == (if Strip(line) != [] then [Strip(line)] else []) + NonBlankLines([]);
  }

  /** The filter keeps the order of blocks of lines. */
  lemma {:induction false} NonBlankLinesAppend(a: seq<string>, b: seq<string>)
    ensures NonBlankLines(a + b) == NonBlankLines(a) + NonBlankLines(b)
  {
    if a == [] {
      assert a + b == b;
    } else {
      NonBlankLinesAppend(a[1..], b);
      DropFirstOfConcat(a, b);
      var head := if Strip(a[0]) != [] then [Strip(a[0])] else [];
      AppendAssoc(head, NonBlankLines(a[1..]), NonBlankLines(b));
    }
  }

  lemma {:induction false} NonBlankLinesHaveNoNewline(lines: seq<string>)
    requires forall k :: 0 <= k < |lines| ==> '\n' !in lines[k]
    ensures forall k :: 0 <= k < |NonBlankLines(lines)| ==> '\n' !in NonBlankLines(lines)[k]
  {
    if lines != [] {
      NonBlankLinesHaveNoNewline(lines[1..]);
      StripKeepsOut(lines[0], '\n');
    }
  }

  /** Stripping only removes characters, so it never brings one in. */
  lemma StripKeepsOut(s: string, c: char)
    requires c !in s
    ensures c !in Strip(s)
  {
    var left := StripLeft(s);
    var r := StripRight(left);
    var i := |s| - |left|;
    assert left == s[i..];
    assert r == left[..|r|];
    forall k | 0 <= k < |r| ensures r[k] != c {
      assert r[k] == left[k] == s[i + k];
    }
  }

  /** A textarea that is not blank always yields at least one id. */
  lemma NonBlankTextHasIds(text: string)
    requires Strip(text) != []
    ensures ParseIds(text) != []
  {
    SplitJoin(text);
    NonBlankLineExists(SplitLines(text));
  }

  lemma AllSpaceConcat(a: string, b: string)
    ensures AllSpace(a + b) <==> AllSpace(a) && AllSpace(b)
  {
    if AllSpace(a + b) {
      forall i | 0 <= i < |a| ensures IsSpace(a[i]) { assert a[i] == (a + b)[i]; }
      forall i | 0 <= i < |b| ensures IsSpace(b[i]) { assert b[i] == (a + b)[|a| + i]; }
    }
  }

  /** If some character of the joined lines is not whitespace, some line
      survives the filter. */
  lemma {:induction false} NonBlankLineExists(lines: seq<string>)
    requires |lines| >= 1
    requires !AllSpace(JoinLines(lines))
    ensures NonBlankLines(lines) != []
  {
    if Strip(lines[0]) == [] {
      assert AllSpace(lines[0]);
      var rest := JoinLines(lines[1..]);
      assert JoinLines(lines) == lines[0] + "\n" + rest;
      AllSpaceConcat(lines[0], "\n");
      AllSpaceConcat(lines[0] + "\n", rest);
      NonBlankLineExists(lines[1..]);
    }
  }

  // ---------------------------------------------------------------------
  // The simplified prediction.

  /** The bulk route's metric estimates over its fixed 365-day period. */
  function BulkMetricValue(m: Metric, age: int, hours: int): (v: real)
    ensures m == AvailabilityDays ==> v >= 200.0
    ensures m == TotalFailures ==> v >= 0.0
    ensures m == ReliabilityMetric ==> v >= 50.0
    ensures m == FuelEfficiencyMetric ==> v >= 60.0
  {
    match m
    case AvailabilityDays => MaxR(200.0, (365 - age * 8) as real)
    case DistanceTravelled => Trunc((hours * 45) as real * (BulkPeriodDays as real / 365.0)) as real
    case DistancePerDay => (120 - age * 2) as real
    case TotalFailures => FailuresEstimate(age)
    case ReliabilityMetric => ReliabilityEstimate(age)
    case FuelEfficiencyMetric => FuelEstimate(age)
  }

  const BulkPeriodDays: int := 365

  /** High below 30, Medium below 60, Low from 60. */
  function BulkCategory(risk: real): (c: MlFeatures.ReliabilityCategory)
    ensures c.High? <==> risk < 30.0
    ensures c.Medium? <==> 30.0 <= risk < 60.0
    ensures c.Low? <==> risk >= 60.0
  {
    if risk < 30.0 then MlFeatures.High else if risk < 60.0 then MlFeatures.Medium else MlFeatures.Low
  }

  function BulkPredictionOf(loco: Locomotive, predictionType: string, clock: Clock): PredictionResult
  {
    var age := Age(loco, clock.year);
    var request := RequestOf(predictionType);
    var risk := CalculateRiskScore(loco, clock.year, clock.today);
    var level := RiskLevel(loco, clock.year, clock.today);
    PredictionResult(predictionType, BulkPeriodDays, risk, level, BulkCategory(risk),
                     map m | m in MetricsFor(request) :: BulkMetricValue(m, age, loco.operatingHours),
                     AssembledAdvice(request, level, ReliabilityByRisk, GradeOfLevel(level), age, loco.operatingHours, clock.month),
                     SimplifiedBulkModel)
  }

  /** The simplified prediction holds exactly the requested metrics, is
      labelled as the bulk model, reads its category off the risk and
      lists 2 to 5 recommendations headed by the risk level, so the
      missing cut to six changes nothing. */
  lemma BulkPredictionFacts(loco: Locomotive, predictionType: string, clock: Clock)
    ensures var r := BulkPredictionOf(loco, predictionType, clock);
      && r.predictions.Keys == MetricsFor(RequestOf(predictionType))
      && r.predictionMethod == SimplifiedBulkModel
      && r.periodDays == 365
      && r.reliabilityCategory == BulkCategory(r.riskScore)
      && r.riskLevel == LevelOf(r.riskScore)
      && 2 <= |r.recommendations| <= 5
      && r.recommendations[0] == Headline(r.riskLevel)
  {
    var r := BulkPredictionOf(loco, predictionType, clock);
    AssembledAdviceShape(RequestOf(predictionType), r.riskLevel, ReliabilityByRisk, GradeOfLevel(r.riskLevel),
                         Age(loco, clock.year), loco.operatingHours, clock.month);
  }

  method BulkPrediction(loco: Locomotive, predictionType: string, clock: Clock) returns (r: PredictionResult)
    ensures r == BulkPredictionOf(loco, predictionType, clock)
  {
    var riskScore := CalculateRiskScore(loco, clock.year, clock.today);
    var riskLevel := RiskLevel(loco, clock.year, clock.today);
    var age := Age(loco, clock.year);
    var hours := loco.operatingHours;
    var request := RequestOf(predictionType);
    var predictions := FillPredictions(request, m => BulkMetricValue(m, age, hours));
    var recommendations := AssembleRecommendations(request, riskLevel, MlFeatures.Medium, age, hours, clock.month, false, true);
    var category := if riskScore < 30.0 then MlFeatures.High else if riskScore < 60.0 then MlFeatures.Medium else MlFeatures.Low;
    r := PredictionResult(predictionType, BulkPeriodDays, riskScore, riskLevel, category,
                          predictions, recommendations, SimplifiedBulkModel);
  }

  // ---------------------------------------------------------------------
  // The per-id loop.

  /** The first locomotive with the given number. */
  function FindLoco(fleet: seq<Locomotive>, id: string): (r: Option<Locomotive>)
    ensures r.Some? ==> r.value.locomotiveId == id && r.value in fleet
    ensures r.None? <==> forall k :: 0 <= k < |fleet| ==> fleet[k].locomotiveId != id
  {
    if fleet == [] then None
    else if fleet[0].locomotiveId == id then Some(fleet[0])
    else FindLoco(fleet[1..], id)
  }

  datatype BulkResult = BulkResult(locomotiveId: string, model: string, age: int, operatingHours: int,
                                   prediction: PredictionResult)

  /** "Locomotive <id> not found in database". */
  datatype BulkError = NotFound(id: string)

  function ResultOf(loco: Locomotive, predictionType: string, clock: Clock): BulkResult
  {
    BulkResult(loco.locomotiveId, loco.model, Age(loco, clock.year), loco.operatingHours,
               BulkPredictionOf(loco, predictionType, clock))
  }

  /** The results for a list of ids, one per id that is found, in order. */
  function ResultsFor(fleet: seq<Locomotive>, ids: seq<string>, predictionType: string, clock: Clock): seq<BulkResult>
  {
    if ids == [] then []
    else
      var last := ids[|ids| - 1];
      ResultsFor(fleet, ids[..|ids| - 1], predictionType, clock)
      + (match FindLoco(fleet, last) case Some(loco) => [ResultOf(loco, predictionType, clock)] case None => [])
  }

  /** The errors for a list of ids, one per id that is not found, in order. */
  function ErrorsFor(fleet: seq<Locomotive>, ids: seq<string>): seq<BulkError>
  {
    if ids == [] then []
    else
      var last := ids[|ids| - 1];
      ErrorsFor(fleet, ids[..|ids| - 1]) + (if FindLoco(fleet, last).None? then [NotFound(last)] else [])
  }

  /** The ids that are found, in input order. */
  function FoundIds(fleet: seq<Locomotive>, ids: seq<string>): seq<string>
  {
    if ids == [] then []
    else
      var last := ids[|ids| - 1];
      FoundIds(fleet, ids[..|ids| - 1]) + (if FindLoco(fleet, last).Some? then [last] else [])
  }

  /** The ids that are not found, in input order. */
  function MissingIds(fleet: seq<Locomotive>, ids: seq<string>): seq<string>
  {
    if ids == [] then []
    else
      var last := ids[|ids| - 1];
      MissingIds(fleet, ids[..|ids| - 1]) + (if FindLoco(fleet, last).None? then [last] else [])
  }

  /** An id is missing exactly when it is one of the ids and the fleet
      has no locomotive with that number; found and missing ids together
      are as many as the ids. */
  lemma {:induction false} MissingIdsMembers(fleet: seq<Locomotive>, ids: seq<string>)
    ensures forall x :: x in MissingIds(fleet, ids) <==> x in ids && FindLoco(fleet, x).None?
    ensures |FoundIds(fleet, ids)| + |MissingIds(fleet, ids)| == |ids|
  {
    if ids != [] {
      var init := ids[..|ids| - 1];
      MissingIdsMembers(fleet, init);
      assert ids == init + [ids[|ids| - 1]];
    }
  }

  /** The errors name the missing ids, one each, in input order. */
  lemma {:induction false} ErrorsMatchMissingIds(fleet: seq<Locomotive>, ids: seq<string>)
    ensures |ErrorsFor(fleet, ids)| == |MissingIds(fleet, ids)|
    ensures forall k :: 0 <= k < |MissingIds(fleet, ids)| ==> ErrorsFor(fleet, ids)[k].id == MissingIds(fleet, ids)[k]
  {
    if ids != [] {
      var init := ids[..|ids| - 1];
      ErrorsMatchMissingIds(fleet, init);
      var errors, missing := ErrorsFor(fleet, init), MissingIds(fleet, init);
      assert forall k :: 0 <= k < |missing| ==> errors[k].id == missing[k];
    }
  }

  /** Every id lands in exactly one of the two lists: the results carry
      the found ids in input order and the errors name the missing ids in
      input order. */
  lemma {:induction false} EachIdOnce(fleet: seq<Locomotive>, ids: seq<string>, predictionType: string, clock: Clock)
    ensures |ResultsFor(fleet, ids, predictionType, clock)| + |ErrorsFor(fleet, ids)| == |ids|
    ensures |ResultsFor(fleet, ids, predictionType, clock)| == |FoundIds(fleet, ids)|
    ensures forall k :: 0 <= k < |FoundIds(fleet, ids)| ==>
              ResultsFor(fleet, ids, predictionType, clock)[k].locomotiveId == FoundIds(fleet, ids)[k]
    ensures forall k :: 0 <= k < |ErrorsFor(fleet, ids)| ==> FindLoco(fleet, ErrorsFor(fleet, ids)[k].id).None?
    ensures |ErrorsFor(fleet, ids)| == |MissingIds(fleet, ids)|
    ensures forall k :: 0 <= k < |MissingIds(fleet, ids)| ==> ErrorsFor(fleet, ids)[k].id == MissingIds(fleet, ids)[k]
  {
    ResultsMatchFoundIds(fleet, ids, predictionType, clock);
    ErrorsAreMissing(fleet, ids);
    ErrorsMatchMissingIds(fleet, ids);
  }

  /** The results are as many as the found ids and carry them in order;
      with the errors they account for every id. */
  lemma {:induction false} ResultsMatchFoundIds(fleet: seq<Locomotive>, ids: seq<string>, predictionType: string, clock: Clock)
    ensures |ResultsFor(fleet, ids, predictionType, clock)| + |ErrorsFor(fleet, ids)| == |ids|
    ensures |ResultsFor(fleet, ids, predictionType, clock)| == |FoundIds(fleet, ids)|
    ensures forall k :: 0 <= k < |FoundIds(fleet, ids)| ==>
              ResultsFor(fleet, ids, predictionType, clock)[k].locomotiveId == FoundIds(fleet, ids)[k]
  {
    if ids != [] {
      var init := ids[..|ids| - 1];
      ResultsMatchFoundIds(fleet, init, predictionType, clock);
      var results, found := ResultsFor(fleet, init, predictionType, clock), FoundIds(fleet, init);
      assert |results| == |found|;
      assert forall k :: 0 <= k < |found| ==> results[k].locomotiveId == found[k];
    }
  }

  lemma {:induction false} ErrorsAreMissing(fleet: seq<Locomotive>, ids: seq<string>)
    ensures forall k :: 0 <= k < |ErrorsFor(fleet, ids)| ==> FindLoco(fleet, ErrorsFor(fleet, ids)[k].id).None?
  {
    if ids != [] {
      ErrorsAreMissing(fleet, ids[..|ids| - 1]);
    }
  }

  datatype BulkOutcome =
    | MissingInput    // no text or no prediction type
    | NoIds           // every line blank
    | TooMany         // more than 20 ids
    | Processed(results: seq<BulkResult>, errors: seq<BulkError>)

  /** bulk_predict: the input checks come before any lookup. */
  function BulkOutcomeOf(fleet: seq<Locomotive>, text: string, predictionType: Option<string>, clock: Clock): BulkOutcome
  {
    var trimmed := Strip(text);
    if trimmed == [] || predictionType.None? || predictionType.value == [] then MissingInput
    else
      var ids := ParseIds(trimmed);
      if ids == [] then NoIds
      else if |ids| > 20 then TooMany
      else Processed(ResultsFor(fleet, ids, predictionType.value, clock), ErrorsFor(fleet, ids))
  }

  /** Accepted input has 1 to 20 ids, each giving one result or one error;
      a non-blank text never hits the "no ids" branch. */
  lemma BulkOutcomeFacts(fleet: seq<Locomotive>, text: string, predictionType: Option<string>, clock: Clock)
    ensures var out := BulkOutcomeOf(fleet, text, predictionType, clock);
      && out != NoIds
      && (out.Processed? ==>
            && predictionType.Some?
            && 1 <= |out.results| + |out.errors| <= 20
            && |out.results| + |out.errors| == |ParseIds(Strip(text))|)
      && (out == TooMany <==> Strip(text) != [] && predictionType.Some? && predictionType.value != []
                              && |ParseIds(Strip(text))| > 20)
  {
    var trimmed := Strip(text);
    if trimmed != [] && predictionType.Some? && predictionType.value != [] {
      StripIdempotent(text);
      NonBlankTextHasIds(trimmed);
      var ids := ParseIds(trimmed);
      if |ids| <= 20 {
        EachIdOnce(fleet, ids, predictionType.value, clock);
      }
    }
  }

  /** Stripping twice changes nothing. */
  lemma StripIdempotent(s: string)
    ensures Strip(Strip(s)) == Strip(s)
  {
    var r := Strip(s);
    if r != [] {
      assert StripLeft(r) == r;
      assert StripRight(r) == r;
      assert Strip(r) == StripRight(StripLeft(r));
    }
  }

  /** The loop over the ids, appending to results or errors. */
  method ProcessIds(fleet: seq<Locomotive>, ids: seq<string>, predictionType: string, clock: Clock)
    returns (results: seq<BulkResult>, errors: seq<BulkError>)
    ensures results == ResultsFor(fleet, ids, predictionType, clock)
    ensures errors == ErrorsFor(fleet, ids)
  {
    results := [];
    errors := [];
    var i := 0;
    while i < |ids|
      invariant 0 <= i <= |ids|
      invariant results == ResultsFor(fleet, ids[..i], predictionType, clock)
      invariant errors == ErrorsFor(fleet, ids[..i])
    {
      assert ids[..i + 1][..i] == ids[..i] && ids[..i + 1][i] == ids[i];
      var found := FindLoco(fleet, ids[i]);
      if found.None? {
        errors := errors + [NotFound(ids[i])];
      } else {
        var loco := found.value;
        var prediction := BulkPrediction(loco, predictionType, clock);
        results := results + [BulkResult(loco.locomotiveId, loco.model, Age(loco, clock.year), loco.operatingHours, prediction)];
      }
      i := i + 1;
    }
    assert ids[..i] == ids;
  }

  /** bulk_predict: the input checks, then the loop. */
  method BulkPredict(fleet: seq<Locomotive>, text: string, predictionType: Option<string>, clock: Clock)
    returns (out: BulkOutcome)
    ensures out == BulkOutcomeOf(fleet, text, predictionType, clock)
  {
    var trimmed := Strip(text);
    if trimmed == [] || predictionType.None? || predictionType.value == [] {
      return MissingInput;
    }
    var ids := ParseIds(trimmed);
    if ids == [] {
      return NoIds;
    }
    if |ids| > 20 {
      return TooMany;
    }
    var results, errors := ProcessIds(fleet, ids, predictionType.value, clock);
    out := Processed(results, errors);
  }
}
