# LPPS locomotive risk and performance engine in Dafny

This project models the core of LPPS, a locomotive performance and
prediction system written in Python and Flask. The core covers:

- **Locomotive primitives.** Age, the additive risk score and its
  Low/Medium/High level, the reliability percentage, the ordered
  maintenance items and the fleet utilisation (`locomotives`).
- **Prediction service.** It derives a 21-feature vector, rescales and
  clamps the trained model's risk output, fills the per-metric predictions
  for the requested key set and assembles the recommendation list. When the
  model bundle is missing or fails, it falls back to a formula-only
  prediction (`ml_service`, `ml_features`, `advice`).
- **Bulk prediction route.** It parses a textarea of locomotive ids (at
  most 20), and every id yields one result or one error. It uses its own
  copy of the recommendation helpers (`bulk`).
- **Prediction record.** Expiry, the risk colour, the recommendation table
  and the chart series. The random noise is an input (`prediction`).
- **Reports.** Fleet overview counts, maintenance schedule priority and
  its stable sort, utilisation, the failure report's own risk formula,
  the risk assessment through the service, and the maintenance-planning
  tiers (`reports`).
- **User validators.** Username, email and password strength, the
  strength meter, the full name, the edit-profile validation and the
  change-password check order (`users`).
- **Small components.** Maintenance record status (`maintenance`),
  train-movement metrics and the monthly summary (`train_movement`),
  dashboard counts (`dashboard`) and template filters (`filters`).

The model follows a few conventions:

- **Dates.** The current year, the current month and today's day number
  are parameters. A date is a day number.
- **Queries.** Database query results are input sequences.
- **Uniqueness.** A uniqueness query is membership in a given set.
- **Model objects.** The trained model, scaler and encoders are function
  values that return a result or a failure (`MlFeatures.ModelBundle`).
- **Mutable objects.** An object whose fields the source updates in place
  is a class: `MlService.LocomotiveMLService`, `Predictions.Prediction`,
  `Users.User` and `TrainMovements.TrainMovement`.
- **Lists built step by step.** Each is a method proved equal to a pure
  function that describes the list. The properties are lemmas about that
  function.
- **Recommendation strings.** They are tags of the datatype `Advice.Rec`.
  The bulk copy's mis-encoded strings map to the same tags as the
  service's strings.

The three risk formulas stay separate, as in the source:

- `Locomotives.RiskScoreOf` is the locomotive's own score.
- `Reports.FailureRisk` is the failure report's score.
- `MlService.Rescale` is the rescaled model output.

Only the model path trims its recommendation list to six items
(`recommendations[:6]` at app/loco_ml_service.py:291). The fallback builder
at app/loco_ml_service.py:443-503 never trims its list, and
`Advice.FallbackAdviceReachesEleven` exhibits an input that gives eleven
items.

## Model

| member | source | states |
|---|---|---|
| Common.Trunc | app/loco_ml_service.py:213 | `int()` truncates toward zero: the result lies within one unit of x, on the side of zero |
| Common.Round1IsClose | app/models/locomotive.py:167 | rounding to one decimal moves a value by at most half a unit of that decimal |
| Common.Round1Monotone | app/routes/reports.py:302 | rounding to one decimal preserves order |
| Common.Mean | app/routes/main.py:56 | the mean times the count gives back the total |
| Text.Strip | app/routes/user.py:39-42 | the stripped string has no whitespace at either end, and it is empty iff the input is all whitespace |
| Text.StripSlice | app/routes/user.py:39-42 | the stripped string is the slice of the input after its leading whitespace, and only whitespace lies before and after that slice |
| Text.SplitLinesJoin | app/routes/loco_predictions.py:216 | splitting two texts joined by a newline gives the pieces of the first followed by the pieces of the second |
| Text.SplitLinesOneLine | app/routes/loco_predictions.py:216 | a text without a newline splits into itself alone |
| Text.SplitJoin | app/routes/loco_predictions.py:216 | splitting on newlines and joining again with newlines gives back the text |
| Text.SplitLines | app/routes/loco_predictions.py:216 | splitting gives at least one piece, and no piece contains a newline |
| Text.DecimalString | app/models/prediction.py:75 | a day number renders as a non-empty string of decimal digits whose value is that number, with no leading zero |
| Text.DecimalStringInjective | app/models/prediction.py:75 | different numbers render as different strings |
| Sorting.SortDesc | app/routes/reports.py:256 | the descending sort by a real key is sorted and is a permutation of its input |
| Sorting.SortDescIsStable | app/routes/reports.py:308 | the descending sort keeps the input order among entries with equal keys |
| Sorting.InsertPermutes | app/routes/reports.py:437 | inserting into a sorted list adds exactly that element |
| Sorting.Take | app/routes/reports.py:444 | taking the first n keeps a prefix of length min(n, length) |
| Counting.SelectCons | app/routes/reports.py:608-612 | selecting from a sequence with one more element in front adds that element in front exactly when its key matches |
| Counting.SelectMembers | app/routes/reports.py:608-612 | an element is selected iff it occurs and its key matches |
| Counting.SelectAll | app/routes/main.py:59 | everything is selected iff every key matches |
| Counting.SelectNoneIff | app/routes/main.py:59 | nothing is selected iff no key matches |
| Counting.ThreeWayCounts | app/routes/main.py:91-93 | when every key is one of three distinct classes, the three class sizes add up to the length |
| Counting.FourWayCounts | app/routes/reports.py:172-182 | when every key is one of four distinct classes, the four class sizes add up to the length |
| Counting.CountsPartition | app/routes/reports.py:164-169 | when all keys lie among distinct listed classes, the class sizes sum to the length |
| Counting.ThreeWayPermutation | app/routes/reports.py:608-612 | when every key is one of three distinct classes, the three classes together are a permutation of the input |
| Locomotives.Age | app/models/locomotive.py:34-36 | the age is the current year minus the manufacturing year |
| Locomotives.DaysSince | app/models/locomotive.py:67-71 | there is no day count without a maintenance date; otherwise the date plus the count is today |
| Locomotives.AgeRisk | app/models/locomotive.py:62 | the age component is 2 times the age, capped at 50 |
| Locomotives.UsageRisk | app/models/locomotive.py:63 | the usage component is hours/1000 times 0.6, capped at 30 |
| Locomotives.MaintenanceRisk | app/models/locomotive.py:64-71 | the maintenance component is days times 0.2, capped at 20, and a missing record scores 20 |
| Locomotives.RiskScoreOf | app/models/locomotive.py:60-74 | the score is the sum of the three components, capped at 100, and lies in [0, 100] for non-negative inputs |
| Locomotives.CalculateRiskScore | app/models/locomotive.py:60-74 | the score is at most 100, and at least 0 when the locomotive is not from the future and the maintenance date is not after today |
| Locomotives.RiskScoreMonotone | app/models/locomotive.py:62-71 | the score does not decrease when age, hours or days since maintenance grow, or when a record goes missing |
| Locomotives.MissingRecordLikeLongGap | app/models/locomotive.py:69-71 | a missing record scores the same as 100 or more days since maintenance |
| Locomotives.LevelOf | app/models/locomotive.py:79-84 | High at 70 or more, Medium from 40 up to 70, Low below 40 |
| Locomotives.RiskLevel | app/models/locomotive.py:76-84 | the level of a locomotive is the level of its risk score |
| Locomotives.MaintenanceDeduction | app/models/locomotive.py:99-106 | there is no deduction up to 90 days; beyond that it is 0.1 per day over 90, capped at 15; a missing record deducts 15 |
| Locomotives.StatusDeduction | app/models/locomotive.py:108-112 | 'repair' deducts 25, 'maintenance' deducts 10, and every other status deducts 0 |
| Locomotives.Clamp100 | app/models/locomotive.py:115 | values outside [0, 100] are clamped to the nearer bound, and values inside are kept |
| Locomotives.ReliabilityOf | app/models/locomotive.py:86-115 | the reliability percentage always lies in [0, 100] |
| Locomotives.CalculateReliability | app/models/locomotive.py:86-115 | the running deductions give the reliability function's value, which lies in [0, 100] |
| Locomotives.MaintenanceItemsOrdered | app/models/locomotive.py:117-150 | the items come in the fixed order engine, transmission, routine, inspection |
| Locomotives.MaintenanceItemsPresence | app/models/locomotive.py:122-148 | each item is present iff its condition holds: age > 20, hours > 50000, no record or more than 90 days, score > 60 |
| Locomotives.MaintenanceItemsPriority | app/models/locomotive.py:125-146 | the engine item is High iff age > 25; every other item is High |
| Locomotives.MaintenanceItemsOf | app/models/locomotive.py:117-150 | there are at most four maintenance items |
| Locomotives.MaintenanceRecommendations | app/models/locomotive.py:117-150 | the appended list equals the item table of the locomotive's age, hours, days and risk score |
| Locomotives.UtilisationBounds | app/models/locomotive.py:167 | utilisation is the active share in percent, to within 0.05; it lies in [0, 100], and it is 0 for an empty fleet |
| Locomotives.FleetStatisticsOf | app/models/locomotive.py:153-168 | the total is the fleet size, the four status counts add up to at most the total, and utilisation is a percentage |
| Locomotives.StatusCountsBounded | app/models/locomotive.py:155-159 | the four status counts never exceed the fleet size |
| MlFeatures.ReliabilityCategoryOf | app/loco_ml_service.py:75-82 | High at 90 or more, Medium at 75 or more, Low at 60 or more, else Critical |
| MlFeatures.AgeCategoryOf | app/loco_ml_service.py:84-91 | New up to age 5, Young up to 10, Mature up to 20, else Old |
| MlFeatures.Derive | app/loco_ml_service.py:61-102 | the derived features have floors: availability at least 300, failures at least 0, reliability at least 60, maintenance frequency at least 2, fuel at least 70, maintenance score in [60, 80], efficiency at least 65; the categories follow the category tables |
| MlFeatures.ZeroHoursRatios | app/loco_ml_service.py:66-101 | zero operating hours give finite ratios: failure rate per hour equals total failures, and distance per hour is 0 |
| MlFeatures.NeverCritical | app/loco_ml_service.py:65-82 | the derived reliability category is never Critical, because reliability is at least 60 |
| MlFeatures.LocoType | app/loco_ml_service.py:54 | DE10 encodes as 1 and every other model as 2 |
| MlFeatures.FeatureVector | app/loco_ml_service.py:105-127 | the feature vector has 21 entries |
| MlFeatures.PrepareFeatures | app/loco_ml_service.py:50-135 | features are missing iff an encoder rejects its label; otherwise there are 21 entries, and the type, year, age, hours and floored features sit at their training positions |
| Advice.SeasonOf | app/loco_ml_service.py:408-411 | winter is months 12, 1 and 2 and summer is months 6 to 8, so the two cannot overlap |
| Advice.GradeOfLevel | app/loco_ml_service.py:297-309 | the tier of a risk-level helper follows the risk level |
| Advice.ReliabilityGrade | app/loco_ml_service.py:376-384 | the service reliability tier is severe for Critical, moderate for Low, and mild otherwise |
| Advice.FuelGrade | app/loco_ml_service.py:395-403 | POOR iff age > 20 and hours > 50000, else MODERATE iff age > 15 or hours > 40000, else GOOD |
| Advice.TopicAdvice | app/loco_ml_service.py:293-413 | every helper gives between 2 and 4 lines and never the "continue" line |
| Advice.TopicAdviceFacts | app/loco_ml_service.py:293-413 | two tier lines come first; the aged line appears iff its helper has one and age > 20, the usage line iff hours > 50000, and a season line only for fuel in winter or summer |
| Advice.AvailabilityRecommendations | app/loco_ml_service.py:293-310 | the appended list equals the availability helper's table |
| Advice.DistanceRecommendations | app/loco_ml_service.py:312-329 | the appended list equals the distance helper's table |
| Advice.DailyDistanceRecommendations | app/loco_ml_service.py:331-348 | the appended list equals the daily-distance helper's table |
| Advice.FailureRecommendations | app/loco_ml_service.py:350-370 | the appended list equals the failure helper's table |
| Advice.ReliabilityRecommendations | app/loco_ml_service.py:372-389 | the appended list equals the reliability helper's table, with the tier taken from the reliability category |
| Advice.ReliabilityByRiskRecommendations | app/routes/loco_predictions.py:444-461 | the bulk reliability helper takes its tier from the risk level instead |
| Advice.FuelEfficiencyRecommendations | app/loco_ml_service.py:391-413 | the appended list equals the fuel helper's table, with the tier taken from age and hours |
| Advice.RequestOf | app/loco_ml_service.py:209-249 | each of the seven recognised prediction types maps to its own request, and any other string is unrecognised |
| Advice.AssembledAdviceShape | app/loco_ml_service.py:259-291 | the risk statement comes first; there are 2 to 5 items; the "continue" line appears iff the type is unrecognised |
| Advice.RequestAdviceShape | app/loco_ml_service.py:267-285 | the type-specific part has at most 4 items and is empty iff the type is unrecognised |
| Advice.AllRequestAdvice | app/loco_ml_service.py:280-285 | 'all' gives exactly the risk statement followed by the first availability, daily-distance, fuel and failure lines |
| Advice.ServiceCutIsInert | app/loco_ml_service.py:291 | the service's cut to six items never removes anything |
| Advice.AssembleRecommendations | app/loco_ml_service.py:253-291 | the built list equals the assembled advice, cut to six in the service and uncut in the bulk copy |
| Advice.RequestRecommendations | app/loco_ml_service.py:267-285 | the dispatch appends exactly the type-specific part |
| Advice.FallbackAdviceBounds | app/loco_ml_service.py:443-503 | the fallback list has 3 to 11 items, starts with the two risk lines and never needs the "continue" line |
| Advice.FallbackAdviceReachesEleven | app/loco_ml_service.py:443-503 | a high-risk, aged, heavily used DE10 in winter with poor fuel gets 11 items, since the fallback builder, unlike the model path at line 291, never trims its list |
| Advice.AppendAgeAdvice | app/loco_ml_service.py:457-465 | appends exactly the fallback's age lines and keeps what came before |
| Advice.AppendUsageAdvice | app/loco_ml_service.py:467-472 | appends exactly the fallback's usage lines and keeps what came before |
| Advice.AppendSeasonAdvice | app/loco_ml_service.py:474-482 | appends exactly the fallback's season lines and keeps what came before |
| Advice.AppendFuelAdvice | app/loco_ml_service.py:484-493 | appends exactly the fallback's fuel lines for the predicted efficiency and keeps what came before |
| Advice.AppendFleetAdvice | app/loco_ml_service.py:495-499 | appends exactly the fallback's fleet line for the model and keeps what came before |
| Advice.FallbackRecommendations | app/loco_ml_service.py:443-503 | the appended list equals the fallback advice table |
| MlService.MetricsFor | app/loco_ml_service.py:209-249 | 'all' requests all six metrics, a single type requests its own metric, and any other string requests none |
| MlService.MetricsForAll | app/loco_ml_service.py:209-249 | every metric is requested by 'all' |
| MlService.FillPredictions | app/loco_ml_service.py:203-251 | filling the dictionary key by key gives exactly the requested metrics, each with its value |
| MlService.Rescale | app/loco_ml_service.py:158-165 | the rescaled score is raw times 8 plus age times 1.5 plus hours/1000 times 0.3 below a raw 10, or raw times 2 plus age times 0.5 otherwise, clamped to [5, 100] |
| MlService.MlMetricValue | app/loco_ml_service.py:209-249 | every metric is at least 0; reliability and fuel lie in [0, 100]; availability, distance and failures are whole numbers |
| MlService.GenerateSpecificPredictions | app/loco_ml_service.py:201-251 | the keys are exactly the requested set; availability, distance and failures are at least 0; reliability and fuel lie in [0, 100] |
| MlService.Inference | app/loco_ml_service.py:149-154 | inference succeeds iff the scaler, both models and the decoder all succeed |
| MlService.FallbackMetricValue | app/loco_ml_service.py:425-441 | the fallback gives availability at least 200, failures at least 0, reliability at least 50 and fuel at least 60 |
| MlService.FallbackResultFacts | app/loco_ml_service.py:415-515 | the fallback reports category Medium and the 'Fallback Method' label; its keys are the requested set, its level matches its score, and it has 3 to 11 recommendations |
| MlService.FallbackPoorFuelIffFuelNotRequested | app/loco_ml_service.py:485-488 | the POOR FUEL lines appear iff fuel efficiency is not among the requested keys, because a missing key counts as 0 |
| MlService.FallbackPrediction | app/loco_ml_service.py:415-515 | the built result equals the fallback result |
| MlService.PerformanceRouting | app/loco_ml_service.py:137-199 | the result is the fallback exactly when models are not loaded, features are missing or inference fails; otherwise the score lies in [5, 100], the level matches it, the keys are the requested set and there are 2 to 5 recommendations |
| MlService.LocomotiveMLService.constructor | app/loco_ml_service.py:12-23 | the loaded flag is set iff a model bundle is present |
| MlService.LocomotiveMLService.LoadModels | app/loco_ml_service.py:25-48 | loading sets the flag iff every artifact loaded, and keeps the bundle |
| MlService.LocomotiveMLService.PredictPerformance | app/loco_ml_service.py:137-199 | the prediction equals the routed performance result for the service's loaded models |
| MlService.MlPrediction | app/loco_ml_service.py:156-195 | the model path's result equals the rescaled, levelled and assembled result |
| Bulk.NonBlankLines | app/routes/loco_predictions.py:216 | every kept id is non-empty and has no whitespace at either end, and there are no more ids than lines |
| Bulk.NonBlankLinesFromLines | app/routes/loco_predictions.py:216 | every kept id is the stripped form of one of the lines |
| Bulk.NonBlankLinesKeepLines | app/routes/loco_predictions.py:216 | every line that is not blank after stripping gives its stripped form as an id |
| Bulk.NonBlankLinesAppend | app/routes/loco_predictions.py:216 | the ids of two blocks of lines are the ids of the first block followed by those of the second, so the filter keeps line order |
| Bulk.ParseIds | app/routes/loco_predictions.py:216 | every parsed id is non-empty and contains no newline |
| Bulk.ParseIdsMembers | app/routes/loco_predictions.py:216 | every id is the stripped form of a line of the text, and every non-blank line of the text gives its id |
| Bulk.ParseIdsJoin | app/routes/loco_predictions.py:216 | the ids of two texts joined by a newline are the ids of the first followed by the ids of the second |
| Bulk.ParseIdsLine | app/routes/loco_predictions.py:216 | a single line gives its stripped form as the only id when it is not blank, and no id otherwise |
| Bulk.NonBlankTextHasIds | app/routes/loco_predictions.py:216-220 | a text that is not blank after stripping yields at least one id, so the "at least one" error is unreachable |
| Bulk.StripIdempotent | app/routes/loco_predictions.py:216 | stripping twice is stripping once |
| Bulk.BulkMetricValue | app/routes/loco_predictions.py:247-263 | bulk predictions give availability at least 200, failures at least 0, reliability at least 50 and fuel at least 60 |
| Bulk.BulkCategory | app/routes/loco_predictions.py:304 | the category is High below risk 30, Medium below 60, and Low otherwise |
| Bulk.BulkPredictionFacts | app/routes/loco_predictions.py:239-309 | the keys are the requested set, the label is 'Simplified Bulk Model', the period is 365, the level matches the score, and there are 2 to 5 recommendations headed by the risk statement |
| Bulk.BulkPrediction | app/routes/loco_predictions.py:239-309 | the built result equals the bulk prediction function |
| Bulk.FindLoco | app/routes/loco_predictions.py:232-236 | the lookup finds a locomotive with that id, and finds none iff no locomotive has it |
| Bulk.MissingIdsMembers | app/routes/loco_predictions.py:234-236 | an id is missing iff it is one of the ids and no locomotive has it; found and missing ids together number the ids |
| Bulk.ErrorsMatchMissingIds | app/routes/loco_predictions.py:234-236 | the k-th error names the k-th missing id, and there are as many errors as missing ids |
| Bulk.EachIdOnce | app/routes/loco_predictions.py:229-337 | every id contributes exactly one result or one error; the results carry the found ids and the errors name the missing ids, both in input order |
| Bulk.ErrorsAreMissing | app/routes/loco_predictions.py:234-236 | every error names an id that is not in the fleet |
| Bulk.ResultsMatchFoundIds | app/routes/loco_predictions.py:229-333 | the results are exactly the found ids, in input order, and results plus errors number the ids |
| Bulk.ProcessIds | app/routes/loco_predictions.py:226-337 | the loop's results and errors equal the per-id functions |
| Bulk.BulkOutcomeFacts | app/routes/loco_predictions.py:207-337 | more than 20 ids is rejected iff the text is non-blank and a type is given; otherwise 1 to 20 ids each give one entry |
| Bulk.BulkPredict | app/routes/loco_predictions.py:205-337 | the route's outcome equals the bulk outcome function |
| Predictions.Prediction.constructor | app/models/prediction.py:20-29 | the fields are stored, an empty recommendation list is stored as missing, and the record expires period days after creation |
| Predictions.Prediction.IsExpired | app/models/prediction.py:45-48 | the record is expired iff now is after its expiry |
| Predictions.ExpiresAt | app/models/prediction.py:29 | the expiry lies period days after creation |
| Predictions.ExpiryWindow | app/models/prediction.py:46-48 | the record is expired iff more than period days have passed; it is not expired at creation; once expired it stays expired |
| Predictions.RiskColorOf | app/models/prediction.py:50-57 | Low is success, Medium is warning, High is danger, and anything else is secondary |
| Predictions.Prediction.RiskColor | app/models/prediction.py:50-57 | a record's colour is the colour of its risk level |
| Predictions.PerformancePoint | app/models/prediction.py:78-79 | each performance point is at least 20 and within 0.05 of the degraded, noisy value |
| Predictions.RiskPoint | app/models/prediction.py:82-83 | each risk point is at most 95 and within 0.05 of the growing, noisy value |
| Predictions.TrendsWithoutNoise | app/models/prediction.py:78-83 | without noise, performance never rises and risk never falls from day to day |
| Predictions.DayLabel | app/models/prediction.py:75 | every label starts with "Day " and has more after it |
| Predictions.DayLabelSpellsDay | app/models/prediction.py:75 | after "Day " the label is the day's decimal digits, whose value is the day, with no leading zero |
| Predictions.DayLabelsDistinct | app/models/prediction.py:75 | different days get different labels |
| Predictions.GeneratePredictionData | app/models/prediction.py:60-89 | the three series have period-days entries; label i is day i+1; each point follows its formula with the given noise; performance is at least 20 and risk is at most 95 |
| Predictions.AgeRecommendations | app/models/prediction.py:96-112 | there is at most one age item |
| Predictions.UsageRecommendations | app/models/prediction.py:114-130 | there is at most one usage item |
| Predictions.MaintenanceHistoryRecommendations | app/models/prediction.py:132-158 | there is at most one maintenance-history item |
| Predictions.RiskRecommendations | app/models/prediction.py:160-169 | there is at most one risk item |
| Predictions.RecommendationsOf | app/models/prediction.py:92-171 | there are at most four recommendations |
| Predictions.RecommendationsOrdered | app/models/prediction.py:92-171 | the items come in the order age, usage, maintenance, risk |
| Predictions.TableKinds | app/models/prediction.py:92-171 | the table is the four groups' items concatenated |
| Predictions.AgeAndUsagePresence | app/models/prediction.py:97-130 | Major Overhaul iff age > 25, Engine Inspection iff age is in (20, 25], Transmission Overhaul iff hours > 60000, and Transmission Service iff hours are in (40000, 60000] |
| Predictions.HistoryAndRiskPresence | app/models/prediction.py:133-169 | Routine iff there is no record; overdue by days minus 90 iff days > 90; Scheduled iff days are in (60, 90]; Comprehensive Inspection iff risk > 70 |
| Predictions.MaintenancePresence | app/models/prediction.py:133-158 | Routine iff there is no record; overdue by days minus 90 iff days > 90; Scheduled iff days are in (60, 90] |
| Predictions.AgeKinds | app/models/prediction.py:97-112 | the age group holds Major Overhaul above 25 years, Engine Inspection above 20, and nothing otherwise |
| Predictions.UsageKinds | app/models/prediction.py:114-130 | the usage group holds Transmission Overhaul above 60000 hours, Transmission Service above 40000, and nothing otherwise |
| Predictions.MaintenanceKinds | app/models/prediction.py:132-158 | the maintenance group holds Routine without a record, the overdue item above 90 days, Scheduled above 60, and nothing otherwise |
| Predictions.RiskKinds | app/models/prediction.py:160-169 | the risk group holds Comprehensive Inspection above a score of 70, and nothing otherwise |
| Predictions.RecommendationsPriority | app/models/prediction.py:97-169 | an item is High iff it is an overhaul, routine, overdue or comprehensive item |
| Predictions.GenerateRecommendations | app/models/prediction.py:92-171 | the appended list equals the recommendation table for the locomotive |
| Reports.OverviewStats | app/routes/reports.py:149-161 | the overview's status counts equal the fleet statistics' counts and sum to at most the total |
| Reports.ModelDistribution | app/routes/reports.py:163-169 | every model appears once; each count is the number of locomotives of that model; the counts sum to the fleet size |
| Reports.TalliedAddsUp | app/routes/reports.py:163-169 | the tallied model counts sum to the fleet size |
| Reports.AgeGroupOf | app/routes/reports.py:175-182 | the groups are up to 10, 11 to 20, 21 to 30, and over 30 |
| Reports.AgeCountsAddUp | app/routes/reports.py:172-182 | the four age-group counts sum to the fleet size |
| Reports.AgeDistribution | app/routes/reports.py:171-182 | each counter is the size of its age group, and the counters sum to the fleet size |
| Reports.BasePriority | app/routes/reports.py:209-213 | High iff age > 25 or hours > 50000; otherwise Medium iff age > 20 or hours > 40000 |
| Reports.SchedulePriority | app/routes/reports.py:209-218 | more than 60 days forces High, 31 to 60 days forces Medium, and 0 or missing days leave the base priority |
| Reports.ScheduleEntries | app/routes/reports.py:203-224 | there is one schedule entry per locomotive, in fleet order |
| Reports.ByPriorityBlocks | app/routes/reports.py:226-228 | the sorted schedule is all High entries, then all Medium, then all Low |
| Reports.ByPrioritySortedPermutation | app/routes/reports.py:226-228 | the sorted schedule is a permutation ordered by priority rank |
| Reports.MaintenanceSchedule | app/routes/reports.py:196-237 | the report lists every locomotive once, ordered by priority |
| Reports.UtilisationRate | app/routes/reports.py:247 | the rate is 100 - 2*age - hours/1000, clamped to [0, 100] |
| Reports.UtilisationStatus | app/routes/reports.py:252 | High at 80 or more, Medium from 60 up to 80, Low below 60 |
| Reports.UtilisationEntryOf | app/routes/reports.py:249-253 | the stored rate is a percentage, and the status is taken from the unrounded rate |
| Reports.UtilisationEntries | app/routes/reports.py:245-253 | there is one entry per locomotive, in fleet order |
| Reports.UtilisationAnalysis | app/routes/reports.py:239-265 | the entries are sorted by descending rate, form a permutation, and every rate lies in [0, 100] |
| Reports.FailureRisk | app/routes/reports.py:275-282 | the failure report's score is at most 100, and non-negative for non-negative inputs |
| Reports.FailureRiskMissingRecord | app/routes/reports.py:277-280 | a missing record contributes 0 here, the same as a maintenance today |
| Reports.FailureRiskAgainstCoreScore | app/routes/reports.py:275-282 | with a record, this score is at least the locomotive's own score; without one, it is at most that score |
| Reports.FailureAdviceOf | app/routes/reports.py:292-298 | there are at most 3 distinct lines: engine iff age > 20, transmission iff hours > 50000, routine iff no record or more than 90 days |
| Reports.FailureEntries | app/routes/reports.py:273-305 | there is one entry per locomotive, in fleet order |
| Reports.FailurePredictions | app/routes/reports.py:267-317 | the entries are sorted by descending score, form a permutation, and each has at most 3 recommendations |
| Reports.AssessmentEntries | app/routes/reports.py:403-434 | each entry takes its score and level from the service's 'all' prediction over 365 days |
| Reports.AssessOne | app/routes/reports.py:404-434 | one locomotive is assessed through the service's 'all' prediction over 365 days |
| Reports.LevelCountsAddUp | app/routes/reports.py:423 | the three risk-level counts sum to the number of entries |
| Reports.AssessFleet | app/routes/reports.py:400-434 | the loop builds the entries and their level counts |
| Reports.RiskAssessment | app/routes/reports.py:392-449 | the counts are the level class sizes and sum to the total; the risk data is the first 50 entries after a descending sort by score |
| Reports.TierOf | app/routes/reports.py:604-605 | urgent iff High or more than 90 days; otherwise scheduled iff Medium or more than 60 days; otherwise routine |
| Reports.PlanningDays | app/routes/reports.py:595-597 | a missing record counts as 0 days |
| Reports.PlanItemOf | app/routes/reports.py:599-606 | an item carries the service's score and level and the tier of that level and day count |
| Reports.PlanItems | app/routes/reports.py:576-606 | there is one plan item per locomotive, in fleet order |
| Reports.PlanOne | app/routes/reports.py:577-606 | one locomotive is planned from the service's 'all' prediction over 365 days and its day count |
| Reports.TierCountsAddUp | app/routes/reports.py:618-621 | the three bucket counts sum to the number of items |
| Reports.BucketFleet | app/routes/reports.py:576-608 | each item goes into the bucket of its tier, in fleet order |
| Reports.MaintenancePlanning | app/routes/reports.py:562-622 | each bucket holds exactly its tier's items sorted by descending score, and the three buckets together hold the fleet |
| Users.ValidateUsername | app/models/user.py:40-57 | the checks run in order (empty, length outside 3..30, a character outside [A-Za-z0-9_], taken), the first failure's message is returned, and the name is accepted iff all pass |
| Users.UsernameChecksAgree | app/models/user.py:46-51 | without a trailing newline, the model's checks accept a name iff the edit-profile pattern `^[a-zA-Z0-9_]{3,30}$` matches it |
| Users.UsernameTrailingNewline | app/models/user.py:50 | "abc\n" passes, because `$` also matches before a final newline |
| Users.FirstIndex | app/models/user.py:66 | finds the first occurrence of a character, or reports that there is none |
| Users.LastIndex | app/models/user.py:66 | finds the last occurrence of a character, or reports that there is none |
| Users.EmailShapeIsPattern | app/models/user.py:66 | the split at the first '@' and the last '.' accepts exactly the strings the email pattern matches |
| Users.ShapeGivesPattern | app/models/user.py:66 | a string with the local@domain.tld shape matches the email pattern |
| Users.PatternGivesShape | app/models/user.py:66 | a string the email pattern matches has the local@domain.tld shape |
| Users.AnchoredEmail | app/models/user.py:66-67 | the anchored match, with its tolerated final newline, equals the anchored email predicate |
| Users.ValidateEmail | app/models/user.py:59-74 | "Email is required", then "Invalid email format", then "Email already registered"; the email is accepted iff it matches and is not registered |
| Users.FailedMessages | app/routes/user.py:205-224 | one message per failed check |
| Users.CountAll | app/models/user.py:109-140 | all checks pass iff the count of passed checks is the number of checks |
| Users.FailedMembers | app/routes/user.py:45-62 | a message is in the error list iff one of its checks failed |
| Users.FirstFailed | app/models/user.py:79-101 | the first failure: every earlier check passed and this one failed |
| Users.FirstErrorIsFirstFailure | app/models/user.py:77-101 | the first entry of the all-failures list is the first-failure message, and the list is non-empty iff some check failed |
| Users.Criteria | app/models/user.py:82-99 | there are five criteria: length, upper, lower, digit, special |
| Users.Score | app/models/user.py:109-140 | the score is at most 5 |
| Users.ScoreSum | app/models/user.py:109-140 | the score counts the satisfied criteria; 5 means all hold; an empty password scores 0 |
| Users.ValidatePasswordStrength | app/models/user.py:76-101 | "Password is required" when empty; otherwise the first failing criterion's message; strong iff all five hold |
| Users.StrengthName | app/models/user.py:142-147 | weak iff score at most 2, moderate iff 3 or 4, strong iff 5 or more |
| Users.PasswordStrengthLevel | app/models/user.py:103-147 | the counter loop yields the criteria score and its level |
| Users.StrongIffValid | app/models/user.py:77-147 | validation succeeds iff the score is 5, iff the level is strong |
| Users.PasswordErrorsOf | app/routes/user.py:205-224 | the number of route errors is 5 minus the strength score |
| Users.PasswordErrors | app/routes/user.py:205-224 | the appended list equals the route's error table |
| Users.RouteAgreesWithModel | app/routes/user.py:205-224 | for a non-empty password, the route's list is empty iff the model accepts, and its first entry is the model's message |
| Users.User.constructor | app/models/user.py:24-30 | the fields are stored and the user is active |
| Users.User.SetPassword | app/models/user.py:32-34 | only the secret changes |
| Users.User.UpdateProfile | app/routes/user.py:81-85 | sets the four profile fields and the update time, and changes nothing else |
| Users.User.FullName | app/models/user.py:149-151 | the full name is the first name, a space, and the last name |
| Users.FullNameSplits | app/models/user.py:149-151 | a first name without spaces is recovered from the full name |
| Users.ChangePasswordOutcome | app/routes/user.py:109-136 | the change is accepted iff all three fields are present, the current password is correct, the new one is strong and the two match; each rejection follows the check order: current password required, new password required, confirmation required, current password incorrect, the strength errors of the new password, and the mismatch only once the new password is strong |
| Users.ChangedPasswordIsStrong | app/routes/user.py:126-140 | an accepted new password passes the model's strength check |
| Users.ChangePassword | app/routes/user.py:98-151 | the outcome follows the check order; only an accepted change sets the secret and the update time; the profile is untouched |
| Users.ProfileChecks | app/routes/user.py:47-73 | there are eight checks: four required fields, two formats, two duplicates |
| Users.ProfileAccepted | app/routes/user.py:45-75 | there are no errors iff all four fields are present, both formats match, and each changed email or username is free |
| Users.FormatOnlyWhenPresent | app/routes/user.py:56-62 | an empty email or username gives its required message and never its format message |
| Users.RequiredNotFormat | app/routes/user.py:47-62 | a failed required check reports its message while a passed format check reports none |
| Users.RequiredFieldErrors | app/routes/user.py:47-54 | appends the required messages in the order first name, last name, email, username |
| Users.FormatErrors | app/routes/user.py:56-62 | appends the two format messages after the required ones |
| Users.ValidateProfile | app/routes/user.py:45-73 | the appended list equals the profile error table |
| Users.EditProfile | app/routes/user.py:34-96 | the stripped fields are validated; with no errors the profile and update time are set; otherwise nothing changes; the secret never changes |
| MaintenanceRecords.DurationDays | app/models/maintenance.py:35-39 | the start plus the duration is the end date, or today for an open record |
| MaintenanceRecords.StatusOf | app/models/maintenance.py:47-54 | Completed iff the record has an end date; an open record is Overdue iff it has run more than 30 days, else In Progress |
| MaintenanceRecords.CompletedDurationFixed | app/models/maintenance.py:35-50 | a completed record's duration and status do not depend on today |
| MaintenanceRecords.OverdueIsPermanent | app/models/maintenance.py:51-54 | an overdue record stays overdue on every later day |
| TrainMovements.Recalculated | app/models/train_movement.py:58-71 | with both times, the duration is seconds/3600; speed is set only with a distance and a positive duration, and then speed times duration is the distance; load efficiency is set only with wagons, and equals load/(wagons*50)*100 |
| TrainMovements.RecalculateIdempotent | app/models/train_movement.py:58-71 | recalculating twice gives the same metrics as once |
| TrainMovements.TrainMovement.constructor | app/models/train_movement.py:4-53 | the fields are stored and no metric is set |
| TrainMovements.TrainMovement.Row | app/models/train_movement.py:98-103 | a row carries the movement's identifying and summed fields |
| TrainMovements.TrainMovement.CalculateMetrics | app/models/train_movement.py:58-71 | the metrics are updated in place as recalculation says, and no other field changes |
| TrainMovements.InMonth | app/models/train_movement.py:100-103 | the picked movements are the input's movements of that year and month, in input order: every picked movement is of that month, every movement of that month is picked, and the result is empty iff there are none |
| TrainMovements.DistinctCount | app/models/train_movement.py:118-119 | a set's size is at most the list length, and at least 1 for a non-empty list |
| TrainMovements.MonthlySummaryOf | app/models/train_movement.py:98-120 | there is no summary iff the month has no movements |
| TrainMovements.SummaryOf | app/models/train_movement.py:108-120 | the count is the number of movements; distance and load are sums; the average speed times the count is the speed sum; the unique counts lie between 1 and the count |
| TrainMovements.AverageSpeedBounds | app/models/train_movement.py:111 | when every recorded speed lies in [0, top], so does the month's average speed, with a missing speed counted as 0 |
| TrainMovements.InMonthMembers | app/models/train_movement.py:100-103 | every selected movement comes from the input |
| Dashboard.BandOf | app/routes/main.py:91-93 | high at 80 or more, medium from 60 up to 80, low below 60 |
| Dashboard.Reliability | app/routes/main.py:91-93 | the reliability of each locomotive is a percentage |
| Dashboard.PerformanceTrends | app/routes/main.py:85-104 | each count is the size of its band, and the three counts sum to the fleet size |
| Dashboard.BandMembers | app/routes/main.py:91-93 | every locomotive counted as high has reliability at least 80, and every one counted as low has below 60 |
| Dashboard.AverageReliability | app/routes/main.py:56 | the average is 0 for an empty fleet, otherwise within 0.05 of the mean reliability, and always in [0, 100] |
| Dashboard.HighRiskCount | app/routes/main.py:59 | the count is the size of the High class of the fleet grouped by risk level; it is 0 iff no locomotive is High, and equals the fleet size iff all are |
| Dashboard.FleetTypeDistribution | app/routes/main.py:106-120 | only DE10 and DE11 are counted, and the two counts sum to at most the fleet size |
| Dashboard.TwoModelsBounded | app/routes/main.py:109-110 | two different models' counts add up to at most the fleet size, and exactly to it when no other model is present |
| Filters.MonthName | app/filters.py:4-10 | the name is non-empty iff 1 <= m <= 12, and is then the m-th month |
| Filters.MonthNamesDistinct | app/filters.py:6-10 | different months have different names |
| Filters.MonthNamesInOrder | app/filters.py:6-10 | the names run January to December, and 0 and 13 give "" |
| Filters.FormatDatetime | app/filters.py:12-16 | a missing date-time gives "", and any other goes through the format |
| Filters.FormatNumber | app/filters.py:18-22 | a missing number gives "0.0", and any other goes through the format |
| Filters.FromJson | app/filters.py:24-31 | an empty or undecodable string gives the empty object, and any other result came from the decoder |

## Left out

- **Model internals.** The internals of model loading and inference are not modelled: joblib, the sklearn scaler, the regressor, the classifier, the encoders and the pandas frame. They are function values in `MlFeatures.ModelBundle` that succeed or fail. The loaded feature-column list is not used.
- **Exceptions.** An exception raised by the model or the feature code is modelled as that function's failure result. Exceptions from other causes are not modelled. These are the bulk loop's except branch (app/routes/loco_predictions.py:335-337) and the fallback-to-static-score branches of the risk and planning reports, which cannot be reached in the model.
- **Clocks.** Clock reads are parameters: the current year, the current month, today's day number and "now" in seconds. Timestamps and `generated_at` strings are not modelled.
- **Randomness.** The noise in `generate_prediction_data` is a pair of input functions.
- **Persistence.** Database sessions, commit, flush and rollback, Flask routing, flash messages, templates and session storage are not modelled. A query becomes an input sequence, and a uniqueness query becomes membership in a set.
- **Prediction records.** The bulk route's `Prediction` row and `prediction_id` are not modelled. The risk report's constant 'ML Model' label is not modelled either.
- **Reports.** The CSV and JSON report writers are not modelled. The ML-predictions, performance-forecast and data-export reports are not modelled.
- **Passwords.** bcrypt hashing is not modelled. The user keeps the password itself as the secret, and checking compares the two directly.
- **Rounding.** Python's `round(x, n)` is exact decimal half-up rounding on reals. The float ties and representation errors of IEEE doubles are not modelled. Float sums are exact real sums.
- **Regular expressions.** `\d` matches ASCII digits only. `strip()` removes exactly the characters `str.isspace()` accepts: the ASCII controls 9-13 and 28-31, the space, and the Unicode separators and spaces. A missing form field is the empty string.
- **Strength-meter feedback.** The feedback list of `get_password_strength_level` is not modelled, because the method never returns it.
- **Other user routes.** The profile, settings, notification and preference routes are not modelled.
- **Formatting and decoding.** `strftime`, the `f"{x:.nf}"` number formatting and JSON decoding are parameters of the filters.
- **Display helpers.** `to_dict`, `__repr__`, `status_display`, `status_color`, `prediction_data_dict` and `recommendations_list` are presentation only and not modelled.
- **Dashboard counts.** The total-fleet and total-predictions counts of the dashboard are plain query counts and are not modelled.
- **Recommendation text.** Each string is a tag, not the text itself. The mis-encoded bulk strings carry the same tags as the service's strings.
- TrainMovements.MonthlySummaryOf: when the month has movements, its contract only ties the summary to `TrainMovements.SummaryOf` of the selected movements; the properties of the summary are stated on `SummaryOf`.
- MlFeatures.FeatureVector: its contract states only the length; the entries are stated through `MlFeatures.PrepareFeatures`, which places the type, year, age, hours and floored features.
- Text.Strip: its own contract states the ends and the empty case; that the result is the slice of the input between the leading and trailing whitespace is stated by `Text.StripSlice`.
- Bulk.NonBlankLines: its own contract states the shape of the ids; that they are the stripped non-blank lines, in line order, is stated by `Bulk.NonBlankLinesFromLines`, `Bulk.NonBlankLinesKeepLines` and `Bulk.NonBlankLinesAppend`.
- Bulk.ParseIds: its own contract states the shape of the ids; their tie to the lines of the text is stated by `Bulk.ParseIdsMembers`, and their order by `Bulk.ParseIdsJoin` with `Bulk.ParseIdsLine`.
- Predictions.DayLabel: its own contract states the "Day " prefix; the day number after it is stated by `Predictions.DayLabelSpellsDay`, and distinct days get distinct labels by `Predictions.DayLabelsDistinct`.
