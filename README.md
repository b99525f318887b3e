# Stylist AI back end, modelled in Dafny

This project models the core of a personal-colour stylist service. The
service sends a photo to one or several vision models, and each model
answers with a JSON verdict. The verdict gives the colour type (such as
"Deep Autumn"), a confidence, the undertone, the season, the subtype and
the reasoning. The modelled core covers:

- **Reply handling** (`Verdicts`, `Stylist`, `Ensemble`, `Beauty`). A
  model's reply is cleaned of its Markdown code fence and trimmed. It is
  then parsed, the four optional fields receive their defaults, and the
  verdict record is validated. Each failure is modelled as the error the
  service raises.
- **Ensemble aggregation** (`Ensemble`, `Tallies`). Several verdicts are
  combined in one of three ways: majority voting, confidence-weighted
  voting, or voting gated on a two-thirds consensus. A tally is a
  dictionary kept in insertion order, and `max(d, key=d.get)` picks the
  first of several equal maxima. The parallel mode and the hybrid
  (judge) mode are also modelled.
- **Image validation** (`ImageValidator`): dimension bounds, the format
  allow-list, the byte-size limit, the face check, and the base64 and
  data-URL entry points.
- **Makeup and hair advice** (`Beauty`). The advice is given for either
  the colour type supplied or the one analysed. It is built from the reply
  with per-key defaults, and each failure maps to an HTTP status.
- **Middleware**:
  - `RateLimit`: the sliding-window limiter `SimpleRateLimiter`, its rate
    strings, its periodic clean-up, the client address, and the limit
    each path gets.
  - `Metrics`: the per-endpoint `MetricsCollector`, with its counters, its
    bounded buffer of response times, and its reports with percentiles.
- **Storage**:
  - `UserInfo`: the profile create-or-update merge, deletion and the
    completeness report.
  - `Popularity`: like counts and the popularity ranking.
  - `Db`: catalogue queries.
  - `MigrateProducts`: the CSV product import with its batch commits.
- **Validation script** (`ValidateModel`, `ValidateMetrics`): season-name
  normalisation, ground-truth loading, the confusion matrix, and
  precision, recall and F1.

`Wrappers` holds `Option` and `Result`. `Text` holds the Python string
operations the core relies on: `strip`, `startswith`, substring search,
`lower`/`upper`, `split`/`join`, `int()`, `str()` and fixed-point
formatting.

Calls into code outside the core are parameters of the model: the Gemini,
OpenAI and Anthropic SDKs, `json.loads`, PIL, base64, OpenCV and the clock.
Python dictionaries that the service mutates become Dafny `map` fields of
classes, and their methods carry `modifies` clauses. Loops become `while`
loops with invariants, each proved against a specification function.
Floating-point numbers are modelled as exact reals.

## Model

| member | source | states |
|---|---|---|
| Verdicts.Unfenced | src/services/ensemble.py:288-295 | the reply with its fences dropped is trimmed at both ends |
| Verdicts.StripFences | src/services/ensemble.py:288-295 | the step-by-step reassignments of `response_text` compute Unfenced, so the text handed to `json.loads` is trimmed |
| Verdicts.UnfencedJsonFence | src/services/ensemble.py:68-74 | a trimmed body wrapped as "```json\n" + body + "\n```" comes back exactly |
| Verdicts.UnfencedBareFence | src/services/ensemble.py:70-74 | a trimmed body wrapped in a bare "```" fence comes back exactly |
| Verdicts.UnfencedPlain | src/services/ensemble.py:189-195 | a trimmed body without fences is left unchanged |
| Verdicts.JsonFenceIsFence | src/services/ensemble.py:68-71 | any text starting with "```json" also starts with "```", so a later check sees the remainder |
| Verdicts.Defaulted | src/services/stylist.py:54-62 | after defaulting, the keys are the parsed keys plus the four defaulted ones |
| Verdicts.DefaultedOn | src/services/stylist.py:60-62 | defaulting over any key set adds exactly those keys |
| Verdicts.DefaultedOnStep | src/services/stylist.py:60-62 | one loop iteration sets a key only when it is absent or None |
| Verdicts.DefaultedSpec | src/services/stylist.py:54-62 | present non-null values are kept, and keys outside the defaults are kept; an absent or null default key gets its default; no defaulted key ends up null |
| Verdicts.DefaultStep | src/services/stylist.py:60-62 | the loop state after i+1 keys equals the state after i keys plus the conditional write of key i |
| Verdicts.FillDefaults | src/services/stylist.py:60-62 | the defaults loop over the dictionary computes Defaulted |
| Verdicts.Validate | src/models.py:5-25 | `model_validate` succeeds exactly when `personal_color_type` is text, `confidence` is a number and each optional field is absent or text; a missing `personal_color_type` is reported as missing, and so is a missing `confidence` next to a well-typed colour type; every field of the record is the parsed value or its declared default |
| Verdicts.DefaultedValidates | src/services/stylist.py:54-64 | after defaulting, validation succeeds exactly when both required fields are well typed and each default key is absent, null or text; each field of the verdict is its value or default |
| Verdicts.RequiredHaveNoDefault | src/models.py:6-9 | a reply missing `personal_color_type` or `confidence` always fails validation |
| Verdicts.Normalise | src/services/stylist.py:53-64 | defaulting then validating a parsed reply computes Normalised |
| Stylist.Prefix | src/services/stylist.py:68 | `s[:n]` is a prefix of s, of length at most n, equal to s when s is short |
| Stylist.CleanReply | src/services/stylist.py:42-49 | the cleaning of `response_text` computes Cleaned, and the result is trimmed |
| Stylist.CleanedJsonFence | src/services/stylist.py:42-49 | a trimmed body wrapped as "```json\n" + body + "\n```" comes back exactly |
| Stylist.WrappedIsTrimmed | src/services/stylist.py:42 | the fenced wrapping is already trimmed, so the first strip changes nothing |
| Stylist.CleanedPlain | src/services/stylist.py:42-49 | a trimmed body without fences comes back unchanged |
| Stylist.GetColorSeason | src/services/stylist.py:15-79 | `get_your_color_season` computes ColorSeason: an undecodable image, a reply without text, a JSON error or a validation error, otherwise the verdict |
| Stylist.NotJsonOutcome | src/services/stylist.py:67-68 | text that does not parse gives "JSON decode error" carrying at most 200 characters of the cleaned text, taken from its start |
| Stylist.ObjectOutcome | src/services/stylist.py:51-79 | a JSON object missing a required field gives "Validation error"; success holds exactly when the required fields are well typed and each default key is absent, null or text; the verdict holds the reply's values or the defaults |
| Stylist.OutfitOn | src/services/stylist.py:120-126 | the result is None exactly when no part has data and no text; otherwise it is the data of the first such part |
| ImageValidator.ValidateSize | src/utils/image_validator.py:34-62 | the size is accepted exactly when both sides lie within [min, max]; "too small" is checked before "too large" |
| ImageValidator.ValidateFormat | src/utils/image_validator.py:65-88 | a missing format is an error; otherwise the format is accepted exactly when its upper-cased name is allowed, and it is returned unchanged |
| ImageValidator.ValidateFileSize | src/utils/image_validator.py:91-106 | a file is rejected exactly when it has more than max_size_mb·1024·1024 bytes |
| ImageValidator.DetectFace | src/utils/image_validator.py:109-160 | the detector reports no face only when it ran and found zero faces; a missing OpenCV, a missing cascade or an error all count as a face |
| ImageValidator.ValidateImage | src/utils/image_validator.py:163-226 | the checks run in order: format, size, file size, face; the image is valid exactly when all of them pass; the report holds the image's size and format and includes `face_detected` only when a face was required |
| ImageValidator.ValidateImageFromBytes | src/utils/image_validator.py:229-278 | the byte limit is checked before decoding; unreadable bytes give "Invalid image file"; otherwise the result is that of validate_image with the byte count |
| ImageValidator.Payload | src/utils/image_validator.py:308-310 | a "data:" text yields what follows its first comma, or fails when it has no comma; any other text is kept |
| ImageValidator.ValidateImageFromBase64 | src/utils/image_validator.py:281-324 | a data URL without a comma fails with IndexError; undecodable base64 gives "Invalid base64 encoding"; otherwise the byte validation decides |
| ImageValidator.DataUrlPayload | src/utils/image_validator.py:309-310 | for "data:" + header + "," + payload, with no comma in the header, the payload is extracted exactly |
| ImageValidator.Prepare | src/services/ensemble.py:42-46 | a text input is decoded and an image input is used as it is |
| Beauty.MakeupDefaults | src/api/beauty.py:95-102 | each makeup key holds the reply's value when present (even a null one) and its default otherwise; the colour type is the one advised for |
| Beauty.HairDefaults | src/api/beauty.py:176-181 | each hair key holds the reply's value when present and its default otherwise |
| Beauty.ReplyDataFenced | src/api/beauty.py:84-93 | a fenced reply is parsed from its trimmed body; a body that does not parse gives a JSON error carrying at most 200 characters |
| Beauty.HairInfoNames | src/api/beauty.py:140 | a non-empty current hair colour is named after the "Current hair color: " prefix; otherwise the prefix is followed by "not specified" |
| Beauty.GetMakeupRecommendations | src/api/beauty.py:31-108 | `get_makeup_recommendations` computes MakeupAdvice |
| Beauty.GetHairRecommendations | src/api/beauty.py:111-187 | `get_hair_recommendations` computes HairAdvice |
| Beauty.ColorTypeOr | src/api/beauty.py:50-55 | a non-empty supplied colour type is used; otherwise the colour analysis decides, and its failure is passed on |
| Beauty.ReadReply | src/api/beauty.py:83-108 | the reply becomes its JSON object; otherwise a JSON decode error or a parsing error |
| Beauty.PrepareOr | src/api/beauty.py:45-48 | a text input is decoded, or the call fails before the `try`; an image is used as it is |
| Beauty.MakeupColorType | src/api/beauty.py:50-55 | with a colour type supplied, the analyser is never consulted and the advice carries that type; without one, a failed analysis fails the call, and a successful advice carries the analysed type |
| Beauty.MakeupReplyType | src/api/beauty.py:95-96 | the advice always carries the colour type it was asked for |
| Beauty.EndpointStatus | src/api/beauty.py:190-298 | failures are 400 or 500; a 400 is given exactly when the image was rejected, and its detail is the validation message; a 500 detail begins "Error getting … recommendations: "; success implies a detected face and dimensions within [100, 4096] |
| Tallies.TotalAbsent | src/services/ensemble.py:351-352 | a label never voted for has total 0 |
| Tallies.Ones | src/services/ensemble.py:351-352 | one vote per result is a weight of 1.0 per label |
| Tallies.TotalOfOnes | src/services/ensemble.py:351-352 | with unit weights, a label's total is its number of votes |
| Tallies.CountBounded | src/services/ensemble.py:379-380 | a vote count is at most the number of results, and equals it exactly when every result agrees |
| Tallies.CountPositive | src/services/ensemble.py:379 | a label that was voted for has at least one vote |
| Tallies.FirstSeenSpec | src/services/ensemble.py:349-364 | the dictionary's keys are exactly the labels seen, each once |
| Tallies.FirstSeenPrefix | src/services/ensemble.py:349-364 | the key order after a prefix of the results is a prefix of the final key order |
| Tallies.BuildSpec | src/services/ensemble.py:349-364 | the tally built by `d[k] = d.get(k, 0) + w` keeps its keys in first-seen order, and each key's value is the total weight of that label |
| Tallies.BuildKeyed | src/services/ensemble.py:349-364 | a tally of at least one result has a key, and every key has a value |
| Tallies.ArgMax | src/services/ensemble.py:370 | `max(d, key=d.get)` is one of the keys |
| Tallies.ArgMaxSpec | src/services/ensemble.py:370 | no key scores more than the one picked |
| Tallies.ArgMaxIsFirst | src/services/ensemble.py:370 | every key before the picked one scores strictly less |
| Tallies.MaxWeightIsArgMaxWeight | src/services/ensemble.py:471 | `max(d.values())` is the score of the picked key |
| Tallies.Winner | src/services/ensemble.py:370-373 | the winning label is one of the results' labels |
| Tallies.WinnerIsFirstMaximum | src/services/ensemble.py:370-373 | the winner has the greatest total, and every label first seen before it has a strictly smaller total |
| Tallies.FirstSeenBefore | src/services/ensemble.py:370 | a label seen before the winner's first occurrence is a key placed before the winner |
| Tallies.TopWeight | src/services/ensemble.py:471 | the largest vote count is the winner's count |
| Ensemble.AnalysisMessage | src/services/ensemble.py:88-89 | an analysis error reads "<Provider> analysis failed…" |
| Ensemble.EnsembleMessage | src/services/ensemble.py:323-567 | the errors the source raises with its own text have a message: no results, an unknown method (whose name follows "Unknown aggregation method: "), all models failed, all parallel models failed; an unreadable image and a failing judge have none |
| Ensemble.MessagesDistinct | src/services/ensemble.py:323-567 | two errors with the same message are the same error |
| Ensemble.AnalyzeWith | src/services/ensemble.py:48-211 | each analyser computes Analysis for its provider (Gemini trims and unfences, OpenAI parses the raw text, Claude unfences), and every failure names its provider |
| Ensemble.AnalysisFields | src/services/ensemble.py:76-87 | a successful analysis came from a parsed JSON object whose required fields are well typed, and each verdict field is the reply's value or its default |
| Ensemble.Labels | src/services/ensemble.py:349-364 | the label sequence has one entry per result, in order |
| Ensemble.Confidences | src/services/ensemble.py:366 | the confidences have one entry per result, in order |
| Ensemble.Reasonings | src/services/ensemble.py:367 | `all_reasoning` has one entry per result, in order |
| Ensemble.FirstTwo | src/services/ensemble.py:384 | `all_reasoning[:2]` is a prefix of length min(2, n) |
| Ensemble.VotedLabel | src/services/ensemble.py:370-373 | the voted label of each field is one of the results' labels |
| Ensemble.AggregateVoting | src/services/ensemble.py:335-393 | `_aggregate_voting` computes Voting |
| Ensemble.ConsensusCountIs | src/services/ensemble.py:379 | `personal_color_votes[winner]` is the number of results naming the winner |
| Ensemble.VotingConfidenceIs | src/services/ensemble.py:388 | the confidence is the mean confidence times the consensus ratio |
| Ensemble.VotingIs | src/services/ensemble.py:386-393 | a verdict with the voted fields, the adjusted confidence and the reasoning text is the voting result |
| Ensemble.VotingLabel | src/services/ensemble.py:370-373 | each categorical field of the result is the voted label of that field |
| Ensemble.VotingMajorities | src/services/ensemble.py:349-373 | each field's winner has the most votes, and every label first seen before it has strictly fewer (ties go to the first seen) |
| Ensemble.MeanConfidenceBounded | src/services/ensemble.py:376 | with confidences in [0, 1], their mean is in [0, 1] |
| Ensemble.AgreementBounded | src/services/ensemble.py:380 | the consensus ratio is positive and at most 1 |
| Ensemble.VotingConfidenceInUnit | src/services/ensemble.py:388 | with confidences in [0, 1], the voted confidence is in [0, 1] |
| Ensemble.VotingConfidenceDependsOn | src/services/ensemble.py:376-388 | the voted confidence depends only on the colour-type labels and the confidences |
| Ensemble.VotingConfidenceBounds | src/services/ensemble.py:376-388 | the voted confidence lies in [0, 1] and ignores undertone, season, subtype and reasoning |
| Ensemble.Shares | src/services/ensemble.py:416 | one weight per result |
| Ensemble.ShareAt | src/services/ensemble.py:416 | each weight is the confidence over the total |
| Ensemble.SquaredShares | src/services/ensemble.py:439 | one squared-share term per result |
| Ensemble.Weights | src/services/ensemble.py:415-416 | one weight per result |
| Ensemble.WeightedLabel | src/services/ensemble.py:433-436 | the weighted winner of each field is one of the results' labels |
| Ensemble.WeightTallies | src/services/ensemble.py:415-430 | the weighting loop builds, for each field, the tally of confidence shares, and collects the reasonings |
| Ensemble.AggregateWeightedAverage | src/services/ensemble.py:395-455 | `_aggregate_weighted_average` computes WeightedAverage, which falls back to voting when the weights total 0 |
| Ensemble.WeightedConfidenceIs | src/services/ensemble.py:450 | the confidence is the weighted mean times the winner's weight |
| Ensemble.WeightedIs | src/services/ensemble.py:448-455 | a verdict with the weighted winners, the confidence and the reasoning text is the weighted result |
| Ensemble.WeightedFields | src/services/ensemble.py:415-450 | each field's winner carries the greatest total share, and every label first seen before it has strictly less; the confidence is the weighted mean times the winner's share |
| Ensemble.WeightedProjections | src/services/ensemble.py:448-454 | each field of the weighted verdict is the corresponding weighted label, mean or agreement |
| Ensemble.AggregateConsensus | src/services/ensemble.py:457-482 | `_aggregate_consensus` computes Consensus: voting when the ratio reaches 0.67, otherwise the weighted result with confidence ×0.7 and a "Low consensus" prefix |
| Ensemble.CountConsensus | src/services/ensemble.py:464-472 | the vote loop and `max(values())` compute the consensus ratio |
| Ensemble.ConsensusRatioIsAgreement | src/services/ensemble.py:471-472 | the consensus ratio is the winner's vote share, and no label has more votes than the winner |
| Ensemble.ThreeVerdictsConsensus | src/services/ensemble.py:471-474 | with three results the ratio is 1 when all agree, and otherwise at most 2/3, which is below the 0.67 threshold |
| Ensemble.CountOfThree | src/services/ensemble.py:466-468 | the votes among three results, counted one by one |
| Ensemble.Aggregate | src/services/ensemble.py:310-333 | `_aggregate_results` computes Aggregation |
| Ensemble.AggregationFailures | src/services/ensemble.py:323-333 | aggregation fails exactly when there are no results ("No results to aggregate") or the method is unknown |
| Ensemble.SingleVoting | src/services/ensemble.py:335-393 | a single result wins every field, with agreement 1 and its own confidence |
| Ensemble.SingleWeighted | src/services/ensemble.py:395-455 | a single result with non-zero confidence wins every field and keeps its confidence |
| Ensemble.SingleVotingKeeps | src/services/ensemble.py:335-393 | voting over one verdict keeps its labels and confidence |
| Ensemble.SingleWeightedKeeps | src/services/ensemble.py:395-455 | the weighted average over one verdict keeps its labels and confidence |
| Ensemble.SingleConsensusKeeps | src/services/ensemble.py:457-482 | consensus over one verdict keeps its labels and confidence |
| Ensemble.SingleVerdict | src/services/ensemble.py:310-333 | every known method returns a single verdict's labels and confidence unchanged |
| Ensemble.Successes | src/services/ensemble.py:505-511 | the valid results are exactly the successful outcomes, and there are no more of them than outcomes |
| Ensemble.SuccessesAppend | src/services/ensemble.py:505-511 | filtering keeps the order of the outcomes |
| Ensemble.Gathered | src/services/ensemble.py:496-503 | `gather` gives each provider's outcome in dispatch order |
| Ensemble.RunAnalyses | src/services/ensemble.py:496-503 | running the analysers computes Gathered |
| Ensemble.KeepSuccesses | src/services/ensemble.py:505-511 | the filtering loop computes Successes |
| Ensemble.AnalyzeParallel | src/services/ensemble.py:484-517 | an unreadable image fails; when all three analyses fail, "All models failed"; otherwise the chosen aggregation of the successful verdicts |
| Ensemble.DefaultModelsExcludeJudge | src/services/ensemble.py:533-539 | the default parallel models are the two models other than the judge, in the order gemini, openai, claude |
| Ensemble.Dispatched | src/services/ensemble.py:542-549 | there are never more tasks than model names, because an unknown name starts no task |
| Ensemble.DispatchTasks | src/services/ensemble.py:542-549 | the dispatch loop computes Dispatched |
| Ensemble.JudgeSummary | src/services/ensemble.py:222-232 | the loop builds Summary: one entry per result, in order, named "Model i+1", with that result's fields |
| Ensemble.SummaryNamesDistinct | src/services/ensemble.py:225 | no two summary entries share a model name |
| Ensemble.Judge | src/services/ensemble.py:213-308 | the judge is shown exactly Summary of the results, and its reply is cleaned, defaulted and validated as Judgement |
| Ensemble.AnalyzeHybrid | src/services/ensemble.py:519-567 | an unreadable image fails; with no valid parallel result, "All parallel models failed"; otherwise exactly the Judgement of the judge's reply to Summary of the valid results, its verdict on success and its cause, as a judge failure, otherwise |
| Metrics.SampledSpec | src/middleware/metrics.py:47-52 | a buffer within the bound stays within it and ends with the new time; it is the most recent part of the old buffer plus the new time, and it loses its oldest time only when it was full |
| Metrics.Insert | src/middleware/metrics.py:101 | insertion adds one element |
| Metrics.Sort | src/middleware/metrics.py:101 | sorting keeps the length |
| Metrics.InsertSpec | src/middleware/metrics.py:101 | inserting into an ascending sequence keeps it ascending and adds exactly that element |
| Metrics.SortSpec | src/middleware/metrics.py:101 | `sorted(times)` is ascending and is a permutation of the times |
| Metrics.MinMaxBound | src/middleware/metrics.py:111-112 | `min` and `max` are recorded times that bound every time |
| Metrics.PercentileIndexSpec | src/middleware/metrics.py:113-115 | the index `int(n·p)` of a percentile p below 1 (0.5, 0.95 and 0.99 here) lies inside the n samples, and it does not decrease as p grows |
| Metrics.ReportWithoutSamples | src/middleware/metrics.py:86-99 | an endpoint without samples reports its counters and zero for every rate and time |
| Metrics.ReportSpec | src/middleware/metrics.py:101-116 | the percentiles are recorded times, ordered p50 ≤ p95 ≤ p99 and lying between min and max; the mean is the sum over n; the success rate is successes over requests, or 0 |
| Metrics.SortedPicks | src/middleware/metrics.py:113-115 | picks from the sorted times at ascending indices are times in ascending order |
| Metrics.TotalOverAny | src/middleware/metrics.py:128 | the sum of the values does not depend on iteration order |
| Metrics.TotalOverExtra | src/middleware/metrics.py:128-130 | keys the map does not hold add nothing to a sum |
| Metrics.TotalOverSum | src/middleware/metrics.py:128-130 | sums over the same keys add up pointwise |
| Metrics.SumValues | src/middleware/metrics.py:128 | the summing loop computes `sum(m.values())` |
| Metrics.RecordedConsistent | src/middleware/metrics.py:31-61 | recording keeps requests = successes + errors for every endpoint and keeps each buffer non-empty and bounded; a status in [200, 400) counts as a success |
| Metrics.RecordedBuffers | src/middleware/metrics.py:47-52 | recording changes only this endpoint's buffer |
| Metrics.RecordedCounts | src/middleware/metrics.py:55-61 | recording raises this endpoint's request count and exactly one of its success or error counts by one, and changes no other endpoint's counts |
| Metrics.MetricsCollector.constructor | src/middleware/metrics.py:22-29 | a new collector is empty, with a one-hour window and a bound of 1000 samples |
| Metrics.MetricsCollector.RecordRequest | src/middleware/metrics.py:31-61 | `record_request` appends to the buffer, drops the oldest sample when over the bound, counts the request and its outcome, and keeps the collector consistent |
| Metrics.MetricsCollector.EndpointMetricsCounts | src/middleware/metrics.py:79-99 | a counted endpoint reports requests = successes + errors; an endpoint never seen reports zero everywhere |
| Metrics.MetricsCollector.GetAllMetrics | src/middleware/metrics.py:118-136 | one report per counted endpoint, with totals over all endpoints and an overall success rate, or 0 |
| Metrics.MetricsCollector.GetMetrics | src/middleware/metrics.py:63-77 | a non-empty endpoint name gives that endpoint's report; no name or an empty one gives the whole report over all endpoints: each endpoint's report, the three totals and the overall success rate |
| Metrics.MetricsCollector.TotalsAddUp | src/middleware/metrics.py:127-134 | total requests = total successes + total errors |
| Metrics.MetricsCollector.Reset | src/middleware/metrics.py:138-144 | `reset` empties the four maps |
| Metrics.MetricsMiddleware | src/middleware/metrics.py:151-183 | the five skipped paths are not recorded; any other request records its status and elapsed time, with a raising handler recorded as 500 |
| RateLimit.UnitWindow | src/middleware/rate_limit.py:139-148 | every period name, known or not, gives a window of a second, a minute, an hour or a day |
| RateLimit.ParseRateLimitWindow | src/middleware/rate_limit.py:127-152 | the window of any rate string is one of the four lengths; a text without "/", or a count that `int()` rejects, gives 100 per minute |
| RateLimit.ParseRateLimitOf | src/middleware/rate_limit.py:127-152 | "N/unit" with N in decimal reads back as N requests over that unit's window |
| RateLimit.MiddlewareLimits | src/middleware/rate_limit.py:225-231 | the middleware's three rate strings parse as 10, 5 and 100 requests per minute |
| RateLimit.Recent | src/middleware/rate_limit.py:182-185 | filtering by the cutoff keeps no more entries than there were |
| RateLimit.RecentMembers | src/middleware/rate_limit.py:182-185 | exactly the entries newer than the cutoff are kept, in order |
| RateLimit.RecentTwice | src/middleware/rate_limit.py:109-185 | filtering at one cutoff and then at a later one is filtering at the later one |
| RateLimit.RecentAppend | src/middleware/rate_limit.py:182-185 | filtering keeps the order of the log |
| RateLimit.Matching | src/middleware/rate_limit.py:188-191 | the endpoint's requests in the window are no more than the log |
| RateLimit.MatchingMembers | src/middleware/rate_limit.py:188-191 | exactly the entries for this endpoint newer than the cutoff are counted |
| RateLimit.OldestSpec | src/middleware/rate_limit.py:195 | `min(timestamps)` is one of the entries' timestamps, and no entry is older |
| RateLimit.Truncate | src/middleware/rate_limit.py:196 | `int()` truncates toward zero: the floor of a non-negative value, and the least integer not below a negative one |
| RateLimit.DecideSpec | src/middleware/rate_limit.py:188-201 | a request is allowed exactly when fewer than the limit of requests to the same endpoint lie inside the window; otherwise it is refused with a wait, unless the limit is 0 or less and no such request exists, so `min` has nothing to take |
| RateLimit.RetryAfterSpec | src/middleware/rate_limit.py:193-197 | `retry_after` is at least 1; after `retry_after` seconds the oldest request in the window has left it, and one second sooner it still lay inside the window or on its edge |
| RateLimit.FirstCallsAllowed | src/middleware/rate_limit.py:154-201 | for calls made within one window by a client new to the endpoint, the first `max_requests` are allowed and every later one is limited; requests to other endpoints do not count |
| RateLimit.AdmitCounts | src/middleware/rate_limit.py:182-201 | one call is allowed exactly when the endpoint's requests number fewer than the limit, and an allowed call adds one request |
| RateLimit.RunFrom | src/middleware/rate_limit.py:154-201 | the i-th call in one window is allowed exactly when the earlier requests plus the allowed calls before it number fewer than the limit |
| RateLimit.SweptSpec | src/middleware/rate_limit.py:117-125 | a sweep keeps exactly the entries newer than the cutoff, client by client, and removes clients left with no entries |
| RateLimit.CleanupKeepsWindow | src/middleware/rate_limit.py:109-185 | for windows of a minute or less, the clean-up changes nothing that a decision looks at |
| RateLimit.CleanupForgetsLongerWindows | src/middleware/rate_limit.py:109-125 | for an hour-long window a due clean-up forgets a request that should still count, so a second request is let through |
| RateLimit.SimpleRateLimiter.constructor | src/middleware/rate_limit.py:104-107 | a new limiter has no requests, a clean-up interval of 300 seconds and its last clean-up at the current time |
| RateLimit.SimpleRateLimiter.CleanupOldEntries | src/middleware/rate_limit.py:109-125 | once the interval has passed since the last clean-up, every entry older than a minute is dropped, emptied clients are removed, and the clean-up time is set to now; otherwise nothing changes |
| RateLimit.SimpleRateLimiter.IsAllowed | src/middleware/rate_limit.py:154-201 | `is_allowed` cleans up, trims the client's log to the window, decides as Decide, and appends an allowed request; every other client's log is left as the clean-up left it |
| RateLimit.SimpleRateLimiter.FileRequest | src/middleware/rate_limit.py:175-201 | the client's log is trimmed to the window, the decision is made, an allowed request is appended, and no other client's log changes |
| RateLimit.SimpleRateLimiter.Check | src/middleware/rate_limit.py:188-197 | counting the endpoint's requests in the window and comparing with the limit computes Decide |
| RateLimit.ForwardedForFirst | src/middleware/rate_limit.py:14-33 | without a connected client, the first X-Forwarded-For address (header names matched in lower case, as Starlette stores them), stripped, is the address, ahead of X-Real-IP; with no client and no headers it is "unknown" |
| RateLimit.LimitForSpec | src/middleware/rate_limit.py:225-231 | analysis paths get 10 per minute even when they also match generation, generation paths get 5, and all others get 100 |
| RateLimit.RateLimitMiddleware | src/middleware/rate_limit.py:208-250 | exempt paths pass untouched; other requests are filed under their client and path with the path's limit, and a limited request gets 429; the limiter's last clean-up time moves to now exactly when a clean-up was due |
| RateLimit.DecideSpecAt | src/middleware/rate_limit.py:193-195 | with a positive limit, a limited request always has an oldest request to wait for |
| UserInfo.NormalizeBase64Image | src/api/user_info.py:16-32 | the result is always an image data URL ending with the input; it is the input itself exactly when the input already was one; otherwise the JPEG prefix is added |
| UserInfo.NormalizeIdempotent | src/api/user_info.py:16-32 | normalising twice is normalising once |
| UserInfo.ProfileDictSpec | src/api/user_info.py:70-77 | the dictionary holds exactly the fields given a value; non-image fields keep their value; a non-empty image text becomes its data URL; an empty one is kept |
| UserInfo.UserProfile.constructor | src/api/user_info.py:86 | a new profile holds the supplied fields and nothing else |
| UserInfo.UserProfile.Merge | src/api/user_info.py:81-82 | every field of the dictionary is written with its new value, every other field keeps its value, and `updated_at` is left for the caller to set |
| UserInfo.MergedFields | src/api/user_info.py:70-83 | after a merge, a field given a value carries the new value, and a field left out or given None keeps the stored value |
| UserInfo.FilledAndMissing | src/api/user_info.py:161-166 | each field is filled or missing, the counts add up, and the missing fields are the unset ones in declared order |
| UserInfo.PercentSpec | src/api/user_info.py:163 | the rounded percentage is within 0.005 of filled/total·100 |
| UserInfo.CompletenessSpec | src/api/user_info.py:130-173 | the report counts 12 fields, each filled or missing, with the missing ones in declared order and the percentage rounded to two decimals; without a profile nothing is filled |
| UserInfo.CompletenessPercent | src/api/user_info.py:161-163 | a stored profile's percentage is its filled share of the 12 fields |
| UserInfo.ProfileTable.constructor | src/api/user_info.py:35-52 | a new table holds no profile |
| UserInfo.ProfileTable.GetUserProfile | src/api/user_info.py:35-52 | the stored profile, or 404 when there is none; nothing changes |
| UserInfo.ProfileTable.CreateOrUpdate | src/api/user_info.py:55-105 | an existing profile gets the supplied fields merged and a new `updated_at`; otherwise a new profile with just those fields is filed; no other user's profile changes |
| UserInfo.ProfileTable.DeleteUserProfile | src/api/user_info.py:108-127 | the user's profile is removed, or 404 when there is none, and nothing else changes |
| UserInfo.ProfileTable.ProfileCompleteness | src/api/user_info.py:130-173 | the completeness report of the user's profile, or of no profile |
| Popularity.Loaded | src/database/popularity.py:13-22 | a missing or undecodable file reads as no likes, and a readable one as the counts it holds |
| Popularity.LikedCounts | src/database/popularity.py:44-46 | a like raises the item's count by one, from 0 when unseen, and leaves every other count alone |
| Popularity.PopularityFile.constructor | src/database/popularity.py:10 | a store over the given file |
| Popularity.PopularityFile.GetItemPopularity | src/database/popularity.py:51-62 | the stored count, or 0 for an item never liked |
| Popularity.PopularityFile.LikeItem | src/database/popularity.py:34-48 | the file then holds the loaded counts with this item raised by one, and the new count is returned |
| Popularity.Item.constructor | src/database/popularity.py:75-99 | an item with the given ID and no popularity yet |
| Popularity.Ranks | src/database/popularity.py:88-95 | one sort key `(popularity, ID)` per item, in input order |
| Popularity.Insert | src/database/popularity.py:93-97 | insertion adds one position |
| Popularity.Sort | src/database/popularity.py:93-97 | sorting keeps the length |
| Popularity.InsertPermutes | src/database/popularity.py:93-97 | insertion adds exactly one element |
| Popularity.InsertDescending | src/database/popularity.py:93-97 | inserting into a descending, stable order keeps it so |
| Popularity.SortSpec | src/database/popularity.py:93-97 | the sort is a permutation of its input, in descending order of key, with ties in input order |
| Popularity.SortDistinct | src/database/popularity.py:93-97 | sorting distinct positions keeps them distinct |
| Popularity.InsertDistinct | src/database/popularity.py:93-97 | inserting a new position keeps the positions distinct |
| Popularity.Ranking | src/database/popularity.py:93-97 | every item appears once, ordered by non-increasing `(popularity, ID)`, and items equal on both keep their input order |
| Popularity.Pick | src/database/popularity.py:93-99 | the items at the given positions, in that order |
| Popularity.PickInsert | src/database/popularity.py:93-97 | picking after an insertion is inserting the picked item |
| Popularity.PickSort | src/database/popularity.py:93-97 | the picked items of the sorted positions are a permutation of the items |
| Popularity.RankedItems | src/database/popularity.py:93-99 | the ranked list holds exactly the input items, each as often as in the input |
| Popularity.IdsOf | src/database/popularity.py:89 | one ID per item |
| Popularity.SetPopularity | src/database/popularity.py:87-90 | each item gets its count from the file, 0 when never liked, and its ID is unchanged |
| Popularity.AddPopularityToItems | src/database/popularity.py:75-99 | every item carries its count from the file, and the result is the items ranked by `(popularity, ID)` |
| Db.Filter | src/database/db.py:33 | a filter keeps no more rows than the sheet has |
| Db.FilterCounts | src/database/db.py:22-49 | filtering keeps each matching row exactly as often as it occurs, and drops the others |
| Db.FilterAppend | src/database/db.py:33 | filtering keeps sheet order |
| Db.FilterTwice | src/database/db.py:65-69 | filtering by one condition and then another is filtering once by both |
| Db.FilterMembers | src/database/db.py:22-49 | a row is in the result exactly when it is in the sheet and matches |
| Db.OutfitsBySeason | src/database/db.py:15-34 | a sheet without rows raises KeyError on `PersonalColorType`; otherwise exactly the rows of that colour type |
| Db.OutfitsByCategory | src/database/db.py:15-49 | a sheet without rows raises KeyError on `Type`; otherwise exactly the rows of that category |
| Db.SeasonAndCategory | src/database/db.py:52-71 | a sheet without rows raises KeyError on the first column a given filter reads, and returns [] when neither is given; otherwise, with either filter missing the result is empty, and with both it is the rows matching both, in sheet order: the category filter of the season query |
| MigrateProducts.Cell | migrate_products.py:64-72 | a column the file lacks can be read, and a short row's missing cell cannot; a value read is non-empty and stripped, and a cell that is non-empty after stripping is read as its stripped text |
| MigrateProducts.ProductOf | migrate_products.py:84-95 | a product is built exactly when every column can be read |
| MigrateProducts.ExternalId | migrate_products.py:54 | a missing `id` column gives 0; a readable decimal gives its value; anything else fails |
| MigrateProducts.Lookup | migrate_products.py:57-59 | the query's `first()`: the first table row with that id, or none exactly when no row has it |
| MigrateProducts.StepConsistent | migrate_products.py:51-107 | each row keeps the session's view as the committed rows, with the same ids, followed by pending inserts |
| MigrateProducts.StepSpec | migrate_products.py:51-107 | a bad ID rolls back to the last commit and leaves the counts alone; an ID already committed is skipped, or with `--update` overwrites the first committed row with that id; an ID not committed, even one inserted since the last commit, is inserted again and counted as migrated; each row adds at most one to the counts, and the table either stays or receives the view |
| MigrateProducts.StepsCounts | migrate_products.py:51-107 | the view stays consistent with the table; the counts grow by at most one per row; `updated` stays fixed without `--update`, and `skipped` stays fixed with it |
| MigrateProducts.DuplicateIdInsertedTwice | migrate_products.py:54-101 | with autoflush off, two rows with id 1 in one batch are both inserted and counted: migrated 2 and two table rows with that id |
| MigrateProducts.ProductTable.constructor | migrate_products.py:14-120 | a table holding the given rows |
| MigrateProducts.MigrateProductsFromCsv | migrate_products.py:14-120 | a missing file fails and changes nothing; otherwise the table, cleared first when asked, ends as the fold of the rows, and the counts are returned |
| MigrateProducts.ProcessRow | migrate_products.py:52-107 | one iteration of the row loop, whose query reads the committed table, computes Step on the table and the session |
| MigrateProducts.RollbackLosesCountedRows | migrate_products.py:97-107 | as written: a good row followed by a bad one leaves `migrated` at 1 with an empty table |
| MigrateProducts.SavepointCountsAdded | migrate_products.py:97-107 | corrected: when a failed row undoes only itself, the rows held before keep their ids and places, and the table grows by exactly the rows counted as migrated |
| ValidateModel.Lookup | validation/validate_model.py:136-137 | the mapping answers exactly when the name is one of its keys, and it answers with that key's season |
| ValidateModel.FirstContained | validation/validate_model.py:141-143 | the loop returns the season of the first key, in declaration order, that occurs in the name |
| ValidateModel.KeySeasons | validation/validate_model.py:45-81 | every key maps to one of spring, summer, fall or winter |
| ValidateModel.NormalizeLoweredSpec | validation/validate_model.py:128-157 | the result is a season name, or else the lowered and trimmed input, which happens exactly when no key occurs in it; the base-season checks never decide |
| ValidateModel.ContainedMatch | validation/validate_model.py:141-143 | without an exact match, the first contained key decides |
| ValidateModel.NoMatch | validation/validate_model.py:145-157 | with no key in the name, the lowered and trimmed name is returned |
| ValidateModel.BareWordsAreKeys | validation/validate_model.py:45-81 | spring, summer, autumn, fall and winter are keys themselves |
| ValidateModel.NormalizeIdempotent | validation/validate_model.py:128-157 | normalising a normalised name changes nothing |
| ValidateModel.SeasonNameNormal | validation/validate_model.py:133-137 | a season name lowers and trims to itself and is its own key |
| ValidateModel.ExactMatch | validation/validate_model.py:136-137 | an exact key decides the result |
| ValidateModel.LoweredTrimmedIsNormal | validation/validate_model.py:133 | `lower().strip()` applied twice equals applying it once |
| ValidateModel.Stripped | validation/validate_model.py:91-94 | `row[key].strip()` succeeds exactly when both the column and the row's cell exist |
| ValidateModel.LabelFrom | validation/validate_model.py:93-96 | the inner loop's answer is one of the seasons it tried |
| ValidateModel.LabelFound | validation/validate_model.py:93-96 | a row's label is the first class, in list order, whose column trims to "1", with every column before it readable |
| ValidateModel.LabelNone | validation/validate_model.py:93-96 | a row has no label exactly when every class column is readable and none trims to "1" |
| ValidateModel.RowEntriesSpec | validation/validate_model.py:90-96 | one entry or failure per row, in order |
| ValidateModel.CollectSpec | validation/validate_model.py:90-96 | collecting succeeds exactly when every row does, and keeps each entry in place |
| ValidateModel.EntriesSpec | validation/validate_model.py:84-98 | the load succeeds exactly when every row can be read, and each row then contributes its own entry |
| ValidateModel.FillSpec | validation/validate_model.py:95 | a file is labelled exactly when some entry names it, and it carries the label of the last such entry |
| ValidateModel.LoadGroundTruth | validation/validate_model.py:84-98 | the row loop computes GroundTruth |
| ValidateModel.FailureStays | validation/validate_model.py:88-98 | a failing row fails the whole load, whatever follows it |
| ValidateMetrics.AllSeasonsComplete | validation/validate_model.py:306 | the four classes are exactly the seasons |
| ValidateMetrics.CommonImages | validation/validate_model.py:274 | an image is common exactly when it is both labelled and predicted |
| ValidateMetrics.CorrectImages | validation/validate_model.py:290 | the correctly predicted images are among the images counted |
| ValidateMetrics.IncrementedCell | validation/validate_model.py:315 | an increment adds one to its own cell and leaves the other fifteen alone |
| ValidateMetrics.IncrementedTotals | validation/validate_model.py:315 | an increment adds one to the total, and to the diagonal when it lies on it |
| ValidateMetrics.ConfusionCell | validation/validate_model.py:310-315 | each cell counts the images with its label and its prediction |
| ValidateMetrics.ConfusionStep | validation/validate_model.py:312-315 | counting one more image increments its cell |
| ValidateMetrics.ConfusionCounts | validation/validate_model.py:310-336 | each image lies in exactly one cell: rows count labels, columns count predictions, the whole matrix counts the images and the diagonal the right ones |
| ValidateMetrics.ConfusionGrow | validation/validate_model.py:312-315 | the matrix of a set of images is that of all but one, incremented at that one's cell |
| ValidateMetrics.EmptyCounts | validation/validate_model.py:310 | the zero matrix counts no image |
| ValidateMetrics.BuildConfusion | validation/validate_model.py:310-315 | the loop over `common_images`, in any order, yields the confusion matrix of the images |
| ValidateMetrics.Ratio | validation/validate_model.py:328-330 | a ratio is 0 when its denominator is 0, and lies in [0, 1] when its numerator is at most its denominator |
| ValidateMetrics.OthersInColumnComplete | validation/validate_model.py:320-321 | tp + fp is the whole column |
| ValidateMetrics.OthersInRowComplete | validation/validate_model.py:320-322 | tp + fn is the whole row |
| ValidateMetrics.ClassMetricMeaning | validation/validate_model.py:318-337 | the support is the number of images labelled with the class; precision is the share of right predictions among those predicted as the class, and recall among those labelled with it; each is 0 when its set is empty |
| ValidateMetrics.ClassMetricBounds | validation/validate_model.py:328-330 | precision and recall lie in [0, 1] and are 0 when their denominator is; F1 is positive exactly when tp is |
| ValidateMetrics.BuildClassMetrics | validation/validate_model.py:318-337 | the loop over the four classes fills each class's metrics from the matrix |
| ValidateMetrics.ConfidenceSumAny | validation/validate_model.py:342-346 | the confidence sum does not depend on iteration order |
| ValidateMetrics.MeanConfidenceBounds | validation/validate_model.py:345-346 | a mean of confidences in [0, 1] lies in [0, 1] |
| ValidateMetrics.AverageConfidences | validation/validate_model.py:342-346 | the means of the confidences of the right and of the wrong predictions, 0 for none |
| ValidateMetrics.Mean | validation/validate_model.py:345-346 | `np.mean` of the images' confidences, or 0 for none |
| ValidateMetrics.SumConfidences | validation/validate_model.py:342-345 | the loop sums the confidences of the images and counts them |
| ValidateMetrics.EmptyMetrics | validation/validate_model.py:276-287 | no common image gives the all-zero record carrying the undetermined count |
| ValidateMetrics.CalculateMetrics | validation/validate_model.py:271-379 | corrected: for a non-empty intersection, the record holds the accuracy on classified images, the counts, the confusion matrix counting the images, the per-class metrics and the two mean confidences; an image without a confidence fails |
| ValidateMetrics.CalculateMetricsAsWritten | validation/validate_model.py:271-379 | as written: every call with a common image ends in a NameError; only the empty case returns a record |

## Left out

- The SDK calls (Gemini, OpenAI, Anthropic) and `asyncio` concurrency are left out. A reply is a parameter, `None` when the call raised, and `gather` is a sequence of outcomes in dispatch order.
- `json.loads`/`json.dumps`, PIL, base64 decoding, OpenCV, and `image_to_base64` are function parameters or are left out. Their own behaviour is not modelled.
- Floating point: confidences, weights, times and percentages are exact reals. Rounding error is not modelled.
- Logging, `print`, the `X-Response-Time` header, timing, plotting and the files written by the validation script are left out.
- `Ensemble.JudgeSummary`: `json.dumps(..., indent=2)` and the judge prompt text are not modelled. The summary is passed to the judge as records.
- `Ensemble.AnalysisMessage`: the exception text after "analysis failed" is not modelled.
- `Ensemble.EnsembleMessage`: an unreadable image raises the decoder's own exception, and a failing judge raises the SDK's, `json.loads`'s or Pydantic's exception unwrapped. Their texts are not modelled, so these two errors have no message.
- `ImageValidator.Message`: the exception texts after "Invalid image file: " and "Invalid base64 encoding: " are left out, and so is the list of allowed formats, whose order is set iteration order.
- Beauty: the response models `MakeupRecommendationResponse` and `HairRecommendationResponse` are not part of this model. Their validation of the result dictionary is left out.
- Pydantic is modelled only as the checks `Verdicts.Validate` states: `personal_color_type` is text, `confidence` is a number, and the optional fields are absent or text. Coercion such as an integer confidence becoming a float is not modelled.
- `create_rate_limit_middleware` (src/middleware/rate_limit.py:36-93): the middleware it builds forwards every request. Its 429 branch catches an exception nothing raises. Nothing beyond forwarding is modelled.
- The global instances (`_metrics_collector`, `rate_limiter`, `ensemble_analyzer`, `get_metrics_collector`) are left out, as are the collector's and limiter's locks.
- `RateLimit.DecideSpec`: with a limit of 0 or less, `min()` of an empty sequence fails. The model reports this as its own outcome and does not raise.
- `UserInfo`: the SQLAlchemy session's `commit`/`refresh`, and persisting images to disk, are left out. The clock is a parameter.
- `MigrateProducts`: `init_db`, the session and `db.close()` are modelled only as the committed table and the pending changes.
- `MigrateProducts.Step`: the `Product` schema is not part of this model. The table is taken to accept several rows with one `external_id`, so every commit succeeds. If `external_id` were unique, a commit holding a duplicate id would raise `IntegrityError`: at lines 76 and 101 it would be caught and rolled back, and at line 110 it would be re-raised. That outcome is not modelled. `first()` without `ORDER BY` is taken to return rows in insertion order. Logging of progress and `main`'s argument parsing and printed summary are left out.
- Popularity: an item's ID is an integer, as the sheet delivers it, or missing (key `""`, sort key 0). An ID of another type is not modelled.
- Db: the Google Sheets fetch and the columns the queries do not filter on are left out. A sheet is assumed to carry both filtered columns once it has a row; a sheet lacking one of them raises KeyError in the source and is not modelled.
- `run_validation`, `predict_image` and the per-image classification in validation/validate_model.py are left out. So are `generate_visualizations` and `save_results`. Predictions are typed by season, as the run keeps only season names.
- `ValidateMetrics.CalculateMetrics`: `accuracy_total` and `classification_rate`, the threshold table and the unused `tn` are only printed, so they are not modelled. The confusion matrix of the empty case (`{}`) is returned as None.
- `ValidateMetrics.BuildConfusion`: iteration over a Python set has an unspecified order. The model iterates in an arbitrary order, and its result does not depend on that order.
- RateLimit: header names are held in the lower-cased form Starlette keeps them in, so a lookup ignores case as the source's does. Starlette's folding of non-ASCII header bytes is not modelled.
- Text: `int()` accepts underscores and non-ASCII digits, and `lower()`/`upper()` map non-ASCII letters. The model covers ASCII only.

## Findings

| source | as written | input that shows it | evidently intended | confidence | as-written member | corrected member |
|---|---|---|---|---|---|---|
| validation/validate_model.py:371 | the returned record names `accuracy`, which is never assigned; only `accuracy_on_classified` is | any ground truth and predictions sharing one image | return `accuracy_on_classified` as `overall_accuracy` | high; not executed | ValidateMetrics.CalculateMetricsAsWritten | ValidateMetrics.CalculateMetrics |
| migrate_products.py:104-107 | a failing row calls `db.rollback()`, which also discards the uncommitted rows already counted as migrated | a row with id "1", then a row with id "x", without `--update` | a failure undoes only its own row, so the counts match the table | medium; not executed | MigrateProducts.RollbackLosesCountedRows | MigrateProducts.SavepointCountsAdded |
