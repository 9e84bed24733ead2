# EU AI Act risk classification engine — Dafny model

This project models the decision logic of a small tool that catalogues AI systems ("solutions") on boards. The tool rates each solution's EU AI Act risk tier in two independent ways:

- **Survey path.** A guided questionnaire walks a fixed list of 15 questions. Each "yes" may raise a running risk assessment. Submitting writes the result to the solution's `risk_survey` column.
- **AI path.** A batch endpoint sends each unclassified solution to an external LLM classifier. It decodes the reply and stores it in `risk_ai`.

KPI endpoints count, per board and globally, how many solutions carry each exact tier name on each path.

Modules, leaves first:

- `Wrappers`: `Option` and `Result`. `Result.Err` carries an exception's text.
- `RiskTier`: the four tiers, their severity order and their wire names.
- `SurveyCatalog`: the 15-question catalog.
- `SurveyRules`: the escalation rule as a pure function, and its fold over a history of answer events.
- `Survey`: the survey modal's state machine. It is the class `SurveySession`, with the fields `index`, `answers` and `assessment` that the answer and Previous handlers overwrite. A ghost history `events` records every answer given.
- `SurveyProperties`: the escalation policy's guarantees. The main result: after any history, the assessment equals an independent reference. That reference is the last prohibited "yes", else the last high-risk "yes", else the first limited-risk "yes".
- `TextOps`: Python's `str.strip()`, `split("\n")`, `"\n".join` and `str(int)`.
- `Solutions`: the solution record, its "Pending" defaults and the survey write-back endpoint.
- `Kpi`: exact-match counting per board and globally.
- `Analysis`: the batch analysis loop over an array of solution records. The classifier is a function parameter.
- `ReplyDecoding`: everything `analyze_risk_with_llm` does after the HTTP call, with JSON as a small datatype and `json.loads` as a parameter.
- `SurveyWriteBack`: how the submitted survey result reaches the stored record and the counts.

Facts about the program that the model states as they are:

- An unrecognised tier string is counted in no bucket, and nothing reports it.
- `handleSubmit` does not check that the survey is complete. Only the rendering of the submit button does (frontend/src/App.jsx:1121). So `Submit` takes that condition as its precondition.
- The AI path's classifier, `analyze_risk_with_llm`, catches every exception (backend/ai_service.py:120-122). So in the program as written the `except` branch of the batch loop never runs, and the response never carries `errors`. The batch loop is still modelled against any classifier.

## Model

| member | source | states |
|---|---|---|
| RiskTier.Name | backend/app.py:158-167 | the four wire strings "Minimal", "Limited", "High", "Unacceptable" that the counts compare against and the survey posts (also frontend/src/App.jsx:976) |
| RiskTier.Parse | backend/app.py:158-167 | exact-match recognition of a tier name; anything it accepts is that tier's name |
| RiskTier.ParseName | backend/app.py:158-167 | each tier's wire name is recognised as that tier and as no other |
| SurveyCatalog.CatalogShape | frontend/src/App.jsx:7-100 | 15 questions: 6 Prohibited, then 6 High Risk, then 3 Limited Risk, each with a `riskIfYes` matching its category |
| SurveyCatalog.CatalogDescendingSeverity | frontend/src/App.jsx:7-100 | no question asserts a higher tier than any question before it |
| SurveyCatalog.CatalogIdsUnique | frontend/src/App.jsx:7-100 | question ids are pairwise distinct |
| SurveyRules.Escalate | frontend/src/App.jsx:940-958 | the tier afterwards is the more severe of the previous tier and the tier the answer asserts; any change comes from a "yes" and carries that question's tier |
| SurveyRules.Strongest | frontend/src/App.jsx:940-958 | the most severe tier asserted by any event; Minimal when none asserts one |
| SurveyRules.Fold | frontend/src/App.jsx:935-958 | the running assessment after a history is never Minimal, always has details, and ranks as the most severe asserted tier |
| SurveyRules.Finalize | frontend/src/App.jsx:968-969 | the submitted result is the assessment as it stands, or Minimal with the fixed "no high-risk characteristics" text when there is none |
| Survey.SurveySession.constructor | frontend/src/App.jsx:928-930 | a new session walks the catalog from question 0 with no answers and no assessment |
| Survey.SurveySession.CurrentQuestion | frontend/src/App.jsx:932 | the question on screen is a catalog question |
| Survey.SurveySession.IsLastQuestion | frontend/src/App.jsx:933 | the question on screen is the catalog's last |
| Survey.SurveySession.HandleAnswer | frontend/src/App.jsx:935-964 | exactly the current question's answer is set or overwritten; the assessment goes through the escalation rule; the index moves on by one unless at the last question |
| Survey.SurveySession.Record | frontend/src/App.jsx:936-958 | stores the answer under the question's id, leaving the other answers as they are, and escalates; the invariant is kept: the assessment is the fold of the events |
| Survey.SurveySession.ApplyEscalation | frontend/src/App.jsx:940-958 | the handler's conditional block replaces the assessment exactly as the escalation rule says |
| Survey.SurveySession.CanGoBack | frontend/src/App.jsx:1112 | the Previous button is rendered past the first question (precondition of `Previous`) |
| Survey.SurveySession.Previous | frontend/src/App.jsx:1112-1116 | offered only past the first question; moves back one and rolls back neither answers nor the assessment |
| Survey.SurveySession.CanSubmit | frontend/src/App.jsx:1121 | the submit button is rendered at the last question once it has an answer (precondition of `Submit`) |
| Survey.SurveySession.Submit | frontend/src/App.jsx:966-969 | allowed (the button is rendered) at the last question once it is answered; returns the finalized assessment, whose tier is the most severe "yes" of the session, re-answered ones included |
| SurveyProperties.EscalateInert | frontend/src/App.jsx:940 | "no", "unsure" or a "yes" on a question without `riskIfYes` leaves the assessment unchanged |
| SurveyProperties.EscalateUnacceptable | frontend/src/App.jsx:942-946 | a "yes" on a prohibited question always sets Unacceptable with "Prohibited: " and the question, even over an earlier Unacceptable |
| SurveyProperties.EscalateHigh | frontend/src/App.jsx:947-951 | a "yes" on a high-risk question sets High with "High Risk: " and the question if and only if the assessment is absent or not Unacceptable |
| SurveyProperties.EscalateLimited | frontend/src/App.jsx:952-956 | a "yes" on a limited-risk question sets Limited only when there is no assessment; otherwise, an earlier Limited included, nothing changes |
| SurveyProperties.FoldIsReference | frontend/src/App.jsx:940-958 | after any history the assessment is the last prohibited "yes", else the last high-risk "yes", else the first limited-risk "yes", else none |
| SurveyProperties.FoldMonotone | frontend/src/App.jsx:940-958 | the tier never decreases along a history |
| SurveyProperties.UnacceptableIsFinal | frontend/src/App.jsx:942-951 | once Unacceptable, no later answers change the tier |
| SurveyProperties.FinalMinimalIff | frontend/src/App.jsx:940-969 | the submitted tier is Minimal if and only if no answer event was an escalating "yes" |
| SurveyProperties.FinalIsStrongest | frontend/src/App.jsx:940-969 | the submitted tier is the most severe `riskIfYes` over all "yes" events |
| SurveyProperties.ScenarioHighBeatsLaterLimited | frontend/src/App.jsx:940-958 | answers "no, yes, yes" to prohibited, high, limited questions yield High with the high-risk question's text |
| SurveyProperties.ScenarioAllNo | frontend/src/App.jsx:935-969 | fifteen "no" answers yield the Minimal default |
| SurveyProperties.ScenarioNoRollback | frontend/src/App.jsx:1112-1116 | "yes" to the first prohibited question, Previous, then "no" to it still leaves the Unacceptable assessment |
| TextOps.IsSpace | backend/ai_service.py:111 | the characters Python's `str.isspace()` accepts, which `strip()` removes |
| TextOps.Strip | backend/ai_service.py:111 | the result neither starts nor ends with whitespace, and all-whitespace text gives ""; characterised by `StripRemovesOnlyOuterSpace` and `StripIdempotent` |
| TextOps.Split | backend/ai_service.py:113 | at least one piece, none containing a newline; `JoinSplit`, `SplitFirstLine` and `SplitLastLine` characterise it |
| TextOps.Join | backend/ai_service.py:114 | joins with newlines; inverse of `Split` by `JoinSplit` |
| TextOps.NatDigits | backend/ai_service.py:99 | decimal digits with no leading zero whose value (`DigitsValue`, read most significant first) is the number |
| TextOps.IntToString | backend/ai_service.py:99 | `str(n)`: the digits of n, valued as n, with no leading zero; for a negative number a '-' before the digits of its magnitude (also the count in the message of backend/app.py:106) |
| TextOps.StripRemovesOnlyOuterSpace | backend/ai_service.py:111 | stripping removes only whitespace, and only at the two ends |
| TextOps.StripIdempotent | backend/ai_service.py:111 | stripping twice is stripping once |
| TextOps.JoinSplit | backend/ai_service.py:113-114 | joining the lines of a split with newlines gives back the text |
| Solutions.NewSolution | backend/models.py:17-22 | a created solution starts with both risk columns at "Pending" and role "Not specified" by default |
| Solutions.UpdateSurvey | backend/app.py:72-76 | writes the submitted risk level and the details (defaulting to '') and nothing else; a body without `risk_level` writes nothing |
| Solutions.UpdateSurveyOverwrites | backend/app.py:74-75 | the last submission wins, so re-submission is idempotent |
| Kpi.CountTier | backend/app.py:158-167 | a bucket never holds more solutions than there are |
| Kpi.CountTierPositive | backend/app.py:158-167 | a bucket is non-empty if and only if some solution carries exactly that tier's name |
| Kpi.BucketsHoldClassified | backend/app.py:155-167 | the four buckets together count exactly the solutions whose risk string is a tier name |
| Kpi.BucketsBounded | backend/app.py:155-167 | the sum of the buckets is at most the solution count, with equality if and only if every solution is classified |
| Kpi.MarkersAreNoTier | backend/models.py:20-22 | "Pending" and "Error" are not tier names, so they are counted in no bucket |
| Kpi.PathIndependent | backend/app.py:158-167 | each path's counts depend only on that path's column |
| Kpi.CountsAppend | backend/app.py:122-131 | counts over two groups of solutions add up |
| Kpi.GetBoardKpis | backend/app.py:150-184 | reports the board's solution count, and neither path's buckets exceed it |
| Kpi.GetKpis | backend/app.py:116-148 | reports the board count and the solution count, and neither path's buckets exceed the latter |
| Kpi.GlobalIsSumOfBoards | backend/app.py:116-148 | global totals and buckets are the sums of the per-board ones |
| Kpi.NewSolutionNotCounted | backend/models.py:20-22 | adding a freshly created solution changes no bucket on either path |
| Analysis.NeedsAnalysis | backend/app.py:88 | a solution is selected exactly when its AI risk is "Pending", "Error" or NULL |
| Analysis.AnalyzeAll | backend/app.py:87-101 | the board after the loop: each solution replaced by its analysed form, in place and in order |
| Analysis.Analyzed | backend/app.py:88-101 | one turn of the loop; characterised by `AnalyzedSkips`, `AnalyzedStoresReturn`, `AnalyzedStoresError`, `AnalyzedFrame` and `AnalyzedNeedsAgain` |
| Analysis.UpdatedCount | backend/app.py:84-97 | `updated_count` after the loop: at most the number of solutions; `AnalysisAccounting` relates it to the errors |
| Analysis.ErrorsOf | backend/app.py:85-101 | the error list, one "name: message" entry per raised call in order; `ErrorsReported` and `NoErrorsWithoutRaise` characterise it |
| Analysis.ReportOf | backend/app.py:105-112 | the response: message with the update count, updated, total and `errors` only when some call raised (`ErrorsReported`) |
| Analysis.TriggerAnalysis | backend/app.py:79-114 | each row of the board ends as its analysed form; the report gives the update count, the total and, only when some call raised, the errors |
| Analysis.AnalyzedSkips | backend/app.py:88 | solutions not at "Pending", "Error" or NULL are left untouched |
| Analysis.AnalyzedStoresReturn | backend/app.py:89-97 | a returned pair is stored as it is, even a returned "Error" or a null risk |
| Analysis.AnalyzedStoresError | backend/app.py:98-101 | a raised call stores "Error" with the exception text |
| Analysis.AnalyzedFrame | backend/app.py:87-101 | only `risk_ai` and `ai_rationale` are ever written |
| Analysis.AnalyzedNeedsAgain | backend/app.py:88-101 | a later run picks a solution up again if and only if this run stored "Error", "Pending" or NULL for it |
| Analysis.AnalysisAccounting | backend/app.py:84-101 | every classified solution is either counted as updated or listed as an error |
| Analysis.ErrorsReported | backend/app.py:111-112 | the response has `errors` if and only if some classifier call raised |
| Analysis.NullRiskOnlyFromReturn | backend/app.py:87-101 | a solution is left with a NULL AI risk if and only if it was classified and the classifier returned a null risk |
| Analysis.NoErrorsWithoutRaise | backend/app.py:98-112 | when no classifier call raises, the error list is empty and the response has no `errors` |
| Analysis.AnalysisKeepsSurveyCounts | backend/app.py:87-101 | a run never changes the survey counts |
| ReplyDecoding.TextOfBlocks | backend/ai_service.py:104-107 | the text the block loop accumulates, or the first exception; characterised by `TextOfBlocksAppend` and `IgnoresNonTextBlock` |
| ReplyDecoding.TextBlocksConcatenate | backend/ai_service.py:104-107 | blocks `{"type": "text", "text": s}` yield exactly their strings concatenated in order |
| ReplyDecoding.ContentItems | backend/ai_service.py:105 | a missing `content` gives no blocks, a list gives its items, and a non-object reply raises the `.get` AttributeError |
| ReplyDecoding.BlockText | backend/ai_service.py:106-107 | a block whose type is "text" contributes its `text` string; a missing `text` contributes ""; any other block contributes nothing |
| ReplyDecoding.TextOfBlocksAppend | backend/ai_service.py:104-107 | the extracted text is the in-order concatenation over the blocks, and the first exception wins |
| ReplyDecoding.IgnoresNonTextBlock | backend/ai_service.py:105-107 | a block whose type is not "text" can be removed without changing the text |
| ReplyDecoding.ConcatTextBlocks | backend/ai_service.py:104-107 | the accumulation loop computes the extracted text or the first exception |
| ReplyDecoding.StartsWithFence | backend/ai_service.py:112 | the trimmed text opens with three backticks |
| ReplyDecoding.StripFence | backend/ai_service.py:111-114 | trim, then drop the first and last line of fenced text; characterised by `StripFencePassThrough`, `StripFenceInterior` and `StripFenceSingleLine` |
| ReplyDecoding.StripFencePassThrough | backend/ai_service.py:111-114 | trimmed text that does not open a fence is passed through unchanged |
| ReplyDecoding.StripFenceInterior | backend/ai_service.py:111-114 | fenced text keeps exactly what lies between its first and its last newline |
| ReplyDecoding.StripFenceSingleLine | backend/ai_service.py:112-114 | fenced text with at most one newline becomes empty |
| ReplyDecoding.ReplyFields | backend/ai_service.py:118 | fields are read only from a JSON object; anything else raises |
| ReplyDecoding.Decode | backend/ai_service.py:101-118 | the success path from the reply body to the two fields, stopping at the first exception; `ParsedFieldsReturned` and `RiskLevelProvenance` characterise it |
| ReplyDecoding.AnalyzeReply | backend/ai_service.py:98-122 | the whole decoding, always a pair; characterised by `ApiErrorOnStatus`, `ParsedFieldsReturned`, `RiskLevelProvenance` and `FailuresAreCaught` |
| ReplyDecoding.AnalyzeRiskReply | backend/ai_service.py:98-122 | the step-by-step decoding returns the specified pair and never raises |
| ReplyDecoding.ApiErrorOnStatus | backend/ai_service.py:98-99 | a non-200 status yields "Error" with "API Error: " and the status |
| ReplyDecoding.ParsedFieldsReturned | backend/ai_service.py:116-118 | a parsed object's `risk_level` and `rationale` are returned verbatim, defaulting to "Error" and "No rationale provided" |
| ReplyDecoding.RiskLevelProvenance | backend/ai_service.py:116-118 | a risk level other than "Error" is the `risk_level` of the parsed object, not checked against the four tiers |
| ReplyDecoding.FailuresAreCaught | backend/ai_service.py:120-122 | every exception becomes "Error" with "Analysis failed: " and the exception text |
| SurveyWriteBack.SubmitPayload | frontend/src/App.jsx:975-978 | the POST body: the tier's wire name and the details; `SubmittedTierIsCounted` shows what the backend makes of it |
| SurveyWriteBack.SubmittedTierIsCounted | frontend/src/App.jsx:968-978 | a submitted survey stores exactly the submitted tier, so it lands in that survey bucket, and leaves the AI-path counts unchanged |
| SurveyWriteBack.NoEscalationStoredAsMinimal | frontend/src/App.jsx:968-978 | a survey with no escalating "yes" is stored as Minimal with the default details |

## Left out

- Rendering: modals, dashboards, CSS, the alert colour per tier and the progress-bar percentage (floating point). The display sums of the counts on the dashboards are also left out.
- The 300 ms deferred index advance is modelled as immediate. React's closure and batching timing is a concurrency concern.
- The radio buttons call the answer handler only when the selection changes. Re-picking the answer already shown therefore does not call it. The model lets every event call the handler.
- The `fetch` calls, `API_URL`, network failures on submit and the success callback.
- Flask routing, `get_or_404`, SQLAlchemy sessions, queries and commits.
- Board and solution create/delete with cascade delete. Only the creation defaults are kept, as `NewSolution`.
- CSV and JSON export, which are library serialisation.
- The global KPI counts every row of the solution table. The model takes that table to be the union of the boards' solution lists. Each row has a non-null board id, and deleting a board deletes its rows.
- The HTTP POST itself, the prompt text, the regulation context string and the `print` of errors. The outcome of the POST is an input that may have raised.
- `response.json()` and `json.loads` are abstract. The first is an input `Result`, the second a function parameter. Their exception texts are whatever those give.
- JSON numbers are integers. The type name "float" in exception texts is not modelled.
- Analysis.TriggerAnalysis: the classifier is a deterministic function of (name, description, user role). The real call may answer differently for equal inputs.
- Analysis.TriggerAnalysis: a returned value is a string or null. A JSON number, boolean, list or object in the reply is not modelled, because how a string column would store it depends on the database driver. The batch classifier is therefore kept separate from `ReplyDecoding`.
- Solutions.UpdateSurvey: a JSON `null` for `risk_level` or `details` is not told apart from an absent key.
