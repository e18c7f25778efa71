# Ship-report pipeline: a verified Dafny model

This project models the core of the Sea Watcher ship-report pipeline in Dafny 4.11. An observer submits a sighting from the web form. The HTTP front end records a Prometheus snapshot and starts a Temporal workflow. The workflow enriches the report step by step and renders a final snapshot. The project proves what each piece promises.

One module per source file:

| module | file | form |
|---|---|---|
| `Shared` | `shared.dfy` | datatypes for the base report and the enriched report, and keyword-argument construction with its required-field check |
| `Activities` | `activities.dfy` | the three stub activities, each with its random draw as a parameter; the Prometheus line renderer for dict- and object-shaped input |
| `DbUtils` | `db_utils.dfy` | the trust-score and report-number stubs; visibility post-processing, with the HTTP exchange as a parameter |
| `Workflow` | `workflow.dfy` | class `ReportDetailsWorkflow`, whose `metrics` field `Run` appends to; `Run` fills the enriched report in a fixed order and falls back to a fixed narrative text |
| `Server` | `server.dfy` | class `MetricsSink`, holding the two snapshot lists, the submitted reports and the background tasks in flight; `/metrics` rendering |
| `S3Service` | `s3_service.dfy` | data-URL split, extension and content-type choice, object key and URL; decoding, the fresh id and the put are parameters |
| `ShipReportForm` | `ship_report_form.dfy` | the star row (a method with two loops), the observer tier, the submit guard, payload defaulting, error-message composition, and class `ReportForm` with the submit handler |
| `Text`, `Wrappers` | `text.dfy`, `wrappers.dfy` | `Option`/`Result`; join, split, substring tests and decimal digits, with the lemmas relating them |

Representation choices:
- Latitude and longitude are the text Python's `str()` gives them.
- A trust score is a whole number of hundredths: 0.75 is 75. It renders as Python's repr of the two-decimal float, so 75 is "0.75", 80 is "0.8" and 100 is "1.0".
- Each of the five enrichment steps in the workflow (report number, visibility, neighbours, trust score, narrative) is an `Attempt`: the value its activity returns, or the failure the engine raises once retries are spent. The two metric conversions the workflow runs as activities (`temporals/base/workflow.py:35-39` and `:93-97`) are plain renders in `Run`, because the renderer fails only on a dict that lacks a key, and the workflow passes it report objects.
- The server's background task from `submit_ship` awaits four times: the initial render (`temporals/base/server.py:85`), `start_workflow` (`:89`), `handle.result()` (`:95`) and the final render (`:97`). The model cuts it only at `handle.result()`, so that many tasks can interleave while their runs are in flight. The initial render and the start are taken together as one step, and so are the result and the final render. `SubmitShip` schedules a task. `StartBackgroundRun` stores the initial snapshot and starts the run, unless a run under the same workflow id is still in flight. `FinishBackgroundRun` awaits the run and stores the final snapshot. Tasks start and finish in any order the caller chooses.

Where the code departs from its evident intent or from the services it calls, the model records what the code does and what the model does about it:
- `temporals/base/workflow.py:15` imports `llm_enrich`, which `activities.py` does not define.
- `temporals/base/workflow.py:61-66` has the neighbour activity commented out, so the call as written gets no activity at all. The neighbour step and the narrative step are therefore modelled as outcomes given to the run. A failed neighbour step fails the run, as every required step does.
- `temporals/base/shared.py:28-39` declares no `enriched_description`. `temporals/base/workflow.py:79` and `:89` assign one anyway. Assigning an undeclared field of a pydantic model raises. As written, the assignment at `:79` is caught by the `except` at `:86`, and the fallback assignment at `:89` then raises outside any handler, so no run completes. The model gives `EnrichedReportDetails` the evidently intended optional field instead.
- The server's header (`temporals/base/server.py:110-111`) declares `ship_ais_number_total`, while the rendered lines name `ship_report_number_total`. The workflow's header (`temporals/base/workflow.py:111-112`) matches the lines. Both headers are modelled as written.
- `EnrichedReportDetails` starts with visibility 1, not None.
- Workflow ids are `"ship-"` plus the account id, so two reports from one account get the same id. Temporal refuses to start a workflow whose id is still running, and `run_workflow_bg` has no handler for that. So a report from an account whose run is in flight stores its initial snapshot and never a final one (`StartBackgroundRun`, `IdInUseIffSameAccount`). Every guest submits as "guest", so all guest reports share one id.
- The form sends no coordinates when there is no location. The server's `ReportDetails` requires both, so such a report is refused (`MakeSucceedsIffRequiredPresent`). Without an image the form sends `picture_url: null`. That key is present, so pydantic would refuse it as a type error (`picture_url` is `str`), a check this model does not make (see `Shared.MakeReportDetails` under "## Left out").
- `/metrics` (`temporals/base/server.py:104-114`) returns a `str` without `response_class=PlainTextResponse`, which `server.py:3` and `:5` import but never use. FastAPI would therefore serve the text as a JSON string literal, with its newlines escaped. The model covers the handler's return value only.
- The code has no narrative-length gauges, no timestamp label and no default trust score. None is modelled.

## Model

| member | source | states |
|---|---|---|
| Shared.MakeReportDetails | temporals/base/shared.py:5-26 | building a report fails exactly with the list of missing required fields |
| Shared.MakeSucceedsIffRequiredPresent | temporals/base/shared.py:10-18 | a report is built iff all five required fields are supplied |
| Shared.MakeDefaultsOptionalFields | temporals/base/shared.py:10-26 | a built report holds each supplied value; an optional field not supplied is None |
| Shared.MakeReportFieldsRoundTrip | temporals/base/shared.py:5-26 | rebuilding a report from its own keyword arguments gives it back |
| Shared.ReportFieldsIdentity | temporals/base/shared.py:10-12 | a report's keyword arguments carry its account id and timestamp |
| Shared.ReportFieldsPosition | temporals/base/shared.py:14-18 | a report's keyword arguments carry its latitude, longitude and picture URL |
| Shared.ReportFieldsOptional | temporals/base/shared.py:20-26 | a report's keyword arguments hold an optional field exactly when it is set |
| Shared.WithOptional | temporals/base/shared.py:20-26 | adding an optional field touches no other key, and leaves an unset one absent |
| Shared.FromReportDefaults | temporals/base/shared.py:28-39 | a fresh enriched report keeps the base report, has no report number, trust score or neighbours, and has visibility 1 |
| Shared.FromReport | temporals/base/workflow.py:43 | the enriched record made from a report: the report's fields, visibility 1 and no other enrichment yet; `Workflow.NarrativeSeesEnrichedReport` and `Workflow.FinalStageValues` state what the steps then add |
| Activities.FormatReportNumber | temporals/base/activities.py:19 | `"AIS-"` plus five digits that denote the draw: nine characters |
| Activities.AssignReportNumber | temporals/base/activities.py:15-21 | the report number is `"AIS-"` followed by the draw's five digits |
| Activities.CalculateVisibility | temporals/base/activities.py:23-29 | the visibility is the draw, within 5..10 |
| Activities.RoundHalfEven | temporals/base/activities.py:11 | `round` gives the nearest integer, and the even one on a tie |
| Activities.CalculateTrustScore | temporals/base/activities.py:7-13 | the score is 50..100 hundredths, within half a hundredth of the draw |
| Activities.StubStepExamples | backend/tests/test_activities.py:37-52 | draws 12345, 8 and 0.75 give "AIS-12345", 8 and 75 hundredths; scores 75, 80 and 100 render as "0.75", "0.8" and "1.0" |
| Activities.ScoreTextRoundTrip | temporals/base/activities.py:99-101 | the trust score's rendered text parses back to the same hundredths |
| Activities.FractionRoundTrip | temporals/base/activities.py:99-101 | a score's decimals are one or two digits that denote its fraction |
| Activities.ParseWholeAndFraction | temporals/base/activities.py:99-101 | digits, a dot and a tail parse as the digits before the dot and the tail |
| Activities.ReadFields | temporals/base/activities.py:68-80 | an object-shaped input always supplies the fields; a dict fails iff it lacks `source_account_id`, `latitude` or `longitude`, and the error names the first of these absent, in the order they are read; a report or an enriched record yields its own fields, the report with no number or score |
| Activities.StageOf | temporals/base/activities.py:83-84 | the stage is "final" iff report number and trust score are both set, else "initial" |
| Activities.RenderShipMetrics | temporals/base/activities.py:65-109 | objects always render; a dict fails iff one of the three indexed keys is missing, and the error names the first one missing |
| Activities.MetricLines | temporals/base/activities.py:86-105 | the info line alone when not final, else the trust-score line and the counter line; their order and count are proved in `RenderedLineCount`, their shapes in `LineShapes` |
| Activities.InfoLine | temporals/base/activities.py:90-95 | the `ship_info` f-string; its shape is proved in `InfoLineShape`, its single line in `InfoLineSingle` |
| Activities.TrustLine | temporals/base/activities.py:98-101 | the `ship_trust_score` f-string; proved in `TrustLineShape` and `TrustLineSingle` |
| Activities.CountLine | temporals/base/activities.py:102-104 | the `ship_report_number_total` f-string; proved in `CountLineShape` and `CountLineSingle` |
| Activities.ScoreText | temporals/base/activities.py:101 | Python's `str()` of the trust score; it parses back to the score (`ScoreTextRoundTrip`) |
| Activities.Render | temporals/base/activities.py:92-104 | `str()` of each interpolated value: text as is, the score as `ScoreText`, integers in decimal, lists in brackets, None as "None" |
| Activities.ConvertToPrometheusMetrics | temporals/base/activities.py:61-63 | the activity returns exactly what the helper renders |
| Activities.LineShapes | temporals/base/activities.py:89-104 | each line starts with its metric name and brace and ends with its value: 1, or the trust score |
| Activities.InfoLineShape | temporals/base/activities.py:90-94 | the info line starts `ship_info{` and ends `} 1` |
| Activities.TrustLineShape | temporals/base/activities.py:98-101 | the trust line starts `ship_trust_score{` and ends with the trust score |
| Activities.CountLineShape | temporals/base/activities.py:102-104 | the counter line starts `ship_report_number_total{` and ends `} 1` |
| Activities.InfoLineSingle | temporals/base/activities.py:90-94 | with newline-free labels the info line is one line |
| Activities.TrustLineSingle | temporals/base/activities.py:98-101 | with newline-free labels the trust line is one line |
| Activities.CountLineSingle | temporals/base/activities.py:102-104 | with newline-free labels the counter line is one line |
| Activities.MetricLinesSingle | temporals/base/activities.py:86-105 | none of the lines built holds a newline |
| Activities.RenderedLineCount | temporals/base/activities.py:86-109 | split at newlines, the output is exactly the lines built: one if not final, two if final, no trailing newline |
| Activities.DictAndObjectAgree | temporals/base/activities.py:68-80 | an enriched report and its dict give the same fields and the same text |
| Activities.ReportDictAndObjectAgree | temporals/base/activities.py:68-80 | a base report and its dict give the same fields and the same text |
| Activities.UnenrichedIsInitial | temporals/base/activities.py:77-84 | a base report, and a fresh enriched one, render as initial |
| Activities.EnrichedFinalIff | temporals/base/activities.py:82-84 | an enriched report is final iff it has a report number and a trust score |
| Activities.IsFinal | temporals/base/activities.py:82-83 | a snapshot is final iff both the report number and the trust score are present; `Activities.StageOf` states the label it selects and `Activities.UnenrichedIsInitial` that a fresh report is never final |
| DbUtils.GetTrustScore | temporals/base/db_utils.py:14-24 | the stub finds no trust score for any account |
| DbUtils.GetOrCreateReportNumber | temporals/base/db_utils.py:39-50 | `"AIS-"` followed by the five digits of the draw |
| DbUtils.GetVisibilityForLocation | temporals/base/db_utils.py:52-75 | fails with the key error iff the key is unset or empty; any value returned is at most 10000 |
| DbUtils.NoKeyNoRequest | temporals/base/db_utils.py:58-60 | without a key the result does not depend on any request |
| DbUtils.VisibilityOutcomes | temporals/base/db_utils.py:61-75 | a failed exchange is raised again; a missing field is an error; a value comes back as min(value, 10000) |
| DbUtils.WeatherUrl | temporals/base/db_utils.py:61 | the OpenWeatherMap current-weather URL with the coordinates and the key as query parameters; `DbUtils.VisibilityOutcomes` states that the answer to this one URL decides the visibility |
| Workflow.FirstFailure | temporals/base/workflow.py:45-75 | a failed run names one of the four required steps, that step failed, and every step before it completed |
| Workflow.FieldIndex | temporals/base/workflow.py:45-89 | each enrichment field has its place in the fill order |
| Workflow.FilledCount | temporals/base/workflow.py:45-89 | a run fills at most the five enrichment fields |
| Workflow.EnrichmentSteps | temporals/base/workflow.py:43-89 | succeeds iff the four required steps complete, else fails at the first failure; the enriched copy after each step it got through is the reference `Stage` for that many steps; a success returns the fifth stage, holding every step's result and the fallback text when the narrative step fails |
| Workflow.Stage | temporals/base/workflow.py:43-89 | the reference run: a fresh enriched copy, then each step of the fill order storing its result into its field, computed from the report as that step receives it |
| Workflow.StageFieldsInOrder | temporals/base/workflow.py:43-89 | after k steps exactly the first k fields of the fill order are assigned, the rest hold their fresh values, and the report is the one received |
| Workflow.FillAssignsOnlyItsField | temporals/base/workflow.py:45-89 | each step assigns its own field and leaves the report and every other field as they were |
| Workflow.NarrativeSeesEnrichedReport | temporals/base/workflow.py:78-84 | the narrative step receives the report with report number, visibility, neighbours and trust score set to their steps' results, and no description |
| Workflow.FinalStageValues | temporals/base/workflow.py:43-89 | after all five steps the report holds each step's own result |
| Workflow.ReportDetailsWorkflow.constructor | temporals/base/workflow.py:27-28 | a new workflow has stored nothing |
| Workflow.ReportDetailsWorkflow.Run | temporals/base/workflow.py:30-101 | a completed run appends the initial and then the final snapshot; a failed run appends only the initial one; its enriched report goes through the stages of `EnrichmentSteps` |
| Workflow.ReportDetailsWorkflow.GetMetrics | temporals/base/workflow.py:103-106 | the answer is empty iff nothing is stored |
| Workflow.QueryLines | temporals/base/workflow.py:107-116 | once something is stored, the answer's lines are the four header lines and then every snapshot's lines, in order stored |
| Workflow.HeaderSingleLines | temporals/base/workflow.py:108-113 | each of the four header entries is a single line |
| Workflow.InitialSnapshotIsInitial | temporals/base/workflow.py:35-40 | the initial snapshot renders the dict as the object renders; it is the one `ship_info` line with stage "initial" |
| Workflow.InitialSnapshot | temporals/base/workflow.py:35-39 | the convert activity on the report; `InitialSnapshotIsInitial` proves it is the dict render and one initial line |
| Workflow.FinalSnapshot | temporals/base/workflow.py:93-97 | the convert activity on the enriched report; `FinalSnapshotIsFinal` proves it is the dict render and the two final lines |
| Workflow.FinalSnapshotIsFinal | temporals/base/workflow.py:69-98 | after report number and trust score are set, the final snapshot renders the dict as the object renders; it is the two lines with stage "final" |
| Workflow.Narrative | temporals/base/workflow.py:78-89 | the narrative step's text when it completes, otherwise the fixed failure description; `Workflow.FinalStageValues` states that the run's result holds it |
| Workflow.Fill | temporals/base/workflow.py:45-89 | one step's assignment to its own field; `Workflow.FillAssignsOnlyItsField` states that no other field changes |
| Server.WorkflowId | temporals/base/server.py:92 | the workflow id is `"ship-"` followed by the account id |
| Server.MetricsSink.constructor | temporals/base/server.py:43-44 | both snapshot lists start empty |
| Server.MetricsSink.SubmitShip | temporals/base/server.py:79-102 | answers accepted / "Processing started" at once, schedules the background task, and stores nothing yet |
| Server.MetricsSink.StartBackgroundRun | temporals/base/server.py:83-94 | a background task appends its report's initial snapshot; its run starts under `"ship-"` plus the account iff no run under that id is in flight, else the background task ends with no run |
| Server.IdInUse | temporals/base/server.py:89-94 | whether a run under the id is in flight |
| Server.WorkflowIdClash | temporals/base/server.py:92 | two reports share a workflow id iff they share an account |
| Server.IdInUseIffSameAccount | temporals/base/server.py:89-94 | a report's run cannot start exactly when a report of the same account is in flight |
| Server.MetricsSink.FinishBackgroundRun | temporals/base/server.py:95-99 | a finished run appends its final snapshot on success, and nothing on failure; a success holds every step's result, so report number and trust score are set; the initial list is untouched |
| Server.MetricsSink.GetMetrics | temporals/base/server.py:104-114 | the header, then every initial and every final snapshot joined by newlines; its lines are proved in `MetricsLines` and its header in `MetricsStartWithHeader` |
| Server.FinalNeverOutnumbersInitial | temporals/base/server.py:85-99 | in every reachable state there are no more final snapshots than initial ones |
| Server.MetricsLines | temporals/base/server.py:104-114 | `/metrics` lines are the four header lines, then every initial snapshot's lines, then every final one's |
| Server.MetricsStartWithHeader | temporals/base/server.py:107-113 | `/metrics` always begins with the header, even with nothing stored |
| Server.ExpositionHeaderSingleLines | temporals/base/server.py:107-112 | each of the four header entries is a single line |
| Server.SnapshotsMatchWorkflow | temporals/base/server.py:85-97 | the server's direct render of the report objects equals what the convert activity gives for their dicts, as the workflow delivers them |
| Server.ServerInitialSnapshot | temporals/base/server.py:85 | the server's initial snapshot of a report; `Server.SnapshotsMatchWorkflow` states that it is the conversion of the report's dict |
| Server.ServerFinalSnapshot | temporals/base/server.py:97 | the server's final snapshot of a run's result; `Server.SnapshotsMatchWorkflow` states that it is the conversion of the result's dict |
| S3Service.NewS3Service | temporals/base/s3_service.py:13-22 | construction fails iff the bucket variable is unset or empty |
| S3Service.SplitDataUrl | temporals/base/s3_service.py:26 | with a comma, header + "," + payload is the input and the header has no comma; without one, there is no header |
| S3Service.SplitDataUrlInverse | temporals/base/s3_service.py:26 | a comma-free header, a comma and any payload split back into that header and payload |
| S3Service.ExtensionIsKnown | temporals/base/s3_service.py:38-58 | the extension is one of .jpg, .png, .gif, and the content type one of the three image types |
| S3Service.ExtensionAgreesWithContentType | temporals/base/s3_service.py:38-58 | the extension matches the content type for every header |
| S3Service.HeaderClassification | temporals/base/s3_service.py:38-58 | no header means JPEG; a jpeg mention wins over png and gif; an unknown header is JPEG |
| S3Service.GetExtension | temporals/base/s3_service.py:38-47 | the extension by header; its range and precedence are proved in `ExtensionIsKnown` and `HeaderClassification` |
| S3Service.GetContentType | temporals/base/s3_service.py:49-58 | the content type by header; it agrees with the extension (`ExtensionAgreesWithContentType`) |
| S3Service.UploadBase64Image | temporals/base/s3_service.py:24-36 | split, decode, key, put and URL in the order the method runs them, every failure giving None; its outcome is proved in `UploadOutcome` |
| S3Service.UploadOutcome | temporals/base/s3_service.py:24-36 | an upload returns a URL iff decoding and the put under prefix+id+extension succeed; the URL names bucket, region and key; every failure is None |
| S3Service.ObjectKey | temporals/base/s3_service.py:29 | the key is the prefix, the fresh object id and the extension, in that order; `S3Service.UploadOutcome` states that the stored request uses this key |
| S3Service.ObjectUrl | temporals/base/s3_service.py:31 | the public URL names the bucket, the region and the key; `S3Service.UploadOutcome` states when it is returned and how it starts |
| ShipReportForm.RenderStars | web-app/src/components/ship-report-form.tsx:294-313 | the two loops build `min(score, 5)` filled stars, then empty ones up to five |
| ShipReportForm.StarRow | web-app/src/components/ship-report-form.tsx:294-313 | the row the two loops build; its shape is proved in `StarRowShape` |
| ShipReportForm.StarRowShape | web-app/src/components/ship-report-form.tsx:294-313 | for a score of zero or more there are five stars, the first min(score, 5) filled |
| ShipReportForm.FilledCountOfBlocks | web-app/src/components/ship-report-form.tsx:299-310 | a block of filled stars followed by empty ones has as many filled as the first block |
| ShipReportForm.ObserverTier | web-app/src/components/ship-report-form.tsx:601-613 | the nested conditional choosing the status text; proved in `TierRanges`, `TierMonotone` and `TierMatchesStars` |
| ShipReportForm.TierRanges | web-app/src/components/ship-report-form.tsx:601-613 | the four tiers cover the score ranges >= 5, 3..4, 1..2 and <= 0 |
| ShipReportForm.TierMonotone | web-app/src/components/ship-report-form.tsx:601-613 | a higher score never gives a lower tier |
| ShipReportForm.TierMatchesStars | web-app/src/components/ship-report-form.tsx:598-613 | the tier agrees with the number of filled stars shown |
| ShipReportForm.GuardMatchesButton | web-app/src/components/ship-report-form.tsx:192-196 | the handler's guard blocks exactly what the idle button refuses |
| ShipReportForm.OrUndefined | web-app/src/components/ship-report-form.tsx:215-218 | an empty text is left out; any other is sent as typed |
| ShipReportForm.AccountId | web-app/src/components/ship-report-form.tsx:210 | the account is the user's id; it is "guest" exactly when there is no user, the id is empty, or the id is "guest" |
| ShipReportForm.BuildPayload | web-app/src/components/ship-report-form.tsx:209-219 | the object literal of the payload; its defaults are proved in `PayloadDefaults` |
| ShipReportForm.PayloadDefaults | web-app/src/components/ship-report-form.tsx:209-219 | the payload carries account, timestamp and picture; empty optional texts and a missing location are left out |
| ShipReportForm.ItemMessage | web-app/src/components/ship-report-form.tsx:241 | the element's `msg` when truthy, else `JSON.stringify` of it; its cases are proved in `ItemWithMsgShown` and `ItemWithoutMsgStringified` |
| ShipReportForm.ItemMessages | web-app/src/components/ship-report-form.tsx:241 | the mapping succeeds iff no element is null; then message i is element i's message |
| ShipReportForm.ItemWithoutMsgStringified | web-app/src/components/ship-report-form.tsx:241 | a non-null element without a truthy `msg` is shown as `JSON.stringify` of it |
| ShipReportForm.ItemWithMsgShown | web-app/src/components/ship-report-form.tsx:241 | an element with a truthy `msg` is shown as that value |
| ShipReportForm.JsString | web-app/src/components/ship-report-form.tsx:241-244 | `String()` of a `msg` value as `join` and the assignment put it in the message |
| ShipReportForm.ErrorMessage | web-app/src/components/ship-report-form.tsx:232-248 | the message differs from the fallback only when the body parsed and has a truthy `detail` that is text, a list or an object |
| ShipReportForm.ArrayDetailJoined | web-app/src/components/ship-report-form.tsx:239-241 | an array detail without null elements is shown as its elements' messages joined with "; " |
| ShipReportForm.ObjectDetailStringified | web-app/src/components/ship-report-form.tsx:242-244 | an object detail without a truthy `msg` is shown as `JSON.stringify` of it |
| ShipReportForm.ItemMessagesOfMsgObjects | web-app/src/components/ship-report-form.tsx:241 | the messages of validation-error objects are their `msg` texts |
| ShipReportForm.TextDetailShown | web-app/src/components/ship-report-form.tsx:236-238 | a non-empty string detail is shown verbatim |
| ShipReportForm.ListDetailShown | web-app/src/components/ship-report-form.tsx:239-241 | an array of error objects is shown as their messages joined with "; " |
| ShipReportForm.ObjectDetailShown | web-app/src/components/ship-report-form.tsx:242-244 | an error object is shown as its message |
| ShipReportForm.FallbackKept | web-app/src/components/ship-report-form.tsx:233-247 | a non-JSON body, a null body, no detail, an empty detail, a number or boolean detail, or a list with a null element all keep the fallback text |
| ShipReportForm.NullItemFails | web-app/src/components/ship-report-form.tsx:241 | a null element makes the mapping throw |
| ShipReportForm.ReportForm.constructor | web-app/src/components/ship-report-form.tsx:71-85 | the form starts idle, with no error, no success and no report |
| ShipReportForm.ReportForm.HandleSubmit | web-app/src/components/ship-report-form.tsx:186-273 | every path ends not submitting. Nothing to report sets the error and sends nothing. An unreadable image, a thrown fetch, or an ok answer without JSON raises the alert. A rejected answer sets the composed message. An ok answer with JSON sets success and the report |
| ShipReportForm.SubmitDisabled | web-app/src/components/ship-report-form.tsx:542 | the button is disabled while submitting or when there is neither image nor location; `ShipReportForm.GuardMatchesButton` states that the idle button refuses exactly what the submit guard refuses |
| ShipReportForm.NothingToReport | web-app/src/components/ship-report-form.tsx:192 | neither an image nor a location; `ShipReportForm.ReportForm.HandleSubmit` states that such a submit sets the form error and sends nothing |

## Left out

- Temporal machinery: the retry policy, timeouts, durable history, task queues and client connection. Each activity call is just the outcome it finally yields. `temporals/base/worker.py` is not part of this model. Its import of a nonexistent `find_ais_neighbours` is not modelled.
- Real concurrency: the background task's interleaving is modelled at `handle.result()` only. The awaits of the render and of `start_workflow` are taken as one step, as are the awaits inside the workflow run.
- Shared.MakeReportDetails: checks only that the required keys are present. Pydantic's value and type validation is not modelled, because field values are taken as text: a null `picture_url` or a non-numeric latitude would be refused by the source and is not refused here.
- The `/metrics` response class: FastAPI's JSON encoding of the returned text is not modelled.
- ShipReportForm.JsString: a JSON number is an integer here (`JNumber`), so a fractional `msg` such as 0.5 cannot be written; JavaScript's number formatting is not modelled.
- The server's root endpoint and startup connection: no state, only configuration.
- `store_user_metadata`: a stub that only logs, with no effect to model.
- HTTP, boto3, base64, uuid, random and the LLM call. Their results are parameters: `fetch`, `put`, `decode`, `objectId`, the draws and the step outcomes.
- The commented-out AIS neighbour lookup: it is not live code.
- Logging everywhere: no observable result.
- Activities.Render: a list's items are each wrapped in single quotes without escaping. Python's repr switches to double quotes for an item that holds `'` and escapes backslashes and control characters. No report field the renderer reads is a list, so only unusual dict input reaches this case.
- Activities.CalculateTrustScore: rounds the exact value of the draw, not its binary float, so float ties are not modelled.
- Floating-point rendering of coordinates: they are taken as already-rendered text.
- `JSON.stringify`: taken as a parameter.
- ShipReportForm.JsString: renders an array or object `msg` by a fixed placeholder, not by JavaScript's `toString`.
- ShipReportForm.HandleSubmit: for a non-string `msg` in an object detail, stores the string form, while React would store the raw value.
- `JSON.stringify` of the payload itself, and the request headers: not modelled.
- ShipReportForm.RenderStars: takes integer scores only; `Math.min` on a fractional score is not modelled.
- The React rendering, camera, geolocation, FileReader plumbing and the three-second reset: UI and browser timing.
- `web-app/src/components/login-form.tsx` and `temporals/base/test_s3_upload.py`: not part of this model, being constant mock users and a manual script.
