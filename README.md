# Customer-service coaching: a Dafny model of its stream, analysis and form logic

The system lets an agent upload a consultation (a text, audio or video file).
A Celery task sends the file to Gemini for transcription and analysis.
The browser follows progress over a server-sent event stream.
Around that flow, several React pages hold small rules: the upload form, the signup form, the analysis-result view and the admin KPI dashboard.

This project models the following:

- **The event stream, end to end.**
  - `ConsultationViews` is the Django `stream` action. It polls the row and writes `data: <json>\n\n` frames until the status is `completed` or `failed`.
  - `StreamClient` is the browser's line-buffered reader in `subscribeToConsultation`. Chunks go into a buffer, the buffer is split on LF, each `data: ` line is parsed and delivered in order, and reading stops after a terminal event.
  - The main results are chunk-invariance and the server/client round trip (`EndToEnd`). Chunk-invariance is carried by `Subscribe`'s contract, which states that the reader fed chunk by chunk delivers `SubscriptionEvents` of the concatenated text; `ChunkInvariance` restates it on that function. The round trip says the reader delivers exactly the events the server loop emitted, and stops exactly when the loop ended.
- **REST helpers** (`RestClient`): base-URL precedence, the bearer header, the consultation-list query string, and error-message normalisation.
- **The upload form** (`ConsultationUpload`): file-type inference, submit validation, and the state change caused by each stream event.
- **The analysis task** (`AnalysisTask`):
  - model-name prefixing;
  - the quota retry loop against a Gemini oracle that answers the n-th call;
  - the file-type dispatch;
  - the MIME default;
  - failure classification;
  - the final state of the row.
- **Display and form helpers:**
  - `AdminDashboard`: the KPI URL and errors, unit and colour helpers, period labels, the English dictionary and the rows of the Excel export;
  - `AnalysisResultDisplay`: the parse-or-raw fallback, and the score and priority mappings;
  - `SignupPage`: field updates, validation order and token storage.

`Wrappers` (Option and Result) and `TextUtil` (JavaScript `split`, substring tests, ASCII lower-casing, decimal rendering) are shared helpers. `ConsultationRecord` holds the four statuses of backend/coaching/models.py, the columns of a row that the task writes, and the loaded row object with its `save()`.

Abstractions:

- **Stream data.** Stream chunks are already-decoded strings. `JSON.parse` is a parameter `parse: string -> Option<Event>`, and `json.dumps` is a parameter `encode: Event -> string`.
- **Gemini.** Calls to Gemini are an oracle `nat -> GeminiOutcome`.
- **Task inputs.** The file content, the MIME guess, the Supabase outcome and the clock are inputs to the task.
- **Browser state.** `localStorage`, the environment variable and `window.location` are explicit inputs or fields.
- **Number rendering.** `toLocaleString`, `Math.round` and numbers in template literals are `real -> string` parameters.

## Model

| member | source | states |
|---|---|---|
| TextUtil.Split | frontend/src/api.js:146 | `split` on one character yields at least one part |
| TextUtil.SplitJoin | frontend/src/api.js:146 | no part contains the separator, and joining the parts with it gives the text back |
| TextUtil.SplitNoSeparator | frontend/src/components/ConsultationUpload.js:20 | a text without the separator is its own only part |
| TextUtil.SplitEndsWithSeparator | frontend/src/api.js:146-147 | a text ending on the separator leaves an empty last part |
| TextUtil.SplitSeparatorAppended | frontend/src/api.js:146-147 | appending a separator adds exactly one empty part at the end |
| TextUtil.SplitAppend | frontend/src/api.js:145-147 | splitting `buffer + chunk` gives the complete parts of the buffer, then the split of its kept fragment continued by the chunk |
| TextUtil.AsciiLower | frontend/src/components/ConsultationUpload.js:20 | same length, each ASCII capital replaced by its lower-case letter |
| TextUtil.DecimalString | frontend/src/api.js:131 | a non-empty string of decimal digits |
| TextUtil.DecimalRoundTrip | frontend/src/api.js:131 | the digits spell the number back, with no leading zero except for 0 |
| StreamClient.ErrorEvent | frontend/src/api.js:172 | the synthetic event has type `error`, carries the message and is not terminal |
| StreamClient.LineEvent | frontend/src/api.js:150-152 | only a line starting with exactly `data: ` yields an event, and then it is the parse of the rest of the line |
| StreamClient.DispatchParsed | frontend/src/api.js:149-164 | the delivered events are a prefix of all parsed events, in line order; if the loop does not stop, it delivers every parsed event |
| StreamClient.DispatchShape | frontend/src/api.js:153-159 | the loop stops right after a terminal event; no event before the last is terminal; without a stop none is |
| StreamClient.Fragment | frontend/src/api.js:147 | the kept fragment never contains LF |
| StreamClient.DispatchAppend | frontend/src/api.js:149-159 | two batches of lines deliver their concatenation's events, unless the first batch already stopped |
| StreamClient.DispatchStep | frontend/src/api.js:149-159 | one more line adds its event, if any, and stops on a terminal one |
| StreamClient.DispatchStopped | frontend/src/api.js:156-159 | once stopped, later lines change nothing |
| StreamClient.StreamAppend | frontend/src/api.js:145-147 | reading `t` then `u` is reading the lines of `t`, then the lines of its fragment continued by `u` |
| StreamClient.StoppedPrefix | frontend/src/api.js:156-158 | nothing arriving after a terminal event changes what was delivered |
| StreamClient.FragmentAfterLineFeed | frontend/src/api.js:147 | a text ending on LF keeps nothing in the buffer |
| StreamClient.UnterminatedTailIgnored | frontend/src/api.js:139-147 | an unterminated last line produces no event |
| StreamClient.StreamReader.constructor | frontend/src/api.js:134-136 | an empty buffer, nothing delivered, not aborted |
| StreamClient.StreamReader.Receive | frontend/src/api.js:139-147 | after any read, exactly the events of the text consumed so far have been delivered, and the buffer is its fragment; after an abort nothing changes |
| StreamClient.StreamReader.DeliverLines | frontend/src/api.js:149-164 | the loop over lines delivers exactly `Dispatch` of those lines and aborts exactly when that stops |
| StreamClient.StreamReader.Close | frontend/src/api.js:180-182 | closing aborts and changes nothing that was delivered; closing twice is closing once |
| StreamClient.HttpErrorMessage | frontend/src/api.js:127-132 | 401 gives the login message, any other status gives `서버 오류: <status>` |
| StreamClient.ChunksRead | frontend/src/api.js:138-143 | a close after k reads cuts the body at k chunks, never more than it has |
| StreamClient.Subscribe | frontend/src/api.js:118-174 | the whole subscription delivers exactly `SubscriptionEvents`: nothing if closed first; one error event for a rejected fetch or a non-ok status; else the stream's events plus one error event for a failing read that is not an abort |
| StreamClient.ChunkInvariance | frontend/src/api.js:145-147 | however the body is cut into chunks, the same events are delivered as for the body in one chunk |
| StreamClient.NonOkYieldsOneError | frontend/src/api.js:127-132 | a non-ok status yields exactly one `error` event |
| StreamClient.CloseFirstIsSilent | frontend/src/api.js:166-170 | an abort before anything arrives yields no event at all |
| RestClient.ApiBaseUrl | frontend/src/api.js:4-28 | a non-empty environment URL wins; otherwise `/api` exactly on a Vercel host or over HTTPS, else the local server |
| RestClient.AuthHeaders | frontend/src/api.js:34-37 | an `Authorization: Bearer <token>` header exactly when a non-empty token is stored, and no other header |
| RestClient.StreamAuthHeaders | frontend/src/api.js:120-123 | the stream request always sends the header, reading `Bearer null` without a token |
| RestClient.Present | frontend/src/api.js:71-75 | the filter keeps at most its input |
| RestClient.PresentMembers | frontend/src/api.js:71-75 | a parameter is sent exactly when it is one of the filters and its value is non-empty |
| RestClient.PresentKeepsOrder | frontend/src/api.js:71-75 | the parameters keep the filters' relative order |
| RestClient.Serialize | frontend/src/api.js:77 | the query is empty exactly when there are no parameters |
| RestClient.QuerySuffix | frontend/src/api.js:77 | `?` is added exactly when the query is non-empty |
| RestClient.AppendIfPresent | frontend/src/api.js:71 | appends the pair exactly when the value is truthy |
| RestClient.ConsultationsUrl | frontend/src/api.js:69-77 | the step-by-step appends produce exactly the non-empty filters in the order title, status, file_type, date_from, date_to, and the URL is the list path plus the suffix |
| RestClient.PresentAppend | frontend/src/api.js:70-75 | filtering distributes over concatenation |
| RestClient.PresentSnoc | frontend/src/api.js:70-75 | one more parameter is kept at the end exactly when its value is truthy |
| RestClient.NoFiltersNoQuery | frontend/src/api.js:70-77 | the URL has no query exactly when every filter is empty |
| RestClient.ErrorMessage | frontend/src/api.js:53-56 | `detail`, else `message`, else the fallback; never empty when the fallback is not |
| RestClient.FallbackMessage | frontend/src/api.js:239-287 | each helper's fallback text is non-empty |
| RestClient.RequestFailure | frontend/src/api.js:83-86 | a failed request always throws a non-empty message, the fallback for an unparsable body |
| ConsultationUpload.Extension | frontend/src/components/ConsultationUpload.js:20 | the extension contains no dot; a name without a dot is its own extension, lower-cased |
| ConsultationUpload.InferFileType | frontend/src/components/ConsultationUpload.js:20-27 | audio exactly for mp3, wav, m4a or ogg; video exactly for mp4, avi, mov or webm; text for everything else |
| ConsultationUpload.ExtensionAfterLastDot | frontend/src/components/ConsultationUpload.js:20 | only the text after the last dot counts, lower-cased, whatever the stem holds |
| ConsultationUpload.UpperCaseExtensions | frontend/src/components/ConsultationUpload.js:20-27 | `MP3` is audio, `WebM` is video and `txt` is text, after any stem |
| ConsultationUpload.UploadForm.constructor | frontend/src/components/ConsultationUpload.js:6-12 | the initial form state |
| ConsultationUpload.UploadForm.HandleFileChange | frontend/src/components/ConsultationUpload.js:15-29 | a selected file is stored with its inferred type; an empty selection changes nothing |
| ConsultationUpload.UploadForm.HandleSubmit | frontend/src/components/ConsultationUpload.js:31-83 | a missing title or file only sets the validation error; otherwise success subscribes to the new id, and failure clears the status, shows the message or `업로드 실패`, and resets `uploading` |
| ConsultationUpload.UploadForm.OnEvent | frontend/src/components/ConsultationUpload.js:54-75 | `completed`: done status, the result stored, closed, success called once, title and file cleared. `failed`: failure status and error, closed, title and file kept. `processing`: only the status. Any other type changes nothing |
| ConsultationUpload.UploadForm.Watch | frontend/src/components/ConsultationUpload.js:54-75 | over one subscription, `onUploadSuccess` runs at most once, exactly when the last event is `completed`; a terminal event leaves the form closed and not uploading |
| ConsultationUpload.SubscriptionTerminalLast | frontend/src/components/ConsultationUpload.js:54-66 | a subscription never delivers a terminal event before its last one |
| ConsultationRecord.Status.Wire | backend/coaching/models.py:7-12 | each status is one of the four stored values |
| ConsultationRecord.Consultation.constructor | backend/coaching/models.py:17-21 | a new row is `pending`, with no result, stored as such, with no plain attributes set |
| ConsultationRecord.Consultation.Load | backend/coaching/tasks.py:18 | the loaded object's columns are the stored ones, and no plain attribute is set |
| ConsultationRecord.Consultation.Save | backend/coaching/tasks.py:20 | the stored row becomes the object's three columns; the plain attributes are not written |
| ConsultationViews.SerializerFor | backend/coaching/views.py:25-28 | the create serializer exactly for the `create` action |
| ConsultationViews.Create | backend/coaching/views.py:30-41 | valid: 201 with a new `pending` row, whose id is enqueued exactly once. Invalid: 400 and nothing enqueued |
| ConsultationViews.FormatEvent | backend/coaching/views.py:91-100 | the record carries the type, id and status; an empty or absent result is sent as null, any other result as is |
| ConsultationViews.Frame | backend/coaching/views.py:74 | a frame starts with `data: ` and ends with a blank line |
| ConsultationViews.PollEvent | backend/coaching/views.py:72-80 | a poll emits nothing exactly while `pending`, else one event of the status's type, terminal exactly for `completed` or `failed` |
| ConsultationViews.EmittedShape | backend/coaching/views.py:68-84 | only the last emitted event can be terminal; the loop has stopped exactly when it is; every event carries the row's id |
| ConsultationViews.EmittedStopsOnTerminal | backend/coaching/views.py:69-78 | the loop breaks out exactly when some poll saw a terminal status |
| ConsultationViews.FramesOf | backend/coaching/views.py:74-80 | one frame per event |
| ConsultationViews.FramesOfEach | backend/coaching/views.py:74-80 | the frame at each position is the frame of the event at that position |
| ConsultationViews.FramesOfAppend | backend/coaching/views.py:74-80 | one more event adds its frame at the end |
| ConsultationViews.EmittedStep | backend/coaching/views.py:69-84 | one more poll while running adds that poll's event, if any |
| ConsultationViews.EmittedFrameStep | backend/coaching/views.py:69-80 | one more poll while running adds the frame of its event, if any, and stops exactly on a terminal event |
| ConsultationViews.EmittedStopped | backend/coaching/views.py:75-78 | polls after the break change nothing |
| ConsultationViews.EventStream | backend/coaching/views.py:68-84 | the generator yields exactly the frames of `Emitted` and ends exactly when that stopped |
| ConsultationViews.FrameLines | backend/coaching/views.py:74 | a frame is one `data:` line and one empty line, with nothing left over for the reader |
| ConsultationViews.AppendFrame | backend/coaching/views.py:74-80 | the reader delivers a further frame's event and is again at a line boundary |
| ConsultationViews.FramesRoundTrip | backend/coaching/views.py:68-84 | the reader turns a sequence of frames back into exactly their events |
| ConsultationViews.EndToEnd | backend/coaching/views.py:64-89 | for any status history, the client reader delivers exactly the events the server loop emitted, in order, and stops exactly when the loop ended |
| AnalysisTask.NormaliseModelName | backend/coaching/tasks.py:25-27 | the result starts with `models/` and ends with the name; it is unchanged exactly when the name already had the prefix |
| AnalysisTask.NormaliseIdempotent | backend/coaching/tasks.py:25-27 | normalising twice is normalising once |
| AnalysisTask.ExhaustedMessage | backend/coaching/tasks.py:82-90 | the exhaustion message contains `할당량 초과` |
| AnalysisTask.WaitTime | backend/coaching/tasks.py:76-77 | the parsed delay when present and non-zero, else `initial_delay * 2^attempt` |
| AnalysisTask.RetryCalls | backend/coaching/tasks.py:58-96 | at most `max_retries` calls, none only when no attempt is allowed; one sleep between consecutive calls and none after the last; every call but the last hit the quota |
| AnalysisTask.RetryLastCall | backend/coaching/tasks.py:58-93 | the last call decides: text is returned, a non-quota error propagates unchanged, and a quota error becomes the exhaustion message only after all attempts |
| AnalysisTask.RetryWaits | backend/coaching/tasks.py:76-79 | the k-th sleep follows the k-th call, a quota error, and lasts its wait time |
| AnalysisTask.BackoffDoubles | backend/coaching/tasks.py:77 | with no delay in the messages, each sleep doubles the previous one |
| AnalysisTask.CallWithRetry | backend/coaching/tasks.py:49-96 | the loop returns, raises and sleeps exactly as the `Retry` specification says |
| AnalysisTask.QuotaEverywhere | backend/coaching/tasks.py:49-96 | with the task's settings, a call that always hits the quota makes three calls and two sleeps, then raises the exhaustion message |
| AnalysisTask.TextPrompt | backend/coaching/tasks.py:107-110 | the analysis prompt contains the file's content |
| AnalysisTask.TranscriptPrompt | backend/coaching/tasks.py:140-143 | the analysis prompt contains the transcript |
| AnalysisTask.MimeType | backend/coaching/tasks.py:116-121 | the guess when there is one, else `audio/mpeg` for audio and `video/mp4` for video |
| AnalysisTask.TextOneRequest | backend/coaching/tasks.py:99-112 | a text file makes one request with no media attached and one to three calls, and its content becomes `original_content` |
| AnalysisTask.MediaTranscribeThenAnalyse | backend/coaching/tasks.py:114-145 | audio and video are first transcribed with the file attached, then the transcript is analysed without media; the transcript becomes `original_content` |
| AnalysisTask.UnsupportedTypeNoCall | backend/coaching/tasks.py:147-148 | any other type fails with the unsupported-type message before any call |
| AnalysisTask.RunAnalysis | backend/coaching/tasks.py:99-148 | the step-by-step dispatch equals the `Analysis` specification |
| AnalysisTask.FailureText | backend/coaching/tasks.py:186-198 | a failure report starts with `❌`; it is the quota explanation exactly for a quota-like message, else the generic report |
| AnalysisTask.ExhaustionReportedAsQuota | backend/coaching/tasks.py:186-196 | running out of quota attempts is always reported as a quota failure |
| AnalysisTask.StoredUrl | backend/coaching/tasks.py:150-166 | a URL is saved only when Supabase is configured and the upload returns one; an upload failure never fails the task |
| AnalysisTask.AnalyzeConsultation | backend/coaching/tasks.py:14-204 | a missing row is reported and nothing is saved or changed. Otherwise exactly two saves: `processing` over the stored row, then either `completed` with the analysis and the time, or `failed` with the `❌` report and the old completion time. On success the content and URL are set on the object only; no other row is changed |
| AdminDashboard.DashboardBase | frontend/src/components/AdminDashboard.js:10 | the environment URL when set, else the local server |
| AdminDashboard.KpiUrl | frontend/src/components/AdminDashboard.js:47-53 | the appends produce exactly the non-empty selectors, and the URL is the KPI path plus the suffix |
| AdminDashboard.KpiQueryContents | frontend/src/components/AdminDashboard.js:47-53 | the query holds the non-empty selectors in the order period, date_from, date_to, and is empty exactly when all three are |
| AdminDashboard.KpiErrorMessage | frontend/src/components/AdminDashboard.js:61-67 | 403 always reads as a missing admin right; other statuses give `detail`, else `message`, else `KPI 조회 실패` |
| AdminDashboard.ForbiddenIgnoresBody | frontend/src/components/AdminDashboard.js:62-64 | the 403 message does not depend on the body |
| AdminDashboard.KpiPanel.constructor | frontend/src/components/AdminDashboard.js:13-15 | no data, loading, no error |
| AdminDashboard.KpiPanel.LoadKpiData | frontend/src/components/AdminDashboard.js:43-77 | an ok answer replaces the data with no error; a failure keeps the old data and shows its message; loading ends false either way |
| AdminDashboard.FormatNumber | frontend/src/components/AdminDashboard.js:85-88 | `-` exactly for null or undefined, a number in locale format, any other value unchanged |
| AdminDashboard.SecondsUnit | frontend/src/components/AdminDashboard.js:90-95 | no value, then seconds below 60, minutes below 3600, otherwise hours |
| AdminDashboard.SecondsUnitMonotone | frontend/src/components/AdminDashboard.js:90-95 | a longer duration never gets a smaller unit |
| AdminDashboard.FormatSeconds | frontend/src/components/AdminDashboard.js:90-95 | `-` without a value, else the rounded amount in the chosen unit |
| AdminDashboard.StatusColor | frontend/src/components/AdminDashboard.js:97-103 | empty exactly when the value or the target is missing; `status-good` exactly when the target is met in the given direction |
| AdminDashboard.TargetHitIsGood | frontend/src/components/AdminDashboard.js:97-103 | hitting the target exactly is good in both directions |
| AdminDashboard.PeriodLabelKo | frontend/src/components/AdminDashboard.js:114 | all gives 전체, daily 일간, weekly 주간, and any other period 월간 |
| AdminDashboard.PeriodLabelEn | frontend/src/components/AdminDashboard.js:252 | all gives All, daily Daily, weekly Weekly, and any other period Monthly |
| AdminDashboard.Translate | frontend/src/components/AdminDashboard.js:240 | the dictionary entry, or the text itself when there is none |
| AdminDashboard.PeriodLabelsAgree | frontend/src/components/AdminDashboard.js:202-252 | the sheet's Korean period label translates to the PDF's English label |
| AdminDashboard.TranslateUnknown | frontend/src/components/AdminDashboard.js:240 | words outside the dictionary pass through |
| AdminDashboard.OptionalRow | frontend/src/components/AdminDashboard.js:127-144 | a metric row exactly when the metric is not null |
| AdminDashboard.FileTypeRows | frontend/src/components/AdminDashboard.js:145-148 | one row per distribution entry |
| AdminDashboard.TimeByTypeRows | frontend/src/components/AdminDashboard.js:161-163 | one row per entry of the per-type times |
| AdminDashboard.PushWhen | frontend/src/components/AdminDashboard.js:115-120 | a row is pushed exactly when its condition holds |
| AdminDashboard.PushOptional | frontend/src/components/AdminDashboard.js:127-129 | pushes the metric row exactly when the metric is not null |
| AdminDashboard.PushFileTypes | frontend/src/components/AdminDashboard.js:146-148 | the `forEach` pushes exactly the file-type rows, in order |
| AdminDashboard.PushTimesByType | frontend/src/components/AdminDashboard.js:161-163 | the `forEach` pushes exactly the per-type time rows, in order |
| AdminDashboard.PushEngagement | frontend/src/components/AdminDashboard.js:124-149 | the pushes produce exactly the engagement section |
| AdminDashboard.PushPerformance | frontend/src/components/AdminDashboard.js:152-164 | the pushes produce exactly the performance section |
| AdminDashboard.ExportToExcel | frontend/src/components/AdminDashboard.js:105-190 | nothing without data, else exactly the sheet's rows in order |
| AdminDashboard.OptionalLabel | frontend/src/components/AdminDashboard.js:127-144 | an optional metric contributes its label exactly when it is not null |
| AdminDashboard.FileTypeRowsAre | frontend/src/components/AdminDashboard.js:146-148 | the k-th file-type row shows the k-th entry, indented, with its count, 0 when the count is missing |
| AdminDashboard.EngagementLabels | frontend/src/components/AdminDashboard.js:124-149 | the engagement labels in order, each optional one exactly when its metric is not null |
| AdminDashboard.PerformanceLabels | frontend/src/components/AdminDashboard.js:152-164 | the performance labels in order, the average time only when it is not null |
| AdminDashboard.QualityLabels | frontend/src/components/AdminDashboard.js:167-174 | the quality labels in order, the average length only when it is not null |
| AdminDashboard.TechnicalLabels | frontend/src/components/AdminDashboard.js:177-183 | the technical labels in order, the database size only when it is not null |
| AdminDashboard.HeaderLabels | frontend/src/components/AdminDashboard.js:112-121 | the header lists the start and end dates only when they are set |
| AnalysisResultDisplay.Present | frontend/src/components/AnalysisResultDisplay.js:7-24 | a document is shown as a report; a string is parsed; raw text is shown exactly for a string that does not parse, and it is that string |
| AnalysisResultDisplay.RawOnlyOnParseFailure | frontend/src/components/AnalysisResultDisplay.js:9-23 | a document never falls back to raw text, and an unparsable string always does |
| AnalysisResultDisplay.ScoreColor | frontend/src/components/AnalysisResultDisplay.js:26-30 | green exactly from 8, yellow exactly from 6 below 8, red otherwise and for a missing score |
| AnalysisResultDisplay.ScoreColorMonotone | frontend/src/components/AnalysisResultDisplay.js:26-30 | a higher score never gets a worse colour |
| AnalysisResultDisplay.PriorityColor | frontend/src/components/AnalysisResultDisplay.js:32-36 | red exactly for high, yellow exactly for medium, blue for anything else |
| AnalysisResultDisplay.PriorityText | frontend/src/components/AnalysisResultDisplay.js:38-42 | 높음 exactly for high, 보통 exactly for medium, 낮음 for anything else |
| AnalysisResultDisplay.PriorityBadgeAgrees | frontend/src/components/AnalysisResultDisplay.js:32-42 | a badge's colour and its text always tell the same priority |
| AnalysisResultDisplay.RecommendationsShown | frontend/src/components/AnalysisResultDisplay.js:195 | the section is shown exactly for an existing, non-empty list |
| AnalysisResultDisplay.ScoreText | frontend/src/components/AnalysisResultDisplay.js:54 | a missing score and a score of 0 both show `-` |
| SignupPage.FormData.With | frontend/src/components/SignupPage.js:18-22 | the named field takes the new value |
| SignupPage.WithKeepsOthers | frontend/src/components/SignupPage.js:18-22 | every other field keeps its value |
| SignupPage.Validate | frontend/src/components/SignupPage.js:31-40 | valid exactly when the passwords match and have at least 8 characters; a mismatch is reported as such, a short matching password as too short |
| SignupPage.MismatchCheckedFirst | frontend/src/components/SignupPage.js:31-40 | a password that is both short and mistyped is reported as a mismatch |
| SignupPage.SignupForm.constructor | frontend/src/components/SignupPage.js:8-15 | empty fields, no error, not loading |
| SignupPage.SignupForm.HandleChange | frontend/src/components/SignupPage.js:18-24 | sets the named field and clears the error |
| SignupPage.SignupForm.HandleSubmit | frontend/src/components/SignupPage.js:26-67 | an invalid form sets its error and sends nothing. Otherwise one request is sent and `loading` ends false. The access token is stored and the page navigates only for a truthy access token, and the refresh token only if it is truthy too. A failure shows its message or the default |

## Left out

- Network and browser plumbing: `fetch`, `ReadableStream`, `TextDecoder`. Chunks are already-decoded strings, so the decoder's missing final flush at the end of the stream is not represented.
- Aborts are an `aborted` flag and a `closedAfter` count. Several concurrent subscriptions and the asynchronous timing of `AbortController` are not modelled.
- StreamClient.Subscribe: an exception thrown by `onMessage` is caught by the same handler as a parse error and is not modelled. A JSON payload that parses to a non-object is folded into the parser's `None`/`Some` answer.
- JSON encoding and decoding, form-urlencoding of query values, and number rendering (`toLocaleString`, `Math.round`, `:.1f`) are parameters, not definitions.
- Floating point is modelled as `real`; rounding and precision are left out.
- `time.sleep` is recorded as the list of wait times, and the clock is the `now` input.
- AnalysisTask.WaitTime: the `Please retry in <s>s` regular expression and its `float` parse are left out. The oracle answers with the parsed delay directly.
- The Gemini SDK (`genai.configure`, model construction) and file reads are left out. A failing file read is not an oracle outcome. The unused `system_prompt` string is not modelled.
- backend/coaching/storage.py is not part of this model. The Supabase upload is the `StorageOutcome` input.
- AnalysisTask.AnalyzeConsultation: the transcript or file text and the Supabase URL are never stored. backend/coaching/models.py:14-21 has no `original_content` or `supabase_file_url` column, so the attributes set at backend/coaching/tasks.py:169 and backend/coaching/tasks.py:171 are dropped by the `save()` at backend/coaching/tasks.py:174. The model follows the code: they live only on the loaded object, and the saved `Columns` do not hold them. The detail page's `original_content` (frontend/src/components/ConsultationDetail.js:131) is therefore never sent by the API.
- AnalysisTask.AnalyzeConsultation: the failure handler loads a new object for the row. The model reloads the same object (`Load`), which gives the same saved columns; a `save()` that itself raises is not modelled.
- AnalysisResultDisplay.Present: a string that parses to JSON that is not an object (for example `null`) makes the component fail when it reads `overall_score` (frontend/src/components/AnalysisResultDisplay.js:54). The model folds this into the `parse` parameter's answer and does not model the crash.
- ConsultationUpload.Extension: `toLowerCase` is modelled on ASCII letters only. The same holds for the Python `lower()` in the quota classification.
- SignupPage.SignupForm.HandleSubmit: the password length counts Unicode scalar values, while JavaScript `.length` counts UTF-16 code units.
- SignupPage.SignupForm.HandleChange: only the four form fields are modelled. An input with any other `name` would add a new key.
- AdminDashboard.Translate: the dictionary is a map. Names inherited by a JavaScript object, such as `constructor`, are not modelled.
- AdminDashboard.KpiPanel.LoadKpiData: a failure to read an ok response's body is folded into `FetchRejected`. The parallel `loadUserInfo` is not modelled.
- The PDF export's layout (jsPDF calls, `yPos` coordinates, tables) is left out. Only its `translate` and period label are modelled. The XLSX file writing is left out; the model produces the row list.
- The download helper (`downloadConsultationFile`: Content-Disposition regex, Blob and DOM handling), `getConsultation`, `login`, `register` and `getCurrentUser` are modelled only through their shared error-message normalisation.
- JSX rendering, hooks and navigation are not modelled. HomePage.js, App.js, Dashboard.js, ConsultationList.js, ConsultationDetail.js, LoginPage.js and koreanFont.js are not part of this model.
- Django and DRF configuration (serializers, admin, URLs) is not part of this model. Validation is a boolean input to `Create`, and the id of a new row is an input.
- Quirks of the code, modelled as written:
  - a file name without a dot is its own extension, so a file called `mp3` is audio (frontend/src/components/ConsultationUpload.js:20);
  - the dashboard builds its URL from its own `API_BASE_URL`, which never uses the `/api` proxy (frontend/src/components/AdminDashboard.js:10, frontend/src/components/AdminDashboard.js:53);
  - the trailing `최대 재시도 횟수 초과` raise in the retry helper is reachable only when `max_retries` is 0 or less (backend/coaching/tasks.py:96);
  - a `retry_after` of 0 is falsy in Python and falls back to exponential backoff (backend/coaching/tasks.py:77).
