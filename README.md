# WaveQ audio agent — a Dafny model of its core

WaveQ is an audio-processing service with a Python SDK. A client uploads audio (or text, for speech synthesis) to an HTTP API. The API records a task, and a background worker later runs one audio tool on it: denoise, transcribe, trim, separate, sentiment or text to speech. A rule-based orchestrator plans multi-step workflows from a request's intent.

This project models the deterministic logic of that service in Dafny 4 and proves properties of it:

- **Orchestrator** (`orchestrator.dfy`). Intent classification, the intent → operations table, per-operation default configurations merged with customisations, the parallelism hints, and the sequential execution loop that stops at the first failing step. The try-body of a step is an abstract runner. The runner that never fails is the code as written.
- **Routes** (`routes.dfy`). The API's in-memory task store is a class holding a `map` from task id to record. Its methods cover the six submit handlers, the status lookup and the cancellation.
- **Tasks** (`tasks.dfy`). The webhook notifier, with the POST as an abstract outcome. Also the success/failure callbacks and the stamping of the task id into each tool's result.
- **Transcription** (`transcription.dfy`):
  - segment formatting;
  - gap-based speaker numbering, which writes into an array of segments in place;
  - grouping of consecutive segments into "speaker: text" lines.
- **Trimming** (`trimming.dfy`):
  - the leading-silence scan (a `while` loop over 10 ms chunks);
  - edge trimming with Python slice semantics;
  - padding clamps and assembly of the kept ranges;
  - the trimmer's result record.
- **Sentiment** (`sentiment.dfy`):
  - label mapping;
  - the emotion dictionary (threshold filter, stable descending sort, dominant emotion);
  - the analyzer class with its lazily loaded models.
- **Utils** (`utils.dfy`). File-name sanitising, file extensions and the audio-format check, identifier formats, password verification against an abstract hash, and the processing-time estimate.
- **Client** (`client.dfy`):
  - base-URL normalisation and headers;
  - HTTP status → exception classification;
  - the form data of each request;
  - preparation of the audio argument;
  - the `wait_for_completion` polling loop.
- **Models** and **Exceptions** (`models.dfy`, `exceptions.dfy`). The status and intent enumerations, request bounds and defaults, the response records, and the exception hierarchy with its status codes.

`common.dfy` holds shared definitions: `Option`/`Result`, a `Value` type for the values of Python dictionaries, and the string helpers `strip`, `lower`, `join` and `str(int)`.

How Python constructs are modelled:

- A Python dictionary with a known key set is a `datatype` or a `map<string, Value>`.
- A dictionary whose insertion order matters (the emotion scores) is a sequence of entries with distinct keys.
- An audio segment is a sequence with one element per millisecond, as pydub measures and slices it.
- Machine-learning models, loudness (`dBFS`), `detect_nonsilent`, HTTP calls, the file system and the clock are parameters of the operations that use them.

## Model

| member | source | states |
|---|---|---|
| Exceptions.NewWaveQException | waveq/exceptions.py:9-12 | the base exception keeps its message and status code exactly as given |
| Exceptions.NewAuthenticationError | waveq/exceptions.py:15-19 | status 401; the message defaults to "Authentication failed" |
| Exceptions.NewValidationError | waveq/exceptions.py:22-27 | status 400, a validation error, message and field kept |
| Exceptions.NewProcessingError | waveq/exceptions.py:30-35 | status 500, not a validation error, message kept |
| Exceptions.NewResourceNotFoundError | waveq/exceptions.py:38-42 | status 404; the message defaults to "Resource not found" |
| Exceptions.NewRateLimitError | waveq/exceptions.py:45-50 | status 429, retry_after kept; the message defaults to "Rate limit exceeded" |
| Exceptions.NewInvalidAudioFormatError | waveq/exceptions.py:53-62 | a validation error on field "audio_file" with status 400; the message is "Invalid audio format: X", followed by ". Supported formats: " and the ", "-joined list exactly when the list is non-empty |
| Models.ParseStatus | waveq/models.py:20-26 | a parsed status has the parsed string as its value |
| Models.StatusValuesRoundTrip | waveq/models.py:20-26 | each status parses back from its value, and the values are the five listed strings |
| Models.StatusValuesExhaustive | waveq/models.py:20-26 | a string is a status value iff it is one of pending, processing, completed, failed, cancelled |
| Models.ParseIntent | waveq/models.py:29-37 | a parsed intent has the parsed string as its value |
| Models.IntentValuesRoundTrip | waveq/models.py:29-37 | each intent parses back from its value |
| Models.NewDenoiseRequest | waveq/models.py:60-63 | accepted iff noise_reduction_level lies in [0, 1]; the fields are kept |
| Models.NewSentimentRequest | waveq/models.py:87-90 | accepted iff confidence_threshold lies in [0, 1]; the fields are kept |
| Models.NewTTSRequest | waveq/models.py:93-99 | accepted iff speed lies in [0.5, 2]; the fields are kept |
| Models.DefaultsWithinBounds | waveq/models.py:62-98 | the defaults 0.8, 0.5 and 1.0 lie within their bounds, so a request of defaults is accepted |
| Models.RequestDefaultsMatchOrchestrator | waveq/models.py:62-98 | every request model's defaults agree with the orchestrator's default configuration of the same operation |
| Models.NewWorkflowResponse | waveq/models.py:142-146 | steps_completed and intermediate_results start empty; intent and error are unset |
| Orchestrator.HintedIntent | orchestrator/orchestrator.py:75-83 | a hint selects an intent iff its operation is "transcribe", "separate" or "tts" |
| Orchestrator.ClassifyIntent | orchestrator/orchestrator.py:59-91 | these hints win regardless of duration; otherwise podcast iff duration > 300, else voice enhancement; a non-numeric duration raises; never CUSTOM |
| Orchestrator.MissingDurationIsShort | orchestrator/orchestrator.py:86-91 | with no usable hint, a missing duration gives voice enhancement |
| Orchestrator.OperationsFor | orchestrator/orchestrator.py:109 | the intent's table entry, or ["denoise"] for CUSTOM; one to four operations |
| Orchestrator.DefaultConfig | orchestrator/orchestrator.py:126-157 | an operation without defaults starts from the empty dictionary |
| Orchestrator.Merge | orchestrator/orchestrator.py:119 | a shallow update: keys are the union, overriding keys take the new value, others keep theirs |
| Orchestrator.CreateWorkflow | orchestrator/orchestrator.py:93-124 | one step per operation of the intent's entry, in table order, each configured from its defaults and its customisation |
| Orchestrator.PlannedConfigIsMergedDefaults | orchestrator/orchestrator.py:114-119 | a planned config holds exactly the default and the customised keys; customised keys take the caller's value, the others keep the default |
| Orchestrator.PlanningIsolatesCustomizations | orchestrator/orchestrator.py:126-157 | a step's config depends only on its own operation's customisation entry, because defaults are rebuilt per call |
| Orchestrator.VoiceCloningPlanExample | orchestrator/orchestrator.py:108-121 | cloning with a French tts customisation keeps the tts speed default and the denoise defaults |
| Orchestrator.ShouldRunParallel | orchestrator/orchestrator.py:159-176 | true exactly for transcribe/sentiment in either order |
| Orchestrator.OptimizeWorkflow | orchestrator/orchestrator.py:178-204 | same length and order; each result step is the input step, marked parallel iff compatible with its successor; a missing "operation" raises KeyError |
| Orchestrator.OptimizePreservesSteps | orchestrator/orchestrator.py:193-202 | operation and config are unchanged; the hint changes only to true on a compatible non-last step; false is never written |
| Orchestrator.OptimizedPlanMarksExactlyCompatiblePairs | orchestrator/orchestrator.py:197-200 | on unmarked steps, the hint ends up set iff the step is compatible with its successor |
| Orchestrator.PlannedParallelPairs | orchestrator/orchestrator.py:35-57 | in every planned workflow, the only compatible adjacent pair is transcribe→sentiment at steps 2–3 of the podcast plan |
| Orchestrator.HaltIndex | orchestrator/orchestrator.py:232-255 | the index of the first step that lacks a key or fails, or the length when all succeed |
| Orchestrator.Outputs | orchestrator/orchestrator.py:244-247 | one "completed" output per recorded operation, all with file_path equal to the input path |
| Orchestrator.ExecuteWorkflow | orchestrator/orchestrator.py:206-257 | the loop's result equals the execution outcome determined by the first failing step |
| Orchestrator.FailureStopsExecution | orchestrator/orchestrator.py:236-255 | a failing step records exactly one error; steps_completed is the prefix before it; no later step contributes |
| Orchestrator.HaltIndexIsFirstFailure | orchestrator/orchestrator.py:232-255 | the halt index is the first failing step |
| Orchestrator.HaltIndexAllSucceed | orchestrator/orchestrator.py:232-255 | when every step succeeds, execution runs to the end |
| Orchestrator.AllStepsSucceed | orchestrator/orchestrator.py:232-247 | when every step succeeds, all operations are completed in order and there are no errors |
| Orchestrator.RecordOnlyCompletesPlannedWorkflow | orchestrator/orchestrator.py:239-247 | as written (a body that never raises), every well-formed workflow completes every step |
| Orchestrator.MissingKeyRaises | orchestrator/orchestrator.py:233-234 | a step missing "operation" or "config" makes the whole call raise |
| Routes.NotFound | api/routes.py:320-321 | a ResourceNotFoundError (404) with message "Task not found: <id>" |
| Routes.CancelTouchesOnlyTarget | api/routes.py:339-340 | cancelling sets CANCELLED whatever the previous status; ids, the target's other fields and the other records are unchanged |
| Routes.StoreOperationsKeepWellFormed | api/routes.py:70-340 | insert, mark-processing and cancel keep every record under its own id, with status PENDING, PROCESSING or CANCELLED |
| Routes.NoFinishedTasks | api/routes.py:33-34 | the store never holds a COMPLETED or FAILED record |
| Routes.TruncateTtsText | api/routes.py:298 | text of at most 100 characters is kept; longer text becomes its first 100 characters plus "...", so never more than 103 |
| Routes.MetadataNamesEndpoint | api/routes.py:70-305 | whatever its arguments, each handler's metadata names its endpoint under "operation" ("denoise", "transcribe", "trim", "separate", "sentiment", "tts") |
| Routes.UploadMetadataNamesFile | api/routes.py:70-267 | the five upload handlers' metadata record the file name and the saved path, whatever the other parameters |
| Routes.TaskStore.constructor | api/routes.py:33-43 | the store starts empty, with the given Celery flag |
| Routes.TaskStore.Insert | api/routes.py:82 | a pending record is stored under the id; nothing else changes |
| Routes.TaskStore.MarkProcessing | api/routes.py:95 | the stored record itself becomes PROCESSING |
| Routes.TaskStore.SubmitDenoise | api/routes.py:46-100 | the record stored under "task_" + the uuid hex (replacing any record with that id) has no error, is PROCESSING iff Celery is enabled and PENDING otherwise, and carries denoise metadata; no other record changes |
| Routes.TaskStore.SubmitTranscribe | api/routes.py:103-155 | as denoise, with transcribe metadata |
| Routes.TaskStore.SubmitTrim | api/routes.py:158-195 | a new PENDING record with trim metadata |
| Routes.TaskStore.SubmitSeparate | api/routes.py:198-234 | a new PENDING record with separate metadata |
| Routes.TaskStore.SubmitSentiment | api/routes.py:237-273 | a new PENDING record with sentiment metadata |
| Routes.TaskStore.SubmitTts | api/routes.py:276-307 | a new PENDING record whose text preview has at most 103 characters |
| Routes.TaskStore.GetTaskStatus | api/routes.py:310-323 | the stored record iff the id is known, else not-found; the store is only read |
| Routes.TaskStore.CancelTask | api/routes.py:326-342 | an unknown id gives not-found and leaves the store unchanged; a known id is cancelled and the message names it |
| Tasks.SendWebhookNotification | tasks.py:48-75 | exactly one POST, with the data, timeout 10.0 and a JSON content type; true iff the POST answered with a 2xx status |
| Tasks.WebhookFailuresAreReported | tasks.py:69-75 | a raised POST or a non-2xx answer yields false instead of an exception |
| Tasks.OnSuccess | tasks.py:27-35 | one webhook iff callback_url is truthy, with payload task_id / "completed" / result |
| Tasks.OnFailure | tasks.py:37-45 | one webhook iff callback_url is truthy, with payload task_id / "failed" / error |
| Tasks.StampTaskId | tasks.py:112-113 | the result gains "task_id" set to the task id; every other key is kept |
| Tasks.RunTask | tasks.py:27-113 | a successful tool result is returned stamped with the API's task id, an error unchanged; one webhook iff the callback URL is truthy, its payload's task_id being Celery's request id |
| Tasks.WebhookOutcomeIsIgnored | tasks.py:27-45 | the task's run is the same whatever the webhook POST does |
| Tasks.RunTaskNotifiesOutcome | tasks.py:27-45 | a webhook is sent iff the callback URL is truthy, to that URL, with exactly the keys task_id, status and result or error; task_id is Celery's request id while the returned result carries the API's task id; it reports "completed" with the stamped result or "failed" with the error |
| Transcription.FormatWord | audio_tools/transcription.py:93-100 | word, start and end are copied; a missing probability becomes 0.0 |
| Transcription.FormatSegment | audio_tools/transcription.py:86-101 | start and end copied, text stripped; words kept iff timestamps are on and words are present; no speaker |
| Transcription.FormatWords | audio_tools/transcription.py:93-100 | one formatted word per raw word, in order |
| Transcription.FormattedSegments | audio_tools/transcription.py:84-103 | one formatted segment per raw segment |
| Transcription.FormattedSegmentAt | audio_tools/transcription.py:84-103 | formatted segment i is raw segment i formatted, so the order is kept |
| Transcription.FormatSegments | audio_tools/transcription.py:84-103 | the loop builds exactly the formatted list: each raw segment formatted, in order |
| Transcription.SpeakerNumber | audio_tools/transcription.py:147-153 | segment i's speaker number lies between 1 and i + 1 |
| Transcription.SpeakerLabels | audio_tools/transcription.py:153 | one label per speaker number |
| Transcription.SpeakerLabelsDistinct | audio_tools/transcription.py:158-161 | the returned labels are pairwise distinct |
| Transcription.SpeakerNumbersNonDecreasing | audio_tools/transcription.py:147-155 | speaker numbers never decrease along the segments |
| Transcription.EverySpeakerNumberIsUsed | audio_tools/transcription.py:147-161 | every number up to the last segment's is some segment's number |
| Transcription.Diarized | audio_tools/transcription.py:147-155 | one segment per input segment: the input labelled with its speaker |
| Transcription.SpeakersUpTo | audio_tools/transcription.py:147-155 | one label per segment seen so far |
| Transcription.SpeakersUpToAt | audio_tools/transcription.py:147-155 | entry j of the speakers list is the label of segment j's speaker number |
| Transcription.RelabelledIsDiarized | audio_tools/transcription.py:147-155 | once every segment is labelled with its speaker, the list is the diarized one |
| Transcription.PerformDiarization | audio_tools/transcription.py:128-161 | the array ends as the diarized list, written in place ("Speaker_1" first; a new number exactly after a gap > 2.0 s); returns the speaker list, one label per number and [] for no segments |
| Transcription.NewLabelIsUnseen | audio_tools/transcription.py:158 | a new speaker number's label is not among the earlier labels |
| Transcription.OldLabelIsSeen | audio_tools/transcription.py:158 | the label of a number already reached is among the labels |
| Transcription.DistinctStep | audio_tools/transcription.py:158 | adding a segment's label unless present gives the labels up to its number |
| Transcription.DistinctSpeakers | audio_tools/transcription.py:158 | the set of assigned labels is Speaker_1 … Speaker_n, each once, in first-seen order |
| Transcription.Runs | audio_tools/transcription.py:176-191 | maximal runs: none empty, neighbouring runs have different speakers, the last run is the last segment's |
| Transcription.SegmentSpeakersAre | audio_tools/transcription.py:176-191 | the speaker list read off the segments has entry k equal to segment k's speaker (or "Unknown" when it has none) |
| Transcription.RunsAttributeSpeakers | audio_tools/transcription.py:176-199 | each run's speaker repeated once per text of the run gives exactly the segments' speakers in order, so every text is attributed to its own segment's speaker |
| Transcription.RunsCoverTexts | audio_tools/transcription.py:176-197 | the runs hold every segment's text exactly once, in order |
| Transcription.FormatSpeakerLines | audio_tools/transcription.py:176-199 | the loop's text is one "speaker: t1 t2 …" line per run, joined by newlines |
| Transcription.GetTranscriptWithSpeakers | audio_tools/transcription.py:163-199 | the plain transcript (or "") without speakers or segments, else the run lines |
| Transcription.TranscriptionOf | audio_tools/transcription.py:41-126 | a model error becomes a failure record; otherwise the stripped transcript, the formatted segments (diarized iff diarization), the detected or requested language, the speaker list iff diarization, and the last raw segment's end (0 without segments) |
| Transcription.Transcribe | audio_tools/transcription.py:41-126 | the method's record is exactly the transcription described above |
| Transcription.DiarizeSegments | audio_tools/transcription.py:105-108 | diarization applied to the formatted list gives the diarized list and the speaker list |
| Trimming.PySlice | audio_tools/trimming.py:162 | Python's s[i:j]: an in-range slice is the plain slice; otherwise both bounds are normalised as Python does, and the length is the difference of the normalised bounds, or 0 when they cross |
| Trimming.SliceBound | audio_tools/trimming.py:162 | a Python slice bound on a length-n sequence: a negative bound counts from the end once, clamped to 0, and a bound past n becomes n |
| Trimming.LeadingSilenceUnique | audio_tools/trimming.py:181-189 | the scan's stop conditions determine a single offset |
| Trimming.DetectLeadingSilence | audio_tools/trimming.py:164-189 | a multiple of 10 ms before which every chunk is quiet; the chunk at it is loud or it is past the end (by less than a chunk); 0 for empty audio |
| Trimming.LeadingSilenceIsScanStop | audio_tools/trimming.py:181-189 | the functional form of the scan meets the stop conditions |
| Trimming.ScanReturnsLeadingSilence | audio_tools/trimming.py:181-189 | every result of the scan equals that function |
| Trimming.TrimEdges | audio_tools/trimming.py:134-162 | the slice [max(0, lead − padding) : duration − max(0, trail − padding)], with leading and trailing silence from the scan |
| Trimming.EdgeTrimCutsOnlyQuietChunks | audio_tools/trimming.py:151-162 | with padding of at least 9 ms, no bound wraps; the result is the audio between the trims; every millisecond cut lies in a quiet chunk |
| Trimming.QuietBeforeStop | audio_tools/trimming.py:183-187 | every offset before the scan's stop lies in a quiet chunk |
| Trimming.Piece | audio_tools/trimming.py:80-83 | the range is widened by the padding and clamped into [0, len(audio)]; the piece is the audio between the bounds |
| Trimming.CombineRanges | audio_tools/trimming.py:76-84 | the loop's result is the padded pieces concatenated in order |
| Trimming.CombinedNoLongerThanAudio | audio_tools/trimming.py:76-90 | when the padded ranges do not overlap, the kept audio is no longer than the original |
| Trimming.OverlappingPaddingDuplicatesAudio | audio_tools/trimming.py:78-90 | as written, ranges 100 ms apart padded by 100 ms give 1100 ms of output from 1000 ms of audio |
| Trimming.TruncToInt | audio_tools/trimming.py:60 | int() truncates toward zero |
| Trimming.Trim | audio_tools/trimming.py:28-132 | load error → failure; no non-silent range → "No non-silent audio detected"; export error → failure; zero-length audio → the division-by-zero failure; else the combined audio, durations, removed seconds, percentage and segments_kept = number of ranges; edge mode returns the edge-trimmed audio |
| Trimming.SilenceRemovedIsNonNegative | audio_tools/trimming.py:89-103 | with non-overlapping padded ranges, removed silence lies in [0, original] and the percentage in [0, 100] |
| Sentiment.MapLabel | audio_tools/sentiment.py:111-120 | positive iff the lowered label is "positive"/"pos", negative iff "negative"/"neg", else neutral |
| Sentiment.Put | audio_tools/sentiment.py:135-139 | dictionary assignment: a new key goes last, an existing key keeps its place with the new score, other entries are unchanged |
| Sentiment.DictFromItems | audio_tools/sentiment.py:194-197 | the comprehension's dictionary has distinct keys |
| Sentiment.DictFromItemsLabels | audio_tools/sentiment.py:194-197 | its keys are exactly the items' labels |
| Sentiment.DictFromItemsHoldsLastScores | audio_tools/sentiment.py:194-197 | each key holds the last item carrying that label |
| Sentiment.DictEntriesAreItems | audio_tools/sentiment.py:135-139 | every dictionary entry is one of the items |
| Sentiment.Qualifying | audio_tools/sentiment.py:137-138 | exactly the items whose score reaches the threshold |
| Sentiment.FilterEmotions | audio_tools/sentiment.py:135-139 | the filtered dictionary has distinct keys |
| Sentiment.FilterEmotionsKeepsConfidentLabels | audio_tools/sentiment.py:135-139 | every kept score reaches the threshold, and every label with a qualifying item is kept |
| Sentiment.InsertByScore | audio_tools/sentiment.py:142-144 | insertion adds exactly the entry (as a multiset) |
| Sentiment.InsertKeepsSorted | audio_tools/sentiment.py:142-144 | inserting into a descending sequence keeps it descending |
| Sentiment.SortByScore | audio_tools/sentiment.py:142-144 | a permutation in descending score order |
| Sentiment.SortKeepsEntries | audio_tools/sentiment.py:142-144 | sorting keeps exactly the same entries, one per label |
| Sentiment.Dominant | audio_tools/sentiment.py:148-149 | a dominant emotion exists iff emotions is non-empty |
| Sentiment.DominantHasTopScore | audio_tools/sentiment.py:135-149 | the dominant emotion is a kept label whose score reaches the threshold and is the highest |
| Sentiment.AnalysisShape | audio_tools/sentiment.py:122-149 | the sentiment is positive/negative/neutral; emotions iff requested and the model is loaded; dominant iff some emotion is kept; emotions are sorted, distinct and above the threshold |
| Sentiment.AnalysisOf | audio_tools/sentiment.py:110-153 | a successful analysis keeps the transcript, maps the sentiment model's label and reports its score unchanged |
| Sentiment.SentimentAnalyzer.constructor | audio_tools/sentiment.py:22-35 | both models start unloaded |
| Sentiment.SentimentAnalyzer.LoadModels | audio_tools/sentiment.py:37-59 | a missing sentiment model's load error propagates and changes nothing; otherwise it is loaded, and the emotion model is loaded unless its load fails |
| Sentiment.SentimentAnalyzer.Analyze | audio_tools/sentiment.py:61-160 | "Transcription failed" without a transcript; "Empty transcript" for a blank one; a load error fails; else the shaped analysis of the transcript |
| Sentiment.SentimentAnalyzer.AnalyzeText | audio_tools/sentiment.py:162-207 | the raw lowered label and score; every emotion's score, unfiltered and unsorted, iff requested and loaded; a load error fails |
| Utils.PathName | utils.py:62 | the last path component: once trailing slashes are removed, the text after the last '/' unless that is "."; never holds '/', never "." and no longer than the path |
| Utils.PathNameIsLastComponent | utils.py:62 | a plain component is its own name, and stays the name with any directory in front of it and with a trailing slash |
| Utils.KeepSafe | utils.py:64 | only letters, digits, '.', '_', '-' and ' ' are kept, and never more characters than the input |
| Utils.KeepSafeSnoc | utils.py:64 | appending one character to the input appends it to the result exactly when it is safe, so every safe character survives, in order |
| Utils.KeepSafeIsSubsequence | utils.py:64 | the kept characters are a subsequence of the input |
| Utils.SanitizeFilename | utils.py:59-65 | the sanitised name is no longer than the last path component, which is no longer than the input |
| Utils.SanitizeFilenameIsSafe | utils.py:59-65 | the sanitised name has only safe characters, hence no '/'; no whitespace at either end; a subsequence of the last path component |
| Utils.Suffix | utils.py:34 | Path.suffix: from the last '.' to the end when that dot is neither the first nor the last character, else empty; never the whole name |
| Utils.GetFileExtension | utils.py:32-34 | empty or '.' plus at least one character, with no upper-case letter; the lowered suffix of the name |
| Utils.IsAudioFile | utils.py:43-47 | an accepted name has an extension of at least four characters that is strictly shorter than its last component |
| Utils.AudioFileEndsWithAllowedFormat | utils.py:43-47 | an accepted file's name ends, up to case, in an allowed format, with a character before it |
| Utils.EndsWithAllowedFormatIsAudioFile | utils.py:43-47 | conversely, such a name is accepted |
| Utils.GenerateTaskId | utils.py:12-14 | "task_" plus 16 lower-case hex digits, 21 characters |
| Utils.GenerateApiKey | utils.py:17-19 | "waveq_" plus 32 lower-case hex digits, so it passes the API-key prefix check |
| Utils.TaskIdsAreNotApiKeys | utils.py:12-19 | a task id never passes the API-key prefix check and never equals a key |
| Utils.VerifyPasswordExact | utils.py:22-29 | with a hash that tells passwords apart, a password verifies against another's hash iff the two passwords are equal |
| Utils.VerifyOwnHash | utils.py:22-29 | a password always verifies against its own hash |
| Utils.ProcessingRate | utils.py:99-108 | a positive rate, 2.0 for an unknown operation |
| Utils.EstimateProcessingTime | utils.py:96-109 | size times the operation's rate; non-negative for a non-negative size |
| Utils.EstimateIsMonotone | utils.py:96-109 | the estimate grows with the file size |
| Client.NewClient | waveq/client.py:51-70 | the base URL loses its trailing slashes and never ends in '/'; other settings kept |
| Client.BaseUrlNormalisationIdempotent | waveq/client.py:68 | normalising an already normalised URL changes nothing |
| Client.Headers | waveq/client.py:81-86 | exactly a Bearer Authorization header and the SDK's User-Agent |
| Client.DecimalRoundTrip | waveq/client.py:98 | parsing digits gives back the number they render |
| Client.ParseIntRoundTrip | waveq/client.py:98 | int() of a rendered natural number gives it back |
| Client.ParseInt | waveq/client.py:98 | int(): a value iff the stripped text is digits with at most one leading sign; a '-' gives a value at most 0, otherwise at least 0 |
| Client.HeaderGet | waveq/client.py:97 | headers.get: nothing iff no header name matches up to letter case, else the matching values joined by ", " |
| Client.HeaderValues | waveq/client.py:97 | no value is found iff no header name matches up to letter case, and never more values than headers |
| Client.HeaderValuesAreMatches | waveq/client.py:97 | a value is found iff some header with a matching name carries it |
| Client.HeaderValuesAppend | waveq/client.py:97 | the values found in two header lists are those of the first followed by those of the second, so the headers' order is kept |
| Client.HandleResponse | waveq/client.py:88-103 | a body is returned iff the status is 2xx and the answer is JSON, and it is that JSON |
| Client.HandleResponseClassifies | waveq/client.py:88-103 | only a 2xx answer with a JSON body yields the body; 400/401/404 raise the error with that status; 429 raises a rate-limit error; ≥500 raises "Server error occurred"; any other status is raised by raise_for_status |
| Client.RateLimitRetryAfter | waveq/client.py:96-98 | a 429 with one Retry-After header, its name in any letter case and wherever it comes among the headers, raises a rate-limit error carrying the header's number |
| Client.RateLimitWithoutRetryAfter | waveq/client.py:96-98 | a 429 with no header named Retry-After in any letter case raises the default rate-limit error with no retry_after |
| Client.NumericRetryAfter | waveq/client.py:96-98 | a 429 whose Retry-After text parses as an integer raises the default rate-limit error carrying that integer |
| Client.UnparsableRetryAfter | waveq/client.py:96-98 | a 429 whose Retry-After text is no integer raises int()'s error with that text |
| Client.DuplicateRetryAfterRejected | waveq/client.py:96-98 | two numeric Retry-After headers are read as "a, b", which int() rejects, so the 429 raises that conversion error |
| Client.AddIfTruthy | waveq/client.py:146-147 | the key is added iff the value is a non-empty string; every other entry is kept |
| Client.DenoiseRequest | waveq/client.py:120-156 | posts to base URL + "/api/v1/denoise" the keys noise_reduction_level and enhance_speech, plus callback_url iff a non-empty one is given |
| Client.TranscribeRequest | waveq/client.py:158-201 | posts to "/api/v1/transcribe" enable_diarization, timestamps and model, plus language and callback_url each iff a non-empty one is given |
| Client.TrimRequest | waveq/client.py:203-242 | posts to "/api/v1/trim" silence_threshold_db, min_silence_duration and remove_silence, plus callback_url iff given |
| Client.SeparateRequest | waveq/client.py:244-280 | posts to "/api/v1/separate" separation_type and model, plus callback_url iff given |
| Client.SentimentRequest | waveq/client.py:282-318 | posts to "/api/v1/sentiment" include_emotions and confidence_threshold, plus callback_url iff given |
| Client.TtsRequest | waveq/client.py:320-357 | posts to "/api/v1/tts" text, language and speed, plus voice_id and callback_url each iff a non-empty one is given |
| Client.RequestsCarryModelFields | waveq/client.py:142-242 | with default arguments, the denoise and trim form data are exactly the request model's default fields (callback_url aside); denoise sends callback_url iff a non-empty one is given |
| Client.AnalysisRequestsCarryModelFields | waveq/client.py:244-309 | with default arguments, the separate and sentiment form data are exactly the request model's default fields (callback_url aside) |
| Client.LanguageOnlyWhenGiven | waveq/client.py:189-190 | transcription sends language iff a non-empty one is given |
| Client.VoiceIdOnlyWhenGiven | waveq/client.py:346-347 | text to speech sends voice_id iff a non-empty one is given |
| Client.PrepareAudioFile | waveq/client.py:105-118 | a missing path raises a 400 ValidationError "File not found: …"; an existing path gives its file name; bytes and streams are named "audio.wav" |
| Client.PollOutcome | waveq/client.py:396-411 | a failed status request ends the wait with its error; a COMPLETED record ends it with that record and no other record does; a COMPLETED or FAILED record always ends it |
| Client.WaitFor | waveq/client.py:373-413 | the wait is still going iff no poll ends it |
| Client.WaitForCompletion | waveq/client.py:373-413 | the loop stops at the first poll that completes, fails, errors or passes a truthy limit; it returns that poll's outcome and never reads past it |
| Client.WaitEndsOnTerminalStatus | waveq/client.py:396-405 | the wait ends with a record only when it is COMPLETED; a FAILED record raises ProcessingError with the task id |
| Client.NonTerminalPollsKeepWaiting | waveq/client.py:396-413 | polls answering records neither completed nor failed (pending, processing or cancelled) never end the wait while no truthy limit is passed |
| Client.PollTimesOutOnlyPastLimit | waveq/client.py:407-411 | for an unfinished record, a poll ends the wait iff max_wait is truthy and the elapsed time exceeds it, and then with "Task did not complete within N seconds" carrying the task id |
| Client.WaitTimesOut | waveq/client.py:407-411 | with a truthy limit, the first unfinished poll past it ends the wait with that timeout error |

## Left out

- I/O and external libraries are parameters, not models:
  - the Whisper model;
  - the transformers pipelines;
  - pydub loading, `dBFS`, `detect_nonsilent` and export;
  - httpx requests;
  - file-system existence checks.

  Each model states what its operation does with their results.
- The denoiser, the source separator and text to speech (audio_tools/denoiser.py, separator.py, tts.py) are signal processing and ML inference. They are not part of this model. Their tasks are represented only by the result dictionary they return.
- Tasks.RunTask: Celery's request id, which `.delay` generates and hands to `on_success` and `on_failure`, is an input of the model; how Celery generates it is not modelled.
- The Celery runtime is left out: `.delay` dispatch, time limits and the worker pool. The submit handlers record the status change that follows dispatch, not the dispatch itself. `cleanup_old_files` is file-system I/O.
- Saving the upload (`async_save_upload_file`) is left out. The saved path is a parameter of the submit handlers. The request's callback URL only reaches the dispatch and is not modelled.
- `format_file_size` and `get_mime_type` are left out: float formatting and a library lookup.
- `check_audio_provided` is left out: its behaviour depends on pydantic's field ordering and default skipping.
- FastAPI routing, authentication and `hash_password`'s SHA-256 are left out. The hash is an abstract function.
- Randomness and identity: uuid values are inputs with the format of `uuid4().hex`. The workflow id built from `id()` is not part of the result record.
- Routes.TaskStore: the stored records are values in a `map`. The handler's in-place `task.status = PROCESSING` is modelled as replacing the stored record, which has the same effect because the handler's object is the one in the store.
- Transcription.PerformDiarization: `list(set(speakers))` has no defined order in Python. The model returns the labels in speaker-number order, and only the set of labels and their distinctness are meant.
- Transcription.DistinctSpeakers: the same unordered `list(set(speakers))`, returned in speaker-number order.
- Sentiment.SortByScore: Python's sort is stable. The model's insertion sort keeps equal scores in input order, but no lemma states stability.
- Sentiment.SentimentAnalyzer.Analyze: an exception raised by a loaded model while predicting (caught and returned as a failure by the source) is not modelled. The models are total functions. Only loading failures are modelled.
- Transcription.Transcribe: only the model call's exception is modelled as failing. A raw segment or word is taken to carry the keys Whisper always reports.
- Transcription.TranscriptionOf: only the model call's exception is modelled as failing. A raw segment or word is taken to carry the keys Whisper always reports.
- Trimming.Trim: durations and percentages are exact reals, not floats. `int()` truncation of the minimum silence length is modelled, but the value only reaches `detect_nonsilent`, which is abstract.
- Trimming.DetectLeadingSilence: the chunk size is fixed at 10 ms, the only value the trimmer uses.
- Trimming.PySlice: pydub's `AudioSegment` slicing is modelled as Python sequence slicing. The two differ only on negative bounds. The lemmas show that these never arise with the trimmer's 100 ms padding and ranges inside the audio.
- Client.HandleResponse: a "detail" that is not a string (FastAPI validation errors send a list) is replaced by the default message. The source passes the value through. A non-JSON body on 400/404/2xx is the JSON decoding error.
- Client.ParseInt: Python's `int()` also accepts digit-group underscores and non-ASCII digits in a Retry-After header; the model accepts ASCII digits with an optional sign and surrounding whitespace.
- Client.WaitForCompletion: sleeping and the clock are inputs (the elapsed time of each poll). The `StillWaiting` outcome only means that the given polls ran out.
- Client.PrepareAudioFile: `Path()` normalisation of the error message's path is not modelled, and neither is opening the file.
- Utils.PathName and the string helpers: `strip` removes the whitespace `str.isspace` accepts within ASCII (tab through carriage return, 0x1C–0x1F and space), and `lower` lowers ASCII letters. Unicode whitespace and case mappings beyond ASCII are not modelled, and paths are POSIX paths.
- Utils.KeepSafe: Python's `isalnum` also accepts non-ASCII letters and digits; the model keeps only ASCII letters and digits.
- Transcription.SpeakerNumber: segment times and the 2.0 s gap are exact reals, not floats, so a gap that rounds across 2.0 in floating point is decided exactly.
- Transcription.PerformDiarization: the same exact-real gap test (`LongPauseBefore`) decides where a new speaker starts.
- Utils.EstimateProcessingTime: the size and the rates are exact reals; float rounding of the product is not modelled.
