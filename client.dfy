/** The SDK client (waveq/client.py): base-URL normalisation and headers, the
    classification of an HTTP response into a result or one of the SDK's
    exceptions, the form data of each request with its optional fields, the
    preparation of the audio argument, and the polling loop that waits for a
    task. The HTTP transport is left out: a response is a value, and the
    answers of successive status requests are an input sequence. */
module Client {
  import opened Common
  import opened Exceptions
  import Models
  import Utils

  // ---------------------------------------------------------------------------
  // Construction

  /** The client's configuration; none of it changes after construction. */
  datatype WaveQClient = WaveQClient(apiKey: string, baseUrl: string, timeout: real, maxRetries: int)

  /** `WaveQClient(api_key, base_url, timeout, max_retries)`: the base URL
      loses its trailing slashes. */
  function NewClient(apiKey: string, baseUrl: string, timeout: real, maxRetries: int): (c: WaveQClient)
    ensures c.apiKey == apiKey && c.timeout == timeout && c.maxRetries == maxRetries
    ensures c.baseUrl <= baseUrl
    ensures c.baseUrl != [] ==> c.baseUrl[|c.baseUrl| - 1] != '/'
    ensures forall k :: |c.baseUrl| <= k < |baseUrl| ==> baseUrl[k] == '/'
  {
    WaveQClient(apiKey, RStripWhere(baseUrl, Utils.IsSlash), timeout, maxRetries)
  }

  /** Normalising twice changes nothing more. */
  lemma BaseUrlNormalisationIdempotent(apiKey: string, baseUrl: string, timeout: real, maxRetries: int)
    ensures var c := NewClient(apiKey, baseUrl, timeout, maxRetries);
            NewClient(apiKey, c.baseUrl, timeout, maxRetries) == c
  {
  }

  const DefaultBaseUrl := "http://localhost:8000"
  const DefaultTimeout := 300.0
  const DefaultMaxRetries := 3
  const UserAgent := "WaveQ-SDK/0.1.0"

  /** `_get_headers`. */
  function Headers(c: WaveQClient): (h: map<string, string>)
    ensures h.Keys == {"Authorization", "User-Agent"}
    ensures h["Authorization"] == "Bearer " + c.apiKey
    ensures h["User-Agent"] == UserAgent
  {
    map["Authorization" := "Bearer " + c.apiKey, "User-Agent" := UserAgent]
  }

  // ---------------------------------------------------------------------------
  // _handle_response

  /** An HTTP response: its status, its body when it parses as a JSON
      object, and its headers as received: (name, value) pairs in order,
      names in whatever letter case the server sent. */
  datatype HttpResponse = HttpResponse(statusCode: int, json: Option<Dict>, headers: seq<(string, string)>)

  /** The values of every header whose name equals `name` up to letter
      case, in order. */
  function HeaderValues(headers: seq<(string, string)>, name: string): (r: seq<string>)
    ensures |r| <= |headers|
    ensures r == [] <==> forall i :: 0 <= i < |headers| ==> ToLower(headers[i].0) != ToLower(name)
  {
    if headers == [] then []
    else
      var rest := HeaderValues(headers[1..], name);
      assert forall i :: 1 <= i < |headers| ==> headers[i] == headers[1..][i - 1];
      if ToLower(headers[0].0) == ToLower(name) then [headers[0].1] + rest else rest
  }

  /** A value is found exactly when some header with a matching name
      carries it. */
  lemma {:induction false} HeaderValuesAreMatches(headers: seq<(string, string)>, name: string)
    ensures var r := HeaderValues(headers, name);
            && (forall i :: 0 <= i < |headers| && ToLower(headers[i].0) == ToLower(name) ==> headers[i].1 in r)
            && (forall v :: v in r ==> exists i :: 0 <= i < |headers| && ToLower(headers[i].0) == ToLower(name) && headers[i].1 == v)
  {
    if headers != [] {
      HeaderValuesAreMatches(headers[1..], name);
      assert forall i :: 1 <= i < |headers| ==> headers[i] == headers[1..][i - 1];
    }
  }

  /** `response.headers.get(name)`: header names compare without letter
      case, and several matching headers give their values joined by ", ". */
  function HeaderGet(headers: seq<(string, string)>, name: string): (r: Option<string>)
    ensures r.None? <==> forall i :: 0 <= i < |headers| ==> ToLower(headers[i].0) != ToLower(name)
    ensures r.Some? ==> r.value == Join(", ", HeaderValues(headers, name))
  {
    var values := HeaderValues(headers, name);
    if values == [] then None else Some(Join(", ", values))
  }

  /** What escapes `_handle_response` besides the SDK's own exceptions. */
  datatype ClientError =
    | Raised(error: WaveQError)
    | HttpStatusError(statusCode: int)
    | InvalidJson
    | InvalidRetryAfter(header: string)

  /** The value of a string of ASCII digits. */
  function DecimalValue(s: string): (n: nat)
    requires forall k :: 0 <= k < |s| ==> IsDigit(s[k])
  {
    if s == [] then 0
    else
      assert IsDigit(s[|s| - 1]);
      DecimalValue(s[..|s| - 1]) * 10 + (s[|s| - 1] as int - '0' as int)
  }

  predicate AllDigits(s: string)
  {
    s != [] && forall k :: 0 <= k < |s| ==> IsDigit(s[k])
  }

  /** Digits with at most one leading sign. */
  predicate IsIntLiteral(t: string)
  {
    AllDigits(t) || (|t| >= 2 && (t[0] == '-' || t[0] == '+') && AllDigits(t[1..]))
  }

  /** `int(s)` on a decimal string: surrounding whitespace and one sign are
      accepted; anything else raises. */
  function ParseInt(s: string): (r: Option<int>)
    ensures r.Some? <==> IsIntLiteral(Strip(s))
    ensures r.Some? && Strip(s)[0] == '-' ==> r.value <= 0
    ensures r.Some? && Strip(s)[0] != '-' ==> r.value >= 0
  {
    var t := Strip(s);
    if AllDigits(t) then Some(DecimalValue(t))
    else if |t| >= 2 && t[0] == '-' && AllDigits(t[1..]) then Some(-(DecimalValue(t[1..]) as int))
    else if |t| >= 2 && t[0] == '+' && AllDigits(t[1..]) then Some(DecimalValue(t[1..]))
    else None
  }

  /** Parsing gives back the number `str` rendered. */
  lemma {:induction false} DecimalRoundTrip(n: nat)
    ensures DecimalValue(NatToDecimal(n)) == n
  {
    if n >= 10 {
      DecimalRoundTrip(n / 10);
      var s := NatToDecimal(n);
      assert s[..|s| - 1] == NatToDecimal(n / 10);
    }
  }

  lemma ParseIntRoundTrip(n: nat)
    ensures ParseInt(NatToDecimal(n)) == Some(n)
  {
    var s := NatToDecimal(n);
    assert !AllSpace(s) by {
      assert IsDigit(s[0]);
    }
    assert Strip(s) == s by {
      NoSpaceStripsToItself(s);
    }
    DecimalRoundTrip(n);
  }

  lemma NoSpaceStripsToItself(s: string)
    requires s != [] ==> IsDigit(s[0]) && IsDigit(s[|s| - 1])
    ensures Strip(s) == s
  {
    if s != [] {
      assert !IsSpace(s[0]) && !IsSpace(s[|s| - 1]);
      assert LStripWhere(s, IsSpace) == s;
      assert RStripWhere(s, IsSpace) == s;
    }
  }

  /** `_handle_response`. */
  function HandleResponse(response: HttpResponse): (r: Result<Dict, ClientError>)
    ensures r.Ok? <==> 200 <= response.statusCode < 300 && response.json.Some?
    ensures r.Ok? ==> r.value == response.json.value
  {
    var code := response.statusCode;
    if code == 401 then Err(Raised(NewAuthenticationError(Some("Invalid or expired API key"))))
    else if code == 400 then
      (if response.json.None? then Err(InvalidJson)
       else Err(Raised(NewValidationError(Detail(response.json.value, "Validation error"), None))))
    else if code == 404 then
      (if response.json.None? then Err(InvalidJson)
       else Err(Raised(NewResourceNotFoundError(Some(Detail(response.json.value, "Resource not found"))))))
    else if code == 429 then
      var retryAfter := HeaderGet(response.headers, "Retry-After");
      var header := if retryAfter.Some? then retryAfter.value else "";
      if header == "" then Err(Raised(NewRateLimitError(None, None)))
      else if ParseInt(header).None? then Err(InvalidRetryAfter(header))
      else Err(Raised(NewRateLimitError(None, ParseInt(header))))
    else if code >= 500 then Err(Raised(NewProcessingError("Server error occurred", None)))
    else if !(200 <= code < 300) then Err(HttpStatusError(code))
    else if response.json.None? then Err(InvalidJson)
    else Ok(response.json.value)
  }

  /** `response.json().get("detail", default)`, for a string detail. */
  function Detail(body: Dict, default: string): string
  {
    if "detail" in body && body["detail"].VStr? then body["detail"].s else default
  }

  /** Exactly one outcome per status: only a 2xx answer with a JSON body
      yields its body; 401, 400, 404 and 429 raise the exception with that
      status code; every status from 500 up raises a processing error; any
      other status is raised by `raise_for_status`. */
  lemma HandleResponseClassifies(response: HttpResponse)
    ensures var r := HandleResponse(response);
            var code := response.statusCode;
            && (r.Ok? <==> 200 <= code < 300 && response.json.Some?)
            && (r.Ok? ==> r.value == response.json.value)
            && (code in {400, 401, 404} && response.json.Some? ==> r.Err? && r.error.Raised? && r.error.error.StatusCode() == Some(code))
            && (code == 429 ==> r.Err? && (r.error.Raised? ==> r.error.error.RateLimitError?))
            && (code >= 500 ==> r == Err(Raised(ProcessingError("Server error occurred", None))))
            && (r.Err? && r.error.HttpStatusError? <==> !(200 <= code < 300) && code !in {400, 401, 404, 429} && code < 500)
  {
  }

  /** A 429 without a Retry-After header, in any letter case, carries no
      retry time. */
  lemma RateLimitWithoutRetryAfter(response: HttpResponse)
    requires response.statusCode == 429
    requires forall i :: 0 <= i < |response.headers| ==> ToLower(response.headers[i].0) != "retry-after"
    ensures HandleResponse(response) == Err(Raised(RateLimitError(DefaultRateLimitMessage, None)))
  {
    assert ToLower("Retry-After") == "retry-after";
  }

  /** A 429 whose one Retry-After header, with its name in any letter case,
      holds a number carries that number, wherever the header comes among
      the others. */
  lemma RateLimitRetryAfter(before: seq<(string, string)>, name: string, after: seq<(string, string)>, seconds: nat, json: Option<Dict>)
    requires ToLower(name) == "retry-after"
    requires forall i :: 0 <= i < |before| ==> ToLower(before[i].0) != "retry-after"
    requires forall i :: 0 <= i < |after| ==> ToLower(after[i].0) != "retry-after"
    ensures HandleResponse(HttpResponse(429, json, before + [(name, NatToDecimal(seconds))] + after))
              == Err(Raised(RateLimitError(DefaultRateLimitMessage, Some(seconds))))
  {
    var text := NatToDecimal(seconds);
    assert ToLower("Retry-After") == "retry-after";
    HeaderValuesOfOne(before, name, text, after, "Retry-After");
    assert HeaderGet(before + [(name, text)] + after, "Retry-After") == Some(text);
    ParseIntRoundTrip(seconds);
    NumericRetryAfter(before + [(name, text)] + after, text, seconds, json);
  }

  /** A 429 whose Retry-After text is an integer raises a rate-limit error
      carrying it. */
  lemma NumericRetryAfter(headers: seq<(string, string)>, text: string, n: int, json: Option<Dict>)
    requires HeaderGet(headers, "Retry-After") == Some(text) && text != "" && ParseInt(text) == Some(n)
    ensures HandleResponse(HttpResponse(429, json, headers)) == Err(Raised(RateLimitError(DefaultRateLimitMessage, Some(n))))
  {
    assert NewRateLimitError(None, Some(n)) == RateLimitError(DefaultRateLimitMessage, Some(n));
  }

  /** The matching values of two header lists are those of the first list
      followed by those of the second, so `HeaderValues` keeps the headers'
      order. */
  lemma {:induction false} HeaderValuesAppend(a: seq<(string, string)>, b: seq<(string, string)>, name: string)
    ensures HeaderValues(a + b, name) == HeaderValues(a, name) + HeaderValues(b, name)
    decreases |a|
  {
    if a == [] {
      assert a + b == b;
    } else {
      assert (a + b)[0] == a[0];
      assert (a + b)[1..] == a[1..] + b;
      HeaderValuesAppend(a[1..], b, name);
    }
  }

  /** Two Retry-After headers, in any letter case, are read as their values
      joined by ", ", which `int()` rejects: the 429 then raises the
      conversion error instead of a rate-limit error. */
  lemma DuplicateRetryAfterRejected(name1: string, first: nat, name2: string, second: nat, json: Option<Dict>)
    requires ToLower(name1) == "retry-after" && ToLower(name2) == "retry-after"
    ensures HandleResponse(HttpResponse(429, json, [(name1, NatToDecimal(first)), (name2, NatToDecimal(second))]))
              == Err(InvalidRetryAfter(NatToDecimal(first) + ", " + NatToDecimal(second)))
  {
    var a, b := NatToDecimal(first), NatToDecimal(second);
    TwoRetryAfterHeadersJoin(name1, a, name2, b);
    JoinedDigitsAreNoInt(a, b);
    UnparsableRetryAfter([(name1, a), (name2, b)], a + ", " + b, json);
  }

  /** A 429 whose Retry-After text is no integer raises the conversion
      error with that text. */
  lemma UnparsableRetryAfter(headers: seq<(string, string)>, text: string, json: Option<Dict>)
    requires HeaderGet(headers, "Retry-After") == Some(text) && text != "" && ParseInt(text).None?
    ensures HandleResponse(HttpResponse(429, json, headers)) == Err(InvalidRetryAfter(text))
  {
  }

  /** `headers.get` of two matching headers joins their values. */
  lemma TwoRetryAfterHeadersJoin(name1: string, first: string, name2: string, second: string)
    requires ToLower(name1) == "retry-after" && ToLower(name2) == "retry-after"
    ensures HeaderGet([(name1, first), (name2, second)], "Retry-After") == Some(first + ", " + second)
  {
    var headers := [(name1, first), (name2, second)];
    assert ToLower("Retry-After") == "retry-after";
    HeaderValuesAppend([headers[0]], [headers[1]], "Retry-After");
    assert headers == [headers[0]] + [headers[1]];
    assert HeaderValues([headers[0]], "Retry-After") == [first];
    assert HeaderValues([headers[1]], "Retry-After") == [second];
    assert Join(", ", [first, second]) == first + ", " + second;
  }

  /** Two digit strings joined by ", " are no integer literal. */
  lemma JoinedDigitsAreNoInt(a: string, b: string)
    requires AllDigits(a) && AllDigits(b)
    ensures ParseInt(a + ", " + b) == None
  {
    var joined := a + ", " + b;
    assert joined[0] == a[0];
    assert joined[|joined| - 1] == b[|b| - 1];
    NoSpaceStripsToItself(joined);
    assert joined[|a|] == ',';
    assert !AllDigits(joined);
    assert !AllDigits(joined[1..]) by {
      assert joined[1..][|a| - 1] == ',';
    }
  }

  /** With exactly one header named `key` (up to case), its value is all
      that `HeaderValues` finds. */
  lemma {:induction false} HeaderValuesOfOne(before: seq<(string, string)>, name: string, value: string, after: seq<(string, string)>, key: string)
    requires ToLower(name) == ToLower(key)
    requires forall i :: 0 <= i < |before| ==> ToLower(before[i].0) != ToLower(key)
    requires forall i :: 0 <= i < |after| ==> ToLower(after[i].0) != ToLower(key)
    ensures HeaderValues(before + [(name, value)] + after, key) == [value]
    decreases |before|
  {
    var all := before + [(name, value)] + after;
    if before == [] {
      assert all[1..] == after;
      assert HeaderValues(after, key) == [];
    } else {
      assert all[1..] == before[1..] + [(name, value)] + after;
      assert ToLower(all[0].0) != ToLower(key);
      HeaderValuesOfOne(before[1..], name, value, after, key);
    }
  }

  // ---------------------------------------------------------------------------
  // Request data

  /** `if value: data[key] = value` for an optional string. */
  function AddIfTruthy(data: Dict, key: string, value: Option<string>): (r: Dict)
    ensures key in r <==> key in data || (value.Some? && value.value != "")
    ensures value.Some? && value.value != "" ==> r[key] == VStr(value.value)
    ensures forall k :: k in data && k != key ==> k in r && r[k] == data[k]
    ensures r.Keys <= data.Keys + {key}
  {
    if value.Some? && value.value != "" then data[key := VStr(value.value)] else data
  }

  /** A request: endpoint and form (or JSON) data. */
  datatype Request = Request(url: string, data: Dict)

  function Endpoint(c: WaveQClient, path: string): string
  {
    c.baseUrl + "/api/v1/" + path
  }

  function DenoiseRequest(c: WaveQClient, noiseReductionLevel: real, enhanceSpeech: bool, callbackUrl: Option<string>): (r: Request)
    ensures r.url == Endpoint(c, "denoise")
    ensures r.data.Keys == {"noise_reduction_level", "enhance_speech"} + (if IsSetString(callbackUrl) then {"callback_url"} else {})
  {
    Request(Endpoint(c, "denoise"),
      AddIfTruthy(map["noise_reduction_level" := VReal(noiseReductionLevel), "enhance_speech" := VBool(enhanceSpeech)],
                  "callback_url", callbackUrl))
  }

  function TranscribeRequest(c: WaveQClient, language: Option<string>, enableDiarization: bool, timestamps: bool, model: string, callbackUrl: Option<string>): (r: Request)
    ensures r.url == Endpoint(c, "transcribe")
    ensures r.data.Keys == {"enable_diarization", "timestamps", "model"} + (if IsSetString(language) then {"language"} else {})
                           + (if IsSetString(callbackUrl) then {"callback_url"} else {})
  {
    var data := map["enable_diarization" := VBool(enableDiarization), "timestamps" := VBool(timestamps), "model" := VStr(model)];
    Request(Endpoint(c, "transcribe"), AddIfTruthy(AddIfTruthy(data, "language", language), "callback_url", callbackUrl))
  }

  function TrimRequest(c: WaveQClient, silenceThresholdDb: real, minSilenceDuration: real, removeSilence: bool, callbackUrl: Option<string>): (r: Request)
    ensures r.url == Endpoint(c, "trim")
    ensures r.data.Keys == {"silence_threshold_db", "min_silence_duration", "remove_silence"} + (if IsSetString(callbackUrl) then {"callback_url"} else {})
  {
    var data := map["silence_threshold_db" := VReal(silenceThresholdDb), "min_silence_duration" := VReal(minSilenceDuration),
                    "remove_silence" := VBool(removeSilence)];
    Request(Endpoint(c, "trim"), AddIfTruthy(data, "callback_url", callbackUrl))
  }

  function SeparateRequest(c: WaveQClient, separationType: string, model: string, callbackUrl: Option<string>): (r: Request)
    ensures r.url == Endpoint(c, "separate")
    ensures r.data.Keys == {"separation_type", "model"} + (if IsSetString(callbackUrl) then {"callback_url"} else {})
  {
    var data := map["separation_type" := VStr(separationType), "model" := VStr(model)];
    Request(Endpoint(c, "separate"), AddIfTruthy(data, "callback_url", callbackUrl))
  }

  function SentimentRequest(c: WaveQClient, includeEmotions: bool, confidenceThreshold: real, callbackUrl: Option<string>): (r: Request)
    ensures r.url == Endpoint(c, "sentiment")
    ensures r.data.Keys == {"include_emotions", "confidence_threshold"} + (if IsSetString(callbackUrl) then {"callback_url"} else {})
  {
    var data := map["include_emotions" := VBool(includeEmotions), "confidence_threshold" := VReal(confidenceThreshold)];
    Request(Endpoint(c, "sentiment"), AddIfTruthy(data, "callback_url", callbackUrl))
  }

  function TtsRequest(c: WaveQClient, text: string, voiceId: Option<string>, language: string, speed: real, callbackUrl: Option<string>): (r: Request)
    ensures r.url == Endpoint(c, "tts")
    ensures r.data.Keys == {"text", "language", "speed"} + (if IsSetString(voiceId) then {"voice_id"} else {})
                           + (if IsSetString(callbackUrl) then {"callback_url"} else {})
  {
    var data := map["text" := VStr(text), "language" := VStr(language), "speed" := VReal(speed)];
    Request(Endpoint(c, "tts"), AddIfTruthy(AddIfTruthy(data, "voice_id", voiceId), "callback_url", callbackUrl))
  }

  /** `data` without its optional `callback_url`. */
  function WithoutCallback(data: Dict): Dict
  {
    map k | k in data && k != "callback_url" :: data[k]
  }

  /** With the defaults, the form data of each request is the request
      model's fields under the same names, plus `callback_url` exactly when
      a non-empty one is given. */
  lemma RequestsCarryModelFields(c: WaveQClient, callbackUrl: Option<string>)
    ensures var r := DenoiseRequest(c, 0.8, true, callbackUrl);
            && WithoutCallback(r.data) == Models.DenoiseFields(Models.DefaultDenoiseRequest)
            && ("callback_url" in r.data <==> callbackUrl.Some? && callbackUrl.value != "")
    ensures WithoutCallback(TrimRequest(c, -40.0, 0.5, true, callbackUrl).data) == Models.TrimFields(Models.DefaultTrimRequest)
  {
  }

  /** The same for the separation and sentiment requests. */
  lemma AnalysisRequestsCarryModelFields(c: WaveQClient, callbackUrl: Option<string>)
    ensures WithoutCallback(SeparateRequest(c, "vocals", "htdemucs", callbackUrl).data) == Models.SeparationFields(Models.DefaultSeparationRequest)
    ensures WithoutCallback(SentimentRequest(c, true, 0.5, callbackUrl).data) == Models.SentimentFields(Models.DefaultSentimentRequest)
  {
  }

  /** Transcription sends `language` only when a non-empty one is given. */
  lemma LanguageOnlyWhenGiven(
    c: WaveQClient, language: Option<string>, enableDiarization: bool, timestamps: bool, model: string, callbackUrl: Option<string>)
    ensures var data := TranscribeRequest(c, language, enableDiarization, timestamps, model, callbackUrl).data;
            && ("language" in data <==> language.Some? && language.value != "")
            && ("language" in data ==> data["language"] == VStr(language.value))
  {
  }

  /** Text to speech sends `voice_id` only when a non-empty one is given. */
  lemma VoiceIdOnlyWhenGiven(
    c: WaveQClient, text: string, voiceId: Option<string>, language: string, speed: real, callbackUrl: Option<string>)
    ensures var data := TtsRequest(c, text, voiceId, language, speed, callbackUrl).data;
            && ("voice_id" in data <==> voiceId.Some? && voiceId.value != "")
            && ("voice_id" in data ==> data["voice_id"] == VStr(voiceId.value))
  {
  }

  // ---------------------------------------------------------------------------
  // _prepare_audio_file

  /** The `audio` argument: a path (`str` or `Path`), raw bytes, or an open
      binary stream. */
  datatype AudioInput = PathInput(path: string) | BytesInput(bytes: seq<bv8>) | StreamInput

  /** `_prepare_audio_file`: the upload's file name. Whether a path exists
      is a question for the file system, given as `pathExists`. */
  function PrepareAudioFile(audio: AudioInput, pathExists: string -> bool): (r: Result<string, WaveQError>)
    ensures audio.PathInput? && !pathExists(audio.path) ==>
              r == Err(ValidationError("File not found: " + audio.path, None))
    ensures audio.PathInput? && pathExists(audio.path) ==> r == Ok(Utils.PathName(audio.path))
    ensures !audio.PathInput? ==> r == Ok("audio.wav")
    ensures r.Err? ==> r.error.StatusCode() == Some(400)
    ensures r.Ok? ==> '/' !in r.value
  {
    match audio
    case PathInput(path) =>
      if !pathExists(path) then Err(NewValidationError("File not found: " + path, None))
      else Ok(Utils.PathName(path))
    case BytesInput(_) => Ok("audio.wav")
    case StreamInput => Ok("audio.wav")
  }

  // ---------------------------------------------------------------------------
  // wait_for_completion

  /** One poll: what `get_task_status` gave back (a record or the error it
      raised) and the seconds elapsed since the wait started, read after
      the poll. */
  datatype Poll = Poll(answer: Result<Models.AudioProcessingResponse, ClientError>, elapsed: real)

  /** How the wait ends within the given polls: with the completed record,
      with an error, or still waiting when the polls run out. */
  datatype WaitOutcome =
    | Finished(record: Models.AudioProcessingResponse)
    | WaitFailed(error: ClientError)
    | StillWaiting

  /** `max_wait`, as given: `None`, or the limit and its `str()`. */
  datatype MaxWait = NoLimit | Limit(seconds: real, text: string)

  /** `if max_wait and ...`: a limit of 0 is no limit. */
  predicate HasLimit(maxWait: MaxWait)
  {
    maxWait.Limit? && maxWait.seconds != 0.0
  }

  /** `f"{status.error}"`: the error message, or "None". */
  function ErrorText(error: Option<string>): string
  {
    if error.Some? then error.value else "None"
  }

  /** The outcome of one poll: `None` when the loop goes on. */
  function PollOutcome(taskId: string, maxWait: MaxWait, poll: Poll): (r: Option<WaitOutcome>)
    ensures poll.answer.Err? ==> r == Some(WaitFailed(poll.answer.error))
    ensures r.Some? ==> !r.value.StillWaiting?
    ensures r.Some? && r.value.Finished? ==> poll.answer.Ok? && r.value.record == poll.answer.value && r.value.record.status == Models.Completed
    ensures poll.answer.Ok? && poll.answer.value.status in {Models.Completed, Models.Failed} ==> r.Some?
  {
    match poll.answer
    case Err(e) => Some(WaitFailed(e))
    case Ok(record) =>
      if record.status == Models.Completed then Some(Finished(record))
      else if record.status == Models.Failed then
        Some(WaitFailed(Raised(NewProcessingError("Task failed: " + ErrorText(record.error), Some(taskId)))))
      else if HasLimit(maxWait) && poll.elapsed > maxWait.seconds then
        Some(WaitFailed(Raised(NewProcessingError("Task did not complete within " + maxWait.text + " seconds", Some(taskId)))))
      else None
  }

  /** The outcome of the wait over `polls`. */
  function WaitFor(taskId: string, maxWait: MaxWait, polls: seq<Poll>): (r: WaitOutcome)
    ensures r.StillWaiting? <==> forall i :: 0 <= i < |polls| ==> PollOutcome(taskId, maxWait, polls[i]).None?
  {
    if polls == [] then StillWaiting
    else
      assert forall i :: 1 <= i < |polls| ==> polls[i] == polls[1..][i - 1];
      var first := PollOutcome(taskId, maxWait, polls[0]);
      if first.Some? then first.value else WaitFor(taskId, maxWait, polls[1..])
  }

  /** `wait_for_completion`: poll until the task completes, fails or the
      limit passes. Sleeping between polls is left to the caller of the
      model, as is the clock. */
  method WaitForCompletion(taskId: string, maxWait: MaxWait, polls: seq<Poll>) returns (r: WaitOutcome, pollsMade: nat)
    ensures r == WaitFor(taskId, maxWait, polls)
    ensures pollsMade <= |polls|
    ensures r.StillWaiting? <==> pollsMade == |polls| && forall i :: 0 <= i < |polls| ==> PollOutcome(taskId, maxWait, polls[i]).None?
    ensures !r.StillWaiting? ==> pollsMade > 0 && PollOutcome(taskId, maxWait, polls[pollsMade - 1]) == Some(r)
  {
    pollsMade := 0;
    while pollsMade < |polls|
      invariant pollsMade <= |polls|
      invariant forall i :: 0 <= i < pollsMade ==> PollOutcome(taskId, maxWait, polls[i]).None?
      invariant WaitFor(taskId, maxWait, polls) == WaitFor(taskId, maxWait, polls[pollsMade..])
      decreases |polls| - pollsMade
    {
      var outcome := PollOutcome(taskId, maxWait, polls[pollsMade]);
      pollsMade := pollsMade + 1;
      if outcome.Some? {
        return outcome.value, pollsMade;
      }
      assert polls[pollsMade - 1..][1..] == polls[pollsMade..];
    }
    r := StillWaiting;
  }

  /** The wait ends with a record only when that record is completed, and
      a failed record always ends it with a processing error carrying the
      task id. */
  lemma {:induction false} WaitEndsOnTerminalStatus(taskId: string, maxWait: MaxWait, polls: seq<Poll>)
    ensures WaitFor(taskId, maxWait, polls).Finished? ==> WaitFor(taskId, maxWait, polls).record.status == Models.Completed
    ensures polls != [] && polls[0].answer.Ok? && polls[0].answer.value.status == Models.Failed ==>
              var r := WaitFor(taskId, maxWait, polls);
              r.WaitFailed? && r.error.Raised? && r.error.error == ProcessingError("Task failed: " + ErrorText(polls[0].answer.value.error), Some(taskId))
  {
    if polls != [] && PollOutcome(taskId, maxWait, polls[0]).None? {
      WaitEndsOnTerminalStatus(taskId, maxWait, polls[1..]);
    }
  }

  /** A poll that answered with a record neither completed nor failed. */
  predicate NonTerminal(poll: Poll)
  {
    poll.answer.Ok? && poll.answer.value.status != Models.Completed && poll.answer.value.status != Models.Failed
  }

  /** The `max_wait` check: a poll answering a record that is neither
      completed nor failed ends the wait exactly when a truthy limit is set
      and the elapsed time exceeds it, and then with the timeout error
      carrying the task id. */
  lemma PollTimesOutOnlyPastLimit(taskId: string, maxWait: MaxWait, poll: Poll)
    requires NonTerminal(poll)
    ensures PollOutcome(taskId, maxWait, poll).Some? <==> HasLimit(maxWait) && poll.elapsed > maxWait.seconds
    ensures PollOutcome(taskId, maxWait, poll).Some? ==>
              PollOutcome(taskId, maxWait, poll) ==
                Some(WaitFailed(Raised(ProcessingError("Task did not complete within " + maxWait.text + " seconds", Some(taskId)))))
  {
  }

  /** Pending, processing and cancelled records keep the wait going while
      no truthy limit is passed: without a limit, a task that never
      completes or fails is polled for ever. */
  lemma {:induction false} NonTerminalPollsKeepWaiting(taskId: string, maxWait: MaxWait, polls: seq<Poll>)
    requires forall i :: 0 <= i < |polls| ==> NonTerminal(polls[i])
    requires forall i :: 0 <= i < |polls| ==> !HasLimit(maxWait) || polls[i].elapsed <= maxWait.seconds
    ensures WaitFor(taskId, maxWait, polls) == StillWaiting
  {
    if polls != [] {
      PollTimesOutOnlyPastLimit(taskId, maxWait, polls[0]);
      NonTerminalPollsKeepWaiting(taskId, maxWait, polls[1..]);
    }
  }

  /** With a truthy limit, the first poll past it that still finds the task
      unfinished ends the wait with the timeout error. */
  lemma {:induction false} WaitTimesOut(taskId: string, maxWait: MaxWait, polls: seq<Poll>, k: nat)
    requires HasLimit(maxWait) && k < |polls|
    requires forall i :: 0 <= i <= k ==> NonTerminal(polls[i])
    requires forall i :: 0 <= i < k ==> polls[i].elapsed <= maxWait.seconds
    requires polls[k].elapsed > maxWait.seconds
    ensures WaitFor(taskId, maxWait, polls) ==
              WaitFailed(Raised(ProcessingError("Task did not complete within " + maxWait.text + " seconds", Some(taskId))))
  {
    PollTimesOutOnlyPastLimit(taskId, maxWait, polls[0]);
    if k > 0 {
      WaitTimesOut(taskId, maxWait, polls[1..], k - 1);
    }
  }
}
