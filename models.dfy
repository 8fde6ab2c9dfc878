/** The request and response models of the SDK (waveq/models.py): the
    status and intent enumerations, the request fields with their defaults
    and range bounds, and the response records. Pydantic's validation of a
    request is modelled as a constructor function that fails on a value out
    of range. */
module Models {
  import opened Common
  import Orchestrator

  /** `ProcessingStatus`. */
  datatype ProcessingStatus = Pending | Processing | Completed | Failed | Cancelled
  {
    function Value(): string
    {
      match this
      case Pending => "pending"
      case Processing => "processing"
      case Completed => "completed"
      case Failed => "failed"
      case Cancelled => "cancelled"
    }
  }

  /** `ProcessingStatus(s)`: the member whose value is `s`, if any. */
  function ParseStatus(s: string): (r: Option<ProcessingStatus>)
    ensures r.Some? ==> r.value.Value() == s
  {
    match s
    case "pending" => Some(Pending)
    case "processing" => Some(Processing)
    case "completed" => Some(Completed)
    case "failed" => Some(Failed)
    case "cancelled" => Some(Cancelled)
    case _ => None
  }

  /** The enumeration has exactly five members, with five distinct values,
      and parsing a member's value gives the member back. */
  lemma StatusValuesRoundTrip(status: ProcessingStatus)
    ensures ParseStatus(status.Value()) == Some(status)
    ensures status.Value() in {"pending", "processing", "completed", "failed", "cancelled"}
  {
  }

  lemma StatusValuesExhaustive(s: string)
    ensures ParseStatus(s).Some? <==> s in {"pending", "processing", "completed", "failed", "cancelled"}
  {
  }

  /** `ProcessingIntent`. */
  datatype ProcessingIntent =
    | Denoise | Transcribe | Trim | Separate | AnalyzeSentiment | TextToSpeech | CustomWorkflow
  {
    function Value(): string
    {
      match this
      case Denoise => "denoise"
      case Transcribe => "transcribe"
      case Trim => "trim"
      case Separate => "separate"
      case AnalyzeSentiment => "analyze_sentiment"
      case TextToSpeech => "text_to_speech"
      case CustomWorkflow => "custom_workflow"
    }
  }

  function ParseIntent(s: string): (r: Option<ProcessingIntent>)
    ensures r.Some? ==> r.value.Value() == s
  {
    match s
    case "denoise" => Some(Denoise)
    case "transcribe" => Some(Transcribe)
    case "trim" => Some(Trim)
    case "separate" => Some(Separate)
    case "analyze_sentiment" => Some(AnalyzeSentiment)
    case "text_to_speech" => Some(TextToSpeech)
    case "custom_workflow" => Some(CustomWorkflow)
    case _ => None
  }

  lemma IntentValuesRoundTrip(intent: ProcessingIntent)
    ensures ParseIntent(intent.Value()) == Some(intent)
  {
  }

  /** `AudioFormat`. */
  datatype AudioFormat = Wav | Mp3 | Flac | Ogg | M4a

  // ---------------------------------------------------------------------------
  // Requests: field defaults and bounds

  datatype DenoiseRequest = DenoiseRequest(noiseReductionLevel: real, enhanceSpeech: bool)
  datatype TranscriptionRequest = TranscriptionRequest(language: Option<string>, enableDiarization: bool, timestamps: bool, model: string)
  datatype TrimRequest = TrimRequest(silenceThresholdDb: real, minSilenceDuration: real, removeSilence: bool)
  datatype SeparationRequest = SeparationRequest(separationType: string, model: string)
  datatype SentimentRequest = SentimentRequest(includeEmotions: bool, confidenceThreshold: real)
  datatype TTSRequest = TTSRequest(text: string, voiceId: Option<string>, language: string, speed: real, format: AudioFormat)

  /** `Field(ge=lo, le=hi)`. */
  predicate InRange(x: real, lo: real, hi: real)
  {
    lo <= x <= hi
  }

  const NoiseReductionBounds := (0.0, 1.0)
  const ConfidenceThresholdBounds := (0.0, 1.0)
  const SpeedBounds := (0.5, 2.0)

  const DefaultDenoiseRequest := DenoiseRequest(0.8, true)
  const DefaultTranscriptionRequest := TranscriptionRequest(None, false, true, "base")
  const DefaultTrimRequest := TrimRequest(-40.0, 0.5, true)
  const DefaultSeparationRequest := SeparationRequest("vocals", "htdemucs")
  const DefaultSentimentRequest := SentimentRequest(true, 0.5)

  /** `TTSRequest(text=text)`: every other field at its default. */
  function DefaultTTSRequest(text: string): TTSRequest
  {
    TTSRequest(text, None, "en", 1.0, Mp3)
  }

  /** `DenoiseRequest(...)`: rejected when the level is outside [0, 1]. */
  function NewDenoiseRequest(noiseReductionLevel: real, enhanceSpeech: bool): (r: Result<DenoiseRequest, string>)
    ensures r.Ok? <==> 0.0 <= noiseReductionLevel <= 1.0
    ensures r.Ok? ==> r.value.noiseReductionLevel == noiseReductionLevel && r.value.enhanceSpeech == enhanceSpeech
  {
    if InRange(noiseReductionLevel, NoiseReductionBounds.0, NoiseReductionBounds.1)
    then Ok(DenoiseRequest(noiseReductionLevel, enhanceSpeech))
    else Err("noise_reduction_level")
  }

  /** `SentimentRequest(...)`: rejected when the threshold is outside [0, 1]. */
  function NewSentimentRequest(includeEmotions: bool, confidenceThreshold: real): (r: Result<SentimentRequest, string>)
    ensures r.Ok? <==> 0.0 <= confidenceThreshold <= 1.0
    ensures r.Ok? ==> r.value == SentimentRequest(includeEmotions, confidenceThreshold)
  {
    if InRange(confidenceThreshold, ConfidenceThresholdBounds.0, ConfidenceThresholdBounds.1)
    then Ok(SentimentRequest(includeEmotions, confidenceThreshold))
    else Err("confidence_threshold")
  }

  /** `TTSRequest(...)`: rejected when the speed is outside [0.5, 2]. */
  function NewTTSRequest(text: string, voiceId: Option<string>, language: string, speed: real, format: AudioFormat): (r: Result<TTSRequest, string>)
    ensures r.Ok? <==> 0.5 <= speed <= 2.0
    ensures r.Ok? ==> r.value == TTSRequest(text, voiceId, language, speed, format)
  {
    if InRange(speed, SpeedBounds.0, SpeedBounds.1)
    then Ok(TTSRequest(text, voiceId, language, speed, format))
    else Err("speed")
  }

  /** Every default lies within its own bounds, so a request built from
      defaults alone is always accepted. */
  lemma DefaultsWithinBounds(text: string)
    ensures NewDenoiseRequest(DefaultDenoiseRequest.noiseReductionLevel, DefaultDenoiseRequest.enhanceSpeech) == Ok(DefaultDenoiseRequest)
    ensures NewSentimentRequest(DefaultSentimentRequest.includeEmotions, DefaultSentimentRequest.confidenceThreshold) == Ok(DefaultSentimentRequest)
    ensures var d := DefaultTTSRequest(text);
            NewTTSRequest(text, d.voiceId, d.language, d.speed, d.format) == Ok(d)
  {
  }

  /** The request fields as a configuration dictionary, under the names the
      orchestrator uses. */
  function DenoiseFields(r: DenoiseRequest): Dict
  {
    map["noise_reduction_level" := VReal(r.noiseReductionLevel), "enhance_speech" := VBool(r.enhanceSpeech)]
  }

  function TranscriptionFields(r: TranscriptionRequest): Dict
  {
    map["language" := if r.language.Some? then VStr(r.language.value) else VNone,
        "enable_diarization" := VBool(r.enableDiarization), "timestamps" := VBool(r.timestamps),
        "model" := VStr(r.model)]
  }

  function TrimFields(r: TrimRequest): Dict
  {
    map["silence_threshold_db" := VReal(r.silenceThresholdDb), "min_silence_duration" := VReal(r.minSilenceDuration),
        "remove_silence" := VBool(r.removeSilence)]
  }

  function SeparationFields(r: SeparationRequest): Dict
  {
    map["separation_type" := VStr(r.separationType), "model" := VStr(r.model)]
  }

  function SentimentFields(r: SentimentRequest): Dict
  {
    map["include_emotions" := VBool(r.includeEmotions), "confidence_threshold" := VReal(r.confidenceThreshold)]
  }

  function TTSFields(r: TTSRequest): Dict
  {
    map["text" := VStr(r.text), "voice_id" := if r.voiceId.Some? then VStr(r.voiceId.value) else VNone,
        "language" := VStr(r.language), "speed" := VReal(r.speed)]
  }

  /** `fields` agrees with `config` on every key of `config`. */
  predicate AgreesWith(fields: Dict, config: Dict)
  {
    forall k :: k in config ==> k in fields && fields[k] == config[k]
  }

  /** The SDK's request defaults and the orchestrator's per-operation
      defaults describe the same configuration. */
  lemma RequestDefaultsMatchOrchestrator(text: string)
    ensures AgreesWith(DenoiseFields(DefaultDenoiseRequest), Orchestrator.DefaultConfig("denoise"))
    ensures AgreesWith(TranscriptionFields(DefaultTranscriptionRequest), Orchestrator.DefaultConfig("transcribe"))
    ensures AgreesWith(TrimFields(DefaultTrimRequest), Orchestrator.DefaultConfig("trim"))
    ensures AgreesWith(SeparationFields(DefaultSeparationRequest), Orchestrator.DefaultConfig("separate"))
    ensures AgreesWith(SentimentFields(DefaultSentimentRequest), Orchestrator.DefaultConfig("sentiment"))
    ensures AgreesWith(TTSFields(DefaultTTSRequest(text)), Orchestrator.DefaultConfig("tts"))
  {
  }

  // ---------------------------------------------------------------------------
  // Responses

  /** `AudioProcessingResponse` (and the subclasses the API stores, whose
      extra fields the API never sets): the fields a task record holds. */
  datatype AudioProcessingResponse = AudioProcessingResponse(
    taskId: string,
    status: ProcessingStatus,
    metadata: Dict,
    error: Option<string>)

  /** `WorkflowResponse`. */
  datatype WorkflowResponse = WorkflowResponse(
    taskId: string,
    status: ProcessingStatus,
    intent: Option<ProcessingIntent>,
    stepsCompleted: seq<string>,
    intermediateResults: Dict,
    metadata: Dict,
    error: Option<string>)

  /** `WorkflowResponse(task_id=..., status=...)`: every optional field at
      its default. */
  function NewWorkflowResponse(taskId: string, status: ProcessingStatus): (r: WorkflowResponse)
    ensures r.taskId == taskId && r.status == status
    ensures r.stepsCompleted == [] && r.intermediateResults == map[]
    ensures r.intent.None? && r.error.None? && r.metadata == map[]
  {
    WorkflowResponse(taskId, status, None, [], map[], map[], None)
  }
}
