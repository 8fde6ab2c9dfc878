/** The API's in-memory task store (api/routes.py): the module-level
    dictionary `tasks_db` from task id to task record, filled by the six
    submit handlers and read or cancelled by id. The saved upload's path,
    the Celery dispatch and the request's callback URL are outside the
    store; the path is a parameter, the dispatch is left out. */
module Routes {
  import opened Common
  import opened Models
  import Utils
  import Exceptions

  type Record = AudioProcessingResponse

  /** The statuses some handler of the API writes into the store. */
  predicate IsStoredStatus(s: ProcessingStatus)
  {
    s == Pending || s == Processing || s == Cancelled
  }

  /** Every record sits under its own id and has a status the API writes. */
  predicate WellFormed(tasks: map<string, Record>)
  {
    forall id :: id in tasks ==> tasks[id].taskId == id && IsStoredStatus(tasks[id].status)
  }

  /** The error both lookups raise for an unknown id. */
  function NotFound(taskId: string): (e: Exceptions.WaveQError)
    ensures e.ResourceNotFoundError? && e.StatusCode() == Some(404)
    ensures e.message == "Task not found: " + taskId
  {
    Exceptions.NewResourceNotFoundError(Some("Task not found: " + taskId))
  }

  /** A fresh task record: pending, with the handler's metadata and no error. */
  function NewRecord(taskId: string, metadata: Dict): Record
  {
    AudioProcessingResponse(taskId, Pending, metadata, None)
  }

  /** The store after `cancel_task` on a known id. */
  function CancelledIn(tasks: map<string, Record>, taskId: string): map<string, Record>
    requires taskId in tasks
  {
    tasks[taskId := tasks[taskId].(status := Cancelled)]
  }

  /** Cancelling sets the target's status to CANCELLED whatever it was, and
      changes neither the set of ids, nor the target's other fields, nor any
      other record. */
  lemma CancelTouchesOnlyTarget(tasks: map<string, Record>, taskId: string)
    requires taskId in tasks
    ensures var after := CancelledIn(tasks, taskId);
            && after.Keys == tasks.Keys
            && after[taskId].status == Cancelled
            && after[taskId].(status := tasks[taskId].status) == tasks[taskId]
            && forall id :: id in tasks && id != taskId ==> after[id] == tasks[id]
  {
  }

  /** No handler writes COMPLETED or FAILED: inserting a new record, marking
      it PROCESSING and cancelling all keep the store well formed. */
  lemma StoreOperationsKeepWellFormed(tasks: map<string, Record>, taskId: string, metadata: Dict)
    requires WellFormed(tasks)
    ensures WellFormed(tasks[taskId := NewRecord(taskId, metadata)])
    ensures WellFormed(tasks[taskId := NewRecord(taskId, metadata).(status := Processing)])
    ensures taskId in tasks ==> WellFormed(CancelledIn(tasks, taskId))
  {
  }

  /** A well-formed store never holds a finished task. */
  lemma NoFinishedTasks(tasks: map<string, Record>, taskId: string)
    requires WellFormed(tasks) && taskId in tasks
    ensures tasks[taskId].status != Completed && tasks[taskId].status != Failed
  {
  }

  // ---------------------------------------------------------------------------
  // Record metadata written by each handler

  function DenoiseMetadata(filename: string, filePath: string, noiseReductionLevel: real, enhanceSpeech: bool): Dict
  {
    map["operation" := VStr("denoise"), "filename" := VStr(filename), "file_path" := VStr(filePath),
        "noise_reduction_level" := VReal(noiseReductionLevel), "enhance_speech" := VBool(enhanceSpeech)]
  }

  function TranscribeMetadata(filename: string, filePath: string, language: Option<string>, enableDiarization: bool, model: string): Dict
  {
    map["operation" := VStr("transcribe"), "filename" := VStr(filename), "file_path" := VStr(filePath),
        "language" := if language.Some? then VStr(language.value) else VNone,
        "enable_diarization" := VBool(enableDiarization), "model" := VStr(model)]
  }

  function TrimMetadata(filename: string, filePath: string, silenceThresholdDb: real, minSilenceDuration: real): Dict
  {
    map["operation" := VStr("trim"), "filename" := VStr(filename), "file_path" := VStr(filePath),
        "silence_threshold_db" := VReal(silenceThresholdDb), "min_silence_duration" := VReal(minSilenceDuration)]
  }

  function SeparateMetadata(filename: string, filePath: string, separationType: string, model: string): Dict
  {
    map["operation" := VStr("separate"), "filename" := VStr(filename), "file_path" := VStr(filePath),
        "separation_type" := VStr(separationType), "model" := VStr(model)]
  }

  function SentimentMetadata(filename: string, filePath: string, includeEmotions: bool, confidenceThreshold: real): Dict
  {
    map["operation" := VStr("sentiment"), "filename" := VStr(filename), "file_path" := VStr(filePath),
        "include_emotions" := VBool(includeEmotions), "confidence_threshold" := VReal(confidenceThreshold)]
  }

  /** The tts record keeps at most the first 100 characters of the text. */
  const TtsPreviewLength := 100

  /** `text[:100] + "..." if len(text) > 100 else text`. */
  function TruncateTtsText(text: string): (r: string)
    ensures |r| <= TtsPreviewLength + 3
    ensures |text| <= TtsPreviewLength ==> r == text
    ensures |text| > TtsPreviewLength ==>
              |r| == TtsPreviewLength + 3 && text[..TtsPreviewLength] <= r && r[TtsPreviewLength..] == "..."
  {
    if |text| > TtsPreviewLength then text[..TtsPreviewLength] + "..." else text
  }

  function TtsMetadata(text: string, voiceId: Option<string>, language: string, speed: real): Dict
  {
    map["operation" := VStr("tts"), "text" := VStr(TruncateTtsText(text)),
        "voice_id" := if voiceId.Some? then VStr(voiceId.value) else VNone,
        "language" := VStr(language), "speed" := VReal(speed)]
  }

  /** Each handler's metadata names its endpoint under "operation",
      whatever the request's parameters. */
  lemma MetadataNamesEndpoint(filename: string, filePath: string, text: string, level: real, speed: real,
                              flag: bool, language: Option<string>, choice: string, model: string)
    ensures DenoiseMetadata(filename, filePath, level, flag)["operation"] == VStr("denoise")
    ensures TranscribeMetadata(filename, filePath, language, flag, model)["operation"] == VStr("transcribe")
    ensures TrimMetadata(filename, filePath, level, speed)["operation"] == VStr("trim")
    ensures SeparateMetadata(filename, filePath, choice, model)["operation"] == VStr("separate")
    ensures SentimentMetadata(filename, filePath, flag, level)["operation"] == VStr("sentiment")
    ensures TtsMetadata(text, language, choice, speed)["operation"] == VStr("tts")
  {
  }

  /** The five upload handlers record the uploaded file's name and the path
      it was saved under, whatever their other parameters. */
  lemma UploadMetadataNamesFile(filename: string, filePath: string, level: real, flag: bool, language: Option<string>, choice: string, model: string)
    ensures var m := DenoiseMetadata(filename, filePath, level, flag);
            m["filename"] == VStr(filename) && m["file_path"] == VStr(filePath)
    ensures var m := TranscribeMetadata(filename, filePath, language, flag, model);
            m["filename"] == VStr(filename) && m["file_path"] == VStr(filePath)
    ensures var m := TrimMetadata(filename, filePath, level, level);
            m["filename"] == VStr(filename) && m["file_path"] == VStr(filePath)
    ensures var m := SeparateMetadata(filename, filePath, choice, model);
            m["filename"] == VStr(filename) && m["file_path"] == VStr(filePath)
    ensures var m := SentimentMetadata(filename, filePath, flag, level);
            m["filename"] == VStr(filename) && m["file_path"] == VStr(filePath)
  {
  }

  // ---------------------------------------------------------------------------
  // The store

  /** `tasks_db` together with the `CELERY_ENABLED` flag fixed at import. */
  class TaskStore {
    var tasks: map<string, Record>
    const celeryEnabled: bool

    predicate Valid()
      reads this
    {
      WellFormed(tasks)
    }

    constructor (celeryEnabled: bool)
      ensures Valid() && tasks == map[] && this.celeryEnabled == celeryEnabled
    {
      tasks := map[];
      this.celeryEnabled := celeryEnabled;
    }

    /** `tasks_db[task_id] = task` with a pending record. */
    method Insert(taskId: string, metadata: Dict) returns (task: Record)
      requires Valid()
      modifies this
      ensures Valid()
      ensures task == NewRecord(taskId, metadata)
      ensures tasks == old(tasks)[taskId := task]
    {
      task := NewRecord(taskId, metadata);
      tasks := tasks[taskId := task];
    }

    /** `task.status = ProcessingStatus.PROCESSING` on the record already in
        the store. */
    method MarkProcessing(taskId: string) returns (task: Record)
      requires Valid() && taskId in tasks
      modifies this
      ensures Valid()
      ensures task == old(tasks)[taskId].(status := Processing)
      ensures tasks == old(tasks)[taskId := task]
    {
      task := tasks[taskId].(status := Processing);
      tasks := tasks[taskId := task];
    }

    /** `denoise_audio`: the new record is PROCESSING when Celery is enabled
        and PENDING otherwise. */
    method SubmitDenoise(uuidHex: string, filename: string, filePath: string, noiseReductionLevel: real, enhanceSpeech: bool)
      returns (task: Record)
      requires Valid() && Utils.IsUuidHex(uuidHex)
      modifies this
      ensures Valid()
      ensures task.taskId == Utils.GenerateTaskId(uuidHex) && task.error.None?
      ensures task.status == if celeryEnabled then Processing else Pending
      ensures task.metadata == DenoiseMetadata(filename, filePath, noiseReductionLevel, enhanceSpeech)
      ensures tasks == old(tasks)[task.taskId := task]
    {
      var taskId := Utils.GenerateTaskId(uuidHex);
      task := Insert(taskId, DenoiseMetadata(filename, filePath, noiseReductionLevel, enhanceSpeech));
      if celeryEnabled {
        task := MarkProcessing(taskId);
      }
    }

    /** `transcribe_audio`: like denoise, PROCESSING exactly when Celery is
        enabled. */
    method SubmitTranscribe(uuidHex: string, filename: string, filePath: string, language: Option<string>, enableDiarization: bool, model: string)
      returns (task: Record)
      requires Valid() && Utils.IsUuidHex(uuidHex)
      modifies this
      ensures Valid()
      ensures task.taskId == Utils.GenerateTaskId(uuidHex) && task.error.None?
      ensures task.status == if celeryEnabled then Processing else Pending
      ensures task.metadata == TranscribeMetadata(filename, filePath, language, enableDiarization, model)
      ensures tasks == old(tasks)[task.taskId := task]
    {
      var taskId := Utils.GenerateTaskId(uuidHex);
      task := Insert(taskId, TranscribeMetadata(filename, filePath, language, enableDiarization, model));
      if celeryEnabled {
        task := MarkProcessing(taskId);
      }
    }

    /** `trim_audio`: the record stays PENDING. */
    method SubmitTrim(uuidHex: string, filename: string, filePath: string, silenceThresholdDb: real, minSilenceDuration: real)
      returns (task: Record)
      requires Valid() && Utils.IsUuidHex(uuidHex)
      modifies this
      ensures Valid()
      ensures task == NewRecord(Utils.GenerateTaskId(uuidHex), TrimMetadata(filename, filePath, silenceThresholdDb, minSilenceDuration))
      ensures task.status == Pending
      ensures tasks == old(tasks)[task.taskId := task]
    {
      task := Insert(Utils.GenerateTaskId(uuidHex), TrimMetadata(filename, filePath, silenceThresholdDb, minSilenceDuration));
    }

    /** `separate_audio`: the record stays PENDING. */
    method SubmitSeparate(uuidHex: string, filename: string, filePath: string, separationType: string, model: string)
      returns (task: Record)
      requires Valid() && Utils.IsUuidHex(uuidHex)
      modifies this
      ensures Valid()
      ensures task == NewRecord(Utils.GenerateTaskId(uuidHex), SeparateMetadata(filename, filePath, separationType, model))
      ensures task.status == Pending
      ensures tasks == old(tasks)[task.taskId := task]
    {
      task := Insert(Utils.GenerateTaskId(uuidHex), SeparateMetadata(filename, filePath, separationType, model));
    }

    /** `analyze_sentiment`: the record stays PENDING. */
    method SubmitSentiment(uuidHex: string, filename: string, filePath: string, includeEmotions: bool, confidenceThreshold: real)
      returns (task: Record)
      requires Valid() && Utils.IsUuidHex(uuidHex)
      modifies this
      ensures Valid()
      ensures task == NewRecord(Utils.GenerateTaskId(uuidHex), SentimentMetadata(filename, filePath, includeEmotions, confidenceThreshold))
      ensures task.status == Pending
      ensures tasks == old(tasks)[task.taskId := task]
    {
      task := Insert(Utils.GenerateTaskId(uuidHex), SentimentMetadata(filename, filePath, includeEmotions, confidenceThreshold));
    }

    /** `text_to_speech`: the record stays PENDING and keeps a preview of the
        text of at most 103 characters. */
    method SubmitTts(uuidHex: string, text: string, voiceId: Option<string>, language: string, speed: real)
      returns (task: Record)
      requires Valid() && Utils.IsUuidHex(uuidHex)
      modifies this
      ensures Valid()
      ensures task == NewRecord(Utils.GenerateTaskId(uuidHex), TtsMetadata(text, voiceId, language, speed))
      ensures task.status == Pending
      ensures task.metadata["text"].VStr? && |task.metadata["text"].s| <= 103
      ensures tasks == old(tasks)[task.taskId := task]
    {
      task := Insert(Utils.GenerateTaskId(uuidHex), TtsMetadata(text, voiceId, language, speed));
    }

    /** `get_task_status`: the stored record, or not-found; the store is
        only read. */
    method GetTaskStatus(taskId: string) returns (r: Result<Record, Exceptions.WaveQError>)
      ensures r.Ok? <==> taskId in tasks
      ensures r.Ok? ==> r.value == tasks[taskId]
      ensures r.Err? ==> r.error == NotFound(taskId)
    {
      if taskId !in tasks {
        return Err(NotFound(taskId));
      }
      return Ok(tasks[taskId]);
    }

    /** `cancel_task`: an unknown id raises not-found and changes nothing; a
        known id is cancelled whatever its status. */
    method CancelTask(taskId: string) returns (r: Result<string, Exceptions.WaveQError>)
      requires Valid()
      modifies this
      ensures Valid()
      ensures taskId !in old(tasks) ==> r == Err(NotFound(taskId)) && tasks == old(tasks)
      ensures taskId in old(tasks) ==>
                r == Ok("Task " + taskId + " cancelled") && tasks == CancelledIn(old(tasks), taskId)
    {
      if taskId !in tasks {
        return Err(NotFound(taskId));
      }
      tasks := CancelledIn(tasks, taskId);
      return Ok("Task " + taskId + " cancelled");
    }
  }
}
