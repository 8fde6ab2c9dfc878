/** The rule-based workflow orchestrator (orchestrator/orchestrator.py): it
    classifies a request into a workflow intent, expands the intent into an
    ordered list of configured steps, marks adjacent steps that may run in
    parallel, and executes the steps in order, stopping at the first step
    that fails. Operations are the strings the source uses ("denoise",
    "transcribe", ...); a step is the source's step dictionary. */
module Orchestrator {
  import opened Common

  datatype WorkflowIntent =
    | PodcastProduction
    | VoiceEnhancement
    | MusicProduction
    | TranscriptionOnly
    | VoiceCloning
    | Custom

  /** A workflow step dictionary. `None` stands for a missing key, so that
      hand-written step lists without "operation" or "config" can be
      modelled; the planner always fills both. */
  datatype Step = Step(operation: Option<string>, config: Option<Dict>, parallelWithNext: Option<bool>)

  // ---------------------------------------------------------------------------
  // Intent classification

  /** The value of the "operation" hint, or `VNone` when the hints are
      missing, empty (falsy) or have no such key. */
  function HintedOperation(userHints: Option<Dict>): Value
  {
    if userHints.Some? && userHints.value != map[] && "operation" in userHints.value
    then userHints.value["operation"]
    else VNone
  }

  /** The intent a recognised hint selects directly. */
  function HintedIntent(userHints: Option<Dict>): (r: Option<WorkflowIntent>)
    ensures r.Some? <==> HintedOperation(userHints) in {VStr("transcribe"), VStr("separate"), VStr("tts")}
  {
    match HintedOperation(userHints)
    case VStr("transcribe") => Some(TranscriptionOnly)
    case VStr("separate") => Some(MusicProduction)
    case VStr("tts") => Some(VoiceCloning)
    case _ => None
  }

  /** `audio_metadata.get("duration", 0)`. */
  function Duration(audioMetadata: Dict): Value
  {
    if "duration" in audioMetadata then audioMetadata["duration"] else VInt(0)
  }

  /** `duration > 300` for the values Python can compare with an int;
      `None` where the comparison raises a TypeError. */
  function ExceedsPodcastThreshold(duration: Value): Option<bool>
  {
    match duration
    case VInt(i) => Some(i > 300)
    case VReal(r) => Some(r > 300.0)
    case VBool(_) => Some(false)
    case _ => None
  }

  /** `classify_intent`: an explicit hint wins regardless of duration;
      otherwise a duration above five minutes means podcast production and
      anything else voice enhancement. `Err` is the TypeError raised when
      the duration is not a number. */
  function ClassifyIntent(audioMetadata: Dict, userHints: Option<Dict>): (r: Result<WorkflowIntent, string>)
    ensures HintedOperation(userHints) == VStr("transcribe") ==> r == Ok(TranscriptionOnly)
    ensures HintedOperation(userHints) == VStr("separate") ==> r == Ok(MusicProduction)
    ensures HintedOperation(userHints) == VStr("tts") ==> r == Ok(VoiceCloning)
    ensures HintedIntent(userHints).None? ==>
              (r.Ok? <==> ExceedsPodcastThreshold(Duration(audioMetadata)).Some?)
    ensures HintedIntent(userHints).None? && r.Ok? ==>
              (r.value == PodcastProduction <==> ExceedsPodcastThreshold(Duration(audioMetadata)) == Some(true))
    ensures HintedIntent(userHints).None? && r.Ok? ==>
              r.value in {PodcastProduction, VoiceEnhancement}
    ensures r.Ok? ==> r.value != Custom
  {
    match HintedIntent(userHints)
    case Some(intent) => Ok(intent)
    case None =>
      match ExceedsPodcastThreshold(Duration(audioMetadata))
      case None => Err("TypeError")
      case Some(long) => Ok(if long then PodcastProduction else VoiceEnhancement)
  }

  /** Without a usable hint and without a duration, the duration counts as 0. */
  lemma MissingDurationIsShort(audioMetadata: Dict, userHints: Option<Dict>)
    requires "duration" !in audioMetadata && HintedIntent(userHints).None?
    ensures ClassifyIntent(audioMetadata, userHints) == Ok(VoiceEnhancement)
  {
  }

  // ---------------------------------------------------------------------------
  // Planning

  /** `_load_workflow_definitions`: the fixed table from intent to operations. */
  function WorkflowDefinitions(): map<WorkflowIntent, seq<string>>
  {
    map[
      PodcastProduction := ["denoise", "trim", "transcribe", "sentiment"],
      VoiceEnhancement := ["denoise", "trim"],
      MusicProduction := ["separate", "denoise"],
      TranscriptionOnly := ["transcribe"],
      VoiceCloning := ["denoise", "tts"]
    ]
  }

  /** `self.workflow_definitions.get(intent, ["denoise"])`. */
  function OperationsFor(intent: WorkflowIntent): (ops: seq<string>)
    ensures intent == Custom ==> ops == ["denoise"]
    ensures intent != Custom ==> ops == WorkflowDefinitions()[intent]
    ensures 1 <= |ops| <= 4
  {
    var table := WorkflowDefinitions();
    assert intent != Custom ==> intent in table;
    if intent in table then table[intent] else ["denoise"]
  }

  /** The operations that have a default configuration. */
  const KnownOperations: set<string> := {"denoise", "transcribe", "trim", "separate", "sentiment", "tts"}

  /** `_get_default_config`: a fresh defaults dictionary per call; an unknown
      operation starts from the empty dictionary. */
  function DefaultConfig(operation: string): (config: Dict)
    ensures operation !in KnownOperations ==> config == map[]
  {
    match operation
    case "denoise" => map["noise_reduction_level" := VReal(0.8), "enhance_speech" := VBool(true)]
    case "transcribe" => map["enable_diarization" := VBool(false), "timestamps" := VBool(true), "model" := VStr("base")]
    case "trim" => map["silence_threshold_db" := VReal(-40.0), "min_silence_duration" := VReal(0.5), "remove_silence" := VBool(true)]
    case "separate" => map["separation_type" := VStr("vocals"), "model" := VStr("htdemucs")]
    case "sentiment" => map["include_emotions" := VBool(true), "confidence_threshold" := VReal(0.5)]
    case "tts" => map["language" := VStr("en"), "speed" := VReal(1.0)]
    case _ => map[]
  }

  /** `base.update(overrides)`, a shallow merge: every overriding key wins,
      every other key of `base` is kept, and no other key appears. */
  function Merge(base: Dict, overrides: Dict): (r: Dict)
    ensures r.Keys == base.Keys + overrides.Keys
    ensures forall k :: k in overrides ==> r[k] == overrides[k]
    ensures forall k :: k in base && k !in overrides ==> r[k] == base[k]
  {
    base + overrides
  }

  /** The configuration a planned step gets: its defaults, overridden by
      `customizations[operation]` when there is one. */
  function StepConfig(operation: string, customizations: map<string, Dict>): Dict
  {
    if operation in customizations
    then Merge(DefaultConfig(operation), customizations[operation])
    else DefaultConfig(operation)
  }

  /** The step `create_workflow` builds for one operation. */
  function PlannedStep(operation: string, customizations: map<string, Dict>): Step
  {
    Step(Some(operation), Some(StepConfig(operation, customizations)), None)
  }

  /** `create_workflow`: one step per operation of the intent's table entry,
      in table order. */
  method CreateWorkflow(intent: WorkflowIntent, customizations: map<string, Dict>) returns (steps: seq<Step>)
    ensures |steps| == |OperationsFor(intent)|
    ensures forall i :: 0 <= i < |steps| ==>
              steps[i] == PlannedStep(OperationsFor(intent)[i], customizations)
  {
    var operations := OperationsFor(intent);
    steps := [];
    for i := 0 to |operations|
      invariant |steps| == i
      invariant forall j :: 0 <= j < i ==> steps[j] == PlannedStep(operations[j], customizations)
    {
      var operation := operations[i];
      var config := DefaultConfig(operation);
      if operation in customizations {
        config := Merge(config, customizations[operation]);
      }
      steps := steps + [Step(Some(operation), Some(config), None)];
    }
  }

  /** Every planned configuration holds exactly the default keys plus the
      customised ones; customised keys take the caller's value and the other
      default keys keep their default value. */
  lemma PlannedConfigIsMergedDefaults(operation: string, customizations: map<string, Dict>, key: string)
    ensures var config := StepConfig(operation, customizations);
            var overrides := if operation in customizations then customizations[operation] else map[];
            && (key in config <==> key in DefaultConfig(operation) || key in overrides)
            && (key in overrides ==> config[key] == overrides[key])
            && (key in DefaultConfig(operation) && key !in overrides ==> config[key] == DefaultConfig(operation)[key])
  {
  }

  /** The customisations of one call do not leak into another: the
      configuration planned for an operation depends only on that
      operation's own customisation entry. */
  lemma PlanningIsolatesCustomizations(operation: string, c1: map<string, Dict>, c2: map<string, Dict>)
    requires (operation in c1 <==> operation in c2)
    requires operation in c1 ==> c1[operation] == c2[operation]
    ensures StepConfig(operation, c1) == StepConfig(operation, c2)
  {
  }

  /** An example from the design: cloning a voice with a French TTS step
      keeps the TTS speed default and the denoise defaults. */
  lemma VoiceCloningPlanExample()
    ensures var c := map["tts" := map["language" := VStr("fr")]];
            && OperationsFor(VoiceCloning) == ["denoise", "tts"]
            && StepConfig("denoise", c) == DefaultConfig("denoise")
            && StepConfig("tts", c) == map["language" := VStr("fr"), "speed" := VReal(1.0)]
  {
    var c := map["tts" := map["language" := VStr("fr")]];
    assert StepConfig("tts", c).Keys == {"language", "speed"};
  }

  // ---------------------------------------------------------------------------
  // Parallelism hints

  /** `should_run_parallel`: only transcription and sentiment analysis are
      compatible, in either order. */
  function ShouldRunParallel(operation: string, nextOperation: string): (r: bool)
    ensures r <==> (operation, nextOperation) in {("transcribe", "sentiment"), ("sentiment", "transcribe")}
    ensures r ==> operation != nextOperation
  {
    (operation == "transcribe" && nextOperation == "sentiment")
    || (operation == "sentiment" && nextOperation == "transcribe")
  }

  /** Whether step `i` of `steps` is followed by a compatible step. */
  predicate CompatibleWithNext(steps: seq<Step>, i: nat)
    requires i < |steps|
  {
    && i + 1 < |steps|
    && steps[i].operation.Some? && steps[i + 1].operation.Some?
    && ShouldRunParallel(steps[i].operation.value, steps[i + 1].operation.value)
  }

  /** The copy of step `i` that `optimize_workflow` produces. */
  function OptimizedStep(steps: seq<Step>, i: nat): Step
    requires i < |steps|
  {
    if CompatibleWithNext(steps, i) then steps[i].(parallelWithNext := Some(true)) else steps[i]
  }

  /** `optimize_workflow` reads every step's "operation" once there are two
      steps or more, so a missing one raises a KeyError. */
  predicate OptimizeRaises(steps: seq<Step>)
  {
    |steps| >= 2 && exists i :: 0 <= i < |steps| && steps[i].operation.None?
  }

  /** `optimize_workflow`: shallow copies of the steps, with
      `parallel_with_next` set on each step compatible with its successor. */
  method OptimizeWorkflow(steps: seq<Step>) returns (r: Result<seq<Step>, string>)
    ensures r.Err? <==> OptimizeRaises(steps)
    ensures r.Ok? ==> |r.value| == |steps|
    ensures r.Ok? ==> forall i :: 0 <= i < |steps| ==> r.value[i] == OptimizedStep(steps, i)
  {
    var optimized: seq<Step> := [];
    var n := |steps|;
    for i := 0 to n
      invariant |optimized| == i
      invariant forall j :: 0 <= j < i ==> optimized[j] == OptimizedStep(steps, j)
      invariant n >= 2 ==> forall j :: 0 <= j < n && (j < i || (j == i && i > 0)) ==> steps[j].operation.Some?
    {
      var optimizedStep := steps[i];
      if i < n - 1 {
        var step, nextStep := steps[i], steps[i + 1];
        if step.operation.None? || nextStep.operation.None? {
          var bad := if step.operation.None? then i else i + 1;
          assert steps[bad].operation.None?;
          return Err("KeyError: 'operation'");
        }
        if ShouldRunParallel(step.operation.value, nextStep.operation.value) {
          optimizedStep := optimizedStep.(parallelWithNext := Some(true));
        }
      }
      optimized := optimized + [optimizedStep];
    }
    if n >= 2 {
      assert forall j :: 0 <= j < n ==> steps[j].operation.Some?;
    }
    r := Ok(optimized);
  }

  /** Optimising keeps the length, the order, every operation and every
      configuration; it only ever writes `true` into `parallel_with_next`,
      and only on a step whose successor is compatible. */
  lemma OptimizePreservesSteps(steps: seq<Step>, i: nat)
    requires i < |steps|
    ensures OptimizedStep(steps, i).operation == steps[i].operation
    ensures OptimizedStep(steps, i).config == steps[i].config
    ensures OptimizedStep(steps, i).parallelWithNext != steps[i].parallelWithNext ==>
              OptimizedStep(steps, i).parallelWithNext == Some(true) && CompatibleWithNext(steps, i)
    ensures OptimizedStep(steps, i).parallelWithNext == Some(false) ==> steps[i].parallelWithNext == Some(false)
    ensures i == |steps| - 1 ==> OptimizedStep(steps, i) == steps[i]
  {
  }

  /** On a planned workflow (no hints yet), the hint ends up set exactly on
      the steps that are compatible with their successor. */
  lemma OptimizedPlanMarksExactlyCompatiblePairs(steps: seq<Step>, i: nat)
    requires i < |steps|
    requires forall j :: 0 <= j < |steps| ==> steps[j].parallelWithNext.None?
    ensures OptimizedStep(steps, i).parallelWithNext == Some(true) <==> CompatibleWithNext(steps, i)
    ensures OptimizedStep(steps, i).parallelWithNext.None? <==> !CompatibleWithNext(steps, i)
  {
  }

  /** Across all planned workflows, the only compatible adjacent pair is
      transcription followed by sentiment analysis in the podcast plan
      (steps 2 and 3). */
  lemma PlannedParallelPairs(intent: WorkflowIntent, customizations: map<string, Dict>, steps: seq<Step>, i: nat)
    requires |steps| == |OperationsFor(intent)|
    requires forall j :: 0 <= j < |steps| ==> steps[j] == PlannedStep(OperationsFor(intent)[j], customizations)
    requires i < |steps|
    ensures CompatibleWithNext(steps, i) <==> intent == PodcastProduction && i == 2
  {
  }

  // ---------------------------------------------------------------------------
  // Execution

  datatype StepOutput = StepOutput(status: string, filePath: string)

  datatype StepError = StepError(operation: string, error: string)

  /** The `results` dictionary, without "workflow_id" (built from object
      identity). */
  datatype WorkflowResult = WorkflowResult(
    stepsCompleted: seq<string>,
    outputs: map<string, StepOutput>,
    errors: seq<StepError>)

  /** The body of the `try` for one step, abstracted: `Some(message)` when
      it raises, `None` when it completes. */
  type StepRunner = (string, Dict) -> Option<string>

  /** The runner of the code as written: recording a step never fails. */
  function RecordOnly(): StepRunner
  {
    (operation: string, config: Dict) => None
  }

  predicate HasKeys(step: Step)
  {
    step.operation.Some? && step.config.Some?
  }

  predicate StepSucceeds(step: Step, run: StepRunner)
  {
    HasKeys(step) && run(step.operation.value, step.config.value).None?
  }

  /** The index of the step at which execution stops: the first step that
      lacks a key or whose body raises, or `|steps|` when every step runs. */
  function HaltIndex(steps: seq<Step>, run: StepRunner): (k: nat)
    ensures k <= |steps|
    ensures forall j :: 0 <= j < k ==> StepSucceeds(steps[j], run)
    ensures k < |steps| ==> !StepSucceeds(steps[k], run)
  {
    if steps == [] then 0
    else if !StepSucceeds(steps[0], run) then 0
    else 1 + HaltIndex(steps[1..], run)
  }

  function Operations(steps: seq<Step>): (ops: seq<string>)
    requires forall j :: 0 <= j < |steps| ==> steps[j].operation.Some?
    ensures |ops| == |steps|
    ensures forall j :: 0 <= j < |steps| ==> ops[j] == steps[j].operation.value
  {
    seq(|steps|, j requires 0 <= j < |steps| => steps[j].operation.value)
  }

  /** One "completed" output per recorded operation, all on the input file. */
  function Outputs(ops: seq<string>, audioFilePath: string): (m: map<string, StepOutput>)
    ensures m.Keys == set o | o in ops
    ensures forall o :: o in m ==> m[o] == StepOutput("completed", audioFilePath)
  {
    map o | o in ops :: StepOutput("completed", audioFilePath)
  }

  /** What `execute_workflow` returns, or the KeyError it raises. */
  function ExecutionOutcome(steps: seq<Step>, audioFilePath: string, run: StepRunner): Result<WorkflowResult, string>
  {
    var k := HaltIndex(steps, run);
    if k < |steps| && steps[k].operation.None? then Err("KeyError: 'operation'")
    else if k < |steps| && steps[k].config.None? then Err("KeyError: 'config'")
    else
      var done := Operations(steps[..k]);
      var errors := if k < |steps|
                    then [StepError(steps[k].operation.value, run(steps[k].operation.value, steps[k].config.value).value)]
                    else [];
      Ok(WorkflowResult(done, Outputs(done, audioFilePath), errors))
  }

  /** `execute_workflow`: runs the steps in order, ignoring
      `parallel_with_next`, and stops at the first step whose body raises. */
  method ExecuteWorkflow(steps: seq<Step>, audioFilePath: string, run: StepRunner)
    returns (r: Result<WorkflowResult, string>)
    ensures r == ExecutionOutcome(steps, audioFilePath, run)
  {
    var stepsCompleted: seq<string> := [];
    var outputs: map<string, StepOutput> := map[];
    var errors: seq<StepError> := [];
    var currentFile := audioFilePath;
    var i := 0;
    while i < |steps|
      invariant i <= HaltIndex(steps, run)
      invariant forall j :: 0 <= j < i ==> StepSucceeds(steps[j], run)
      invariant stepsCompleted == Operations(steps[..i])
      invariant outputs == Outputs(stepsCompleted, audioFilePath)
      invariant errors == []
    {
      var step := steps[i];
      if step.operation.None? {
        HaltIndexIsFirstFailure(steps, run, i);
        return Err("KeyError: 'operation'");
      }
      if step.config.None? {
        HaltIndexIsFirstFailure(steps, run, i);
        return Err("KeyError: 'config'");
      }
      var operation, config := step.operation.value, step.config.value;
      var failure := run(operation, config);
      if failure.Some? {
        HaltIndexIsFirstFailure(steps, run, i);
        errors := errors + [StepError(operation, failure.value)];
        break;
      }
      stepsCompleted := stepsCompleted + [operation];
      outputs := outputs[operation := StepOutput("completed", currentFile)];
      i := i + 1;
      assert steps[..i] == steps[..i - 1] + [steps[i - 1]];
    }
    ghost var k := HaltIndex(steps, run);
    assert k == i;
    if i < |steps| {
      assert errors == [StepError(steps[k].operation.value, run(steps[k].operation.value, steps[k].config.value).value)];
    }
    r := Ok(WorkflowResult(stepsCompleted, outputs, errors));
  }

  /** Halt on first failure: a failed run records exactly one error, for the
      step that failed, and `steps_completed` is exactly the operations
      before it; no later step contributes anything. */
  lemma {:induction false} FailureStopsExecution(steps: seq<Step>, audioFilePath: string, run: StepRunner, k: nat)
    requires k < |steps| && HasKeys(steps[k])
    requires forall j :: 0 <= j < k ==> StepSucceeds(steps[j], run)
    requires run(steps[k].operation.value, steps[k].config.value).Some?
    ensures ExecutionOutcome(steps, audioFilePath, run).Ok?
    ensures var res := ExecutionOutcome(steps, audioFilePath, run).value;
            && res.stepsCompleted == Operations(steps[..k])
            && res.errors == [StepError(steps[k].operation.value, run(steps[k].operation.value, steps[k].config.value).value)]
            && res.outputs.Keys == set o | o in Operations(steps[..k])
  {
    HaltIndexIsFirstFailure(steps, run, k);
  }

  lemma {:induction false} HaltIndexIsFirstFailure(steps: seq<Step>, run: StepRunner, k: nat)
    requires k < |steps| && !StepSucceeds(steps[k], run)
    requires forall j :: 0 <= j < k ==> StepSucceeds(steps[j], run)
    ensures HaltIndex(steps, run) == k
  {
    if k > 0 {
      HaltIndexIsFirstFailure(steps[1..], run, k - 1);
    }
  }

  lemma {:induction false} HaltIndexAllSucceed(steps: seq<Step>, run: StepRunner)
    requires forall j :: 0 <= j < |steps| ==> StepSucceeds(steps[j], run)
    ensures HaltIndex(steps, run) == |steps|
  {
    if steps != [] {
      HaltIndexAllSucceed(steps[1..], run);
    }
  }

  /** When every step has its keys and no body raises, every operation is
      completed, in order, with no error. */
  lemma AllStepsSucceed(steps: seq<Step>, audioFilePath: string, run: StepRunner)
    requires forall j :: 0 <= j < |steps| ==> StepSucceeds(steps[j], run)
    ensures ExecutionOutcome(steps, audioFilePath, run).Ok?
    ensures var res := ExecutionOutcome(steps, audioFilePath, run).value;
            && res.stepsCompleted == Operations(steps)
            && res.errors == []
            && forall o :: o in res.outputs ==> res.outputs[o] == StepOutput("completed", audioFilePath)
  {
    HaltIndexAllSucceed(steps, run);
    assert steps[..|steps|] == steps;
  }

  /** The code as written: with a body that never raises, a well-formed
      workflow (for instance one built by the planner) always completes. */
  lemma RecordOnlyCompletesPlannedWorkflow(steps: seq<Step>, audioFilePath: string)
    requires forall j :: 0 <= j < |steps| ==> HasKeys(steps[j])
    ensures ExecutionOutcome(steps, audioFilePath, RecordOnly()).Ok?
    ensures ExecutionOutcome(steps, audioFilePath, RecordOnly()).value.stepsCompleted == Operations(steps)
    ensures ExecutionOutcome(steps, audioFilePath, RecordOnly()).value.errors == []
  {
    AllStepsSucceed(steps, audioFilePath, RecordOnly());
  }

  /** A step missing "operation" or "config" raises outside the `try`:
      nothing is recorded as a step error, the whole call fails. */
  lemma MissingKeyRaises(steps: seq<Step>, audioFilePath: string, run: StepRunner, k: nat)
    requires k < |steps| && !HasKeys(steps[k])
    requires forall j :: 0 <= j < k ==> StepSucceeds(steps[j], run)
    ensures ExecutionOutcome(steps, audioFilePath, run).Err?
  {
    HaltIndexIsFirstFailure(steps, run, k);
  }
}
