/** The analysis panel (`CardDeal`): confidence colour bands, the choice of
    the main prediction, the six-step progress tracker of
    `performFullAnalysis` with its error marking, the reset on upload and the
    placement of detection boxes over the 224 x 224 model frame.

    The network, the image processor and the timers are not modelled: the
    run is a function of what they answered. */
module AnalysisPanel {
  import opened Results

  // ---------------------------------------------------------------------
  // Confidence bands and the main result
  // ---------------------------------------------------------------------

  datatype Band = Green | Yellow | Red

  /** `getConfidenceColor`, on a confidence in percent. */
  function ConfidenceColor(confidence: real): (band: Band)
    ensures band == Green <==> confidence >= 70.0
    ensures band == Yellow <==> 40.0 <= confidence < 70.0
    ensures band == Red <==> confidence < 40.0
  {
    if confidence >= 70.0 then Green
    else if confidence >= 40.0 then Yellow
    else Red
  }

  function BandRank(band: Band): nat {
    match band
    case Red => 0
    case Yellow => 1
    case Green => 2
  }

  /** A higher confidence never gets a worse band. */
  lemma ConfidenceColorMonotone(a: real, b: real)
    requires a <= b
    ensures BandRank(ConfidenceColor(a)) <= BandRank(ConfidenceColor(b))
  {
  }

  datatype Prediction = Prediction(labelName: string, confidence: real, classIndex: int)

  /** Index of the winner of `reduce((max, curr) => curr.confidence >
      max.confidence ? curr : max, preds[0])` over the first `k` predictions. */
  function BestIndex(preds: seq<Prediction>, k: nat): (j: nat)
    requires 0 < |preds| && k <= |preds|
    ensures j < |preds| && (j < k || j == 0)
    ensures forall i :: 0 <= i < k ==> preds[i].confidence <= preds[j].confidence
    ensures forall i :: 0 <= i < j ==> preds[i].confidence < preds[j].confidence
  {
    if k == 0 then 0
    else
      var j := BestIndex(preds, k - 1);
      if preds[k - 1].confidence > preds[j].confidence then k - 1 else j
  }

  /** `j` holds a maximal confidence and nothing before it does. */
  predicate EarliestMax(preds: seq<Prediction>, j: int) {
    && 0 <= j < |preds|
    && (forall i :: 0 <= i < |preds| ==> preds[i].confidence <= preds[j].confidence)
    && (forall i :: 0 <= i < j ==> preds[i].confidence < preds[j].confidence)
  }

  /** `mainResult`: nothing for a missing or empty prediction list (the
      reduction then starts from `undefined`), otherwise the earliest
      prediction of maximal confidence. */
  function MainResult(result: Option<seq<Prediction>>): (main: Option<Prediction>)
    ensures main.None? <==> result.None? || |result.value| == 0
    ensures main.Some? ==> main.value in result.value
    ensures main.Some? ==> forall p :: p in result.value ==> p.confidence <= main.value.confidence
  {
    match result
    case None => None
    case Some(preds) =>
      if |preds| == 0 then None else Some(preds[BestIndex(preds, |preds|)])
  }

  /** The main result is the prediction at the one earliest maximal position. */
  lemma MainResultIsEarliestMax(preds: seq<Prediction>, j: int)
    requires EarliestMax(preds, j)
    ensures MainResult(Some(preds)) == Some(preds[j])
  {
    var b := BestIndex(preds, |preds|);
  }

  /** Position of the first prediction carrying the label `wanted`, if any. */
  function FirstWithLabel(preds: seq<Prediction>, wanted: string): (found: Option<nat>)
    ensures found.Some? ==> found.value < |preds| && preds[found.value].labelName == wanted
    ensures found.Some? ==> forall i :: 0 <= i < found.value ==> preds[i].labelName != wanted
    ensures found.None? ==> forall i :: 0 <= i < |preds| ==> preds[i].labelName != wanted
  {
    if |preds| == 0 then None
    else if preds[0].labelName == wanted then Some(0)
    else
      match FirstWithLabel(preds[1..], wanted)
      case None => None
      case Some(i) => Some(i + 1)
  }

  /** The bar value shown for `NORMAL` or `PNEUMONIA`: the confidence of the
      first prediction with that label, or 0. */
  function LabelConfidence(result: Option<seq<Prediction>>, wanted: string): (c: real)
    ensures result.Some? && (exists i :: 0 <= i < |result.value| && result.value[i].labelName == wanted) ==>
              exists i :: 0 <= i < |result.value| && result.value[i].labelName == wanted && c == result.value[i].confidence
                && forall j :: 0 <= j < i ==> result.value[j].labelName != wanted
    ensures (result.None? || forall i :: 0 <= i < |result.value| ==> result.value[i].labelName != wanted) ==> c == 0.0
  {
    match result
    case None => 0.0
    case Some(preds) =>
      match FirstWithLabel(preds, wanted)
      case None => 0.0
      case Some(i) => preds[i].confidence
  }

  // ---------------------------------------------------------------------
  // The six-step progress tracker
  // ---------------------------------------------------------------------

  datatype Status = Pending | Processing | Completed | Error

  datatype Step = Step(name: string, progress: int, status: Status)

  const StepCount: nat := 6

  function InitialSteps(): (steps: seq<Step>)
    ensures |steps| == StepCount
    ensures forall i :: 0 <= i < StepCount ==> steps[i].status == Pending && steps[i].progress == 0
  {
    [ Step("Validating image...", 0, Pending),
      Step("Enhancing image quality...", 0, Pending),
      Step("Running AI analysis...", 0, Pending),
      Step("Generating heatmap...", 0, Pending),
      Step("Detecting areas of interest...", 0, Pending),
      Step("Finalizing results...", 0, Pending) ]
  }

  /** One write to the step list followed by `setOverallProgress(overall)`. */
  datatype Checkpoint = Checkpoint(step: nat, status: Status, progress: int, overall: int)

  /** The twelve checkpoints of a successful run, in order. Checkpoint 5 only
      raises the progress of step 2: that step is never completed. */
  const Script: seq<Checkpoint> := [
    Checkpoint(0, Processing, 50, 5),
    Checkpoint(0, Completed, 100, 10),
    Checkpoint(1, Processing, 50, 15),
    Checkpoint(1, Completed, 100, 25),
    Checkpoint(2, Processing, 30, 35),
    Checkpoint(2, Processing, 70, 45),
    Checkpoint(3, Processing, 30, 55),
    Checkpoint(3, Completed, 100, 70),
    Checkpoint(4, Processing, 50, 80),
    Checkpoint(4, Completed, 100, 90),
    Checkpoint(5, Processing, 50, 95),
    Checkpoint(5, Completed, 100, 100)
  ]

  /** What can go wrong after validation, in the order the run meets it:
      the image processor, the three requests, and assembling the results
      from a response whose JSON body is `null`. */
  datatype Stage = Enhance | Predict | Heatmap | Boxes | Finalize

  /** How many checkpoints have run when `stage` is attempted. */
  function Reached(stage: Stage): (k: nat)
    ensures k < |Script|
  {
    match stage
    case Enhance => 3
    case Predict => 5
    case Heatmap => 7
    case Boxes => 9
    case Finalize => 11
  }

  function ApplyCheckpoint(steps: seq<Step>, cp: Checkpoint): (r: seq<Step>)
    requires cp.step < |steps|
    ensures |r| == |steps|
    ensures r[cp.step] == steps[cp.step].(status := cp.status, progress := cp.progress)
    ensures forall i :: 0 <= i < |steps| && i != cp.step ==> r[i] == steps[i]
  {
    steps[cp.step := steps[cp.step].(status := cp.status, progress := cp.progress)]
  }

  /** The step list after the first `k` checkpoints of `script`. */
  function Run(script: seq<Checkpoint>, k: nat): (steps: seq<Step>)
    requires k <= |script| && Paired(script)
    ensures |steps| == StepCount
  {
    if k == 0 then InitialSteps() else ApplyCheckpoint(Run(script, k - 1), script[k - 1])
  }

  /** The progress values shown, in order: the reset to 0, then one per checkpoint. */
  function ProgressTrace(script: seq<Checkpoint>, k: nat): (trace: seq<int>)
    requires k <= |script|
    ensures |trace| == k + 1 && trace[0] == 0
    ensures forall j :: 0 <= j < k ==> trace[j + 1] == script[j].overall
  {
    [0] + seq(k, j requires 0 <= j < k => script[j].overall)
  }

  /** Position of the first step in `Processing`, if any. */
  function FirstProcessing(steps: seq<Step>): (found: Option<nat>)
    ensures found.Some? ==> found.value < |steps| && steps[found.value].status == Processing
    ensures found.Some? ==> forall i :: 0 <= i < found.value ==> steps[i].status != Processing
    ensures found.None? ==> forall i :: 0 <= i < |steps| ==> steps[i].status != Processing
  {
    if |steps| == 0 then None
    else if steps[0].status == Processing then Some(0)
    else
      match FirstProcessing(steps[1..])
      case None => None
      case Some(i) => Some(i + 1)
  }

  /** `FirstProcessing` finds exactly the earliest processing step. */
  lemma {:induction false} FirstProcessingAt(steps: seq<Step>, e: nat)
    requires e < |steps| && steps[e].status == Processing
    requires forall i :: 0 <= i < e ==> steps[i].status != Processing
    ensures FirstProcessing(steps) == Some(e)
  {
    if e > 0 {
      FirstProcessingAt(steps[1..], e - 1);
    }
  }

  /** The `catch` block: the first step still in `Processing` becomes
      `Error`, and nothing else changes. */
  function MarkError(steps: seq<Step>): (r: seq<Step>)
    ensures |r| == |steps|
    ensures FirstProcessing(steps).None? ==> r == steps
    ensures FirstProcessing(steps).Some? ==>
              var e := FirstProcessing(steps).value;
              && r[e] == steps[e].(status := Error)
              && forall i :: 0 <= i < |steps| && i != e ==> r[i] == steps[i]
  {
    match FirstProcessing(steps)
    case None => steps
    case Some(e) => steps[e := steps[e].(status := Error)]
  }

  /** What the run met: a rejection by the validator, a failure at some
      stage, or success. */
  datatype Outcome = Rejected | Failed(stage: Stage) | Succeeded

  function OutcomeOf(isChest: bool, failure: Option<Stage>): Outcome {
    if !isChest then Rejected
    else match failure
      case None => Succeeded
      case Some(stage) => Failed(stage)
  }

  /** How many checkpoints run before the outcome is reached. */
  function CheckpointsRun(outcome: Outcome): (k: nat)
    ensures k <= |Script|
  {
    match outcome
    case Rejected => 1
    case Failed(stage) => Reached(stage)
    case Succeeded => |Script|
  }

  /** The panel after `performFullAnalysis`: the steps, every progress value
      shown, the loading flag, whether the "not a chest X-ray" notice or the
      failure alert appeared, and whether results were stored. */
  datatype Panel = Panel(
    steps: seq<Step>,
    progress: seq<int>,
    loading: bool,
    rejectionNotice: bool,
    failureAlert: bool,
    resultsStored: bool)

  /** The shape of the tracker's script: checkpoint `j` writes step `j / 2`;
      checkpoint `2i` starts step `i` and checkpoint `2i + 1` concludes it. */
  predicate Paired(script: seq<Checkpoint>) {
    && |script| == 2 * StepCount
    && forall j :: 0 <= j < |script| ==>
         script[j].step == j / 2 && (j % 2 == 0 ==> script[j].status == Processing)
  }

  /** A run of `performFullAnalysis` under a given script (the source's is
      `Script`): the validator's answer and the first stage that throws, if
      any, decide how far it gets. */
  function AnalysisRun(script: seq<Checkpoint>, isChest: bool, failure: Option<Stage>): (panel: Panel)
    requires Paired(script)
    ensures !panel.loading
    ensures |panel.steps| == StepCount
    ensures panel.rejectionNotice <==> !isChest
    ensures panel.failureAlert <==> isChest && failure.Some?
    ensures panel.resultsStored <==> isChest && failure.None?
    ensures OutcomeOf(isChest, failure).Failed? ==>
              panel.steps == MarkError(Run(script, CheckpointsRun(OutcomeOf(isChest, failure))))
    ensures !OutcomeOf(isChest, failure).Failed? ==>
              panel.steps == Run(script, CheckpointsRun(OutcomeOf(isChest, failure)))
    ensures panel.progress == ProgressTrace(script, CheckpointsRun(OutcomeOf(isChest, failure)))
  {
    var outcome := OutcomeOf(isChest, failure);
    var k := CheckpointsRun(outcome);
    var steps := Run(script, k);
    Panel(
      if outcome.Failed? then MarkError(steps) else steps,
      ProgressTrace(script, k),
      false,
      outcome.Rejected?,
      outcome.Failed?,
      outcome.Succeeded?)
  }

  /** A failed run shows the steps as they stood when the stage threw, with
      the error marked. */
  lemma FailedRunSteps(script: seq<Checkpoint>, stage: Stage)
    requires Paired(script)
    ensures AnalysisRun(script, true, Some(stage)).steps == MarkError(Run(script, Reached(stage)))
  {
  }

  /** The source's script: paired, writing no `Error`, and concluding every
      step with `Completed` at 100% except step 2 (checkpoint 5), which is
      left `Processing` at 70%. */
  lemma ScriptShape()
    ensures Paired(Script)
    ensures forall j :: 0 <= j < |Script| ==> Script[j].status != Error
    ensures forall j :: 0 <= j < |Script| && j % 2 == 1 ==>
              Script[j].status == (if j == 5 then Processing else Completed)
              && Script[j].progress == (if j == 5 then 70 else 100)
  {
  }

  /** `performFullAnalysis` as written. */
  function PerformFullAnalysis(isChest: bool, failure: Option<Stage>): (panel: Panel)
    ensures !panel.loading
    ensures |panel.steps| == StepCount
    ensures panel.rejectionNotice <==> !isChest
    ensures panel.failureAlert <==> isChest && failure.Some?
    ensures panel.resultsStored <==> isChest && failure.None?
  {
    ScriptShape();
    AnalysisRun(Script, isChest, failure)
  }

  /** The state of step `i` after `k` checkpoints of a paired script: untouched
      before its first checkpoint, as its first checkpoint left it in
      between, and as its second one left it afterwards. */
  function StepAfter(script: seq<Checkpoint>, i: nat, k: nat): Step
    requires Paired(script) && i < StepCount
  {
    var s := InitialSteps()[i];
    if 2 * i + 2 <= k then s.(status := script[2 * i + 1].status, progress := script[2 * i + 1].progress)
    else if 2 * i + 1 == k then s.(status := script[2 * i].status, progress := script[2 * i].progress)
    else s
  }

  lemma {:induction false} RunClosedForm(script: seq<Checkpoint>, k: nat)
    requires Paired(script) && k <= |script|
    ensures forall i :: 0 <= i < StepCount ==> Run(script, k)[i] == StepAfter(script, i, k)
  {
    if k > 0 {
      RunClosedForm(script, k - 1);
      var cp := script[k - 1];
      forall i | 0 <= i < StepCount
        ensures Run(script, k)[i] == StepAfter(script, i, k)
      {
        if i == cp.step {
          assert 2 * i + 1 == k || 2 * i + 2 == k;
        } else {
          assert Run(script, k)[i] == Run(script, k - 1)[i];
        }
      }
    }
  }

  /** A script that never writes `Error` never produces it. */
  lemma RunHasNoError(script: seq<Checkpoint>, k: nat)
    requires Paired(script) && k <= |script|
    requires forall j :: 0 <= j < |script| ==> script[j].status != Error
    ensures forall i :: 0 <= i < StepCount ==> Run(script, k)[i].status != Error
  {
    RunClosedForm(script, k);
  }

  /** The progress values of a successful run. */
  const SuccessTrace: seq<int> := [0, 5, 10, 15, 25, 35, 45, 55, 70, 80, 90, 95, 100]

  /** A shorter run shows a prefix of the longer run's progress values. */
  lemma TracePrefix(script: seq<Checkpoint>, k: nat)
    requires k <= |script|
    ensures ProgressTrace(script, k) == ProgressTrace(script, |script|)[..k + 1]
  {
  }

  predicate Nondecreasing(xs: seq<int>) {
    forall i, j :: 0 <= i <= j < |xs| ==> xs[i] <= xs[j]
  }

  /** A sequence whose neighbours are ordered is ordered. */
  lemma {:induction false} NondecreasingFromNeighbours(xs: seq<int>)
    requires forall i :: 0 <= i < |xs| - 1 ==> xs[i] <= xs[i + 1]
    ensures Nondecreasing(xs)
  {
    if |xs| > 1 {
      var tail := xs[1..];
      assert forall i :: 0 <= i < |tail| - 1 ==> tail[i] <= tail[i + 1] by {
        forall i | 0 <= i < |tail| - 1
          ensures tail[i] <= tail[i + 1]
        {
          assert tail[i] == xs[i + 1] && tail[i + 1] == xs[i + 2];
        }
      }
      NondecreasingFromNeighbours(tail);
      forall i, j | 0 <= i <= j < |xs|
        ensures xs[i] <= xs[j]
      {
        if 0 < i {
          assert xs[i] == tail[i - 1] && xs[j] == tail[j - 1];
        } else if 0 < j {
          assert xs[1] == tail[0] && xs[j] == tail[j - 1];
        }
      }
    }
  }

  /** The progress values after the first `k` checkpoints of the script. */
  lemma ScriptTrace(k: nat)
    requires 1 <= k <= |Script|
    ensures var trace := ProgressTrace(Script, k);
      && trace == SuccessTrace[..k + 1]
      && Nondecreasing(trace)
      && (trace[k] == 100 <==> k == |Script|)
  {
    assert ProgressTrace(Script, |Script|) == SuccessTrace;
    TracePrefix(Script, k);
    NondecreasingFromNeighbours(SuccessTrace);
    var trace := ProgressTrace(Script, k);
    assert forall i, j :: 0 <= i <= j < |trace| ==> trace[i] == SuccessTrace[i] && trace[j] == SuccessTrace[j];
    if k < |Script| {
      assert SuccessTrace[k] <= SuccessTrace[11] < 100;
    }
  }

  /** Whatever happens, the progress shown is a prefix of the successful
      sequence, and it only grows; it reaches 100 exactly on success. */
  lemma ProgressIsPrefix(isChest: bool, failure: Option<Stage>)
    ensures var trace := PerformFullAnalysis(isChest, failure).progress;
      && 2 <= |trace| <= |SuccessTrace|
      && trace == SuccessTrace[..|trace|]
      && Nondecreasing(trace)
      && (trace[|trace| - 1] == 100 <==> OutcomeOf(isChest, failure).Succeeded?)
  {
    ScriptShape();
    var k := CheckpointsRun(OutcomeOf(isChest, failure));
    assert PerformFullAnalysis(isChest, failure).progress == ProgressTrace(Script, k);
    ScriptTrace(k);
  }

  /** After a rejection only validation has started: step 0 is processing
      at 50%, the other steps are untouched and the progress stops at 5. */
  lemma RejectionStopsAtValidation(failure: Option<Stage>)
    ensures var panel := PerformFullAnalysis(false, failure);
      && panel.progress == [0, 5]
      && panel.steps[0].status == Processing && panel.steps[0].progress == 50
      && (forall i :: 1 <= i < StepCount ==> panel.steps[i] == InitialSteps()[i])
  {
    ScriptShape();
    RunClosedForm(Script, 1);
    assert PerformFullAnalysis(false, failure).steps == Run(Script, 1);
  }

  /** After a whole paired script every step is as its concluding
      checkpoint left it. */
  lemma FinishedRun(script: seq<Checkpoint>, i: nat)
    requires Paired(script) && i < StepCount
    ensures Run(script, |script|)[i].status == script[2 * i + 1].status
    ensures Run(script, |script|)[i].progress == script[2 * i + 1].progress
  {
    RunClosedForm(script, |script|);
  }

  /** The step list a successful run leaves: five steps completed, and step
      2 still processing at 70%. */
  lemma SuccessLeavesStepTwoProcessing()
    ensures var panel := PerformFullAnalysis(true, None);
      && (forall i :: 0 <= i < StepCount && i != 2 ==>
            panel.steps[i].status == Completed && panel.steps[i].progress == 100)
      && panel.steps[2].status == Processing && panel.steps[2].progress == 70
  {
    ScriptShape();
    assert PerformFullAnalysis(true, None).steps == Run(Script, |Script|);
    forall i | 0 <= i < StepCount
      ensures Run(Script, |Script|)[i].status == (if i == 2 then Processing else Completed)
      ensures Run(Script, |Script|)[i].progress == (if i == 2 then 70 else 100)
    {
      FinishedRun(Script, i);
      assert (2 * i + 1) % 2 == 1 && (2 * i + 1 == 5 <==> i == 2);
    }
  }

  /** The step each stage works under. */
  function StageStep(stage: Stage): (i: nat)
    ensures i < StepCount
    ensures Reached(stage) == 2 * i + 1
  {
    match stage
    case Enhance => 1
    case Predict => 2
    case Heatmap => 3
    case Boxes => 4
    case Finalize => 5
  }

  /** When `stage` fails, the first step still processing is step 1 for
      enhancement and step 2 for every later stage. */
  lemma FirstProcessingAtFailure(stage: Stage)
    ensures FirstProcessing(Run(Script, Reached(stage))) == Some(if stage == Enhance then 1 else 2)
  {
    ScriptShape();
    var k := Reached(stage);
    var e := if stage == Enhance then 1 else 2;
    RunClosedForm(Script, k);
    var steps := Run(Script, k);
    assert Script[1].status == Completed && Script[3].status == Completed;
    assert Script[2].status == Processing && Script[4].status == Processing && Script[5].status == Processing;
    assert steps[0] == StepAfter(Script, 0, k) && steps[1] == StepAfter(Script, 1, k);
    assert steps[2] == StepAfter(Script, 2, k);
    FirstProcessingAt(steps, e);
  }

  /** Marking the error at `e` on a list without errors leaves `e` as the
      only error. */
  lemma MarkErrorOnly(steps: seq<Step>, e: nat)
    requires e < |steps| == StepCount && FirstProcessing(steps) == Some(e)
    requires forall i :: 0 <= i < StepCount ==> steps[i].status != Error
    ensures MarkError(steps)[e].status == Error
    ensures forall i :: 0 <= i < StepCount && i != e ==> MarkError(steps)[i].status != Error
  {
  }

  /** On a failure exactly one step ends in `Error`: step 1 when enhancement
      fails, and step 2 for every later stage, because step 2 is never
      completed and so is always the first one still processing. */
  lemma FailureMarksFirstProcessing(stage: Stage)
    ensures var panel := PerformFullAnalysis(true, Some(stage));
      var e := if stage == Enhance then 1 else 2;
      && panel.steps[e].status == Error
      && forall i :: 0 <= i < StepCount && i != e ==> panel.steps[i].status != Error
  {
    ScriptShape();
    var steps := Run(Script, Reached(stage));
    FailedRunSteps(Script, stage);
    FirstProcessingAtFailure(stage);
    RunHasNoError(Script, Reached(stage));
    MarkErrorOnly(steps, if stage == Enhance then 1 else 2);
  }

  /** When a stage fails, its own step has been started and not concluded. */
  lemma FailingStageProcessing(script: seq<Checkpoint>, stage: Stage)
    requires Paired(script)
    ensures Run(script, Reached(stage))[StageStep(stage)].status == Processing
  {
    var k := Reached(stage);
    var e := StageStep(stage);
    RunClosedForm(script, k);
    assert Run(script, k)[e] == StepAfter(script, e, k);
    assert (2 * e) % 2 == 0;
  }

  /** A failure after the prediction shows the discrepancy: the step of the
      stage that failed is left spinning, while the analysis step, whose
      request succeeded, is marked as the one that failed. */
  lemma LaterFailureBlamesAnalysis(stage: Stage)
    requires stage == Heatmap || stage == Boxes || stage == Finalize
    ensures var panel := PerformFullAnalysis(true, Some(stage));
      panel.steps[2].status == Error && panel.steps[StageStep(stage)].status == Processing
  {
    ScriptShape();
    var steps := Run(Script, Reached(stage));
    assert PerformFullAnalysis(true, Some(stage)) == AnalysisRun(Script, true, Some(stage));
    FailedRunSteps(Script, stage);
    FirstProcessingAtFailure(stage);
    FailingStageProcessing(Script, stage);
    assert MarkError(steps)[StageStep(stage)] == steps[StageStep(stage)];
  }

  // ---------------------------------------------------------------------
  // The tracker with step 2 completed
  // ---------------------------------------------------------------------

  /** The script with checkpoint 5 completing step 2, as every other step is
      completed once its work has returned. */
  const IntendedScript: seq<Checkpoint> := [
    Checkpoint(0, Processing, 50, 5),
    Checkpoint(0, Completed, 100, 10),
    Checkpoint(1, Processing, 50, 15),
    Checkpoint(1, Completed, 100, 25),
    Checkpoint(2, Processing, 30, 35),
    Checkpoint(2, Completed, 100, 45),
    Checkpoint(3, Processing, 30, 55),
    Checkpoint(3, Completed, 100, 70),
    Checkpoint(4, Processing, 50, 80),
    Checkpoint(4, Completed, 100, 90),
    Checkpoint(5, Processing, 50, 95),
    Checkpoint(5, Completed, 100, 100)
  ]

  /** The intended script is paired, writes no `Error`, and concludes every
      step with `Completed`. */
  lemma IntendedShape()
    ensures Paired(IntendedScript)
    ensures forall j :: 0 <= j < |IntendedScript| ==> IntendedScript[j].status != Error
    ensures forall j :: 0 <= j < |IntendedScript| && j % 2 == 1 ==> IntendedScript[j].status == Completed
  {
  }

  /** `performFullAnalysis` with step 2 completed. */
  function PerformFullAnalysisIntended(isChest: bool, failure: Option<Stage>): (panel: Panel)
    ensures |panel.steps| == StepCount
    ensures panel.failureAlert <==> isChest && failure.Some?
  {
    IntendedShape();
    AnalysisRun(IntendedScript, isChest, failure)
  }

  /** On success the intended tracker completes every step. */
  lemma IntendedSuccessCompletesAll()
    ensures forall i :: 0 <= i < StepCount ==> PerformFullAnalysisIntended(true, None).steps[i].status == Completed
  {
    IntendedShape();
    assert PerformFullAnalysisIntended(true, None).steps == Run(IntendedScript, |IntendedScript|);
    forall i | 0 <= i < StepCount
      ensures Run(IntendedScript, |IntendedScript|)[i].status == Completed
    {
      FinishedRun(IntendedScript, i);
      assert (2 * i + 1) % 2 == 1;
    }
  }

  /** With step 2 completed, the first step still processing when a stage
      fails is that stage's own step. */
  lemma IntendedFirstProcessing(stage: Stage)
    ensures FirstProcessing(Run(IntendedScript, Reached(stage))) == Some(StageStep(stage))
  {
    IntendedShape();
    var k := Reached(stage);
    var e := StageStep(stage);
    RunClosedForm(IntendedScript, k);
    var steps := Run(IntendedScript, k);
    forall i | 0 <= i < e
      ensures steps[i].status == Completed
    {
      assert steps[i] == StepAfter(IntendedScript, i, k);
      assert (2 * i + 1) % 2 == 1;
    }
    assert steps[e] == StepAfter(IntendedScript, e, k);
    assert (2 * e) % 2 == 0;
    FirstProcessingAt(steps, e);
  }

  /** With step 2 completed, a failure marks exactly the step of the stage
      that failed. */
  lemma IntendedTrackerMarksFailingStage(stage: Stage)
    ensures var panel := PerformFullAnalysisIntended(true, Some(stage));
      && panel.steps[StageStep(stage)].status == Error
      && forall i :: 0 <= i < StepCount && i != StageStep(stage) ==> panel.steps[i].status != Error
  {
    IntendedShape();
    var steps := Run(IntendedScript, Reached(stage));
    FailedRunSteps(IntendedScript, stage);
    IntendedFirstProcessing(stage);
    RunHasNoError(IntendedScript, Reached(stage));
    MarkErrorOnly(steps, StageStep(stage));
  }

  // ---------------------------------------------------------------------
  // Upload reset
  // ---------------------------------------------------------------------

  /** The part of the panel's state an upload touches, plus the view flags it
      leaves alone. Files and object URLs are named by strings. */
  datatype PanelState = PanelState(
    image: Option<string>,
    preview: Option<string>,
    result: Option<seq<Prediction>>,
    hasCorrection: bool,
    showCorrected: bool,
    hasAnalysis: bool,
    steps: seq<Step>,
    overallProgress: int,
    showHeatmap: bool,
    showBoxes: bool)

  /** `handleImageUpload`: with no file nothing happens; otherwise the file
      and its preview are taken and every result of the previous analysis is
      cleared. */
  function Upload(s: PanelState, file: Option<string>, previewUrl: string): (r: PanelState)
    ensures file.None? ==> r == s
    ensures file.Some? ==> r.image == file && r.preview == Some(previewUrl)
    ensures file.Some? ==> r.result.None? && !r.hasCorrection && !r.showCorrected && !r.hasAnalysis
    ensures file.Some? ==> r.steps == [] && r.overallProgress == 0
    ensures r.showHeatmap == s.showHeatmap && r.showBoxes == s.showBoxes
  {
    match file
    case None => s
    case Some(f) =>
      s.(image := Some(f), preview := Some(previewUrl), result := None, hasCorrection := false,
         showCorrected := false, hasAnalysis := false, steps := [], overallProgress := 0)
  }

  /** A later upload supersedes an earlier one entirely: the state is as if
      only the later file had been chosen, with its own preview URL. Since
      `URL.createObjectURL` mints a fresh URL each time, uploading the same
      file again changes nothing but the preview URL. */
  lemma UploadSupersedes(s: PanelState, first: Option<string>, firstUrl: string, file: string, url: string)
    ensures Upload(Upload(s, first, firstUrl), Some(file), url) == Upload(s, Some(file), url)
  {
  }

  /** After an upload the main result and the label bars are empty again. */
  lemma UploadClearsResult(s: PanelState, file: string, previewUrl: string)
    ensures MainResult(Upload(s, Some(file), previewUrl).result).None?
    ensures LabelConfidence(Upload(s, Some(file), previewUrl).result, "NORMAL") == 0.0
  {
  }

  // ---------------------------------------------------------------------
  // An upload while a run is in flight
  // ---------------------------------------------------------------------

  /** The file input stays enabled while a run is loading; only the predict
      button is disabled. So `handleImageUpload` can run at any `await` of
      `performFullAnalysis`, that is, after 1, 3, 5, 7 or 9 checkpoints. */
  predicate AwaitPoint(k: nat) {
    k == 1 || k == 3 || k == 5 || k == 7 || k == 9
  }

  /** What a successful run under `script` (the source's is `Script`) writes
      to the panel at checkpoint `j`: the whole step list the run keeps
      locally, and the overall progress; just before the checkpoint that
      concludes the enhancement also the correction, and just before the
      last one the analysis results and `preds`, the prediction list. */
  function RunWrite(script: seq<Checkpoint>, s: PanelState, j: nat, preds: seq<Prediction>): (r: PanelState)
    requires Paired(script) && j < |script|
    ensures r.image == s.image && r.preview == s.preview && r.showCorrected == s.showCorrected
    ensures r.steps == Run(script, j + 1) && r.overallProgress == script[j].overall
    ensures r.showHeatmap == s.showHeatmap && r.showBoxes == s.showBoxes
    ensures r.hasCorrection == (s.hasCorrection || j == Reached(Enhance))
    ensures r.hasAnalysis == (s.hasAnalysis || j == |script| - 1)
    ensures r.result == if j == |script| - 1 then Some(preds) else s.result
  {
    var t := s.(steps := Run(script, j + 1), overallProgress := script[j].overall);
    if j == Reached(Enhance) then t.(hasCorrection := true)
    else if j == |script| - 1 then t.(hasAnalysis := true, result := Some(preds))
    else t
  }

  /** A successful run carried on from checkpoint `k` against whatever the
      panel holds by then. */
  function Resume(script: seq<Checkpoint>, s: PanelState, k: nat, preds: seq<Prediction>): (r: PanelState)
    requires Paired(script) && k <= |script|
    decreases |script| - k
  {
    if k == |script| then s else Resume(script, RunWrite(script, s, k, preds), k + 1, preds)
  }

  /** The rest of a successful run overwrites the panel with the run's own
      steps, progress and results; only the file, the preview and the view
      flags are left as it found them. */
  lemma {:induction false} ResumeOverwrites(script: seq<Checkpoint>, s: PanelState, k: nat, preds: seq<Prediction>)
    requires Paired(script) && k < |script|
    ensures Resume(script, s, k, preds) ==
              s.(result := Some(preds), hasAnalysis := true,
                 hasCorrection := s.hasCorrection || k <= Reached(Enhance),
                 steps := Run(script, |script|), overallProgress := script[|script| - 1].overall)
    decreases |script| - k
  {
    var next := RunWrite(script, s, k, preds);
    if k + 1 < |script| {
      ResumeOverwrites(script, next, k + 1, preds);
    } else {
      assert Resume(script, s, k, preds) == next;
    }
  }

  /** A new file chosen while the previous one is being analysed does not
      stop that analysis: when it succeeds, the old file's predictions, its
      analysis results and its finished step list are shown again under the
      new file's name and preview. */
  lemma StaleRunRestoresResult(s: PanelState, k: nat, file: string, url: string, preds: seq<Prediction>)
    requires AwaitPoint(k)
    ensures Paired(Script)
    ensures var r := Resume(Script, Upload(s, Some(file), url), k, preds);
      && r.image == Some(file) && r.preview == Some(url)
      && r.result == Some(preds) && r.hasAnalysis
      && r.overallProgress == 100 && r.steps == Run(Script, |Script|)
  {
    ScriptShape();
    ResumeOverwrites(Script, Upload(s, Some(file), url), k, preds);
  }

  /** For instance, a pneumonia finding for the first file comes back next to
      the second file's preview. */
  lemma StaleDiagnosisExample(s: PanelState)
    ensures var preds := [Prediction("NORMAL", 10.0, 0), Prediction("PNEUMONIA", 90.0, 1)];
      var r := Resume(Script, Upload(s, Some("second.png"), "blob:second"), 5, preds);
      && r.preview == Some("blob:second")
      && MainResult(r.result) == Some(Prediction("PNEUMONIA", 90.0, 1))
  {
    var preds := [Prediction("NORMAL", 10.0, 0), Prediction("PNEUMONIA", 90.0, 1)];
    StaleRunRestoresResult(s, 5, "second.png", "blob:second", preds);
    MainResultIsEarliestMax(preds, 1);
  }

  /** The panel with a counter of uploads; a run remembers the count it
      started under, as a ref would hold it. */
  datatype GuardedPanel = GuardedPanel(panel: PanelState, uploads: nat)

  /** The upload handler, counting uploads. */
  function UploadCounted(g: GuardedPanel, file: Option<string>, previewUrl: string): (r: GuardedPanel)
    ensures r.panel == Upload(g.panel, file, previewUrl)
    ensures r.uploads == g.uploads + (if file.Some? then 1 else 0)
  {
    GuardedPanel(Upload(g.panel, file, previewUrl), if file.Some? then g.uploads + 1 else g.uploads)
  }

  /** The evidently intended run: each write is dropped once an upload has
      happened since the run (started under count `run`) began. */
  function ResumeGuarded(script: seq<Checkpoint>, g: GuardedPanel, run: nat, k: nat, preds: seq<Prediction>): (r: GuardedPanel)
    requires Paired(script) && k <= |script|
    ensures r.uploads == g.uploads
    decreases |script| - k
  {
    if k == |script| then g
    else
      var next := if run == g.uploads then g.(panel := RunWrite(script, g.panel, k, preds)) else g;
      ResumeGuarded(script, next, run, k + 1, preds)
  }

  /** With no upload in between, the guarded run writes exactly what the run
      as written does. */
  lemma {:induction false} GuardedRunUnchanged(script: seq<Checkpoint>, g: GuardedPanel, k: nat, preds: seq<Prediction>)
    requires Paired(script) && k <= |script|
    ensures ResumeGuarded(script, g, g.uploads, k, preds).panel == Resume(script, g.panel, k, preds)
    decreases |script| - k
  {
    if k < |script| {
      GuardedRunUnchanged(script, g.(panel := RunWrite(script, g.panel, k, preds)), k + 1, preds);
    }
  }

  /** With the guard, an upload during the run is final: nothing the old run
      does afterwards reaches the panel, so the cleared result stays cleared. */
  lemma {:induction false} GuardedUploadSurvives(script: seq<Checkpoint>, g: GuardedPanel, k: nat, file: string, url: string, preds: seq<Prediction>)
    requires Paired(script) && k <= |script|
    ensures ResumeGuarded(script, UploadCounted(g, Some(file), url), g.uploads, k, preds) == UploadCounted(g, Some(file), url)
    ensures MainResult(ResumeGuarded(script, UploadCounted(g, Some(file), url), g.uploads, k, preds).panel.result).None?
    decreases |script| - k
  {
    if k < |script| {
      GuardedUploadSurvives(script, g, k + 1, file, url, preds);
    }
  }

  // ---------------------------------------------------------------------
  // Detection boxes
  // ---------------------------------------------------------------------

  /** Side of the square frame the boxes are reported in. */
  const ModelFrame: real := 224.0

  datatype Box = Box(x: real, y: real, w: real, h: real, labelName: string)

  /** CSS placement of a box, in percent of the displayed image. */
  datatype Placement = Placement(left: real, top: real, width: real, height: real)

  /** A coordinate of the model frame as a percentage of the displayed
      image: the frame's extent `[0, 224]` fills the image, `[0, 100]`. */
  function Percent(v: real): (p: real)
    ensures 0.0 <= v <= ModelFrame ==> 0.0 <= p <= 100.0
    ensures v == 0.0 <==> p == 0.0
    ensures v == ModelFrame <==> p == 100.0
  {
    v / ModelFrame * 100.0
  }

  /** The box lies in the model frame. */
  predicate InFrame(b: Box) {
    0.0 <= b.x && 0.0 <= b.w && b.x + b.w <= ModelFrame
    && 0.0 <= b.y && 0.0 <= b.h && b.y + b.h <= ModelFrame
  }

  /** The placement lies in the displayed image. */
  predicate InImage(p: Placement) {
    0.0 <= p.left && 0.0 <= p.width && p.left + p.width <= 100.0
    && 0.0 <= p.top && 0.0 <= p.height && p.top + p.height <= 100.0
  }

  /** The four style percentages of a box. Its right and bottom edges land
      where the box's own edges are, and a box in the frame stays on the image. */
  function PlaceBox(b: Box): (p: Placement)
    ensures p.left + p.width == Percent(b.x + b.w) && p.top + p.height == Percent(b.y + b.h)
    ensures InFrame(b) ==> InImage(p)
  {
    Placement(Percent(b.x), Percent(b.y), Percent(b.w), Percent(b.h))
  }

  /** A coordinate inside the model frame lands inside the displayed image,
      and the mapping keeps order. */
  lemma PercentBounds(u: real, v: real)
    requires 0.0 <= u <= v <= ModelFrame
    ensures 0.0 <= Percent(u) <= Percent(v) <= 100.0
  {
  }
}
