/** The classifier worker's turns: what it runs on each trigger, what it writes, and how rollout signals are
    deduplicated. */
module ClassifierWorker {
  import opened Prelude
  import opened Decision
  import opened Correlation
  import opened Pipeline

  datatype Trigger = Startup | Tick | Reclassify | Generation

  /** One turn of the loop: the trigger, the clock when it is taken up, the samples the range query returns if it
      succeeds, whether the status write is accepted, and the clock when it is done. */
  datatype Turn = Turn(
    trigger: Trigger, at: int, samples: Option<seq<real>>, startHourUTC: int, writeAccepted: bool, doneAt: int,
    unspecified: int32)

  /** What a worker is built with. A positive resolution selects the second pipeline. */
  datatype Setup = Setup(
    sqrt: real -> real, minReplicas: int32, maxReplicas: int32, resolutionMin: int, minPoints: int,
    highConfPoints: int, hourlyProfileMinHours: int, cvGuardMeanRps: real, dedupSeconds: int)

  const DEFAULT_CV_GUARD := 1.0

  /** Configuration requires a positive number of points. */
  ghost predicate ValidSetup(u: Setup) { IsSquareRoot(u.sqrt) && u.minPoints >= 1 }

  function ForecasterName(f: Forecaster): string {
    match f
    case LinearExtrap => "linear_extrap"
    case Prophet => "prophet"
    case GbdtQuantile => "gbdt_quantile"
  }

  function AsClassified(p: Params): ClassifiedParams {
    ClassifiedParams(p.scaleUpCooldown, p.scaleDownCooldown, p.maxStep, ForecasterName(p.forecaster))
  }

  function ParamsOf(v1: Option<Result>): Option<Params> {
    if v1.Some? then Some(v1.value.params) else None
  }

  function ParamsOfV2(v2: Option<(Result, ContextOutput)>): Option<Params> {
    if v2.Some? then Some(v2.value.0.params) else None
  }

  function FirstParams(u: Setup, s: seq<real>, unspecified: int32): Option<Params>
    requires ValidSetup(u)
  {
    ParamsOf(RunPipeline(u.sqrt, s, u.highConfPoints, u.minPoints, u.minReplicas, u.maxReplicas, DEFAULT_CV_GUARD,
                         unspecified))
  }

  function SecondParams(u: Setup, s: seq<real>, cfg: PipelineConfig, unspecified: int32): Option<Params>
    requires ValidSetup(u) && s != []
  {
    ParamsOfV2(RunPipelineV2(u.sqrt, s, u.highConfPoints, u.minPoints, u.minReplicas, u.maxReplicas, cfg,
                             DEFAULT_CV_GUARD, unspecified))
  }

  function ConfigOf(u: Setup, startHourUTC: int): PipelineConfig {
    PipelineConfig(u.resolutionMin, u.hourlyProfileMinHours, u.cvGuardMeanRps, startHourUTC)
  }

  /** The parameters a series yields, if it has points enough. */
  function ParamsFor(u: Setup, s: seq<real>, startHourUTC: int, unspecified: int32): Option<Params>
    requires ValidSetup(u)
  {
    if |s| < u.minPoints then None
    else if u.resolutionMin > 0 then SecondParams(u, s, ConfigOf(u, startHourUTC), unspecified)
    else FirstParams(u, s, unspecified)
  }

  function Written(params: Option<Params>, accepted: bool): Option<ClassifiedParams> {
    if params.Some? && accepted then Some(AsClassified(params.value)) else None
  }

  /** What a classification writes to the status: nothing when the query fails, the history is short, or the write is
      rejected. */
  function WrittenBy(u: Setup, t: Turn): Option<ClassifiedParams>
    requires ValidSetup(u)
  {
    if t.samples.None? then None
    else Written(ParamsFor(u, t.samples.value, t.startHourUTC, t.unspecified), t.writeAccepted)
  }

  /** A turn as deduplication sees it: `writes` tells whether its classification, if run, ends in a status write. */
  datatype Attempt = Attempt(trigger: Trigger, at: int, writes: bool, doneAt: int)

  function AttemptOf(u: Setup, t: Turn): Attempt
    requires ValidSetup(u)
  {
    Attempt(t.trigger, t.at, WrittenBy(u, t).Some?, t.doneAt)
  }

  /** A worker that never classified counts as having done so long ago. */
  predicate ShouldRunOnGeneration(last: Option<int>, now: int, dedupSeconds: int) {
    last.None? || now - last.value > dedupSeconds * SECOND
  }

  predicate Runs(last: Option<int>, t: Attempt, dedupSeconds: int) {
    t.trigger.Generation? ==> ShouldRunOnGeneration(last, t.at, dedupSeconds)
  }

  predicate Succeeds(last: Option<int>, t: Attempt, dedupSeconds: int) { Runs(last, t, dedupSeconds) && t.writes }

  function LastAfter(last: Option<int>, t: Attempt, dedupSeconds: int): Option<int> {
    if Succeeds(last, t, dedupSeconds) then Some(t.doneAt) else last
  }

  class Worker {
    const setup: Setup
    var lastClassifyAt: Option<int>
    /** The classified parameters in the resource's status, as this worker last wrote them. */
    var classified: Option<ClassifiedParams>

    constructor (setup: Setup)
      ensures this.setup == setup && lastClassifyAt == None && classified == None
    {
      this.setup := setup;
      lastClassifyAt, classified := None, None;
    }

    /** One classification; true when it was written. */
    method RunClassification(t: Turn) returns (done: bool)
      requires ValidSetup(setup)
      modifies this
      ensures done == WrittenBy(setup, t).Some?
      ensures classified == if done then WrittenBy(setup, t) else old(classified)
      ensures lastClassifyAt == if done then Some(t.doneAt) else old(lastClassifyAt)
    {
      if t.samples.None? {
        return false;
      }
      var params := ParamsFor(setup, t.samples.value, t.startHourUTC, t.unspecified);
      if params.None? {
        return false;
      }
      if !t.writeAccepted {
        return false;
      }
      classified := Some(AsClassified(params.value));
      lastClassifyAt := Some(t.doneAt);
      return true;
    }

    /** Takes up one trigger; the reclassify annotation is stripped only by a successful reclassification. */
    method Take(t: Turn) returns (ran: bool, strips: bool)
      requires ValidSetup(setup)
      modifies this
      ensures ran == Runs(old(lastClassifyAt), AttemptOf(setup, t), setup.dedupSeconds)
      ensures lastClassifyAt == LastAfter(old(lastClassifyAt), AttemptOf(setup, t), setup.dedupSeconds)
      ensures classified == if Succeeds(old(lastClassifyAt), AttemptOf(setup, t), setup.dedupSeconds)
                            then WrittenBy(setup, t) else old(classified)
      ensures strips == (t.trigger.Reclassify? && WrittenBy(setup, t).Some?)
    {
      ran, strips := true, false;
      match t.trigger {
        case Startup =>
          var done := RunClassification(t);
        case Tick =>
          var done := RunClassification(t);
        case Reclassify =>
          strips := RunClassification(t);
        case Generation =>
          ran := ShouldRunOnGeneration(lastClassifyAt, t.at, setup.dedupSeconds);
          if ran {
            var done := RunClassification(t);
          }
      }
    }
  }

  // ---------------------------------------------------------------- what is written

  predicate AllStepInBounds(p: Option<Params>, minReplicas: int32, maxReplicas: int32) {
    p.Some? ==> StepInBounds(p.value, minReplicas, maxReplicas)
  }

  predicate AllInRange(p: Option<Params>, minReplicas: int32, maxReplicas: int32) {
    p.Some? ==> ParamsInRange(p.value, minReplicas, maxReplicas)
  }

  lemma {:induction false} SecondPipelineStep(u: Setup, s: seq<real>, cfg: PipelineConfig, unspecified: int32)
    requires ValidSetup(u) && s != []
    ensures AllStepInBounds(SecondParams(u, s, cfg, unspecified), u.minReplicas, u.maxReplicas)
  {
    PipelineV2Step(u.sqrt, s, u.highConfPoints, u.minPoints, u.minReplicas, u.maxReplicas, cfg, DEFAULT_CV_GUARD,
                   unspecified);
  }

  lemma {:induction false} FirstPipelineStep(u: Setup, s: seq<real>, unspecified: int32)
    requires ValidSetup(u)
    ensures AllStepInBounds(FirstParams(u, s, unspecified), u.minReplicas, u.maxReplicas)
  {
    PipelineStep(u.sqrt, s, u.highConfPoints, u.minPoints, u.minReplicas, u.maxReplicas, DEFAULT_CV_GUARD,
                 unspecified);
  }

  lemma {:induction false} ParamsStep(u: Setup, s: seq<real>, startHourUTC: int, unspecified: int32)
    requires ValidSetup(u)
    ensures AllStepInBounds(ParamsFor(u, s, startHourUTC, unspecified), u.minReplicas, u.maxReplicas)
  {
    if |s| < u.minPoints {
    } else if u.resolutionMin > 0 {
      SecondPipelineStep(u, s, ConfigOf(u, startHourUTC), unspecified);
    } else {
      FirstPipelineStep(u, s, unspecified);
    }
  }

  predicate ClassifiedStepInRange(c: ClassifiedParams, minReplicas: int32, maxReplicas: int32) {
    1 <= c.maxStepSize <= Max(1, Wrap32(maxReplicas - minReplicas))
  }

  lemma {:induction false} WrittenStep(p: Option<Params>, accepted: bool, minReplicas: int32, maxReplicas: int32)
    requires AllStepInBounds(p, minReplicas, maxReplicas)
    ensures var c := Written(p, accepted);
            c.Some? ==> ClassifiedStepInRange(c.value, minReplicas, maxReplicas)
  {}

  /** A written step lies between 1 and the replica range the worker was started with, whatever it saw. */
  lemma {:induction false} WrittenStepInRange(u: Setup, t: Turn)
    requires ValidSetup(u)
    ensures var c := WrittenBy(u, t);
            c.Some? ==> ClassifiedStepInRange(c.value, u.minReplicas, u.maxReplicas)
  {
    if t.samples.Some? {
      ParamsStep(u, t.samples.value, t.startHourUTC, t.unspecified);
      WrittenStep(ParamsFor(u, t.samples.value, t.startHourUTC, t.unspecified), t.writeAccepted, u.minReplicas,
                  u.maxReplicas);
    }
  }

  lemma {:induction false} SecondPipelineInRange(u: Setup, s: seq<real>, cfg: PipelineConfig, unspecified: int32)
    requires ValidSetup(u) && s != [] && NonNegative(s) && |s| <= LARGEST_LOAD
    ensures AllInRange(SecondParams(u, s, cfg, unspecified), u.minReplicas, u.maxReplicas)
  {
    PipelineV2Ranges(u.sqrt, s, u.highConfPoints, u.minPoints, u.minReplicas, u.maxReplicas, cfg, DEFAULT_CV_GUARD,
                     unspecified);
  }

  lemma {:induction false} FirstPipelineInRange(u: Setup, s: seq<real>, unspecified: int32)
    requires ValidSetup(u) && NonNegative(s) && |s| <= LARGEST_LOAD
    ensures AllInRange(FirstParams(u, s, unspecified), u.minReplicas, u.maxReplicas)
  {
    PipelineRanges(u.sqrt, s, u.highConfPoints, u.minPoints, u.minReplicas, u.maxReplicas, DEFAULT_CV_GUARD,
                   unspecified);
  }

  lemma {:induction false} ParamsForLoad(u: Setup, s: seq<real>, startHourUTC: int, unspecified: int32)
    requires ValidSetup(u) && NonNegative(s) && |s| <= LARGEST_LOAD
    ensures AllInRange(ParamsFor(u, s, startHourUTC, unspecified), u.minReplicas, u.maxReplicas)
  {
    if |s| < u.minPoints {
    } else if u.resolutionMin > 0 {
      SecondPipelineInRange(u, s, ConfigOf(u, startHourUTC), unspecified);
    } else {
      FirstPipelineInRange(u, s, unspecified);
    }
  }

  predicate ClassifiedInRange(c: ClassifiedParams, minReplicas: int32, maxReplicas: int32) {
    && 30 <= c.scaleUpCooldown <= 120
    && 120 <= c.scaleDownCooldown <= 600
    && ClassifiedStepInRange(c, minReplicas, maxReplicas)
  }

  lemma {:induction false} WrittenRange(p: Option<Params>, accepted: bool, minReplicas: int32, maxReplicas: int32)
    requires AllInRange(p, minReplicas, maxReplicas)
    ensures var c := Written(p, accepted);
            c.Some? ==> ClassifiedInRange(c.value, minReplicas, maxReplicas)
  {}

  /** Whatever a worker writes about a load keeps the reconciler's cooldowns in [30, 120] and [120, 600] and its step
      between 1 and the replica range the worker was started with. */
  lemma {:induction false} WrittenParamsInRange(u: Setup, t: Turn)
    requires ValidSetup(u)
    requires t.samples.Some? ==> NonNegative(t.samples.value) && |t.samples.value| <= LARGEST_LOAD
    ensures var c := WrittenBy(u, t);
            c.Some? ==> ClassifiedInRange(c.value, u.minReplicas, u.maxReplicas)
  {
    if t.samples.Some? {
      ParamsForLoad(u, t.samples.value, t.startHourUTC, t.unspecified);
      WrittenRange(ParamsFor(u, t.samples.value, t.startHourUTC, t.unspecified), t.writeAccepted, u.minReplicas,
                   u.maxReplicas);
    }
  }

  // ---------------------------------------------------------------- deduplication

  /** The worker's stamp after the first `k` turns. */
  function LastBefore(turns: seq<Attempt>, k: nat, dedupSeconds: int): Option<int>
    requires k <= |turns|
  {
    if k == 0 then None else LastAfter(LastBefore(turns, k - 1, dedupSeconds), turns[k - 1], dedupSeconds)
  }

  predicate SucceedsAt(turns: seq<Attempt>, i: nat, dedupSeconds: int)
    requires i < |turns|
  {
    Succeeds(LastBefore(turns, i, dedupSeconds), turns[i], dedupSeconds)
  }

  ghost predicate ClockAdvances(turns: seq<Attempt>) {
    && (forall i :: 0 <= i < |turns| ==> turns[i].at <= turns[i].doneAt)
    && (forall i, j :: 0 <= i < j < |turns| ==> turns[i].doneAt <= turns[j].at)
  }

  lemma {:induction false} LastIsLatestSuccess(turns: seq<Attempt>, k: nat, dedupSeconds: int)
    requires ClockAdvances(turns) && k <= |turns|
    ensures var last := LastBefore(turns, k, dedupSeconds);
            && (last.Some? ==>
                  exists i :: 0 <= i < k && SucceedsAt(turns, i, dedupSeconds) && turns[i].doneAt == last.value)
            && (forall i :: 0 <= i < k && SucceedsAt(turns, i, dedupSeconds) ==>
                  last.Some? && turns[i].doneAt <= last.value)
  {
    if k > 0 {
      LastIsLatestSuccess(turns, k - 1, dedupSeconds);
      if SucceedsAt(turns, k - 1, dedupSeconds) {
        assert LastBefore(turns, k, dedupSeconds) == Some(turns[k - 1].doneAt);
      }
    }
  }

  /** Deduplication: a rollout signal is dropped exactly when some earlier classification succeeded within the
      dedup window, so every honoured one comes more than the window after all of them. */
  lemma {:induction false} DroppedIffRecent(turns: seq<Attempt>, j: nat, dedupSeconds: int)
    requires ClockAdvances(turns) && j < |turns| && turns[j].trigger.Generation?
    ensures !Runs(LastBefore(turns, j, dedupSeconds), turns[j], dedupSeconds)
            <==> exists i :: 0 <= i < j && SucceedsAt(turns, i, dedupSeconds)
                             && turns[j].at - turns[i].doneAt <= dedupSeconds * SECOND
  {
    LastIsLatestSuccess(turns, j, dedupSeconds);
  }
}
