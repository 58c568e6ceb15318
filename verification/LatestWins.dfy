/** The retryable loader hook (frontend/hooks/useRetryable.ts): of overlapping loads only the newest may set state. */
module LatestWins {
  import opened Wrappers

  datatype Result = Loaded(value: int) | Rejected(error: int)

  datatype Load = Running | Finished(result: Result)

  /** Load `k` of `loads` has run id `k + 1`; `applied` records the ids whose results were put into state, in order. */
  datatype Hook = Hook(runId: nat, data: Option<int>, error: Option<int>, loading: bool, loads: seq<Load>, applied: seq<nat>)

  function Mounted(immediate: bool): Hook { Hook(0, None, None, immediate, [], []) }

  /** `run()` up to its await. */
  function Start(h: Hook): Hook { h.(runId := h.runId + 1, loading := true, loads := h.loads + [Running]) }

  /** The rest of `run()`: state changes only if no newer run has started. */
  function Finish(h: Hook, id: nat, result: Result): Hook
    requires 1 <= id <= |h.loads|
  {
    var done := h.(loads := h.loads[id - 1 := Finished(result)]);
    if id != h.runId then done
    else
      match result
      case Loaded(value) => done.(data := Some(value), error := None, loading := false, applied := h.applied + [id])
      case Rejected(error) => done.(error := Some(error), loading := false, applied := h.applied + [id])
  }

  class RetryableHook {
    var runId: nat
    var data: Option<int>
    var error: Option<int>
    var loading: bool
    var loads: seq<Load>
    var applied: seq<nat>

    function View(): Hook
      reads this
    {
      Hook(runId, data, error, loading, loads, applied)
    }

    constructor (immediate: bool)
      ensures View() == Mounted(immediate)
    {
      runId, data, error, loading, loads, applied := 0, None, None, immediate, [], [];
    }

    method StartRun() returns (id: nat)
      modifies this
      ensures View() == Start(old(View())) && id == old(runId) + 1
    {
      runId := runId + 1;
      id := runId;
      loading := true;
      loads := loads + [Running];
    }

    method FinishRun(id: nat, result: Result)
      requires 1 <= id <= |loads|
      modifies this
      ensures View() == Finish(old(View()), id, result)
    {
      loads := loads[id - 1 := Finished(result)];
      if id == runId {
        match result {
          case Loaded(value) => data, error := Some(value), None;
          case Rejected(e) => error := Some(e);
        }
        applied := applied + [id];
      }
      if id == runId {
        loading := false;
      }
    }
  }

  datatype Step = StartStep | FinishStep(id: nat, result: Result) | Reset

  predicate Enabled(h: Hook, step: Step) {
    step.FinishStep? ==> 1 <= step.id <= |h.loads| && h.loads[step.id - 1].Running?
  }

  function Next(h: Hook, step: Step): Hook
    requires Enabled(h, step)
  {
    match step
    case StartStep => Start(h)
    case FinishStep(id, result) => Finish(h, id, result)
    case Reset => h.(error := None)
  }

  predicate ValidRun(h: Hook, steps: seq<Step>)
    decreases |steps|
  {
    steps == [] || (Enabled(h, steps[0]) && ValidRun(Next(h, steps[0]), steps[1..]))
  }

  function Run(h: Hook, steps: seq<Step>): Hook
    requires ValidRun(h, steps)
    decreases |steps|
  {
    if steps == [] then h else Run(Next(h, steps[0]), steps[1..])
  }

  predicate Increasing(ids: seq<nat>) { forall i, j :: 0 <= i < j < |ids| ==> ids[i] < ids[j] }

  /** What the newest load has come to. */
  function Newest(h: Hook): Load
    requires h.loads != []
  {
    h.loads[|h.loads| - 1]
  }

  function ErrorOf(result: Result): Option<int> { if result.Rejected? then Some(result.error) else None }

  predicate Inv(h: Hook) {
    && h.runId == |h.loads|
    && Increasing(h.applied)
    && (forall id :: id in h.applied ==> 1 <= id <= |h.loads| && h.loads[id - 1].Finished?)
    && (h.loads != [] ==> (h.loading <==> Newest(h).Running?))
    && (h.loads != [] && Newest(h).Finished? ==> h.applied != [] && h.applied[|h.applied| - 1] == h.runId)
    && (h.loads != [] && Newest(h).Finished? && Newest(h).result.Loaded? ==> h.data == Some(Newest(h).result.value))
  }

  /** The error shown is the newest load's, unless it was reset. */
  predicate ErrorIsNewest(h: Hook) {
    h.loads != [] && Newest(h).Finished? ==> h.error == ErrorOf(Newest(h).result)
  }

  /** The newest load finishes. */
  lemma NewestFinishes(h: Hook, result: Result)
    requires Inv(h) && h.loads != [] && Newest(h).Running?
    ensures var h' := Finish(h, h.runId, result);
            Inv(h') && h'.applied == h.applied + [h.runId] && h'.error == ErrorOf(result) && Newest(h') == Finished(result)
  {
    forall i | 0 <= i < |h.applied| ensures h.applied[i] < h.runId {
      assert h.applied[i] in h.applied;
    }
  }

  /** A load that is no longer the newest finishes. */
  lemma OlderFinishes(h: Hook, id: nat, result: Result)
    requires Inv(h) && 1 <= id < h.runId && h.loads[id - 1].Running?
    ensures Inv(Finish(h, id, result)) && Finish(h, id, result) == h.(loads := h.loads[id - 1 := Finished(result)])
  {
  }

  lemma StartKeepsInv(h: Hook)
    requires Inv(h)
    ensures Inv(Start(h)) && Newest(Start(h)).Running?
  {
  }

  lemma StepKeepsInv(h: Hook, step: Step)
    requires Inv(h) && Enabled(h, step)
    ensures Inv(Next(h, step))
    ensures ErrorIsNewest(h) && !step.Reset? ==> ErrorIsNewest(Next(h, step))
    ensures h.applied <= Next(h, step).applied
    ensures Next(h, step).applied != h.applied ==> step.FinishStep? && step.id == h.runId && Next(h, step).applied == h.applied + [step.id]
  {
    match step
    case StartStep => StartKeepsInv(h);
    case FinishStep(id, result) => if id == h.runId { NewestFinishes(h, result); } else { OlderFinishes(h, id, result); }
    case Reset =>
  }

  /**
   For any order in which overlapping loads finish: results are applied in increasing run order, each
   from the load that was newest when it finished; the hook is loading exactly while the newest load
   runs; and when that load is over, the error, and on success the data, are its own, however the
   older ones ended.
   */
  lemma {:induction false} LatestLoadWins(h: Hook, steps: seq<Step>)
    requires Inv(h) && ValidRun(h, steps)
    ensures Inv(Run(h, steps)) && h.applied <= Run(h, steps).applied
    ensures ErrorIsNewest(h) && Reset !in steps ==> ErrorIsNewest(Run(h, steps))
    decreases |steps|
  {
    if steps != [] {
      StepKeepsInv(h, steps[0]);
      LatestLoadWins(Next(h, steps[0]), steps[1..]);
    }
  }

  /** A load that starts, or an older one that finishes, leaves data and error on the screen as they are; a reset takes only the error. */
  lemma WhatStepsShow(h: Hook, step: Step)
    requires Inv(h) && Enabled(h, step)
    ensures var h' := Next(h, step);
            && (step.StartStep? ==> h'.data == h.data && h'.error == h.error && h'.loading)
            && (step.Reset? ==> h' == h.(error := None))
            && (step.FinishStep? && step.id < |h.loads| ==> h'.data == h.data && h'.error == h.error && h'.loading == h.loading)
            && (step.FinishStep? && step.id == |h.loads| ==> !h'.loading && h'.error == ErrorOf(step.result) &&
                                                             h'.data == if step.result.Loaded? then Some(step.result.value) else h.data)
  {
  }

  /** The value of the last load applied that was a success. */
  function LastSuccess(loads: seq<Load>, applied: seq<nat>): Option<int> {
    if applied == [] then None
    else
      var id := applied[|applied| - 1];
      if 1 <= id <= |loads| && loads[id - 1].Finished? && loads[id - 1].result.Loaded? then Some(loads[id - 1].result.value)
      else LastSuccess(loads, applied[..|applied| - 1])
  }

  lemma {:induction false} LastSuccessStays(loads: seq<Load>, later: seq<Load>, applied: seq<nat>)
    requires |loads| <= |later|
    requires forall i :: 0 <= i < |applied| ==> 1 <= applied[i] <= |loads| && later[applied[i] - 1] == loads[applied[i] - 1]
    ensures LastSuccess(later, applied) == LastSuccess(loads, applied)
  {
    if applied != [] {
      LastSuccessStays(loads, later, applied[..|applied| - 1]);
    }
  }

  predicate DataIsLastSuccess(h: Hook) { Inv(h) && h.data == LastSuccess(h.loads, h.applied) }

  lemma LastSuccessSnoc(loads: seq<Load>, applied: seq<nat>, id: nat)
    requires 1 <= id <= |loads| && loads[id - 1].Finished?
    ensures LastSuccess(loads, applied + [id]) ==
              if loads[id - 1].result.Loaded? then Some(loads[id - 1].result.value) else LastSuccess(loads, applied)
  {
    assert (applied + [id])[..|applied|] == applied;
  }

  lemma StepKeepsData(h: Hook, step: Step)
    requires DataIsLastSuccess(h) && Enabled(h, step)
    ensures DataIsLastSuccess(Next(h, step))
  {
    hide LastSuccess;
    StepKeepsInv(h, step);
    WhatStepsShow(h, step);
    var h' := Next(h, step);
    AppliedLoadsStay(h, step);
    LastSuccessStays(h.loads, h'.loads, h.applied);
    if step.FinishStep? && step.id == |h.loads| {
      LastSuccessSnoc(h'.loads, h.applied, step.id);
    }
    hide Inv;
  }

  lemma AppliedLoadsStay(h: Hook, step: Step)
    requires Inv(h) && Enabled(h, step)
    ensures var h' := Next(h, step);
            |h.loads| <= |h'.loads| && forall i :: 0 <= i < |h.applied| ==> 1 <= h.applied[i] <= |h.loads| && h'.loads[h.applied[i] - 1] == h.loads[h.applied[i] - 1]
  {
    forall i | 0 <= i < |h.applied| ensures 1 <= h.applied[i] <= |h.loads| && h.loads[h.applied[i] - 1].Finished? {
      assert h.applied[i] in h.applied;
    }
  }

  /** A failed load, even the newest, takes no data away: what is shown is always that of the last success applied. */
  lemma {:induction false} FailuresKeepData(h: Hook, steps: seq<Step>)
    requires DataIsLastSuccess(h) && ValidRun(h, steps)
    ensures DataIsLastSuccess(Run(h, steps))
    decreases |steps|
  {
    if steps != [] {
      StepKeepsData(h, steps[0]);
      FailuresKeepData(Next(h, steps[0]), steps[1..]);
    }
  }

  /** Confluence: two runs without reset that end with the same outcome of their newest loads show the same error, and the same data if that was a success. */
  lemma FinishOrderDoesNotMatter(immediate: bool, a: seq<Step>, b: seq<Step>)
    requires ValidRun(Mounted(immediate), a) && ValidRun(Mounted(immediate), b) && Reset !in a && Reset !in b
    requires Run(Mounted(immediate), a).loads != [] && Run(Mounted(immediate), b).loads != []
    requires Newest(Run(Mounted(immediate), a)).Finished? && Newest(Run(Mounted(immediate), a)) == Newest(Run(Mounted(immediate), b))
    ensures var x, y := Run(Mounted(immediate), a), Run(Mounted(immediate), b);
            && x.error == y.error && !x.loading && !y.loading
            && (Newest(x).result.Loaded? ==> x.data == y.data == Some(Newest(x).result.value))
  {
    LatestLoadWins(Mounted(immediate), a);
    LatestLoadWins(Mounted(immediate), b);
  }
}
