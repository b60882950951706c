/** The progress overlay of src/components/ProcessingTracker.tsx: four
    fixed steps that are marked processing and then completed one after
    another on timers, and reset when the overlay is hidden. Time is the
    field `elapsed`, in milliseconds; each timer callback is a method. */
module ProcessingTracker {
  import opened Seqs

  datatype Status = Pending | Processing | Completed

  /** A processing step; `stepLabel` is the step's `label` (a reserved word
      in Dafny), its duration is in milliseconds. */
  datatype Step = Step(id: string, stepLabel: string, duration: nat, status: Status)

  const InitialSteps: seq<Step> := [
    Step("analyzing", "Analyzing destination preferences", 2000, Pending),
    Step("activities", "Finding amazing activities", 3000, Pending),
    Step("accommodations", "Selecting perfect accommodations", 2500, Pending),
    Step("optimizing", "Optimizing your itinerary", 2000, Pending)
  ]

  /** The pause between one step's completion and the next step. */
  const StepGap: nat := 300

  /** The delay before `onComplete` after the last step. */
  const CompleteDelay: nat := 500

  predicate IsCompleted(s: Step)
  {
    s.status == Completed
  }

  /** `steps.filter(step => step.status === 'completed').length`. */
  function CompletedSteps(steps: seq<Step>): nat
  {
    Count(steps, IsCompleted)
  }

  /** The statuses while step `k` runs: the earlier ones completed, `k`
      processing, the later ones pending. */
  predicate RunningAt(steps: seq<Step>, k: nat)
  {
    forall i :: 0 <= i < |steps| ==>
      steps[i].status == (if i < k then Completed else if i == k then Processing else Pending)
  }

  /** The statuses when the first `m` steps are done and no step runs. */
  predicate DoneUpTo(steps: seq<Step>, m: nat)
  {
    forall i :: 0 <= i < |steps| ==> steps[i].status == (if i < m then Completed else Pending)
  }

  /** While step `k` runs, `k` steps count as completed. */
  lemma CompletedWhileRunning(steps: seq<Step>, k: nat)
    requires RunningAt(steps, k) && k < |steps|
    ensures CompletedSteps(steps) == k
  {
    CountPrefix(steps, IsCompleted, k);
  }

  /** With the first `m` steps done, `m` count as completed (all of them
      once `m` reaches the number of steps). */
  lemma CompletedWhenDone(steps: seq<Step>, m: nat)
    requires DoneUpTo(steps, m)
    ensures CompletedSteps(steps) == if m < |steps| then m else |steps|
  {
    CountPrefix(steps, IsCompleted, m);
  }

  /** The summed durations of `steps`. */
  function TotalDuration(steps: seq<Step>): nat
  {
    if steps == [] then 0 else steps[0].duration + TotalDuration(steps[1..])
  }

  lemma {:induction false} TotalDurationAppend(steps: seq<Step>, s: Step)
    ensures TotalDuration(steps + [s]) == TotalDuration(steps) + s.duration
  {
    if steps == [] {
      assert steps + [s] == [s];
    } else {
      assert (steps + [s])[1..] == steps[1..] + [s];
      TotalDurationAppend(steps[1..], s);
    }
  }

  class Tracker {
    var steps: seq<Step>
    var currentStep: nat
    /** The effect's running index (`currentStepIndex`). */
    var stepIndex: nat
    var elapsed: nat
    /** `onComplete` has been scheduled. */
    var completionScheduled: bool

    /** The steps are always the four fixed ones; only statuses change. */
    predicate Valid()
      reads this
    {
      |steps| == |InitialSteps|
      && forall i :: 0 <= i < |steps| ==> steps[i].(status := Pending) == InitialSteps[i]
    }

    constructor ()
      ensures Valid() && steps == InitialSteps && DoneUpTo(steps, 0)
      ensures currentStep == 0 && stepIndex == 0 && elapsed == 0 && !completionScheduled
    {
      steps := InitialSteps;
      currentStep := 0;
      stepIndex := 0;
      elapsed := 0;
      completionScheduled := false;
    }

    /** The effect while the overlay is hidden: back to the first step,
        every step pending. */
    method Hide()
      requires Valid()
      modifies this`steps, this`currentStep
      ensures Valid() && DoneUpTo(steps, 0) && currentStep == 0
    {
      var before := steps;
      steps := seq(|before|, i requires 0 <= i < |before| => before[i].(status := Pending));
      currentStep := 0;
    }

    /** `processStep`: past the last step every step is completed and
        `onComplete`, when given, is scheduled; otherwise the current
        step is marked processing and shown. */
    method ProcessStep(hasOnComplete: bool)
      requires Valid()
      modifies this`steps, this`currentStep, this`completionScheduled
      ensures Valid()
      ensures stepIndex >= |steps| ==>
        DoneUpTo(steps, |steps|) && currentStep == old(currentStep)
        && completionScheduled == (old(completionScheduled) || hasOnComplete)
      ensures stepIndex < |steps| ==>
        RunningAt(steps, stepIndex) && currentStep == stepIndex && completionScheduled == old(completionScheduled)
    {
      var k := stepIndex;
      if k >= |steps| {
        var before := steps;
        steps := seq(|before|, i requires 0 <= i < |before| => before[i].(status := Completed));
        if hasOnComplete {
          completionScheduled := true;
        }
        return;
      }
      var before := steps;
      steps := seq(|before|, i requires 0 <= i < |before| =>
        before[i].(status := if i == k then Processing else if i < k then Completed else Pending));
      currentStep := k;
    }

    /** The step's timer and the pause after it: steps up to the current
        one are completed and the index moves on. */
    method StepTimeout()
      requires Valid() && stepIndex < |steps|
      modifies this`steps, this`stepIndex, this`elapsed
      ensures Valid() && DoneUpTo(steps, old(stepIndex) + 1)
      ensures stepIndex == old(stepIndex) + 1
      ensures elapsed == old(elapsed) + InitialSteps[old(stepIndex)].duration + StepGap
    {
      var k := stepIndex;
      elapsed := elapsed + steps[k].duration + StepGap;
      var before := steps;
      steps := seq(|before|, i requires 0 <= i < |before| => before[i].(status := if i <= k then Completed else Pending));
      stepIndex := k + 1;
    }

    /** The whole chain of timers from the moment the overlay is shown:
        every step runs in order, all end completed, and it takes the
        steps' durations plus one pause per step. */
    method Run(hasOnComplete: bool)
      requires Valid()
      modifies this`steps, this`currentStep, this`stepIndex, this`elapsed, this`completionScheduled
      ensures Valid() && DoneUpTo(steps, |steps|) && CompletedSteps(steps) == |steps|
      ensures currentStep == |steps| - 1 && stepIndex == |steps|
      ensures elapsed == old(elapsed) + TotalDuration(InitialSteps) + StepGap * |InitialSteps|
      ensures completionScheduled == (old(completionScheduled) || hasOnComplete)
    {
      stepIndex := 0;
      while stepIndex < |steps|
        invariant Valid() && stepIndex <= |steps|
        invariant elapsed == old(elapsed) + TotalDuration(InitialSteps[..stepIndex]) + StepGap * stepIndex
        invariant stepIndex > 0 ==> currentStep == stepIndex - 1
        invariant completionScheduled == old(completionScheduled)
        decreases |steps| - stepIndex
      {
        ProcessStep(hasOnComplete);
        ghost var k := stepIndex;
        StepTimeout();
        assert InitialSteps[..k + 1] == InitialSteps[..k] + [InitialSteps[k]];
        TotalDurationAppend(InitialSteps[..k], InitialSteps[k]);
      }
      assert InitialSteps[..stepIndex] == InitialSteps;
      ProcessStep(hasOnComplete);
      CompletedWhenDone(steps, |steps|);
    }
  }

  /** The chain takes 9500 ms of steps and 1200 ms of pauses; `onComplete`
      follows half a second later. */
  lemma ChainDuration()
    ensures TotalDuration(InitialSteps) + StepGap * |InitialSteps| + CompleteDelay == 11200
  {
  }
}
