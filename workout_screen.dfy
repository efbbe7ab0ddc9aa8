/** The workout screen: the rest interval between sets and the set-by-set
    state the screen keeps while a workout is performed. React's asynchronous
    state updates are taken as happening in order, one handler at a time. */
module WorkoutScreen {
  import opened Options
  import opened JsMath
  import opened DbService

  const BASE_REST := 60
  const HARD_REST := 90
  const MAX_REST := 120

  /** `Math.max(lo, Math.min(hi, value))`. */
  function Clamp(value: int, lo: int, hi: int): (r: int)
    ensures lo <= hi ==> lo <= r <= hi
    ensures lo <= value <= hi ==> r == value
    ensures lo <= hi && value < lo ==> r == lo
    ensures lo <= hi && value > hi ==> r == hi
    ensures lo > hi ==> r == lo
  {
    Max(lo, Min(hi, value))
  }

  /** `calculateRestTime`: seconds of rest after a set with `plannedReps`
      targeted and `doneReps` done. */
  function CalculateRestTime(plannedReps: int, doneReps: int): (r: int)
    ensures BASE_REST <= r <= MAX_REST
    ensures doneReps >= 30 ==> r == HARD_REST
    ensures doneReps < 30 && doneReps > plannedReps ==> r <= HARD_REST
  {
    if doneReps >= 30 then
      HARD_REST
    else if doneReps < plannedReps then
      var deficit := plannedReps - doneReps;
      var extra := CeilDiv(deficit, 2) * 10;
      Clamp(BASE_REST + extra, BASE_REST, MAX_REST)
    else if doneReps == plannedReps then
      BASE_REST
    else
      var surplus := doneReps - plannedReps;
      var extra := Min(surplus * 5, 20);
      Clamp(BASE_REST + extra, BASE_REST, HARD_REST)
  }

  /** Falling short buys ten seconds per two missing reps (a lone missing
      rep counting as two), capped at two minutes. */
  lemma RestAfterShortfall(plannedReps: int, doneReps: int)
    requires doneReps < plannedReps && doneReps < 30
    ensures var r := CalculateRestTime(plannedReps, doneReps);
      r == Min(MAX_REST, BASE_REST + 10 * ((plannedReps - doneReps + 1) / 2)) && r >= 70
  {
  }

  /** Hitting the target exactly earns the base rest. */
  lemma RestOnTarget(reps: int)
    requires reps < 30
    ensures CalculateRestTime(reps, reps) == BASE_REST
  {
  }

  /** Beating the target adds five seconds per extra rep, at most twenty. */
  lemma RestAfterSurplus(plannedReps: int, doneReps: int)
    requires plannedReps < doneReps < 30
    ensures var r := CalculateRestTime(plannedReps, doneReps);
      r == BASE_REST + Min(5 * (doneReps - plannedReps), 20) && 65 <= r <= 80
  {
  }

  /** Among shortfalls, the closer to the target, the shorter the rest. */
  lemma ShortfallRestNonIncreasing(plannedReps: int, done1: int, done2: int)
    requires done1 <= done2 < plannedReps && done2 < 30
    ensures CalculateRestTime(plannedReps, done2) <= CalculateRestTime(plannedReps, done1)
  {
    RestAfterShortfall(plannedReps, done1);
    RestAfterShortfall(plannedReps, done2);
  }

  lemma RestExamples()
    ensures CalculateRestTime(10, 10) == 60
    ensures CalculateRestTime(10, 5) == 90
    ensures CalculateRestTime(10, 2) == 100
    ensures CalculateRestTime(10, 15) == 80
    ensures CalculateRestTime(50, 40) == 90
  {
  }

  datatype Step = Set | Rest

  /** The state of `WorkoutScreen` for one workout. */
  class Screen {
    const isTest: bool
    const sets: seq<int>
    var step: Step
    var currentSet: int
    var completedReps: seq<int>
    var restDuration: int

    /** The set on screen is a real set of the plan, and while resting the
        rest shown is the one computed for the set just finished. */
    ghost predicate Valid()
      reads this
    {
      0 <= currentSet && (|sets| > 0 ==> currentSet < |sets|) &&
      (step == Rest ==>
        !isTest && currentSet + 1 < |sets| && |completedReps| > 0 &&
        restDuration == CalculateRestTime(sets[currentSet], completedReps[|completedReps| - 1]))
    }

    constructor (workout: Workout)
      ensures Valid()
      ensures isTest == (workout.kind == Test) && sets == workout.plannedSets
      ensures step == Set && currentSet == 0 && completedReps == [] && restDuration == BASE_REST
    {
      isTest := workout.kind == Test;
      sets := workout.plannedSets;
      step := Set;
      currentSet := 0;
      completedReps := [];
      restDuration := BASE_REST;
    }

    /** `handleNext`: record the reps of the set on screen; a test or the
        last set hands every result so far to `onComplete` (returned here),
        any other set starts the rest its result calls for. */
    method HandleNext(repsDone: int) returns (onComplete: Option<seq<int>>)
      requires Valid() && step == Set
      modifies this
      ensures Valid()
      ensures completedReps == old(completedReps) + [repsDone] && currentSet == old(currentSet)
      ensures isTest || currentSet + 1 >= |sets| ==>
        onComplete == Some(completedReps) && step == Set && restDuration == old(restDuration)
      ensures !(isTest || currentSet + 1 >= |sets|) ==>
        onComplete == None && step == Rest && restDuration == CalculateRestTime(sets[currentSet], repsDone)
    {
      var newResults := completedReps + [repsDone];
      completedReps := newResults;

      if isTest || currentSet + 1 >= |sets| {
        return Some(newResults);
      }

      var planned := sets[currentSet];
      var rest := CalculateRestTime(planned, repsDone);

      restDuration := rest;
      step := Rest;
      onComplete := None;
    }

    /** `handleRestComplete`: on to the next set. */
    method HandleRestComplete()
      requires Valid() && step == Rest
      modifies this
      ensures Valid()
      ensures currentSet == old(currentSet) + 1 && step == Set
      ensures completedReps == old(completedReps) && restDuration == old(restDuration)
    {
      currentSet := currentSet + 1;
      step := Set;
    }
  }

  /** How many sets the user performs before the screen reports: one for a
      test, otherwise every planned set (one if the plan is empty). */
  function SessionLength(w: Workout): (n: nat)
    ensures n >= 1
    ensures w.kind == Test ==> n == 1
    ensures |w.plannedSets| == 0 ==> n == 1
    ensures w.kind == Training && |w.plannedSets| > 0 ==> n == |w.plannedSets|
  {
    if w.kind == Test || |w.plannedSets| == 0 then 1 else |w.plannedSets|
  }

  /** A whole session on the screen: the user confirms `reps[i]` for each set
      and lets every rest run out. The screen stays silent (`early`) until the
      last set, then reports exactly those results, in set order; after every
      set but the last it rests for the time `CalculateRestTime` gives for
      that set. */
  method RunSession(workout: Workout, reps: seq<int>)
    returns (early: seq<Option<seq<int>>>, results: seq<int>, rests: seq<int>)
    requires |reps| == SessionLength(workout)
    ensures |early| == |reps| - 1 && forall i :: 0 <= i < |early| ==> early[i] == None
    ensures results == reps
    ensures |rests| == |reps| - 1
    ensures forall i :: 0 <= i < |rests| ==> rests[i] == CalculateRestTime(workout.plannedSets[i], reps[i])
  {
    var screen := new Screen(workout);
    var n := |reps|;
    early := [];
    rests := [];
    var i := 0;
    while i < n - 1
      invariant 0 <= i <= n - 1
      invariant screen.Valid() && screen.step == Set && screen.currentSet == i
      invariant screen.isTest == (workout.kind == Test) && screen.sets == workout.plannedSets
      invariant screen.completedReps == reps[..i]
      invariant |early| == i && forall k :: 0 <= k < i ==> early[k] == None
      invariant |rests| == i
      invariant forall k :: 0 <= k < i ==> rests[k] == CalculateRestTime(workout.plannedSets[k], reps[k])
    {
      var report := screen.HandleNext(reps[i]);
      early := early + [report];
      rests := rests + [screen.restDuration];
      screen.HandleRestComplete();
      i := i + 1;
    }
    var report := screen.HandleNext(reps[n - 1]);
    assert reps[..n - 1] + [reps[n - 1]] == reps;
    results := report.value;
  }

  /** Every plan the generator makes yields a non-empty report: one result
      for a test, five for a training day. */
  lemma PlannedSessionLength(dayNumber: int, lastTestResult: int)
    requires dayNumber >= 1
    ensures var w := GenerateWorkoutPlan(dayNumber, lastTestResult);
      SessionLength(w) == (if (dayNumber - 1) % 28 == 0 then 1 else 5)
  {
  }
}
