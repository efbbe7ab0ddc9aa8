/** The service layer: the documents kept per user, the rule that plans each
    day's workout, and the two write sequences that create a user and record a
    finished workout. The document store is reduced to two in-memory maps
    (`Store`); the clock and the local date come in as parameters. */
module DbService {
  import opened Options
  import opened JsMath
  import opened DateFormat

  /** A Firestore `Timestamp`, reduced to an opaque number supplied by the caller. */
  type Timestamp = int

  /** `"test" | "workout"`. */
  datatype WorkoutType = Test | Training

  /** The user document. `pushupsDone` is declared as a number, but the
      completion code reads it with `?? 0`, so a document without it is
      allowed for and reads as zero. */
  datatype UserData = UserData(
    phoneNumber: string,
    currentDayNumber: int,
    lastTestResult: int,
    startDate: Timestamp,
    lastCompletedDate: Option<string>,
    pushupsDone: Option<int>)

  /** A workout as the plan generator builds it. */
  datatype Workout = Workout(
    kind: WorkoutType,
    plannedSets: seq<int>,
    doneSets: Option<seq<int>>,
    isCompleted: bool,
    completedAt: Option<Timestamp>)

  /** A stored workout document. Every field may be absent, because a merge
      write to a key that holds no document creates one with only the fields
      that were supplied. */
  datatype WorkoutDoc = WorkoutDoc(
    kind: Option<WorkoutType>,
    plannedSets: Option<seq<int>>,
    doneSets: Option<seq<int>>,
    isCompleted: Option<bool>,
    completedAt: Option<Timestamp>)

  /** The fields a merge write to a user document supplies; `None` leaves a field as it is. */
  datatype UserPatch = UserPatch(
    phoneNumber: Option<string>,
    currentDayNumber: Option<int>,
    lastTestResult: Option<int>,
    startDate: Option<Timestamp>,
    lastCompletedDate: Option<string>,
    pushupsDone: Option<int>)

  /** The document a full write of `w` stores. */
  function ToDoc(w: Workout): WorkoutDoc
  {
    WorkoutDoc(Some(w.kind), Some(w.plannedSets), w.doneSets, Some(w.isCompleted), w.completedAt)
  }

  function Pick<T>(supplied: Option<T>, current: T): T
  {
    if supplied.Some? then supplied.value else current
  }

  function PickOpt<T>(supplied: Option<T>, current: Option<T>): Option<T>
  {
    if supplied.Some? then supplied else current
  }

  /** `setDoc(userRef, patch, { merge: true })` on an existing user document. */
  function MergeUser(u: UserData, p: UserPatch): UserData
  {
    UserData(
      Pick(p.phoneNumber, u.phoneNumber),
      Pick(p.currentDayNumber, u.currentDayNumber),
      Pick(p.lastTestResult, u.lastTestResult),
      Pick(p.startDate, u.startDate),
      PickOpt(p.lastCompletedDate, u.lastCompletedDate),
      PickOpt(p.pushupsDone, u.pushupsDone))
  }

  /** `setDoc(workoutRef, patch, { merge: true })`: onto the stored document,
      or creating one from the patch alone when there is none. */
  function MergeWorkout(stored: Option<WorkoutDoc>, p: WorkoutDoc): WorkoutDoc
  {
    match stored
    case None => p
    case Some(d) =>
      WorkoutDoc(
        PickOpt(p.kind, d.kind),
        PickOpt(p.plannedSets, d.plannedSets),
        PickOpt(p.doneSets, d.doneSets),
        PickOpt(p.isCompleted, d.isCompleted),
        PickOpt(p.completedAt, d.completedAt))
  }

  /** Merging the same patch twice changes nothing the first merge did not. */
  lemma MergeIdempotent(u: UserData, p: UserPatch, stored: Option<WorkoutDoc>, q: WorkoutDoc)
    ensures MergeUser(MergeUser(u, p), p) == MergeUser(u, p)
    ensures MergeWorkout(Some(MergeWorkout(stored, q)), q) == MergeWorkout(stored, q)
  {
  }

  /** The documents of the whole database, keyed by user id and by
      (user id, day number); the day number is the workout document's key. */
  class Store {
    var users: map<string, UserData>
    var workouts: map<(string, int), WorkoutDoc>

    constructor ()
      ensures users == map[] && workouts == map[]
    {
      users := map[];
      workouts := map[];
    }

    /** `getDoc(userRef)`. */
    method GetUser(uid: string) returns (u: Option<UserData>)
      ensures u.Some? <==> uid in users
      ensures u.Some? ==> u.value == users[uid]
    {
      u := if uid in users then Some(users[uid]) else None;
    }

    /** `setDoc(userRef, u)`: the whole document is replaced. */
    method SetUser(uid: string, u: UserData)
      modifies this`users
      ensures users == old(users)[uid := u]
    {
      users := users[uid := u];
    }

    /** `setDoc(userRef, p, { merge: true })` on an existing document. */
    method MergeUserDoc(uid: string, p: UserPatch)
      requires uid in users
      modifies this`users
      ensures users == old(users)[uid := MergeUser(old(users)[uid], p)]
    {
      users := users[uid := MergeUser(users[uid], p)];
    }

    /** `getDoc(workoutRef)`. */
    method GetWorkoutDoc(uid: string, day: int) returns (d: Option<WorkoutDoc>)
      ensures d == Lookup(workouts, uid, day)
    {
      d := Lookup(workouts, uid, day);
    }

    /** `setDoc(workoutRef, d)`: the whole document is replaced. */
    method SetWorkoutDoc(uid: string, day: int, d: WorkoutDoc)
      modifies this`workouts
      ensures workouts == old(workouts)[(uid, day) := d]
    {
      workouts := workouts[(uid, day) := d];
    }

    /** `setDoc(workoutRef, p, { merge: true })`. */
    method MergeWorkoutDoc(uid: string, day: int, p: WorkoutDoc)
      modifies this`workouts
      ensures workouts == old(workouts)[(uid, day) := MergeWorkout(Lookup(old(workouts), uid, day), p)]
    {
      workouts := workouts[(uid, day) := MergeWorkout(Lookup(workouts, uid, day), p)];
    }
  }

  function Lookup(workouts: map<(string, int), WorkoutDoc>, uid: string, day: int): (d: Option<WorkoutDoc>)
    ensures d.Some? <==> (uid, day) in workouts
    ensures d.Some? ==> d.value == workouts[(uid, day)]
  {
    if (uid, day) in workouts then Some(workouts[(uid, day)]) else None
  }

  // ---------------------------------------------------------------------------
  // Plan generation

  /** `(dayNumber - 1) % 28 === 0`: the days the fitness test falls on. For
      `dayNumber >= 1` JavaScript's remainder and Dafny's agree. */
  predicate IsTestDay(dayNumber: int)
  {
    (dayNumber - 1) % 28 == 0
  }

  /** `generateWorkoutPlan`: a test every 28 days, otherwise five sets built
      from half the last test result (at least 2) and the day of the week. */
  function GenerateWorkoutPlan(dayNumber: int, lastTestResult: int): (w: Workout)
    requires dayNumber >= 1
    ensures !w.isCompleted && w.doneSets == None && w.completedAt == None
    ensures w.kind == Test <==> IsTestDay(dayNumber)
    ensures w.kind == Test ==> w.plannedSets == [0]
    ensures w.kind == Training ==> |w.plannedSets| == 5
  {
    if IsTestDay(dayNumber) then
      Workout(Test, [0], None, false, None)
    else
      var base := Max(2, FloorDiv(lastTestResult, 2));
      var dayInWeekModifier := dayNumber % 7;
      Workout(Training, [base, base + 2, base, base, base + 4 + dayInWeekModifier], None, false, None)
  }

  /** The test falls on days 1, 29, 57, ...: exactly the days `28 * k + 1`. */
  lemma TestDaysEvery28(dayNumber: int)
    requires dayNumber >= 1
    ensures IsTestDay(dayNumber) <==> exists k: nat :: dayNumber == 28 * k + 1
  {
    forall k: nat
      ensures IsTestDay(28 * k + 1)
    {
      assert 28 * k + 1 - 1 == 28 * k + 0;
    }
    if IsTestDay(dayNumber) {
      var k: nat := (dayNumber - 1) / 28;
      assert dayNumber == 28 * k + 1;
    }
  }

  /** A training plan: five sets of at least 2, the base being half the last
      test result rounded down (never below 2, so half of `max(4, t)`), the
      second set two above it,
      the last set the largest, raised by the day of the week. */
  lemma TrainingPlanShape(dayNumber: int, lastTestResult: int)
    requires dayNumber >= 1 && !IsTestDay(dayNumber)
    ensures var s := GenerateWorkoutPlan(dayNumber, lastTestResult).plannedSets;
      |s| == 5 &&
      2 * s[0] <= Max(4, lastTestResult) < 2 * s[0] + 2 && s[0] >= 2 &&
      s[1] == s[0] + 2 && s[2] == s[0] && s[3] == s[0] &&
      s[4] == s[0] + 4 + dayNumber % 7 &&
      (forall i :: 0 <= i < 5 ==> s[i] >= 2) &&
      (forall i :: 0 <= i < 4 ==> s[i] < s[4])
  {
  }

  /** A better test never lowers any set of a training plan. */
  lemma PlanMonotoneInTestResult(dayNumber: int, t1: int, t2: int)
    requires dayNumber >= 1 && t1 <= t2
    ensures var s1, s2 := GenerateWorkoutPlan(dayNumber, t1).plannedSets, GenerateWorkoutPlan(dayNumber, t2).plannedSets;
      |s1| == |s2| && forall i :: 0 <= i < |s1| ==> s1[i] <= s2[i]
  {
  }

  // ---------------------------------------------------------------------------
  // Completion bookkeeping

  /** `doneSets.reduce((sum, v) => sum + v, 0)`, a left fold. */
  function Sum(s: seq<int>): int
  {
    if s == [] then 0 else Sum(s[..|s| - 1]) + s[|s| - 1]
  }

  lemma {:induction false} SumNonNegative(s: seq<int>)
    requires forall i :: 0 <= i < |s| ==> s[i] >= 0
    ensures Sum(s) >= 0
  {
    if s != [] {
      SumNonNegative(s[..|s| - 1]);
    }
  }

  /** `userData.pushupsDone ?? 0`. */
  function PushupsOrZero(u: UserData): int
  {
    if u.pushupsDone.Some? then u.pushupsDone.value else 0
  }

  /** `isTestDay ? doneSets[0] : userData.lastTestResult`. */
  function TestResultAfter(u: UserData, currentDay: int, doneSets: seq<int>): int
    requires IsTestDay(currentDay) ==> |doneSets| >= 1
  {
    if IsTestDay(currentDay) then doneSets[0] else u.lastTestResult
  }

  /** The merge written to the workout just finished. */
  function CompletionWorkoutPatch(doneSets: seq<int>, now: Timestamp): WorkoutDoc
  {
    WorkoutDoc(None, None, Some(doneSets), Some(true), Some(now))
  }

  /** The merge written to the user on completion. */
  function CompletionUserPatch(u: UserData, currentDay: int, doneSets: seq<int>, today: string): UserPatch
    requires IsTestDay(currentDay) ==> |doneSets| >= 1
  {
    UserPatch(None, Some(currentDay + 1), Some(TestResultAfter(u, currentDay, doneSets)), None,
              Some(today), Some(PushupsOrZero(u) + Sum(doneSets)))
  }

  /** The user documents after `uid` completes `currentDay` on date `today`. */
  function UsersAfterCompletion(users: map<string, UserData>, uid: string, currentDay: int,
                                doneSets: seq<int>, today: string): map<string, UserData>
    requires uid in users && (IsTestDay(currentDay) ==> |doneSets| >= 1)
  {
    users[uid := MergeUser(users[uid], CompletionUserPatch(users[uid], currentDay, doneSets, today))]
  }

  /** The workout documents after a completion: the finished day's document
      merged with the results, the next day's plan written in full. */
  function WorkoutsAfterCompletion(workouts: map<(string, int), WorkoutDoc>, uid: string, currentDay: int,
                                   doneSets: seq<int>, now: Timestamp, testResult: int): map<(string, int), WorkoutDoc>
    requires currentDay >= 1
  {
    workouts[(uid, currentDay) := MergeWorkout(Lookup(workouts, uid, currentDay), CompletionWorkoutPatch(doneSets, now))]
            [(uid, currentDay + 1) := ToDoc(GenerateWorkoutPlan(currentDay + 1, testResult))]
  }

  /** The user document after a completion: the next day, the test result
      taken from the first set on a test day and kept otherwise, today's
      date, and the lifetime total raised by this workout's reps; the phone
      number and start date stay as they were. */
  lemma CompletedUser(u: UserData, currentDay: int, doneSets: seq<int>, today: string)
    requires IsTestDay(currentDay) ==> |doneSets| >= 1
    ensures var v := MergeUser(u, CompletionUserPatch(u, currentDay, doneSets, today));
      v.currentDayNumber == currentDay + 1 &&
      v.lastTestResult == (if (currentDay - 1) % 28 == 0 then doneSets[0] else u.lastTestResult) &&
      v.lastCompletedDate == Some(today) &&
      v.pushupsDone == Some(PushupsOrZero(u) + Sum(doneSets)) &&
      v.phoneNumber == u.phoneNumber && v.startDate == u.startDate
  {
  }

  /** The lifetime total never falls when every set's reps are non-negative. */
  lemma PushupsNeverDecrease(u: UserData, currentDay: int, doneSets: seq<int>, today: string)
    requires IsTestDay(currentDay) ==> |doneSets| >= 1
    requires forall i :: 0 <= i < |doneSets| ==> doneSets[i] >= 0
    ensures PushupsOrZero(MergeUser(u, CompletionUserPatch(u, currentDay, doneSets, today))) >= PushupsOrZero(u)
  {
    SumNonNegative(doneSets);
  }

  /** The finished workout's document: completed, with the reps and the time,
      and its type and planned sets exactly as they were (absent if there was
      no document to merge into). */
  lemma CompletedWorkoutDoc(stored: Option<WorkoutDoc>, doneSets: seq<int>, now: Timestamp)
    ensures var d := MergeWorkout(stored, CompletionWorkoutPatch(doneSets, now));
      d.isCompleted == Some(true) && d.doneSets == Some(doneSets) && d.completedAt == Some(now) &&
      d.kind == (if stored.Some? then stored.value.kind else None) &&
      d.plannedSets == (if stored.Some? then stored.value.plannedSets else None)
  {
  }

  /** What the store keeps true for every user: the day counter is at least 1,
      and the workout stored under the current day is exactly the plan for
      that day from the user's last test result, still open. */
  ghost predicate Consistent(users: map<string, UserData>, workouts: map<(string, int), WorkoutDoc>)
  {
    forall uid :: uid in users ==>
      users[uid].currentDayNumber >= 1 &&
      Lookup(workouts, uid, users[uid].currentDayNumber)
        == Some(ToDoc(GenerateWorkoutPlan(users[uid].currentDayNumber, users[uid].lastTestResult)))
  }

  /** In a consistent store the current day's workout is open, and is a test
      exactly on a test day. */
  lemma CurrentWorkoutIsOpen(users: map<string, UserData>, workouts: map<(string, int), WorkoutDoc>, uid: string)
    requires Consistent(users, workouts) && uid in users
    ensures var day := users[uid].currentDayNumber;
      (uid, day) in workouts &&
      workouts[(uid, day)].isCompleted == Some(false) &&
      workouts[(uid, day)].doneSets == None &&
      (workouts[(uid, day)].kind == Some(Test) <==> (day - 1) % 28 == 0)
  {
  }

  /** Recording a completion keeps the store consistent: the user moves to
      the next day and the plan for that day is written beside it. */
  lemma CompletionKeepsConsistent(users: map<string, UserData>, workouts: map<(string, int), WorkoutDoc>,
                                  uid: string, currentDay: int, doneSets: seq<int>, now: Timestamp, today: string)
    requires Consistent(users, workouts) && uid in users
    requires currentDay >= 1 && (IsTestDay(currentDay) ==> |doneSets| >= 1)
    ensures Consistent(UsersAfterCompletion(users, uid, currentDay, doneSets, today),
                       WorkoutsAfterCompletion(workouts, uid, currentDay, doneSets, now,
                                               TestResultAfter(users[uid], currentDay, doneSets)))
  {
    var users' := UsersAfterCompletion(users, uid, currentDay, doneSets, today);
    var workouts' := WorkoutsAfterCompletion(workouts, uid, currentDay, doneSets, now,
                                             TestResultAfter(users[uid], currentDay, doneSets));
    forall v | v in users'
      ensures users'[v].currentDayNumber >= 1
      ensures Lookup(workouts', v, users'[v].currentDayNumber)
           == Some(ToDoc(GenerateWorkoutPlan(users'[v].currentDayNumber, users'[v].lastTestResult)))
    {
      if v != uid {
        assert users'[v] == users[v];
        assert Lookup(workouts', v, users[v].currentDayNumber) == Lookup(workouts, v, users[v].currentDayNumber);
      }
    }
  }

  /** Creating a user keeps the store consistent. */
  lemma CreationKeepsConsistent(users: map<string, UserData>, workouts: map<(string, int), WorkoutDoc>,
                                uid: string, phoneNumber: string, now: Timestamp)
    requires Consistent(users, workouts)
    ensures Consistent(users[uid := NewUser(phoneNumber, now)], workouts[(uid, 1) := ToDoc(GenerateWorkoutPlan(1, 0))])
  {
    var users' := users[uid := NewUser(phoneNumber, now)];
    var workouts' := workouts[(uid, 1) := ToDoc(GenerateWorkoutPlan(1, 0))];
    forall v | v in users'
      ensures users'[v].currentDayNumber >= 1
      ensures Lookup(workouts', v, users'[v].currentDayNumber)
           == Some(ToDoc(GenerateWorkoutPlan(users'[v].currentDayNumber, users'[v].lastTestResult)))
    {
      if v != uid {
        assert Lookup(workouts', v, users[v].currentDayNumber) == Lookup(workouts, v, users[v].currentDayNumber);
      }
    }
  }

  /** A new user: day 1, test result 0, no reps yet. */
  function NewUser(phoneNumber: string, now: Timestamp): UserData
  {
    UserData(phoneNumber, 1, 0, now, None, Some(0))
  }

  /** `getOrCreateUser`: an existing user is returned as stored and nothing is
      written; otherwise the new user is written, then the day-1 plan under
      key 1. */
  method GetOrCreateUser(db: Store, uid: string, phoneNumber: string, now: Timestamp) returns (u: UserData)
    modifies db
    ensures uid in old(db.users) ==>
      u == old(db.users)[uid] && db.users == old(db.users) && db.workouts == old(db.workouts)
    ensures uid !in old(db.users) ==>
      u == NewUser(phoneNumber, now) &&
      db.users == old(db.users)[uid := u] &&
      db.workouts == old(db.workouts)[(uid, 1) := ToDoc(GenerateWorkoutPlan(1, 0))]
    ensures old(Consistent(db.users, db.workouts)) ==> Consistent(db.users, db.workouts)
  {
    var snap := db.GetUser(uid);
    if snap.Some? {
      return snap.value;
    }
    var startDay := 1;
    var initialTestResult := 0;
    var newUser := UserData(phoneNumber, startDay, initialTestResult, now, None, Some(0));
    db.SetUser(uid, newUser);
    var firstWorkout := GenerateWorkoutPlan(startDay, initialTestResult);
    db.SetWorkoutDoc(uid, startDay, ToDoc(firstWorkout));
    u := newUser;
    if old(Consistent(db.users, db.workouts)) {
      CreationKeepsConsistent(old(db.users), old(db.workouts), uid, phoneNumber, now);
    }
  }

  /** A new user's first workout is the fitness test. */
  lemma FirstWorkoutIsTest(phoneNumber: string, now: Timestamp)
    ensures var u := NewUser(phoneNumber, now);
      u.currentDayNumber == 1 && u.lastTestResult == 0 && PushupsOrZero(u) == 0 &&
      GenerateWorkoutPlan(u.currentDayNumber, u.lastTestResult) == Workout(Test, [0], None, false, None)
  {
  }

  /** `getWorkout`: the stored document under that day, if any. */
  method GetWorkout(db: Store, uid: string, dayNumber: int) returns (w: Option<WorkoutDoc>)
    ensures w.Some? <==> (uid, dayNumber) in db.workouts
    ensures w.Some? ==> w.value == db.workouts[(uid, dayNumber)]
  {
    w := db.GetWorkoutDoc(uid, dayNumber);
  }

  /** Why `completeWorkout` stops: reading a field of the missing user
      document throws before anything is written. */
  datatype CompletionError = UserNotFound

  datatype Outcome = Pass | Fail(error: CompletionError)

  /** `completeWorkout`: marks the day's workout done, moves the user to the
      next day with the new totals, and writes the next day's plan. */
  method CompleteWorkout(db: Store, uid: string, currentDay: int, doneSets: seq<int>,
                         now: Timestamp, today: CalendarDate) returns (outcome: Outcome)
    requires currentDay >= 1
    requires IsTestDay(currentDay) ==> |doneSets| >= 1
    modifies db
    ensures uid !in old(db.users) ==>
      outcome == Fail(UserNotFound) && db.users == old(db.users) && db.workouts == old(db.workouts)
    ensures uid in old(db.users) ==> outcome == Pass
    ensures uid in old(db.users) ==>
      db.users == UsersAfterCompletion(old(db.users), uid, currentDay, doneSets, LocalDateString(today))
    ensures uid in old(db.users) ==>
      db.workouts == WorkoutsAfterCompletion(old(db.workouts), uid, currentDay, doneSets, now,
                                             TestResultAfter(old(db.users)[uid], currentDay, doneSets))
    ensures old(Consistent(db.users, db.workouts)) ==> Consistent(db.users, db.workouts)
  {
    var snap := db.GetUser(uid);
    if snap.None? {
      return Fail(UserNotFound);
    }
    var userData := snap.value;
    var testResult := TestResultAfter(userData, currentDay, doneSets);
    var todayString := LocalDateString(today);
    db.MergeWorkoutDoc(uid, currentDay, CompletionWorkoutPatch(doneSets, now));
    var nextDay := currentDay + 1;
    db.MergeUserDoc(uid, CompletionUserPatch(userData, currentDay, doneSets, todayString));
    db.SetWorkoutDoc(uid, nextDay, ToDoc(GenerateWorkoutPlan(nextDay, testResult)));
    outcome := Pass;
    if old(Consistent(db.users, db.workouts)) {
      CompletionKeepsConsistent(old(db.users), old(db.workouts), uid, currentDay, doneSets, now, todayString);
    }
  }

  /** The first test of a new user, recording 20 reps: day 2 follows with
      the plan built from half of 20. */
  lemma FirstTestScenario(phoneNumber: string, now: Timestamp, today: string)
    ensures var u := NewUser(phoneNumber, now);
      var v := MergeUser(u, CompletionUserPatch(u, 1, [20], today));
      v.currentDayNumber == 2 && v.lastTestResult == 20 && v.pushupsDone == Some(20) &&
      GenerateWorkoutPlan(2, v.lastTestResult).plannedSets == [10, 12, 10, 10, 16]
  {
  }
}
