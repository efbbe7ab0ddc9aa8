# Push-up training tracker: a Dafny model of its workout logic

This is a Dafny model of the workout logic of a small push-up training app.
The app plans each day's workout. Every 28th day is a fitness test with one
"as many reps as possible" set. Every other day has five sets sized from half
the last test result. While the user trains, the workout screen steps through
the sets and picks a rest after each one from how the set went. When the
workout is done, the service layer marks it completed and moves the user to
the next day. It adds the reps to a lifetime total and writes the next day's
plan. The main screen shows the current day and a grid of progress dots.

The model has six modules, one file each:

- `Options`: the `Option` datatype.
- `JsMath`: `Math.max`, `Math.min`, `Math.ceil(a / b)` and `Math.floor(a / b)` on integers.
- `DateFormat`: `getLocalDateString`, written once and used by both the service
  and the main screen. A parser that inverts it proves the format loses nothing.
- `DbService` (`lib/db-service.ts`):
  - the user and workout documents;
  - `generateWorkoutPlan`;
  - the reps sum;
  - `getOrCreateUser`, `getWorkout` and `completeWorkout`.

  These methods work over a `Store` class that holds the Firestore database as
  two maps, `uid → UserData` and `(uid, day) → WorkoutDoc`. The store has full
  writes and merge writes. A merge write overwrites only the fields it
  supplies. The store keeps an invariant (`Consistent`): each user's
  current-day workout is exactly the generator's plan for that day, still open.
- `WorkoutScreen` (`components/WorkoutScreen.tsx`):
  - `clamp` and `calculateRestTime`;
  - the screen's state as a class (`Screen`) with `HandleNext` and `HandleRestComplete`;
  - `RunSession`, a driver that plays a whole workout through the screen.
- `MainScreen` (`components/MainScreen.tsx`): the displayed day, the dot count
  and the per-dot completed/current flags.

Facts about the code that the model pins down:
- The generator plans `[b, b+2, b, b, b+4+day%7]` with
  `b = max(2, floor(lastTestResult/2))` (`DbService.TrainingPlanShape`).
- The test comes back every 28 days, on days 1, 29, 57, … (`DbService.TestDaysEvery28`).
- A shortfall of 5 reps on a set of 10 rests 90 s, and a surplus of 5 rests
  80 s (`WorkoutScreen.RestExamples`).
- There is no capacity estimate, set analysis, workout counter or extra daily
  session anywhere in the modelled code.

## Model

| member | source | states |
|---|---|---|
| `DateFormat.NatToString` | lib/db-service.ts:6-8 | `String(n)` is a non-empty string of decimal digits, a single digit exactly for n < 10 |
| `DateFormat.PadStart` | lib/db-service.ts:7-8 | `padStart(width, fill)`: the result is `max(len, width)` long and ends with the original string, with only fill characters before it |
| `DateFormat.DigitsValueOfNatToString` | lib/db-service.ts:6-8 | reading the decimal digits of `String(n)` gives back n |
| `DateFormat.TwoDigitsRoundTrip` | lib/db-service.ts:7-8 | a month or day below 100 padded to two digits is exactly two digits and reads back as itself |
| `DateFormat.ParseLocalDateString` | lib/db-service.ts:4-10 | the `YYYY-MM-DD` string of a valid date (month `getMonth()+1`, month and day zero-padded) parses back to that date |
| `DateFormat.FourDigitYearShape` | lib/db-service.ts:4-10 | for four-digit years the string is exactly 10 characters, with dashes at positions 4 and 7 and digits elsewhere |
| `DateFormat.LocalDateStringInjective` | components/MainScreen.tsx:9-15 | two valid dates give equal strings if and only if they are the same day |
| `DbService.GenerateWorkoutPlan` | lib/db-service.ts:83-107 | a new plan is never completed and has no results; it is a test exactly when `(day-1) % 28 == 0`; a test plans `[0]`, a training day five sets |
| `DbService.TestDaysEvery28` | lib/db-service.ts:87-88 | test days are exactly 1, 29, 57, …, the days `28k + 1` |
| `DbService.TrainingPlanShape` | lib/db-service.ts:91-100 | a training plan is `[b, b+2, b, b, b+4+day%7]` with b exactly `max(2, floor(lastTestResult/2))`, i.e. `2b ≤ max(4, lastTestResult) < 2b+2`; every set is ≥ 2 and the last is strictly the largest |
| `DbService.PlanMonotoneInTestResult` | lib/db-service.ts:91-100 | a higher last test result never lowers any planned set |
| `DbService.SumNonNegative` | lib/db-service.ts:131 | the `reduce` sum of non-negative reps is non-negative |
| `DbService.MergeIdempotent` | lib/db-service.ts:138-160 | applying the same merge write twice gives the same document as applying it once |
| `DbService.Store.GetUser` | lib/db-service.ts:33-38 | reading a user document finds it exactly when it is stored, and returns what is stored |
| `DbService.Store.SetUser` | lib/db-service.ts:51 | a full write replaces the user document and changes nothing else |
| `DbService.Store.MergeUserDoc` | lib/db-service.ts:151-160 | a merge write to a user changes only that user, and only the fields supplied |
| `DbService.Store.GetWorkoutDoc` | lib/db-service.ts:75-80 | reading a workout document returns what is stored under that key, if anything |
| `DbService.Store.SetWorkoutDoc` | lib/db-service.ts:163-166 | a full write replaces the workout document under that key and changes nothing else |
| `DbService.Store.MergeWorkoutDoc` | lib/db-service.ts:138-146 | a merge write keeps unsupplied fields of the stored document; with no stored document it creates one with only the supplied fields |
| `DbService.CompletedUser` | lib/db-service.ts:126-160 | after completion the user is on day `currentDay+1` with `lastCompletedDate` today. `lastTestResult` is `doneSets[0]` on a test day and unchanged otherwise. `pushupsDone` is the old value (missing read as 0) plus the sum of `doneSets`. Phone number and start date are unchanged |
| `DbService.PushupsNeverDecrease` | lib/db-service.ts:131-157 | with non-negative reps the lifetime total never decreases |
| `DbService.CompletedWorkoutDoc` | lib/db-service.ts:138-146 | the finished workout gets `isCompleted = true`, the results and `completedAt`; its type and planned sets stay as stored |
| `DbService.CompletionKeepsConsistent` | lib/db-service.ts:149-166 | after completion the key `currentDay+1` holds exactly `generateWorkoutPlan(currentDay+1, testResult)` and the user is on that day, so every user's current workout is still the plan for that day; other users are untouched |
| `DbService.CreationKeepsConsistent` | lib/db-service.ts:40-66 | creating a user (day 1, test result 0) together with workout `1` keeps every user's current workout equal to the plan for that day |
| `DbService.CurrentWorkoutIsOpen` | lib/db-service.ts:149-166 | in a consistent store each user's current-day workout exists, is not completed, has no results, and is a test exactly on a test day |
| `DbService.GetOrCreateUser` | lib/db-service.ts:29-69 | an existing user is returned unchanged with no writes; a new user is written with day 1, test result 0 and no reps, plus workout `1` from the generator. The store stays consistent |
| `DbService.FirstWorkoutIsTest` | lib/db-service.ts:40-56 | a new user's first plan is `{type: test, plannedSets: [0], isCompleted: false}` |
| `DbService.GetWorkout` | lib/db-service.ts:71-81 | returns the stored workout document for the day, or nothing if none is stored |
| `DbService.CompleteWorkout` | lib/db-service.ts:109-167 | missing user: fails before any write. Otherwise three writes: the day's workout merged with the results, the user merged with the new day, test result, date and total, and the next day's plan written in full. The store stays consistent |
| `DbService.FirstTestScenario` | lib/db-service.ts:126-166 | a new user who does 20 reps on the test moves to day 2 with test result 20 and total 20, and day 2 plans `[10, 12, 10, 10, 16]` |
| `WorkoutScreen.Clamp` | components/WorkoutScreen.tsx:17-18 | `clamp(v, lo, hi)` lies in [lo, hi] when lo ≤ hi, is v when v is already in range, the nearer bound otherwise, and lo when lo > hi |
| `WorkoutScreen.CalculateRestTime` | components/WorkoutScreen.tsx:20-39 | every rest lies in [60, 120]; 90 whenever done ≥ 30, whatever was planned; a surplus never rests more than 90 |
| `WorkoutScreen.RestAfterShortfall` | components/WorkoutScreen.tsx:25-29 | on a shortfall below 30 the rest is `min(120, 60 + 10*ceil((planned-done)/2))`, at least 70 |
| `WorkoutScreen.RestOnTarget` | components/WorkoutScreen.tsx:31-33 | hitting the target exactly (below 30) gives 60 |
| `WorkoutScreen.RestAfterSurplus` | components/WorkoutScreen.tsx:35-38 | a surplus below 30 gives `60 + min(5*(done-planned), 20)`, always in [65, 80] |
| `WorkoutScreen.ShortfallRestNonIncreasing` | components/WorkoutScreen.tsx:25-29 | on a shortfall, doing more reps never lengthens the rest |
| `WorkoutScreen.RestExamples` | components/WorkoutScreen.tsx:13-39 | (10,10)→60, (10,5)→90, (10,2)→100, (10,15)→80, (50,40)→90 |
| `WorkoutScreen.Screen.constructor` | components/WorkoutScreen.tsx:41-48 | the screen starts on set 0, step "set", no results, rest 60 |
| `WorkoutScreen.Screen.HandleNext` | components/WorkoutScreen.tsx:50-64 | appends exactly one rep count. A test or the final set reports all results so far and schedules no rest. Otherwise it enters "rest" with `calculateRestTime(sets[currentSet], reps)` |
| `WorkoutScreen.Screen.HandleRestComplete` | components/WorkoutScreen.tsx:66-69 | advances `currentSet` by one and returns to "set", leaving results and rest alone |
| `WorkoutScreen.SessionLength` | components/WorkoutScreen.tsx:47-54 | the screen reports after exactly one set for a test (or an empty plan), and after every planned set for a training plan |
| `WorkoutScreen.RunSession` | components/WorkoutScreen.tsx:50-69 | a workout played through the screen reports nothing before the last set, then exactly the reps entered, one per set, in set order. After every set but the last it rests for `calculateRestTime` of that set |
| `WorkoutScreen.PlannedSessionLength` | components/WorkoutScreen.tsx:47-56 | for generated plans, the screen reports one result on test days and five on training days; the results are therefore never empty |
| `MainScreen.DoneTodayIffSameDay` | components/MainScreen.tsx:9-28 | a workout recorded on a valid date counts as done today exactly when that date is today; the day shown is `currentDayNumber - 1` exactly then, and `currentDayNumber` on every other date |
| `MainScreen.TotalDots` | components/MainScreen.tsx:30-31 | the dot count is a multiple of 28, at least `currentDayNumber` and less than `currentDayNumber + 28` |
| `MainScreen.Dots` | components/MainScreen.tsx:33-44 | one dot per unit of `totalDots` (none when it is negative); dot i is day i+1, completed exactly when that day is ≤ `currentDayNumber - 1`, current exactly when it is `currentDayNumber` and today's workout is not done |
| `MainScreen.DotsCompleted` | components/MainScreen.tsx:33-44 | dots are numbered 1..n in order; a dot is completed exactly when its day is ≤ `currentDayNumber - 1`, so `currentDayNumber - 1` dots are completed |
| `MainScreen.CurrentDot` | components/MainScreen.tsx:34-44 | at most one dot is current. It is the dot of `currentDayNumber`, shown as the displayed day, unless training is done today, in which case none is. A current dot is never completed |
| `MainScreen.ScreenAfterCompletion` | components/MainScreen.tsx:21-44 | after `completeWorkout` today, the screen shows the day just trained, that many completed dots and no current dot; on any other date the same record shows the next day |

`DateFormat.LocalDateString` (the model of `getLocalDateString`) is covered by the rows of `DateFormat.ParseLocalDateString`, `DateFormat.FourDigitYearShape` and `DateFormat.LocalDateStringInjective`. `MainScreen.ActiveDisplayDay` is covered by the row of `MainScreen.DoneTodayIffSameDay`.

## Left out

- Firestore I/O (`getDoc`, `setDoc`), `Timestamp.now()` and `new Date()`. The store is two in-memory maps. The time and the local calendar date are parameters.
- Store failures and the non-transactional ordering of the three completion writes. Every write is taken to succeed.
- `DbService.GenerateWorkoutPlan`: days below 1 are excluded by its precondition. For them JavaScript's remainder (which truncates) and Dafny's (Euclidean) differ. Every write sets the day to 1 or to `currentDay + 1` with `currentDay >= 1`, so it stays at least 1, which `Consistent` keeps. Nothing checks `currentDay` against the stored day.
- `DbService.CompleteWorkout`: on a test day it requires at least one result. `doneSets[0]` on an empty list is `undefined`, and what the store then does depends on settings in `lib/firebase.ts`. `lib/firebase.ts` is not part of this model. Its only caller is the workout screen's `onComplete` callback in `app/page.tsx` (lines 83-91), which passes the screen's results under a different argument list. The workout screen always reports at least one result (`WorkoutScreen.RunSession`, `WorkoutScreen.PlannedSessionLength`).
- A user document without `lastTestResult`, `currentDayNumber` or `phoneNumber` is not modelled. `UserData` always has them, as every write path creates them. Only `pushupsDone` may be missing, matching the `?? 0` fallback.
- The year is a natural number. Negative years, whose `String()` has a sign, are not modelled.
- `WorkoutScreen.Screen`: React's asynchronous state updates are taken as applied in order, one handler at a time. `onComplete` is modelled as the value `HandleNext` returns. Nothing stops `HandleNext` being called again after it has reported, just as the component does not stop it.
- Rendering, the rest timer's animation, the reps drawer, the push button and the sign-in screen are UI, timing and floating point, and are not modelled. `app/page.tsx` calls `completeWorkout` with a different argument list and reads fields `UserData` does not define, so it is not modelled.
- Reps are unbounded integers, and the rounded divisions are modelled as integer divisions. At the sizes involved, `Math.floor(x * 0.5)`, `Math.ceil(deficit / 2)` and `Math.ceil(n / 28)` give the exact integer floor or ceiling, even though `n / 28` itself is not exact in floating point.
