/** The main screen's derived values: the day shown, the grid of progress
    dots in whole 28-day cycles, and which dot is done or current. Today's
    date comes in as a parameter. */
module MainScreen {
  import opened Options
  import opened JsMath
  import opened DateFormat
  import opened DbService

  /** `userData.lastCompletedDate === getLocalDateString()`. */
  predicate IsAlreadyDoneToday(user: UserData, today: CalendarDate)
  {
    user.lastCompletedDate == Some(LocalDateString(today))
  }

  /** Comparing date strings compares days: a workout recorded on `recorded`
      counts as today's exactly when `recorded` is today, and only then does
      the screen show the day before `currentDayNumber`. */
  lemma DoneTodayIffSameDay(user: UserData, recorded: CalendarDate, today: CalendarDate)
    requires ValidDate(recorded) && ValidDate(today)
    requires user.lastCompletedDate == Some(LocalDateString(recorded))
    ensures IsAlreadyDoneToday(user, today) <==> recorded == today
    ensures ActiveDisplayDay(user, today) == user.currentDayNumber - 1 <==> recorded == today
    ensures ActiveDisplayDay(user, today) == if recorded == today then user.currentDayNumber - 1 else user.currentDayNumber
  {
    LocalDateStringInjective(recorded, today);
  }

  /** `activeDisplayDay`: after today's workout the day just done is shown,
      otherwise the day to do. */
  function ActiveDisplayDay(user: UserData, today: CalendarDate): int
  {
    if IsAlreadyDoneToday(user, today) then user.currentDayNumber - 1 else user.currentDayNumber
  }

  /** `Math.ceil(currentDayNumber / 28) * 28`: enough whole 28-day cycles to
      hold the current day. */
  function TotalDots(currentDayNumber: int): (n: int)
    ensures n % 28 == 0
    ensures currentDayNumber >= 1 ==> currentDayNumber <= n < currentDayNumber + 28
  {
    var totalCycles := CeilDiv(currentDayNumber, 28);
    totalCycles * 28
  }

  /** `activeDay`: the day to pulse, none once today is done. */
  function ActiveDay(user: UserData, today: CalendarDate): Option<int>
  {
    if IsAlreadyDoneToday(user, today) then None else Some(user.currentDayNumber)
  }

  datatype Dot = Dot(dayIdx: int, isCompleted: bool, isCurrent: bool)

  /** `dots`, built by `Array.from({ length: totalDots }, ...)`; a negative
      length makes an empty array. */
  function Dots(user: UserData, today: CalendarDate): (dots: seq<Dot>)
    ensures |dots| == Max(0, TotalDots(user.currentDayNumber))
    ensures forall i :: 0 <= i < |dots| ==> dots[i].dayIdx == i + 1
    ensures forall i :: 0 <= i < |dots| ==> (dots[i].isCompleted <==> i + 1 <= user.currentDayNumber - 1)
    ensures forall i :: 0 <= i < |dots| ==>
      (dots[i].isCurrent <==> !IsAlreadyDoneToday(user, today) && i + 1 == user.currentDayNumber)
  {
    var totalDots := TotalDots(user.currentDayNumber);
    var completedUntil := user.currentDayNumber - 1;
    var activeDay := ActiveDay(user, today);
    DotRow(Max(0, totalDots), completedUntil, activeDay)
  }

  /** The array of `n` dots for one completed-until day and one pulsing day. */
  function DotRow(n: nat, completedUntil: int, activeDay: Option<int>): (dots: seq<Dot>)
    ensures |dots| == n
    ensures forall i :: 0 <= i < n ==>
      dots[i].dayIdx == i + 1 && (dots[i].isCompleted <==> i + 1 <= completedUntil) &&
      (dots[i].isCurrent <==> activeDay == Some(i + 1))
  {
    seq(n, i => Dot(i + 1, i + 1 <= completedUntil, activeDay == Some(i + 1)))
  }

  function CountCompleted(dots: seq<Dot>): nat
  {
    if dots == [] then 0 else CountCompleted(dots[..|dots| - 1]) + (if dots[|dots| - 1].isCompleted then 1 else 0)
  }

  lemma {:induction false} CountCompletedPrefix(dots: seq<Dot>, k: nat)
    requires k <= |dots|
    requires forall i :: 0 <= i < |dots| ==> (dots[i].isCompleted <==> i < k)
    ensures CountCompleted(dots) == k
  {
    if dots != [] {
      var front := dots[..|dots| - 1];
      if k == |dots| {
        CountCompletedPrefix(front, k - 1);
      } else {
        CountCompletedPrefix(front, k);
      }
    }
  }

  /** The dots are numbered 1, 2, ... in order, and a dot is completed
      exactly when its day is before the current day, so there are
      `currentDayNumber - 1` completed dots. */
  lemma DotsCompleted(user: UserData, today: CalendarDate)
    requires user.currentDayNumber >= 1
    ensures var dots := Dots(user, today);
      (forall i :: 0 <= i < |dots| ==> dots[i].dayIdx == i + 1) &&
      (forall i :: 0 <= i < |dots| ==> (dots[i].isCompleted <==> dots[i].dayIdx <= user.currentDayNumber - 1)) &&
      CountCompleted(dots) == user.currentDayNumber - 1
  {
    var dots := Dots(user, today);
    CountCompletedPrefix(dots, user.currentDayNumber - 1);
  }

  /** At most one dot is current: the dot of the current day, unless today's
      workout is done; and a current dot is never a completed one. */
  lemma CurrentDot(user: UserData, today: CalendarDate)
    requires user.currentDayNumber >= 1
    ensures var dots := Dots(user, today);
      (forall i :: 0 <= i < |dots| ==>
        (dots[i].isCurrent <==> !IsAlreadyDoneToday(user, today) && i == user.currentDayNumber - 1)) &&
      (forall i :: 0 <= i < |dots| ==> !(dots[i].isCurrent && dots[i].isCompleted)) &&
      (forall i, j :: 0 <= i < |dots| && 0 <= j < |dots| && dots[i].isCurrent && dots[j].isCurrent ==> i == j) &&
      (!IsAlreadyDoneToday(user, today) ==>
        dots[user.currentDayNumber - 1].isCurrent && dots[user.currentDayNumber - 1].dayIdx == ActiveDisplayDay(user, today))
  {
  }

  /** Right after `completeWorkout` for day `currentDay` on date `today`, the
      main screen shows that day as done: the day number shown is the day
      trained, `currentDay` dots are completed and none is current; on any
      other date the same record does not count as done. */
  lemma ScreenAfterCompletion(user: UserData, currentDay: int, doneSets: seq<int>, today: CalendarDate, other: CalendarDate)
    requires currentDay >= 1 && (IsTestDay(currentDay) ==> |doneSets| >= 1)
    requires ValidDate(today) && ValidDate(other) && other != today
    ensures var v := MergeUser(user, CompletionUserPatch(user, currentDay, doneSets, LocalDateString(today)));
      var dots := Dots(v, today);
      IsAlreadyDoneToday(v, today) && ActiveDisplayDay(v, today) == currentDay &&
      CountCompleted(dots) == currentDay &&
      (forall i :: 0 <= i < |dots| ==> !dots[i].isCurrent) &&
      !IsAlreadyDoneToday(v, other) && ActiveDisplayDay(v, other) == currentDay + 1
  {
    var v := MergeUser(user, CompletionUserPatch(user, currentDay, doneSets, LocalDateString(today)));
    DotsCompleted(v, today);
    DoneTodayIffSameDay(v, today, other);
  }
}
