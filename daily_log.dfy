/**
  The Daily Log page: the workouts and diet entries of a selected day, and the
  water intake, which is shown only when the selected day is today.
*/
module DailyLog {
  import opened Wrappers
  import opened CalendarDate
  import opened AppProvider

  /** `list.filter(x => isSameDay(x.date, day))`. */
  function OnDay<T>(s: seq<T>, dateOf: T -> string, day: string): (r: seq<T>)
    ensures |r| <= |s|
    ensures forall x :: x in r ==> x in s && IsSameDay(dateOf(x), day)
    ensures forall x :: x in s && IsSameDay(dateOf(x), day) ==> x in r
  {
    if s == [] then []
    else (if IsSameDay(dateOf(s[0]), day) then [s[0]] else []) + OnDay(s[1..], dateOf, day)
  }

  /** Filtering distributes over concatenation, so the kept entries stay in
      their original order. */
  lemma {:induction false} OnDayAppend<T>(a: seq<T>, b: seq<T>, dateOf: T -> string, day: string)
    ensures OnDay(a + b, dateOf, day) == OnDay(a, dateOf, day) + OnDay(b, dateOf, day)
  {
    if a == [] {
      assert a + b == b;
    } else {
      assert (a + b)[0] == a[0] && (a + b)[1..] == a[1..] + b;
      OnDayAppend(a[1..], b, dateOf, day);
    }
  }

  /** None dropped, none duplicated: an entry of the day occurs as often as in
      the list, any other entry not at all. */
  lemma {:induction false} OnDayCounts<T>(s: seq<T>, dateOf: T -> string, day: string, x: T)
    ensures multiset(OnDay(s, dateOf, day))[x] ==
            if IsSameDay(dateOf(x), day) then multiset(s)[x] else 0
  {
    if s != [] {
      OnDayCounts(s[1..], dateOf, day, x);
      assert s == [s[0]] + s[1..];
    }
  }

  /** Filtering a filtered list by the same day changes nothing. */
  lemma {:induction false} OnDayIdempotent<T>(s: seq<T>, dateOf: T -> string, day: string)
    ensures OnDay(OnDay(s, dateOf, day), dateOf, day) == OnDay(s, dateOf, day)
  {
    if s != [] {
      var head := if IsSameDay(dateOf(s[0]), day) then [s[0]] else [];
      OnDayAppend(head, OnDay(s[1..], dateOf, day), dateOf, day);
      OnDayIdempotent(s[1..], dateOf, day);
      assert OnDay(head, dateOf, day) == head by {
        if head != [] {
          assert head[1..] == [];
        }
      }
    }
  }

  function WorkoutDate(w: LoggedWorkout): string { w.date }
  function MealDate(m: LoggedMeal): string { m.date }

  /** What the page shows; `water` is `None` where it reads "Only tracked for today". */
  datatype LogView = LogView(workouts: seq<LoggedWorkout>, diet: seq<LoggedMeal>, water: Option<int>)

  /** `selectedDate === today`. */
  predicate IsToday(selected: string, nowIso: string) {
    selected == Today(nowIso)
  }

  function View(workouts: seq<LoggedWorkout>, diet: seq<LoggedMeal>, waterIntake: int,
                selected: string, nowIso: string): (v: LogView)
    ensures v.water.Some? <==> IsToday(selected, nowIso)
    ensures v.water.Some? ==> v.water.value == waterIntake
    ensures forall w :: w in v.workouts <==> w in workouts && IsSameDay(w.date, selected)
    ensures forall m :: m in v.diet <==> m in diet && IsSameDay(m.date, selected)
    ensures v.workouts == OnDay(workouts, WorkoutDate, selected)
    ensures v.diet == OnDay(diet, MealDate, selected)
  {
    LogView(OnDay(workouts, WorkoutDate, selected), OnDay(diet, MealDate, selected),
            if IsToday(selected, nowIso) then Some(waterIntake) else None)
  }

  /** The selected date starts as today, so the freshly opened page shows the water
      intake and today's entries. */
  function InitialSelection(nowIso: string): string {
    Today(nowIso)
  }

  lemma OpenedPageShowsToday(workouts: seq<LoggedWorkout>, diet: seq<LoggedMeal>,
                             waterIntake: int, nowIso: string)
    ensures View(workouts, diet, waterIntake, InitialSelection(nowIso), nowIso).water == Some(waterIntake)
    ensures InitialSelection(nowIso) == DatePart(nowIso)
  {
  }
}
