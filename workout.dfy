/**
  The Workout page: a form with type, duration and date fields, whose "Add
  Workout" button appends an entry to the provider's workout list when all
  three fields are filled in, then clears type and duration.
*/
module WorkoutPage {
  import opened CalendarDate
  import opened AppProvider
  import DailyLog

  datatype Form = Form(kind: string, duration: string, date: string)

  /** `type && duration && date`: an empty string is falsy. */
  predicate Complete(f: Form) {
    f.kind != "" && f.duration != "" && f.date != ""
  }

  function Entry(f: Form): LoggedWorkout {
    LoggedWorkout(f.kind, f.duration, f.date)
  }

  /** `addWorkout`: the new form and the new list. */
  function Submit(f: Form, list: seq<LoggedWorkout>): (Form, seq<LoggedWorkout>) {
    if Complete(f) then (f.(kind := "", duration := ""), list + [Entry(f)]) else (f, list)
  }

  /** A complete form adds exactly one entry at the end, leaves the earlier
      entries alone, clears type and duration and keeps the date; an
      incomplete one changes nothing. */
  lemma SubmitEffect(f: Form, list: seq<LoggedWorkout>)
    ensures var (f', list') := Submit(f, list);
      && (Complete(f) ==>
            && |list'| == |list| + 1 && list'[..|list|] == list && list'[|list|] == Entry(f)
            && f'.kind == "" && f'.duration == "" && f'.date == f.date)
      && (!Complete(f) ==> f' == f && list' == list)
  {
  }

  /** Pressing the button again right after a successful add adds nothing. */
  lemma SubmitTwiceAddsOnce(f: Form, list: seq<LoggedWorkout>)
    ensures var (f', list') := Submit(f, list);
      Submit(f', list') == (f', list')
  {
  }

  /** The new entry shows in the daily log of its own date and of no other. */
  lemma SubmitShowsOnItsDay(f: Form, list: seq<LoggedWorkout>, day: string)
    ensures DailyLog.OnDay(Submit(f, list).1, DailyLog.WorkoutDate, day) ==
      DailyLog.OnDay(list, DailyLog.WorkoutDate, day) +
      (if Complete(f) && IsSameDay(f.date, day) then [Entry(f)] else [])
  {
    if Complete(f) {
      DailyLog.OnDayAppend(list, [Entry(f)], DailyLog.WorkoutDate, day);
      assert [Entry(f)][1..] == [];
    }
  }

  class Page {
    var kind: string
    var duration: string
    var date: string

    /** Type and duration start empty, the date as today. */
    constructor (nowIso: string)
      ensures kind == "" && duration == "" && date == Today(nowIso)
    {
      kind, duration, date := "", "", Today(nowIso);
    }

    method SetKind(s: string)
      modifies this`kind
      ensures kind == s
    {
      kind := s;
    }

    method SetDuration(s: string)
      modifies this`duration
      ensures duration == s
    {
      duration := s;
    }

    method SetDate(s: string)
      modifies this`date
      ensures date == s
    {
      date := s;
    }

    method AddWorkout(app: Provider)
      requires app.Mirrored()
      modifies this, app
      ensures app.Mirrored()
      ensures (Form(kind, duration, date), app.workouts) ==
              Submit(Form(old(kind), old(duration), old(date)), old(app.workouts))
      ensures app.user == old(app.user) && app.diet == old(app.diet)
      ensures app.waterIntake == old(app.waterIntake)
      ensures !Complete(Form(old(kind), old(duration), old(date))) ==> app.storage == old(app.storage)
      ensures Complete(Form(old(kind), old(duration), old(date))) ==>
                app.storage == old(app.storage)[WorkoutsKey := SavedWorkouts(app.workouts)]
    {
      if kind != "" && duration != "" && date != "" {
        var newWorkout := LoggedWorkout(kind, duration, date);
        app.SetWorkouts(app.workouts + [newWorkout]);
        kind := "";
        duration := "";
      }
    }
  }
}
