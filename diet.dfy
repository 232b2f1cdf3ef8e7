/**
  The Diet page: a form with food, calories and date fields, whose "Add
  Meal" button appends an entry to the provider's diet list when all
  three fields are filled in, then clears food and calories.
*/
module DietPage {
  import opened CalendarDate
  import opened AppProvider
  import DailyLog

  datatype Form = Form(food: string, calories: string, date: string)

  /** `food && calories && date`: an empty string is falsy. */
  predicate Complete(f: Form) {
    f.food != "" && f.calories != "" && f.date != ""
  }

  function Entry(f: Form): LoggedMeal {
    LoggedMeal(f.food, f.calories, f.date)
  }

  /** `addMeal`: the new form and the new list. */
  function Submit(f: Form, list: seq<LoggedMeal>): (Form, seq<LoggedMeal>) {
    if Complete(f) then (f.(food := "", calories := ""), list + [Entry(f)]) else (f, list)
  }

  /** A complete form adds exactly one entry at the end, leaves the earlier
      entries alone, clears food and calories and keeps the date; an
      incomplete one changes nothing. */
  lemma SubmitEffect(f: Form, list: seq<LoggedMeal>)
    ensures var (f', list') := Submit(f, list);
      && (Complete(f) ==>
            && |list'| == |list| + 1 && list'[..|list|] == list && list'[|list|] == Entry(f)
            && f'.food == "" && f'.calories == "" && f'.date == f.date)
      && (!Complete(f) ==> f' == f && list' == list)
  {
  }

  /** Pressing the button again right after a successful add adds nothing. */
  lemma SubmitTwiceAddsOnce(f: Form, list: seq<LoggedMeal>)
    ensures var (f', list') := Submit(f, list);
      Submit(f', list') == (f', list')
  {
  }

  /** The new entry shows in the daily log of its own date and of no other. */
  lemma SubmitShowsOnItsDay(f: Form, list: seq<LoggedMeal>, day: string)
    ensures DailyLog.OnDay(Submit(f, list).1, DailyLog.MealDate, day) ==
      DailyLog.OnDay(list, DailyLog.MealDate, day) +
      (if Complete(f) && IsSameDay(f.date, day) then [Entry(f)] else [])
  {
    if Complete(f) {
      DailyLog.OnDayAppend(list, [Entry(f)], DailyLog.MealDate, day);
      assert [Entry(f)][1..] == [];
    }
  }

  class Page {
    var food: string
    var calories: string
    var date: string

    /** Food and calories start empty, the date as today. */
    constructor (nowIso: string)
      ensures food == "" && calories == "" && date == Today(nowIso)
    {
      food, calories, date := "", "", Today(nowIso);
    }

    method SetFood(s: string)
      modifies this`food
      ensures food == s
    {
      food := s;
    }

    method SetCalories(s: string)
      modifies this`calories
      ensures calories == s
    {
      calories := s;
    }

    method SetDate(s: string)
      modifies this`date
      ensures date == s
    {
      date := s;
    }

    method AddMeal(app: Provider)
      requires app.Mirrored()
      modifies this, app
      ensures app.Mirrored()
      ensures (Form(food, calories, date), app.diet) ==
              Submit(Form(old(food), old(calories), old(date)), old(app.diet))
      ensures app.user == old(app.user) && app.workouts == old(app.workouts)
      ensures app.waterIntake == old(app.waterIntake)
      ensures !Complete(Form(old(food), old(calories), old(date))) ==> app.storage == old(app.storage)
      ensures Complete(Form(old(food), old(calories), old(date))) ==>
                app.storage == old(app.storage)[DietKey := SavedDiet(app.diet)]
    {
      if food != "" && calories != "" && date != "" {
        app.SetDiet(app.diet + [LoggedMeal(food, calories, date)]);
        food := "";
        calories := "";
      }
    }
  }
}
