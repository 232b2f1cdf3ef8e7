/**
  The Express server's route handlers over an in-memory stand-in for the
  MongoDB collections: an optional single user with nested goals, the workouts,
  the meals, and the table of daily records. Each handler is a method of
  `Store`; its contract gives the whole new state and the response body.
*/
module Server {
  import opened Wrappers
  import opened CalendarDate
  import opened DailyTable
  import opened Collections

  /** The four keys of the nested `goals` object. */
  datatype GoalKey = CaloriesGoal | StepsGoal | ActiveMinutesGoal | WaterGoal

  /** A goals object: a full one on a stored user, a partial one in a request body. */
  type Goals = map<GoalKey, int>

  /** The schema defaults of the goals. */
  const DefaultGoals: Goals :=
    map[CaloriesGoal := 2500, StepsGoal := 10000, ActiveMinutesGoal := 60, WaterGoal := 2500]

  ghost predicate GoalsComplete(g: Goals) {
    forall k: GoalKey :: k in g
  }

  /** A new user carries all four goals. */
  lemma DefaultGoalsComplete()
    ensures GoalsComplete(DefaultGoals)
  {
    forall k: GoalKey ensures k in DefaultGoals {
      match k
      case CaloriesGoal =>
      case StepsGoal =>
      case ActiveMinutesGoal =>
      case WaterGoal =>
    }
  }

  /** The merge law: `{ steps: 12000 }` over the defaults changes only the steps goal. */
  lemma MergeStepsIntoDefaults()
    ensures MergeGoals(DefaultGoals, map[StepsGoal := 12000]) ==
      map[CaloriesGoal := 2500, StepsGoal := 12000, ActiveMinutesGoal := 60, WaterGoal := 2500]
  {
  }

  /** `{ ...goals, ...body }`: keys in the body win, the others keep their value. */
  function MergeGoals(goals: Goals, body: Goals): (r: Goals)
    ensures r.Keys == goals.Keys + body.Keys
    ensures forall k :: k in body ==> r[k] == body[k]
    ensures forall k :: k in goals && k !in body ==> r[k] == goals[k]
  {
    goals + body
  }

  /** The user's profile fields; `None` is a field that is not set (or, in a
      request body, not supplied). */
  datatype Profile = Profile(
    name: Option<string>, email: Option<string>, goal: Option<string>,
    weight: Option<int>, height: Option<int>, age: Option<int>, gender: Option<string>)

  function Override<T>(prior: Option<T>, given: Option<T>): Option<T> {
    if given.Some? then given else prior
  }

  /** `Object.assign(user, body)`: every supplied field is overwritten. */
  function Assign(p: Profile, body: Profile): Profile {
    Profile(
      Override(p.name, body.name), Override(p.email, body.email), Override(p.goal, body.goal),
      Override(p.weight, body.weight), Override(p.height, body.height), Override(p.age, body.age),
      Override(p.gender, body.gender))
  }

  /** A body that supplies no field. */
  const NoFields := Profile(None, None, None, None, None, None, None)

  /** Sending the same fields again changes nothing more. */
  lemma AssignIdempotent(p: Profile, body: Profile)
    ensures Assign(Assign(p, body), body) == Assign(p, body)
  {
  }

  /** A supplied field takes the body's value; a field the body leaves out
      keeps the stored one. */
  lemma AssignEffect(p: Profile, body: Profile)
    ensures var r := Assign(p, body);
      && r.name == (if body.name.Some? then body.name else p.name)
      && r.email == (if body.email.Some? then body.email else p.email)
      && r.goal == (if body.goal.Some? then body.goal else p.goal)
      && r.weight == (if body.weight.Some? then body.weight else p.weight)
      && r.height == (if body.height.Some? then body.height else p.height)
      && r.age == (if body.age.Some? then body.age else p.age)
      && r.gender == (if body.gender.Some? then body.gender else p.gender)
  {
  }

  /** A body that supplies every field replaces the whole profile, whatever
      was stored before. */
  lemma AssignFullBody(p: Profile, q: Profile, body: Profile)
    requires body.name.Some? && body.email.Some? && body.goal.Some? && body.weight.Some?
    requires body.height.Some? && body.age.Some? && body.gender.Some?
    ensures Assign(p, body) == body && Assign(q, body) == body
  {
  }

  /** An empty body keeps every field. */
  lemma AssignNothing(p: Profile)
    ensures Assign(p, NoFields) == p
  {
  }

  datatype User = User(profile: Profile, goals: Goals)

  /** Request body of POST /api/workouts; a missing `date` defaults to now. */
  datatype WorkoutBody = WorkoutBody(
    kind: Option<string>, duration: Option<int>, calories: Option<int>, date: Option<int>)

  /** A stored workout: `id` stands for the document's ObjectId, `date` is in
      milliseconds since the epoch. */
  datatype Workout = Workout(
    id: nat, kind: Option<string>, duration: Option<int>, calories: Option<int>, date: int)

  function WorkoutId(w: Workout): nat { w.id }
  function WorkoutDate(w: Workout): int { w.date }

  /** Request body of POST /api/meals; a missing `date` defaults to now. */
  datatype MealBody = MealBody(
    name: Option<string>, calories: Option<int>, protein: Option<int>, date: Option<int>)

  datatype Meal = Meal(
    id: nat, name: Option<string>, calories: Option<int>, protein: Option<int>, date: int)

  function MealId(m: Meal): nat { m.id }
  function MealDate(m: Meal): int { m.date }

  /** The body of GET /api/data. */
  datatype Snapshot = Snapshot(
    user: Option<User>, workouts: seq<Workout>, meals: seq<Meal>, goals: Goals,
    waterIntake: int, steps: int, dailyStats: seq<DailyStat>)

  /** The 404 answer of POST /api/goals. */
  datatype HttpError = UserNotFound

  /** Steps credited per minute of workout. */
  const StepsPerMinute := 100

  /** `(workout.duration || 0) * 100`: a missing duration counts as 0. */
  function StepsEstimate(duration: Option<int>): int {
    duration.GetOr(0) * StepsPerMinute
  }

  /** `date ? date : today`: an absent or empty date means today. */
  function TargetDate(date: Option<string>, nowIso: string): string {
    if date.Some? && date.value != "" then date.value else Today(nowIso)
  }

  class Store {
    var user: Option<User>
    var workouts: seq<Workout>
    var meals: seq<Meal>
    var daily: seq<DailyStat>
    /** The next identity to hand out; every stored identity is below it. */
    var nextId: nat

    ghost predicate Valid()
      reads this
    {
      && (user.Some? ==> GoalsComplete(user.value.goals))
      && IdsUnique(workouts, WorkoutId) && IdsBelow(workouts, WorkoutId, nextId)
      && IdsUnique(meals, MealId) && IdsBelow(meals, MealId, nextId)
      && DatesUnique(daily)
    }

    constructor ()
      ensures Valid()
      ensures user == None && workouts == [] && meals == [] && daily == []
    {
      user, workouts, meals, daily, nextId := None, [], [], [], 0;
    }

    /** `DailyStat.findOne({ date })`, as the index of the record or -1. */
    method FindDaily(date: string) returns (i: int)
      ensures i == IndexOf(daily, date)
      ensures i >= 0 ==> daily[i].date == date
      ensures i == -1 <==> forall j :: 0 <= j < |daily| ==> daily[j].date != date
    {
      i := 0;
      while i < |daily|
        invariant 0 <= i <= |daily|
        invariant forall j :: 0 <= j < i ==> daily[j].date != date
      {
        if daily[i].date == date {
          IndexOfIs(daily, date, i);
          return;
        }
        i := i + 1;
      }
      i := -1;
    }

    /** `daily.save()` of a record found at `i` (or created, when `i` is -1). */
    method SaveDaily(i: int, rec: DailyStat)
      requires Valid()
      requires i == IndexOf(daily, rec.date)
      modifies this`daily
      ensures Valid()
      ensures daily == Put(old(daily), rec)
    {
      PutKeepsDatesUnique(daily, rec);
      if i >= 0 {
        daily := daily[i := rec];
      } else {
        daily := daily + [rec];
      }
    }

    /** GET /api/data. */
    method GetData(nowIso: string) returns (r: Snapshot)
      ensures r.user == user
      ensures r.goals == if user.Some? then user.value.goals else map[]
      ensures SortedDesc(r.workouts, WorkoutDate) && multiset(r.workouts) == multiset(workouts)
      ensures SortedDesc(r.meals, MealDate) && multiset(r.meals) == multiset(meals)
      ensures r.waterIntake == RecordFor(daily, Today(nowIso)).waterIntake
      ensures r.steps == RecordFor(daily, Today(nowIso)).steps
      ensures (forall j :: 0 <= j < |daily| ==> daily[j].date != Today(nowIso)) ==>
                r.waterIntake == 0 && r.steps == 0
      ensures r.dailyStats == daily
    {
      var i := FindDaily(Today(nowIso));
      var water, steps := 0, 0;
      if i >= 0 {
        water, steps := daily[i].waterIntake, daily[i].steps;
      }
      var goals: Goals := if user.Some? then user.value.goals else map[];
      r := Snapshot(user, SortDesc(workouts, WorkoutDate), SortDesc(meals, MealDate),
                    goals, water, steps, daily);
    }

    /** POST /api/user: create the user, or overwrite the supplied fields. */
    method PostUser(body: Profile) returns (u: User)
      requires Valid()
      modifies this
      ensures Valid()
      ensures old(user).None? ==> u == User(body, DefaultGoals)
      ensures old(user).Some? ==>
                u == User(Assign(old(user).value.profile, body), old(user).value.goals)
      ensures user == Some(u)
      ensures workouts == old(workouts) && meals == old(meals)
      ensures daily == old(daily) && nextId == old(nextId)
    {
      if user.None? {
        DefaultGoalsComplete();
        u := User(body, DefaultGoals);
      } else {
        u := user.value.(profile := Assign(user.value.profile, body));
      }
      user := Some(u);
    }

    /** POST /api/goals: merge the body into the goals, or 404 without a user. */
    method PostGoals(body: Goals) returns (r: Result<Goals, HttpError>)
      requires Valid()
      modifies this
      ensures Valid()
      ensures old(user).None? ==> r == Failure(UserNotFound) && user == None
      ensures old(user).Some? ==>
                && r == Success(MergeGoals(old(user).value.goals, body))
                && user == Some(old(user).value.(goals := MergeGoals(old(user).value.goals, body)))
      ensures workouts == old(workouts) && meals == old(meals)
      ensures daily == old(daily) && nextId == old(nextId)
    {
      if user.Some? {
        var goals := MergeGoals(user.value.goals, body);
        user := Some(user.value.(goals := goals));
        r := Success(goals);
      } else {
        r := Failure(UserNotFound);
      }
    }

    /** POST /api/workouts: store the workout and credit today's steps. */
    method PostWorkout(body: WorkoutBody, nowMillis: int, nowIso: string) returns (w: Workout)
      requires Valid()
      modifies this
      ensures Valid()
      ensures w == Workout(old(nextId), body.kind, body.duration, body.calories,
                           body.date.GetOr(nowMillis))
      ensures workouts == old(workouts) + [w]
      ensures daily == AddSteps(old(daily), Today(nowIso), StepsEstimate(body.duration))
      ensures user == old(user) && meals == old(meals) && nextId == old(nextId) + 1
    {
      w := Workout(nextId, body.kind, body.duration, body.calories, body.date.GetOr(nowMillis));
      workouts := workouts + [w];
      nextId := nextId + 1;
      var today := Today(nowIso);
      var i := FindDaily(today);
      var rec := if i >= 0 then daily[i] else Fresh(today);
      rec := rec.(steps := rec.steps + StepsEstimate(w.duration));
      SaveDaily(i, rec);
    }

    /** DELETE /api/workouts/:id: always `{ success: true }`. */
    method DeleteWorkout(id: nat) returns (success: bool)
      requires Valid()
      modifies this
      ensures Valid()
      ensures success
      ensures workouts == Without(old(workouts), WorkoutId, id)
      ensures user == old(user) && meals == old(meals)
      ensures daily == old(daily) && nextId == old(nextId)
    {
      var i := FindById(workouts, WorkoutId, id);
      if i < |workouts| {
        WithoutAt(workouts, WorkoutId, i);
        RemoveAtKeepsIds(workouts, WorkoutId, i, nextId);
        workouts := workouts[..i] + workouts[i + 1..];
      } else {
        WithoutAbsent(workouts, WorkoutId, id);
      }
      success := true;
    }

    /** POST /api/meals: store the meal. */
    method PostMeal(body: MealBody, nowMillis: int) returns (m: Meal)
      requires Valid()
      modifies this
      ensures Valid()
      ensures m == Meal(old(nextId), body.name, body.calories, body.protein,
                        body.date.GetOr(nowMillis))
      ensures meals == old(meals) + [m]
      ensures user == old(user) && workouts == old(workouts)
      ensures daily == old(daily) && nextId == old(nextId) + 1
    {
      m := Meal(nextId, body.name, body.calories, body.protein, body.date.GetOr(nowMillis));
      meals := meals + [m];
      nextId := nextId + 1;
    }

    /** DELETE /api/meals/:id: always `{ success: true }`. */
    method DeleteMeal(id: nat) returns (success: bool)
      requires Valid()
      modifies this
      ensures Valid()
      ensures success
      ensures meals == Without(old(meals), MealId, id)
      ensures user == old(user) && workouts == old(workouts)
      ensures daily == old(daily) && nextId == old(nextId)
    {
      var i := FindById(meals, MealId, id);
      if i < |meals| {
        WithoutAt(meals, MealId, i);
        RemoveAtKeepsIds(meals, MealId, i, nextId);
        meals := meals[..i] + meals[i + 1..];
      } else {
        WithoutAbsent(meals, MealId, id);
      }
      success := true;
    }

    /** POST /api/water: set the day's water intake absolutely. */
    method PostWater(amount: int, date: Option<string>, nowIso: string)
      returns (waterIntake: int, target: string)
      requires Valid()
      modifies this
      ensures Valid()
      ensures target == TargetDate(date, nowIso) && waterIntake == amount
      ensures daily == SetWater(old(daily), target, amount)
      ensures user == old(user) && workouts == old(workouts)
      ensures meals == old(meals) && nextId == old(nextId)
    {
      target := TargetDate(date, nowIso);
      var i := FindDaily(target);
      var rec := if i >= 0 then daily[i] else Fresh(target);
      rec := rec.(waterIntake := amount);
      SaveDaily(i, rec);
      waterIntake := rec.waterIntake;
    }

    /** POST /api/steps: set the day's step count absolutely. */
    method PostSteps(steps: int, date: Option<string>, nowIso: string)
      returns (stored: int, target: string)
      requires Valid()
      modifies this
      ensures Valid()
      ensures target == TargetDate(date, nowIso) && stored == steps
      ensures daily == SetSteps(old(daily), target, steps)
      ensures user == old(user) && workouts == old(workouts)
      ensures meals == old(meals) && nextId == old(nextId)
    {
      target := TargetDate(date, nowIso);
      var i := FindDaily(target);
      var rec := if i >= 0 then daily[i] else Fresh(target);
      rec := rec.(steps := steps);
      SaveDaily(i, rec);
      stored := rec.steps;
    }
  }

  /** Two identical water writes leave the store as one does. */
  method RepeatWater(store: Store, amount: int, date: Option<string>, nowIso: string)
    requires store.Valid()
    modifies store
    ensures store.Valid()
    ensures store.daily == SetWater(old(store.daily), TargetDate(date, nowIso), amount)
    ensures store.user == old(store.user) && store.workouts == old(store.workouts)
    ensures store.meals == old(store.meals) && store.nextId == old(store.nextId)
  {
    var _, d := store.PostWater(amount, date, nowIso);
    var _, _ := store.PostWater(amount, date, nowIso);
    SetWaterIdempotent(old(store.daily), d, amount);
  }

  /** Two identical step writes leave the store as one does: 8000 stays 8000. */
  method RepeatSteps(store: Store, steps: int, date: Option<string>, nowIso: string)
    requires store.Valid()
    modifies store
    ensures store.Valid()
    ensures store.daily == SetSteps(old(store.daily), TargetDate(date, nowIso), steps)
    ensures RecordFor(store.daily, TargetDate(date, nowIso)).steps == steps
    ensures store.user == old(store.user) && store.workouts == old(store.workouts)
    ensures store.meals == old(store.meals) && store.nextId == old(store.nextId)
  {
    var _, d := store.PostSteps(steps, date, nowIso);
    var _, _ := store.PostSteps(steps, date, nowIso);
    SetStepsIdempotent(old(store.daily), d, steps);
    PutThenRecordFor(old(store.daily), RecordFor(old(store.daily), d).(steps := steps));
  }
}
