/**
  The client's state holder (`AppProvider`): four state slices with their
  defaults, a load step that restores a slice from the browser's key-value
  store only when the saved value is truthy, and a write-through mirror that
  stores every slice under its key whenever it changes. The store is a map
  from key to a saved value; JSON text is abstracted to the value it encodes.
*/
module AppProvider {

  /** An entry of the workout list as the Workout page creates it (form text). */
  datatype LoggedWorkout = LoggedWorkout(kind: string, duration: string, date: string)

  /** An entry of the diet list as the Diet page creates it (form text). */
  datatype LoggedMeal = LoggedMeal(food: string, calories: string, date: string)

  /** The client-side user: field name to form text. */
  type UserRecord = map<string, string>

  const DefaultUser: UserRecord := map["name" := "", "age" := "", "height" := "", "weight" := ""]

  /** `user.name`, with a missing field read as the empty string. */
  function NameOf(u: UserRecord): string {
    if "name" in u then u["name"] else ""
  }

  /** What `JSON.parse(localStorage.getItem(key))` yields: `null` for a missing
      key, or the value that was stored. */
  datatype Saved =
    | SavedNull
    | SavedNumber(n: int)
    | SavedUser(user: UserRecord)
    | SavedWorkouts(workouts: seq<LoggedWorkout>)
    | SavedDiet(diet: seq<LoggedMeal>)

  /** JavaScript truthiness: `null` and `0` are falsy; objects and arrays,
      even empty ones, are truthy. */
  predicate Truthy(v: Saved) {
    match v
    case SavedNull => false
    case SavedNumber(n) => n != 0
    case _ => true
  }

  const UserKey := "user"
  const WorkoutsKey := "workouts"
  const DietKey := "diet"
  const WaterKey := "waterIntake"

  function Read(storage: map<string, Saved>, key: string): Saved {
    if key in storage then storage[key] else SavedNull
  }

  /** `if (savedUser) setUser(savedUser)`, starting from the default. */
  function LoadUser(v: Saved): UserRecord {
    if Truthy(v) && v.SavedUser? then v.user else DefaultUser
  }

  function LoadWorkouts(v: Saved): seq<LoggedWorkout> {
    if Truthy(v) && v.SavedWorkouts? then v.workouts else []
  }

  function LoadDiet(v: Saved): seq<LoggedMeal> {
    if Truthy(v) && v.SavedDiet? then v.diet else []
  }

  function LoadWater(v: Saved): int {
    if Truthy(v) && v.SavedNumber? then v.n else 0
  }

  /** The load rule: a falsy or missing value leaves the default in place; a
      saved object or array (always truthy) is restored as saved. */
  lemma LoadRule(v: Saved)
    ensures !Truthy(v) ==>
      LoadUser(v) == DefaultUser && LoadWorkouts(v) == [] && LoadDiet(v) == [] && LoadWater(v) == 0
    ensures v.SavedUser? ==> LoadUser(v) == v.user
    ensures v.SavedWorkouts? ==> LoadWorkouts(v) == v.workouts
    ensures v.SavedDiet? ==> LoadDiet(v) == v.diet
    ensures v.SavedNumber? && v.n != 0 ==> LoadWater(v) == v.n
  {
  }

  /** A saved water intake of 0 is falsy and not restored, yet the state is 0
      all the same, so every saved slice reloads to the value that was saved. */
  lemma ReloadRestoresSaved(u: UserRecord, ws: seq<LoggedWorkout>, ds: seq<LoggedMeal>, water: int)
    ensures !Truthy(SavedNumber(0)) && LoadWater(SavedNumber(0)) == 0
    ensures LoadUser(SavedUser(u)) == u && LoadWorkouts(SavedWorkouts(ws)) == ws
    ensures LoadDiet(SavedDiet(ds)) == ds && LoadWater(SavedNumber(water)) == water
  {
  }

  class Provider {
    var user: UserRecord
    var workouts: seq<LoggedWorkout>
    var diet: seq<LoggedMeal>
    var waterIntake: int
    /** The browser's key-value store. */
    var storage: map<string, Saved>

    /** Every slice is stored, serialised, under its own key. */
    ghost predicate Mirrored()
      reads this
    {
      && Read(storage, UserKey) == SavedUser(user)
      && Read(storage, WorkoutsKey) == SavedWorkouts(workouts)
      && Read(storage, DietKey) == SavedDiet(diet)
      && Read(storage, WaterKey) == SavedNumber(waterIntake)
    }

    /** Mounting the provider over the store `saved`: defaults, then the load
        step, then the four save effects. */
    constructor (saved: map<string, Saved>)
      ensures user == LoadUser(Read(saved, UserKey))
      ensures workouts == LoadWorkouts(Read(saved, WorkoutsKey))
      ensures diet == LoadDiet(Read(saved, DietKey))
      ensures waterIntake == LoadWater(Read(saved, WaterKey))
      ensures storage == saved[UserKey := SavedUser(user)][WorkoutsKey := SavedWorkouts(workouts)]
                              [DietKey := SavedDiet(diet)][WaterKey := SavedNumber(waterIntake)]
      ensures Mirrored()
    {
      var u: UserRecord := DefaultUser;
      var ws: seq<LoggedWorkout> := [];
      var ds: seq<LoggedMeal> := [];
      var water := 0;
      var savedUser := Read(saved, UserKey);
      var savedWorkouts := Read(saved, WorkoutsKey);
      var savedDiet := Read(saved, DietKey);
      var savedWater := Read(saved, WaterKey);
      if Truthy(savedUser) && savedUser.SavedUser? { u := savedUser.user; }
      if Truthy(savedWorkouts) && savedWorkouts.SavedWorkouts? { ws := savedWorkouts.workouts; }
      if Truthy(savedDiet) && savedDiet.SavedDiet? { ds := savedDiet.diet; }
      if Truthy(savedWater) && savedWater.SavedNumber? { water := savedWater.n; }
      user, workouts, diet, waterIntake := u, ws, ds, water;
      storage := saved[UserKey := SavedUser(u)][WorkoutsKey := SavedWorkouts(ws)]
                      [DietKey := SavedDiet(ds)][WaterKey := SavedNumber(water)];
    }

    method SetUser(u: UserRecord)
      requires Mirrored()
      modifies this
      ensures Mirrored()
      ensures user == u
      ensures workouts == old(workouts) && diet == old(diet) && waterIntake == old(waterIntake)
      ensures storage == old(storage)[UserKey := SavedUser(u)]
    {
      user := u;
      storage := storage[UserKey := SavedUser(u)];
    }

    method SetWorkouts(ws: seq<LoggedWorkout>)
      requires Mirrored()
      modifies this
      ensures Mirrored()
      ensures workouts == ws
      ensures user == old(user) && diet == old(diet) && waterIntake == old(waterIntake)
      ensures storage == old(storage)[WorkoutsKey := SavedWorkouts(ws)]
    {
      workouts := ws;
      storage := storage[WorkoutsKey := SavedWorkouts(ws)];
    }

    method SetDiet(ds: seq<LoggedMeal>)
      requires Mirrored()
      modifies this
      ensures Mirrored()
      ensures diet == ds
      ensures user == old(user) && workouts == old(workouts) && waterIntake == old(waterIntake)
      ensures storage == old(storage)[DietKey := SavedDiet(ds)]
    {
      diet := ds;
      storage := storage[DietKey := SavedDiet(ds)];
    }

    method SetWaterIntake(water: int)
      requires Mirrored()
      modifies this
      ensures Mirrored()
      ensures waterIntake == water
      ensures user == old(user) && workouts == old(workouts) && diet == old(diet)
      ensures storage == old(storage)[WaterKey := SavedNumber(water)]
    {
      waterIntake := water;
      storage := storage[WaterKey := SavedNumber(water)];
    }
  }

  /** Reopening the app over the store a provider wrote gives back its state. */
  method Reopen(p: Provider) returns (q: Provider)
    requires p.Mirrored()
    ensures q.user == p.user && q.workouts == p.workouts
    ensures q.diet == p.diet && q.waterIntake == p.waterIntake
  {
    q := new Provider(p.storage);
  }
}
