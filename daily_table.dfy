/**
  The server's `DailyStat` collection: one record per calendar date holding the
  water intake and the step count of that day. The route handlers look a record
  up by date and create it with the schema defaults when there is none
  (find-or-create), change one field, and save it. This module gives that
  table as values; `Server.Store` keeps it in a field and updates it in place.
*/
module DailyTable {

  datatype DailyStat = DailyStat(date: string, waterIntake: int, steps: int)

  /** A record as `new DailyStat({ date })` creates it: both counters default to 0. */
  function Fresh(date: string): (r: DailyStat)
    ensures r.date == date && r.waterIntake == 0 && r.steps == 0
  {
    DailyStat(date, 0, 0)
  }

  /** At most one record per date. */
  ghost predicate DatesUnique(t: seq<DailyStat>) {
    forall i, j :: 0 <= i < j < |t| ==> t[i].date != t[j].date
  }

  /** `findOne({ date })`: the index of the first record for `date`, or -1. */
  function IndexOf(t: seq<DailyStat>, date: string): (r: int)
    ensures -1 <= r < |t|
    ensures r >= 0 ==> t[r].date == date && forall j :: 0 <= j < r ==> t[j].date != date
    ensures r == -1 ==> forall j :: 0 <= j < |t| ==> t[j].date != date
  {
    if t == [] then -1
    else if t[0].date == date then 0
    else
      var k := IndexOf(t[1..], date);
      if k == -1 then -1 else k + 1
  }

  /** The record a handler works on: the stored one, or a fresh one. */
  function RecordFor(t: seq<DailyStat>, date: string): (r: DailyStat)
    ensures r.date == date
    ensures r in t || r == Fresh(date)
    ensures IndexOf(t, date) >= 0 ==> r == t[IndexOf(t, date)]
  {
    var i := IndexOf(t, date);
    if i >= 0 then t[i] else Fresh(date)
  }

  /** `daily.save()`: the record replaces the stored one for its date, or is added. */
  function Put(t: seq<DailyStat>, r: DailyStat): seq<DailyStat> {
    var i := IndexOf(t, r.date);
    if i >= 0 then t[i := r] else t + [r]
  }

  /** POST /water: the water intake of `date` becomes `amount`. */
  function SetWater(t: seq<DailyStat>, date: string, amount: int): seq<DailyStat> {
    Put(t, RecordFor(t, date).(waterIntake := amount))
  }

  /** POST /steps: the step count of `date` becomes `steps`. */
  function SetSteps(t: seq<DailyStat>, date: string, steps: int): seq<DailyStat> {
    Put(t, RecordFor(t, date).(steps := steps))
  }

  /** POST /workouts: the step count of `date` grows by `delta`. */
  function AddSteps(t: seq<DailyStat>, date: string, delta: int): seq<DailyStat> {
    var r := RecordFor(t, date);
    Put(t, r.(steps := r.steps + delta))
  }

  /** Saving never creates a second record for a date: the table grows only when
      the date was missing, and stays free of duplicates. */
  lemma PutKeepsDatesUnique(t: seq<DailyStat>, r: DailyStat)
    requires DatesUnique(t)
    ensures DatesUnique(Put(t, r))
    ensures |Put(t, r)| == if IndexOf(t, r.date) >= 0 then |t| else |t| + 1
  {
  }

  /** After saving, looking the date up finds the saved record. */
  lemma PutThenRecordFor(t: seq<DailyStat>, r: DailyStat)
    ensures RecordFor(Put(t, r), r.date) == r
  {
    var i := IndexOf(t, r.date);
    var t' := Put(t, r);
    if i >= 0 {
      assert t'[i] == r;
      assert forall j :: 0 <= j < i ==> t'[j] == t[j];
      IndexOfIs(t', r.date, i);
    } else {
      IndexOfIs(t', r.date, |t|);
    }
  }

  /** Saving one date's record leaves every other date's record as it was. */
  lemma PutKeepsOthers(t: seq<DailyStat>, r: DailyStat, date: string)
    requires date != r.date
    ensures RecordFor(Put(t, r), date) == RecordFor(t, date)
  {
    var t' := Put(t, r);
    var k := IndexOf(t, date);
    if k >= 0 {
      assert t'[k] == t[k];
      IndexOfIs(t', date, k);
    } else {
      assert forall j :: 0 <= j < |t'| ==> t'[j].date != date;
      assert IndexOf(t', date) == -1;
    }
  }

  /** Saving the same record twice is saving it once. */
  lemma PutIdempotent(t: seq<DailyStat>, r: DailyStat)
    ensures Put(Put(t, r), r) == Put(t, r)
  {
    var i := IndexOf(t, r.date);
    var t' := Put(t, r);
    if i >= 0 {
      assert forall j :: 0 <= j < i ==> t'[j] == t[j];
      IndexOfIs(t', r.date, i);
    } else {
      IndexOfIs(t', r.date, |t|);
    }
  }

  lemma {:induction false} IndexOfIs(t: seq<DailyStat>, date: string, i: int)
    requires 0 <= i < |t| && t[i].date == date
    requires forall j :: 0 <= j < i ==> t[j].date != date
    ensures IndexOf(t, date) == i
  {
    if i > 0 {
      IndexOfIs(t[1..], date, i - 1);
    }
  }

  /** The water handler sets the day's water absolutely and keeps its steps. */
  lemma SetWaterEffect(t: seq<DailyStat>, date: string, amount: int)
    ensures RecordFor(SetWater(t, date, amount), date).waterIntake == amount
    ensures RecordFor(SetWater(t, date, amount), date).steps == RecordFor(t, date).steps
    ensures forall other :: other != date ==> RecordFor(SetWater(t, date, amount), other) == RecordFor(t, other)
  {
    PutThenRecordFor(t, RecordFor(t, date).(waterIntake := amount));
    forall other | other != date
      ensures RecordFor(Put(t, RecordFor(t, date).(waterIntake := amount)), other) == RecordFor(t, other)
    {
      PutKeepsOthers(t, RecordFor(t, date).(waterIntake := amount), other);
    }
  }

  /** Repeating a water write with the same arguments changes nothing more. */
  lemma SetWaterIdempotent(t: seq<DailyStat>, date: string, amount: int)
    ensures SetWater(SetWater(t, date, amount), date, amount) == SetWater(t, date, amount)
  {
    var r := RecordFor(t, date).(waterIntake := amount);
    PutThenRecordFor(t, r);
    PutIdempotent(t, r);
  }

  /** The steps handler sets the day's steps absolutely and keeps its water. */
  lemma SetStepsEffect(t: seq<DailyStat>, date: string, steps: int)
    ensures RecordFor(SetSteps(t, date, steps), date).steps == steps
    ensures RecordFor(SetSteps(t, date, steps), date).waterIntake == RecordFor(t, date).waterIntake
    ensures forall other :: other != date ==> RecordFor(SetSteps(t, date, steps), other) == RecordFor(t, other)
  {
    PutThenRecordFor(t, RecordFor(t, date).(steps := steps));
    forall other | other != date
      ensures RecordFor(Put(t, RecordFor(t, date).(steps := steps)), other) == RecordFor(t, other)
    {
      PutKeepsOthers(t, RecordFor(t, date).(steps := steps), other);
    }
  }

  /** Repeating a steps write with the same arguments changes nothing more. */
  lemma SetStepsIdempotent(t: seq<DailyStat>, date: string, steps: int)
    ensures SetSteps(SetSteps(t, date, steps), date, steps) == SetSteps(t, date, steps)
  {
    var r := RecordFor(t, date).(steps := steps);
    PutThenRecordFor(t, r);
    PutIdempotent(t, r);
  }

  /** The workout handler adds to the day's steps and keeps its water. */
  lemma AddStepsEffect(t: seq<DailyStat>, date: string, delta: int)
    ensures RecordFor(AddSteps(t, date, delta), date).steps == RecordFor(t, date).steps + delta
    ensures RecordFor(AddSteps(t, date, delta), date).waterIntake == RecordFor(t, date).waterIntake
    ensures forall other :: other != date ==> RecordFor(AddSteps(t, date, delta), other) == RecordFor(t, other)
  {
    var r := RecordFor(t, date);
    PutThenRecordFor(t, r.(steps := r.steps + delta));
    forall other | other != date
      ensures RecordFor(Put(t, r.(steps := r.steps + delta)), other) == RecordFor(t, other)
    {
      PutKeepsOthers(t, r.(steps := r.steps + delta), other);
    }
  }

  /** A date with no record reads as zero water and zero steps. */
  lemma MissingDateReadsZero(t: seq<DailyStat>, date: string)
    requires forall j :: 0 <= j < |t| ==> t[j].date != date
    ensures RecordFor(t, date) == DailyStat(date, 0, 0)
  {
  }
}
