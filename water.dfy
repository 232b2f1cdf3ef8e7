/**
  The Water page: three buttons change the provider's `waterIntake` (+250 ml,
  +500 ml, reset to 0). The page's own date field is for display only.
*/
module WaterPage {
  import opened CalendarDate
  import opened AppProvider

  datatype Button = Add250 | Add500 | Reset

  /** The intake after one button press. */
  function Pressed(intake: int, b: Button): int {
    match b
    case Add250 => intake + 250
    case Add500 => intake + 500
    case Reset => 0
  }

  /** The intake after pressing `bs` in order. */
  function PressAll(intake: int, bs: seq<Button>): int {
    if bs == [] then intake else Pressed(PressAll(intake, bs[..|bs| - 1]), bs[|bs| - 1])
  }

  /** The millilitres the `+` buttons in `bs` add up to. */
  function Added(bs: seq<Button>): nat {
    if bs == [] then 0
    else Added(bs[..|bs| - 1]) + (match bs[|bs| - 1] case Add250 => 250 case Add500 => 500 case Reset => 0)
  }

  /** Without a reset, the intake is the starting intake plus what the buttons add. */
  lemma {:induction false} PressesAdd(intake: int, bs: seq<Button>)
    requires Reset !in bs
    ensures PressAll(intake, bs) == intake + Added(bs)
  {
    if bs != [] {
      var init := bs[..|bs| - 1];
      assert Reset !in init by {
        forall k | 0 <= k < |init| ensures init[k] != Reset {
          assert init[k] == bs[k];
        }
      }
      PressesAdd(intake, init);
    }
  }

  /** Starting from a non-negative intake, no sequence of presses makes it negative. */
  lemma {:induction false} PressesKeepNonNegative(intake: int, bs: seq<Button>)
    requires intake >= 0
    ensures PressAll(intake, bs) >= 0
  {
    if bs != [] {
      PressesKeepNonNegative(intake, bs[..|bs| - 1]);
    }
  }

  /** After a reset, the earlier history no longer matters. */
  lemma {:induction false} ResetForgetsHistory(i: int, j: int, before: seq<Button>, after: seq<Button>)
    ensures PressAll(i, before + [Reset] + after) == PressAll(j, [Reset] + after)
  {
    if after == [] {
      assert (before + [Reset] + after)[..|before + [Reset] + after| - 1] == before;
      assert ([Reset] + after)[..|[Reset] + after| - 1] == [];
    } else {
      var init := after[..|after| - 1];
      assert (before + [Reset] + after)[..|before + [Reset] + after| - 1] == before + [Reset] + init;
      assert ([Reset] + after)[..|[Reset] + after| - 1] == [Reset] + init;
      ResetForgetsHistory(i, j, before, init);
    }
  }

  class Page {
    var date: string

    constructor (nowIso: string)
      ensures date == Today(nowIso)
    {
      date := Today(nowIso);
    }

    /** Picking a date changes only the page's own field: the provider is not
        in the frame, so the intake cannot change. */
    method SetDate(d: string)
      modifies this
      ensures date == d
    {
      date := d;
    }

    /** `addWater(ml)`: `setWaterIntake(prev => prev + ml)`. */
    method AddWater(app: Provider, ml: int)
      requires app.Mirrored()
      modifies app
      ensures app.Mirrored()
      ensures app.waterIntake == old(app.waterIntake) + ml
      ensures app.user == old(app.user) && app.workouts == old(app.workouts) && app.diet == old(app.diet)
      ensures app.storage == old(app.storage)[WaterKey := SavedNumber(app.waterIntake)]
    {
      app.SetWaterIntake(app.waterIntake + ml);
    }

    /** One of the three buttons. */
    method Press(app: Provider, b: Button)
      requires app.Mirrored()
      modifies app
      ensures app.Mirrored()
      ensures app.waterIntake == Pressed(old(app.waterIntake), b)
      ensures app.user == old(app.user) && app.workouts == old(app.workouts) && app.diet == old(app.diet)
      ensures app.storage == old(app.storage)[WaterKey := SavedNumber(app.waterIntake)]
    {
      match b
      case Add250 => AddWater(app, 250);
      case Add500 => AddWater(app, 500);
      case Reset => app.SetWaterIntake(0);
    }
  }
}
