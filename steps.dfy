/**
  The Steps page. Its local value `localSteps` is the text of the number input
  (a number the page stores is held as its decimal rendering, which is what the
  input shows and what `parseInt` reads back). `stats.steps`, `goals.steps` and
  `updateSteps` come from the surrounding context: the first two are
  parameters, and the values passed to `updateSteps` are recorded in `sent`.
*/
module StepsPage {

  predicate IsDigit(c: char) { '0' <= c <= '9' }

  predicate IsDigits(s: string) {
    |s| > 0 && forall i :: 0 <= i < |s| ==> IsDigit(s[i])
  }

  function DigitsValue(s: string): nat
    requires forall i :: 0 <= i < |s| ==> IsDigit(s[i])
  {
    if s == [] then 0
    else
      assert IsDigit(s[|s| - 1]);
      DigitsValue(s[..|s| - 1]) * 10 + (s[|s| - 1] as int - '0' as int) as nat
  }

  /** `parseInt(s) || 0` on a decimal integer with an optional sign; any other
      text reads as 0 (NaN is falsy). */
  function ParseIntOr0(s: string): int {
    if IsDigits(s) then DigitsValue(s)
    else if |s| > 1 && s[0] == '-' && IsDigits(s[1..]) then -(DigitsValue(s[1..]) as int)
    else if |s| > 1 && s[0] == '+' && IsDigits(s[1..]) then DigitsValue(s[1..])
    else 0
  }

  function DigitChar(d: nat): char
    requires d < 10
  {
    ('0' as int + d) as char
  }

  function NatToString(n: nat): string {
    if n < 10 then [DigitChar(n)] else NatToString(n / 10) + [DigitChar(n % 10)]
  }

  /** The decimal rendering of a number, as the input displays it. */
  function IntToString(n: int): string {
    if n < 0 then "-" + NatToString(-n) else NatToString(n)
  }

  lemma {:induction false} NatToStringDigits(n: nat)
    ensures IsDigits(NatToString(n)) && DigitsValue(NatToString(n)) == n
  {
    if n >= 10 {
      NatToStringDigits(n / 10);
      var s := NatToString(n);
      assert s[..|s| - 1] == NatToString(n / 10);
    }
  }

  /** Reading back what the page displays gives the number itself. */
  lemma ParseShowsBack(n: int)
    ensures ParseIntOr0(IntToString(n)) == n
  {
    if n < 0 {
      NatToStringDigits(-n);
      var s := IntToString(n);
      assert s[0] == '-' && s[1..] == NatToString(-n);
      assert !IsDigits(s);
    } else {
      NatToStringDigits(n);
    }
  }

  /** `Math.max((parseInt(localSteps) || 0) + amount, 0)`. */
  function Adjusted(current: string, amount: int): nat {
    var v := ParseIntOr0(current) + amount;
    if v > 0 then v else 0
  }

  /** The adjusted value is the larger of the sum and 0: never negative, and
      the sum itself whenever that is not negative. */
  lemma AdjustedIsClampedSum(current: string, amount: int)
    ensures Adjusted(current, amount) >= ParseIntOr0(current) + amount
    ensures Adjusted(current, amount) == 0 || Adjusted(current, amount) == ParseIntOr0(current) + amount
    ensures ParseIntOr0(current) + amount >= 0 ==> Adjusted(current, amount) == ParseIntOr0(current) + amount
  {
  }

  /** Unparsable text counts as 0. */
  lemma UnparsableCountsAsZero(current: string, amount: int)
    requires !IsDigits(current)
    requires !(|current| > 1 && (current[0] == '-' || current[0] == '+') && IsDigits(current[1..]))
    ensures ParseIntOr0(current) == 0
    ensures Adjusted(current, amount) == if amount > 0 then amount else 0
  {
  }

  /** Two adjustments in a row compose: the second starts from the clamped
      value the first displayed. */
  lemma AdjustTwice(current: string, a: int, b: int)
    ensures var first := Adjusted(current, a);
            Adjusted(IntToString(first), b) == if first + b > 0 then first + b else 0
  {
    ParseShowsBack(Adjusted(current, a));
  }

  /** The amounts of the page's buttons: -100, +100, +500 (walk), +1k (run), +5k (hike). */
  const ButtonAmounts: seq<int> := [-100, 100, 500, 1000, 5000]

  /** From a shown count, each `+` button adds exactly its amount, the `-`
      button takes 100 off but stops at 0, and the page reads back the value
      it sent. */
  lemma ButtonEffects(current: string)
    requires ParseIntOr0(current) >= 0
    ensures forall i :: 1 <= i < |ButtonAmounts| ==>
      Adjusted(current, ButtonAmounts[i]) == ParseIntOr0(current) + ButtonAmounts[i]
    ensures Adjusted(current, ButtonAmounts[0]) ==
      if ParseIntOr0(current) >= 100 then ParseIntOr0(current) - 100 else 0
    ensures forall i :: 0 <= i < |ButtonAmounts| ==>
      ParseIntOr0(IntToString(Adjusted(current, ButtonAmounts[i]))) == Adjusted(current, ButtonAmounts[i])
  {
    forall i | 0 <= i < |ButtonAmounts|
      ensures ParseIntOr0(IntToString(Adjusted(current, ButtonAmounts[i]))) == Adjusted(current, ButtonAmounts[i])
    {
      ParseShowsBack(Adjusted(current, ButtonAmounts[i]));
    }
  }

  /** `Math.min((steps / goal) * 100, 100)` for a positive goal. */
  function Progress(steps: int, goal: int): real
    requires goal > 0
  {
    var p := (steps as real / goal as real) * 100.0;
    if p < 100.0 then p else 100.0
  }

  lemma ProgressBounds(steps: int, goal: int)
    requires goal > 0
    ensures Progress(steps, goal) <= 100.0
    ensures steps >= 0 ==> Progress(steps, goal) >= 0.0
    ensures steps < goal ==> Progress(steps, goal) == (steps as real / goal as real) * 100.0
    ensures steps >= goal ==> Progress(steps, goal) == 100.0
  {
    var q := steps as real / goal as real;
    assert q * goal as real == steps as real;
    if steps < goal {
      assert q < 1.0;
    } else {
      assert q >= 1.0;
    }
  }

  class Page {
    var localSteps: string
    /** The `stats.steps` the resync effect last ran for. */
    var seenSteps: int
    /** Every value passed to `updateSteps`, oldest first. */
    var sent: seq<int>

    /** `useState(stats.steps)`. */
    constructor (statsSteps: int)
      ensures localSteps == IntToString(statsSteps) && seenSteps == statsSteps && sent == []
    {
      localSteps, seenSteps, sent := IntToString(statsSteps), statsSteps, [];
    }

    /** A render with the current `stats.steps`: the effect that depends on it
        resets the local value only when it has changed. */
    method Render(statsSteps: int)
      modifies this
      ensures statsSteps != old(seenSteps) ==> localSteps == IntToString(statsSteps)
      ensures statsSteps == old(seenSteps) ==> localSteps == old(localSteps)
      ensures seenSteps == statsSteps && sent == old(sent)
    {
      if statsSteps != seenSteps {
        localSteps := IntToString(statsSteps);
        seenSteps := statsSteps;
      }
    }

    /** Typing in the input. */
    method Edit(text: string)
      modifies this`localSteps
      ensures localSteps == text
    {
      localSteps := text;
    }

    /** `handleUpdate` on blur: send the parsed value, 0 when unparsable. */
    method HandleUpdate()
      modifies this`sent
      ensures sent == old(sent) + [ParseIntOr0(localSteps)]
    {
      sent := sent + [ParseIntOr0(localSteps)];
    }

    /** `adjustSteps(amount)`: store the clamped sum and send the same value. */
    method AdjustSteps(amount: int)
      modifies this`localSteps, this`sent
      ensures localSteps == IntToString(Adjusted(old(localSteps), amount))
      ensures sent == old(sent) + [Adjusted(old(localSteps), amount)]
      ensures ParseIntOr0(localSteps) == sent[|sent| - 1] >= 0
    {
      var newVal := Adjusted(localSteps, amount);
      ParseShowsBack(newVal);
      localSteps := IntToString(newVal);
      sent := sent + [newVal];
    }

    /** The progress bar's percentage for the goal `goalSteps`. */
    function ProgressFor(goalSteps: int): (r: real)
      requires goalSteps > 0
      reads this
      ensures r <= 100.0
      ensures ParseIntOr0(localSteps) >= 0 ==> r >= 0.0
      ensures ParseIntOr0(localSteps) >= goalSteps ==> r == 100.0
    {
      ProgressBounds(ParseIntOr0(localSteps), goalSteps);
      Progress(ParseIntOr0(localSteps), goalSteps)
    }
  }
}
