/**
  The Onboarding page: a three-step wizard over a form. Step 1 asks for name
  and email, step 2 for goal, age and gender, step 3 for weight and height.
  "Next" advances (disabled on step 1 while the name is empty), "Back" goes
  one step back from steps 2 and 3, and "Get Started" on step 3 hands the form
  to the provider's `setUser` and navigates to "/".
*/
module OnboardingPage {
  import opened Wrappers
  import opened AppProvider

  const DefaultForm: UserRecord := map[
    "name" := "", "email" := "", "goal" := "Lose Weight", "weight" := "",
    "height" := "", "age" := "", "gender" := "Male"]

  /** The inputs rendered on each step. */
  function FieldsOfStep(step: int): set<string> {
    if step == 1 then {"name", "email"}
    else if step == 2 then {"goal", "age", "gender"}
    else if step == 3 then {"weight", "height"}
    else {}
  }

  /** Every field of the form has an input on exactly one of the three steps,
      and no other value of `step` renders any input. */
  lemma StepsCoverForm(step: int, field: string)
    ensures field in DefaultForm <==> field in FieldsOfStep(1) + FieldsOfStep(2) + FieldsOfStep(3)
    ensures FieldsOfStep(1) !! FieldsOfStep(2) && FieldsOfStep(2) !! FieldsOfStep(3)
    ensures FieldsOfStep(1) !! FieldsOfStep(3)
    ensures !(1 <= step <= 3) ==> FieldsOfStep(step) == {}
    ensures field in FieldsOfStep(step) ==> field in DefaultForm
  {
  }

  /** `disabled={!formData.name && step === 1}`. */
  predicate NextDisabled(step: int, form: UserRecord) {
    NameOf(form) == "" && step == 1
  }

  /** The Back button is rendered only after the first step. */
  predicate BackOffered(step: int) {
    step > 1
  }

  function NextLabel(step: int): string {
    if step == 3 then "Get Started" else "Next"
  }

  datatype Wizard = Wizard(step: int, form: UserRecord)

  const Initial := Wizard(1, DefaultForm)

  datatype Event = NextClicked | BackClicked | Typed(field: string, value: string)

  /** Whether the event reaches `finish()`. */
  predicate Finishes(w: Wizard, e: Event) {
    e.NextClicked? && !NextDisabled(w.step, w.form) && !(w.step < 3)
  }

  /** The wizard after one event. */
  function Apply(w: Wizard, e: Event): Wizard {
    match e
    case NextClicked =>
      if NextDisabled(w.step, w.form) then w
      else if w.step < 3 then w.(step := w.step + 1)
      else w
    case BackClicked =>
      if BackOffered(w.step) then w.(step := w.step - 1) else w
    case Typed(field, value) =>
      if field in FieldsOfStep(w.step) then w.(form := w.form[field := value]) else w
  }

  /** The wizard after the events `es`, in order. */
  function Run(w: Wizard, es: seq<Event>): Wizard {
    if es == [] then w else Apply(Run(w, es[..|es| - 1]), es[|es| - 1])
  }

  /** What every reachable wizard satisfies: the step stays within 1..3, and
      past step 1 the name is filled in. */
  ghost predicate Reachable(w: Wizard) {
    1 <= w.step <= 3 && (w.step >= 2 ==> NameOf(w.form) != "")
  }

  lemma ApplyKeepsReachable(w: Wizard, e: Event)
    requires Reachable(w)
    ensures Reachable(Apply(w, e))
  {
  }

  /** From the initial wizard, no sequence of clicks and inputs leaves 1..3. */
  lemma {:induction false} RunStaysReachable(es: seq<Event>)
    ensures Reachable(Run(Initial, es))
    ensures 1 <= Run(Initial, es).step <= 3
  {
    if es != [] {
      RunStaysReachable(es[..|es| - 1]);
      ApplyKeepsReachable(Run(Initial, es[..|es| - 1]), es[|es| - 1]);
    }
  }

  /** `finish()` runs only from step 3, where the button reads "Get Started",
      and the form it hands over carries a name. */
  lemma FinishOnlyFromLastStep(w: Wizard, e: Event)
    requires Reachable(w) && Finishes(w, e)
    ensures w.step == 3 && NextLabel(w.step) == "Get Started" && NameOf(w.form) != ""
  {
  }

  /** An input changes only its own field of the form. */
  lemma InputChangesOneField(w: Wizard, field: string, value: string)
    requires field in FieldsOfStep(w.step)
    ensures var w' := Apply(w, Typed(field, value));
      && w'.step == w.step && w'.form[field] == value
      && forall k :: k in w.form && k != field ==> k in w'.form && w'.form[k] == w.form[k]
  {
  }

  class Flow {
    var step: int
    var formData: UserRecord
    /** Where `navigate` was last sent, if anywhere. */
    var navigatedTo: Option<string>

    ghost predicate Valid()
      reads this
    {
      Reachable(Wizard(step, formData))
    }

    constructor ()
      ensures Valid()
      ensures step == 1 && formData == DefaultForm && navigatedTo == None
    {
      step, formData, navigatedTo := 1, DefaultForm, None;
    }

    /** `finish()`: `setUser(formData)`, then `navigate('/')`. */
    method Finish(app: Provider)
      requires app.Mirrored()
      modifies this`navigatedTo, app
      ensures app.Mirrored()
      ensures app.user == formData && navigatedTo == Some("/")
      ensures app.workouts == old(app.workouts) && app.diet == old(app.diet)
      ensures app.waterIntake == old(app.waterIntake)
      ensures app.storage == old(app.storage)[UserKey := SavedUser(formData)]
    {
      app.SetUser(formData);
      navigatedTo := Some("/");
    }

    /** `nextStep()`. */
    method NextStep(app: Provider)
      requires Valid() && app.Mirrored()
      requires !NextDisabled(step, formData)
      modifies this, app
      ensures Valid() && app.Mirrored()
      ensures Wizard(step, formData) == Apply(old(Wizard(step, formData)), NextClicked)
      ensures old(step) == 3 ==> app.user == formData && navigatedTo == Some("/")
      ensures old(step) < 3 ==> app.user == old(app.user) && navigatedTo == old(navigatedTo)
      ensures old(step) < 3 ==> app.storage == old(app.storage)
      ensures old(step) == 3 ==> app.storage == old(app.storage)[UserKey := SavedUser(old(formData))]
      ensures app.workouts == old(app.workouts) && app.diet == old(app.diet)
      ensures app.waterIntake == old(app.waterIntake)
    {
      if step < 3 {
        step := step + 1;
      } else {
        Finish(app);
      }
    }

    /** A click on the Next / Get Started button, which does nothing while disabled. */
    method ClickNext(app: Provider)
      requires Valid() && app.Mirrored()
      modifies this, app
      ensures Valid() && app.Mirrored()
      ensures Wizard(step, formData) == Apply(old(Wizard(step, formData)), NextClicked)
      ensures Finishes(old(Wizard(step, formData)), NextClicked) ==>
                app.user == formData && navigatedTo == Some("/")
      ensures !Finishes(old(Wizard(step, formData)), NextClicked) ==>
                app.user == old(app.user) && navigatedTo == old(navigatedTo)
      ensures !Finishes(old(Wizard(step, formData)), NextClicked) ==> app.storage == old(app.storage)
      ensures Finishes(old(Wizard(step, formData)), NextClicked) ==>
                app.storage == old(app.storage)[UserKey := SavedUser(old(formData))]
      ensures app.workouts == old(app.workouts) && app.diet == old(app.diet)
      ensures app.waterIntake == old(app.waterIntake)
    {
      if !NextDisabled(step, formData) {
        NextStep(app);
      }
    }

    /** A click on Back, which exists only after the first step. */
    method ClickBack()
      requires Valid()
      modifies this`step
      ensures Valid()
      ensures Wizard(step, formData) == Apply(old(Wizard(step, formData)), BackClicked)
    {
      if step > 1 {
        step := step - 1;
      }
    }

    /** An input of the current step changed to `value`. */
    method Edit(field: string, value: string)
      requires Valid()
      modifies this`formData
      ensures Valid()
      ensures Wizard(step, formData) == Apply(old(Wizard(step, formData)), Typed(field, value))
    {
      if field in FieldsOfStep(step) {
        formData := formData[field := value];
      }
    }
  }
}
