/**
  The Profile page: four inputs (name, age, height, weight) whose change
  handler writes one field of the provider's user.
*/
module ProfilePage {
  import opened AppProvider

  /** The `name` attributes of the page's inputs. */
  const EditableFields: seq<string> := ["name", "age", "height", "weight"]

  /** `{ ...user, [name]: value }`. */
  function Changed(u: UserRecord, name: string, value: string): UserRecord {
    u[name := value]
  }

  /** The named field takes the new value and every other field keeps its own. */
  lemma ChangeEffect(u: UserRecord, name: string, value: string)
    ensures var r := Changed(u, name, value);
      && r.Keys == u.Keys + {name} && r[name] == value
      && forall k :: k in u && k != name ==> r[k] == u[k]
  {
  }

  /** The same change applied twice gives the same user as applied once. */
  lemma ChangeIdempotent(u: UserRecord, name: string, value: string)
    ensures Changed(Changed(u, name, value), name, value) == Changed(u, name, value)
  {
  }

  /** The editable fields are exactly the fields of the default user, so
      editing never adds a field to a user that has at least those four (the
      default user, or the seven-field one onboarding installs). */
  lemma EditableFieldsAreUserFields(u: UserRecord, i: nat, value: string)
    requires i < |EditableFields|
    requires DefaultUser.Keys <= u.Keys
    ensures (set f | f in EditableFields) == DefaultUser.Keys
    ensures Changed(u, EditableFields[i], value).Keys == u.Keys
  {
  }

  /** `handleChange(e)` for an input named `name` now holding `value`. */
  method HandleChange(app: Provider, name: string, value: string)
    requires app.Mirrored()
    modifies app
    ensures app.Mirrored()
    ensures app.user == Changed(old(app.user), name, value)
    ensures app.workouts == old(app.workouts) && app.diet == old(app.diet)
    ensures app.waterIntake == old(app.waterIntake)
    ensures app.storage == old(app.storage)[UserKey := SavedUser(app.user)]
  {
    app.SetUser(app.user[name := value]);
  }
}
