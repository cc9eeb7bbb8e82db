/** The "new role" modal: a form record with two text fields and a boolean
 *  status, which the status select writes as the strings "true"/"false"; the
 *  record is sent as it is and resets to its defaults after a create. */
module RolesCreate {
  import opened Common

  const NameMissing: string := "Role Name is required."
  const Created: string := "Role created successfully!"
  const CreateFailed: string := "Failed to create role."

  /** A value of the form record: a string, or the boolean of `status`. */
  datatype FormValue = Str(s: string) | Flag(b: bool)

  type RoleForm = map<string, FormValue>

  /** The initial record: empty name and description, active status. */
  const Defaults: RoleForm := map["name" := Str(""), "description" := Str(""), "status" := Flag(true)]

  /** The record has its three fields with their types. */
  predicate WellTyped(form: RoleForm) {
    && "name" in form && form["name"].Str?
    && "description" in form && form["description"].Str?
    && "status" in form && form["status"].Flag?
  }

  /** `formData.status.toString()`: what the status select displays. */
  function StatusText(b: bool): (text: string)
    ensures text == "true" || text == "false"
  {
    if b then "true" else "false"
  }

  /** The value `handleChange` stores for an input: the status input gives
   *  `value === 'true'`, every other input its raw text. */
  function Coerced(field: string, value: string): (v: FormValue)
    ensures field == "status" ==> v.Flag? && (v.b <==> value == "true")
    ensures field != "status" ==> v == Str(value)
  {
    if field == "status" then Flag(value == "true") else Str(value)
  }

  /** Selecting an option shows the same status again: displaying a status and
   *  reading the displayed text back gives the status. Any other text, "1"
   *  and "True" included, reads as inactive. */
  lemma StatusRoundTrip(b: bool, text: string)
    ensures Coerced("status", StatusText(b)) == Flag(b)
    ensures text != "true" ==> Coerced("status", text) == Flag(false)
  {
  }

  /** `handleChange` on a record: only the named field changes. */
  function Changed(form: RoleForm, field: string, value: string): (r: RoleForm)
    ensures r.Keys == form.Keys + {field}
    ensures r[field] == Coerced(field, value)
    ensures forall k :: k in form && k != field ==> r[k] == form[k]
  {
    form[field := Coerced(field, value)]
  }

  /** Every change keeps the record well typed: the status can only ever hold
   *  a boolean and the text fields only strings. */
  lemma ChangeKeepsTypes(form: RoleForm, field: string, value: string)
    requires WellTyped(form)
    ensures WellTyped(Changed(form, field, value))
  {
    var r := Changed(form, field, value);
    if field == "status" {
      assert r["status"] == Flag(value == "true");
    } else {
      assert r["status"] == form["status"];
    }
  }

  /** `!formData.name`: a missing or empty name. */
  predicate NameGiven(form: RoleForm) {
    "name" in form && (match form["name"] case Str(s) => s != "" case Flag(b) => b)
  }

  class RolesCreateForm {
    var formData: RoleForm
    var submitting: bool
    var notice: Notice

    predicate Valid()
      reads this
    {
      WellTyped(formData)
    }

    constructor ()
      ensures Valid() && formData == Defaults && !submitting && notice == Quiet
    {
      formData := Defaults;
      submitting := false;
      notice := Quiet;
    }

    /** `handleChange` for the input called `field`. */
    method HandleChange(field: string, value: string)
      requires Valid()
      modifies this
      ensures Valid()
      ensures formData == Changed(old(formData), field, value)
      ensures submitting == old(submitting) && notice == old(notice)
    {
      ChangeKeepsTypes(formData, field, value);
      var v := if field == "status" then Flag(value == "true") else Str(value);
      formData := formData[field := v];
    }

    /** `handleSubmit` with the outcome of `createRole`. Returns the record that
     *  was sent, if any, and the parent callbacks in the order they ran. An
     *  empty name shows an error and sends nothing. On success the record
     *  returns to the defaults and `onSuccess` runs before `onClose`; on
     *  failure it is kept. `submitting` is lowered after either outcome. */
    method HandleSubmit(outcome: Remote<()>) returns (sent: Option<RoleForm>, callbacks: seq<Callback>)
      requires Valid()
      modifies this
      ensures Valid()
      ensures sent.Some? <==> NameGiven(old(formData))
      ensures sent.None? ==>
        notice == ErrorToast(NameMissing) && callbacks == []
        && formData == old(formData) && submitting == old(submitting)
      ensures sent.Some? ==> sent.value == old(formData) && !submitting
      ensures sent.Some? && outcome.Succeeded? ==>
        formData == Defaults && callbacks == [OnSuccess, OnClose] && notice == SuccessToast(Created)
      ensures sent.Some? && outcome.Failed? ==>
        formData == old(formData) && callbacks == []
        && notice == ErrorToast(FailureText(outcome.serverMessage, CreateFailed))
    {
      callbacks := [];
      if formData["name"] == Str("") {
        notice := ErrorToast(NameMissing);
        return None, callbacks;
      }
      submitting := true;
      sent := Some(formData);
      if outcome.Succeeded? {
        notice := SuccessToast(Created);
        formData := Defaults;
        callbacks := callbacks + [OnSuccess];
        callbacks := callbacks + [OnClose];
      } else {
        notice := ErrorToast(FailureText(outcome.serverMessage, CreateFailed));
      }
      submitting := false;
    }
  }
}
