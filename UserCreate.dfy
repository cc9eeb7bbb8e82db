/** The "new user" modal: a seven-field form whose record is sent as it is,
 *  four of whose fields are required, and which resets to its defaults after
 *  a successful create. */
module UserCreate {
  import opened Common

  const RequiredMissing: string := "Please fill in all required fields."
  const Created: string := "User created successfully!"
  const CreateFailed: string := "Failed to create user."

  /** The initial form: user role, the Indian dialling code and country, and
   *  every other field empty. */
  const Defaults: Record := map[
    "name" := "", "email" := "", "password" := "", "role" := "user",
    "country_code" := "+91", "phone_number" := "", "country" := "India"]

  /** The fields `handleSubmit` insists on. */
  predicate Complete(form: Record) {
    Filled(form, "name") && Filled(form, "email") && Filled(form, "password") && Filled(form, "phone_number")
  }

  /** The validation message of `handleSubmit`, if the form is refused. */
  function SubmitProblem(form: Record): (problem: Option<string>)
    ensures problem.None? <==> Complete(form)
    ensures problem.Some? ==> problem.value == RequiredMissing
  {
    if Complete(form) then None else Some(RequiredMissing)
  }

  /** The role, dialling code and country are never checked: changing them
   *  cannot make a form acceptable or unacceptable. */
  lemma UncheckedFields(form: Record, key: string, value: string)
    requires key in {"role", "country_code", "country"}
    ensures SubmitProblem(form[key := value]) == SubmitProblem(form)
  {
    var changed := form[key := value];
    assert Filled(changed, "name") == Filled(form, "name");
    assert Filled(changed, "email") == Filled(form, "email");
    assert Filled(changed, "password") == Filled(form, "password");
    assert Filled(changed, "phone_number") == Filled(form, "phone_number");
  }

  /** Each required field alone decides: emptying any one of them makes a
   *  complete form unacceptable. */
  lemma EachRequiredFieldMatters(form: Record, key: string)
    requires key in {"name", "email", "password", "phone_number"}
    ensures SubmitProblem(form[key := ""]) == Some(RequiredMissing)
  {
    assert !Filled(form[key := ""], key);
  }

  class UserCreateForm {
    var formData: Record
    var submitting: bool
    var notice: Notice

    predicate Valid()
      reads this
    {
      Defaults.Keys <= formData.Keys
    }

    constructor ()
      ensures Valid() && formData == Defaults && !submitting && notice == Quiet
    {
      formData := Defaults;
      submitting := false;
      notice := Quiet;
    }

    /** `handleChange`: only the named field changes. */
    method HandleChange(name: string, value: string)
      requires Valid()
      modifies this
      ensures Valid()
      ensures formData == old(formData)[name := value]
      ensures forall k :: k in old(formData) && k != name ==> formData[k] == old(formData)[k]
      ensures submitting == old(submitting) && notice == old(notice)
    {
      formData := formData[name := value];
    }

    /** `handleSubmit` with the outcome of `createUser`. Returns the record that
     *  was sent, if any, and the parent callbacks in the order they ran. On
     *  success the form is reset to exactly the defaults and `onSuccess` runs
     *  before `onClose`; on failure the form is kept. `submitting` is lowered
     *  after either outcome. */
    method HandleSubmit(outcome: Remote<()>) returns (sent: Option<Record>, callbacks: seq<Callback>)
      requires Valid()
      modifies this
      ensures Valid()
      ensures sent.None? <==> SubmitProblem(old(formData)).Some?
      ensures sent.None? ==>
        notice == ErrorToast(RequiredMissing) && callbacks == []
        && formData == old(formData) && submitting == old(submitting)
      ensures sent.Some? ==> sent.value == old(formData) && !submitting
      ensures sent.Some? && outcome.Succeeded? ==>
        formData == Defaults && callbacks == [OnSuccess, OnClose] && notice == SuccessToast(Created)
      ensures sent.Some? && outcome.Failed? ==>
        formData == old(formData) && callbacks == []
        && notice == ErrorToast(FailureText(outcome.serverMessage, CreateFailed))
    {
      callbacks := [];
      if !Filled(formData, "name") || !Filled(formData, "email")
        || !Filled(formData, "password") || !Filled(formData, "phone_number")
      {
        notice := ErrorToast(RequiredMissing);
        return None, callbacks;
      }
      submitting := true;
      sent := Some(formData);
      if outcome.Succeeded? {
        notice := SuccessToast(Created);
        formData := Defaults;
        callbacks := callbacks + [OnSuccess];
        callbacks := callbacks + [OnClose];
      } else {
        notice := ErrorToast(FailureText(outcome.serverMessage, CreateFailed));
      }
      submitting := false;
    }
  }
}
