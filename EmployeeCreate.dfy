/** The "new employee" page: a four-field form, a photo picked from disk
 *  and checked against the 2 MiB limit, and a submit that validates the
 *  fields in a fixed order before posting a multipart body. */
module EmployeeCreate {
  import opened Common
  import Services

  const RequiredMissing: string := "Please fill in all required fields."
  const PhotoMissing: string := "Please upload an employee photo."
  const TooLarge: string := "File size must be less than 2MB"
  const Created: string := "Employee created successfully!"
  const CreateFailed: string := "Failed to create employee."
  const ListRoute: string := "/AllEmployees"

  /** The fields of the form state. */
  const FormKeys: set<string> := {"name", "designation", "status", "position_number"}

  /** The initial form: everything empty except an active status. */
  const Defaults: Record := map["name" := "", "designation" := "", "status" := "1", "position_number" := ""]

  /** The order of the multipart fields sent to the server. */
  const PayloadKeys: seq<string> := ["name", "designation", "status", "position_number", "photo"]

  /** The first check of `handleSubmit` that fails, if any: the text fields
   *  are checked before the photo. */
  function SubmitProblem(form: Record, photo: Option<File>): (problem: Option<string>)
    ensures problem.None? <==> Filled(form, "name") && Filled(form, "designation") && photo.Some?
    ensures !Filled(form, "name") || !Filled(form, "designation") ==> problem == Some(RequiredMissing)
    ensures Filled(form, "name") && Filled(form, "designation") && photo.None?
      ==> problem == Some(PhotoMissing)
  {
    if !Filled(form, "name") || !Filled(form, "designation") then Some(RequiredMissing)
    else if photo.None? then Some(PhotoMissing)
    else None
  }

  /** The multipart body `handleSubmit` builds, one append per field. */
  function Payload(form: Record, photo: File): seq<Entry> {
    [Pair("name", Text(FieldText(form, "name"))),
     Pair("designation", Text(FieldText(form, "designation"))),
     Pair("status", Text(FieldText(form, "status"))),
     Pair("position_number", Text(FieldText(form, "position_number"))),
     Pair("photo", Upload(photo))]
  }

  /** The body carries exactly the four text fields and the photo, each once,
   *  and each text field holds the form's value. */
  lemma PayloadFields(form: Record, photo: File)
    requires FormKeys <= form.Keys
    ensures var p := Payload(form, photo);
      && KeysOf(p) == PayloadKeys && DistinctKeys(p)
      && Lookup(p, "name") == Some(Text(form["name"]))
      && Lookup(p, "designation") == Some(Text(form["designation"]))
      && Lookup(p, "status") == Some(Text(form["status"]))
      && Lookup(p, "position_number") == Some(Text(form["position_number"]))
      && Lookup(p, "photo") == Some(Upload(photo))
  {
    var p := Payload(form, photo);
    LookupSent(p, "name", Text(form["name"]));
    LookupSent(p, "designation", Text(form["designation"]));
    LookupSent(p, "status", Text(form["status"]));
    LookupSent(p, "position_number", Text(form["position_number"]));
    LookupSent(p, "photo", Upload(photo));
  }

  /** Submitting the untouched form is refused for the text fields, whether or
   *  not a photo was picked. */
  lemma DefaultsAreIncomplete(photo: Option<File>)
    ensures SubmitProblem(Defaults, photo) == Some(RequiredMissing)
  {
    assert !Filled(Defaults, "name");
  }

  class EmployeeCreateForm {
    var formData: Record
    var photoFile: Option<File>
    var photoPreview: Option<string>
    var submitting: bool
    var notice: Notice
    /** Where the page navigated to, if anywhere. */
    var route: Option<string>

    /** Every form field exists, a photo and its preview come and go together,
     *  and a kept photo is within the upload limit. */
    predicate Valid()
      reads this
    {
      && FormKeys <= formData.Keys
      && (photoFile.Some? <==> photoPreview.Some?)
      && (photoFile.Some? ==> WithinUploadLimit(photoFile.value))
    }

    constructor ()
      ensures Valid()
      ensures formData == Defaults && photoFile.None? && photoPreview.None?
      ensures !submitting && notice == Quiet && route.None?
    {
      formData := Defaults;
      photoFile := None;
      photoPreview := None;
      submitting := false;
      notice := Quiet;
      route := None;
    }

    /** `handleChange`: the named field takes the input's value; every other
     *  field keeps its own. */
    method HandleChange(name: string, value: string)
      requires Valid()
      modifies this
      ensures Valid()
      ensures formData == old(formData)[name := value]
      ensures forall k :: k in old(formData) && k != name ==> formData[k] == old(formData)[k]
      ensures photoFile == old(photoFile) && photoPreview == old(photoPreview)
      ensures submitting == old(submitting) && notice == old(notice) && route == old(route)
    {
      formData := formData[name := value];
    }

    /** `handleFileChange`: no file picked changes nothing; a file above 2 MiB
     *  shows an error and keeps the current photo; any other file (exactly
     *  2 MiB included) becomes the photo, with `objectUrl` as its preview. */
    method HandleFileChange(picked: Option<File>, objectUrl: string)
      requires Valid()
      modifies this
      ensures Valid()
      ensures picked.None? ==> photoFile == old(photoFile) && photoPreview == old(photoPreview) && notice == old(notice)
      ensures picked.Some? && !WithinUploadLimit(picked.value) ==>
        photoFile == old(photoFile) && photoPreview == old(photoPreview) && notice == ErrorToast(TooLarge)
      ensures picked.Some? && WithinUploadLimit(picked.value) ==>
        photoFile == picked && photoPreview == Some(objectUrl) && notice == old(notice)
      ensures formData == old(formData) && submitting == old(submitting) && route == old(route)
    {
      if picked.Some? {
        var file := picked.value;
        if file.size > 2 * 1024 * 1024 {
          notice := ErrorToast(TooLarge);
          return;
        }
        photoFile := Some(file);
        photoPreview := Some(objectUrl);
      }
    }

    /** `handleRemovePhoto`: both the file and its preview are cleared. */
    method HandleRemovePhoto()
      requires Valid()
      modifies this
      ensures Valid()
      ensures photoFile.None? && photoPreview.None?
      ensures formData == old(formData) && submitting == old(submitting)
      ensures notice == old(notice) && route == old(route)
    {
      photoFile := None;
      photoPreview := None;
    }

    /** `handleSubmit` with the outcome of `createEmployee`. A failed check
     *  shows its message and sends nothing. Otherwise the body is posted to
     *  the employee endpoint; success navigates to the list and leaves
     *  `submitting` raised, failure shows the server's message (or the
     *  fallback) and lowers it. */
    method HandleSubmit(outcome: Remote<()>) returns (request: Option<Services.PostRequest>)
      requires Valid()
      modifies this
      ensures Valid()
      ensures request.None? <==> SubmitProblem(old(formData), old(photoFile)).Some?
      ensures request.None? ==>
        notice == ErrorToast(SubmitProblem(old(formData), old(photoFile)).value)
        && submitting == old(submitting) && route == old(route)
      ensures request.Some? ==>
        request.value == Services.PostRequest(Services.EmployeesPath, Payload(old(formData), old(photoFile).value))
      ensures request.Some? && outcome.Succeeded? ==>
        submitting && notice == SuccessToast(Created) && route == Some(ListRoute)
      ensures request.Some? && outcome.Failed? ==>
        !submitting && notice == ErrorToast(FailureText(outcome.serverMessage, CreateFailed))
        && route == old(route)
      ensures formData == old(formData) && photoFile == old(photoFile) && photoPreview == old(photoPreview)
    {
      if !Filled(formData, "name") || !Filled(formData, "designation") {
        notice := ErrorToast(RequiredMissing);
        return None;
      }
      if photoFile.None? {
        notice := ErrorToast(PhotoMissing);
        return None;
      }
      submitting := true;
      var data := new FormData();
      data.Append("name", Text(FieldText(formData, "name")));
      data.Append("designation", Text(FieldText(formData, "designation")));
      data.Append("status", Text(FieldText(formData, "status")));
      data.Append("position_number", Text(FieldText(formData, "position_number")));
      data.Append("photo", Upload(photoFile.value));
      request := Some(Services.PostRequest(Services.EmployeesPath, data.entries));
      if outcome.Succeeded? {
        notice := SuccessToast(Created);
        route := Some(ListRoute);
      } else {
        notice := ErrorToast(FailureText(outcome.serverMessage, CreateFailed));
        submitting := false;
      }
    }
  }
}
