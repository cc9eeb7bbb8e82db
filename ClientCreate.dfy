/** The "new client" modal: a name, a status and a logo file, all three sent
 *  as one multipart body; a successful create clears the name and the logo
 *  but keeps the chosen status. */
module ClientCreate {
  import opened Common

  const Incomplete: string := "Please provide a client name and logo."
  const TooLarge: string := "File size must be less than 2MB"
  const Created: string := "Client created successfully!"
  const CreateFailed: string := "Failed to create client."

  /** The check of `handleSubmit`: a non-empty name and a logo. */
  function SubmitProblem(name: string, logo: Option<File>): (problem: Option<string>)
    ensures problem.None? <==> name != "" && logo.Some?
    ensures problem.Some? ==> problem.value == Incomplete
  {
    if name == "" || logo.None? then Some(Incomplete) else None
  }

  /** The body handed to `createClient`. */
  function Payload(name: string, status: string, logo: File): seq<Entry> {
    [Pair("name", Text(name)), Pair("status", Text(status)), Pair("logo", Upload(logo))]
  }

  /** The body carries exactly name, status and logo, once each, with the
   *  form's values. */
  lemma PayloadFields(name: string, status: string, logo: File)
    ensures var p := Payload(name, status, logo);
      && KeysOf(p) == ["name", "status", "logo"] && DistinctKeys(p)
      && Lookup(p, "name") == Some(Text(name))
      && Lookup(p, "status") == Some(Text(status))
      && Lookup(p, "logo") == Some(Upload(logo))
  {
    var p := Payload(name, status, logo);
    LookupSent(p, "name", Text(name));
    LookupSent(p, "status", Text(status));
    LookupSent(p, "logo", Upload(logo));
  }

  class ClientCreateForm {
    var name: string
    var status: string
    var logoFile: Option<File>
    var logoPreview: Option<string>
    var submitting: bool
    var notice: Notice

    /** A logo and its preview come and go together, and a kept logo is within
     *  the upload limit. */
    predicate Valid()
      reads this
    {
      && (logoFile.Some? <==> logoPreview.Some?)
      && (logoFile.Some? ==> WithinUploadLimit(logoFile.value))
    }

    constructor ()
      ensures Valid()
      ensures name == "" && status == "1" && logoFile.None? && logoPreview.None?
      ensures !submitting && notice == Quiet
    {
      name := "";
      status := "1";
      logoFile := None;
      logoPreview := None;
      submitting := false;
      notice := Quiet;
    }

    /** The name input's `onChange`. */
    method SetName(value: string)
      requires Valid()
      modifies this
      ensures Valid() && name == value
      ensures status == old(status) && logoFile == old(logoFile) && logoPreview == old(logoPreview)
      ensures submitting == old(submitting) && notice == old(notice)
    {
      name := value;
    }

    /** The status select's `onChange`. */
    method SetStatus(value: string)
      requires Valid()
      modifies this
      ensures Valid() && status == value
      ensures name == old(name) && logoFile == old(logoFile) && logoPreview == old(logoPreview)
      ensures submitting == old(submitting) && notice == old(notice)
    {
      status := value;
    }

    /** `handleFileChange`: no file changes nothing; a file above 2 MiB shows an
     *  error and keeps the current logo; any other file becomes the logo. */
    method HandleFileChange(picked: Option<File>, objectUrl: string)
      requires Valid()
      modifies this
      ensures Valid()
      ensures picked.None? ==> logoFile == old(logoFile) && logoPreview == old(logoPreview) && notice == old(notice)
      ensures picked.Some? && !WithinUploadLimit(picked.value) ==>
        logoFile == old(logoFile) && logoPreview == old(logoPreview) && notice == ErrorToast(TooLarge)
      ensures picked.Some? && WithinUploadLimit(picked.value) ==>
        logoFile == picked && logoPreview == Some(objectUrl) && notice == old(notice)
      ensures name == old(name) && status == old(status) && submitting == old(submitting)
    {
      if picked.Some? {
        var file := picked.value;
        if file.size > 2 * 1024 * 1024 {
          notice := ErrorToast(TooLarge);
          return;
        }
        logoFile := Some(file);
        logoPreview := Some(objectUrl);
      }
    }

    /** `handleSubmit` with the outcome of `createClient`. Returns the body that
     *  was sent, if any, and the parent callbacks in the order they ran. On
     *  success the name and the logo are cleared while the status keeps its
     *  value, then `onSuccess` and `onClose` run; on failure everything is
     *  kept. `submitting` is lowered after either outcome. */
    method HandleSubmit(outcome: Remote<()>) returns (sent: Option<seq<Entry>>, callbacks: seq<Callback>)
      requires Valid()
      modifies this
      ensures Valid()
      ensures sent.None? <==> SubmitProblem(old(name), old(logoFile)).Some?
      ensures sent.None? ==>
        notice == ErrorToast(Incomplete) && callbacks == [] && submitting == old(submitting)
        && name == old(name) && logoFile == old(logoFile) && logoPreview == old(logoPreview)
      ensures sent.Some? ==> sent.value == Payload(old(name), old(status), old(logoFile).value) && !submitting
      ensures sent.Some? && outcome.Succeeded? ==>
        name == "" && logoFile.None? && logoPreview.None?
        && callbacks == [OnSuccess, OnClose] && notice == SuccessToast(Created)
      ensures sent.Some? && outcome.Failed? ==>
        name == old(name) && logoFile == old(logoFile) && logoPreview == old(logoPreview)
        && callbacks == [] && notice == ErrorToast(FailureText(outcome.serverMessage, CreateFailed))
      ensures status == old(status)
    {
      callbacks := [];
      if name == "" || logoFile.None? {
        notice := ErrorToast(Incomplete);
        return None, callbacks;
      }
      submitting := true;
      var data := new FormData();
      data.Append("name", Text(name));
      data.Append("status", Text(status));
      data.Append("logo", Upload(logoFile.value));
      sent := Some(data.entries);
      if outcome.Succeeded? {
        notice := SuccessToast(Created);
        name := "";
        logoFile := None;
        logoPreview := None;
        callbacks := callbacks + [OnSuccess];
        callbacks := callbacks + [OnClose];
      } else {
        notice := ErrorToast(FailureText(outcome.serverMessage, CreateFailed));
      }
      submitting := false;
    }
  }
}
