/** The "edit client" modal: opening it with an id loads the client, closing
 *  it (or opening it without an id) resets the form; a submit sends name and
 *  status, and the logo only when a new file was chosen. */
module ClientEdit {
  import opened Common
  import ClientsList

  const LoadFailed: string := "Failed to fetch client data"
  const NameMissing: string := "Client name is required."
  const TooLarge: string := "File size must be less than 2MB"
  const Updated: string := "Client updated successfully!"
  const UpdateFailed: string := "Failed to update client."

  /** `id` as a JavaScript condition: null and 0 are falsy. */
  predicate IdGiven(id: Option<int>) {
    id.Some? && id.value != 0
  }

  /** `newLogoPreview || currentLogo || ''`: the image the preview box shows. */
  function PreviewSource(newPreview: Option<string>, current: Option<string>): (src: string)
    ensures src != "" ==> Some(src) == newPreview || Some(src) == current
    ensures newPreview.Some? && newPreview.value != "" ==> src == newPreview.value
    ensures (newPreview.None? || newPreview.value == "") && current.Some? ==> src == current.value
  {
    if newPreview.Some? && newPreview.value != "" then newPreview.value
    else if current.Some? && current.value != "" then current.value
    else ""
  }

  /** The body handed to `updateClient`: name and status always, the logo only
   *  when a new file was chosen. */
  function Payload(name: string, status: string, newLogo: Option<File>): seq<Entry> {
    [Pair("name", Text(name)), Pair("status", Text(status))]
      + (if newLogo.Some? then [Pair("logo", Upload(newLogo.value))] else [])
  }

  /** Name and status are always sent with the form's values; `logo` is sent
   *  exactly when a new file was chosen, and is that file. */
  lemma PayloadFields(name: string, status: string, newLogo: Option<File>)
    ensures var p := Payload(name, status, newLogo);
      && DistinctKeys(p)
      && Lookup(p, "name") == Some(Text(name))
      && Lookup(p, "status") == Some(Text(status))
      && (Omitted(p, "logo") <==> newLogo.None?)
      && (newLogo.Some? ==> Lookup(p, "logo") == Some(Upload(newLogo.value)))
  {
    var p := Payload(name, status, newLogo);
    LookupSent(p, "name", Text(name));
    LookupSent(p, "status", Text(status));
    if newLogo.Some? {
      assert p[2] == Pair("logo", Upload(newLogo.value));
      LookupSent(p, "logo", Upload(newLogo.value));
    }
  }

  /** What `handleSubmit` hands to `updateClient`. */
  datatype UpdateCall = UpdateCall(id: int, body: seq<Entry>)

  class ClientEditForm {
    var name: string
    var status: string
    var currentLogo: Option<string>
    var newLogoFile: Option<File>
    var newLogoPreview: Option<string>
    var loadingData: bool
    var submitting: bool
    var notice: Notice

    /** A new logo and its preview come and go together, and a chosen logo is
     *  within the upload limit. */
    predicate Valid()
      reads this
    {
      && (newLogoFile.Some? <==> newLogoPreview.Some?)
      && (newLogoFile.Some? ==> WithinUploadLimit(newLogoFile.value))
    }

    /** The image shown in the preview box. */
    function Preview(): string
      reads this
    {
      PreviewSource(newLogoPreview, currentLogo)
    }

    constructor ()
      ensures Valid()
      ensures name == "" && status == "1" && currentLogo.None? && newLogoFile.None? && newLogoPreview.None?
      ensures !loadingData && !submitting && notice == Quiet
    {
      name := "";
      status := "1";
      currentLogo := None;
      newLogoFile := None;
      newLogoPreview := None;
      loadingData := false;
      submitting := false;
      notice := Quiet;
    }

    /** The effect on `[isOpen, id]`. Open with an id: the load of that client
     *  starts (returned) and the form is left as it is until it settles.
     *  Otherwise nothing is loaded and the form returns to its blank state,
     *  whose preview is empty. */
    method OpenChanged(isOpen: bool, id: Option<int>) returns (load: Option<int>)
      requires Valid()
      modifies this
      ensures Valid()
      ensures load.Some? <==> isOpen && IdGiven(id)
      ensures load.Some? ==>
        load == id && loadingData
        && name == old(name) && status == old(status) && currentLogo == old(currentLogo)
        && newLogoFile == old(newLogoFile) && newLogoPreview == old(newLogoPreview)
      ensures load.None? ==>
        name == "" && status == "1" && currentLogo.None?
        && newLogoFile.None? && newLogoPreview.None? && Preview() == ""
        && loadingData == old(loadingData)
      ensures submitting == old(submitting) && notice == old(notice)
    {
      if isOpen && IdGiven(id) {
        loadingData := true;
        load := id;
      } else {
        name := "";
        status := "1";
        currentLogo := None;
        newLogoFile := None;
        newLogoPreview := None;
        load := None;
      }
    }

    /** `fetchData` settling with the outcome of `getClientById`: a client fills
     *  name, status and the current logo; a failure shows an error and asks
     *  the parent to close. `loadingData` ends false either way. */
    method SettleLoad(outcome: Remote<ClientsList.Client>) returns (callbacks: seq<Callback>)
      requires Valid()
      modifies this
      ensures Valid() && !loadingData
      ensures outcome.Succeeded? ==>
        name == outcome.body.name && status == outcome.body.status && currentLogo == outcome.body.logoPath
        && callbacks == [] && notice == old(notice)
      ensures outcome.Failed? ==>
        name == old(name) && status == old(status) && currentLogo == old(currentLogo)
        && callbacks == [OnClose] && notice == ErrorToast(LoadFailed)
      ensures newLogoFile == old(newLogoFile) && newLogoPreview == old(newLogoPreview)
      ensures submitting == old(submitting)
    {
      callbacks := [];
      if outcome.Succeeded? {
        name := outcome.body.name;
        status := outcome.body.status;
        currentLogo := outcome.body.logoPath;
      } else {
        notice := ErrorToast(LoadFailed);
        callbacks := [OnClose];
      }
      loadingData := false;
    }

    /** The name input's `onChange`. */
    method SetName(value: string)
      requires Valid()
      modifies this
      ensures Valid() && name == value
      ensures status == old(status) && currentLogo == old(currentLogo)
      ensures newLogoFile == old(newLogoFile) && newLogoPreview == old(newLogoPreview)
      ensures loadingData == old(loadingData) && submitting == old(submitting) && notice == old(notice)
    {
      name := value;
    }

    /** The status select's `onChange`. */
    method SetStatus(value: string)
      requires Valid()
      modifies this
      ensures Valid() && status == value
      ensures name == old(name) && currentLogo == old(currentLogo)
      ensures newLogoFile == old(newLogoFile) && newLogoPreview == old(newLogoPreview)
      ensures loadingData == old(loadingData) && submitting == old(submitting) && notice == old(notice)
    {
      status := value;
    }

    /** `handleFileChange`: no file changes nothing; a file above 2 MiB shows an
     *  error and keeps the chosen logo; any other file becomes the new logo
     *  and the preview shows it. */
    method HandleFileChange(picked: Option<File>, objectUrl: string)
      requires Valid()
      modifies this
      ensures Valid()
      ensures picked.None? ==>
        newLogoFile == old(newLogoFile) && newLogoPreview == old(newLogoPreview) && notice == old(notice)
      ensures picked.Some? && !WithinUploadLimit(picked.value) ==>
        newLogoFile == old(newLogoFile) && newLogoPreview == old(newLogoPreview) && notice == ErrorToast(TooLarge)
      ensures picked.Some? && WithinUploadLimit(picked.value) ==>
        newLogoFile == picked && newLogoPreview == Some(objectUrl) && notice == old(notice)
        && (objectUrl != "" ==> Preview() == objectUrl)
      ensures name == old(name) && status == old(status) && currentLogo == old(currentLogo)
      ensures loadingData == old(loadingData) && submitting == old(submitting)
    {
      if picked.Some? {
        var file := picked.value;
        if file.size > 2 * 1024 * 1024 {
          notice := ErrorToast(TooLarge);
          return;
        }
        newLogoFile := Some(file);
        newLogoPreview := Some(objectUrl);
      }
    }

    /** `handleSubmit` for the client `id` with the outcome of `updateClient`.
     *  Without an id nothing happens at all; an empty name shows an error and
     *  sends nothing. Otherwise the body goes out, success shows a toast and
     *  runs `onSuccess` then `onClose`, failure shows the server's message or
     *  the fallback; `submitting` is lowered after either outcome. */
    method HandleSubmit(id: Option<int>, outcome: Remote<()>) returns (sent: Option<UpdateCall>, callbacks: seq<Callback>)
      requires Valid()
      modifies this
      ensures Valid()
      ensures sent.Some? <==> IdGiven(id) && old(name) != ""
      ensures !IdGiven(id) ==> notice == old(notice) && submitting == old(submitting) && callbacks == []
      ensures IdGiven(id) && old(name) == "" ==>
        notice == ErrorToast(NameMissing) && submitting == old(submitting) && callbacks == []
      ensures sent.Some? ==>
        sent.value == UpdateCall(id.value, Payload(old(name), old(status), old(newLogoFile))) && !submitting
      ensures sent.Some? && outcome.Succeeded? ==>
        notice == SuccessToast(Updated) && callbacks == [OnSuccess, OnClose]
      ensures sent.Some? && outcome.Failed? ==>
        notice == ErrorToast(FailureText(outcome.serverMessage, UpdateFailed)) && callbacks == []
      ensures name == old(name) && status == old(status) && currentLogo == old(currentLogo)
      ensures newLogoFile == old(newLogoFile) && newLogoPreview == old(newLogoPreview)
      ensures loadingData == old(loadingData)
    {
      callbacks := [];
      if !IdGiven(id) {
        return None, callbacks;
      }
      if name == "" {
        notice := ErrorToast(NameMissing);
        return None, callbacks;
      }
      submitting := true;
      var data := new FormData();
      data.Append("name", Text(name));
      data.Append("status", Text(status));
      if newLogoFile.Some? {
        data.Append("logo", Upload(newLogoFile.value));
      }
      sent := Some(UpdateCall(id.value, data.entries));
      if outcome.Succeeded? {
        notice := SuccessToast(Updated);
        callbacks := callbacks + [OnSuccess];
        callbacks := callbacks + [OnClose];
      } else {
        notice := ErrorToast(FailureText(outcome.serverMessage, UpdateFailed));
      }
      submitting := false;
    }
  }
}
