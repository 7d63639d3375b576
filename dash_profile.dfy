/**
 * The profile tab of the dashboard (client/src/components/DashProfile.tsx):
 * a form of changed fields, a profile-picture upload whose callbacks set the
 * upload flags, a submit handler guarded by two checks, and the modal that
 * asks before deleting the account.
 */
module DashProfile {
  import opened Common
  import opened UserSlice

  const NoChanges := "No changes made"
  const WaitForUpload := "Please wait for the image to upload"
  const UploadTooLarge := "Could not upload image (File must be less than 2MB)"
  const ProfileUpdated := "User profile updated successfully"

  /**
   * The message that stops a submission before any request, in the order
   * the handler checks: nothing changed, then an upload still running.
   */
  function SubmitGuard(form: map<string, string>, uploading: bool): (message: Option<string>)
    ensures message.None? <==> |form| != 0 && !uploading
    ensures |form| == 0 ==> message == Some(NoChanges)
    ensures |form| != 0 && uploading ==> message == Some(WaitForUpload)
  {
    if |form| == 0 then Some(NoChanges)
    else if uploading then Some(WaitForUpload)
    else None
  }

  /** The actions dispatched once the guards pass: `updateStart`, then what the outcome calls for. */
  function UpdateActions(response: Response<UserReply>): (acts: seq<Action>)
    ensures acts != [] && acts[0] == UpdateStart
    ensures forall i :: 0 < i < |acts| ==> !acts[i].IsStart()
    ensures response.Replied? && response.ok ==> acts[1..] == [UpdateSuccess(response.data.user)]
    ensures response.Replied? && !response.ok ==> acts[1..] == [UpdateFailure(response.data.message)]
    ensures response.Threw? && response.thrown.ErrorObject? ==> acts[1..] == [UpdateFailure(response.thrown.message)]
    ensures response == Threw(OtherValue) ==> acts == [UpdateStart]
  {
    match response
    case Replied(false, data) => [UpdateStart, UpdateFailure(data.message)]
    case Replied(true, data) => [UpdateStart, UpdateSuccess(data.user)]
    case Threw(ErrorObject(m)) => [UpdateStart, UpdateFailure(m)]
    case Threw(OtherValue) => [UpdateStart]
  }

  /** Every outcome except a thrown non-`Error` value leaves the slice not loading. */
  lemma UpdateSettles(s: UserState, response: Response<UserReply>)
    requires response != Threw(OtherValue)
    ensures !ReduceAll(s, UpdateActions(response)).loading
  {
    SettledIsNotLoading(s, UpdateActions(response));
  }

  /**
   * The slice after an update, outcome by outcome: signed in as the
   * returned user; or the user kept with the message shown; or, for a
   * thrown non-`Error` value, still loading.
   */
  lemma {:induction false} UpdateOutcome(s: UserState, response: Response<UserReply>)
    ensures response.Replied? && response.ok ==>
      ReduceAll(s, UpdateActions(response)) == UserState(Some(response.data.user), None, false)
    ensures response.Replied? && !response.ok ==>
      ReduceAll(s, UpdateActions(response)) == UserState(s.currentUser, Some(response.data.message), false)
    ensures response.Threw? && response.thrown.ErrorObject? ==>
      ReduceAll(s, UpdateActions(response)) == UserState(s.currentUser, Some(response.thrown.message), false)
    ensures response == Threw(OtherValue) ==> ReduceAll(s, UpdateActions(response)) == UserState(s.currentUser, None, true)
  {
    var acts := UpdateActions(response);
    if |acts| == 2 {
      assert acts == [UpdateStart] + [acts[1]];
      ReduceAllSnoc(s, [UpdateStart], acts[1]);
    } else {
      assert acts[1..] == [];
    }
  }

  class ProfilePage {
    const store: UserStore
    var imageFile: Option<FileRef>
    var imageFileUrl: Option<string>
    var imageFileUploadProgress: Option<string>
    var imageFileUploadError: Option<string>
    var formData: map<string, string>
    var imageFileUploading: bool
    var updateUserSuccess: Option<string>
    var updateUserError: Option<string>
    var showModal: bool

    constructor (store: UserStore)
      ensures this.store == store && formData == map[]
      ensures imageFile == None && imageFileUrl == None
      ensures imageFileUploadProgress == None && imageFileUploadError == None
      ensures !imageFileUploading && updateUserSuccess == None && updateUserError == None
      ensures !showModal
    {
      this.store := store;
      imageFile, imageFileUrl := None, None;
      imageFileUploadProgress, imageFileUploadError := None, None;
      formData := map[];
      imageFileUploading := false;
      updateUserSuccess, updateUserError := None, None;
      showModal := false;
    }

    /** `handleChange`: sets one field by input id and keeps the others. */
    method HandleChange(id: string, value: string)
      modifies this
      ensures formData == old(formData)[id := value]
      ensures id in formData && formData[id] == value
      ensures forall k :: k in old(formData) && k != id ==> k in formData && formData[k] == old(formData)[k]
      ensures imageFile == old(imageFile) && imageFileUrl == old(imageFileUrl)
      ensures imageFileUploadProgress == old(imageFileUploadProgress)
      ensures imageFileUploadError == old(imageFileUploadError)
      ensures imageFileUploading == old(imageFileUploading) && showModal == old(showModal)
      ensures updateUserSuccess == old(updateUserSuccess) && updateUserError == old(updateUserError)
    {
      formData := formData[id := value];
    }

    /**
     * `handleImageChange` with the upload its effect starts: a picked file
     * is stored with its object URL (made by the browser, so a parameter),
     * then `uploadImage` marks the upload as running.
     */
    method HandleImageChange(file: Option<FileRef>, objectUrl: string)
      modifies this
      ensures file.Some? ==> imageFile == file && imageFileUrl == Some(objectUrl)
      ensures file.Some? ==> imageFileUploading && imageFileUploadError == None
      ensures file.None? ==> imageFile == old(imageFile) && imageFileUrl == old(imageFileUrl)
      ensures file.None? ==> imageFileUploading == old(imageFileUploading)
      ensures file.None? ==> imageFileUploadError == old(imageFileUploadError)
      ensures formData == old(formData) && imageFileUploadProgress == old(imageFileUploadProgress)
      ensures showModal == old(showModal)
      ensures updateUserSuccess == old(updateUserSuccess) && updateUserError == old(updateUserError)
    {
      if file.Some? {
        imageFile := file;
        imageFileUrl := Some(objectUrl);
        StartUpload();
      }
    }

    /** The start of `uploadImage`: the upload is running and its last error is cleared. */
    method StartUpload()
      modifies this
      ensures imageFileUploading && imageFileUploadError == None
      ensures SubmitGuard(formData, imageFileUploading).Some?
      ensures formData == old(formData) && imageFile == old(imageFile) && imageFileUrl == old(imageFileUrl)
      ensures imageFileUploadProgress == old(imageFileUploadProgress) && showModal == old(showModal)
      ensures updateUserSuccess == old(updateUserSuccess) && updateUserError == old(updateUserError)
    {
      imageFileUploading := true;
      imageFileUploadError := None;
    }

    /** The progress callback; the percentage text is computed in floating point, so it is a parameter. */
    method UploadProgressed(percent: string)
      modifies this
      ensures imageFileUploadProgress == Some(percent)
      ensures formData == old(formData) && imageFile == old(imageFile) && imageFileUrl == old(imageFileUrl)
      ensures imageFileUploadError == old(imageFileUploadError) && imageFileUploading == old(imageFileUploading)
      ensures showModal == old(showModal)
      ensures updateUserSuccess == old(updateUserSuccess) && updateUserError == old(updateUserError)
    {
      imageFileUploadProgress := Some(percent);
    }

    /** The error callback: reports the size limit and forgets the picked file. */
    method UploadFailed()
      modifies this
      ensures imageFileUploadError == Some(UploadTooLarge)
      ensures imageFileUploadProgress == None && imageFile == None && imageFileUrl == None
      ensures !imageFileUploading
      ensures formData == old(formData) && showModal == old(showModal)
      ensures updateUserSuccess == old(updateUserSuccess) && updateUserError == old(updateUserError)
    {
      imageFileUploadError := Some(UploadTooLarge);
      imageFileUploadProgress := None;
      imageFile := None;
      imageFileUrl := None;
      imageFileUploading := false;
    }

    /** The completion callback: the download URL becomes the shown image and the form's `profilePicture`. */
    method UploadSucceeded(downloadUrl: string)
      modifies this
      ensures imageFileUrl == Some(downloadUrl)
      ensures formData == old(formData)["profilePicture" := downloadUrl]
      ensures !imageFileUploading
      ensures SubmitGuard(formData, imageFileUploading) == None
      ensures imageFile == old(imageFile) && imageFileUploadProgress == old(imageFileUploadProgress)
      ensures imageFileUploadError == old(imageFileUploadError) && showModal == old(showModal)
      ensures updateUserSuccess == old(updateUserSuccess) && updateUserError == old(updateUserError)
    {
      imageFileUrl := Some(downloadUrl);
      formData := formData["profilePicture" := downloadUrl];
      imageFileUploading := false;
    }

    /**
     * `handleSubmit`: clears both messages, applies the two guards, and
     * otherwise dispatches `updateStart` and the outcome. Returns the
     * actions dispatched and whether the request was issued.
     */
    method HandleSubmit(response: Response<UserReply>) returns (dispatched: seq<Action>, requested: bool)
      modifies this, store
      ensures var guard := SubmitGuard(formData, imageFileUploading);
        && requested == guard.None?
        && (guard.Some? ==> dispatched == [] && updateUserError == guard && updateUserSuccess == None)
        && (guard.None? ==> dispatched == UpdateActions(response))
      ensures requested && response.Replied? && !response.ok ==>
        updateUserError == Some(response.data.message) && updateUserSuccess == None
      ensures requested && response.Replied? && response.ok ==>
        updateUserError == None && updateUserSuccess == Some(ProfileUpdated)
      ensures requested && response.Threw? ==> (updateUserSuccess == None &&
        updateUserError == (if response.thrown.ErrorObject? then Some(response.thrown.message) else None))
      ensures store.State() == ReduceAll(old(store.State()), dispatched)
      ensures formData == old(formData) && imageFile == old(imageFile) && imageFileUrl == old(imageFileUrl)
      ensures imageFileUploadProgress == old(imageFileUploadProgress)
      ensures imageFileUploadError == old(imageFileUploadError)
      ensures imageFileUploading == old(imageFileUploading) && showModal == old(showModal)
    {
      updateUserError := None;
      updateUserSuccess := None;
      dispatched, requested := [], false;
      if |formData| == 0 {
        updateUserError := Some(NoChanges);
        return;
      }
      if imageFileUploading {
        updateUserError := Some(WaitForUpload);
        return;
      }
      requested := true;
      store.UpdateStart();
      ReduceAllSnoc(old(store.State()), [], UpdateStart);
      dispatched := [UpdateStart];
      match response {
        case Replied(ok, data) =>
          if !ok {
            store.UpdateFailure(data.message);
            ReduceAllSnoc(old(store.State()), dispatched, UpdateFailure(data.message));
            updateUserError := Some(data.message);
            dispatched := [UpdateStart, UpdateFailure(data.message)];
          } else {
            store.UpdateSuccess(data.user);
            ReduceAllSnoc(old(store.State()), dispatched, UpdateSuccess(data.user));
            updateUserSuccess := Some(ProfileUpdated);
            dispatched := [UpdateStart, UpdateSuccess(data.user)];
          }
        case Threw(thrown) =>
          if thrown.ErrorObject? {
            store.UpdateFailure(thrown.message);
            ReduceAllSnoc(old(store.State()), dispatched, UpdateFailure(thrown.message));
            updateUserError := Some(thrown.message);
            dispatched := [UpdateStart, UpdateFailure(thrown.message)];
          }
      }
    }

    /** "Delete Account": shows the confirmation modal. */
    method OpenDeleteModal()
      modifies this
      ensures showModal
      ensures formData == old(formData) && imageFile == old(imageFile) && imageFileUrl == old(imageFileUrl)
      ensures imageFileUploadProgress == old(imageFileUploadProgress)
      ensures imageFileUploadError == old(imageFileUploadError) && imageFileUploading == old(imageFileUploading)
      ensures updateUserSuccess == old(updateUserSuccess) && updateUserError == old(updateUserError)
    {
      showModal := true;
    }

    /** The modal's close button and "No, cancel": only hide the modal. */
    method CloseDeleteModal()
      modifies this
      ensures !showModal
      ensures formData == old(formData) && imageFile == old(imageFile) && imageFileUrl == old(imageFileUrl)
      ensures imageFileUploadProgress == old(imageFileUploadProgress)
      ensures imageFileUploadError == old(imageFileUploadError) && imageFileUploading == old(imageFileUploading)
      ensures updateUserSuccess == old(updateUserSuccess) && updateUserError == old(updateUserError)
    {
      showModal := false;
    }

    /** `handleDeleteUser`: hides the modal before anything else happens. */
    method HandleDeleteUser()
      modifies this
      ensures !showModal
      ensures formData == old(formData) && imageFile == old(imageFile) && imageFileUrl == old(imageFileUrl)
      ensures imageFileUploadProgress == old(imageFileUploadProgress)
      ensures imageFileUploadError == old(imageFileUploadError) && imageFileUploading == old(imageFileUploading)
      ensures updateUserSuccess == old(updateUserSuccess) && updateUserError == old(updateUserError)
    {
      showModal := false;
    }
  }
}
