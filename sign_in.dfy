/**
 * The sign-in page (client/src/pages/SignIn.tsx): a form whose fields are
 * stored trimmed, and a submit handler that checks both fields are filled
 * and then reports the server's answer to the `user` slice by dispatching
 * actions in a fixed order.
 */
module SignIn {
  import opened Common
  import opened UserSlice

  const FillAllFields := "Please fill out all fields."
  const UnknownError := "An unknown error occurred"
  const HomePath := "/"

  /** `!formData[key]` is false: the key is present with a non-empty value. */
  predicate Filled(form: map<string, string>, key: string) {
    key in form && form[key] != ""
  }

  /**
   * The actions `handleSubmit` dispatches for one submission, in order:
   * the validation failure alone, or `signInStart` followed by what the
   * reply or the thrown value calls for.
   */
  function SubmitActions(form: map<string, string>, response: Response<UserReply>): (acts: seq<Action>)
    ensures acts != []
    ensures !Filled(form, "email") || !Filled(form, "password") <==> acts == [SignInFailure(FillAllFields)]
    ensures Filled(form, "email") && Filled(form, "password") ==> acts[0] == SignInStart
    ensures forall i :: 0 < i < |acts| ==> !acts[i].IsStart()
  {
    if !Filled(form, "email") || !Filled(form, "password") then [SignInFailure(FillAllFields)]
    else
      var outcome :=
        match response
        case Threw(ErrorObject(m)) => [SignInFailure(m)]
        case Threw(OtherValue) => [SignInFailure(UnknownError)]
        case Replied(ok, data) =>
          (if data.success == Some(false) then [SignInFailure(data.message)] else []) +
          (if ok then [SignInSuccess(data.user)] else []);
      assert ([SignInStart] + outcome)[0] == SignInStart;
      [SignInStart] + outcome
  }

  /** A submission with an unfilled field never leaves the user signed in differently. */
  lemma IncompleteFormKeepsUser(s: UserState, form: map<string, string>, response: Response<UserReply>)
    requires !Filled(form, "email") || !Filled(form, "password")
    ensures ReduceAll(s, SubmitActions(form, response)) ==
            UserState(s.currentUser, Some(FillAllFields), false)
  {
    assert SubmitActions(form, response)[1..] == [];
  }

  /** An accepted sign-in ends signed in as the returned user, with no error and not loading. */
  lemma {:induction false} AcceptedSignIn(s: UserState, form: map<string, string>, data: UserReply)
    requires Filled(form, "email") && Filled(form, "password")
    ensures ReduceAll(s, SubmitActions(form, Replied(true, data))) == UserState(Some(data.user), None, false)
  {
    var acts := SubmitActions(form, Replied(true, data));
    assert acts[|acts| - 1] == SignInSuccess(data.user);
    assert acts == acts[..|acts| - 1] + [SignInSuccess(data.user)];
    ReduceAllSnoc(s, acts[..|acts| - 1], SignInSuccess(data.user));
  }

  /** A thrown request is reported as a failure with the error's message, or a generic one. */
  lemma {:induction false} ThrownSignIn(s: UserState, form: map<string, string>, thrown: Thrown)
    requires Filled(form, "email") && Filled(form, "password")
    ensures var message := if thrown.ErrorObject? then thrown.message else UnknownError;
            ReduceAll(s, SubmitActions(form, Threw(thrown))) == UserState(s.currentUser, Some(message), false)
  {
    var message := if thrown.ErrorObject? then thrown.message else UnknownError;
    assert SubmitActions(form, Threw(thrown)) == [SignInStart] + [SignInFailure(message)];
    ReduceAllSnoc(s, [SignInStart], SignInFailure(message));
  }

  /** A rejected reply flagged `success: false` shows the server's message, ends loading and keeps the user. */
  lemma {:induction false} FlaggedRejection(s: UserState, form: map<string, string>, data: UserReply)
    requires Filled(form, "email") && Filled(form, "password")
    requires data.success == Some(false)
    ensures ReduceAll(s, SubmitActions(form, Replied(false, data))) == UserState(s.currentUser, Some(data.message), false)
  {
    assert SubmitActions(form, Replied(false, data)) == [SignInStart] + [SignInFailure(data.message)];
    ReduceAllSnoc(s, [SignInStart], SignInFailure(data.message));
  }

  /** A reply that is neither ok nor flagged `success: false` dispatches only the start: `loading` stays on. */
  lemma UnflaggedRejectionKeepsLoading(s: UserState, form: map<string, string>, data: UserReply)
    requires Filled(form, "email") && Filled(form, "password")
    requires data.success != Some(false)
    ensures SubmitActions(form, Replied(false, data)) == [SignInStart]
    ensures ReduceAll(s, SubmitActions(form, Replied(false, data))).loading
  {
    assert [SignInStart][1..] == [];
  }

  class SignInPage {
    var formData: map<string, string>
    const store: UserStore

    constructor (store: UserStore)
      ensures formData == map[] && this.store == store
    {
      formData := map[];
      this.store := store;
    }

    /** `handleChange`: stores the trimmed input under the input's id, keeping the other fields. */
    method HandleChange(id: string, value: string)
      modifies this
      ensures formData == old(formData)[id := Trim(value)]
    {
      formData := formData[id := Trim(value)];
    }

    /**
     * `handleSubmit`: returns the actions it dispatched (in order), whether
     * the request was issued, and where it navigated.
     */
    method HandleSubmit(response: Response<UserReply>) returns (dispatched: seq<Action>, requested: bool, navigateTo: Option<string>)
      modifies store
      ensures dispatched == SubmitActions(formData, response)
      ensures store.State() == ReduceAll(old(store.State()), dispatched)
      ensures requested <==> Filled(formData, "email") && Filled(formData, "password")
      ensures navigateTo == (if requested && response.Replied? && response.ok then Some(HomePath) else None)
    {
      if !Filled(formData, "email") || !Filled(formData, "password") {
        store.Dispatch(SignInFailure(FillAllFields));
        return [SignInFailure(FillAllFields)], false, None;
      }
      requested := true;
      navigateTo := None;
      store.Dispatch(SignInStart);
      dispatched := [SignInStart];
      match response {
        case Threw(thrown) =>
          var message := if thrown.ErrorObject? then thrown.message else UnknownError;
          store.Dispatch(SignInFailure(message));
          ReduceAllSnoc(old(store.State()), dispatched, SignInFailure(message));
          dispatched := dispatched + [SignInFailure(message)];
        case Replied(ok, data) =>
          if data.success == Some(false) {
            store.Dispatch(SignInFailure(data.message));
            ReduceAllSnoc(old(store.State()), dispatched, SignInFailure(data.message));
            dispatched := dispatched + [SignInFailure(data.message)];
          }
          if ok {
            store.Dispatch(SignInSuccess(data.user));
            ReduceAllSnoc(old(store.State()), dispatched, SignInSuccess(data.user));
            dispatched := dispatched + [SignInSuccess(data.user)];
            navigateTo := Some(HomePath);
          }
      }
    }
  }
}
