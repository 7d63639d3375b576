/**
 * The `user` slice of the Redux store (client/src/redux/user/userSlice.ts):
 * the signed-in user, the last error message and a loading flag, changed
 * only by the six case reducers the slice defines.
 */
module UserSlice {
  import opened Common

  /** The signed-in user as the server returns it (the fields the client reads). */
  datatype User = User(id: string, username: string, email: string, profilePicture: string, isAdmin: bool)

  /**
   * The JSON body of a sign-in or profile-update reply: the user record on
   * success; `{success: false, message}` on failure.
   */
  datatype UserReply = UserReply(success: Option<bool>, message: string, user: User)

  datatype UserState = UserState(currentUser: Option<User>, error: Option<string>, loading: bool)

  /** The slice's action creators: exactly these six exist. */
  datatype Action =
    | SignInStart
    | SignInSuccess(user: User)
    | SignInFailure(message: string)
    | UpdateStart
    | UpdateSuccess(user: User)
    | UpdateFailure(message: string)
  {
    predicate IsStart() { SignInStart? || UpdateStart? }
    predicate IsSuccess() { SignInSuccess? || UpdateSuccess? }
    predicate IsFailure() { SignInFailure? || UpdateFailure? }
  }

  const InitialState := UserState(None, None, false)

  /**
   * The state a case reducer leaves behind: only a start leaves the slice
   * loading, only a failure leaves an error, and only a success changes the
   * signed-in user.
   */
  function Reduce(s: UserState, a: Action): (r: UserState)
    ensures r.loading <==> a.IsStart()
    ensures a.IsFailure() ==> r.error == Some(a.message)
    ensures !a.IsFailure() ==> r.error == None
    ensures a.IsSuccess() ==> r.currentUser == Some(a.user)
    ensures !a.IsSuccess() ==> r.currentUser == s.currentUser
  {
    match a
    case SignInStart | UpdateStart => s.(loading := true, error := None)
    case SignInSuccess(u) => UserState(Some(u), None, false)
    case UpdateSuccess(u) => UserState(Some(u), None, false)
    case SignInFailure(m) => s.(loading := false, error := Some(m))
    case UpdateFailure(m) => s.(loading := false, error := Some(m))
  }

  /**
   * The state after dispatching `acts` in order: no actions change nothing,
   * and the last action alone decides whether the slice is loading.
   */
  function ReduceAll(s: UserState, acts: seq<Action>): (r: UserState)
    ensures acts == [] ==> r == s
    ensures acts != [] ==> (r.loading <==> acts[|acts| - 1].IsStart())
    decreases |acts|
  {
    if acts == [] then s else ReduceAll(Reduce(s, acts[0]), acts[1..])
  }

  /** Each kind of transition, stated field by field. */
  lemma ReduceEffects(s: UserState, a: Action)
    ensures a.IsStart() ==> Reduce(s, a) == UserState(s.currentUser, None, true)
    ensures a.IsSuccess() ==> Reduce(s, a) == UserState(Some(a.user), None, false)
    ensures a.IsFailure() ==> Reduce(s, a) == UserState(s.currentUser, Some(a.message), false)
  {
  }

  /** Dispatching one more action is reducing once more. */
  lemma {:induction false} ReduceAllSnoc(s: UserState, acts: seq<Action>, a: Action)
    ensures ReduceAll(s, acts + [a]) == Reduce(ReduceAll(s, acts), a)
    decreases |acts|
  {
    if acts != [] {
      assert (acts + [a])[1..] == acts[1..] + [a];
      ReduceAllSnoc(Reduce(s, acts[0]), acts[1..], a);
    }
  }

  /** Whatever came before, a sequence that ends in a Success or Failure leaves `loading` false. */
  lemma {:induction false} SettledIsNotLoading(s: UserState, acts: seq<Action>)
    requires acts != [] && !acts[|acts| - 1].IsStart()
    ensures !ReduceAll(s, acts).loading
  {
    var last := acts[|acts| - 1];
    assert acts == acts[..|acts| - 1] + [last];
    ReduceAllSnoc(s, acts[..|acts| - 1], last);
  }

  /** Only a Success action can change who is signed in. */
  lemma {:induction false} UserChangesOnlyOnSuccess(s: UserState, acts: seq<Action>)
    requires forall i :: 0 <= i < |acts| ==> !acts[i].IsSuccess()
    ensures ReduceAll(s, acts).currentUser == s.currentUser
    decreases |acts|
  {
    if acts != [] {
      UserChangesOnlyOnSuccess(Reduce(s, acts[0]), acts[1..]);
    }
  }

  /** A Start followed by a Success signs the user in with no error, from any state. */
  lemma StartThenSuccess(s: UserState, start: Action, success: Action)
    requires start.IsStart() && success.IsSuccess()
    ensures ReduceAll(s, [start, success]) == UserState(Some(success.user), None, false)
  {
    var mid := Reduce(s, start);
    assert [start, success][1..] == [success];
    assert ReduceAll(s, [start, success]) == ReduceAll(mid, [success]);
    assert ReduceAll(mid, [success]) == ReduceAll(Reduce(mid, success), []);
  }

  /**
   * The store that holds the slice. Each case reducer assigns the fields
   * of the state in place, as the Immer draft in the source does.
   */
  class UserStore {
    var currentUser: Option<User>
    var error: Option<string>
    var loading: bool

    function State(): UserState
      reads this
    {
      UserState(currentUser, error, loading)
    }

    /** `initialState`: nobody signed in, no error, not loading. */
    constructor ()
      ensures currentUser == None && error == None && !loading
    {
      currentUser := None;
      error := None;
      loading := false;
    }

    method SignInStart()
      modifies this
      ensures loading && error == None && currentUser == old(currentUser)
    {
      loading := true;
      error := None;
    }

    method SignInSuccess(user: User)
      modifies this
      ensures currentUser == Some(user) && !loading && error == None
    {
      currentUser := Some(user);
      loading := false;
      error := None;
    }

    method SignInFailure(message: string)
      modifies this
      ensures !loading && error == Some(message) && currentUser == old(currentUser)
    {
      loading := false;
      error := Some(message);
    }

    method UpdateStart()
      modifies this
      ensures loading && error == None && currentUser == old(currentUser)
    {
      loading := true;
      error := None;
    }

    method UpdateSuccess(user: User)
      modifies this
      ensures currentUser == Some(user) && !loading && error == None
    {
      currentUser := Some(user);
      loading := false;
      error := None;
    }

    method UpdateFailure(message: string)
      modifies this
      ensures !loading && error == Some(message) && currentUser == old(currentUser)
    {
      loading := false;
      error := Some(message);
    }

    /** `dispatch(action)`: runs the case reducer the action names. */
    method Dispatch(a: Action)
      modifies this
      ensures State() == Reduce(old(State()), a)
    {
      match a
      case SignInStart => SignInStart();
      case SignInSuccess(u) => SignInSuccess(u);
      case SignInFailure(m) => SignInFailure(m);
      case UpdateStart => UpdateStart();
      case UpdateSuccess(u) => UpdateSuccess(u);
      case UpdateFailure(m) => UpdateFailure(m);
    }
  }
}
