/**
  client/src/redux/authSlice.js: the `auth` slice of the Redux store.  Each
  of its five reducers assigns one field from the action's payload.  The
  slice is a class whose fields the reducers assign; `Reduce` is the same
  transition on a snapshot of the state, against which the methods are
  proved.
 */
module AuthSlice {
  import opened Common
  import opened Db
  import opened ClientTypes

  datatype AuthState = AuthState(
    user: Option<AuthUser>,
    suggestedUsers: Option<seq<UserCard>>,
    userProfile: Option<UserProfile>,
    selectedUser: Option<UserCard>,
    searchResults: seq<UserCard>)

  /** `initialState`: nobody logged in, no profile or chat partner, and both
      lists empty. */
  const Initial := AuthState(None, Some([]), None, None, [])

  datatype Action =
    | SetAuthUser(user: Option<AuthUser>)
    | SetSuggestedUsers(users: Option<seq<UserCard>>)
    | SetUserProfile(profile: Option<UserProfile>)
    | SetSelectedUser(selected: Option<UserCard>)
    | SetSearchResults(results: seq<UserCard>)

  /** The field an action assigns. */
  function Field(a: Action): nat {
    match a
    case SetAuthUser(_) => 0
    case SetSuggestedUsers(_) => 1
    case SetUserProfile(_) => 2
    case SetSelectedUser(_) => 3
    case SetSearchResults(_) => 4
  }

  /** The slice reducer: the action's field takes its payload, the other
      four fields are kept. */
  function Reduce(s: AuthState, a: Action): (r: AuthState)
    ensures r.user == (if a.SetAuthUser? then a.user else s.user)
    ensures r.suggestedUsers == (if a.SetSuggestedUsers? then a.users else s.suggestedUsers)
    ensures r.userProfile == (if a.SetUserProfile? then a.profile else s.userProfile)
    ensures r.selectedUser == (if a.SetSelectedUser? then a.selected else s.selectedUser)
    ensures r.searchResults == (if a.SetSearchResults? then a.results else s.searchResults)
  {
    match a
    case SetAuthUser(u) => s.(user := u)
    case SetSuggestedUsers(us) => s.(suggestedUsers := us)
    case SetUserProfile(p) => s.(userProfile := p)
    case SetSelectedUser(sel) => s.(selectedUser := sel)
    case SetSearchResults(rs) => s.(searchResults := rs)
  }

  /** Dispatching the same action twice is dispatching it once. */
  lemma ReduceIsIdempotent(s: AuthState, a: Action)
    ensures Reduce(Reduce(s, a), a) == Reduce(s, a)
  {
  }

  /** Of two writes to one field, the later one wins. */
  lemma LastWriteWins(s: AuthState, a: Action, b: Action)
    requires Field(a) == Field(b)
    ensures Reduce(Reduce(s, a), b) == Reduce(s, b)
  {
  }

  /** Writes to different fields commute. */
  lemma SettersOfDifferentFieldsCommute(s: AuthState, a: Action, b: Action)
    requires Field(a) != Field(b)
    ensures Reduce(Reduce(s, a), b) == Reduce(Reduce(s, b), a)
  {
  }

  class AuthStore {
    var user: Option<AuthUser>
    var suggestedUsers: Option<seq<UserCard>>
    var userProfile: Option<UserProfile>
    var selectedUser: Option<UserCard>
    var searchResults: seq<UserCard>

    function State(): AuthState
      reads this
    {
      AuthState(user, suggestedUsers, userProfile, selectedUser, searchResults)
    }

    constructor ()
      ensures State() == Initial
    {
      user, suggestedUsers, userProfile, selectedUser, searchResults := None, Some([]), None, None, [];
    }

    method SetAuthUserReducer(payload: Option<AuthUser>)
      modifies this
      ensures State() == Reduce(old(State()), SetAuthUser(payload))
    {
      user := payload;
    }

    method SetSuggestedUsersReducer(payload: Option<seq<UserCard>>)
      modifies this
      ensures State() == Reduce(old(State()), SetSuggestedUsers(payload))
    {
      suggestedUsers := payload;
    }

    method SetUserProfileReducer(payload: Option<UserProfile>)
      modifies this
      ensures State() == Reduce(old(State()), SetUserProfile(payload))
    {
      userProfile := payload;
    }

    method SetSelectedUserReducer(payload: Option<UserCard>)
      modifies this
      ensures State() == Reduce(old(State()), SetSelectedUser(payload))
    {
      selectedUser := payload;
    }

    method SetSearchResultsReducer(payload: seq<UserCard>)
      modifies this
      ensures State() == Reduce(old(State()), SetSearchResults(payload))
    {
      searchResults := payload;
    }

    /** `dispatch(action)`: routes the action to its reducer. */
    method Dispatch(a: Action)
      modifies this
      ensures State() == Reduce(old(State()), a)
    {
      match a
      case SetAuthUser(u) => SetAuthUserReducer(u);
      case SetSuggestedUsers(us) => SetSuggestedUsersReducer(us);
      case SetUserProfile(p) => SetUserProfileReducer(p);
      case SetSelectedUser(sel) => SetSelectedUserReducer(sel);
      case SetSearchResults(rs) => SetSearchResultsReducer(rs);
    }
  }
}
