/** The top-level page: which screen is shown (login, dashboard or chat) and
    the signed-in user, changed by four handlers handed to the screens. */
module IndexPage {
  import opened Common

  datatype AppState = LoginState | DashboardState | ChatState

  /** The rendered screen, with the user it is given. */
  datatype Screen = LoginScreen | DashboardScreen(user: User) | ChatScreen(user: User)

  /** The page's two state variables together. */
  datatype Snapshot = Snapshot(state: AppState, user: Option<User>)

  const Initial := Snapshot(LoginState, None)

  /** Screen selection, with its fall-back to the login screen. */
  function View(state: AppState, user: Option<User>): (s: Screen)
    ensures state == LoginState ==> s == LoginScreen
    ensures s.ChatScreen? ==> state == ChatState && user == Some(s.user)
    ensures s.DashboardScreen? ==> state == DashboardState && user == Some(s.user)
    ensures user.None? ==> s == LoginScreen
  {
    match (state, user)
    case (LoginState, _) => LoginScreen
    case (ChatState, Some(u)) => ChatScreen(u)
    case (_, Some(u)) => DashboardScreen(u)
    case (_, None) => LoginScreen
  }

  /** The four handlers. */
  datatype Handler = OnLogin(userData: User) | OnLogout | OnNavigateToChat | OnBackToDashboard

  /** The effect of a handler on the page's state. */
  function Next(s: Snapshot, h: Handler): (t: Snapshot)
    ensures h.OnLogin? ==> t == Snapshot(DashboardState, Some(h.userData))
    ensures h.OnLogout? ==> t == Snapshot(LoginState, None)
    ensures h.OnNavigateToChat? ==> t == s.(state := ChatState)
    ensures h.OnBackToDashboard? ==> t == s.(state := DashboardState)
  {
    match h
    case OnLogin(u) => Snapshot(DashboardState, Some(u))
    case OnLogout => Snapshot(LoginState, None)
    case OnNavigateToChat => s.(state := ChatState)
    case OnBackToDashboard => s.(state := DashboardState)
  }

  /** The handlers each screen is given: login to the login screen, logout and
      navigate-to-chat to the dashboard, back-to-dashboard to the chat. */
  predicate Exposed(screen: Screen, h: Handler) {
    match screen
    case LoginScreen => h.OnLogin?
    case DashboardScreen(_) => h.OnLogout? || h.OnNavigateToChat?
    case ChatScreen(_) => h.OnBackToDashboard?
  }

  /** A user is present exactly outside the login state. */
  predicate Consistent(s: Snapshot) {
    s.state == LoginState <==> s.user.None?
  }

  /** In a consistent state the screen follows the state and the fall-back is never taken. */
  lemma ConsistentViewFollowsState(s: Snapshot)
    requires Consistent(s)
    ensures View(s.state, s.user) == match s.state
      case LoginState => LoginScreen
      case DashboardState => DashboardScreen(s.user.value)
      case ChatState => ChatScreen(s.user.value)
  {
  }

  /** A handler of the shown screen keeps the state consistent. */
  lemma ExposedHandlerKeepsConsistent(s: Snapshot, h: Handler)
    requires Consistent(s) && Exposed(View(s.state, s.user), h)
    ensures Consistent(Next(s, h))
  {
  }

  /** Handlers applied in order. */
  function Run(s: Snapshot, hs: seq<Handler>): Snapshot
    decreases |hs|
  {
    if hs == [] then s else Run(Next(s, hs[0]), hs[1..])
  }

  /** Every handler in `hs` belongs to the screen shown when it runs. */
  predicate Admissible(s: Snapshot, hs: seq<Handler>)
    decreases |hs|
  {
    hs == [] || (Exposed(View(s.state, s.user), hs[0]) && Admissible(Next(s, hs[0]), hs[1..]))
  }

  /** Starting from the initial state and using only the shown screen's
      handlers, a user is present exactly outside the login state, so the
      fall-back login screen is never needed. */
  lemma {:induction false} AdmissibleRunsConsistent(s: Snapshot, hs: seq<Handler>)
    requires Consistent(s) && Admissible(s, hs)
    ensures Consistent(Run(s, hs))
    decreases |hs|
  {
    if hs != [] {
      ExposedHandlerKeepsConsistent(s, hs[0]);
      AdmissibleRunsConsistent(Next(s, hs[0]), hs[1..]);
    }
  }

  /** A handler used off its screen can reach the fall-back: navigating to the
      chat before logging in shows the login screen. */
  lemma ChatWithoutUserFallsBack()
    ensures var t := Next(Initial, OnNavigateToChat);
      t.state == ChatState && View(t.state, t.user) == LoginScreen
  {
  }

  /** The page component's state. */
  class App {
    var currentState: AppState
    var user: Option<User>

    function Current(): Snapshot
      reads this
    {
      Snapshot(currentState, user)
    }

    constructor ()
      ensures Current() == Initial
    {
      currentState := LoginState;
      user := None;
    }

    method HandleLogin(userData: User)
      modifies this
      ensures currentState == DashboardState && user == Some(userData)
      ensures Current() == Next(old(Current()), OnLogin(userData))
    {
      user := Some(userData);
      currentState := DashboardState;
    }

    method HandleLogout()
      modifies this
      ensures currentState == LoginState && user == None
      ensures Current() == Next(old(Current()), OnLogout)
    {
      user := None;
      currentState := LoginState;
    }

    method HandleNavigateToChat()
      modifies this
      ensures currentState == ChatState && user == old(user)
      ensures Current() == Next(old(Current()), OnNavigateToChat)
    {
      currentState := ChatState;
    }

    method HandleBackToDashboard()
      modifies this
      ensures currentState == DashboardState && user == old(user)
      ensures Current() == Next(old(Current()), OnBackToDashboard)
    {
      currentState := DashboardState;
    }
  }
}
