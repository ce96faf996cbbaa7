/** The screen the application shell shows, in its two versions: the
    TypeScript shell (`src/App.tsx`) and the older JavaScript one
    (`src/App.jsx`). Both keep three pieces of state (logged in, the user,
    the active view) and pick one screen from them. */
module AppTsx {
  import opened Common

  /** The signed-in user; only the role decides the screen. */
  datatype User = User(id: string, email: string, username: string, role: string)

  datatype Screen =
    | LoginScreen
    | PerformanceScreen
    | FirearmsScreen
    | AllocationScreen
    | PermitsScreen
    | MaintenanceScreen
    | SuperadminScreen
    | AdminScreen
    | UserScreen

  /** `user?.role === r`: false when there is no user. */
  predicate HasRole(user: Option<User>, r: string) {
    user.Some? && user.value.role == r
  }

  /** The chain of `activeView` tests inside an admin branch: the five
      screens reached through `onViewChange`, or else that branch's
      dashboard. */
  function AdminView(activeView: string, fallback: Screen): (s: Screen)
    ensures activeView == "performance" ==> s == PerformanceScreen
    ensures activeView == "firearms" ==> s == FirearmsScreen
    ensures activeView == "allocation" ==> s == AllocationScreen
    ensures activeView == "permits" ==> s == PermitsScreen
    ensures activeView == "maintenance" ==> s == MaintenanceScreen
    ensures activeView !in {"performance", "firearms", "allocation", "permits", "maintenance"} ==> s == fallback
  {
    if activeView == "performance" then PerformanceScreen
    else if activeView == "firearms" then FirearmsScreen
    else if activeView == "allocation" then AllocationScreen
    else if activeView == "permits" then PermitsScreen
    else if activeView == "maintenance" then MaintenanceScreen
    else fallback
  }

  /** The rendered screen, branch for branch; the second admin test is
      kept although the first one already caught every admin. */
  function Select(loggedIn: bool, user: Option<User>, activeView: string): (s: Screen)
    ensures !loggedIn <==> s == LoginScreen
  {
    if !loggedIn then LoginScreen
    else if HasRole(user, "admin") then AdminView(activeView, SuperadminScreen)
    else if HasRole(user, "admin") then AdminView(activeView, AdminScreen)
    else UserScreen
  }

  /** An admin sees the screen named by the view, or else the superadmin
      dashboard; every other signed-in user (superadmin and guard included)
      gets the user dashboard. */
  lemma SelectLoggedIn(user: Option<User>, activeView: string)
    ensures HasRole(user, "admin") ==>
      Select(true, user, activeView) == AdminView(activeView, SuperadminScreen)
    ensures !HasRole(user, "admin") ==> Select(true, user, activeView) == UserScreen
    ensures HasRole(user, "superadmin") || HasRole(user, "guard") ==> Select(true, user, activeView) == UserScreen
  {
  }

  /** The admin dashboard is never rendered, whatever the state. */
  lemma AdminDashboardUnreachable(loggedIn: bool, user: Option<User>, activeView: string)
    ensures Select(loggedIn, user, activeView) != AdminScreen
  {
    if loggedIn && HasRole(user, "admin") {
      var s := AdminView(activeView, SuperadminScreen);
      assert s != AdminScreen;
    }
  }

  /** The screens that carry `onViewChange` are reached by admins only. */
  lemma ManagementScreensNeedAdmin(loggedIn: bool, user: Option<User>, activeView: string)
    requires Select(loggedIn, user, activeView) != LoginScreen
    requires Select(loggedIn, user, activeView) != UserScreen
    ensures loggedIn && HasRole(user, "admin")
  {
  }

  class App {
    var isLoggedIn: bool
    var user: Option<User>
    var activeView: string

    constructor ()
      ensures !isLoggedIn && user.None? && activeView == "users"
    {
      isLoggedIn, user, activeView := false, None, "users";
    }

    function Shown(): Screen
      reads this
    {
      Select(isLoggedIn, user, activeView)
    }

    /** `handleLogin`. */
    method Login(userData: User)
      modifies this
      ensures isLoggedIn && user == Some(userData) && activeView == "users"
      ensures Shown() == (if userData.role == "admin" then SuperadminScreen else UserScreen)
    {
      user, isLoggedIn, activeView := Some(userData), true, "users";
    }

    /** `handleLogout`. */
    method Logout()
      modifies this
      ensures !isLoggedIn && user.None? && activeView == "users"
      ensures Shown() == LoginScreen
    {
      user, isLoggedIn, activeView := None, false, "users";
    }

    /** `setActiveView`, passed to the screens as `onViewChange`. */
    method ViewChange(view: string)
      modifies this
      ensures activeView == view && isLoggedIn == old(isLoggedIn) && user == old(user)
    {
      activeView := view;
    }
  }
}

module AppJsx {
  import opened Common

  datatype User = User(id: nat, email: string, username: string, role: string)

  datatype Screen = LoginScreen | PerformanceScreen | SuperadminScreen | AdminScreen | UserScreen

  predicate HasRole(user: Option<User>, r: string) {
    user.Some? && user.value.role == r
  }

  /** The rendered screen. */
  function Select(loggedIn: bool, user: Option<User>, activeView: string): (s: Screen)
    ensures !loggedIn <==> s == LoginScreen
    ensures s == SuperadminScreen <==> loggedIn && HasRole(user, "superadmin") && activeView != "performance"
    ensures s == AdminScreen <==> loggedIn && HasRole(user, "admin") && activeView != "performance"
    ensures s == PerformanceScreen <==>
      (loggedIn && (HasRole(user, "superadmin") || HasRole(user, "admin")) && activeView == "performance")
    ensures s == UserScreen <==> loggedIn && !HasRole(user, "superadmin") && !HasRole(user, "admin")
  {
    if !loggedIn then LoginScreen
    else if HasRole(user, "superadmin") then
      (if activeView == "performance" then PerformanceScreen else SuperadminScreen)
    else if HasRole(user, "admin") then
      (if activeView == "performance" then PerformanceScreen else AdminScreen)
    else UserScreen
  }

  /** Every screen is reachable: unlike the TypeScript shell, this one
      gives admins their own dashboard. */
  lemma EveryScreenReachable(s: Screen)
    ensures exists loggedIn: bool, user: Option<User>, view: string :: Select(loggedIn, user, view) == s
  {
    var admin := Some(User(0, "", "", "admin"));
    var superadmin := Some(User(0, "", "", "superadmin"));
    match s
    case LoginScreen => assert Select(false, None, "users") == s;
    case PerformanceScreen => assert Select(true, admin, "performance") == s;
    case SuperadminScreen => assert Select(true, superadmin, "users") == s;
    case AdminScreen => assert Select(true, admin, "users") == s;
    case UserScreen => assert Select(true, None, "users") == s;
  }

  class App {
    var isLoggedIn: bool
    var user: Option<User>
    var activeView: string

    constructor ()
      ensures !isLoggedIn && user.None? && activeView == "users"
    {
      isLoggedIn, user, activeView := false, None, "users";
    }

    function Shown(): Screen
      reads this
    {
      Select(isLoggedIn, user, activeView)
    }

    /** `handleLogin`: a fresh login never opens on the performance view. */
    method Login(userData: User)
      modifies this
      ensures isLoggedIn && user == Some(userData) && activeView == "users"
      ensures Shown() != PerformanceScreen && Shown() != LoginScreen
    {
      user, isLoggedIn, activeView := Some(userData), true, "users";
    }

    /** `handleLogout`. */
    method Logout()
      modifies this
      ensures !isLoggedIn && user.None? && activeView == "users"
      ensures Shown() == LoginScreen
    {
      user, isLoggedIn, activeView := None, false, "users";
    }

    method ViewChange(view: string)
      modifies this
      ensures activeView == view && isLoggedIn == old(isLoggedIn) && user == old(user)
    {
      activeView := view;
    }
  }
}
