/**
 * The navigation shell and the launch-time permission request: which
 * screens exist for a given session state, and whether a denial alert is
 * raised when the app starts.
 */
module AppShell {
  import opened Wrappers
  import opened Device
  import Auth
  import RideTracking

  datatype Screen = Login | Signup | Dashboard | RideDetail

  /** A stack navigator: its screens, in declaration order, and its initial route. */
  datatype Navigator = Navigator(screens: seq<Screen>, initialRoute: Screen)

  /** `RootNavigator`: nothing while loading; the signed-in screens when a
      user is present, the signed-out screens otherwise. */
  function RootNavigator(loading: bool, user: Option<Auth.User>): (r: Option<Navigator>)
    ensures r.None? <==> loading
    ensures r.Some? ==> r.value.initialRoute in r.value.screens
    ensures r.Some? && user.Some? ==>
      r.value.initialRoute == Dashboard &&
      forall sc :: sc in r.value.screens <==> sc == Dashboard || sc == RideDetail
    ensures r.Some? && user.None? ==>
      r.value.initialRoute == Login &&
      forall sc :: sc in r.value.screens <==> sc == Login || sc == Signup
  {
    if loading then None
    else if user.Some? then Some(Navigator([Dashboard, RideDetail], Dashboard))
    else Some(Navigator([Login, Signup], Login))
  }

  /** What the launch-time request did: whether it asked, and the alert it raised. */
  datatype LaunchCheck = LaunchCheck(requested: bool, notice: Option<Notice>)

  const LaunchDeniedNotice := Notice("Permission Denied",
    "Location permissions are required for full app functionality.")

  /** `requestAllPermissions`: only Android asks, and it alerts unless all
      three location permissions are granted. */
  function RequestAllPermissions(os: OS, grants: Grants): (r: LaunchCheck)
    ensures r.requested <==> os == Android
    ensures r.notice.Some? <==> os == Android && !AllGranted(grants)
    ensures r.notice.Some? ==> r.notice.value.title == "Permission Denied"
  {
    if os != Android then LaunchCheck(false, None)
    else if AllGranted(grants) then LaunchCheck(true, None)
    else LaunchCheck(true, Some(LaunchDeniedNotice))
  }

  /** The launch check stays silent exactly when the recorder may proceed,
      on every platform: both test the same three grants on Android, and
      neither blocks elsewhere. */
  lemma LaunchAgreesWithRecorder(os: OS, grants: Grants)
    ensures RequestAllPermissions(os, grants).notice.None? <==>
      RideTracking.RequestLocationPermissions(os, grants).granted
  {
  }

  /** After a sign-in or sign-up that completes, the signed-in screens show. */
  lemma SignedInShowsDashboard(s: Auth.AuthState, flow: Auth.Flow, resp: Auth.AuthResponse)
    requires Auth.Authenticated(s, flow, resp).1.Completed?
    ensures var r := Auth.Authenticated(s, flow, resp).0;
      RootNavigator(r.loading, r.user) == Some(Navigator([Dashboard, RideDetail], Dashboard))
  {
  }

  /** A sign-in or sign-up that throws leaves the screen set as it was once loading ends. */
  lemma FailedSignInKeepsScreens(s: Auth.AuthState, flow: Auth.Flow, resp: Auth.AuthResponse)
    requires Auth.Authenticated(s, flow, resp).1.Thrown?
    ensures var r := Auth.Authenticated(s, flow, resp).0;
      RootNavigator(r.loading, r.user) == RootNavigator(false, s.user)
  {
  }

  /** After sign-out the signed-out screens show, whatever the state before. */
  lemma SignedOutShowsLogin(s: Auth.AuthState)
    ensures var r := Auth.SignedOut(s);
      RootNavigator(r.loading, r.user) == Some(Navigator([Login, Signup], Login))
  {
  }

  /** After restore, the signed-in screens show exactly when the persisted
      session carries a user. */
  lemma RestoreChoosesScreens(stored: Option<Auth.Session>)
    ensures var r := Auth.Restored(Auth.Initial(stored));
      RootNavigator(r.loading, r.user).Some? &&
      (RootNavigator(r.loading, r.user).value.initialRoute == Dashboard <==>
        stored.Some? && stored.value.user.Some?)
  {
  }
}
