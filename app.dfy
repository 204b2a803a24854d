/** The top-level render gate and the route table of `App`. */
module App {
  import opened Wrappers
  import opened Types
  import opened AppContext

  /** The pages rendered inside the layout. */
  datatype Page = Dashboard | FoodLogView | ActivityLogView | ProfileView

  /** What `App` renders: the login page, the loading spinner, the layout
      with the page the route table selects for the current path, or nothing
      when no route matches the path (there is no catch-all route). */
  datatype Screen = LoginScreen | LoadingScreen | InLayout(outlet: Page) | NoMatch

  /** The child routes of the layout at "/", by path segment; "" is the index route. */
  const Routes: seq<(string, Page)> :=
    [("", Dashboard), ("food", FoodLogView), ("activity", ActivityLogView), ("profile", ProfileView)]

  /** The page of the first route whose segment is `segment`. */
  function Lookup(table: seq<(string, Page)>, segment: string): (r: Option<Page>)
    ensures r.None? <==> forall i :: 0 <= i < |table| ==> table[i].0 != segment
    ensures r.Some? ==> (segment, r.value) in table
  {
    if table == [] then None
    else if table[0].0 == segment then Some(table[0].1)
    else Lookup(table[1..], segment)
  }

  function RouteFor(segment: string): Option<Page> {
    Lookup(Routes, segment)
  }

  /** The route table: the index shows the dashboard, "food", "activity" and
      "profile" their pages, and no other segment matches. */
  lemma RouteTable(segment: string)
    ensures RouteFor("") == Some(Dashboard)
    ensures RouteFor("food") == Some(FoodLogView)
    ensures RouteFor("activity") == Some(ActivityLogView)
    ensures RouteFor("profile") == Some(ProfileView)
    ensures segment != "" && segment != "food" && segment != "activity" && segment != "profile"
      ==> RouteFor(segment) == None
  {
  }

  /** What `<Routes>` renders for a path segment: the layout with the
      matching page, or nothing when no route matches. */
  function Routed(segment: string): (s: Screen)
    ensures s == NoMatch <==> RouteFor(segment).None?
    ensures s != NoMatch ==> s.InLayout? && RouteFor(segment) == Some(s.outlet)
  {
    match RouteFor(segment)
    case Some(page) => InLayout(page)
    case None => NoMatch
  }

  /** `!user ? (isUserFetched ? <Login/> : <Loading/>) : <Routes>`. */
  function Render(user: Option<User>, isUserFetched: bool, segment: string): (s: Screen)
    ensures s == LoginScreen <==> user.None? && isUserFetched
    ensures s == LoadingScreen <==> user.None? && !isUserFetched
    ensures user.Some? ==> s == Routed(segment)
  {
    if user.None? then (if isUserFetched then LoginScreen else LoadingScreen)
    else Routed(segment)
  }

  /** A cold start: after the mount effect, an empty or missing token shows
      the login page at once; a stored token shows the spinner while the
      three startup fetches are in flight. */
  method ColdStart(stored: Option<string>, segment: string) returns (screen: Screen, issued: seq<StartupFetch>)
    ensures screen == (if TokenOrEmpty(stored) == "" then LoginScreen else LoadingScreen)
    ensures issued == StartupFetches(stored)
  {
    var nav := new Navigator();
    var ctx := new AppState(stored, nav);
    issued := ctx.Mount();
    screen := Render(ctx.user, ctx.isUserFetched, segment);
  }

  /** Resuming a stored session: once `user.me` resolves with a user the
      layout is shown, and with no user the login page; while it is pending,
      or after it rejected, the spinner stays. */
  method ResumeSession(token: string, me: Reply<Option<User>>, segment: string) returns (screen: Screen)
    requires token != ""
    ensures me.Rejected? ==> screen == LoadingScreen
    ensures me == Resolved(None) ==> screen == LoginScreen
    ensures me.Resolved? && me.data.Some? ==> screen == Routed(segment)
  {
    var nav := new Navigator();
    var ctx := new AppState(Some(token), nav);
    var _ := ctx.Mount();
    ctx.FetchUser(me);
    screen := Render(ctx.user, ctx.isUserFetched, segment);
  }

  /** Signing in from the login page shows the layout; logging out again
      shows the login page and navigates to "/". */
  method SignInThenOut(d: AuthData, segment: string) returns (inside: Screen, outside: Screen, navigated: seq<string>)
    ensures inside == Routed(segment)
    ensures outside == LoginScreen
    ensures navigated == ["/"]
  {
    var nav := new Navigator();
    var ctx := new AppState(None, nav);
    var _ := ctx.Mount();
    ctx.Login(Resolved(d));
    inside := Render(ctx.user, ctx.isUserFetched, segment);
    ctx.Logout();
    outside := Render(ctx.user, ctx.isUserFetched, segment);
    navigated := nav.history;
  }
}
