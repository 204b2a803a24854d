/** The application state container (`AppProvider`): the signed-in user, the
    "user fetched" and "onboarding completed" flags, the token kept in
    `localStorage['token']`, and the two log collections.

    `State`, `Event` and `Step` describe one completed operation on these
    fields; `Run` replays a sequence of them. The class `AppState` holds the
    same fields as mutable state, and each of its methods is proved to move
    from `old(Snapshot())` to `Step(old(Snapshot()), e)` for its event `e`. */
module AppContext {
  import opened Wrappers
  import opened Types

  /** JavaScript truthiness of an optional number: absent and 0 are falsy. */
  predicate TruthyNumber(n: Option<int>) {
    n.Some? && n.value != 0
  }

  /** JavaScript truthiness of an optional string: absent and "" are falsy. */
  predicate TruthyText(t: Option<string>) {
    t.Some? && t.value != ""
  }

  /** `user.age && user.weight && user.goal`: the profile is complete enough
      to mark onboarding as done. */
  predicate HasProfile(u: User) {
    TruthyNumber(u.age) && TruthyNumber(u.weight) && TruthyText(u.goal)
  }

  /** `localStorage.getItem('token') || ''`. */
  function TokenOrEmpty(stored: Option<string>): (t: string)
    ensures t != "" <==> stored.Some? && stored.value != ""
    ensures t != "" ==> stored == Some(t)
  {
    if stored.Some? then stored.value else ""
  }

  /** The fields of the container. */
  datatype State = State(
    user: Option<User>,
    isUserFetched: bool,
    onboardingCompleted: bool,
    storedToken: Option<string>,
    allFoodLogs: seq<FoodEntry>,
    allActivityLogs: seq<ActivityEntry>)

  /** The state before the mount effect runs, given what `localStorage` holds. */
  function Initial(stored: Option<string>): State {
    State(None, false, false, stored, [], [])
  }

  /** One completed operation of the container, with the gateway's reply. */
  datatype Event =
    | Mounted
    | SignedUp(auth: Reply<AuthData>)
    | LoggedIn(auth: Reply<AuthData>)
    | UserFetched(me: Reply<Option<User>>)
    | FoodLogsFetched(foods: Reply<seq<FoodEntry>>)
    | ActivityLogsFetched(activities: Reply<seq<ActivityEntry>>)
    | LoggedOut

  /** The calls the mount effect starts: all three fetches when a token is
      stored, none otherwise. */
  datatype StartupFetch = UserFetch(token: string) | FoodLogsFetch | ActivityLogsFetch

  function StartupFetches(stored: Option<string>): (fs: seq<StartupFetch>)
    ensures fs == [] <==> TokenOrEmpty(stored) == ""
    ensures fs != [] ==> fs == [UserFetch(stored.value), FoodLogsFetch, ActivityLogsFetch]
  {
    var token := TokenOrEmpty(stored);
    if token != "" then [UserFetch(token), FoodLogsFetch, ActivityLogsFetch] else []
  }

  /** True of the events that set `onboardingCompleted`: a resolved sign-up,
      login or user fetch that delivered a user with a complete profile. */
  predicate GrantsOnboarding(e: Event) {
    match e
    case SignedUp(Resolved(d)) => HasProfile(d.user)
    case LoggedIn(Resolved(d)) => HasProfile(d.user)
    case UserFetched(Resolved(Some(u))) => HasProfile(u)
    case _ => false
  }

  /** What an event does to the stored token: `Some(t)` when it writes `t`
      (`None` for a removal), `None` when it leaves the token alone. */
  function TokenWrite(e: Event): Option<Option<string>> {
    match e
    case SignedUp(Resolved(d)) => Some(Some(d.jwt))
    case LoggedIn(Resolved(d)) => Some(Some(d.jwt))
    case LoggedOut => Some(None)
    case _ => None
  }

  /** The effect of one completed operation on the container's fields. */
  function Step(s: State, e: Event): (r: State)
    // onboarding is one-way: only logout clears it, and it is only ever set by a complete profile
    ensures e != LoggedOut && s.onboardingCompleted ==> r.onboardingCompleted
    ensures r.onboardingCompleted && !s.onboardingCompleted ==> GrantsOnboarding(e)
    ensures GrantsOnboarding(e) ==> r.onboardingCompleted
    // isUserFetched never goes back to false
    ensures s.isUserFetched ==> r.isUserFetched
    // the token slot is written exactly by sign-up, login and logout
    ensures r.storedToken == (if TokenWrite(e).Some? then TokenWrite(e).value else s.storedToken)
    // the collections are only replaced by their own listings
    ensures !e.FoodLogsFetched? ==> r.allFoodLogs == s.allFoodLogs
    ensures !e.ActivityLogsFetched? ==> r.allActivityLogs == s.allActivityLogs
  {
    match e
    case Mounted =>
      if TokenOrEmpty(s.storedToken) != "" then s else s.(isUserFetched := true)
    case SignedUp(Rejected) => s
    case SignedUp(Resolved(d)) =>
      s.(user := Some(d.user),
         onboardingCompleted := s.onboardingCompleted || HasProfile(d.user),
         storedToken := Some(d.jwt))
    case LoggedIn(Rejected) => s
    case LoggedIn(Resolved(d)) =>
      s.(user := Some(d.user.(token := Some(d.jwt))),
         onboardingCompleted := s.onboardingCompleted || HasProfile(d.user),
         storedToken := Some(d.jwt))
    case UserFetched(Rejected) => s
    case UserFetched(Resolved(None)) => s.(isUserFetched := true)
    case UserFetched(Resolved(Some(u))) =>
      s.(user := Some(u),
         onboardingCompleted := s.onboardingCompleted || HasProfile(u),
         isUserFetched := true)
    case FoodLogsFetched(Rejected) => s
    case FoodLogsFetched(Resolved(foods)) => s.(allFoodLogs := foods)
    case ActivityLogsFetched(Rejected) => s
    case ActivityLogsFetched(Resolved(activities)) => s.(allActivityLogs := activities)
    case LoggedOut =>
      s.(storedToken := None, user := None, onboardingCompleted := false)
  }

  /** The state after the events of `es`, in order. */
  function Run(s: State, es: seq<Event>): State {
    if es == [] then s else Step(Run(s, es[..|es| - 1]), es[|es| - 1])
  }

  /** Once set, `isUserFetched` stays set through any later operations. */
  lemma {:induction false} FetchedNeverReverts(s: State, es: seq<Event>, i: nat)
    requires i <= |es|
    ensures Run(s, es[..i]).isUserFetched ==> Run(s, es).isUserFetched
  {
    if i < |es| {
      assert es[..|es| - 1][..i] == es[..i];
      FetchedNeverReverts(s, es[..|es| - 1], i);
    } else {
      assert es[..i] == es;
    }
  }

  /** No logout occurs among the events of `es` after position `i`. */
  predicate NoLogoutAfter(es: seq<Event>, i: int) {
    forall j :: 0 <= j < |es| && i < j ==> es[j] != LoggedOut
  }

  /** Onboarding is complete after a run exactly when some event granted it
      with no logout after it, or it was complete at the start and no logout
      happened at all. */
  lemma {:induction false} OnboardingAfterRun(s: State, es: seq<Event>)
    ensures Run(s, es).onboardingCompleted <==>
      (exists i :: 0 <= i < |es| && GrantsOnboarding(es[i]) && NoLogoutAfter(es, i))
      || (s.onboardingCompleted && NoLogoutAfter(es, -1))
  {
    if es != [] {
      var n := |es| - 1;
      var front := es[..n];
      OnboardingAfterRun(s, front);
      var before := Run(s, front);
      assert forall j :: 0 <= j < n ==> front[j] == es[j];
      if Run(s, es).onboardingCompleted {
        if GrantsOnboarding(es[n]) {
          assert NoLogoutAfter(es, n);
        } else {
          assert es[n] != LoggedOut;
          assert before.onboardingCompleted;
          if s.onboardingCompleted && NoLogoutAfter(front, -1) {
            assert NoLogoutAfter(es, -1);
          } else {
            var i :| 0 <= i < n && GrantsOnboarding(front[i]) && NoLogoutAfter(front, i);
            assert NoLogoutAfter(es, i);
          }
        }
      }
    }
  }

  /** The stored token after a run is the one written by the last event that
      wrote it (sign-up, login, logout), or the initial one if none did. */
  lemma {:induction false} TokenAfterRun(s: State, es: seq<Event>, i: int)
    requires -1 <= i < |es|
    requires i >= 0 ==> TokenWrite(es[i]).Some?
    requires forall j :: i < j < |es| ==> TokenWrite(es[j]).None?
    ensures Run(s, es).storedToken == if i >= 0 then TokenWrite(es[i]).value else s.storedToken
  {
    if es != [] {
      var n := |es| - 1;
      if i == n {
      } else {
        assert forall j :: i < j < n ==> TokenWrite(es[..n][j]).None?;
        TokenAfterRun(s, es[..n], i);
      }
    }
  }

  /** A navigation target recorder standing in for the router: each call to
      `navigate(path)` appends `path`. */
  class Navigator {
    var history: seq<string>

    constructor ()
      ensures history == []
    {
      history := [];
    }

    method Navigate(path: string)
      modifies this
      ensures history == old(history) + [path]
    {
      history := history + [path];
    }
  }

  /** The mutable container, one field per `useState` plus the token slot. */
  class AppState {
    var user: Option<User>
    var isUserFetched: bool
    var onboardingCompleted: bool
    var storedToken: Option<string>
    var allFoodLogs: seq<FoodEntry>
    var allActivityLogs: seq<ActivityEntry>
    const nav: Navigator

    function Snapshot(): State
      reads this
    {
      State(user, isUserFetched, onboardingCompleted, storedToken, allFoodLogs, allActivityLogs)
    }

    /** The provider's first render: empty state, with `localStorage` holding `stored`. */
    constructor (stored: Option<string>, nav: Navigator)
      ensures Snapshot() == Initial(stored) && this.nav == nav
      ensures user == None && !isUserFetched && !onboardingCompleted
    {
      user := None;
      isUserFetched := false;
      onboardingCompleted := false;
      storedToken := stored;
      allFoodLogs := [];
      allActivityLogs := [];
      this.nav := nav;
    }

    /** The mount effect: with a non-empty stored token it starts the user,
        food and activity fetches (their completions are the methods below);
        otherwise it marks the user as fetched and starts nothing. */
    method Mount() returns (issued: seq<StartupFetch>)
      modifies this`isUserFetched
      ensures Snapshot() == Step(old(Snapshot()), Mounted)
      ensures issued == StartupFetches(storedToken)
      ensures issued == [] ==> isUserFetched
      ensures issued != [] ==> isUserFetched == old(isUserFetched)
    {
      issued := StartupFetches(storedToken);
      if issued == [] {
        isUserFetched := true;
      }
    }

    /** `signup`, completed with the reply of `auth.register`. A rejection
        propagates before any field is written. */
    method Signup(reply: Reply<AuthData>)
      modifies this`user, this`onboardingCompleted, this`storedToken
      ensures Snapshot() == Step(old(Snapshot()), SignedUp(reply))
      ensures reply.Rejected? ==> Snapshot() == old(Snapshot())
      ensures reply.Resolved? ==> user == Some(reply.data.user) && storedToken == Some(reply.data.jwt)
      ensures reply.Resolved? ==>
        onboardingCompleted == (old(onboardingCompleted) || HasProfile(reply.data.user))
    {
      if reply.Resolved? {
        var data := reply.data;
        user := Some(data.user);
        if HasProfile(data.user) {
          onboardingCompleted := true;
        }
        storedToken := Some(data.jwt);
      }
    }

    /** `login`, completed with the reply of `auth.login`: the JWT is merged
        into the user record and written to the token slot. */
    method Login(reply: Reply<AuthData>)
      modifies this`user, this`onboardingCompleted, this`storedToken
      ensures Snapshot() == Step(old(Snapshot()), LoggedIn(reply))
      ensures reply.Rejected? ==> Snapshot() == old(Snapshot())
      ensures reply.Resolved? ==>
        user == Some(reply.data.user.(token := Some(reply.data.jwt)))
        && user.value.token == storedToken == Some(reply.data.jwt)
      ensures reply.Resolved? ==>
        onboardingCompleted == (old(onboardingCompleted) || HasProfile(reply.data.user))
    {
      if reply.Resolved? {
        var data := reply.data;
        user := Some(data.user.(token := Some(data.jwt)));
        storedToken := Some(data.jwt);
        if HasProfile(data.user) {
          onboardingCompleted := true;
        }
        storedToken := Some(data.jwt);
      }
    }

    /** `fetchUser`, completed with the reply of `user.me`. A resolved reply
        marks the user as fetched whether or not it holds a user; a rejection
        propagates and leaves everything, the flag included, as it was. */
    method FetchUser(reply: Reply<Option<User>>)
      modifies this`user, this`onboardingCompleted, this`isUserFetched
      ensures Snapshot() == Step(old(Snapshot()), UserFetched(reply))
      ensures isUserFetched == (old(isUserFetched) || reply.Resolved?)
      ensures user == (if reply.Resolved? && reply.data.Some? then reply.data else old(user))
    {
      if reply.Resolved? {
        var data := reply.data;
        if data.Some? {
          user := data;
          if HasProfile(data.value) {
            onboardingCompleted := true;
          }
        }
        isUserFetched := true;
      }
    }

    /** `fetchFoodLogs`: the listing replaces the whole collection. */
    method FetchFoodLogs(reply: Reply<seq<FoodEntry>>)
      modifies this`allFoodLogs
      ensures Snapshot() == Step(old(Snapshot()), FoodLogsFetched(reply))
      ensures allFoodLogs == if reply.Resolved? then reply.data else old(allFoodLogs)
    {
      if reply.Resolved? {
        allFoodLogs := reply.data;
      }
    }

    /** `fetchActivityLogs`: the listing replaces the whole collection. */
    method FetchActivityLogs(reply: Reply<seq<ActivityEntry>>)
      modifies this`allActivityLogs
      ensures Snapshot() == Step(old(Snapshot()), ActivityLogsFetched(reply))
      ensures allActivityLogs == if reply.Resolved? then reply.data else old(allActivityLogs)
    {
      if reply.Resolved? {
        allActivityLogs := reply.data;
      }
    }

    /** `logout`: removes the token, clears the user and the onboarding flag,
        and navigates to "/"; the log collections are kept. */
    method Logout()
      modifies this`storedToken, this`user, this`onboardingCompleted, nav
      ensures Snapshot() == Step(old(Snapshot()), LoggedOut)
      ensures storedToken == None && user == None && !onboardingCompleted
      ensures allFoodLogs == old(allFoodLogs) && allActivityLogs == old(allActivityLogs)
      ensures isUserFetched == old(isUserFetched)
      ensures nav.history == old(nav.history) + ["/"]
    {
      storedToken := None;
      user := None;
      onboardingCompleted := false;
      nav.Navigate("/");
    }
  }
}
