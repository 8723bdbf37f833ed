/** The route guard `ProtectedRoute`: on mount and whenever its `session`
    or `requiredRoles` props change it runs `checkAuthorization`, which
    updates four state fields; each render then maps those fields and the
    `session` prop to a loading screen, a redirect, or the guarded children. */
module ProtectedRoute {
  import opened Portal
  import opened Text

  /** The substring of the current pathname that exempts the setup page. */
  const SETUP_MARKER: string := "setup-profile"

  /** An awaited call either returns a value or rejects (an exception that
      the check's `catch` block receives). */
  datatype Attempt<T> = Returned(value: T) | Threw

  /** The guard's state hooks. */
  datatype GuardState = GuardState(
    loading: bool,
    authorized: bool,
    userProfile: Option<Profile>,
    userRole: Option<string>)

  /** The state at mount. */
  const INITIAL: GuardState := GuardState(true, false, None, None)

  /** The state a check leaves, with the calls it made and the
      `window.location.href` assignments it performed. */
  datatype Check = Check(state: GuardState, requests: seq<Request>, navs: seq<Nav>)

  /** A check that ends without deciding for access: the `return` after
      `setAuthorized(false)` or the `catch` block, then `finally`. */
  function Denied(st: GuardState, requests: seq<Request>): Check
  {
    Check(st.(authorized := false, loading := false), requests, [])
  }

  /** `checkAuthorization()` from state `st`, with the `session` and
      `requiredRoles` props, the current pathname, and the awaited results of
      `getSession()` (consulted only without a `session` prop) and of the
      profile fetch (consulted only once some session exists). */
  function CheckResult(st: GuardState, sessionProp: Option<Session>, requiredRoles: seq<string>,
                       pathname: string, lookup: Attempt<Option<Session>>,
                       fetch: Attempt<FetchResult>): (c: Check)
    ensures !c.state.loading
    ensures c.navs == [] || c.navs == [Redirect(ADMIN_PORTAL_URL)]
    ensures var k := if sessionProp.Some? then 0 else 1;
      k <= |c.requests| <= k + 1 &&
      (k == 1 ==> c.requests[0] == GetSession) &&
      (|c.requests| == k + 1 ==> c.requests[k].SelectProfile?)
  {
    var looked := if sessionProp.Some? then [] else [GetSession];
    if sessionProp.None? && lookup.Threw? then Denied(st, looked)
    else
      var current := if sessionProp.Some? then sessionProp else lookup.value;
      if current.None? then Denied(st, looked)
      else
        var fetched := looked + [SelectProfile(current.value.userId)];
        if fetch.Threw? || fetch.value.FetchError? then Denied(st, fetched)
        else
          var p := fetch.value.profile;
          var st1 := st.(userProfile := Some(p), userRole := Some(p.role));
          if p.role != STANDARD then
            Check(st1.(authorized := false, loading := false), fetched, [Redirect(ADMIN_PORTAL_URL)])
          else
            var allowed := p.onboardingCompleted || Includes(pathname, SETUP_MARKER);
            Check(st1.(authorized := allowed, loading := false), fetched, [])
  }

  /** What a render returns. */
  datatype View = LoadingScreen | NavigateTo(path: string) | Children(userProfile: Option<Profile>)

  /** The render-time selection, a function of the state and the `session` prop. */
  function Render(st: GuardState, sessionProp: Option<Session>): (v: View)
    ensures v.Children? <==> !st.loading && st.authorized
    ensures v.Children? ==> v.userProfile == st.userProfile
    ensures v == LoadingScreen <==> st.loading
  {
    if st.loading then LoadingScreen
    else if !st.authorized then
      if sessionProp.None? then NavigateTo(LOGIN)
      else if !(st.userProfile.Some? && st.userProfile.value.onboardingCompleted) then NavigateTo(SETUP_PROFILE)
      else NavigateTo(LOGIN)
    else Children(st.userProfile)
  }

  /** The component's state and effects. */
  class RouteGuard {
    var loading: bool
    var authorized: bool
    var userProfile: Option<Profile>
    var userRole: Option<string>
    var requests: seq<Request>
    var navs: seq<Nav>

    function State(): GuardState
      reads this
    {
      GuardState(loading, authorized, userProfile, userRole)
    }

    constructor ()
      ensures State() == INITIAL && requests == [] && navs == []
    {
      loading := true;
      authorized := false;
      userProfile := None;
      userRole := None;
      requests := [];
      navs := [];
    }

    /** `checkAuthorization()`, step by step, with the awaited results as inputs. */
    method CheckAuthorization(sessionProp: Option<Session>, requiredRoles: seq<string>,
                              pathname: string, lookup: Attempt<Option<Session>>,
                              fetch: Attempt<FetchResult>)
      modifies this
      ensures var c := CheckResult(old(State()), sessionProp, requiredRoles, pathname, lookup, fetch);
        State() == c.state && requests == old(requests) + c.requests && navs == old(navs) + c.navs
      ensures !loading
    {
      var currentSession := sessionProp;
      if currentSession.None? {
        requests := requests + [GetSession];
        if lookup.Threw? {
          authorized := false;   // catch
          loading := false;      // finally
          return;
        }
        currentSession := lookup.value;
      }
      if currentSession.None? {
        loading := false;
        authorized := false;
        return;
      }
      requests := requests + [SelectProfile(currentSession.value.userId)];
      if fetch.Threw? {
        authorized := false;
        loading := false;
        return;
      }
      if fetch.value.FetchError? {
        loading := false;
        authorized := false;
        return;
      }
      var profile := fetch.value.profile;
      userProfile := Some(profile);
      userRole := Some(profile.role);
      if profile.role != STANDARD {
        authorized := false;
        navs := navs + [Redirect(ADMIN_PORTAL_URL)];
        loading := false;
        return;
      }
      if !profile.onboardingCompleted && !Includes(pathname, SETUP_MARKER) {
        authorized := false;
      } else {
        authorized := true;
      }
      loading := false;
    }
  }

  // ---------------------------------------------------------------------
  // Properties of one check

  /** With no `session` prop and no session from the provider, the check
      denies access and fetches no profile. */
  lemma NoSessionDenies(st: GuardState, requiredRoles: seq<string>, pathname: string, fetch: Attempt<FetchResult>)
    ensures var c := CheckResult(st, None, requiredRoles, pathname, Returned(None), fetch);
      !c.state.authorized && !c.state.loading && c.requests == [GetSession] && !Selects(c.requests) &&
      c.state.userProfile == st.userProfile && c.navs == []
  {
  }

  /** A failed fetch or a missing profile denies access and leaves
      `userProfile` and `userRole` as they were, stale values included. */
  lemma FetchFailureKeepsProfile(st: GuardState, sessionProp: Option<Session>, requiredRoles: seq<string>,
                                 pathname: string, lookup: Attempt<Option<Session>>, fetch: Attempt<FetchResult>)
    requires sessionProp.Some? || (lookup.Returned? && lookup.value.Some?)
    requires fetch.Threw? || fetch.value.FetchError?
    ensures var c := CheckResult(st, sessionProp, requiredRoles, pathname, lookup, fetch);
      var current := if sessionProp.Some? then sessionProp.value else lookup.value.value;
      !c.state.authorized && !c.state.loading &&
      c.state.userProfile == st.userProfile && c.state.userRole == st.userRole &&
      c.requests == (if sessionProp.Some? then [] else [GetSession]) + [SelectProfile(current.userId)] &&
      !Inserts(c.requests) && c.navs == []
  {
  }

  /** A profile whose role is not `standard` is stored, access is denied,
      and the admin portal redirect is issued. */
  lemma NonStandardRoleRedirects(st: GuardState, sessionProp: Option<Session>, requiredRoles: seq<string>,
                                 pathname: string, lookup: Attempt<Option<Session>>, p: Profile)
    requires p.role != STANDARD
    requires sessionProp.Some? || (lookup.Returned? && lookup.value.Some?)
    ensures var c := CheckResult(st, sessionProp, requiredRoles, pathname, lookup, Returned(Fetched(p)));
      c.state.userProfile == Some(p) && c.state.userRole == Some(p.role) &&
      !c.state.authorized && c.navs == [Redirect(ADMIN_PORTAL_URL)]
  {
  }

  /** For a `standard` profile, access is granted exactly when onboarding is
      complete or `setup-profile` occurs somewhere in the pathname. */
  lemma StandardRoleAuthorization(st: GuardState, sessionProp: Option<Session>, requiredRoles: seq<string>,
                                  pathname: string, lookup: Attempt<Option<Session>>, p: Profile)
    requires p.role == STANDARD
    requires sessionProp.Some? || (lookup.Returned? && lookup.value.Some?)
    ensures var c := CheckResult(st, sessionProp, requiredRoles, pathname, lookup, Returned(Fetched(p)));
      c.state.userProfile == Some(p) && c.state.userRole == Some(STANDARD) && c.navs == [] &&
      (c.state.authorized <==> p.onboardingCompleted || exists i: nat :: OccursAt(pathname, SETUP_MARKER, i))
  {
  }

  /** `requiredRoles` has no effect on a check. */
  lemma RequiredRolesIgnored(st: GuardState, sessionProp: Option<Session>, roles1: seq<string>, roles2: seq<string>,
                             pathname: string, lookup: Attempt<Option<Session>>, fetch: Attempt<FetchResult>)
    ensures CheckResult(st, sessionProp, roles1, pathname, lookup, fetch) ==
            CheckResult(st, sessionProp, roles2, pathname, lookup, fetch)
  {
  }

  /** An exception anywhere in the check denies access. */
  lemma ExceptionDenies(st: GuardState, sessionProp: Option<Session>, requiredRoles: seq<string>,
                        pathname: string, lookup: Attempt<Option<Session>>, fetch: Attempt<FetchResult>)
    requires (sessionProp.None? && lookup.Threw?) || fetch.Threw?
    ensures var c := CheckResult(st, sessionProp, requiredRoles, pathname, lookup, fetch);
      !c.state.authorized && !c.state.loading && c.state.userProfile == st.userProfile
  {
  }

  /** Every check ends with `loading` false, and grants access only to a
      `standard` profile it has just stored, never on a failure. */
  lemma CheckFailsClosed(st: GuardState, sessionProp: Option<Session>, requiredRoles: seq<string>,
                         pathname: string, lookup: Attempt<Option<Session>>, fetch: Attempt<FetchResult>)
    ensures var c := CheckResult(st, sessionProp, requiredRoles, pathname, lookup, fetch);
      !c.state.loading &&
      (c.state.authorized ==>
        fetch.Returned? && fetch.value.Fetched? && c.state.userProfile == Some(fetch.value.profile) &&
        fetch.value.profile.role == STANDARD &&
        (fetch.value.profile.onboardingCompleted || Includes(pathname, SETUP_MARKER)))
  {
  }

  // ---------------------------------------------------------------------
  // Properties of the render selection

  /** When access is denied, a missing `session` prop always means the login
      page; otherwise a missing profile or incomplete onboarding means the
      setup page, and anything else the login page. */
  lemma DeniedRedirects(st: GuardState, sessionProp: Option<Session>)
    requires !st.loading && !st.authorized
    ensures sessionProp.None? ==> Render(st, sessionProp) == NavigateTo(LOGIN)
    ensures sessionProp.Some? && (st.userProfile.None? || !st.userProfile.value.onboardingCompleted) ==>
      Render(st, sessionProp) == NavigateTo(SETUP_PROFILE)
    ensures sessionProp.Some? && st.userProfile.Some? && st.userProfile.value.onboardingCompleted ==>
      Render(st, sessionProp) == NavigateTo(LOGIN)
  {
  }

  /** At mount the guard shows the loading screen. */
  lemma MountShowsLoading(sessionProp: Option<Session>)
    ensures Render(INITIAL, sessionProp) == LoadingScreen
  {
  }

  /** At mount with no session anywhere, the first check leads to the login
      page and the guarded children are not rendered. */
  lemma NoSessionAtMountGoesToLogin(requiredRoles: seq<string>, pathname: string, fetch: Attempt<FetchResult>)
    ensures Render(CheckResult(INITIAL, None, requiredRoles, pathname, Returned(None), fetch).state, None) == NavigateTo(LOGIN)
  {
  }

  /** At mount with a `session` prop, a failed profile fetch leads to the
      setup page, not to the login page. */
  lemma FetchFailureAtMountGoesToSetup(session: Session, requiredRoles: seq<string>, pathname: string,
                                       lookup: Attempt<Option<Session>>, fetch: Attempt<FetchResult>)
    requires fetch.Threw? || fetch.value.FetchError?
    ensures Render(CheckResult(INITIAL, Some(session), requiredRoles, pathname, lookup, fetch).state, Some(session)) ==
      NavigateTo(SETUP_PROFILE)
  {
  }

  /** Without a `session` prop, a self-fetched session never turns a denial
      into anything but the login page. */
  lemma SelfFetchedSessionDeniedGoesToLogin(st: GuardState, requiredRoles: seq<string>, pathname: string,
                                            session: Session, fetch: Attempt<FetchResult>)
    requires !CheckResult(st, None, requiredRoles, pathname, Returned(Some(session)), fetch).state.authorized
    ensures Render(CheckResult(st, None, requiredRoles, pathname, Returned(Some(session)), fetch).state, None) ==
      NavigateTo(LOGIN)
  {
  }

  /** A non-standard user with a `session` prop and incomplete onboarding is
      both sent to the admin portal by the check and to the setup page by the
      next render. */
  lemma NonStandardRedirectsTwice(st: GuardState, session: Session, requiredRoles: seq<string>,
                                  pathname: string, lookup: Attempt<Option<Session>>, p: Profile)
    requires p.role != STANDARD && !p.onboardingCompleted
    ensures var c := CheckResult(st, Some(session), requiredRoles, pathname, lookup, Returned(Fetched(p)));
      c.navs == [Redirect(ADMIN_PORTAL_URL)] && Render(c.state, Some(session)) == NavigateTo(SETUP_PROFILE)
  {
  }

  // ---------------------------------------------------------------------
  // Properties over the component's lifetime

  /** The props and awaited results of one effect run. */
  datatype CheckInput = CheckInput(
    sessionProp: Option<Session>,
    requiredRoles: seq<string>,
    pathname: string,
    lookup: Attempt<Option<Session>>,
    fetch: Attempt<FetchResult>)

  /** Access is granted only with a stored `standard` profile. */
  predicate GrantsOnlyStandard(st: GuardState)
  {
    st.authorized ==> st.userProfile.Some? && st.userProfile.value.role == STANDARD
  }

  /** The state after the effect has run once for each input, in order.
      Every sequence of checks keeps access tied to a stored `standard`
      profile. */
  function Lifetime(st: GuardState, inputs: seq<CheckInput>): (r: GuardState)
    ensures GrantsOnlyStandard(st) ==> GrantsOnlyStandard(r)
    decreases |inputs|
  {
    if inputs == [] then st
    else
      var i := inputs[0];
      Lifetime(CheckResult(st, i.sessionProp, i.requiredRoles, i.pathname, i.lookup, i.fetch).state, inputs[1..])
  }

  /** Once a check has run, `loading` stays false: no re-check sets it back
      to true, so later renders never show the loading screen again. */
  lemma {:induction false} LoadingNeverReset(st: GuardState, inputs: seq<CheckInput>, sessionProp: Option<Session>)
    requires |inputs| > 0
    ensures !Lifetime(st, inputs).loading
    ensures Render(Lifetime(st, inputs), sessionProp) != LoadingScreen
    decreases |inputs|
  {
    var i := inputs[0];
    var next := CheckResult(st, i.sessionProp, i.requiredRoles, i.pathname, i.lookup, i.fetch).state;
    CheckFailsClosed(st, i.sessionProp, i.requiredRoles, i.pathname, i.lookup, i.fetch);
    if |inputs| > 1 {
      LoadingNeverReset(next, inputs[1..], sessionProp);
    }
  }

  /** A check that fails before a profile is fetched or when the fetch
      fails. */
  predicate FailsBeforeProfile(i: CheckInput)
  {
    i.fetch.Threw? || i.fetch.value.FetchError? ||
    (i.sessionProp.None? && (i.lookup.Threw? || i.lookup.value.None?))
  }

  /** A run of failing checks never changes `userProfile` or `userRole`: a
      profile stored by an earlier check persists through them. */
  lemma {:induction false} StaleProfilePersists(st: GuardState, inputs: seq<CheckInput>)
    requires forall k :: 0 <= k < |inputs| ==> FailsBeforeProfile(inputs[k])
    ensures Lifetime(st, inputs).userProfile == st.userProfile
    ensures Lifetime(st, inputs).userRole == st.userRole
    ensures |inputs| > 0 ==> !Lifetime(st, inputs).authorized
    decreases |inputs|
  {
    if inputs != [] {
      var i := inputs[0];
      var next := CheckResult(st, i.sessionProp, i.requiredRoles, i.pathname, i.lookup, i.fetch).state;
      assert next.userProfile == st.userProfile && next.userRole == st.userRole && !next.authorized;
      StaleProfilePersists(next, inputs[1..]);
    }
  }
}
