/** The one-shot handler run when the identity provider redirects back to
    `/auth/callback`: obtain the session, find or create the user's profile,
    and issue exactly one navigation. */
module AuthCallback {
  import opened Portal
  import opened Text

  const AUTHENTICATING: string := "Authenticating..."
  const PROCESSING: string := "Processing authentication..."
  const CHECKING: string := "Checking profile..."
  const SETTING_UP: string := "Setting up your profile..."
  const REDIRECTING: string := "Redirecting..."

  const SESSION_FAILED: string := "Failed to establish session"
  const CREATE_FAILED: string := "Failed to create user profile"
  const AUTH_FAILED: string := "Authentication failed"

  /** Outcome of `supabase.auth.getSession()`: an error, or the session (if any). */
  datatype SessionResult = SessionError(message: string) | SessionData(session: Option<Session>)

  /** `handleNavigation`'s decision for a resolved profile. */
  function Destination(p: Profile): (n: Nav)
    ensures n == Redirect(ADMIN_PORTAL_URL) <==> p.role != STANDARD
    ensures n == Navigate(SETUP_PROFILE) <==> p.role == STANDARD && !p.onboardingCompleted
    ensures n == Navigate(HOME) <==> p.role == STANDARD && p.onboardingCompleted
  {
    if p.role != STANDARD then Redirect(ADMIN_PORTAL_URL)
    else if !p.onboardingCompleted then Navigate(SETUP_PROFILE)
    else Navigate(HOME)
  }

  /** The row inserted when no profile was found for the session's user. */
  function DefaultProfile(s: Session): (row: Profile)
    ensures row.authUserId == s.userId && row.email == s.email
    ensures Truthy(MetaFullName(s)) ==> row.fullName == MetaFullName(s).value
    ensures !Truthy(MetaFullName(s)) ==>
      row.fullName <= s.email && '@' !in row.fullName &&
      (|row.fullName| < |s.email| ==> s.email[|row.fullName|] == '@')
    ensures row.role == (if Truthy(MetaRole(s)) then MetaRole(s).value else STANDARD)
    ensures row.isActive && !row.isPublic && !row.onboardingCompleted
  {
    Profile(
      authUserId := s.userId,
      email := s.email,
      fullName := if Truthy(MetaFullName(s)) then MetaFullName(s).value else LocalPart(s.email),
      role := if Truthy(MetaRole(s)) then MetaRole(s).value else STANDARD,
      isActive := true,
      isPublic := false,
      onboardingCompleted := false)
  }

  /** `error.message || 'Authentication failed'`. */
  function ErrorMessage(message: string): (r: string)
    ensures r != ""
    ensures message != "" ==> r == message
    ensures message == "" ==> r == AUTH_FAILED
  {
    if message != "" then message else AUTH_FAILED
  }

  /** What one run of the handler leaves behind: the last status text, the
      error (if one was caught), the navigations issued, the calls made. */
  datatype Run = Run(status: string, error: Option<string>, navs: seq<Nav>, requests: seq<Request>)

  /** One run of the handler for the given oracle results.  The fetch result
      is only consulted once a session exists, the insert result only when
      the fetch yielded no profile. */
  function Callback(sr: SessionResult, fr: FetchResult, ir: InsertResult): (r: Run)
    ensures 1 <= |r.requests| <= 3 && r.requests[0] == GetSession
    ensures |r.requests| >= 2 ==> r.requests[1].SelectProfile?
    ensures |r.requests| == 3 ==> r.requests[2].InsertProfile?
    ensures r.error.Some? ==> r.error.value != ""
  {
    match sr
    case SessionError(_) =>
      Run(PROCESSING, Some(SESSION_FAILED), [NavigateLater(LOGIN)], [GetSession])
    case SessionData(None) =>
      Run(PROCESSING, None, [Navigate(LOGIN)], [GetSession])
    case SessionData(Some(s)) =>
      var looked := [GetSession, SelectProfile(s.userId)];
      match fr
      case Fetched(p) =>
        Run(REDIRECTING, None, [Destination(p)], looked)
      case FetchError(_) =>
        var made := looked + [InsertProfile(DefaultProfile(s))];
        match ir
        case InsertError(_) => Run(SETTING_UP, Some(CREATE_FAILED), [NavigateLater(LOGIN)], made)
        case Inserted(row) => Run(REDIRECTING, None, [Destination(row)], made)
  }

  /** What the component renders. */
  datatype Screen = ErrorScreen(message: string) | Progress(status: string)

  /** The component `AuthCallback`: its state hooks, plus logs of the
      navigations it issued and of the calls it made. */
  class CallbackHandler {
    var status: string
    var error: Option<string>
    var loading: bool
    var navs: seq<Nav>
    var requests: seq<Request>

    constructor ()
      ensures status == AUTHENTICATING && error == None && loading
      ensures navs == [] && requests == []
    {
      status := AUTHENTICATING;
      error := None;
      loading := true;
      navs := [];
      requests := [];
    }

    /** The error screen once a (truthy) error is set, the status spinner otherwise. */
    function View(): (v: Screen)
      reads this
      ensures v.ErrorScreen? <==> Truthy(error)
      ensures v.ErrorScreen? ==> v.message == error.value
      ensures v.Progress? ==> v.status == status
    {
      if Truthy(error) then ErrorScreen(error.value) else Progress(status)
    }

    /** `handleNavigation(session, profile)`. */
    method HandleNavigation(p: Profile)
      modifies this
      ensures status == REDIRECTING && navs == old(navs) + [Destination(p)]
      ensures error == old(error) && loading == old(loading) && requests == old(requests)
    {
      status := REDIRECTING;
      if p.role != STANDARD {
        navs := navs + [Redirect(ADMIN_PORTAL_URL)];
        return;
      }
      if !p.onboardingCompleted {
        navs := navs + [Navigate(SETUP_PROFILE)];
      } else {
        navs := navs + [Navigate(HOME)];
      }
    }

    /** `handleAuthCallback()`, with the awaited results supplied as inputs.
        `thrown` carries the message of an exception to the catch block. */
    method HandleAuthCallback(sr: SessionResult, fr: FetchResult, ir: InsertResult)
      modifies this
      ensures var r := Callback(sr, fr, ir);
        status == r.status &&
        error == (if r.error.Some? then r.error else old(error)) &&
        navs == old(navs) + r.navs &&
        requests == old(requests) + r.requests
      ensures !loading
    {
      var thrown: Option<string> := None;
      status := PROCESSING;
      requests := requests + [GetSession];
      match sr {
        case SessionError(_) =>
          thrown := Some(SESSION_FAILED);
        case SessionData(session) =>
          if session.Some? {
            var s := session.value;
            status := CHECKING;
            requests := requests + [SelectProfile(s.userId)];
            var profile: Option<Profile> := if fr.Fetched? then Some(fr.profile) else None;
            if profile.None? {
              status := SETTING_UP;
              requests := requests + [InsertProfile(DefaultProfile(s))];
              match ir {
                case InsertError(_) =>
                  thrown := Some(CREATE_FAILED);
                case Inserted(newProfile) =>
                  HandleNavigation(newProfile);
              }
            } else {
              HandleNavigation(profile.value);
            }
          } else {
            navs := navs + [Navigate(LOGIN)];
          }
      }
      if thrown.Some? {
        error := Some(ErrorMessage(thrown.value));
        navs := navs + [NavigateLater(LOGIN)];
      }
      loading := false;
    }
  }

  /** The component mounted, its effect run once, then rendered: the error
      screen with the caught error when the run failed, otherwise the last
      status. */
  method ScreenAfterMount(sr: SessionResult, fr: FetchResult, ir: InsertResult) returns (v: Screen)
    ensures Callback(sr, fr, ir).error.Some? ==> v == ErrorScreen(Callback(sr, fr, ir).error.value)
    ensures Callback(sr, fr, ir).error.None? ==> v == Progress(Callback(sr, fr, ir).status)
  {
    var h := new CallbackHandler();
    h.HandleAuthCallback(sr, fr, ir);
    v := h.View();
  }

  // ---------------------------------------------------------------------
  // Properties of one run

  /** A session-retrieval error ends in the error state with a scheduled
      navigation to the login page; no profile is read or written. */
  lemma SessionErrorFailsToLogin(sr: SessionResult, fr: FetchResult, ir: InsertResult)
    requires sr.SessionError?
    ensures Callback(sr, fr, ir).error == Some(SESSION_FAILED)
    ensures Callback(sr, fr, ir).navs == [NavigateLater(LOGIN)]
    ensures !Selects(Callback(sr, fr, ir).requests) && !Inserts(Callback(sr, fr, ir).requests)
  {
  }

  /** With neither a session nor an error, the handler navigates to the login
      page once, without an error and without touching the profile store. */
  lemma NoSessionGoesToLogin(fr: FetchResult, ir: InsertResult)
    ensures Callback(SessionData(None), fr, ir).error == None
    ensures Callback(SessionData(None), fr, ir).navs == [Navigate(LOGIN)]
    ensures !Selects(Callback(SessionData(None), fr, ir).requests)
    ensures !Inserts(Callback(SessionData(None), fr, ir).requests)
  {
  }

  /** An insert is attempted exactly when a session exists and the fetch
      yielded no profile; the row inserted is the default profile. */
  lemma InsertOnlyWhenNoProfile(sr: SessionResult, fr: FetchResult, ir: InsertResult)
    ensures Inserts(Callback(sr, fr, ir).requests) <==> sr.SessionData? && sr.session.Some? && fr.FetchError?
    ensures forall i :: 0 <= i < |Callback(sr, fr, ir).requests| && Callback(sr, fr, ir).requests[i].InsertProfile? ==>
      Callback(sr, fr, ir).requests[i].row == DefaultProfile(sr.session.value)
  {
    var r := Callback(sr, fr, ir);
    if sr.SessionData? && sr.session.Some? && fr.FetchError? {
      assert r.requests[2].InsertProfile?;
    }
  }

  /** Running the handler again once the profile exists inserts nothing and
      goes straight to that profile's destination. */
  lemma RerunDoesNotInsertAgain(s: Session, code: string, row: Profile, ir: InsertResult)
    ensures Inserts(Callback(SessionData(Some(s)), FetchError(code), Inserted(row)).requests)
    ensures !Inserts(Callback(SessionData(Some(s)), Fetched(row), ir).requests)
    ensures Callback(SessionData(Some(s)), Fetched(row), ir).navs ==
      Callback(SessionData(Some(s)), FetchError(code), Inserted(row)).navs
  {
    InsertOnlyWhenNoProfile(SessionData(Some(s)), FetchError(code), Inserted(row));
    InsertOnlyWhenNoProfile(SessionData(Some(s)), Fetched(row), ir);
  }

  /** A fetch error never aborts the run: whatever its code, `PGRST116` or
      another, the run is the same, and it goes on to insert the default
      profile. */
  lemma FetchErrorNeverAborts(s: Session, code: string, ir: InsertResult)
    ensures Callback(SessionData(Some(s)), FetchError(code), ir) == Callback(SessionData(Some(s)), FetchError(NO_ROWS), ir)
    ensures Callback(SessionData(Some(s)), FetchError(code), ir).requests ==
      [GetSession, SelectProfile(s.userId), InsertProfile(DefaultProfile(s))]
  {
  }

  /** A failed insert ends in the error state; no destination is chosen. */
  lemma InsertFailureFailsToLogin(s: Session, code: string, message: string)
    ensures Callback(SessionData(Some(s)), FetchError(code), InsertError(message)).error == Some(CREATE_FAILED)
    ensures Callback(SessionData(Some(s)), FetchError(code), InsertError(message)).navs == [NavigateLater(LOGIN)]
  {
  }

  /** Every run issues exactly one navigation; it is the delayed login
      navigation exactly when the run ended in an error, whose message is
      one of the two the handler throws. */
  lemma ExactlyOneNavigation(sr: SessionResult, fr: FetchResult, ir: InsertResult)
    ensures |Callback(sr, fr, ir).navs| == 1
    ensures Callback(sr, fr, ir).error.Some? <==> Callback(sr, fr, ir).navs[0] == NavigateLater(LOGIN)
    ensures Callback(sr, fr, ir).error.Some? ==>
      Callback(sr, fr, ir).error.value in {SESSION_FAILED, CREATE_FAILED}
  {
  }

  /** A successful run that resolved profile `p` (fetched or inserted) ends
      at `Destination(p)`. */
  lemma SuccessGoesToDestination(s: Session, fr: FetchResult, ir: InsertResult)
    requires fr.Fetched? || ir.Inserted?
    ensures Callback(SessionData(Some(s)), fr, ir).error == None
    ensures Callback(SessionData(Some(s)), fr, ir).navs ==
      [Destination(if fr.Fetched? then fr.profile else ir.row)]
  {
  }

  /** A new user whose metadata names them "Jane Doe" with role "standard",
      and for whom the store returns the inserted row, lands on the setup page. */
  lemma NewStandardUserGoesToSetup(id: string, email: string)
    ensures var s := Session(id, email, Some(Metadata(Some("Jane Doe"), Some(STANDARD))));
      var row := DefaultProfile(s);
      row.fullName == "Jane Doe" && row.role == STANDARD && !row.onboardingCompleted &&
      Callback(SessionData(Some(s)), FetchError(NO_ROWS), Inserted(row)).navs == [Navigate(SETUP_PROFILE)]
  {
  }

  /** Without a metadata full name, the default name is the email's local part. */
  lemma DefaultNameFromEmail()
    ensures DefaultProfile(Session("u1", "jane@example.com", None)).fullName == "jane"
    ensures DefaultProfile(Session("u1", "jane@example.com", Some(Metadata(Some(""), Some(""))))).role == STANDARD
  {
  }
}
