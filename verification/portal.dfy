/** Entities shared by the auth-callback handler and the route guard: the
    identity provider's session, the `profiles` row, the results the
    identity provider and the profile store can hand back, the requests the
    pipeline sends them, and the navigations it issues. */
module Portal {

  datatype Option<T> = None | Some(value: T)

  /** The only role this client portal serves. */
  const STANDARD: string := "standard"
  /** Everyone else is sent to this external origin (a full-page redirect). */
  const ADMIN_PORTAL_URL: string := "https://admin.rule27design.com"
  const LOGIN: string := "/login"
  const SETUP_PROFILE: string := "/setup-profile"
  const HOME: string := "/"
  /** PostgREST's error code for "`.single()` matched no rows". */
  const NO_ROWS: string := "PGRST116"

  /** The user's `user_metadata`; a missing key is `None`. */
  datatype Metadata = Metadata(fullName: Option<string>, role: Option<string>)

  /** A session's `user`: its id, email and (possibly absent) metadata. */
  datatype Session = Session(userId: string, email: string, metadata: Option<Metadata>)

  /** A row of the `profiles` table. */
  datatype Profile = Profile(
    authUserId: string,
    email: string,
    fullName: string,
    role: string,
    isActive: bool,
    isPublic: bool,
    onboardingCompleted: bool)

  /** JavaScript truthiness of an optional string: present and non-empty. */
  predicate Truthy(v: Option<string>)
  {
    v.Some? && v.value != ""
  }

  /** `userData?.full_name`, with `userData` possibly absent. */
  function MetaFullName(s: Session): Option<string>
  {
    if s.metadata.Some? then s.metadata.value.fullName else None
  }

  /** `userData?.role`, with `userData` possibly absent. */
  function MetaRole(s: Session): Option<string>
  {
    if s.metadata.Some? then s.metadata.value.role else None
  }

  /** Outcome of `from('profiles').select('*').eq('auth_user_id', id).single()`:
      the row, or an error carrying its code (`NO_ROWS` when there is none). */
  datatype FetchResult = Fetched(profile: Profile) | FetchError(code: string)

  /** Outcome of `from('profiles').insert(row).select().single()`. */
  datatype InsertResult = Inserted(row: Profile) | InsertError(message: string)

  /** The calls the pipeline makes on the identity provider and the store. */
  datatype Request = GetSession | SelectProfile(authUserId: string) | InsertProfile(row: Profile)

  /** A navigation side effect: an in-app route change (`navigate(path)` or
      `<Navigate to={path}>`), the same scheduled after a delay, or an
      assignment to `window.location.href`. */
  datatype Nav = Navigate(path: string) | NavigateLater(path: string) | Redirect(url: string)

  /** Some request in `reqs` inserts a profile. */
  predicate Inserts(reqs: seq<Request>)
  {
    exists i :: 0 <= i < |reqs| && reqs[i].InsertProfile?
  }

  /** Some request in `reqs` reads a profile. */
  predicate Selects(reqs: seq<Request>)
  {
    exists i :: 0 <= i < |reqs| && reqs[i].SelectProfile?
  }
}
