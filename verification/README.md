# Session-to-profile authorization of the client portal

This project models the client portal's authorization pipeline. The pipeline has two parts.

- **The auth-callback handler** (`AuthCallback`). It runs once after the identity provider redirects back. It obtains the session and fetches the user's `profiles` row. If no row came back, it inserts a default row. Then it issues exactly one navigation: the external admin portal, `/setup-profile`, or `/`. With no session and no error it navigates to `/login` at once. A failure ends in an error screen and a delayed navigation to `/login`.
- **The route guard** (`ProtectedRoute`). Its `checkAuthorization` effect updates four state fields: `loading`, `authorized`, `userProfile` and `userRole`. Each render maps those fields and the `session` prop to a loading screen, a redirect to `/login` or `/setup-profile`, or the guarded children.

Files:

- `portal.dfy` (module `Portal`) holds the shared types: session, profile, the identity provider's and the store's results, the requests sent to them, navigations, and constants.
- `text.dfy` (module `Text`) models the two JavaScript string operations the code uses: `includes` and `split('@')[0]`.
- `auth_callback.dfy` (module `AuthCallback`) holds:
  - the class `CallbackHandler`, whose state is `status`, `error` and `loading` plus a navigation log and a log of store calls;
  - its method `HandleAuthCallback`, proved equal to the specification function `Callback`;
  - the pure functions `DefaultProfile` and `Destination`;
  - lemmas about `Callback`.
- `protected_route.dfy` (module `ProtectedRoute`) holds:
  - the class `RouteGuard` and its method `CheckAuthorization`, proved equal to the specification function `CheckResult`;
  - the pure render selection `Render`;
  - a fold `Lifetime` over repeated effect runs;
  - lemmas about all three.

Every Supabase call is an input to the model, as are the current pathname and the `session` prop. Those inputs are:

- the session result;
- the fetch result: the row, or an error code;
- the insert result;
- for the guard, whether an awaited call threw.

Navigations are values in a log. `navigate(p)` is `Navigate(p)`. `setTimeout(() => navigate(p), 3000)` is `NavigateLater(p)`. `window.location.href = u` is `Redirect(u)`.

Behaviours of the code that a reader might not expect, all modelled as written:

- `requiredRoles` is never read by the check. It only appears in the effect's dependency list. So a mismatch with `requiredRoles` is never by itself a reason to deny access or to redirect. A non-`standard` role is still sent to the admin portal, by the hard-coded role test at src/components/ProtectedRoute.jsx:51 (`RequiredRolesIgnored`).
- At mount, with a `session` prop present, a failed or empty profile fetch renders a redirect to `/setup-profile`, not to `/login` (`FetchFailureAtMountGoesToSetup`). This holds whenever no profile with completed onboarding was stored by an earlier check; see the stale-profile item below.
- A re-check does not go back to a "checking" state. `loading` starts true and is only ever set to false (`LoadingNeverReset`). So when the `session` prop changes, for instance on sign-out, and access had been granted, every render before the re-check finishes still shows the guarded children with the old profile (`Render` on the old state).
- The setup-page exemption is a substring test on the pathname. Any pathname containing `setup-profile` qualifies, not only `/setup-profile` (`StandardRoleAuthorization`).
- A failed fetch leaves any `userProfile` stored by an earlier check in place. That stale profile then decides the render redirect (`StaleProfilePersists`, `DeniedRedirects`).

## Model

| member | source | states |
|---|---|---|
| `Text.Includes` | src/components/ProtectedRoute.jsx:59 | `includes` is true exactly when the substring occurs at some index of the pathname |
| `Text.LocalPart` | src/pages/AuthCallback.jsx:58 | `split('@')[0]` is a prefix of the email, contains no `@`, and stops at the first `@` when there is one |
| `AuthCallback.Destination` | src/pages/AuthCallback.jsx:98-112 | the destination is the admin portal iff role ≠ `standard`; `/setup-profile` iff role is `standard` and onboarding is not completed; `/` iff role is `standard` and onboarding is completed |
| `AuthCallback.DefaultProfile` | src/pages/AuthCallback.jsx:52-63 | the default row takes `auth_user_id` and `email` from the session; its `full_name` is the truthy metadata `full_name`, otherwise the email's local part; its `role` is the truthy metadata role, otherwise `standard`; `is_active` is true, `is_public` and `onboarding_completed` are false |
| `AuthCallback.CallbackHandler.constructor` | src/pages/AuthCallback.jsx:9-11 | the initial state is `loading` true, no error, status `Authenticating...` |
| `AuthCallback.CallbackHandler.View` | src/pages/AuthCallback.jsx:115-136 | the error screen shows exactly when the error is truthy (set and non-empty), and shows that message; otherwise the current status is shown |
| `AuthCallback.CallbackHandler.HandleNavigation` | src/pages/AuthCallback.jsx:89-113 | sets the status to `Redirecting...` and appends `Destination(profile)` to the navigation log; nothing else changes |
| `AuthCallback.CallbackHandler.HandleAuthCallback` | src/pages/AuthCallback.jsx:17-87 | the new status, error, navigation log and call log are those of `Callback` on the oracle results; `loading` is false at the end of every run |
| `AuthCallback.ErrorMessage` | src/pages/AuthCallback.jsx:82 | the displayed error is the caught message when that is non-empty and 'Authentication failed' when it is empty, so it is never empty |
| `AuthCallback.Callback` | src/pages/AuthCallback.jsx:17-87 | one run of the handler: `getSession` is always the first call, a second call is always the profile select, a third is always the insert, there are no others, and a caught error is never empty |
| `AuthCallback.ScreenAfterMount` | src/pages/AuthCallback.jsx:13-136 | after mount and one run, the screen is the error screen with the caught error when the run failed, and otherwise the run's last status |
| `AuthCallback.SessionErrorFailsToLogin` | src/pages/AuthCallback.jsx:22-83 | a session error ends with the error "Failed to establish session" and a scheduled navigation to `/login`; no profile is read or inserted |
| `AuthCallback.NoSessionGoesToLogin` | src/pages/AuthCallback.jsx:29-79 | with no session and no error there is a single navigation to `/login`, no error, and no fetch or insert |
| `AuthCallback.InsertOnlyWhenNoProfile` | src/pages/AuthCallback.jsx:47-75 | an insert is attempted iff a session exists and the fetch yielded no profile; the inserted row is the default profile |
| `AuthCallback.RerunDoesNotInsertAgain` | src/pages/AuthCallback.jsx:47-75 | a run that bootstrapped a row inserts; a second run that fetches that row does not insert and ends at the same destination |
| `AuthCallback.FetchErrorNeverAborts` | src/pages/AuthCallback.jsx:43-48 | a fetch error with any code, `PGRST116` or another, gives the same run; that run goes on to fetch and then insert the default profile |
| `AuthCallback.InsertFailureFailsToLogin` | src/pages/AuthCallback.jsx:67-83 | a failed insert ends with the error "Failed to create user profile" and only the scheduled `/login` navigation; no destination is chosen |
| `AuthCallback.ExactlyOneNavigation` | src/pages/AuthCallback.jsx:17-113 | every run issues exactly one navigation; it is the delayed `/login` iff the run ended in an error, and the error is one of the two thrown messages |
| `AuthCallback.SuccessGoesToDestination` | src/pages/AuthCallback.jsx:70-75 | when a profile was fetched or inserted, the run has no error and navigates to that profile's destination |
| `AuthCallback.NewStandardUserGoesToSetup` | src/pages/AuthCallback.jsx:52-71 | a new user with metadata full name "Jane Doe" and role `standard` gets that name and role with onboarding not completed, and is sent to `/setup-profile` |
| `AuthCallback.DefaultNameFromEmail` | src/pages/AuthCallback.jsx:58-59 | without metadata the full name of `jane@example.com` is `jane`; an empty metadata role falls back to `standard` |
| `ProtectedRoute.Render` | src/components/ProtectedRoute.jsx:72-98 | the children are rendered, with `userProfile` passed in, iff `loading` is false and `authorized` is true; the loading screen shows iff `loading` is true |
| `ProtectedRoute.RouteGuard.constructor` | src/components/ProtectedRoute.jsx:7-10 | the initial state is `loading` true, `authorized` false, no profile, no role |
| `ProtectedRoute.RouteGuard.CheckAuthorization` | src/components/ProtectedRoute.jsx:16-70 | the new four fields, call log and redirect log are those of `CheckResult` on the old state and the inputs; `loading` is false afterwards |
| `ProtectedRoute.CheckResult` | src/components/ProtectedRoute.jsx:16-70 | one check: `loading` ends false, the only redirect ever issued is the admin portal one, and the calls are `getSession` exactly when there is no `session` prop, then at most one profile select |
| `ProtectedRoute.NoSessionDenies` | src/components/ProtectedRoute.jsx:19-31 | with no `session` prop and no fetched session: `authorized` and `loading` are false, only `getSession` is called, no profile is fetched, the profile is unchanged |
| `ProtectedRoute.FetchFailureKeepsProfile` | src/components/ProtectedRoute.jsx:34-69 | once a session exists, from the `session` prop or from `getSession`, a failed, thrown or empty fetch leaves `authorized` and `loading` false and `userProfile`/`userRole` unchanged, stale values included; the only calls are the optional `getSession` and the one select, and no redirect is issued |
| `ProtectedRoute.NonStandardRoleRedirects` | src/components/ProtectedRoute.jsx:47-56 | a non-`standard` profile is stored in `userProfile`/`userRole`, `authorized` is false, and the admin portal redirect is issued |
| `ProtectedRoute.StandardRoleAuthorization` | src/components/ProtectedRoute.jsx:47-63 | for a `standard` profile, `authorized` is true iff onboarding is completed or `setup-profile` occurs in the pathname; no redirect is issued |
| `ProtectedRoute.RequiredRolesIgnored` | src/components/ProtectedRoute.jsx:6-14 | the outcome of a check is the same for any two `requiredRoles` values |
| `ProtectedRoute.ExceptionDenies` | src/components/ProtectedRoute.jsx:64-69 | a thrown `getSession` or profile fetch leaves `authorized` and `loading` false and the profile unchanged |
| `ProtectedRoute.CheckFailsClosed` | src/components/ProtectedRoute.jsx:16-70 | every check ends with `loading` false; `authorized` is true only if a `standard` profile was just fetched and stored, and its onboarding is completed or the pathname holds the setup marker |
| `ProtectedRoute.DeniedRedirects` | src/components/ProtectedRoute.jsx:83-94 | when not authorized: a null `session` prop goes to `/login`; otherwise a missing profile or incomplete onboarding goes to `/setup-profile`, and anything else to `/login` |
| `ProtectedRoute.MountShowsLoading` | src/components/ProtectedRoute.jsx:72-81 | at mount the loading screen is rendered |
| `ProtectedRoute.NoSessionAtMountGoesToLogin` | src/components/ProtectedRoute.jsx:19-87 | with no session anywhere, the render after the first check is the `/login` redirect, so the children are never rendered |
| `ProtectedRoute.FetchFailureAtMountGoesToSetup` | src/components/ProtectedRoute.jsx:40-90 | with a `session` prop and a failed fetch, the render after the first check redirects to `/setup-profile` |
| `ProtectedRoute.SelfFetchedSessionDeniedGoesToLogin` | src/components/ProtectedRoute.jsx:19-87 | without a `session` prop, a denied check renders the `/login` redirect even when a session was fetched |
| `ProtectedRoute.NonStandardRedirectsTwice` | src/components/ProtectedRoute.jsx:47-90 | a non-`standard` user with a `session` prop and incomplete onboarding gets the admin portal redirect from the check and a `/setup-profile` redirect from the next render |
| `ProtectedRoute.Lifetime` | src/components/ProtectedRoute.jsx:12-14 | the effect re-run once per input; over any sequence of checks, access stays granted only with a stored `standard` profile |
| `ProtectedRoute.LoadingNeverReset` | src/components/ProtectedRoute.jsx:7-68 | after any non-empty sequence of checks, `loading` is false and the loading screen is never rendered again |
| `ProtectedRoute.StaleProfilePersists` | src/components/ProtectedRoute.jsx:40-48 | a sequence of checks that all fail before a profile is stored keeps `userProfile` and `userRole` as they were, and leaves `authorized` false |

## Left out

- Supabase calls (`getSession`, the `profiles` select and insert) are foreign I/O. Their results are inputs to the model. The insert's returned row is an arbitrary profile, not necessarily the row sent.
- The 1.5 s wait before the fetch and the 3 s delay before the error navigation are timers and are not modelled. The delayed navigation is the outcome `NavigateLater("/login")`.
- `window.location.href`, `navigate` and `<Navigate replace>` are outcome values, not browser effects. JSX markup, the icon, and `console.*` logging are not modelled. The `PGRST116` test at src/pages/AuthCallback.jsx:43 only chooses whether to log, so it has no effect in the model.
- The callback's `error.message || 'Authentication failed'` fallback is modelled (`ErrorMessage`). It never applies, because both messages the handler throws are non-empty. Two kinds of exception are not modelled for the callback. The first is an awaited Supabase call that rejects. The second is a `TypeError` outside any await, such as a `null` email passed to `split` at src/pages/AuthCallback.jsx:58. Rejected awaited calls are modelled for the guard (`Attempt.Threw`).
- ExactlyOneNavigation: its "one of the two thrown messages" holds only in the model. In the code, an unmodelled exception reaches src/pages/AuthCallback.jsx:82 with its own message, or with 'Authentication failed' when that message is empty.
- Re-running the guard's effect is modelled as a sequence of checks (`Lifetime`). React's decision about when the effect fires is not modelled. That decision compares `session` and the `requiredRoles` array literal by identity. Overlapping checks that finish out of order are also not modelled. They are a concurrency concern, and the code has no mechanism against them.
- `cloneElement(children, { userProfile, setUserProfile })` is modelled as `Children(userProfile)`. Updates made through the passed-down `setUserProfile` are not modelled.
- src/App.jsx is not part of this model. It handles the auth subscription, analytics and Hotjar initialisation, and clearing the URL hash.
- src/Routes.jsx is only a declarative route table. `/setup-profile` and `/` are wrapped in the guard with `requiredRoles={['standard']}`. The table imports `./components/AuthCallback`, which is not part of this model. The handler modelled here is src/pages/AuthCallback.jsx.
- src/components/AdminIcon.jsx passes through to a component that is not part of this model.
- Profile fields are plain values. `role` is a string and `onboarding_completed` a boolean; a database `null` is not modelled. Metadata values are optional strings. Their truthiness is "present and non-empty".
