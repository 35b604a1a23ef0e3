# Patient-visit front-end: store reducers, session and route access

This project models the client-side core of the clinic administration
front-end (`patient-visit-frontend`): the per-entity stores for patients,
doctors, visits, fees and activity logs, the authentication store and
session service, the role guard and the route table.

- **Entity stores.** The patient, doctor, visit and fee states are the same
  handler set written four times, so they are modelled once.
  - `EntityList` holds the pure list computations: the spread-append of a
    create, the id-matching `map` of an update, the id-rejecting `filter` of
    a delete, and the `find` of a local lookup. Each comes with lemmas that
    partner it: an absent id changes nothing, updates and deletes are
    idempotent, delete undoes create, and unique ids are preserved.
  - `Store.EntityStore<T>` is a class with the five state fields. It is
    parameterised by the id projection (`patientId`, `doctorId`, `visitId`,
    `feeId`, `logId`). Each method is one action handler: it writes the
    fields the handler's `patchState` names, and its contract says that
    every other field is unchanged.
  - Each backend call is an explicit `Outcome` parameter:
    `Success(payload) | Failure(message)`. A trigger action is `Begin`
    followed by the handler of its outcome.
- **Activity logs.** `ActivityLogState` adds the client-side parts:
  - a get-by-id that only scans the loaded list;
  - a create that makes up an entry from the clock;
  - an update that merges the patch into the stored entry;
  - a delete that always succeeds.
- **Session.**
  - `Session.AuthService` holds local storage as a map and the current user.
  - `AuthStore.AuthState` holds the six session fields the views read.
  - Both decode tokens with `Session.DecodeUser`. It works on the payload as
    the browser parses it, and its claim defaults follow JavaScript's `||`:
    an empty string counts as missing.
- **Access.**
  - `RoleGuard.CanActivate` is the guard's three-way decision.
  - `AppRoutes` holds the route table as data, a matcher, and `Navigate`,
    which combines the match, the redirects and the guards into one verdict.
  - A proved consequence of the table: a signed-in user whose role is
    neither Receptionist nor Admin is sent from `/dashboard` to
    `/dashboard/patients`, and from there back to `/dashboard`
    (`AppRoutes.DashboardLandingCycles`). Doctors and plain users have no
    landing page of their own.

The clock is a `now: int` parameter, given in milliseconds since the epoch.
A timer-delayed step completes at once. List entries are not kept unique by
id: a create or a full load can bring in a duplicate. The model therefore
proves only that updates and deletes keep ids unique, and the delete's
contract counts every copy it drops.

The service's token check and the role guard can disagree. A stored token
that does not decode makes `isAuthenticated` true while the current user
is none, and the role guard then sends the navigation to /login
(`RoleGuard.StaleTokenSession`).

## Model

| member | source | states |
|---|---|---|
| `EntityList.ReplaceById` | patient-visit-frontend/src/app/store/states/patient.state.ts:194-196 | length is kept; every entry with the payload's id becomes the payload; every other entry stays at its position |
| `EntityList.RemoveById` | patient-visit-frontend/src/app/store/states/patient.state.ts:232 | no entry of the result carries the deleted id, and its length is the list's minus the number of entries carrying it. With `RemoveIsSubsequence` this fixes the result, duplicates included |
| `EntityList.RemoveKeepsOthers` | patient-visit-frontend/src/app/store/states/doctor.state.ts:232 | every survivor of the filter comes from the list, and every entry with another id survives |
| `EntityList.RemoveIsSubsequence` | patient-visit-frontend/src/app/store/states/doctor.state.ts:232 | the survivors are a subsequence of the old list, so their order is kept |
| `EntityList.FirstIndex` | patient-visit-frontend/src/app/store/states/activity-log.state.ts:115 | the position `find` stops at: no earlier entry matches, and it matches unless it is the end |
| `EntityList.FindById` | patient-visit-frontend/src/app/store/states/activity-log.state.ts:115 | `None` iff no entry has the id; otherwise the first entry with that id |
| `EntityList.ReplaceAbsent` | patient-visit-frontend/src/app/store/states/visit.state.ts:194-196 | an update whose id is not in the list leaves the list unchanged |
| `EntityList.ReplaceIdempotent` | patient-visit-frontend/src/app/store/states/patient.state.ts:194-196 | applying the same update twice equals applying it once |
| `EntityList.ReplacePreservesUnique` | patient-visit-frontend/src/app/store/states/patient.state.ts:194-196 | an update keeps ids unique |
| `EntityList.FindAfterReplace` | patient-visit-frontend/src/app/store/states/activity-log.state.ts:115 | after updating a present id, looking that id up finds the payload |
| `EntityList.RemoveAbsent` | patient-visit-frontend/src/app/store/states/visit.state.ts:232 | deleting an absent id leaves the list unchanged |
| `EntityList.RemoveIdempotent` | patient-visit-frontend/src/app/store/states/patient.state.ts:232 | deleting the same id twice equals deleting it once |
| `EntityList.RemoveConcat` | patient-visit-frontend/src/app/store/states/patient.state.ts:232 | the filter distributes over concatenation |
| `EntityList.DeleteUndoesCreate` | patient-visit-frontend/src/app/store/states/patient.state.ts:159-166 | deleting the id of an appended entry that was new to the list gives back the old list |
| `EntityList.RemovePreservesUnique` | patient-visit-frontend/src/app/store/states/patient.state.ts:232 | a delete keeps ids unique |
| `Store.EntityStore.constructor` | patient-visit-frontend/src/app/store/states/patient.state.ts:34-43 | initial state: empty list, no selection, not loading, no error, no fetch time |
| `Store.EntityStore.Count` | patient-visit-frontend/src/app/store/states/patient.state.ts:73-76 | the number of loaded entries; zero iff the list is empty |
| `Store.EntityStore.Begin` | patient-visit-frontend/src/app/store/states/visit.state.ts:80 | every trigger action sets loading and clears the error; no other field changes |
| `Store.EntityStore.LoadAllSuccess` | patient-visit-frontend/src/app/store/states/patient.state.ts:93-101 | the list becomes exactly the payload and the fetch time is `now`; loading and error are cleared; the selection is kept |
| `Store.EntityStore.LoadOneSuccess` | patient-visit-frontend/src/app/store/states/doctor.state.ts:126-133 | the payload becomes the selection; the list and the fetch time do not change |
| `Store.EntityStore.CreateSuccess` | patient-visit-frontend/src/app/store/states/patient.state.ts:158-166 | the list is the old list plus the payload at the end; the count grows by one; loading and error are cleared; selection and fetch time are kept |
| `Store.EntityStore.UpdateSuccess` | patient-visit-frontend/src/app/store/states/patient.state.ts:191-204 | matching entries are replaced and the payload is selected. An absent id keeps the list. A present id is then found as the payload. Unique ids stay unique |
| `Store.EntityStore.DeleteSuccess` | patient-visit-frontend/src/app/store/states/patient.state.ts:229-240 | the filtered list has no entry with the id and keeps the others in order. The count drops by the number of entries with the id. The selection is cleared iff its id is the deleted id. An absent id keeps the list |
| `Store.EntityStore.Fail` | patient-visit-frontend/src/app/store/states/patient.state.ts:103-109 | the body shared by every Failure handler: loading is cleared and the message recorded; list, selection and fetch time are kept |
| `Store.EntityStore.ClearError` | patient-visit-frontend/src/app/store/states/patient.state.ts:250-253 | only the error changes, to none, so a second application changes nothing |
| `Store.EntityStore.LoadAll` | patient-visit-frontend/src/app/store/states/patient.state.ts:78-91 | load-all then its outcome: success replaces the list and sets the fetch time; failure keeps the stale list and records the message |
| `Store.EntityStore.LoadOne` | patient-visit-frontend/src/app/store/states/patient.state.ts:111-124 | get-by-id then its outcome: success selects the payload; failure records the message; the list never changes |
| `Store.EntityStore.Create` | patient-visit-frontend/src/app/store/states/patient.state.ts:143-156 | create then its outcome: success appends the payload; failure keeps the list |
| `Store.EntityStore.Update` | patient-visit-frontend/src/app/store/states/patient.state.ts:176-189 | update then its outcome: success replaces by id and selects the payload; failure keeps list and selection |
| `Store.EntityStore.Delete` | patient-visit-frontend/src/app/store/states/patient.state.ts:214-227 | delete then its outcome: on success the id comes from the action, the entries are filtered and a matching selection is cleared; failure keeps everything but the flags |
| `PatientState.NewPatientStore` | patient-visit-frontend/src/app/store/states/patient.state.ts:34-45 | a fresh patient store with the declared defaults, keyed by `patientId` |
| `DoctorState.NewDoctorStore` | patient-visit-frontend/src/app/store/states/doctor.state.ts:34-45 | a fresh doctor store with the declared defaults, keyed by `doctorId` |
| `VisitState.NewVisitStore` | patient-visit-frontend/src/app/store/states/visit.state.ts:34-45 | a fresh visit store with the declared defaults, keyed by `visitId` |
| `FeeState.NewFeeStore` | patient-visit-frontend/src/app/store/states/fee.state.ts:34-45 | a fresh fee store with the declared defaults, keyed by `feeId` |
| `FeeState.DeleteSelectedFeeSeven` | patient-visit-frontend/src/app/store/states/fee.state.ts:229-240 | a successful delete of fee 7 while fee 7 is selected leaves no selection and no fee 7 |
| `ActivityLogState.NewActivityLogStore` | patient-visit-frontend/src/app/store/states/activity-log.state.ts:34-45 | a fresh log store with the declared defaults, keyed by `logId` |
| `ActivityLogState.SimulatedLog` | patient-visit-frontend/src/app/store/states/activity-log.state.ts:147-153 | the made-up entry: id and timestamp from the clock, user 1, the draft's details; its action is the draft's when that is non-empty and "Created" otherwise |
| `ActivityLogState.Merge` | patient-visit-frontend/src/app/store/states/activity-log.state.ts:185 | each field the patch names overrides the stored one; each field it omits keeps the stored value |
| `ActivityLogState.MergeLaws` | patient-visit-frontend/src/app/store/states/activity-log.state.ts:185 | the spread merge: an empty patch changes nothing; a patch applied twice equals one application; the id changes only if the patch names one |
| `ActivityLogState.LoadActivityLog` | patient-visit-frontend/src/app/store/states/activity-log.state.ts:111-138 | no busy step. A present id selects its first entry and clears the error. An absent id records "Activity log not found". The list never changes |
| `ActivityLogState.CreateActivityLog` | patient-visit-frontend/src/app/store/states/activity-log.state.ts:140-166 | busy step, then the simulated entry is appended; loading and error are cleared |
| `ActivityLogState.UpdateActivityLog` | patient-visit-frontend/src/app/store/states/activity-log.state.ts:176-213 | a present id: the first match merged with the patch replaces its id's entries and is selected. An absent id records the not-found error and keeps list and selection |
| `ActivityLogState.DeleteActivityLog` | patient-visit-frontend/src/app/store/states/activity-log.state.ts:216-237 | always succeeds: the id is filtered out and a matching selection is cleared |
| `Session.DecodeUser` | patient-visit-frontend/src/app/store/states/auth.state.ts:178-191 | no user iff the token is malformed. Otherwise missing claims default to id 0, empty name and email, and role "User"; the role is never empty |
| `Session.DecodeClaimsOf` | patient-visit-frontend/src/app/services/auth.service.ts:56-61 | decoding the claims of a user with a non-empty role gives back that user |
| `Session.AuthService.constructor` | patient-visit-frontend/src/app/services/auth.service.ts:14-16 | construction hydrates the current user from a stored non-empty token that decodes; otherwise there is none |
| `Session.AuthService.LoadUserFromStorage` | patient-visit-frontend/src/app/services/auth.service.ts:68-73 | a stored token that decodes sets the user; otherwise the user is kept |
| `Session.AuthService.DecodeAndStoreUser` | patient-visit-frontend/src/app/services/auth.service.ts:53-66 | a decodable token replaces the current user; a decode failure leaves it unchanged |
| `Session.AuthService.Login` | patient-visit-frontend/src/app/services/auth.service.ts:22-30 | a returned token is stored under "token" and then decoded into the current user; a failed request changes nothing |
| `Session.AuthService.Logout` | patient-visit-frontend/src/app/services/auth.service.ts:36-39 | the "token" key is removed, other keys stay, and the current user is none |
| `Session.AuthService.IsAuthenticated` | patient-visit-frontend/src/app/services/auth.service.ts:41-43 | true iff a non-empty token is stored |
| `RoleGuard.StaleTokenSession` | patient-visit-frontend/src/app/services/auth.service.ts:41-43 | with a stored token that does not decode, the token check says authenticated, there is no current user, and the role guard redirects to /login |
| `Session.AuthService.GetToken` | patient-visit-frontend/src/app/services/auth.service.ts:45-47 | exactly the stored token, or none when the key is absent |
| `Session.AuthService.GetCurrentUser` | patient-visit-frontend/src/app/services/auth.service.ts:49-51 | the current user |
| `AuthStore.AuthState.constructor` | patient-visit-frontend/src/app/store/states/auth.state.ts:27-37 | the six fields hold their defaults |
| `AuthStore.AuthState.Begin` | patient-visit-frontend/src/app/store/states/auth.state.ts:74 | login and register set loading and clear the error; user, token, flag and role are kept |
| `AuthStore.AuthState.LoginSuccess` | patient-visit-frontend/src/app/store/states/auth.state.ts:89-99 | user, token, authenticated flag and role are taken from the decoded user; loading and error are cleared |
| `AuthStore.AuthState.Fail` | patient-visit-frontend/src/app/store/states/auth.state.ts:101-107 | LoginFailure and RegisterFailure: loading is cleared and the message recorded; user, token, flag and role are kept |
| `AuthStore.AuthState.Login` | patient-visit-frontend/src/app/store/states/auth.state.ts:72-87 | as written. A token that decodes authenticates the session. One that does not crashes the success handler, leaving the store busy with no error and the old session while the token is stored |
| `AuthStore.AuthState.LoginChecked` | patient-visit-frontend/src/app/store/states/auth.state.ts:72-99 | the corrected login: the store is never left busy; a token that does not decode records "Invalid token" and keeps the old session. The service stores a returned token and holds the decoded user, or its old user when the token does not decode. A failed request leaves the service untouched |
| `AuthStore.MalformedTokenLogin` | patient-visit-frontend/src/app/store/states/auth.state.ts:95 | the login with token "not-a-jwt" crashes, leaving the store busy with no error while the token is stored |
| `AuthStore.RegisterU1` | patient-visit-frontend/src/app/store/states/auth.state.ts:132-139 | registering "u1" stores only the form's username, email and role, with no token and no authentication |
| `AuthStore.AuthState.RegisterSuccess` | patient-visit-frontend/src/app/store/states/auth.state.ts:132-139 | stores the user; token, authenticated flag and role are not touched |
| `AuthStore.AuthState.Register` | patient-visit-frontend/src/app/store/states/auth.state.ts:109-130 | on success the user is built from the form's username, email and role only, with no token and no authentication; on failure the message is recorded |
| `AuthStore.AuthState.Logout` | patient-visit-frontend/src/app/store/states/auth.state.ts:149-160 | the service forgets token and user, and all six fields return to their defaults |
| `AuthStore.AuthState.SetUser` | patient-visit-frontend/src/app/store/states/auth.state.ts:162-169 | authenticated iff a user is given; the role is the user's unless it is empty, else none; token, loading and error are kept |
| `AuthStore.AuthState.ClearAuth` | patient-visit-frontend/src/app/store/states/auth.state.ts:171-176 | only the error changes, to none |
| `RoleGuard.CanActivate` | patient-visit-frontend/src/app/guards/role.guard.ts:11-30 | allow iff a user exists and the roles are absent, empty or contain the user's role. No user redirects to /login. A role outside a non-empty list redirects to /dashboard |
| `RoleGuard.DoctorLogin` | patient-visit-frontend/src/app/store/states/auth.state.ts:89-99 | a login whose token names role "Doctor" gives the store role Doctor; the guard then admits where Doctor is listed and redirects to /dashboard where only Admin is |
| `RoleGuard.MoreRolesAdmitMore` | patient-visit-frontend/src/app/guards/role.guard.ts:20-22 | adding roles to a restricting list never turns an admitted user away |
| `AppRoutes.MatchRoutes` | patient-visit-frontend/src/app/app.routes.ts:5-24 | a match is a non-empty chain headed by one of the listed routes |
| `AppRoutes.MatchRoute` | patient-visit-frontend/src/app/app.routes.ts:5-24 | a match is a chain headed by the route. The wildcard matches every URL. A route without children matches exactly the URL of its own path |
| `AppRoutes.RoutesConsumeUrl` | patient-visit-frontend/src/app/app.routes.ts:5-24 | a match of a route list whose chain holds no wildcard consumes exactly the URL: the chain's path segments, in order, are the URL's |
| `AppRoutes.RouteConsumesUrl` | patient-visit-frontend/src/app/app.routes.ts:9-21 | the same for one route: a parent consumes its own segment (none for an empty path) and then what its matched child consumes |
| `AppRoutes.MatchFirst` | patient-visit-frontend/src/app/app.routes.ts:5-24 | the first route of a list that matches decides the match |
| `AppRoutes.UnknownGoesToLogin` | patient-visit-frontend/src/app/app.routes.ts:6-23 | the empty URL and every URL the table does not know redirect to /login |
| `AppRoutes.RunRouteGuards` | patient-visit-frontend/src/app/app.routes.ts:12-19 | one route's guards pass iff the authentication guard allows (when present) and `CanActivate` allows (when the role guard is present); a refusal names the guard that made it |
| `AppRoutes.RunGuards` | patient-visit-frontend/src/app/app.routes.ts:9-21 | a chain passes iff every route on it passes; a refusal is the authentication guard's or a role-guard redirect |
| `AppRoutes.Navigate` | patient-visit-frontend/src/app/app.routes.ts:5-24 | `NoMatch` iff no route matches. A matched page whose chain's guards all pass renders, and a page renders only then. An authentication refusal means that guard refused |
| `AppRoutes.PublicPagesRender` | patient-visit-frontend/src/app/app.routes.ts:7-8 | /login renders the login page and /register the registration page, for any user and any authentication-guard decision |
| `AppRoutes.PublicPageRenders` | patient-visit-frontend/src/app/app.routes.ts:6-8 | a guard-free public route that the earlier routes do not match renders its component for its own URL |
| `AppRoutes.WildcardMatches` | patient-visit-frontend/src/app/app.routes.ts:23 | a route list that holds a wildcard matches every URL |
| `AppRoutes.EveryUrlMatches` | patient-visit-frontend/src/app/app.routes.ts:23 | no navigation is left without a match |
| `AppRoutes.RelativeRedirect` | patient-visit-frontend/src/app/app.routes.ts:14 | a relative redirect target is resolved against the segments of the routes above it |
| `AppRoutes.DashboardRedirectsToPatients` | patient-visit-frontend/src/app/app.routes.ts:9-14 | /dashboard redirects to /dashboard/patients |
| `AppRoutes.DashboardPageVerdict` | patient-visit-frontend/src/app/app.routes.ts:12-20 | a dashboard page runs the authentication guard first, then the role guard on the page's `roles` data if it has one |
| `AppRoutes.AdminAdmittedEverywhere` | patient-visit-frontend/src/app/app.routes.ts:15-20 | an Admin is admitted to every dashboard page |
| `AppRoutes.PlainUserOnlyProfile` | patient-visit-frontend/src/app/app.routes.ts:15-20 | role "User" is admitted only to profile; every other page sends them to /dashboard |
| `AppRoutes.NoUserGoesToLogin` | patient-visit-frontend/src/app/app.routes.ts:15-19 | with no current user, a role-guarded page sends the navigation to /login |
| `AppRoutes.PatientsPageVerdict` | patient-visit-frontend/src/app/app.routes.ts:15 | for a signed-in user with the authentication guard passing, /dashboard/patients renders for Receptionist and Admin and redirects every other role to /dashboard |
| `AppRoutes.DashboardLandingCycles` | patient-visit-frontend/src/app/app.routes.ts:14-15 | for roles other than Receptionist and Admin, /dashboard leads to /dashboard/patients and that page leads back to /dashboard |
| `AppRoutes.DoctorVisitsNotLogs` | patient-visit-frontend/src/app/app.routes.ts:17-19 | a Doctor is admitted to visits and sent to /dashboard from activity-logs |

## Findings

| source | as written | input that shows it | evidently intended | confidence | as-written member | corrected member |
|---|---|---|---|---|---|---|
| patient-visit-frontend/src/app/store/states/auth.state.ts:95 | `loginSuccess` reads `user.role` from the user `decodeUserFromToken` returned, and that user is `null` for a malformed token | a login whose response token has no decodable payload, such as "not-a-jwt"; `AuthStore.MalformedTokenLogin` shows the resulting state | the decoder catches parse errors and logs them, so the login should end gracefully with an error and not throw | medium, not executed | `AuthStore.AuthState.Login` | `AuthStore.AuthState.LoginChecked` |

## Left out

- View components, forms, success banners and `confirm()` dialogs are not part of this model: they are presentation only.
- The HTTP gateway services for patients, doctors, visits, fees and logs are not modelled. Their result enters the model only as the `Outcome` parameter.
- `AuthService.register` and `changePassword` are single HTTP posts with no state of their own. Registration enters the model as the outcome given to `AuthState.Register`.
- The authentication guard (`guards/auth.guard`) is not part of this model. `AppRoutes.Navigate` takes its decision as the parameter `authGuardAllows`.
- `atob`, `JSON.parse` and `token.split('.')` are foreign. `AuthService.parse` stands for them and yields either the parsed claims or `Malformed`.
- The `nameid` claim is modelled as an optional integer. A token that carries it as a string would give a string identifier in the source.
- `Date.now()`, `new Date()` and `setTimeout` are replaced by a `now` parameter and immediate completion. The simulated create reads the clock once for both the id and the timestamp, where the source reads it twice.
- Concurrency between in-flight requests is not modelled. Interleaved responses racing on `loading` and `error` need an asynchronous scheduler, and the model runs each action to completion.
- The fee `amount` is a JavaScript floating-point number. It is carried as a `real` and never computed with.
- `AppRoutes.MatchRoute`: a leaf matches only the exact URL of its path, whatever its `pathMatch`. Angular lets an empty-path prefix leaf match more, but every empty-path leaf in this table is a full-match redirect.
- Redirect targets are returned as verdicts. The model does not follow a redirect into a second navigation, so it does not run the redirect cycle that `DashboardLandingCycles` exhibits.
- `Store.EntityStore.Fail`: one method models the five identical Failure handlers of each entity store, so the per-action names are not kept.
- Each selector (`patients`, `selectedPatient`, `loading`, `error`, `lastFetched`) just reads a field, so they are not modelled separately. The `...Count` selector is `EntityStore.Count`.
- The RefreshToken actions are declared but no handler exists, so there is nothing to model.
