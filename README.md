# Session lifecycle and task form of a task-management web client

The project models the two pieces of state-changing logic in this
Next.js client:

- **The authentication session of `AuthProvider`** (`module AuthContext`).
  Its state is the two tokens in `localStorage` (`"accessToken"` and
  `"refreshToken"`), the default `Authorization` header of the shared axios
  instance, `user` and `isAuthenticated`, and the paths pushed to the router.
  `fetchUser`, `login` and `logout` are written twice:
  - as pure functions on a `Session` snapshot (`FetchedUser`, `LoggedIn`,
    `LoggedOut`);
  - as methods of the class `AuthProvider`, which updates the browser
    objects of `module Browser` step by step. Each method is proved to have
    exactly the effect its function gives.

  The provider's invariant `Consistent` has two parts:
  - `isAuthenticated` holds exactly when `user` is present;
  - an authenticated session's header is `"Bearer "` followed by the stored
    access token.

  It is proved to hold after any sequence of mounts, logins and logouts.
- **The create/edit dialog `TaskFormDialog`** (`module TaskFormDialog`).
  Its state is `open`, the fields, loading, and a count of update requests.
  The mode is fixed by the `task` prop: edit mode sends a PATCH to
  `"/tasks/<id>/"` and create mode sends a POST to `"/tasks/"`. The handlers
  exist both as pure functions on a `FormState` snapshot and as methods of
  the class `TaskFormDialog`.

Network calls are not made. Each operation receives the outcome of the
request it issues as a `Response` input. The requests themselves are
recorded in the client's log, each with the header it carried.

JavaScript truthiness is kept where the code relies on it:
- an empty stored access token counts as no token;
- an empty `due_date` counts as no date;
- a null description reads as `""`.

The browser's rendering and form validation are kept too: the form is
mounted only while the dialog is open, so a closed dialog takes no input
and no submit, and the title input is `required`, so a submit with an
empty title never reaches `handleSubmit`.

Three things the rest of the client might suggest are not in the code, and
the model follows the code:
- **Refresh on 401.** There is no refresh-on-401 interceptor:
  src/services/api.ts:3-6 creates a plain axios instance.
- **`isLoading` in the provider.** `AuthProvider` has no `isLoading` state,
  although src/app/(app)/layout.tsx:12 reads one.
- **`triggerTaskUpdate`.** The dialog calls it, but the provider does not
  supply it (see "Left out").

Module `DueDates` works out the due-date round trip of the edit dialog in
days and instants (see "Findings").

## Model

| member | source | states |
|---|---|---|
| Types.NatDecimal | src/components/task-form-dialog.tsx:83 | the digits of a natural number: their decimal value is the number, with no leading zero |
| Types.Decimal | src/components/task-form-dialog.tsx:83 | how `${id}` renders an integer: a minus sign exactly for negatives, followed by digits whose decimal value is the magnitude, with no leading zero: 0 is exactly "0" and every other rendering has a non-zero leading digit |
| Types.DecimalInjective | src/components/task-form-dialog.tsx:83 | different task ids render differently |
| Browser.TokenStore.GetItem | src/contexts/AuthContext.tsx:39 | `getItem` returns the stored value, or null exactly when the key is absent |
| Browser.TokenStore.SetItem | src/contexts/AuthContext.tsx:68-69 | `setItem` maps the key to the value and leaves every other key alone |
| Browser.TokenStore.RemoveItem | src/contexts/AuthContext.tsx:79-80 | `removeItem` drops the key and leaves every other key alone |
| Browser.ApiClient.SetAuthorization | src/contexts/AuthContext.tsx:43 | assigning the default header sets it to the value and sends nothing |
| Browser.ApiClient.DeleteAuthorization | src/contexts/AuthContext.tsx:81 | deleting the default header removes it and sends nothing |
| Browser.ApiClient.Send | src/contexts/AuthContext.tsx:44 | each request (GET /users/me/ here, POST /token/ at line 64, the dialog's PATCH or POST at task-form-dialog.tsx:83 and 86) is appended to the log with the default header current at call time; the header is untouched |
| Browser.Router.Push | src/contexts/AuthContext.tsx:84 | `router.push` (here "/login", "/dashboard" at line 74) appends the path to the navigation log |
| AuthContext.StoredAccessToken | src/contexts/AuthContext.tsx:39-40 | the token `fetchUser` acts on: present exactly when the key is stored with a non-empty value |
| AuthContext.Initial | src/contexts/AuthContext.tsx:33-34 | initially no user, not authenticated, the invariant holds |
| AuthContext.LoggedOut | src/contexts/AuthContext.tsx:77-85 | logout removes both tokens, keeps every other key and value, deletes the header, clears the user and authentication, pushes "/login", sends nothing |
| AuthContext.FetchedUser | src/contexts/AuthContext.tsx:38-56 | no token: user null and not authenticated, with no request and storage, header and navigation untouched. A token: header set to "Bearer "+token, then exactly one GET /users/me/ carrying it. Success: user is the response and authenticated, storage unchanged. Failure: the full effect of logout. The invariant holds afterwards, whatever the prior state |
| AuthContext.LoggedIn | src/contexts/AuthContext.tsx:63-75 | POST /token/ with the credentials goes out first. A rejection sends nothing more and writes nothing. Otherwise "/dashboard" is always pushed last. With an empty access token no other request is sent, the default header keeps its previous value (a stale "Bearer ..." survives), both tokens are stored and the session is not authenticated. With a non-empty one, the only other request is GET /users/me/ under "Bearer "+access. Then on a successful fetch: both tokens stored, header "Bearer "+access, authenticated as the fetched user. On a failed fetch: both tokens removed, every other key and value kept, logged out, with "/login" then "/dashboard" pushed. The invariant is preserved |
| AuthContext.LogoutIdempotent | src/contexts/AuthContext.tsx:77-85 | a second logout changes nothing except that "/login" is pushed again |
| AuthContext.LogoutForgetsSession | src/contexts/AuthContext.tsx:77-85 | two states that differ only in tokens, header and user are identical after logout |
| AuthContext.LoginAfterRejectedFetch | src/contexts/AuthContext.tsx:63-75 | when the user fetch inside login fails, the navigation log gains "/login" then "/dashboard" and login still resolves logged out |
| AuthContext.LoginWithEmptyAccessToken | src/contexts/AuthContext.tsx:39-40 | an empty access token is stored but treated as absent: no user request, the previous default header kept, no user and not authenticated, "/dashboard" pushed |
| AuthContext.StepVisits | src/contexts/AuthContext.tsx:63-85 | one operation appends nothing, "/login", "/dashboard" or "/login" then "/dashboard" to the navigation log |
| AuthContext.GrowsTransitive | src/contexts/AuthContext.tsx:63-85 | appending only requests and navigation to "/login" or "/dashboard" composes over consecutive operations |
| AuthContext.StepGrows | src/contexts/AuthContext.tsx:63-85 | each operation only appends to the request and navigation logs, and navigates only to "/login" or "/dashboard" |
| AuthContext.RunStaysConsistent | src/contexts/AuthContext.tsx:32-85 | the invariant (`isAuthenticated == (user != null)`, plus header matching the stored token) survives any sequence of operations |
| AuthContext.InitialRunsConsistent | src/contexts/AuthContext.tsx:58-61 | from the provider's initial state, through the mount fetch and any later operations, the invariant holds |
| AuthContext.RunAppendsOnly | src/contexts/AuthContext.tsx:63-85 | over any sequence of operations, requests and navigation are only appended, and only to "/login" or "/dashboard" |
| AuthContext.AuthProvider.constructor | src/contexts/AuthContext.tsx:33-34 | the provider starts with no user and not authenticated |
| AuthContext.AuthProvider.Logout | src/contexts/AuthContext.tsx:77-85 | the two removals, the header deletion, the two state updates and the push have exactly the effect of `LoggedOut` |
| AuthContext.AuthProvider.FetchUser | src/contexts/AuthContext.tsx:38-56 | the step-by-step fetchUser, with its caught rejection, has exactly the effect of `FetchedUser` |
| AuthContext.AuthProvider.Login | src/contexts/AuthContext.tsx:63-75 | resolves exactly when the token request succeeds, and has exactly the effect of `LoggedIn` |
| TaskFormDialog.DescriptionText | src/components/task-form-dialog.tsx:63 | a null description becomes "", any other is copied |
| TaskFormDialog.DateOf | src/components/task-form-dialog.tsx:65 | no date exactly when `due_date` is null or empty, else that date |
| TaskFormDialog.OpenChanged | src/components/task-form-dialog.tsx:100-108 | `open` becomes the argument. Closing resets title, description, status and due date to "", "", PENDING, none. Opening changes no field. Loading and the update count are untouched |
| TaskFormDialog.Rendered | src/components/task-form-dialog.tsx:67 | the `[task, open]` dependency rule: with `task` fixed, the effect re-runs only after `open` changed, and then fills only an open edit dialog; otherwise the state is left as the handler made it |
| TaskFormDialog.Filled | src/components/task-form-dialog.tsx:60-67 | an open edit dialog holds a copy of the task (null description as "", null/empty date as none); in every other case nothing changes |
| TaskFormDialog.AfterOpenChange | src/components/task-form-dialog.tsx:100-108 | onOpenChange followed by the effect: closing blanks the form. Opening a closed edit dialog shows the task. Opening in create mode, or an already open dialog, keeps the fields |
| TaskFormDialog.Payload | src/components/task-form-dialog.tsx:73-78 | the payload carries the current title, description and status; its due date is the selected date, null exactly when none is selected |
| TaskFormDialog.Target | src/components/task-form-dialog.tsx:81-87 | PATCH exactly in edit mode, to "/tasks/"+id+"/"; POST otherwise, to "/tasks/" |
| TaskFormDialog.EditPathNotCollection | src/components/task-form-dialog.tsx:81-87 | an edit never targets the collection path "/tasks/" |
| TaskFormDialog.EditPathsDistinct | src/components/task-form-dialog.tsx:83 | edits of two different tasks target different paths |
| TaskFormDialog.SubmitStarted | src/components/task-form-dialog.tsx:69-71 | while the request is pending, loading is on and nothing else has changed |
| TaskFormDialog.SubmitFinished | src/components/task-form-dialog.tsx:89-96 | loading is off after either outcome. A save closes the dialog and adds exactly one update request without resetting any field. A failure leaves open, the fields and the count as they were |
| TaskFormDialog.BlankTitleSubmitIgnored | src/components/task-form-dialog.tsx:129-135 | the title input is `required`: a submit with an empty title is blocked before `handleSubmit` and changes nothing |
| TaskFormDialog.ClosedDialogIgnoresInput | src/components/task-form-dialog.tsx:113-123 | the form sits inside `<DialogContent>`, mounted only while open: on a closed dialog typing, selecting, picking and submitting change nothing |
| TaskFormDialog.ApplyCounts | src/components/task-form-dialog.tsx:89-96 | only a successful submit on an open dialog with a non-empty title adds an update request; such a submit ends not loading, every other interaction leaves loading alone |
| TaskFormDialog.RunCountsSaves | src/components/task-form-dialog.tsx:89-91 | over any sequence of interactions, the update count grows by exactly the number of successful saves raised on an open dialog that got past the title check |
| TaskFormDialog.RunSettles | src/components/task-form-dialog.tsx:94-96 | once every submit has settled, the dialog is not loading |
| TaskFormDialog.CreateReopenKeepsInput | src/components/task-form-dialog.tsx:89-91 | in create mode, re-opening after a save shows the previous input again, since the close bypassed the reset; the update count grows only if the title was non-empty |
| TaskFormDialog.EditReopenRefills | src/components/task-form-dialog.tsx:60-67 | in edit mode, re-opening after a save shows the task prop again; after a blocked submit the input is kept |
| TaskFormDialog.UnchangedEditResendsTask | src/components/task-form-dialog.tsx:60-78 | opening an edit dialog leaves the payload a save would send equal to the task's own values, with a null description as "" and an empty date as null. The due date is the same only under the identity date abstraction, which holds at UTC offsets of zero or more |
| TaskFormDialog.CancelResets | src/components/task-form-dialog.tsx:100-106 | closing through onOpenChange always leaves a blank form |
| TaskFormDialog.TaskFormDialog.constructor | src/components/task-form-dialog.tsx:50-56 | the dialog starts closed, with "" title and description, PENDING, no date, not loading, no update requested |
| TaskFormDialog.TaskFormDialog.HandleOpenChange | src/components/task-form-dialog.tsx:100-108 | the field resets and `setOpen` have exactly the effect of `OpenChanged` |
| TaskFormDialog.TaskFormDialog.FillEffect | src/components/task-form-dialog.tsx:60-67 | the effect's body has exactly the effect of `Filled` |
| TaskFormDialog.TaskFormDialog.OnOpenChange | src/components/task-form-dialog.tsx:100-111 | the handler plus the effect it re-triggers has exactly the effect of `AfterOpenChange` |
| TaskFormDialog.TaskFormDialog.SetTitle | src/components/task-form-dialog.tsx:132 | typing replaces the title only |
| TaskFormDialog.TaskFormDialog.SetDescription | src/components/task-form-dialog.tsx:144 | typing replaces the description only |
| TaskFormDialog.TaskFormDialog.SetStatus | src/components/task-form-dialog.tsx:155 | selecting replaces the status only |
| TaskFormDialog.TaskFormDialog.SetDueDate | src/components/task-form-dialog.tsx:192 | picking replaces the due date only |
| TaskFormDialog.TaskFormDialog.BeginSubmit | src/components/task-form-dialog.tsx:69-87 | loading on, then exactly one request to `Target` carrying `Payload` of the state before the submit |
| TaskFormDialog.TaskFormDialog.CompleteSubmit | src/components/task-form-dialog.tsx:89-96 | the settled half of handleSubmit has exactly the effect of `SubmitFinished` |
| TaskFormDialog.TaskFormDialog.SubmitForm | src/components/task-form-dialog.tsx:113-135 | the form's submit event: on a closed dialog or with an empty title nothing is sent and nothing changes; otherwise it is `HandleSubmit` |
| TaskFormDialog.TaskFormDialog.HandleSubmit | src/components/task-form-dialog.tsx:69-97 | one request, then the effect of `SubmitFinished` (the re-triggered effect does nothing on a closed dialog) |
| DueDates.LocalDay | src/components/task-form-dialog.tsx:77 | `format(date, "yyyy-MM-dd")` gives the local calendar day that contains the instant |
| DueDates.UtcMidnight | src/components/task-form-dialog.tsx:65 | `new Date(text)` on a date-only text is exactly UTC midnight of that day (an instant divisible by the day length) |
| DueDates.AsWrittenShiftsWest | src/components/task-form-dialog.tsx:65 | as written, a fill then a save sends the same day back exactly at UTC offsets of zero or more, and the previous day west of UTC |
| DueDates.AsWrittenLosesADay | src/components/task-form-dialog.tsx:65 | at UTC-3, a due date of 2024-05-10 is sent back as 2024-05-09 |
| DueDates.LocalMidnight | src/components/task-form-dialog.tsx:65 | the corrected reading: the text as local midnight of that day |
| DueDates.LocalDayUnique | src/components/task-form-dialog.tsx:77 | the local day of an instant is the only day whose span contains it |
| DueDates.ResentDayRoundTrip | src/components/task-form-dialog.tsx:65 | with the corrected reading, a fill then a save sends the same day back in every time zone |

## Left out

- The refresh-and-retry-on-401 path and the provider's `isLoading` flag are not modelled. The code has neither: src/services/api.ts:3-6 is a plain axios instance, and `AuthProvider` declares only `isAuthenticated` and `user`.
- Registration, the task list, the dashboard and the display components. They are outside the two modelled pieces.
- Real I/O is left out: `localStorage`, HTTP, `router.push` and `console.error`. It becomes a map, a request log with outcomes passed in as inputs, and a navigation log. The logged error text is dropped.
- React mechanics are left out: render scheduling, batching of state updates, and effect timing beyond "after a render in which `open` changed". So is the error `useAuth` throws outside a provider.
- Async interleaving: each operation runs to completion. So a second submit while one is pending is not modelled, nor a logout during a login.
- TaskFormDialog.Payload: dates are kept as their "yyyy-MM-dd" text, and `new Date(...)` followed by `format(..., "yyyy-MM-dd")` is modelled as the identity. That is the corrected round trip of module `DueDates`. The one-day shift west of UTC is proved there, not in the form model.
- TaskFormDialog.UnchangedEditResendsTask: the due date comes back unchanged only under the identity date abstraction. As written, at a negative UTC offset the save sends the previous day (see "Findings").
- TaskFormDialog.TaskFormDialog.CompleteSubmit: `triggerTaskUpdate` is modelled as an abstract counter of update requests. The auth context's type and provider value (src/contexts/AuthContext.tsx:23-28 and 88) do not supply it, so the call fails at run time and lands in the `catch`. The model records the intended request instead.
- AuthContext.LoggedIn: the token response is assumed to hold string `access` and `refresh` fields. A body without them, which would store the text "undefined", is not modelled.
- Types.Decimal: task ids are modelled as integers rendered in plain decimal. Fractional JavaScript numbers are not modelled, nor the exponential form (`"1e+21"`) JavaScript uses for integers of 10^21 and more.
- The `onTaskSaved` prop is declared but never used by the component, and the dialog's title texts are presentation, so neither is modelled.

## Findings

| source | as written | input that shows it | evidently intended | confidence | as-written member | corrected member |
|---|---|---|---|---|---|---|
| src/components/task-form-dialog.tsx:65 | the fill reads the task's date-only `due_date` with `new Date(...)` (UTC midnight), and the save at line 77 formats it in local time | a task due "2024-05-10" (day 19853), opened for editing and saved unchanged in a browser at UTC-3: "2024-05-09" is sent | an unchanged date is sent back unchanged in every time zone (read the text as local midnight) | not executed; high | DueDates.AsWrittenLosesADay | DueDates.ResentDayRoundTrip |
