# Task manager client views, modelled in Dafny

This project models the view-level logic of a browser client for a personal
task manager: the task list with its search box and status filter, the
add/edit task page, the signup form and the login form with its
post-login redirect. Each view is a Dafny class whose fields are the
component's state (`tasks`, `filteredTasks`, `searchQuery`, `statusFilter`;
`task`, `formData`, `formErrors`), and each event handler or effect is a
method whose `ensures` gives the complete new state.

The model makes no request to the server. A handler that calls the fetch hook
appends a `Pending` entry to the view's `pending` list. The entry holds the
config object the handler built (URL, verb, JSON body, `Authorization`
header, toast option) and the continuation its `.then` would run. Separate
`Resolve…` methods settle entry `i` with a success and run that
continuation: store the fetched list, refetch after a delete, store the
loaded task, or navigate. `Reject` settles it with a failure, and then the
continuation does not run. Navigations are recorded in a `navigations` list.
The login action sent to the store is recorded in `dispatched`.

Modules:

- `JsString`: ASCII `toLowerCase` and `includes`, with a proof that
  `includes` means "occurs at some index".
- `Http`: request descriptors, plus the `/tasks/{id}` URL and its inverse.
- `Forms`: form objects and the `{...form, [name]: value}` update. It also
  holds the fold of a validation result into a field-to-message object,
  where the last entry for a field wins.
- `Tasks`, `TaskPage`, `SignupForm`, `LoginForm`: one module per component.

Behaviour worth knowing, as the code has it:

- When a fetch of the task list succeeds, `tasks` and `filteredTasks` are
  both set to the fetched list. The stored query and status filter stay as
  they were. After a successful delete, which always refetches, the list on screen
  can therefore disagree with the search box. It agrees exactly when every
  fetched task matches the query and filter
  (`FetchedListAgreesWithFilterIff`).
- The refetch after a delete uses the token that was current when the
  delete was clicked, because `handleDelete` closes over that `fetchTasks`.
- The form state is an open JSON object. `handleChange` may add any key.
  The task page still sends only `description` and `status`. The signup
  form sends the whole object.

## Model

| member | source | states |
|---|---|---|
| JsString.LowerChar | src/components/Tasks.jsx:35 | the result is never an ASCII capital; a capital moves down by 32 code points; anything else is unchanged |
| JsString.Lower | src/components/Tasks.jsx:35 | `toLowerCase` keeps the length, yields a lower-case string and agrees with the input up to case at every position |
| JsString.LowerFixesLower | src/components/Tasks.jsx:47 | lower-casing an already lower-case string (such as the stored query or an already lowered description) changes nothing |
| JsString.Includes | src/components/Tasks.jsx:47 | every string includes the empty string, and a string never includes anything longer than itself |
| JsString.IncludesIff | src/components/Tasks.jsx:47 | `s.includes(q)` holds exactly when `q` occurs in `s` at some index (both directions) |
| Http.TaskUrlRoundTrip | src/pages/Task.jsx:81 | the URL `/tasks/{id}` addresses exactly task `id`, and `/tasks` addresses no single task |
| Forms.Edit | src/pages/Task.jsx:45-51 | a field edit sets the named key to the new value (adding it if missing) and leaves every other key and value unchanged |
| Forms.FoldErrors | src/pages/Task.jsx:68-71 | the error object is empty exactly when the validation result is empty, so the errors shown are empty exactly when the submit goes through |
| Forms.FoldErrorsKeys | src/pages/Task.jsx:70 | the error object has one key for each field that has an error, and no other key |
| Forms.FoldErrorsLastWins | src/pages/Task.jsx:70 | the message shown for a field is the `err` of the last entry for that field in the validation result |
| Forms.FoldErrorsFromLast | src/pages/Task.jsx:70 | every message shown comes from the last entry for its field |
| Tasks.Filtered | src/components/Tasks.jsx:45-50 | soundness: every kept task satisfies `Matches`, the predicate of lines 46-48: it is one of `tasks`, its lower-cased description includes the query, and its status is the filter or the filter is `all`; the result is never longer than `tasks` |
| Tasks.FilteredIsSubsequence | src/components/Tasks.jsx:46-49 | the kept tasks appear in their original relative order; the result is a subsequence of `tasks` |
| Tasks.FilteredCount | src/components/Tasks.jsx:46-49 | a matching task is kept as many times as it occurs in `tasks`, and a non-matching one never is |
| Tasks.FilteredComplete | src/components/Tasks.jsx:46-50 | completeness: every task of `tasks` that matches the query and status is shown |
| Tasks.FilteredAllMatching | src/components/Tasks.jsx:46-49 | a list in which every task matches is returned unchanged |
| Tasks.FilteredIdempotent | src/components/Tasks.jsx:45-51 | filtering the filtered list again with the same query and status gives the same list |
| Tasks.FilteredShowsAll | src/components/Tasks.jsx:46-49 | with the empty query and the filter `all`, the shown list is the whole of `tasks` |
| Tasks.FetchedListAgreesWithFilterIff | src/components/Tasks.jsx:18-21 | the fetched list shown unfiltered equals what the stored query and filter select exactly when every fetched task matches them |
| Tasks.FetchRequest | src/components/Tasks.jsx:17-18 | the fetch config is `GET /tasks`, addressing the collection and no single task, with the session token and `showSuccessToast: false` |
| Tasks.DeleteRequest | src/components/Tasks.jsx:30 | the delete config is `DELETE /tasks/{id}`, addressing exactly task `id`, with the session token and no toast option |
| Tasks.TasksView.constructor | src/components/Tasks.jsx:10-13 | the view starts with no tasks, the empty query, the filter `all` and no requests |
| Tasks.TasksView.SessionEffect | src/components/Tasks.jsx:24-27 | when logged in, one `GET /tasks` is issued; when not logged in, no request is issued and nothing changes |
| Tasks.TasksView.FetchTasks | src/components/Tasks.jsx:16-22 | issues `GET /tasks` with the session token and no success toast, and its success stores the list; no other state changes |
| Tasks.TasksView.ResolveFetch | src/components/Tasks.jsx:18-21 | a successful fetch sets `tasks` and `filteredTasks` to the same fetched list and keeps the query and filter, so any active search or status filter is discarded from the shown list |
| Tasks.TasksView.HandleDelete | src/components/Tasks.jsx:29-32 | issues `DELETE /tasks/{id}` with the session token, and its success refetches with that same token; the lists are untouched until then |
| Tasks.TasksView.ResolveDelete | src/components/Tasks.jsx:31 | a successful delete is always followed by exactly one `GET /tasks` whose success stores the list |
| Tasks.TasksView.Reject | src/components/Tasks.jsx:29-31 | a failed request runs no continuation: no refetch, no list change |
| Tasks.TasksView.FilterTasks | src/components/Tasks.jsx:45-51 | the shown list becomes the tasks of `tasks` that match; it stays a subsequence of `tasks` |
| Tasks.TasksView.HandleSearch | src/components/Tasks.jsx:34-38 | the stored query is the lower-cased input, always lower-case, and the list is refiltered with it and the current status filter |
| Tasks.TasksView.HandleStatusFilter | src/components/Tasks.jsx:40-43 | the status filter is stored and the list is refiltered with it and the stored (lower-cased) query |
| TaskPage.ModeOf | src/pages/Task.jsx:16 | the mode is add exactly when `taskId` is undefined, otherwise update |
| TaskPage.TaskForm | src/pages/Task.jsx:75-78 | the object built has exactly the keys `description` and `status`, holding the given values |
| TaskPage.InitialForm | src/pages/Task.jsx:18-21 | the form starts as `{description: "", status: "todo"}` |
| TaskPage.SubmitRequest | src/pages/Task.jsx:75-85 | add mode is `POST /tasks` and update mode is `PUT /tasks/{taskId}` (both URLs stated outright), so the URL addresses exactly the task being edited or, in add mode, none; the body holds only the form's description and status; `Authorization` is the session token |
| TaskPage.LoadRequest | src/pages/Task.jsx:30-34 | the load is `GET /tasks/{taskId}` addressing that task, with the token and no success toast |
| TaskPage.TaskPageView.constructor | src/pages/Task.jsx:16-22 | no task loaded, the initial form, no errors, no requests, and the mode derived from `taskId` |
| TaskPage.TaskPageView.LoadEffect | src/pages/Task.jsx:28-43 | in update mode one load of the task is issued; in add mode nothing happens |
| TaskPage.TaskPageView.ResolveLoad | src/pages/Task.jsx:35-41 | a successful load sets `task` and sets `formData` to exactly that task's description and status |
| TaskPage.TaskPageView.HandleChange | src/pages/Task.jsx:45-51 | only the named field of the form changes |
| TaskPage.TaskPageView.HandleReset | src/pages/Task.jsx:53-61 | the form gets back the loaded task's description and status; with no task loaded nothing changes |
| TaskPage.TaskPageView.HandleSubmit | src/pages/Task.jsx:63-90 | `formErrors` is the fold of the validation result; with any error no request is issued; with none the errors are empty and exactly one add or update request is issued, to navigate home on success |
| TaskPage.TaskPageView.ResolveSubmit | src/pages/Task.jsx:87-89 | a successful create or update navigates to `/` |
| TaskPage.TaskPageView.Reject | src/pages/Task.jsx:87-89 | a failed request neither navigates nor loads anything |
| SignupForm.InitialForm | src/components/SignupForm.jsx:10-14 | the form starts with `name`, `email` and `password`, all empty |
| SignupForm.SignupRequest | src/components/SignupForm.jsx:33 | `POST /auth/signup` whose body is the whole form, key for key, with no `Authorization` header |
| SignupForm.SignupFormView.constructor | src/components/SignupForm.jsx:9-16 | the initial form, no errors, no requests, no navigation |
| SignupForm.SignupFormView.HandleChange | src/components/SignupForm.jsx:18-22 | only the named field of the form changes |
| SignupForm.SignupFormView.HandleSubmit | src/components/SignupForm.jsx:24-37 | any validation error blocks the request and shows the fold of the result (last entry per field wins); otherwise the errors are cleared and exactly one signup request is issued; it never navigates |
| SignupForm.SignupFormView.ResolveSignup | src/components/SignupForm.jsx:34-36 | navigation to `/login` happens when, and only when, the signup request succeeds |
| SignupForm.SignupFormView.Reject | src/components/SignupForm.jsx:34-36 | a failed signup does not navigate |
| LoginForm.RedirectUrlOf | src/pages/Login.jsx:8 | the redirect target taken from the navigation state (with a falsy value turned into null) is a non-empty string exactly when the navigation state carries a non-empty one, and then it is that target |
| LoginForm.RedirectTarget | src/components/LoginForm.jsx:23 | the post-login path is the redirect target when it is a non-empty string and `/` when it is null or empty; never the empty path |
| LoginForm.LoginDestination | src/components/LoginForm.jsx:21-25 | after login the user lands on the page named in the login page's navigation state, or `/`; the page's defaulting to null does not change where |
| LoginForm.InitialForm | src/components/LoginForm.jsx:11-14 | the form starts with empty `email` and `password` |
| LoginForm.LoginFormView.constructor | src/components/LoginForm.jsx:9-19 | the form takes its redirect target from the login page's navigation state; initial form, nothing dispatched, no navigation |
| LoginForm.LoginFormView.RedirectEffect | src/components/LoginForm.jsx:21-25 | when logged in it navigates to the redirect target, or `/` when it is null or empty; when not logged in nothing happens |
| LoginForm.LoginFormView.HandleChange | src/components/LoginForm.jsx:27-31 | only the named field of the form changes |
| LoginForm.LoginFormView.HandleSubmit | src/components/LoginForm.jsx:33-42 | any validation error blocks the dispatch and shows the fold of the result; otherwise the errors are cleared and exactly one login action is dispatched, with the current email and password |

## Left out

- The fetch hook (`src/hooks/useFetch`) is not part of this model: network I/O, the loading flag and toast notifications. A request is only a recorded config plus the continuation that runs on success. A failure is settling the entry without running that continuation.
- The redux auth store and `postLoginData` (`src/redux`) are not part of this model. `isLoggedIn` and the token are method parameters, and the login is only an action recorded in `dispatched`.
- The validation table (`src/validations`) is not part of this model. Each form receives `validateManyFields` as an uninterpreted function value.
- JsString.Lower: folds only the ASCII capitals `A`–`Z`. Full Unicode case mapping of `toLowerCase` is not modelled.
- React scheduling is not modelled: re-renders, effect dependency lists, batching of the two `setFormErrors` calls, stale closures, and the order in which concurrent requests settle. Effects are methods the caller runs when their dependencies change. Requests may settle in any order, because any pending index can be resolved.
- Event objects are not modelled. `preventDefault` has no counterpart, and `e.target.name`/`e.target.value` are parameters.
- Response bodies are assumed to have the expected shape (`data.tasks`, `data.task`). Statuses and descriptions are plain strings, as the code treats them.
- Presentational parts are not modelled: JSX markup, CSS classes, the Loader and Tooltip, `document.title`, links, the task page's Cancel button, and `src/pages/Home.jsx`, which only picks the view to render.
