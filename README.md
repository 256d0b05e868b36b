# A verified model of a MERN to-do list

This project models the rules of a small to-do application built from an
Express/Mongoose REST API and a React client. The model covers four areas.

- **Task API.** The server keeps a collection of tasks, one per document,
  each owned by a user. An authenticated user can list, create, update and
  delete their own tasks. The listing is sorted: starred (priority) tasks
  first, then later dates, then newer creation instants.
- **Account API.** This covers signup, login, the current-user lookup and
  the theme setting ("light" or "dark"), over a collection of accounts
  looked up by email.
- **Client screens.** These are:
  - the task list: its reducers, theme toggle, footer counters and PDF export;
  - one task row: how the title is styled;
  - the new-task form: validation, submission and reset;
  - the session context: the token and signed-in user, and local storage.
- **Server defaults.** The task schema's required fields and defaults.

The modules are:

- `Common`: identifiers, `Option`/`Result` and JavaScript truthiness for
  optional strings.
- `TaskModel`: the task document and its schema.
- `TaskRoutes`: the four task handlers. They are specified as pure functions
  from store to reply and new store. The class `TaskCollection` performs
  them in place, and each method is proved against its function.
- `AuthRoutes`: the account handlers. They follow the same pattern with the
  class `UserStore`.
- `TaskItem`: the row style.
- `TaskInput`: the form, as the class `TaskInputForm`.
- `AuthContext`: the session, as the class `AuthProvider`.
- `TodoList`: the list screen. Both copies of it in the repository are
  modelled here. The copy under `frontend/` also has the title edit
  (`updateTask`); the copy under `src/` does not.

Identifiers are natural numbers handed out in increasing order by the store.
Instants are integers, in milliseconds since the epoch; a stored task's
`date` is an instant, like its timestamps. The new-task form holds its date
as a day number. The list sends it as a "YYYY-MM-DD" string, which the
store casts to the instant at which that day starts (`DayStart`; the model
does the cast in `AddBody`), so dates from the form and the server's
default date lie on one time line. The client's
HTTP calls appear as their outcomes (`Result` values). Password hashing,
password matching and the JWT expiry setting are parameters. A token is
modelled by the claims it signs.

## Model

| member | source | states |
|---|---|---|
| TaskModel.NewTask | backend/models/Task.js:3-48 | creation fails exactly when `user_id` is absent or `title` is absent or empty, and reports those paths; otherwise every supplied field is kept, every absent one takes the schema default (false flags, 'Inter', '#000000', date = creation instant) and both timestamps are the creation instant |
| TaskModel.NewTaskSucceedsIff | backend/models/Task.js:5-13 | creation succeeds exactly when an owner and a non-empty title are supplied, whatever the other fields hold |
| TaskModel.DayOfBounds | backend/models/Task.js:22-25 | every instant lies within the day it falls on, and the start of a day falls on that day |
| TaskModel.DayStartOrder | backend/models/Task.js:22-25 | later days start later, and only later days do |
| TaskModel.LaterDayStartsLater | backend/models/Task.js:22-25 | the start of a day is after every instant of an earlier day |
| TaskModel.Merge | backend/routes/tasks.js:61-63 | an update sets every field the body carries, keeps every other field, keeps the identifier and `createdAt`, and sets `updatedAt` to the update instant (the schema's `timestamps` option, backend/models/Task.js line 47) |
| TaskModel.MergeStoredValues | backend/routes/tasks.js:61-63 | a body that repeats stored values, the empty body included, changes only `updatedAt`; merging the same body twice is merging it once |
| TaskModel.MergeCanEmptyTitle | backend/routes/tasks.js:61-63 | the update runs no validation, so it can store an empty title |
| TaskRoutes.ListedBeforeIsTotalPreorder | backend/routes/tasks.js:10 | the listing order (priority desc, date desc, createdAt desc) is total and transitive |
| TaskRoutes.Insert | backend/routes/tasks.js:10 | placing a task into a listing adds exactly that task: the multiset grows by it |
| TaskRoutes.InsertKeepsSorted | backend/routes/tasks.js:10 | placing a task into a sorted listing keeps it sorted |
| TaskRoutes.InsertKeepsDistinct | backend/routes/tasks.js:10 | placing a task with a new identifier keeps identifiers distinct |
| TaskRoutes.Query | backend/routes/tasks.js:9 | the query returns only the owner's stored tasks, and every one of them |
| TaskRoutes.QuerySorted | backend/routes/tasks.js:10 | the query result is in listing order |
| TaskRoutes.QueryDistinct | backend/routes/tasks.js:9 | the query returns each stored task once |
| TaskRoutes.TaskCollection.List | backend/routes/tasks.js:7-19 | GET / answers exactly the requester's tasks, each once, sorted by priority, date and creation instant; no other user's task appears |
| TaskRoutes.Authorize | backend/routes/tasks.js:51-59 | the guard answers not-found exactly for an unknown id, forbidden exactly for another owner's task, allowed exactly for the requester's own task |
| TaskRoutes.Post | backend/routes/tasks.js:21-47 | a falsy title gives 400 with the store unchanged; otherwise 201, one new task under a new id, owned by the requester, with an absent date replaced by now and a falsy font, color or flag replaced by 'Inter', '#000000' or false, not completed and not starred |
| TaskRoutes.CreateIgnoresUnreadFields | backend/routes/tasks.js:23-38 | a `user_id`, `is_completed` or `is_priority` in the body has no effect on creation |
| TaskRoutes.TaskCollection.Create | backend/routes/tasks.js:21-47 | the in-place create answers and changes the collection as `Post` says, keeping identifiers consistent; a rejected create hands out no identifier |
| TaskRoutes.Put | backend/routes/tasks.js:49-72 | 404 for an unknown id and 403 for another owner's task, both with the store unchanged; 200 exactly for the owner, merging the body into that task only; no other task and no other user's task changes |
| TaskRoutes.TaskCollection.Update | backend/routes/tasks.js:49-72 | the in-place update answers and changes the collection as `Put` says |
| TaskRoutes.OwnerUpdateCanReassign | backend/routes/tasks.js:61-63 | the owner's update can store a new `user_id`: the merge has no allow-list |
| TaskRoutes.Delete | backend/routes/tasks.js:74-95 | 404 for an unknown id, 403 for another owner's task, both with the store unchanged; 200 exactly for the owner, with exactly that id removed |
| TaskRoutes.TaskCollection.Remove | backend/routes/tasks.js:74-95 | the in-place delete answers and changes the collection as `Delete` says |
| TaskRoutes.NonOwnerIsForbidden | backend/routes/tasks.js:57-84 | whatever the body, a non-owner's update and delete both answer 403 and change nothing |
| AuthRoutes.GenerateToken | server/routes/auth.js:8-12 | the token is for the given id and its lifetime is `JWT_EXPIRE`, or '7d' when that is unset or empty |
| AuthRoutes.PublicViewHidesPassword | server/routes/auth.js:38-42 | a response shows id, email and theme only; two accounts differing only in their password hash look the same |
| AuthRoutes.FindByEmail | server/routes/auth.js:22-26 | the lookup finds an account with that email whenever there is one, and only such an account |
| AuthRoutes.PostSignup | server/routes/auth.js:14-47 | missing email or password gives 400 and nothing changes; a registered email gives 400 'User already exists' and nothing changes; otherwise 201, exactly one account added (theme 'light') and a token for its id; emails stay unique |
| AuthRoutes.UserStore.SignUp | server/routes/auth.js:14-47 | the in-place signup answers and changes the accounts as `PostSignup` says, keeping emails unique; a rejected signup hands out no identifier |
| AuthRoutes.PostLogin | server/routes/auth.js:49-83 | missing fields give 400; success (200, token for that account's id, its public view) exactly when an account with that email exists and the password matches; otherwise the same 401 'Invalid credentials' for an unknown email and a wrong password |
| AuthRoutes.GetMe | server/routes/auth.js:85-104 | 404 'User not found' exactly when the id no longer resolves; otherwise 200 with the public view |
| AuthRoutes.PutTheme | server/routes/auth.js:106-127 | only the caller's `theme_mode` changes; every other account and every other field stays; an id that no longer resolves answers 500 |
| AuthRoutes.UserStore.UpdateTheme | server/routes/auth.js:106-127 | the in-place theme update answers and changes the accounts as `PutTheme` says |
| TaskItem.GetTextStyle | src/components/TaskItem.jsx:10-27 | the decoration is 'underline line-through', 'underline', 'line-through' or '' according to underline and completion (each if and only if); the font falls back to 'Inter' and the color to '#ffffff' in dark mode, '#000000' otherwise; weight and style follow bold and italic |
| TaskItem.DecorationNamesBothEffects | src/components/TaskItem.jsx:11-18 | the decoration mentions 'line-through' exactly when the task is completed and 'underline' exactly when it is underlined |
| TaskInput.TrimEmptyIffBlank | src/components/TaskInput.jsx:58 | `title.trim()` is empty exactly when the title is all white space |
| TaskInput.TrimStartEmptyIffBlank | src/components/TaskInput.jsx:58 | stripping leading white space leaves nothing exactly when the title is all white space |
| TaskInput.TrimEndEmptyIffBlank | src/components/TaskInput.jsx:58 | stripping trailing white space leaves nothing exactly when the title is all white space |
| TaskInput.CheckSubmit | src/components/TaskInput.jsx:44-59 | a date before today is refused; otherwise a blank title is ignored; otherwise the submit is accepted, and then the title is non-empty |
| TaskInput.TaskInputForm.constructor | src/components/TaskInput.jsx:27-36 | the form starts empty, 'Inter', black, no flags, panel closed, dated today |
| TaskInput.TaskInputForm.OnThemeChange | src/components/TaskInput.jsx:39-42 | a theme change sets both colors to '#ffffff' in dark mode, '#000000' otherwise |
| TaskInput.TaskInputForm.ToggleBold | src/components/TaskInput.jsx:148 | the bold button negates bold only |
| TaskInput.TaskInputForm.ToggleItalic | src/components/TaskInput.jsx:161 | the italic button negates italic only |
| TaskInput.TaskInputForm.ToggleUnderline | src/components/TaskInput.jsx:174 | the underline button negates underline only |
| TaskInput.TaskInputForm.ToggleFormatting | src/components/TaskInput.jsx:109 | the formatting button opens or closes the panel |
| TaskInput.TaskInputForm.EditTitle | src/components/TaskInput.jsx:92 | typing sets the title only |
| TaskInput.TaskInputForm.PickDate | src/components/TaskInput.jsx:125 | the date picker sets the date only |
| TaskInput.TaskInputForm.PickFont | src/components/TaskInput.jsx:189 | the font picker sets the font only, to one of the fonts it offers |
| TaskInput.TaskInputForm.PickPresetColor | src/components/TaskInput.jsx:213 | a preset swatch sets the text color only, to one of the preset colors |
| TaskInput.TaskInputForm.PickCustomColor | src/components/TaskInput.jsx:226-229 | the custom color sets both the text color and the swatch |
| TaskInput.TaskInputForm.Clear | src/components/TaskInput.jsx:67-75 | the reset empties the title, restores 'Inter' and the theme color, clears the flags, dates today and closes the panel |
| TaskInput.TaskInputForm.HandleSubmit | src/components/TaskInput.jsx:44-76 | a past date or a blank title adds nothing and changes no field; an accepted submit hands over the untrimmed title with the current font, color, flags and date exactly once, then resets every field |
| AuthContext.StoredTokenRoundTrip | src/contexts/AuthContext.jsx:12-21 | after storing a token under the key, reading the key gives it back; after removing the key there is no stored token |
| AuthContext.SessionOutcome | src/lib/api.js:5-36 | a success answer yields its token and user; a failure yields the server's message, or the fallback when it is empty |
| AuthContext.MeOutcome | src/lib/api.js:39-51 | the current-user call succeeds exactly on a success answer, with its user, and fails with 'Failed to fetch user data' otherwise |
| AuthContext.SessionSurvivesReload | src/contexts/AuthContext.jsx:15-23 | the stored session's lookup succeeds, with that account's public view, exactly when the account still exists on the server |
| AuthContext.DuplicateSignupMessage | src/contexts/AuthContext.jsx:32-42 | signing up with a registered email surfaces the server's 'User already exists' |
| AuthContext.FailedLoginMessage | src/contexts/AuthContext.jsx:44-54 | an unknown email and a wrong password surface in the client as the same error 'Invalid credentials' |
| AuthContext.AuthProvider.constructor | src/contexts/AuthContext.jsx:7-9 | a provider starts with no user, no token and loading |
| AuthContext.AuthProvider.Init | src/contexts/AuthContext.jsx:11-30 | loading ends on every path; without a stored token nothing else changes; with one, a successful lookup restores token and user, and a failed one removes the stored token and clears the token; afterwards the token in memory is the stored one |
| AuthContext.AuthProvider.SignUp | src/contexts/AuthContext.jsx:32-42 | success stores the token, sets token and user and returns no error; failure returns the message and changes nothing; a consistent provider stays consistent |
| AuthContext.AuthProvider.SignIn | src/contexts/AuthContext.jsx:44-54 | success stores the token, sets token and user and returns no error; failure returns the message and changes nothing; a consistent provider stays consistent |
| AuthContext.AuthProvider.SignOut | src/contexts/AuthContext.jsx:56-59 | the stored token is removed and token and user are cleared |
| AuthContext.AuthProvider.SetUser | src/contexts/AuthContext.jsx:65 | the exposed setter replaces the user only |
| AuthContext.UseAuth | src/contexts/AuthContext.jsx:71-77 | outside a provider the hook fails with 'useAuth must be used within an AuthProvider'; inside it returns the provided value |
| TodoList.AfterLoad | frontend/src/components/TodoList.jsx:19-27 | loading ends either way; the server's list replaces the shown one only on success |
| TodoList.AfterAdd | frontend/src/components/TodoList.jsx:29-39 | on success the created task is first and the old list follows unchanged; on failure the list stays |
| TodoList.AcceptedSubmitIsCreated | src/components/TodoList.jsx:29-39 | every submit the form accepts is created by the server with the typed title, the start of the chosen day as its date, the chosen formatting, not completed and not starred |
| TodoList.LaterFormDayListedFirst | backend/routes/tasks.js:10 | among unstarred tasks, a task added from the form for a later day is listed before a task whose date falls on an earlier day, the server's default date included |
| TodoList.WithoutId | src/components/TodoList.jsx:44 | the filter keeps exactly the tasks whose id differs |
| TodoList.WithoutIdKeepsOrder | frontend/src/components/TodoList.jsx:44 | the filter distributes over concatenation, so kept tasks stay in their original order |
| TodoList.WithoutIdAbsent | src/components/TodoList.jsx:44 | a list without that id is left as it is |
| TodoList.WithoutIdIdempotent | src/components/TodoList.jsx:44 | deleting twice is deleting once |
| TodoList.AfterDelete | frontend/src/components/TodoList.jsx:41-48 | on success the list is filtered by the id; on failure it stays |
| TodoList.ReplaceById | frontend/src/components/TodoList.jsx:53-71 | the length stays; every task with another id stays in place; every task with that id becomes the answer |
| TodoList.ReplaceKeepsIds | src/components/TodoList.jsx:53-62 | replacing by id keeps the list of ids, position by position |
| TodoList.AfterUpdate | frontend/src/components/TodoList.jsx:50-75 | a toggle or title edit replaces the task by id on success and leaves the list on failure |
| TodoList.CheckboxFlipsCompletion | src/components/TodoList.jsx:59-66 | the checkbox sends the negated flag, and the server stores the task with only completion flipped |
| TodoList.StarFlipsPriority | src/components/TodoList.jsx:50-57 | the star sends the negated flag, and the server stores the task with only priority flipped |
| TodoList.TitleEditStoresTitle | frontend/src/components/TodoList.jsx:68-75 | the owner's title edit stores exactly the new title, even an empty one, and changes nothing else but `updatedAt` |
| TodoList.BinDeletesTask | src/components/TaskItem.jsx:80-90 | the bin, clicked by the owner, removes exactly that task on the server, and the list shown drops it and keeps every other task |
| TodoList.StarTwiceRestores | frontend/src/components/TodoList.jsx:50-57 | two clicks on the star restore the task (up to `updatedAt`) |
| TodoList.NextTheme | frontend/src/components/TodoList.jsx:79 | the toggle requests 'dark' after 'light' and 'light' otherwise |
| TodoList.NextThemeTwice | src/components/TodoList.jsx:70 | on the two themes, toggling twice gives back the theme |
| TodoList.AfterTheme | src/components/TodoList.jsx:68-78 | the server's user replaces the shown one on success only |
| TodoList.ToggleThemeFlips | frontend/src/components/TodoList.jsx:77-87 | toggling against the server flips dark mode and changes no other account |
| TodoList.CountWhere | src/components/TodoList.jsx:216-218 | a count never exceeds the number of tasks (with `CountOne` and `CountAppend` it is the number of tasks satisfying the filter) |
| TodoList.FooterOf | frontend/src/components/TodoList.jsx:222-230 | the footer shows the total, 'task' only for one, the number of completed tasks and the number of priority tasks, each at most the total |
| TodoList.CountOne | src/components/TodoList.jsx:217 | a one-task list counts 1 exactly when its task satisfies the filter |
| TodoList.CountAppend | src/components/TodoList.jsx:216-218 | counting distributes over concatenation, so a count is the number of tasks satisfying the filter |
| TodoList.CountSplits | src/components/TodoList.jsx:217 | the completed and open counts add up to the total |
| TodoList.LineTextParses | src/components/TodoList.jsx:96-98 | a PDF line is the optional '[★] ', then '[✓] ' or '[ ] ', then the title; reading it back gives both flags and the title |
| TodoList.LineYInBounds | frontend/src/components/TodoList.jsx:97-110 | every task line's y lies in [20, 270] |
| TodoList.NextLine | src/components/TodoList.jsx:88-101 | the next line is 10 lower on the same page, or at 20 on a new page once 270 would be passed |
| TodoList.DownloadPdf | src/components/TodoList.jsx:80-105 | the PDF has the heading at 20 in size 20, then one size-12 line per task in list order at the page and y the pagination gives |

## Left out

- The HTTP client (`src/lib/api.js`) is modelled only by how it turns an
  answer into a result or an error message (`SessionOutcome`, `MeOutcome`).
  The `fetch` calls themselves are not modelled: each call appears as its
  outcome.
- The following are not part of this model:
  - the server bootstrap (`backend/server.js`);
  - the application shells (`App.jsx`);
  - the Tailwind configuration;
  - the JSX markup.
- JWT signing and verification are out of scope: a token is its claims, and
  the expiry is kept as the configured string, not as arithmetic on times.
- Password hashing and `matchPassword` are parameters. The account model
  (`models/User.js`) is not available, so two things are assumptions:
  - new accounts start with theme 'light', the client's own fallback
    (src/App.jsx:17-19);
  - emails are unique, modelled as the `EmailsUnique` invariant.
- The `protect` middleware is not part of this model: the requester's
  identifier is an input.
- Mongoose internals: the sort is a sortedness-plus-membership
  postcondition. Identifiers are natural numbers, so a malformed ObjectId is
  not modelled (the server would answer 500 from its catch block). Store
  failures, which all answer 500, are not modelled either.
- The update body is modelled as the ten task fields; `_id`, `createdAt`
  and unknown keys in a body are not modelled. JSON `null` values are not
  modelled.
- PostSignup, PostLogin: request bodies are modelled as optional strings.
  A non-string JSON value (an object such as `{"$ne": ""}` as the email) is
  not modelled. Such a value would reach `User.findOne` as a query, so the
  login property holds for string bodies only.
- Post, Put: task bodies are modelled as typed optional fields. Non-string
  or non-boolean JSON values, and Mongoose's casting of them, are not
  modelled.
- The guard of the list's load effect (load once both a user and a token
  are known) is left to React's effect scheduling and is not modelled;
  `AfterLoad` models what a load does.
- PutTheme: the request's `theme_mode` is modelled as a string that is
  present. A body without `theme_mode`, or with a non-string one, is not
  modelled; the source passes it on to `findByIdAndUpdate` as
  `{theme_mode: undefined}` or the raw value, which depending on the
  Mongoose version stores null or changes only `updatedAt`.
- An account's theme is a string that is always present. The theme value is
  not validated on update, as in the source.
- Wall clock and time zones: the form's date is a day number, and the
  instant it is sent as is that day's UTC midnight.
  - The form compares the chosen day with today; the source's UTC date
    versus local midnight mismatch is not modelled.
  - `formatDate`/`toLocaleDateString` is not modelled.
  - An emptied date field, which the source passes through to the server,
    is not modelled.
- jsPDF rendering and `doc.save`: only the trace of `doc.text` calls
  (page, y, size, text) is modelled.
- Interleavings of asynchronous requests and concurrent requests
  (last-write-wins) are not modelled.
- `console.error`, `alert` and the page reload in `signOut` are side
  effects with no state in the model.
- TaskItem.CompleteArgs, TaskItem.PriorityArgs, TaskItem.DeleteArgs: the
  callback arguments carry no contract of their own. Their meaning is stated
  through `CheckboxFlipsCompletion` and `StarFlipsPriority`.
