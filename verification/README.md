# malay2sql-frontend — a Dafny model of the client's state logic

The malay2sql web client lets a signed-in user upload a table schema, chat in
Malay to get SQL back, and manage their profile. This project models the small
pieces of that client that carry real logic, as immutable datatypes and pure
state-transition functions, and proves what the code promises about them:

- **Schema upload** (`json.dfy`, `schema_upload.dfy`): a parsed JSON value, the
  JavaScript operators the validator uses on it (truthiness, `typeof`, property
  access, `Object.entries`), `validateSchema` with its exact check order and
  messages, and the upload handler's gate: MIME type first, validation before the
  `/malay2sql/initialize` request, and the "Failed to upload schema: …" text.
- **Chat log** (`chat.dfy`, `code_fence.dfy`): messages, the text box, the loading
  flag and a queue of scheduled replies; `Send` and `Reply` as explicit events; the
  canned reply template; and the ```` ``` ```` split used to render messages as
  alternating prose and code.
- **User session** (`user_session.dfy`): the user context's `user`/`isLoading`
  state with the stored token, `fetchUser`, `logout`, the default context and the
  `useUser` guard, and the two ways pages display the user (name and initials).
- **Profile form** (`profile.dfy`): the sync from the loaded user, saving the
  profile, changing the password, and the theme toggle.
- **Dashboard gate** (`dashboard.dfy`): the `checkAuth` decision, logout, and the
  render guard with the sidebar's user display.
- `js_base.dfy` holds JavaScript-level helpers shared by all of them: `Option`,
  string truthiness, `String.prototype.trim` and the "backend detail or fallback"
  error text.

Network answers (`/users/me`, `PUT /users/me`, the initialize request), the parse
of the uploaded file, the clock readings used as message ids, and timer firings
are all inputs or events of the model; nothing here performs I/O.

The chat component sends no translate, execute or feedback request: its reply
is a fixed template shown after a 2000 ms timer. Message ids come from
`Date.now()`, so two messages can share one; the model takes ids as arbitrary
naturals.

Behaviours worth knowing that the model keeps as written:

- an array passes as the `columns` container, and its entries are named "0", "1", …;
- `data_type` and `description` are only tested for truthiness, so a non-zero
  number passes;
- a `null` schema fails on the property read itself, with the engine's TypeError
  (V8's text "Cannot read properties of null (reading 'table_name')" is used);
- the reply embeds the raw input between quotes without escaping;
- any reply clears the loading flag, even while later replies are scheduled;
- a failed `/users/me` refetch still leaves the dashboard authenticated (with the
  "Loading..." / "U" placeholder) until the next check sends the visitor to log in;
- the avatar initials of a user with an empty first or last name contain the text
  "undefined", as `""[0]` in a template literal does.

## Model

| member | source | states |
|---|---|---|
| `SchemaUpload.CheckColumn` | src/components/file-upload.tsx:32-39 | a column entry passes exactly when its value is an object (not an array) with truthy `data_type` and `description`; a non-object or falsy value fails with "Invalid column info for <name>", an object or array lacking the fields with "Column <name> must have data_type and description" |
| `SchemaUpload.CheckColumns` | src/components/file-upload.tsx:31-40 | the column loop passes exactly when every entry is an acceptable column |
| `SchemaUpload.CheckColumnsReportsFirstBad` | src/components/file-upload.tsx:31-39 | entries are checked in order and the error reported is that of the first unacceptable entry |
| `SchemaUpload.Validate` | src/components/file-upload.tsx:22-43 | a schema passes exactly when it is an object with a non-empty string `table_name` and an array-or-object `columns` whose entries are all acceptable; a null schema fails on the property read; a bad `table_name` is reported before `columns` is looked at; a bad `columns` (missing, null, non-object) is reported next |
| `SchemaUpload.ValidateReportsFirstBadColumn` | src/components/file-upload.tsx:27-40 | with a valid table name and columns container, the schema's error is its first bad column's error |
| `SchemaUpload.EmptyColumnsAccepted` | src/components/file-upload.tsx:31-42 | a valid table name with an empty `columns` object or array passes |
| `SchemaUpload.UntypedColumnFieldsPass` | src/components/file-upload.tsx:36-39 | the column fields' types are not checked: a non-zero number and `true` pass |
| `SchemaUpload.ArrayColumnsNamedByIndex` | src/components/file-upload.tsx:27-34 | an array passes the columns check and its first element is reported under the name "0" |
| `SchemaUpload.UploadFailure` | src/components/file-upload.tsx:71-72 | the failure text is "Failed to upload schema: " followed by the backend detail when non-empty, otherwise the error's own message |
| `SchemaUpload.ToastShown` | src/components/file-upload.tsx:50-78 | as written, a toast appears exactly for the type refusal and the success notice; no failure is shown |
| `SchemaUpload.FailureIsNeverShown` | src/components/file-upload.tsx:70-78 | every rejected upload shows no toast, since the error rethrown in `onload` never reaches the outer `catch` |
| `SchemaUpload.UnparsableFileShowsNothing` | src/components/file-upload.tsx:60-78 | a JSON-typed file that does not parse has the failure text "Failed to upload schema: <message>" but shows nothing |
| `SchemaUpload.IntendedToast` | src/components/file-upload.tsx:76-78 | the corrected handler shows every failure's text, and otherwise the same toasts |
| `SchemaUpload.FailureShownWhenCorrected` | src/components/file-upload.tsx:70-78 | with the correction, every outcome but "no file" shows a toast, and a failure shows its "Failed to upload schema: " text |
| `SchemaUpload.HandleFileUpload` | src/components/file-upload.tsx:45-74 | no file does nothing; a type other than "application/json" is refused with "Please upload a JSON file" and nothing is sent; the initialize request is sent exactly when the parsed schema is acceptable, with body `{schema}` holding it unchanged; parse and validation errors and backend failures become the failure text; success only when sent and answered, with the notice "Schema uploaded successfully. You can now start querying in Malay language!" |
| `Json.Truthy` | src/components/file-upload.tsx:23-37 | a value is falsy exactly when it is `null`, `false`, `0` or the empty string; arrays and objects, even empty ones, are truthy |
| `Json.IsObjectType` | src/components/file-upload.tsx:27-32 | `typeof` says 'object' for `null`, and together with the truthiness test it admits exactly arrays and objects |
| `Json.Prop` | src/components/file-upload.tsx:23-37 | reading a property of a non-null value that is not an object gives `undefined` |
| `Json.Lookup` | src/components/file-upload.tsx:23-37 | a property read finds a value exactly when some property has that key, and returns a value stored under it; with distinct keys it is the only such value |
| `Json.Entries` | src/components/file-upload.tsx:31 | `Object.entries` lists an object's properties in order and an array's elements keyed by their decimal index; the keys of a well-formed value are distinct |
| `JsBase.DecimalString` | src/components/file-upload.tsx:31 | an index prints as its canonical decimal text: the digits denote the index and there is no leading zero |
| `JsBase.DecimalStringInjective` | src/components/file-upload.tsx:31 | different indices print as different keys |
| `JsBase.DetailOr` | src/app/login/page.tsx:47 | an error shows the backend's detail when it is a non-empty string, otherwise the fallback |
| `JsBase.Trim` | src/components/chat.tsx:40 | `trim` keeps a contiguous slice of the input, drops only whitespace before and after it, and the kept slice starts and ends with a non-space character |
| `JsBase.TrimEmptyIffAllSpace` | src/components/chat.tsx:40 | `input.trim()` is empty exactly when the input is JavaScript whitespace only |
| `CodeFence.Split` | src/components/chat.tsx:74 | splitting on ```` ``` ```` gives at least one part, no part contains the delimiter, and every part but the last does not end in a backtick (each cut is at the leftmost delimiter) |
| `CodeFence.JoinSplit` | src/components/chat.tsx:74 | joining the parts back with the delimiter gives the original content |
| `CodeFence.Render` | src/components/chat.tsx:74-82 | one block per part, in order, carrying the part's text; odd-indexed parts are code and even-indexed parts prose |
| `CodeFence.RenderLosesNothing` | src/components/chat.tsx:74-82 | the rendered blocks' texts, joined with the delimiter, give back the message content |
| `Chat.ReplyText` | src/components/chat.tsx:51 | the reply opens with "Here's your SQL query:" and a blank line followed by a code fence, closes with a fence, and is a fixed number of characters longer than the input |
| `Chat.ContentsAppend` | src/components/chat.tsx:42-53 | appending a message adds its text to its sender's contents and leaves the other sender's contents unchanged |
| `Chat.Edit` | src/components/chat.tsx:112 | typing replaces the input and changes nothing else |
| `Chat.Send` | src/components/chat.tsx:39-46 | an all-whitespace input changes nothing; otherwise exactly one user message with the raw untrimmed input is appended, the input is cleared, loading is set, and a reply for that input is scheduled last |
| `Chat.Reply` | src/components/chat.tsx:47-55 | a reply appends one 'ai' message with the template for the oldest scheduled input, keeps earlier messages, clears loading and unschedules that input |
| `Chat.InitialInv` | src/components/chat.tsx:35-37 | the empty panel satisfies the log invariant |
| `Chat.SendKeepsInv` | src/components/chat.tsx:39-46 | a send keeps user messages = answered inputs followed by scheduled ones, and loading only with something scheduled |
| `Chat.ReplyKeepsInv` | src/components/chat.tsx:47-55 | a reply answers the oldest scheduled input, keeping the invariant |
| `Chat.StepKeepsInv` | src/components/chat.tsx:39-57 | every event keeps the invariant |
| `Chat.RunKeepsInv` | src/components/chat.tsx:39-57 | every state reachable from the empty panel satisfies the invariant |
| `Chat.RepliesFollowSends` | src/components/chat.tsx:41-55 | there are never more 'ai' messages than 'user' messages, and the k-th reply embeds the k-th sent input |
| `Chat.StepAppendOnly` | src/components/chat.tsx:42-53 | an event appends at most one message and never alters earlier ones |
| `Chat.RunAppendOnly` | src/components/chat.tsx:42-53 | over any run the old log is a prefix of the new one, which grows by at most one message per event |
| `Chat.FirstReplyClearsLoading` | src/components/chat.tsx:54 | after two sends and one reply, loading is off although a reply is still scheduled |
| `Chat.TemplateFenceFree` | src/components/chat.tsx:51 | the fixed pieces of the reply template contain no delimiter and end or start with a quote or newline |
| `Chat.QueryBlockFenceFree` | src/components/chat.tsx:51 | the SQL block of the reply to a delimiter-free input contains no delimiter |
| `Chat.ReplySplitsInThree` | src/components/chat.tsx:51 | for an input without ```` ``` ```` the reply splits into exactly the introduction, the SQL block and an empty tail |
| `Chat.QueryBlockStartsWithSelect` | src/components/chat.tsx:51 | the SQL block starts with "sql\n" followed by the SELECT line |
| `Chat.ReplyEmbedsInputVerbatim` | src/components/chat.tsx:51 | the input appears unchanged, unescaped, directly between the two quotes of `name = '…'` |
| `Chat.ReplyRendersProseCodeProse` | src/components/chat.tsx:74-82 | such a reply renders as prose, one code block, prose |
| `UserSession.InitialSession` | src/contexts/UserContext.tsx:25-26 | the provider starts with no user and not loading, the same value as the default context |
| `UserSession.UseContext` | src/contexts/UserContext.tsx:11-21 | a consumer sees the nearest provider's value or else the default (no user, not loading), never nothing |
| `UserSession.FetchStart` | src/contexts/UserContext.tsx:29 | fetching sets loading before the request and changes nothing else |
| `UserSession.FetchSettle` | src/contexts/UserContext.tsx:30-37 | on success the user is exactly the response data, on failure no user; loading is off on both paths; the token is untouched |
| `UserSession.FetchUser` | src/contexts/UserContext.tsx:28-38 | after `fetchUser` settles loading is off and there is a user exactly when the request succeeded, with the response data |
| `UserSession.FetchForgetsPreviousUser` | src/contexts/UserContext.tsx:31-34 | the settled session does not depend on the user held before: a failure discards it |
| `UserSession.Logout` | src/contexts/UserContext.tsx:40-43 | logout clears the user and removes the token, leaving loading unchanged |
| `UserSession.LogoutIdempotent` | src/contexts/UserContext.tsx:40-43 | logging out twice equals logging out once |
| `UserSession.UseUser` | src/contexts/UserContext.tsx:52-57 | the hook throws exactly when the context is missing, and otherwise returns it |
| `UserSession.UseUserNeverThrows` | src/contexts/UserContext.tsx:54-56 | with the default context in place the guard is unreachable, inside or outside a provider |
| `UserSession.Initials` | src/app/page.tsx:67 | "U" with no user; the first letters of first and last name otherwise; an empty first or last name contributes the text "undefined" in its place, so two empty names give "undefinedundefined"; the profile page's avatar (src/app/profile/page.tsx:148) is the same expression |
| `JsBase.FirstCharText` | src/app/page.tsx:67 | `${s[0]}` is the first character, or the text "undefined" for an empty string |
| `UserSession.DisplayName` | src/app/page.tsx:70 | "first last" with a user, "Loading..." without |
| `UserSession.InitialsMatchDisplayName` | src/app/page.tsx:67-70 | for a user with both names the avatar's letters are the first letters of the heading's two words; with no user they are "U" and "Loading..." |
| `Profile.InitialForm` | src/app/profile/page.tsx:25-30 | the form starts with the loaded user's fields or empty ones, and empty password boxes and error |
| `Profile.SyncForm` | src/app/profile/page.tsx:33-39 | a loaded user overwrites first name, last name and email; password boxes and error are untouched; no user changes nothing |
| `Profile.SyncIdempotent` | src/app/profile/page.tsx:33-39 | syncing again from the same user changes nothing, and the first render is already in sync |
| `Profile.UpdatePassword` | src/app/profile/page.tsx:59-74 | a request with body `{password}` is sent exactly when the two boxes are equal; a mismatch only sets "Passwords do not match"; success clears both boxes; failure keeps them and shows the detail or "Failed to update password"; the error is empty exactly after a successful change |
| `Profile.EmptyPasswordsAreSent` | src/app/profile/page.tsx:60-67 | two empty boxes count as matching, so an empty password is sent |
| `Profile.UpdateProfile` | src/app/profile/page.tsx:45-57 | exactly first_name, last_name and email are sent; success asks for a refetch and clears the error; failure shows the detail or "Failed to update profile"; fields are not changed |
| `Profile.SaveProfile` | src/app/profile/page.tsx:33-57 | a successful save refetches the user: a found user ends up in the session and in the form's three fields, a failed refetch leaves no user and the fields as typed; the error is cleared and loading is off either way. A failed save leaves the session and the fields alone and shows the detail or "Failed to update profile". The password boxes and the token are never touched |
| `Profile.ToggleTheme` | src/app/profile/page.tsx:123 | the result is "light" or "dark", and it is "dark" exactly when the theme was "light" |
| `Profile.ToggleTwiceRestores` | src/app/profile/page.tsx:123 | between "light" and "dark" the toggle undoes itself |
| `Dashboard.Decide` | src/app/page.tsx:28-38 | the check goes to login exactly when the token is missing or empty or there is no user, and fetches exactly when signed in, not yet authenticated and not loading |
| `Dashboard.CheckAuth` | src/app/page.tsx:27-41 | a visitor not signed in is sent to /login and nothing else changes; a fetching check refetches the user and marks the page authenticated; otherwise nothing happens |
| `Dashboard.TokenAloneIsNotEnough` | src/app/page.tsx:29-33 | a token without a loaded user sends the visitor to /login |
| `Dashboard.FetchAlwaysAuthenticates` | src/app/page.tsx:35-38 | after the check's fetch the page is authenticated and not loading, whether or not the fetch found a user |
| `Dashboard.HandleLogout` | src/app/page.tsx:43-47 | logout clears the session, drops the authenticated flag and navigates to /login |
| `Dashboard.Render` | src/app/page.tsx:53-72 | nothing is rendered until authenticated; then the sidebar shows the display name, initials and email of the current user |
| `Dashboard.LogoutThenCheckGoesToLogin` | src/app/page.tsx:43-55 | after logout the page renders nothing and the next check sends the visitor to /login |
| `Dashboard.FailedFetchShowsPlaceholderThenLogin` | src/app/page.tsx:35-70 | a failed fetch still authenticates the page, which shows "Loading..." and "U", and the next check sends the visitor to /login |

## Left out

- The translate, execute and feedback requests: the chat component contains none of them; its reply is a fixed template after a timer.
- `src/components/Malay2SQLText.tsx` (three.js rendering and floating-point animation) and `src/types/react-markdown.d.ts` (type declarations only).
- The login and register pages: HTTP, local storage and router plumbing; their only logic, the detail-or-fallback error text, is `JsBase.DetailOr`.
- The file reader's callback timing and the `isUploading` flag: `finally` runs before the reader's `onload` does, so the flag is cleared before the upload ends. The error rethrown inside `onload` is an unhandled rejection that the outer `catch` never sees, so no upload failure is ever shown to the user; only the type refusal and the success notice appear (see Findings). `HandleFileUpload` returns the text of the thrown error, and `SchemaUpload.ToastShown` says what is displayed.
- `JSON.parse`: the model starts from the parsed value (or the parse error's message). Objects are property lists in JavaScript enumeration order; integer-like keys enumerating first is part of that order, not recomputed. The parse keeps the last of repeated keys, so its values have distinct keys (`Json.WellFormed`); `Json.Lookup` takes the first match, which is the same value on that domain.
- JSON numbers are modelled as integers: fractions, exponents and `-0` are not modelled. Only their truthiness matters to the validator, and that is zero versus non-zero.
- `if (!validateSchema(schema)) throw new Error('Invalid schema format')`: `validateSchema` returns true or throws, so that branch cannot be taken and has no counterpart.
- A backend `detail` that is not a string (an array of validation errors, say) is not modelled; `detail` is an optional string.
- `SchemaUpload.Validate`: the message for a `null` schema is the V8 engine's TypeError text; other engines word it differently.
- Real timers, axios, local storage and the router: timer firings are `Chat.Event`s, responses are parameters, the token is a field of `UserSession.Session`, and navigation is a returned `Dashboard.Navigation`.
- Message ids from `Date.now()`: ids are parameters, with no uniqueness assumed.
- The skeleton loader shown while `isLoading`, animation, scrolling, icons, tab switching, the "Back" and "Settings" navigation buttons, and the hard-coded statistics.
- The default context's `fetchUser` and `logout`, which do nothing: only its `user` and `isLoading` values are modelled.
- When React re-runs the `checkAuth` effect (its dependency list): `Dashboard.CheckAuth` models one run, and a re-run is another call.
- JavaScript strings are UTF-16; the model's characters are Unicode scalar values, so `s[0]` of a name starting with a character outside the Basic Multilingual Plane (half a surrogate pair in the browser) is not modelled.

## Findings

| source | as written | input that shows it | evidently intended | confidence | as-written member | corrected member |
|---|---|---|---|---|---|---|
| src/components/file-upload.tsx:70-78 | the `catch` inside `onload` rethrows `Failed to upload schema: …` from an async callback; the outer `catch` (which toasts `error.message`) has already finished, so the rejection is unhandled and nothing is shown | a file of type application/json whose content does not parse, or fails validation, or is refused by the backend | the failure text is shown as an error toast | high; not executed | `SchemaUpload.ToastShown`, `SchemaUpload.FailureIsNeverShown`, `SchemaUpload.UnparsableFileShowsNothing` | `SchemaUpload.IntendedToast`, `SchemaUpload.FailureShownWhenCorrected` |
