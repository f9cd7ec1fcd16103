# TixClick organizer app — check-in, login and event list, modelled in Dafny

This project models the logic core of the TixClick organizer mobile client:

- **QR check-in scanner** (`ScanQr`): the `handleBarCodeScanned` state machine
  over `scanned`, `loading`, the two modal flags, `ticketInfo` and
  `errorMessage`. A scan is dropped while `scanned` is true. With no token the
  error modal opens, no request is sent and scanning re-arms at once. With a
  token exactly one decrypt request is issued. The settled response is
  sorted into a ticket, a server rejection, a malformed body or a lost
  connection, and a timer re-arms scanning 3000 ms later. The module also
  models the camera callback, which is detached while `scanned`.
- **Login service, two revisions** (`Auth`, `LegacyAuth`): pure mappings from
  an abstract response to the result record. The current revision admits
  only the ORGANIZER role and never throws. The older one has no role check
  and rethrows transport failures as `Network error`.
- **Session store** (`Session`): the `AuthProvider` class, with the device
  key-value store as a `map<string, string>` and the `token`, `role` and
  `isLoggedIn` fields; `useAuth`.
- **Login screen** (`LoginScreen`): `handleLogin` with its guard, its service
  call, its messages, `saveToken`, its `finally` block, and the button that
  is disabled while loading.
- **Event list** (`MyEvent`): activity status derivation, `formatDate`
  (through a model of `split('-')` and `join('-')`), the status filter, the
  status colours and the expand/collapse toggle.

Shared modules: `Api` holds the `{code, result, message}` envelope as the
datatype `Response = NetErr | NotJson | Envelope(code?, result?, message?)`,
and JavaScript's `s || fallback`. `LoginModel` holds the login records.
`Clock` represents `setTimeout` on an integer millisecond clock: a pending
timer is a deadline, and `Tick(t)` fires every timer due by `t`.

Each asynchronous handler is split at its `await` into two methods. `OnScan`
and `Press` run up to the network call; `Settle` runs from the settled
response to the end of the handler, and the response is its parameter. The
scanner's `Phase()` (`Idle`, `Verifying`, `Cooldown(until)`) is read off the
flags. Its `Valid()` invariant proves that the flags take no other
combination.

The model follows the code as written, including where it departs from what
the screens evidently intend:
- With no token, the code sets `scanned` back to false at once
  (app/screens/ScanQr.tsx:122). It does not enter a cooldown.
- An empty-string token is falsy in `if (!token)`, so it is treated like an
  absent one (`ScanQr.HasToken`).
- A new scan does not clear the previous ticket or error. A successful
  response leaves the error modal flag and `errorMessage` as they were, and
  an error leaves `ticketInfo` and the ticket modal flag as they were.
- The role allow-list exists only in services/auth.ts:16. The older
  app/services/auth.ts admits every role (`LegacyAuth.RevisionsCompared`).
- The refusal is the 403 record with the fixed permission message, not a
  separate error kind.
- There is no request timeout.
- `AuthProvider` does not read the store back when it mounts. A token left
  by an earlier run is in the store while `isLoggedIn` is false
  (`Session.Initial`).

## Model

| member | source | states |
|---|---|---|
| `ScanQr.Classify` | app/screens/ScanQr.tsx:139-162 | The ticket modal opens exactly for code 200 with a present result, and shows that result. Any other envelope shows its message, or 'Không thể giải mã mã QR.' when the message is absent or empty. A non-JSON body gives 'Dữ liệu trả về không hợp lệ.' and a transport failure gives 'Không thể kết nối đến máy chủ…'. Every reason is non-empty. |
| `ScanQr.ReasonsDistinct` | app/screens/ScanQr.tsx:120-160 | The four fixed reasons (no token, undecodable code, malformed body, no connection) are pairwise distinct. |
| `ScanQr.Scanner.constructor` | app/screens/ScanQr.tsx:89-94 | The screen starts idle: not scanned, not loading, both modals closed, no ticket, empty message, no request. |
| `ScanQr.Scanner.ScannerAttached` | app/screens/ScanQr.tsx:178 | The camera callback is attached exactly when the phase is Idle, so the producer is suspended while verifying and during cooldown. |
| `ScanQr.Scanner.OnScan` | app/screens/ScanQr.tsx:114-137 | While `scanned` is true a scan changes nothing and issues no request. Without a token: the error modal with the no-token message, no request, and `scanned` false again. With a token: exactly one request is appended, carrying `qrCode` = the scanned data and the bearer token, and the phase becomes Verifying. |
| `ScanQr.Scanner.Settle` | app/screens/ScanQr.tsx:139-165 | Applies `Classify`: a ticket sets `ticketInfo` and opens the ticket modal without touching the error modal; an error sets the message and opens the error modal without touching the ticket. `loading` ends false, no request is added, and the phase becomes Cooldown until now + 3000. |
| `ScanQr.Scanner.Tick` | app/screens/ScanQr.tsx:165 | `scanned` turns false only when a re-arm timer is due. A cooldown ends exactly when the clock reaches its deadline; before then the phase, and so the drop rule of `OnScan`, is unchanged. Idle and Verifying are not changed by time. |
| `ScanQr.Scanner.CloseTicketModal` | app/screens/ScanQr.tsx:201-220 | Closing hides the ticket modal and keeps the invariant. |
| `ScanQr.Scanner.CloseErrorModal` | app/screens/ScanQr.tsx:233-238 | Closing hides the error modal and keeps the invariant. |
| `Auth.Login` | services/auth.ts:1-47 | `success` holds exactly for code 200 with a result whose role is 'ORGANIZER', and then `data` is the payload with `role` = `roleName` and the access token unchanged. Another role under code 200 gives the 403 record with the permission message. A non-200 envelope keeps its code and its message, or 'Login failed'. A fetch failure, an undecodable body or a missing result gives the code-500 record. Nothing escapes. |
| `Auth.FailureIsExplained` | services/auth.ts:27-47 | A refusal has no data and a non-empty message. It lacks a code exactly when the server's envelope had none. |
| `LegacyAuth.LegacyLogin` | app/services/auth.ts:1-34 | It throws 'Network error' exactly for a fetch failure, an undecodable body or a code-200 envelope without a result. Code 200 with a result succeeds for every role, with `role` = `roleName`. A non-200 envelope keeps its code and its message, or 'Login failed'. |
| `LegacyAuth.RevisionsCompared` | app/services/auth.ts:13-23 | On a decoded envelope the two revisions differ only when code is 200 and the role is not ORGANIZER: the old one admits the login, the new one refuses it with 403. Otherwise the old one returns exactly the new one's record. |
| `LegacyAuth.ThrowBecomesCode500` | app/services/auth.ts:31-33 | Wherever the old revision throws, the new one returns the code-500 record. |
| `Session.InitialIsConsistent` | context/AuthContext.tsx:16-18 | The initial state satisfies the invariant (`isLoggedIn` ⇔ token present ⇔ role present, and memory matches the store) and is logged out. |
| `Session.LoginEstablishes` | context/AuthContext.tsx:20-26 | After `login(t, r)`: store[token] = t, store[role] = r, token = t, role = r, `isLoggedIn` is true, the invariant holds, and every other key is unchanged. |
| `Session.LogoutClears` | context/AuthContext.tsx:28-34 | After `logout`: both keys are absent, token and role are null, `isLoggedIn` is false, the invariant holds, and every other key is unchanged. |
| `Session.LogoutIdempotent` | context/AuthContext.tsx:28-34 | Logging out twice gives the same state as logging out once. |
| `Session.UseAuth` | context/AuthContext.tsx:43-47 | `useAuth` returns the provider's value when one is present, and fails with 'AuthContext not found!' exactly when none is. |
| `Session.AuthProvider.constructor` | context/AuthContext.tsx:15-18 | The provider starts with the persisted store, no token or role, logged out, and valid. |
| `Session.AuthProvider.Login` | context/AuthContext.tsx:20-26 | The new state is `LoggedIn(old state, t, r)`; both keys and the three fields are set; other keys are unchanged; the invariant is kept. |
| `Session.AuthProvider.Logout` | context/AuthContext.tsx:28-34 | The new state is `LoggedOut(old state)`; both keys are removed and the three fields cleared; other keys are unchanged; the invariant is kept. |
| `LoginScreen.Judge` | app/screens/LoginScreen.tsx:29-48 | The type is 'success' exactly when the result succeeded with data. Then the message is 'Đăng nhập thành công' and the credential saved is `(data.accessToken, data.role)`. A refusal shows `res.message` or 'Đăng nhập thất bại' with type 'error'. A thrown call shows the network message. Nothing is saved except on success. |
| `LoginScreen.CurrentServiceOutcomes` | app/screens/LoginScreen.tsx:30-45 | With services/auth.ts as the service, only an ORGANIZER credential is saved, with the server's access token. A refusal always shows the service's own message, so the screen's fallback is never used. |
| `LoginScreen.LegacyServiceOutcomes` | app/screens/LoginScreen.tsx:30-48 | With the older service, a transport failure reaches the catch and shows the network message, and a code-200 login of any role is saved. |
| `LoginScreen.LoginForm.constructor` | app/screens/LoginScreen.tsx:10-17 | Empty fields, not loading, no message, no calls, no timers. |
| `LoginScreen.LoginForm.Edit` | app/screens/LoginScreen.tsx:90-107 | The inputs set `email` and `password` and nothing else. |
| `LoginScreen.LoginForm.Press` | app/screens/LoginScreen.tsx:19-30 | While loading the button is disabled (line 121) and a press changes nothing. An empty email or password sets the fill-in message with type 'error' and makes no call. Otherwise it sets `loading`, clears the message and type, and records exactly one service call with the form's email and password. |
| `LoginScreen.LoginForm.Settle` | app/screens/LoginScreen.tsx:30-55 | Message and type are `Judge`'s. On success the session becomes `LoggedIn` with the saved token and role; otherwise it is unchanged. `loading` ends false, one clearing timer is set 3000 ms ahead, and no call is added. |
| `LoginScreen.LoginForm.Tick` | app/screens/LoginScreen.tsx:51-54 | The message and type are cleared exactly when a clearing timer is due. Otherwise they stay as they were. |
| `MyEvent.DeriveStatus` | app/screens/MyEvent.tsx:45-56 | 'Đã qua' iff start and end are both before now. 'Đang diễn ra' iff start ≤ now ≤ end and start is on now's day. 'Sắp tới' iff start is after now. '' exactly in the remaining cases. The labels are mutually exclusive. |
| `MyEvent.SameDayActivityIsLabelled` | app/screens/MyEvent.tsx:40-56 | An activity that ends on its start day, no earlier than it starts, always gets one of the three labels. |
| `MyEvent.StatusColor` | app/screens/MyEvent.tsx:132-139 | Total. Each of the three labels has its own colour, and every other string is '#FFFFFF'. |
| `MyEvent.DerivedColor` | app/screens/MyEvent.tsx:132-139 | A derived status is drawn white exactly when it is the empty label. |
| `MyEvent.Split` | app/screens/MyEvent.tsx:85 | `split('-')` gives at least one part, and no part contains '-'. |
| `MyEvent.JoinSplit` | app/screens/MyEvent.tsx:85-88 | Joining the parts of a split with '-' gives back the string. |
| `MyEvent.SplitJoin` | app/screens/MyEvent.tsx:85-88 | Splitting a '-'-join of dash-free parts gives back the parts. |
| `MyEvent.FormatDate` | app/screens/MyEvent.tsx:83-89 | '' unless the date splits into exactly three parts. Otherwise the result splits into day, month and year, which are the input's parts reversed. |
| `MyEvent.FormatDateInvolution` | app/screens/MyEvent.tsx:83-89 | Formatting a three-part date twice gives back the original string. |
| `MyEvent.AnnotateEvents` | app/screens/MyEvent.tsx:38-66 | The same events in the same order with the same ids and names. Each keeps its activities in order, each labelled by `DeriveStatus` at now and dated by `FormatDate`. |
| `MyEvent.KeepStatus` | app/screens/MyEvent.tsx:121 | Every kept activity has the status. An activity is kept iff it is in the input and has the status. The result is no longer than the input. |
| `MyEvent.KeepStatusAppend` | app/screens/MyEvent.tsx:121 | Filtering distributes over concatenation, so the input order is preserved. |
| `MyEvent.KeepStatusAllMatch` | app/screens/MyEvent.tsx:121 | When every activity has the status, filtering returns the list unchanged. |
| `MyEvent.HasStatusNarrowed` | app/screens/MyEvent.tsx:121-124 | An event has an activity with the status iff its filtered activities are non-empty, which is the `length > 0` test. |
| `MyEvent.FilterEvents` | app/screens/MyEvent.tsx:119-126 | Every event shown has at least one activity, and every activity shown has the status. There are no more events than in the input. |
| `MyEvent.FilterEventsKeeps` | app/screens/MyEvent.tsx:119-126 | Every input event with a matching activity is shown, narrowed to exactly its matching activities. |
| `MyEvent.FilterEventsOnly` | app/screens/MyEvent.tsx:119-126 | Every event shown is an input event with a matching activity, narrowed to exactly its matching activities. |
| `MyEvent.FilterEventsAppend` | app/screens/MyEvent.tsx:119-126 | Filtering events distributes over concatenation, so the event order is preserved. |
| `MyEvent.ApplyFilter` | app/screens/MyEvent.tsx:116-128 | Filter 'all' returns the events unchanged; any other status gives `FilterEvents`. |
| `MyEvent.Without` | app/screens/MyEvent.tsx:143 | Removing an index keeps exactly the other members, and leaves a list without that index unchanged. |
| `MyEvent.Toggled` | app/screens/MyEvent.tsx:141-147 | The toggled index changes membership, and every other index keeps its membership. |
| `MyEvent.ToggleTwice` | app/screens/MyEvent.tsx:141-147 | Expanding a collapsed event and collapsing it again restores the list exactly. |
| `MyEvent.EventList.constructor` | app/screens/MyEvent.tsx:11-15 | No events, filter 'all', nothing expanded. |
| `MyEvent.EventList.Loaded` | app/screens/MyEvent.tsx:68-69 | The annotated fetched list becomes both `events` and `filteredEvents`. |
| `MyEvent.EventList.HandleFilterChange` | app/screens/MyEvent.tsx:112-130 | The filter is stored, the expanded list is reset to empty, and the list shown is `ApplyFilter(events, status)`, which is `events` itself for 'all'. |
| `MyEvent.EventList.ToggleExpand` | app/screens/MyEvent.tsx:141-147 | The expanded list becomes `Toggled(old, index)`: `index` flips membership and every other index keeps its membership. |

## Left out

- Rendering is not modelled: JSX, styles, the modal contents, `Image`/`Video`, camera permission and the camera facing toggle.
- `fetch`, `axios`, HTTP headers and the JSON grammar are not modelled. Each call's outcome is the abstract `Response` datatype. `NotJson` is a body that fails to parse, or the JSON literal `null`, whose `.code` throws. Any other non-object JSON value (a number, a string, a boolean, an array) reads `code`, `result` and `message` as `undefined`, so it is `Envelope(None, None, None)`.
- The login payload's fields are strings. A missing `accessToken` or `roleName` (JavaScript `undefined`) and a non-integer `code` are not modelled.
- AsyncStorage is an in-memory `map<string, string>`. Its asynchrony and durability are not modelled, nor is interleaving between the awaited `setItem`/`removeItem` calls. Each `Login`/`Logout` runs as one step.
- `LoginScreen.LoginForm.Settle`: a rejection of `saveToken` (an AsyncStorage failure) after the success message is set is not modelled. A `Threw` call stands only for the service promise rejecting.
- React's render timing and state closures are not modelled. The source's handler reads `scanned` from the render it was created in, so two camera frames delivered before a re-render could both see `false`. The model reads the current state on every call.
- The real `setTimeout` is replaced by deadlines on an integer clock advanced by `Tick`.
- Navigation is not modelled: `router.replace` 1000 ms after a successful login, and every `router.push`.
- The `await AsyncStorage.getItem(...)` reads at app/screens/LoginScreen.tsx:37-38 are left out, because their results are unused.
- `new Date(...)` parsing and the local time zone are not modelled. An activity's start and end are given as integer minutes, and a day is `minutes / 1440`. The source builds a fresh millisecond-precision `new Date()` for each activity; the model reads `now` once per list, in whole minutes, so labels at sub-minute boundaries (start = end = 10:30:00 with now = 10:30:30) can differ.
- The `typeof date !== 'string'` test of `formatDate` is not modelled: the model's date is always a string.
- The stray `setEvents(response.data.result.eventId)` at app/screens/MyEvent.tsx:43 is left out, because line 68 overwrites it.
- From `fetchEvents`, only the successful branch is modelled (`EventList.Loaded`). The missing-token, non-200 and error branches only log and stop the spinner.
- `console.log` / `console.error` are left out.
- The thin fetch-and-render screens (MyCompany, HoneScreen, MyDetailEventActivity, MyEventDetail), the check-in statistics fetch, tailwind.config.js and app/_layout.tsx are not part of this model.
