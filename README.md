# Eduadvise front-end, modelled in Dafny

Eduadvise is a web app that connects students with education counselors.
Students browse counselors and universities, book paid sessions, chat and
make video calls. Counselors manage their services and bookings. Admins
approve, suspend and reactivate counselors. This project models the
client-side logic of its React front-end. It covers the decisions, guards,
list computations and small state machines the pages and widgets run on
each event. The browser, the REST server, the sockets and WebRTC are
replaced by the events they deliver and the requests they receive.

One module per source file:

- `ChatWidget`: the chat widget's controller. It checks attachments before
  upload (size first, then the extension allow-list) and classifies files
  by MIME type. It refuses blank messages and only accepts inbound frames
  from the open peer. It runs the typing-indicator debounce as a flag plus
  one re-armable 2000 ms timer. The controller is a class; its behaviour is
  given by a pure step function, and invariants are proved over any run of
  events.
- `VideoCall`: the call screen. Its status machine runs initiating,
  ringing, connecting, active, and the call ends through `onEnd`. It owns
  four resources: local tracks, the peer connection, the socket and the
  duration interval. It covers the offer/answer/ICE handling and the
  idempotent `cleanup`, and the track toggles, the per-second duration
  counter and the `mm:ss` label.
- `App`: the route guard and its role table, the hash-based switch to the
  OAuth callback, and the callback itself, which posts the session id at
  most once. It also covers the auth provider's `checkAuth`, `login`,
  `register` and `logout` over the two local-storage entries.
- `Navbar`, `Login`, `Register`: the role-based dashboard link, logout,
  and the two submit handlers with their guards and redirects.
- `BrowseCounselors`, `Universities`, `FAQ`: query building through
  `URLSearchParams` (module `Query`), active-filter counts and clearing,
  and the saved-counselor toggle. Also the universities grouped by country
  with at most six shown per country, and the case-insensitive FAQ filter.
- `CounselorApply`: the three-step application wizard. It covers list
  toggling, required-field validation and the bio word count.
- `CounselorProfile`: the booking dialog. It covers the fixed time slots
  and how a slot is read back into hours and minutes, the calendar's
  disabled days, the "Confirm Booking" guard, and `handleBooking`'s
  guards and reset.
- `StudentDashboard`, `CounselorDashboard`, `AdminDashboard`: the booking
  and counselor lists by status and the moves each status offers. Also the
  review, service and feedback dialogs with the requests they send, and
  incoming-call frames from the per-user socket.
- `CounselorCard`, `ConversationsList`: the card's minimum price and
  truncated badges, and the conversation rows with their time-format
  bucket.
- `Common` holds the JavaScript string operations the code relies on: trim,
  toLowerCase, includes, whitespace split, parseInt, padStart. It also
  holds order-preserving filtering and list toggling. `Domain` holds the
  shared entities: users, bookings and the realtime frames.

Pages whose handlers update state in place (`useState` setters, refs) are
classes. Each method states its whole new state in terms of the old one and
the event's outcome. HTTP responses, socket frames, media results and timer
expiries are method parameters. The requests and frames a page sends are
appended to a `requests`, `outbox` or `effects` field. Pure helpers are
functions, and the properties that relate several calls are lemmas.

Behaviours of the code the model keeps:

- When the media request fails after `call_answered` or an offer, the
  handler stops. The status stays `connecting` and nothing is cleaned up
  (`src/components/VideoCall.jsx:216-220`).
- A failed `/calls/initiate` calls `onEnd` but leaves the status at
  `initiating` (`src/components/VideoCall.jsx:196-200`).
- A successful chat send emits `stop_typing` but leaves the typing flag and
  the pending timer as they were (`src/components/ChatWidget.jsx:127-133`).
- Calls started from the dashboards carry no call id; only incoming calls
  have one.

Other behaviours of the code that the model makes visible:

- The route for `/counselor/apply` admits only students. A counselor whose
  profile lookup fails is sent there by the counselor dashboard and then
  bounced to `/` (`App.ApplyAdmitsOnlyStudents`).
- The OAuth callback writes the signed-in user to local storage but not to
  the auth provider. The provider shows that user only after its next
  `checkAuth`.
- The call screen never stops a stream or closes a connection that it
  replaces; cleanup releases only what the refs hold at that moment. When
  an offer reaches the callee while it is still ringing, answering builds a
  second stream and connection. After hang-up, the first stream's tracks
  are still live and the first connection is still open
  (`VideoCall.EarlyOfferLeaks`).
- The counselor directory imports a price slider but never renders it.
  Its price range starts at 0 to 500 (`src/pages/BrowseCounselors.jsx:30`)
  and is only ever reset to that range (line 102). So `min_price` and
  `max_price` are never sent, and the price term of the active-filter
  count is always false (`BrowseCounselors.DefaultPriceNeverCounts`).

## Model

| member | source | states |
|---|---|---|
| Common.TrimStart | src/components/ChatWidget.jsx:112 | the result is the suffix left after a blank prefix, and it does not start with whitespace |
| Common.TrimEnd | src/components/ChatWidget.jsx:112 | the result is the prefix left before a blank suffix, and it does not end with whitespace |
| Common.TrimEmptyIffBlank | src/components/ChatWidget.jsx:112 | `!s.trim()` holds exactly for strings made only of whitespace |
| Common.LowerChar | src/components/ChatWidget.jsx:151 | the result is never a capital letter, and anything but a capital letter is kept |
| Common.ToLower | src/components/ChatWidget.jsx:151 | `toLowerCase` keeps the length and lower-cases character by character |
| Common.ToLowerIdempotent | src/pages/FAQ.jsx:39-40 | lower-casing twice is lower-casing once |
| Common.IncludesIffOccurs | src/App.js:111 | `includes` holds exactly when the needle occurs at some position |
| Common.LastSegment | src/components/ChatWidget.jsx:151 | `split(sep).pop()` is a separator-free suffix that is either the whole string or preceded by the separator |
| Common.FirstSegment | src/pages/CounselorProfile.jsx:70 | `split(sep)[0]` is a separator-free prefix that is either the whole string or followed by the separator |
| Common.FirstSegmentOfJoin | src/pages/CounselorProfile.jsx:70 | a separator-free piece joined in front of the separator is read back whole |
| Common.WordStartsOfPrefix | src/pages/CounselorApply.jsx:240 | dropping the last character removes only its own possible word start |
| Common.WordCountIsStarts | src/pages/CounselorApply.jsx:240 | `split(/\s+/).filter(Boolean).length` equals the number of positions where a word begins |
| Common.BlankHasNoWords | src/pages/CounselorApply.jsx:240 | a blank text counts zero words |
| Common.DigitChar | src/components/VideoCall.jsx:321 | a digit below ten prints as a decimal digit character |
| Common.DecimalString | src/components/VideoCall.jsx:321 | `toString` of a natural number is a non-empty digit string, one digit long exactly below ten |
| Common.DecimalRoundTrip | src/components/VideoCall.jsx:321 | reading back a printed number gives the number |
| Common.LeadingZero | src/components/VideoCall.jsx:321 | a leading zero does not change the value |
| Common.Pad2 | src/components/VideoCall.jsx:321 | `padStart(2, '0')` reaches at least two characters, ends with the input and pads only with zeros |
| Common.Pad2Digits | src/components/VideoCall.jsx:321 | padding a digit string keeps it a digit string of the same value |
| Common.LeadingDigits | src/pages/CounselorApply.jsx:57 | the longest digit prefix is followed by a non-digit or the end |
| Common.ParseIntDigits | src/pages/CounselorProfile.jsx:71 | `parseInt` reads a non-empty digit string as its value |
| Common.ParseIntRoundTrip | src/pages/CounselorProfile.jsx:71 | `parseInt(String(n)) == n` |
| Common.Filter | src/pages/FAQ.jsx:37-43 | a filter never lengthens the list |
| Common.FilterMembers | src/pages/FAQ.jsx:37-43 | the filtered list holds list elements that satisfy the predicate, and every such element |
| Common.FilterIsSubsequence | src/pages/FAQ.jsx:37-43 | filtering keeps the surviving elements in their original order |
| Common.FilterAll | src/pages/FAQ.jsx:37-43 | a predicate true of every element returns the whole list |
| Common.FilterSame | src/pages/FAQ.jsx:37-43 | predicates that agree on the elements filter alike |
| Common.FilterFilter | src/pages/FAQ.jsx:37-43 | filtering twice is filtering once by the conjunction |
| Common.FilterIn | src/pages/FAQ.jsx:37-43 | an element is in the filtered list exactly when it is in the list and passes |
| Common.FilterAppend | src/pages/FAQ.jsx:37-43 | filtering distributes over concatenation |
| Common.FilterDisjointCount | src/pages/CounselorDashboard.jsx:169-171 | predicates that never hold together split the count of their disjunction |
| Common.Take | src/components/CounselorCard.jsx:67-73 | `slice(0, n)` is the prefix of length min(n, length) |
| Common.ToggleMembership | src/pages/CounselorApply.jsx:37-43 | toggling flips the membership of the toggled value and of no other; a present value is removed keeping the order, an absent one is appended |
| Common.ToggleTwice | src/pages/CounselorApply.jsx:37-43 | toggling an absent value twice restores the list |
| Query.AppendIf | src/pages/BrowseCounselors.jsx:43-49 | the parameter is present with its value exactly when its condition holds, the query grows by one entry exactly then, and no other parameter changes |
| Query.Append | src/pages/BrowseCounselors.jsx:43-49 | the appended entry is found under its name, it lands at the end, and no other parameter changes |
| Query.NamedEntryHasValue | src/pages/BrowseCounselors.jsx:43-49 | every name that occurs has a value |
| Domain.OfStatusSpec | src/pages/CounselorDashboard.jsx:169-171 | a status list keeps the fetched order and holds exactly the bookings with that status |
| Domain.CallerName | src/pages/StudentDashboard.jsx:65 | the caller's name is the first name, a space, then the last name |
| Domain.RoleHome | src/App.js:57-60 | admins go to `/admin`, counselors to `/counselor/dashboard`, everyone else to the fallback |
| App.ProtectedRoute | src/App.js:83-104 | a spinner exactly while loading; the login redirect carrying the current location exactly when no one is signed in; the home redirect exactly when a role list exists and omits the user's type; the page otherwise |
| App.RouteRoles | src/App.js:127-146 | exactly the four guarded routes carry a role list, each of one role |
| App.HomeAdmitsItsRole | src/App.js:57-60 | a student, counselor or admin sent to their own home is let in by its guard |
| App.UnknownRoleBouncedHome | src/App.js:57-60 | a user of any other type is sent to the student dashboard, whose guard sends them on to `/` |
| App.ApplyAdmitsOnlyStudents | src/App.js:127-131 | the application form admits a signed-in user exactly when they are a student; a counselor is sent to `/` |
| App.RouterScreen | src/App.js:111-113 | the callback screen is shown exactly when `session_id=` occurs somewhere in the hash |
| App.ReplaceFirst | src/App.js:50 | `replace` with a one-character pattern changes only the first occurrence and keeps the length; without an occurrence nothing changes |
| App.SearchParam | src/App.js:50 | a value read from a query never contains `&` |
| App.FirstValue | src/App.js:50 | a value read from the pairs of a query never contains `&` |
| App.Pairs | src/App.js:50 | splitting on `&` gives separator-free pieces that join back to the query |
| App.Lookup | src/App.js:50 | `get` on the split pieces: nothing exactly when no pair names the key, otherwise the value of the first pair that does |
| App.FirstValueIsFirstMatch | src/App.js:50 | scanning the query pair by pair finds exactly what a lookup in its split finds |
| App.FirstSegmentWhole | src/App.js:50 | a separator-free string is its own first segment |
| App.FirstValueOfPair | src/App.js:50 | a pair `name=value` at the front of a query is found, with or without further pairs |
| App.SessionKeyIsPlain | src/App.js:50 | the session key is a non-empty name free of `=` and `&` |
| App.SessionIdOfHash | src/App.js:50 | for a hash starting with `#`, the session id is read from the pairs after the `#` |
| App.SessionIdRoundTrip | src/App.js:50 | `#session_id=V`, alone or followed by further pairs, yields `V` |
| App.FirstValueOtherKey | src/App.js:50 | a single pair with another key has no value for the name asked |
| App.MentionShowsCallback | src/App.js:111-113 | a first value that starts with `session_id=` makes the router show the callback |
| App.MentionWithoutSession | src/App.js:50-68 | `#state=session_id=1` shows the callback but carries no session id, so the callback goes to the login page |
| App.OtherKeyHasNoSession | src/App.js:50 | a hash with one pair under another name has no session id |
| App.CallbackTarget | src/App.js:52-69 | the login page without a non-empty session id or when the session post fails; otherwise the home of the returned user's type, the student dashboard for any other type |
| App.LocalStorage.constructor | src/App.js:160 | storage holds the given user entry and token |
| App.AuthCallback.constructor | src/App.js:40-43 | nothing processed, nothing posted, no navigation yet |
| App.AuthCallback.Effect | src/App.js:45-70 | a second run does nothing; the first marks the callback processed, posts the session id only when it is non-empty, stores the returned user on success, navigates to the callback target and never touches the token; at most one session id is ever posted |
| App.Restored | src/App.js:160-168 | a stored user that parses replaces the current one; otherwise the current one stays |
| App.AuthProvider.constructor | src/App.js:153-155 | no user, loading, no requests yet |
| App.AuthProvider.CheckAuth | src/App.js:158-184 | loading ends and `/auth/me` is requested; success puts the server's user in memory and in storage; a 401 clears both; any other failure keeps whatever storage restored, removing an unparsable entry; the token is untouched and memory stays in step with storage |
| App.AuthProvider.Login | src/App.js:189-195 | the credentials are posted and the reply returned; success keeps the user in memory and in storage with the token, failure changes nothing |
| App.AuthProvider.Register | src/App.js:197-203 | the registration body is posted and the reply returned; success keeps the user in memory and in storage with the token, failure changes nothing |
| App.AuthProvider.Logout | src/App.js:205-214 | the logout is posted and, whatever the server answers, the user and both storage entries are cleared |
| ChatWidget.Extension | src/components/ChatWidget.jsx:150-151 | the extension is a dot followed by dot-free text (the last `.`-segment, lower-cased) |
| ChatWidget.CheckFile | src/components/ChatWidget.jsx:143-155 | a file is refused as too large exactly when it exceeds 10 MiB (the size test comes first), and accepted exactly when it is within the limit and its extension is on the ten-entry allow-list |
| ChatWidget.ExtensionIsLastSegment | src/components/ChatWidget.jsx:151 | only the text after the last dot decides the extension, whatever precedes it |
| ChatWidget.LastSegmentOfSuffix | src/components/ChatWidget.jsx:151 | splitting on `.` and taking the last piece yields the dot-free tail that follows the last dot |
| ChatWidget.DotlessName | src/components/ChatWidget.jsx:151 | a name without a dot is its own extension: `.` plus the lower-cased name |
| ChatWidget.ToLowerNoUpper | src/components/ChatWidget.jsx:151 | lower-casing leaves text without capital letters unchanged |
| ChatWidget.SizeBoundary | src/components/ChatWidget.jsx:144 | exactly 10·1024·1024 bytes passes, one byte more is refused as too large |
| ChatWidget.UpperCaseExtension | src/components/ChatWidget.jsx:150-152 | `notes.final.PDF` is accepted: last segment only, compared case-insensitively |
| ChatWidget.DotlessPasses | src/components/ChatWidget.jsx:150-152 | the dot-less name `pdf` is accepted as `.pdf` |
| ChatWidget.ExecutableRefused | src/components/ChatWidget.jsx:150-155 | `setup.exe` is refused because of its type |
| ChatWidget.KindForMime | src/components/ChatWidget.jsx:181-187 | an attachment is sent as an image exactly when its MIME type starts with `image/`, otherwise as a file, never as text |
| ChatWidget.FileUrl | src/components/ChatWidget.jsx:213-220 | empty in, empty out and only then; an `http…` url is returned unchanged; otherwise the result is the backend base followed by the url, which is absolute when the base is |
| ChatWidget.FileUrlIdempotent | src/components/ChatWidget.jsx:213-220 | resolving an already resolved url changes nothing when the backend base is absolute |
| ChatWidget.SizeUnitFor | src/components/ChatWidget.jsx:207-211 | bytes below 1024, megabytes from 1024·1024 on, kilobytes in between |
| ChatWidget.Receive | src/components/ChatWidget.jsx:87-97 | a `new_message` from the open peer is appended and no other frame changes the history; `user_typing` from the peer sets the typing flag and `user_stop_typing` from the peer clears it, no other frame changes it; nothing else changes |
| ChatWidget.OnKeystroke | src/components/ChatWidget.jsx:222-250 | the draft always follows the input; when the socket is open and a conversation is known, the first keystroke of a burst emits `typing` and the flag and timer are set |
| ChatWidget.OnTimer | src/components/ChatWidget.jsx:240-248 | an expired timer drops the typing flag and emits `stop_typing` only while the socket is open; without a pending timer nothing happens |
| ChatWidget.SendEffects | src/components/ChatWidget.jsx:110-137 | a blank draft sends nothing; otherwise the text is posted; success appends the server's message, clears the draft and emits `stop_typing` when the socket is open; failure keeps history, draft and outbox; the typing flag and timer are never touched |
| ChatWidget.Pick | src/components/ChatWidget.jsx:139-205 | no file or a refused file changes nothing; an accepted file is uploaded, and exactly when the upload succeeds a message is posted for the stored file, typed image or file by its MIME type; the history grows by the server's message exactly when upload and post both succeed; nothing but history and requests changes |
| ChatWidget.PickOutcome | src/components/ChatWidget.jsx:139-205 | the success notice appears exactly when the file passed the checks and both requests succeeded |
| ChatWidget.StepKeepsInv | src/components/ChatWidget.jsx:222-250 | every handler keeps the typing flag and the pending timer together |
| ChatWidget.RunKeepsInv | src/components/ChatWidget.jsx:222-250 | any sequence of events keeps the typing flag and the pending timer together |
| ChatWidget.BurstEmitsOneTyping | src/components/ChatWidget.jsx:225-232 | a burst of keystrokes from idle on a live socket emits exactly one `typing` frame and leaves the last text as the draft with the timer armed |
| ChatWidget.BurstContinues | src/components/ChatWidget.jsx:226-238 | keystrokes while already typing emit no further frame |
| ChatWidget.BurstThenSilence | src/components/ChatWidget.jsx:240-248 | a burst followed by the timer emits exactly `typing` then `stop_typing` and leaves the debounce idle |
| ChatWidget.HistoryFromPeerOnly | src/components/ChatWidget.jsx:87-97 | while the socket is open, inbound frames grow the history by exactly the peer's messages, in order |
| ChatWidget.ChatController.constructor | src/components/ChatWidget.jsx:14-28 | the widget starts closed, empty and idle for the given peer |
| ChatWidget.ChatController.Initialize | src/components/ChatWidget.jsx:51-72 | the new state is the specified load of conversation id and history |
| ChatWidget.ChatController.OnOpen | src/components/ChatWidget.jsx:80-85 | the socket is open, and `join_conversation` is sent only when a conversation id is known |
| ChatWidget.ChatController.OnClose | src/components/ChatWidget.jsx:36-41 | the socket is marked closed and nothing else changes |
| ChatWidget.ChatController.OnMessage | src/components/ChatWidget.jsx:87-97 | the new state is the specified dispatch of the frame |
| ChatWidget.ChatController.HandleTyping | src/components/ChatWidget.jsx:222-250 | the new state is the specified keystroke step |
| ChatWidget.ChatController.OnTypingTimeout | src/components/ChatWidget.jsx:240-248 | the new state is the specified timer step |
| ChatWidget.ChatController.SendMessage | src/components/ChatWidget.jsx:110-137 | the new state is the specified send |
| ChatWidget.ChatController.HandleFileSelect | src/components/ChatWidget.jsx:139-205 | the new state is the specified pick, and the returned notice is the specified outcome |
| Navbar.DashboardLink | src/components/Navbar.jsx:24-29 | the login page for a visitor, `/admin` for an admin, `/counselor/dashboard` for a counselor, the student dashboard for any other type |
| Navbar.LinkIsAdmitted | src/components/Navbar.jsx:24-29 | a signed-in student, counselor or admin following the link is let in by that route's guard |
| Navbar.LinkMatchesCallback | src/components/Navbar.jsx:24-29 | for a signed-in user the link is where the OAuth callback sends the same user |
| Navbar.HandleLogout | src/components/Navbar.jsx:19-22 | after logging out, whatever the server answered, the user and both storage entries are cleared, the page goes to `/`, and the link points to the login page again |
| Login.From | src/pages/Login.jsx:21 | the remembered page when it is non-empty, the student dashboard otherwise; never empty |
| Login.DetailOr | src/pages/Login.jsx:44 | the server's detail when it is non-empty, the fallback otherwise |
| Login.LoginSubmit | src/pages/Login.jsx:23-48 | an empty field stops the submit before any request; otherwise success navigates to the role's home (admin, counselor) or to the remembered page, and failure shows the server's detail or "Invalid credentials", never an empty text |
| Login.DirectLoginLandsOnDashboard | src/pages/Login.jsx:21-42 | signing in without a remembered page lands where the navigation bar's dashboard link points |
| Login.StudentsReturnWhereTheyWere | src/pages/Login.jsx:36-42 | the remembered page is the destination exactly for non-admin, non-counselor users, or when it happens to be the role's own home |
| Login.GuardRoundTrip | src/pages/Login.jsx:21-42 | a visitor bounced from a student page to login, signing in as a student, returns to that page and is let in |
| Register.RegisterRequest | src/pages/Register.jsx:23-37 | missing email, password, first or last name is reported first; otherwise a password under six characters is refused; otherwise the body carries the form's fields and the type `student` |
| Register.RegisterSubmit | src/pages/Register.jsx:23-45 | a refused form sends nothing; success navigates to the student dashboard; failure shows the server's detail or "Registration failed" |
| Register.SixCharactersSuffice | src/pages/Register.jsx:30 | a password of exactly six characters is accepted |
| Register.MissingFieldsReportedFirst | src/pages/Register.jsx:25-33 | a form with a missing name and a short password is refused for the missing field |
| Register.NewAccountIsAdmitted | src/pages/Register.jsx:37-39 | a new account lands on the student dashboard and its guard lets it in |
| VideoCall.Initial | src/components/VideoCall.jsx:10-32 | an incoming call starts ringing and an outgoing one initiating; video is on exactly for video calls, audio on, no duration, stream, connection or interval, and nothing replaced yet |
| VideoCall.LocalTracks | src/components/VideoCall.jsx:60-74 | media always yields a live microphone track first, and a camera track exactly for video calls |
| VideoCall.PcConfig | src/components/VideoCall.jsx:97 | the connection uses the fetched ICE configuration, or the two STUN servers when none is set |
| VideoCall.SetStatus | src/components/VideoCall.jsx:244-256 | the status becomes the one given; an unchanged status changes nothing; a change arms the one-second interval exactly when the call becomes active; nothing else changes |
| VideoCall.StopAll | src/components/VideoCall.jsx:169-171 | every track is stopped, in place, and nothing else about it changes |
| VideoCall.StopTracks | src/components/VideoCall.jsx:169-171 | stopping tracks one by one stops exactly every track |
| VideoCall.CleanedUp | src/components/VideoCall.jsx:168-181 | what the refs currently hold is released (tracks stopped, connection and socket closed, interval cleared); every other field is unchanged, so replaced streams and connections stay live |
| VideoCall.CleanupIdempotent | src/components/VideoCall.jsx:168-181 | running cleanup a second time changes nothing |
| VideoCall.FirstOfKind | src/components/VideoCall.jsx:300 | the index of the first track of the kind, or the length when there is none |
| VideoCall.InitialInv | src/components/VideoCall.jsx:20-32 | the first render satisfies the screen's invariant |
| VideoCall.SignalKeepsInv | src/components/VideoCall.jsx:145-166 | a signalling message keeps the invariant |
| VideoCall.FrameKeepsInv | src/components/VideoCall.jsx:213-228 | any frame on the open socket keeps the invariant |
| VideoCall.ToggleKeepsInv | src/components/VideoCall.jsx:298-316 | toggling a track keeps the invariant |
| VideoCall.StepKeepsInv | src/components/VideoCall.jsx:184-316 | every handler keeps the invariant: the interval runs only while active, an outgoing call is initiating with no connection until its socket opens, an incoming call never initiates |
| VideoCall.RunKeepsInv | src/components/VideoCall.jsx:184-316 | any sequence of events keeps the invariant |
| VideoCall.StatusMovesForward | src/components/VideoCall.jsx:184-296 | nothing returns to `initiating`, and a connecting or active call never goes back to ringing |
| VideoCall.DurationCounting | src/components/VideoCall.jsx:244-256 | only a tick changes the duration, by one second exactly when the interval runs, which happens only while active |
| VideoCall.TicksAdd | src/components/VideoCall.jsx:246-248 | n ticks of a running interval add n seconds and change nothing else |
| VideoCall.EndAndRejectOutcomes | src/components/VideoCall.jsx:272-296 | ending releases the current stream and connection and notifies whatever the request's outcome; rejecting does so only on success, and a failed reject only logs its request; neither touches replaced ones |
| VideoCall.UnmountAfterEnd | src/components/VideoCall.jsx:237-239 | unmounting after the screen ended changes nothing |
| VideoCall.OfferFirst | src/components/VideoCall.jsx:145-166 | an offer without a connection acquires media, builds a connection from the current configuration with every local track and answers; a media failure leaves everything; an answer or candidate without a connection is ignored |
| VideoCall.IceFallback | src/components/VideoCall.jsx:43-57 | before the configuration arrives the STUN servers are used; afterwards the fetched one or, on failure, the STUN servers |
| VideoCall.ToggleTracksTwice | src/components/VideoCall.jsx:298-316 | toggling flips the first track of the kind; toggling twice restores the stream, and the flag then mirrors the track |
| VideoCall.FirstOfKindSameKinds | src/components/VideoCall.jsx:300 | the first track of a kind depends on the kinds only |
| VideoCall.ReplacedStayLive | src/components/VideoCall.jsx:67-68 | no handler stops a replaced stream's tracks or closes a replaced connection: what was set aside stays as it was |
| VideoCall.RunReplacedStayLive | src/components/VideoCall.jsx:168-181 | over any run of events, replaced streams and connections are never released |
| VideoCall.MediaAndPcSetsAside | src/components/VideoCall.jsx:129 | building media and a connection only appends to what was set aside |
| VideoCall.FrameSetsAside | src/components/VideoCall.jsx:145-151 | a frame only appends to what was set aside |
| VideoCall.EarlyOfferLeaks | src/components/VideoCall.jsx:148-151 | an offer while the callee rings builds a first stream and connection; answering builds a second pair; hanging up releases only the second, leaving the first stream's tracks live and the first connection open |
| VideoCall.OutgoingCallScenario | src/components/VideoCall.jsx:184-296 | an outgoing video call rings, connects with both tracks, turns active, counts three seconds and on hang-up leaves nothing live, no stream or connection having been replaced, having initiated, offered, ended and notified once |
| VideoCall.SocketOpenOutcomes | src/components/VideoCall.jsx:187-211 | whenever the socket opens, an incoming call only marks it open and posts nothing; an outgoing call posts `/calls/initiate`, rings on success, and on failure notifies `onEnd` with its status left as it was; the media and the connection are untouched |
| VideoCall.DialStage | src/components/VideoCall.jsx:206-211 | the socket opening for an outgoing call posts the initiation and rings, with no stream acquired and nothing replaced |
| VideoCall.AnswerStage | src/components/VideoCall.jsx:216-220 | `call_answered` moves to connecting, acquires media, builds a connection with both tracks and sends an offer; only a stream already held is set aside |
| VideoCall.ConnectStage | src/components/VideoCall.jsx:115-120 | applying the answer and receiving the remote track makes the call active and starts the interval, replacing nothing |
| VideoCall.HangUpStage | src/components/VideoCall.jsx:285-296 | hanging up releases the current stream and connection and notifies once; replaced ones are left as they were |
| VideoCall.RunPair | src/components/VideoCall.jsx:184-316 | running two events is stepping twice |
| VideoCall.TwoDigitsBelow100 | src/components/VideoCall.jsx:321 | a number below 100 prints in at most two digits |
| VideoCall.PaddedField | src/components/VideoCall.jsx:321 | a padded field is digits of the number's value, exactly two below 100 |
| VideoCall.FieldsOfLabel | src/components/VideoCall.jsx:321 | the two fields of `a:b` are read back from either side of the colon |
| VideoCall.LabelValues | src/components/VideoCall.jsx:321 | two digit fields joined by a colon read back as minutes and seconds |
| VideoCall.FormatDurationRoundTrip | src/components/VideoCall.jsx:318-322 | the label is `mm:ss` with at least two minute digits and exactly two second digits below 60, and reading it back gives the duration |
| VideoCall.CallSession.constructor | src/components/VideoCall.jsx:10-32 | the session starts in the initial state |
| VideoCall.CallSession.SetCallStatus | src/components/VideoCall.jsx:244-256 | the new state is the specified status change with its interval effect |
| VideoCall.CallSession.Cleanup | src/components/VideoCall.jsx:168-181 | the new state is `CleanedUp`: the refs' stream, connection, socket and interval are released and the replaced streams and connections are untouched |
| VideoCall.CallSession.Finish | src/components/VideoCall.jsx:223-224 | the new state is cleanup followed by the end notification |
| VideoCall.CallSession.StartLocalStream | src/components/VideoCall.jsx:60-80 | the ref holds the local tracks for the call type, and a stream it held before is set aside unstopped |
| VideoCall.CallSession.CreatePeerConnection | src/components/VideoCall.jsx:96-132 | the ref holds a fresh open connection with the configured ICE servers and every local track, and a connection it held before is set aside unclosed |
| VideoCall.CallSession.OnIceConfig | src/components/VideoCall.jsx:43-57 | the new state is the specified configuration step |
| VideoCall.CallSession.OnSocketOpen | src/components/VideoCall.jsx:187-211 | the new state is the specified socket-open step |
| VideoCall.CallSession.HandleSignal | src/components/VideoCall.jsx:145-166 | the new state is the specified signalling step |
| VideoCall.CallSession.OnMessage | src/components/VideoCall.jsx:213-228 | the new state is the specified frame dispatch |
| VideoCall.CallSession.OnRemoteTrack | src/components/VideoCall.jsx:115-120 | the new state is the specified remote-track step |
| VideoCall.CallSession.OnConnectionStateChange | src/components/VideoCall.jsx:122-128 | the new state is the specified peer-state step |
| VideoCall.CallSession.OnIceCandidate | src/components/VideoCall.jsx:108-112 | the new state is the specified candidate step |
| VideoCall.CallSession.OnTick | src/components/VideoCall.jsx:246-248 | the new state is the specified tick |
| VideoCall.CallSession.AnswerCall | src/components/VideoCall.jsx:258-270 | the new state is the answer step, which after an early offer sets the first stream and connection aside live (see `EarlyOfferLeaks`) |
| VideoCall.CallSession.RejectCall | src/components/VideoCall.jsx:272-283 | the new state is the specified reject step |
| VideoCall.CallSession.EndCall | src/components/VideoCall.jsx:285-296 | the new state is the specified end step |
| VideoCall.CallSession.ToggleTrack | src/components/VideoCall.jsx:298-316 | the new state is the specified toggle of the first track of the kind |
| VideoCall.CallSession.ToggleVideo | src/components/VideoCall.jsx:298-306 | the new state is the specified video toggle |
| VideoCall.CallSession.ToggleAudio | src/components/VideoCall.jsx:308-316 | the new state is the specified audio toggle |
| VideoCall.CallSession.Unmount | src/components/VideoCall.jsx:237-239 | the new state is the specified teardown |
| AdminDashboard.TableAction | src/pages/AdminDashboard.jsx:287-306 | a table row has a button exactly for approved and suspended counselors, and it moves them to the other of the two |
| AdminDashboard.TableActionsUndo | src/pages/AdminDashboard.jsx:287-306 | reactivating undoes suspending and the other way round; pending, rejected and unknown counselors get no table action |
| AdminDashboard.PendingBadge | src/pages/AdminDashboard.jsx:146-147 | the badge appears exactly when applications are pending and shows their number |
| AdminDashboard.DialogCounselorId | src/pages/AdminDashboard.jsx:457-463 | the dialog's buttons send the reviewed counselor's id, or nothing when the dialog has no counselor |
| AdminDashboard.AdminPage.constructor | src/pages/AdminDashboard.jsx:16-27 | the page starts loading with empty lists, a closed dialog and empty feedback, and fetches |
| AdminDashboard.AdminPage.Fetched | src/pages/AdminDashboard.jsx:29-48 | success stores both lists, failure keeps them; loading ends either way; nothing else changes |
| AdminDashboard.AdminPage.OpenReview | src/pages/AdminDashboard.jsx:197 | the dialog opens on the chosen counselor; nothing else changes |
| AdminDashboard.AdminPage.SetFeedback | src/pages/AdminDashboard.jsx:442 | the feedback follows the text box; nothing else changes |
| AdminDashboard.AdminPage.CloseReview | src/pages/AdminDashboard.jsx:451 | the dialog closes and the feedback stays |
| AdminDashboard.AdminPage.UpdateCounselorStatus | src/pages/AdminDashboard.jsx:50-65 | the status is sent with the current feedback; success closes the dialog, clears the feedback and reloads; failure keeps dialog and feedback |
| BrowseCounselors.FilterParams | src/pages/BrowseCounselors.jsx:43-45 | the two text filters and the rating are each sent exactly when set, with their values, and no other name is present |
| BrowseCounselors.QueryParams | src/pages/BrowseCounselors.jsx:43-49 | each text filter and the rating are sent exactly when set, each price bound exactly when it narrows the 0 to 500 range, the sort key always and last, no name twice, and nothing else: the query holds one entry per set filter plus the sort key |
| BrowseCounselors.ActiveFiltersCount | src/pages/BrowseCounselors.jsx:105-110 | at most four filters count, and none exactly when both text filters are empty, the rating is any and the price range is the default |
| BrowseCounselors.DefaultPriceNeverCounts | src/pages/BrowseCounselors.jsx:30-110 | with the price range the page always holds (it starts at 0 to 500 and is only reset to it), the price term never counts, so the badge counts only the text filters and the rating, at most three |
| BrowseCounselors.ClearAndAll | src/pages/BrowseCounselors.jsx:100-110 | the cleared filters count zero, while choosing "all" counts as one active filter |
| BrowseCounselors.BrowsePage.constructor | src/pages/BrowseCounselors.jsx:16-30 | the page starts with the default filters and price range and nothing saved |
| BrowseCounselors.BrowsePage.ClearFilters | src/pages/BrowseCounselors.jsx:100-103 | filters and price return to their defaults, leaving no active filter; the saved list stays |
| BrowseCounselors.BrowsePage.HandleSave | src/pages/BrowseCounselors.jsx:72-98 | without a user nothing happens; otherwise a saved counselor is deleted and an unsaved one posted, and on success the saved list toggles that id; on failure it stays |
| ConversationsList.FormatTime | src/components/ConversationsList.jsx:36-49 | nothing for a missing time; the time of day under 24 hours, the weekday under 7 days, month and day otherwise (also when the time does not parse) |
| ConversationsList.OlderIsCoarser | src/components/ConversationsList.jsx:42-48 | an older message never gets a finer format than a newer one |
| ConversationsList.RowFor | src/components/ConversationsList.jsx:76-118 | a row is highlighted exactly when it is selected; the photo is the user's picture, else the counselor's photo, else the placeholder; the preview falls back to "No messages yet"; the badge shows exactly a positive unread count |
| ConversationsList.Rows | src/components/ConversationsList.jsx:76 | one row per conversation, in order |
| ConversationsList.AtMostOneSelected | src/components/ConversationsList.jsx:78 | with distinct ids at most one row is highlighted, and none without a selection |
| ConversationsList.ViewFor | src/components/ConversationsList.jsx:51-76 | the skeleton exactly while loading, the empty message exactly for no conversations once loaded, otherwise one row per conversation |
| CounselorCard.Min | src/components/CounselorCard.jsx:8-9 | `Math.min` of a non-empty list is one of its elements and no larger than any |
| CounselorCard.MinPrice | src/components/CounselorCard.jsx:8-10 | 0 without services, otherwise the cheapest service's price |
| CounselorCard.Badges | src/components/CounselorCard.jsx:73-82 | at most three specializations are shown, as a prefix, and a "+N" badge appears exactly when there are more, with N the rest |
| CounselorCard.ShownLanguages | src/components/CounselorCard.jsx:67 | at most the first two languages, all of them when there are two or fewer |
| CounselorCard.SaveClick | src/components/CounselorCard.jsx:34-36 | the save button exists exactly with a callback, and a click passes the card's own counselor id |
| FAQ.FilteredSpec | src/pages/FAQ.jsx:37-43 | the shown list keeps the fetched order, is no longer than it, and holds exactly the entries matching search and topic |
| FAQ.NoFilterShowsAll | src/pages/FAQ.jsx:37-43 | an empty search under "All Topics" shows every FAQ in order |
| FAQ.SearchIgnoresCase | src/pages/FAQ.jsx:39-40 | two searches that differ only in letter case show the same list |
| FAQ.FoundInQuestionOrAnswer | src/pages/FAQ.jsx:38-40 | a search found, ignoring case, in the question or in the answer shows the entry under "All Topics" |
| FAQ.TopicMatchesExactly | src/pages/FAQ.jsx:41 | a chosen topic shows only entries of exactly that category and hides every other, whatever the search |
| FAQ.Fetched | src/pages/FAQ.jsx:26-35 | success stores the list, failure keeps it; loading ends either way; the filters stay |
| FAQ.ClearFilters | src/pages/FAQ.jsx:114 | both filters reset, so the whole fetched list is shown again |
| Universities.QueryParams | src/pages/Universities.jsx:36-40 | country, program, ranking and search text are each sent exactly when set, no name twice, and the query holds nothing else |
| Universities.ActiveFiltersCount | src/pages/Universities.jsx:61-66 | at most four filters count, and none exactly when the filters are the defaults and the search is empty |
| Universities.CountriesExact | src/pages/Universities.jsx:69-73 | each country is a key once, and exactly the countries that occur are keys |
| Universities.OfCountryAppend | src/pages/Universities.jsx:70-71 | pushing a university extends its own country's list and no other |
| Universities.CountriesAppend | src/pages/Universities.jsx:70 | a university of a new country adds that country as the last key; otherwise the keys stay |
| Universities.GroupByCountry | src/pages/Universities.jsx:69-73 | the keys are the countries in order of first appearance, the map has exactly those keys, and each key holds its country's universities in list order |
| Universities.NoneOfCountry | src/pages/Universities.jsx:69-73 | a country that is not a key has no universities |
| Universities.InOwnGroupOnly | src/pages/Universities.jsx:69-73 | every university sits in the section of its own country and in no other |
| Universities.SectionTotalGrows | src/pages/Universities.jsx:69-73 | adding a university grows the section total by the number of keys naming its country |
| Universities.OccurrencesDistinct | src/pages/Universities.jsx:69-73 | among distinct keys a country occurs once or not at all |
| Universities.SectionTotalAppendKey | src/pages/Universities.jsx:237 | adding a key adds its section's size to the total |
| Universities.SectionsPartition | src/pages/Universities.jsx:237 | the section sizes add up to the number of universities: nothing is lost or shown twice |
| Universities.Shown | src/pages/Universities.jsx:245 | a section shows its first six universities, or all of them when it has fewer |
| Universities.ViewFor | src/pages/Universities.jsx:220-237 | the empty message exactly for no universities; the flat grid exactly when a country filter or search is set; the grouped view otherwise |
| Universities.UniversitiesPage.constructor | src/pages/Universities.jsx:14-24 | the page starts with the default filters and an empty search |
| Universities.UniversitiesPage.ClearFilters | src/pages/Universities.jsx:56-59 | filters and search return to their defaults, leaving no active filter |
| CounselorApply.ApplicationFor | src/pages/CounselorApply.jsx:45-60 | the form is refused exactly when credentials, experience, bio or either selection is missing; otherwise the body carries the experience as `parseInt` reads it |
| CounselorApply.CompleteFormIsSent | src/pages/CounselorApply.jsx:45-60 | a complete form is sent with its fields unchanged and its years of experience as the number typed |
| CounselorApply.EachRequiredFieldBlocks | src/pages/CounselorApply.jsx:46-50 | any one missing required field blocks the request, while photo and LinkedIn are optional |
| CounselorApply.Navigate | src/pages/CounselorApply.jsx:163-257 | a step button moves by at most one step and never leaves steps 1 to 3 |
| CounselorApply.StepsStayInRange | src/pages/CounselorApply.jsx:163-257 | no sequence of button presses leaves steps 1 to 3 |
| CounselorApply.BioWordCount | src/pages/CounselorApply.jsx:240 | the counter shows the number of word beginnings, and 0 for a blank bio |
| CounselorApply.ApplyPage.constructor | src/pages/CounselorApply.jsx:17-31 | the wizard starts on step 1 with an empty form and nothing sent |
| CounselorApply.ApplyPage.SetStep | src/pages/CounselorApply.jsx:163-257 | the step follows the button, the form stays, and the step stays within 1 to 3 |
| CounselorApply.ApplyPage.ToggleSelection | src/pages/CounselorApply.jsx:36-43 | the chosen list toggles the value and the other list stays |
| CounselorApply.ApplyPage.Submit | src/pages/CounselorApply.jsx:45-69 | an incomplete form sends nothing; a complete one is posted, and the page moves to the counselor dashboard exactly when the post succeeds |
| CounselorDashboard.StatusCounts | src/pages/CounselorDashboard.jsx:169-171 | the pending, confirmed and completed lists, the cancelled bookings and those of unknown status together account for every booking exactly once |
| CounselorDashboard.TabsDisjoint | src/pages/CounselorDashboard.jsx:169-171 | no booking is in two tabs, and a cancelled booking is in none |
| CounselorDashboard.Actions | src/pages/CounselorDashboard.jsx:338-348 | buttons appear exactly on pending and confirmed bookings, and none leads back to pending or to the current status |
| CounselorDashboard.AllowedMoves | src/pages/CounselorDashboard.jsx:338-494 | exactly three moves exist (accept, decline, mark complete) and each moves a booking forward |
| CounselorDashboard.ChainIsShort | src/pages/CounselorDashboard.jsx:338-494 | a booking takes at most two status moves and never returns to a status it has left |
| CounselorDashboard.StagesRise | src/pages/CounselorDashboard.jsx:338-494 | along a chain of moves each step raises the stage by at least one |
| CounselorDashboard.ServiceRequestFor | src/pages/CounselorDashboard.jsx:114-130 | nothing is sent exactly when name or description is empty; otherwise the form as typed is sent, by PUT to the edited id exactly when one is set, by POST otherwise |
| CounselorDashboard.NewPostsEditPuts | src/pages/CounselorDashboard.jsx:229-230 | "Add Service" leads to a POST and "Edit" on a service with an id to a PUT of that id |
| CounselorDashboard.DefaultFormRefused | src/pages/CounselorDashboard.jsx:40-42 | the default form, with empty name and description, cannot be submitted |
| CounselorDashboard.DashboardPage.constructor | src/pages/CounselorDashboard.jsx:24-58 | the data is requested, and a socket is opened for the signed-in user only; no call, a closed dialog and the default form |
| CounselorDashboard.DashboardPage.Fetched | src/pages/CounselorDashboard.jsx:91-112 | loading ends; success stores the bookings; a 404 sends the counselor to the application form; any other failure changes nothing else |
| CounselorDashboard.DashboardPage.OnFrame | src/pages/CounselorDashboard.jsx:67-82 | an incoming call opens the popup with the caller's full name; every other frame leaves the page as it is |
| CounselorDashboard.DashboardPage.IncomingCallEnded | src/pages/CounselorDashboard.jsx:35 | the popup closes and nothing else changes |
| CounselorDashboard.DashboardPage.UpdateBookingStatus | src/pages/CounselorDashboard.jsx:155-167 | the new status is sent and, on success only, the data is reloaded |
| CounselorDashboard.DashboardPage.OpenNewService | src/pages/CounselorDashboard.jsx:229-230 | the dialog opens for a new service with the default form |
| CounselorDashboard.DashboardPage.CreateFirstService | src/pages/CounselorDashboard.jsx:379 | the link under an empty service list opens a create dialog without resetting the form, so it shows whatever the form last held |
| CounselorDashboard.DashboardPage.EditService | src/pages/CounselorDashboard.jsx:407-410 | the dialog opens on the service's own fields, editing its id |
| CounselorDashboard.DashboardPage.SubmitService | src/pages/CounselorDashboard.jsx:114-138 | an incomplete form sends nothing; a successful save closes the dialog, resets the form and reloads; a failed one keeps both |
| CounselorDashboard.DashboardPage.DeleteService | src/pages/CounselorDashboard.jsx:140-153 | nothing is sent unless the prompt is confirmed; success reloads |
| CounselorDashboard.DashboardPage.SetForm | src/pages/CounselorDashboard.jsx:538-583 | the form becomes what was typed and the dialog stays |
| CounselorDashboard.DashboardPage.CloseService | src/pages/CounselorDashboard.jsx:590 | the dialog closes and forgets the edited id, and the form keeps what was typed |
| StudentDashboard.UpcomingAndPast | src/pages/StudentDashboard.jsx:125-130 | both lists keep the fetched order; upcoming holds exactly the confirmed and pending bookings, past the completed and cancelled ones; each is as long as its two status lists together; no booking is in both |
| StudentDashboard.ButtonsByStatus | src/pages/StudentDashboard.jsx:285-364 | chat and video call appear exactly on confirmed sessions, which are upcoming; "Leave Review" exactly on unreviewed completed ones, which are past; no row offers both; pending and cancelled rows offer nothing |
| StudentDashboard.Counters | src/pages/StudentDashboard.jsx:186-210 | "Completed" counts every completed booking, "Reviews" exactly the reviewed past ones, and neither exceeds the past list |
| StudentDashboard.ReviewRequestFor | src/pages/StudentDashboard.jsx:97-112 | a blank comment is refused first; otherwise a review is posted exactly when the dialog holds a booking, with its id, the rating and the comment as typed |
| StudentDashboard.ReviewNeedsText | src/pages/StudentDashboard.jsx:98-109 | a whitespace-only comment is refused, and any other is sent untrimmed for the booking the dialog was opened on |
| StudentDashboard.DashboardPage.constructor | src/pages/StudentDashboard.jsx:21-45 | the data is requested, and a socket is opened for the signed-in user only; a closed dialog with rating 5 and an empty comment |
| StudentDashboard.DashboardPage.Fetched | src/pages/StudentDashboard.jsx:78-95 | success stores bookings and saved counselors, failure keeps them; loading ends either way |
| StudentDashboard.DashboardPage.OnFrame | src/pages/StudentDashboard.jsx:57-69 | an incoming call opens the popup with the caller's full name; every other frame leaves the page as it is |
| StudentDashboard.DashboardPage.IncomingCallEnded | src/pages/StudentDashboard.jsx:33 | the popup closes and nothing else changes |
| StudentDashboard.DashboardPage.OpenReview | src/pages/StudentDashboard.jsx:364 | the dialog opens on the chosen booking and its fields stay |
| StudentDashboard.DashboardPage.SetRating | src/pages/StudentDashboard.jsx:467 | the rating becomes the clicked star and the comment stays |
| StudentDashboard.DashboardPage.SetComment | src/pages/StudentDashboard.jsx:482 | the comment follows the text box and the rating stays |
| StudentDashboard.DashboardPage.CloseReview | src/pages/StudentDashboard.jsx:488 | the dialog closes and its fields stay |
| StudentDashboard.DashboardPage.SubmitReview | src/pages/StudentDashboard.jsx:97-123 | nothing is sent when the request cannot be formed; success closes the dialog, resets rating and comment and reloads; failure keeps dialog and fields |
| CounselorProfile.SlotFields | src/pages/CounselorProfile.jsx:70-71 | the hour read from a slot label is `parseInt` of the text before its first colon |
| CounselorProfile.PaddedNumber | src/pages/CounselorProfile.jsx:70-71 | a zero-padded number holds no colon and `parseInt` reads it back as the same number |
| CounselorProfile.SlotFieldsOfJoin | src/pages/CounselorProfile.jsx:70-71 | splitting `a:b` at the colon, with colon-free fields, gives back `parseInt` of each field |
| CounselorProfile.SlotRoundTrip | src/pages/CounselorProfile.jsx:70-71 | any zero-padded `HH:MM` label is read back as exactly the hours and minutes it was written from |
| CounselorProfile.TwoDigitField | src/pages/CounselorProfile.jsx:33-35 | a number below 100 is written as its tens digit then its units digit |
| CounselorProfile.ZeroField | src/pages/CounselorProfile.jsx:33-35 | zero minutes are written `00` |
| CounselorProfile.HourLabel | src/pages/CounselorProfile.jsx:33-35 | a time on the hour is labelled with the two digits of the hour followed by `:00` |
| CounselorProfile.JoinLabel | src/pages/CounselorProfile.jsx:33-35 | two two-character fields joined by a colon make a five-character label |
| CounselorProfile.SlotIsLabel | src/pages/CounselorProfile.jsx:33-35 | each of the seven offered slots is the padded label of its hour on the hour |
| CounselorProfile.SlotsParse | src/pages/CounselorProfile.jsx:33-71 | every offered slot is read back as its own hour and zero minutes, and that hour lies between 9 and 17 |
| CounselorProfile.SlotHourInRange | src/pages/CounselorProfile.jsx:33-35 | every offered slot starts between 9:00 and 17:00 |
| CounselorProfile.TodayDisabled | src/pages/CounselorProfile.jsx:308 | today cannot be picked, since its midnight is already before the current time |
| CounselorProfile.BookingRequestFor | src/pages/CounselorProfile.jsx:53-80 | a visitor is refused exactly when not signed in, then a missing date or time exactly when one is missing; a request is posted only with a user, a date, a time and a service, for this counselor and service, on the chosen day at the hour and minute read from the time, with the notes as typed |
| CounselorProfile.OfferedSlotIsBooked | src/pages/CounselorProfile.jsx:53-80 | a signed-in student with a service, a day and any offered slot always gets a request, starting on that slot's hour with zero minutes |
| CounselorProfile.EnabledConfirmPassesDateGuard | src/pages/CounselorProfile.jsx:348 | whenever "Confirm Booking" is enabled, the missing-date-or-time guard cannot fire |
| CounselorProfile.ProfilePage.constructor | src/pages/CounselorProfile.jsx:24-31 | the page starts loading, with the dialog closed, no service, date, time or notes, and nothing sent |
| CounselorProfile.ProfilePage.Fetched | src/pages/CounselorProfile.jsx:41-51 | a found counselor is shown; an unknown id leads to `/counselors`; loading ends either way and the dialog is untouched |
| CounselorProfile.ProfilePage.ChooseService | src/pages/CounselorProfile.jsx:262-265 | "Book Now" opens the dialog for that service and keeps any date, time and notes already chosen |
| CounselorProfile.ProfilePage.SelectDate | src/pages/CounselorProfile.jsx:305-309 | only a day the calendar lets through, not past and not a Sunday, becomes the chosen date; nothing else changes |
| CounselorProfile.ProfilePage.SelectTime | src/pages/CounselorProfile.jsx:316-324 | the chosen time is one of the offered slots; nothing else changes |
| CounselorProfile.ProfilePage.SetNotes | src/pages/CounselorProfile.jsx:330-335 | the notes are the text as typed; nothing else changes |
| CounselorProfile.ProfilePage.CloseBooking | src/pages/CounselorProfile.jsx:281-344 | cancelling or dismissing closes the dialog and keeps service, date, time and notes |
| CounselorProfile.ProfilePage.HandleBooking | src/pages/CounselorProfile.jsx:53-93 | a visitor is sent to `/login`; a refused request sends nothing; otherwise exactly the pending request is appended; a successful post clears the dialog, a failed one keeps it |
| CounselorProfile.ProfilePage.ResetBooking | src/pages/CounselorProfile.jsx:83-87 | the dialog closes and service, date, time and notes are cleared; nothing else changes |

## Left out

- Toast notifications: not modelled. A handler whose only effect is a toast changes no modelled state. An example is `new_message` on the counselor dashboard's socket.
- The transport (axios, WebSocket, `localStorage` I/O, `FormData` uploads): outcomes are parameters, sent requests and frames are logged values. The `Authorization` headers and token reads are not modelled.
- WebRTC (`getUserMedia`, `RTCPeerConnection`, SDP and ICE): opaque handles with open/closed flags and events. ICE-candidate errors are swallowed by the code and do not appear.
- Timers (`setTimeout`, `setInterval`): explicit timer-fired and tick events. The two sockets are not interleaved; each handler runs to completion.
- `Date` and locale formatting: `formatTime` takes the message's age in milliseconds and returns which format it uses, not the text. A calendar day is its midnight instant and weekday. The booking's `toISOString` is not built; the request holds the day, hours and minutes.
- The calendar's click on the already selected day, which clears the selection in the date picker: not modelled, because the behaviour belongs to the picker library, which is not part of this model.
- Floating point: `formatFileSize` keeps only the choice of unit, and the `toFixed` digits are not modelled. Ratings and prices (`parseFloat`) are integers, so a blank or fractional price box is not represented.
- `Common.ToLower`: lower-cases ASCII letters only; JavaScript also folds other scripts.
- `Common.ParseInt`: decimal only; the `0x` prefix that `parseInt` accepts without a radix is not modelled.
- `Register.RegisterRequest`: counts the password's length in characters. JavaScript's `length` counts UTF-16 code units, so a password with characters outside the Basic Multilingual Plane can be shorter here than in the browser.
- `App.Restored`: the stored `user` entry is either a user written by the app or text that does not parse; JSON that parses to something other than a user is not modelled.
- `App.SearchParam`: no percent-decoding of query values, and no decoding of `+` as a space, both of which `URLSearchParams.get` does.
- `googleLogin` (`src/App.js:216-220`): an external redirect to the OAuth provider, with no logic of its own.
- The admin analytics fetch and its counters: rendering of server values only.
- Scrolling the chat to the newest message, loading spinners, styling and JSX.
- React effect dependency arrays and stale state captured by closures.
- `ChatWidget.ChatController.OnOpen`: joins when the controller holds a conversation id. In the program, `onopen` reads the id captured when the socket was created (`src/components/ChatWidget.jsx:31-41`, `80-85`). On the first open of the widget that id is still null, so no `join_conversation` is sent then.
- `VideoCall.OfferFirst`: builds the connection from the current ICE configuration. In the program, the `call_answered` and offer handlers installed by the mount effect (`src/components/VideoCall.jsx:184-241`) captured the configuration at mount, which is still unset. They always use the default STUN servers; only `answerCall` sees the fetched configuration.
- The presentation-only pages and components (`src/pages/LandingPage.jsx`, `src/pages/UniversityDetail.jsx`, `src/pages/Resources.jsx`, `src/pages/GuideDetail.jsx`, `src/components/Footer.jsx`, `src/components/UniversityCard.jsx`): not part of this model.
- Server-side behaviour (conversation creation, message order, status rules enforced by the API): the front-end only consumes its results.
