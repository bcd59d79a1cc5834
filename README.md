# Meeting client: session, join-link and call-list logic in Dafny

This project models the decision logic of a browser meeting client built on a video SDK
and a chat SDK. It covers four parts:

- **Meeting-creation and join-link controller** (`components/MeetingTypeList.tsx`,
  module `MeetingTypeList`). This is a modal state machine with five states: closed,
  schedule, join, instant, and showing the instant link.
  - `createMeeting` checks its guards in a fixed order: authentication, missing date,
    past date, call object. It then issues one remote get-or-create. On every path past
    the authentication guard it clears the busy flag.
  - The join handler parses a pasted link or a bare identifier.
  - The shareable link is built by concatenating the base URL, `/meeting/` and the call ID.
- **In-meeting view** (`components/MeetingRoom.tsx`, module `MeetingRoom`). It holds:
  - the layout, the participants and chat panel flags, and the derived chat channel;
  - the layout switch, the chat-content guard, the personal-room rule and the end-call button;
  - the device shutdown performed by `onLeave`.
- **Call-list synchroniser** (`hooks/useGetCalls.ts`, module `GetCalls`). A refresh
  either replaces the list or keeps it, with a loading flag. The ended and upcoming
  classification is made relative to a `now` parameter.
- **Chat-client bootstrap** (`hooks/useStreamChatClient.ts`, module `ChatClient`). It
  connects, optionally watches the channel, then publishes the client. It also derives the
  channel ID, the channel name and the display name, and guards the cleanup.

Module `Strings` models the ECMAScript string built-ins the code relies on:

- `trim`, using the WhiteSpace and LineTerminator set;
- `includes`;
- `split(sep)[0]` and `split(sep)[1]`;
- `toLowerCase`.

Module `Wrappers` holds `Option`, `Result` and the `Outcome` of an awaited remote call.

Modelling conventions:

- React state becomes class fields, and handlers become methods that modify those fields.
- Toasts, navigation, clipboard writes and remote requests are appended to an effect log.
  The exception is `MeetingRoom.OnLeave`, which keeps no state and returns its device
  commands and the navigation as a list.
- `createMeeting` and `loadCalls` are split at their `await` into two methods. The first
  runs up to the await; the second, `...Settled`, runs after it and takes the remote outcome
  as a parameter. This makes the busy and loading flags observable while a request is in flight.
- `initChat` changes no hook state before its last step, so `ChatBootstrap.InitChat` is one
  method that takes the outcomes of both of its awaits as parameters.
- Times are integers.
- The clock (`now`), the fresh call identifier (`crypto.randomUUID`), the base URL and the
  API key are parameters.

Behaviour of the code a reader may not expect:

- `upcomingCalls` does not look at `endedAt`. An ended call with a future start is
  therefore in both lists (`GetCalls.EndedFutureCallInBothLists`).
- A missing user and an uninitialised client produce the same toast.
- The authentication guard returns before the `try`, so it leaves the busy flag alone.
  The two date guards return inside the `try`, so the `finally` clears the flag.
- Only a schedule request checks the date against now. An instant request sends the
  stored date, whatever it is, as the start.
- Without a created call the shared link ends in `/meeting/undefined`. Parsing that link
  gives the meeting identifier `undefined` (`MeetingTypeList.LinkWithoutCallParsesToUndefined`).

## Model

| member | source | states |
|---|---|---|
| Strings.StartOfText | components/MeetingTypeList.tsx:229 | the scan skips only whitespace and stops at the end or at the first other character |
| Strings.EndOfText | components/MeetingTypeList.tsx:229 | the backward scan skips only whitespace and stops at its lower bound or just after a character that is not whitespace |
| Strings.Trim | components/MeetingTypeList.tsx:229 | the result is a contiguous slice of the input with neither leading nor trailing whitespace |
| Strings.TrimOfTrimmed | components/MeetingTypeList.tsx:235 | trimming a string that is already trimmed returns it unchanged |
| Strings.TrimIdempotent | components/MeetingTypeList.tsx:229-235 | trimming twice equals trimming once |
| Strings.TrimEmptyIff | components/MeetingTypeList.tsx:229 | `trim()` is empty exactly when the input is only whitespace |
| Strings.IndexOfFrom | components/MeetingTypeList.tsx:238 | the result is the first occurrence at or after the start position, or none when there is no such occurrence |
| Strings.IndexOf | components/MeetingTypeList.tsx:238 | an index exists iff the pattern occurs (`includes`), and it is the first occurrence |
| Strings.Before | components/MeetingTypeList.tsx:242 | `split(sep)[0]` is a prefix without the separator; it is the whole string iff the separator is absent; otherwise the first separator starts right after it, and none starts earlier |
| Strings.SecondPart | components/MeetingTypeList.tsx:240-242 | `split(sep)[1]` is a prefix of the text after the first separator, has no separator, ends at the end or at the next separator, and no separator starts before that end |
| Strings.BeforeFirstChar | components/MeetingTypeList.tsx:242 | cutting at a one-character separator stops at that character's first position |
| Strings.LowerChar | components/MeetingRoom.tsx:141 | `A`-`Z` map to `a`-`z` and every other character is unchanged |
| Strings.ToLower | components/MeetingRoom.tsx:141 | same length, and each character is lower-cased pointwise |
| MeetingTypeList.MeetingLink | components/MeetingTypeList.tsx:128 | the link is base + "/meeting/" + id, or base + "/meeting/undefined" without a call |
| MeetingTypeList.ExtractMeetingId | components/MeetingTypeList.tsx:235-244 | without "/meeting/" the input is returned unchanged; otherwise the result is a prefix of the text after the first "/meeting/" that holds neither "?" nor "/meeting/", and it ends at the end, at a "?" or at the next "/meeting/", with no "/meeting/" starting earlier |
| MeetingTypeList.ParseJoinInput | components/MeetingTypeList.tsx:229-252 | empty-input error iff the input is all whitespace; invalid-link error iff the extracted identifier is empty; otherwise the non-empty extracted identifier of the trimmed input; a bare trimmed input is returned as it is |
| MeetingTypeList.BareIdParses | components/MeetingTypeList.tsx:235-238 | a trimmed, non-empty identifier without "/meeting/" parses to itself |
| MeetingTypeList.MeetingLinkRoundTrip | components/MeetingTypeList.tsx:235-244 | parsing the shareable link (line 128) of a created call gives back the call identifier |
| MeetingTypeList.LinkWithoutCallParsesToUndefined | components/MeetingTypeList.tsx:235-244 | the link (line 128) shown without a call parses to the meeting identifier "undefined" |
| MeetingTypeList.DoubledPathIsEmpty | components/MeetingTypeList.tsx:240-242 | a link with "/meeting//meeting/" gives the empty identifier, because the second part stops at the second "/meeting/" |
| MeetingTypeList.MeetingPagePath | components/MeetingTypeList.tsx:122 | the page path (also at line 248) is "/meeting/" followed by the identifier |
| MeetingTypeList.FailureMessage | components/MeetingTypeList.tsx:111 | the failure description is the error's message when there is one, else "Unknown error" |
| MeetingTypeList.ExtractAfterBase | components/MeetingTypeList.tsx:240-242 | in base + "/meeting/" + rest the identifier is taken from rest alone |
| MeetingTypeList.ParseAfterBase | components/MeetingTypeList.tsx:229-252 | the parse of a link with nothing to trim is the rest cut at "/meeting/" and "?", or invalid when that is empty |
| MeetingTypeList.LinkWithQueryParses | components/MeetingTypeList.tsx:242 | a query string after the identifier is dropped (`https://host/meeting/xyz?ref=1` gives `xyz`) |
| MeetingTypeList.IdBeforeQuery | components/MeetingTypeList.tsx:242 | the identifier part of id + "?" + query is id, whatever the query holds |
| MeetingTypeList.EmptyIdIsInvalid | components/MeetingTypeList.tsx:247-252 | "/meeting/" followed directly by "?" (`host/meeting/?x`) is an invalid link |
| MeetingTypeList.BlankInputExample | components/MeetingTypeList.tsx:229-232 | whitespace-only input is the empty-input error |
| MeetingTypeList.CreateStepFor | components/MeetingTypeList.tsx:45-94 | guard order: auth failure iff no client or user; missing date and past date only when scheduling; request exactly when authenticated, with a call object and a date not earlier than now when scheduling; it carries the chosen time and the description or "Instant Meeting"; a throw before the request carries the missing-call-object message, or the null-date message when the call object exists |
| MeetingTypeList.Controller.constructor | components/MeetingTypeList.tsx:17-30 | closed, initial values with the load time, no call, not busy, nothing logged |
| MeetingTypeList.Controller.Render | components/MeetingTypeList.tsx:126-301 | loader iff no client or user; otherwise the modal that the state opens (join form iff joining, instant form iff instant); the schedule slot shows the form until a call exists and the confirmation after; busy forms follow the flag; link modals show the shareable link |
| MeetingTypeList.Controller.InstantLinkShowsCreatedCall | components/MeetingTypeList.tsx:275-293 | the instant-link modal always shows the link of a created call |
| MeetingTypeList.Controller.ResetEffect | components/MeetingTypeList.tsx:36-43 | values return to the initial values exactly when the state is closed and there is no call |
| MeetingTypeList.Controller.OpenInstant | components/MeetingTypeList.tsx:136 | the "New Meeting" card opens the instant state |
| MeetingTypeList.Controller.OpenJoin | components/MeetingTypeList.tsx:143 | the "Join Meeting" card opens the join state |
| MeetingTypeList.Controller.OpenSchedule | components/MeetingTypeList.tsx:150 | the "Schedule Meeting" card opens the schedule state |
| MeetingTypeList.Controller.ViewRecordings | components/MeetingTypeList.tsx:157 | navigation to "/recordings" is the only effect |
| MeetingTypeList.Controller.EditDescription | components/MeetingTypeList.tsx:176-178 | only the description changes |
| MeetingTypeList.Controller.EditDateTime | components/MeetingTypeList.tsx:187 | only the date changes |
| MeetingTypeList.Controller.EditLink | components/MeetingTypeList.tsx:258 | only the link changes |
| MeetingTypeList.Controller.CreateMeeting | components/MeetingTypeList.tsx:45-94 | auth failure: only the destructive toast, flag and pending creations unchanged, no remote call; date failures: only their toast, flag false; a throw: the failure toast, flag false; otherwise exactly one get-or-create with type "default", the fresh ID, the chosen time and the description, with the flag set |
| MeetingTypeList.Controller.CreateMeetingSettled | components/MeetingTypeList.tsx:87-116 | success: the call becomes the created call, instant moves to showing the link, and the toast names the captured mode; failure: the failure toast with the message or "Unknown error", call and state unchanged; the flag always ends false |
| MeetingTypeList.Controller.JoinMeeting | components/MeetingTypeList.tsx:120-124 | navigates to "/meeting/" + id only when a call is set, and otherwise does nothing |
| MeetingTypeList.Controller.CopyMeetingLink | components/MeetingTypeList.tsx:206-209 | in both confirmation modals (also lines 282-285) the shareable link is written to the clipboard, then the "Link Copied" toast |
| MeetingTypeList.Controller.HandleJoinClick | components/MeetingTypeList.tsx:227-253 | empty input: the "Please enter" toast; invalid: the "Invalid meeting link" toast; otherwise navigation to "/meeting/" + the parsed identifier; exactly one effect |
| MeetingTypeList.Controller.CloseScheduleSlot | components/MeetingTypeList.tsx:201-204 | the state closes (the form's close at line 163 as well) and the created call is cleared |
| MeetingTypeList.Controller.CloseJoinModal | components/MeetingTypeList.tsx:219-223 | the state closes and only the link field is cleared |
| MeetingTypeList.Controller.CloseInstantModal | components/MeetingTypeList.tsx:266 | the state closes |
| MeetingTypeList.Controller.CloseInstantLinkModal | components/MeetingTypeList.tsx:277-280 | the state closes and the created call is cleared |
| MeetingRoom.CallLayout | components/MeetingRoom.tsx:56-65 | grid iff "grid"; speaker with the bar on the left iff "speaker-right"; speaker with the bar on the right for every other value |
| MeetingRoom.GridLabel | components/MeetingRoom.tsx:137-141 | "Grid" lower-cases to "grid" |
| MeetingRoom.SpeakerLeftLabel | components/MeetingRoom.tsx:137-141 | "Speaker-Left" lower-cases to "speaker-left" |
| MeetingRoom.SpeakerRightLabel | components/MeetingRoom.tsx:137-141 | "Speaker-Right" lower-cases to "speaker-right" |
| MeetingRoom.MenuLabelSelectsLayout | components/MeetingRoom.tsx:137-141 | the i-th menu label lower-cases to the i-th layout value |
| MeetingRoom.IsPersonalRoom | components/MeetingRoom.tsx:34 | a room is personal iff the `personal` parameter is present and non-empty |
| MeetingRoom.MeetingIdParam | components/MeetingRoom.tsx:35 | the meeting ID is the `id` parameter when present, and it is empty iff the parameter is absent or empty |
| MeetingRoom.OnLeave | components/MeetingRoom.tsx:111-127 | camera off iff call, participant and a published camera; microphone off iff the same for the microphone, checked independently; navigation to "/" always, last |
| MeetingRoom.RoomView.constructor | components/MeetingRoom.tsx:34-43 | layout "speaker-left", both panels hidden, no channel, and the meeting ID is `id` or "" |
| MeetingRoom.RoomView.ChannelEffect | components/MeetingRoom.tsx:45-49 | the channel becomes "meeting-chat-" + the meeting ID only when the ID is non-empty; nothing else changes |
| MeetingRoom.RoomView.SelectLayout | components/MeetingRoom.tsx:137-141 | the i-th menu item sets the layout to its lower-cased label, which is the i-th layout value; nothing else changes |
| MeetingRoom.RoomView.ToggleParticipants | components/MeetingRoom.tsx:152 | flips only the participants flag |
| MeetingRoom.RoomView.CloseParticipants | components/MeetingRoom.tsx:79 | clears only the participants flag |
| MeetingRoom.RoomView.ToggleChat | components/MeetingRoom.tsx:157 | flips only the chat flag |
| MeetingRoom.RoomView.CloseChat | components/MeetingRoom.tsx:90 | clears only the chat flag |
| MeetingRoom.RoomView.Render | components/MeetingRoom.tsx:54-165 | loader iff not joined; the layout the switch selects; panels as their flags say; chat content iff the panel is shown, a client exists and the channel is non-empty; end-call button iff `personal` is absent or empty |
| MeetingRoom.RoomView.ChatContentIsThisMeeting | components/MeetingRoom.tsx:45-96 | shown chat content always belongs to this meeting's channel |
| GetCalls.IsEnded | hooks/useGetCalls.ts:55 | a call with an end time is ended; without one it is ended iff it has a start before now |
| GetCalls.IsUpcoming | hooks/useGetCalls.ts:59 | a call is upcoming iff it has a start after now |
| GetCalls.UpcomingIgnoresEndedAt | hooks/useGetCalls.ts:58-60 | the upcoming test does not depend on the end time |
| GetCalls.Filter | hooks/useGetCalls.ts:54-60 | `filter` returns an order-preserving subsequence holding exactly the elements that satisfy the predicate, each as many times as in the input |
| GetCalls.EndedCalls | hooks/useGetCalls.ts:54-56 | undefined iff the list is undefined; otherwise an ordered subsequence holding exactly the calls that started before now or have an end time, duplicates kept |
| GetCalls.UpcomingCalls | hooks/useGetCalls.ts:58-60 | undefined iff the list is undefined; otherwise an ordered subsequence holding exactly the calls that start after now, duplicates kept |
| GetCalls.EndedAtMeansEnded | hooks/useGetCalls.ts:55 | a call with an end time is ended |
| GetCalls.EndedFutureCallInBothLists | hooks/useGetCalls.ts:54-60 | an ended call with a future start is in both lists |
| GetCalls.StartingNowInNeither | hooks/useGetCalls.ts:54-60 | a call starting exactly now with no end time is in neither list |
| GetCalls.DisjointWithoutEndedAt | hooks/useGetCalls.ts:54-60 | without end times the lists are disjoint |
| GetCalls.ExactlyOneListWithoutEndedAt | hooks/useGetCalls.ts:54-60 | without an end time, a call not starting now is in exactly one list, and it is ended iff it started before now |
| GetCalls.CallList.constructor | hooks/useGetCalls.ts:8-9 | the list is undefined and nothing is loading |
| GetCalls.CallList.IdleIsNotLoading | hooks/useGetCalls.ts:11-34 | with no refresh awaiting its result the loading flag is clear |
| GetCalls.CallList.LoadCalls | hooks/useGetCalls.ts:11-27 | without a client or user ID nothing changes and no query is made; otherwise the flag is set and one query sorted descending by "starts_at" for that user is issued |
| GetCalls.CallList.LoadCallsSettled | hooks/useGetCalls.ts:29-34 | success replaces the list wholesale and failure keeps it; the flag ends false |
| ChatClient.ChannelId | hooks/useStreamChatClient.ts:36 | the ID is "meeting-chat-" followed by the meeting ID |
| ChatClient.ChannelName | hooks/useStreamChatClient.ts:38 | the name is "Meeting Chat " followed by the meeting ID |
| ChatClient.ChannelIdRoundTrip | hooks/useStreamChatClient.ts:36 | the meeting is recovered from its channel ID, and only that channel ID maps back to it |
| ChatClient.ChannelIdInjective | hooks/useStreamChatClient.ts:36 | distinct meetings get distinct channels |
| ChatClient.DisplayName | hooks/useStreamChatClient.ts:28 | the name is the full name if non-empty, else the username if non-empty, else the ID |
| ChatClient.DisplayNameNotEmpty | hooks/useStreamChatClient.ts:28 | a user with an ID always gets a non-empty name |
| ChatClient.InitChatRun | hooks/useStreamChatClient.ts:16-52 | one run sends nothing without a user ID, only the connect when it fails or there is no meeting, and otherwise the connect and the watch; it never disconnects; it publishes only after a successful connect |
| ChatClient.NoUserNoEffects | hooks/useStreamChatClient.ts:17 | with no user ID nothing is sent and nothing is published |
| ChatClient.ConnectComesFirst | hooks/useStreamChatClient.ts:25-32 | with a user ID, the first call connects that user with the display name, the image and a dev token for the same ID |
| ChatClient.WatchOnlyAfterConnect | hooks/useStreamChatClient.ts:25-44 | a channel is watched iff connect succeeded and there is a meeting; the watch is second, after the connect, and targets ("messaging", "meeting-chat-" + id, "Meeting Chat " + id) |
| ChatClient.PublishOnlyAfterSuccess | hooks/useStreamChatClient.ts:46-49 | the client is published iff connect succeeded and, with a meeting, the watch succeeded |
| ChatClient.ChatBootstrap.constructor | hooks/useStreamChatClient.ts:12 | no client yet and nothing sent |
| ChatClient.ChatBootstrap.InitChat | hooks/useStreamChatClient.ts:16-52 | the calls sent and the client published are those of one run of the effect; on failure the client stays as it was |
| ChatClient.ChatBootstrap.Cleanup | hooks/useStreamChatClient.ts:55-59 | disconnect happens only with a published client, and the client stays set |

## Left out

- JSX, CSS classes, icons and modal presentation. `Render` records only which branch and which modal is shown.
- SDK internals. `client.call`, `getOrCreate`, `queryCalls`, `connectUser`, `channel.watch`, `devToken`, `setCameraEnabled`/`setMicrophoneEnabled` and `disconnectUser` are foreign code.
  - `getOrCreate`, `queryCalls`, `connectUser`, `channel.watch`, `disconnectUser` and the device switches appear as recorded effects or commands.
  - The awaited calls (`getOrCreate`, `queryCalls`, `connectUser`, `channel.watch`) take their success or failure as a parameter.
  - `client.call` is not recorded. Its arguments, the call type `"default"` and the fresh identifier, travel in the `GetOrCreate` effect. Whether it returns a call object (`components/MeetingTypeList.tsx:73`) is the `callObjectCreated` parameter.
  - `devToken` appears only as the `DevToken` value inside the `ConnectUser` effect.
  - `devToken`, `setCameraEnabled`, `setMicrophoneEnabled` and `disconnectUser` are assumed not to throw.
- MeetingRoom.OnLeave: assumes that `setCameraEnabled(false)` (`components/MeetingRoom.tsx:118`) does not throw synchronously. A throw there would skip the microphone check and the navigation to "/", and the model does not capture that path.
- The server-side query. Only the sort field, the sort direction and the user are recorded; the filter conditions of `hooks/useGetCalls.ts:18-27` are not.
- `chatClient.channel(...)` in the chat panel. It is assumed to name the channel that `channelId` holds.
- `crypto.randomUUID`. The fresh identifier is a parameter, so no idempotency is claimed: every create uses a new identifier.
- Dates. Wall-clock dates and `toISOString` become integers, and `now` is a parameter. The `startsAt` sent is the integer time, not its ISO text.
- Date comparisons. `new Date(startsAt) < now` is an integer comparison; parsing of date strings is not modelled.
- Exact error wording. A cleared date picker makes `toISOString` throw. The model records this as a failure toast carrying a fixed V8-style message. Its exact wording is engine-specific.
- Console logging.
- Environment variables. The base URL and the API key are parameters.
- `setInterval` polling (`hooks/useGetCalls.ts:43-49`) and the initial-load effect. The model does not decide when `loadCalls` runs. Overlapping refreshes are allowed: `LoadCallsSettled` may settle any in-flight refresh, and whichever finishes last wins.
- React effect scheduling and dependency re-runs.
- Discarded results. The model does not cover results that arrive after a component unmounts, or state updates made during an unmount.
- Concurrent creations. Interleaved `createMeeting` runs are kept in a list of pending creations, and which one settles is a parameter.
- Strings.ToLower: lowers only ASCII `A`-`Z`. The labels it is applied to are ASCII, but full Unicode case mapping is not modelled.
- Strings.Trim: is stated over the ECMAScript whitespace set written out as characters. There is no Unicode category lookup.
- MeetingTypeList.Controller.CreateMeeting: the `=== 'isScheduleMeeting'` check is evaluated on the state when the call starts. A state change before the await settles is captured in `PendingCreate.mode`, as the closure does.
- ChatClient.ChatBootstrap.InitChat: runs to its end in one step, so a cleanup cannot fall between the connect and the watch. The model therefore does not order a `disconnectUser` between those two requests.
- ChatClient.ChatBootstrap.Cleanup: models the unmount cleanup, which reads the published client. Publishing the client also re-runs the effect, because `chatClient` is a dependency (`hooks/useStreamChatClient.ts:60`). That re-run first runs the previous cleanup, whose closure still holds `null`, so it disconnects nothing. The model does not include that cleanup. The same re-run also runs `initChat` again, because the user identifier is still set. It sends a second `connectUser` (and, with a meeting, a second `watch`) and publishes the same instance again. A second `ChatBootstrap.InitChat` call models that run.
- The leave button's own `call.leave()` inside `CallControls`. It is SDK code and is not part of this model; only its `onLeave` callback is.
- `useUser`, `useStreamVideoClient`, `useCall` and `useSearchParams`. Their values are parameters.
- MeetingRoom.RoomView: the search parameters are read once per mount. `RoomView.meetingId` is a constant, and `ChatContentIsThisMeeting` relies on that. In the source, `meetingId` is re-read on every render (`components/MeetingRoom.tsx:35`). The channel effect (lines 45-49) sets the channel only for a non-empty ID. A change of `id` while the page stays mounted therefore shows the old channel for one render, and a change to an empty `id` keeps the old channel. The model does not capture either case.
