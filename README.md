# Meeting routes of the counselor booking backend, in Dafny

This project models the decision logic of the meeting routes of a counselor
booking backend. Clients book, move and cancel video meetings there. Each
meeting lives on a meeting provider and is mirrored as an event on a calendar
provider. The model covers four pieces:

- **Token lifecycle** (`tokens.dfy`, module `Tokens`). The expiry test compares
  `expiresIn + updateAt` with the current instant. Token resolution lets an
  explicit header token win. Otherwise it reads the session's `ztoken` slot,
  and an expired record is cleared to the empty record `{}` in place. The session
  is a class whose `ztoken` field the methods overwrite. The clock is a parameter.
- **Provider interface** (`upstream.dfy`, module `Upstream`). Awaited calls settle
  as `Ok(value)` or `Fail(status)`. The calls a route makes are appended, in
  order, to a `CallLog`. The routes' JSON answers are a `Reply`. `Classify` is the
  status classification repeated in the catch blocks.
- **Scheduling arithmetic** (`schedule.dfy`, module `Schedule`). It holds the end
  instant of a booking, the event description built from a meeting's secrets,
  and the conflict scan run before a move. The scan is modelled as written. It
  is an end-point test: an event blocks only when the new end instant lies
  strictly inside it. It is not an interval-overlap test.
- **Routes** (`booking.dfy`, module `Booking`). GET and PATCH and DELETE
  `/meetings/:id`, POST `/meetings` and POST `/calendar/available` are each
  modelled twice. A function maps the resolved token, the request and a
  *script* to the reply and the calls made. The script holds the answer every
  awaited call would give. A method runs the route step by step against a
  `Session` and a `CallLog`, and its postcondition ties it to that function.

Instants are integers in seconds. A booking of `duration` minutes ends
`60 * duration` seconds after its start.

Behaviour of the code worth noting, which the model keeps:

- When the calendar mirror fails after a meeting was created, the failure is
  answered by status classification. The meeting stays, no compensating delete
  is made, and no reply says that only one of the two writes happened.
- The reschedule check is the end-point test above. An event that occupies
  exactly the new span does not block it (`Schedule.IdenticalSpanPassesScan`).
- When there is no usable token, the token handed to the provider is the empty
  string `""`.
- On delete, if `deleteEvent` rejects (for instance because no mirror exists),
  the rejection is classified like any other failure, after the meeting was
  already deleted.
- The availability route answers any failure with a plain server error (500).
  It does not classify the status.

## Model

| member | source | states |
|---|---|---|
| `Tokens.IsExpired` | routes/zoomApiRoutes.js:10-16 | expired exactly when `now >= updateAt + expiresIn`; at the deadline itself the credential counts as expired |
| `Tokens.IsLive` | routes/zoomApiRoutes.js:12-29 | a slot is live exactly when it holds a credential whose deadline `updateAt + expiresIn` lies after `now`; the empty record is never live |
| `Tokens.Resolve` | routes/zoomApiRoutes.js:18-35 | a non-empty header token is returned and the slot is untouched; otherwise the stored access token is returned exactly while the record is live, else `""`; the only change to the slot is clearing a present dead record to the empty record |
| `Tokens.ClearedStaysCleared` | routes/zoomApiRoutes.js:27-32 | from the empty record every later header-less request gets `""` and the slot stays `{}`: clearing is idempotent |
| `Tokens.ExpiryIsFinal` | routes/zoomApiRoutes.js:23-34 | once a stored record is found dead, every later header-less request gets `""` and the slot ends as `{}` |
| `Tokens.LiveUntilDeadline` | routes/zoomApiRoutes.js:27-34 | a live credential answers every header-less request before its deadline with its access token and is never modified |
| `Tokens.Session.GetAccessToken` | routes/zoomApiRoutes.js:18-35 | the imperative resolution returns the token and leaves the slot exactly as `Resolve` says |
| `Tokens.Session.SignIn` | routes/zoomApiRoutes.js:318-324 | the slot becomes the credential stamped with the sign-in instant |
| `Tokens.Session.LogOut` | routes/zoomApiRoutes.js:300 | the slot becomes unset |
| `Upstream.Classify` | routes/zoomApiRoutes.js:54-63 | 401 gives a log-in reply, 400 or 404 a create-new reply, any other status is passed through unchanged; the result is always an error reply (the same block stands at lines 137-146, 210-219 and 231-240) |
| `Schedule.EndOf` | routes/zoomApiRoutes.js:110 | the end lies exactly `duration` minutes after the start, never before it for a non-negative duration (also line 159) |
| `Schedule.Description` | routes/zoomApiRoutes.js:119-123 | the description holds the password, the start URL and the join URL intact, in that order and without overlap, at offsets fixed by the indentation (also lines 184-188) |
| `Schedule.Blocks` | routes/zoomApiRoutes.js:173-176 | an event blocks exactly when it is not the meeting's own and has the new end strictly inside it; a blocker has positive length and overlaps every span ending at the new end |
| `Schedule.ScanFree` | routes/zoomApiRoutes.js:164-181 | the loop leaves `free` true iff the listing is absent, or no listed event other than the meeting's own has the new end strictly inside it; an empty listing is free |
| `Schedule.OwnEventIgnored` | routes/zoomApiRoutes.js:173-176 | removing the meeting's own events from the listing never changes the verdict |
| `Schedule.OverlapFreeIsScanFree` | routes/zoomApiRoutes.js:173-178 | a span that overlaps no other listed event always passes the scan |
| `Schedule.IdenticalSpanPassesScan` | routes/zoomApiRoutes.js:159-178 | another event occupying exactly the new span overlaps it and still does not block it |
| `Booking.LookUpRun` | routes/zoomApiRoutes.js:48-65 | one `getMeeting` call; the meeting is returned on success, otherwise the failure is classified |
| `Booking.LookUp` | routes/zoomApiRoutes.js:48-65 | the route resolves the token, then makes exactly the calls and gives exactly the reply of `LookUpRun` |
| `Booking.QueryDuration` | routes/zoomApiRoutes.js:70 | the query duration is 15 minutes unless one is given |
| `Booking.AvailabilityRun` | routes/zoomApiRoutes.js:67-103 | the query writes nothing; the window is computed first for the query duration (15 unless given), and a failed window stops the route after that one call; the listing covers that window with at most 100 events, and a failed listing stops the route after it; only once both succeeded are the slots built from the window, the duration and the fetched listing; it succeeds exactly when every step does and echoes the slots, the window and the listing; any failure is a server error |
| `Booking.Available` | routes/zoomApiRoutes.js:67-103 | the route makes exactly the calls and gives exactly the reply of `AvailabilityRun` |
| `Booking.CreatedEvent` | routes/zoomApiRoutes.js:118-130 | the mirror of a new meeting carries the requested topic, start and duration, the created meeting's id, and an agenda holding that meeting's password, start URL and join URL in order |
| `Booking.CreateRun` | routes/zoomApiRoutes.js:105-147 | the exact calls at each exit: a refused or failed working-hours check over `[start, start + duration)` stops after it; a refused or failed free/busy query over the same span stops after that; a failed `createMeeting` stops after it; a created meeting is followed by exactly one `addEvent` of its mirror. Nothing is written unless both checks pass, and no delete is ever made. The answer is not-available exactly when one check says no, and success exactly when every step succeeds. Each failing step, `addEvent` included (the meeting then stays), is answered by `Classify` |
| `Booking.Create` | routes/zoomApiRoutes.js:105-147 | the route updates the session as `Resolve` does, then makes exactly the calls and gives exactly the reply of `CreateRun` |
| `Booking.MovedEvent` | routes/zoomApiRoutes.js:184-195 | the mirror of a moved meeting carries the meeting's topic and duration, the new start, the moved meeting's id, and an agenda holding its password, start URL and join URL in order |
| `Booking.HasMirror` | routes/zoomApiRoutes.js:196 | a looked-up calendar event counts as a mirror exactly when it has a non-empty id |
| `Booking.MirrorWrite` | routes/zoomApiRoutes.js:196-202 | the mirror write is `updateEvent` on the meeting's id exactly when a mirror exists, `addEvent` otherwise, and carries the given event |
| `Booking.RescheduleRun` | routes/zoomApiRoutes.js:150-221 | the meeting is always looked up first; nothing is written unless the working-hours check and the scan both clear the move; not-available exactly when one of them refuses it; success exactly when the move is cleared and the edit and the mirror write succeed |
| `Booking.RescheduleCallsAtEachExit` | routes/zoomApiRoutes.js:150-221 | the exact calls at each exit: a failed meeting lookup stops after it, a failed event lookup after both lookups, a refused or failed check after the check, a failed listing or a blocked span after the listing, a failed edit after the edit, and a successful edit after exactly one mirror write |
| `Booking.RescheduleLooksUpThenChecks` | routes/zoomApiRoutes.js:156-161 | the meeting and its calendar event are looked up first, then working hours are checked over `[start, start + the meeting's duration)` |
| `Booking.RescheduleClearedMoveWrites` | routes/zoomApiRoutes.js:164-202 | a cleared move lists the new span, then calls `editMeeting`; after a successful edit exactly one mirror write follows and ends the trace |
| `Booking.RescheduleFailuresClassified` | routes/zoomApiRoutes.js:209-220 | every failing step of a move (lookups, check, listing, edit, mirror write) is answered by `Classify` of its status |
| `Booking.RescheduleListsNewSpan` | routes/zoomApiRoutes.js:159-164 | the events are listed over the new span, which ends the meeting's duration after the new start |
| `Booking.RescheduleMirrorFollowsEdit` | routes/zoomApiRoutes.js:182-202 | a mirror write is the last call and directly follows `editMeeting`; it is the `MirrorWrite` of the moved event: `updateEvent` when the looked-up event has an id and `addEvent` otherwise |
| `Booking.RescheduleMirrorsOnce` | routes/zoomApiRoutes.js:183-202 | a successful edit is followed by exactly one mirror write |
| `Booking.RescheduleNeverCreatesOrDeletes` | routes/zoomApiRoutes.js:150-221 | a move never creates a meeting and never deletes a meeting or an event |
| `Booking.CreateAndMoveCheckSameSpan` | routes/zoomApiRoutes.js:110-161 | creating and moving a meeting of the same length to the same start check working hours over exactly the same span `[start, start + duration minutes)` |
| `Booking.Reschedule` | routes/zoomApiRoutes.js:150-221 | the route updates the session as `Resolve` does and runs the scan loop, then makes exactly the calls and gives exactly the reply of `RescheduleRun` |
| `Booking.DeleteRun` | routes/zoomApiRoutes.js:223-242 | the calls are exactly `deleteMeeting`, then `deleteEvent` on the meeting's id only when the first succeeded; success exactly when both succeed, echoing the meeting provider's deletion result; either failure is classified |
| `Booking.Delete` | routes/zoomApiRoutes.js:223-242 | the route updates the session as `Resolve` does, then makes exactly the calls and gives exactly the reply of `DeleteRun` |

## Left out

- The JSON text of the session slot is not modelled. The slot holds the parsed record, and `{}` is the `Empty` constructor. A malformed stored string, which would make parsing throw, cannot arise in the model.
- Rejections that carry no HTTP response are not modelled. In the source the catch block then throws a second time. Every failure in the model carries a status.
- The collaborators `CounselorSetting.availableTime`, `getListTimes` and `isAvailable` are not part of this model. Neither are the `ZoomApi` and `GoogleEvent` clients or `GoogleEvent.createEventData`. Each call is recorded with its arguments, and its answer is a script parameter. The free-slot computation therefore cannot be modelled.
- The object returned by `availableTime` is echoed as its window (`avFromTime`, `avToTime`); any other fields it has are not modelled. The deletion result and the listing are echoed as opaque values.
- A failed call is answered with its status only. The catch blocks also send the rejection object `err` as the JSON body (routes/zoomApiRoutes.js lines 63, 146, 219 and 240). That body is not modelled, and `Reply.Status` keeps only the code.
- Time-zone conversion and date formatting are not modelled. This covers `toISOString`, `toLocaleString` and `moment-timezone`. Instants are integer seconds, and the clock is the `now` parameter.
- Calendar events with only an all-day `date` (no `dateTime`) are not modelled. Neither is JavaScript's loose comparison of ids of different types. Ids are strings.
- Request bodies are reduced to the fields the routes read. `createMeeting` receives `MeetingBody` (topic, start, duration). `editMeeting` receives the new start time. A missing `duration` on POST `/meetings` is not modelled.
- The pass-through routes are not modelled: GET `/meetings`, the registrant route, `/callback`, `/oauth/refreshtoken`, the `/oauth` status echo and GET `/oauth/logout`. They forward one call, or report the session, and contain no decision logic.
- The OAuth code exchange and the redirect URLs of `/oauth/callback` are network I/O and are left out. Only its session write is modelled, as `Tokens.Session.SignIn`.
- Two concurrent bookings can both pass the checks against the same stale listing. That race is concurrency and is not modelled.
- `services/Calendar.js` (document store and invitation e-mail) and `routes/index.js` (router mounting) are not part of this model.
