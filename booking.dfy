/** The decision flow of the meeting routes: looking a meeting up, listing the free
    times, creating a meeting with its calendar mirror, moving it, and deleting it.
    Each route is a function from the resolved token, the request and the answers
    of the awaited calls (a "script") to the reply and the calls made, and a method
    that runs the route step by step against a session and a call log. */
module Booking {
  import opened Upstream
  import opened Schedule
  import Tokens

  /** The reply a route sends and the calls it made, in order. */
  datatype Run = Run(reply: Reply, calls: seq<Call>)

  const DefaultDuration := 15
  const PageSize := 100

  // ---------------------------------------------------------------------------
  // GET /meetings/:id

  function LookUpRun(token: string, meetingId: string, found: Response<Meeting>): (run: Run)
    ensures run.calls == [GetMeeting(token, meetingId)]
    ensures run.reply.MeetingFound? <==> found.Ok?
    ensures found.Ok? ==> run.reply.meeting == found.value
    ensures found.Fail? ==> run.reply == Classify(found.status)
  {
    match found
    case Fail(code) => Run(Classify(code), [GetMeeting(token, meetingId)])
    case Ok(m) => Run(MeetingFound(m), [GetMeeting(token, meetingId)])
  }

  method LookUp(session: Tokens.Session, log: CallLog, header: string, now: int,
                meetingId: string, found: Response<Meeting>) returns (reply: Reply)
    modifies session, log
    ensures var t := Tokens.Resolve(header, old(session.ztoken), now);
      session.ztoken == t.slot &&
      reply == LookUpRun(t.token, meetingId, found).reply &&
      log.calls == old(log.calls) + LookUpRun(t.token, meetingId, found).calls
  {
    var token := session.GetAccessToken(header, now);
    log.Record(GetMeeting(token, meetingId));
    if found.Fail? {
      return Classify(found.status);
    }
    return MeetingFound(found.value);
  }

  // ---------------------------------------------------------------------------
  // POST /calendar/available

  datatype AvailabilityRequest = AvailabilityRequest(
    fromDate: int, timeZone: string, counselorId: string,
    meetingId: Option<string>, duration: Option<int>)

  /** Answers of the window computation, the event listing and the slot builder. */
  datatype AvailabilityScript = AvailabilityScript(
    window: Response<TimeRange>,
    listed: Response<Option<seq<CalendarItem>>>,
    lists: Response<seq<TimeRange>>)

  /** The booking length of an availability query: 15 minutes unless given. */
  function QueryDuration(req: AvailabilityRequest): (d: int)
    ensures req.duration.None? ==> d == DefaultDuration
    ensures req.duration.Some? ==> d == req.duration.value
  {
    match req.duration
    case None => DefaultDuration
    case Some(d) => d
  }

  function AvailabilityRun(req: AvailabilityRequest, s: AvailabilityScript): (run: Run)
    // the query only reads
    ensures NoWrites(run.calls)
    // the window is computed first, for the query's duration (15 minutes unless given)
    ensures |run.calls| > 0 &&
      run.calls[0] == AvailableTime(req.fromDate, QueryDuration(req), req.timeZone, req.counselorId)
    // the listing is bounded by the page size and covers exactly the computed window
    ensures forall k :: 0 <= k < |run.calls| && run.calls[k].ListEvents? ==>
      s.window.Ok? && run.calls[k] == ListEvents(s.window.value.start, s.window.value.end, Some(PageSize))
    // a failed window or a failed listing stops the route: nothing else is called
    ensures s.window.Fail? ==>
      run.calls == [AvailableTime(req.fromDate, QueryDuration(req), req.timeZone, req.counselorId)]
    ensures s.window.Ok? && s.listed.Fail? ==>
      run.calls == [AvailableTime(req.fromDate, QueryDuration(req), req.timeZone, req.counselorId),
                    ListEvents(s.window.value.start, s.window.value.end, Some(PageSize))]
    // the slots are built only once both succeeded, from the computed window, the
    // query's duration and the fetched listing
    ensures s.window.Ok? && s.listed.Ok? ==>
      run.calls == [run.calls[0], ListEvents(s.window.value.start, s.window.value.end, Some(PageSize)),
                    ListTimes(s.window.value, QueryDuration(req), req.timeZone, req.meetingId, s.listed.value)]
    // success exactly when every step succeeds, echoing the window and the listing
    ensures run.reply.Availability? <==> s.window.Ok? && s.listed.Ok? && s.lists.Ok?
    ensures run.reply.Availability? ==>
      run.reply == Availability(s.lists.value, s.window.value, s.listed.value)
    // any failure is a plain server error: no log-in or create-new hint here
    ensures !run.reply.Availability? ==> run.reply == ServerError
  {
    var duration := QueryDuration(req);
    var windowed := [AvailableTime(req.fromDate, duration, req.timeZone, req.counselorId)];
    match s.window
    case Fail(_) => Run(ServerError, windowed)
    case Ok(w) =>
      var listedCalls := windowed + [ListEvents(w.start, w.end, Some(PageSize))];
      match s.listed
      case Fail(_) => Run(ServerError, listedCalls)
      case Ok(events) =>
        var built := listedCalls + [ListTimes(w, duration, req.timeZone, req.meetingId, events)];
        match s.lists
        case Fail(_) => Run(ServerError, built)
        case Ok(lists) => Run(Availability(lists, w, events), built)
  }

  method Available(log: CallLog, req: AvailabilityRequest, s: AvailabilityScript) returns (reply: Reply)
    modifies log
    ensures reply == AvailabilityRun(req, s).reply
    ensures log.calls == old(log.calls) + AvailabilityRun(req, s).calls
  {
    var duration := QueryDuration(req);
    log.Record(AvailableTime(req.fromDate, duration, req.timeZone, req.counselorId));
    if s.window.Fail? {
      return ServerError;
    }
    var w := s.window.value;
    log.Record(ListEvents(w.start, w.end, Some(PageSize)));
    if s.listed.Fail? {
      return ServerError;
    }
    log.Record(ListTimes(w, duration, req.timeZone, req.meetingId, s.listed.value));
    if s.lists.Fail? {
      return ServerError;
    }
    return Availability(s.lists.value, w, s.listed.value);
  }

  // ---------------------------------------------------------------------------
  // POST /meetings

  /** Answers of the working-hours check, the free/busy query, the meeting
      creation and the calendar mirror. */
  datatype CreateScript = CreateScript(
    available: Response<bool>, free: Response<bool>,
    created: Response<Meeting>, added: Response<()>)

  /** The calendar mirror of a newly created meeting. */
  function CreatedEvent(body: MeetingBody, m: Meeting): (e: EventData)
    ensures e.topic == body.topic && e.meetingId == m.id
    ensures e.startTime == body.startTime && e.duration == body.duration
    // the agenda lists the created meeting's password, start URL and join URL, in that order
    ensures e.agenda == Description(CreateIndent, CreateClosing, m.password, m.startUrl, m.joinUrl)
    ensures CarriesSecrets(e.agenda, CreateIndent, m.password, m.startUrl, m.joinUrl)
  {
    EventData(body.topic, body.startTime, body.duration,
              Description(CreateIndent, CreateClosing, m.password, m.startUrl, m.joinUrl), m.id)
  }

  function CreateRun(token: string, body: MeetingBody, s: CreateScript): (run: Run)
    // the working-hours check comes first, over [start, start + duration minutes)
    ensures |run.calls| > 0 &&
      run.calls[0] == IsAvailable(body.startTime, EndOf(body.startTime, body.duration))
    // nothing is written unless both checks pass
    ensures !NoWrites(run.calls) ==> s.available == Ok(true) && s.free == Ok(true)
    ensures run.reply == NotAvailable <==>
      s.available == Ok(false) || (s.available == Ok(true) && s.free == Ok(false))
    // the calls made at each exit: a refused or failed working-hours check stops
    // after it, a refused or failed free/busy query over the same span stops after
    // that, a failed creation stops after it, and a created meeting is mirrored
    ensures s.available != Ok(true) ==>
      run.calls == [IsAvailable(body.startTime, EndOf(body.startTime, body.duration))]
    ensures s.available == Ok(true) && s.free != Ok(true) ==>
      run.calls == [IsAvailable(body.startTime, EndOf(body.startTime, body.duration)),
                    FreeBusy(body.startTime, EndOf(body.startTime, body.duration))]
    ensures s.available == Ok(true) && s.free == Ok(true) && s.created.Fail? ==>
      run.calls == [IsAvailable(body.startTime, EndOf(body.startTime, body.duration)),
                    FreeBusy(body.startTime, EndOf(body.startTime, body.duration)),
                    CreateMeeting(token, body)]
    ensures s.available == Ok(true) && s.free == Ok(true) && s.created.Ok? ==>
      run.calls == [IsAvailable(body.startTime, EndOf(body.startTime, body.duration)),
                    FreeBusy(body.startTime, EndOf(body.startTime, body.duration)),
                    CreateMeeting(token, body), AddEvent(CreatedEvent(body, s.created.value))]
    // every failed step is answered by classification of its status
    ensures s.available.Fail? ==> run.reply == Classify(s.available.status)
    ensures s.available == Ok(true) && s.free.Fail? ==> run.reply == Classify(s.free.status)
    ensures s.available == Ok(true) && s.free == Ok(true) && s.created.Fail? ==>
      run.reply == Classify(s.created.status)
    // the mirror follows the meeting it mirrors
    ensures forall k :: 0 <= k < |run.calls| && run.calls[k].AddEvent? ==>
      0 < k && run.calls[k - 1] == CreateMeeting(token, body) && s.created.Ok? &&
      run.calls[k].event == CreatedEvent(body, s.created.value)
    // no compensating delete, ever
    ensures forall k :: 0 <= k < |run.calls| ==>
      !run.calls[k].DeleteMeeting? && !run.calls[k].DeleteEvent?
    // success exactly when every step succeeds, answering with the created meeting
    ensures run.reply.MeetingCreated? <==>
      s.available == Ok(true) && s.free == Ok(true) && s.created.Ok? && s.added.Ok?
    ensures run.reply.MeetingCreated? ==> run.reply.meeting == s.created.value
    // a failed mirror leaves the meeting created and is answered by classification
    ensures s.available == Ok(true) && s.free == Ok(true) && s.created.Ok? && s.added.Fail? ==>
      CreateMeeting(token, body) in run.calls && run.reply == Classify(s.added.status)
    ensures run.reply.MeetingCreated? || run.reply == NotAvailable || IsErrorReply(run.reply)
  {
    var toDate := EndOf(body.startTime, body.duration);
    var checked := [IsAvailable(body.startTime, toDate)];
    match s.available
    case Fail(code) => Run(Classify(code), checked)
    case Ok(available) =>
      if !available then Run(NotAvailable, checked)
      else
        var polled := checked + [FreeBusy(body.startTime, toDate)];
        match s.free
        case Fail(code) => Run(Classify(code), polled)
        case Ok(free) =>
          if !free then Run(NotAvailable, polled)
          else
            var created := polled + [CreateMeeting(token, body)];
            match s.created
            case Fail(code) => Run(Classify(code), created)
            case Ok(m) =>
              var mirrored := created + [AddEvent(CreatedEvent(body, m))];
              match s.added
              case Fail(code) => Run(Classify(code), mirrored)
              case Ok(_) => Run(MeetingCreated(m), mirrored)
  }

  method Create(session: Tokens.Session, log: CallLog, header: string, now: int,
                body: MeetingBody, s: CreateScript) returns (reply: Reply)
    modifies session, log
    ensures var t := Tokens.Resolve(header, old(session.ztoken), now);
      session.ztoken == t.slot &&
      reply == CreateRun(t.token, body, s).reply &&
      log.calls == old(log.calls) + CreateRun(t.token, body, s).calls
  {
    var token := session.GetAccessToken(header, now);
    var toDate := EndOf(body.startTime, body.duration);
    log.Record(IsAvailable(body.startTime, toDate));
    if s.available.Fail? {
      return Classify(s.available.status);
    }
    if s.available.value {
      log.Record(FreeBusy(body.startTime, toDate));
      if s.free.Fail? {
        return Classify(s.free.status);
      }
      if s.free.value {
        log.Record(CreateMeeting(token, body));
        if s.created.Fail? {
          return Classify(s.created.status);
        }
        var m := s.created.value;
        log.Record(AddEvent(CreatedEvent(body, m)));
        if s.added.Fail? {
          return Classify(s.added.status);
        }
        return MeetingCreated(m);
      }
    }
    return NotAvailable;
  }

  // ---------------------------------------------------------------------------
  // PATCH /meetings/:id

  /** Answers of the meeting lookup, the mirror lookup (the id of the mirrored
      event, if it has one), the working-hours check, the event listing, the
      meeting edit and the mirror write. */
  datatype RescheduleScript = RescheduleScript(
    meeting: Response<Meeting>, mirror: Response<Option<string>>,
    available: Response<bool>, listed: Response<Option<seq<CalendarItem>>>,
    edited: Response<()>, written: Response<()>)

  /** Whether the looked-up calendar event has a (non-empty) id. */
  function HasMirror(mirror: Option<string>): (h: bool)
    ensures h ==> mirror.Some? && |mirror.value| > 0
    ensures mirror.Some? && |mirror.value| > 0 ==> h
    ensures mirror.None? || mirror == Some("") ==> !h
  {
    mirror.Some? && mirror.value != ""
  }

  /** The calendar event of a moved meeting. */
  function MovedEvent(m: Meeting, meetingId: string, startTime: int): (e: EventData)
    ensures e.topic == m.topic && e.meetingId == meetingId
    ensures e.startTime == startTime && e.duration == m.duration
    // the agenda lists the looked-up meeting's password, start URL and join URL, in that order
    ensures e.agenda == Description(RescheduleIndent, RescheduleClosing, m.password, m.startUrl, m.joinUrl)
    ensures CarriesSecrets(e.agenda, RescheduleIndent, m.password, m.startUrl, m.joinUrl)
  {
    EventData(m.topic, startTime, m.duration,
              Description(RescheduleIndent, RescheduleClosing, m.password, m.startUrl, m.joinUrl),
              meetingId)
  }

  /** The mirror write of a move: an update of the existing event, or a new one. */
  function MirrorWrite(mirror: Option<string>, meetingId: string, event: EventData): (c: Call)
    ensures IsMirrorWrite(c) && IsWrite(c)
    ensures c.UpdateEvent? <==> HasMirror(mirror)
    ensures c.UpdateEvent? ==> c.eventId == meetingId
    ensures c.event == event
  {
    if HasMirror(mirror) then UpdateEvent(meetingId, event) else AddEvent(event)
  }

  /** Whether the move reached its checks and found the new span free. */
  predicate MoveCleared(meetingId: string, startTime: int, s: RescheduleScript)
  {
    s.meeting.Ok? && s.mirror.Ok? && s.available == Ok(true) && s.listed.Ok? &&
    IsFree(s.listed.value, meetingId, EndOf(startTime, s.meeting.value.duration))
  }

  function RescheduleRun(token: string, meetingId: string, startTime: int, s: RescheduleScript): (run: Run)
    // the meeting is always looked up first
    ensures |run.calls| > 0 && run.calls[0] == GetMeeting(token, meetingId)
    // nothing is written unless the working hours and the scan both clear the move
    ensures !NoWrites(run.calls) ==> MoveCleared(meetingId, startTime, s)
    ensures run.reply == NotAvailable <==>
      s.meeting.Ok? && s.mirror.Ok? &&
      (s.available == Ok(false) || (s.available == Ok(true) && s.listed.Ok? &&
        !IsFree(s.listed.value, meetingId, EndOf(startTime, s.meeting.value.duration))))
    ensures run.reply == Rescheduled <==>
      MoveCleared(meetingId, startTime, s) && s.edited.Ok? && s.written.Ok?
    ensures run.reply == Rescheduled || run.reply == NotAvailable || IsErrorReply(run.reply)
  {
    var looked := [GetMeeting(token, meetingId)];
    match s.meeting
    case Fail(code) => Run(Classify(code), looked)
    case Ok(m) =>
      var mirrored := looked + [GetEvent(meetingId)];
      match s.mirror
      case Fail(code) => Run(Classify(code), mirrored)
      case Ok(mirror) =>
        var toDate := EndOf(startTime, m.duration);
        var checked := mirrored + [IsAvailable(startTime, toDate)];
        match s.available
        case Fail(code) => Run(Classify(code), checked)
        case Ok(available) =>
          if !available then Run(NotAvailable, checked)
          else
            var listedCalls := checked + [ListEvents(startTime, toDate, None)];
            match s.listed
            case Fail(code) => Run(Classify(code), listedCalls)
            case Ok(items) =>
              if !IsFree(items, meetingId, toDate) then Run(NotAvailable, listedCalls)
              else
                var edited := listedCalls + [EditMeeting(token, meetingId, startTime)];
                match s.edited
                case Fail(code) => Run(Classify(code), edited)
                case Ok(_) =>
                  var event := MovedEvent(m, meetingId, startTime);
                  var write := MirrorWrite(mirror, meetingId, event);
                  match s.written
                  case Fail(code) => Run(Classify(code), edited + [write])
                  case Ok(_) => Run(Rescheduled, edited + [write])
  }

  /** The meeting and its calendar event are looked up first; the working hours are
      then checked over [start, start + the meeting's duration). */
  lemma RescheduleLooksUpThenChecks(token: string, meetingId: string, startTime: int, s: RescheduleScript)
    requires s.meeting.Ok? && s.mirror.Ok?
    ensures var run := RescheduleRun(token, meetingId, startTime, s);
      |run.calls| >= 3 &&
      run.calls[..3] == [GetMeeting(token, meetingId), GetEvent(meetingId),
                         IsAvailable(startTime, EndOf(startTime, s.meeting.value.duration))]
  {
  }

  /** The calls of a move that gets as far as the meeting edit: the two lookups, the
      working-hours check and the listing over the new span, and the edit. */
  function MoveCalls(token: string, meetingId: string, startTime: int, duration: int): (calls: seq<Call>)
    ensures |calls| == 5 && NoWrites(calls[..4]) && calls[4].EditMeeting?
  {
    var toDate := EndOf(startTime, duration);
    [GetMeeting(token, meetingId), GetEvent(meetingId), IsAvailable(startTime, toDate),
     ListEvents(startTime, toDate, None), EditMeeting(token, meetingId, startTime)]
  }

  /** The calls made at each exit of a move, and nothing else: a failed meeting
      lookup stops after it, a failed mirror lookup after both lookups, a refused or
      failed check after the check, a failed listing or a blocked span after the
      listing, a failed edit after the edit, and a successful edit after one mirror
      write. */
  lemma RescheduleCallsAtEachExit(token: string, meetingId: string, startTime: int, s: RescheduleScript)
    ensures var run := RescheduleRun(token, meetingId, startTime, s);
      (s.meeting.Fail? ==> run.calls == [GetMeeting(token, meetingId)]) &&
      (s.meeting.Ok? && s.mirror.Fail? ==>
         run.calls == MoveCalls(token, meetingId, startTime, s.meeting.value.duration)[..2]) &&
      (s.meeting.Ok? && s.mirror.Ok? && s.available != Ok(true) ==>
         run.calls == MoveCalls(token, meetingId, startTime, s.meeting.value.duration)[..3]) &&
      (s.meeting.Ok? && s.mirror.Ok? && s.available == Ok(true) && !MoveCleared(meetingId, startTime, s) ==>
         run.calls == MoveCalls(token, meetingId, startTime, s.meeting.value.duration)[..4]) &&
      (MoveCleared(meetingId, startTime, s) && s.edited.Fail? ==>
         run.calls == MoveCalls(token, meetingId, startTime, s.meeting.value.duration)) &&
      (MoveCleared(meetingId, startTime, s) && s.edited.Ok? ==>
         run.calls == MoveCalls(token, meetingId, startTime, s.meeting.value.duration) +
                      [MirrorWrite(s.mirror.value, meetingId, MovedEvent(s.meeting.value, meetingId, startTime))])
  {
  }

  /** A cleared move lists the new span, edits the meeting, and after a successful
      edit writes the calendar mirror exactly once, as the last call. */
  lemma RescheduleClearedMoveWrites(token: string, meetingId: string, startTime: int, s: RescheduleScript)
    requires MoveCleared(meetingId, startTime, s)
    ensures var run := RescheduleRun(token, meetingId, startTime, s);
      var toDate := EndOf(startTime, s.meeting.value.duration);
      |run.calls| >= 5 &&
      run.calls[3] == ListEvents(startTime, toDate, None) &&
      run.calls[4] == EditMeeting(token, meetingId, startTime) &&
      (s.edited.Ok? ==>
         |run.calls| == 6 &&
         run.calls[5] == MirrorWrite(s.mirror.value, meetingId, MovedEvent(s.meeting.value, meetingId, startTime)))
  {
  }

  /** Every failed step of a move is answered by classification of its status. */
  lemma RescheduleFailuresClassified(token: string, meetingId: string, startTime: int, s: RescheduleScript)
    ensures var run := RescheduleRun(token, meetingId, startTime, s);
      (s.meeting.Fail? ==> run.reply == Classify(s.meeting.status)) &&
      (s.meeting.Ok? && s.mirror.Fail? ==> run.reply == Classify(s.mirror.status)) &&
      (s.meeting.Ok? && s.mirror.Ok? && s.available.Fail? ==> run.reply == Classify(s.available.status)) &&
      (s.meeting.Ok? && s.mirror.Ok? && s.available == Ok(true) && s.listed.Fail? ==>
        run.reply == Classify(s.listed.status)) &&
      (MoveCleared(meetingId, startTime, s) && s.edited.Fail? ==> run.reply == Classify(s.edited.status)) &&
      (MoveCleared(meetingId, startTime, s) && s.edited.Ok? && s.written.Fail? ==>
        run.reply == Classify(s.written.status))
  {
  }

  /** The events are listed over the new span, [start, start + the meeting's duration). */
  lemma RescheduleListsNewSpan(token: string, meetingId: string, startTime: int, s: RescheduleScript)
    ensures var run := RescheduleRun(token, meetingId, startTime, s);
      forall k :: 0 <= k < |run.calls| && run.calls[k].ListEvents? ==>
        s.meeting.Ok? &&
        run.calls[k] == ListEvents(startTime, EndOf(startTime, s.meeting.value.duration), None)
  {
  }

  /** A mirror write comes last, right after the edit, and it updates the existing
      mirror in place or adds one when there is none. */
  lemma RescheduleMirrorFollowsEdit(token: string, meetingId: string, startTime: int, s: RescheduleScript)
    ensures var run := RescheduleRun(token, meetingId, startTime, s);
      forall k :: 0 <= k < |run.calls| && IsMirrorWrite(run.calls[k]) ==>
        0 < k && k == |run.calls| - 1 && run.calls[k - 1] == EditMeeting(token, meetingId, startTime) &&
        s.edited.Ok? && s.meeting.Ok? && s.mirror.Ok? &&
        run.calls[k] == MirrorWrite(s.mirror.value, meetingId, MovedEvent(s.meeting.value, meetingId, startTime))
  {
  }

  /** A successful edit is always followed by exactly one mirror write. */
  lemma RescheduleMirrorsOnce(token: string, meetingId: string, startTime: int, s: RescheduleScript)
    ensures var run := RescheduleRun(token, meetingId, startTime, s);
      forall k :: 0 <= k < |run.calls| && run.calls[k].EditMeeting? && s.edited.Ok? ==>
        k + 2 == |run.calls| && IsMirrorWrite(run.calls[k + 1])
  {
  }

  /** A move neither creates nor deletes anything. */
  lemma RescheduleNeverCreatesOrDeletes(token: string, meetingId: string, startTime: int, s: RescheduleScript)
    ensures var run := RescheduleRun(token, meetingId, startTime, s);
      forall k :: 0 <= k < |run.calls| ==>
        !run.calls[k].CreateMeeting? && !run.calls[k].DeleteMeeting? && !run.calls[k].DeleteEvent?
  {
  }

  /** Create and move gate a booking on the same span: a move of a meeting of the
      same length to the same start checks exactly the span a creation checks. */
  lemma CreateAndMoveCheckSameSpan(token: string, body: MeetingBody, cs: CreateScript,
                                   meetingId: string, rs: RescheduleScript)
    requires rs.meeting.Ok? && rs.mirror.Ok? && rs.meeting.value.duration == body.duration
    ensures var checked := IsAvailable(body.startTime, EndOf(body.startTime, body.duration));
      CreateRun(token, body, cs).calls[0] == checked &&
      RescheduleRun(token, meetingId, body.startTime, rs).calls[2] == checked
  {
    RescheduleLooksUpThenChecks(token, meetingId, body.startTime, rs);
  }

  method Reschedule(session: Tokens.Session, log: CallLog, header: string, now: int,
                    meetingId: string, startTime: int, s: RescheduleScript) returns (reply: Reply)
    modifies session, log
    ensures var t := Tokens.Resolve(header, old(session.ztoken), now);
      session.ztoken == t.slot &&
      reply == RescheduleRun(t.token, meetingId, startTime, s).reply &&
      log.calls == old(log.calls) + RescheduleRun(t.token, meetingId, startTime, s).calls
  {
    var token := session.GetAccessToken(header, now);
    log.Record(GetMeeting(token, meetingId));
    if s.meeting.Fail? {
      return Classify(s.meeting.status);
    }
    var m := s.meeting.value;
    log.Record(GetEvent(meetingId));
    if s.mirror.Fail? {
      return Classify(s.mirror.status);
    }
    var toDate := EndOf(startTime, m.duration);
    log.Record(IsAvailable(startTime, toDate));
    if s.available.Fail? {
      return Classify(s.available.status);
    }
    if s.available.value {
      log.Record(ListEvents(startTime, toDate, None));
      if s.listed.Fail? {
        return Classify(s.listed.status);
      }
      var free := ScanFree(s.listed.value, meetingId, toDate);
      if free {
        log.Record(EditMeeting(token, meetingId, startTime));
        if s.edited.Fail? {
          return Classify(s.edited.status);
        }
        var event := MovedEvent(m, meetingId, startTime);
        if HasMirror(s.mirror.value) {
          log.Record(UpdateEvent(meetingId, event));
        } else {
          log.Record(AddEvent(event));
        }
        if s.written.Fail? {
          return Classify(s.written.status);
        }
        return Rescheduled;
      }
    }
    return NotAvailable;
  }

  // ---------------------------------------------------------------------------
  // DELETE /meetings/:id

  /** Answers of the meeting deletion and of the mirror deletion. */
  datatype DeleteScript = DeleteScript(deleted: Response<string>, unmirrored: Response<()>)

  function DeleteRun(token: string, meetingId: string, s: DeleteScript): (run: Run)
    // the meeting is deleted first, and its mirror is deleted exactly when that
    // succeeded, as the second and last call; nothing else is called
    ensures run.calls == [DeleteMeeting(token, meetingId)] +
                         (if s.deleted.Ok? then [DeleteEvent(meetingId)] else [])
    ensures run.reply.Deleted? <==> s.deleted.Ok? && s.unmirrored.Ok?
    // the answer echoes what the meeting provider returned for the deletion
    ensures run.reply.Deleted? ==> run.reply.result == s.deleted.value
    ensures s.deleted.Fail? ==> run.reply == Classify(s.deleted.status)
    ensures s.deleted.Ok? && s.unmirrored.Fail? ==> run.reply == Classify(s.unmirrored.status)
  {
    var dropped := [DeleteMeeting(token, meetingId)];
    match s.deleted
    case Fail(code) => Run(Classify(code), dropped)
    case Ok(result) =>
      var unmirrored := dropped + [DeleteEvent(meetingId)];
      match s.unmirrored
      case Fail(code) => Run(Classify(code), unmirrored)
      case Ok(_) => Run(Deleted(result), unmirrored)
  }

  method Delete(session: Tokens.Session, log: CallLog, header: string, now: int,
                meetingId: string, s: DeleteScript) returns (reply: Reply)
    modifies session, log
    ensures var t := Tokens.Resolve(header, old(session.ztoken), now);
      session.ztoken == t.slot &&
      reply == DeleteRun(t.token, meetingId, s).reply &&
      log.calls == old(log.calls) + DeleteRun(t.token, meetingId, s).calls
  {
    var token := session.GetAccessToken(header, now);
    log.Record(DeleteMeeting(token, meetingId));
    if s.deleted.Fail? {
      return Classify(s.deleted.status);
    }
    log.Record(DeleteEvent(meetingId));
    if s.unmirrored.Fail? {
      return Classify(s.unmirrored.status);
    }
    return Deleted(s.deleted.value);
  }
}
