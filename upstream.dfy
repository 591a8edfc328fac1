/** What the meeting routes exchange with the outside: the answers of awaited
    provider calls, the calls themselves (recorded in order), the replies the
    routes send, and the classification of a failed call's HTTP status. */
module Upstream {

  datatype Option<T> = None | Some(value: T)

  /** The settlement of an awaited call: its value, or a rejection whose
      `err.response.status` is `status`. */
  datatype Response<T> = Ok(value: T) | Fail(status: int)

  /** A half-open span of instants, in seconds. */
  datatype TimeRange = TimeRange(start: int, end: int)

  /** A meeting as the meeting provider returns it; the secrets are opaque. */
  datatype Meeting = Meeting(
    id: string, topic: string, duration: int,
    password: string, startUrl: string, joinUrl: string)

  /** The booking fields of a create request body, in minutes for `duration`. */
  datatype MeetingBody = MeetingBody(topic: string, startTime: int, duration: int)

  /** The inputs handed to the calendar provider's event builder. */
  datatype EventData = EventData(
    topic: string, startTime: int, duration: int, agenda: string, meetingId: string)

  /** One listed calendar event: its id and the instants of its start and end. */
  datatype CalendarItem = CalendarItem(id: string, start: int, end: int)

  /** A call made to a collaborator: the counselor settings, the calendar provider
      or the meeting provider. */
  datatype Call =
    | AvailableTime(fromDate: int, duration: int, timeZone: string, counselorId: string)
    | ListTimes(window: TimeRange, duration: int, timeZone: string, ownId: Option<string>,
                events: Option<seq<CalendarItem>>)
    | IsAvailable(fromTime: int, toTime: int)
    | FreeBusy(fromTime: int, toTime: int)
    | ListEvents(fromTime: int, toTime: int, maxResults: Option<int>)
    | GetEvent(eventId: string)
    | AddEvent(event: EventData)
    | UpdateEvent(eventId: string, event: EventData)
    | DeleteEvent(eventId: string)
    | GetMeeting(token: string, meetingId: string)
    | CreateMeeting(token: string, body: MeetingBody)
    | EditMeeting(token: string, meetingId: string, startTime: int)
    | DeleteMeeting(token: string, meetingId: string)

  /** Calls that change provider state. */
  predicate IsWrite(c: Call)
  {
    c.AddEvent? || c.UpdateEvent? || c.DeleteEvent? ||
    c.CreateMeeting? || c.EditMeeting? || c.DeleteMeeting?
  }

  /** Calls that write the calendar mirror of a meeting. */
  predicate IsMirrorWrite(c: Call)
  {
    c.AddEvent? || c.UpdateEvent?
  }

  predicate NoWrites(calls: seq<Call>)
  {
    forall k :: 0 <= k < |calls| ==> !IsWrite(calls[k])
  }

  /** The JSON answers of the routes. */
  datatype Reply =
    | MeetingFound(meeting: Meeting)
    | MeetingCreated(meeting: Meeting)
    | Rescheduled
    | Deleted(result: string)
    | Availability(lists: seq<TimeRange>, window: TimeRange, events: Option<seq<CalendarItem>>)
    | NotAvailable
    | Login
    | CreateNew
    | Status(code: int)
    | ServerError

  /** The replies a failed provider call can be answered with. */
  predicate IsErrorReply(r: Reply)
  {
    r.Login? || r.CreateNew? || r.Status?
  }

  /** The catch blocks of the meeting routes: an expired authorisation asks the
      client to log in, a missing resource asks it to create a new one, and any
      other status is passed through. */
  function Classify(status: int): (r: Reply)
    ensures IsErrorReply(r)
    ensures r == Login <==> status == 401
    ensures r == CreateNew <==> status == 400 || status == 404
    ensures r.Status? ==> r.code == status
  {
    if status == 401 then Login
    else if status == 404 || status == 400 then CreateNew
    else Status(status)
  }

  /** The record of the calls made so far, in the order they were made. */
  class CallLog {
    var calls: seq<Call>

    constructor ()
      ensures calls == []
    {
      calls := [];
    }

    method Record(c: Call)
      modifies this
      ensures calls == old(calls) + [c]
    {
      calls := calls + [c];
    }
  }
}
