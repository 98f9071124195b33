/**
 * The calendar client: the `fetchEvents` conversion of stored events into
 * calendar entries, and the form state machine driven by the handlers
 * `handleSelectSlot`, `handleSelectEvent`, `handleSubmit` and `handleDelete`.
 * Clock readings, dialog answers and HTTP outcomes are parameters.
 */
module CalendarClient {
  import opened Wrappers

  const MsPerMinute: int := 60_000
  /** The duration, in minutes, the form is reset to. */
  const DefaultDuration: int := 15
  /** The event type the form is reset to. */
  const DefaultType: string := "Work"

  /** An element of the JSON array `GET /events` returns, as the client reads it. */
  datatype Fetched = Fetched(
    id: nat,
    name: string,
    time: int,
    duration: int,
    eventType: Option<string>,
    description: Option<string>)

  /** A calendar entry: the fetched fields plus the derived `start` and `end` instants. */
  datatype CalendarEvent = CalendarEvent(source: Fetched, start: int, end: int)

  /** The alert dialogs the handlers raise. */
  datatype Alert =
    | NoAlert
    | PastSlotError
    | NameRequired
    | InvalidDuration
    | ServerError(message: string)

  /** The body of the create request the client sends. */
  datatype Payload = Payload(name: string, time: int, duration: int, description: string, eventType: string)

  /** The component state: the `useState` fields the handlers touch. */
  datatype Form = Form(
    events: seq<CalendarEvent>,
    modalIsOpen: bool,
    selectedSlot: Option<int>,
    eventName: string,
    eventDuration: int,
    selectedEvent: Option<CalendarEvent>,
    eventDescription: string,
    eventType: string)

  // ---------------------------------------------------------------------------
  // fetchEvents: start and end of a calendar entry

  /** `start` is the event's time and `end` lies `duration` minutes later. */
  predicate Derived(c: CalendarEvent) {
    c.start == c.source.time && c.end == c.start + c.source.duration * MsPerMinute
  }

  /** `{ ...e, start: new Date(e.time), end: new Date(e.time + e.duration * 60000) }` */
  function ToCalendarEvent(e: Fetched): (c: CalendarEvent)
    ensures c.source == e && Derived(c)
  {
    CalendarEvent(e, e.time, e.time + e.duration * MsPerMinute)
  }

  /** `data.map(...)`: one derived entry per fetched element, in the same order. */
  function ParseEvents(data: seq<Fetched>): (r: seq<CalendarEvent>)
    ensures |r| == |data|
    ensures forall i :: 0 <= i < |r| ==> r[i].source == data[i]
    ensures forall c :: c in r ==> Derived(c)
  {
    if data == [] then [] else [ToCalendarEvent(data[0])] + ParseEvents(data[1..])
  }

  /** A derived entry never ends before it starts when its duration is not negative. */
  lemma EndNotBeforeStart(c: CalendarEvent)
    requires Derived(c) && c.source.duration >= 0
    ensures c.end >= c.start
  {
  }

  /**
   * The duration the detail view shows: `(event.end - event.start) / 60000`.
   * On a derived entry it is the stored integer duration again.
   */
  function ShownDuration(c: CalendarEvent): (minutes: int)
    ensures Derived(c) ==> minutes == c.source.duration
  {
    (c.end - c.start) / MsPerMinute
  }

  // ---------------------------------------------------------------------------
  // handleSelectSlot: minute truncation and the past-slot rule

  /** `setSeconds(0, 0)`: the start of the minute holding `t`. */
  function TruncateToMinute(t: int): (r: int)
    ensures r <= t < r + MsPerMinute
    ensures r % MsPerMinute == 0
  {
    t - t % MsPerMinute
  }

  /** Truncation keeps the order of instants. */
  lemma TruncateMonotone(a: int, b: int)
    requires a <= b
    ensures TruncateToMinute(a) <= TruncateToMinute(b)
  {
  }

  /**
   * `selected < new Date(now.setSeconds(0, 0))` on the truncated slot: a slot
   * is in the past exactly when it lies before the start of the current minute.
   */
  predicate InPast(slot: int, now: int)
    ensures InPast(slot, now) <==> slot < TruncateToMinute(now)
  {
    TruncateToMinute(slot) < TruncateToMinute(now)
  }

  /** Any slot from the current instant on, and any slot within the current minute, is accepted. */
  lemma CurrentAndFutureSlotsAccepted(slot: int, now: int)
    requires slot >= now || TruncateToMinute(slot) == TruncateToMinute(now)
    ensures !InPast(slot, now)
  {
  }

  // ---------------------------------------------------------------------------
  // handleSubmit: client-side validation

  /** The characters `String.prototype.trim` removes: WhiteSpace and LineTerminator. */
  predicate IsSpace(c: char) {
    || c == '\t' || c == '\n' || c == '\U{000B}' || c == '\U{000C}' || c == '\r' || c == ' '
    || c == '\U{00A0}' || c == '\U{1680}' || ('\U{2000}' <= c <= '\U{200A}')
    || c == '\U{2028}' || c == '\U{2029}' || c == '\U{202F}' || c == '\U{205F}'
    || c == '\U{3000}' || c == '\U{FEFF}'
  }

  /** `trimStart`: leading white space removed. */
  function TrimStart(s: string): string {
    if s != [] && IsSpace(s[0]) then TrimStart(s[1..]) else s
  }

  /** `trimEnd`: trailing white space removed. */
  function TrimEnd(s: string): string {
    if s != [] && IsSpace(s[|s| - 1]) then TrimEnd(s[..|s| - 1]) else s
  }

  /** Trimming the start leaves the longest suffix that does not start with white space. */
  lemma {:induction false} TrimStartSpec(s: string)
    ensures |TrimStart(s)| <= |s| && TrimStart(s) == s[|s| - |TrimStart(s)|..]
    ensures forall i :: 0 <= i < |s| - |TrimStart(s)| ==> IsSpace(s[i])
    ensures TrimStart(s) != [] ==> !IsSpace(TrimStart(s)[0])
  {
    if s != [] && IsSpace(s[0]) {
      TrimStartSpec(s[1..]);
      forall i | 1 <= i < |s| - |TrimStart(s)| ensures IsSpace(s[i]) {
        assert s[i] == s[1..][i - 1];
      }
    }
  }

  /** Trimming the end leaves the longest prefix that does not end with white space. */
  lemma {:induction false} TrimEndSpec(s: string)
    ensures |TrimEnd(s)| <= |s| && TrimEnd(s) == s[..|TrimEnd(s)|]
    ensures forall i :: |TrimEnd(s)| <= i < |s| ==> IsSpace(s[i])
    ensures TrimEnd(s) != [] ==> !IsSpace(TrimEnd(s)[|TrimEnd(s)| - 1])
  {
    if s != [] && IsSpace(s[|s| - 1]) {
      TrimEndSpec(s[..|s| - 1]);
      forall i | |TrimEnd(s)| <= i < |s| - 1 ensures IsSpace(s[i]) {
        assert s[i] == s[..|s| - 1][i];
      }
    }
  }

  /** Every character is white space (the empty string included). */
  predicate Blank(s: string) {
    forall i :: 0 <= i < |s| ==> IsSpace(s[i])
  }

  /** `s.trim()`, which is empty exactly for blank strings. */
  function Trim(s: string): (r: string)
    ensures r == "" <==> Blank(s)
  {
    TrimStartSpec(s);
    TrimEndSpec(TrimStart(s));
    TrimEnd(TrimStart(s))
  }

  /**
   * The two early returns of `handleSubmit`, in order: a blank name is refused
   * first, then a duration that is not positive (`!eventDuration` is the case
   * 0, covered again by `eventDuration <= 0`); the request goes out exactly
   * when the name has a non-space character and the duration is positive.
   */
  function SubmitCheck(name: string, duration: int): (a: Alert)
    ensures a == NameRequired <==> Blank(name)
    ensures a == InvalidDuration <==> !Blank(name) && duration <= 0
    ensures a == NoAlert <==> !Blank(name) && duration > 0
  {
    if Trim(name) == "" then NameRequired
    else if duration == 0 || duration <= 0 then InvalidDuration
    else NoAlert
  }

  // ---------------------------------------------------------------------------
  // handleSelectEvent: defaults

  /** `value || fallback` on an optional string. */
  function OrDefault(value: Option<string>, fallback: string): (r: string)
    ensures value.Some? && value.value != "" ==> r == value.value
    ensures value.None? || value == Some("") ==> r == fallback
  {
    if value.Some? && value.value != "" then value.value else fallback
  }

  // ---------------------------------------------------------------------------
  // The component

  class App {
    var events: seq<CalendarEvent>
    var modalIsOpen: bool
    var selectedSlot: Option<int>
    var eventName: string
    var eventDuration: int
    var selectedEvent: Option<CalendarEvent>
    var eventDescription: string
    var eventType: string

    /** The whole form state as one record. */
    ghost function State(): Form
      reads this
    {
      Form(events, modalIsOpen, selectedSlot, eventName, eventDuration,
           selectedEvent, eventDescription, eventType)
    }

    /**
     * Every rendered entry is derived from its fetched event, and the type
     * field (which has no input of its own) is never empty.
     */
    ghost predicate Valid()
      reads this
    {
      && (forall c :: c in events ==> Derived(c))
      && eventType != ""
    }

    /** The initial `useState` values. */
    constructor ()
      ensures Valid()
      ensures State() == Form([], false, None, "", DefaultDuration, None, "", DefaultType)
    {
      events := [];
      modalIsOpen := false;
      selectedSlot := None;
      eventName := "";
      eventDuration := DefaultDuration;
      selectedEvent := None;
      eventDescription := "";
      eventType := DefaultType;
    }

    /** `fetchEvents`, given the array the list endpoint returned. */
    method FetchEvents(data: seq<Fetched>)
      requires Valid()
      modifies this
      ensures Valid()
      ensures State() == old(State()).(events := ParseEvents(data))
    {
      events := ParseEvents(data);
    }

    /**
     * `handleSelectSlot`: a slot before the current minute raises an error
     * and changes nothing; otherwise the form opens empty on the truncated slot.
     */
    method SelectSlot(start: int, now: int) returns (alert: Alert)
      requires Valid()
      modifies this
      ensures Valid()
      ensures InPast(start, now) ==> alert == PastSlotError && State() == old(State())
      ensures !InPast(start, now) ==>
        && alert == NoAlert
        && State() == old(State()).(
             selectedSlot := Some(TruncateToMinute(start)),
             eventName := "",
             eventDuration := DefaultDuration,
             eventDescription := "",
             eventType := DefaultType,
             selectedEvent := None,
             modalIsOpen := true)
    {
      var selected := TruncateToMinute(start);
      if selected < TruncateToMinute(now) {
        return PastSlotError;
      }
      selectedSlot := Some(selected);
      eventName := "";
      eventDuration := DefaultDuration;
      eventDescription := "";
      eventType := DefaultType;
      selectedEvent := None;
      modalIsOpen := true;
      alert := NoAlert;
    }

    /**
     * `handleSelectEvent` on a rendered entry: the form shows the event,
     * with its stored duration recovered from `end - start`.
     */
    method SelectEvent(event: CalendarEvent)
      requires Valid() && event in events
      modifies this
      ensures Valid()
      ensures State() == old(State()).(
        selectedEvent := Some(event),
        selectedSlot := None,
        eventName := event.source.name,
        eventDuration := event.source.duration,
        eventDescription := OrDefault(event.source.description, ""),
        eventType := OrDefault(event.source.eventType, DefaultType),
        modalIsOpen := true)
    {
      selectedEvent := Some(event);
      selectedSlot := None;
      eventName := event.source.name;
      eventDuration := ShownDuration(event);
      eventDescription := OrDefault(event.source.description, "");
      eventType := OrDefault(event.source.eventType, DefaultType);
      modalIsOpen := true;
    }

    /**
     * `handleSubmit`. A failed client check raises its warning and sends
     * nothing. Without a selected slot `selectedSlot.toISOString()` throws, so
     * nothing is sent and nothing changes. Otherwise the payload is sent;
     * `ok`, `serverError` and `refetched` are the response status, its `error`
     * text and the list re-fetched after a success.
     */
    method Submit(ok: bool, serverError: string, refetched: seq<Fetched>) returns (request: Option<Payload>, alert: Alert)
      requires Valid()
      modifies this
      ensures Valid()
      ensures SubmitCheck(old(eventName), old(eventDuration)) != NoAlert ==>
        && request == None
        && alert == SubmitCheck(old(eventName), old(eventDuration))
        && State() == old(State())
      ensures SubmitCheck(old(eventName), old(eventDuration)) == NoAlert && old(selectedSlot).None? ==>
        request == None && alert == NoAlert && State() == old(State())
      ensures SubmitCheck(old(eventName), old(eventDuration)) == NoAlert && old(selectedSlot).Some? ==>
        && request == Some(Payload(old(eventName), old(selectedSlot).value, old(eventDuration),
                                   old(eventDescription), old(eventType)))
        && (ok ==>
              && alert == NoAlert
              && State() == old(State()).(
                   events := ParseEvents(refetched),
                   modalIsOpen := false,
                   eventName := "",
                   eventDuration := DefaultDuration,
                   eventDescription := "",
                   selectedSlot := None))
        && (!ok ==> alert == ServerError(serverError) && State() == old(State()))
      ensures request.Some? ==> request.value.eventType != ""
    {
      request := None;
      alert := SubmitCheck(eventName, eventDuration);
      if alert != NoAlert {
        return;
      }
      if selectedSlot.None? {
        return;
      }
      request := Some(Payload(eventName, selectedSlot.value, eventDuration, eventDescription, eventType));
      if ok {
        events := ParseEvents(refetched);
        modalIsOpen := false;
        eventName := "";
        eventDuration := DefaultDuration;
        eventDescription := "";
        selectedSlot := None;
      } else {
        alert := ServerError(serverError);
      }
    }

    /**
     * `handleDelete`. Nothing is sent without a selected event or without the
     * user's confirmation; after a successful delete the list is re-fetched
     * and the form is reset and closed; a failed one changes nothing.
     */
    method Delete(confirmed: bool, ok: bool, refetched: seq<Fetched>) returns (request: Option<nat>)
      requires Valid()
      modifies this
      ensures Valid()
      ensures old(selectedEvent).None? || !confirmed ==> request == None && State() == old(State())
      ensures old(selectedEvent).Some? && confirmed ==>
        && request == Some(old(selectedEvent).value.source.id)
        && (ok ==> State() == old(State()).(
              events := ParseEvents(refetched),
              modalIsOpen := false,
              selectedEvent := None,
              eventName := "",
              eventDuration := DefaultDuration,
              eventDescription := "",
              eventType := DefaultType))
        && (!ok ==> State() == old(State()))
    {
      if selectedEvent.None? {
        return None;
      }
      if !confirmed {
        return None;
      }
      request := Some(selectedEvent.value.source.id);
      if ok {
        events := ParseEvents(refetched);
        modalIsOpen := false;
        selectedEvent := None;
        eventName := "";
        eventDuration := DefaultDuration;
        eventDescription := "";
        eventType := DefaultType;
      }
    }

    /** The name input's `onChange`. */
    method EditName(value: string)
      requires Valid()
      modifies this
      ensures Valid()
      ensures State() == old(State()).(eventName := value)
    {
      eventName := value;
    }

    /** The duration input's `onChange`, with the input already read as an integer. */
    method EditDuration(value: int)
      requires Valid()
      modifies this
      ensures Valid()
      ensures State() == old(State()).(eventDuration := value)
    {
      eventDuration := value;
    }

    /** The modal's `onRequestClose`. */
    method CloseModal()
      requires Valid()
      modifies this
      ensures Valid()
      ensures State() == old(State()).(modalIsOpen := false)
    {
      modalIsOpen := false;
    }
  }
}
