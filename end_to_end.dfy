/**
 * How the client's requests meet the service: the payload `handleSubmit`
 * sends becomes a create body, and a stored document comes back to the
 * client as an element of the `GET /events` array.
 */
module EndToEnd {
  import opened Wrappers
  import EventStore
  import CalendarClient

  /** `JSON.stringify(payload)` read back by the service: all five fields present. */
  function ToBody(p: CalendarClient.Payload): (b: EventStore.CreateBody)
    ensures b.description == Some(p.description)
  {
    EventStore.CreateBody(Some(p.name), Some(p.time), Some(p.duration), Some(p.eventType), Some(p.description))
  }

  /** A stored document as the client reads it; the schema has no description. */
  function ToFetched(e: EventStore.Event): (f: CalendarClient.Fetched)
    ensures f.description == None
  {
    CalendarClient.Fetched(e.id, e.name, e.time, e.duration, Some(e.eventType), None)
  }

  /** The whole `GET /events` array as the client reads it. */
  function FetchAll(docs: seq<EventStore.Event>): (r: seq<CalendarClient.Fetched>)
    ensures |r| == |docs|
    ensures forall i :: 0 <= i < |docs| ==> r[i] == ToFetched(docs[i])
  {
    if docs == [] then [] else [ToFetched(docs[0])] + FetchAll(docs[1..])
  }

  /**
   * A payload that passed the client's checks, sent from a form whose type is
   * not empty, also passes the service's falsy-field guard.
   */
  lemma CheckedPayloadAccepted(p: CalendarClient.Payload, id: EventStore.Id)
    requires CalendarClient.SubmitCheck(p.name, p.duration) == CalendarClient.NoAlert
    requires p.eventType != ""
    ensures EventStore.Admit(ToBody(p), id).Some?
  {
  }

  /**
   * Duration to end to duration across the system: the document stored for a
   * checked payload is shown from `time` to `time + duration` minutes, its
   * detail view shows the submitted duration again, and its description
   * comes back empty.
   */
  lemma StoredEventRoundTrip(p: CalendarClient.Payload, id: EventStore.Id)
    requires CalendarClient.SubmitCheck(p.name, p.duration) == CalendarClient.NoAlert
    requires p.eventType != ""
    ensures EventStore.Admit(ToBody(p), id).Some?
    ensures var c := CalendarClient.ToCalendarEvent(ToFetched(EventStore.Admit(ToBody(p), id).value));
      && c.start == p.time
      && c.end == p.time + p.duration * CalendarClient.MsPerMinute
      && c.end > c.start
      && CalendarClient.ShownDuration(c) == p.duration
      && c.source.name == p.name
      && CalendarClient.OrDefault(c.source.eventType, CalendarClient.DefaultType) == p.eventType
      && CalendarClient.OrDefault(c.source.description, "") == ""
  {
    CheckedPayloadAccepted(p, id);
  }

  /**
   * Create an event an hour ahead for 30 minutes, list it, show it, then
   * delete it: the created event is listed and shown ending 30 minutes after
   * it starts, it is outside the weekly summary (which ends now), and it is
   * gone from the list after the delete.
   */
  method CreateShowDeleteScenario(now: int)
  {
    var store := new EventStore.Collection();
    var body := EventStore.CreateBody(Some("A"), Some(now + 3_600_000), Some(30), Some("Work"), None);
    var created := store.Create(body);
    assert created.Created201?;
    var a := created.event;

    var listed := store.ListAll();
    assert listed.events == [a];

    var shown := CalendarClient.ParseEvents(FetchAll(listed.events));
    assert shown[0].source == ToFetched(a);
    assert shown[0].end == shown[0].start + 30 * CalendarClient.MsPerMinute;

    var weekly := store.Summary(Some("weekly"), now, now);
    assert a !in weekly.events;

    var invalid := store.Summary(Some("yearly"), now, now);
    assert invalid == EventStore.BadRequest400(EventStore.InvalidRangeError);

    var deleted := store.Delete(a.id);
    assert deleted == EventStore.NoContent204;
    var after := store.ListAll();
    assert a !in after.events;

    var again := store.Delete(a.id);
    assert again == EventStore.NoContent204;
    var relisted := store.ListAll();
    assert relisted.events == after.events;
  }
}
