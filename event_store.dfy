/**
 * The event store service: the `Event` schema and the handlers of
 * `GET /events`, `GET /summary`, `POST /events` and `DELETE /events/:id`.
 * The document collection is an in-memory sequence of events in the
 * store's natural order, with a counter standing in for fresh ids.
 */
module EventStore {
  import opened Wrappers

  type Id = nat

  /** Milliseconds in one day; timestamps are integer milliseconds. */
  const MsPerDay: int := 86_400_000
  /** The weekly window: seven days of 86400000 ms each. */
  const WeekMs: int := 7 * MsPerDay

  const InvalidRangeError: string := "Invalid range. Use weekly or monthly."
  const MissingFieldError: string := "Missing name, time, duration, or type"

  /** A stored document: the store-assigned id and exactly the four schema fields. */
  datatype Event = Event(id: Id, name: string, time: int, duration: int, eventType: string)

  /**
   * The JSON body of a create request; `None` is an absent field. `time` is
   * the instant (ms) of the ISO string the client sends, which is never falsy
   * when present. `description` is accepted in the body but not in the schema.
   */
  datatype CreateBody = CreateBody(
    name: Option<string>,
    time: Option<int>,
    duration: Option<int>,
    eventType: Option<string>,
    description: Option<string>)

  /** HTTP responses: status code and JSON body. */
  datatype Response =
    | Ok200(events: seq<Event>)
    | Created201(event: Event)
    | NoContent204
    | BadRequest400(error: string)

  /** The two accepted values of the `range` query parameter. */
  datatype Range = Weekly | Monthly

  // ---------------------------------------------------------------------------
  // Validation of a create request

  /** JavaScript truthiness of an optional string field: present and not "". */
  predicate TruthyString(field: Option<string>) {
    field.Some? && field.value != ""
  }

  /** JavaScript truthiness of an optional number field: present and not 0. */
  predicate TruthyNumber(field: Option<int>) {
    field.Some? && field.value != 0
  }

  /**
   * The guard `!name || !time || !duration || !type`: a field is missing when
   * it is absent or holds the falsy value of its type ("" or 0).
   */
  predicate MissingRequired(body: CreateBody)
    ensures MissingRequired(body) <==>
      || body.name in {None, Some("")}
      || body.time == None
      || body.duration in {None, Some(0)}
      || body.eventType in {None, Some("")}
  {
    || !TruthyString(body.name)
    || body.time.None?
    || !TruthyNumber(body.duration)
    || !TruthyString(body.eventType)
  }

  /**
   * The document a create request would store under `id`, or `None` when the
   * request is rejected. Only the four schema fields are copied.
   */
  function Admit(body: CreateBody, id: Id): (r: Option<Event>)
    ensures r.None? <==> MissingRequired(body)
    ensures r.Some? ==>
      && r.value.id == id
      && Some(r.value.name) == body.name
      && Some(r.value.time) == body.time
      && Some(r.value.duration) == body.duration
      && Some(r.value.eventType) == body.eventType
  {
    if MissingRequired(body) then None
    else Some(Event(id, body.name.value, body.time.value, body.duration.value, body.eventType.value))
  }

  /** A duration of 0 is indistinguishable from a missing one. */
  lemma ZeroDurationRejected(body: CreateBody, id: Id)
    requires body.duration == Some(0)
    ensures Admit(body, id) == None
  {
  }

  /** Every nonzero duration passes the guard, negative ones included. */
  lemma NonzeroDurationAccepted(body: CreateBody, d: int, id: Id)
    requires TruthyString(body.name) && body.time.Some? && TruthyString(body.eventType)
    requires d != 0
    ensures Admit(body.(duration := Some(d)), id).Some?
    ensures Admit(body.(duration := Some(d)), id).value.duration == d
  {
  }

  /** An empty name or type is rejected like a missing one. */
  lemma EmptyStringRejected(body: CreateBody, id: Id)
    requires body.name == Some("") || body.eventType == Some("")
    ensures Admit(body, id) == None
  {
  }

  /** The description never reaches the stored document. */
  lemma DescriptionDropped(body: CreateBody, description: Option<string>, id: Id)
    ensures Admit(body.(description := description), id) == Admit(body, id)
  {
  }

  // ---------------------------------------------------------------------------
  // The summary window

  /** `range === 'weekly'` / `range === 'monthly'`; anything else, absent included, is invalid. */
  function ParseRange(query: Option<string>): (r: Option<Range>)
    ensures r == Some(Weekly) <==> query == Some("weekly")
    ensures r == Some(Monthly) <==> query == Some("monthly")
    ensures r.None? <==> query != Some("weekly") && query != Some("monthly")
  {
    match query
    case Some(s) =>
      if s == "weekly" then Some(Weekly)
      else if s == "monthly" then Some(Monthly)
      else None
    case None => None
  }

  /**
   * The start of the window ending at `now`. `monthAgo` is the instant the
   * Date library gives for `now` with its calendar month decreased by one.
   */
  function WindowStart(range: Range, now: int, monthAgo: int): (start: int)
    ensures range == Weekly ==> start == now - WeekMs
    ensures range == Monthly ==> start == monthAgo
    ensures (range == Weekly || monthAgo <= now) ==> start <= now
  {
    match range
    case Weekly => now - WeekMs
    case Monthly => monthAgo
  }

  /** The query `{ time: { $gte: lo, $lte: hi } }`, keeping the natural order. */
  function FindBetween(docs: seq<Event>, lo: int, hi: int): (r: seq<Event>)
    ensures forall e :: e in r <==> e in docs && lo <= e.time <= hi
    ensures forall e :: multiset(r)[e] == if lo <= e.time <= hi then multiset(docs)[e] else 0
    ensures |r| <= |docs|
    ensures (forall e :: e in docs ==> lo <= e.time <= hi) ==> r == docs
  {
    if docs == [] then []
    else
      assert docs == [docs[0]] + docs[1..];
      if lo <= docs[0].time <= hi then [docs[0]] + FindBetween(docs[1..], lo, hi)
      else FindBetween(docs[1..], lo, hi)
  }

  /** With an empty store every window is empty, not an error. */
  lemma EmptyStoreEmptyWindow(lo: int, hi: int)
    ensures FindBetween([], lo, hi) == []
  {
  }

  /** The weekly window ending at `now` holds `now` itself and an event three days old, but not one eight days old. */
  lemma WeeklyWindowExamples(docs: seq<Event>, now: int, monthAgo: int, recent: Event, old8: Event)
    requires recent in docs && old8 in docs
    requires recent.time == now - 3 * MsPerDay && old8.time == now - 8 * MsPerDay
    ensures recent in FindBetween(docs, WindowStart(Weekly, now, monthAgo), now)
    ensures old8 !in FindBetween(docs, WindowStart(Weekly, now, monthAgo), now)
    ensures forall e :: e in docs && e.time == now ==> e in FindBetween(docs, WindowStart(Weekly, now, monthAgo), now)
  {
  }

  // ---------------------------------------------------------------------------
  // Deletion

  /** The collection after `findByIdAndDelete(id)`: the document with that id, if any, is gone. */
  function WithoutId(docs: seq<Event>, id: Id): (r: seq<Event>)
    ensures forall e :: e in r <==> e in docs && e.id != id
    ensures forall e :: multiset(r)[e] == if e.id != id then multiset(docs)[e] else 0
    ensures (forall e :: e in docs ==> e.id != id) ==> r == docs
    ensures |r| <= |docs|
  {
    if docs == [] then []
    else
      assert docs == [docs[0]] + docs[1..];
      if docs[0].id == id then WithoutId(docs[1..], id)
      else [docs[0]] + WithoutId(docs[1..], id)
  }

  /** Deleting the same id twice is the same as deleting it once. */
  lemma DeleteIdempotent(docs: seq<Event>, id: Id)
    ensures WithoutId(WithoutId(docs, id), id) == WithoutId(docs, id)
  {
  }

  /** No two documents of the collection share an id. */
  ghost predicate DistinctIds(docs: seq<Event>) {
    forall i, j :: 0 <= i < j < |docs| ==> docs[i].id != docs[j].id
  }

  /** Dropping the first document keeps ids distinct. */
  lemma DistinctTail(docs: seq<Event>)
    requires docs != [] && DistinctIds(docs)
    ensures DistinctIds(docs[1..])
    ensures forall e :: e in docs[1..] ==> e.id != docs[0].id
  {
  }

  /** A document whose id no other document has can be put in front. */
  lemma DistinctCons(x: Event, rest: seq<Event>)
    requires DistinctIds(rest)
    requires forall e :: e in rest ==> e.id != x.id
    ensures DistinctIds([x] + rest)
  {
  }

  /** Deletion keeps ids distinct. */
  lemma {:induction false} WithoutIdDistinct(docs: seq<Event>, id: Id)
    requires DistinctIds(docs)
    ensures DistinctIds(WithoutId(docs, id))
  {
    if docs != [] {
      DistinctTail(docs);
      WithoutIdDistinct(docs[1..], id);
      if docs[0].id != id {
        DistinctCons(docs[0], WithoutId(docs[1..], id));
      }
    }
  }

  /** A deletion that finds its document removes exactly one. */
  lemma {:induction false} WithoutIdRemovesOne(docs: seq<Event>, id: Id, k: nat)
    requires DistinctIds(docs)
    requires k < |docs| && docs[k].id == id
    ensures |WithoutId(docs, id)| == |docs| - 1
  {
    DistinctTail(docs);
    if k != 0 {
      assert docs[0].id != docs[k].id;
      assert docs[1..][k - 1] == docs[k];
      WithoutIdRemovesOne(docs[1..], id, k - 1);
    }
  }

  // ---------------------------------------------------------------------------
  // The collection and its handlers

  class Collection {
    /** The stored documents in natural order. */
    var docs: seq<Event>
    /** The next id the store hands out. */
    var nextId: Id

    ghost predicate Valid()
      reads this
    {
      && DistinctIds(docs)
      && (forall e :: e in docs ==> e.id < nextId)
    }

    /** An empty collection. */
    constructor ()
      ensures Valid()
      ensures docs == [] && nextId == 0
    {
      docs := [];
      nextId := 0;
    }

    /** `GET /events`: every stored document, and nothing else, with 200. */
    method ListAll() returns (resp: Response)
      ensures resp.Ok200?
      ensures resp.events == docs
    {
      resp := Ok200(docs);
    }

    /**
     * `GET /summary?range=…`: 400 for an invalid range, independent of the
     * store; otherwise the documents with `start <= time <= now`.
     */
    method Summary(range: Option<string>, now: int, monthAgo: int) returns (resp: Response)
      ensures ParseRange(range).None? ==> resp == BadRequest400(InvalidRangeError)
      ensures ParseRange(range).Some? ==>
        && resp.Ok200?
        && var start := WindowStart(ParseRange(range).value, now, monthAgo);
           && resp == Ok200(FindBetween(docs, start, now))
           && forall e :: e in resp.events <==> e in docs && start <= e.time <= now
      ensures ParseRange(range).Some? && docs == [] ==> resp == Ok200([])
    {
      var startDate: int;
      if range == Some("weekly") {
        startDate := now - WeekMs;
      } else if range == Some("monthly") {
        startDate := monthAgo;
      } else {
        return BadRequest400(InvalidRangeError);
      }
      resp := Ok200(FindBetween(docs, startDate, now));
    }

    /**
     * `POST /events`: 400 and no change when a required field is falsy;
     * otherwise one new document under a fresh id, returned with 201.
     */
    method Create(body: CreateBody) returns (resp: Response)
      requires Valid()
      modifies this
      ensures Valid()
      ensures MissingRequired(body) ==>
        && resp == BadRequest400(MissingFieldError)
        && docs == old(docs) && nextId == old(nextId)
      ensures !MissingRequired(body) ==>
        && resp.Created201?
        && Some(resp.event) == Admit(body, old(nextId))
        && (forall e :: e in old(docs) ==> e.id != resp.event.id)
        && docs == old(docs) + [resp.event]
        && nextId == old(nextId) + 1
    {
      var admitted := Admit(body, nextId);
      if admitted.None? {
        return BadRequest400(MissingFieldError);
      }
      docs := docs + [admitted.value];
      nextId := nextId + 1;
      resp := Created201(admitted.value);
    }

    /** `DELETE /events/:id`: always 204; the document with that id, if any, is removed. */
    method Delete(id: Id) returns (resp: Response)
      requires Valid()
      modifies this
      ensures Valid()
      ensures resp == NoContent204
      ensures docs == WithoutId(old(docs), id)
      ensures forall k :: 0 <= k < |old(docs)| && old(docs)[k].id == id ==> |docs| == |old(docs)| - 1
      ensures nextId == old(nextId)
    {
      WithoutIdDistinct(docs, id);
      forall k | 0 <= k < |docs| && docs[k].id == id
        ensures |WithoutId(docs, id)| == |docs| - 1
      {
        WithoutIdRemovesOne(docs, id, k);
      }
      docs := WithoutId(docs, id);
      resp := NoContent204;
    }
  }
}
