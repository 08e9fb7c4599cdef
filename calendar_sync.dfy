/**
 * The calendar side: the event body built for an exhibition, the calendar
 * service as a map from event id to event that accepts or refuses each
 * request, the summary-keyed index of listed events, the create-or-skip
 * sync loop and the best-effort cleanup loop, with the day windows they
 * list events in.
 */
module CalendarSync {
  import opened Wrappers
  import opened Text
  import opened Dates
  import opened Exhibitions

  /** The Python exceptions the calendar code can meet. */
  datatype Failure =
    | HttpError      // any refusal by the calendar service
    | ValueError     // `datetime.fromisoformat` of a malformed end date
    | OverflowError  // a date past 9999-12-31 or before 0001-01-01, or a `timedelta` too large

  // ---------------------------------------------------------------------
  // Event bodies
  // ---------------------------------------------------------------------

  /** An all-day date with its time zone. */
  datatype EventDate = EventDate(date: string, timeZone: string)

  datatype EventBody = EventBody(
    summary: string,
    location: string,
    description: string,
    start: EventDate,
    end: EventDate,
    transparency: string)

  const TimeZone: string := "America/New_York"

  /** `"{artist}: {title}"`: the event summary, and the key an exhibition is looked up by. */
  function DisplayTitle(e: Exhibition): (r: string)
    ensures |r| == |e.artist| + 2 + |e.title|
  {
    e.artist + ": " + e.title
  }

  /** For one artist, the display title tells titles apart. */
  lemma DisplayTitleSameArtist(a: Exhibition, b: Exhibition)
    requires a.artist == b.artist
    ensures DisplayTitle(a) == DisplayTitle(b) <==> a.title == b.title
  {
    if DisplayTitle(a) == DisplayTitle(b) {
      var n := |a.artist| + 2;
      assert a.title == DisplayTitle(a)[n..];
      assert b.title == DisplayTitle(b)[n..];
    }
  }

  /** Across artists it does not: an artist name containing ": " can collide. */
  lemma DisplayTitleCollides()
    ensures DisplayTitle(Exhibition("c", "a: b", "", "", "", "", "", "", "", "", "")) ==
            DisplayTitle(Exhibition("b: c", "a", "", "", "", "", "", "", "", "", ""))
  {
  }

  /** The event description: the exhibition's texts and links under fixed headings. */
  function Description(e: Exhibition): string
  {
    "EXHIBITION: " + e.title + "\n\nARTIST: " + e.artist +
    "\n\nABOUT THE EXHIBITION:\n" + e.description +
    "\n\nABOUT THE ARTIST:\n" + e.artistBio +
    "\n\nLINKS:\nExhibition: " + e.exhibitionUrl +
    "\nArtist: " + e.artistUrl +
    "\nGalleriesNow: " + e.galleriesnowUrl + "\n"
  }

  /**
   * `create_event_body`: an all-day, free-time event from the start date to
   * the day after the end date (the end of an all-day event is exclusive).
   * Fails where parsing the end date or stepping past it raises.
   */
  function CreateEventBody(e: Exhibition): (r: Result<EventBody, Failure>)
    ensures ParseIso(e.endDate).None? ==> r == Err(ValueError)
    ensures ParseIso(e.endDate) == Some(Date(MaxYear, 12, 31)) ==> r == Err(OverflowError)
    ensures r.Ok? ==> r.value.summary == DisplayTitle(e) && r.value.start.date == e.startDate
  {
    match ParseIso(e.endDate)
    case None => Err(ValueError)
    case Some(last) =>
      match NextDay(last)
      case None => Err(OverflowError)
      case Some(after) =>
        Ok(EventBody(
          summary := DisplayTitle(e),
          location := e.location,
          description := Description(e),
          start := EventDate(e.startDate, TimeZone),
          end := EventDate(FormatIso(after), TimeZone),
          transparency := "transparent"))
  }

  /** The body's end date is a date exactly one day after the exhibition's end date. */
  lemma EventEndIsNextDay(e: Exhibition)
    requires CreateEventBody(e).Ok?
    ensures ParseIso(e.endDate).Some?
    ensures var last := ParseIso(e.endDate).value;
      var end := ParseIso(CreateEventBody(e).value.end.date);
      end.Some? && DayNumber(end.value) == DayNumber(last) + 1
  {
    var last := ParseIso(e.endDate).value;
    var after := NextDay(last).value;
    ParseFormatRoundTrip(after);
    NextDayIsOneLater(last);
  }

  /** Every well-formed end date before 9999-12-31 gives a body. */
  lemma EventBodyExists(e: Exhibition)
    requires ParseIso(e.endDate).Some? && ParseIso(e.endDate).value != Date(MaxYear, 12, 31)
    ensures CreateEventBody(e).Ok?
  {
  }

  lemma EndAfter20260228(e: Exhibition)
    requires e.endDate == "2026-02-28"
    ensures CreateEventBody(e).Ok? && CreateEventBody(e).value.end.date == "2026-03-01"
  {
    Iso20260228();
    Iso20260301();
    assert !IsLeapYear(2026) && DaysInMonth(2026, 2) == 28;
    assert NextDay(Date(2026, 2, 28)) == Some(Date(2026, 3, 1));
  }

  lemma EndAfter20261231(e: Exhibition)
    requires e.endDate == "2026-12-31"
    ensures CreateEventBody(e).Ok? && CreateEventBody(e).value.end.date == "2027-01-01"
  {
    Iso20261231();
    Iso20270101();
  }

  lemma EndAfter20280228(e: Exhibition)
    requires e.endDate == "2028-02-28"
    ensures CreateEventBody(e).Ok? && CreateEventBody(e).value.end.date == "2028-02-29"
  {
    Iso20280228();
    Iso20280229();
  }

  // ---------------------------------------------------------------------
  // Day windows
  // ---------------------------------------------------------------------

  /** The half-open range of day numbers `[lo, hi)` events are listed in. */
  datatype Window = Window(lo: int, hi: int)

  predicate InWindow(w: Window, day: int) { w.lo <= day < w.hi }

  /** The sync window: from today's midnight to the midnight 365 days later. */
  function SyncWindow(today: int): (w: Window)
    ensures InWindow(w, today) && w.hi - w.lo == 365
  {
    Window(today, today + 365)
  }

  /** The cleanup window: the 365 days ending at the midnight `daysPast` days ago. */
  function CleanupWindow(today: int, daysPast: int): (w: Window)
    ensures w.hi == today - daysPast && w.hi - w.lo == 365
  {
    var cutoff := today - daysPast;
    Window(cutoff - 365, cutoff)
  }

  /** With at least one day past, today lies outside the cleanup window. */
  lemma CleanupSparesToday(today: int, daysPast: int)
    requires daysPast >= 1
    ensures !InWindow(CleanupWindow(today, daysPast), today)
  {
  }

  /** With no negative days past, the two windows share no day. */
  lemma CleanupBeforeSync(today: int, daysPast: int, day: int)
    requires daysPast >= 0
    ensures !(InWindow(CleanupWindow(today, daysPast), day) && InWindow(SyncWindow(today), day))
  {
  }

  // ---------------------------------------------------------------------
  // The calendar service
  // ---------------------------------------------------------------------

  /** A stored event: its server-assigned id and the body it was created from. */
  datatype CalendarEvent = CalendarEvent(id: nat, body: EventBody)

  /** The first day of an event and the day after its last, when its dates parse. */
  predicate Dated(ev: CalendarEvent)
  {
    ParseIso(ev.body.start.date).Some? && ParseIso(ev.body.end.date).Some?
  }

  function StartDay(ev: CalendarEvent): int
    requires Dated(ev)
  {
    DayNumber(ParseIso(ev.body.start.date).value)
  }

  /** The service lists the events that overlap the window: begun before its end, ending after its start. */
  predicate Overlaps(ev: CalendarEvent, w: Window)
  {
    Dated(ev) && StartDay(ev) < w.hi && DayNumber(ParseIso(ev.body.end.date).value) > w.lo
  }

  /** A request sent to the service, whether or not it succeeded. */
  datatype Request =
    | ListRequest(window: Window)
    | InsertRequest(body: EventBody)
    | DeleteRequest(eventId: nat)

  /**
   * The calendar: events by id, the next id to hand out and every request
   * received. Each request may be refused, standing for `HttpError`.
   */
  class CalendarService {
    var events: map<nat, CalendarEvent>
    var nextId: nat
    var requests: seq<Request>

    /** Stored events are keyed by their own ids, all below `nextId`. */
    predicate Valid()
      reads this
    {
      forall id :: id in events ==> id < nextId && events[id].id == id
    }

    constructor ()
      ensures Valid()
      ensures events == map[] && requests == []
    {
      events := map[];
      nextId := 0;
      requests := [];
    }

    /**
     * A possible answer to a listing: at most 100 distinct stored events,
     * each overlapping the window.
     */
    predicate Listing(items: seq<CalendarEvent>, w: Window)
      reads this
    {
      |items| <= 100 &&
      (forall i, j :: 0 <= i < j < |items| ==> items[i].id != items[j].id) &&
      forall x :: x in items ==> x.id in events && events[x.id] == x && Overlaps(x, w)
    }

    /** `events().list(...)`: stored events overlapping `w`, or a refusal. */
    method ListEvents(w: Window) returns (r: Result<seq<CalendarEvent>, Failure>)
      modifies this
      ensures events == old(events) && nextId == old(nextId)
      ensures requests == old(requests) + [ListRequest(w)]
      ensures r.Ok? ==> Listing(r.value, w)
      ensures r.Err? ==> r.error == HttpError
    {
      requests := requests + [ListRequest(w)];
      var refused: bool :| true;
      if refused {
        r := Err(HttpError);
      } else {
        assert Listing([], w);
        var items: seq<CalendarEvent> :| Listing(items, w);
        r := Ok(items);
      }
    }

    /** `events().insert(...)`: store the body under a fresh id, or refuse. */
    method Insert(body: EventBody) returns (r: Result<CalendarEvent, Failure>)
      requires Valid()
      modifies this
      ensures Valid()
      ensures requests == old(requests) + [InsertRequest(body)]
      ensures r.Ok? ==> (r.value == CalendarEvent(old(nextId), body) && old(nextId) !in old(events) &&
        events == old(events)[old(nextId) := r.value] && nextId == old(nextId) + 1)
      ensures r.Err? ==> r.error == HttpError && events == old(events) && nextId == old(nextId)
    {
      requests := requests + [InsertRequest(body)];
      var refused: bool :| true;
      if refused {
        r := Err(HttpError);
      } else {
        var ev := CalendarEvent(nextId, body);
        events := events[nextId := ev];
        nextId := nextId + 1;
        r := Ok(ev);
      }
    }

    /** `events().delete(...)`: remove a stored event, or refuse (always, for an unknown id). */
    method Delete(id: nat) returns (ok: bool)
      requires Valid()
      modifies this
      ensures Valid() && nextId == old(nextId)
      ensures requests == old(requests) + [DeleteRequest(id)]
      ensures ok ==> id in old(events) && events == old(events) - {id}
      ensures !ok ==> events == old(events)
    {
      requests := requests + [DeleteRequest(id)];
      var refused: bool :| true;
      if refused || id !in events {
        ok := false;
      } else {
        events := events - {id};
        ok := true;
      }
    }
  }

  // ---------------------------------------------------------------------
  // Existing events by summary
  // ---------------------------------------------------------------------

  /** `{e['summary']: e for e in events}`: a later event replaces an earlier one with the same summary. */
  function IndexBySummary(items: seq<CalendarEvent>): map<string, CalendarEvent>
  {
    if items == [] then map[]
    else
      var last := items[|items| - 1];
      IndexBySummary(items[..|items| - 1])[last.body.summary := last]
  }

  /** The summaries of a list of events. */
  function Summaries(items: seq<CalendarEvent>): set<string>
  {
    set x | x in items :: x.body.summary
  }

  /** The index is keyed by exactly the listed summaries. */
  lemma {:induction false} IndexBySummaryKeys(items: seq<CalendarEvent>)
    ensures IndexBySummary(items).Keys == Summaries(items)
  {
    if items != [] {
      var n := |items| - 1;
      IndexBySummaryKeys(items[..n]);
      assert items == items[..n] + [items[n]];
      assert Summaries(items) == Summaries(items[..n]) + {items[n].body.summary};
    }
  }

  /** `items[i]` is the last of `items` whose summary is `k`. */
  predicate LastWith(items: seq<CalendarEvent>, k: string, i: int)
  {
    0 <= i < |items| && items[i].body.summary == k &&
    forall j :: i < j < |items| ==> items[j].body.summary != k
  }

  /** Under each summary the index holds the last listed event with that summary. */
  lemma {:induction false} IndexBySummaryLastWins(items: seq<CalendarEvent>)
    ensures forall k :: k in IndexBySummary(items) ==>
      exists i :: LastWith(items, k, i) && items[i] == IndexBySummary(items)[k]
  {
    if items != [] {
      var n := |items| - 1;
      var prefix := items[..n];
      IndexBySummaryLastWins(prefix);
      var m := IndexBySummary(items);
      forall k | k in m
        ensures exists i :: LastWith(items, k, i) && items[i] == m[k]
      {
        if k == items[n].body.summary {
          assert LastWith(items, k, n);
        } else {
          assert m == IndexBySummary(prefix)[items[n].body.summary := items[n]];
          assert k in IndexBySummary(prefix) && m[k] == IndexBySummary(prefix)[k];
          var i :| LastWith(prefix, k, i) && prefix[i] == IndexBySummary(prefix)[k];
          assert LastWith(items, k, i);
        }
      }
    }
  }

  /** Every indexed event is one of the listed events. */
  lemma {:induction false} IndexedAreListed(items: seq<CalendarEvent>)
    ensures forall k :: k in IndexBySummary(items) ==> IndexBySummary(items)[k] in items
  {
    if items != [] {
      IndexedAreListed(items[..|items| - 1]);
    }
  }

  /**
   * `get_existing_events`: the listed events in `w` by summary, or an empty
   * map when the listing is refused. `listed` is the service's answer.
   */
  method GetExistingEvents(service: CalendarService, w: Window)
    returns (existing: map<string, CalendarEvent>, ghost listed: Option<seq<CalendarEvent>>)
    modifies service
    ensures service.events == old(service.events) && service.nextId == old(service.nextId)
    ensures service.requests == old(service.requests) + [ListRequest(w)]
    ensures listed.None? ==> existing == map[]
    ensures listed.Some? ==> (old(service.Listing(listed.value, w)) && service.Listing(listed.value, w) &&
      existing == IndexBySummary(listed.value))
  {
    var r := service.ListEvents(w);
    if r.Err? {
      existing, listed := map[], None;
    } else {
      existing, listed := IndexBySummary(r.value), Some(r.value);
    }
  }

  // ---------------------------------------------------------------------
  // Sync
  // ---------------------------------------------------------------------

  /** An exhibition the sync gets past: already present, or with a body that can be built. */
  predicate Passes(ex: Exhibition, existing: map<string, CalendarEvent>)
  {
    DisplayTitle(ex) in existing || CreateEventBody(ex).Ok?
  }

  /** The requests syncing one exhibition that passes sends: an insert unless it is present. */
  function SyncRequests(ex: Exhibition, existing: map<string, CalendarEvent>): seq<Request>
    requires Passes(ex, existing)
  {
    if DisplayTitle(ex) in existing then [] else [InsertRequest(CreateEventBody(ex).value)]
  }

  /** The insert requests the sync sends for `exs`: one per exhibition not already present. */
  function InsertRequests(exs: seq<Exhibition>, existing: map<string, CalendarEvent>): seq<Request>
    requires forall ex :: ex in exs ==> Passes(ex, existing)
  {
    if exs == [] then []
    else
      var last := exs[|exs| - 1];
      assert last in exs && Passes(last, existing);
      assert forall ex :: ex in exs[..|exs| - 1] ==> ex in exs;
      InsertRequests(exs[..|exs| - 1], existing) + SyncRequests(last, existing)
  }

  /** How many of `exs` have a display title in `existing`. */
  function CountPresent(exs: seq<Exhibition>, existing: map<string, CalendarEvent>): (n: nat)
    ensures n <= |exs|
  {
    if exs == [] then 0
    else CountPresent(exs[..|exs| - 1], existing) + (if DisplayTitle(exs[|exs| - 1]) in existing then 1 else 0)
  }

  /**
   * Insert requests are counted per exhibition, not per display title: the
   * map is not updated as events are created.
   */
  lemma {:induction false} InsertRequestsCount(exs: seq<Exhibition>, existing: map<string, CalendarEvent>)
    requires forall ex :: ex in exs ==> Passes(ex, existing)
    ensures |InsertRequests(exs, existing)| == |exs| - CountPresent(exs, existing)
  {
    if exs != [] {
      InsertRequestsCount(exs[..|exs| - 1], existing);
    }
  }

  /** Two exhibitions with one new display title each get an insert request. */
  lemma SameTitleInsertedTwice(a: Exhibition, b: Exhibition, existing: map<string, CalendarEvent>)
    requires DisplayTitle(a) == DisplayTitle(b) && DisplayTitle(a) !in existing
    requires CreateEventBody(a).Ok? && CreateEventBody(b).Ok?
    ensures |InsertRequests([a, b], existing)| == 2
  {
    InsertRequestsCount([a, b], existing);
    assert [a, b][..1] == [a];
    assert [a][..0] == [];
  }

  /** Extending the synced prefix by one exhibition that passes. */
  lemma SyncPrefixStep(exs: seq<Exhibition>, i: nat, existing: map<string, CalendarEvent>)
    requires i < |exs| && Passes(exs[i], existing)
    requires forall ex :: ex in exs[..i] ==> Passes(ex, existing)
    ensures forall ex :: ex in exs[..i + 1] ==> Passes(ex, existing)
    ensures InsertRequests(exs[..i + 1], existing) == InsertRequests(exs[..i], existing) + SyncRequests(exs[i], existing)
    ensures CountPresent(exs[..i + 1], existing) ==
      CountPresent(exs[..i], existing) + (if DisplayTitle(exs[i]) in existing then 1 else 0)
  {
    assert exs[..i + 1] == exs[..i] + [exs[i]];
    assert exs[..i + 1][..i] == exs[..i];
  }

  /** Every event of `before` is still stored in `after`, unchanged, under its id. */
  predicate KeepsEvents(before: map<nat, CalendarEvent>, after: map<nat, CalendarEvent>)
  {
    forall id :: id in before ==> id in after && after[id] == before[id]
  }

  /** `ev` holds the event body of `ex`, an exhibition whose display title was not listed. */
  predicate CreatedFor(ex: Exhibition, existing: map<string, CalendarEvent>, ev: CalendarEvent)
  {
    DisplayTitle(ex) !in existing && CreateEventBody(ex).Ok? && ev.body == CreateEventBody(ex).value
  }

  /** Every event of `after` missing from `before` was created for one of the first `n` of `exs`. */
  predicate NewEventsFrom(before: map<nat, CalendarEvent>, after: map<nat, CalendarEvent>,
                          exs: seq<Exhibition>, n: int, existing: map<string, CalendarEvent>)
  {
    forall id :: id in after && id !in before ==>
      exists j :: 0 <= j < n && j < |exs| && CreatedFor(exs[j], existing, after[id])
  }

  /** One more exhibition synced: the calendar is unchanged, or gained one event created for `exs[i]`. */
  lemma NewEventsStep(initial: map<nat, CalendarEvent>, mid: map<nat, CalendarEvent>, after: map<nat, CalendarEvent>,
                      exs: seq<Exhibition>, i: nat, existing: map<string, CalendarEvent>, id: nat)
    requires i < |exs| && KeepsEvents(initial, mid) && NewEventsFrom(initial, mid, exs, i, existing)
    requires after == mid ||
      (id !in mid && id in after && after == mid[id := after[id]] && CreatedFor(exs[i], existing, after[id]))
    ensures KeepsEvents(initial, after) && NewEventsFrom(initial, after, exs, i + 1, existing)
  {
    forall k | k in after && k !in initial
      ensures exists j :: 0 <= j < i + 1 && j < |exs| && CreatedFor(exs[j], existing, after[k])
    {
      if k in mid {
        var j :| 0 <= j < i && j < |exs| && CreatedFor(exs[j], existing, mid[k]);
        assert CreatedFor(exs[j], existing, after[k]);
      } else {
        assert CreatedFor(exs[i], existing, after[k]);
      }
    }
  }

  /** Counting only the first `m` exhibitions as sources is the stronger statement. */
  lemma NewEventsFromGrows(before: map<nat, CalendarEvent>, after: map<nat, CalendarEvent>,
                           exs: seq<Exhibition>, m: int, n: int, existing: map<string, CalendarEvent>)
    requires m <= n && NewEventsFrom(before, after, exs, m, existing)
    ensures NewEventsFrom(before, after, exs, n, existing)
  {
    forall k | k in after && k !in before
      ensures exists j :: 0 <= j < n && j < |exs| && CreatedFor(exs[j], existing, after[k])
    {
      var j :| 0 <= j < m && j < |exs| && CreatedFor(exs[j], existing, after[k]);
    }
  }

  /**
   * `sync_exhibition_to_calendar`: `Ok(false)` without any request when the
   * display title is present; otherwise the body is built (its failure
   * escapes as `Err`) and inserted, `Ok(true)` exactly when the insert
   * succeeds, and then the calendar holds that body under the fresh id.
   */
  method SyncExhibition(service: CalendarService, ex: Exhibition, existing: map<string, CalendarEvent>)
    returns (r: Result<bool, Failure>)
    requires service.Valid()
    modifies service
    ensures service.Valid()
    ensures r.Ok? <==> Passes(ex, existing)
    ensures DisplayTitle(ex) in existing ==> r == Ok(false)
    ensures r.Err? ==> r.error == CreateEventBody(ex).error && service.requests == old(service.requests)
    ensures r.Ok? ==> service.requests == old(service.requests) + SyncRequests(ex, existing)
    ensures r == Ok(true) ==> (old(service.nextId) !in old(service.events) &&
      old(service.nextId) in service.events && CreatedFor(ex, existing, service.events[old(service.nextId)]) &&
      service.events == old(service.events)[old(service.nextId) := CalendarEvent(old(service.nextId), CreateEventBody(ex).value)] &&
      |service.events| == |old(service.events)| + 1 && service.nextId == old(service.nextId) + 1)
    ensures r != Ok(true) ==> service.events == old(service.events) && service.nextId == old(service.nextId)
  {
    if DisplayTitle(ex) in existing {
      return Ok(false);
    }
    var body := CreateEventBody(ex);
    if body.Err? {
      return Err(body.error);
    }
    var inserted := service.Insert(body.value);
    r := Ok(inserted.Ok?);
  }

  /**
   * The loop of `sync_all_exhibitions`: sync each exhibition against the one
   * map `existing`, counting `(created, skipped)`; the first body failure
   * stops the loop and escapes. Stored events are never touched, and every
   * new event holds the body of an exhibition whose title was not listed.
   */
  method SyncEach(service: CalendarService, exs: seq<Exhibition>, existing: map<string, CalendarEvent>)
    returns (r: Result<(nat, nat), Failure>)
    requires service.Valid()
    modifies service
    ensures service.Valid()
    ensures r.Ok? <==> forall ex :: ex in exs ==> Passes(ex, existing)
    ensures r.Ok? ==> r.value.0 + r.value.1 == |exs| && CountPresent(exs, existing) <= r.value.1
    ensures r.Ok? ==> |service.events| == |old(service.events)| + r.value.0
    ensures r.Ok? ==> service.requests == old(service.requests) + InsertRequests(exs, existing)
    ensures r.Err? ==> exists i :: (0 <= i < |exs| && !Passes(exs[i], existing) &&
      (forall j :: 0 <= j < i ==> Passes(exs[j], existing)) &&
      r.error == CreateEventBody(exs[i]).error &&
      service.requests == old(service.requests) + InsertRequests(exs[..i], existing))
    ensures KeepsEvents(old(service.events), service.events)
    ensures NewEventsFrom(old(service.events), service.events, exs, |exs|, existing)
  {
    var created, skipped := 0, 0;
    var i := 0;
    ghost var base := service.requests;
    ghost var initial := service.events;
    while i < |exs|
      invariant i <= |exs| && service.Valid()
      invariant forall ex :: ex in exs[..i] ==> Passes(ex, existing)
      invariant created + skipped == i && CountPresent(exs[..i], existing) <= skipped
      invariant |service.events| == |old(service.events)| + created
      invariant service.requests == base + InsertRequests(exs[..i], existing)
      invariant KeepsEvents(initial, service.events) && NewEventsFrom(initial, service.events, exs, i, existing)
    {
      var step := SyncStep(service, exs, i, existing, base, initial, created, skipped);
      if step.Err? {
        assert exs[i] in exs;
        r := Err(step.error);
        return;
      }
      created, skipped := step.value.0, step.value.1;
      i := i + 1;
    }
    assert exs[..i] == exs;
    r := Ok((created, skipped));
  }

  /**
   * One turn of the loop in `sync_all_exhibitions`: sync `exs[i]` and carry
   * the counters, the request log and the calendar's contents forward.
   */
  method SyncStep(service: CalendarService, exs: seq<Exhibition>, i: nat, existing: map<string, CalendarEvent>,
                  ghost base: seq<Request>, ghost initial: map<nat, CalendarEvent>, created: nat, skipped: nat)
    returns (r: Result<(nat, nat), Failure>)
    requires service.Valid() && i < |exs|
    requires forall ex :: ex in exs[..i] ==> Passes(ex, existing)
    requires CountPresent(exs[..i], existing) <= skipped
    requires service.requests == base + InsertRequests(exs[..i], existing)
    requires KeepsEvents(initial, service.events) && NewEventsFrom(initial, service.events, exs, i, existing)
    modifies service
    ensures service.Valid()
    ensures r.Ok? <==> Passes(exs[i], existing)
    ensures r.Err? ==> (r.error == CreateEventBody(exs[i]).error && service.requests == old(service.requests))
    ensures r.Err? ==> (forall j :: 0 <= j < i ==> Passes(exs[j], existing))
    ensures r.Ok? ==> (forall ex :: ex in exs[..i + 1] ==> Passes(ex, existing))
    ensures r.Ok? ==> (r.value.0 + r.value.1 == created + skipped + 1 &&
      CountPresent(exs[..i + 1], existing) <= r.value.1 &&
      |service.events| + created == |old(service.events)| + r.value.0 &&
      service.requests == base + InsertRequests(exs[..i + 1], existing))
    ensures KeepsEvents(initial, service.events)
    ensures NewEventsFrom(initial, service.events, exs, if r.Ok? then i + 1 else |exs|, existing)
  {
    var ok := SyncTracking(service, exs, i, existing, initial);
    if ok.Err? {
      assert forall j :: 0 <= j < i ==> exs[j] in exs[..i];
      return Err(ok.error);
    }
    SyncPrefixStep(exs, i, existing);
    assert service.requests == base + (InsertRequests(exs[..i], existing) + SyncRequests(exs[i], existing));
    if ok.value {
      r := Ok((created + 1, skipped));
    } else {
      r := Ok((created, skipped + 1));
    }
  }

  /**
   * `SyncExhibition` on `exs[i]`, carrying forward that the calendar keeps
   * its first events and that the others were created for `exs[..i]`.
   */
  method SyncTracking(service: CalendarService, exs: seq<Exhibition>, i: nat, existing: map<string, CalendarEvent>,
                      ghost initial: map<nat, CalendarEvent>)
    returns (r: Result<bool, Failure>)
    requires service.Valid() && i < |exs|
    requires KeepsEvents(initial, service.events) && NewEventsFrom(initial, service.events, exs, i, existing)
    modifies service
    ensures service.Valid()
    ensures r.Ok? <==> Passes(exs[i], existing)
    ensures r.Err? ==> r.error == CreateEventBody(exs[i]).error && service.requests == old(service.requests)
    ensures r.Ok? ==> service.requests == old(service.requests) + SyncRequests(exs[i], existing)
    ensures DisplayTitle(exs[i]) in existing ==> r == Ok(false)
    ensures r.Ok? ==> |service.events| == |old(service.events)| + (if r.value then 1 else 0)
    ensures r.Err? ==> service.events == old(service.events)
    ensures KeepsEvents(initial, service.events)
    ensures NewEventsFrom(initial, service.events, exs, if r.Ok? then i + 1 else |exs|, existing)
  {
    ghost var before, id := service.events, service.nextId;
    r := SyncExhibition(service, exs[i], existing);
    NewEventsStep(initial, before, service.events, exs, i, existing, id);
    if r.Err? {
      NewEventsFromGrows(initial, service.events, exs, i + 1, |exs|, existing);
    }
  }

  /** `today + timedelta(days=365)` stays within the dates `datetime` can represent. */
  predicate SyncWindowFits(today: int)
  {
    today + 365 <= LastDay
  }

  /**
   * `sync_all_exhibitions`: compute the sync window (past 9999-12-31 that
   * raises `OverflowError` before any request), list it once, then sync
   * each exhibition against that map. Returns `(created, skipped)`, or the
   * first failure; `listed` is the service's answer and `existing` the map
   * built from it that the exhibitions were checked against.
   */
  method SyncAllExhibitions(service: CalendarService, exs: seq<Exhibition>, today: int)
    returns (r: Result<(nat, nat), Failure>, ghost existing: map<string, CalendarEvent>,
             ghost listed: Option<seq<CalendarEvent>>)
    requires service.Valid()
    modifies service
    ensures service.Valid()
    ensures !SyncWindowFits(today) ==> (r == Err(OverflowError) && listed == None && existing == map[] &&
      service.events == old(service.events) && service.requests == old(service.requests))
    ensures listed.None? ==> existing == map[]
    ensures listed.Some? ==> old(service.Listing(listed.value, SyncWindow(today))) && existing == IndexBySummary(listed.value)
    ensures r.Ok? <==> SyncWindowFits(today) && forall ex :: ex in exs ==> Passes(ex, existing)
    ensures r.Ok? ==> r.value.0 + r.value.1 == |exs| && CountPresent(exs, existing) <= r.value.1
    ensures r.Ok? ==> |service.events| == |old(service.events)| + r.value.0
    ensures r.Ok? ==> (service.requests ==
      old(service.requests) + [ListRequest(SyncWindow(today))] + InsertRequests(exs, existing))
    ensures r.Err? && SyncWindowFits(today) ==> exists i :: (0 <= i < |exs| && !Passes(exs[i], existing) &&
      (forall j :: 0 <= j < i ==> Passes(exs[j], existing)) &&
      r.error == CreateEventBody(exs[i]).error &&
      service.requests == old(service.requests) + [ListRequest(SyncWindow(today))] + InsertRequests(exs[..i], existing))
    ensures KeepsEvents(old(service.events), service.events)
    ensures NewEventsFrom(old(service.events), service.events, exs, |exs|, existing)
  {
    if !SyncWindowFits(today) {
      existing, listed := map[], None;
      return Err(OverflowError), existing, listed;
    }
    var known;
    known, listed := GetExistingEvents(service, SyncWindow(today));
    existing := known;
    r := SyncEach(service, exs, known);
  }

  // ---------------------------------------------------------------------
  // Cleanup
  // ---------------------------------------------------------------------

  /** One delete request per id in `order`. */
  function DeleteRequests(order: seq<nat>): (r: seq<Request>)
    ensures |r| == |order|
  {
    if order == [] then [] else DeleteRequests(order[..|order| - 1]) + [DeleteRequest(order[|order| - 1])]
  }

  /** The ids of the indexed events. */
  function Targets(existing: map<string, CalendarEvent>): set<nat>
  {
    set k | k in existing :: existing[k].id
  }

  /** The events indexed from a listing are stored events overlapping the listed window. */
  lemma TargetsAreListed(service: CalendarService, listed: seq<CalendarEvent>, w: Window)
    requires service.Listing(listed, w)
    ensures forall id :: id in Targets(IndexBySummary(listed)) ==>
      id in service.events && Overlaps(service.events[id], w)
  {
    IndexedAreListed(listed);
  }

  /** An event the cleanup window lists began before the cutoff, so never today when `daysPast >= 1`. */
  lemma CleanupTargetsStartBeforeCutoff(ev: CalendarEvent, today: int, daysPast: int)
    requires Overlaps(ev, CleanupWindow(today, daysPast))
    ensures StartDay(ev) < today - daysPast
    ensures daysPast >= 1 ==> StartDay(ev) < today
  {
  }

  /** One turn of the loop in `delete_past_events`: delete `id` and count it when the service agrees. */
  method DeleteStep(service: CalendarService, id: nat, ghost initial: map<nat, CalendarEvent>,
                    ghost removed: set<nat>, deleted: nat)
    returns (deleted': nat, ghost removed': set<nat>)
    requires service.Valid() && removed <= initial.Keys && service.events == initial - removed
    requires deleted == |removed|
    modifies service
    ensures service.Valid() && service.nextId == old(service.nextId)
    ensures removed' <= initial.Keys && service.events == initial - removed' && deleted' == |removed'|
    ensures removed <= removed' <= removed + {id} && deleted' <= deleted + 1
    ensures service.requests == old(service.requests) + [DeleteRequest(id)]
  {
    var ok := service.Delete(id);
    deleted', removed' := deleted, removed;
    if ok {
      deleted', removed' := deleted + 1, removed + {id};
    }
  }

  /**
   * The loop of `delete_past_events`: one delete request per indexed event,
   * in `order`, going on past refusals. Returns how many deletions succeeded;
   * `removed` holds their ids.
   */
  method DeleteEach(service: CalendarService, existing: map<string, CalendarEvent>)
    returns (deleted: nat, ghost removed: set<nat>, ghost order: seq<nat>)
    requires service.Valid()
    modifies service
    ensures service.Valid() && service.nextId == old(service.nextId)
    ensures removed <= old(service.events).Keys && service.events == old(service.events) - removed
    ensures removed <= Targets(existing)
    ensures deleted == |removed| <= |existing|
    ensures |order| == |existing| && forall id :: id in order <==> id in Targets(existing)
    ensures service.requests == old(service.requests) + DeleteRequests(order)
  {
    ghost var initial := service.events;
    removed, order := {}, [];
    deleted := 0;
    var keys := existing.Keys;
    while keys != {}
      invariant keys <= existing.Keys && |order| + |keys| == |existing|
      invariant service.Valid() && service.nextId == old(service.nextId)
      invariant removed <= initial.Keys && service.events == initial - removed
      invariant deleted == |removed| <= |order|
      invariant forall id :: id in removed ==> id in order
      invariant forall id :: id in order ==> id in Targets(existing)
      invariant forall k :: k in existing && k !in keys ==> existing[k].id in order
      invariant service.requests == old(service.requests) + DeleteRequests(order)
      decreases |keys|
    {
      var k :| k in keys;
      var id := existing[k].id;
      deleted, removed := DeleteStep(service, id, initial, removed, deleted);
      assert (order + [id])[..|order|] == order;
      order := order + [id];
      keys := keys - {k};
    }
    forall id | id in Targets(existing)
      ensures id in order
    {
      var k :| k in existing && existing[k].id == id;
    }
  }

  /**
   * `timedelta(days=daysPast)` exists (at most 999999999 days either way),
   * and the cutoff and the day 365 days before it are representable dates.
   */
  predicate CleanupWindowFits(today: int, daysPast: int)
  {
    -999999999 <= daysPast <= 999999999 && 1 <= today - daysPast - 365 && today - daysPast <= LastDay
  }

  /**
   * `delete_past_events`: compute the cleanup window (raising
   * `OverflowError` before any request when it leaves the representable
   * dates), list it once and delete each indexed event. Every deleted event
   * was a stored event the window listed; at most one delete is attempted
   * per listed summary. `listed` is the service's answer.
   */
  method DeletePastEvents(service: CalendarService, today: int, daysPast: int := 30)
    returns (r: Result<nat, Failure>, ghost existing: map<string, CalendarEvent>,
             ghost listed: Option<seq<CalendarEvent>>, ghost removed: set<nat>)
    requires service.Valid()
    modifies service
    ensures service.Valid() && service.nextId == old(service.nextId)
    ensures r.Ok? <==> CleanupWindowFits(today, daysPast)
    ensures r.Err? ==> (r.error == OverflowError && listed == None && existing == map[] && removed == {} &&
      service.requests == old(service.requests))
    ensures listed.None? ==> existing == map[]
    ensures listed.Some? ==> (old(service.Listing(listed.value, CleanupWindow(today, daysPast))) &&
      existing == IndexBySummary(listed.value) && existing.Keys == Summaries(listed.value))
    ensures service.events == old(service.events) - removed
    ensures r.Ok? ==> r.value == |removed| <= |existing|
    ensures r.Ok? && listed.Some? ==> r.value <= |Summaries(listed.value)|
    ensures removed <= Targets(existing)
    ensures forall id :: id in removed ==>
      id in old(service.events) && Overlaps(old(service.events)[id], CleanupWindow(today, daysPast))
    ensures r.Ok? ==> exists order: seq<nat> :: (|order| == |existing| &&
      (forall id :: id in order <==> id in Targets(existing)) &&
      service.requests == old(service.requests) + [ListRequest(CleanupWindow(today, daysPast))] + DeleteRequests(order))
  {
    if !CleanupWindowFits(today, daysPast) {
      existing, listed, removed := map[], None, {};
      return Err(OverflowError), existing, listed, removed;
    }
    var known;
    known, listed := GetExistingEvents(service, CleanupWindow(today, daysPast));
    existing := known;
    if listed.Some? {
      TargetsAreListed(service, listed.value, CleanupWindow(today, daysPast));
      IndexBySummaryKeys(listed.value);
    }
    var deleted;
    ghost var order;
    deleted, removed, order := DeleteEach(service, known);
    r := Ok(deleted);
  }
}
