/** The calendar service: the iCloud credential check, the lazily cached
    CalDAV client and calendar, the conversion of each found event, the
    upcoming-events filter and sort, and today's events sort.  CalDAV
    itself is an input: the calendars the principal lists and the events a
    search returns (or the error either raised).  `datetime.fromisoformat`
    is a parameter.  Times are counted in microseconds from
    0001-01-01 00:00, so `datetime.min` in UTC is instant 0. */
module CalendarService {
  import opened Wrappers
  import opened PyText
  import opened Sequences
  import opened StableSort
  import opened ConfigService

  // ---------------------------------------------------------------------
  // Date-times

  /** A `datetime`: its wall-clock reading and, when it is aware, its UTC
      offset. */
  datatype DateTime = DateTime(wall: nat, offset: Option<int>)

  predicate Aware(dt: DateTime) {
    dt.offset.Some?
  }

  /** The UTC instant of an aware datetime; aware datetimes compare by it. */
  function Instant(dt: DateTime): int {
    dt.wall - (if dt.offset.Some? then dt.offset.value else 0)
  }

  /** `datetime.min.replace(tzinfo=pytz.UTC)`. */
  const MinInstant: int := 0

  /** `pytz.UTC.localize` applied to a naive datetime; an aware one is kept. */
  function Localized(dt: DateTime): (r: DateTime)
    ensures Aware(r) && r.wall == dt.wall
    ensures Aware(dt) ==> r == dt
    ensures !Aware(dt) ==> r.offset == Some(0)
  {
    if dt.offset.None? then DateTime(dt.wall, Some(0)) else dt
  }

  /** The value of a `DTSTART` or `DTEND` property. */
  datatype DtValue =
    | DateValue(day: nat)
    | DateTimeValue(dt: DateTime)
    | TextValue(text: string)
    | OtherValue

  /** The text handed to `fromisoformat`: every 'Z' replaced by "+00:00". */
  function IsoText(text: string): (t: string)
    ensures 'Z' !in t
    ensures 'Z' !in text ==> t == text
  {
    ReplaceChar(text, 'Z', "+00:00")
  }

  /** `_parse_datetime`: a datetime is made aware (naive ones as UTC); a
      string goes through `fromisoformat` after the 'Z' replacement and is
      made aware the same way; an unparseable string and any other value
      give `None`. */
  function ParseDatetime(v: DtValue, fromIso: string -> Option<DateTime>): (r: Option<DateTime>)
    ensures r.Some? ==> Aware(r.value)
    ensures v.DateTimeValue? && Aware(v.dt) ==> r == Some(v.dt)
    ensures v.DateTimeValue? && !Aware(v.dt) ==> r == Some(DateTime(v.dt.wall, Some(0)))
    ensures v.TextValue? ==> (r.Some? <==> fromIso(IsoText(v.text)).Some?)
    ensures v.TextValue? && r.Some? ==>
      && r.value.wall == fromIso(IsoText(v.text)).value.wall
      && (Aware(fromIso(IsoText(v.text)).value) ==> r.value == fromIso(IsoText(v.text)).value)
      && (!Aware(fromIso(IsoText(v.text)).value) ==> r.value.offset == Some(0))
    ensures v.DateValue? || v.OtherValue? ==> r.None?
  {
    match v
    case DateTimeValue(dt) => Some(Localized(dt))
    case TextValue(text) =>
      (match fromIso(IsoText(text))
       case Some(parsed) => Some(Localized(parsed))
       case None => None)
    case _ => None
  }

  // ---------------------------------------------------------------------
  // Events

  /** A property of a VEVENT: missing, present without a value (reading
      `.value` raises), or present with a value. */
  datatype Prop<T> = Missing | Valueless | Present(value: T)

  datatype VEvent = VEvent(summary: Prop<string>, dtstart: Prop<DtValue>, dtend: Prop<DtValue>,
                           location: Prop<string>, description: Prop<string>)

  /** One event a search returned: its id and its VEVENT, or `None` when
      reading the VEVENT raised. */
  datatype Found = Found(id: string, vevent: Option<VEvent>)

  /** An entry of `get_upcoming_events`. */
  datatype Event = Event(id: string, title: string, start: Option<DateTime>, end: Option<DateTime>,
                         location: Option<string>, description: Option<string>, allDay: bool)

  /** An entry of `get_today_events`. */
  datatype TodayEvent = TodayEvent(title: string, start: Option<DateTime>, location: Option<string>,
                                   allDay: bool)

  /** `_is_all_day_event`: the start has a value and it is not a datetime. */
  predicate IsAllDay(v: VEvent) {
    v.dtstart.Present? && !v.dtstart.value.DateTimeValue?
  }

  /** A text property: `None` when missing, a failure when it has no value. */
  function ReadText(p: Prop<string>): Result<Option<string>> {
    match p
    case Missing => Success(None)
    case Valueless => Failure("property has no value")
    case Present(s) => Success(Some(s))
  }

  /** A time property, parsed by `_parse_datetime`. */
  function ReadTime(p: Prop<DtValue>, fromIso: string -> Option<DateTime>): Result<Option<DateTime>> {
    match p
    case Missing => Success(None)
    case Valueless => Failure("property has no value")
    case Present(v) => Success(ParseDatetime(v, fromIso))
  }

  function OrNoTitle(title: Option<string>): string {
    if title.Some? then title.value else "No Title"
  }

  /** The dictionary built for one event in `get_upcoming_events`, or the
      failure that makes the loop skip it. */
  function UpcomingEntry(f: Found, fromIso: string -> Option<DateTime>): (r: Result<Event>)
    ensures r.Failure? <==>
      (f.vevent.None? ||
       f.vevent.value.summary.Valueless? || f.vevent.value.dtstart.Valueless? ||
       f.vevent.value.dtend.Valueless? || f.vevent.value.location.Valueless? ||
       f.vevent.value.description.Valueless?)
    ensures r.Success? ==> r.value.title == OrNoTitle(if f.vevent.value.summary.Present?
                                                      then Some(f.vevent.value.summary.value) else None)
    ensures r.Success? ==> f.vevent.Some? && r.value.id == f.id && r.value.allDay == IsAllDay(f.vevent.value)
    ensures r.Success? ==> r.value.start == (if f.vevent.value.dtstart.Present?
                                             then ParseDatetime(f.vevent.value.dtstart.value, fromIso) else None)
    ensures r.Success? ==> r.value.end == (if f.vevent.value.dtend.Present?
                                           then ParseDatetime(f.vevent.value.dtend.value, fromIso) else None)
    ensures r.Success? ==> r.value.location == (if f.vevent.value.location.Present?
                                                then Some(f.vevent.value.location.value) else None)
    ensures r.Success? ==> r.value.description == (if f.vevent.value.description.Present?
                                                   then Some(f.vevent.value.description.value) else None)
  {
    if f.vevent.None? then Failure("event could not be read")
    else
      var v := f.vevent.value;
      var title := ReadText(v.summary);
      var start := ReadTime(v.dtstart, fromIso);
      var end := ReadTime(v.dtend, fromIso);
      var location := ReadText(v.location);
      var description := ReadText(v.description);
      if title.Failure? || start.Failure? || end.Failure? || location.Failure? || description.Failure? then
        Failure("event could not be read")
      else
        Success(Event(f.id, OrNoTitle(title.value), start.value, end.value, location.value,
                      description.value, IsAllDay(v)))
  }

  /** The dictionary built for one event in `get_today_events`, or the
      failure that makes the loop skip it. */
  function TodayEntry(f: Found, fromIso: string -> Option<DateTime>): (r: Result<TodayEvent>)
    ensures r.Failure? <==>
      (f.vevent.None? ||
       f.vevent.value.summary.Valueless? || f.vevent.value.dtstart.Valueless? ||
       f.vevent.value.location.Valueless?)
    ensures r.Success? ==> f.vevent.Some? && r.value.allDay == IsAllDay(f.vevent.value)
    ensures r.Success? ==> r.value.title == OrNoTitle(if f.vevent.value.summary.Present?
                                                      then Some(f.vevent.value.summary.value) else None)
    ensures r.Success? ==> r.value.start == (if f.vevent.value.dtstart.Present?
                                             then ParseDatetime(f.vevent.value.dtstart.value, fromIso) else None)
    ensures r.Success? ==> r.value.location == (if f.vevent.value.location.Present?
                                                then Some(f.vevent.value.location.value) else None)
  {
    if f.vevent.None? then Failure("event could not be read")
    else
      var v := f.vevent.value;
      var title := ReadText(v.summary);
      var start := ReadTime(v.dtstart, fromIso);
      var location := ReadText(v.location);
      if title.Failure? || start.Failure? || location.Failure? then
        Failure("event could not be read")
      else
        Success(TodayEvent(OrNoTitle(title.value), start.value, location.value, IsAllDay(v)))
  }

  /** An all-day event whose start is a date, not a string, has no parsed
      start; a start that is a datetime always parses.  So apart from
      string-valued starts, an event is all-day exactly when it has a start
      property that `_parse_datetime` turns into `None`. */
  lemma AllDayHasNoStart(v: VEvent, fromIso: string -> Option<DateTime>)
    requires !(v.dtstart.Present? && v.dtstart.value.TextValue?)
    ensures IsAllDay(v) <==> v.dtstart.Present? && ParseDatetime(v.dtstart.value, fromIso).None?
  {
  }

  // ---------------------------------------------------------------------
  // Upcoming events

  /** Whether the loop of `get_upcoming_events` appends an event: it was
      read, and it has a start strictly after `now`. */
  function AcceptUpcoming(f: Found, now: int, fromIso: string -> Option<DateTime>): (r: Option<Event>)
    ensures r.Some? ==> r.value.start.Some? && Aware(r.value.start.value) && Instant(r.value.start.value) > now
    ensures r.Some? <==> UpcomingEntry(f, fromIso).Success? && UpcomingEntry(f, fromIso).value.start.Some? &&
                         Instant(UpcomingEntry(f, fromIso).value.start.value) > now
    ensures r.Some? ==> UpcomingEntry(f, fromIso) == Success(r.value)
  {
    match UpcomingEntry(f, fromIso)
    case Failure(_) => None
    case Success(e) => if e.start.Some? && Instant(e.start.value) > now then Some(e) else None
  }

  function UpcomingStep(now: int, fromIso: string -> Option<DateTime>): Found -> Option<Event> {
    f => AcceptUpcoming(f, now, fromIso)
  }

  /** The events the loop appends, in search order. */
  function Upcoming(found: seq<Found>, now: int, fromIso: string -> Option<DateTime>): seq<Event> {
    FilterMap(found, UpcomingStep(now, fromIso))
  }

  /** The sort key of both lists: the start's instant, and `datetime.min`
      for an event without a start (which the upcoming list never holds). */
  function StartKey(e: Event): int {
    if e.start.Some? then Instant(e.start.value) else MinInstant
  }

  function TodayKey(e: TodayEvent): int {
    if e.start.Some? then Instant(e.start.value) else MinInstant
  }

  /** What `get_upcoming_events` returns when the calendar and the search
      succeed: the appended events, sorted by start. */
  function UpcomingEvents(found: seq<Found>, now: int, fromIso: string -> Option<DateTime>): seq<Event> {
    SortByKey(Upcoming(found, now, fromIso), StartKey)
  }

  /** The loop of `get_upcoming_events`. */
  method CollectUpcoming(found: seq<Found>, now: int, fromIso: string -> Option<DateTime>)
    returns (eventList: seq<Event>)
    ensures eventList == Upcoming(found, now, fromIso)
  {
    eventList := [];
    var i := 0;
    while i < |found|
      invariant 0 <= i <= |found|
      invariant eventList == Upcoming(found[..i], now, fromIso)
    {
      var entry := UpcomingEntry(found[i], fromIso);
      if entry.Success? {
        var eventData := entry.value;
        if eventData.start.Some? && Instant(eventData.start.value) > now {
          eventList := eventList + [eventData];
        }
      }
      FilterMapSnoc(found, i, UpcomingStep(now, fromIso));
      i := i + 1;
    }
    assert found[..i] == found;
  }

  /** The upcoming list is sorted by start, holds only events with a start
      strictly after `now`, holds the appended events and nothing else, and
      keeps search order among events with the same start. */
  lemma UpcomingEventsSorted(found: seq<Found>, now: int, fromIso: string -> Option<DateTime>)
    ensures var r := UpcomingEvents(found, now, fromIso);
      SortedBy(r, StartKey) &&
      multiset(r) == multiset(Upcoming(found, now, fromIso)) &&
      (forall t :: WithKey(r, StartKey, t) == WithKey(Upcoming(found, now, fromIso), StartKey, t)) &&
      (forall k :: 0 <= k < |r| ==> r[k].start.Some? && Instant(r[k].start.value) > now)
  {
    var appended := Upcoming(found, now, fromIso);
    var r := UpcomingEvents(found, now, fromIso);
    SortByKeySpec(appended, StartKey);
    forall k | 0 <= k < |r| ensures r[k].start.Some? && Instant(r[k].start.value) > now {
      assert r[k] in multiset(appended);
      FilterMapMembers(found, UpcomingStep(now, fromIso), r[k]);
    }
  }

  /** An event is listed exactly when it was read and starts after `now`. */
  lemma UpcomingExactly(found: seq<Found>, now: int, fromIso: string -> Option<DateTime>, e: Event)
    ensures e in UpcomingEvents(found, now, fromIso) <==>
      exists i :: 0 <= i < |found| && UpcomingEntry(found[i], fromIso) == Success(e) &&
                  e.start.Some? && Instant(e.start.value) > now
  {
    var appended := Upcoming(found, now, fromIso);
    SortByKeyPermutes(appended, StartKey);
    assert e in UpcomingEvents(found, now, fromIso) <==> e in appended by {
      assert e in multiset(UpcomingEvents(found, now, fromIso)) <==> e in multiset(appended);
    }
    FilterMapMembers(found, UpcomingStep(now, fromIso), e);
  }

  /** An event that fails to be read is skipped and nothing else changes. */
  lemma UpcomingSkipsUnreadable(before: seq<Found>, bad: Found, after: seq<Found>,
                                now: int, fromIso: string -> Option<DateTime>)
    requires UpcomingEntry(bad, fromIso).Failure?
    ensures UpcomingEvents(before + [bad] + after, now, fromIso) == UpcomingEvents(before + after, now, fromIso)
  {
    FilterMapSkip(before, bad, after, UpcomingStep(now, fromIso));
  }

  /** An all-day event dated by a date value is never upcoming. */
  lemma AllDayNeverUpcoming(f: Found, now: int, fromIso: string -> Option<DateTime>)
    requires f.vevent.Some? && f.vevent.value.dtstart.Present? && f.vevent.value.dtstart.value.DateValue?
    ensures AcceptUpcoming(f, now, fromIso).None?
  {
  }

  // ---------------------------------------------------------------------
  // Today's events

  function TodayStep(fromIso: string -> Option<DateTime>): Found -> Option<TodayEvent> {
    f => (match TodayEntry(f, fromIso) case Success(e) => Some(e) case Failure(_) => None)
  }

  /** The events the loop of `get_today_events` appends: all that were read. */
  function Today(found: seq<Found>, fromIso: string -> Option<DateTime>): seq<TodayEvent> {
    FilterMap(found, TodayStep(fromIso))
  }

  function TodayEvents(found: seq<Found>, fromIso: string -> Option<DateTime>): seq<TodayEvent> {
    SortByKey(Today(found, fromIso), TodayKey)
  }

  /** The loop of `get_today_events`. */
  method CollectToday(found: seq<Found>, fromIso: string -> Option<DateTime>)
    returns (eventList: seq<TodayEvent>)
    ensures eventList == Today(found, fromIso)
  {
    eventList := [];
    var i := 0;
    while i < |found|
      invariant 0 <= i <= |found|
      invariant eventList == Today(found[..i], fromIso)
    {
      var entry := TodayEntry(found[i], fromIso);
      if entry.Success? {
        eventList := eventList + [entry.value];
      }
      FilterMapSnoc(found, i, TodayStep(fromIso));
      i := i + 1;
    }
    assert found[..i] == found;
  }

  /** Today's list is sorted by start with start-less events keyed as
      `datetime.min`, so they come before every event starting after it;
      it holds every event that was read, and keeps search order among
      equal keys. */
  lemma TodayEventsSorted(found: seq<Found>, fromIso: string -> Option<DateTime>)
    ensures var r := TodayEvents(found, fromIso);
      SortedBy(r, TodayKey) &&
      multiset(r) == multiset(Today(found, fromIso)) &&
      (forall t :: WithKey(r, TodayKey, t) == WithKey(Today(found, fromIso), TodayKey, t)) &&
      (forall i, j ::
         (0 <= i < |r| && 0 <= j < |r| && r[i].start.None? && r[j].start.Some? &&
          Instant(r[j].start.value) > MinInstant) ==> i < j)
  {
    var r := TodayEvents(found, fromIso);
    SortByKeySpec(Today(found, fromIso), TodayKey);
    forall i, j | 0 <= i < |r| && 0 <= j < |r| && r[i].start.None? && r[j].start.Some? &&
                  Instant(r[j].start.value) > MinInstant
      ensures i < j
    {
      assert TodayKey(r[i]) < TodayKey(r[j]);
    }
  }

  /** An event is listed exactly when it was read. */
  lemma TodayExactly(found: seq<Found>, fromIso: string -> Option<DateTime>, e: TodayEvent)
    ensures e in TodayEvents(found, fromIso) <==>
      exists i :: 0 <= i < |found| && TodayEntry(found[i], fromIso) == Success(e)
  {
    var appended := Today(found, fromIso);
    SortByKeyPermutes(appended, TodayKey);
    assert e in TodayEvents(found, fromIso) <==> e in appended by {
      assert e in multiset(TodayEvents(found, fromIso)) <==> e in multiset(appended);
    }
    FilterMapMembers(found, TodayStep(fromIso), e);
  }

  lemma TodaySkipsUnreadable(before: seq<Found>, bad: Found, after: seq<Found>,
                             fromIso: string -> Option<DateTime>)
    requires TodayEntry(bad, fromIso).Failure?
    ensures TodayEvents(before + [bad] + after, fromIso) == TodayEvents(before + after, fromIso)
  {
    FilterMapSkip(before, bad, after, TodayStep(fromIso));
  }

  // ---------------------------------------------------------------------
  // The service

  /** The CalDAV client: where it connects and with which credentials. */
  datatype Client = Client(url: string, username: Value, password: Value)

  const ICloudUrl: string := "https://caldav.icloud.com/"

  const CredentialsRequired: string := "Apple ID and App Password are required"

  class Calendar {
    const config: Config
    var client: Option<Client>
    var calendar: Option<string>

    constructor(config: Config)
      ensures this.config == config && client.None? && calendar.None?
    {
      this.config := config;
      client := None;
      calendar := None;
    }

    /** A credential given by the caller, or the configured one when the
        given one is falsy. */
    function Credential(given: Value, key: string): (v: Value)
      reads config
      ensures Truthy(given) ==> v == given
      ensures !Truthy(given) ==> v == GetOr(config.GetConfig(), key, Null)
    {
      if Truthy(given) then given else config.Get(key, Null)
    }

    /** `_get_client`: fails with the credentials message when the Apple ID
        or the app password is still falsy after the configuration
        fallback; otherwise a client for iCloud with those credentials. */
    function GetClient(appleId: Value, appPassword: Value): (r: Result<Client>)
      reads config
      ensures r.Failure? <==> !Truthy(Credential(appleId, "apple_id")) || !Truthy(Credential(appPassword, "app_password"))
      ensures r.Failure? ==> r.error == CredentialsRequired
      ensures r.Success? ==>
        (r.value.url == ICloudUrl && r.value.username == Credential(appleId, "apple_id") &&
         r.value.password == Credential(appPassword, "app_password"))
    {
      var id := Credential(appleId, "apple_id");
      var password := Credential(appPassword, "app_password");
      if !Truthy(id) || !Truthy(password) then Failure(CredentialsRequired)
      else Success(Client(ICloudUrl, id, password))
    }

    /** What `_get_calendar` returns: the cached calendar, else the first
        one the principal lists; it fails when no client can be made, when
        listing fails, or when there is no calendar. */
    function CalendarOutcome(calendars: Result<seq<string>>): Result<string>
      reads this, config
    {
      if client.None? && GetClient(Null, Null).Failure? then Failure(GetClient(Null, Null).error)
      else if calendar.Some? then Success(calendar.value)
      else if calendars.Failure? then Failure(calendars.error)
      else if calendars.value == [] then Failure("No calendars found")
      else Success(calendars.value[0])
    }

    /** `_get_calendar`: make and cache the client and the calendar when
        they are not cached yet. */
    method GetCalendar(calendars: Result<seq<string>>) returns (r: Result<string>)
      modifies this
      ensures r == old(CalendarOutcome(calendars))
      ensures client == if old(client).None? && GetClient(Null, Null).Success?
                        then Some(GetClient(Null, Null).value) else old(client)
      ensures calendar == if r.Success? then Some(r.value) else old(calendar)
    {
      if client.None? {
        var made := GetClient(Null, Null);
        if made.Failure? {
          return Failure(made.error);
        }
        client := Some(made.value);
      }
      if calendar.None? {
        if calendars.Failure? {
          return Failure(calendars.error);
        }
        if calendars.value == [] {
          return Failure("No calendars found");
        }
        calendar := Some(calendars.value[0]);
      }
      r := Success(calendar.value);
    }

    /** `get_upcoming_events`: any failure before or during the search
        gives the empty list. */
    method GetUpcomingEvents(now: int, calendars: Result<seq<string>>, search: Result<seq<Found>>,
                             fromIso: string -> Option<DateTime>)
      returns (events: seq<Event>)
      modifies this
      ensures old(CalendarOutcome(calendars)).Failure? || search.Failure? ==> events == []
      ensures old(CalendarOutcome(calendars)).Success? && search.Success? ==>
        events == UpcomingEvents(search.value, now, fromIso)
      ensures client == if old(client).None? && GetClient(Null, Null).Success?
                        then Some(GetClient(Null, Null).value) else old(client)
      ensures calendar == if old(CalendarOutcome(calendars)).Success?
                          then Some(old(CalendarOutcome(calendars)).value) else old(calendar)
    {
      var cal := GetCalendar(calendars);
      if cal.Failure? || search.Failure? {
        return [];
      }
      var eventList := CollectUpcoming(search.value, now, fromIso);
      eventList := SortByKey(eventList, StartKey);
      events := eventList;
    }

    /** `get_today_events`: any failure before or during the search gives
        the empty list. */
    method GetTodayEvents(calendars: Result<seq<string>>, search: Result<seq<Found>>,
                          fromIso: string -> Option<DateTime>)
      returns (events: seq<TodayEvent>)
      modifies this
      ensures old(CalendarOutcome(calendars)).Failure? || search.Failure? ==> events == []
      ensures old(CalendarOutcome(calendars)).Success? && search.Success? ==>
        events == TodayEvents(search.value, fromIso)
      ensures client == if old(client).None? && GetClient(Null, Null).Success?
                        then Some(GetClient(Null, Null).value) else old(client)
      ensures calendar == if old(CalendarOutcome(calendars)).Success?
                          then Some(old(CalendarOutcome(calendars)).value) else old(calendar)
    {
      var cal := GetCalendar(calendars);
      if cal.Failure? || search.Failure? {
        return [];
      }
      var eventList := CollectToday(search.value, fromIso);
      eventList := SortByKey(eventList, TodayKey);
      events := eventList;
    }
  }
}
