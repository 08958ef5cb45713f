/** `SecurityMonitor`: a newest-first log of security events, capped at
    1000, persisted to `localStorage`, with one-hour threshold alerts and
    per-type counts. Timestamps are milliseconds since the epoch; the
    current time, the user and the user agent are parameters. */
module SecurityMonitor {
  import opened Common

  const MAX_EVENTS: nat := 1000
  const DEFAULT_RECENT: int := 50
  const HOUR_MS: int := 60 * 60 * 1000
  const FAILURE_THRESHOLD: nat := 5
  const LOGIN_THRESHOLD: nat := 3
  const EVENTS_KEY: string := "neuroLift_security_events"

  datatype EventType = AuthAttempt | AuthSuccess | AuthFailure | DataAccess | SuspiciousActivity

  datatype SecurityEvent = SecurityEvent(
    eventType: EventType,
    userId: Option<string>,
    details: map<string, string>,
    timestamp: int,
    userAgent: string)

  /** The two alert messages, in the order they are raised. */
  datatype Alert = MultipleFailures | MultipleLogins

  const FAILURES_TEXT: string := "Multiple authentication failures detected"
  const LOGINS_TEXT: string := "Multiple logins from different locations detected"

  /** What `localStorage.getItem` followed by `JSON.parse` yields: no value,
      text that does not parse, or a list of events. */
  datatype StoredEvents = Missing | Corrupt | Parsed(events: seq<SecurityEvent>)

  // ---------------------------------------------------------------------
  // Queries.

  /** The end index of `slice(0, limit)`: a negative limit counts from the
      end. */
  function SliceEnd(n: nat, limit: int): (e: nat)
    ensures e <= n
    ensures limit >= 0 ==> e == (if limit <= n then limit else n)
    ensures limit < 0 ==> e == (if n + limit < 0 then 0 else n + limit)
  {
    if limit >= 0 then (if limit <= n then limit else n)
    else if n + limit < 0 then 0 else n + limit
  }

  /** `getRecentEvents(limit)`, with `None` for an omitted limit. */
  function RecentEvents(events: seq<SecurityEvent>, limit: Option<int>): (r: seq<SecurityEvent>)
    ensures |r| <= |events| && r == events[..|r|]
    ensures limit.None? ==> |r| == (if |events| <= DEFAULT_RECENT then |events| else DEFAULT_RECENT)
    ensures limit.Some? && limit.value >= 0 ==> |r| == (if |events| <= limit.value then |events| else limit.value)
  {
    var l := if limit.None? then DEFAULT_RECENT else limit.value;
    events[..SliceEnd(|events|, l)]
  }

  /** Events of the given type strictly newer than `since`. */
  function CountRecent(events: seq<SecurityEvent>, t: EventType, since: int): (c: nat)
    ensures c <= |events|
  {
    if events == [] then 0
    else
      var last := events[|events| - 1];
      CountRecent(events[..|events| - 1], t, since) + (if last.eventType == t && last.timestamp > since then 1 else 0)
  }

  /** `detectSuspiciousActivity` at time `now`. */
  function Detect(events: seq<SecurityEvent>, now: int): (alerts: seq<Alert>)
    ensures MultipleFailures in alerts <==> CountRecent(events, AuthFailure, now - HOUR_MS) >= FAILURE_THRESHOLD
    ensures MultipleLogins in alerts <==> CountRecent(events, AuthSuccess, now - HOUR_MS) > LOGIN_THRESHOLD
    ensures NoDups(alerts)
    ensures |alerts| == 2 ==> alerts == [MultipleFailures, MultipleLogins]
  {
    var since := now - HOUR_MS;
    (if CountRecent(events, AuthFailure, since) >= FAILURE_THRESHOLD then [MultipleFailures] else [])
    + (if CountRecent(events, AuthSuccess, since) > LOGIN_THRESHOLD then [MultipleLogins] else [])
  }

  /** The events strictly newer than the cutoff, in order. */
  function NewerThan(events: seq<SecurityEvent>, cutoff: int): (r: seq<SecurityEvent>)
    ensures forall e :: e in r ==> e in events && e.timestamp > cutoff
    ensures forall e :: e in events && e.timestamp > cutoff ==> e in r
  {
    if events == [] then []
    else
      var last := events[|events| - 1];
      var rest := NewerThan(events[..|events| - 1], cutoff);
      assert forall e :: e in events <==> e in events[..|events| - 1] || e == last;
      if last.timestamp > cutoff then rest + [last] else rest
  }

  /** Clearing keeps the order: it works piecewise on any split of the log. */
  lemma {:induction false} NewerThanSplit(a: seq<SecurityEvent>, b: seq<SecurityEvent>, cutoff: int)
    ensures NewerThan(a + b, cutoff) == NewerThan(a, cutoff) + NewerThan(b, cutoff)
  {
    if b == [] {
      assert a + b == a;
    } else {
      assert (a + b)[..|a + b| - 1] == a + b[..|b| - 1];
      NewerThanSplit(a, b[..|b| - 1], cutoff);
    }
  }

  /** Clearing with a cutoff no later than the alert window leaves the
      window's counts alone. */
  lemma {:induction false} ClearKeepsRecentCounts(events: seq<SecurityEvent>, cutoff: int, t: EventType, since: int)
    requires cutoff <= since
    ensures CountRecent(NewerThan(events, cutoff), t, since) == CountRecent(events, t, since)
  {
    if events != [] {
      var init := events[..|events| - 1];
      ClearKeepsRecentCounts(init, cutoff, t, since);
      var last := events[|events| - 1];
      if last.timestamp > cutoff {
        assert (NewerThan(init, cutoff) + [last])[..|NewerThan(init, cutoff) + [last]| - 1] == NewerThan(init, cutoff);
      }
    }
  }

  /** Hence clearing events older than a day or more never changes the
      alerts raised at the same moment. */
  lemma ClearKeepsAlerts(events: seq<SecurityEvent>, cutoff: int, now: int)
    requires cutoff <= now - HOUR_MS
    ensures Detect(NewerThan(events, cutoff), now) == Detect(events, now)
  {
    ClearKeepsRecentCounts(events, cutoff, AuthFailure, now - HOUR_MS);
    ClearKeepsRecentCounts(events, cutoff, AuthSuccess, now - HOUR_MS);
  }

  /** Events of one type. */
  function CountType(events: seq<SecurityEvent>, t: EventType): (c: nat)
    ensures c <= |events|
  {
    if events == [] then 0
    else CountType(events[..|events| - 1], t) + (if events[|events| - 1].eventType == t then 1 else 0)
  }

  /** `groupEventsByType`: the count of each type that occurs. */
  function GroupByType(events: seq<SecurityEvent>): map<EventType, nat>
  {
    if events == [] then map[]
    else
      var acc := GroupByType(events[..|events| - 1]);
      var t := events[|events| - 1].eventType;
      acc[t := (if t in acc then acc[t] else 0) + 1]
  }

  function CountOr0(m: map<EventType, nat>, t: EventType): nat
  {
    if t in m then m[t] else 0
  }

  /** A type is a key exactly when some event has it, and its count is the
      number of such events. */
  lemma {:induction false} GroupByTypeCounts(events: seq<SecurityEvent>)
    ensures forall t :: t in GroupByType(events) <==> CountType(events, t) > 0
    ensures forall t :: CountOr0(GroupByType(events), t) == CountType(events, t)
  {
    if events != [] {
      GroupByTypeCounts(events[..|events| - 1]);
    }
  }

  /** The counts of all five types added up. */
  function TotalCount(m: map<EventType, nat>): nat
  {
    CountOr0(m, AuthAttempt) + CountOr0(m, AuthSuccess) + CountOr0(m, AuthFailure)
    + CountOr0(m, DataAccess) + CountOr0(m, SuspiciousActivity)
  }

  /** The per-type counts add up to the number of events. */
  lemma {:induction false} GroupCountsSum(events: seq<SecurityEvent>)
    ensures TotalCount(GroupByType(events)) == |events|
  {
    if events != [] {
      GroupCountsSum(events[..|events| - 1]);
      var acc := GroupByType(events[..|events| - 1]);
      var m := GroupByType(events);
      match events[|events| - 1].eventType
      case AuthAttempt => assert CountOr0(m, AuthAttempt) == CountOr0(acc, AuthAttempt) + 1;
      case AuthSuccess => assert CountOr0(m, AuthSuccess) == CountOr0(acc, AuthSuccess) + 1;
      case AuthFailure => assert CountOr0(m, AuthFailure) == CountOr0(acc, AuthFailure) + 1;
      case DataAccess => assert CountOr0(m, DataAccess) == CountOr0(acc, DataAccess) + 1;
      case SuspiciousActivity => assert CountOr0(m, SuspiciousActivity) == CountOr0(acc, SuspiciousActivity) + 1;
    }
  }

  // ---------------------------------------------------------------------

  class Monitor {
    var events: seq<SecurityEvent>
    var storage: StoredEvents

    /** The constructor loads the stored log. */
    constructor (stored: StoredEvents)
      ensures storage == stored
      ensures events == (match stored case Missing => [] case Corrupt => [] case Parsed(es) => es)
    {
      events := [];
      storage := stored;
      new;
      LoadEvents();
    }

    /** `loadEvents`: nothing stored leaves the log alone, unparseable text
        empties it. */
    method LoadEvents()
      modifies this`events
      ensures storage.Missing? ==> events == old(events)
      ensures storage.Corrupt? ==> events == []
      ensures storage.Parsed? ==> events == storage.events
    {
      match storage
      case Missing =>
      case Corrupt => events := [];
      case Parsed(es) => events := es;
    }

    /** `logEvent`: the new event goes first, the log is cut to 1000 and
        saved. */
    method LogEvent(eventType: EventType, userId: Option<string>, details: map<string, string>, now: int, userAgent: string)
      modifies this`events, this`storage
      ensures events == Take([SecurityEvent(eventType, userId, details, now, userAgent)] + old(events), MAX_EVENTS)
      ensures events[0] == SecurityEvent(eventType, userId, details, now, userAgent)
      ensures events[1..] == old(events)[..|events| - 1]
      ensures |events| <= MAX_EVENTS
      ensures storage == Parsed(events)
    {
      var event := SecurityEvent(eventType, userId, details, now, userAgent);
      events := [event] + events;
      if |events| > MAX_EVENTS {
        events := events[..MAX_EVENTS];
      }
      storage := Parsed(events);
    }

    method GetRecentEvents(limit: Option<int>) returns (r: seq<SecurityEvent>)
      ensures r == RecentEvents(events, limit)
    {
      var l := if limit.None? then DEFAULT_RECENT else limit.value;
      r := events[..SliceEnd(|events|, l)];
    }

    method DetectSuspiciousActivity(now: int) returns (alerts: seq<Alert>)
      ensures alerts == Detect(events, now)
    {
      alerts := Detect(events, now);
    }

    /** `clearOldEvents` with the cutoff instant (now minus `daysOld` days)
        as a parameter. */
    method ClearOldEvents(cutoff: int)
      modifies this`events, this`storage
      ensures events == NewerThan(old(events), cutoff)
      ensures storage == Parsed(events)
    {
      events := NewerThan(events, cutoff);
      storage := Parsed(events);
    }

    method GroupEventsByType() returns (counts: map<EventType, nat>)
      ensures counts == GroupByType(events)
    {
      counts := map[];
      for i := 0 to |events|
        invariant counts == GroupByType(events[..i])
      {
        assert events[..i + 1][..i] == events[..i];
        var t := events[i].eventType;
        counts := counts[t := (if t in counts then counts[t] else 0) + 1];
      }
      assert events[..|events|] == events;
    }
  }
}
