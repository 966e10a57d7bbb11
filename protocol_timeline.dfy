/** The aggregates of the protocol timeline (frontend/src/components/agent/ProtocolTimeline.tsx):
    the severity order, the filtered newest-first view, the trailing-hour counts, the peak
    severity and the relative-time buckets. */
module ProtocolTimeline {
  import opened Common
  import opened InsightPanel

  /** One timeline entry. */
  datatype ProtocolEvent = ProtocolEvent(
    id: string,
    timestamp: int,
    protocolStatus: ProtocolStatus,
    objectClass: string,
    description: Option<string>,
    cameraId: Option<string>)

  // ---------------------------------------------------------------------------------
  // Severity order

  /** `SEVERITY_ORDER`. */
  function SeverityOrder(st: ProtocolStatus): (rank: int)
    ensures 1 <= rank <= 5
  {
    match st
    case NoProtocol => 1
    case Monitoring => 2
    case Alert => 3
    case Critical => 4
    case Emergency => 5
  }

  /** The statuses from least to most severe. */
  const Ladder: seq<ProtocolStatus> := [NoProtocol, Monitoring, Alert, Critical, Emergency]

  /** The rank is `position + 1` on the ladder, so it is strictly increasing and no two statuses share one. */
  lemma SeverityOrderIsStrict()
    ensures forall i :: 0 <= i < |Ladder| ==> SeverityOrder(Ladder[i]) == i + 1
    ensures forall i, j :: 0 <= i < j < |Ladder| ==> SeverityOrder(Ladder[i]) < SeverityOrder(Ladder[j])
    ensures forall a, b :: SeverityOrder(a) == SeverityOrder(b) ==> a == b
  {
  }

  // ---------------------------------------------------------------------------------
  // Filter, sort newest-first, truncate

  /** `events.filter(e => e.protocolStatus === f)`: every matching event with its multiplicity, none
      other, in the input order. */
  function KeepStatus(events: seq<ProtocolEvent>, f: string): (r: seq<ProtocolEvent>)
    ensures forall e :: e in r <==> e in events && Name(e.protocolStatus) == f
    ensures forall e :: multiset(r)[e] == if Name(e.protocolStatus) == f then multiset(events)[e] else 0
    ensures multiset(r) <= multiset(events)
    ensures SubsequenceOf(r, events)
  {
    if events == [] then []
    else
      assert events == [events[0]] + events[1..];
      var rest := KeepStatus(events[1..], f);
      if Name(events[0].protocolStatus) == f then
        var r := [events[0]] + rest;
        assert r[1..] == rest;
        r
      else rest
  }

  /** `filterStatus ? events.filter(...) : events`; `null` and `""` are falsy, so they filter nothing. */
  function ApplyFilter(events: seq<ProtocolEvent>, filterStatus: Option<string>): (r: seq<ProtocolEvent>)
    ensures filterStatus.None? || filterStatus == Some("") ==> r == events
    ensures filterStatus.Some? && filterStatus.value != "" ==>
      forall e :: e in r <==> e in events && Name(e.protocolStatus) == filterStatus.value
    ensures filterStatus.Some? && filterStatus.value != "" ==>
      forall e :: multiset(r)[e] == if Name(e.protocolStatus) == filterStatus.value then multiset(events)[e] else 0
    ensures multiset(r) <= multiset(events)
    ensures SubsequenceOf(r, events)
  {
    if filterStatus.Some? && filterStatus.value != "" then KeepStatus(events, filterStatus.value)
    else SubsequenceOfSelf(events); events
  }

  ghost predicate NewestFirst(s: seq<ProtocolEvent>)
  {
    forall i, j :: 0 <= i < j < |s| ==> s[i].timestamp >= s[j].timestamp
  }

  /** An event no older than any element of a newest-first list may go in front of it. */
  lemma PrependNewest(x: ProtocolEvent, r: seq<ProtocolEvent>)
    requires NewestFirst(r)
    requires forall y :: y in r ==> y.timestamp <= x.timestamp
    ensures NewestFirst([x] + r)
  {
    var xr := [x] + r;
    forall i, j | 0 <= i < j < |xr| ensures xr[i].timestamp >= xr[j].timestamp {
      assert xr[j] == r[j - 1];
      if i > 0 { assert xr[i] == r[i - 1]; } else { assert r[j - 1] in r; }
    }
  }

  /** The head of a newest-first list is no older than any of its elements. */
  lemma HeadIsNewest(s: seq<ProtocolEvent>)
    requires NewestFirst(s) && s != []
    ensures forall y :: y in s ==> y.timestamp <= s[0].timestamp
  {
    forall y | y in s ensures y.timestamp <= s[0].timestamp {
      var j :| 0 <= j < |s| && s[j] == y;
      if j > 0 { assert s[0].timestamp >= s[j].timestamp; }
    }
  }

  lemma NewestFirstTail(s: seq<ProtocolEvent>)
    requires NewestFirst(s) && s != []
    ensures NewestFirst(s[1..])
  {
    var tail := s[1..];
    forall i, j | 0 <= i < j < |tail| ensures tail[i].timestamp >= tail[j].timestamp {
      assert tail[i] == s[i + 1] && tail[j] == s[j + 1];
    }
  }

  /** The head of a newest-first list may go back in front of the tail with an older event inserted. */
  lemma PrependHead(s: seq<ProtocolEvent>, e: ProtocolEvent, r': seq<ProtocolEvent>)
    requires NewestFirst(s) && s != [] && e.timestamp < s[0].timestamp
    requires NewestFirst(r') && forall x :: x in r' ==> x == e || x in s[1..]
    ensures NewestFirst([s[0]] + r')
  {
    HeadIsNewest(s);
    forall y | y in r' ensures y.timestamp <= s[0].timestamp {
      if y != e { assert y in s; }
    }
    PrependNewest(s[0], r');
  }

  /** Places `e` before the first element that is not newer than it; `e` came first in the input. */
  function Insert(e: ProtocolEvent, s: seq<ProtocolEvent>): (r: seq<ProtocolEvent>)
    requires NewestFirst(s)
    ensures NewestFirst(r)
    ensures multiset(r) == multiset(s) + multiset{e}
    ensures forall x :: x in r ==> x == e || x in s
  {
    if s == [] then [e]
    else if e.timestamp >= s[0].timestamp then
      HeadIsNewest(s);
      PrependNewest(e, s);
      [e] + s
    else
      var tail := s[1..];
      assert s == [s[0]] + tail;
      NewestFirstTail(s);
      var r' := Insert(e, tail);
      PrependHead(s, e, r');
      [s[0]] + r'
  }

  /** `[...filtered].sort((a, b) => b.timestamp - a.timestamp)`: a stable sort, newest first. */
  function SortNewestFirst(s: seq<ProtocolEvent>): (r: seq<ProtocolEvent>)
    ensures NewestFirst(r)
    ensures multiset(r) == multiset(s)
    ensures |r| == |s|
  {
    if s == [] then []
    else
      assert s == [s[0]] + s[1..];
      Insert(s[0], SortNewestFirst(s[1..]))
  }

  /** The events with timestamp `t`, in order. */
  function AtTimestamp(s: seq<ProtocolEvent>, t: int): seq<ProtocolEvent>
  {
    if s == [] then [] else (if s[0].timestamp == t then [s[0]] else []) + AtTimestamp(s[1..], t)
  }

  lemma {:induction false} AtTimestampConcat(a: seq<ProtocolEvent>, b: seq<ProtocolEvent>, t: int)
    ensures AtTimestamp(a + b, t) == AtTimestamp(a, t) + AtTimestamp(b, t)
  {
    if a == [] {
      assert a + b == b;
    } else {
      var head := if a[0].timestamp == t then [a[0]] else [];
      assert (a + b)[0] == a[0];
      assert (a + b)[1..] == a[1..] + b;
      AtTimestampConcat(a[1..], b, t);
      calc {
        AtTimestamp(a + b, t);
        head + AtTimestamp(a[1..] + b, t);
        head + (AtTimestamp(a[1..], t) + AtTimestamp(b, t));
        (head + AtTimestamp(a[1..], t)) + AtTimestamp(b, t);
      }
    }
  }

  lemma AtTimestampCons(x: ProtocolEvent, s: seq<ProtocolEvent>, t: int)
    ensures AtTimestamp([x] + s, t) == (if x.timestamp == t then [x] else []) + AtTimestamp(s, t)
  {
    assert ([x] + s)[1..] == s;
  }

  lemma {:induction false} InsertIsStable(e: ProtocolEvent, s: seq<ProtocolEvent>, t: int)
    requires NewestFirst(s)
    ensures AtTimestamp(Insert(e, s), t) == (if e.timestamp == t then [e] else []) + AtTimestamp(s, t)
  {
    if s == [] {
      assert Insert(e, s) == [e] + s;
      AtTimestampCons(e, s, t);
    } else if e.timestamp >= s[0].timestamp {
      AtTimestampCons(e, s, t);
    } else {
      var r' := Insert(e, s[1..]);
      InsertIsStable(e, s[1..], t);
      AtTimestampCons(s[0], r', t);
    }
  }

  /** The sort keeps the input order among events with equal timestamps. */
  lemma {:induction false} SortIsStable(s: seq<ProtocolEvent>, t: int)
    ensures AtTimestamp(SortNewestFirst(s), t) == AtTimestamp(s, t)
  {
    if s != [] {
      SortIsStable(s[1..], t);
      InsertIsStable(s[0], SortNewestFirst(s[1..]), t);
    }
  }

  /** `sortedEvents`: filter, sort newest-first, keep `slice(0, maxEvents)`; it shows events of the input
      only, each at most as often as it occurs there, and never more than a non-negative `maxEvents`. */
  function SortedEvents(events: seq<ProtocolEvent>, maxEvents: int, filterStatus: Option<string>): (r: seq<ProtocolEvent>)
    ensures multiset(r) <= multiset(events)
    ensures 0 <= maxEvents ==> |r| <= maxEvents
  {
    var sorted := SortNewestFirst(ApplyFilter(events, filterStatus));
    PrefixIncluded(sorted, SliceLength(|sorted|, maxEvents));
    Slice(sorted, maxEvents)
  }

  /** In a newest-first list, every element of a prefix is no older than anything after it. */
  lemma PrefixDominatesRest(sorted: seq<ProtocolEvent>, k: nat)
    requires NewestFirst(sorted) && k <= |sorted|
    ensures forall e, d :: e in sorted[..k] && d in multiset(sorted) - multiset(sorted[..k]) ==>
      e.timestamp >= d.timestamp
  {
    assert sorted == sorted[..k] + sorted[k..];
    assert multiset(sorted) == multiset(sorted[..k]) + multiset(sorted[k..]);
    forall e, d | e in sorted[..k] && d in multiset(sorted) - multiset(sorted[..k])
      ensures e.timestamp >= d.timestamp
    {
      assert d in sorted[k..];
      var i :| 0 <= i < k && sorted[i] == e;
      var j :| k <= j < |sorted| && sorted[j] == d;
    }
  }

  /** What `sortedEvents` promises: only events that pass the filter, newest first, at most `maxEvents`
      of them, and every event it drops is no newer than every event it keeps. */
  lemma {:induction false} SortedEventsSpec(events: seq<ProtocolEvent>, maxEvents: int, filterStatus: Option<string>)
    ensures NewestFirst(SortedEvents(events, maxEvents, filterStatus))
    ensures 0 <= maxEvents ==>
      |SortedEvents(events, maxEvents, filterStatus)| == Min(maxEvents, |ApplyFilter(events, filterStatus)|)
    ensures multiset(SortedEvents(events, maxEvents, filterStatus)) <= multiset(ApplyFilter(events, filterStatus))
    ensures forall e, d ::
      (e in SortedEvents(events, maxEvents, filterStatus) &&
       d in multiset(ApplyFilter(events, filterStatus)) - multiset(SortedEvents(events, maxEvents, filterStatus)))
      ==> e.timestamp >= d.timestamp
  {
    var sorted := SortNewestFirst(ApplyFilter(events, filterStatus));
    var r := SortedEvents(events, maxEvents, filterStatus);
    assert r == sorted[..|r|];
    assert sorted == r + sorted[|r|..];
    assert multiset(sorted) == multiset(r) + multiset(sorted[|r|..]);
    assert NewestFirst(r) by {
      forall i, j | 0 <= i < j < |r| ensures r[i].timestamp >= r[j].timestamp {
        assert r[i] == sorted[i] && r[j] == sorted[j];
      }
    }
    PrefixDominatesRest(sorted, |r|);
  }

  /** With no filter and no more events than `maxEvents`, the view shows every event. */
  lemma {:induction false} UnfilteredViewKeepsAll(events: seq<ProtocolEvent>, maxEvents: int)
    requires |events| <= maxEvents
    ensures multiset(SortedEvents(events, maxEvents, None)) == multiset(events)
  {
    assert SortNewestFirst(events)[..|events|] == SortNewestFirst(events);
  }

  /** "Showing maxEvents of N events": an empty list returns the "no events" message before the note is
      reached; otherwise the note appears iff the unfiltered list is longer than `maxEvents`. */
  function ShowsTruncationNote(events: seq<ProtocolEvent>, maxEvents: int): (shown: bool)
    ensures events == [] ==> !shown
    ensures shown ==> 0 <= maxEvents ==> |SortedEvents(events, maxEvents, None)| == maxEvents < |events|
    ensures !shown ==> multiset(SortedEvents(events, maxEvents, None)) == multiset(events)
  {
    if |events| > 0 && |events| > maxEvents then true
    else if events == [] then false
    else UnfilteredViewKeepsAll(events, maxEvents); false
  }

  // ---------------------------------------------------------------------------------
  // Trailing-hour counts

  const HourMs: int := 3600000

  /** `events.filter(e => e.timestamp > now - 3600000)`: strictly inside the last hour; future events count. */
  function Recent(events: seq<ProtocolEvent>, now: int): (r: seq<ProtocolEvent>)
    ensures forall e :: e in r <==> e in events && e.timestamp > now - HourMs
    ensures forall e :: multiset(r)[e] == if e.timestamp > now - HourMs then multiset(events)[e] else 0
    ensures multiset(r) <= multiset(events)
    ensures |r| <= |events|
    ensures SubsequenceOf(r, events)
  {
    if events == [] then []
    else
      assert events == [events[0]] + events[1..];
      var rest := Recent(events[1..], now);
      if events[0].timestamp > now - HourMs then
        var r := [events[0]] + rest;
        assert r[1..] == rest;
        r
      else rest
  }

  function EventStatuses(events: seq<ProtocolEvent>): (r: seq<ProtocolStatus>)
    ensures |r| == |events|
    ensures forall i :: 0 <= i < |r| ==> r[i] == events[i].protocolStatus
  {
    if events == [] then [] else [events[0].protocolStatus] + EventStatuses(events[1..])
  }

  /** Mapping to statuses is monotone for multiset inclusion. */
  lemma {:induction false} RecentStatusesIncluded(events: seq<ProtocolEvent>, now: int)
    ensures multiset(EventStatuses(Recent(events, now))) <= multiset(EventStatuses(events))
  {
    if events != [] {
      RecentStatusesIncluded(events[1..], now);
      assert EventStatuses(events) == [events[0].protocolStatus] + EventStatuses(events[1..]);
      var rest := Recent(events[1..], now);
      if events[0].timestamp > now - HourMs {
        assert Recent(events, now) == [events[0]] + rest;
        assert EventStatuses([events[0]] + rest) == [events[0].protocolStatus] + EventStatuses(rest);
      } else {
        assert Recent(events, now) == rest;
      }
    }
  }

  /** `stats.counts` and `stats.recentCount`: the `forEach` over the last hour's events. */
  method WindowStats(events: seq<ProtocolEvent>, now: int) returns (counts: map<ProtocolStatus, nat>, recentCount: nat)
    ensures counts == CountsOf(EventStatuses(Recent(events, now)))
    ensures recentCount == |Recent(events, now)|
    ensures forall st :: st in counts ==> counts[st] <= multiset(EventStatuses(events))[st]
    ensures recentCount == Total(counts) <= |events|
  {
    var recent := Recent(events, now);
    counts := CountByStatus(EventStatuses(recent));
    recentCount := |recent|;
    CountsPartition(EventStatuses(recent));
    RecentStatusesIncluded(events, now);
  }

  /** An event exactly one hour old is outside the window; one a millisecond younger is inside. */
  lemma WindowIsStrict(e: ProtocolEvent, now: int)
    ensures e.timestamp == now - HourMs ==> Recent([e], now) == []
    ensures e.timestamp == now - HourMs + 1 ==> Recent([e], now) == [e]
  {
  }

  /** The count a filter pill shows, `stats.counts[status] || 0`: the window-limited count, which never
      exceeds the full count of that status. */
  function PillCount(events: seq<ProtocolEvent>, now: int, st: ProtocolStatus): (n: nat)
    ensures n == multiset(EventStatuses(Recent(events, now)))[st]
    ensures n <= multiset(EventStatuses(events))[st]
  {
    CountOfStatus(EventStatuses(Recent(events, now)), st);
    RecentStatusesIncluded(events, now);
    CountOr0(CountsOf(EventStatuses(Recent(events, now))), st)
  }

  // ---------------------------------------------------------------------------------
  // Peak severity

  /** One step of the `reduce`: replace the running maximum only on a strictly greater rank. */
  function PeakStep(max: ProtocolEvent, e: ProtocolEvent): ProtocolEvent
  {
    if SeverityOrder(e.protocolStatus) > SeverityOrder(max.protocolStatus) then e else max
  }

  /** The left-to-right `reduce` from the running value `max` over `rest`. */
  function FoldPeak(max: ProtocolEvent, rest: seq<ProtocolEvent>): (peak: ProtocolEvent)
    ensures peak == max || peak in rest
    decreases |rest|
  {
    if rest == [] then max else FoldPeak(PeakStep(max, rest[0]), rest[1..])
  }

  /** `stats.maxSeverity`: `null` on no events, else `events.reduce(...)` with `events[0]` as the start. */
  function MaxSeverity(events: seq<ProtocolEvent>): (peak: Option<ProtocolEvent>)
    ensures peak.None? <==> events == []
    ensures peak.Some? ==> peak.value in events
  {
    if |events| > 0 then Some(FoldPeak(events[0], events[1..])) else None
  }

  ghost predicate FirstOfMaximalRank(events: seq<ProtocolEvent>, k: nat)
  {
    && k < |events|
    && (forall j :: 0 <= j < |events| ==> SeverityOrder(events[j].protocolStatus) <= SeverityOrder(events[k].protocolStatus))
    && (forall j :: 0 <= j < k ==> SeverityOrder(events[j].protocolStatus) < SeverityOrder(events[k].protocolStatus))
  }

  /** The fold keeps "the running value is the first element of maximal rank among those seen so far". */
  lemma {:induction false} FoldPeakFromPrefix(events: seq<ProtocolEvent>, i: nat, k: nat)
    requires 0 < i <= |events| && k < i
    requires FirstOfMaximalRank(events[..i], k)
    ensures exists m: nat :: FirstOfMaximalRank(events, m) && events[m] == FoldPeak(events[k], events[i..])
    decreases |events| - i
  {
    if i == |events| {
      assert events[..i] == events;
      assert events[i..] == [];
    } else {
      var e := events[i];
      var k' := if SeverityOrder(e.protocolStatus) > SeverityOrder(events[k].protocolStatus) then i else k;
      assert PeakStep(events[k], e) == events[k'];
      assert events[i..][1..] == events[i + 1..];
      assert FirstOfMaximalRank(events[..i + 1], k') by {
        var seen, before := events[..i + 1], events[..i];
        forall j | 0 <= j < i + 1
          ensures SeverityOrder(seen[j].protocolStatus) <= SeverityOrder(seen[k'].protocolStatus)
        {
          if j < i { assert seen[j] == before[j]; }
        }
        forall j | 0 <= j < k'
          ensures SeverityOrder(seen[j].protocolStatus) < SeverityOrder(seen[k'].protocolStatus)
        {
          assert seen[j] == before[j];
        }
      }
      FoldPeakFromPrefix(events, i + 1, k');
    }
  }

  /** `maxSeverity` is absent iff there are no events; otherwise it is the FIRST event of maximal rank. */
  lemma {:induction false} MaxSeverityIsFirstMaximal(events: seq<ProtocolEvent>)
    ensures MaxSeverity(events).None? <==> events == []
    ensures MaxSeverity(events).Some? ==>
      exists k: nat :: FirstOfMaximalRank(events, k) && events[k] == MaxSeverity(events).value
  {
    if events != [] {
      assert FirstOfMaximalRank(events[..1], 0);
      FoldPeakFromPrefix(events, 1, 0);
    }
  }

  /** The peak is not `'none'` iff some event is not: the peak has the maximal rank, and `'none'` has the least. */
  lemma {:induction false} PeakActiveIffSomeActive(events: seq<ProtocolEvent>)
    requires events != []
    ensures MaxSeverity(events).value.protocolStatus != NoProtocol <==>
      exists i :: 0 <= i < |events| && events[i].protocolStatus != NoProtocol
  {
    MaxSeverityIsFirstMaximal(events);
    var k: nat :| FirstOfMaximalRank(events, k) && events[k] == MaxSeverity(events).value;
    if exists i :: 0 <= i < |events| && events[i].protocolStatus != NoProtocol {
      var i :| 0 <= i < |events| && events[i].protocolStatus != NoProtocol;
      assert SeverityOrder(events[i].protocolStatus) <= SeverityOrder(events[k].protocolStatus);
    }
  }

  /** The "Peak" badge, shown iff a peak exists and is not `'none'`: that is, iff some event is not `'none'`. */
  function ShowsPeakBadge(events: seq<ProtocolEvent>): (shown: bool)
    ensures shown <==> exists i :: 0 <= i < |events| && events[i].protocolStatus != NoProtocol
  {
    var peak := MaxSeverity(events);
    if peak.None? then false
    else PeakActiveIffSomeActive(events); peak.value.protocolStatus != NoProtocol
  }

  // ---------------------------------------------------------------------------------
  // Relative time

  /** The buckets of `formatTime`; `CalendarDate` is rendered by the locale. */
  datatype TimeLabel = JustNow | MinutesAgo(minutes: nat) | HoursAgo(hours: nat) | CalendarDate(timestamp: int)

  const MinuteMs: int := 60000
  const DayMs: int := 86400000

  /** `formatTime`: `diffMins = Math.floor((now - timestamp) / 60000)` (Dafny's `/` by a positive
      divisor rounds down, as `Math.floor` does), then the thresholds 1, 60 and 1440 minutes. */
  function FormatTime(timestamp: int, now: int): (l: TimeLabel)
    ensures l == JustNow <==> now - timestamp < MinuteMs
    ensures l.MinutesAgo? <==> MinuteMs <= now - timestamp < HourMs
    ensures l.MinutesAgo? ==> 1 <= l.minutes < 60 && l.minutes * MinuteMs <= now - timestamp < (l.minutes + 1) * MinuteMs
    ensures l.HoursAgo? <==> HourMs <= now - timestamp < DayMs
    ensures l.HoursAgo? ==> 1 <= l.hours < 24 && l.hours * HourMs <= now - timestamp < (l.hours + 1) * HourMs
    ensures l.CalendarDate? <==> DayMs <= now - timestamp
    ensures l.CalendarDate? ==> l.timestamp == timestamp
  {
    var diffMins := (now - timestamp) / 60000;
    if diffMins < 1 then JustNow
    else if diffMins < 60 then MinutesAgo(diffMins)
    else if diffMins < 1440 then HoursAgo(diffMins / 60)
    else CalendarDate(timestamp)
  }

  /** The text of a bucket; `localeDate` stands for `date.toLocaleDateString()`. A minutes or hours text
      is a run of digits that reads back as the bucket's count, then the unit suffix. */
  function TimeLabelText(l: TimeLabel, localeDate: string): (t: string)
    ensures l.JustNow? ==> t == "Just now"
    ensures l.MinutesAgo? ==>
      && |t| > 5 && t[|t| - 5..] == "m ago"
      && AllDigits(t[..|t| - 5]) && DigitsValue(t[..|t| - 5]) == l.minutes
    ensures l.HoursAgo? ==>
      && |t| > 5 && t[|t| - 5..] == "h ago"
      && AllDigits(t[..|t| - 5]) && DigitsValue(t[..|t| - 5]) == l.hours
    ensures l.CalendarDate? ==> t == localeDate
  {
    match l
    case JustNow => "Just now"
    case MinutesAgo(m) =>
      var t := NatToString(m) + "m ago";
      NatToStringValue(m);
      assert t[..|t| - 5] == NatToString(m) && t[|t| - 5..] == "m ago";
      t
    case HoursAgo(h) =>
      var t := NatToString(h) + "h ago";
      NatToStringValue(h);
      assert t[..|t| - 5] == NatToString(h) && t[|t| - 5..] == "h ago";
      t
    case CalendarDate(_) => localeDate
  }

  /** The boundaries: 59,999 ms is "Just now", 60,000 ms is "1m ago", 59 min 59.999 s is "59m ago",
      exactly one hour is "1h ago", and exactly one day is a calendar date. */
  lemma FormatTimeBoundaries(now: int)
    ensures FormatTime(now - 59999, now) == JustNow
    ensures FormatTime(now - 60000, now) == MinutesAgo(1)
    ensures FormatTime(now - 3599999, now) == MinutesAgo(59)
    ensures FormatTime(now - 3600000, now) == HoursAgo(1)
    ensures FormatTime(now - 86399999, now) == HoursAgo(23)
    ensures FormatTime(now - 86400000, now) == CalendarDate(now - 86400000)
    ensures FormatTime(now + 5000, now) == JustNow
  {
  }

  lemma BoundaryNumbers()
    ensures NatToString(1) == "1" && NatToString(59) == "59" && NatToString(23) == "23"
  {
    assert NatToString(59) == NatToString(5) + "9";
    assert NatToString(23) == NatToString(2) + "3";
  }

  /** The rendered text at the boundaries: "Just now", "1m ago", "59m ago", "1h ago", "23h ago",
      and the locale's date from one day on. */
  lemma {:induction false} BoundaryTexts(now: int, localeDate: string)
    ensures TimeLabelText(FormatTime(now - 59999, now), localeDate) == "Just now"
    ensures TimeLabelText(FormatTime(now - 60000, now), localeDate) == "1m ago"
    ensures TimeLabelText(FormatTime(now - 3599999, now), localeDate) == "59m ago"
    ensures TimeLabelText(FormatTime(now - 3600000, now), localeDate) == "1h ago"
    ensures TimeLabelText(FormatTime(now - 86399999, now), localeDate) == "23h ago"
    ensures TimeLabelText(FormatTime(now - 86400000, now), localeDate) == localeDate
  {
    FormatTimeBoundaries(now);
    BoundaryNumbers();
  }
}
