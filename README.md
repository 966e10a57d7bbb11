# Agent vision dashboard: insight and event aggregation, in Dafny

This project models the logic behind the agent vision dashboard of the eyeO platform frontend. That logic has four parts.

- **The insight panel** (`insight_panel.dfy`). It covers the five protocol statuses (`none`, `monitoring`, `alert`, `critical`, `emergency`) and their colour and label lookups, each with its own fallback for a string that names no status. It also covers the `maxDisplay` prefix, the high-priority test, the per-status count map and the "+N more" line.
- **The protocol timeline** (`protocol_timeline.dfy`). It covers the `SEVERITY_ORDER` rank and the `sortedEvents` pipeline, which filters, then sorts stably newest-first, then truncates. It also covers the trailing-hour counts, the `reduce` that picks the peak event (the first of any tied maxima) and the relative-time buckets of `formatTime`.
- **The vision engine status** (`vision_engine_status.dfy`). It covers the health record, `STATUS_CONFIG` and one health check as a function from a fetch outcome to the next record. An `EngineMonitor` class holds the component's `health`, `isLoading` and `lastUpdate` state, plus a log of the records passed to `onStatusChange`.
- **The dashboard page** (`dashboard.dfy`). It covers the mock insight and event generators and the insight-to-event id correlation. The class `AgentVisionDashboard` holds the page's state (`insights`, `events`, `isLiveMode`, `selectedInsight`, `filterStatus`, `engineHealth`). Its methods are the mount seed, the live-mode tick, "Simulate Emergency", "Clear", the click handlers and the footer counts.

`common.dfy` holds the pieces of JavaScript behaviour this code relies on:

- `Array.prototype.slice(0, end)`, including a negative `end`;
- `String(n)` for a non-negative integer;
- `padStart`;
- `String.prototype.replace` with a string pattern, which replaces only the first occurrence.

All values these functions touch are modelled as follows:

- Timestamps and counts are unbounded integers.
- `undefined`/`null` is `Option.None`.
- The status strings are a datatype, with `Name` and `ParseStatus` converting between the two.
- Each `Math.random()` is an explicit parameter in `[0, 1)`. `InsightDraws` holds the six draws of one `generateMockInsight` call, in call order.
- Each `Date.now()` is an explicit `now`.
- The result of `fetch` is the datatype `FetchOutcome`: a response with its `ok` flag, HTTP status and parsed or failed body, or a rejection with the thrown value.

Some details of the code that are easy to misread, and that the model follows as written:

- The trailing window is strict: `timestamp > now - 3600000`. An event exactly one hour old is outside it.
- `generateMockInsight` back-dates every insight by up to an hour, including the ones created by live ticks.
- The generated confidence lies in `[0.7, 1)`: `1.0` itself is never drawn.
- The capacities of 50 insights and 100 events bind only the live tick. The emergency injection prepends without truncating, so each injection grows both buffers by one, past the capacities if they are full, and repeated injections between ticks keep growing them. The next tick cuts them back to 50 and 100. `SimulateEmergency` and `PushAllKeepsNewest` state exactly that.

## Model

| member | source | states |
|---|---|---|
| Common.Slice | frontend/src/components/agent/AgentInsightPanel.tsx:54 | `slice(0, end)` keeps the first `min(end, n)` elements for `end >= 0`, drops the last `-end` (down to nothing) for `end < 0`, and keeps every element at its index |
| Common.NatToString | frontend/src/pages/showcase/AgentVisionDashboard.tsx:73 | `String(n)` is a non-empty run of decimal digits, a single digit exactly when `n < 10` |
| Common.NatToStringValue | frontend/src/pages/showcase/AgentVisionDashboard.tsx:67 | the digits of `String(n)` read back as `n`, and only `"0"` starts with a zero, so different numbers give different texts |
| Common.PadStart | frontend/src/pages/showcase/AgentVisionDashboard.tsx:73 | `padStart(width, fill)` has length `max(width, len(s))`, ends with `s`, and everything before `s` is the fill character |
| Common.IndexOf | frontend/src/pages/showcase/AgentVisionDashboard.tsx:135 | the search returns an index where the pattern occurs with no earlier occurrence at or after `from`, and `None` exactly when the pattern does not occur |
| Common.ReplaceFirst | frontend/src/pages/showcase/AgentVisionDashboard.tsx:135 | a string without the pattern is returned unchanged; otherwise the first occurrence (the one `IndexOf` finds) is replaced by `q`, with the text before and after it kept, so the length changes by `len(q) - len(p)` |
| Common.ReplaceFirstOfPrefix | frontend/src/pages/showcase/AgentVisionDashboard.tsx:135 | removing the first `p` from `p + x` gives back `x`, even when `x` itself contains `p` |
| InsightPanel.ParseStatus | frontend/src/components/agent/AgentInsightPanel.tsx:9 | a string parses to the status whose name it is, and to `None` exactly when it names none of the five |
| InsightPanel.ParseName | frontend/src/components/agent/AgentInsightPanel.tsx:9 | every status name parses back to that status |
| InsightPanel.GetProtocolColor | frontend/src/components/agent/AgentInsightPanel.tsx:38-40 | a status name gets its `PROTOCOL_COLORS` entry, and any other string (including `""`) gets the `none` colour `#4a4a4a`; never empty |
| InsightPanel.GetProtocolLabel | frontend/src/components/agent/AgentInsightPanel.tsx:42-44 | a status name gets its `PROTOCOL_LABELS` entry, and any other string gets `'Unknown'`; never empty |
| InsightPanel.FallbacksAreAsymmetric | frontend/src/components/agent/AgentInsightPanel.tsx:38-44 | for an unknown string the colour equals the colour of `none`, but the label `'Unknown'` differs from the label of `none`, `'Normal'` |
| InsightPanel.LookupsAreInjective | frontend/src/components/agent/AgentInsightPanel.tsx:22-36 | the five statuses have five distinct colours and five distinct labels |
| InsightPanel.DisplayedInsights | frontend/src/components/agent/AgentInsightPanel.tsx:53-56 | the displayed cards are the order-preserving prefix of length `min(maxDisplay, len(insights))` (JavaScript's rule for a negative `maxDisplay`) |
| InsightPanel.HasHighPriority | frontend/src/components/agent/AgentInsightPanel.tsx:58-61 | true iff some insight is `critical` or `emergency` |
| InsightPanel.CountOfStatus | frontend/src/components/agent/AgentInsightPanel.tsx:66 | reading the count map with the zero default gives the number of occurrences of that status |
| InsightPanel.CountByStatus | frontend/src/components/agent/AgentInsightPanel.tsx:64-68 | the `forEach` loop builds a map whose keys are exactly the statuses that occur, each mapped to its number of occurrences (at least 1) |
| InsightPanel.MultiplicitiesPartition | frontend/src/components/agent/AgentInsightPanel.tsx:65-67 | the occurrences of the five statuses add up to the length of the list |
| InsightPanel.CountsPartition | frontend/src/components/agent/AgentInsightPanel.tsx:65-67 | the values of the count map add up to the number of items counted |
| InsightPanel.PriorityCounts | frontend/src/components/agent/AgentInsightPanel.tsx:63-69 | `priorityCounts` over all insights: a status is a key iff some insight has it, every value is at least 1, and the values sum to `len(insights)` |
| InsightPanel.MoreIndicator | frontend/src/components/agent/AgentInsightPanel.tsx:71-175 | the "+N more" line is never shown for an empty list (the early "no insights" return); otherwise it is shown iff `len(insights) > maxDisplay`, with `N = len(insights) - maxDisplay >= 1` |
| InsightPanel.MoreIndicatorAccounts | frontend/src/components/agent/AgentInsightPanel.tsx:171-175 | without the line every insight is displayed; with it (and `maxDisplay >= 0`) the displayed cards plus `N` account for every insight |
| ProtocolTimeline.SeverityOrder | frontend/src/components/agent/ProtocolTimeline.tsx:22-28 | every status has a rank from 1 to 5 |
| ProtocolTimeline.SeverityOrderIsStrict | frontend/src/components/agent/ProtocolTimeline.tsx:22-28 | ranks follow none < monitoring < alert < critical < emergency as 1 to 5, strictly increasing, with no two statuses sharing a rank |
| ProtocolTimeline.KeepStatus | frontend/src/components/agent/ProtocolTimeline.tsx:39 | the filter keeps every event whose status name equals the filter, as often as it occurs, and no other event, in the input order |
| ProtocolTimeline.ApplyFilter | frontend/src/components/agent/ProtocolTimeline.tsx:38-40 | a `null` or empty filter leaves the events as they are; any other filter keeps every event with that status, as often as it occurs, and no other; either way in the input order |
| ProtocolTimeline.Insert | frontend/src/components/agent/ProtocolTimeline.tsx:42-43 | inserting into a newest-first list gives a newest-first list with the same elements plus the new one |
| ProtocolTimeline.SortNewestFirst | frontend/src/components/agent/ProtocolTimeline.tsx:42-43 | the sort by `b.timestamp - a.timestamp` yields a permutation in non-increasing timestamp order |
| ProtocolTimeline.InsertIsStable | frontend/src/components/agent/ProtocolTimeline.tsx:43 | insertion puts the new event before every event with the same timestamp |
| ProtocolTimeline.SortIsStable | frontend/src/components/agent/ProtocolTimeline.tsx:43 | events with equal timestamps keep their input order, as JavaScript's stable `sort` keeps them |
| ProtocolTimeline.SortedEvents | frontend/src/components/agent/ProtocolTimeline.tsx:37-45 | the view shows only events of the input, each at most as often as it occurs there, and no more than `maxEvents` of them when `maxEvents >= 0` |
| ProtocolTimeline.PrefixDominatesRest | frontend/src/components/agent/ProtocolTimeline.tsx:44 | in a newest-first list, everything in a prefix is at least as new as everything after it |
| ProtocolTimeline.SortedEventsSpec | frontend/src/components/agent/ProtocolTimeline.tsx:37-45 | `sortedEvents` is newest-first, has `min(maxEvents, len(filtered))` events, takes them from the filtered events, and every filtered event it drops is no newer than every event it keeps |
| ProtocolTimeline.UnfilteredViewKeepsAll | frontend/src/components/agent/ProtocolTimeline.tsx:38-44 | with no filter and at most `maxEvents` events, the view holds every event |
| ProtocolTimeline.ShowsTruncationNote | frontend/src/components/agent/ProtocolTimeline.tsx:76-185 | "Showing maxEvents of N" never appears for an empty list (the early "no events" return); when it appears the unfiltered view is cut to `maxEvents` out of more events, and when it does not the view holds every event |
| ProtocolTimeline.Recent | frontend/src/components/agent/ProtocolTimeline.tsx:49 | the window keeps every event with `timestamp > now - 3600000` (future ones included), as often as it occurs, and no other event, in the input order |
| ProtocolTimeline.RecentStatusesIncluded | frontend/src/components/agent/ProtocolTimeline.tsx:49-53 | the window's statuses are a sub-multiset of all statuses |
| ProtocolTimeline.WindowStats | frontend/src/components/agent/ProtocolTimeline.tsx:48-61 | the `forEach` over the window builds the window's count map; each count is at most the full count of its status, and `recentCount` equals the sum of the counts and is at most `len(events)` |
| ProtocolTimeline.WindowIsStrict | frontend/src/components/agent/ProtocolTimeline.tsx:49 | an event exactly one hour old is outside the window, and one a millisecond younger is inside |
| ProtocolTimeline.PillCount | frontend/src/components/agent/ProtocolTimeline.tsx:127 | a filter pill shows the window-limited count of its status, which never exceeds that status's full count |
| ProtocolTimeline.MaxSeverity | frontend/src/components/agent/ProtocolTimeline.tsx:55-59 | `maxSeverity` is `null` iff there are no events, and otherwise one of the events |
| ProtocolTimeline.FoldPeakFromPrefix | frontend/src/components/agent/ProtocolTimeline.tsx:56-58 | the `reduce` preserves "the running value is the first event of maximal rank among those seen" |
| ProtocolTimeline.MaxSeverityIsFirstMaximal | frontend/src/components/agent/ProtocolTimeline.tsx:55-59 | `maxSeverity` is `null` iff there are no events; otherwise it is an event of maximal rank with no earlier event of that rank |
| ProtocolTimeline.PeakActiveIffSomeActive | frontend/src/components/agent/ProtocolTimeline.tsx:55-59 | on a non-empty list the peak's status is not `none` iff some event's status is not `none` |
| ProtocolTimeline.ShowsPeakBadge | frontend/src/components/agent/ProtocolTimeline.tsx:102 | the "Peak" badge is shown iff some event's status is not `none` |
| ProtocolTimeline.FormatTime | frontend/src/components/agent/ProtocolTimeline.tsx:64-74 | "Just now" iff less than a minute has elapsed (future timestamps included); minutes iff 1 to 59 whole minutes, with their number; hours iff 1 to 23 whole hours, with their number; otherwise the calendar date |
| ProtocolTimeline.TimeLabelText | frontend/src/components/agent/ProtocolTimeline.tsx:70-73 | "Just now" for the first bucket; for minutes and hours a run of digits that reads back as the bucket's count, followed by `m ago` or `h ago`; the locale's date for older timestamps |
| ProtocolTimeline.FormatTimeBoundaries | frontend/src/components/agent/ProtocolTimeline.tsx:67-72 | 59,999 ms is "Just now", 60,000 ms is 1 minute, one hour less 1 ms is 59 minutes, exactly one hour is 1 hour, one day less 1 ms is 23 hours, one day is a date |
| ProtocolTimeline.BoundaryTexts | frontend/src/components/agent/ProtocolTimeline.tsx:70-73 | the rendered texts at the boundaries are "Just now", "1m ago", "59m ago", "1h ago" and "23h ago", and from one day on the locale's date string |
| VisionEngineStatus.StatusConfig | frontend/src/components/agent/VisionEngineStatus.tsx:22-27 | `STATUS_CONFIG` gives a non-empty colour, label and icon for each of the four statuses |
| VisionEngineStatus.StatusConfigDistinct | frontend/src/components/agent/VisionEngineStatus.tsx:22-27 | different statuses have different colours and different labels |
| VisionEngineStatus.HealthFromPayload | frontend/src/components/agent/VisionEngineStatus.tsx:57-65 | `newHealth` is ready iff `data.ready`, else loading; a missing or empty model or device falls back to `vikhyatk/moondream2` and `cpu`; the metrics are copied; the check time is `now`; there is no error message |
| VisionEngineStatus.ErrorHealth | frontend/src/components/agent/VisionEngineStatus.tsx:72-78 | `errorHealth` has status error, keeps the previous model and device, drops every metric, and carries the message and the check time |
| VisionEngineStatus.FailureMessage | frontend/src/components/agent/VisionEngineStatus.tsx:53-76 | a check fails exactly unless the response is OK and its body parses; a non-OK response fails with `"HTTP "` and the status code, a rejection with the thrown value's text |
| VisionEngineStatus.NextHealth | frontend/src/components/agent/VisionEngineStatus.tsx:43-80 | with an override the new record is the override, whatever the endpoint would answer; without one its status is error iff the check failed, it is never offline, and the check time is `now` |
| VisionEngineStatus.OkResponse | frontend/src/components/agent/VisionEngineStatus.tsx:55-65 | an OK response is ready iff `data.ready`, loading otherwise, uses the defaults for a missing model or device, and stamps `now` without an error |
| VisionEngineStatus.NonOkResponse | frontend/src/components/agent/VisionEngineStatus.tsx:68-70 | a non-OK response becomes an error with message `"HTTP "` followed by the status code, keeping model and device |
| VisionEngineStatus.FailurePreservesIdentity | frontend/src/components/agent/VisionEngineStatus.tsx:71-78 | every failing check keeps model and device, drops the metrics, records the failure message and stamps `now` |
| VisionEngineStatus.NonErrorThrowIsUnknown | frontend/src/components/agent/VisionEngineStatus.tsx:76 | a thrown value that is not an `Error` is reported as `'Unknown error'` |
| VisionEngineStatus.ShowsErrorPanel | frontend/src/components/agent/VisionEngineStatus.tsx:163-167 | the error panel appears only with a non-empty message and only under the red "Error" header |
| VisionEngineStatus.ErrorPanelAfterCheck | frontend/src/components/agent/VisionEngineStatus.tsx:163 | after a check without an override the error panel shows iff the check failed with a non-empty message; a non-OK response or a non-`Error` throw always shows it |
| VisionEngineStatus.EngineMonitor.constructor | frontend/src/components/agent/VisionEngineStatus.tsx:35-41 | the component starts offline with model `Unknown` and device `cpu`, loading, with no update time and nothing reported |
| VisionEngineStatus.EngineMonitor.ShownConfig | frontend/src/components/agent/VisionEngineStatus.tsx:93 | the header shows a non-empty colour, label and icon that belong to the current status and to no other |
| VisionEngineStatus.EngineMonitor.FetchHealth | frontend/src/components/agent/VisionEngineStatus.tsx:43-85 | one check sets the record the outcome determines, reports it to the observer exactly once when one is installed, clears the loading flag and stamps the update time |
| Dashboard.PickIndex | frontend/src/pages/showcase/AgentVisionDashboard.tsx:53 | `Math.floor(Math.random() * n)` is a valid index below `n`, and it is the floor of `r * n` |
| Dashboard.ParseClass | frontend/src/pages/showcase/AgentVisionDashboard.tsx:14 | a string parses to the catalogued class whose name it is, and to `None` exactly when it names none of the seven |
| Dashboard.Templates | frontend/src/pages/showcase/AgentVisionDashboard.tsx:18-50 | every catalogued class has at least two analysis templates |
| Dashboard.TemplatesFor | frontend/src/pages/showcase/AgentVisionDashboard.tsx:54 | a class with an entry gets its own templates, and any other string gets the person templates |
| Dashboard.ChooseSeverity | frontend/src/pages/showcase/AgentVisionDashboard.tsx:56-64 | fire is emergency iff the draw exceeds 0.3, else critical; weapon is critical iff the draw exceeds 0.2, else emergency |
| Dashboard.SeverityChoiceRange | frontend/src/pages/showcase/AgentVisionDashboard.tsx:56-64 | fire and weapon always get a high-priority status, and any other class gets each of the five statuses for some draw |
| Dashboard.OneDigitCameraId | frontend/src/pages/showcase/AgentVisionDashboard.tsx:73 | camera numbers 1 to 9 give `CAM-00` followed by the digit |
| Dashboard.TenthCameraId | frontend/src/pages/showcase/AgentVisionDashboard.tsx:73 | camera number 10 gives `CAM-010` |
| Dashboard.DemoCameraIds | frontend/src/pages/showcase/AgentVisionDashboard.tsx:73 | every demo camera id has seven characters and starts with `CAM-` |
| Dashboard.MockInsightShape | frontend/src/pages/showcase/AgentVisionDashboard.tsx:52-75 | a generated insight has a catalogued class, one of that class's templates, a timestamp in the hour up to `now`, a confidence in `[0.7, 1)`, high priority for fire and weapon, and one of the ten demo cameras |
| Dashboard.InsightIdsDistinct | frontend/src/pages/showcase/AgentVisionDashboard.tsx:67 | insights generated with different indices have different ids, whatever the clock read at each call |
| Dashboard.MockEvent | frontend/src/pages/showcase/AgentVisionDashboard.tsx:77-86 | the event's id is `"event-"` followed by the insight's id, and stripping the first `"event-"` gives the insight's id back; the event copies the insight's timestamp, status, class and camera, and describes it by its analysis |
| Dashboard.FindInsightIndex | frontend/src/pages/showcase/AgentVisionDashboard.tsx:135 | `find` returns the first insight with the id, and nothing exactly when no insight has it |
| Dashboard.RelatedInsight | frontend/src/pages/showcase/AgentVisionDashboard.tsx:134-135 | the click selects something iff a buffered insight has the event id with its first `"event-"` removed, and what it selects is such a buffered insight |
| Dashboard.ClickFindsSourceInsight | frontend/src/pages/showcase/AgentVisionDashboard.tsx:134-139 | clicking an insight's event finds something iff an insight with that id is still buffered, it finds one with that id, and it finds the insight itself when ids are unique |
| Dashboard.PushBounded | frontend/src/pages/showcase/AgentVisionDashboard.tsx:116-117 | prepend-then-slice keeps `min(capacity, len(buf) + 1)` items, never more than the capacity: the new one first, then the older ones in their order |
| Dashboard.PushAllKeepsNewest | frontend/src/pages/showcase/AgentVisionDashboard.tsx:116-117 | after any run of pushes the buffer is the pushed items newest-first, followed by the former contents, truncated to the capacity; this holds from any buffer within the capacity, and from an over-full one (as after an emergency injection) once at least one item is pushed |
| Dashboard.BufferRetainsMostRecent | frontend/src/pages/showcase/AgentVisionDashboard.tsx:116-117 | starting empty, the buffer holds exactly the `capacity` most recently pushed items in reverse arrival order |
| Dashboard.PerturbHealth | frontend/src/pages/showcase/AgentVisionDashboard.tsx:120-124 | requests per minute move by at most 2 (never below 1), average response time by -50 to +49 (never below 100), and every other field is unchanged |
| Dashboard.EmergencyInsight | frontend/src/pages/showcase/AgentVisionDashboard.tsx:148-156 | the injected insight is a fire emergency stamped `now`, of the highest severity rank |
| Dashboard.ActiveProtocols | frontend/src/pages/showcase/AgentVisionDashboard.tsx:293 | the active-protocol count is the number of insights less the number whose status is `none` |
| Dashboard.HighPriorityCount | frontend/src/pages/showcase/AgentVisionDashboard.tsx:299 | the high-priority count is at most the active-protocol count, and positive iff some insight is high priority |
| Dashboard.HighPriorityCountIsMultiplicity | frontend/src/pages/showcase/AgentVisionDashboard.tsx:299 | the high-priority count is the number of `critical` insights plus the number of `emergency` ones |
| Dashboard.Cameras | frontend/src/pages/showcase/AgentVisionDashboard.tsx:305 | the camera set is exactly the set of the insights' camera ids (a missing id counting as one value), so it has no more members than there are insights |
| Dashboard.Footer | frontend/src/pages/showcase/AgentVisionDashboard.tsx:286-309 | High Priority <= Active Protocols <= Total = `len(insights)`, Active Cameras <= Total, and High Priority is positive iff the panel's badge condition holds |
| Dashboard.PushKeepsCorrelation | frontend/src/pages/showcase/AgentVisionDashboard.tsx:116-117 | prepending an insight and its event, capped or not, keeps every buffered insight's event at the same index of the event buffer |
| Dashboard.ClickOnCorrelatedEvent | frontend/src/pages/showcase/AgentVisionDashboard.tsx:134-139 | in correlated buffers, clicking the event at a buffered insight's index selects an insight with that id, and that very insight when ids are unique |
| Dashboard.SeedInsights | frontend/src/pages/showcase/AgentVisionDashboard.tsx:105 | the seed is the insights generated for indices 0 to 9, in that order; their ids are pairwise different and their timestamps lie in the hour up to `now` |
| Dashboard.SeedClickSelectsSource | frontend/src/pages/showcase/AgentVisionDashboard.tsx:104-139 | right after seeding, clicking the event at index `k` selects exactly the insight at index `k` |
| Dashboard.EventsOf | frontend/src/pages/showcase/AgentVisionDashboard.tsx:107 | the seeded events are one per insight, and each is that insight's event |
| Dashboard.AgentVisionDashboard.constructor | frontend/src/pages/showcase/AgentVisionDashboard.tsx:88-101 | the page starts with empty buffers, not live, nothing selected, no filter, and the demo engine record (ready, moondream2 on cpu, 512 MiB, 12 req/min, 450 ms) |
| Dashboard.AgentVisionDashboard.SeedInitialData | frontend/src/pages/showcase/AgentVisionDashboard.tsx:104-108 | the mount effect sets ten insights and their ten events, each at the index of its insight, and changes nothing else |
| Dashboard.AgentVisionDashboard.ToggleLiveMode | frontend/src/pages/showcase/AgentVisionDashboard.tsx:174 | the button flips live mode and nothing else |
| Dashboard.AgentVisionDashboard.PushLiveInsight | frontend/src/pages/showcase/AgentVisionDashboard.tsx:116-124 | one interval firing pushes the insight and its event into the buffers capped at 50 and 100, perturbs the engine metrics, and keeps the buffers correlated |
| Dashboard.AgentVisionDashboard.Tick | frontend/src/pages/showcase/AgentVisionDashboard.tsx:111-128 | in live mode a tick puts the new insight first, within the capacities of 50 and 100, and perturbs the metrics; outside live mode nothing changes |
| Dashboard.AgentVisionDashboard.SimulateEmergency | frontend/src/pages/showcase/AgentVisionDashboard.tsx:147-160 | the emergency insight and its event are prepended without truncation, so both buffers grow by exactly one, and the insight becomes the selection |
| Dashboard.AgentVisionDashboard.ClearData | frontend/src/pages/showcase/AgentVisionDashboard.tsx:141-145 | both buffers become empty and the selection is cleared |
| Dashboard.AgentVisionDashboard.InsightClick | frontend/src/pages/showcase/AgentVisionDashboard.tsx:130-132 | clicking a card selects that insight and changes nothing else |
| Dashboard.AgentVisionDashboard.EventClick | frontend/src/pages/showcase/AgentVisionDashboard.tsx:134-139 | clicking an event selects its related buffered insight if there is one, and otherwise keeps the selection |
| Dashboard.AgentVisionDashboard.CloseDetail | frontend/src/pages/showcase/AgentVisionDashboard.tsx:222 | the close button clears the selection and nothing else |
| Dashboard.AgentVisionDashboard.EngineCheck | frontend/src/pages/showcase/AgentVisionDashboard.tsx:209-213 | the engine panel gets the dashboard's record as its override and reports back into it, so a check leaves the page state as it is |
| Dashboard.AgentVisionDashboard.FooterRow | frontend/src/pages/showcase/AgentVisionDashboard.tsx:286-309 | the footer row of the current buffer keeps High Priority <= Active Protocols <= Total |
| Dashboard.AgentVisionDashboard.PanelCards | frontend/src/pages/showcase/AgentVisionDashboard.tsx:266-271 | the panel shows the first `min(8, len(insights))` buffered insights, in buffer order |
| Dashboard.AgentVisionDashboard.TimelineRows | frontend/src/pages/showcase/AgentVisionDashboard.tsx:276-281 | with the filter never set, the timeline shows `min(15, len(events))` buffered events newest-first, and each is at least as new as every event it leaves out |

## Left out

- JSX rendering, CSS class selection, `aria`/`data-testid` attributes and icons are not modelled. The only exceptions are the visibility conditions listed above: the badges, the "+N more" line, the truncation note and the error panel.
- Floating point: `confidence` is a Dafny `real` that is carried but never computed on after generation. The `toFixed` percentage and millisecond displays, `formatMemory` and the engine panel's `formatTime` are not modelled.
- Locale formatting (`toLocaleDateString`, `toLocaleTimeString`, `toLocaleString`) is a parameter `localeDate` in `TimeLabelText` and is left out elsewhere.
- Asynchrony and scheduling are left out:
  - `fetch` and `response.json()` are reduced to their outcome, the `FetchOutcome` datatype;
  - `setInterval`/`clearInterval` (the 3-second tick and the 30-second health refresh) are reduced to explicit `Tick` and `EngineCheck` calls;
  - React's batching, memoisation and re-rendering are not modelled;
  - `fetchHealth` closes over `health.model`/`health.device`, which can be stale. The model always uses the current record.
- FetchHealth: the observer `onStatusChange` is modelled as never throwing. In the source, an observer that throws on the OK path sends control to the `catch` block, so the observer is called a second time with an error record and the check ends in error. The model records one notification and the OK record.
- `FetchHealth` uses one `now` for both `lastHealthCheck` and `lastUpdate`. The source reads the clock twice, in `Date.now()` and in `new Date()` in the `finally` block, so the two can differ by the time the check takes.
- The endpoint's metrics (`memory_usage`, `requests_per_minute`, `avg_response_time`) are integers. The source copies any JSON value there, including fractional numbers.
- The summary bar iterates `Object.entries(priorityCounts)`, whose order is the order in which statuses first occur. The model's count map is a Dafny `map`, which has no order, so that display order is not modelled.
- `Math.random` and `Date.now` are explicit inputs. Dafny's `real` stands in for a floating-point draw in `[0, 1)`, and the floors are exact on it.
- A single `now` is used per generated insight and per seed. The source reads the clock separately for the id and the timestamp of each insight.
- `MockInsight`, `InsightId` and `CameraId` have no contract of their own. Their properties are stated by `MockInsightShape`, `InsightIdsDistinct` and `DemoCameraIds`.
- Ids are not assumed to be unique in general. Where the source's click correlation relies on uniqueness, the lemmas take it as a hypothesis: `ClickFindsSourceInsight` and `ClickOnCorrelatedEvent`. For the seed, uniqueness is proved (`SeedInsights`, `SeedClickSelectsSource`). Ids added later by live ticks and emergency injections are not proved different from the ids already buffered.
- Record lookups with keys inherited from `Object.prototype` (such as `"constructor"` or `"toString"`) are not modelled. In JavaScript, `PROTOCOL_COLORS["constructor"]` is a function and therefore truthy. The model treats every string that is not a status name as missing.
- `VisionEngineHealth.device` is a string, because the source copies the endpoint's value without checking it against `'cpu' | 'cuda' | 'mps'`.
- `frontend/src/main.tsx` (application bootstrapping) and `frontend/src/components/agent/index.ts` (re-exports) have no logic and are not part of this model.
