/** The agent vision dashboard (frontend/src/pages/showcase/AgentVisionDashboard.tsx): the mock
    generators, the two newest-first buffers and the handlers that replace its state.
    Every `Math.random()` is an explicit draw in [0, 1) and every `Date.now()` is `now`. */
module Dashboard {
  import opened Common
  import opened InsightPanel
  import opened ProtocolTimeline
  import opened VisionEngineStatus

  // ---------------------------------------------------------------------------------
  // Random choices

  /** A value `Math.random()` can return. */
  predicate IsDraw(r: real)
  {
    0.0 <= r < 1.0
  }

  /** `Math.floor(r * n)`: a uniform index below `n`. */
  function PickIndex(r: real, n: nat): (i: nat)
    requires IsDraw(r) && n > 0
    ensures i < n
    ensures (i as real) <= r * (n as real) < (i as real) + 1.0
  {
    var x := r * (n as real);
    assert 0.0 <= x < n as real by {
      assert r * (n as real) < 1.0 * (n as real);
    }
    x.Floor
  }

  /** The seven keys of the demo catalogue. */
  datatype ObjectClass = Person | Car | Bicycle | Dog | Backpack | Fire | Weapon

  /** The string the source uses for a class. */
  function ClassName(c: ObjectClass): string
  {
    match c
    case Person => "person"
    case Car => "car"
    case Bicycle => "bicycle"
    case Dog => "dog"
    case Backpack => "backpack"
    case Fire => "fire"
    case Weapon => "weapon"
  }

  /** The catalogued class a string names, if any. */
  function ParseClass(s: string): (r: Option<ObjectClass>)
    ensures r.Some? ==> ClassName(r.value) == s
    ensures r.None? ==> forall c :: ClassName(c) != s
  {
    if s == "person" then Some(Person)
    else if s == "car" then Some(Car)
    else if s == "bicycle" then Some(Bicycle)
    else if s == "dog" then Some(Dog)
    else if s == "backpack" then Some(Backpack)
    else if s == "fire" then Some(Fire)
    else if s == "weapon" then Some(Weapon)
    else None
  }

  /** `OBJECT_CLASSES`, in the source's order. */
  const ObjectClasses: seq<ObjectClass> := [Person, Car, Bicycle, Dog, Backpack, Fire, Weapon]

  const ProtocolStatuses: seq<ProtocolStatus> := [NoProtocol, Monitoring, Alert, Critical, Emergency]

  // The `ANALYSIS_TEMPLATES` record, one constant per entry.
  const PersonTemplates: seq<string> := [
      "Individual walking through monitored area, normal activity pattern detected.",
      "Person detected wearing safety equipment in industrial zone.",
      "Multiple individuals congregating near entrance area.",
      "Individual appearing distressed, unusual movement patterns observed."]
  const CarTemplates: seq<string> := [
      "Vehicle entering parking area, license plate captured.",
      "Vehicle stationary for extended period in restricted zone.",
      "High-speed vehicle detected on monitored road."]
  const FireTemplates: seq<string> := [
      "Smoke and flames detected in warehouse section B. Immediate evacuation recommended.",
      "Thermal anomaly suggesting fire hazard detected in electrical panel area."]
  const WeaponTemplates: seq<string> := [
      "Potential weapon-like object detected. Security alert triggered.",
      "Individual with suspicious object near entry checkpoint."]
  const BicycleTemplates: seq<string> := [
      "Cyclist moving through pedestrian area.",
      "Bicycle parked in designated area."]
  const DogTemplates: seq<string> := [
      "Unaccompanied animal detected in restricted zone.",
      "Service animal accompanying individual."]
  const BackpackTemplates: seq<string> := [
      "Unattended bag detected near entrance. Monitoring initiated.",
      "Individual with large bag entering secure area."]

  /** The `ANALYSIS_TEMPLATES` entry of a catalogued class. */
  function Templates(c: ObjectClass): (t: seq<string>)
    ensures |t| >= 2
  {
    match c
    case Person => PersonTemplates
    case Car => CarTemplates
    case Fire => FireTemplates
    case Weapon => WeaponTemplates
    case Bicycle => BicycleTemplates
    case Dog => DogTemplates
    case Backpack => BackpackTemplates
  }

  /** `ANALYSIS_TEMPLATES[objectClass] || ANALYSIS_TEMPLATES.person`: a present array is truthy, so
      only a string without an entry falls back to the person templates. */
  function TemplatesFor(objectClass: string): (t: seq<string>)
    ensures |t| >= 2
    ensures forall c :: objectClass == ClassName(c) ==> t == Templates(c)
    ensures (forall c :: objectClass != ClassName(c)) ==> t == Templates(Person)
  {
    match ParseClass(objectClass)
    case Some(c) => Templates(c)
    case None => Templates(Person)
  }

  /** The `let protocolStatus` branches of `generateMockInsight`. */
  function ChooseSeverity(objectClass: string, r: real): (st: ProtocolStatus)
    requires IsDraw(r)
    ensures objectClass == "fire" ==> (st == Emergency <==> r > 0.3) && (st == Critical <==> r <= 0.3)
    ensures objectClass == "weapon" ==> (st == Critical <==> r > 0.2) && (st == Emergency <==> r <= 0.2)
  {
    if objectClass == "fire" then (if r > 0.3 then Emergency else Critical)
    else if objectClass == "weapon" then (if r > 0.2 then Critical else Emergency)
    else ProtocolStatuses[PickIndex(r, |ProtocolStatuses|)]
  }

  /** Fire and weapon detections are always high priority; any other class can get each of the five
      statuses (the draw `k / 5` picks the `k`-th). */
  lemma {:induction false} SeverityChoiceRange(objectClass: string, r: real, k: nat)
    requires IsDraw(r) && k < 5
    ensures objectClass == "fire" || objectClass == "weapon" ==> IsHighPriority(ChooseSeverity(objectClass, r))
    ensures objectClass != "fire" && objectClass != "weapon" ==>
      ChooseSeverity(objectClass, (k as real) / 5.0) == ProtocolStatuses[k]
  {
    var d := (k as real) / 5.0;
    assert d * 5.0 == k as real;
    assert IsDraw(d);
    assert PickIndex(d, 5) == k;
  }

  /** The six `Math.random()` draws of one `generateMockInsight` call, in call order. */
  datatype InsightDraws = InsightDraws(objectClass: real, severity: real, confidence: real,
                                       template: real, age: real, camera: real)

  predicate ValidDraws(d: InsightDraws)
  {
    IsDraw(d.objectClass) && IsDraw(d.severity) && IsDraw(d.confidence)
      && IsDraw(d.template) && IsDraw(d.age) && IsDraw(d.camera)
  }

  /** `CAM-${String(n).padStart(3, '0')}`. */
  function CameraId(n: nat): string
  {
    "CAM-" + PadStart(NatToString(n), 3, '0')
  }

  /** Cameras 1 to 9 are `CAM-001` to `CAM-009`. */
  lemma OneDigitCameraId(n: nat)
    requires 1 <= n < 10
    ensures CameraId(n) == "CAM-00" + [DigitChar(n)]
  {
    var digits := NatToString(n);
    assert digits == [DigitChar(n)];
    assert seq(2, _ => '0') == ['0', '0'];
    var padded := PadStart(digits, 3, '0');
    assert padded == ['0', '0', DigitChar(n)];
  }

  /** Camera 10 is `CAM-010`. */
  lemma TenthCameraId()
    ensures CameraId(10) == "CAM-010"
  {
    assert NatToString(1) == ['1'];
    assert NatToString(10) == ['1', '0'];
    assert PadStart(['1', '0'], 3, '0') == ['0', '1', '0'];
  }

  /** The demo cameras 1 to 10 are `CAM-001` to `CAM-010`: seven characters, zero-padded. */
  lemma {:induction false} DemoCameraIds(n: nat)
    requires 1 <= n <= 10
    ensures |CameraId(n)| == 7 && CameraId(n)[..4] == "CAM-"
    ensures n < 10 ==> CameraId(n) == "CAM-00" + [DigitChar(n)]
    ensures n == 10 ==> CameraId(n) == "CAM-010"
  {
    if n < 10 {
      OneDigitCameraId(n);
    } else {
      TenthCameraId();
    }
  }

  /** `insight-${Date.now()}-${index}`: the clock reading and the index in decimal. */
  function InsightId(now: nat, index: nat): string
  {
    "insight-" + NatToString(now) + "-" + NatToString(index)
  }

  /** `generateMockInsight(index)` with the clock reading `now` and the draws `d`. */
  function MockInsight(index: nat, now: nat, d: InsightDraws): Insight
    requires ValidDraws(d)
  {
    var objectClass := ClassName(ObjectClasses[PickIndex(d.objectClass, |ObjectClasses|)]);
    var templates := TemplatesFor(objectClass);
    Insight(
      InsightId(now, index),
      objectClass,
      0.7 + d.confidence * 0.3,
      templates[PickIndex(d.template, |templates|)],
      ChooseSeverity(objectClass, d.severity),
      now - PickIndex(d.age, 3600000),
      Some(CameraId(PickIndex(d.camera, 10) + 1)))
  }

  /** What a generated insight looks like: a catalogued class, one of its own templates, a timestamp
      within the hour before `now`, a confidence in [0.7, 1) and one of the ten demo cameras. */
  lemma {:induction false} MockInsightShape(index: nat, now: nat, d: InsightDraws)
    requires ValidDraws(d)
    ensures var i := MockInsight(index, now, d);
      && (exists c :: c in ObjectClasses && i.objectClass == ClassName(c) && i.deepAnalysis in Templates(c))
      && now - 3600000 < i.timestamp <= now
      && 0.7 <= i.confidence < 1.0
      && (i.objectClass == "fire" || i.objectClass == "weapon" ==> IsHighPriority(i.protocolStatus))
      && (exists n :: 1 <= n <= 10 && i.cameraId == Some(CameraId(n)))
  {
    var i := MockInsight(index, now, d);
    var c := ObjectClasses[PickIndex(d.objectClass, |ObjectClasses|)];
    assert i.objectClass == ClassName(c) && i.deepAnalysis in Templates(c);
    SeverityChoiceRange(i.objectClass, d.severity, 0);
    assert 0.0 <= d.confidence * 0.3 < 0.3;
    var n := PickIndex(d.camera, 10) + 1;
    assert i.cameraId == Some(CameraId(n));
  }

  /** `A + "-" + J` splits back into `A` and `J` when `A` is all digits: the first `-` ends `A`. */
  lemma SplitAtDash(a: string, b: string, j: string, k: string)
    requires AllDigits(a) && AllDigits(b)
    requires a + "-" + j == b + "-" + k
    ensures a == b && j == k
  {
    var x, y := a + "-" + j, b + "-" + k;
    assert x[|a|] == '-' && y[|b|] == '-';
    assert a == x[..|a|] && b == y[..|b|];
    assert j == x[|a| + 1..] && k == y[|b| + 1..];
  }

  /** Two ids with different indices differ, whatever the clock read for each. */
  lemma {:induction false} InsightIdsDistinct(now: nat, now': nat, j: nat, k: nat)
    requires j != k
    ensures InsightId(now, j) != InsightId(now', k)
  {
    var p := "insight-";
    var x, y := NatToString(now) + "-" + NatToString(j), NatToString(now') + "-" + NatToString(k);
    assert InsightId(now, j) == p + x && InsightId(now', k) == p + y;
    if InsightId(now, j) == InsightId(now', k) {
      assert (p + x)[|p|..] == x && (p + y)[|p|..] == y;
      SplitAtDash(NatToString(now), NatToString(now'), NatToString(j), NatToString(k));
      NatToStringValue(j);
      NatToStringValue(k);
    }
  }

  /** `generateMockEvent`: the event of an insight, whose id is `"event-"` before the insight's id and
      strips back to it. */
  function MockEvent(i: Insight): (e: ProtocolEvent)
    ensures e.id == "event-" + i.id
    ensures ReplaceFirst(e.id, "event-", "") == i.id
    ensures e.timestamp == i.timestamp && e.protocolStatus == i.protocolStatus
    ensures e.objectClass == i.objectClass && e.cameraId == i.cameraId
    ensures e.description == Some(i.deepAnalysis)
  {
    ReplaceFirstOfPrefix("event-", i.id);
    ProtocolEvent("event-" + i.id, i.timestamp, i.protocolStatus, i.objectClass, Some(i.deepAnalysis), i.cameraId)
  }

  // ---------------------------------------------------------------------------------
  // Event click correlation

  /** `insights.find(i => i.id === id)`, as an index. */
  function FindInsightIndex(insights: seq<Insight>, id: string): (r: Option<nat>)
    ensures r.Some? ==> r.value < |insights| && insights[r.value].id == id
    ensures r.Some? ==> forall j :: 0 <= j < r.value ==> insights[j].id != id
    ensures r.None? ==> forall j :: 0 <= j < |insights| ==> insights[j].id != id
  {
    if insights == [] then None
    else if insights[0].id == id then Some(0)
    else match FindInsightIndex(insights[1..], id)
      case None => None
      case Some(k) => Some(k + 1)
  }

  /** The insight `handleEventClick` selects: the first buffered one whose id is the event id
      with its first `"event-"` removed, and nothing when no buffered insight has that id. */
  function RelatedInsight(insights: seq<Insight>, e: ProtocolEvent): (r: Option<Insight>)
    ensures r.Some? <==> exists j :: 0 <= j < |insights| && insights[j].id == ReplaceFirst(e.id, "event-", "")
    ensures r.Some? ==> r.value in insights && r.value.id == ReplaceFirst(e.id, "event-", "")
  {
    match FindInsightIndex(insights, ReplaceFirst(e.id, "event-", ""))
    case None => None
    case Some(k) => Some(insights[k])
  }

  /** Clicking the event of any insight looks that insight's id up: it selects the first buffered
      insight with that id, and nothing when the insight has been evicted or cleared. */
  lemma {:induction false} ClickFindsSourceInsight(insights: seq<Insight>, x: Insight)
    ensures RelatedInsight(insights, MockEvent(x)).Some? <==> exists j :: 0 <= j < |insights| && insights[j].id == x.id
    ensures RelatedInsight(insights, MockEvent(x)).Some? ==> RelatedInsight(insights, MockEvent(x)).value.id == x.id
    ensures x in insights && (forall i :: i in insights && i.id == x.id ==> i == x) ==>
      RelatedInsight(insights, MockEvent(x)) == Some(x)
  {
    var k := FindInsightIndex(insights, x.id);
    if x in insights {
      var j :| 0 <= j < |insights| && insights[j] == x;
      assert insights[j].id == x.id;
    }
  }

  // ---------------------------------------------------------------------------------
  // Bounded newest-first buffers

  /** `[x, ...prev.slice(0, capacity - 1)]`. */
  function PushBounded<T>(x: T, buf: seq<T>, capacity: nat): (r: seq<T>)
    requires capacity >= 1
    ensures |r| == Min(capacity, |buf| + 1) <= capacity
    ensures r == ([x] + buf)[..|r|]
  {
    assert ([x] + buf)[1..] == buf;
    [x] + Slice(buf, capacity - 1)
  }

  function Reverse<T>(s: seq<T>): (r: seq<T>)
    ensures |r| == |s|
    ensures forall i :: 0 <= i < |s| ==> r[i] == s[|s| - 1 - i]
  {
    if s == [] then [] else Reverse(s[1..]) + [s[0]]
  }

  /** A run of pushes, oldest first. */
  function PushAll<T>(buf: seq<T>, xs: seq<T>, capacity: nat): seq<T>
    requires capacity >= 1
    decreases |xs|
  {
    if xs == [] then buf else PushAll(PushBounded(xs[0], buf, capacity), xs[1..], capacity)
  }

  /** After any run of pushes the buffer holds the `capacity` most recent items, newest first
      (followed by what it held before, while there is room). */
  lemma {:induction false} PushAllKeepsNewest<T>(buf: seq<T>, xs: seq<T>, capacity: nat)
    requires capacity >= 1 && (|buf| <= capacity || xs != [])
    ensures PushAll(buf, xs, capacity) == (Reverse(xs) + buf)[..Min(capacity, |xs| + |buf|)]
    decreases |xs|
  {
    if xs == [] {
      assert Reverse(xs) + buf == buf;
    } else {
      var pb := PushBounded(xs[0], buf, capacity);
      PushAllKeepsNewest(pb, xs[1..], capacity);
      var a := Reverse(xs[1..]);
      assert Reverse(xs) == a + [xs[0]];
      var m := Min(capacity, |xs| + |buf|);
      var lhs := (a + pb)[..Min(capacity, |xs| - 1 + |pb|)];
      var rhs := (Reverse(xs) + buf)[..m];
      assert |lhs| == m;
      forall i | 0 <= i < m ensures lhs[i] == rhs[i] {
        if i >= |a| {
          assert lhs[i] == pb[i - |a|];
          assert rhs[i] == ([xs[0]] + buf)[i - |a|];
        }
      }
      assert lhs == rhs;
    }
  }

  /** Starting empty: exactly the last `capacity` items pushed, newest first. */
  lemma {:induction false} BufferRetainsMostRecent<T>(xs: seq<T>, capacity: nat)
    requires capacity >= 1
    ensures |PushAll([], xs, capacity)| == Min(capacity, |xs|)
    ensures forall i :: 0 <= i < |PushAll([], xs, capacity)| ==> PushAll([], xs, capacity)[i] == xs[|xs| - 1 - i]
  {
    PushAllKeepsNewest([], xs, capacity);
    assert Reverse(xs) + [] == Reverse(xs);
  }

  // ---------------------------------------------------------------------------------
  // Health perturbation and fixed records

  /** The engine record the dashboard starts with. */
  const DemoHealth: VisionEngineHealth :=
    VisionEngineHealth(Ready, DefaultModel, "cpu", Some(512 * 1024 * 1024), Some(12), Some(450), None, None)

  /** The live tick's update of the engine record: `requestsPerMinute` moves by
      `floor(r * 5) - 2` (floored at 1), `avgResponseTime` by `floor(r * 100) - 50` (floored at 100),
      and nothing else changes. The `!` in the source presumes both metrics present. */
  function PerturbHealth(h: VisionEngineHealth, rpmDraw: real, artDraw: real): (h': VisionEngineHealth)
    requires IsDraw(rpmDraw) && IsDraw(artDraw)
    requires h.requestsPerMinute.Some? && h.avgResponseTime.Some?
    ensures h'.requestsPerMinute.Some? && h'.avgResponseTime.Some?
    ensures var rpm, rpm' := h.requestsPerMinute.value, h'.requestsPerMinute.value;
      Max(1, rpm - 2) <= rpm' <= Max(1, rpm + 2) && 1 <= rpm'
    ensures var art, art' := h.avgResponseTime.value, h'.avgResponseTime.value;
      Max(100, art - 50) <= art' <= Max(100, art + 49) && 100 <= art'
    ensures h' == h.(requestsPerMinute := h'.requestsPerMinute, avgResponseTime := h'.avgResponseTime)
  {
    h.(requestsPerMinute := Some(Max(1, h.requestsPerMinute.value + PickIndex(rpmDraw, 5) - 2)),
       avgResponseTime := Some(Max(100, h.avgResponseTime.value + PickIndex(artDraw, 100) - 50)))
  }

  const EmergencyAnalysis: string :=
    "\U{1F6A8} EMERGENCY: Fire and smoke detected in warehouse area. Multiple heat signatures. Immediate evacuation protocol activated."

  /** The insight `handleSimulateEmergency` injects. */
  function EmergencyInsight(now: nat): (i: Insight)
    ensures i.objectClass == "fire" && i.protocolStatus == Emergency && i.timestamp == now
    ensures SeverityOrder(i.protocolStatus) == 5
  {
    Insight("emergency-" + NatToString(now), "fire", 0.98, EmergencyAnalysis, Emergency, now, Some("CAM-001"))
  }

  // ---------------------------------------------------------------------------------
  // Footer stats

  lemma StatusesOfCons(insights: seq<Insight>)
    requires insights != []
    ensures multiset(Statuses(insights)) == multiset{insights[0].protocolStatus} + multiset(Statuses(insights[1..]))
  {
    assert Statuses(insights) == [insights[0].protocolStatus] + Statuses(insights[1..]);
  }

  /** `insights.filter(i => i.protocolStatus !== 'none').length`. */
  function ActiveProtocols(insights: seq<Insight>): (n: nat)
    ensures n <= |insights|
    ensures n == |insights| - multiset(Statuses(insights))[NoProtocol]
  {
    if insights == [] then 0
    else
      assert insights == [insights[0]] + insights[1..];
      StatusesOfCons(insights);
      (if insights[0].protocolStatus != NoProtocol then 1 else 0) + ActiveProtocols(insights[1..])
  }

  /** `insights.filter(i => emergency or critical).length`. */
  function HighPriorityCount(insights: seq<Insight>): (n: nat)
    ensures n <= ActiveProtocols(insights)
    ensures n > 0 <==> HasHighPriority(insights)
  {
    if insights == [] then 0
    else
      assert insights == [insights[0]] + insights[1..];
      (if IsHighPriority(insights[0].protocolStatus) then 1 else 0) + HighPriorityCount(insights[1..])
  }

  /** The high-priority count is the number of `critical` insights plus the number of `emergency` ones. */
  lemma {:induction false} HighPriorityCountIsMultiplicity(insights: seq<Insight>)
    ensures HighPriorityCount(insights) ==
      multiset(Statuses(insights))[Critical] + multiset(Statuses(insights))[Emergency]
  {
    if insights != [] {
      HighPriorityCountIsMultiplicity(insights[1..]);
      StatusesOfCons(insights);
    }
  }

  /** `new Set(insights.map(i => i.cameraId))`: exactly the camera ids that occur, a missing one being
      one value of the set. */
  function Cameras(insights: seq<Insight>): (cams: set<Option<string>>)
    ensures |cams| <= |insights|
    ensures cams == set i | i in insights :: i.cameraId
  {
    if insights == [] then {}
    else
      assert insights == [insights[0]] + insights[1..];
      {insights[0].cameraId} + Cameras(insights[1..])
  }

  datatype FooterStats = FooterStats(total: nat, activeProtocols: nat, highPriority: nat, activeCameras: nat)

  /** The footer: High Priority <= Active Protocols <= Total, and no more cameras than insights. */
  function Footer(insights: seq<Insight>): (f: FooterStats)
    ensures f.highPriority <= f.activeProtocols <= f.total == |insights|
    ensures f.activeCameras <= f.total
    ensures f.highPriority > 0 <==> HasHighPriority(insights)
  {
    FooterStats(|insights|, ActiveProtocols(insights), HighPriorityCount(insights), |Cameras(insights)|)
  }

  // ---------------------------------------------------------------------------------
  // The dashboard state

  const InsightCapacity: nat := 50
  const EventCapacity: nat := 100

  /** Both buffers are prepended in lock step, so each buffered insight has its event at the same index;
      the event buffer keeps more, so it is never the shorter one. */
  ghost predicate Correlated(insights: seq<Insight>, events: seq<ProtocolEvent>)
  {
    |insights| <= |events| && forall k :: 0 <= k < |insights| ==> events[k] == MockEvent(insights[k])
  }

  /** Pushing an insight and its event keeps the buffers correlated, whether they are capped at
      50 and 100 (the tick) or not capped at all (the emergency injection). */
  lemma {:induction false} PushKeepsCorrelation(x: Insight, insights: seq<Insight>, events: seq<ProtocolEvent>)
    requires Correlated(insights, events)
    ensures Correlated(PushBounded(x, insights, InsightCapacity), PushBounded(MockEvent(x), events, EventCapacity))
    ensures Correlated([x] + insights, [MockEvent(x)] + events)
  {
    var ins, evs := PushBounded(x, insights, InsightCapacity), PushBounded(MockEvent(x), events, EventCapacity);
    forall k | 0 <= k < |ins| ensures evs[k] == MockEvent(ins[k]) {
      if k > 0 {
        assert ins[k] == insights[k - 1];
        assert evs[k] == events[k - 1];
      }
    }
    var ins', evs' := [x] + insights, [MockEvent(x)] + events;
    forall k | 0 <= k < |ins'| ensures evs'[k] == MockEvent(ins'[k]) {
      if k > 0 {
        assert ins'[k] == insights[k - 1];
        assert evs'[k] == events[k - 1];
      }
    }
  }

  /** Clicking the event at the index of a buffered insight finds an insight with that insight's id
      (that very insight when ids are unique). */
  lemma {:induction false} ClickOnCorrelatedEvent(insights: seq<Insight>, events: seq<ProtocolEvent>, k: nat)
    requires Correlated(insights, events) && k < |insights|
    ensures RelatedInsight(insights, events[k]).Some?
    ensures RelatedInsight(insights, events[k]).value.id == insights[k].id
    ensures (forall j :: 0 <= j < |insights| && insights[j].id == insights[k].id ==> j == k) ==>
      RelatedInsight(insights, events[k]) == Some(insights[k])
  {
    ClickFindsSourceInsight(insights, insights[k]);
    var r := FindInsightIndex(insights, insights[k].id);
    assert r.Some?;
  }

  /** The ten seed insights have pairwise different ids and lie in the hour up to `now`. */
  lemma {:induction false} SeedFacts(now: nat, draws: seq<InsightDraws>)
    requires |draws| == 10 && forall k :: 0 <= k < 10 ==> ValidDraws(draws[k])
    ensures forall j, k :: 0 <= j < 10 && 0 <= k < 10 && j != k ==>
      MockInsight(j, now, draws[j]).id != MockInsight(k, now, draws[k]).id
    ensures forall k :: 0 <= k < 10 ==> now - 3600000 < MockInsight(k, now, draws[k]).timestamp <= now
  {
    forall j, k | 0 <= j < 10 && 0 <= k < 10 && j != k
      ensures MockInsight(j, now, draws[j]).id != MockInsight(k, now, draws[k]).id
    {
      InsightIdsDistinct(now, now, j, k);
    }
    forall k | 0 <= k < 10 ensures now - 3600000 < MockInsight(k, now, draws[k]).timestamp <= now {
      MockInsightShape(k, now, draws[k]);
    }
  }

  /** `Array.from({ length: 10 }, (_, i) => generateMockInsight(i))`: the insights of indices 0 to 9, in
      order, with pairwise different ids, all from the hour up to `now`. */
  function SeedInsights(now: nat, draws: seq<InsightDraws>): (s: seq<Insight>)
    requires |draws| == 10 && forall k :: 0 <= k < 10 ==> ValidDraws(draws[k])
    ensures |s| == 10
    ensures forall k :: 0 <= k < 10 ==> s[k] == MockInsight(k, now, draws[k])
    ensures forall j, k :: 0 <= j < 10 && 0 <= k < 10 && s[j].id == s[k].id ==> j == k
    ensures forall k :: 0 <= k < 10 ==> now - 3600000 < s[k].timestamp <= now
  {
    SeedFacts(now, draws);
    seq(10, k requires 0 <= k < 10 => MockInsight(k, now, draws[k]))
  }

  /** In the seeded dashboard, clicking the event at index `k` selects exactly the insight at index `k`. */
  lemma {:induction false} SeedClickSelectsSource(now: nat, draws: seq<InsightDraws>, k: nat)
    requires |draws| == 10 && forall k :: 0 <= k < 10 ==> ValidDraws(draws[k])
    requires k < 10
    ensures var s := SeedInsights(now, draws); RelatedInsight(s, EventsOf(s)[k]) == Some(s[k])
  {
    var s := SeedInsights(now, draws);
    ClickOnCorrelatedEvent(s, EventsOf(s), k);
  }

  /** `initialInsights.map(generateMockEvent)`. */
  function EventsOf(insights: seq<Insight>): (s: seq<ProtocolEvent>)
    ensures Correlated(insights, s) && |s| == |insights|
  {
    seq(|insights|, k requires 0 <= k < |insights| => MockEvent(insights[k]))
  }

  class AgentVisionDashboard {
    var insights: seq<Insight>
    var events: seq<ProtocolEvent>
    var isLiveMode: bool
    var selectedInsight: Option<Insight>
    var filterStatus: Option<string>
    var engineHealth: VisionEngineHealth

    /** The buffers stay correlated, the tick's metrics are present, and the filter is never set
        (the dashboard holds `setFilterStatus` but never calls it). */
    ghost predicate Valid()
      reads this
    {
      && Correlated(insights, events)
      && engineHealth.requestsPerMinute.Some? && engineHealth.avgResponseTime.Some?
      && filterStatus.None?
    }

    /** The `useState` initial values. */
    constructor ()
      ensures Valid()
      ensures insights == [] && events == [] && !isLiveMode
      ensures selectedInsight.None? && filterStatus.None? && engineHealth == DemoHealth
    {
      insights, events := [], [];
      isLiveMode := false;
      selectedInsight, filterStatus := None, None;
      engineHealth := DemoHealth;
    }

    /** The mount effect: ten generated insights and their ten events. */
    method SeedInitialData(now: nat, draws: seq<InsightDraws>)
      requires Valid()
      requires |draws| == 10 && forall k :: 0 <= k < 10 ==> ValidDraws(draws[k])
      modifies this
      ensures Valid()
      ensures insights == SeedInsights(now, draws) && events == EventsOf(insights)
      ensures |insights| == 10 && |events| == 10
      ensures isLiveMode == old(isLiveMode) && selectedInsight == old(selectedInsight)
      ensures filterStatus == old(filterStatus) && engineHealth == old(engineHealth)
    {
      var initial := SeedInsights(now, draws);
      insights := initial;
      events := EventsOf(initial);
    }

    /** The "Live Mode" button. */
    method ToggleLiveMode()
      requires Valid()
      modifies this
      ensures Valid()
      ensures isLiveMode == !old(isLiveMode)
      ensures insights == old(insights) && events == old(events) && selectedInsight == old(selectedInsight)
      ensures filterStatus == old(filterStatus) && engineHealth == old(engineHealth)
    {
      isLiveMode := !isLiveMode;
    }

    /** The live branch of a tick: `x` and its event go to the front of the capped buffers and the
        engine metrics move a little. */
    method PushLiveInsight(x: Insight, rpmDraw: real, artDraw: real)
      requires Valid()
      requires IsDraw(rpmDraw) && IsDraw(artDraw)
      modifies this
      ensures Valid()
      ensures insights == PushBounded(x, old(insights), InsightCapacity)
      ensures events == PushBounded(MockEvent(x), old(events), EventCapacity)
      ensures engineHealth == PerturbHealth(old(engineHealth), rpmDraw, artDraw)
      ensures isLiveMode == old(isLiveMode) && selectedInsight == old(selectedInsight)
      ensures filterStatus == old(filterStatus)
    {
      PushKeepsCorrelation(x, insights, events);
      insights := PushBounded(x, insights, InsightCapacity);
      events := PushBounded(MockEvent(x), events, EventCapacity);
      engineHealth := PerturbHealth(engineHealth, rpmDraw, artDraw);
    }

    /** One firing of the 3-second interval, which exists only in live mode. The new insight comes
        first, and the buffers never exceed their capacities. */
    method Tick(now: nat, draws: InsightDraws, rpmDraw: real, artDraw: real)
      requires Valid()
      requires ValidDraws(draws) && IsDraw(rpmDraw) && IsDraw(artDraw)
      modifies this
      ensures Valid()
      ensures old(isLiveMode) ==>
        && insights == PushBounded(MockInsight(now, now, draws), old(insights), InsightCapacity)
        && events == PushBounded(MockEvent(MockInsight(now, now, draws)), old(events), EventCapacity)
        && engineHealth == PerturbHealth(old(engineHealth), rpmDraw, artDraw)
      ensures old(isLiveMode) ==> |insights| <= InsightCapacity && |events| <= EventCapacity
      ensures old(isLiveMode) ==> insights[0] == MockInsight(now, now, draws)
      ensures !old(isLiveMode) ==> insights == old(insights) && events == old(events) && engineHealth == old(engineHealth)
      ensures isLiveMode == old(isLiveMode) && selectedInsight == old(selectedInsight)
      ensures filterStatus == old(filterStatus)
    {
      if isLiveMode {
        PushLiveInsight(MockInsight(now, now, draws), rpmDraw, artDraw);
      }
    }

    /** "Simulate Emergency": the fire/emergency insight and its event go to the front with NO
        truncation, and the insight becomes the selection. */
    method SimulateEmergency(now: nat)
      requires Valid()
      modifies this
      ensures Valid()
      ensures insights == [EmergencyInsight(now)] + old(insights)
      ensures events == [MockEvent(EmergencyInsight(now))] + old(events)
      ensures |insights| == |old(insights)| + 1 && |events| == |old(events)| + 1
      ensures selectedInsight == Some(EmergencyInsight(now))
      ensures isLiveMode == old(isLiveMode) && filterStatus == old(filterStatus) && engineHealth == old(engineHealth)
    {
      var emergency := EmergencyInsight(now);
      PushKeepsCorrelation(emergency, insights, events);
      insights := [emergency] + insights;
      events := [MockEvent(emergency)] + events;
      selectedInsight := Some(emergency);
    }

    /** "Clear": both buffers empty, no selection. */
    method ClearData()
      requires Valid()
      modifies this
      ensures Valid()
      ensures insights == [] && events == [] && selectedInsight.None?
      ensures isLiveMode == old(isLiveMode) && filterStatus == old(filterStatus) && engineHealth == old(engineHealth)
    {
      insights, events := [], [];
      selectedInsight := None;
    }

    /** `handleInsightClick`. */
    method InsightClick(insight: Insight)
      requires Valid()
      modifies this
      ensures Valid()
      ensures selectedInsight == Some(insight)
      ensures insights == old(insights) && events == old(events) && isLiveMode == old(isLiveMode)
      ensures filterStatus == old(filterStatus) && engineHealth == old(engineHealth)
    {
      selectedInsight := Some(insight);
    }

    /** `handleEventClick`: select the related insight if it is still buffered, else keep the selection. */
    method EventClick(e: ProtocolEvent)
      requires Valid()
      modifies this
      ensures Valid()
      ensures selectedInsight == (if RelatedInsight(old(insights), e).Some? then RelatedInsight(old(insights), e)
                                  else old(selectedInsight))
      ensures insights == old(insights) && events == old(events) && isLiveMode == old(isLiveMode)
      ensures filterStatus == old(filterStatus) && engineHealth == old(engineHealth)
    {
      var related := RelatedInsight(insights, e);
      if related.Some? {
        selectedInsight := related;
      }
    }

    /** The close button of the detail card. */
    method CloseDetail()
      requires Valid()
      modifies this
      ensures Valid()
      ensures selectedInsight.None?
      ensures insights == old(insights) && events == old(events) && isLiveMode == old(isLiveMode)
      ensures filterStatus == old(filterStatus) && engineHealth == old(engineHealth)
    {
      selectedInsight := None;
    }

    /** The engine panel's check: it is given `engineHealth` as its override and reports back into
        `engineHealth`, so the record stays as it is whatever the endpoint would answer. */
    method EngineCheck(outcome: FetchOutcome, now: int)
      requires Valid()
      modifies this
      ensures Valid()
      ensures engineHealth == old(engineHealth)
      ensures insights == old(insights) && events == old(events) && isLiveMode == old(isLiveMode)
      ensures selectedInsight == old(selectedInsight) && filterStatus == old(filterStatus)
    {
      engineHealth := NextHealth(engineHealth, Some(engineHealth), outcome, now);
    }

    /** The footer row. */
    function FooterRow(): (f: FooterStats)
      reads this
      ensures f.highPriority <= f.activeProtocols <= f.total == |insights|
    {
      Footer(insights)
    }

    /** The insight panel's cards: the eight newest insights, in buffer order. */
    function PanelCards(): (cards: seq<Insight>)
      reads this
      ensures |cards| == Min(8, |insights|)
      ensures cards == insights[..|cards|]
    {
      DisplayedInsights(insights, 8)
    }

    /** The timeline's rows: with the filter never set, the fifteen newest buffered events, newest first. */
    function TimelineRows(): (rows: seq<ProtocolEvent>)
      requires Valid()
      reads this
      ensures NewestFirst(rows)
      ensures |rows| == Min(15, |events|)
      ensures multiset(rows) <= multiset(events)
      ensures forall e, d :: e in rows && d in multiset(events) - multiset(rows) ==> e.timestamp >= d.timestamp
    {
      SortedEventsSpec(events, 15, filterStatus);
      SortedEvents(events, 15, filterStatus)
    }
  }
}
