/** The severity model and the aggregates of the agent insight panel
    (frontend/src/components/agent/AgentInsightPanel.tsx). */
module InsightPanel {
  import opened Common

  /** The five protocol levels; `NoProtocol` is the source's `'none'`. */
  datatype ProtocolStatus = NoProtocol | Monitoring | Alert | Critical | Emergency

  const AllStatuses: set<ProtocolStatus> := {NoProtocol, Monitoring, Alert, Critical, Emergency}

  lemma InAllStatuses(st: ProtocolStatus)
    ensures st in AllStatuses
  {
    match st
    case NoProtocol =>
    case Monitoring =>
    case Alert =>
    case Critical =>
    case Emergency =>
  }

  /** The string the source stores in `protocolStatus`. */
  function Name(st: ProtocolStatus): string
  {
    match st
    case NoProtocol => "none"
    case Monitoring => "monitoring"
    case Alert => "alert"
    case Critical => "critical"
    case Emergency => "emergency"
  }

  /** The status a string names, if it names one. */
  function ParseStatus(s: string): (r: Option<ProtocolStatus>)
    ensures r.Some? ==> Name(r.value) == s
    ensures r.None? ==> forall st :: Name(st) != s
  {
    if s == "none" then Some(NoProtocol)
    else if s == "monitoring" then Some(Monitoring)
    else if s == "alert" then Some(Alert)
    else if s == "critical" then Some(Critical)
    else if s == "emergency" then Some(Emergency)
    else None
  }

  lemma ParseName(st: ProtocolStatus)
    ensures ParseStatus(Name(st)) == Some(st)
  {
  }

  /** One detection as the panel receives it. `confidence` is carried, never computed on. */
  datatype Insight = Insight(
    id: string,
    objectClass: string,
    confidence: real,
    deepAnalysis: string,
    protocolStatus: ProtocolStatus,
    timestamp: int,
    cameraId: Option<string>)

  /** The `PROTOCOL_COLORS` record looked up by key; a missing key is `None`. */
  function ColorEntry(key: string): Option<string>
  {
    match ParseStatus(key)
    case None => None
    case Some(st) =>
      Some(match st
           case NoProtocol => "#4a4a4a"
           case Monitoring => "#4ECDC4"
           case Alert => "#FFE66D"
           case Critical => "#FF6B6B"
           case Emergency => "#e94560")
  }

  /** The `PROTOCOL_LABELS` record looked up by key; a missing key is `None`. */
  function LabelEntry(key: string): Option<string>
  {
    match ParseStatus(key)
    case None => None
    case Some(st) =>
      Some(match st
           case NoProtocol => "Normal"
           case Monitoring => "Monitoring"
           case Alert => "Alert"
           case Critical => "Critical"
           case Emergency => "Emergency")
  }

  /** `getProtocolColor`: the table colour, or the colour of `'none'` for a string that names no status. */
  function GetProtocolColor(status: string): (c: string)
    ensures forall st :: status == Name(st) ==> Some(c) == ColorEntry(Name(st))
    ensures (forall st :: status != Name(st)) ==> c == "#4a4a4a"
    ensures c != ""
  {
    OrElse(ColorEntry(status), ColorEntry("none").value)
  }

  /** `getProtocolLabel`: the table label, or `'Unknown'` for a string that names no status. */
  function GetProtocolLabel(status: string): (l: string)
    ensures forall st :: status == Name(st) ==> Some(l) == LabelEntry(Name(st))
    ensures (forall st :: status != Name(st)) ==> l == "Unknown"
    ensures l != ""
  {
    OrElse(LabelEntry(status), "Unknown")
  }

  /** The two fallbacks differ: an unknown string gets the colour of `'none'` but not its label. */
  lemma {:induction false} FallbacksAreAsymmetric(s: string)
    requires ParseStatus(s).None?
    ensures GetProtocolColor(s) == GetProtocolColor("none")
    ensures GetProtocolLabel(s) == "Unknown" != GetProtocolLabel("none") == "Normal"
  {
    assert ParseStatus("none") == Some(NoProtocol);
  }

  /** The five statuses get five different colours and five different labels. */
  lemma LookupsAreInjective(a: ProtocolStatus, b: ProtocolStatus)
    requires a != b
    ensures GetProtocolColor(Name(a)) != GetProtocolColor(Name(b))
    ensures GetProtocolLabel(Name(a)) != GetProtocolLabel(Name(b))
  {
  }

  predicate IsHighPriority(st: ProtocolStatus)
  {
    st == Critical || st == Emergency
  }

  /** `displayedInsights = insights.slice(0, maxDisplay)`. */
  function DisplayedInsights(insights: seq<Insight>, maxDisplay: int): (r: seq<Insight>)
    ensures 0 <= maxDisplay ==> |r| == Min(maxDisplay, |insights|)
    ensures maxDisplay < 0 ==> |r| == Max(|insights| + maxDisplay, 0)
    ensures forall i :: 0 <= i < |r| ==> r[i] == insights[i]
  {
    Slice(insights, maxDisplay)
  }

  /** `hasHighPriority = insights.some(i => critical or emergency)`. */
  function HasHighPriority(insights: seq<Insight>): (b: bool)
    ensures b <==> exists i :: 0 <= i < |insights| && IsHighPriority(insights[i].protocolStatus)
  {
    if insights == [] then false
    else IsHighPriority(insights[0].protocolStatus) || HasHighPriority(insights[1..])
  }

  /** The statuses of a list of insights, in order. */
  function Statuses(insights: seq<Insight>): (r: seq<ProtocolStatus>)
    ensures |r| == |insights|
    ensures forall i :: 0 <= i < |r| ==> r[i] == insights[i].protocolStatus
  {
    if insights == [] then [] else [insights[0].protocolStatus] + Statuses(insights[1..])
  }

  /** The count map the source builds: exactly the statuses that occur, each with its number of occurrences. */
  function CountsOf(xs: seq<ProtocolStatus>): map<ProtocolStatus, nat>
  {
    map st | st in AllStatuses && multiset(xs)[st] > 0 :: multiset(xs)[st]
  }

  /** `counts[s] || 0`: the count of a status, zero when it is absent from the map. */
  function CountOr0(counts: map<ProtocolStatus, nat>, st: ProtocolStatus): nat
  {
    if st in counts then counts[st] else 0
  }

  /** Reading a count map with the zero default gives the number of occurrences. */
  lemma CountOfStatus(xs: seq<ProtocolStatus>, st: ProtocolStatus)
    ensures CountOr0(CountsOf(xs), st) == multiset(xs)[st]
  {
    InAllStatuses(st);
  }

  /** The sum of all values of a count map (its keys are among the five statuses). */
  function Total(counts: map<ProtocolStatus, nat>): nat
  {
    CountOr0(counts, NoProtocol) + CountOr0(counts, Monitoring) + CountOr0(counts, Alert)
      + CountOr0(counts, Critical) + CountOr0(counts, Emergency)
  }

  /** The `forEach` that builds `counts[s] = (counts[s] || 0) + 1`. */
  method CountByStatus(xs: seq<ProtocolStatus>) returns (counts: map<ProtocolStatus, nat>)
    ensures counts == CountsOf(xs)
    ensures forall st :: st in counts <==> st in xs
    ensures forall st :: st in counts ==> counts[st] == multiset(xs)[st] >= 1
  {
    counts := map[];
    for i := 0 to |xs|
      invariant counts == CountsOf(xs[..i])
    {
      var x := xs[i];
      assert xs[..i + 1] == xs[..i] + [x];
      assert multiset(xs[..i + 1]) == multiset(xs[..i]) + multiset{x};
      CountOfStatus(xs[..i], x);
      var next := counts[x := CountOr0(counts, x) + 1];
      forall st
        ensures (st in next <==> st in CountsOf(xs[..i + 1]))
        ensures st in next ==> next[st] == CountsOf(xs[..i + 1])[st]
      {
        InAllStatuses(st);
      }
      counts := next;
    }
    assert xs[..|xs|] == xs;
    forall st ensures st in counts <==> st in xs {
      InAllStatuses(st);
      assert st in xs <==> st in multiset(xs);
    }
  }

  /** The multiplicities of the five statuses add up to the length: every element is one of them. */
  lemma {:induction false} MultiplicitiesPartition(xs: seq<ProtocolStatus>)
    ensures multiset(xs)[NoProtocol] + multiset(xs)[Monitoring] + multiset(xs)[Alert]
      + multiset(xs)[Critical] + multiset(xs)[Emergency] == |xs|
  {
    if xs != [] {
      var last := xs[|xs| - 1];
      var init := xs[..|xs| - 1];
      assert xs == init + [last];
      MultiplicitiesPartition(init);
      assert multiset(xs) == multiset(init) + multiset{last};
      InAllStatuses(last);
    }
  }

  /** The counts over all five statuses add up to the number of items counted. */
  lemma CountsPartition(xs: seq<ProtocolStatus>)
    ensures Total(CountsOf(xs)) == |xs|
  {
    MultiplicitiesPartition(xs);
    CountOfStatus(xs, NoProtocol);
    CountOfStatus(xs, Monitoring);
    CountOfStatus(xs, Alert);
    CountOfStatus(xs, Critical);
    CountOfStatus(xs, Emergency);
  }

  /** `priorityCounts` over all insights (not window-limited): only occurring statuses are keys,
      each with its number of insights, and the values partition the input. */
  method PriorityCounts(insights: seq<Insight>) returns (counts: map<ProtocolStatus, nat>)
    ensures counts == CountsOf(Statuses(insights))
    ensures forall st :: st in counts <==> exists i :: 0 <= i < |insights| && insights[i].protocolStatus == st
    ensures forall st :: st in counts ==> counts[st] >= 1
    ensures Total(counts) == |insights|
  {
    var xs := Statuses(insights);
    counts := CountByStatus(xs);
    CountsPartition(xs);
    forall st ensures st in counts <==> exists i :: 0 <= i < |insights| && insights[i].protocolStatus == st {
      if st in counts {
        var i :| 0 <= i < |xs| && xs[i] == st;
        assert insights[i].protocolStatus == st;
      }
      if exists i :: 0 <= i < |insights| && insights[i].protocolStatus == st {
        var i :| 0 <= i < |insights| && insights[i].protocolStatus == st;
        assert xs[i] == st;
      }
    }
  }

  /** The "+N more insights" line: an empty list returns the "no insights" message before the line is
      reached; otherwise it is shown iff there are more insights than `maxDisplay`, with N the excess. */
  function MoreIndicator(insights: seq<Insight>, maxDisplay: int): (more: Option<int>)
    ensures more.Some? <==> |insights| > 0 && |insights| > maxDisplay
    ensures more.Some? ==> more.value == |insights| - maxDisplay >= 1
    ensures insights == [] ==> more.None?
  {
    if |insights| > 0 && |insights| > maxDisplay then Some(|insights| - maxDisplay) else None
  }

  /** The residual and the displayed prefix together account for every insight. */
  lemma {:induction false} MoreIndicatorAccounts(insights: seq<Insight>, maxDisplay: int)
    ensures MoreIndicator(insights, maxDisplay).None? ==> DisplayedInsights(insights, maxDisplay) == insights
    ensures 0 <= maxDisplay && MoreIndicator(insights, maxDisplay).Some? ==>
      |DisplayedInsights(insights, maxDisplay)| + MoreIndicator(insights, maxDisplay).value == |insights|
  {
    var d := DisplayedInsights(insights, maxDisplay);
    if MoreIndicator(insights, maxDisplay).None? {
      assert |d| == |insights|;
      assert d == insights;
    }
  }
}
