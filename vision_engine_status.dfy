/** The health record of the vision engine and one health check
    (frontend/src/components/agent/VisionEngineStatus.tsx). */
module VisionEngineStatus {
  import opened Common

  datatype EngineStatus = Ready | Loading | Error | Offline

  /** `VisionEngineHealth`. `device` is a string: the response's value is copied without checking it
      against `'cpu' | 'cuda' | 'mps'`. */
  datatype VisionEngineHealth = VisionEngineHealth(
    status: EngineStatus,
    model: string,
    device: string,
    memoryUsage: Option<int>,
    requestsPerMinute: Option<int>,
    avgResponseTime: Option<int>,
    lastHealthCheck: Option<int>,
    errorMessage: Option<string>)

  /** The record before the first check. */
  const InitialHealth: VisionEngineHealth :=
    VisionEngineHealth(Offline, "Unknown", "cpu", None, None, None, None, None)

  const DefaultModel: string := "vikhyatk/moondream2"

  /** One row of `STATUS_CONFIG`. */
  datatype StatusStyle = StatusStyle(color: string, caption: string, icon: string)

  /** `STATUS_CONFIG`, total over the four statuses. */
  function StatusConfig(s: EngineStatus): (c: StatusStyle)
    ensures c.color != "" && c.caption != "" && c.icon != ""
  {
    match s
    case Ready => StatusStyle("#4ECDC4", "Ready", "✅")
    case Loading => StatusStyle("#FFE66D", "Loading", "⏳")
    case Error => StatusStyle("#FF6B6B", "Error", "❌")
    case Offline => StatusStyle("#666", "Offline", "⚫")
  }

  /** The four statuses are told apart by both colour and caption. */
  lemma StatusConfigDistinct(a: EngineStatus, b: EngineStatus)
    requires a != b
    ensures StatusConfig(a).color != StatusConfig(b).color
    ensures StatusConfig(a).caption != StatusConfig(b).caption
  {
  }

  /** The fields of the health endpoint's JSON body; `ready` absent reads as false. */
  datatype HealthPayload = HealthPayload(
    ready: bool,
    model: Option<string>,
    device: Option<string>,
    memoryUsage: Option<int>,
    requestsPerMinute: Option<int>,
    avgResponseTime: Option<int>)

  /** A thrown value: an `Error` instance with its message, or anything else. */
  datatype Thrown = ErrorInstance(message: string) | OtherValue

  /** The body parse: `response.json()` yields the payload or throws. */
  datatype JsonBody = Parsed(payload: HealthPayload) | ParseFailed(thrown: Thrown)

  /** The outcome of `fetch(endpoint)`: a response with its `ok` flag, status code and body, or a rejection. */
  datatype FetchOutcome = Response(ok: bool, httpStatus: nat, body: JsonBody) | Rejected(thrown: Thrown)

  /** `newHealth`, built from a parsed OK response. */
  function HealthFromPayload(data: HealthPayload, now: int): (h: VisionEngineHealth)
    ensures h.status == (if data.ready then Ready else Loading)
    ensures h.model == (if data.model.Some? && data.model.value != "" then data.model.value else DefaultModel)
    ensures h.device == (if data.device.Some? && data.device.value != "" then data.device.value else "cpu")
    ensures h.model != "" && h.device != ""
    ensures h.memoryUsage == data.memoryUsage && h.requestsPerMinute == data.requestsPerMinute
    ensures h.avgResponseTime == data.avgResponseTime
    ensures h.lastHealthCheck == Some(now) && h.errorMessage.None?
  {
    VisionEngineHealth(
      if data.ready then Ready else Loading,
      OrElse(data.model, DefaultModel),
      OrElse(data.device, "cpu"),
      data.memoryUsage, data.requestsPerMinute, data.avgResponseTime,
      Some(now), None)
  }

  /** `error instanceof Error ? error.message : 'Unknown error'`. */
  function ErrorText(t: Thrown): string
  {
    match t
    case ErrorInstance(m) => m
    case OtherValue => "Unknown error"
  }

  /** `errorHealth`: keeps the previous model and device and drops every metric. */
  function ErrorHealth(prev: VisionEngineHealth, message: string, now: int): (h: VisionEngineHealth)
    ensures h.status == Error && h.model == prev.model && h.device == prev.device
    ensures h.memoryUsage.None? && h.requestsPerMinute.None? && h.avgResponseTime.None?
    ensures h.errorMessage == Some(message) && h.lastHealthCheck == Some(now)
  {
    VisionEngineHealth(Error, prev.model, prev.device, None, None, None, Some(now), Some(message))
  }

  /** The message the `catch` block sees, or `None` when the check succeeds: it succeeds exactly on an
      OK response whose body parses. */
  function FailureMessage(outcome: FetchOutcome): (m: Option<string>)
    ensures m.None? <==> outcome.Response? && outcome.ok && outcome.body.Parsed?
    ensures outcome.Response? && !outcome.ok ==> m == Some("HTTP " + NatToString(outcome.httpStatus))
    ensures outcome.Rejected? ==> m == Some(ErrorText(outcome.thrown))
  {
    match outcome
    case Rejected(t) => Some(ErrorText(t))
    case Response(ok, code, body) =>
      if !ok then Some("HTTP " + NatToString(code))
      else match body
        case ParseFailed(t) => Some(ErrorText(t))
        case Parsed(_) => None
  }

  /** The record one check produces: `mockHealth` verbatim when given, else from the fetch outcome, in
      which case it is an error exactly when the check fails, is never `Offline` and is stamped `now`. */
  function NextHealth(prev: VisionEngineHealth, mockHealth: Option<VisionEngineHealth>, outcome: FetchOutcome, now: int): (h: VisionEngineHealth)
    ensures mockHealth.Some? ==> h == mockHealth.value
    ensures mockHealth.None? ==>
      && (h.status == Error <==> FailureMessage(outcome).Some?)
      && h.status != Offline
      && h.lastHealthCheck == Some(now)
  {
    if mockHealth.Some? then mockHealth.value
    else match FailureMessage(outcome)
      case Some(message) => ErrorHealth(prev, message, now)
      case None => HealthFromPayload(outcome.body.payload, now)
  }

  /** An OK response with a parsed body: `ready` iff `data.ready`, defaults for a missing model or device. */
  lemma {:induction false} OkResponse(prev: VisionEngineHealth, code: nat, data: HealthPayload, now: int)
    ensures var h := NextHealth(prev, None, Response(true, code, Parsed(data)), now);
      && (h.status == Ready <==> data.ready)
      && (h.status == Loading <==> !data.ready)
      && (data.model.None? ==> h.model == DefaultModel)
      && (data.device.None? ==> h.device == "cpu")
      && h.lastHealthCheck == Some(now)
      && h.errorMessage.None?
  {
  }

  /** A non-OK response is an error whose message is `"HTTP "` followed by the status code. */
  lemma {:induction false} NonOkResponse(prev: VisionEngineHealth, code: nat, body: JsonBody, now: int)
    ensures var h := NextHealth(prev, None, Response(false, code, body), now);
      && h.status == Error
      && h.errorMessage == Some("HTTP " + NatToString(code))
      && h.model == prev.model && h.device == prev.device
  {
  }

  /** Every failure keeps the model and device, drops the metrics and stamps the check time. */
  lemma {:induction false} FailurePreservesIdentity(prev: VisionEngineHealth, outcome: FetchOutcome, now: int)
    requires FailureMessage(outcome).Some?
    ensures var h := NextHealth(prev, None, outcome, now);
      && h.status == Error
      && h.model == prev.model && h.device == prev.device
      && h.memoryUsage.None? && h.requestsPerMinute.None? && h.avgResponseTime.None?
      && h.errorMessage == FailureMessage(outcome)
      && h.lastHealthCheck == Some(now)
  {
  }

  /** A non-`Error` throw reports "Unknown error". */
  lemma {:induction false} NonErrorThrowIsUnknown(prev: VisionEngineHealth, now: int)
    ensures NextHealth(prev, None, Rejected(OtherValue), now).errorMessage == Some("Unknown error")
  {
  }

  /** The error panel is shown iff the status is `'error'` and the message is non-empty; so it only ever
      appears under the red "Error" header. */
  function ShowsErrorPanel(h: VisionEngineHealth): (shown: bool)
    ensures shown ==> StatusConfig(h.status) == StatusStyle("#FF6B6B", "Error", "❌")
    ensures shown ==> h.errorMessage.Some? && h.errorMessage.value != ""
  {
    h.status == Error && h.errorMessage.Some? && h.errorMessage.value != ""
  }

  /** After a check without an override the panel is shown iff the check failed with a non-empty message;
      a non-OK response, or a throw that is not an `Error`, always shows it. */
  lemma {:induction false} ErrorPanelAfterCheck(prev: VisionEngineHealth, outcome: FetchOutcome, now: int)
    ensures ShowsErrorPanel(NextHealth(prev, None, outcome, now)) <==>
      FailureMessage(outcome).Some? && FailureMessage(outcome).value != ""
    ensures outcome.Response? && !outcome.ok ==> ShowsErrorPanel(NextHealth(prev, None, outcome, now))
    ensures outcome == Rejected(OtherValue) ==> ShowsErrorPanel(NextHealth(prev, None, outcome, now))
  {
  }

  /** The component's state: the shown record, the loading flag, the time of the last update, and the
      records handed to `onStatusChange`, in order (when an observer is installed). */
  class EngineMonitor {
    var health: VisionEngineHealth
    var isLoading: bool
    var lastUpdate: Option<int>
    var notified: seq<VisionEngineHealth>
    const hasObserver: bool

    constructor (hasObserver: bool)
      ensures health == InitialHealth && isLoading && lastUpdate.None? && notified == []
      ensures this.hasObserver == hasObserver
    {
      health := InitialHealth;
      isLoading := true;
      lastUpdate := None;
      notified := [];
      this.hasObserver := hasObserver;
    }

    /** `fetchHealth`: one check, with the clock reading `now` and the fetch outcome as inputs. */
    method FetchHealth(mockHealth: Option<VisionEngineHealth>, outcome: FetchOutcome, now: int)
      modifies this
      ensures health == NextHealth(old(health), mockHealth, outcome, now)
      ensures notified == old(notified) + (if hasObserver then [health] else [])
      ensures !isLoading && lastUpdate == Some(now)
    {
      if mockHealth.Some? {
        health := mockHealth.value;
        lastUpdate := Some(now);
        isLoading := false;
        if hasObserver { notified := notified + [mockHealth.value]; }
        return;
      }
      var failure := FailureMessage(outcome);
      if failure.None? {
        var newHealth := HealthFromPayload(outcome.body.payload, now);
        health := newHealth;
        if hasObserver { notified := notified + [newHealth]; }
      } else {
        var errorHealth := ErrorHealth(health, failure.value, now);
        health := errorHealth;
        if hasObserver { notified := notified + [errorHealth]; }
      }
      isLoading := false;
      lastUpdate := Some(now);
    }

    /** The `STATUS_CONFIG` entry shown in the header: it names the current status and no other. */
    function ShownConfig(): (c: StatusStyle)
      reads this
      ensures c.color != "" && c.caption != "" && c.icon != ""
      ensures forall s :: StatusConfig(s) == c <==> s == health.status
    {
      StatusConfig(health.status)
    }
  }
}
