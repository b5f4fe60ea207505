/** `PerformanceMonitor`: a span map from operation id to start time, with
    delete-on-end, and the Request/Dependency events derived from one HTTP
    exchange. `Date.now()` is a parameter; `new URL(url).hostname` is the
    `hostname` parameter, `None` when the URL does not parse. */
module Performance {
  import opened Wrappers
  import opened Text
  import opened HttpTypes
  import opened Telemetry

  const InvalidUrl := "Invalid URL"

  /** `String(success)`. */
  function BoolString(b: bool): string {
    if b then "true" else "false"
  }

  /** `operation.<id>.duration`. */
  function MetricName(id: string): (r: string)
    ensures IsPrefix("operation.", r) && |r| == |id| + 19
    ensures r[10..10 + |id|] == id
  {
    "operation." + id + ".duration"
  }

  /** The metric's properties `{success: String(success), ...metadata}`: a
      `success` key in the metadata wins. */
  function MetricProps(success: bool, metadata: Props): (p: Props)
    ensures "success" in p
    ensures "success" !in metadata ==> p["success"] == PStr(BoolString(success))
    ensures forall k :: k in metadata ==> k in p && p[k] == metadata[k]
    ensures p.Keys == metadata.Keys + {"success"}
  {
    map["success" := PStr(BoolString(success))] + metadata
  }

  /** The view of one exchange `trackHttpRequest` sees: the config (`None`
      for the `{}` used when the error has none), the response, the error. */
  datatype Exchange = Exchange(config: Option<RequestConfig>, response: Option<Response>, error: Option<Failure>)

  /** `response?.duration || 0`. */
  function ExchangeDuration(x: Exchange): int {
    if x.response.Some? && x.response.value.duration.Some? then x.response.value.duration.value else 0
  }

  /** `response?.status || 0`. */
  function ExchangeStatus(x: Exchange): int {
    if x.response.Some? then x.response.value.status else 0
  }

  /** `!error && response?.status >= 200 && response?.status < 400`. */
  predicate ExchangeSucceeded(x: Exchange) {
    x.error.None? && x.response.Some? && 200 <= x.response.value.status < 400
  }

  /** `config.method || 'GET'`. */
  function ExchangeMethod(x: Exchange): string {
    if x.config.Some? && x.config.value.httpMethod != "" then x.config.value.httpMethod else "GET"
  }

  /** `config.method`, possibly undefined. */
  function RawMethod(x: Exchange): Prop {
    if x.config.Some? then PStr(x.config.value.httpMethod) else PNone
  }

  function ExchangeUrl(x: Exchange): Option<string> {
    if x.config.Some? then Some(x.config.value.url) else None
  }

  /** The Request event's payload. */
  function RequestEvent(x: Exchange): (p: Payload)
    ensures p.RequestData? && p.success == ExchangeSucceeded(x)
    ensures p.name == ExchangeMethod(x) && p.name != ""
    ensures x.response.None? ==> p.duration == 0 && p.responseCode == 0
  {
    RequestData(ExchangeMethod(x), ExchangeUrl(x), ExchangeDuration(x), ExchangeStatus(x), ExchangeSucceeded(x),
                map["tlsVersion" := PNone,
                    "errorType" := if x.error.Some? && ErrorName(x.error.value).Some? then PStr(ErrorName(x.error.value).value) else PNone])
  }

  /** The Dependency event's payload, for a URL whose host is `host`. */
  function DependencyEvent(x: Exchange, host: string): (p: Payload)
    ensures p.DependencyData? && p.name == "HTTP" && p.depType == "HTTP" && p.target == host
    ensures p.success == ExchangeSucceeded(x) && p.duration == ExchangeDuration(x) && p.resultCode == ExchangeStatus(x)
  {
    DependencyData("HTTP", "HTTP", host, ExchangeDuration(x), ExchangeSucceeded(x), ExchangeStatus(x), map["method" := RawMethod(x)])
  }

  /** The events `endOperation` emits: one Metric for a known span, none
      otherwise. */
  function EndEvents(metrics: map<string, int>, id: string, success: bool, metadata: Props, now: int, timestamp: string, ctx: Context): (es: seq<Event>)
    ensures |es| == (if id in metrics then 1 else 0)
  {
    if id in metrics then [Event("Metric", timestamp, ctx, MetricData(MetricName(id), now - metrics[id], MetricProps(success, metadata)))]
    else []
  }

  /** The events `trackHttpRequest` emits: the Request event, then the
      Dependency event when the host is known. */
  function HttpEvents(x: Exchange, host: Option<string>, timestamp: string, ctx: Context): (es: seq<Event>)
    ensures 1 <= |es| <= 2 && es[0].kind == "Request" && es[0].data == RequestEvent(x)
    ensures |es| == 2 <==> host.Some?
    ensures |es| == 2 ==> es[1].kind == "Dependency" && es[1].data == DependencyEvent(x, host.value)
  {
    [Event("Request", timestamp, ctx, RequestEvent(x))]
      + if host.Some? then [Event("Dependency", timestamp, ctx, DependencyEvent(x, host.value))] else []
  }

  /** `new URL(config.url).hostname`, undefined config URLs included. */
  function HostOf(x: Exchange, hostname: string -> Option<string>): Option<string> {
    if x.config.Some? then hostname(x.config.value.url) else None
  }

  /** The correlator's success rule `[200, 400)` and the client's `[200,
      300)` agree on 2xx and differ exactly on 3xx. */
  lemma SuccessRanges(x: Exchange)
    requires x.error.None? && x.response.Some?
    ensures ExchangeSucceeded(x) <==> 200 <= x.response.value.status < 400
    ensures 300 <= x.response.value.status < 400 ==> ExchangeSucceeded(x) && !(200 <= x.response.value.status < 300)
    ensures !ExchangeSucceeded(x) ==> !(200 <= x.response.value.status < 300)
  {
  }

  /** An exchange that carries an error never counts as a success. */
  lemma ErrorNeverSucceeds(x: Exchange)
    requires x.error.Some?
    ensures !ExchangeSucceeded(x) && !RequestEvent(x).success
  {
  }

  class PerformanceMonitor {
    var telemetry: TelemetryClient?
    var metrics: map<string, int>

    constructor(t: TelemetryClient?)
      ensures telemetry == t && metrics == map[]
    {
      telemetry := t;
      metrics := map[];
    }

    /** `startOperation(id)` at time `now`: the span starts now, replacing
        any earlier one under that id. */
    method StartOperation(id: string, now: int)
      modifies this
      ensures metrics == old(metrics)[id := now]
      ensures telemetry == old(telemetry)
    {
      metrics := metrics[id := now];
    }

    /** `endOperation(id, success, metadata)` at time `now`. An unknown id
        changes nothing and returns undefined; a known one is removed, its
        duration returned, and one Metric emitted. */
    method EndOperation(id: string, success: bool, metadata: Props, now: int, timestamp: string) returns (duration: Option<int>)
      modifies this, telemetry
      ensures telemetry == old(telemetry)
      ensures id !in old(metrics) ==>
        (duration.None? && metrics == old(metrics)
         && (telemetry != null ==> telemetry.buffer == old(telemetry.buffer) && telemetry.outbox == old(telemetry.outbox)))
      ensures id in old(metrics) ==> duration == Some(now - old(metrics)[id]) && metrics == old(metrics) - {id}
      ensures id in old(metrics) && telemetry != null ==>
        telemetry.Tracked("Metric", MetricData(MetricName(id), now - old(metrics)[id], MetricProps(success, metadata)), timestamp)
      ensures telemetry != null ==> telemetry.SameSettings() && telemetry.timerActive == old(telemetry.timerActive)
      ensures telemetry != null ==>
        telemetry.History() == old(telemetry.History())
          + if old(telemetry.enabled) then EndEvents(old(metrics), id, success, metadata, now, timestamp, old(telemetry.context)) else []
      ensures telemetry != null && old(telemetry.Valid()) ==> telemetry.Valid()
    {
      if id !in metrics {
        return None;
      }
      var d := now - metrics[id];
      metrics := metrics - {id};
      if telemetry != null {
        telemetry.TrackMetric(MetricName(id), d, MetricProps(success, metadata), timestamp);
      }
      return Some(d);
    }

    /** `trackHttpRequest(config, response, error)`: one Request event, then,
        when the URL parses, one Dependency event on its host; when it does
        not, the call throws after the Request event. Without a telemetry
        client the optional calls, and the URL parse among their
        arguments, are skipped. */
    method TrackHttpRequest(x: Exchange, hostname: string -> Option<string>, timestamp: string) returns (r: Result<(), Failure>)
      modifies telemetry
      ensures telemetry == null ==> r.Ok?
      ensures telemetry != null ==>
        && (r.Err? <==> HostOf(x, hostname).None?)
        && (r.Err? ==> r.error == Thrown("TypeError", InvalidUrl))
        && telemetry.SameSettings() && telemetry.timerActive == old(telemetry.timerActive)
        && (!old(telemetry.enabled) ==> telemetry.buffer == old(telemetry.buffer) && telemetry.outbox == old(telemetry.outbox))
        && telemetry.History() == old(telemetry.History())
             + if old(telemetry.enabled) then HttpEvents(x, HostOf(x, hostname), timestamp, old(telemetry.context)) else []
      ensures telemetry != null && old(telemetry.Valid()) ==> telemetry.Valid()
    {
      if telemetry == null {
        return Ok(());
      }
      var request := RequestEvent(x);
      telemetry.TrackRequest(request.name, request.url, request.duration, request.responseCode, request.success, request.properties, timestamp);
      var host := HostOf(x, hostname);
      if host.None? {
        return Err(Thrown("TypeError", InvalidUrl));
      }
      var dependency := DependencyEvent(x, host.value);
      telemetry.TrackDependency(dependency.name, dependency.depType, dependency.target, dependency.duration,
                                dependency.success, dependency.resultCode, dependency.properties, timestamp);
      return Ok(());
    }
  }
}
