/** `MonitoringManager`: the singleton facade over one telemetry client
    and one performance monitor, and its three interceptors. The static
    `instance` field is the field of a `MonitoringRegistry`; the screenshot
    library is the pair of inputs `screenshotAvailable` and
    `screenshotResult`; the clock and the random digits of request ids are
    parameters. */
module Monitoring {
  import opened Wrappers
  import opened Text
  import opened HttpTypes
  import opened Telemetry
  import opened Performance

  datatype MonitoringOptions = MonitoringOptions(telemetry: TelemetryOptions, captureScreenshotsOnError: Option<bool>)

  /** `req_${Date.now()}_${random base-36 digits}`. */
  function RequestId(now: nat, randomDigits: string): (id: string)
    ensures IsPrefix("req_", id)
  {
    "req_" + NatToString(now) + "_" + randomDigits
  }

  /** Two ids of the same form whose digit runs differ in length differ
      where the shorter run ends. */
  lemma DigitRunLength(a: string, d: string, b: string, e: string)
    requires forall i :: 0 <= i < |a| ==> '0' <= a[i] <= '9'
    requires forall i :: 0 <= i < |b| ==> '0' <= b[i] <= '9'
    ensures "req_" + a + "_" + d == "req_" + b + "_" + e ==> |a| == |b|
  {
    if |a| < |b| {
      assert ("req_" + a + "_" + d)[4 + |a|] == '_' != ("req_" + b + "_" + e)[4 + |a|];
    } else if |b| < |a| {
      assert ("req_" + b + "_" + e)[4 + |b|] == '_' != ("req_" + a + "_" + d)[4 + |b|];
    }
  }

  /** The id determines its time and its random digits: the time is the
      run of digits between "req_" and the next "_". */
  lemma RequestIdInjective(n1: nat, d1: string, n2: nat, d2: string)
    requires RequestId(n1, d1) == RequestId(n2, d2)
    ensures n1 == n2 && d1 == d2
  {
    var a, b := NatToString(n1), NatToString(n2);
    var id := RequestId(n1, d1);
    assert id == "req_" + a + "_" + d1 && id == "req_" + b + "_" + d2;
    DigitRunLength(a, d1, b, d2);
    assert a == id[4..4 + |a|] == b;
    NatToStringInjective(n1, n2);
    assert d1 == id[5 + |a|..] == d2;
  }

  /** `config._requestStartTime`, when truthy. */
  function StartOf(c: RequestConfig): Option<int> {
    if c.requestStartTime.Some? && c.requestStartTime.value != 0 then c.requestStartTime else None
  }

  /** `config._requestId`, when truthy. */
  function IdOf(c: RequestConfig): Option<string> {
    if c.requestId.Some? && c.requestId.value != "" then c.requestId else None
  }

  /** `error.config || {}`: only the thrown error has no config. */
  function ConfigOf(e: Failure): Option<RequestConfig> {
    if e.Thrown? then None else Some(e.config)
  }

  function ResponseOf(e: Failure): Option<Response> {
    if e.WithResponse? then Some(e.response) else None
  }

  /** The config after the request interceptor stamped it. */
  function StampedConfig(c: RequestConfig, now: nat, randomDigits: string): (r: RequestConfig)
    ensures r.requestStartTime == Some(now) && r.requestId == Some(RequestId(now, randomDigits))
    ensures r.(requestStartTime := c.requestStartTime, requestId := c.requestId) == c
  {
    c.(requestStartTime := Some(now), requestId := Some(RequestId(now, randomDigits)))
  }

  /** `response.duration = Date.now() - start` when the config has a start. */
  function StampedResponse(r: Response, now: int): (s: Response)
    ensures StartOf(r.config).Some? ==> s.duration == Some(now - StartOf(r.config).value)
    ensures s.(duration := r.duration) == r
  {
    if StartOf(r.config).Some? then r.(duration := Some(now - StartOf(r.config).value)) else r
  }

  /** `error.duration = Date.now() - start` when the error's config has a start. */
  function StampedError(e: Failure, now: int): (s: Failure)
    ensures !e.Thrown? && StartOf(e.config).Some? ==> !s.Thrown? && s.duration == Some(now - StartOf(e.config).value)
    ensures s.message == e.message && ConfigOf(s) == ConfigOf(e) && ResponseOf(s) == ResponseOf(e)
    ensures e.Thrown? ==> s == e
  {
    if !e.Thrown? && StartOf(e.config).Some? then e.(duration := Some(now - StartOf(e.config).value)) else e
  }

  /** The span metadata of the response interceptor: `{status, url}`. */
  function ResponseSpanProps(r: Response): Props {
    map["status" := PInt(r.status), "url" := PStr(r.config.url)]
  }

  /** The span metadata of the error interceptor: `{status, error}`. */
  function ErrorSpanProps(e: Failure): Props {
    map["status" := if e.WithResponse? then PInt(e.response.status) else PNone, "error" := PStr(e.message)]
  }

  /** The Exception event's properties `{url, method, status, screenshot}`. */
  function ExceptionProps(e: Failure, screenshot: Option<string>): Props {
    map["url" := if e.Thrown? then PNone else PStr(e.config.url),
        "method" := if e.Thrown? then PNone else PStr(e.config.httpMethod),
        "status" := if e.WithResponse? then PInt(e.response.status) else PNone,
        "screenshot" := if screenshot.Some? then PStr(screenshot.value) else PNone]
  }

  /** The span-closing events of an interceptor: the Metric of a span that is
      open under the config's id. */
  function CloseEvents(metrics: map<string, int>, c: Option<RequestConfig>, success: bool, metadata: Props, now: int, timestamp: string, ctx: Context): seq<Event> {
    if c.Some? && IdOf(c.value).Some? then EndEvents(metrics, IdOf(c.value).value, success, metadata, now, timestamp, ctx) else []
  }

  /** The span map after an interceptor closed the config's span. */
  function Closed(metrics: map<string, int>, c: Option<RequestConfig>): map<string, int> {
    if c.Some? && IdOf(c.value).Some? then metrics - {IdOf(c.value).value} else metrics
  }

  /** Regrouping the events of two steps that append in turn. */
  lemma Regroup(h: seq<Event>, spans: seq<Event>, tracked: seq<Event>, exception: seq<Event>)
    ensures (h + spans) + (tracked + exception) == h + (spans + tracked + exception)
  {
    assert (h + spans) + (tracked + exception) == h + (spans + (tracked + exception));
    assert spans + (tracked + exception) == spans + tracked + exception;
  }

  class MonitoringManager {
    var telemetry: TelemetryClient
    var performance: PerformanceMonitor
    var captureScreenshotsOnError: bool

    /** The monitor reports to this facade's telemetry client. */
    predicate Valid()
      reads this, performance
    {
      performance.telemetry == telemetry
    }

    constructor(o: MonitoringOptions, platform: string, platformVersion: string, nowMs: nat, randomDigits: string)
      ensures Valid() && fresh(telemetry) && fresh(performance)
      ensures performance.metrics == map[]
      ensures captureScreenshotsOnError == EnabledFlag(o.captureScreenshotsOnError)
      ensures telemetry.enabled == EnabledFlag(o.telemetry.enabled) && telemetry.buffer == [] && telemetry.outbox == []
      ensures telemetry.endpoint == o.telemetry.endpoint && telemetry.timerActive && telemetry.Valid()
    {
      var t := new TelemetryClient(o.telemetry, platform, platformVersion, nowMs, randomDigits);
      telemetry := t;
      performance := new PerformanceMonitor(t);
      captureScreenshotsOnError := EnabledFlag(o.captureScreenshotsOnError);
    }

    /** Close the span of config `c`, if it has an id: the shared first
        step of the response and the error interceptors. */
    method CloseSpan(c: Option<RequestConfig>, success: bool, metadata: Props, now: int, timestamp: string)
      requires Valid()
      modifies performance, telemetry
      ensures performance.metrics == Closed(old(performance.metrics), c)
      ensures telemetry.History() == old(telemetry.History())
        + if old(telemetry.enabled) then CloseEvents(old(performance.metrics), c, success, metadata, now, timestamp, old(telemetry.context)) else []
      ensures Valid() && telemetry.SameSettings() && telemetry.timerActive == old(telemetry.timerActive)
      ensures old(telemetry.Valid()) ==> telemetry.Valid()
    {
      if c.Some? && IdOf(c.value).Some? {
        var _ := performance.EndOperation(IdOf(c.value).value, success, metadata, now, timestamp);
      }
    }

    /** The request interceptor at time `now`: stamp the start time and a
        fresh `req_` id, open the span, return the stamped config. */
    method InterceptRequest(config: RequestConfig, now: nat, randomDigits: string) returns (r: RequestConfig)
      requires Valid()
      modifies performance
      ensures r == StampedConfig(config, now, randomDigits)
      ensures IsPrefix("req_", r.requestId.value)
      ensures performance.metrics == old(performance.metrics)[RequestId(now, randomDigits) := now]
      ensures Valid()
    {
      r := StampedConfig(config, now, randomDigits);
      performance.StartOperation(r.requestId.value, now);
    }

    /** The response interceptor at time `now`: stamp the duration, close the
        span as a success, track the HTTP request, return the response. It
        rejects only when the URL does not parse. */
    method InterceptResponse(response: Response, now: int, timestamp: string, hostname: string -> Option<string>) returns (r: Result<Response, Failure>)
      requires Valid()
      modifies performance, telemetry
      ensures var stamped := StampedResponse(response, now);
        var x := Exchange(Some(response.config), Some(stamped), None);
        && (r.Ok? <==> HostOf(x, hostname).Some?)
        && (r.Ok? ==> r.value == stamped)
        && (r.Err? ==> r.error == Thrown("TypeError", InvalidUrl))
        && performance.metrics == Closed(old(performance.metrics), Some(response.config))
        && telemetry.History() == old(telemetry.History())
             + if old(telemetry.enabled)
               then CloseEvents(old(performance.metrics), Some(response.config), true, ResponseSpanProps(response), now, timestamp, old(telemetry.context))
                    + HttpEvents(x, HostOf(x, hostname), timestamp, old(telemetry.context))
               else []
      ensures Valid() && telemetry.SameSettings() && telemetry.timerActive == old(telemetry.timerActive)
      ensures old(telemetry.Valid()) ==> telemetry.Valid()
    {
      var stamped := StampedResponse(response, now);
      CloseSpan(Some(response.config), true, ResponseSpanProps(response), now, timestamp);
      var tracked := performance.TrackHttpRequest(Exchange(Some(response.config), Some(stamped), None), hostname, timestamp);
      if tracked.Err? {
        return Err(tracked.error);
      }
      return Ok(stamped);
    }

    /** The reporting part of the error interceptor: track the exchange,
        then, if that did not throw, one Exception for the error. */
    method ReportFailure(x: Exchange, stamped: Failure, screenshot: Option<string>, hostname: string -> Option<string>, timestamp: string)
      returns (r: Result<Failure, Failure>)
      requires Valid()
      modifies telemetry
      ensures HostOf(x, hostname).Some? ==> r == Err(stamped)
      ensures HostOf(x, hostname).None? ==> r == Err(Thrown("TypeError", InvalidUrl))
      ensures telemetry.History() == old(telemetry.History())
        + if old(telemetry.enabled)
          then HttpEvents(x, HostOf(x, hostname), timestamp, old(telemetry.context))
               + if HostOf(x, hostname).Some?
                 then [Event("Exception", timestamp, old(telemetry.context),
                             ExceptionData(stamped.message, None, ErrorName(stamped), ExceptionProps(stamped, screenshot)))]
                 else []
          else []
      ensures Valid() && telemetry.SameSettings() && telemetry.timerActive == old(telemetry.timerActive)
      ensures old(telemetry.Valid()) ==> telemetry.Valid()
    {
      var tracked := performance.TrackHttpRequest(x, hostname, timestamp);
      if tracked.Err? {
        return Err(tracked.error);
      }
      telemetry.TrackException(stamped, ExceptionProps(stamped, screenshot), timestamp);
      return Err(stamped);
    }

    /** The error interceptor at time `now`: stamp the duration, close the
        span as a failure, capture a screenshot only when enabled and
        available, track the HTTP request and one Exception, and reject
        with the same error object. When the URL does not parse, the
        exception is not tracked and the rejection is the parse error. */
    method InterceptError(error: Failure, now: int, timestamp: string, hostname: string -> Option<string>,
                          screenshotAvailable: bool, screenshotResult: Option<string>)
      returns (r: Result<Failure, Failure>, capturedScreenshot: bool)
      requires Valid()
      modifies performance, telemetry
      ensures r.Err?
      ensures capturedScreenshot <==> captureScreenshotsOnError && screenshotAvailable
      ensures var stamped := StampedError(error, now);
        var x := Exchange(ConfigOf(error), ResponseOf(error), Some(stamped));
        var screenshot := if capturedScreenshot then screenshotResult else None;
        && (HostOf(x, hostname).Some? ==> r == Err(stamped))
        && (HostOf(x, hostname).None? ==> r == Err(Thrown("TypeError", InvalidUrl)))
      ensures performance.metrics == Closed(old(performance.metrics), ConfigOf(error))
      ensures var stamped := StampedError(error, now);
        var x := Exchange(ConfigOf(error), ResponseOf(error), Some(stamped));
        var screenshot := if capturedScreenshot then screenshotResult else None;
        telemetry.History() == old(telemetry.History())
             + if old(telemetry.enabled)
               then CloseEvents(old(performance.metrics), ConfigOf(error), false, ErrorSpanProps(error), now, timestamp, old(telemetry.context))
                    + HttpEvents(x, HostOf(x, hostname), timestamp, old(telemetry.context))
                    + if HostOf(x, hostname).Some?
                      then [Event("Exception", timestamp, old(telemetry.context),
                                  ExceptionData(stamped.message, None, ErrorName(stamped), ExceptionProps(stamped, screenshot)))]
                      else []
               else []
      ensures Valid() && telemetry.SameSettings() && telemetry.timerActive == old(telemetry.timerActive)
      ensures old(telemetry.Valid()) ==> telemetry.Valid()
    {
      var stamped := StampedError(error, now);
      var config := ConfigOf(error);
      ghost var before, metrics, enabled, context := telemetry.History(), performance.metrics, telemetry.enabled, telemetry.context;
      CloseSpan(config, false, ErrorSpanProps(error), now, timestamp);
      ghost var closed := telemetry.History();
      assert closed == before + if enabled then CloseEvents(metrics, config, false, ErrorSpanProps(error), now, timestamp, context) else [];
      capturedScreenshot := captureScreenshotsOnError && screenshotAvailable;
      var screenshot := if capturedScreenshot then screenshotResult else None;
      var x := Exchange(config, ResponseOf(error), Some(stamped));
      r := ReportFailure(x, stamped, screenshot, hostname, timestamp);
      ghost var exception := if HostOf(x, hostname).Some?
        then [Event("Exception", timestamp, context,
                    ExceptionData(stamped.message, None, ErrorName(stamped), ExceptionProps(stamped, screenshot)))]
        else [];
      ghost var tracked := HttpEvents(x, HostOf(x, hostname), timestamp, context);
      assert telemetry.History() == closed + if enabled then tracked + exception else [];
      assert before == old(telemetry.History()) && metrics == old(performance.metrics);
      assert enabled == old(telemetry.enabled) && context == old(telemetry.context);
      if enabled {
        ghost var spans := CloseEvents(metrics, config, false, ErrorSpanProps(error), now, timestamp, context);
        Regroup(before, spans, tracked, exception);
      }
    }

    /** `flush()`: the telemetry client's flush. */
    method Flush(deliveryFails: bool)
      modifies telemetry
      ensures telemetry.Flushed()
    {
      var _, _ := telemetry.Flush(deliveryFails);
    }

    /** `dispose()`: the telemetry client's dispose; the facade itself, and
        so the singleton, stay as they are. */
    method Dispose(deliveryFails: bool)
      modifies telemetry
      ensures !telemetry.timerActive && telemetry.SameSettings()
      ensures if |old(telemetry.buffer)| == 0 || !EndpointSet(old(telemetry.endpoint))
              then telemetry.buffer == old(telemetry.buffer) && telemetry.outbox == old(telemetry.outbox)
              else telemetry.buffer == [] && telemetry.outbox == old(telemetry.outbox) + [old(telemetry.buffer)]
    {
      telemetry.Dispose(deliveryFails);
    }
  }

  /** The holder of the static `MonitoringManager.instance`. */
  class MonitoringRegistry {
    var instance: MonitoringManager?

    constructor()
      ensures instance == null
    {
      instance := null;
    }

    /** `initialize(config)`: the first call builds the instance from its
        config; every later call returns that same instance and ignores
        its config. */
    method Initialize(o: MonitoringOptions, platform: string, platformVersion: string, nowMs: nat, randomDigits: string)
      returns (m: MonitoringManager)
      modifies this
      ensures old(instance) != null ==> m == old(instance) && instance == old(instance)
      ensures old(instance) == null ==>
        && fresh(m) && instance == m && m.Valid() && fresh(m.telemetry) && fresh(m.performance)
        && m.captureScreenshotsOnError == EnabledFlag(o.captureScreenshotsOnError)
        && m.telemetry.enabled == EnabledFlag(o.telemetry.enabled)
        && m.telemetry.buffer == [] && m.performance.metrics == map[]
    {
      if instance == null {
        instance := new MonitoringManager(o, platform, platformVersion, nowMs, randomDigits);
      }
      m := instance;
    }

    /** `getInstance()`: null before the first `initialize`. */
    method GetInstance() returns (m: MonitoringManager?)
      ensures m == instance
    {
      m := instance;
    }
  }
}
