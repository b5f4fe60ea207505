/** `TelemetryClient`: an ordered event buffer with an enabled flag, a
    size-threshold flush, and a flush that swaps the buffer out before
    sending it. The clock is a parameter of each call, the session id's
    random part a parameter of the constructor; the POST of each flushed
    batch is recorded in `outbox` and a failed delivery only warns. */
module Telemetry {
  import opened Wrappers
  import opened Text
  import opened HttpTypes

  const DefaultAppVersion := "1.0.0"
  const DefaultUserId := "anonymous"
  const DefaultSeverity := "Information"
  const DefaultMaxBufferSize := 100
  const DefaultFlushInterval := 30000

  /** A property value; `PNone` is a property whose value is undefined. */
  datatype Prop = PStr(s: string) | PInt(i: int) | PBool(b: bool) | PNone
  type Props = map<string, Prop>

  /** The `data` of each event kind. */
  datatype Payload =
    | EventData(name: string, properties: Props, measurements: map<string, int>)
    | MetricData(name: string, value: int, properties: Props)
    | ExceptionData(message: string, stack: Option<string>, errorType: Option<string>, properties: Props)
    | RequestData(name: string, url: Option<string>, duration: int, responseCode: int, success: bool, properties: Props)
    | DependencyData(name: string, depType: string, target: string, duration: int, success: bool, resultCode: int, properties: Props)
    | TraceData(message: string, severity: string, properties: Props)

  datatype Context = Context(appVersion: string, deviceType: string, osVersion: string, sessionId: string, userId: string)

  /** One buffered item `{type, timestamp, context, data}`. */
  datatype Event = Event(kind: string, timestamp: string, context: Context, data: Payload)

  /** The constructor's options; `None` is an absent property. */
  datatype TelemetryOptions = TelemetryOptions(
    instrumentationKey: Option<string>,
    enabled: Option<bool>,
    appVersion: Option<string>,
    userId: Option<string>,
    maxBufferSize: Option<int>,
    flushInterval: Option<int>,
    endpoint: Option<string>)

  const NoTelemetryOptions := TelemetryOptions(None, None, None, None, None, None, None)

  function Or(a: Option<string>, d: string): string {
    if a.Some? && a.value != "" then a.value else d
  }

  function OrInt(a: Option<int>, d: int): int {
    if a.Some? && a.value != 0 then a.value else d
  }

  /** `config.enabled !== false`. */
  function EnabledFlag(o: Option<bool>): (b: bool)
    ensures !b <==> o == Some(false)
  {
    o != Some(false)
  }

  /** `!this.endpoint` fails. */
  predicate EndpointSet(e: Option<string>) {
    e.Some? && e.value != ""
  }

  /** `${Date.now()}-${random base-36 digits}`. */
  function SessionId(nowMs: nat, randomDigits: string): string {
    NatToString(nowMs) + "-" + randomDigits
  }

  /** `error.name`: only a thrown error object has one. */
  function ErrorName(f: Failure): Option<string> {
    if f.Thrown? then Some(f.name) else None
  }

  /** The buffer never reaches the threshold while an endpoint is set (when
      the threshold is at least one; a smaller one flushes on every event). */
  function Threshold(maxBufferSize: int): (t: nat)
    ensures t >= 1 && (maxBufferSize >= 1 ==> t == maxBufferSize)
  {
    if maxBufferSize >= 1 then maxBufferSize else 1
  }

  class TelemetryClient {
    var instrumentationKey: Option<string>
    var enabled: bool
    var context: Context
    var buffer: seq<Event>
    var maxBufferSize: int
    var flushInterval: int
    var endpoint: Option<string>
    /** Whether the auto-flush interval is still installed. */
    var timerActive: bool
    /** Every batch POSTed to the endpoint, in order. */
    var outbox: seq<seq<Event>>

    /** Every event tracked so far, in tracking order: the sent batches,
        then what is still buffered. */
    function History(): seq<Event>
      reads this
    {
      Flatten(outbox) + buffer
    }

    /** While an endpoint is set the buffer stays below the threshold, so
        a batch sent by `Track` on reaching it holds exactly `Threshold`
        events. */
    predicate Valid()
      reads this
    {
      EndpointSet(endpoint) ==> |buffer| < Threshold(maxBufferSize)
    }

    constructor(o: TelemetryOptions, platform: string, platformVersion: string, nowMs: nat, randomDigits: string)
      ensures instrumentationKey == o.instrumentationKey
      ensures enabled == EnabledFlag(o.enabled)
      ensures context == Context(Or(o.appVersion, DefaultAppVersion), platform, platformVersion,
                                 SessionId(nowMs, randomDigits), Or(o.userId, DefaultUserId))
      ensures buffer == [] && outbox == []
      ensures maxBufferSize == OrInt(o.maxBufferSize, DefaultMaxBufferSize)
      ensures flushInterval == OrInt(o.flushInterval, DefaultFlushInterval)
      ensures endpoint == o.endpoint
      ensures timerActive
      ensures Valid()
    {
      instrumentationKey := o.instrumentationKey;
      enabled := EnabledFlag(o.enabled);
      context := Context(Or(o.appVersion, DefaultAppVersion), platform, platformVersion,
                         SessionId(nowMs, randomDigits), Or(o.userId, DefaultUserId));
      buffer := [];
      maxBufferSize := OrInt(o.maxBufferSize, DefaultMaxBufferSize);
      flushInterval := OrInt(o.flushInterval, DefaultFlushInterval);
      endpoint := o.endpoint;
      timerActive := true;
      outbox := [];
    }

    /** Only the buffer, the outbox and the timer change. */
    twostate predicate SameSettings()
      reads this
    {
      && instrumentationKey == old(instrumentationKey)
      && enabled == old(enabled)
      && context == old(context)
      && maxBufferSize == old(maxBufferSize)
      && flushInterval == old(flushInterval)
      && endpoint == old(endpoint)
    }

    /** The effect of one `_track(kind, data)`: nothing when disabled;
        otherwise the event goes at the end of the buffer, and if that
        reaches the threshold with an endpoint set, the whole buffer is
        sent as one batch and the buffer emptied. Either way the history
        gains exactly that event, at its end. */
    twostate predicate Tracked(kind: string, data: Payload, timestamp: string)
      reads this
    {
      && SameSettings()
      && timerActive == old(timerActive)
      && History() == (if old(enabled) then old(History()) + [Event(kind, timestamp, old(context), data)] else old(History()))
      && if !old(enabled) then buffer == old(buffer) && outbox == old(outbox)
         else
           var appended := old(buffer) + [Event(kind, timestamp, old(context), data)];
           if |appended| >= old(maxBufferSize) && EndpointSet(old(endpoint))
           then buffer == [] && outbox == old(outbox) + [appended]
           else buffer == appended && outbox == old(outbox)
    }

    /** The effect of one `flush()`: with an empty buffer or no endpoint,
        nothing; otherwise exactly the buffer is sent, in order, and the
        buffer is empty afterwards whether or not delivery succeeds. */
    twostate predicate Flushed()
      reads this
    {
      && SameSettings()
      && timerActive == old(timerActive)
      && if |old(buffer)| == 0 || !EndpointSet(old(endpoint))
         then buffer == old(buffer) && outbox == old(outbox)
         else buffer == [] && outbox == old(outbox) + [old(buffer)]
    }

    /** `flush()`; `deliveryFails` is the outcome of the POST. A failed
        delivery is reported in `warned` and its items are not restored. */
    method Flush(deliveryFails: bool) returns (sent: Option<seq<Event>>, warned: bool)
      modifies this
      ensures Flushed()
      ensures sent == (if |old(buffer)| == 0 || !EndpointSet(old(endpoint)) then None else Some(old(buffer)))
      ensures warned <==> sent.Some? && deliveryFails
      ensures History() == old(History())
      ensures old(Valid()) ==> Valid()
    {
      if |buffer| == 0 || !EndpointSet(endpoint) {
        return None, false;
      }
      var items := buffer;
      buffer := [];
      FlattenSnoc(outbox, items);
      outbox := outbox + [items];
      sent := Some(items);
      warned := deliveryFails;
    }

    /** `_track(type, data)` at time `timestamp`. */
    method Track(kind: string, data: Payload, timestamp: string)
      modifies this
      ensures Tracked(kind, data, timestamp)
      ensures old(Valid()) ==> Valid()
      ensures old(Valid()) && |outbox| > |old(outbox)| ==> |outbox[|outbox| - 1]| == Threshold(maxBufferSize)
    {
      if !enabled {
        return;
      }
      buffer := buffer + [Event(kind, timestamp, context, data)];
      if |buffer| >= maxBufferSize {
        var _, _ := Flush(false);
      }
    }

    method TrackEvent(name: string, properties: Props, measurements: map<string, int>, timestamp: string)
      modifies this
      ensures Tracked("Event", EventData(name, properties, measurements), timestamp)
      ensures old(Valid()) ==> Valid()
    {
      Track("Event", EventData(name, properties, measurements), timestamp);
    }

    method TrackMetric(name: string, value: int, properties: Props, timestamp: string)
      modifies this
      ensures Tracked("Metric", MetricData(name, value, properties), timestamp)
      ensures old(Valid()) ==> Valid()
    {
      Track("Metric", MetricData(name, value, properties), timestamp);
    }

    /** The payload records the error's message and name; stacks are not
        part of this model. */
    method TrackException(error: Failure, properties: Props, timestamp: string)
      modifies this
      ensures Tracked("Exception", ExceptionData(error.message, None, ErrorName(error), properties), timestamp)
      ensures old(Valid()) ==> Valid()
    {
      Track("Exception", ExceptionData(error.message, None, ErrorName(error), properties), timestamp);
    }

    method TrackRequest(name: string, url: Option<string>, duration: int, responseCode: int, success: bool, properties: Props, timestamp: string)
      modifies this
      ensures Tracked("Request", RequestData(name, url, duration, responseCode, success, properties), timestamp)
      ensures old(Valid()) ==> Valid()
    {
      Track("Request", RequestData(name, url, duration, responseCode, success, properties), timestamp);
    }

    method TrackDependency(name: string, depType: string, target: string, duration: int, success: bool, resultCode: int, properties: Props, timestamp: string)
      modifies this
      ensures Tracked("Dependency", DependencyData(name, depType, target, duration, success, resultCode, properties), timestamp)
      ensures old(Valid()) ==> Valid()
    {
      Track("Dependency", DependencyData(name, depType, target, duration, success, resultCode, properties), timestamp);
    }

    /** `severity` defaults to "Information" only when it is absent. */
    method TrackTrace(message: string, severity: Option<string>, properties: Props, timestamp: string)
      modifies this
      ensures Tracked("Trace", TraceData(message, severity.GetOr(DefaultSeverity), properties), timestamp)
      ensures old(Valid()) ==> Valid()
    {
      Track("Trace", TraceData(message, severity.GetOr(DefaultSeverity), properties), timestamp);
    }

    /** One firing of the auto-flush interval. */
    method TimerTick(deliveryFails: bool)
      modifies this
      ensures old(timerActive) ==> Flushed()
      ensures !old(timerActive) ==> buffer == old(buffer) && outbox == old(outbox) && SameSettings() && !timerActive
      ensures old(Valid()) ==> Valid()
    {
      if timerActive {
        var _, _ := Flush(deliveryFails);
      }
    }

    /** `dispose()`: stop the interval, then flush once. */
    method Dispose(deliveryFails: bool)
      modifies this
      ensures !timerActive && SameSettings()
      ensures if |old(buffer)| == 0 || !EndpointSet(old(endpoint))
              then buffer == old(buffer) && outbox == old(outbox)
              else buffer == [] && outbox == old(outbox) + [old(buffer)]
      ensures old(Valid()) ==> Valid()
    {
      timerActive := false;
      var _, _ := Flush(deliveryFails);
    }
  }

  /** The batches one after another. */
  function Flatten(batches: seq<seq<Event>>): (r: seq<Event>)
    ensures |batches| == 0 ==> r == []
  {
    if |batches| == 0 then [] else Flatten(batches[..|batches| - 1]) + batches[|batches| - 1]
  }

  lemma FlattenSnoc(batches: seq<seq<Event>>, b: seq<Event>)
    ensures Flatten(batches + [b]) == Flatten(batches) + b
  {
    assert (batches + [b])[..|batches|] == batches;
  }
}
