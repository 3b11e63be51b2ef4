/** Per-device bookkeeping shared by every device (brick/device/__init__.py and
    its MicroPython port src/brick/device/base.py), and the Sensor reporting
    rule. What a device does on the bus is recorded as a sequence of broker
    calls; the dispatcher that serves them is modelled in `Message`. */
module Device {
  import opened Wrappers
  import opened Values
  import opened Delivery
  import Message

  type Filter = Message.Filter

  /** One call a device makes on its broker. */
  datatype BusCall =
    | Publish(topic: string, payload: Value)
    | Send(recipient: Value, sendTopic: Value, payload: Value)
    | Subscribe(filter: Filter, callback: Callback)
    | Unsubscribe(filter: Filter)

  /** The desktop device subscribes its own `publish_state` during setup; the
      MicroPython port does not. */
  datatype Port = Desktop | MicroPython

  /** The filters of the unsubscribe calls in `u`, with multiplicity. */
  function UnsubscribedFilters(u: seq<BusCall>): multiset<Filter> {
    if u == [] then multiset{}
    else UnsubscribedFilters(u[..|u| - 1]) + (if u[|u| - 1].Unsubscribe? then multiset{u[|u| - 1].filter} else multiset{})
  }

  /** The topics of the publish calls in `u`, with multiplicity. */
  function PublishedTopics(u: seq<BusCall>): multiset<string> {
    if u == [] then multiset{}
    else PublishedTopics(u[..|u| - 1]) + (if u[|u| - 1].Publish? then multiset{u[|u| - 1].topic} else multiset{})
  }

  lemma UnsubscribedFiltersAppend(u: seq<BusCall>, c: BusCall)
    ensures UnsubscribedFilters(u + [c]) == UnsubscribedFilters(u) + (if c.Unsubscribe? then multiset{c.filter} else multiset{})
  {
    assert (u + [c])[..|u|] == u;
  }

  lemma PublishedTopicsAppend(u: seq<BusCall>, c: BusCall)
    ensures PublishedTopics(u + [c]) == PublishedTopics(u) + (if c.Publish? then multiset{c.topic} else multiset{})
  {
    assert (u + [c])[..|u|] == u;
  }

  lemma MultisetRemove<T>(s: set<T>, x: T)
    requires x in s
    ensures multiset(s - {x}) + multiset{x} == multiset(s)
  {
    assert s == (s - {x}) + {x};
  }

  const PublishStateFilter: Filter := (None, Some("publish_state"))

  class Device {
    const port: Port
    /** The bound `publish_state` method, as the callback it subscribes. */
    const publishState: Callback
    /** `_state`: topic to last payload. */
    var state: map<string, Value>
    /** `_subscriptions`: the filters this device subscribed, with their callbacks. */
    var subscriptions: map<Filter, Callback>
    /** Every call made on the broker so far. */
    var calls: seq<BusCall>

    constructor(port: Port, publishState: Callback)
      ensures this.port == port && this.publishState == publishState
      ensures state == map[] && subscriptions == map[] && calls == []
    {
      this.port := port;
      this.publishState := publishState;
      state := map[];
      subscriptions := map[];
      calls := [];
    }

    /** `_setup` up to the device-specific `setup` hook: empty state, empty
        subscription record, and on the desktop the `publish_state` subscription. */
    method Setup()
      modifies this`state, this`subscriptions, this`calls
      ensures state == map[]
      ensures port == Desktop ==> subscriptions == map[PublishStateFilter := publishState]
                                  && calls == old(calls) + [BusCall.Subscribe(PublishStateFilter, publishState)]
      ensures port == MicroPython ==> subscriptions == map[] && calls == old(calls)
    {
      state := map[];
      subscriptions := map[];
      if port == Desktop {
        Subscribe(publishState, PublishStateFilter);
      }
    }

    /** `subscribe`: forwarded to the broker and recorded under its filter; a
        second subscription under the same filter keeps one record. */
    method Subscribe(callback: Callback, filter: Filter)
      modifies this`subscriptions, this`calls
      ensures subscriptions == old(subscriptions)[filter := callback]
      ensures calls == old(calls) + [BusCall.Subscribe(filter, callback)]
    {
      calls := calls + [BusCall.Subscribe(filter, callback)];
      subscriptions := subscriptions[filter := callback];
    }

    /** `_teardown` after the device-specific `teardown` hook: each recorded
        filter is unsubscribed exactly once, then the record is emptied. */
    method Teardown()
      modifies this`subscriptions, this`calls
      ensures subscriptions == map[]
      ensures |calls| == |old(calls)| + |old(subscriptions)|
      ensures calls[..|old(calls)|] == old(calls)
      ensures forall k :: |old(calls)| <= k < |calls| ==> calls[k].Unsubscribe?
      ensures UnsubscribedFilters(calls[|old(calls)|..]) == multiset(old(subscriptions).Keys)
    {
      var issued: seq<BusCall> := [];
      var pending := subscriptions.Keys;
      while pending != {}
        invariant calls == old(calls) && subscriptions == old(subscriptions)
        invariant pending <= subscriptions.Keys
        invariant forall k :: 0 <= k < |issued| ==> issued[k].Unsubscribe?
        invariant UnsubscribedFilters(issued) + multiset(pending) == multiset(subscriptions.Keys)
        invariant |issued| + |pending| == |subscriptions.Keys|
        decreases pending
      {
        var f :| f in pending;
        UnsubscribedFiltersAppend(issued, Unsubscribe(f));
        MultisetRemove(pending, f);
        issued := issued + [Unsubscribe(f)];
        pending := pending - {f};
      }
      assert (calls + issued)[..|calls|] == calls;
      assert (calls + issued)[|calls|..] == issued;
      calls := calls + issued;
      subscriptions := map[];
    }

    /** `set_state`: the payload replaces the topic's previous one and is
        published once. */
    method SetState(topic: string, payload: Value)
      modifies this`state, this`calls
      ensures state == old(state)[topic := payload]
      ensures calls == old(calls) + [Publish(topic, payload)]
    {
      state := state[topic := payload];
      calls := calls + [Publish(topic, payload)];
    }

    /** `get_state`: the last payload set for the topic; `None` stands for the
        KeyError of an unknown topic. */
    function GetState(topic: string): (r: Option<Value>)
      reads this
      ensures r.Some? <==> topic in state
      ensures r.Some? ==> r.value == state[topic]
    {
      if topic in state then Some(state[topic]) else None
    }

    /** `publish_state`: one publish per stored topic, carrying its current payload. */
    method PublishState()
      modifies this`calls
      ensures |calls| == |old(calls)| + |state|
      ensures calls[..|old(calls)|] == old(calls)
      ensures forall k :: |old(calls)| <= k < |calls| ==>
                calls[k].Publish? && calls[k].topic in state && calls[k].payload == state[calls[k].topic]
      ensures PublishedTopics(calls[|old(calls)|..]) == multiset(state.Keys)
    {
      var issued: seq<BusCall> := [];
      var pending := state.Keys;
      while pending != {}
        invariant calls == old(calls)
        invariant PublishProgress(state, issued, pending)
        decreases pending
      {
        var t :| t in pending;
        PublishStep(state, issued, pending, t);
        issued := issued + [Publish(t, state[t])];
        pending := pending - {t};
      }
      assert (calls + issued)[..|calls|] == calls;
      assert (calls + issued)[|calls|..] == issued;
      calls := calls + issued;
    }
  }

  /** Part way through `publish_state`: the publishes issued so far carry
      stored payloads, and with the topics still pending they cover every
      stored topic exactly once. */
  ghost predicate PublishProgress(state: map<string, Value>, issued: seq<BusCall>, pending: set<string>) {
    pending <= state.Keys
    && (forall k :: 0 <= k < |issued| ==>
          issued[k].Publish? && issued[k].topic in state && issued[k].payload == state[issued[k].topic])
    && PublishedTopics(issued) + multiset(pending) == multiset(state.Keys)
    && |issued| + |pending| == |state.Keys|
  }

  lemma PublishStep(state: map<string, Value>, issued: seq<BusCall>, pending: set<string>, t: string)
    requires PublishProgress(state, issued, pending) && t in pending
    ensures PublishProgress(state, issued + [Publish(t, state[t])], pending - {t})
  {
    PublishedTopicsAppend(issued, Publish(t, state[t]));
    MultisetRemove(pending, t);
  }

  // ------------------------------------------------------------ Sensor

  const NanosPerSecond := 1000000000

  /** `Sensor.is_changed`: anything that does not compare equal to the previous value. */
  predicate IsChanged(value: Value, previous: Value) {
    !PyEq(value, previous)
  }

  /** The reporting rule of `Sensor.set_value`: a changed value is published;
      an unchanged one once at least `maxDelay` whole seconds (floor of the
      nanosecond difference) have passed since the last publish. */
  predicate Reports(value: Value, previous: Value, lastPublish: int, now: int, maxDelay: int) {
    IsChanged(value, previous) || (now - lastPublish) / NanosPerSecond >= maxDelay
  }

  /** Whole seconds: an unchanged value is reported exactly when `maxDelay`
      seconds' worth of nanoseconds have elapsed. */
  lemma {:induction false} UnchangedReportedAfterMaxDelay(value: Value, previous: Value, lastPublish: int, now: int, maxDelay: int)
    requires !IsChanged(value, previous)
    ensures Reports(value, previous, lastPublish, now, maxDelay) <==> now - lastPublish >= maxDelay * NanosPerSecond
  {
    var d := now - lastPublish;
    var q := d / NanosPerSecond;
    assert d == q * NanosPerSecond + d % NanosPerSecond && 0 <= d % NanosPerSecond < NanosPerSecond;
    if q >= maxDelay {
      assert q * NanosPerSecond >= maxDelay * NanosPerSecond;
    } else {
      assert q + 1 <= maxDelay;
      assert (q + 1) * NanosPerSecond <= maxDelay * NanosPerSecond;
    }
  }

  /** With the default `max_delay` of 0, every sample is reported as long as
      the clock has not gone backwards. */
  lemma ZeroMaxDelayReportsEverything(value: Value, previous: Value, lastPublish: int, now: int)
    requires lastPublish <= now
    ensures Reports(value, previous, lastPublish, now, 0)
  {
  }

  /** `json.dumps` of a bool. */
  function JsonBool(b: bool): Value {
    StrV(if b then "true" else "false")
  }

  datatype SensorSettings = SensorSettings(delay: int, maxDelay: int, configMode: bool)

  /** `Sensor.__init__`: `int(delay)`, `int(max_delay)`, `bool(config_mode)`. */
  function SensorConfig(delay: Value, maxDelay: Value, configMode: Value): (r: Result<SensorSettings, IntError>)
    ensures r.Ok? <==> PyInt(delay).Ok? && PyInt(maxDelay).Ok?
    ensures r.Ok? ==> r.value == SensorSettings(PyInt(delay).value, PyInt(maxDelay).value, Truthy(configMode))
    ensures r.Err? ==> r.error == (if PyInt(delay).Err? then PyInt(delay).error else PyInt(maxDelay).error)
  {
    match PyInt(delay)
    case Err(e) => Err(e)
    case Ok(d) =>
      match PyInt(maxDelay)
      case Err(e) => Err(e)
      case Ok(m) => Ok(SensorSettings(d, m, Truthy(configMode)))
  }

  class Sensor {
    const device: Device
    var delay: int
    var maxDelay: int
    const configMode: bool
    /** `sensor_previous_value`, initially None. */
    var previous: Value
    /** `sensor_set_state_time` in nanoseconds, initially 0. */
    var lastPublish: int

    constructor(device: Device, settings: SensorSettings)
      ensures this.device == device
      ensures delay == settings.delay && maxDelay == settings.maxDelay && configMode == settings.configMode
      ensures previous == NoneV && lastPublish == 0
    {
      this.device := device;
      delay := settings.delay;
      maxDelay := settings.maxDelay;
      configMode := settings.configMode;
      previous := NoneV;
      lastPublish := 0;
    }

    /** `Sensor.setup`: publishes its three settings. */
    method Setup()
      modifies device`state, device`calls
      ensures device.state == old(device.state)["delay" := IntV(delay)]["max_delay" := IntV(maxDelay)]["config_mode" := JsonBool(configMode)]
      ensures device.calls == old(device.calls) + [Publish("delay", IntV(delay)), Publish("max_delay", IntV(maxDelay)),
                                                   Publish("config_mode", JsonBool(configMode))]
    {
      device.SetState("delay", IntV(delay));
      device.SetState("max_delay", IntV(maxDelay));
      device.SetState("config_mode", JsonBool(configMode));
    }

    /** `Sensor.set_value` with the value read from the hardware. `now` is the
        clock read for the decision; `stamp` is the clock read stored as the
        time of the publish (the first read when the value changed, a second
        read otherwise). */
    method SetValue(value: Value, now: int, stamp: int)
      modifies this`previous, this`lastPublish, device`state, device`calls
      ensures previous == value
      ensures Reports(value, old(previous), old(lastPublish), now, maxDelay) ==>
                device.state == old(device.state)["value" := value]
                && device.calls == old(device.calls) + [Publish("value", value)]
                && lastPublish == (if IsChanged(value, old(previous)) then now else stamp)
      ensures !Reports(value, old(previous), old(lastPublish), now, maxDelay) ==>
                device.state == old(device.state) && device.calls == old(device.calls) && lastPublish == old(lastPublish)
    {
      if IsChanged(value, previous) {
        lastPublish := now;
        device.SetState("value", value);
      } else if (now - lastPublish) / NanosPerSecond >= maxDelay {
        lastPublish := stamp;
        device.SetState("value", value);
      }
      previous := value;
    }

    /** `Sensor.message_received`: in config mode, `delay` and `max_delay`
        messages replace the setting with `int(payload)` and publish it. A
        payload `int()` rejects raises, which the result carries. */
    method MessageReceived(topic: Option<string>, payload: Value) returns (raised: Option<IntError>)
      modifies this`delay, this`maxDelay, device`state, device`calls
      ensures var acts := configMode && topic in {Some("delay"), Some("max_delay")};
              if !acts || PyInt(payload).Err? then
                raised == (if acts then Some(PyInt(payload).error) else None)
                && delay == old(delay) && maxDelay == old(maxDelay)
                && device.state == old(device.state) && device.calls == old(device.calls)
              else
                raised == None
                && (topic == Some("delay") ==>
                      delay == PyInt(payload).value && maxDelay == old(maxDelay)
                      && device.state == old(device.state)["delay" := IntV(delay)]
                      && device.calls == old(device.calls) + [Publish("delay", IntV(delay))])
                && (topic == Some("max_delay") ==>
                      maxDelay == PyInt(payload).value && delay == old(delay)
                      && device.state == old(device.state)["max_delay" := IntV(maxDelay)]
                      && device.calls == old(device.calls) + [Publish("max_delay", IntV(maxDelay))])
    {
      raised := None;
      if configMode {
        if topic == Some("delay") {
          var parsed := PyInt(payload);
          if parsed.Err? {
            return Some(parsed.error);
          }
          delay := parsed.value;
          device.SetState("delay", IntV(delay));
        }
        if topic == Some("max_delay") {
          var parsed := PyInt(payload);
          if parsed.Err? {
            return Some(parsed.error);
          }
          maxDelay := parsed.value;
          device.SetState("max_delay", IntV(maxDelay));
        }
      }
    }
  }
}
