/** The Button and Relay devices of brick/device/base.py. Each wraps the
    `Device` class it inherits in the source; the GPIO pins are
    recorded calls or sampled inputs. */
module DeviceBase {
  import opened Wrappers
  import opened Values
  import opened Device

  // ------------------------------------------------------------ Button

  /** `Button.__init__`'s `on_single_click` normalisation: a non-empty value
      whose first element is not a list is wrapped into a one-element list.
      Taking the first element of a truthy value that is not a sequence raises
      TypeError, carried as `Err`. */
  function NormaliseActions(actions: Value): (r: Result<Value, string>)
    ensures !Truthy(actions) ==> r == Ok(actions)
    ensures actions.ListV? && actions.items != [] ==>
              r == Ok(if actions.items[0].ListV? then actions else ListV([actions]))
    ensures actions.StrV? && actions.s != "" ==> r == Ok(ListV([actions]))
    ensures Truthy(actions) && (actions.IntV? || actions.BoolV?) ==> r.Err?
  {
    if !Truthy(actions) then Ok(actions)
    else match actions
      case ListV(items) => Ok(if items[0].ListV? then actions else ListV([actions]))
      case StrV(_) => Ok(ListV([actions]))
      case IntV(_) => Err("'int' object is not subscriptable")
      case BoolV(_) => Err("'bool' object is not subscriptable")
      case NoneV => Ok(actions)
  }

  /** Normalising a list twice changes nothing more: the result is empty or a
      list of lists. */
  lemma NormaliseIdempotent(actions: Value)
    requires actions.ListV?
    ensures var r := NormaliseActions(actions).value;
            r.ListV? && (r.items == [] || r.items[0].ListV?)
    ensures NormaliseActions(NormaliseActions(actions).value) == NormaliseActions(actions)
  {
  }

  /** Unpacking one action into `component, topic, payload`: a three-element
      list, or a three-character string, which unpacks into its characters. */
  function Unpack(action: Value): (r: Option<(Value, Value, Value)>)
    ensures action.ListV? && |action.items| == 3 ==> r == Some((action.items[0], action.items[1], action.items[2]))
    ensures action.StrV? && |action.s| == 3 ==> r == Some((StrV([action.s[0]]), StrV([action.s[1]]), StrV([action.s[2]])))
    ensures r.Some? ==> (action.ListV? && |action.items| == 3) || (action.StrV? && |action.s| == 3)
  {
    match action
    case ListV(items) => if |items| == 3 then Some((items[0], items[1], items[2])) else None
    case StrV(s) => if |s| == 3 then Some((StrV([s[0]]), StrV([s[1]]), StrV([s[2]]))) else None
    case _ => None
  }

  /** The elements `for ... in on_single_click` iterates over. */
  function Elements(v: Value): seq<Value> {
    match v
    case ListV(items) => items
    case StrV(s) => seq(|s|, k requires 0 <= k < |s| => StrV([s[k]]))
    case _ => []
  }

  /** What `single_click` iterates over: nothing for a falsy value. */
  function ActionItems(actions: Value): seq<Value> {
    if Truthy(actions) then Elements(actions) else []
  }

  /** The number of leading actions that unpack. */
  function UnpackablePrefix(actions: seq<Value>): (n: nat)
    ensures n <= |actions|
    ensures forall k :: 0 <= k < n ==> Unpack(actions[k]).Some?
    ensures n < |actions| ==> Unpack(actions[n]).None?
  {
    if actions == [] || Unpack(actions[0]).None? then 0 else 1 + UnpackablePrefix(actions[1..])
  }

  function SendOf(action: Value): BusCall
    requires Unpack(action).Some?
  {
    var (component, topic, payload) := Unpack(action).value;
    Send(component, topic, payload)
  }

  const ClickEvents := [Publish("click", StrV("single")), Publish("click", StrV("none"))]

  /** The two samples of `is_pressed` in one iteration of `Button.loop`: the one
      tested, and the one kept as the previous state. */
  datatype Iteration = Iteration(tested: bool, kept: bool)

  /** Whether iteration `k` calls `single_click`: pressed now, released at the
      previous sample (the initial read for the first iteration). */
  predicate ClicksAt(initial: bool, samples: seq<Iteration>, k: nat)
    requires k < |samples|
  {
    samples[k].tested && !(if k == 0 then initial else samples[k - 1].kept)
  }

  /** The calls of `single_click` land after the earlier ones: the sends of
      the first `n` actions, in order, then `tail`. */
  lemma AppendedCalls(before: seq<BusCall>, sent: seq<BusCall>, tail: seq<BusCall>, items: seq<Value>, n: nat)
    requires n <= |items| && |sent| == n
    requires forall k :: 0 <= k < n ==> Unpack(items[k]).Some? && sent[k] == SendOf(items[k])
    ensures var calls := before + sent + tail;
            |calls| == |before| + n + |tail|
            && calls[..|before|] == before
            && (forall k :: 0 <= k < n ==> calls[|before| + k] == SendOf(items[k]))
            && calls[|before| + n..] == tail
  {
    var calls := before + sent + tail;
    assert forall k :: 0 <= k < n ==> calls[|before| + k] == sent[k];
  }

  /** A single flat action `[component, topic, payload]` is wrapped into a
      list of one action, so `single_click` sends it once and then publishes
      the click events. */
  lemma FlatActionWrapped(component: Value, topic: Value, payload: Value)
    requires !component.ListV?
    ensures var flat := ListV([component, topic, payload]);
            var items := ActionItems(NormaliseActions(flat).value);
            items == [flat] && UnpackablePrefix(items) == 1
            && SendOf(items[0]) == Send(component, topic, payload)
  {
    var flat := ListV([component, topic, payload]);
    assert NormaliseActions(flat) == Ok(ListV([flat]));
    assert ActionItems(ListV([flat])) == [flat];
    assert UnpackablePrefix([flat][1..]) == 0;
  }

  /** What `Button.__init__` raises: `int(pin)` or `int(debounce)` failing,
      or the TypeError of indexing a truthy number given as `on_single_click`. */
  datatype InitError = Conversion(error: IntError) | NotSubscriptable(message: string)

  /** The values `Button.__init__` stores. */
  datatype ButtonSettings = ButtonSettings(pinNumber: int, debounce: int, actions: Value)

  /** The default of `Button.__init__`'s `debounce`, in milliseconds. */
  const DefaultDebounce := 50

  /** `Button.__init__`: `int(pin)`, then `int(debounce)`, then the
      normalised actions; the first of them to fail is what it raises. */
  function ButtonConfig(pin: Value, debounce: Value, onSingleClick: Value): (r: Result<ButtonSettings, InitError>)
    ensures r.Ok? <==> PyInt(pin).Ok? && PyInt(debounce).Ok? && NormaliseActions(onSingleClick).Ok?
    ensures r.Ok? ==> r.value == ButtonSettings(PyInt(pin).value, PyInt(debounce).value, NormaliseActions(onSingleClick).value)
    ensures PyInt(pin).Err? ==> r == Err(Conversion(PyInt(pin).error))
    ensures PyInt(pin).Ok? && PyInt(debounce).Err? ==> r == Err(Conversion(PyInt(debounce).error))
    ensures PyInt(pin).Ok? && PyInt(debounce).Ok? && NormaliseActions(onSingleClick).Err?
            ==> r == Err(NotSubscriptable(NormaliseActions(onSingleClick).error))
  {
    match PyInt(pin)
    case Err(e) => Err(Conversion(e))
    case Ok(p) =>
      match PyInt(debounce)
      case Err(e) => Err(Conversion(e))
      case Ok(d) =>
        match NormaliseActions(onSingleClick)
        case Err(m) => Err(NotSubscriptable(m))
        case Ok(actions) => Ok(ButtonSettings(p, d, actions))
  }

  /** A button configured without a pin cannot be made: `int(None)` raises
      TypeError before anything else is looked at. */
  lemma MissingPinRefused(debounce: Value, onSingleClick: Value)
    ensures ButtonConfig(NoneV, debounce, onSingleClick) == Err(Conversion(TypeError))
  {
  }

  /** A pin given as text is read as a number, and the default debounce and
      actions are accepted. */
  lemma PinTextAccepted()
    ensures ButtonConfig(StrV("17"), IntV(DefaultDebounce), ListV([])) == Ok(ButtonSettings(17, 50, ListV([])))
  {
    assert "17"[..1] == "1" && "1"[..0] == "";
    assert DigitsValue("17") == 17;
    StripSurrounding("", "17", "");
    assert "" + "17" + "" == "17";
  }

  class Button {
    const device: Device
    /** `int(pin)`. */
    const pinNumber: int
    /** `int(debounce)`, in milliseconds. */
    const debounce: int
    /** `on_single_click` after normalisation. */
    const actions: Value

    /** `Button.__init__` once the conversions have succeeded. */
    constructor(device: Device, settings: ButtonSettings)
      ensures this.device == device
      ensures pinNumber == settings.pinNumber && debounce == settings.debounce && actions == settings.actions
    {
      this.device := device;
      pinNumber := settings.pinNumber;
      debounce := settings.debounce;
      actions := settings.actions;
    }

    /** `Button.__init__` for any arguments: the first failing conversion is
        raised and no button is made; otherwise a fresh button holds the
        converted pin and debounce and the normalised actions. */
    static method Create(device: Device, pin: Value, debounce: Value, onSingleClick: Value)
      returns (r: Result<Button, InitError>)
      ensures var c := ButtonConfig(pin, debounce, onSingleClick);
              (c.Err? ==> r == Err(c.error))
              && (c.Ok? ==> r.Ok? && fresh(r.value) && r.value.device == device
                            && r.value.pinNumber == c.value.pinNumber && r.value.debounce == c.value.debounce
                            && r.value.actions == c.value.actions)
    {
      match ButtonConfig(pin, debounce, onSingleClick)
      case Err(e) =>
        r := Err(e);
      case Ok(settings) =>
        var b := new Button(device, settings);
        r := Ok(b);
    }

    /** `single_click`: one directed message per action in order, then the
        click events `single` and `none`. An action that does not unpack
        raises ValueError after the sends before it; `ok` is false then. */
    method SingleClick() returns (ok: bool)
      modifies device`calls
      ensures var items := ActionItems(actions);
              var n := UnpackablePrefix(items);
              ok == (n == |items|)
              && |device.calls| == |old(device.calls)| + n + (if ok then 2 else 0)
              && device.calls[..|old(device.calls)|] == old(device.calls)
              && (forall k :: 0 <= k < n ==> device.calls[|old(device.calls)| + k] == SendOf(items[k]))
              && (ok ==> device.calls[|old(device.calls)| + n..] == ClickEvents)
    {
      var items := ActionItems(actions);
      var sent: seq<BusCall> := [];
      var i := 0;
      ok := true;
      while i < |items|
        invariant 0 <= i <= |items|
        invariant device.calls == old(device.calls)
        invariant i <= UnpackablePrefix(items)
        invariant |sent| == i && forall k :: 0 <= k < i ==> Unpack(items[k]).Some? && sent[k] == SendOf(items[k])
      {
        var unpacked := Unpack(items[i]);
        if unpacked.None? {
          ok := false;
          break;
        }
        sent := sent + [SendOf(items[i])];
        i := i + 1;
      }
      assert i == UnpackablePrefix(items);
      var tail := if ok then ClickEvents else [];
      AppendedCalls(device.calls, sent, tail, items, i);
      device.calls := device.calls + sent + tail;
    }

    /** `Button.loop`, run for `|samples|` iterations after the `initial`
        read: the iterations at which `single_click` is called, in order. */
    method Loop(initial: bool, samples: seq<Iteration>) returns (clicks: seq<nat>)
      ensures forall k: nat :: k in clicks <==> k < |samples| && ClicksAt(initial, samples, k)
      ensures forall a, b :: 0 <= a < b < |clicks| ==> clicks[a] < clicks[b]
    {
      var pressed := initial;
      clicks := [];
      var k := 0;
      while k < |samples|
        invariant 0 <= k <= |samples|
        invariant pressed == if k == 0 then initial else samples[k - 1].kept
        invariant forall j: nat :: j in clicks <==> j < k && ClicksAt(initial, samples, j)
        invariant forall a, b :: 0 <= a < b < |clicks| ==> clicks[a] < clicks[b]
        invariant forall a :: 0 <= a < |clicks| ==> clicks[a] < k
      {
        if samples[k].tested {
          if !pressed {
            clicks := clicks + [k];
          }
        }
        pressed := samples[k].kept;
        k := k + 1;
      }
    }
  }

  /** When the button does not change between the two samples of an iteration,
      clicks are exactly the released-to-pressed edges of the sampled signal. */
  lemma StableReadsClickOnRisingEdges(initial: bool, samples: seq<Iteration>, k: nat)
    requires forall j :: 0 <= j < |samples| ==> samples[j].tested == samples[j].kept
    requires k < |samples|
    ensures ClicksAt(initial, samples, k) <==> samples[k].kept && !(if k == 0 then initial else samples[k - 1].tested)
  {
  }

  // ------------------------------------------------------------ Relay

  /** `Relay.__init__`: `initial in ('on', True)`; as `1 == True` in Python,
      `1` also selects `on`. */
  function InitialPower(initial: Value): (p: string)
    ensures p == "on" <==> initial == StrV("on") || initial == BoolV(true) || initial == IntV(1)
    ensures p == "on" || p == "off"
  {
    if PyEq(initial, StrV("on")) || PyEq(initial, BoolV(true)) then "on" else "off"
  }

  /** The two LED pin operations. */
  datatype PinCall = On | Off

  /** What `set_power(command)` does given the stored power state. */
  datatype PowerEffect = SwitchTo(power: string) | NoEffect | MissingPower

  function PowerEffectOf(stored: Option<Value>, command: Value): (e: PowerEffect)
    ensures command == StrV("on") ==> e == SwitchTo("on")
    ensures command == StrV("off") ==> e == SwitchTo("off")
    ensures command == StrV("toggle") ==>
              e == (if stored.None? then MissingPower
                    else if stored.value == StrV("on") then SwitchTo("off")
                    else if stored.value == StrV("off") then SwitchTo("on")
                    else NoEffect)
    ensures command !in {StrV("on"), StrV("off"), StrV("toggle")} ==> e == NoEffect
  {
    if command == StrV("on") then SwitchTo("on")
    else if command == StrV("off") then SwitchTo("off")
    else if command == StrV("toggle") then
      match stored
      case None => MissingPower
      case Some(p) => if p == StrV("on") then SwitchTo("off") else if p == StrV("off") then SwitchTo("on") else NoEffect
    else NoEffect
  }

  /** Toggling twice from a known power state returns to it. */
  lemma ToggleTwice(p: string)
    requires p == "on" || p == "off"
    ensures var first := PowerEffectOf(Some(StrV(p)), StrV("toggle"));
            first.SwitchTo? && first.power != p
            && PowerEffectOf(Some(StrV(first.power)), StrV("toggle")) == SwitchTo(p)
  {
  }

  class Relay {
    const device: Device
    /** `int(pin)`. */
    const pinNumber: int
    /** `self.initial`, `on` or `off`. */
    const initial: string
    /** The LED operations issued on the relay's pin. */
    var pin: seq<PinCall>

    ghost predicate Valid() {
      initial == "on" || initial == "off"
    }

    /** `Relay.__init__` once `int(pin)` has succeeded. */
    constructor(device: Device, pinNumber: int, initial: Value)
      ensures this.device == device && this.pinNumber == pinNumber
      ensures this.initial == InitialPower(initial) && pin == []
      ensures Valid()
    {
      this.device := device;
      this.pinNumber := pinNumber;
      this.initial := InitialPower(initial);
      pin := [];
    }

    /** `Relay.__init__` for any arguments: `int(pin)` raising (TypeError for
        the default `None`, ValueError for text that is not a number) makes
        no relay; otherwise a fresh relay holds the pin and initial power. */
    static method Create(device: Device, pin: Value, initial: Value) returns (r: Result<Relay, IntError>)
      ensures PyInt(pin).Err? ==> r == Err(PyInt(pin).error)
      ensures PyInt(pin).Ok? ==>
                r.Ok? && fresh(r.value) && r.value.device == device && r.value.pinNumber == PyInt(pin).value
                && r.value.initial == InitialPower(initial) && r.value.pin == [] && r.value.Valid()
    {
      match PyInt(pin)
      case Err(e) =>
        r := Err(e);
      case Ok(p) =>
        var relay := new Relay(device, p, initial);
        r := Ok(relay);
    }

    /** `setup`: switches to the initial power. */
    method Setup()
      requires Valid()
      modifies this`pin, device`state, device`calls
      ensures device.state == old(device.state)["power" := StrV(initial)]
      ensures device.GetState("power") == Some(StrV(initial))
      ensures pin == old(pin) + [if initial == "on" then On else Off]
      ensures device.calls == old(device.calls) + [Publish("power", StrV(initial))]
    {
      var _ := SetPower(StrV(initial));
    }

    /** `set_power`: `on`/`off` drive the pin and store and publish the new
        power; `toggle` flips a stored `on`/`off` through a second call; a
        toggle with no stored power raises KeyError (`ok` false); anything else
        changes nothing. */
    method SetPower(command: Value) returns (ok: bool)
      modifies this`pin, device`state, device`calls
      decreases if command == StrV("toggle") then 1 else 0
      ensures var e := PowerEffectOf(old(device.GetState("power")), command);
              ok == !e.MissingPower?
              && (e.SwitchTo? ==>
                    device.state == old(device.state)["power" := StrV(e.power)]
                    && pin == old(pin) + [if e.power == "on" then On else Off]
                    && device.calls == old(device.calls) + [Publish("power", StrV(e.power))])
              && (!e.SwitchTo? ==>
                    device.state == old(device.state) && pin == old(pin) && device.calls == old(device.calls))
    {
      ok := true;
      if command == StrV("on") {
        pin := pin + [On];
        device.SetState("power", StrV("on"));
      }
      if command == StrV("off") {
        pin := pin + [Off];
        device.SetState("power", StrV("off"));
      }
      if command == StrV("toggle") {
        var power := device.GetState("power");
        if power.None? {
          return false;
        }
        if power.value == StrV("on") {
          ok := SetPower(StrV("off"));
        } else if power.value == StrV("off") {
          ok := SetPower(StrV("on"));
        }
      }
    }

    /** `message_received`: only the topic `power` is acted on. */
    method MessageReceived(topic: Option<string>, payload: Value) returns (ok: bool)
      modifies this`pin, device`state, device`calls
      ensures topic != Some("power") ==>
                ok && device.state == old(device.state) && pin == old(pin) && device.calls == old(device.calls)
      ensures topic == Some("power") ==>
                var e := PowerEffectOf(old(device.GetState("power")), payload);
                ok == !e.MissingPower?
                && (e.SwitchTo? ==> device.state == old(device.state)["power" := StrV(e.power)])
                && (!e.SwitchTo? ==> device.state == old(device.state) && device.calls == old(device.calls))
    {
      ok := true;
      if topic == Some("power") {
        ok := SetPower(payload);
      }
    }
  }
}
