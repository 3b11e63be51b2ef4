/** The MCP23017 I/O expander of brick/hardware/mcp/mcp230xx.py: per port
    (`a`, `b`) and channel (0..7) a name, a direction flag, a pull-up flag and a
    cached value flag, each the character '0' or '1'. A port's flags become one
    register byte by joining them from channel 7 down to channel 0 and reading
    the text in base 2; a byte read back sets each channel's flag from its bit.
    The I2C bus is a record of calls; bytes read and clock readings are
    parameters. */
module Mcp230xx {
  import opened Wrappers
  import opened Values

  // ------------------------------------------------------------ flags and bytes

  predicate IsFlag(c: char) { c == '0' || c == '1' }

  predicate Flags(s: seq<char>) { forall k :: 0 <= k < |s| ==> IsFlag(s[k]) }

  function FlagBit(c: char): nat { if c == '1' then 1 else 0 }

  function Pow2(n: nat): (p: nat)
    ensures p >= 1
  {
    if n == 0 then 1 else 2 * Pow2(n - 1)
  }

  /** `value & 1 << c != 0` for a non-negative `value`: bit `c` is set. */
  predicate BitSet(v: nat, c: nat) {
    if c == 0 then v % 2 == 1 else BitSet(v / 2, c - 1)
  }

  /** `channels_reverse`-ordered text of a port's flags. */
  function Reverse(s: seq<char>): (r: seq<char>)
    ensures |r| == |s|
    ensures forall k :: 0 <= k < |s| ==> r[k] == s[|s| - 1 - k]
  {
    if s == [] then [] else Reverse(s[1..]) + [s[0]]
  }

  /** `int(text, 2)` for a text of '0' and '1'. */
  function ParseBinary(text: seq<char>): nat
    requires Flags(text)
  {
    if text == [] then 0 else ParseBinary(text[..|text| - 1]) * 2 + FlagBit(text[|text| - 1])
  }

  /** The register byte for a port: its flags joined from channel 7 to 0, in base 2. */
  function Pack(flags: seq<char>): nat
    requires Flags(flags)
  {
    ParseBinary(Reverse(flags))
  }

  /** Channel 0 is the least significant bit. */
  lemma {:induction false} PackLeastSignificantFirst(flags: seq<char>)
    requires Flags(flags) && flags != []
    ensures Pack(flags) == FlagBit(flags[0]) + 2 * Pack(flags[1..])
  {
    var rest := Reverse(flags[1..]);
    assert Reverse(flags) == rest + [flags[0]];
    assert (rest + [flags[0]])[..|rest|] == rest;
  }

  /** Bit `c` of the packed byte is set exactly when channel `c`'s flag is '1'. */
  lemma {:induction false} PackBit(flags: seq<char>, c: nat)
    requires Flags(flags) && c < |flags|
    ensures BitSet(Pack(flags), c) <==> flags[c] == '1'
    decreases c
  {
    var tail := flags[1..];
    assert Flags(tail);
    var b, rest := FlagBit(flags[0]), Pack(tail);
    PackLeastSignificantFirst(flags);
    ShiftedBit(b, rest, c);
    if c > 0 {
      assert tail[c - 1] == flags[c];
      PackBit(tail, c - 1);
    }
  }

  /** Bit 0 of `b + 2 * rest` is `b`, and bit `c + 1` is bit `c` of `rest`. */
  lemma ShiftedBit(b: nat, rest: nat, c: nat)
    requires b < 2
    ensures BitSet(b + 2 * rest, c) <==> if c == 0 then b == 1 else BitSet(rest, c - 1)
  {
    LowBit(b, rest);
  }

  lemma LowBit(b: nat, rest: nat)
    requires b < 2
    ensures (b + 2 * rest) % 2 == b && (b + 2 * rest) / 2 == rest
  {
  }

  /** `n` flags pack into a number below `2^n`. */
  lemma {:induction false} PackBound(flags: seq<char>)
    requires Flags(flags)
    ensures Pack(flags) < Pow2(|flags|)
    decreases |flags|
  {
    if flags != [] {
      PackLeastSignificantFirst(flags);
      PackBound(flags[1..]);
    }
  }

  /** The flags `read_port` derives from the low `n` bits of `v`. */
  function UnpackN(v: nat, n: nat): (flags: seq<char>)
    ensures |flags| == n && Flags(flags)
  {
    seq(n, c requires 0 <= c => if BitSet(v, c) then '1' else '0')
  }

  /** `read_port`'s eight channel flags for the byte read. */
  function Unpack(v: nat): (flags: seq<char>)
    ensures |flags| == 8 && Flags(flags)
    ensures forall c :: 0 <= c < 8 ==> (flags[c] == '1' <==> BitSet(v, c))
  {
    UnpackN(v, 8)
  }

  lemma {:induction false} PackUnpackN(v: nat, n: nat)
    requires v < Pow2(n)
    ensures Pack(UnpackN(v, n)) == v
    decreases n
  {
    if n > 0 {
      var flags := UnpackN(v, n);
      PackLeastSignificantFirst(flags);
      assert flags[1..] == UnpackN(v / 2, n - 1);
      PackUnpackN(v / 2, n - 1);
    }
  }

  /** Writing back what was read gives the same byte. */
  lemma PackUnpack(v: nat)
    requires v < 256
    ensures Pack(Unpack(v)) == v
  {
    assert Pow2(8) == 256;
    PackUnpackN(v, 8);
  }

  /** Reading back a written byte gives the same flags. */
  lemma UnpackPack(flags: seq<char>)
    requires Flags(flags) && |flags| == 8
    ensures Pack(flags) < 256
    ensures Unpack(Pack(flags)) == flags
  {
    PackBound(flags);
    assert Pow2(8) == 256;
    forall c | 0 <= c < 8 ensures Unpack(Pack(flags))[c] == flags[c] {
      PackBit(flags, c);
    }
  }

  // ------------------------------------------------------------ ports and channels

  datatype PortId = A | B

  const ChannelCount := 8
  const DefaultAddress := 0x20

  function DirectionRegister(p: PortId): nat { if p == A then 0x00 else 0x01 }
  function PullUpRegister(p: PortId): nat { if p == A then 0x0C else 0x0D }
  function GpioRegister(p: PortId): nat { if p == A then 0x12 else 0x13 }

  /** `port in ['a', 'b']`. */
  function PortOf(v: Value): Option<PortId> {
    if v == StrV("a") then Some(A) else if v == StrV("b") then Some(B) else None
  }

  /** `channel in range(8)`; since `True == 1` and `False == 0`, booleans name
      channels 1 and 0. */
  function ChannelOf(v: Value): (c: Option<nat>)
    ensures c.Some? ==> c.value < ChannelCount
    ensures c.Some? <==> (v.IntV? && 0 <= v.i < ChannelCount) || v.BoolV?
  {
    match v
    case IntV(i) => if 0 <= i < ChannelCount then Some(i) else None
    case BoolV(b) => Some(if b then 1 else 0)
    case _ => None
  }

  const PortMessage := "Port should be one of ['a', 'b']"
  const ChannelMessage := "Channel should be one of [0, 1, 2, 3, 4, 5, 6, 7]"
  const DirectionMessage := "Direction should be one of ['in', 'out']"

  /** The text of a channel conflict; it names the requester, not the owner. */
  function InUseMessage(port: Value, channel: Value, name: Value): string {
    if Truthy(name) then "Port '" + Str(port) + "' channel " + Str(channel) + " already used by '" + Str(name) + "'"
    else "Port '" + Str(port) + "' channel " + Str(channel) + " already in use"
  }

  datatype I2CCall =
    | WriteByteData(address: Value, register: nat, byte: nat)
    | ReadByteData(address: Value, register: nat)

  const Zeros: seq<char> := ['0', '0', '0', '0', '0', '0', '0', '0']

  /** One port's entries of the `name`, `direction`, `pullup`, `value` and
      `last_read_time` dictionaries. */
  datatype PortTable = PortTable(names: map<int, Value>, direction: seq<char>, pullup: seq<char>,
                                 value: seq<char>, lastReadTime: int)

  predicate PortOk(t: PortTable) {
    |t.direction| == 8 && |t.pullup| == 8 && |t.value| == 8
    && Flags(t.direction) && Flags(t.pullup) && Flags(t.value)
    && forall c :: c in t.names ==> 0 <= c < ChannelCount
  }

  /** A port as `__init__` leaves it: every flag '0', no channel named, never read. */
  const FreshPort := PortTable(map[], Zeros, Zeros, Zeros, 0)

  /** A successful `channel_config` on one port: the channel is named and its
      direction and pull-up flags are '1' for an input and '0' for an output. */
  function Configured(t: PortTable, c: nat, name: Value, input: bool): (r: PortTable)
    requires PortOk(t) && c < ChannelCount
    ensures PortOk(r)
    ensures r.names.Keys == t.names.Keys + {c} && r.names[c] == name
    ensures forall k :: k in t.names && k != c ==> r.names[k] == t.names[k]
    ensures r.direction[c] == r.pullup[c] == (if input then '1' else '0')
    ensures forall k :: 0 <= k < 8 && k != c ==> r.direction[k] == t.direction[k] && r.pullup[k] == t.pullup[k]
    ensures r.value == t.value && r.lastReadTime == t.lastReadTime
  {
    var flag := if input then '1' else '0';
    t.(names := t.names[c := name], direction := t.direction[c := flag], pullup := t.pullup[c := flag])
  }

  class MCP23017 {
    const address: Value
    var ports: map<PortId, PortTable>
    var bus: seq<I2CCall>

    ghost predicate Valid()
      reads this
    {
      A in ports && B in ports && PortOk(ports[A]) && PortOk(ports[B])
    }

    /** `__init__`. */
    constructor(address: Value)
      ensures Valid()
      ensures this.address == address && bus == []
      ensures ports == map[A := FreshPort, B := FreshPort]
    {
      this.address := address;
      ports := map[A := FreshPort, B := FreshPort];
      bus := [];
    }

    /** `channel_config`: the checks in source order, each failing with its
        ValidationError text and changing nothing; on success the channel is
        configured as `Configured` states. */
    method ChannelConfig(port: Value, channel: Value, name: Value, dir: Value) returns (error: Option<string>)
      requires Valid()
      modifies this`ports
      ensures Valid()
      ensures PortOf(port).None? ==> error == Some(PortMessage)
      ensures PortOf(port).Some? && ChannelOf(channel).None? ==> error == Some(ChannelMessage)
      ensures PortOf(port).Some? && ChannelOf(channel).Some? && ChannelOf(channel).value in old(ports)[PortOf(port).value].names
              ==> error == Some(InUseMessage(port, channel, name))
      ensures (PortOf(port).Some? && ChannelOf(channel).Some? && ChannelOf(channel).value !in old(ports)[PortOf(port).value].names
               && dir !in {StrV("in"), StrV("out")}) ==> error == Some(DirectionMessage)
      ensures error.Some? ==> ports == old(ports)
      ensures error.None? ==>
                var p := PortOf(port).value;
                var c := ChannelOf(channel).value;
                c !in old(ports)[p].names && dir in {StrV("in"), StrV("out")}
                && ports == old(ports)[p := Configured(old(ports)[p], c, name, dir == StrV("in"))]
    {
      var p := PortOf(port);
      if p.None? {
        return Some(PortMessage);
      }
      var c := ChannelOf(channel);
      if c.None? {
        return Some(ChannelMessage);
      }
      if c.value in ports[p.value].names {
        return Some(InUseMessage(port, channel, name));
      }
      if dir != StrV("in") && dir != StrV("out") {
        return Some(DirectionMessage);
      }
      ports := ports[p.value := Configured(ports[p.value], c.value, name, dir == StrV("in"))];
      error := None;
    }

    /** `read_port`: every channel's cached flag is set from its bit of the
        byte read, and the read time is recorded. */
    method ReadPort(p: PortId, byte: nat, now: int)
      requires Valid() && byte < 256
      modifies this`ports, this`bus
      ensures Valid()
      ensures ports == old(ports)[p := old(ports)[p].(value := Unpack(byte), lastReadTime := now)]
      ensures bus == old(bus) + [ReadByteData(address, GpioRegister(p))]
    {
      bus := bus + [ReadByteData(address, GpioRegister(p))];
      var flags := ports[p].value;
      var c := 0;
      while c < ChannelCount
        invariant 0 <= c <= ChannelCount && |flags| == 8
        invariant forall k :: 0 <= k < c ==> flags[k] == Unpack(byte)[k]
      {
        flags := flags[c := if BitSet(byte, c) then '1' else '0'];
        c := c + 1;
      }
      assert flags == Unpack(byte);
      ports := ports[p := ports[p].(value := flags, lastReadTime := now)];
    }

    /** `write_port`: the port's cached flags are written as one byte, then the
        port is read back. */
    method WritePort(p: PortId, readBack: nat, now: int) returns (written: nat)
      requires Valid() && readBack < 256
      modifies this`ports, this`bus
      ensures Valid()
      ensures written == Pack(old(ports)[p].value) && written < 256
      ensures bus == old(bus) + [WriteByteData(address, GpioRegister(p), written), ReadByteData(address, GpioRegister(p))]
      ensures ports == old(ports)[p := old(ports)[p].(value := Unpack(readBack), lastReadTime := now)]
    {
      written := Pack(ports[p].value);
      UnpackPack(ports[p].value);
      bus := bus + [WriteByteData(address, GpioRegister(p), written)];
      ReadPort(p, readBack, now);
    }

    /** `setup`: direction and pull-up bytes are written for port a then b,
        then both ports are read. */
    method Setup(byteA: nat, timeA: int, byteB: nat, timeB: int)
      requires Valid() && byteA < 256 && byteB < 256
      modifies this`ports, this`bus
      ensures Valid()
      ensures bus == old(bus) + SetupWrites(address, old(ports)[A], old(ports)[B])
                              + [ReadByteData(address, GpioRegister(A)), ReadByteData(address, GpioRegister(B))]
      ensures ports == old(ports)[A := old(ports)[A].(value := Unpack(byteA), lastReadTime := timeA)]
                                 [B := old(ports)[B].(value := Unpack(byteB), lastReadTime := timeB)]
    {
      bus := bus + SetupWrites(address, ports[A], ports[B]);
      ReadPort(A, byteA, timeA);
      ReadPort(B, byteB, timeB);
    }

    /** `get_channel_state`: the port is re-read only when more than
        `delay * 500000` ns have passed since its last read; the state is `on`
        exactly when the channel's cached flag is '0'. */
    method GetChannelState(p: PortId, channel: nat, delay: int, now: int, byte: nat, readTime: int) returns (state: string)
      requires Valid() && channel < ChannelCount && byte < 256
      modifies this`ports, this`bus
      ensures Valid()
      ensures var reread := now - old(ports)[p].lastReadTime > delay * 500000;
              (reread ==> ports == old(ports)[p := old(ports)[p].(value := Unpack(byte), lastReadTime := readTime)]
                          && bus == old(bus) + [ReadByteData(address, GpioRegister(p))])
              && (!reread ==> ports == old(ports) && bus == old(bus))
      ensures state == (if ports[p].value[channel] == '0' then "on" else "off")
    {
      if now - ports[p].lastReadTime > delay * 500000 {
        ReadPort(p, byte, readTime);
      }
      state := if ports[p].value[channel] == '0' then "on" else "off";
    }

    /** `set_channel_state`: only the target channel's flag changes ('1' for
        `on`, '0' otherwise) before the port is written and read back. */
    method SetChannelState(p: PortId, channel: nat, state: Value, readBack: nat, now: int) returns (written: nat)
      requires Valid() && channel < ChannelCount && readBack < 256
      modifies this`ports, this`bus
      ensures Valid()
      ensures written == Pack(old(ports)[p].value[channel := if state == StrV("on") then '1' else '0'])
      ensures bus == old(bus) + [WriteByteData(address, GpioRegister(p), written), ReadByteData(address, GpioRegister(p))]
      ensures ports == old(ports)[p := old(ports)[p].(value := Unpack(readBack), lastReadTime := now)]
    {
      var t := ports[p];
      ports := ports[p := t.(value := t.value[channel := if state == StrV("on") then '1' else '0'])];
      written := WritePort(p, readBack, now);
    }
  }

  /** The four register writes of `setup`, port a before port b. */
  function SetupWrites(address: Value, a: PortTable, b: PortTable): seq<I2CCall>
    requires PortOk(a) && PortOk(b)
  {
    [WriteByteData(address, DirectionRegister(A), Pack(a.direction)),
     WriteByteData(address, PullUpRegister(A), Pack(a.pullup)),
     WriteByteData(address, DirectionRegister(B), Pack(b.direction)),
     WriteByteData(address, PullUpRegister(B), Pack(b.pullup))]
  }

  /** The byte `set_channel_state` writes differs from the packed old flags in
      the target channel's bit only, which is set exactly for `on`. */
  lemma SetChannelByte(flags: seq<char>, channel: nat, on: bool)
    requires Flags(flags) && |flags| == 8 && channel < ChannelCount
    ensures var written := Pack(flags[channel := if on then '1' else '0']);
            written < 256
            && (BitSet(written, channel) <==> on)
            && forall c :: 0 <= c < 8 && c != channel ==> (BitSet(written, c) <==> BitSet(Pack(flags), c))
  {
    var updated := flags[channel := if on then '1' else '0'];
    UnpackPack(updated);
    PackBit(updated, channel);
    forall c | 0 <= c < 8 && c != channel
      ensures BitSet(Pack(updated), c) <==> BitSet(Pack(flags), c)
    {
      PackBit(updated, c);
      PackBit(flags, c);
    }
  }

  /** A channel configured as an input has its bit set in both the direction
      and the pull-up byte written by `setup`; an output has both cleared. */
  lemma ConfiguredBits(t: PortTable, c: nat, name: Value, input: bool)
    requires PortOk(t) && c < ChannelCount
    ensures BitSet(Pack(Configured(t, c, name, input).direction), c) <==> input
    ensures BitSet(Pack(Configured(t, c, name, input).pullup), c) <==> input
  {
    var r := Configured(t, c, name, input);
    PackBit(r.direction, c);
    PackBit(r.pullup, c);
  }
}
