/** The NTP time query of brick/ntp.py and src/brick/ntp.py: the 48-byte
    client request, and the decoding of the reply's Transmit Timestamp
    seconds (the header layout of section 7.3 of RFC 5905) into seconds
    since 2000-01-01, shifted by the time zone. The UDP exchange itself is
    I/O: the reply is a parameter. */
module Ntp {
  import opened Wrappers

  type Byte = b: int | 0 <= b < 256

  const PacketLength := 48
  /** The seconds between 1900-01-01 and 2000-01-01. */
  const DefaultDelta := 3155673600
  const SecondsPerHour := 3600
  const TwoTo32 := 0x1_0000_0000

  /** 36524 days: one hundred years of 365 days and the 24 leap days between
      1900 (not a leap year) and 2000. */
  lemma DefaultDeltaIsACentury()
    ensures DefaultDelta == (100 * 365 + 24) * 86400
  {
  }

  // ------------------------------------------------------------ the request

  /** The first header byte of section 7.3 of RFC 5905: leap indicator (2
      bits), version (3 bits), mode (3 bits). */
  function HeaderByte(leap: nat, version: nat, mode: nat): (b: Byte)
    requires leap < 4 && version < 8 && mode < 8
  {
    leap * 64 + version * 8 + mode
  }

  function Leap(b: Byte): nat { b / 64 }
  function Version(b: Byte): nat { b / 8 % 8 }
  function Mode(b: Byte): nat { b % 8 }

  /** The three fields come back out of the byte built from them. */
  lemma HeaderFields(leap: nat, version: nat, mode: nat)
    requires leap < 4 && version < 8 && mode < 8
    ensures var b := HeaderByte(leap, version, mode);
            Leap(b) == leap && Version(b) == version && Mode(b) == mode
  {
    var b := leap * 64 + version * 8 + mode;
    assert b == (leap * 8 + version) * 8 + mode;
    assert b / 8 == leap * 8 + version;
    assert b / 64 == (b / 8) / 8;
  }

  /** `NTP_QUERY`: 48 zero bytes, then byte 0 set to 0x1B. */
  function Query(): (q: seq<Byte>)
    ensures |q| == PacketLength
    ensures q[0] == HeaderByte(0, 3, 3)
    ensures forall k :: 1 <= k < |q| ==> q[k] == 0
  {
    seq(PacketLength, k requires 0 <= k < PacketLength => if k == 0 then 0x1B else 0)
  }

  /** The request is a client (mode 3) packet of version 3 with no leap warning. */
  lemma QueryIsVersion3Client()
    ensures Leap(Query()[0]) == 0 && Version(Query()[0]) == 3 && Mode(Query()[0]) == 3
  {
    HeaderFields(0, 3, 3);
  }

  // ------------------------------------------------------------ the reply

  /** `struct.unpack("!I", b)[0]`: an unsigned big-endian 32-bit integer. */
  function BigEndian32(b: seq<Byte>): (v: nat)
    requires |b| == 4
    ensures v < TwoTo32
  {
    ((b[0] as int * 256 + b[1]) * 256 + b[2]) * 256 + b[3]
  }

  /** The four bytes of a 32-bit number, most significant first. */
  function Encode32(v: nat): (b: seq<Byte>)
    requires v < TwoTo32
    ensures |b| == 4
  {
    [v / 0x100_0000, v / 0x1_0000 % 256, v / 256 % 256, v % 256]
  }

  lemma DecodeEncode(v: nat)
    requires v < TwoTo32
    ensures BigEndian32(Encode32(v)) == v
  {
    var b := Encode32(v);
    assert v / 256 / 256 == v / 0x1_0000;
    assert v / 0x1_0000 / 256 == v / 0x100_0000;
    assert b[0] as int * 256 + b[1] == v / 0x1_0000;
    assert (v / 0x1_0000) * 256 + b[2] == v / 256;
  }

  lemma EncodeDecode(b: seq<Byte>)
    requires |b| == 4
    ensures Encode32(BigEndian32(b)) == b
  {
    var hi: int := b[0] as int * 256 + b[1];
    var mid: int := hi * 256 + b[2];
    var v: int := mid * 256 + b[3];
    assert v / 256 == mid && v % 256 == b[3];
    assert mid / 256 == hi && mid % 256 == b[2];
    assert hi / 256 == b[0] && hi % 256 == b[1];
    assert v / 0x1_0000 == mid / 256;
    assert v / 0x100_0000 == hi / 256;
  }

  /** `msg[40:44]` unpacked: the seconds of the Transmit Timestamp, or `None`
      when the reply is too short and the unpack raises. */
  function TransmitSeconds(msg: seq<Byte>): (s: Option<nat>)
    ensures s.Some? <==> |msg| >= 44
    ensures s.Some? ==> s.value < TwoTo32 && Encode32(s.value) == msg[40..44]
  {
    if |msg| >= 44 then
      EncodeDecode(msg[40..44]);
      Some(BigEndian32(msg[40..44]))
    else None
  }

  /** `NtpSync.timezone_callback`. */
  function TimezoneCallback(timezone: int): int -> int {
    t => t + timezone * SecondsPerHour
  }

  /** `NtpClient.get_time` of brick/ntp.py: the seconds minus the delta,
      then the time-zone callback when one is set. */
  function DesktopTime(msg: seq<Byte>, delta: int, callback: Option<int -> int>): (t: Option<int>)
    ensures t.Some? <==> |msg| >= 44
    ensures t.Some? && callback.None? ==> t.value == TransmitSeconds(msg).value - delta
    ensures t.Some? && callback.Some? ==> t.value == callback.value(TransmitSeconds(msg).value - delta)
  {
    match TransmitSeconds(msg)
    case None => None
    case Some(s) =>
      var v := s - delta;
      if callback.Some? then Some(callback.value(v)) else Some(v)
  }

  /** `NtpClient.get_time` of src/brick/ntp.py: the seconds plus the time
      zone in hours, minus the delta. */
  function MicroTime(msg: seq<Byte>, timezone: int, delta: int): (t: Option<int>)
    ensures t.Some? <==> |msg| >= 44
    ensures t.Some? ==> 0 <= t.value - timezone * SecondsPerHour + delta < TwoTo32
  {
    match TransmitSeconds(msg)
    case None => None
    case Some(s) => Some(s + timezone * SecondsPerHour - delta)
  }

  /** Both ports give the same time: the desktop client with `NtpSync`'s
      callback, and the MicroPython client with the same time zone. */
  lemma PortsAgree(msg: seq<Byte>, timezone: int, delta: int)
    ensures DesktopTime(msg, delta, Some(TimezoneCallback(timezone))) == MicroTime(msg, timezone, delta)
  {
  }

  /** With the default time zone 0 the MicroPython client is the desktop
      client without a callback. */
  lemma NoTimezone(msg: seq<Byte>, delta: int)
    ensures MicroTime(msg, 0, delta) == DesktopTime(msg, delta, None)
  {
  }

  /** Only bytes 40 to 43 of the reply matter. */
  lemma OnlyTransmitSecondsMatter(a: seq<Byte>, b: seq<Byte>, timezone: int, delta: int, callback: Option<int -> int>)
    requires |a| >= 44 && |b| >= 44 && a[40..44] == b[40..44]
    ensures MicroTime(a, timezone, delta) == MicroTime(b, timezone, delta)
    ensures DesktopTime(a, delta, callback) == DesktopTime(b, delta, callback)
  {
  }

  /** A server that puts `seconds` in the Transmit Timestamp is read back as
      that time, less the delta and shifted by the time zone. */
  lemma ReadsTransmitTimestamp(msg: seq<Byte>, seconds: nat, timezone: int)
    requires seconds < TwoTo32 && |msg| >= 44 && msg[40..44] == Encode32(seconds)
    ensures MicroTime(msg, timezone, DefaultDelta) == Some(seconds + timezone * SecondsPerHour - DefaultDelta)
  {
    DecodeEncode(seconds);
  }
}
