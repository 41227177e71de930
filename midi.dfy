/**
 * The wire format the driver writes: octets, Node's `Buffer.from`, and the framing of the
 * MIDI 1.0 Detailed Specification (channel voice messages and System Exclusive).
 *
 * `Stream` writes messages as bytes and `Parse` reads bytes back as messages; `ParseStream`
 * proves they are inverse. Every command builder of the driver is checked against `Parse`.
 */
module Midi {
  import opened Wrappers

  /** One octet on the wire. */
  type Byte = b: int | 0 <= b < 256

  /** One buffer handed to the socket. */
  type Buffer = seq<Byte>

  /** `Buffer.from([..., x, ...])` stores every number modulo 256. */
  function Octet(x: int): (b: Byte)
    ensures 0 <= x < 256 ==> b == x
    ensures (x - b) % 256 == 0
  {
    x % 256
  }

  function BufferFrom(a: seq<int>): (r: Buffer)
    ensures |r| == |a|
    ensures forall i :: 0 <= i < |a| ==> r[i] == Octet(a[i])
  {
    seq(|a|, i requires 0 <= i < |a| => Octet(a[i]))
  }

  lemma BufferFromOctets(a: seq<int>)
    requires forall i :: 0 <= i < |a| ==> 0 <= a[i] < 256
    ensures BufferFrom(a) == a
  {
  }

  /** A data byte has its top bit clear (0x00..0x7F). */
  predicate IsData(b: int) { 0 <= b < 0x80 }

  predicate AllData(s: seq<int>) { forall i :: 0 <= i < |s| ==> IsData(s[i]) }

  /** A MIDI channel, the low nibble of a status byte. */
  predicate IsNibble(n: int) { 0 <= n < 16 }

  /** MIDI 1.0 messages: the seven channel voice messages and System Exclusive. */
  datatype Message =
    | NoteOff(channel: int, key: int, velocity: int)
    | NoteOn(channel: int, key: int, velocity: int)
    | PolyPressure(channel: int, key: int, pressure: int)
    | ControlChange(channel: int, controller: int, value: int)
    | ProgramChange(channel: int, program: int)
    | ChannelPressure(channel: int, pressure: int)
    | PitchBend(channel: int, lsb: int, msb: int)
    | SysEx(manufacturer: seq<int>, data: seq<int>)

  /** Control Change numbers the driver uses. */
  const BankSelect := 0x00
  const DataEntry := 0x06
  const NrpnLsb := 0x62
  const NrpnMsb := 0x63

  const SysExStart := 0xF0
  const SysExEnd := 0xF7

  /** A manufacturer ID is one byte 0x01..0x7F, or 0x00 followed by two data bytes. */
  predicate IsManufacturer(id: seq<int>)
  {
    || (|id| == 1 && 1 <= id[0] < 0x80)
    || (|id| == 3 && id[0] == 0 && IsData(id[1]) && IsData(id[2]))
  }

  predicate WellFormed(m: Message)
  {
    match m
    case SysEx(id, data) => IsManufacturer(id) && AllData(data)
    case ProgramChange(ch, p) => IsNibble(ch) && IsData(p)
    case ChannelPressure(ch, p) => IsNibble(ch) && IsData(p)
    case NoteOff(ch, a, b) => IsNibble(ch) && IsData(a) && IsData(b)
    case NoteOn(ch, a, b) => IsNibble(ch) && IsData(a) && IsData(b)
    case PolyPressure(ch, a, b) => IsNibble(ch) && IsData(a) && IsData(b)
    case ControlChange(ch, a, b) => IsNibble(ch) && IsData(a) && IsData(b)
    case PitchBend(ch, a, b) => IsNibble(ch) && IsData(a) && IsData(b)
  }

  /** The bytes of one message (no running status). */
  function Bytes(m: Message): seq<int>
  {
    match m
    case NoteOff(ch, a, b) => [0x80 + ch, a, b]
    case NoteOn(ch, a, b) => [0x90 + ch, a, b]
    case PolyPressure(ch, a, b) => [0xA0 + ch, a, b]
    case ControlChange(ch, a, b) => [0xB0 + ch, a, b]
    case ProgramChange(ch, p) => [0xC0 + ch, p]
    case ChannelPressure(ch, p) => [0xD0 + ch, p]
    case PitchBend(ch, a, b) => [0xE0 + ch, a, b]
    case SysEx(id, data) => [SysExStart] + id + data + [SysExEnd]
  }

  function Stream(ms: seq<Message>): seq<int>
  {
    if ms == [] then [] else Bytes(ms[0]) + Stream(ms[1..])
  }

  /** How many data bytes follow a channel status byte. */
  function DataCount(status: int): nat
  {
    var kind := status / 16;
    if kind == 0xC || kind == 0xD then 1 else 2
  }

  function VoiceMessage(status: int, d: seq<int>): Message
    requires 0x80 <= status < 0xF0 && |d| == DataCount(status)
  {
    var ch := status % 16;
    var kind := status / 16;
    if kind == 0x8 then NoteOff(ch, d[0], d[1])
    else if kind == 0x9 then NoteOn(ch, d[0], d[1])
    else if kind == 0xA then PolyPressure(ch, d[0], d[1])
    else if kind == 0xB then ControlChange(ch, d[0], d[1])
    else if kind == 0xC then ProgramChange(ch, d[0])
    else if kind == 0xD then ChannelPressure(ch, d[0])
    else PitchBend(ch, d[0], d[1])
  }

  /** The number of data bytes at the front of `s`. */
  function DataRun(s: seq<int>): (n: nat)
    ensures n <= |s|
  {
    if s == [] || !IsData(s[0]) then 0 else 1 + DataRun(s[1..])
  }

  function SplitManufacturer(body: seq<int>): Option<(seq<int>, seq<int>)>
  {
    if |body| >= 3 && body[0] == 0 then Some((body[..3], body[3..]))
    else if |body| >= 1 && body[0] != 0 then Some((body[..1], body[1..]))
    else None
  }

  function Prepend(m: Message, rest: Option<seq<Message>>): Option<seq<Message>>
  {
    match rest
    case None => None
    case Some(ms) => Some([m] + ms)
  }

  /** Reads a byte stream as MIDI messages; None when it is not well framed. */
  function Parse(s: seq<int>): Option<seq<Message>>
    decreases |s|
  {
    if s == [] then Some([])
    else if 0x80 <= s[0] < 0xF0 then
      var n := DataCount(s[0]);
      if |s| < 1 + n || !AllData(s[1..1 + n]) then None
      else Prepend(VoiceMessage(s[0], s[1..1 + n]), Parse(s[1 + n..]))
    else if s[0] == SysExStart then
      var n := DataRun(s[1..]);
      if 1 + n < |s| && s[1 + n] == SysExEnd then
        match SplitManufacturer(s[1..1 + n])
        case None => None
        case Some(parts) => Prepend(SysEx(parts.0, parts.1), Parse(s[2 + n..]))
      else None
    else None
  }

  lemma {:induction false} DataRunStops(body: seq<int>, tail: seq<int>)
    requires AllData(body)
    requires tail != [] && !IsData(tail[0])
    ensures DataRun(body + tail) == |body|
  {
    if body != [] {
      assert (body + tail)[1..] == body[1..] + tail;
      DataRunStops(body[1..], tail);
    } else {
      assert body + tail == tail;
    }
  }

  lemma ParseVoice(m: Message, rest: seq<int>)
    requires WellFormed(m) && !m.SysEx?
    ensures Parse(Bytes(m) + rest) == Prepend(m, Parse(rest))
  {
    var b := Bytes(m);
    var s := b + rest;
    var n := |b| - 1;
    assert s[0] == b[0] && 0x80 <= b[0] < 0xF0;
    assert DataCount(b[0]) == n;
    assert s[1..1 + n] == b[1..];
    assert s[1 + n..] == rest;
    assert VoiceMessage(b[0], b[1..]) == m;
  }

  lemma ParseSysEx(m: Message, rest: seq<int>)
    requires WellFormed(m) && m.SysEx?
    ensures Parse(Bytes(m) + rest) == Prepend(m, Parse(rest))
  {
    var body := m.manufacturer + m.data;
    assert Bytes(m) + rest == [SysExStart] + body + [SysExEnd] + rest;
    ParseFramed(body, rest);
    SplitManufacturerOf(m.manufacturer, m.data);
  }

  /** A data-byte body between F0 and F7 is read as one SysEx, then parsing carries on after F7. */
  lemma ParseFramed(body: seq<int>, rest: seq<int>)
    requires AllData(body)
    ensures Parse([SysExStart] + body + [SysExEnd] + rest)
         == match SplitManufacturer(body)
            case None => None
            case Some(parts) => Prepend(SysEx(parts.0, parts.1), Parse(rest))
  {
    var s := [SysExStart] + body + [SysExEnd] + rest;
    assert s[1..] == body + ([SysExEnd] + rest);
    DataRunStops(body, [SysExEnd] + rest);
    var n := |body|;
    assert s[1 + n] == SysExEnd;
    assert s[1..1 + n] == body;
    assert s[2 + n..] == rest;
  }

  /** A SysEx body splits back into the manufacturer id and the data it was made from. */
  lemma SplitManufacturerOf(manufacturer: seq<int>, data: seq<int>)
    requires IsManufacturer(manufacturer)
    ensures SplitManufacturer(manufacturer + data) == Some((manufacturer, data))
  {
    var body := manufacturer + data;
    var k := |manufacturer|;
    assert body[..k] == manufacturer && body[k..] == data;
  }

  /** One well-formed message at the front is read, then parsing carries on with the rest. */
  lemma ParseOne(m: Message, rest: seq<int>)
    requires WellFormed(m)
    ensures Parse(Bytes(m) + rest) == Prepend(m, Parse(rest))
  {
    if m.SysEx? {
      ParseSysEx(m, rest);
    } else {
      ParseVoice(m, rest);
    }
  }

  /** Parsing undoes writing: every sequence of well-formed messages reads back exactly. */
  lemma {:induction false} ParseStream(ms: seq<Message>)
    requires forall i :: 0 <= i < |ms| ==> WellFormed(ms[i])
    ensures Parse(Stream(ms)) == Some(ms)
  {
    if ms != [] {
      ParseStream(ms[1..]);
      ParseOne(ms[0], Stream(ms[1..]));
      assert [ms[0]] + ms[1..] == ms;
    } else {
      assert Stream(ms) == [];
    }
  }

  /** A voice message read from a status byte and its data bytes writes back as those bytes. */
  lemma VoiceBytes(status: int, d: seq<int>)
    requires 0x80 <= status < 0xF0 && |d| == DataCount(status)
    ensures Bytes(VoiceMessage(status, d)) == [status] + d
  {
  }

  lemma StreamCons(m: Message, ms: seq<Message>)
    ensures Stream([m] + ms) == Bytes(m) + Stream(ms)
  {
    assert ([m] + ms)[1..] == ms;
  }

  /** A stream that parses starts with the bytes of its first message, then parses on. */
  lemma VoiceFront(s: seq<int>) returns (m: Message, k: nat)
    requires s != [] && 0x80 <= s[0] < 0xF0 && Parse(s).Some?
    ensures 0 < k <= |s| && s[..k] == Bytes(m)
    ensures Parse(s[k..]).Some? && Parse(s).value == [m] + Parse(s[k..]).value
  {
    k := 1 + DataCount(s[0]);
    m := VoiceMessage(s[0], s[1..k]);
    VoiceBytes(s[0], s[1..k]);
    assert s[..k] == [s[0]] + s[1..k];
  }

  lemma SysExFront(s: seq<int>) returns (m: Message, k: nat)
    requires s != [] && !(0x80 <= s[0] < 0xF0) && Parse(s).Some?
    ensures 0 < k <= |s| && s[..k] == Bytes(m)
    ensures Parse(s[k..]).Some? && Parse(s).value == [m] + Parse(s[k..]).value
  {
    var n := DataRun(s[1..]);
    var parts := SplitManufacturer(s[1..1 + n]).value;
    assert parts.0 + parts.1 == s[1..1 + n];
    k := 2 + n;
    m := SysEx(parts.0, parts.1);
    assert s[..k] == [SysExStart] + s[1..1 + n] + [SysExEnd];
  }

  /**
   * Parsing loses nothing: whenever a byte stream parses, writing the messages back gives the
   * same bytes. So a buffer is fixed byte for byte by the messages it parses to.
   */
  lemma {:induction false} ParseIsStream(s: seq<int>)
    ensures Parse(s).Some? ==> s == Stream(Parse(s).value)
    decreases |s|
  {
    if s != [] && Parse(s).Some? {
      var m, k;
      if 0x80 <= s[0] < 0xF0 {
        m, k := VoiceFront(s);
      } else {
        m, k := SysExFront(s);
      }
      ParseIsStream(s[k..]);
      StreamCons(m, Parse(s[k..]).value);
      assert s == s[..k] + s[k..];
    }
  }

  /** Every byte of a well-formed stream is an octet, so `Buffer.from` keeps it unchanged. */
  lemma {:induction false} StreamOctets(ms: seq<Message>)
    requires forall i :: 0 <= i < |ms| ==> WellFormed(ms[i])
    ensures forall i :: 0 <= i < |Stream(ms)| ==> 0 <= Stream(ms)[i] < 256
  {
    if ms != [] {
      StreamOctets(ms[1..]);
      var b := Bytes(ms[0]);
      assert forall i :: 0 <= i < |b| ==> 0 <= b[i] < 256;
    }
  }

  /** The buffer `Buffer.from` makes of a well-formed stream parses back to its messages. */
  lemma WireOf(ms: seq<Message>)
    requires forall i :: 0 <= i < |ms| ==> WellFormed(ms[i])
    ensures BufferFrom(Stream(ms)) == Stream(ms)
    ensures Parse(BufferFrom(Stream(ms))) == Some(ms)
  {
    StreamOctets(ms);
    BufferFromOctets(Stream(ms));
    ParseStream(ms);
  }
}
