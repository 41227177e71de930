/**
 * The Avantis command builders. Each takes option values and a MIDI offset (the status-byte
 * nibble: base channel plus section index) and returns the list of buffers to send.
 *
 * Control changes address parameters by NRPN: CC 0x63 (parameter MSB, here the channel),
 * CC 0x62 (parameter LSB, here the parameter) and CC 0x06 (data entry, the value).
 * System Exclusive commands start with the Allen & Heath header F0 00 00 1A 50 10 01 00.
 *
 * Every builder is paired with a lemma stating which MIDI messages its buffer parses to.
 */
module Commands {
  import opened Wrappers
  import opened Midi
  import opened Scenes

  const SysExHeader: seq<int> := [0xF0, 0x00, 0x00, 0x1A, 0x50, 0x10, 0x01, 0x00]

  /** Allen & Heath's three-byte manufacturer ID. */
  const AllenHeath: seq<int> := [0x00, 0x00, 0x1A]

  /** The bytes after the manufacturer ID that open every Avantis SysEx payload. */
  const AvantisPrefix: seq<int> := [0x50, 0x10, 0x01, 0x00]

  /** NRPN parameter numbers (the LSB byte). */
  const FaderParam := 0x17
  const MainAssignParam := 0x18
  const GroupAssignParam := 0x40

  /** SysEx command bytes. */
  const NameCmd := 0x03
  const ColorCmd := 0x06
  const SendLevelCmd := 0x0D

  /** Data values of the on/off switches. */
  const On := 0x7F
  const Off := 0x3F

  function Switch(b: bool): int { if b then On else Off }

  /** `BN 63 CH BN 62 P BN 06 V`: the nine bytes shared by fader, main assign and group assign. */
  function NrpnBytes(off: int, ch: int, param: int, value: int): seq<int>
  {
    [0xB0 + off, 0x63, ch, 0xB0 + off, 0x62, param, 0xB0 + off, 0x06, value]
  }

  /** The three control changes of one NRPN write. */
  function Nrpn(off: int, ch: int, param: int, value: int): seq<Message>
  {
    [ControlChange(off, NrpnMsb, ch), ControlChange(off, NrpnLsb, param), ControlChange(off, DataEntry, value)]
  }

  predicate NrpnFields(off: int, ch: int, param: int, value: int)
  {
    IsNibble(off) && IsData(ch) && IsData(param) && IsData(value)
  }

  lemma NrpnWire(off: int, ch: int, param: int, value: int)
    requires NrpnFields(off, ch, param, value)
    ensures Parse(BufferFrom(NrpnBytes(off, ch, param, value))) == Some(Nrpn(off, ch, param, value))
    ensures |BufferFrom(NrpnBytes(off, ch, param, value))| == 9
  {
    var ms := Nrpn(off, ch, param, value);
    assert Stream(ms) == NrpnBytes(off, ch, param, value) by {
      assert Stream(ms[2..]) == Bytes(ms[2]);
    }
    WireOf(ms);
  }

  /** An Avantis SysEx frame with the given command payload. */
  function AvantisSysEx(payload: seq<int>): Message
  {
    SysEx(AllenHeath, AvantisPrefix + payload)
  }

  lemma SysExWire(payload: seq<int>)
    requires AllData(payload)
    ensures SysExHeader + payload + [SysExEnd] == Stream([AvantisSysEx(payload)])
    ensures Parse(BufferFrom(SysExHeader + payload + [SysExEnd])) == Some([AvantisSysEx(payload)])
  {
    var m := AvantisSysEx(payload);
    assert Stream([m]) == Bytes(m) + Stream([]);
    assert Bytes(m) == SysExHeader + payload + [SysExEnd];
    assert AllData(AvantisPrefix + payload);
    WireOf([m]);
  }

  // ---------------------------------------------------------------- mute

  /** `9N CH 7F|3F 9N CH 00`. */
  function MuteCommand(channel: int, mute: bool, off: int): (r: seq<Buffer>)
    ensures |r| == 1 && |r[0]| == 6
  {
    [BufferFrom([0x90 + off, channel, Switch(mute), 0x90 + off, channel, 0x00])]
  }

  /** Mute is a Note On with velocity 7F (mute) or 3F (unmute), then the same note with velocity 0. */
  lemma MuteMessages(channel: int, mute: bool, off: int)
    requires IsNibble(off) && IsData(channel)
    ensures Parse(MuteCommand(channel, mute, off)[0]) == Some([NoteOn(off, channel, Switch(mute)), NoteOn(off, channel, 0)])
  {
    var ms := [NoteOn(off, channel, Switch(mute)), NoteOn(off, channel, 0)];
    assert Stream(ms) == [0x90 + off, channel, Switch(mute), 0x90 + off, channel, 0x00] by {
      assert Stream(ms[1..]) == Bytes(ms[1]);
    }
    WireOf(ms);
  }

  // ---------------------------------------------------------------- fader and main assign

  /** Fader level: NRPN parameter 0x17 set to the level byte. */
  function FaderCommand(channel: int, level: int, off: int): (r: seq<Buffer>)
    ensures |r| == 1 && |r[0]| == 9
  {
    [BufferFrom(NrpnBytes(off, channel, FaderParam, level))]
  }

  lemma FaderMessages(channel: int, level: int, off: int)
    requires IsNibble(off) && IsData(channel) && IsData(level)
    ensures Parse(FaderCommand(channel, level, off)[0]) == Some(Nrpn(off, channel, FaderParam, level))
  {
    NrpnWire(off, channel, FaderParam, level);
  }

  /** Channel to main mix: NRPN parameter 0x18 set to 7F (assign) or 3F (unassign). */
  function ChannelAssignCommand(channel: int, assign: bool, off: int): (r: seq<Buffer>)
    ensures |r| == 1 && |r[0]| == 9
  {
    [BufferFrom(NrpnBytes(off, channel, MainAssignParam, Switch(assign)))]
  }

  lemma ChannelAssignMessages(channel: int, assign: bool, off: int)
    requires IsNibble(off) && IsData(channel)
    ensures Parse(ChannelAssignCommand(channel, assign, off)[0]) == Some(Nrpn(off, channel, MainAssignParam, Switch(assign)))
  {
    NrpnWire(off, channel, MainAssignParam, Switch(assign));
  }

  // ---------------------------------------------------------------- DCA and mute-group assign

  /**
   * The value added to each group code: DCA on 0x40, DCA off 0, mute group on 0x50,
   * mute group off 0x10. Kept as one policy function so that it can be replaced whole.
   * Every offset is a multiple of 16 below 0x60, so a group number 0..15 fills the low nibble.
   */
  function AssignOffset(isDca: bool, assign: bool): (r: int)
    ensures r % 16 == 0 && 0 <= r <= 0x50
  {
    if isDca then (if assign then 0x40 else 0x00)
    else (if assign then 0x50 else 0x10)
  }

  /** The offset of the dropdown ids that name the groups: DCA ids start at 0x36, mute group ids at 0x46. */
  function GroupChoiceOffset(isDca: bool): int
  {
    if isDca then 0x35 else 0x45
  }

  /**
   * How the dropdown's group ids become the group codes the offset is added to: `ChoiceIds`
   * passes the ids through as the driver does, `GroupIndices` turns them into 0-based group
   * numbers (id minus the choice offset minus 1).
   */
  datatype GroupCoding = ChoiceIds | GroupIndices

  function GroupCodes(coding: GroupCoding, isDca: bool, ids: seq<int>): (codes: seq<int>)
    ensures |codes| == |ids|
  {
    match coding
    case ChoiceIds => ids
    case GroupIndices => seq(|ids|, i requires 0 <= i < |ids| => ids[i] - GroupChoiceOffset(isDca) - 1)
  }

  /** The group byte a console reads back: which kind of group, on or off, and the group. */
  datatype GroupAssign = GroupAssign(isDca: bool, assign: bool, group: int)

  function DecodeGroupByte(b: int): Option<GroupAssign>
  {
    var hi := b / 16;
    if 0 <= b && hi == 0x4 then Some(GroupAssign(true, true, b % 16))
    else if 0 <= b && hi == 0x0 then Some(GroupAssign(true, false, b % 16))
    else if 0 <= b && hi == 0x5 then Some(GroupAssign(false, true, b % 16))
    else if 0 <= b && hi == 0x1 then Some(GroupAssign(false, false, b % 16))
    else None
  }

  /** For a group number 0..15 the offset policy is invertible: the byte determines all three fields. */
  lemma AssignOffsetDecodes(isDca: bool, assign: bool, group: int)
    requires 0 <= group < 16
    ensures DecodeGroupByte(group + AssignOffset(isDca, assign)) == Some(GroupAssign(isDca, assign, group))
    ensures IsData(group + AssignOffset(isDca, assign))
  {
  }

  /** One NRPN write of parameter 0x40 per group, in the caller's order. */
  function AssignCommands(channel: int, groups: seq<int>, assign: bool, isDca: bool, off: int): (r: seq<Buffer>)
    ensures |r| == |groups|
    ensures forall i :: 0 <= i < |r| ==> |r[i]| == 9
  {
    seq(|groups|, i requires 0 <= i < |groups| =>
      BufferFrom(NrpnBytes(off, channel, GroupAssignParam, groups[i] + AssignOffset(isDca, assign))))
  }

  /** The driver's loop: push one buffer per selected group. */
  method BuildAssignCommands(channel: int, groups: seq<int>, assign: bool, isDca: bool, off: int)
    returns (routingCmds: seq<Buffer>)
    ensures routingCmds == AssignCommands(channel, groups, assign, isDca, off)
  {
    routingCmds := [];
    var offset := 0;
    if isDca {
      if assign {
        offset := 0x40;
      }
    } else {
      if assign {
        offset := 0x50;
      } else {
        offset := 0x10;
      }
    }
    var i := 0;
    while i < |groups|
      invariant 0 <= i <= |groups|
      invariant |routingCmds| == i
      invariant forall j :: 0 <= j < i ==> routingCmds[j] == AssignCommands(channel, groups, assign, isDca, off)[j]
    {
      var grpCode := groups[i];
      routingCmds := routingCmds + [BufferFrom(NrpnBytes(off, channel, GroupAssignParam, grpCode + offset))];
      i := i + 1;
    }
  }

  /** Buffer i is the NRPN write of parameter 0x40 with value group i plus the policy offset. */
  lemma AssignMessages(channel: int, groups: seq<int>, assign: bool, isDca: bool, off: int, i: int)
    requires IsNibble(off) && IsData(channel)
    requires 0 <= i < |groups| && IsData(groups[i] + AssignOffset(isDca, assign))
    ensures Parse(AssignCommands(channel, groups, assign, isDca, off)[i])
         == Some(Nrpn(off, channel, GroupAssignParam, groups[i] + AssignOffset(isDca, assign)))
  {
    NrpnWire(off, channel, GroupAssignParam, groups[i] + AssignOffset(isDca, assign));
  }

  /** Assigning a concatenation of group lists sends the two lists' buffers one after the other. */
  lemma AssignConcat(channel: int, g1: seq<int>, g2: seq<int>, assign: bool, isDca: bool, off: int)
    ensures AssignCommands(channel, g1 + g2, assign, isDca, off)
         == AssignCommands(channel, g1, assign, isDca, off) + AssignCommands(channel, g2, assign, isDca, off)
  {
    var l := AssignCommands(channel, g1 + g2, assign, isDca, off);
    var r := AssignCommands(channel, g1, assign, isDca, off) + AssignCommands(channel, g2, assign, isDca, off);
    assert |l| == |r|;
    forall i | 0 <= i < |l| ensures l[i] == r[i] {
      if i >= |g1| {
        assert (g1 + g2)[i] == g2[i - |g1|];
      }
    }
  }

  /**
   * A group code whose value byte (code plus offset) is a status byte, 0x80..0xFF, makes the
   * whole assign buffer unreadable: the data entry control change lacks its value.
   */
  lemma AssignStatusValueIsNotMidi(channel: int, code: int, assign: bool, isDca: bool, off: int)
    requires IsNibble(off) && IsData(channel)
    requires 0x80 <= code + AssignOffset(isDca, assign) < 0x100
    ensures Parse(AssignCommands(channel, [code], assign, isDca, off)[0]) == None
  {
    var v := code + AssignOffset(isDca, assign);
    var b := AssignCommands(channel, [code], assign, isDca, off)[0];
    assert b == [0xB0 + off, 0x63, channel, 0xB0 + off, 0x62, 0x40, 0xB0 + off, 0x06, v];
    assert b[6..] == [0xB0 + off, 0x06, v];
    assert b[3..] == [0xB0 + off, 0x62, 0x40] + b[6..];
    assert Parse(b[6..]) == None by {
      var t := b[6..];
      assert t[1..3][1] == v;
      assert !IsData(t[1..3][1]);
    }
    assert Parse(b[3..]) == None by {
      assert b[3..][3..] == b[6..];
    }
  }

  /**
   * The group codes the driver's dropdowns supply are channel ids (DCA 1 is 0x36, mute group 1
   * is 0x46), not group numbers. Every mute-group "on" byte is then 0x96 or more: a status byte
   * in a data position, so the buffer is not a well-formed MIDI stream.
   */
  lemma MuteGroupOnIsNotMidi(channel: int, off: int, group: int)
    requires IsNibble(off) && IsData(channel)
    requires 0x46 <= group < 0x80
    ensures Parse(AssignCommands(channel, [group], true, false, off)[0]) == None
  {
    AssignStatusValueIsNotMidi(channel, group, true, false, off);
  }

  /** The value byte the corrected assign sends for group id `id`: its 0-based index plus the policy offset. */
  function IndexedByte(isDca: bool, assign: bool, id: int): int
  {
    id - GroupChoiceOffset(isDca) - 1 + AssignOffset(isDca, assign)
  }

  /**
   * Assign addressed by group number (0-based: the dropdown id minus the choice offset minus 1),
   * which keeps every group byte a data byte for up to 16 groups.
   */
  function IndexedAssignCommands(channel: int, groupIds: seq<int>, assign: bool, isDca: bool, off: int): (r: seq<Buffer>)
    ensures |r| == |groupIds|
  {
    AssignCommands(channel, GroupCodes(GroupIndices, isDca, groupIds), assign, isDca, off)
  }

  /**
   * With group indices, the buffer for any of the first 16 groups parses as the 0x40 NRPN write,
   * and its value decodes back to the kind of group, the state and the 0-based group number.
   */
  lemma IndexedAssignMessages(channel: int, groupIds: seq<int>, assign: bool, isDca: bool, off: int, i: int)
    requires IsNibble(off) && IsData(channel)
    requires 0 <= i < |groupIds| && GroupChoiceOffset(isDca) + 1 <= groupIds[i] <= GroupChoiceOffset(isDca) + 16
    ensures Parse(IndexedAssignCommands(channel, groupIds, assign, isDca, off)[i])
         == Some(Nrpn(off, channel, GroupAssignParam, IndexedByte(isDca, assign, groupIds[i])))
    ensures DecodeGroupByte(IndexedByte(isDca, assign, groupIds[i]))
         == Some(GroupAssign(isDca, assign, groupIds[i] - GroupChoiceOffset(isDca) - 1))
  {
    var groups := GroupCodes(GroupIndices, isDca, groupIds);
    assert groups[i] == groupIds[i] - GroupChoiceOffset(isDca) - 1;
    AssignOffsetDecodes(isDca, assign, groups[i]);
    AssignMessages(channel, groups, assign, isDca, off, i);
  }

  // ---------------------------------------------------------------- scene recall

  /**
   * `BN 00 Bank CN SS` from the table entry at `index`; an index outside the table reads
   * `undefined` and the driver throws, which the model reports as None.
   */
  function SceneCommand(scenes: seq<Scene>, index: int, off: int): (r: Option<seq<Buffer>>)
    ensures r.Some? <==> 0 <= index < |scenes|
    ensures r.Some? ==> |r.value| == 1 && |r.value[0]| == 5
  {
    if 0 <= index < |scenes| then
      var scene := scenes[index];
      Some([BufferFrom([0xB0 + off, 0x00, scene.block, 0xC0 + off, scene.ss])])
    else None
  }

  /** Recalling dropdown index k of a table of `count` scenes selects bank and program of ordinal k + 1. */
  lemma SceneRecallMessages(count: nat, k: int, off: int)
    requires IsNibble(off) && 0 <= k < count
    ensures SceneCommand(SceneTable(count), k, off).Some?
    ensures Parse(SceneCommand(SceneTable(count), k, off).value[0])
         == Some([ControlChange(off, BankSelect, SceneBank(k + 1)), ProgramChange(off, k % ScenesPerBank)])
  {
    var ms := [ControlChange(off, BankSelect, SceneBank(k + 1)), ProgramChange(off, k % ScenesPerBank)];
    assert Stream(ms) == [0xB0 + off, 0x00, SceneBank(k + 1), 0xC0 + off, k % ScenesPerBank] by {
      assert Stream(ms[1..]) == Bytes(ms[1]);
    }
    WireOf(ms);
  }

  // ---------------------------------------------------------------- channel name

  /** The device codes of a name: one per character that has an entry in the table, in order. */
  function NameCodes(table: map<char, int>, name: string): (codes: seq<int>)
    ensures |codes| <= |name|
  {
    if name == [] then []
    else
      var c := name[|name| - 1];
      NameCodes(table, name[..|name| - 1]) + (if c in table then [table[c]] else [])
  }

  /** Encoding a concatenation encodes the parts in order. */
  lemma {:induction false} NameCodesConcat(table: map<char, int>, a: string, b: string)
    ensures NameCodes(table, a + b) == NameCodes(table, a) + NameCodes(table, b)
    decreases |b|
  {
    if b != [] {
      var b' := b[..|b| - 1];
      assert (a + b)[..|a + b| - 1] == a + b';
      NameCodesConcat(table, a, b');
    } else {
      assert a + b == a;
    }
  }

  /** The positions of a name whose character has an entry in the table. */
  function MappedPositions(table: map<char, int>, name: string): set<int>
  {
    set i | 0 <= i < |name| && name[i] in table
  }

  /**
   * One code per mapped character: the codes are as many as the mapped positions, so a fully
   * mapped name keeps its length and a name without mapped characters encodes to nothing.
   */
  lemma {:induction false} NameCodesLength(table: map<char, int>, name: string)
    ensures |NameCodes(table, name)| == |MappedPositions(table, name)|
    ensures (forall i :: 0 <= i < |name| ==> name[i] in table) ==> |NameCodes(table, name)| == |name|
    ensures (forall i :: 0 <= i < |name| ==> name[i] !in table) ==> NameCodes(table, name) == []
  {
    if name != [] {
      var n := |name| - 1;
      var prefix := name[..n];
      NameCodesLength(table, prefix);
      var before := MappedPositions(table, prefix);
      assert n !in before;
      if name[n] in table {
        assert MappedPositions(table, name) == before + {n};
      } else {
        assert MappedPositions(table, name) == before;
      }
    }
  }

  /** Every code comes from the table. */
  lemma {:induction false} NameCodesFromTable(table: map<char, int>, name: string)
    ensures forall i :: 0 <= i < |NameCodes(table, name)| ==> NameCodes(table, name)[i] in table.Values
  {
    if name != [] {
      NameCodesFromTable(table, name[..|name| - 1]);
    }
  }

  /** `SysEx header, 0N, 03, CH, codes..., F7`. */
  function ChannelNameCommand(table: map<char, int>, channel: int, name: string, off: int): (r: seq<Buffer>)
    ensures |r| == 1 && |r[0]| == 12 + |NameCodes(table, name)|
  {
    [BufferFrom(SysExHeader + [off, NameCmd, channel] + NameCodes(table, name) + [SysExEnd])]
  }

  /** The driver's loop: start from header, offset, 03 and channel, push each mapped code, end with F7. */
  method BuildChannelNameCommand(table: map<char, int>, channel: int, channelName: string, off: int)
    returns (r: seq<Buffer>)
    ensures r == ChannelNameCommand(table, channel, channelName, off)
  {
    var commandArray := SysExHeader + [0x00 + off, NameCmd, channel];
    var i := 0;
    while i < |channelName|
      invariant 0 <= i <= |channelName|
      invariant commandArray == SysExHeader + [off, NameCmd, channel] + NameCodes(table, channelName[..i])
    {
      var c := channelName[i];
      assert channelName[..i + 1][..i] == channelName[..i];
      if c in table {
        commandArray := commandArray + [table[c]];
      }
      i := i + 1;
    }
    assert channelName[..i] == channelName;
    commandArray := commandArray + [SysExEnd];
    r := [BufferFrom(commandArray)];
  }

  lemma ChannelNameMessages(table: map<char, int>, channel: int, name: string, off: int)
    requires IsNibble(off) && IsData(channel) && AllData(NameCodes(table, name))
    ensures Parse(ChannelNameCommand(table, channel, name, off)[0])
         == Some([AvantisSysEx([off, NameCmd, channel] + NameCodes(table, name))])
  {
    var payload := [off, NameCmd, channel] + NameCodes(table, name);
    assert SysExHeader + [off, NameCmd, channel] + NameCodes(table, name) + [SysExEnd] == SysExHeader + payload + [SysExEnd];
    SysExWire(payload);
  }

  // ---------------------------------------------------------------- channel colour

  /** `SysEx header, 0N, 06, CH, Col, F7`. */
  function ColorCommand(channel: int, color: int, off: int): (r: seq<Buffer>)
    ensures |r| == 1 && |r[0]| == 13
  {
    [BufferFrom(SysExHeader + [off, ColorCmd, channel, color, SysExEnd])]
  }

  lemma ColorMessages(channel: int, color: int, off: int)
    requires IsNibble(off) && IsData(channel) && IsData(color)
    ensures Parse(ColorCommand(channel, color, off)[0]) == Some([AvantisSysEx([off, ColorCmd, channel, color])])
  {
    assert SysExHeader + [off, ColorCmd, channel, color, SysExEnd] == SysExHeader + [off, ColorCmd, channel, color] + [SysExEnd];
    SysExWire([off, ColorCmd, channel, color]);
  }

  // ---------------------------------------------------------------- send levels

  /** `SysEx header, base+src, 0D, srcCH, base+dest, destCH, LV, F7`. */
  function SendLevelCommand(srcChannel: int, destChannel: int, level: int, base: int, src: int, dest: int): (r: seq<Buffer>)
    ensures |r| == 1 && |r[0]| == 15
  {
    [BufferFrom(SysExHeader + [base + src, SendLevelCmd, srcChannel, base + dest, destChannel, level, SysExEnd])]
  }

  lemma SendLevelMessages(srcChannel: int, destChannel: int, level: int, base: int, src: int, dest: int)
    requires IsNibble(base + src) && IsNibble(base + dest)
    requires IsData(srcChannel) && IsData(destChannel) && IsData(level)
    ensures Parse(SendLevelCommand(srcChannel, destChannel, level, base, src, dest)[0])
         == Some([AvantisSysEx([base + src, SendLevelCmd, srcChannel, base + dest, destChannel, level])])
  {
    var payload := [base + src, SendLevelCmd, srcChannel, base + dest, destChannel, level];
    assert SysExHeader + [base + src, SendLevelCmd, srcChannel, base + dest, destChannel, level, SysExEnd]
        == SysExHeader + payload + [SysExEnd];
    SysExWire(payload);
  }

  /** The dB steps of the numeric send level, loudest first, as the driver lists them. */
  const LevelMap: seq<(string, int)> := [
    ("0", 0x6B), ("-1", 0x69), ("-2", 0x67), ("-3", 0x65), ("-4", 0x63),
    ("-5", 0x61), ("-6", 0x5F), ("-7", 0x5D), ("-8", 0x5B), ("-9", 0x59),
    ("-10", 0x57), ("-11", 0x55), ("-13", 0x51), ("-17", 0x49), ("-20", 0x43),
    ("-24", 0x3B), ("-25", 0x39), ("-30", 0x2F), ("-40", 0x1B), ("-inf", 0x00)
  ]

  function Reverse<T>(s: seq<T>): (r: seq<T>)
    ensures |r| == |s|
    ensures forall i :: 0 <= i < |s| ==> r[i] == s[|s| - 1 - i]
  {
    seq(|s|, i requires 0 <= i < |s| => s[|s| - 1 - i])
  }

  /** The table indexed by the numeric option: quietest first. */
  function ReversedLevelMap(): seq<(string, int)>
  {
    Reverse(LevelMap)
  }

  /** Index 0 is -inf (0x00), index 19 is 0 dB (0x6B), and the codes strictly increase with the index. */
  lemma ReversedLevelMapOrdered()
    ensures |ReversedLevelMap()| == 20
    ensures ReversedLevelMap()[0] == ("-inf", 0x00) && ReversedLevelMap()[19] == ("0", 0x6B)
    ensures forall i, j :: 0 <= i < j < 20 ==> ReversedLevelMap()[i].1 < ReversedLevelMap()[j].1
    ensures forall i :: 0 <= i < 20 ==> IsData(ReversedLevelMap()[i].1)
  {
    var codes := ReversedCodes();
    AdjacentIncreasingIsSorted(codes);
  }

  /** The codes of the reversed table, position by position. */
  lemma ReversedCodes() returns (codes: seq<int>)
    ensures |ReversedLevelMap()| == 20 == |codes|
    ensures ReversedLevelMap()[0] == ("-inf", 0x00) && ReversedLevelMap()[19] == ("0", 0x6B)
    ensures forall i :: 0 <= i < 20 ==> ReversedLevelMap()[i].1 == codes[i] && IsData(codes[i])
    ensures forall i :: 0 <= i < 19 ==> codes[i] < codes[i + 1]
  {
    codes := [0x00, 0x1B, 0x2F, 0x39, 0x3B, 0x43, 0x49, 0x51, 0x55, 0x57,
              0x59, 0x5B, 0x5D, 0x5F, 0x61, 0x63, 0x65, 0x67, 0x69, 0x6B];
  }

  /** A sequence that increases at every step increases between any two positions. */
  lemma {:induction false} AdjacentIncreasingIsSorted(s: seq<int>)
    requires forall i :: 0 <= i < |s| - 1 ==> s[i] < s[i + 1]
    ensures forall i, j :: 0 <= i < j < |s| ==> s[i] < s[j]
  {
    if |s| > 1 {
      AdjacentIncreasingIsSorted(s[1..]);
      forall i, j | 0 <= i < j < |s| ensures s[i] < s[j] {
        assert s[j] == s[1..][j - 1];
        if i > 0 {
          assert s[i] == s[1..][i - 1];
        } else if j > 1 {
          assert s[1] == s[1..][0];
        }
      }
    }
  }

  /**
   * The numeric send level: the level byte is the reversed table's code at `levelInt`. Outside
   * 0..19 the driver reads `undefined` and throws, reported here as None.
   */
  function SendLevelNumberCommand(srcChannel: int, destChannel: int, levelInt: int, base: int, src: int, dest: int)
    : (r: Option<seq<Buffer>>)
    ensures r.Some? <==> 0 <= levelInt < 20
  {
    if 0 <= levelInt < |ReversedLevelMap()| then
      Some(SendLevelCommand(srcChannel, destChannel, ReversedLevelMap()[levelInt].1, base, src, dest))
    else None
  }

  /** Every level the option allows (0..19) yields one 15-byte SysEx carrying that step's code. */
  lemma SendLevelNumberMessages(srcChannel: int, destChannel: int, levelInt: int, base: int, src: int, dest: int)
    requires IsNibble(base + src) && IsNibble(base + dest)
    requires IsData(srcChannel) && IsData(destChannel)
    requires 0 <= levelInt <= 19
    ensures SendLevelNumberCommand(srcChannel, destChannel, levelInt, base, src, dest).Some?
    ensures Parse(SendLevelNumberCommand(srcChannel, destChannel, levelInt, base, src, dest).value[0])
         == Some([AvantisSysEx([base + src, SendLevelCmd, srcChannel, base + dest, destChannel, ReversedLevelMap()[levelInt].1])])
  {
    ReversedLevelMapOrdered();
    SendLevelMessages(srcChannel, destChannel, ReversedLevelMap()[levelInt].1, base, src, dest);
  }
}
