/**
 * The action dispatcher: an action id selects a section index (0..4, added to the MIDI base
 * channel) and a builder. Two revisions are modelled: `Current` (the TypeScript driver and its
 * compiled JavaScript, which are the same encoder) and `Legacy` (the first JavaScript driver).
 */
module Encoder {
  import opened Wrappers
  import opened Midi
  import opened Scenes
  import opened Commands

  datatype Revision = Current | Legacy

  /** The option values of one action invocation, already converted to numbers and booleans. */
  datatype Options = Options(
    channel: int, mute: bool, level: int, assign: bool,
    dcaGroup: seq<int>, muteGroup: seq<int>, sceneNumber: int,
    channelName: string, color: int,
    srcChannel: int, destChannel: int, levelInt: int)

  /** The character tables of the capability data: `name` (current) and `nameChar` (legacy). */
  datatype Tables = Tables(name: map<char, int>, nameChar: map<char, int>)

  datatype Builder =
    | Mute | Fader | Assign(isDca: bool) | SceneRecall | MainAssign | Name | Color
    | SendLevel(dest: int) | SendLevelNumber(dest: int)

  /** A dispatch target: the section index added to the base channel, and the builder. */
  datatype Route = Route(section: int, builder: Builder)

  /** The JavaScript TypeError a driver raises when a lookup reads `undefined`. */
  datatype Failure = SceneUndefined(index: int) | LevelUndefined(index: int)

  /** The current driver's configuration counts channels from 1; the legacy driver uses the value as is. */
  function MidiBase(rev: Revision, configured: int): int
  {
    if rev == Current then configured - 1 else configured
  }

  function NameTable(rev: Revision, tables: Tables): map<char, int>
  {
    if rev == Current then tables.name else tables.nameChar
  }

  /** The switch of `action`. */
  function Dispatch(rev: Revision, id: string): (r: Option<Route>)
    ensures r.Some? ==> 0 <= r.value.section <= 4
    ensures r.Some? && (r.value.builder.SendLevel? || r.value.builder.SendLevelNumber?) ==>
              r.value.section == 0 && 2 <= r.value.builder.dest <= 4
    ensures r.Some? && r.value.builder in {SceneRecall, MainAssign, Name, Color} ==> r.value.section == 0
    ensures r.Some? && r.value.builder.Assign? ==> r.value.section == 4
  {
    match id
    case "mute_input" => Some(Route(0, Mute))
    case "fader_input" => Some(Route(0, Fader))
    case "mute_mono_group" => Some(Route(1, Mute))
    case "mute_stereo_group" => Some(Route(1, Mute))
    case "fader_mono_group" => Some(Route(1, Fader))
    case "fader_stereo_group" => Some(Route(1, Fader))
    case "mute_mono_aux" => Some(Route(2, Mute))
    case "mute_stereo_aux" => Some(Route(2, Mute))
    case "fader_mono_aux" => Some(Route(2, Fader))
    case "fader_stereo_aux" => Some(Route(2, Fader))
    case "mute_mono_matrix" => Some(Route(3, Mute))
    case "mute_stereo_matrix" => Some(Route(3, Mute))
    case "fader_mono_matrix" => Some(Route(3, Fader))
    case "fader_stereo_matrix" => Some(Route(3, Fader))
    case "mute_mono_fx_send" => Some(Route(4, Mute))
    case "mute_stereo_fx_send" => Some(Route(4, Mute))
    case "mute_fx_return" => Some(Route(4, Mute))
    case "mute_dca" => Some(Route(4, Mute))
    case "mute_master" => Some(Route(4, Mute))
    case "mute_group" => Some(Route(4, Mute))
    case "fader_DCA" => Some(Route(4, Fader))
    case "fader_mono_fx_send" => Some(Route(4, Fader))
    case "fader_stereo_fx_send" => Some(Route(4, Fader))
    case "fader_fx_return" => Some(Route(4, Fader))
    case "fader_master" => Some(Route(4, Fader))
    case "dca_assign" => Some(Route(4, Assign(true)))
    case "mute_group_assign" => Some(Route(4, Assign(false)))
    case "scene_recall" => Some(Route(0, SceneRecall))
    case "channel_main_assign" => Some(Route(0, MainAssign))
    case "channel_name" => Some(Route(0, Name))
    case "channel_color" => Some(Route(0, Color))
    case "send_input_to_mono_aux" => Some(Route(0, SendLevel(2)))
    case "send_input_to_mono_aux_number" => if rev == Current then Some(Route(0, SendLevelNumber(2))) else None
    case "send_input_to_stereo_aux" => Some(Route(0, SendLevel(2)))
    case "send_input_to_mono_matrix" => Some(Route(0, SendLevel(3)))
    case "send_input_to_stereo_matrix" => Some(Route(0, SendLevel(3)))
    case "send_input_to_fx_return" => Some(Route(0, SendLevel(4)))
    case "send_input_to_mono_fx_return" => Some(Route(0, SendLevel(4)))
    case "send_input_to_stereo_fx_return" => Some(Route(0, SendLevel(4)))
    case "send_input_to" => if rev == Current then Some(Route(0, SendLevel(4))) else None
    case _ => None
  }

  /** The legacy driver has no case for the two newer send actions; otherwise the revisions agree. */
  lemma RevisionsDispatchAlike(id: string)
    ensures id == "send_input_to" || id == "send_input_to_mono_aux_number" ==>
              Dispatch(Legacy, id) == None && Dispatch(Current, id).Some?
    ensures id != "send_input_to" && id != "send_input_to_mono_aux_number" ==>
              Dispatch(Legacy, id) == Dispatch(Current, id)
  {
  }

  predicate SceneMissing(scenes: seq<Scene>, opt: Options) { !(0 <= opt.sceneNumber < |scenes|) }

  predicate LevelMissing(opt: Options) { !(0 <= opt.levelInt < 20) }

  /** What a route's builder fails on: a scene index or numeric level outside its table. */
  predicate Throws(scenes: seq<Scene>, route: Route, opt: Options)
  {
    (route.builder == SceneRecall && SceneMissing(scenes, opt)) ||
    (route.builder.SendLevelNumber? && LevelMissing(opt))
  }

  /** The group list an assign route reads: the DCA or the mute-group selection. */
  function SelectedGroups(isDca: bool, opt: Options): seq<int>
  {
    if isDca then opt.dcaGroup else opt.muteGroup
  }

  /**
   * The builder call of one switch case; `base` is the MIDI base channel and `coding` says
   * how the assign routes turn the selected group ids into group codes.
   */
  function Build(coding: GroupCoding, tables: map<char, int>, scenes: seq<Scene>, base: int, route: Route, opt: Options)
    : (r: Result<seq<Buffer>, Failure>)
    ensures r.Failure? <==> Throws(scenes, route, opt)
  {
    var k := route.section;
    var off := base + k;
    match route.builder
    case Mute => Success(MuteCommand(opt.channel, opt.mute, off))
    case Fader => Success(FaderCommand(opt.channel, opt.level, off))
    case Assign(isDca) =>
      Success(AssignCommands(opt.channel, GroupCodes(coding, isDca, SelectedGroups(isDca, opt)), opt.assign, isDca, off))
    case SceneRecall =>
      (match SceneCommand(scenes, opt.sceneNumber, off)
       case None => Failure(SceneUndefined(opt.sceneNumber))
       case Some(bs) => Success(bs))
    case MainAssign => Success(ChannelAssignCommand(opt.channel, opt.assign, off))
    case Name => Success(ChannelNameCommand(tables, opt.channel, opt.channelName, off))
    case Color => Success(ColorCommand(opt.channel, opt.color, off))
    case SendLevel(dest) => Success(SendLevelCommand(opt.srcChannel, opt.destChannel, opt.level, base, k, dest))
    case SendLevelNumber(dest) =>
      (match SendLevelNumberCommand(opt.srcChannel, opt.destChannel, opt.levelInt, base, k, dest)
       case None => Failure(LevelUndefined(opt.levelInt))
       case Some(bs) => Success(bs))
  }

  /** The buffers an action sends, or the error the driver throws before sending anything. */
  function Encode(coding: GroupCoding, rev: Revision, configured: int, tables: Tables, scenes: seq<Scene>, id: string, opt: Options)
    : (r: Result<seq<Buffer>, Failure>)
    ensures Dispatch(rev, id).None? ==> r == Success([])
    ensures r.Failure? <==> Dispatch(rev, id).Some? && Throws(scenes, Dispatch(rev, id).value, opt)
  {
    match Dispatch(rev, id)
    case None => Success([])
    case Some(route) => Build(coding, NameTable(rev, tables), scenes, MidiBase(rev, configured), route, opt)
  }

  // ---------------------------------------------------------------- what an action means on the wire

  /**
   * The MIDI messages each buffer of an action should carry, written from the protocol rather
   * than from the byte templates.
   */
  function Meaning(coding: GroupCoding, tables: map<char, int>, scenes: seq<Scene>, base: int, route: Route, opt: Options)
    : seq<seq<Message>>
    requires !Throws(scenes, route, opt)
  {
    var off := base + route.section;
    match route.builder
    case Mute => [[NoteOn(off, opt.channel, Switch(opt.mute)), NoteOn(off, opt.channel, 0)]]
    case Fader => [Nrpn(off, opt.channel, FaderParam, opt.level)]
    case Assign(isDca) => AssignMeaning(off, opt.channel, GroupCodes(coding, isDca, SelectedGroups(isDca, opt)), opt.assign, isDca)
    case SceneRecall =>
      var scene := scenes[opt.sceneNumber];
      [[ControlChange(off, BankSelect, scene.block), ProgramChange(off, scene.ss)]]
    case MainAssign => [Nrpn(off, opt.channel, MainAssignParam, Switch(opt.assign))]
    case Name => [[AvantisSysEx([off, NameCmd, opt.channel] + NameCodes(tables, opt.channelName))]]
    case Color => [[AvantisSysEx([off, ColorCmd, opt.channel, opt.color])]]
    case SendLevel(dest) =>
      [[AvantisSysEx([base + route.section, SendLevelCmd, opt.srcChannel, base + dest, opt.destChannel, opt.level])]]
    case SendLevelNumber(dest) =>
      [[AvantisSysEx([base + route.section, SendLevelCmd, opt.srcChannel, base + dest, opt.destChannel,
                      ReversedLevelMap()[opt.levelInt].1])]]
  }

  /** One NRPN write of parameter 0x40 per group code, carrying the code plus the policy offset. */
  function AssignMeaning(off: int, channel: int, codes: seq<int>, assign: bool, isDca: bool): seq<seq<Message>>
  {
    seq(|codes|, i requires 0 <= i < |codes| => Nrpn(off, channel, GroupAssignParam, codes[i] + AssignOffset(isDca, assign)))
  }

  /** Every group code plus the policy offset is a data byte. */
  predicate AssignValuesData(codes: seq<int>, assign: bool, isDca: bool)
  {
    forall i :: 0 <= i < |codes| ==> IsData(codes[i] + AssignOffset(isDca, assign))
  }

  /** Every id names one of the first 16 groups of a dropdown whose ids start after `ofs`. */
  predicate FirstSixteen(ids: seq<int>, ofs: int)
  {
    forall i :: 0 <= i < |ids| ==> ofs + 1 <= ids[i] <= ofs + 16
  }

  /** The option fields a route puts into data bytes are data bytes (0..0x7F). */
  predicate DataFields(coding: GroupCoding, tables: map<char, int>, scenes: seq<Scene>, route: Route, opt: Options)
  {
    match route.builder
    case Mute => IsData(opt.channel)
    case Fader => IsData(opt.channel) && IsData(opt.level)
    case Assign(isDca) =>
      IsData(opt.channel) && AssignValuesData(GroupCodes(coding, isDca, SelectedGroups(isDca, opt)), opt.assign, isDca)
    case SceneRecall => forall i :: 0 <= i < |scenes| ==> IsData(scenes[i].block) && IsData(scenes[i].ss)
    case MainAssign => IsData(opt.channel)
    case Name => IsData(opt.channel) && AllData(NameCodes(tables, opt.channelName))
    case Color => IsData(opt.channel) && IsData(opt.color)
    case SendLevel(_) => IsData(opt.srcChannel) && IsData(opt.destChannel) && IsData(opt.level)
    case SendLevelNumber(_) => IsData(opt.srcChannel) && IsData(opt.destChannel)
  }

  /** With a base channel of 1..12 every section offset of the current driver is a MIDI channel. */
  lemma CurrentOffsetsAreChannels(configured: int, id: string, route: Route)
    requires 1 <= configured <= 12
    requires Dispatch(Current, id) == Some(route)
    ensures IsNibble(MidiBase(Current, configured) + route.section)
    ensures route.builder.SendLevel? || route.builder.SendLevelNumber? ==> IsNibble(MidiBase(Current, configured) + route.builder.dest)
  {
  }

  /** Buffer i parses as message list i, for every i. */
  predicate ParsesAs(bs: seq<Buffer>, meaning: seq<seq<Message>>)
  {
    |bs| == |meaning| && forall i :: 0 <= i < |bs| ==> Parse(bs[i]) == Some(meaning[i])
  }

  /** Every buffer a route builds parses as the messages the protocol prescribes for it. */
  lemma BuildMeansMessages(coding: GroupCoding, tables: map<char, int>, scenes: seq<Scene>, base: int, route: Route, opt: Options)
    requires IsNibble(base + route.section)
    requires route.builder.SendLevel? || route.builder.SendLevelNumber? ==> IsNibble(base + route.builder.dest)
    requires DataFields(coding, tables, scenes, route, opt)
    requires !Throws(scenes, route, opt)
    ensures var r := Build(coding, tables, scenes, base, route, opt);
            r.Success? && ParsesAs(r.value, Meaning(coding, tables, scenes, base, route, opt))
  {
    match route.builder
    case Mute => BuildVoiceMeans(coding, tables, scenes, base, route, opt);
    case Fader => BuildVoiceMeans(coding, tables, scenes, base, route, opt);
    case MainAssign => BuildVoiceMeans(coding, tables, scenes, base, route, opt);
    case Assign(isDca) => BuildAssignMeans(coding, tables, scenes, base, route, opt);
    case SceneRecall => BuildSceneMeans(coding, tables, scenes, base, route, opt);
    case Name => BuildSysExMeans(coding, tables, scenes, base, route, opt);
    case Color => BuildSysExMeans(coding, tables, scenes, base, route, opt);
    case SendLevel(dest) => BuildSysExMeans(coding, tables, scenes, base, route, opt);
    case SendLevelNumber(dest) => BuildSysExMeans(coding, tables, scenes, base, route, opt);
  }

  lemma BuildVoiceMeans(coding: GroupCoding, tables: map<char, int>, scenes: seq<Scene>, base: int, route: Route, opt: Options)
    requires route.builder in {Mute, Fader, MainAssign} && IsNibble(base + route.section)
    requires DataFields(coding, tables, scenes, route, opt)
    ensures var r := Build(coding, tables, scenes, base, route, opt);
            r.Success? && ParsesAs(r.value, Meaning(coding, tables, scenes, base, route, opt))
  {
    var off := base + route.section;
    var r := Build(coding, tables, scenes, base, route, opt);
    match route.builder
    case Mute =>
      assert r.value == MuteCommand(opt.channel, opt.mute, off);
      MuteMessages(opt.channel, opt.mute, off);
    case Fader =>
      assert r.value == FaderCommand(opt.channel, opt.level, off);
      FaderMessages(opt.channel, opt.level, off);
    case MainAssign =>
      assert r.value == ChannelAssignCommand(opt.channel, opt.assign, off);
      ChannelAssignMessages(opt.channel, opt.assign, off);
  }

  lemma BuildSysExMeans(coding: GroupCoding, tables: map<char, int>, scenes: seq<Scene>, base: int, route: Route, opt: Options)
    requires (route.builder in {Name, Color} || route.builder.SendLevel? || route.builder.SendLevelNumber?)
    requires IsNibble(base + route.section)
    requires route.builder.SendLevel? || route.builder.SendLevelNumber? ==> IsNibble(base + route.builder.dest)
    requires DataFields(coding, tables, scenes, route, opt)
    requires !Throws(scenes, route, opt)
    ensures var r := Build(coding, tables, scenes, base, route, opt);
            r.Success? && ParsesAs(r.value, Meaning(coding, tables, scenes, base, route, opt))
  {
    var off := base + route.section;
    var r := Build(coding, tables, scenes, base, route, opt);
    match route.builder
    case Name =>
      assert r.value == ChannelNameCommand(tables, opt.channel, opt.channelName, off);
      ChannelNameMessages(tables, opt.channel, opt.channelName, off);
    case Color =>
      assert r.value == ColorCommand(opt.channel, opt.color, off);
      ColorMessages(opt.channel, opt.color, off);
    case SendLevel(dest) =>
      assert r.value == SendLevelCommand(opt.srcChannel, opt.destChannel, opt.level, base, route.section, dest);
      SendLevelMessages(opt.srcChannel, opt.destChannel, opt.level, base, route.section, dest);
    case SendLevelNumber(dest) =>
      assert Some(r.value) == SendLevelNumberCommand(opt.srcChannel, opt.destChannel, opt.levelInt, base, route.section, dest);
      SendLevelNumberMessages(opt.srcChannel, opt.destChannel, opt.levelInt, base, route.section, dest);
  }

  lemma BuildAssignMeans(coding: GroupCoding, tables: map<char, int>, scenes: seq<Scene>, base: int, route: Route, opt: Options)
    requires route.builder.Assign? && IsNibble(base + route.section)
    requires DataFields(coding, tables, scenes, route, opt)
    ensures var r := Build(coding, tables, scenes, base, route, opt);
            r.Success? && ParsesAs(r.value, Meaning(coding, tables, scenes, base, route, opt))
  {
    var off := base + route.section;
    var isDca := route.builder.isDca;
    var codes := GroupCodes(coding, isDca, SelectedGroups(isDca, opt));
    assert Build(coding, tables, scenes, base, route, opt) == Success(AssignCommands(opt.channel, codes, opt.assign, isDca, off));
    assert Meaning(coding, tables, scenes, base, route, opt) == AssignMeaning(off, opt.channel, codes, opt.assign, isDca);
    AssignAll(opt.channel, codes, opt.assign, isDca, off);
  }

  /** When every group code plus its offset is a data byte, every assign buffer parses as its NRPN write. */
  lemma AssignAll(channel: int, codes: seq<int>, assign: bool, isDca: bool, off: int)
    requires IsNibble(off) && IsData(channel) && AssignValuesData(codes, assign, isDca)
    ensures ParsesAs(AssignCommands(channel, codes, assign, isDca, off), AssignMeaning(off, channel, codes, assign, isDca))
  {
    var r := AssignCommands(channel, codes, assign, isDca, off);
    forall i | 0 <= i < |r|
      ensures Parse(r[i]) == Some(AssignMeaning(off, channel, codes, assign, isDca)[i])
    {
      AssignMessages(channel, codes, assign, isDca, off, i);
    }
  }

  lemma BuildSceneMeans(coding: GroupCoding, tables: map<char, int>, scenes: seq<Scene>, base: int, route: Route, opt: Options)
    requires route.builder == SceneRecall && IsNibble(base + route.section)
    requires DataFields(coding, tables, scenes, route, opt)
    requires !Throws(scenes, route, opt)
    ensures var r := Build(coding, tables, scenes, base, route, opt);
            r.Success? && ParsesAs(r.value, Meaning(coding, tables, scenes, base, route, opt))
  {
    var off := base + route.section;
    var scene := scenes[opt.sceneNumber];
    var ms := [ControlChange(off, BankSelect, scene.block), ProgramChange(off, scene.ss)];
    assert Stream(ms) == [0xB0 + off, 0x00, scene.block, 0xC0 + off, scene.ss] by {
      assert Stream(ms[1..]) == Bytes(ms[1]);
    }
    WireOf(ms);
  }

  /**
   * End to end, current driver: for a base channel of 1..12 and option values in data range,
   * an action fails exactly where the driver throws, and otherwise sends buffers that each parse
   * as the MIDI messages the protocol prescribes for it.
   */
  lemma EncodeMeansMessages(coding: GroupCoding, configured: int, tables: Tables, scenes: seq<Scene>, id: string, route: Route, opt: Options)
    requires 1 <= configured <= 12
    requires Dispatch(Current, id) == Some(route)
    requires DataFields(coding, tables.name, scenes, route, opt)
    ensures var r := Encode(coding, Current, configured, tables, scenes, id, opt);
            && (r.Failure? <==> Throws(scenes, route, opt))
            && (r.Success? ==> ParsesAs(r.value, Meaning(coding, tables.name, scenes, configured - 1, route, opt)))
  {
    var base := configured - 1;
    var r := Build(coding, tables.name, scenes, base, route, opt);
    assert Encode(coding, Current, configured, tables, scenes, id, opt) == r by {
      EncodeIsBuild(coding, configured, tables, scenes, id, route, opt);
    }
    if !Throws(scenes, route, opt) {
      CurrentOffsetsAreChannels(configured, id, route);
      BuildMeansMessages(coding, tables.name, scenes, base, route, opt);
    }
  }

  /** A dispatched action of the current driver is its route's builder call on base channel configured - 1. */
  lemma EncodeIsBuild(coding: GroupCoding, configured: int, tables: Tables, scenes: seq<Scene>, id: string, route: Route, opt: Options)
    requires Dispatch(Current, id) == Some(route)
    ensures Encode(coding, Current, configured, tables, scenes, id, opt) == Build(coding, tables.name, scenes, configured - 1, route, opt)
  {
  }

  /** An assign action of the current driver is the assign builder on section 4, fed the coded group list. */
  lemma AssignEncode(coding: GroupCoding, configured: int, tables: Tables, scenes: seq<Scene>, id: string, isDca: bool, opt: Options)
    requires Dispatch(Current, id) == Some(Route(4, Assign(isDca)))
    ensures Encode(coding, Current, configured, tables, scenes, id, opt)
         == Success(AssignCommands(opt.channel, GroupCodes(coding, isDca, SelectedGroups(isDca, opt)), opt.assign, isDca, configured + 3))
  {
    EncodeIsBuild(coding, configured, tables, scenes, id, Route(4, Assign(isDca)), opt);
  }

  /** The current switch routes `send_input_to` from section 0 to section 4. */
  lemma SendInputToRoute()
    ensures Dispatch(Current, "send_input_to") == Some(Route(0, SendLevel(4)))
  {
  }

  /** A send-level action of the current driver is the send-level builder from section 0. */
  lemma SendLevelEncode(coding: GroupCoding, configured: int, tables: Tables, scenes: seq<Scene>, id: string, dest: int, opt: Options)
    requires Dispatch(Current, id) == Some(Route(0, SendLevel(dest)))
    ensures Encode(coding, Current, configured, tables, scenes, id, opt)
         == Success(SendLevelCommand(opt.srcChannel, opt.destChannel, opt.level, configured - 1, 0, dest))
  {
    EncodeIsBuild(coding, configured, tables, scenes, id, Route(0, SendLevel(dest)), opt);
  }

  /**
   * The corrected assign, end to end: with group indices, assigning any of the first 16 DCAs
   * or mute groups sends one buffer per selected group, in the caller's order, each an NRPN
   * write of parameter 0x40 on section 4 whose value decodes to that group, its kind and the
   * requested state.
   */
  lemma IndexedAssignSelectsGroups(configured: int, tables: Tables, scenes: seq<Scene>, id: string, isDca: bool, opt: Options)
    requires 1 <= configured <= 12
    requires Dispatch(Current, id) == Some(Route(4, Assign(isDca)))
    requires IsData(opt.channel) && FirstSixteen(SelectedGroups(isDca, opt), GroupChoiceOffset(isDca))
    ensures var ids := SelectedGroups(isDca, opt);
            var r := Encode(GroupIndices, Current, configured, tables, scenes, id, opt);
            && r.Success? && |r.value| == |ids|
            && (forall i :: 0 <= i < |ids| ==>
                  Parse(r.value[i]) == Some(Nrpn(configured + 3, opt.channel, GroupAssignParam, IndexedByte(isDca, opt.assign, ids[i]))))
            && (forall i :: 0 <= i < |ids| ==>
                  DecodeGroupByte(IndexedByte(isDca, opt.assign, ids[i]))
                    == Some(GroupAssign(isDca, opt.assign, ids[i] - GroupChoiceOffset(isDca) - 1)))
  {
    var ids := SelectedGroups(isDca, opt);
    var bs := IndexedAssignCommands(opt.channel, ids, opt.assign, isDca, configured + 3);
    assert Encode(GroupIndices, Current, configured, tables, scenes, id, opt) == Success(bs) by {
      AssignEncode(GroupIndices, configured, tables, scenes, id, isDca, opt);
    }
    forall i | 0 <= i < |ids|
      ensures Parse(bs[i]) == Some(Nrpn(configured + 3, opt.channel, GroupAssignParam, IndexedByte(isDca, opt.assign, ids[i])))
      ensures DecodeGroupByte(IndexedByte(isDca, opt.assign, ids[i]))
                == Some(GroupAssign(isDca, opt.assign, ids[i] - GroupChoiceOffset(isDca) - 1))
    {
      IndexedAssignMessages(opt.channel, ids, opt.assign, isDca, configured + 3, i);
    }
  }

  /**
   * As written, the driver adds the offset to the mute-group choice id itself: any mute group
   * assigned ON puts 0x96 or more, a status byte, where the NRPN value belongs.
   */
  lemma ChoiceIdsMuteGroupOnIsNotMidi(configured: int, tables: Tables, scenes: seq<Scene>, opt: Options)
    requires 1 <= configured <= 12 && IsData(opt.channel)
    requires |opt.muteGroup| == 1 && 0x46 <= opt.muteGroup[0] < 0x80 && opt.assign
    ensures var r := Encode(ChoiceIds, Current, configured, tables, scenes, "mute_group_assign", opt);
            r.Success? && |r.value| == 1 && Parse(r.value[0]) == None
  {
    var route := Route(4, Assign(false));
    assert Dispatch(Current, "mute_group_assign") == Some(route);
    EncodeIsBuild(ChoiceIds, configured, tables, scenes, "mute_group_assign", route, opt);
    assert opt.muteGroup == [opt.muteGroup[0]];
    MuteGroupOnIsNotMidi(opt.channel, configured + 3, opt.muteGroup[0]);
  }

  /**
   * As written, mute group 1 (choice id 0x46) assigned OFF sends the value 0x46 + 0x10 = 0x56,
   * which the offset policy reads as mute group 7 assigned ON.
   */
  lemma ChoiceIdsMuteGroupOffReadsAsOn(configured: int, tables: Tables, scenes: seq<Scene>, opt: Options)
    requires 1 <= configured <= 12 && IsData(opt.channel)
    requires opt.muteGroup == [0x46] && !opt.assign
    ensures var r := Encode(ChoiceIds, Current, configured, tables, scenes, "mute_group_assign", opt);
            && r.Success? && |r.value| == 1
            && Parse(r.value[0]) == Some(Nrpn(configured + 3, opt.channel, GroupAssignParam, 0x56))
            && DecodeGroupByte(0x56) == Some(GroupAssign(false, true, 6))
  {
    var route := Route(4, Assign(false));
    assert Dispatch(Current, "mute_group_assign") == Some(route);
    EncodeIsBuild(ChoiceIds, configured, tables, scenes, "mute_group_assign", route, opt);
    AssignMessages(opt.channel, [0x46], false, false, configured + 3, 0);
  }

  /**
   * As written, DCA 11 (choice id 0x40) assigned ON sends 0x40 + 0x40 = 0x80, a status byte
   * where the NRPN value belongs, so the buffer is not MIDI.
   */
  lemma ChoiceIdsDca11OnIsNotMidi(configured: int, tables: Tables, scenes: seq<Scene>, opt: Options)
    requires 1 <= configured <= 12 && IsData(opt.channel)
    requires opt.dcaGroup == [0x40] && opt.assign
    ensures var r := Encode(ChoiceIds, Current, configured, tables, scenes, "dca_assign", opt);
            r.Success? && |r.value| == 1 && Parse(r.value[0]) == None
  {
    var route := Route(4, Assign(true));
    assert Dispatch(Current, "dca_assign") == Some(route);
    EncodeIsBuild(ChoiceIds, configured, tables, scenes, "dca_assign", route, opt);
    AssignStatusValueIsNotMidi(opt.channel, 0x40, true, true, configured + 3);
  }

  /**
   * As written, DCA 11 (choice id 0x40) assigned OFF sends the value 0x40 + 0 = 0x40, which
   * the offset policy reads as DCA 1 assigned ON: the opposite state on another DCA.
   */
  lemma ChoiceIdsDca11OffReadsAsDca1On(configured: int, tables: Tables, scenes: seq<Scene>, opt: Options)
    requires 1 <= configured <= 12 && IsData(opt.channel)
    requires opt.dcaGroup == [0x40] && !opt.assign
    ensures var r := Encode(ChoiceIds, Current, configured, tables, scenes, "dca_assign", opt);
            && r.Success? && |r.value| == 1
            && Parse(r.value[0]) == Some(Nrpn(configured + 3, opt.channel, GroupAssignParam, 0x40))
            && DecodeGroupByte(0x40) == Some(GroupAssign(true, true, 0))
  {
    var route := Route(4, Assign(true));
    assert Dispatch(Current, "dca_assign") == Some(route);
    EncodeIsBuild(ChoiceIds, configured, tables, scenes, "dca_assign", route, opt);
    AssignMessages(opt.channel, [0x40], false, true, configured + 3, 0);
  }

  /** The legacy catalogue offers `send_input_to`, but the legacy switch has no case for it: nothing is sent. */
  lemma LegacySendInputToSendsNothing(coding: GroupCoding, configured: int, tables: Tables, scenes: seq<Scene>, opt: Options)
    ensures Encode(coding, Legacy, configured, tables, scenes, "send_input_to", opt) == Success([])
  {
    assert Dispatch(Legacy, "send_input_to") == None;
  }

  /**
   * The current driver sends `send_input_to` as a send level from the input section to
   * section 4: one Avantis SysEx with the source and destination channels and the level.
   */
  lemma CurrentSendInputToSends(coding: GroupCoding, configured: int, tables: Tables, scenes: seq<Scene>, opt: Options)
    requires 1 <= configured <= 12
    requires IsData(opt.srcChannel) && IsData(opt.destChannel) && IsData(opt.level)
    ensures var r := Encode(coding, Current, configured, tables, scenes, "send_input_to", opt);
            && r.Success? && |r.value| == 1
            && Parse(r.value[0]) == Some([AvantisSysEx([configured - 1, SendLevelCmd, opt.srcChannel,
                                                         configured + 3, opt.destChannel, opt.level])])
  {
    SendInputToRoute();
    SendLevelEncode(coding, configured, tables, scenes, "send_input_to", 4, opt);
    SendLevelMessages(opt.srcChannel, opt.destChannel, opt.level, configured - 1, 0, 4);
  }

  /**
   * The legacy driver adds the section index to the configured value itself, and its
   * configuration allows 12: then every section-4 mute (DCA, main, FX, mute group) starts with
   * 0xA0, a Polyphonic Key Pressure on channel 0, instead of a Note On.
   */
  lemma LegacyBase12MuteIsPolyPressure(tables: Tables, scenes: seq<Scene>, opt: Options)
    requires IsData(opt.channel)
    ensures var r := Encode(ChoiceIds, Legacy, 12, tables, scenes, "mute_dca", opt);
            && r.Success? && |r.value| == 1
            && Parse(r.value[0]) == Some([PolyPressure(0, opt.channel, Switch(opt.mute)), PolyPressure(0, opt.channel, 0)])
  {
    var ms := [PolyPressure(0, opt.channel, Switch(opt.mute)), PolyPressure(0, opt.channel, 0)];
    var b := [0x90 + 16, opt.channel, Switch(opt.mute), 0x90 + 16, opt.channel, 0x00];
    assert Stream(ms) == b by {
      assert Stream(ms[1..]) == Bytes(ms[1]);
    }
    assert Dispatch(Legacy, "mute_dca") == Some(Route(4, Mute));
    assert Encode(ChoiceIds, Legacy, 12, tables, scenes, "mute_dca", opt) == Success([BufferFrom(b)]);
    WireOf(ms);
  }

  /** With a legacy base of 0..11 every offset is a channel, so only the value 12 breaks framing. */
  lemma LegacyOffsetsAreChannelsBelow12(configured: int, id: string)
    requires 0 <= configured <= 11
    requires Dispatch(Legacy, id).Some?
    ensures IsNibble(MidiBase(Legacy, configured) + Dispatch(Legacy, id).value.section)
    ensures !IsNibble(MidiBase(Legacy, 12) + 4)
  {
  }
}
