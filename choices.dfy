/**
 * The option catalogue the driver presents: numbered channel choices per section, the fader
 * level table, the colour table, and the bounds of the numeric send level. The ids of these
 * choices are the values the command builders receive.
 */
module Choices {
  import opened Wrappers
  import opened Scenes
  import opened Commands
  import opened Midi

  /** A dropdown entry; numbered channel choices also carry their section's id offset. */
  datatype ChoiceValue = ChoiceValue(title: string, id: int, offset: Option<int>)

  datatype Choice = Choice(name: string, offset: int, values: seq<ChoiceValue>)

  const Digits := "0123456789"

  /** A template literal's rendering of a non-negative integer. */
  function Decimal(n: nat): (s: string)
    ensures |s| >= 1
  {
    if n < 10 then [Digits[n]] else Decimal(n / 10) + [Digits[n % 10]]
  }

  /** `key i` with id i + ofs, for i = 1..qty. */
  function ChoiceList(name: string, key: string, qty: int, ofs: int): (c: Choice)
    ensures c.name == name && c.offset == ofs
    ensures |c.values| == if qty < 0 then 0 else qty
  {
    var n := if qty < 0 then 0 else qty;
    Choice(name, ofs, seq(n, k requires 0 <= k < n => ChoiceValue(key + " " + Decimal(k + 1), k + 1 + ofs, Some(ofs))))
  }

  /** The driver's loop building one section's choices. */
  method BuildChoices(name: string, key: string, qty: int, ofs: int) returns (choice: Choice)
    ensures choice == ChoiceList(name, key, qty, ofs)
  {
    choice := Choice(name, ofs, []);
    var i := 1;
    while i <= qty
      invariant 1 <= i && (qty >= 0 ==> i <= qty + 1) && (qty < 0 ==> i == 1)
      invariant choice == ChoiceList(name, key, i - 1, ofs)
    {
      choice := choice.(values := choice.values + [ChoiceValue(key + " " + Decimal(i), i + ofs, Some(ofs))]);
      i := i + 1;
    }
  }

  /** The ids are ofs+1, ..., ofs+qty: consecutive and strictly increasing, each tagged with ofs. */
  lemma ChoiceIds(name: string, key: string, qty: int, ofs: int)
    ensures var c := ChoiceList(name, key, qty, ofs);
            && (forall k :: 0 <= k < |c.values| ==> c.values[k].id == ofs + k + 1 && c.values[k].offset == Some(ofs))
            && (forall i, j :: 0 <= i < j < |c.values| ==> c.values[i].id < c.values[j].id)
  {
  }

  /** Choice id back to its position: id - ofs - 1 indexes the entry carrying that id. */
  function ChoiceIndex(c: Choice, id: int): int
  {
    id - c.offset - 1
  }

  lemma ChoiceIndexRoundTrip(name: string, key: string, qty: int, ofs: int, k: int)
    requires 0 <= k < qty
    ensures var c := ChoiceList(name, key, qty, ofs);
            && 0 <= ChoiceIndex(c, c.values[k].id) < |c.values|
            && ChoiceIndex(c, c.values[k].id) == k
  {
  }

  /** The default every option descriptor gives: `1 + choice.offset`. */
  function DefaultId(c: Choice): int
  {
    1 + c.offset
  }

  /** The default is the first choice's id whenever there is a choice. */
  lemma DefaultIsFirstChoice(name: string, key: string, qty: int, ofs: int)
    requires qty >= 1
    ensures DefaultId(ChoiceList(name, key, qty, ofs)) == ChoiceList(name, key, qty, ofs).values[0].id
  {
  }

  // ---------------------------------------------------------------- sections

  datatype Section =
    | InputChannel | SceneSelect | Dca | MuteGroup | MainMix
    | MonoGroup | StereoGroup | MonoAux | StereoAux | MonoMatrix | StereoMatrix
    | MonoFxSend | StereoFxSend | FxReturn

  /** The section counts of the capability data. */
  datatype Capability = Capability(
    inputCount: nat, sceneCount: nat, dcaCount: nat, muteGroupCount: nat, mainsCount: nat,
    monoGroupCount: nat, stereoGroupCount: nat, monoAuxCount: nat, stereoAuxCount: nat,
    monoMatrixCount: nat, stereoMatrixCount: nat, stereoFxSendCount: nat, fxReturnCount: nat)

  /** The id offset of each section: ids are offset + 1, offset + 2, ... */
  function ChoiceOffset(s: Section): int
  {
    match s
    case InputChannel => -1
    case SceneSelect => -1
    case Dca => 0x35
    case MuteGroup => 0x45
    case MainMix => 0x2F
    case MonoGroup => -1
    case StereoGroup => 0x3F
    case MonoAux => -1
    case StereoAux => 0x3F
    case MonoMatrix => -1
    case StereoMatrix => 0x3F
    case MonoFxSend => -1
    case StereoFxSend => 0x0F
    case FxReturn => 0x1F
  }

  /** How many choices a section has. Mono FX sends are counted by the stereo FX send count. */
  function ChoiceCount(cap: Capability, s: Section): nat
  {
    match s
    case InputChannel => cap.inputCount
    case SceneSelect => cap.sceneCount
    case Dca => cap.dcaCount
    case MuteGroup => cap.muteGroupCount
    case MainMix => cap.mainsCount
    case MonoGroup => cap.monoGroupCount
    case StereoGroup => cap.stereoGroupCount
    case MonoAux => cap.monoAuxCount
    case StereoAux => cap.stereoAuxCount
    case MonoMatrix => cap.monoMatrixCount
    case StereoMatrix => cap.stereoMatrixCount
    case MonoFxSend => cap.stereoFxSendCount
    case StereoFxSend => cap.stereoFxSendCount
    case FxReturn => cap.fxReturnCount
  }

  function SectionName(s: Section): string
  {
    match s
    case InputChannel => "Input Channel"
    case SceneSelect => "Scene"
    case Dca => "DCA"
    case MuteGroup => "Mute Group"
    case MainMix => "Main Mix"
    case MonoGroup => "Mono Group"
    case StereoGroup => "Stereo Group"
    case MonoAux => "Mono Aux"
    case StereoAux => "Stereo Aux"
    case MonoMatrix => "Mono Matrix"
    case StereoMatrix => "Stereo Matrix"
    case MonoFxSend => "Mono FX Send"
    case StereoFxSend => "Stereo FX Send"
    case FxReturn => "FX Return"
  }

  function SectionKey(s: Section): string
  {
    match s
    case InputChannel => "CH"
    case SceneSelect => "SCENE"
    case Dca => "DCA"
    case MuteGroup => "MUTE"
    case MainMix => "MAIN"
    case _ => SectionName(s)
  }

  function SectionChoices(cap: Capability, s: Section): Choice
  {
    ChoiceList(SectionName(s), SectionKey(s), ChoiceCount(cap, s), ChoiceOffset(s))
  }

  /**
   * Section id ranges: inputs, scenes and the mono sections from 0, DCA from 0x36, mute groups
   * from 0x46, mains from 0x30, stereo groups, auxes and matrices from 0x40, stereo FX sends
   * from 0x10, FX returns from 0x20.
   */
  lemma SectionIdRange(cap: Capability, s: Section, k: int)
    requires 0 <= k < ChoiceCount(cap, s)
    ensures SectionChoices(cap, s).values[k].id == ChoiceOffset(s) + 1 + k
    ensures s in {InputChannel, SceneSelect, MonoGroup, MonoAux, MonoMatrix, MonoFxSend} ==>
              SectionChoices(cap, s).values[k].id == k
    ensures s == Dca ==> SectionChoices(cap, s).values[k].id == 0x36 + k
    ensures s == MuteGroup ==> SectionChoices(cap, s).values[k].id == 0x46 + k
    ensures s == MainMix ==> SectionChoices(cap, s).values[k].id == 0x30 + k
    ensures s in {StereoGroup, StereoAux, StereoMatrix} ==> SectionChoices(cap, s).values[k].id == 0x40 + k
    ensures s == StereoFxSend ==> SectionChoices(cap, s).values[k].id == 0x10 + k
    ensures s == FxReturn ==> SectionChoices(cap, s).values[k].id == 0x20 + k
  {
  }

  /**
   * The scene dropdown's choice for ordinal n has id n - 1, and that id is exactly the index
   * of ordinal n in the driver's scene table.
   */
  lemma SceneChoiceSelectsOrdinal(cap: Capability, k: int)
    requires 0 <= k < cap.sceneCount
    ensures var v := SectionChoices(cap, SceneSelect).values[k];
            && v.title == "SCENE " + Decimal(k + 1)
            && 0 <= v.id < |SceneTable(cap.sceneCount)|
            && SceneTable(cap.sceneCount)[v.id].sceneNumber == k + 1
  {
  }

  // ---------------------------------------------------------------- fader levels

  /** One row of the fader table: the dB label and its (already parsed) hexadecimal code. */
  type FaderRow = (string, int)

  function FaderChoices(levels: seq<FaderRow>): (c: Choice)
    ensures c.name == "Fader Level" && c.offset == -1 && |c.values| == |levels|
  {
    Choice("Fader Level", -1, seq(|levels|, i requires 0 <= i < |levels| => ChoiceValue(levels[i].0 + " dB", levels[i].1, None)))
  }

  /** The driver's loop over the fader table. */
  method BuildFaderChoices(levels: seq<FaderRow>) returns (c: Choice)
    ensures c == FaderChoices(levels)
  {
    c := Choice("Fader Level", -1, []);
    var i := 0;
    while i < |levels|
      invariant 0 <= i <= |levels|
      invariant c == FaderChoices(levels[..i])
    {
      var dbStr := levels[i].0;
      c := c.(values := c.values + [ChoiceValue(dbStr + " dB", levels[i].1, None)]);
      i := i + 1;
    }
    assert levels[..i] == levels;
  }

  /** Choosing fader row k sends row k's code as the fader NRPN's data value. */
  lemma FaderChoiceSendsCode(levels: seq<FaderRow>, k: int, channel: int, off: int)
    requires 0 <= k < |levels| && IsData(levels[k].1)
    requires IsNibble(off) && IsData(channel)
    ensures FaderChoices(levels).values[k].title == levels[k].0 + " dB"
    ensures Parse(FaderCommand(channel, FaderChoices(levels).values[k].id, off)[0])
              == Some(Nrpn(off, channel, FaderParam, levels[k].1))
  {
    FaderMessages(channel, levels[k].1, off);
  }

  // ---------------------------------------------------------------- assign groups

  /**
   * The mute group dropdown hands its choice ids (0x46 upwards) to the assign builder, so
   * assigning any of the first 58 mute groups ON produces a buffer that is not MIDI.
   */
  lemma MuteGroupChoiceAssignOnIsNotMidi(cap: Capability, k: int, channel: int, off: int)
    requires 0 <= k < cap.muteGroupCount && k < 0x3A
    requires IsNibble(off) && IsData(channel)
    ensures Parse(AssignCommands(channel, [SectionChoices(cap, MuteGroup).values[k].id], true, false, off)[0]) == None
  {
    SectionIdRange(cap, MuteGroup, k);
    MuteGroupOnIsNotMidi(channel, off, 0x46 + k);
  }

  /** Converting a choice id back to its group index gives data bytes for every assignment of the first 16 DCAs or mute groups. */
  lemma GroupChoiceIndexedAssignIsMidi(cap: Capability, s: Section, k: int, assign: bool, channel: int, off: int)
    requires s == Dca || s == MuteGroup
    requires 0 <= k < ChoiceCount(cap, s) && k < 16
    requires IsNibble(off) && IsData(channel)
    ensures var id := SectionChoices(cap, s).values[k].id;
            Parse(IndexedAssignCommands(channel, [id], assign, s == Dca, off)[0])
              == Some(Nrpn(off, channel, GroupAssignParam, k + AssignOffset(s == Dca, assign)))
  {
    var id := SectionChoices(cap, s).values[k].id;
    SectionIdRange(cap, s, k);
    IndexedAssignMessages(channel, [id], assign, s == Dca, off, 0);
  }

  // ---------------------------------------------------------------- colours

  const ColorNames: seq<string> := ["Off", "Red", "Green", "Yellow", "Blue", "Purple", "Lt Blue", "White"]

  function ColorChoices(): (c: Choice)
    ensures |c.values| == 8
    ensures forall i :: 0 <= i < 8 ==> c.values[i].id == i && c.values[i].title == ColorNames[i]
    ensures DefaultId(c) == c.values[0].id
  {
    Choice("Color", -1, [
      ChoiceValue("Off", 0, None), ChoiceValue("Red", 1, None), ChoiceValue("Green", 2, None),
      ChoiceValue("Yellow", 3, None), ChoiceValue("Blue", 4, None), ChoiceValue("Purple", 5, None),
      ChoiceValue("Lt Blue", 6, None), ChoiceValue("White", 7, None)])
  }

  // ---------------------------------------------------------------- numeric send level

  /** The bounds of the numeric level option. */
  const LevelIntMin := 0
  const LevelIntMax := 19

  /** Every value the option admits indexes the 20-step level table, so the lookup never reads undefined. */
  lemma LevelIntWithinTable(levelInt: int, srcChannel: int, destChannel: int, base: int, src: int, dest: int)
    requires LevelIntMin <= levelInt <= LevelIntMax
    ensures 0 <= levelInt < |ReversedLevelMap()|
    ensures SendLevelNumberCommand(srcChannel, destChannel, levelInt, base, src, dest).Some?
  {
  }
}
