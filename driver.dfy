/**
 * The driver instance: its configuration, the scene table it builds at start-up, and the
 * socket it writes command buffers to. The socket is modelled by the sequence of buffers
 * written so far; connecting, reconnecting and reading are outside the model.
 */
module Driver {
  import opened Wrappers
  import opened Midi
  import opened Scenes
  import opened Commands
  import opened Encoder

  class ModuleInstance {
    const revision: Revision
    const tables: Tables
    /** How the assign actions turn selected group ids into group codes. */
    const coding: GroupCoding
    /** The capability data's scene count. */
    const sceneCount: nat
    /** The configured MIDI base channel, as entered. */
    var midiBase: int
    var scenes: seq<Scene>
    /** Whether a socket object exists (the driver writes only then). */
    var socketOpen: bool
    /** Every buffer written to the socket, in order. */
    var written: seq<Buffer>

    constructor (revision: Revision, tables: Tables, coding: GroupCoding, sceneCount: nat, midiBase: int, socketOpen: bool)
      ensures this.revision == revision && this.tables == tables && this.coding == coding
      ensures this.sceneCount == sceneCount
      ensures this.midiBase == midiBase && this.socketOpen == socketOpen
      ensures scenes == [] && written == []
    {
      this.revision := revision;
      this.tables := tables;
      this.coding := coding;
      this.sceneCount := sceneCount;
      this.midiBase := midiBase;
      this.socketOpen := socketOpen;
      scenes := [];
      written := [];
    }

    /** Fills the scene table with ordinals 1..sceneCount, their banks and sub-indices. */
    method SetupSceneSelection()
      modifies this`scenes
      ensures scenes == SceneTable(sceneCount)
    {
      scenes := [];
      var i := 1;
      while i <= sceneCount
        invariant 1 <= i <= sceneCount + 1
        invariant scenes == SceneTable(i - 1)
      {
        var ss := SceneSubIndex(i);
        scenes := scenes + [Scene(i, SceneBank(i), ss)];
        i := i + 1;
      }
    }

    /**
     * Runs one action: dispatch, build the buffers, then write each one in order while a socket
     * exists. A failing lookup throws before anything is written.
     */
    method Action(id: string, opt: Options) returns (outcome: Result<seq<Buffer>, Failure>)
      modifies this`written
      ensures outcome == Encode(coding, revision, midiBase, tables, scenes, id, opt)
      ensures written == old(written) + (if socketOpen && outcome.Success? then outcome.value else [])
    {
      var base := MidiBase(revision, midiBase);
      match Dispatch(revision, id) {
        case None =>
          outcome := Success([]);
        case Some(route) =>
          var off := base + route.section;
          match route.builder {
            case Assign(isDca) =>
              var groups := GroupCodes(coding, isDca, SelectedGroups(isDca, opt));
              var cmds := BuildAssignCommands(opt.channel, groups, opt.assign, isDca, off);
              outcome := Success(cmds);
            case Name =>
              var cmds := BuildChannelNameCommand(NameTable(revision, tables), opt.channel, opt.channelName, off);
              outcome := Success(cmds);
            case _ =>
              outcome := Build(coding, NameTable(revision, tables), scenes, base, route, opt);
          }
      }
      if outcome.Failure? {
        return;
      }
      var bufferCommands := outcome.value;
      var i := 0;
      while i < |bufferCommands|
        invariant 0 <= i <= |bufferCommands|
        invariant written == old(written) + (if socketOpen then bufferCommands[..i] else [])
      {
        if socketOpen {
          written := written + [bufferCommands[i]];
        }
        i := i + 1;
      }
      assert bufferCommands[..i] == bufferCommands;
    }
  }

  /**
   * Scene 129 with base channel 1 on the current driver: bank 1, program 0, on channel 0.
   */
  method RecallScene129() returns (sent: seq<Buffer>)
    ensures sent == [[0xB0, 0x00, 0x01, 0xC0, 0x00]]
  {
    var tables := Tables(map[], map[]);
    var driver := new ModuleInstance(Current, tables, ChoiceIds, 500, 1, true);
    driver.SetupSceneSelection();
    var opt := Options(0, false, 0, false, [], [], 128, "", 0, 0, 0, 0);
    var outcome := driver.Action("scene_recall", opt);
    assert Dispatch(Current, "scene_recall") == Some(Route(0, SceneRecall));
    assert driver.scenes[128] == Scene(129, 1, 0);
    BufferFromOctets([0xB0, 0x00, 0x01, 0xC0, 0x00]);
    assert SceneCommand(driver.scenes, 128, 0) == Some([BufferFrom([0xB0, 0x00, 0x01, 0xC0, 0x00])]);
    assert outcome == Success([[0xB0, 0x00, 0x01, 0xC0, 0x00]]);
    sent := driver.written;
  }
}
