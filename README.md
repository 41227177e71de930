# Avantis command encoder — a Dafny model

This project models the command encoder of the Allen & Heath Avantis control module. The
encoder turns one operator action into MIDI byte buffers and writes them to the mixer's TCP
MIDI port. The actions are: mute, fader level, DCA or mute-group assignment, scene recall,
main-mix assignment, channel name, channel colour, send level and numeric send level.

Two revisions of the driver are modelled side by side (`Encoder.Revision`):

- **Current**: `src/main.ts` and its compiled twin `dist/main.js`, with the option catalogue
  of `dist/actions.js`. The configured MIDI base channel (1–12) is turned into the status
  nibble by subtracting 1. Names are looked up in the `name` table. Two actions are added:
  `send_input_to` and `send_input_to_mono_aux_number`.
- **Legacy**: `index.js` with `actions.js`. The configured base (0–12) is used as is. Names
  are looked up in the `nameChar` table. It also has the dump formatter `dumpData`.

Modules:

- `Wrappers`: Option and Result.
- `Midi`: bytes, `Buffer.from` (a value is stored modulo 256), and MIDI 1.0 messages with a
  serialiser `Stream` and a parser `Parse`. The parser is proved to invert the serialiser.
  Every command builder is proved against this parser: its buffer parses to exactly the MIDI
  messages the Avantis protocol assigns to that command. Those messages are Note On for mute,
  an NRPN triple (CC 0x63, 0x62, 0x06) for fader, assign and main assign, bank select plus
  program change for scene recall, and Allen & Heath SysEx for name, colour and send level.
- `Scenes`: bank and position of a scene ordinal, and the scene table built at start-up.
- `Commands`: the builders, one per command template.
- `Encoder`: the action switch (`Dispatch`), the route-level `Build`, the whole encoder
  `Encode`, and the end-to-end theorem `EncodeMeansMessages`.
- `Driver`: the module instance as a class. Its scene table is filled in place, and its
  `Action` method writes buffers to the socket.
- `Choices`: the option catalogue that produces the ids the builders receive.
- `Dump`: the legacy hex dump of the buffers.

The model follows the code, which does not validate its inputs:

- Fields are not validated. A value outside 0–255 is wrapped by `Buffer.from`, and nothing
  rejects a status nibble of 16 or more. This is modelled as `Midi.Octet`, and its
  consequence is the first finding below.
- A scene is selected by its dropdown id, the 0-based index into the scene table, not by a
  1-based ordinal with an out-of-range error. An index outside the table makes the code throw
  before anything is sent, which is modelled as `Failure(SceneUndefined)`.
- A numeric level outside the 20-entry table throws the same way, modelled as
  `Failure(LevelUndefined)`.
- An unknown action id sends nothing and is not an error.
- How a DCA or mute-group assign turns the selected dropdown ids into group codes is a
  policy parameter of the encoder (`Commands.GroupCoding`). `ChoiceIds` is the code as
  written: the id itself, which still carries the dropdown's id offset. `GroupIndices` is the
  corrected policy: the 0-based group number (id − offset − 1). The offsets added to the code
  (0x40, 0, 0x50, 0x10) are a second policy function, `Commands.AssignOffset`. The second,
  third and fourth findings below compare the two codings.

## Model

| member | source | states |
|---|---|---|
| Midi.BufferFrom | src/main.ts:387 | `Buffer.from` keeps the length and stores each value modulo 256 |
| Midi.BufferFromOctets | src/main.ts:387 | `Buffer.from` leaves a sequence of values that are already bytes unchanged |
| Midi.ParseStream | src/main.ts:385-558 | parsing the concatenated bytes of well-formed MIDI messages gives back exactly those messages; this parser is the reference every builder is checked against |
| Midi.WireOf | src/main.ts:385-558 | the serialised bytes of well-formed messages are bytes, are unchanged by `Buffer.from`, and parse back to the messages |
| Scenes.SceneBank | src/main.ts:198-212 | the bank is always 0–3 and equals min(3, (n−1) div 128) for every ordinal n ≥ 1 |
| Scenes.SceneSubIndex | src/main.ts:214-221 | the repeated subtraction loop yields (n−1) mod 128, in 0–127, for every n ≥ 1, and n−1 for n ≤ 128 |
| Scenes.SceneTable | src/main.ts:223-229 | the table has one entry per configured scene, and entry k is scene k+1 with its bank and position |
| Scenes.TableEntry | src/main.ts:223-229 | entry k of the table has ordinal k+1, a bank in 0–3 and a position k mod 128 |
| Scenes.BankMonotone | src/main.ts:198-212 | a later scene never lies in an earlier bank |
| Scenes.AddressRoundTrip | src/main.ts:195-230 | for ordinals 1–512, bank·128 + position + 1 recovers the ordinal, so the address is unique |
| Scenes.ClampedAddressesRepeat | src/main.ts:207-211 | every ordinal above 512 gets the same bank and position as the ordinal 128 below it |
| Commands.NrpnWire | src/main.ts:390-407 | the 9-byte `BN 63 CH BN 62 P BN 06 V` template parses as the three CCs of one NRPN write |
| Midi.ParseIsStream | src/main.ts:385-558 | whenever a byte stream parses, writing its messages back gives the same bytes, so a buffer is fixed byte for byte by the messages it parses to |
| Midi.ParseOne | src/main.ts:385-558 | a well-formed message at the front of a stream is read, and parsing carries on with the rest |
| Midi.ParseFramed | src/main.ts:477-493 | a body of data bytes between F0 and F7 is read as one SysEx, and parsing resumes after F7 |
| Midi.SplitManufacturerOf | src/main.ts:9 | a SysEx body splits back into the manufacturer id and the data it was made from |
| Commands.SysExWire | src/main.ts:9 | the Avantis header, a payload of data bytes and F7 parse as one SysEx message with manufacturer 00 00 1A and the payload after 50 10 01 00 |
| Commands.MuteCommand | src/main.ts:385-388 | one 6-byte buffer; `MuteMessages` gives its meaning |
| Commands.MuteMessages | src/main.ts:385-388 | the mute buffer is Note On with velocity 7F (mute) or 3F (unmute) followed by Note On with velocity 0 |
| Commands.FaderCommand | src/main.ts:390-407 | one 9-byte buffer; `FaderMessages` gives its meaning |
| Commands.FaderMessages | src/main.ts:390-407 | the fader buffer is the NRPN write of parameter 0x17 with the level as value |
| Commands.ChannelAssignCommand | src/main.ts:460-475 | one 9-byte buffer; `ChannelAssignMessages` gives its meaning |
| Commands.ChannelAssignMessages | src/main.ts:460-475 | the main-assign buffer is the NRPN write of parameter 0x18 with value 7F or 3F |
| Commands.AssignOffset | src/main.ts:414-429 | each of the four offsets is a multiple of 16 between 0 and 0x50; `AssignOffsetDecodes` gives their meaning |
| Commands.AssignOffsetDecodes | src/main.ts:414-429 | for groups 0–15 the four assign offsets (0x40, 0, 0x50, 0x10) give distinct data bytes, and each byte decodes back to DCA/mute-group, on/off and group |
| Commands.AssignCommands | src/main.ts:409-451 | one 9-byte buffer per selected group, in order |
| Commands.BuildAssignCommands | src/main.ts:409-451 | the loop builds exactly `AssignCommands` |
| Commands.AssignMessages | src/main.ts:431-448 | each assign buffer is the NRPN write of parameter 0x40 with value group + offset |
| Commands.AssignConcat | src/main.ts:431-448 | assigning two group lists equals assigning each and concatenating the buffers |
| Commands.MuteGroupOnIsNotMidi | src/main.ts:422-424 | an ON assignment of mute-group code 0x46 or above yields a buffer that does not parse as MIDI |
| Commands.AssignStatusValueIsNotMidi | src/main.ts:431-448 | when a group code plus its offset is 0x80–0xFF, the value byte is a status byte and the assign buffer does not parse as MIDI |
| Commands.IndexedAssignMessages | src/main.ts:409-451 | with 0-based group indices, the buffer of any of the first 16 groups parses as the 0x40 NRPN write whose value decodes back to the kind of group, the state and the group number |
| Encoder.AssignAll | src/main.ts:431-448 | when every group code plus its offset is a data byte, every assign buffer parses as the 0x40 NRPN write of that value, in the caller's order |
| Commands.SceneCommand | src/main.ts:453-458 | a result exists exactly when the index is inside the scene table, and is one 5-byte buffer |
| Commands.SceneRecallMessages | src/main.ts:453-458 | recalling dropdown index k sends bank select with the bank of scene k+1, then program change k mod 128 |
| Commands.NameCodes | src/main.ts:482-489 | at most one code per character; `NameCodesLength` and `NameCodesFromTable` give the count and the values |
| Commands.NameCodesConcat | src/main.ts:482-489 | name translation distributes over concatenation |
| Commands.NameCodesLength | src/main.ts:482-489 | there is exactly one code per character position found in the table, so the name buffer is 12 + that count bytes long; a fully mapped name keeps its length and an unmapped one sends no codes |
| Commands.NameCodesFromTable | src/main.ts:482-489 | every code sent comes from the name table |
| Commands.BuildChannelNameCommand | src/main.ts:477-493 | the character loop builds exactly `ChannelNameCommand` |
| Commands.ChannelNameCommand | src/main.ts:477-493 | one buffer of 12 bytes plus one per translated character; `ChannelNameMessages` gives its meaning |
| Commands.ChannelNameMessages | src/main.ts:477-493 | the name buffer parses as one Avantis SysEx `0N 03 CH` followed by the translated characters |
| Commands.ColorCommand | src/main.ts:495-498 | one 13-byte buffer; `ColorMessages` gives its meaning |
| Commands.ColorMessages | src/main.ts:495-498 | the colour buffer parses as one Avantis SysEx `0N 06 CH COL` |
| Commands.SendLevelCommand | src/main.ts:500-514 | one 15-byte buffer; `SendLevelMessages` gives its meaning |
| Commands.SendLevelMessages | src/main.ts:500-514 | the send-level buffer parses as one Avantis SysEx `0N 0D CH SndN SndCH LV` with the source and destination nibbles |
| Commands.AdjacentIncreasingIsSorted | src/main.ts:517-538 | a sequence that increases at every step increases between any two positions |
| Commands.ReversedLevelMapOrdered | src/main.ts:517-538 | after reversal the 20-step level table runs from −inf (0x00) to 0 dB (0x6B) with strictly increasing codes, all data bytes |
| Commands.SendLevelNumberCommand | src/main.ts:516-558 | a result exists exactly when the level index is 0–19 |
| Commands.SendLevelNumberMessages | src/main.ts:516-558 | for every index 0–19 the buffer parses as the send-level SysEx carrying that table row's code |
| Encoder.Dispatch | src/main.ts:247-367 | every known action id gets a section 0–4; send levels come from section 0 to destination 2–4; scene, main assign, name and colour use section 0; assigns use section 4 |
| Encoder.RevisionsDispatchAlike | index.js:202-314 | the legacy switch routes every shared action id the same way and lacks only `send_input_to` and `send_input_to_mono_aux_number` |
| Encoder.Build | src/main.ts:247-367 | a route fails exactly when its scene index or level index reads outside its table, under either group coding |
| Encoder.Encode | src/main.ts:239-367 | an unknown id yields no buffers; a known id fails exactly when its lookup reads outside its table |
| Encoder.CurrentOffsetsAreChannels | src/main.ts:245 | with a configured base 1–12 every route's status nibble, and every send destination nibble, is a MIDI channel 0–15 |
| Encoder.BuildMeansMessages | src/main.ts:385-558 | every route's buffers parse to exactly the messages its template means |
| Encoder.EncodeMeansMessages | src/main.ts:239-367 | for the current revision, either group coding and any base 1–12, each action fails exactly when a lookup is undefined, and otherwise its buffers parse to the intended messages on the intended channel |
| Encoder.IndexedAssignSelectsGroups | src/main.ts:305-311 | with the corrected coding, a DCA or mute-group assign of any of the first 16 groups sends one buffer per selected group, in order, each the 0x40 NRPN write on section 4 whose value decodes to that group, its kind and the requested state |
| Encoder.ChoiceIdsMuteGroupOnIsNotMidi | src/main.ts:309-311 | as written, `mute_group_assign` ON of any mute-group id sends a buffer that does not parse as MIDI |
| Encoder.ChoiceIdsMuteGroupOffReadsAsOn | src/main.ts:425-446 | as written, mute group 1 (id 0x46) assigned OFF sends the value 0x56, which decodes as mute group 7 assigned ON |
| Encoder.ChoiceIdsDca11OnIsNotMidi | src/main.ts:305-307 | as written, `dca_assign` ON of DCA 11 (id 0x40) sends the value 0x80, so its one buffer does not parse as MIDI |
| Encoder.ChoiceIdsDca11OffReadsAsDca1On | src/main.ts:305-307 | as written, `dca_assign` OFF of DCA 11 (id 0x40) sends the value 0x40, which decodes as DCA 1 assigned ON |
| Encoder.LegacySendInputToSendsNothing | index.js:201-314 | the legacy switch sends nothing for `send_input_to`, which the legacy catalogue offers |
| Encoder.CurrentSendInputToSends | src/main.ts:361-362 | the current driver sends `send_input_to` as one send-level SysEx from the input section to section 4 |
| Encoder.LegacyBase12MuteIsPolyPressure | index.js:199 | with the legacy raw base 12, `mute_dca` sends 0xA0 + 0 and parses as two Poly Pressure messages, not Note On |
| Encoder.LegacyOffsetsAreChannelsBelow12 | index.js:199 | legacy bases 0–11 keep every route's nibble a MIDI channel, and base 12 with section 4 does not |
| Driver.ModuleInstance.SetupSceneSelection | src/main.ts:195-230 | the instance's scene table is rebuilt in place as `SceneTable(sceneCount)` |
| Driver.ModuleInstance.Action | src/main.ts:239-383 | the outcome is `Encode` of the instance's state (assign and name buffers built by their loops), and the socket log grows by exactly those buffers, in order, when the socket is open and the action succeeds, and otherwise not at all |
| Driver.RecallScene129 | src/main.ts:453-458 | on base channel 1, recalling the 129th scene writes exactly `B0 00 01 C0 00` |
| Choices.BuildChoices | dist/actions.js:15-25 | the loop builds `ChoiceList`: max(0, qty) entries, entry k labelled `key k+1` with id k+1+ofs |
| Choices.ChoiceIds | actions.js:18-28 | choice ids are ofs+1 … ofs+qty, strictly increasing, each tagged with the offset |
| Choices.ChoiceIndexRoundTrip | actions.js:18-28 | id − offset − 1 recovers an entry's position |
| Choices.DefaultIsFirstChoice | actions.js:87 | the option default `1 + offset` is the first choice's id |
| Choices.SectionIdRange | dist/actions.js:29-42 | ids start at 0 for inputs, scenes and mono sections, 0x36 for DCAs, 0x46 for mute groups, 0x30 for mains, 0x40 for stereo groups, auxes and matrices, 0x10 for stereo FX sends and 0x20 for FX returns |
| Choices.SceneChoiceSelectsOrdinal | dist/actions.js:30 | scene choice `SCENE n` has id n−1, which indexes the scene table entry of ordinal n |
| Choices.BuildFaderChoices | dist/actions.js:43-52 | the loop yields one `<dB> dB` entry per fader row, in table order, with the row's code as id |
| Choices.FaderChoiceSendsCode | actions.js:49-58 | selecting fader row k sends row k's code as the fader NRPN value |
| Choices.MuteGroupChoiceAssignOnIsNotMidi | actions.js:37 | every mute-group dropdown id (from 0x46) assigned ON produces a buffer that does not parse as MIDI |
| Choices.GroupChoiceIndexedAssignIsMidi | dist/actions.js:31-32 | converting DCA or mute-group choice ids back to group indices makes every assignment of the first 16 groups a valid NRPN write |
| Choices.ColorChoices | dist/actions.js:53-66 | eight colours Off … White with ids 0–7 in order; the default is Off |
| Choices.LevelIntWithinTable | dist/actions.js:184-191 | every value the numeric level option admits (0–19) indexes the level table, so the command exists |
| Dump.DigitRoundTrip | index.js:490 | each lowercase hexadecimal digit reads back as its nibble |
| Dump.SpacedHexIsGroups | index.js:488-500 | the spaced hex of a buffer is its two-digit groups separated by single spaces (3n−1 characters) |
| Dump.GroupsReadBack | index.js:488-500 | a dump line reads back to the buffer it came from |
| Dump.SpacedHexIsLine | index.js:488-500 | the spaced hex of a buffer is its dump line: its digit groups, which read back to the buffer |
| Dump.DumpData | index.js:479-505 | the nested loops give one line per buffer, in order, each equal to the buffer's spaced hex and reading back to it |

## Left out

- TCP connection lifecycle (`init_tcp`, status events, `destroy`) is left out. The socket is
  a flag (`socketOpen`) and an append-only log (`written`) of the buffers it was given.
- Logging and `console.log` are left out. The current revision's `dumpData` only logs, so
  `Driver.ModuleInstance.Action` does not call the dump. The legacy dump's formatting is
  modelled in `Dump`, but the logging itself is not.
- `validateResponseData`, configuration fields, feedbacks, variables and the host framework's
  registration of actions and option descriptors are outside the encoder.
- The JSON tables are abstract. The fader table is a sequence of (label, code) rows whose
  hexadecimal codes are already parsed. The name table is a map from characters to codes.
  The table values are hexadecimal strings, and `if (value)` skips only an empty string or a
  missing key; "0" and "00" are non-empty, so such a character is sent as 0x00. The map
  therefore holds exactly the characters whose table value is a non-empty string, with the
  parsed code. The table contents are parameters, not constants.
- `parseInt` of option strings is left out. Options are integers as the dropdowns deliver
  them, and the text→number coercion (including `NaN`) is not modelled.
- The fader step pseudo-values (increment or decrement by 1 dB) appear in no modelled source
  file. They are not modelled.
- `Choices.BuildChoices` uses decimal labels only for non-negative numbers, which is all the
  loop produces.
- `Commands.ChannelNameCommand`: the name is always a string. `channelName` has no default
  (dist/actions.js:278-283), so an unset name makes `opt.channelName.length` throw
  (src/main.ts:482); the model does not capture that throw. The loop indexes UTF-16 code
  units, while a Dafny string holds Unicode scalar values, so a character outside the Basic
  Multilingual Plane is one table lookup here and two (one per surrogate) in the code.
- The multi-select `srcChannel` option (dist/actions.js:130-137) is modelled as the single
  number that the builder reads (src/main.ts:507).

## Findings

| source | as written | input that shows it | evidently intended | confidence | as-written member | corrected member |
|---|---|---|---|---|---|---|
| index.js:199 | the legacy driver uses the configured base channel (0–12) as the status nibble, so base 12 plus section 4 gives 0x90 + 16 = 0xA0 | base 12, action `mute_dca`: the buffer is `A0 CH 7F A0 CH 00`, which is Poly Pressure | subtract 1 from a 1–12 base so that every section lands on channels 0–15, as src/main.ts:245 does | not executed | Encoder.LegacyBase12MuteIsPolyPressure | Encoder.EncodeMeansMessages |
| src/main.ts:431-446 | the assign builder adds its offset to the dropdown id, which already carries the choice offset (DCA 0x36…, mute group 0x46…) | mute group 1 (id 0x46) assigned ON: the value byte is 0x96, a status byte, so the buffer is not MIDI | add the offset to the 0-based group index (id − choice offset − 1) | not executed | Encoder.ChoiceIdsMuteGroupOnIsNotMidi | Encoder.IndexedAssignSelectsGroups |
| src/main.ts:425-446 | the mute-group OFF offset 0x10 is added to the dropdown id | mute group 1 (id 0x46) assigned OFF: the value is 0x56, which the offset policy reads as mute group 7 ON | add the offset to the 0-based group index, so that OFF values stay in 0x10–0x1F | not executed | Encoder.ChoiceIdsMuteGroupOffReadsAsOn | Encoder.IndexedAssignSelectsGroups |
| src/main.ts:414-446 | the DCA offsets 0x40 (ON) and 0 (OFF) are added to the dropdown id, which starts at 0x36 | DCA 11 (id 0x40) assigned ON: the value is 0x80, a status byte, so the buffer is not MIDI; assigned OFF: the value is 0x40, which reads as DCA 1 ON | add the offset to the 0-based group index, so that DCA values stay in 0x00–0x4F | not executed | Encoder.ChoiceIdsDca11OnIsNotMidi | Encoder.IndexedAssignSelectsGroups |
| index.js:201-314 | the legacy switch has no case for `send_input_to`, although the legacy catalogue offers it (actions.js:340) | action `send_input_to` with any options: no buffer is sent | send it like the other send levels, as src/main.ts:361-362 does | not executed | Encoder.LegacySendInputToSendsNothing | Encoder.CurrentSendInputToSends |
