/**
 * The legacy revision's debug dump: every command buffer rendered as lowercase hexadecimal,
 * a space after every two digits, collected with the options and MIDI base that produced them.
 */
module Dump {
  import opened Midi
  import opened Encoder

  /** The lowercase hexadecimal digit of a nibble. */
  function HexDigit(d: int): (c: char)
    requires 0 <= d < 16
    ensures '0' <= c <= '9' || 'a' <= c <= 'f'
  {
    if d < 10 then ('0' as int + d) as char else ('a' as int + d - 10) as char
  }

  /** The nibble a hexadecimal digit stands for (the inverse of HexDigit). */
  function DigitValue(c: char): (d: int)
    ensures '0' <= c <= '9' ==> d == c as int - '0' as int
  {
    if '0' <= c <= '9' then c as int - '0' as int else c as int - 'a' as int + 10
  }

  lemma DigitRoundTrip(d: int)
    requires 0 <= d < 16
    ensures DigitValue(HexDigit(d)) == d
  {
  }

  /** Two digits per byte, high nibble first. */
  function HexByte(b: Byte): (s: string)
    ensures |s| == 2
  {
    [HexDigit(b / 16), HexDigit(b % 16)]
  }

  /** Buffer.toString('hex'). */
  function Hex(b: Buffer): (s: string)
    ensures |s| == 2 * |b|
  {
    if b == [] then [] else Hex(b[..|b| - 1]) + HexByte(b[|b| - 1])
  }

  /** The spacing the dump loop applies: a space before every character at a non-zero even position. */
  function Spaced(s: string): string
  {
    if s == [] then []
    else Spaced(s[..|s| - 1]) + (if |s| - 1 > 0 && (|s| - 1) % 2 == 0 then " " else "") + [s[|s| - 1]]
  }

  /** One more character: a space first when it sits at a non-zero even position. */
  lemma SpacedStep(s: string, i: int)
    requires 0 <= i < |s|
    ensures Spaced(s[..i + 1]) == Spaced(s[..i]) + (if i > 0 && i % 2 == 0 then " " else "") + [s[i]]
  {
    assert s[..i + 1][..i] == s[..i];
  }

  /** Reference layout: the bytes' two-digit groups separated by single spaces. */
  function Groups(b: Buffer): (s: string)
    ensures b != [] ==> |s| == 3 * |b| - 1
    ensures b == [] ==> s == []
  {
    if b == [] then []
    else if |b| == 1 then HexByte(b[0])
    else Groups(b[..|b| - 1]) + " " + HexByte(b[|b| - 1])
  }

  /** Reading a dump line back: the value of each space-separated digit pair. */
  function ReadGroups(s: string): seq<int>
    decreases |s|
  {
    if |s| < 2 then []
    else if |s| == 2 then [DigitValue(s[0]) * 16 + DigitValue(s[1])]
    else ReadGroups(s[..|s| - 3]) + [DigitValue(s[|s| - 2]) * 16 + DigitValue(s[|s| - 1])]
  }

  /** Two more digits after an even-length prefix: a space first unless the prefix is empty. */
  lemma SpacedPair(h: string, d: string)
    requires |h| % 2 == 0 && |d| == 2
    ensures Spaced(h + d) == Spaced(h) + (if h != [] then " " else "") + d
  {
    var t := h + d;
    assert t[..|h| + 2] == t && t[..|h|] == h;
    SpacedStep(t, |h|);
    SpacedStep(t, |h| + 1);
  }

  /** The spaced hexadecimal of a buffer is exactly its two-digit groups separated by single spaces. */
  lemma {:induction false} SpacedHexIsGroups(b: Buffer)
    ensures Spaced(Hex(b)) == Groups(b)
  {
    if b != [] {
      var p := b[..|b| - 1];
      var d := HexByte(b[|b| - 1]);
      SpacedPair(Hex(p), d);
      SpacedHexIsGroups(p);
    }
  }

  /** A dump line reads back to the buffer it was made from. */
  lemma {:induction false} GroupsReadBack(b: Buffer)
    ensures ReadGroups(Groups(b)) == b
  {
    if |b| == 1 {
      DigitRoundTrip(b[0] / 16);
      DigitRoundTrip(b[0] % 16);
    } else if |b| > 1 {
      var p := b[..|b| - 1];
      var g := Groups(b);
      assert g == Groups(p) + " " + HexByte(b[|b| - 1]);
      assert g[..|g| - 3] == Groups(p);
      assert g[|g| - 2] == HexDigit(b[|b| - 1] / 16);
      assert g[|g| - 1] == HexDigit(b[|b| - 1] % 16);
      DigitRoundTrip(b[|b| - 1] / 16);
      DigitRoundTrip(b[|b| - 1] % 16);
      GroupsReadBack(p);
      assert b == p + [b[|b| - 1]];
    }
  }

  /** A dump line for buffer b: its two-digit groups, which read back to b. */
  predicate LineOf(line: string, b: Buffer)
  {
    line == Groups(b) && ReadGroups(line) == b
  }

  /** The spaced hexadecimal of a buffer is that buffer's dump line. */
  lemma SpacedHexIsLine(b: Buffer)
    ensures LineOf(Spaced(Hex(b)), b)
  {
    SpacedHexIsGroups(b);
    GroupsReadBack(b);
  }

  /** What the dump logs: the action's options, the MIDI base and one line per buffer. */
  datatype DumpRecord = DumpRecord(options: Options, midiBase: int, lines: seq<string>)

  /** The dump's nested loops: for each buffer, copy its hexadecimal, inserting a space whenever two digits have gone by. */
  method DumpData(opt: Options, midiBase: int, bufferCommands: seq<Buffer>) returns (result: DumpRecord)
    ensures result.options == opt && result.midiBase == midiBase
    ensures |result.lines| == |bufferCommands|
    ensures forall x :: 0 <= x < |bufferCommands| ==> LineOf(result.lines[x], bufferCommands[x])
  {
    var lines: seq<string> := [];
    var x := 0;
    while x < |bufferCommands|
      invariant 0 <= x <= |bufferCommands|
      invariant |lines| == x
      invariant forall y :: 0 <= y < x ==> LineOf(lines[y], bufferCommands[y])
    {
      var val := 0;
      var bufferValue := "";
      var buffer := Hex(bufferCommands[x]);
      var i := 0;
      while i < |buffer|
        invariant 0 <= i <= |buffer|
        invariant bufferValue == Spaced(buffer[..i])
        invariant val == if i == 0 then 0 else if i % 2 == 0 then 2 else 1
      {
        SpacedStep(buffer, i);
        if val == 2 {
          bufferValue := bufferValue + " ";
          val := 0;
        }
        bufferValue := bufferValue + [buffer[i]];
        val := val + 1;
        i := i + 1;
      }
      assert buffer[..i] == buffer;
      SpacedHexIsLine(bufferCommands[x]);
      lines := lines + [bufferValue];
      x := x + 1;
    }
    result := DumpRecord(opt, midiBase, lines);
  }
}
