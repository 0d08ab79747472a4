/**
 The Server-Sent Events frame format as the upstream decoder reads it, and the
 frame printer of the translator.

 `Frames` is the specification of the decoder: one pass over the lines with one
 pending frame. `BlockFrames` is an independent reading of the same text, by
 splitting it at blank lines; `FramesAreBlocks` connects the two.

 Where the code departs from section 9.2.6 of the WHATWG HTML Living Standard the
 code is followed: several data lines are joined without a line feed, a frame left
 pending at the end of the input is delivered, and only a line feed ends a line
 (carriage returns before it are trimmed).
 */
module Sse {
  import opened Text

  datatype Frame = Frame(event: string, data: string)

  const EMPTY := Frame("", "")

  /** A frame worth delivering: some field has been set to a non-empty value. */
  predicate Pending(fr: Frame) {
    fr.event != "" || fr.data != ""
  }

  // ----- Lines -----

  /** Length of the first line, its line feed included. */
  function LineEnd(s: string): (n: nat)
    requires s != ""
    ensures 1 <= n <= |s|
    ensures forall k :: 0 <= k < n - 1 ==> s[k] != '\n'
    ensures n < |s| ==> s[n - 1] == '\n'
  {
    if s[0] == '\n' || |s| == 1 then 1 else 1 + LineEnd(s[1..])
  }

  predicate EndsInLf(s: string) {
    s != "" && s[|s| - 1] == '\n'
  }

  /** The position right after `s` starts a line. */
  predicate AtLineStart(s: string) {
    s == "" || EndsInLf(s)
  }

  /** Removes every trailing carriage return and line feed. */
  function TrimEol(line: string): string {
    if line != "" && line[|line| - 1] in {'\r', '\n'} then TrimEol(line[..|line| - 1]) else line
  }

  /** The lines of a text, trimmed; a last line without line feed counts. */
  function Lines(s: string): seq<string>
    decreases |s|
  {
    if s == "" then [] else [TrimEol(s[..LineEnd(s)])] + Lines(s[LineEnd(s)..])
  }

  // ----- Frames -----

  predicate IsEventLine(line: string) {
    "event:" <= line
  }

  predicate IsDataLine(line: string) {
    "data:" <= line
  }

  function EventValue(line: string): string
    requires IsEventLine(line)
  {
    TrimSpace(line[6..])
  }

  /** The value of a data line: one leading space, if any, is dropped. */
  function DataValue(line: string): string
    requires IsDataLine(line)
  {
    var rest := line[5..];
    if " " <= rest then rest[1..] else rest
  }

  /** One non-blank line: only `event:` and `data:` lines leave a trace. */
  function Feed(fr: Frame, line: string): Frame {
    if IsEventLine(line) then fr.(event := EventValue(line))
    else if IsDataLine(line) then fr.(data := fr.data + DataValue(line))
    else fr
  }

  function Flush(fr: Frame): seq<Frame> {
    if Pending(fr) then [fr] else []
  }

  /** The frames still to be delivered with `fr` accumulated and `lines` unread. */
  function FramesFrom(fr: Frame, lines: seq<string>): seq<Frame>
    decreases |lines|
  {
    if lines == [] then Flush(fr)
    else if lines[0] == "" then Flush(fr) + FramesFrom(EMPTY, lines[1..])
    else FramesFrom(Feed(fr, lines[0]), lines[1..])
  }

  /** One line of the pass: what it delivers and what it leaves pending. */
  lemma FramesFromCons(fr: Frame, line: string, lines: seq<string>)
    ensures FramesFrom(fr, [line] + lines) ==
            if line != "" then FramesFrom(Feed(fr, line), lines) else Flush(fr) + FramesFrom(EMPTY, lines)
  {
    assert ([line] + lines)[1..] == lines;
  }

  /** All the frames of a text. */
  function Frames(s: string): seq<Frame> {
    FramesFrom(EMPTY, Lines(s))
  }

  // ----- An independent reading: blank lines separate blocks -----

  function FirstBlank(lines: seq<string>): (k: nat)
    ensures k <= |lines|
    ensures "" !in lines[..k]
    ensures k < |lines| ==> lines[k] == ""
  {
    if lines == [] || lines[0] == "" then 0
    else
      var k := FirstBlank(lines[1..]);
      assert lines[..1 + k] == [lines[0]] + lines[1..][..k];
      1 + k
  }

  function Blocks(lines: seq<string>): seq<seq<string>>
    decreases |lines|
  {
    var k := FirstBlank(lines);
    if k == |lines| then [lines] else [lines[..k]] + Blocks(lines[k + 1..])
  }

  /** The last event line of a block decides its event name. */
  function BlockEvent(block: seq<string>): string {
    if block == [] then ""
    else
      var n := |block| - 1;
      if IsEventLine(block[n]) then EventValue(block[n]) else BlockEvent(block[..n])
  }

  /** The data of a block is its data lines joined with nothing in between. */
  function BlockData(block: seq<string>): string {
    if block == [] then ""
    else
      var n := |block| - 1;
      BlockData(block[..n]) + if IsDataLine(block[n]) then DataValue(block[n]) else ""
  }

  function BlockFrame(block: seq<string>): Frame {
    Frame(BlockEvent(block), BlockData(block))
  }

  /** One frame for every block that has a non-empty event name or data. */
  function BlockFrames(blocks: seq<seq<string>>): seq<Frame> {
    if blocks == [] then [] else Flush(BlockFrame(blocks[0])) + BlockFrames(blocks[1..])
  }

  lemma BlockFrameSnoc(block: seq<string>, line: string)
    ensures BlockFrame(block + [line]) == Feed(BlockFrame(block), line)
  {
    var more := block + [line];
    assert more[..|more| - 1] == block && more[|more| - 1] == line;
    if IsEventLine(line) {
      assert line[0] == 'e';
      assert !IsDataLine(line);
    }
  }

  lemma {:induction false} FeedBlock(done: seq<string>, block: seq<string>, tail: seq<string>)
    requires "" !in block
    ensures FramesFrom(BlockFrame(done), block + tail) == FramesFrom(BlockFrame(done + block), tail)
    decreases |block|
  {
    hide FramesFrom, BlockFrame, Feed;
    if block == [] {
      assert block + tail == tail && done + block == done;
    } else {
      var line, rest := block[0], block[1..];
      assert line in block;
      assert block + tail == [line] + (rest + tail) && done + block == done + [line] + rest;
      FramesFromCons(BlockFrame(done), line, rest + tail);
      BlockFrameSnoc(done, line);
      FeedBlock(done + [line], rest, tail);
    }
  }

  lemma {:induction false} FramesFromBlocks(lines: seq<string>)
    ensures FramesFrom(EMPTY, lines) == BlockFrames(Blocks(lines))
    decreases |lines|
  {
    var k := FirstBlank(lines);
    assert Blocks(lines) == if k == |lines| then [lines] + [] else [lines[..k]] + Blocks(lines[k + 1..]);
    assert BlockFrame([]) == EMPTY && BlockFrames([]) == [];
    assert FramesFrom(BlockFrame(lines[..k]), []) == Flush(BlockFrame(lines[..k]));
    hide FramesFrom, BlockFrames, Blocks, BlockFrame, FirstBlank, Flush;
    var block, tail := lines[..k], lines[k..];
    assert lines == block + tail && [] + block == block;
    FeedBlock([], block, tail);
    if k < |lines| {
      assert tail == [""] + lines[k + 1..];
      FramesFromCons(BlockFrame(block), "", lines[k + 1..]);
      FramesFromBlocks(lines[k + 1..]);
      BlockFramesCons(block, Blocks(lines[k + 1..]));
    } else {
      assert block == lines && tail == [];
      BlockFramesCons(lines, []);
    }
  }

  lemma BlockFramesCons(block: seq<string>, blocks: seq<seq<string>>)
    ensures BlockFrames([block] + blocks) == Flush(BlockFrame(block)) + BlockFrames(blocks)
  {
    assert ([block] + blocks)[1..] == blocks;
  }

  /** The one-pass decoder delivers exactly the non-empty blocks between blank lines. */
  lemma FramesAreBlocks(s: string)
    ensures Frames(s) == BlockFrames(Blocks(Lines(s)))
  {
    FramesFromBlocks(Lines(s));
  }

  // ----- Composition -----

  lemma {:induction false} LineEndPrefix(a: string, b: string)
    requires EndsInLf(a)
    ensures LineEnd(a + b) == LineEnd(a)
  {
    if a[0] == '\n' || |a| == 1 {
    } else {
      assert (a + b)[1..] == a[1..] + b;
      LineEndPrefix(a[1..], b);
    }
  }

  lemma LinesUnroll(a: string, n: nat, b: string)
    requires EndsInLf(a) && n == LineEnd(a)
    ensures Lines(a + b) == [TrimEol(a[..n])] + Lines(a[n..] + b)
  {
    LineEndPrefix(a, b);
    assert (a + b)[..n] == a[..n];
    assert (a + b)[n..] == a[n..] + b;
  }

  lemma {:induction false} LinesConcat(a: string, b: string)
    requires AtLineStart(a)
    ensures Lines(a + b) == Lines(a) + Lines(b)
    decreases |a|
  {
    if a == "" {
      assert a + b == b;
    } else {
      var n := LineEnd(a);
      var tail := a[n..];
      LinesConcat(tail, b);
      LinesUnroll(a, n, b);
      assert Lines(a) == [TrimEol(a[..n])] + Lines(tail);
      Regroup([TrimEol(a[..n])], Lines(tail), Lines(b));
      hide *;
    }
  }

  lemma Regroup<T>(x: seq<T>, y: seq<T>, z: seq<T>)
    ensures x + (y + z) == x + y + z
  {
  }

  /** `s` is empty or ends in a terminated blank line. */
  predicate AtFrameBoundary(s: string) {
    s == "" || (EndsInLf(s) && Lines(s)[|Lines(s)| - 1] == "")
  }

  lemma {:induction false} FramesFromConcat(fr: Frame, a: seq<string>, b: seq<string>)
    requires a != [] && a[|a| - 1] == ""
    ensures FramesFrom(fr, a + b) == FramesFrom(fr, a) + FramesFrom(EMPTY, b)
    decreases |a|
  {
    assert (a + b)[1..] == a[1..] + b;
    if |a| == 1 {
      assert a[1..] + b == b;
    } else {
      FramesFromConcat(if a[0] == "" then EMPTY else Feed(fr, a[0]), a[1..], b);
    }
  }

  /** Decoding is compositional at every frame boundary. */
  lemma FramesConcat(a: string, b: string)
    requires AtFrameBoundary(a)
    ensures Frames(a + b) == Frames(a) + Frames(b)
  {
    LinesConcat(a, b);
    if a == "" {
      assert a + b == b;
    } else {
      FramesFromConcat(EMPTY, Lines(a), Lines(b));
    }
  }

  // ----- Carriage returns and ignored lines leave no trace -----

  /** Puts a carriage return before every line feed. */
  function CrLf(s: string): string {
    if s == "" then "" else (if s[0] == '\n' then "\r\n" else [s[0]]) + CrLf(s[1..])
  }

  lemma {:induction false} CrLfConcat(a: string, b: string)
    ensures CrLf(a + b) == CrLf(a) + CrLf(b)
  {
    if a == "" {
      assert a + b == b;
    } else {
      assert (a + b)[1..] == a[1..] + b;
      CrLfConcat(a[1..], b);
    }
  }

  lemma {:induction false} CrLfPlain(s: string)
    requires '\n' !in s
    ensures CrLf(s) == s
  {
    if s != "" {
      CrLfPlain(s[1..]);
    }
  }

  lemma {:induction false} LinesSingle(line: string)
    requires '\n' !in line
    ensures Lines(line + "\n") == [TrimEol(line)]
  {
    var s := line + "\n";
    assert LineEnd(s) == |s|;
    assert s[..|s|] == s && s[..|s| - 1] == line;
  }

  lemma LinesCons(line: string, rest: string)
    requires '\n' !in line
    ensures Lines(line + "\n" + rest) == [TrimEol(line)] + Lines(rest)
  {
    LinesConcat(line + "\n", rest);
    LinesSingle(line);
  }

  lemma CrLfCons(line: string, rest: string)
    requires '\n' !in line
    ensures CrLf(line + "\n" + rest) == line + "\r" + "\n" + CrLf(rest)
  {
    CrLfConcat(line + "\n", rest);
    CrLfConcat(line, "\n");
    CrLfPlain(line);
    assert CrLf("\n") == "\r\n" + CrLf("");
  }

  lemma {:induction false} LinesCrLf(s: string)
    ensures Lines(CrLf(s)) == Lines(s)
    decreases |s|
  {
    if s == "" {
    } else if s[LineEnd(s) - 1] == '\n' {
      var line, rest := s[..LineEnd(s) - 1], s[LineEnd(s)..];
      assert s == line + "\n" + rest;
      CrLfCons(line, rest);
      LinesCons(line, rest);
      LinesCons(line + "\r", CrLf(rest));
      assert (line + "\r")[..|line|] == line;
      LinesCrLf(rest);
    } else {
      CrLfPlain(s);
    }
  }

  /** A carriage return before every line feed changes no frame. */
  lemma FramesCrLf(s: string)
    ensures Frames(CrLf(s)) == Frames(s)
  {
    LinesCrLf(s);
  }

  /** A comment line or a line with an unknown field. */
  predicate Ignored(line: string) {
    line != "" && !IsEventLine(line) && !IsDataLine(line)
  }

  lemma {:induction false} FramesFromIgnored(fr: Frame, a: seq<string>, c: seq<string>, b: seq<string>)
    requires forall line :: line in c ==> Ignored(line)
    ensures FramesFrom(fr, a + c + b) == FramesFrom(fr, a + b)
    decreases |a| + |c|
  {
    if a != [] {
      assert (a + c + b)[1..] == a[1..] + c + b;
      assert (a + b)[1..] == a[1..] + b;
      FramesFromIgnored(if a[0] == "" then EMPTY else Feed(fr, a[0]), a[1..], c, b);
    } else if c != [] {
      assert c[0] in c;
      assert (a + c + b)[1..] == a + c[1..] + b;
      FramesFromIgnored(fr, a, c[1..], b);
    } else {
      assert a + c + b == a + b;
    }
  }

  lemma LinesOfThree(a: string, c: string, b: string)
    requires AtLineStart(a) && AtLineStart(c)
    ensures Lines(a + c + b) == Lines(a) + Lines(c) + Lines(b)
  {
    assert AtLineStart(a + c);
    hide Lines, AtLineStart;
    LinesConcat(a, c);
    LinesConcat(a + c, b);
  }

  /** Complete comment or unknown-field lines can be inserted between any two lines. */
  lemma FramesIgnoreLines(a: string, c: string, b: string)
    requires AtLineStart(a) && AtLineStart(c)
    requires forall line :: line in Lines(c) ==> Ignored(line)
    ensures Frames(a + c + b) == Frames(a + b)
  {
    hide Lines, FramesFrom, TrimEol, AtLineStart, Ignored;
    LinesOfThree(a, c, b);
    LinesConcat(a, b);
    FramesFromIgnored(EMPTY, Lines(a), Lines(c), Lines(b));
  }

  // ----- The printer -----

  /** A frame as the translator writes it: one data line and a blank line. */
  function DataFrame(payload: string): string {
    "data: " + payload + "\n\n"
  }

  const DONE := "[DONE]"

  function DoneFrame(): string {
    "data: [DONE]\n\n"
  }

  /** What a payload must look like to survive the line format. */
  predicate Printable(payload: string) {
    payload != "" && '\n' !in payload && '\r' !in payload
  }

  lemma DataLine(payload: string)
    requires Printable(payload)
    ensures var line := "data: " + payload;
            && '\n' !in line && TrimEol(line) == line && line != ""
            && !IsEventLine(line) && IsDataLine(line) && Feed(EMPTY, line) == Frame("", payload)
  {
    var line := "data: " + payload;
    assert line[|line| - 1] == payload[|payload| - 1];
    assert payload[|payload| - 1] in payload;
    assert line[0] == 'd' && line[..5] == "data:";
    assert line[5..] == " " + payload;
  }

  lemma FramesOfDataFrame(payload: string)
    requires Printable(payload)
    ensures Frames(DataFrame(payload)) == [Frame("", payload)]
    ensures AtFrameBoundary(DataFrame(payload))
  {
    DataLine(payload);
    hide TrimEol, FramesFrom, Feed;
    LinesOfTwo("data: " + payload);
    FramesOfTwo("data: " + payload);
  }

  lemma LinesOfTwo(line: string)
    requires '\n' !in line && TrimEol(line) == line
    ensures Lines(line + "\n\n") == [line, ""]
  {
    assert TrimEol("") == "" && Lines("") == [] && [""] + [] == [""] && [line] + [""] == [line, ""];
    assert line + "\n\n" == line + "\n" + ("" + "\n" + "");
    hide Lines, TrimEol;
    LinesCons(line, "" + "\n" + "");
    LinesCons("", "");
  }

  lemma FramesOfTwo(line: string)
    requires line != "" && Pending(Feed(EMPTY, line))
    ensures FramesFrom(EMPTY, [line, ""]) == [Feed(EMPTY, line)]
  {
    assert [line, ""][1..] == [""];
    assert [""][1..] == [];
    assert FramesFrom(EMPTY, []) == [];
  }

  function PrintAll(payloads: seq<string>): string {
    if payloads == [] then "" else DataFrame(payloads[0]) + PrintAll(payloads[1..])
  }

  lemma {:induction false} PrintAllAppend(a: seq<string>, b: seq<string>)
    ensures PrintAll(a + b) == PrintAll(a) + PrintAll(b)
  {
    if a == [] {
      assert a + b == b;
    } else {
      assert (a + b)[1..] == a[1..] + b;
      PrintAllAppend(a[1..], b);
    }
  }

  function Unnamed(payloads: seq<string>): seq<Frame> {
    if payloads == [] then [] else [Frame("", payloads[0])] + Unnamed(payloads[1..])
  }

  lemma PrintAllCons(payloads: seq<string>, rest: string)
    requires payloads != []
    ensures PrintAll(payloads) + rest == DataFrame(payloads[0]) + (PrintAll(payloads[1..]) + rest)
  {
    hide DataFrame;
  }

  /** Printing then reading gives back exactly the payloads, in order, whatever follows. */
  lemma {:induction false} PrintThenRead(payloads: seq<string>, rest: string)
    requires forall p :: p in payloads ==> Printable(p)
    ensures Frames(PrintAll(payloads) + rest) == Unnamed(payloads) + Frames(rest)
  {
    if payloads == [] {
      assert PrintAll(payloads) + rest == rest;
    } else {
      var first, more := payloads[0], payloads[1..];
      assert first in payloads && forall p :: p in more ==> p in payloads;
      assert Unnamed(payloads) == [Frame("", first)] + Unnamed(more);
      hide Frames, AtFrameBoundary, PrintAll, DataFrame, Unnamed, Printable;
      FramesOfDataFrame(first);
      PrintThenRead(more, rest);
      PrintAllCons(payloads, rest);
      FramesConcat(DataFrame(first), PrintAll(more) + rest);
      Regroup([Frame("", first)], Unnamed(more), Frames(rest));
    }
  }

  // ----- Every way of writing a frame -----

  /** A line of a frame; `tight` leaves out the space after the colon. */
  datatype FieldLine =
    | EventField(name: string, tight: bool)
    | DataField(piece: string, tight: bool)
    | OtherField(text: string)

  function Gap(tight: bool): string {
    if tight then "" else " "
  }

  function TextOfField(f: FieldLine): string {
    match f
    case EventField(name, tight) => "event:" + Gap(tight) + name
    case DataField(piece, tight) => "data:" + Gap(tight) + piece
    case OtherField(text) => text
  }

  /** A name that survives trimming. */
  predicate PlainName(name: string) {
    name != "" && '\n' !in name && !IsSpace(name[0]) && !IsSpace(name[|name| - 1])
  }

  /** What a line may hold so that it stays what it was: only a space after the space may start a piece of data. */
  predicate GoodField(f: FieldLine) {
    match f
    case EventField(name, _) => PlainName(name)
    case DataField(piece, tight) =>
      '\n' !in piece && (piece != "" ==> piece[|piece| - 1] != '\r' && (tight ==> piece[0] != ' '))
    case OtherField(text) => '\n' !in text && Ignored(text) && text[|text| - 1] != '\r'
  }

  predicate GoodFields(fs: seq<FieldLine>) {
    forall k :: 0 <= k < |fs| ==> GoodField(fs[k])
  }

  function PrintFields(fs: seq<FieldLine>): string {
    if fs == [] then "" else TextOfField(fs[0]) + "\n" + PrintFields(fs[1..])
  }

  /** The frame that has read the fields: the last event name counts, and all data. */
  function WithFields(fr: Frame, fs: seq<FieldLine>): Frame
    decreases |fs|
  {
    if fs == [] then fr
    else
      WithFields(match fs[0]
                 case EventField(name, _) => Frame(name, fr.data)
                 case DataField(piece, _) => Frame(fr.event, fr.data + piece)
                 case OtherField(_) => fr, fs[1..])
  }

  lemma EventFieldFeeds(fr: Frame, name: string, tight: bool)
    requires PlainName(name)
    ensures var line := "event:" + Gap(tight) + name;
      && '\n' !in line && TrimEol(line) == line && line != "" && Feed(fr, line) == Frame(name, fr.data)
  {
    var line := "event:" + Gap(tight) + name;
    assert line[|line| - 1] == name[|name| - 1];
    assert line[..6] == "event:" && line[6..] == Gap(tight) + name;
    assert TrimSpace(name) == name;
    if !tight {
      assert (" " + name)[1..] == name && (" " + name)[0] == ' ';
      assert TrimSpace(" " + name) == TrimSpace((" " + name)[1..]);
    } else {
      assert "" + name == name;
    }
  }

  lemma DataLineRead(piece: string, tight: bool)
    requires piece != "" && tight ==> piece[0] != ' '
    ensures var line := "data:" + Gap(tight) + piece;
            !IsEventLine(line) && IsDataLine(line) && DataValue(line) == piece
  {
    var line := "data:" + Gap(tight) + piece;
    assert line[0] == 'd' && line[..5] == "data:" && line[5..] == Gap(tight) + piece;
    if tight {
      assert "" + piece == piece;
    } else {
      assert (" " + piece)[1..] == piece && " " <= " " + piece;
    }
  }

  lemma DataFieldFeeds(fr: Frame, piece: string, tight: bool)
    requires GoodField(DataField(piece, tight))
    ensures var line := "data:" + Gap(tight) + piece;
      && '\n' !in line && TrimEol(line) == line && line != "" && Feed(fr, line) == Frame(fr.event, fr.data + piece)
  {
    DataLineRead(piece, tight);
    hide IsDataLine, IsEventLine, DataValue, EventValue;
    var line := "data:" + Gap(tight) + piece;
    assert piece != "" ==> line[|line| - 1] == piece[|piece| - 1];
    assert line[|line| - 1] !in {'\r', '\n'};
  }

  lemma FieldFeeds(fr: Frame, f: FieldLine)
    requires GoodField(f)
    ensures var line := TextOfField(f);
      && '\n' !in line && TrimEol(line) == line && line != ""
      && Feed(fr, line) == WithFields(fr, [f])
  {
    assert forall x :: WithFields(x, []) == x;
    assert [f][1..] == [];
    match f {
      case EventField(name, tight) => EventFieldFeeds(fr, name, tight);
      case DataField(piece, tight) => DataFieldFeeds(fr, piece, tight);
      case OtherField(text) =>
    }
  }

  lemma WithFieldsCons(fr: Frame, fs: seq<FieldLine>)
    requires fs != []
    ensures WithFields(fr, fs) == WithFields(WithFields(fr, [fs[0]]), fs[1..])
  {
    assert [fs[0]][1..] == [] && forall x :: WithFields(x, []) == x;
  }

  function Texts(fs: seq<FieldLine>): seq<string> {
    seq(|fs|, k requires 0 <= k < |fs| => TextOfField(fs[k]))
  }

  lemma {:induction false} LinesOfFields(fs: seq<FieldLine>, rest: string)
    requires GoodFields(fs)
    ensures Lines(PrintFields(fs) + rest) == Texts(fs) + Lines(rest)
    decreases |fs|
  {
    if fs == [] {
      assert "" + rest == rest && [] + Lines(rest) == Lines(rest);
    } else {
      var line, more := TextOfField(fs[0]), PrintFields(fs[1..]);
      FieldFeeds(EMPTY, fs[0]);
      assert PrintFields(fs) + rest == line + "\n" + (more + rest);
      assert Texts(fs) == [line] + Texts(fs[1..]);
      hide Lines, TrimEol, Feed, WithFields, PrintFields, TextOfField, GoodField, Texts;
      LinesCons(line, more + rest);
      LinesOfFields(fs[1..], rest);
      Regroup([line], Texts(fs[1..]), Lines(rest));
    }
  }

  lemma {:induction false} FramesFromFields(fr: Frame, fs: seq<FieldLine>, lines: seq<string>)
    requires GoodFields(fs)
    ensures FramesFrom(fr, Texts(fs) + lines) == FramesFrom(WithFields(fr, fs), lines)
    decreases |fs|
  {
    if fs == [] {
      assert Texts(fs) + lines == lines;
    } else {
      var line, more := TextOfField(fs[0]), Texts(fs[1..]) + lines;
      FieldFeeds(fr, fs[0]);
      WithFieldsCons(fr, fs);
      assert Texts(fs) + lines == [line] + more;
      hide FramesFrom, WithFields, Feed, TextOfField, GoodField, TrimEol, Texts;
      FramesFromCons(fr, line, more);
      FramesFromFields(WithFields(fr, [fs[0]]), fs[1..], lines);
    }
  }

  /** The frame delivered for some fields: none if neither a name nor data is left. */
  function Delivered(fs: seq<FieldLine>): seq<Frame> {
    var fr := WithFields(Frame("", ""), fs);
    if fr.event == "" && fr.data == "" then [] else [fr]
  }

  /**
   However a frame is written, with a space after the colons or without, its data on one
   line or on many, several event names, comments anywhere: closed by a blank line, or by
   the end of the input, it reads back as its last name and all its data.
   */
  lemma FramesOfFields(fs: seq<FieldLine>, rest: string)
    requires GoodFields(fs)
    ensures Frames(PrintFields(fs) + ("\n" + rest)) == Delivered(fs) + Frames(rest)
    ensures Frames(PrintFields(fs)) == Delivered(fs)
  {
    assert TrimEol("") == "" && Lines("") == [] && "" + "\n" + rest == "\n" + rest;
    assert forall x :: FramesFrom(x, []) == Flush(x);
    hide Lines, FramesFrom, WithFields, TrimEol, PrintFields, GoodFields, Texts;
    LinesCons("", rest);
    LinesOfFields(fs, "\n" + rest);
    LinesOfFields(fs, "");
    FramesFromFields(EMPTY, fs, [""] + Lines(rest));
    FramesFromFields(EMPTY, fs, []);
    FramesFromCons(WithFields(EMPTY, fs), "", Lines(rest));
    assert PrintFields(fs) + "" == PrintFields(fs);
  }

  lemma FieldsBoundary(fs: seq<FieldLine>)
    requires GoodFields(fs)
    ensures AtFrameBoundary(PrintFields(fs) + "\n")
  {
    assert TrimEol("") == "" && Lines("") == [] && "" + "\n" + "" == "\n";
    hide Lines, TrimEol, PrintFields, GoodFields, Texts;
    LinesCons("", "");
    LinesOfFields(fs, "\n");
  }
}
