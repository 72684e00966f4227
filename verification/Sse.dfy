/**
 The server-sent-event decoder: bytes in, frames out. Its frames do not depend on where the byte stream was
 cut.

 Models crates/openbad-llm/src/chat.rs.
 */
module Sse {
  import opened Wrappers
  import Chat

  const NEWLINE: Byte := 10

  // Turning a line's bytes into text is the caller's choice.
  type Decoding = seq<Byte> -> string

  datatype Frame = Frame(event: Option<string>, data: string)

  // What the lines since the last blank one have said.
  datatype Fields = Fields(data: seq<string>, event: Option<string>)

  datatype Progress = Progress(buffer: seq<Byte>, fields: Fields)

  const START := Progress([], Fields([], None))

  // ---------------------------------------------------------------------
  // Lines
  // ---------------------------------------------------------------------

  function Join(lines: seq<string>): string {
    if lines == [] then ""
    else if |lines| == 1 then lines[0]
    else Join(lines[..|lines| - 1]) + "\n" + lines[|lines| - 1]
  }

  function TrimCr(line: string): string {
    if line != "" && line[|line| - 1] == '\r' then TrimCr(line[..|line| - 1]) else line
  }

  /** The end of a block: a frame if it held data. */
  function Flush(f: Fields): (Fields, seq<Frame>) {
    (Fields([], None), if f.data == [] then [] else [Frame(f.event, Join(f.data))])
  }

  function Read(f: Fields, line: string): (Fields, seq<Frame>) {
    if line == "" then Flush(f)
    else if line[0] == ':' then (f, [])
    else if "data:" <= line then (f.(data := f.data + [Chat.TrimStart(line[5..])]), [])
    else if "event:" <= line then (f.(event := Some(Chat.Trim(line[6..]))), [])
    else (f, [])
  }

  // ---------------------------------------------------------------------
  // One byte at a time
  // ---------------------------------------------------------------------

  function Feed(decode: Decoding, p: Progress, b: Byte): (Progress, seq<Frame>) {
    if b == NEWLINE then
      var (fields, frames) := Read(p.fields, TrimCr(decode(p.buffer)));
      (Progress([], fields), frames)
    else (p.(buffer := p.buffer + [b]), [])
  }

  function FeedAll(decode: Decoding, p: Progress, bytes: seq<Byte>): (Progress, seq<Frame>) {
    if bytes == [] then (p, [])
    else
      var (q, before) := FeedAll(decode, p, bytes[..|bytes| - 1]);
      var (r, added) := Feed(decode, q, bytes[|bytes| - 1]);
      (r, before + added)
  }

  /** The stream ended: an unterminated line is still read, as it stands. */
  function Close(decode: Decoding, p: Progress): seq<Frame> {
    var (fields, frames) := if p.buffer == [] then (p.fields, []) else Read(p.fields, decode(p.buffer));
    frames + Flush(fields).1
  }

  /** Every frame of a whole stream. */
  function FramesOf(decode: Decoding, p: Progress, bytes: seq<Byte>): seq<Frame> {
    var (q, frames) := FeedAll(decode, p, bytes);
    frames + Close(decode, q)
  }

  lemma {:induction false} FeedAppend(decode: Decoding, p: Progress, a: seq<Byte>, b: seq<Byte>)
    ensures var (q, before) := FeedAll(decode, p, a);
      var (r, added) := FeedAll(decode, q, b);
      FeedAll(decode, p, a + b) == (r, before + added)
  {
    if b == [] {
      assert a + b == a;
      assert FeedAll(decode, p, a).1 + [] == FeedAll(decode, p, a).1;
    } else {
      var init := b[..|b| - 1];
      assert (a + b)[..|a + b| - 1] == a + init;
      FeedAppend(decode, p, a, init);
      var (q, before) := FeedAll(decode, p, a);
      var (r, middle) := FeedAll(decode, q, init);
      var (last, added) := Feed(decode, r, b[|b| - 1]);
      assert (before + middle) + added == before + (middle + added);
    }
  }

  lemma {:induction false} FeedQuiet(decode: Decoding, p: Progress, bytes: seq<Byte>)
    requires NEWLINE !in bytes
    ensures FeedAll(decode, p, bytes) == (p.(buffer := p.buffer + bytes), [])
  {
    if bytes == [] {
      assert p.buffer + bytes == p.buffer;
    } else {
      var init, last := bytes[..|bytes| - 1], bytes[|bytes| - 1];
      FeedQuiet(decode, p, init);
      assert bytes == init + [last];
      assert p.buffer + bytes == (p.buffer + init) + [last];
      assert last in bytes;
      assert Feed(decode, p.(buffer := p.buffer + init), last).1 == [];
      assert FeedAll(decode, p, init).1 + [] == [];
    }
  }

  lemma {:induction false} FeedOne(decode: Decoding, p: Progress, b: Byte)
    ensures FeedAll(decode, p, [b]) == Feed(decode, p, b)
  {
    assert [b][..0] == [];
    assert FeedAll(decode, p, []) == (p, []);
    assert [] + Feed(decode, p, b).1 == Feed(decode, p, b).1;
  }

  /** A terminated line is read whole. */
  lemma {:induction false} FeedLine(decode: Decoding, p: Progress, done: seq<Byte>, line: seq<Byte>)
    requires NEWLINE !in line && FeedAll(decode, p, done).0.buffer == []
    ensures var (q, before) := FeedAll(decode, p, done);
      var (fields, added) := Read(q.fields, TrimCr(decode(line)));
      FeedAll(decode, p, done + (line + [NEWLINE])) == (Progress([], fields), before + added)
  {
    hide FeedAll, Read, TrimCr;
    var (q, before) := FeedAll(decode, p, done);
    FeedAppend(decode, p, done, line + [NEWLINE]);
    FeedAppend(decode, q, line, [NEWLINE]);
    FeedQuiet(decode, q, line);
    assert q.buffer + line == line;
    FeedOne(decode, Progress(line, q.fields), NEWLINE);
    var added := Read(q.fields, TrimCr(decode(line))).1;
    assert [] + added == added;
  }

  /** The buffered bytes are input not yet read. */
  lemma {:induction false} Buffered(decode: Decoding, buffer: seq<Byte>, f: Fields, chunk: seq<Byte>)
    requires NEWLINE !in buffer
    ensures FeedAll(decode, Progress([], f), buffer + chunk) == FeedAll(decode, Progress(buffer, f), chunk)
  {
    hide FeedAll;
    FeedQuiet(decode, Progress([], f), buffer);
    assert [] + buffer == buffer;
    FeedAppend(decode, Progress([], f), buffer, chunk);
    var added := FeedAll(decode, Progress(buffer, f), chunk).1;
    assert [] + added == added;
  }

  /** Bytes left over without a newline stay in the buffer. */
  lemma {:induction false} FeedRest(decode: Decoding, p: Progress, done: seq<Byte>, rest: seq<Byte>)
    requires NEWLINE !in rest && FeedAll(decode, p, done).0.buffer == []
    ensures FeedAll(decode, p, done + rest)
      == (Progress(rest, FeedAll(decode, p, done).0.fields), FeedAll(decode, p, done).1)
  {
    hide FeedAll;
    var (q, before) := FeedAll(decode, p, done);
    FeedAppend(decode, p, done, rest);
    FeedQuiet(decode, q, rest);
    assert [] + rest == rest && before + [] == before;
  }

  lemma {:induction false} FeedNone(decode: Decoding, p: Progress)
    ensures FeedAll(decode, p, []) == (p, [])
  {
  }

  lemma DoneGrows(done: seq<Byte>, buffer: seq<Byte>, position: nat)
    ensures position < |buffer| && buffer[position] == NEWLINE ==>
      done + buffer == (done + (buffer[..position] + [NEWLINE])) + buffer[position + 1..]
  {
  }

  // ---------------------------------------------------------------------
  // The decoder
  // ---------------------------------------------------------------------

  class SseDecoder {
    const decode: Decoding
    var buffer: seq<Byte>
    var data: seq<string>
    var event: Option<string>

    ghost predicate Valid()
      reads this
    {
      NEWLINE !in buffer
    }

    function State(): Progress
      reads this
    {
      Progress(buffer, Fields(data, event))
    }

    constructor (decode: Decoding)
      ensures Valid() && State() == START && this.decode == decode
    {
      this.decode := decode;
      buffer, data, event := [], [], None;
    }

    method Dispatch() returns (frames: seq<Frame>)
      modifies this`data, this`event
      ensures (State().fields, frames) == Flush(old(State().fields))
    {
      frames := [];
      if data == [] {
        event := None;
        return;
      }
      frames := [Frame(event, Join(data))];
      event := None;
      data := [];
    }

    method ConsumeLine(line: string) returns (frames: seq<Frame>)
      modifies this`data, this`event
      ensures (State().fields, frames) == Read(old(State().fields), line)
    {
      frames := [];
      if line == "" {
        frames := Dispatch();
        return;
      }
      if line[0] == ':' {
        return;
      }
      if "data:" <= line {
        data := data + [Chat.TrimStart(line[5..])];
      } else if "event:" <= line {
        event := Some(Chat.Trim(line[6..]));
      }
    }

    method FindNewline() returns (position: nat)
      ensures position <= |buffer| && NEWLINE !in buffer[..position]
      ensures position < |buffer| ==> buffer[position] == NEWLINE
    {
      position := 0;
      while position < |buffer| && buffer[position] != NEWLINE
        invariant position <= |buffer| && NEWLINE !in buffer[..position]
      {
        position := position + 1;
      }
    }

    method Push(chunk: seq<Byte>) returns (frames: seq<Frame>)
      requires Valid()
      modifies this
      ensures Valid()
      ensures (State(), frames) == FeedAll(decode, old(State()), chunk)
    {
      hide FeedAll, Read, TrimCr;
      ghost var start := Progress([], State().fields);
      ghost var all := buffer + chunk;
      ghost var done: seq<Byte> := [];
      Buffered(decode, buffer, start.fields, chunk);
      FeedNone(decode, start);
      buffer := buffer + chunk;
      frames := [];
      var position := FindNewline();
      while position < |buffer|
        invariant 0 <= position <= |buffer|
        invariant NEWLINE !in buffer[..position]
        invariant position < |buffer| ==> buffer[position] == NEWLINE
        invariant all == done + buffer
        invariant FeedAll(decode, start, done) == (Progress([], State().fields), frames)
        decreases |buffer|
      {
        var line := buffer[..position];
        FeedLine(decode, start, done, line);
        DoneGrows(done, buffer, position);
        done := done + (line + [NEWLINE]);
        buffer := buffer[position + 1..];
        var added := ConsumeLine(TrimCr(decode(line)));
        frames := frames + added;
        position := FindNewline();
      }
      assert buffer[..position] == buffer;
      FeedRest(decode, start, done, buffer);
    }

    method Finish() returns (frames: seq<Frame>)
      requires Valid()
      modifies this
      ensures Valid() && State() == START
      ensures frames == Close(decode, old(State()))
    {
      frames := [];
      if buffer != [] {
        var line := decode(buffer);
        buffer := [];
        frames := ConsumeLine(line);
      }
      var last := Dispatch();
      frames := frames + last;
    }
  }

  // ---------------------------------------------------------------------
  // Any split
  // ---------------------------------------------------------------------

  function Flatten<T>(chunks: seq<seq<T>>): seq<T> {
    if chunks == [] then [] else chunks[0] + Flatten(chunks[1..])
  }

  /** The decoder used on one chunk after another, then closed. */
  method DecodeChunks(decode: Decoding, chunks: seq<seq<Byte>>) returns (frames: seq<Frame>)
    ensures frames == FramesOf(decode, START, Flatten(chunks))
  {
    var decoder := new SseDecoder(decode);
    frames := [];
    for i := 0 to |chunks|
      invariant decoder.Valid() && decoder.decode == decode
      invariant FeedAll(decode, START, Flatten(chunks[..i])) == (decoder.State(), frames)
    {
      FlattenSnoc(chunks[..i], chunks[i]);
      assert chunks[..i] + [chunks[i]] == chunks[..i + 1];
      FeedAppend(decode, START, Flatten(chunks[..i]), chunks[i]);
      var added := decoder.Push(chunks[i]);
      frames := frames + added;
    }
    assert chunks[..|chunks|] == chunks;
    var last := decoder.Finish();
    frames := frames + last;
  }

  lemma {:induction false} FlattenSnoc<T>(chunks: seq<seq<T>>, chunk: seq<T>)
    ensures Flatten(chunks + [chunk]) == Flatten(chunks) + chunk
  {
    if chunks == [] {
      assert [chunk][1..] == [];
      assert Flatten([chunk]) == chunk + Flatten<T>([]);
    } else {
      assert (chunks + [chunk])[1..] == chunks[1..] + [chunk];
      FlattenSnoc(chunks[1..], chunk);
    }
  }

  /** Closing an already closed decoder yields nothing. */
  lemma CloseOnce(decode: Decoding)
    ensures Close(decode, START) == []
  {
  }

  // ---------------------------------------------------------------------
  // Frames survive the wire
  // ---------------------------------------------------------------------

  // A line as a server writes it: blanks around the value, and lines that say nothing.
  datatype Line =
    | Data(pad: string, text: string)
    | Event(pad: string, name: string, tail: string)
    | Ignored(text: string)

  // Lines end in any number of returns, and so does the blank line behind a block.
  datatype WireLine = WireLine(line: Line, crs: nat)

  datatype Block = Block(lines: seq<WireLine>, crs: nat)

  type Encoding = string -> seq<Byte>

  function LineText(l: Line): string {
    match l
    case Data(pad, text) => "data:" + pad + text
    case Event(pad, name, tail) => "event:" + pad + name + tail
    case Ignored(text) => text
  }

  function Returns(n: nat): string {
    if n == 0 then "" else Returns(n - 1) + "\r"
  }

  predicate EndsInReturn(line: string) {
    line != "" && line[|line| - 1] == '\r'
  }

  ghost predicate Carried(decode: Decoding, encode: Encoding, line: string) {
    NEWLINE !in encode(line) && decode(encode(line)) == line
  }

  predicate StartsBare(text: string) {
    text != "" ==> !Chat.IsWhitespace(text[0])
  }

  /** The value is told from the blanks around it, and an ignored line is a comment or another field. */
  predicate WellFormed(l: Line) {
    && !EndsInReturn(LineText(l))
    && match l
       case Data(pad, text) => Chat.Blank(pad) && StartsBare(text)
       case Event(pad, name, tail) =>
         && Chat.Blank(pad) && Chat.Blank(tail) && StartsBare(name)
         && (name != "" ==> !Chat.IsWhitespace(name[|name| - 1]))
       case Ignored(text) => text != "" && !("data:" <= text) && !("event:" <= text)
  }

  ghost predicate Sendable(decode: Decoding, encode: Encoding, block: Block) {
    && (forall i :: 0 <= i < |block.lines| ==> LineSendable(decode, encode, block.lines[i]))
    && Carried(decode, encode, Returns(block.crs))
  }

  ghost predicate LineSendable(decode: Decoding, encode: Encoding, l: WireLine) {
    WellFormed(l.line) && Carried(decode, encode, LineText(l.line) + Returns(l.crs))
  }

  function LinesWritten(encode: Encoding, lines: seq<WireLine>): seq<Byte> {
    if lines == [] then []
    else
      var last := lines[|lines| - 1];
      LinesWritten(encode, lines[..|lines| - 1]) + (encode(LineText(last.line) + Returns(last.crs)) + [NEWLINE])
  }

  function Written(encode: Encoding, block: Block): seq<Byte> {
    LinesWritten(encode, block.lines) + (encode(Returns(block.crs)) + [NEWLINE])
  }

  function Wire(encode: Encoding, blocks: seq<Block>): seq<Byte> {
    if blocks == [] then [] else Wire(encode, blocks[..|blocks| - 1]) + Written(encode, blocks[|blocks| - 1])
  }

  /** The values of the data lines, in order. */
  function DataOf(lines: seq<WireLine>): seq<string> {
    if lines == [] then []
    else
      var last := lines[|lines| - 1].line;
      DataOf(lines[..|lines| - 1]) + (if last.Data? then [last.text] else [])
  }

  /** The last event name given. */
  function EventOf(lines: seq<WireLine>): Option<string> {
    if lines == [] then None
    else
      var last := lines[|lines| - 1].line;
      if last.Event? then Some(last.name) else EventOf(lines[..|lines| - 1])
  }

  /** A block with data lines is one frame, any other is none. */
  function FrameSent(block: Block): seq<Frame> {
    var data := DataOf(block.lines);
    if data == [] then [] else [Frame(EventOf(block.lines), Join(data))]
  }

  function Sent(blocks: seq<Block>): seq<Frame> {
    if blocks == [] then [] else Sent(blocks[..|blocks| - 1]) + FrameSent(blocks[|blocks| - 1])
  }

  lemma ReturnsSnoc(line: string, n: nat)
    requires n > 0
    ensures line + Returns(n) == (line + Returns(n - 1)) + "\r"
  {
    assert Returns(n) == Returns(n - 1) + "\r";
  }

  lemma {:induction false} TrimCrOne(line: string)
    ensures TrimCr(line + "\r") == TrimCr(line)
  {
    assert (line + "\r")[..|line|] == line;
  }

  lemma {:induction false} TrimCrReturns(line: string, n: nat)
    requires !EndsInReturn(line)
    ensures TrimCr(line + Returns(n)) == line
  {
    if n == 0 {
      assert line + "" == line;
    } else {
      TrimCrReturns(line, n - 1);
      hide *;
      ReturnsSnoc(line, n);
      TrimCrOne(line + Returns(n - 1));
    }
  }

  lemma {:induction false} TrimStartPad(pad: string, x: string)
    requires Chat.Blank(pad)
    ensures Chat.TrimStart(pad + x) == Chat.TrimStart(x)
  {
    if pad == "" {
      assert pad + x == x;
    } else {
      assert (pad + x)[0] == pad[0] && (pad + x)[1..] == pad[1..] + x;
      TrimStartPad(pad[1..], x);
    }
  }

  lemma {:induction false} TrimEndPad(x: string, pad: string)
    requires Chat.Blank(pad)
    ensures Chat.TrimEnd(x + pad) == Chat.TrimEnd(x)
  {
    if pad == "" {
      assert x + pad == x;
    } else {
      var init := pad[..|pad| - 1];
      assert (x + pad)[|x + pad| - 1] == pad[|pad| - 1];
      assert (x + pad)[..|x + pad| - 1] == x + init;
      TrimEndPad(x, init);
    }
  }

  lemma TrimPadded(pad: string, name: string, tail: string)
    requires Chat.Blank(pad) && Chat.Blank(tail) && StartsBare(name)
    requires name != "" ==> !Chat.IsWhitespace(name[|name| - 1])
    ensures Chat.Trim(pad + name + tail) == name
  {
    assert pad + name + tail == pad + (name + tail);
    TrimStartPad(pad, name + tail);
    if name == "" {
      assert name + tail == tail + "";
      TrimStartPad(tail, "");
    } else {
      assert (name + tail)[0] == name[0];
      TrimEndPad(name, tail);
    }
  }

  /** What one line adds to the fields read so far. */
  function Said(f: Fields, l: Line): Fields {
    match l
    case Data(_, text) => f.(data := f.data + [text])
    case Event(_, name, _) => f.(event := Some(name))
    case Ignored(_) => f
  }

  lemma LineRead(f: Fields, l: Line)
    requires WellFormed(l)
    ensures Read(f, LineText(l)) == (Said(f, l), [])
  {
    var line := LineText(l);
    match l
    case Data(pad, text) =>
      assert line[5..] == pad + text;
      TrimStartPad(pad, text);
    case Event(pad, name, tail) =>
      assert line[6..] == pad + name + tail;
      TrimPadded(pad, name, tail);
    case Ignored(_) =>
  }

  lemma {:induction false} LinesRead(decode: Decoding, encode: Encoding, p: Progress, done: seq<Byte>,
                                     lines: seq<WireLine>)
    requires FeedAll(decode, p, done).0 == START
    requires forall i :: 0 <= i < |lines| ==> LineSendable(decode, encode, lines[i])
    ensures FeedAll(decode, p, done + LinesWritten(encode, lines))
      == (Progress([], Fields(DataOf(lines), EventOf(lines))), FeedAll(decode, p, done).1)
  {
    hide FeedAll, TrimCr, Read, WellFormed;
    var before := FeedAll(decode, p, done).1;
    if lines == [] {
      assert done + [] == done;
    } else {
      var init, last := lines[..|lines| - 1], lines[|lines| - 1];
      LinesRead(decode, encode, p, done, init);
      var sofar := done + LinesWritten(encode, init);
      var line := LineText(last.line) + Returns(last.crs);
      assert LineSendable(decode, encode, last);
      WellFormedEnd(last.line);
      TrimCrReturns(LineText(last.line), last.crs);
      LineRead(Fields(DataOf(init), EventOf(init)), last.line);
      FeedLine(decode, p, sofar, encode(line));
      assert sofar + (encode(line) + [NEWLINE]) == done + LinesWritten(encode, lines);
      SaidOf(lines);
      assert before + [] == before;
    }
  }

  lemma WellFormedEnd(l: Line)
    ensures WellFormed(l) ==> !EndsInReturn(LineText(l))
  {
  }

  lemma SaidOf(lines: seq<WireLine>)
    ensures lines != [] ==>
      var init := lines[..|lines| - 1];
      Said(Fields(DataOf(init), EventOf(init)), lines[|lines| - 1].line) == Fields(DataOf(lines), EventOf(lines))
  {
  }

  lemma {:induction false} BlockRead(decode: Decoding, encode: Encoding, p: Progress, done: seq<Byte>, block: Block)
    requires FeedAll(decode, p, done).0 == START
    requires Sendable(decode, encode, block)
    ensures FeedAll(decode, p, done + Written(encode, block))
      == (START, FeedAll(decode, p, done).1 + FrameSent(block))
  {
    hide *;
    SendableParts(decode, encode, block);
    LinesRead(decode, encode, p, done, block.lines);
    var body := done + LinesWritten(encode, block.lines);
    var blank := Returns(block.crs);
    BlankRead(block);
    FeedLine(decode, p, body, encode(blank));
    WrittenAfter(encode, done, block);
  }

  lemma SendableParts(decode: Decoding, encode: Encoding, block: Block)
    requires Sendable(decode, encode, block)
    ensures forall i :: 0 <= i < |block.lines| ==> LineSendable(decode, encode, block.lines[i])
    ensures var blank := Returns(block.crs);
      NEWLINE !in encode(blank) && decode(encode(blank)) == blank
    ensures START.buffer == [] && START == Progress([], Fields([], None))
  {
  }

  lemma BlankRead(block: Block)
    ensures Read(Fields(DataOf(block.lines), EventOf(block.lines)), TrimCr(Returns(block.crs)))
      == (Fields([], None), FrameSent(block))
  {
    TrimCrReturns("", block.crs);
    assert "" + Returns(block.crs) == Returns(block.crs);
    hide TrimCr, Returns;
  }

  lemma WrittenAfter(encode: Encoding, done: seq<Byte>, block: Block)
    ensures (done + LinesWritten(encode, block.lines)) + (encode(Returns(block.crs)) + [NEWLINE])
      == done + Written(encode, block)
  {
    hide LinesWritten;
    var lines := LinesWritten(encode, block.lines);
    var blank := encode(Returns(block.crs)) + [NEWLINE];
    assert (done + lines) + blank == done + (lines + blank);
  }

  lemma WireSplit(encode: Encoding, blocks: seq<Block>)
    ensures blocks == [] ==> Wire(encode, blocks) == [] && Sent(blocks) == []
    ensures blocks != [] ==>
      && var init, last := blocks[..|blocks| - 1], blocks[|blocks| - 1];
      && Wire(encode, blocks) == Wire(encode, init) + Written(encode, last)
      && Sent(blocks) == Sent(init) + FrameSent(last)
  {
    hide Written, FrameSent;
  }

  lemma {:induction false} WireRead(decode: Decoding, encode: Encoding, blocks: seq<Block>)
    requires forall i :: 0 <= i < |blocks| ==> Sendable(decode, encode, blocks[i])
    ensures FeedAll(decode, START, Wire(encode, blocks)) == (START, Sent(blocks))
  {
    hide *;
    WireSplit(encode, blocks);
    if blocks == [] {
      FeedNone(decode, START);
    } else {
      var init, last := blocks[..|blocks| - 1], blocks[|blocks| - 1];
      WireRead(decode, encode, init);
      BlockRead(decode, encode, START, Wire(encode, init), last);
    }
  }

  /**
   Whatever blocks a server writes - values behind any blanks, comments and other
   fields in between, lines ended by returns or not - and however the transport
   cuts them, the frames come back.
   */
  lemma {:induction false} RoundTrip(decode: Decoding, encode: Encoding, blocks: seq<Block>, chunks: seq<seq<Byte>>)
    requires forall i :: 0 <= i < |blocks| ==> Sendable(decode, encode, blocks[i])
    requires Flatten(chunks) == Wire(encode, blocks)
    ensures FramesOf(decode, START, Flatten(chunks)) == Sent(blocks)
  {
    WireRead(decode, encode, blocks);
    CloseOnce(decode);
    assert Sent(blocks) + [] == Sent(blocks);
  }

  /** The usual form: a space behind the colon, and a return before the newline. */
  lemma UsualLine(text: string)
    requires text != "" && !Chat.IsWhitespace(text[0]) && !EndsInReturn(text)
    ensures WellFormed(Data(" ", text)) && LineText(Data(" ", text)) + Returns(1) == "data: " + text + "\r"
  {
    assert Returns(1) == Returns(0) + "\r" == "\r";
    var line := "data:" + " " + text;
    assert "data:" + " " == "data: ";
    assert line[|line| - 1] == text[|text| - 1];
  }

  // ---------------------------------------------------------------------
  // What a missing final newline changes
  // ---------------------------------------------------------------------

  /** The frames a last line gives when nothing follows it. */
  function LastFrames(f: Fields, line: string): seq<Frame> {
    Read(f, line).1 + Flush(Read(f, line).0).1
  }

  /** A data line whose value ends in a carriage return. */
  predicate CarriesReturn(line: string) {
    "data:" <= line && EndsInReturn(Chat.TrimStart(line[5..]))
  }

  lemma {:induction false} TrimStartSuffix(x: string)
    ensures |Chat.TrimStart(x)| <= |x| && x[|x| - |Chat.TrimStart(x)|..] == Chat.TrimStart(x)
  {
    if x != "" {
      TrimStartSuffix(x[1..]);
    }
  }

  lemma {:induction false} TrimStartSnoc(x: string, c: char)
    ensures Chat.TrimStart(x + [c])
      == if Chat.TrimStart(x) == "" && Chat.IsWhitespace(c) then "" else Chat.TrimStart(x) + [c]
  {
    if x != "" && Chat.IsWhitespace(x[0]) {
      assert (x + [c])[1..] == x[1..] + [c];
      TrimStartSnoc(x[1..], c);
    } else if x == "" {
      assert "" + [c] == [c] && [c][1..] == "";
    }
  }

  lemma TrimReturn(x: string)
    ensures Chat.Trim(x + "\r") == Chat.Trim(x)
  {
    TrimStartSnoc(x, '\r');
    var y := Chat.TrimStart(x);
    assert (y + "\r")[..|y|] == y;
  }

  /** One trailing return, unless it ends a value, makes no difference. */
  lemma ReturnIgnored(f: Fields, line: string)
    requires !CarriesReturn(line + "\r")
    ensures LastFrames(f, line + "\r") == LastFrames(f, line)
    ensures !CarriesReturn(line)
  {
    var long := line + "\r";
    if line == "" {
    } else if "data:" <= long {
      assert long[4] == ':';
      assert long[5..] == line[5..] + "\r";
      TrimStartSnoc(line[5..], '\r');
    } else if "event:" <= long {
      assert long[5] == ':';
      assert long[6..] == line[6..] + "\r";
      TrimReturn(line[6..]);
    }
  }

  lemma {:induction false} ReturnsIgnored(f: Fields, line: string)
    requires !CarriesReturn(line)
    ensures LastFrames(f, line) == LastFrames(f, TrimCr(line))
  {
    if EndsInReturn(line) {
      var init := line[..|line| - 1];
      assert line == init + "\r";
      ReturnIgnored(f, init);
      ReturnsIgnored(f, init);
    }
  }

  lemma {:induction false} TrimCrDone(line: string)
    ensures TrimCr(line) <= line && !EndsInReturn(TrimCr(line))
    ensures "data:" <= line ==> "data:" <= TrimCr(line)
  {
    if EndsInReturn(line) {
      TrimCrDone(line[..|line| - 1]);
      assert "data:" <= line ==> line[4] == ':';
    }
  }

  lemma {:induction false} JoinSnoc(data: seq<string>, a: string)
    ensures Join(data + [a]) == if data == [] then a else Join(data) + "\n" + a
  {
    assert (data + [a])[..|data + [a]| - 1] == data;
  }

  lemma {:induction false} JoinDiffers(data: seq<string>, a: string, b: string)
    requires a != b
    ensures Join(data + [a]) != Join(data + [b])
  {
    JoinSnoc(data, a);
    JoinSnoc(data, b);
    if data != [] {
      var head := Join(data) + "\n";
      assert (head + a)[|head|..] == a && (head + b)[|head|..] == b;
    }
  }

  lemma {:induction false} ReturnKept(f: Fields, line: string)
    requires CarriesReturn(line)
    ensures LastFrames(f, line) != LastFrames(f, TrimCr(line))
  {
    var short := TrimCr(line);
    TrimStartSuffix(line[5..]);
    TrimCrDone(line);
    TrimStartSuffix(short[5..]);
    var a, b := Chat.TrimStart(line[5..]), Chat.TrimStart(short[5..]);
    assert b != "" ==> b[|b| - 1] == short[|short| - 1];
    JoinDiffers(f.data, a, b);
    assert LastFrames(f, line) == [Frame(f.event, Join(f.data + [a]))];
    assert LastFrames(f, short) == [Frame(f.event, Join(f.data + [b]))];
  }

  /**
   A stream whose last line lacks its newline gives the same frames as one that
   has it, if and only if that line is not a data line with a return at its end:
   returns are cut off terminated lines only.
   */
  lemma FinalNewline(decode: Decoding, p: Progress)
    requires p.buffer != []
    ensures Close(decode, p) == FramesOf(decode, p, [NEWLINE]) <==> !CarriesReturn(decode(p.buffer))
  {
    var line := decode(p.buffer);
    FeedOne(decode, p, NEWLINE);
    if CarriesReturn(line) {
      ReturnKept(p.fields, line);
    } else {
      ReturnsIgnored(p.fields, line);
    }
  }
}
