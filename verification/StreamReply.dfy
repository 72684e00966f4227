/**
 From frames to the assembled assistant message: parsing each frame into stream events, delivering them chunk
 by chunk, and folding the events into one message whose tool calls are keyed by index.

 Models crates/openbad-llm/src/chat.rs and crates/openbad-agent/src/lib.rs.
 */
module StreamReply {
  import opened Wrappers
  import opened Sse
  import Chat

  datatype FunctionDelta = FunctionDelta(name: Option<string>, arguments: Option<string>)

  datatype CallDelta = CallDelta(index: nat, id: Option<string>, changes: Option<FunctionDelta>)

  datatype Usage = Usage(input: nat, cacheRead: nat, cacheWrite: nat, output: nat, reasoning: Option<nat>)

  datatype Choice = Choice(
    content: Option<string>,
    reasoning: Option<string>,
    calls: seq<CallDelta>,
    finish: Option<string>)

  datatype Chunk = Chunk(usage: Option<Usage>, choices: seq<Choice>)

  datatype StreamEvent =
    | Delta(content: Option<string>, reasoning: Option<string>, calls: seq<CallDelta>)
    | UsageEvent(usage: Usage)
    | Finished(finish: Option<string>)

  // Reading a frame's JSON, or failing to.
  type Parsing = string -> Option<Chunk>

  // ---------------------------------------------------------------------
  // Frames to events
  // ---------------------------------------------------------------------

  const DONE := "[DONE]"

  function ChoiceEvents(c: Choice): seq<StreamEvent> {
    (if c.content.Some? || c.reasoning.Some? || c.calls != [] then [Delta(c.content, c.reasoning, c.calls)] else [])
    + (if c.finish.Some? then [Finished(c.finish)] else [])
  }

  function ChoicesEvents(choices: seq<Choice>): seq<StreamEvent> {
    if choices == [] then []
    else ChoicesEvents(choices[..|choices| - 1]) + ChoiceEvents(choices[|choices| - 1])
  }

  function FrameEvents(parse: Parsing, frame: Frame): Option<seq<StreamEvent>> {
    if frame.data == DONE then Some([Finished(None)])
    else
      match parse(frame.data)
      case None => None
      case Some(chunk) =>
        Some((if chunk.usage.Some? then [UsageEvent(chunk.usage.value)] else []) + ChoicesEvents(chunk.choices))
  }

  predicate Parses(parse: Parsing, frames: seq<Frame>) {
    forall i :: 0 <= i < |frames| ==> FrameEvents(parse, frames[i]).Some?
  }

  /** The events of the frames before the first one that does not parse. */
  function Events(parse: Parsing, frames: seq<Frame>): seq<StreamEvent> {
    if frames == [] || FrameEvents(parse, frames[0]).None? then []
    else FrameEvents(parse, frames[0]).value + Events(parse, frames[1..])
  }

  lemma {:induction false} EventsAppend(parse: Parsing, a: seq<Frame>, b: seq<Frame>)
    requires Parses(parse, a)
    ensures Events(parse, a + b) == Events(parse, a) + Events(parse, b)
  {
    if a == [] {
      assert a + b == b;
    } else {
      assert (a + b)[1..] == a[1..] + b;
      EventsAppend(parse, a[1..], b);
    }
  }

  /** The closing frame comes before any frame that does not parse. */
  predicate DoneSeen(parse: Parsing, frames: seq<Frame>) {
    exists i :: 0 <= i < |frames| && frames[i].data == DONE && Parses(parse, frames[..i])
  }

  lemma DoneSeenSnoc(parse: Parsing, frames: seq<Frame>, frame: Frame)
    requires Parses(parse, frames)
    ensures DoneSeen(parse, frames + [frame]) <==> DoneSeen(parse, frames) || frame.data == DONE
  {
    var more := frames + [frame];
    assert forall i :: 0 <= i <= |frames| ==> more[..i] == frames[..i];
    assert frames[..|frames|] == frames;
    hide Parses;
    if DoneSeen(parse, frames) {
      var i :| 0 <= i < |frames| && frames[i].data == DONE && Parses(parse, frames[..i]);
      assert more[i].data == DONE && Parses(parse, more[..i]);
    }
    if frame.data == DONE {
      assert more[|frames|].data == DONE && Parses(parse, more[..|frames|]);
    }
    if DoneSeen(parse, more) {
      var i :| 0 <= i < |more| && more[i].data == DONE && Parses(parse, more[..i]);
      assert i < |frames| ==> frames[i].data == DONE && Parses(parse, frames[..i]);
    }
  }

  lemma DoneSeenCut(parse: Parsing, frames: seq<Frame>, n: nat)
    requires n < |frames| && FrameEvents(parse, frames[n]).None?
    ensures DoneSeen(parse, frames) <==> DoneSeen(parse, frames[..n])
  {
    assert frames[n].data != DONE;
    assert forall i :: 0 <= i <= n ==> frames[..n][..i] == frames[..i];
    forall i | n < i < |frames|
      ensures !Parses(parse, frames[..i])
    {
      assert frames[..i][n] == frames[n];
    }
    if DoneSeen(parse, frames) {
      var i :| 0 <= i < |frames| && frames[i].data == DONE && Parses(parse, frames[..i]);
      assert frames[..n][i].data == DONE && Parses(parse, frames[..n][..i]);
    }
    if DoneSeen(parse, frames[..n]) {
      var i :| 0 <= i < n && frames[..n][i].data == DONE && Parses(parse, frames[..n][..i]);
      assert frames[i].data == DONE && Parses(parse, frames[..i]);
    }
  }

  class StreamDecoder {
    const sse: SseDecoder
    const parse: Parsing
    var finished: bool

    ghost predicate Valid()
      reads this, sse
    {
      sse.Valid()
    }

    constructor (decode: Decoding, parse: Parsing)
      ensures Valid() && fresh(sse) && sse.State() == START && sse.decode == decode
      ensures this.parse == parse && !finished
    {
      sse := new SseDecoder(decode);
      this.parse := parse;
      finished := false;
    }

    /** All of these frames' events, or none of them. */
    method ParseFrames(frames: seq<Frame>) returns (events: Option<seq<StreamEvent>>)
      modifies this`finished
      ensures events == if Parses(parse, frames) then Some(Events(parse, frames)) else None
      ensures finished <==> old(finished) || DoneSeen(parse, frames)
    {
      var sofar := [];
      for i := 0 to |frames|
        invariant Parses(parse, frames[..i])
        invariant sofar == Events(parse, frames[..i])
        invariant finished <==> old(finished) || DoneSeen(parse, frames[..i])
      {
        var frame := frames[i];
        assert frames[..i + 1] == frames[..i] + [frame];
        EventsAppend(parse, frames[..i], [frame]);
        EventsOne(parse, frame);
        DoneSeenSnoc(parse, frames[..i], frame);
        if frame.data == DONE {
          finished := true;
          sofar := sofar + [Finished(None)];
        } else {
          var chunk := parse(frame.data);
          if chunk.None? {
            DoneSeenCut(parse, frames, i);
            return None;
          }
          if chunk.value.usage.Some? {
            sofar := sofar + [UsageEvent(chunk.value.usage.value)];
          }
          var added := CollectChoices(chunk.value.choices);
          AppendTwice(Events(parse, frames[..i]),
            if chunk.value.usage.Some? then [UsageEvent(chunk.value.usage.value)] else [], added);
          sofar := sofar + added;
        }
      }
      assert frames[..|frames|] == frames;
      events := Some(sofar);
    }

    method Push(chunk: seq<Byte>) returns (events: Option<seq<StreamEvent>>)
      requires Valid()
      modifies this, sse
      ensures Valid()
      ensures var (state, frames) := FeedAll(sse.decode, old(sse.State()), chunk);
        && sse.State() == state
        && (finished <==> old(finished) || DoneSeen(parse, frames))
        && events == if Parses(parse, frames) then Some(Events(parse, frames)) else None
    {
      var frames := sse.Push(chunk);
      events := ParseFrames(frames);
    }

    method Finish() returns (events: Option<seq<StreamEvent>>)
      requires Valid()
      modifies this, sse
      ensures Valid() && sse.State() == START
      ensures var frames := Close(sse.decode, old(sse.State()));
        && (finished <==> old(finished) || DoneSeen(parse, frames))
        && events == if Parses(parse, frames) then Some(Events(parse, frames)) else None
    {
      var frames := sse.Finish();
      events := ParseFrames(frames);
    }
  }

  lemma AppendTwice(a: seq<StreamEvent>, b: seq<StreamEvent>, c: seq<StreamEvent>)
    ensures (a + b) + c == a + (b + c)
    ensures b == [] ==> a + b == a
  {
  }

  lemma EventsOne(parse: Parsing, frame: Frame)
    ensures FrameEvents(parse, frame).Some? ==> Events(parse, [frame]) == FrameEvents(parse, frame).value
  {
    assert [frame][1..] == [];
    if FrameEvents(parse, frame).Some? {
      assert FrameEvents(parse, frame).value + [] == FrameEvents(parse, frame).value;
    }
  }

  method CollectChoices(choices: seq<Choice>) returns (events: seq<StreamEvent>)
    ensures events == ChoicesEvents(choices)
  {
    events := [];
    for i := 0 to |choices|
      invariant events == ChoicesEvents(choices[..i])
    {
      var c := choices[i];
      assert choices[..i + 1][..i] == choices[..i];
      AppendTwice(events,
        if c.content.Some? || c.reasoning.Some? || c.calls != [] then [Delta(c.content, c.reasoning, c.calls)] else [],
        if c.finish.Some? then [Finished(c.finish)] else []);
      if c.content.Some? || c.reasoning.Some? || c.calls != [] {
        events := events + [Delta(c.content, c.reasoning, c.calls)];
      }
      if c.finish.Some? {
        events := events + [Finished(c.finish)];
      }
    }
    assert choices[..|choices|] == choices;
  }

  // ---------------------------------------------------------------------
  // Delivery, chunk by chunk
  // ---------------------------------------------------------------------

  datatype Delivery = Delivery(events: seq<StreamEvent>, failed: bool)

  /** What a consumer receives: events until the end, or until the chunk whose frames fail to parse. */
  function Deliver(decode: Decoding, parse: Parsing, p: Progress, chunks: seq<seq<Byte>>): Delivery
    decreases |chunks|
  {
    var (q, frames) := if chunks == [] then (START, Close(decode, p)) else FeedAll(decode, p, chunks[0]);
    if !Parses(parse, frames) then Delivery([], true)
    else if chunks == [] then Delivery(Events(parse, frames), false)
    else
      var rest := Deliver(decode, parse, q, chunks[1..]);
      Delivery(Events(parse, frames) + rest.events, rest.failed)
  }

  lemma {:induction false} DeliverStep(decode: Decoding, parse: Parsing, p: Progress, chunks: seq<seq<Byte>>, i: nat)
    requires i <= |chunks|
    ensures i == |chunks| ==>
      && var frames := Close(decode, p);
      && Deliver(decode, parse, p, chunks[i..])
           == if Parses(parse, frames) then Delivery(Events(parse, frames), false) else Delivery([], true)
    ensures i < |chunks| ==>
      && var (q, frames) := FeedAll(decode, p, chunks[i]);
      && var rest := Deliver(decode, parse, q, chunks[i + 1..]);
      && Deliver(decode, parse, p, chunks[i..])
           == if Parses(parse, frames) then Delivery(Events(parse, frames) + rest.events, rest.failed)
              else Delivery([], true)
  {
    hide FeedAll, Close, Parses, Events;
    if i < |chunks| {
      assert chunks[i..][1..] == chunks[i + 1..];
    }
  }

  method Receive(decode: Decoding, parse: Parsing, chunks: seq<seq<Byte>>) returns (delivery: Delivery)
    ensures delivery == Deliver(decode, parse, START, chunks)
  {
    hide FeedAll, Close, Parses, Events, Deliver;
    var decoder := new StreamDecoder(decode, parse);
    var events: seq<StreamEvent> := [];
    ghost var goal := Deliver(decode, parse, START, chunks);
    assert chunks[0..] == chunks && [] + goal.events == goal.events;
    var i := 0;
    while i < |chunks|
      invariant 0 <= i <= |chunks|
      invariant decoder.Valid() && decoder.sse.decode == decode && decoder.parse == parse
      invariant fresh(decoder) && fresh(decoder.sse)
      invariant goal.events == events + Deliver(decode, parse, decoder.sse.State(), chunks[i..]).events
      invariant goal.failed == Deliver(decode, parse, decoder.sse.State(), chunks[i..]).failed
    {
      DeliverStep(decode, parse, decoder.sse.State(), chunks, i);
      var added := decoder.Push(chunks[i]);
      if added.None? {
        assert events + [] == events;
        return Delivery(events, true);
      }
      AppendTwice(events, added.value, Deliver(decode, parse, decoder.sse.State(), chunks[i + 1..]).events);
      events := events + added.value;
      i := i + 1;
    }
    DeliverStep(decode, parse, decoder.sse.State(), chunks, i);
    var last := decoder.Finish();
    if last.None? {
      assert events + [] == events;
      return Delivery(events, true);
    }
    return Delivery(events + last.value, false);
  }

  lemma ParsesAppend(parse: Parsing, a: seq<Frame>, b: seq<Frame>)
    ensures Parses(parse, a + b) <==> Parses(parse, a) && Parses(parse, b)
  {
    assert forall i :: 0 <= i < |a| ==> (a + b)[i] == a[i];
    assert forall i :: 0 <= i < |b| ==> (a + b)[|a| + i] == b[i];
    if Parses(parse, a + b) {
      forall i | 0 <= i < |b|
        ensures FrameEvents(parse, b[i]).Some?
      {
        assert (a + b)[|a| + i] == b[i];
      }
    }
  }

  /** Against the whole stream's frames: failure is theirs, and success delivers all their events. */
  lemma {:induction false} DeliverMeaning(decode: Decoding, parse: Parsing, p: Progress, chunks: seq<seq<Byte>>)
    ensures var frames := FramesOf(decode, p, Flatten(chunks));
      var d := Deliver(decode, parse, p, chunks);
      && (d.failed <==> !Parses(parse, frames))
      && d.events <= Events(parse, frames)
      && (!d.failed ==> d.events == Events(parse, frames))
    decreases |chunks|
  {
    hide FeedAll, Close, Events, Parses;
    if chunks == [] {
      FeedNone(decode, p);
      assert [] + Close(decode, p) == Close(decode, p);
    } else {
      var (q, frames) := FeedAll(decode, p, chunks[0]);
      var rest := Flatten(chunks[1..]);
      var after := FramesOf(decode, q, rest);
      DeliverMeaning(decode, parse, q, chunks[1..]);
      FramesAppend(decode, p, chunks[0], rest);
      ParsesAppend(parse, frames, after);
      if Parses(parse, frames) {
        EventsAppend(parse, frames, after);
        PrefixUnder(Events(parse, frames), Deliver(decode, parse, q, chunks[1..]).events, Events(parse, after));
      }
    }
  }

  lemma PrefixUnder(head: seq<StreamEvent>, a: seq<StreamEvent>, b: seq<StreamEvent>)
    ensures a <= b ==> head + a <= head + b
  {
  }

  lemma {:induction false} FramesAppend(decode: Decoding, p: Progress, a: seq<Byte>, b: seq<Byte>)
    ensures FramesOf(decode, p, a + b) == FeedAll(decode, p, a).1 + FramesOf(decode, FeedAll(decode, p, a).0, b)
  {
    hide FeedAll, Close;
    FeedAppend(decode, p, a, b);
    var (q, before) := FeedAll(decode, p, a);
    var (r, added) := FeedAll(decode, q, b);
    assert (before + added) + Close(decode, r) == before + (added + Close(decode, r));
  }

  /** However the bytes were split: both fail or neither does, and an unfailing stream gives the same events. */
  lemma {:induction false} SplitInvariant(decode: Decoding, parse: Parsing, a: seq<seq<Byte>>, b: seq<seq<Byte>>)
    requires Flatten(a) == Flatten(b)
    ensures var x, y := Deliver(decode, parse, START, a), Deliver(decode, parse, START, b);
      && x.failed == y.failed
      && (!x.failed ==> x.events == y.events)
      && (x.events <= y.events || y.events <= x.events)
  {
    DeliverMeaning(decode, parse, START, a);
    DeliverMeaning(decode, parse, START, b);
  }

  /** The frames of the first push, or of the close, that do not all parse. */
  function FailingPush(decode: Decoding, parse: Parsing, p: Progress, chunks: seq<seq<Byte>>): Option<seq<Frame>>
    decreases |chunks|
  {
    var (q, frames) := if chunks == [] then (START, Close(decode, p)) else FeedAll(decode, p, chunks[0]);
    if !Parses(parse, frames) then Some(frames)
    else if chunks == [] then None
    else FailingPush(decode, parse, q, chunks[1..])
  }

  /** Events a push has parsed when it comes upon a frame that does not parse. */
  function Discarded(parse: Parsing, failing: Option<seq<Frame>>): seq<StreamEvent> {
    if failing.Some? then Events(parse, failing.value) else []
  }

  lemma {:induction false} EventsCut(parse: Parsing, a: seq<Frame>, b: seq<Frame>)
    requires !Parses(parse, a)
    ensures Events(parse, a + b) == Events(parse, a)
  {
    assert a != [];
    if FrameEvents(parse, a[0]).Some? {
      assert (a + b)[1..] == a[1..] + b;
      EventsCut(parse, a[1..], b);
    }
  }

  /** Delivery falls short of the stream's events by exactly what the failing push had already parsed. */
  lemma {:induction false} DeliverAccounts(decode: Decoding, parse: Parsing, p: Progress, chunks: seq<seq<Byte>>)
    ensures var d := Deliver(decode, parse, p, chunks);
      var failing := FailingPush(decode, parse, p, chunks);
      && Events(parse, FramesOf(decode, p, Flatten(chunks))) == d.events + Discarded(parse, failing)
      && d.failed == failing.Some?
    decreases |chunks|
  {
    hide FeedAll, Close, Events, Parses;
    if chunks == [] {
      FeedNone(decode, p);
      var frames := Close(decode, p);
      assert [] + frames == frames;
      AppendNone(Events(parse, frames));
    } else {
      var (q, frames) := FeedAll(decode, p, chunks[0]);
      var rest := Flatten(chunks[1..]);
      var after := FramesOf(decode, q, rest);
      FramesAppend(decode, p, chunks[0], rest);
      if Parses(parse, frames) {
        DeliverAccounts(decode, parse, q, chunks[1..]);
        EventsAppend(parse, frames, after);
        AppendTwice(Events(parse, frames), Deliver(decode, parse, q, chunks[1..]).events,
          Discarded(parse, FailingPush(decode, parse, q, chunks[1..])));
      } else {
        EventsCut(parse, frames, after);
        AppendNone(Events(parse, frames));
      }
    }
  }

  lemma AppendNone(a: seq<StreamEvent>)
    ensures [] + a == a && a + [] == a
  {
  }

  /**
   Exactly when a failing stream still delivers every event before its bad frame:
   the push that fails must have none of its own in front of it.
   */
  lemma {:induction false} DeliversAllIff(decode: Decoding, parse: Parsing, p: Progress, chunks: seq<seq<Byte>>)
    ensures Deliver(decode, parse, p, chunks).events == Events(parse, FramesOf(decode, p, Flatten(chunks)))
      <==> Discarded(parse, FailingPush(decode, parse, p, chunks)) == []
  {
    hide *;
    DeliverAccounts(decode, parse, p, chunks);
    SameLengthPrefix(Deliver(decode, parse, p, chunks).events, Discarded(parse, FailingPush(decode, parse, p, chunks)));
  }

  lemma SameLengthPrefix(a: seq<StreamEvent>, b: seq<StreamEvent>)
    ensures a == a + b <==> b == []
  {
    assert |a + b| == |a| + |b|;
  }

  function OneLine(text: string): Block {
    Block([WireLine(Data("", text), 0)], 0)
  }

  lemma BlockFrames(decode: Decoding, encode: Encoding, text: string)
    requires Sendable(decode, encode, OneLine(text))
    ensures FeedAll(decode, START, Written(encode, OneLine(text))) == (START, [Frame(None, text)])
  {
    FeedNone(decode, START);
    BlockRead(decode, encode, START, [], OneLine(text));
    OneLineSent(text);
    hide FeedAll, Written, Sendable;
    assert [] + Written(encode, OneLine(text)) == Written(encode, OneLine(text));
    assert [] + [Frame(None, text)] == [Frame(None, text)];
  }

  lemma OneLineSent(text: string)
    ensures FrameSent(OneLine(text)) == [Frame(None, text)]
  {
    var lines := OneLine(text).lines;
    assert lines[..0] == [];
    assert DataOf(lines) == [] + [text] == [text];
    assert EventOf(lines) == None;
    assert Join([text]) == text;
  }

  lemma OneLineSendable(decode: Decoding, encode: Encoding, text: string)
    requires text != "" && !EndsInReturn(text) && !Chat.IsWhitespace(text[0])
    requires NEWLINE !in encode("data:" + text) && decode(encode("data:" + text)) == "data:" + text
    requires NEWLINE !in encode("") && decode(encode("")) == ""
    ensures Sendable(decode, encode, OneLine(text))
  {
    var line := "data:" + "" + text;
    assert line == "data:" + text && line + "" == line;
    assert line[|line| - 1] == text[|text| - 1];
  }

  /**
   What reaches the consumer before a failure does depend on the split: a good
   frame is lost when it shares its chunk with a bad one.
   */
  lemma FailureLosesChunk() returns (decode: Decoding, parse: Parsing, a: seq<seq<Byte>>, b: seq<seq<Byte>>)
    ensures Flatten(a) == Flatten(b)
    ensures Deliver(decode, parse, START, a).events == []
    ensures Deliver(decode, parse, START, b).events == [Finished(None)]
  {
    decode := bytes => if bytes == [1] then "data:[DONE]" else if bytes == [2] then "data:x" else "";
    var encode: Encoding := text => if text == "data:[DONE]" then [1] else if text == "data:x" then [2] else [];
    parse := text => None;
    assert "data:" + DONE == "data:[DONE]" && "data:" + "x" == "data:x";
    OneLineSendable(decode, encode, DONE);
    OneLineSendable(decode, encode, "x");
    BlockFrames(decode, encode, DONE);
    BlockFrames(decode, encode, "x");
    var g, w := Written(encode, OneLine(DONE)), Written(encode, OneLine("x"));
    a, b := [g + w], [g, w];
    GoodThenBad(decode, parse, g, w, Frame(None, DONE), Frame(None, "x"));
  }

  lemma {:induction false} GoodThenBad(decode: Decoding, parse: Parsing, g: seq<Byte>, w: seq<Byte>, good: Frame, bad: Frame)
    requires FeedAll(decode, START, g) == (START, [good]) && FeedAll(decode, START, w) == (START, [bad])
    requires good.data == DONE && FrameEvents(parse, bad).None?
    ensures Flatten([g + w]) == Flatten([g, w])
    ensures Deliver(decode, parse, START, [g + w]).events == []
    ensures Deliver(decode, parse, START, [g, w]).events == [Finished(None)]
  {
    hide FeedAll, Close, Deliver;
    FlattenTwo(g, w);
    FeedAppend(decode, START, g, w);
    assert !Parses(parse, [good] + [bad]) by {
      assert ([good] + [bad])[1] == bad;
    }
    assert !Parses(parse, [bad]) by {
      assert [bad][0] == bad;
    }
    assert [g + w][0..] == [g + w] && [g, w][0..] == [g, w];
    DeliverStep(decode, parse, START, [g + w], 0);
    DeliverStep(decode, parse, START, [g, w], 0);
    DeliverStep(decode, parse, START, [g, w], 1);
    EventsOne(parse, good);
  }

  lemma FlattenTwo(g: seq<Byte>, w: seq<Byte>)
    ensures Flatten([g + w]) == Flatten([g, w])
  {
    assert [g, w][1..] == [w] && [w][1..] == [] && [g + w][1..] == [];
    assert Flatten([w]) == w;
  }

  // ---------------------------------------------------------------------
  // Assembly
  // ---------------------------------------------------------------------

  // The call of one index so far.
  datatype Slot = Slot(index: nat, call: Chat.ToolCall)

  datatype Reply = Reply(
    content: string,
    reasoning: string,
    slots: seq<Slot>,
    usage: Usage,
    finish: Option<string>)

  const NO_CALL := Chat.ToolCall("", "", "")
  const NO_REPLY := Reply("", "", [], Usage(0, 0, 0, 0, None), None)

  /** A delta replaces the id and appends to the name and the arguments. */
  function Updated(call: Chat.ToolCall, d: CallDelta): Chat.ToolCall {
    var changes := d.changes.GetOr(FunctionDelta(None, None));
    Chat.ToolCall(d.id.GetOr(call.id), call.name + changes.name.GetOr(""), call.arguments + changes.arguments.GetOr(""))
  }

  function Merge(slots: seq<Slot>, d: CallDelta): seq<Slot> {
    if slots == [] || d.index < slots[0].index then [Slot(d.index, Updated(NO_CALL, d))] + slots
    else if d.index == slots[0].index then [Slot(d.index, Updated(slots[0].call, d))] + slots[1..]
    else [slots[0]] + Merge(slots[1..], d)
  }

  function MergeAll(slots: seq<Slot>, ds: seq<CallDelta>): seq<Slot> {
    if ds == [] then slots else Merge(MergeAll(slots, ds[..|ds| - 1]), ds[|ds| - 1])
  }

  function Take(r: Reply, e: StreamEvent): Reply {
    match e
    case Delta(content, reasoning, calls) =>
      r.(content := r.content + content.GetOr(""),
         reasoning := r.reasoning + reasoning.GetOr(""),
         slots := MergeAll(r.slots, calls))
    case UsageEvent(usage) => r.(usage := usage)
    case Finished(finish) => if finish.Some? then r.(finish := finish) else r
  }

  function Assemble(events: seq<StreamEvent>): Reply {
    if events == [] then NO_REPLY else Take(Assemble(events[..|events| - 1]), events[|events| - 1])
  }

  function Calls(slots: seq<Slot>): (calls: seq<Chat.ToolCall>)
    ensures |calls| == |slots|
  {
    seq(|slots|, i requires 0 <= i < |slots| => slots[i].call)
  }

  function NonEmpty(text: string): Option<string> {
    if text == "" then None else Some(text)
  }

  function MessageOf(r: Reply): Chat.Message {
    Chat.Message(Chat.Assistant, NonEmpty(r.content), NonEmpty(r.reasoning), Calls(r.slots), None)
  }

  lemma {:induction false} MergeStep(slots: seq<Slot>, d: CallDelta, i: nat)
    requires i < |slots| && slots[i].index < d.index
    ensures slots[..i] + Merge(slots[i..], d) == slots[..i + 1] + Merge(slots[i + 1..], d)
  {
    assert slots[i..][1..] == slots[i + 1..];
    assert slots[..i + 1] == slots[..i] + [slots[i]];
    var rest := Merge(slots[i + 1..], d);
    assert slots[..i] + ([slots[i]] + rest) == (slots[..i] + [slots[i]]) + rest;
  }

  lemma {:induction false} MergeHere(slots: seq<Slot>, d: CallDelta, i: nat)
    requires i <= |slots| && (i < |slots| ==> d.index <= slots[i].index)
    ensures Merge(slots[i..], d)
      == if i < |slots| && slots[i].index == d.index then [Slot(d.index, Updated(slots[i].call, d))] + slots[i + 1..]
         else [Slot(d.index, Updated(NO_CALL, d))] + slots[i..]
  {
    if i < |slots| {
      assert slots[i..][1..] == slots[i + 1..];
    }
  }

  method MergeDelta(slots: seq<Slot>, d: CallDelta) returns (merged: seq<Slot>)
    ensures merged == Merge(slots, d)
  {
    hide Merge;
    assert slots[..0] + Merge(slots[0..], d) == Merge(slots, d) by {
      assert slots[0..] == slots;
    }
    var i := 0;
    while i < |slots| && slots[i].index < d.index
      invariant 0 <= i <= |slots|
      invariant Merge(slots, d) == slots[..i] + Merge(slots[i..], d)
    {
      MergeStep(slots, d, i);
      i := i + 1;
    }
    MergeHere(slots, d, i);
    if i < |slots| && slots[i].index == d.index {
      merged := slots[..i] + ([Slot(d.index, Updated(slots[i].call, d))] + slots[i + 1..]);
    } else {
      merged := slots[..i] + ([Slot(d.index, Updated(NO_CALL, d))] + slots[i..]);
    }
  }

  datatype Streamed = Streamed(message: Chat.Message, finish: Option<string>, usage: Usage, cancelled: bool)

  /** The first event from i on that a cancellation catches, or n when none of the n is caught. */
  function FirstCaught(cancelled: nat -> bool, i: nat, n: nat): (k: nat)
    requires i <= n
    ensures i <= k <= n
    ensures forall j: nat :: i <= j < k ==> !cancelled(j)
    ensures k < n ==> cancelled(k)
    decreases n - i
  {
    if i == n || cancelled(i) then i else FirstCaught(cancelled, i + 1, n)
  }

  /**
   Events in, one message out. When the stream fails, its failure is the event
   behind the others. A cancellation seen at some event, the failing one included,
   drops it and the rest; a failure no cancellation catches loses everything.
   */
  method StreamStep(events: seq<StreamEvent>, fails: bool, cancelled: nat -> bool) returns (result: Option<Streamed>)
    ensures var n := |events| + if fails then 1 else 0;
      var caught := exists k: nat :: k < n && cancelled(k);
      && (result.None? <==> fails && !caught)
      && (result.Some? ==> (result.value.cancelled <==> caught))
    ensures result.Some? ==>
      var r := Assemble(events[..FirstCaught(cancelled, 0, |events|)]);
      var step := result.value;
      && step.message == MessageOf(r)
      && step.finish == r.finish
      && step.usage == r.usage
  {
    var content, reasoning := "", "";
    var slots: seq<Slot> := [];
    var usage := NO_REPLY.usage;
    var finish: Option<string> := None;
    var cut := false;
    var i := 0;
    while i < |events|
      invariant 0 <= i <= |events|
      invariant forall k: nat :: k < i ==> !cancelled(k)
      invariant FirstCaught(cancelled, 0, |events|) == FirstCaught(cancelled, i, |events|)
      invariant Assemble(events[..i]) == Reply(content, reasoning, slots, usage, finish)
    {
      if cancelled(i) {
        cut := true;
        break;
      }
      assert events[..i + 1][..i] == events[..i];
      match events[i] {
        case Delta(contentDelta, reasoningDelta, calls) =>
          if reasoningDelta.Some? {
            reasoning := reasoning + reasoningDelta.value;
          } else {
            assert reasoning + "" == reasoning;
          }
          if contentDelta.Some? {
            content := content + contentDelta.value;
          } else {
            assert content + "" == content;
          }
          slots := MergeDeltas(slots, calls);
        case UsageEvent(value) => usage := value;
        case Finished(reason) =>
          if reason.Some? {
            finish := reason;
          }
      }
      i := i + 1;
    }
    if !cut && fails {
      if !cancelled(|events|) {
        return None;
      }
      cut := true;
    }
    var message := Chat.Message(Chat.Assistant, NonEmpty(content), NonEmpty(reasoning), Calls(slots), None);
    result := Some(Streamed(message, finish, usage, cut));
  }

  method MergeDeltas(slots: seq<Slot>, ds: seq<CallDelta>) returns (merged: seq<Slot>)
    ensures merged == MergeAll(slots, ds)
  {
    merged := slots;
    for i := 0 to |ds|
      invariant merged == MergeAll(slots, ds[..i])
    {
      assert ds[..i + 1][..i] == ds[..i];
      merged := MergeDelta(merged, ds[i]);
    }
    assert ds[..|ds|] == ds;
  }

  // ---------------------------------------------------------------------
  // What one index's call is made of
  // ---------------------------------------------------------------------

  function DeltasOf(e: StreamEvent): seq<CallDelta> {
    if e.Delta? then e.calls else []
  }

  /** Every call delta of the stream, in order. */
  function AllDeltas(events: seq<StreamEvent>): seq<CallDelta> {
    if events == [] then [] else AllDeltas(events[..|events| - 1]) + DeltasOf(events[|events| - 1])
  }

  function At(ds: seq<CallDelta>, index: nat): seq<CallDelta> {
    if ds == [] then []
    else
      var d := ds[|ds| - 1];
      At(ds[..|ds| - 1], index) + (if d.index == index then [d] else [])
  }

  /** The call these deltas spell: last id, joined names, joined arguments. */
  function Spelled(ds: seq<CallDelta>): Chat.ToolCall {
    if ds == [] then NO_CALL else Updated(Spelled(ds[..|ds| - 1]), ds[|ds| - 1])
  }

  ghost predicate Ascending(slots: seq<Slot>) {
    forall i, j :: 0 <= i < j < |slots| ==> slots[i].index < slots[j].index
  }

  function Find(slots: seq<Slot>, index: nat): Option<Chat.ToolCall> {
    if slots == [] then None
    else if slots[0].index == index then Some(slots[0].call)
    else Find(slots[1..], index)
  }

  lemma {:induction false} FindAbsent(slots: seq<Slot>, index: nat)
    requires forall i :: 0 <= i < |slots| ==> index < slots[i].index
    ensures Find(slots, index) == None
  {
    if slots != [] {
      FindAbsent(slots[1..], index);
    }
  }

  lemma {:induction false} FindCons(head: Slot, tail: seq<Slot>, index: nat)
    ensures Find([head] + tail, index) == if head.index == index then Some(head.call) else Find(tail, index)
  {
    assert ([head] + tail)[1..] == tail;
  }

  /** One delta changes the slot of its own index and no other. */
  lemma {:induction false} MergeFind(slots: seq<Slot>, d: CallDelta, index: nat)
    requires Ascending(slots)
    ensures Find(Merge(slots, d), index)
      == if index == d.index then Some(Updated(Find(slots, index).GetOr(NO_CALL), d)) else Find(slots, index)
  {
    if slots == [] || d.index < slots[0].index {
      FindAbsent(slots, d.index);
      FindCons(Slot(d.index, Updated(NO_CALL, d)), slots, index);
    } else if d.index == slots[0].index {
      FindCons(Slot(d.index, Updated(slots[0].call, d)), slots[1..], index);
    } else {
      MergeFind(slots[1..], d, index);
      FindCons(slots[0], Merge(slots[1..], d), index);
    }
  }

  ghost predicate AllAbove(slots: seq<Slot>, index: nat) {
    forall i :: 0 <= i < |slots| ==> index < slots[i].index
  }

  lemma {:induction false} MergeAbove(slots: seq<Slot>, d: CallDelta, index: nat)
    requires AllAbove(slots, index) && index < d.index
    ensures AllAbove(Merge(slots, d), index)
  {
    if slots != [] && slots[0].index < d.index {
      assert forall i :: 0 <= i < |slots[1..]| ==> slots[1..][i] == slots[i + 1];
      MergeAbove(slots[1..], d, index);
    }
  }

  lemma {:induction false} MergeAscending(slots: seq<Slot>, d: CallDelta)
    requires Ascending(slots)
    ensures Ascending(Merge(slots, d))
  {
    if slots != [] && slots[0].index < d.index {
      MergeAscending(slots[1..], d);
      MergeAbove(slots[1..], d, slots[0].index);
    }
  }

  lemma {:induction false} AtAppend(a: seq<CallDelta>, b: seq<CallDelta>, index: nat)
    ensures At(a + b, index) == At(a, index) + At(b, index)
  {
    if b == [] {
      assert a + b == a;
    } else {
      assert (a + b)[..|a + b| - 1] == a + b[..|b| - 1];
      AtAppend(a, b[..|b| - 1], index);
    }
  }

  ghost predicate Spells(slots: seq<Slot>, ds: seq<CallDelta>) {
    && Ascending(slots)
    && forall i: nat :: Find(slots, i) == if At(ds, i) == [] then None else Some(Spelled(At(ds, i)))
  }

  lemma {:induction false} MergeSpells(slots: seq<Slot>, ds: seq<CallDelta>, d: CallDelta)
    requires Spells(slots, ds)
    ensures Spells(Merge(slots, d), ds + [d])
  {
    MergeAscending(slots, d);
    assert (ds + [d])[..|ds + [d]| - 1] == ds;
    forall i: nat
      ensures Find(Merge(slots, d), i)
        == if At(ds + [d], i) == [] then None else Some(Spelled(At(ds + [d], i)))
    {
      MergeFind(slots, d, i);
      var own := At(ds, i);
      assert own + [] == own;
      assert (own + [d])[..|own + [d]| - 1] == own;
    }
  }

  lemma {:induction false} MergeAllSpells(slots: seq<Slot>, ds: seq<CallDelta>, more: seq<CallDelta>)
    requires Spells(slots, ds)
    ensures Spells(MergeAll(slots, more), ds + more)
  {
    hide Spells;
    if more == [] {
      assert ds + more == ds;
    } else {
      var init, last := more[..|more| - 1], more[|more| - 1];
      MergeAllSpells(slots, ds, init);
      MergeSpells(MergeAll(slots, init), ds + init, last);
      assert (ds + init) + [last] == ds + more;
    }
  }

  /**
   The slot of an index holds exactly what that index's deltas spell, in stream
   order, whatever was interleaved with them; slots are in index order, one per
   index seen.
   */
  lemma {:induction false} AssembleSpells(events: seq<StreamEvent>)
    ensures Spells(Assemble(events).slots, AllDeltas(events))
  {
    if events != [] {
      var init, last := events[..|events| - 1], events[|events| - 1];
      AssembleSpells(init);
      MergeAllSpells(Assemble(init).slots, AllDeltas(init), DeltasOf(last));
    }
  }

  function Contents(events: seq<StreamEvent>): seq<string> {
    if events == [] then []
    else
      var e := events[|events| - 1];
      Contents(events[..|events| - 1]) + [if e.Delta? then e.content.GetOr("") else ""]
  }

  function Reasonings(events: seq<StreamEvent>): seq<string> {
    if events == [] then []
    else
      var e := events[|events| - 1];
      Reasonings(events[..|events| - 1]) + [if e.Delta? then e.reasoning.GetOr("") else ""]
  }

  ghost predicate LastFinish(events: seq<StreamEvent>, i: nat) {
    && i < |events| && events[i].Finished? && events[i].finish.Some?
    && forall j :: i < j < |events| ==> !(events[j].Finished? && events[j].finish.Some?)
  }

  ghost predicate LastUsage(events: seq<StreamEvent>, i: nat) {
    i < |events| && events[i].UsageEvent? && forall j :: i < j < |events| ==> !events[j].UsageEvent?
  }

  lemma TakeTexts(r: Reply, e: StreamEvent)
    ensures Take(r, e).content == r.content + if e.Delta? then e.content.GetOr("") else ""
    ensures Take(r, e).reasoning == r.reasoning + if e.Delta? then e.reasoning.GetOr("") else ""
    ensures Take(r, e).finish == if e.Finished? && e.finish.Some? then e.finish else r.finish
    ensures Take(r, e).usage == if e.UsageEvent? then e.usage else r.usage
  {
    hide MergeAll;
    assert r.content + "" == r.content && r.reasoning + "" == r.reasoning;
  }

  /** The texts are the deltas' texts, joined in order. */
  lemma {:induction false} AssembleTexts(events: seq<StreamEvent>)
    ensures Assemble(events).content == Flatten(Contents(events))
    ensures Assemble(events).reasoning == Flatten(Reasonings(events))
  {
    if events != [] {
      hide Take, Flatten;
      var init, e := events[..|events| - 1], events[|events| - 1];
      AssembleTexts(init);
      TakeTexts(Assemble(init), e);
      FlattenSnoc(Contents(init), if e.Delta? then e.content.GetOr("") else "");
      FlattenSnoc(Reasonings(init), if e.Delta? then e.reasoning.GetOr("") else "");
    }
  }

  /** Of several finish reasons, or usages, the last one counts. */
  lemma {:induction false} AssembleLast(events: seq<StreamEvent>, i: nat)
    ensures LastFinish(events, i) ==> Assemble(events).finish == events[i].finish
    ensures LastUsage(events, i) ==> Assemble(events).usage == events[i].usage
  {
    if events != [] {
      hide Take;
      var init, e := events[..|events| - 1], events[|events| - 1];
      TakeTexts(Assemble(init), e);
      if i < |init| {
        AssembleLast(init, i);
        assert init[i] == events[i];
        assert LastFinish(events, i) ==> LastFinish(init, i);
        assert LastUsage(events, i) ==> LastUsage(init, i);
      }
    }
  }

  lemma {:induction false} FindMember(slots: seq<Slot>, i: nat)
    requires i < |slots| && Ascending(slots)
    ensures Find(slots, slots[i].index) == Some(slots[i].call)
  {
    if i > 0 {
      assert slots[i] == slots[1..][i - 1];
      FindMember(slots[1..], i - 1);
    }
  }

  lemma {:induction false} SameSlots(a: seq<Slot>, b: seq<Slot>)
    requires Ascending(a) && Ascending(b)
    requires forall i: nat :: Find(a, i) == Find(b, i)
    ensures a == b
  {
    if a == [] {
      if b != [] {
        FindMember(b, 0);
      }
    } else {
      FindMember(a, 0);
      if b == [] {
        assert false;
      } else {
        FindMember(b, 0);
        FirstIndex(a, b);
        FirstIndex(b, a);
        forall i: nat
          ensures Find(a[1..], i) == Find(b[1..], i)
        {
          if i == a[0].index {
            FindAbsent(a[1..], i);
            FindAbsent(b[1..], i);
          } else {
            assert Find(a, i) == Find(a[1..], i) && Find(b, i) == Find(b[1..], i);
          }
        }
        SameSlots(a[1..], b[1..]);
        assert a == [a[0]] + a[1..] && b == [b[0]] + b[1..];
      }
    }
  }

  lemma {:induction false} FirstIndex(a: seq<Slot>, b: seq<Slot>)
    requires a != [] && b != [] && Ascending(b) && Find(b, a[0].index).Some?
    ensures b[0].index <= a[0].index
  {
    if a[0].index < b[0].index {
      FindAbsent(b, a[0].index);
    }
  }

  /** Interleaving the calls differently changes nothing: only each index's own deltas matter. */
  lemma {:induction false} InterleavingIrrelevant(a: seq<StreamEvent>, b: seq<StreamEvent>)
    requires forall i: nat :: At(AllDeltas(a), i) == At(AllDeltas(b), i)
    ensures Assemble(a).slots == Assemble(b).slots
  {
    AssembleSpells(a);
    AssembleSpells(b);
    forall i: nat
      ensures Find(Assemble(a).slots, i) == Find(Assemble(b).slots, i)
    {
      assert At(AllDeltas(a), i) == At(AllDeltas(b), i);
    }
    SameSlots(Assemble(a).slots, Assemble(b).slots);
  }

  /** Bytes to message: two splits of one stream that parse give one and the same message. */
  lemma {:induction false} SplitMessage(decode: Decoding, parse: Parsing, a: seq<seq<Byte>>, b: seq<seq<Byte>>)
    requires Flatten(a) == Flatten(b)
    requires Parses(parse, FramesOf(decode, START, Flatten(a)))
    ensures !Deliver(decode, parse, START, a).failed && !Deliver(decode, parse, START, b).failed
    ensures Assemble(Deliver(decode, parse, START, a).events) == Assemble(Deliver(decode, parse, START, b).events)
  {
    DeliverMeaning(decode, parse, START, a);
    SplitInvariant(decode, parse, a, b);
  }
}
