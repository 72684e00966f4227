/**
 What the assembled message says, told from the frames alone: texts joined in order, each call spelled by the
 deltas of its own index, the last finish reason and usage.
 */
module StreamContents {
  import opened Wrappers
  import opened Sse
  import opened StreamReply
  import Chat

  // ---------------------------------------------------------------------
  // The lines of a frame
  // ---------------------------------------------------------------------

  /** The data lines of a block with newlines between them. */
  function Lines(data: seq<string>): string {
    if |data| <= 1 then (if data == [] then "" else data[0]) else data[0] + "\n" + Lines(data[1..])
  }

  lemma {:induction false} JoinIs(data: seq<string>)
    ensures Join(data) == Lines(data)
  {
    if |data| > 1 {
      var init, last := data[..|data| - 1], data[|data| - 1];
      JoinIs(init);
      LinesSnoc(init, last);
      assert data == init + [last];
    }
  }

  lemma {:induction false} LinesSnoc(data: seq<string>, last: string)
    requires data != []
    ensures Lines(data + [last]) == Lines(data) + "\n" + last
  {
    assert (data + [last])[1..] == data[1..] + [last];
    if |data| > 1 {
      LinesSnoc(data[1..], last);
      assert data[0] + "\n" + (Lines(data[1..]) + "\n" + last) == (data[0] + "\n" + Lines(data[1..])) + "\n" + last;
    } else {
      assert Lines([last]) == last;
    }
  }

  /** A block with data lines is one frame of their values, under the last name given; any other is none. */
  lemma {:induction false} FrameSentIs(block: Block)
    ensures FrameSent(block) == if DataOf(block.lines) == [] then []
                                else [Frame(EventOf(block.lines), Lines(DataOf(block.lines)))]
  {
    JoinIs(DataOf(block.lines));
    hide Join, Lines, DataOf, EventOf;
  }

  /** A stream that ends inside a block still gives that block's frame. */
  lemma {:induction false} OpenBlockSent(decode: Decoding, encode: Encoding, blocks: seq<Block>, lines: seq<WireLine>)
    requires forall i :: 0 <= i < |blocks| ==> Sendable(decode, encode, blocks[i])
    requires forall i :: 0 <= i < |lines| ==> LineSendable(decode, encode, lines[i])
    ensures FramesOf(decode, START, Wire(encode, blocks) + LinesWritten(encode, lines))
      == Sent(blocks) + FrameSent(Block(lines, 0))
  {
    hide FeedAll, Sendable, LineSendable, Wire, Sent, LinesWritten, Join, DataOf, EventOf;
    WireRead(decode, encode, blocks);
    LinesRead(decode, encode, START, Wire(encode, blocks), lines);
    var p := Progress([], Fields(DataOf(lines), EventOf(lines)));
    assert Close(decode, p) == FrameSent(Block(lines, 0));
  }

  // ---------------------------------------------------------------------
  // The events of a frame
  // ---------------------------------------------------------------------

  predicate Says(c: Choice) {
    c.content.Some? || c.reasoning.Some? || c.calls != []
  }

  /** A choice gives its delta if it says anything, then its finish if it has one, and nothing else. */
  lemma {:induction false} ChoiceEventsMeaning(c: Choice)
    ensures var es := ChoiceEvents(c);
      && |es| == (if Says(c) then 1 else 0) + (if c.finish.Some? then 1 else 0)
      && (Says(c) ==> es[0].Delta? && es[0].content == c.content && es[0].reasoning == c.reasoning && es[0].calls == c.calls)
      && (c.finish.Some? ==> es[|es| - 1].Finished? && es[|es| - 1].finish == c.finish)
  {
  }

  /** The frame that closes a stream, or a chunk: its usage comes ahead of its choices. */
  lemma {:induction false} FrameEventsMeaning(parse: Parsing, frame: Frame)
    ensures frame.data == "[DONE]" ==> FrameEvents(parse, frame) == Some([Finished(None)])
    ensures frame.data != "[DONE]" ==>
      && (FrameEvents(parse, frame).None? <==> parse(frame.data).None?)
      && (parse(frame.data).Some? ==>
            var chunk, es := parse(frame.data).value, FrameEvents(parse, frame).value;
            var n := if chunk.usage.Some? then 1 else 0;
            && n <= |es| && (n == 1 ==> es[0].UsageEvent? && es[0].usage == chunk.usage.value)
            && es[n..] == Flatten(EachEvents(chunk.choices)))
  {
    if frame.data != "[DONE]" && parse(frame.data).Some? {
      var chunk := parse(frame.data).value;
      ChoicesFlat(chunk.choices);
      hide ChoicesEvents, Flatten;
    }
  }

  function EachEvents(choices: seq<Choice>): (each: seq<seq<StreamEvent>>)
    ensures |each| == |choices|
  {
    seq(|choices|, i requires 0 <= i < |choices| => ChoiceEvents(choices[i]))
  }

  lemma {:induction false} ChoicesFlat(choices: seq<Choice>)
    ensures ChoicesEvents(choices) == Flatten(EachEvents(choices))
  {
    if choices != [] {
      var init, last := choices[..|choices| - 1], choices[|choices| - 1];
      ChoicesFlat(init);
      FlattenSnoc(EachEvents(init), ChoiceEvents(last));
      assert EachEvents(choices) == EachEvents(init) + [ChoiceEvents(last)];
    }
  }

  // ---------------------------------------------------------------------
  // The chunks of a stream
  // ---------------------------------------------------------------------

  /** The chunks the frames hold, in order; the closing frame holds none. */
  function ChunksOf(parse: Parsing, frames: seq<Frame>): seq<Chunk> {
    if frames == [] then []
    else
      var frame := frames[|frames| - 1];
      ChunksOf(parse, frames[..|frames| - 1])
      + (if frame.data == "[DONE]" || parse(frame.data).None? then [] else [parse(frame.data).value])
  }

  function ChoicesOf(chunks: seq<Chunk>): seq<Choice> {
    if chunks == [] then [] else ChoicesOf(chunks[..|chunks| - 1]) + chunks[|chunks| - 1].choices
  }

  function ContentsOf(choices: seq<Choice>): (texts: seq<string>)
    ensures |texts| == |choices|
  {
    seq(|choices|, i requires 0 <= i < |choices| => choices[i].content.GetOr(""))
  }

  function ReasoningsOf(choices: seq<Choice>): (texts: seq<string>)
    ensures |texts| == |choices|
  {
    seq(|choices|, i requires 0 <= i < |choices| => choices[i].reasoning.GetOr(""))
  }

  function CallsOf(choices: seq<Choice>): (calls: seq<seq<CallDelta>>)
    ensures |calls| == |choices|
  {
    seq(|choices|, i requires 0 <= i < |choices| => choices[i].calls)
  }

  function FinishesOf(choices: seq<Choice>): (finishes: seq<Option<string>>)
    ensures |finishes| == |choices|
  {
    seq(|choices|, i requires 0 <= i < |choices| => choices[i].finish)
  }

  function UsagesOf(chunks: seq<Chunk>): (usages: seq<Option<Usage>>)
    ensures |usages| == |chunks|
  {
    seq(|chunks|, i requires 0 <= i < |chunks| => chunks[i].usage)
  }

  /** This is the last value given, if one is. */
  ghost predicate LastGiven<T(!new)>(values: seq<Option<T>>, last: Option<T>) {
    if last.None? then forall i :: 0 <= i < |values| ==> values[i].None?
    else exists i: nat :: i < |values| && values[i] == last && forall j :: i < j < |values| ==> values[j].None?
  }

  lemma {:induction false} LastGivenSnoc<T(!new)>(values: seq<Option<T>>, v: Option<T>, last: Option<T>)
    requires LastGiven(values, last)
    ensures LastGiven(values + [v], if v.Some? then v else last)
  {
    var more := values + [v];
    if v.Some? {
      assert more[|values|] == v;
    } else if last.Some? {
      var i: nat :| i < |values| && values[i] == last && forall j :: i < j < |values| ==> values[j].None?;
      assert more[i] == last;
    }
  }

  // ---------------------------------------------------------------------
  // One choice, one frame
  // ---------------------------------------------------------------------

  /** The last usage, or none of it. */
  ghost predicate LastUsed(usages: seq<Option<Usage>>, usage: Usage) {
    LastGiven(usages, Some(usage)) || (LastGiven(usages, None) && usage == Usage(0, 0, 0, 0, None))
  }

  /** The reply says what these chunks and choices say. */
  ghost predicate Tells(r: Reply, usages: seq<Option<Usage>>, choices: seq<Choice>) {
    && r.content == Flatten(ContentsOf(choices))
    && r.reasoning == Flatten(ReasoningsOf(choices))
    && Spells(r.slots, Flatten(CallsOf(choices)))
    && LastGiven(FinishesOf(choices), r.finish)
    && LastUsed(usages, r.usage)
  }

  function TakeAll(r: Reply, events: seq<StreamEvent>): Reply {
    if events == [] then r else StreamReply.Take(TakeAll(r, events[..|events| - 1]), events[|events| - 1])
  }

  lemma {:induction false} AssembleOn(a: seq<StreamEvent>, b: seq<StreamEvent>)
    ensures Assemble(a + b) == TakeAll(Assemble(a), b)
  {
    if b == [] {
      assert a + b == a;
    } else {
      assert (a + b)[..|a + b| - 1] == a + b[..|b| - 1];
      AssembleOn(a, b[..|b| - 1]);
    }
  }

  lemma {:induction false} TakeOn(r: Reply, a: seq<StreamEvent>, b: seq<StreamEvent>)
    ensures TakeAll(r, a + b) == TakeAll(TakeAll(r, a), b)
  {
    if b == [] {
      assert a + b == a;
    } else {
      assert (a + b)[..|a + b| - 1] == a + b[..|b| - 1];
      TakeOn(r, a, b[..|b| - 1]);
    }
  }

  lemma {:induction false} TakeOne(r: Reply, e: StreamEvent)
    ensures TakeAll(r, [e]) == StreamReply.Take(r, e) && TakeAll(r, []) == r
  {
    assert [e][..0] == [];
  }

  /** What taking a choice's events does. */
  lemma {:induction false} ChoiceTaken(r: Reply, c: Choice)
    ensures TakeAll(r, ChoiceEvents(c))
      == Reply(r.content + c.content.GetOr(""), r.reasoning + c.reasoning.GetOr(""), MergeAll(r.slots, c.calls),
               r.usage, if c.finish.Some? then c.finish else r.finish)
  {
    var delta := Delta(c.content, c.reasoning, c.calls);
    TakeOne(r, delta);
    TakeOne(r, Finished(c.finish));
    TakeOn(r, [delta], [Finished(c.finish)]);
    TakeOne(StreamReply.Take(r, delta), Finished(c.finish));
    assert r.content + "" == r.content && r.reasoning + "" == r.reasoning;
    assert MergeAll(r.slots, []) == r.slots;
    hide TakeAll, MergeAll;
  }

  lemma {:induction false} ChoicesSnoc(choices: seq<Choice>, c: Choice)
    ensures ContentsOf(choices + [c]) == ContentsOf(choices) + [c.content.GetOr("")]
    ensures ReasoningsOf(choices + [c]) == ReasoningsOf(choices) + [c.reasoning.GetOr("")]
    ensures CallsOf(choices + [c]) == CallsOf(choices) + [c.calls]
    ensures FinishesOf(choices + [c]) == FinishesOf(choices) + [c.finish]
  {
  }

  lemma {:induction false} ChoiceTells(r: Reply, usages: seq<Option<Usage>>, choices: seq<Choice>, c: Choice)
    requires Tells(r, usages, choices)
    ensures Tells(TakeAll(r, ChoiceEvents(c)), usages, choices + [c])
  {
    ChoiceTaken(r, c);
    ChoicesSnoc(choices, c);
    FlattenSnoc(ContentsOf(choices), c.content.GetOr(""));
    FlattenSnoc(ReasoningsOf(choices), c.reasoning.GetOr(""));
    FlattenSnoc(CallsOf(choices), c.calls);
    MergeAllSpells(r.slots, Flatten(CallsOf(choices)), c.calls);
    LastGivenSnoc(FinishesOf(choices), c.finish, r.finish);
    hide *;
    TellsHere(TakeAll(r, ChoiceEvents(c)), usages, choices + [c]);
  }

  lemma {:induction false} TellsHere(r: Reply, usages: seq<Option<Usage>>, choices: seq<Choice>)
    requires r.content == Flatten(ContentsOf(choices)) && r.reasoning == Flatten(ReasoningsOf(choices))
    requires Spells(r.slots, Flatten(CallsOf(choices)))
    requires LastGiven(FinishesOf(choices), r.finish) && LastUsed(usages, r.usage)
    ensures Tells(r, usages, choices)
  {
    hide Flatten, Spells, LastGiven, LastUsed, ContentsOf, ReasoningsOf, CallsOf, FinishesOf;
  }

  lemma {:induction false} ChoicesTell(r: Reply, usages: seq<Option<Usage>>, choices: seq<Choice>, more: seq<Choice>)
    requires Tells(r, usages, choices)
    ensures Tells(TakeAll(r, ChoicesEvents(more)), usages, choices + more)
  {
    hide Tells, ChoiceEvents;
    if more == [] {
      assert choices + more == choices;
    } else {
      var init, last := more[..|more| - 1], more[|more| - 1];
      ChoicesTell(r, usages, choices, init);
      ChoiceTells(TakeAll(r, ChoicesEvents(init)), usages, choices + init, last);
      TakeOn(r, ChoicesEvents(init), ChoiceEvents(last));
      assert (choices + init) + [last] == choices + more;
    }
  }

  lemma {:induction false} UsageTells(r: Reply, usages: seq<Option<Usage>>, choices: seq<Choice>, usage: Option<Usage>)
    requires Tells(r, usages, choices)
    ensures Tells(TakeAll(r, if usage.Some? then [UsageEvent(usage.value)] else []), usages + [usage], choices)
  {
    hide Flatten, Spells, LastGiven, ContentsOf, ReasoningsOf, CallsOf, FinishesOf;
    if LastGiven(usages, Some(r.usage)) {
      LastGivenSnoc(usages, usage, Some(r.usage));
    } else {
      LastGivenSnoc(usages, usage, None);
    }
    if usage.Some? {
      TakeOne(r, UsageEvent(usage.value));
    }
  }

  /** The closing frame adds nothing to the reply. */
  lemma {:induction false} DoneTells(r: Reply)
    ensures TakeAll(r, [Finished(None)]) == r
  {
    TakeOne(r, Finished(None));
  }

  lemma {:induction false} ChunksSnoc(parse: Parsing, frames: seq<Frame>, frame: Frame)
    ensures frame.data == "[DONE]" ==> ChunksOf(parse, frames + [frame]) == ChunksOf(parse, frames)
    ensures frame.data != "[DONE]" && parse(frame.data).Some? ==>
      ChunksOf(parse, frames + [frame]) == ChunksOf(parse, frames) + [parse(frame.data).value]
  {
    assert (frames + [frame])[..|frames + [frame]| - 1] == frames;
    assert ChunksOf(parse, frames) + [] == ChunksOf(parse, frames);
  }

  lemma {:induction false} ChoicesOfSnoc(chunks: seq<Chunk>, chunk: Chunk)
    ensures ChoicesOf(chunks + [chunk]) == ChoicesOf(chunks) + chunk.choices
    ensures UsagesOf(chunks + [chunk]) == UsagesOf(chunks) + [chunk.usage]
  {
    assert (chunks + [chunk])[..|chunks + [chunk]| - 1] == chunks;
  }

  lemma {:induction false} FrameTells(parse: Parsing, r: Reply, frames: seq<Frame>, frame: Frame)
    requires var chunks := ChunksOf(parse, frames); Tells(r, UsagesOf(chunks), ChoicesOf(chunks))
    requires FrameEvents(parse, frame).Some?
    ensures var chunks := ChunksOf(parse, frames + [frame]);
      Tells(TakeAll(r, FrameEvents(parse, frame).value), UsagesOf(chunks), ChoicesOf(chunks))
  {
    var chunks := ChunksOf(parse, frames);
    ChunksSnoc(parse, frames, frame);
    hide Tells, ChunksOf, UsagesOf, ChoicesOf, ChoicesEvents, TakeAll;
    if frame.data == DONE {
      DoneTells(r);
    } else {
      var chunk := parse(frame.data).value;
      var used := if chunk.usage.Some? then [UsageEvent(chunk.usage.value)] else [];
      ChoicesOfSnoc(chunks, chunk);
      UsageTells(r, UsagesOf(chunks), ChoicesOf(chunks), chunk.usage);
      ChoicesTell(TakeAll(r, used), UsagesOf(chunks) + [chunk.usage], ChoicesOf(chunks), chunk.choices);
      TakeOn(r, used, ChoicesEvents(chunk.choices));
    }
  }

  lemma {:induction false} NothingTold()
    ensures Tells(NO_REPLY, [], [])
  {
    assert ContentsOf([]) == [] && ReasoningsOf([]) == [] && CallsOf([]) == [] && FinishesOf([]) == [];
    assert LastGiven<Usage>([], None);
  }

  /** The whole stream: what its chunks and choices say is what the reply says. */
  lemma {:induction false} StreamTells(parse: Parsing, frames: seq<Frame>)
    requires Parses(parse, frames)
    ensures var chunks := ChunksOf(parse, frames);
      Tells(Assemble(Events(parse, frames)), UsagesOf(chunks), ChoicesOf(chunks))
  {
    if frames == [] {
      NothingTold();
      assert UsagesOf([]) == [];
    } else {
      var init, last := frames[..|frames| - 1], frames[|frames| - 1];
      assert frames == init + [last];
      ParsesAppend(parse, init, [last]);
      assert [last][0] == last;
      StreamTells(parse, init);
      EventsAppend(parse, init, [last]);
      EventsOne(parse, last);
      AssembleOn(Events(parse, init), FrameEvents(parse, last).value);
      FrameTells(parse, Assemble(Events(parse, init)), init, last);
      hide *;
    }
  }

  // ---------------------------------------------------------------------
  // The calls of the message
  // ---------------------------------------------------------------------

  function IdsOf(ds: seq<CallDelta>): (ids: seq<Option<string>>)
    ensures |ids| == |ds|
  {
    seq(|ds|, i requires 0 <= i < |ds| => ds[i].id)
  }

  function NamesOf(ds: seq<CallDelta>): (names: seq<string>)
    ensures |names| == |ds|
  {
    seq(|ds|, i requires 0 <= i < |ds| => if ds[i].changes.Some? then ds[i].changes.value.name.GetOr("") else "")
  }

  function ArgumentsOf(ds: seq<CallDelta>): (texts: seq<string>)
    ensures |texts| == |ds|
  {
    seq(|ds|, i requires 0 <= i < |ds| => if ds[i].changes.Some? then ds[i].changes.value.arguments.GetOr("") else "")
  }

  /** A call is spelled by its deltas: the last id given, all names joined, all arguments joined. */
  ghost predicate SpelledBy(call: Chat.ToolCall, ds: seq<CallDelta>) {
    && (LastGiven(IdsOf(ds), Some(call.id)) || (LastGiven(IdsOf(ds), None) && call.id == ""))
    && call.name == Flatten(NamesOf(ds))
    && call.arguments == Flatten(ArgumentsOf(ds))
  }

  lemma {:induction false} DeltasSnoc(ds: seq<CallDelta>, d: CallDelta)
    ensures IdsOf(ds + [d]) == IdsOf(ds) + [d.id]
    ensures NamesOf(ds + [d]) == NamesOf(ds) + [if d.changes.Some? then d.changes.value.name.GetOr("") else ""]
    ensures ArgumentsOf(ds + [d])
      == ArgumentsOf(ds) + [if d.changes.Some? then d.changes.value.arguments.GetOr("") else ""]
  {
  }

  lemma {:induction false} SpelledMeaning(ds: seq<CallDelta>)
    ensures SpelledBy(Spelled(ds), ds)
  {
    if ds == [] {
      assert IdsOf([]) == [] && NamesOf([]) == [] && ArgumentsOf([]) == [];
      assert LastGiven<string>([], None);
    } else {
      var init, d := ds[..|ds| - 1], ds[|ds| - 1];
      assert ds == init + [d];
      SpelledMeaning(init);
      DeltasSnoc(init, d);
      FlattenSnoc(NamesOf(init), if d.changes.Some? then d.changes.value.name.GetOr("") else "");
      FlattenSnoc(ArgumentsOf(init), if d.changes.Some? then d.changes.value.arguments.GetOr("") else "");
      var before := Spelled(init);
      if LastGiven(IdsOf(init), Some(before.id)) {
        LastGivenSnoc(IdsOf(init), d.id, Some(before.id));
      } else {
        LastGivenSnoc(IdsOf(init), d.id, None);
      }
      hide Flatten, LastGiven, IdsOf, NamesOf, ArgumentsOf;
    }
  }

  lemma {:induction false} AtSome(ds: seq<CallDelta>, index: nat)
    ensures At(ds, index) != [] <==> exists i: nat :: i < |ds| && ds[i].index == index
  {
    if ds != [] {
      var init := ds[..|ds| - 1];
      AtSome(init, index);
      if i: nat :| i < |init| && init[i].index == index {
        assert ds[i].index == index;
      }
      if i: nat :| i < |ds| && ds[i].index == index {
        assert i < |init| ==> init[i].index == index;
      }
    }
  }

  /** The calls of a message: one for each index that occurs, in the order of the indices. */
  ghost predicate CallsSpelled(calls: seq<Chat.ToolCall>, ds: seq<CallDelta>, indices: seq<nat>) {
    && |indices| == |calls|
    && (forall j, k :: 0 <= j < k < |indices| ==> indices[j] < indices[k])
    && (forall index: nat :: index in indices <==> exists i: nat :: i < |ds| && ds[i].index == index)
    && (forall k :: 0 <= k < |calls| ==> SpelledBy(calls[k], At(ds, indices[k])))
  }

  function IndicesOf(slots: seq<Slot>): (indices: seq<nat>)
    ensures |indices| == |slots|
    ensures forall k :: 0 <= k < |slots| ==> indices[k] == slots[k].index
  {
    seq(|slots|, k requires 0 <= k < |slots| => slots[k].index)
  }

  lemma {:induction false} FindSome(slots: seq<Slot>, index: nat)
    ensures Find(slots, index).Some? <==> index in IndicesOf(slots)
  {
    if slots != [] {
      FindSome(slots[1..], index);
      assert IndicesOf(slots) == [slots[0].index] + IndicesOf(slots[1..]);
    }
  }

  lemma {:induction false} SlotsSpelled(slots: seq<Slot>, ds: seq<CallDelta>)
    requires Spells(slots, ds)
    ensures CallsSpelled(Calls(slots), ds, IndicesOf(slots))
  {
    hide SpelledBy, At, Find;
    forall index: nat
      ensures index in IndicesOf(slots) <==> exists i: nat :: i < |ds| && ds[i].index == index
    {
      AtSome(ds, index);
      FindSome(slots, index);
    }
    forall k | 0 <= k < |slots|
      ensures SpelledBy(Calls(slots)[k], At(ds, IndicesOf(slots)[k]))
    {
      FindMember(slots, k);
      SpelledMeaning(At(ds, slots[k].index));
    }
  }

  /** The message of a reply, told from the stream's chunks. */
  ghost predicate MessageTold(m: Chat.Message, choices: seq<Choice>, indices: seq<nat>) {
    && m.role == Chat.Assistant && m.callId == None
    && m.content == (if Flatten(ContentsOf(choices)) == "" then None else Some(Flatten(ContentsOf(choices))))
    && m.reasoning == (if Flatten(ReasoningsOf(choices)) == "" then None else Some(Flatten(ReasoningsOf(choices))))
    && CallsSpelled(m.calls, Flatten(CallsOf(choices)), indices)
  }

  /** From frames to message: every text, call, finish reason and usage of the stream, each where it belongs. */
  lemma {:induction false} MessageSays(parse: Parsing, frames: seq<Frame>) returns (indices: seq<nat>)
    requires Parses(parse, frames)
    ensures var chunks := ChunksOf(parse, frames);
      var r := Assemble(Events(parse, frames));
      && MessageTold(MessageOf(r), ChoicesOf(chunks), indices)
      && LastGiven(FinishesOf(ChoicesOf(chunks)), r.finish)
      && LastUsed(UsagesOf(chunks), r.usage)
  {
    var r := Assemble(Events(parse, frames));
    var choices := ChoicesOf(ChunksOf(parse, frames));
    StreamTells(parse, frames);
    hide Assemble, Events, Flatten, ContentsOf, ReasoningsOf, CallsOf, Spells, CallsSpelled, ChunksOf, ChoicesOf;
    SlotsSpelled(r.slots, Flatten(CallsOf(choices)));
    indices := IndicesOf(r.slots);
  }
}
