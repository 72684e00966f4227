/**
 Every request sent answers each tool call in place and in order, whatever the provider, the user and the
 tools do. The one thing that can break it is an adopted checkpoint whose last chunk ended inside a group of
 results, and then every later request shows it at its third message.
 */
module TurnPairing {
  import opened Wrappers
  import opened Chat
  import opened Pairing
  import opened Compaction
  import opened TurnLoop
  import opened TurnLog

  // ---------------------------------------------------------------------
  // What one reply adds is paired
  // ---------------------------------------------------------------------

  lemma {:induction false} RunBatchAnswers(calls: seq<ToolCall>, i: nat, end: nat, inp: StepInput, unusable: nat)
    requires i <= end <= |calls|
    ensures var p := RunBatch(calls, i, end, inp, unusable);
      !p.ending.GaveUp? ==> p.ending.CallsRan? && |p.messages| == end - i && Answers(p.messages, calls[i..end])
    decreases end - i
  {
    if i < end && NextUnusable(unusable, inp.results(i)) <= MAX_UNUSABLE_ARGUMENTS {
      var next := NextUnusable(unusable, inp.results(i));
      RunBatchAnswers(calls, i + 1, end, inp, next);
      var rest := RunBatch(calls, i + 1, end, inp, next);
      if !rest.ending.GaveUp? {
        AnswersCons(ToolMessage(calls[i].id, inp.results(i).content), rest.messages, calls, i, end);
      }
    }
  }

  lemma AnswersCons(m: Message, ms: seq<Message>, calls: seq<ToolCall>, i: nat, end: nat)
    requires i < end <= |calls|
    requires IsResult(m, calls[i].id)
    requires |ms| == end - (i + 1) && Answers(ms, calls[i + 1..end])
    ensures Answers([m] + ms, calls[i..end])
  {
    forall k | 0 <= k < end - i
      ensures IsResult(([m] + ms)[k], calls[i..end][k].id)
    {
      if k > 0 {
        assert IsResult(ms[k - 1], calls[i + 1..end][k - 1].id);
      }
    }
  }

  lemma AnswersAppend(a: seq<Message>, b: seq<Message>, calls: seq<ToolCall>, i: nat, mid: nat)
    requires i <= mid <= |calls|
    requires |a| == mid - i && Answers(a, calls[i..mid])
    requires |b| == |calls| - mid && Answers(b, calls[mid..])
    ensures Answers(a + b, calls[i..])
  {
    forall k | 0 <= k < |calls| - i
      ensures IsResult((a + b)[k], calls[i..][k].id)
    {
      if k < mid - i {
        assert IsResult(a[k], calls[i..mid][k].id);
      } else {
        assert IsResult(b[k - (mid - i)], calls[mid..][k - (mid - i)].id);
      }
    }
  }

  /** Ran, cancelled between batches, or both: every call is answered once. */
  lemma {:induction false} RunToolsAnswers(cfg: Config, calls: seq<ToolCall>, i: nat, inp: StepInput, unusable: nat)
    requires i <= |calls|
    ensures var p := RunTools(cfg, calls, i, inp, unusable);
      && !p.ending.NoAnswer? && !p.ending.Final? && !p.ending.CallsCut? && !p.ending.Interrupted?
      && (!p.ending.GaveUp? ==> |p.messages| == |calls| - i && Answers(p.messages, calls[i..]))
    decreases |calls| - i
  {
    if i < |calls| && !inp.cancelledBefore(i) {
      var end := BatchEnd(cfg, calls, i);
      RunBatchAnswers(calls, i, end, inp, unusable);
      var batch := RunBatch(calls, i, end, inp, unusable);
      if !batch.ending.GaveUp? {
        RunToolsAnswers(cfg, calls, end, inp, batch.unusable);
        var rest := RunTools(cfg, calls, end, inp, batch.unusable);
        if !rest.ending.GaveUp? {
          AnswersAppend(batch.messages, rest.messages, calls, i, end);
        }
      } else {
        BatchEnding(calls, i, end, inp, unusable);
      }
    }
  }

  lemma {:induction false} BatchEnding(calls: seq<ToolCall>, i: nat, end: nat, inp: StepInput, unusable: nat)
    requires i <= end <= |calls|
    ensures var p := RunBatch(calls, i, end, inp, unusable);
      p.ending.GaveUp? || p.ending.CallsRan?
    decreases end - i
  {
    if i < end && NextUnusable(unusable, inp.results(i)) <= MAX_UNUSABLE_ARGUMENTS {
      BatchEnding(calls, i + 1, end, inp, NextUnusable(unusable, inp.results(i)));
    }
  }

  ghost predicate NoEmpty(ms: seq<Message>) {
    forall i :: 0 <= i < |ms| ==> !IsEmptyAssistant(ms[i])
  }

  lemma AnswersAreTools(results: seq<Message>, calls: seq<ToolCall>)
    requires Answers(results, calls)
    ensures forall i :: 0 <= i < |calls| ==> results[i].role == Tool
  {
    forall i | 0 <= i < |calls|
      ensures results[i].role == Tool
    {
      assert IsResult(results[i], calls[i].id);
    }
  }

  lemma {:induction false} TurnOf(m: Message, results: seq<Message>, calls: seq<ToolCall>)
    requires m.role == Assistant && |m.calls| == |calls|
    requires forall i :: 0 <= i < |calls| ==> m.calls[i].id == calls[i].id
    requires |results| == |calls| && Answers(results, calls)
    requires !IsEmptyAssistant(m)
    ensures Paired([m] + results) && NoEmpty([m] + results)
  {
    forall i | 0 <= i < |m.calls|
      ensures IsResult(results[i], m.calls[i].id)
    {
      assert IsResult(results[i], calls[i].id);
    }
    PairedTurn(m, results);
    AnswersAreTools(results, calls);
  }

  lemma ProducePaired(cfg: Config, inp: StepInput, unusable: nat)
    ensures var p := Produce(cfg, inp, unusable);
      && (!p.ending.GaveUp? ==> Paired(p.messages) && NoEmpty(p.messages))
      && (p.ending.Final? ==> ReplyCalls(inp) == [])
  {
    match inp.reply
    case Failed(_) =>
    case CutShort(a) =>
      CutShortPaired(cfg, a);
    case Finished(a, truncated) =>
      if a.calls == [] {
        PairedPlain(Recorded(AssistantMessage(cfg, a)));
      } else {
        if truncated {
          TurnOf(NotedCalls(cfg, AssistantMessage(cfg, a)), CutResults(cfg, a.calls), a.calls);
        } else {
          RunToolsAnswers(cfg, a.calls, 0, inp, unusable);
          var ran := RunTools(cfg, a.calls, 0, inp, unusable);
          assert a.calls[0..] == a.calls;
          if !ran.ending.GaveUp? {
            TurnOf(AssistantMessage(cfg, a), ran.messages, a.calls);
          }
        }
      }
  }

  lemma CutShortPaired(cfg: Config, a: Answer)
    ensures var ms := Recorded(AssistantMessage(cfg, a)) + InterruptedResults(cfg, a.calls);
      Paired(ms) && NoEmpty(ms)
  {
    var m := AssistantMessage(cfg, a);
    if IsEmptyAssistant(m) {
      assert a.calls == [];
      assert Recorded(m) + InterruptedResults(cfg, a.calls) == [];
    } else {
      TurnOf(m, InterruptedResults(cfg, a.calls), a.calls);
    }
  }

  // ---------------------------------------------------------------------
  // The invariant
  // ---------------------------------------------------------------------

  lemma {:induction false} NormalizeStrips(ms: seq<Message>)
    requires NoEmpty(ms)
    ensures |Normalize(ms)| == |ms|
    ensures forall i :: 0 <= i < |ms| ==> Normalize(ms)[i] == Strip(ms[i])
  {
    if ms != [] {
      NormalizeStrips(ms[1..]);
      assert Normalize(ms) == [Strip(ms[0])] + Normalize(ms[1..]);
    }
  }

  lemma {:induction false} NormalizeKeepsShape(ms: seq<Message>)
    requires NoEmpty(ms)
    ensures |Normalize(ms)| == |ms|
    ensures forall i :: 0 <= i < |ms| ==> SameShape(Normalize(ms)[i], ms[i])
    ensures Paired(Normalize(ms)) <==> Paired(ms)
  {
    NormalizeStrips(ms);
    PairedShapeIff(ms, Normalize(ms));
  }

  lemma NoteShapes(cfg: Config, ms: seq<Message>)
    ensures forall i :: 0 <= i < |ms| ==> SameShape(ms[i], NoteLast(cfg, ms)[i])
  {
  }

  lemma {:induction false} NoteKeepsShape(cfg: Config, ms: seq<Message>)
    ensures forall i :: 0 <= i < |ms| ==> SameShape(NoteLast(cfg, ms)[i], ms[i])
    ensures Paired(NoteLast(cfg, ms)) <==> Paired(ms)
  {
    hide NoteLast;
    NoteShapes(cfg, ms);
    PairedShapeIff(ms, NoteLast(cfg, ms));
  }

  lemma NoteKeepsNoEmpty(cfg: Config, ms: seq<Message>)
    requires NoEmpty(ms)
    ensures NoEmpty(NoteLast(cfg, ms))
  {
    if ms != [] {
      var last := ms[|ms| - 1];
      assert !IsEmptyAssistant(last);
      BlankPrefix(last.content.GetOr(""), cfg.cutAnswerNote);
    }
  }

  lemma BlankPrefix(a: string, b: string)
    ensures Blank(a + b) ==> Blank(a)
  {
    if Blank(a + b) {
      forall i | 0 <= i < |a|
        ensures IsWhitespace(a[i])
      {
        assert (a + b)[i] == a[i];
      }
    }
  }

  /** With a checkpoint in force that was cut open, the third message is a result without its call. */
  ghost predicate RequestPaired(record: Option<Record>, ms: seq<Message>, open: bool) {
    && (record.Some? ==> |ms| >= 3 && (ms[2].role == Tool <==> open))
    && (Paired(ms) <==> !(record.Some? && open))
  }

  ghost predicate PairingInv(st: State, open: bool) {
    && st.messages != [] && st.messages[0].role == System
    && NoEmpty(st.messages) && NoEmpty(st.added) && Paired(st.added)
    && (st.record.Some? ==> st.attempted)
    && RequestPaired(st.record, st.messages, open)
  }

  lemma {:induction false} InvPush(st: State, ms: seq<Message>, open: bool)
    requires PairingInv(st, open)
    requires Paired(ms) && NoEmpty(ms)
    ensures PairingInv(Push(st, ms), open)
  {
    PairedPrefixIff(st.messages, ms);
    PairedAppend(st.added, ms);
  }

  lemma UsersPaired(texts: seq<string>)
    ensures Paired(UserMessages(texts)) && NoEmpty(UserMessages(texts))
  {
    PairedPlain(UserMessages(texts));
  }

  lemma InvBegin(st: State, step: nat, inp: StepInput, open: bool)
    requires PairingInv(st, open)
    ensures PairingInv(Begin(st, step, inp), open)
  {
    UsersPaired(inp.steering);
    var pushed := Push(st, UserMessages(inp.steering));
    InvPush(st, UserMessages(inp.steering), open);
    NormalizeKeepsShape(pushed.messages);
    NormalizeNormal(pushed.messages);
    var begun := Begin(st, step, inp);
    assert begun.messages == Normalize(pushed.messages) && begun.added == pushed.added;
    assert SameShape(begun.messages[0], pushed.messages[0]);
    assert st.record.Some? ==> SameShape(begun.messages[2], pushed.messages[2]);
  }

  /** After a rewrite the list is paired exactly when its third message is not a result. */
  lemma {:induction false} RewrittenPaired(ms: seq<Message>, target: nat, newBefore: nat, r: Rewritten)
    requires target + 1 < |ms|
    requires Paired(ms) && NoEmpty(ms) && ms[0].role == System
    requires RecordTells(ms, target, newBefore, r) && r.record.Some?
    ensures |r.messages| >= 3 && r.messages[0] == ms[0] && NoEmpty(r.messages)
    ensures Paired(r.messages) <==> r.messages[2].role != Tool
    ensures r.messages[2] == ms[1 + r.record.value.shadowed]
  {
    var cut := 1 + r.record.value.shadowed;
    var tail := ms[cut..];
    assert r.messages[0] == ms[0];
    assert r.messages[2..] == tail;
    assert r.messages[1..][1..] == tail;
    assert r.messages[2] == tail[0] == ms[cut];
    PairedTailIff(ms, cut);
    assert Paired(r.messages) <==> Paired(r.messages[1..]);
    assert Paired(r.messages[1..]) <==> Paired(tail);
  }

  /** Whether the rewrite this step would adopt was cut open: decided before the request is built. */
  predicate PreparationCutsOpen(cfg: Config, turnStart: nat, st: State, step: nat, inp: StepInput) {
    var begun := Begin(st, step, inp);
    var target := CompactionTarget(cfg, begun, turnStart, inp);
    target.Some? && RangeCutOpen(cfg, begun.messages, inp.toolTokens, target.value, inp.summaries)
  }

  /** Whether the checkpoint adopted from here on, if any, was cut open. */
  predicate RunCutsOpen(cfg: Config, turnStart: nat, st: State, step: nat, env: Env)
    decreases StepBudget(cfg) + 1 - step
  {
    step <= StepBudget(cfg) && !env(step).cancelledAtStart &&
    if Adopted(Preparation(cfg, turnStart, st, step, env(step))) then
      PreparationCutsOpen(cfg, turnStart, st, step, env(step))
    else
      var r := OneStep(cfg, turnStart, st, step, env(step));
      r.Continue? && RunCutsOpen(cfg, turnStart, r.st, step + 1, env)
  }

  lemma InvReady(cfg: Config, turnStart: nat, st: State, step: nat, inp: StepInput, open: bool)
    requires PairingInv(st, open)
    requires Adopted(Preparation(cfg, turnStart, st, step, inp)) ==>
      (open <==> PreparationCutsOpen(cfg, turnStart, st, step, inp))
    ensures PairingInv(Ready(cfg, turnStart, st, step, inp), open)
  {
    InvBegin(st, step, inp, open);
    ReadyMeaning(cfg, turnStart, st, step, inp);
    var begun := Begin(st, step, inp);
    var p := Preparation(cfg, turnStart, st, step, inp);
    if Adopted(p) {
      assert Paired(begun.messages);
      RewrittenPaired(begun.messages, p.target, |begun.added|, p.rewritten);
      AdoptedCut(cfg, turnStart, st, step, inp);
    }
  }

  /** The tail an adopted checkpoint retains begins with a result just when its last chunk was cut open. */
  lemma AdoptedCut(cfg: Config, turnStart: nat, st: State, step: nat, inp: StepInput)
    requires Adopted(Preparation(cfg, turnStart, st, step, inp)) && Paired(Begin(st, step, inp).messages)
    ensures var ms := Preparation(cfg, turnStart, st, step, inp).rewritten.messages;
      |ms| >= 3 && (ms[2].role == Tool <==> PreparationCutsOpen(cfg, turnStart, st, step, inp))
  {
    var begun := Begin(st, step, inp);
    var target := CompactionTarget(cfg, begun, turnStart, inp).value;
    CompactionEndMeaning(begun.messages, turnStart, RatioTokens(cfg.retainRecent, cfg.contextWindow));
    CompactRangeCuts(cfg, begun.messages, inp.toolTokens, target, inp.summaries, |begun.added|);
  }

  lemma InvAfterReply(cfg: Config, st: State, step: nat, inp: StepInput, open: bool)
    requires PairingInv(st, open)
    requires !Produce(cfg, inp, st.unusable).ending.GaveUp?
    ensures PairingInv(AfterReply(cfg, st, step, inp), open)
  {
    var p := Produce(cfg, inp, st.unusable);
    ProducePaired(cfg, inp, st.unusable);
    InvPush(st, p.messages, open);
    var pushed := Push(st, p.messages);
    NoteKeepsShape(cfg, pushed.messages);
    NoteKeepsShape(cfg, pushed.added);
    NoteKeepsNoEmpty(cfg, pushed.messages);
    NoteKeepsNoEmpty(cfg, pushed.added);
    assert SameShape(NoteLast(cfg, pushed.messages)[0], pushed.messages[0]);
    assert st.record.Some? ==> SameShape(NoteLast(cfg, pushed.messages)[2], pushed.messages[2]);
  }

  // ---------------------------------------------------------------------
  // Over a whole run
  // ---------------------------------------------------------------------

  /** Each request is paired exactly when no checkpoint is in force or it was not cut open. */
  ghost predicate RequestsPaired(log: seq<Event>, open: bool) {
    forall i :: 0 <= i < |log| && log[i].Request? ==> RequestPaired(RecordIn(log[..i]), log[i].messages, open)
  }

  ghost predicate SettledPaired(log: seq<Event>) {
    forall i :: 0 <= i < |log| && log[i].Settled? ==> Paired(log[i].messages)
  }

  lemma RequestsPairedQuiet(log: seq<Event>, es: seq<Event>, open: bool)
    requires RequestsPaired(log, open)
    requires forall i :: 0 <= i < |es| ==> !es[i].Request?
    ensures RequestsPaired(log + es, open)
  {
    forall i | 0 <= i < |log + es| && (log + es)[i].Request?
      ensures RequestPaired(RecordIn((log + es)[..i]), (log + es)[i].messages, open)
    {
      assert (log + es)[..i] == log[..i];
    }
  }

  lemma {:induction false} RequestsPairedRequest(log: seq<Event>, e: Event, open: bool)
    requires RequestsPaired(log, open)
    requires e.Request? && RequestPaired(RecordIn(log), e.messages, open)
    ensures RequestsPaired(log + [e], open)
  {
    forall i | 0 <= i < |log + [e]| && (log + [e])[i].Request?
      ensures RequestPaired(RecordIn((log + [e])[..i]), (log + [e])[i].messages, open)
    {
      assert (log + [e])[..i] == log[..i];
      assert log[..|log|] == log;
    }
  }

  lemma PrepareRequests(log: seq<Event>, step: nat, p: Prepared, open: bool)
    requires RequestsPaired(log, open) && SettledPaired(log)
    ensures RequestsPaired(log + PrepareEvents(step, p), open) && SettledPaired(log + PrepareEvents(step, p))
  {
    hide RecordIn;
    RequestsPairedQuiet(log, PrepareEvents(step, p), open);
  }

  lemma ReadyRequests(cfg: Config, turnStart: nat, st: State, step: nat, inp: StepInput, open: bool)
    requires RequestsPaired(st.log, open) && SettledPaired(st.log)
    requires RecordIn(st.log) == st.record
    ensures var ready := Ready(cfg, turnStart, st, step, inp);
      RequestsPaired(ready.log, open) && SettledPaired(ready.log) && RecordIn(ready.log) == ready.record
  {
    hide Preparation, RecordIn, Ready, PrepareEvents, RequestsPaired, SettledPaired;
    var p := Preparation(cfg, turnStart, st, step, inp);
    ReadyMeaning(cfg, turnStart, st, step, inp);
    ReadyLog(cfg, turnStart, st, step, inp);
    PrepareReads(st.log, step, p);
    PrepareRequests(st.log, step, p, open);
  }

  /** What a step settles: its steering, then what its reply produced. */
  lemma SettledSlice(cfg: Config, st: State, step: nat, inp: StepInput, from: nat)
    requires from <= |st.added|
    requires Paired(st.added[from..])
    requires !Produce(cfg, inp, st.unusable).ending.GaveUp?
    ensures Paired(AfterReply(cfg, st, step, inp).added[from..])
  {
    hide Produce, NoteLast;
    var p := Produce(cfg, inp, st.unusable);
    ProducePaired(cfg, inp, st.unusable);
    PairedAppend(st.added[from..], p.messages);
    var pushed := st.added + p.messages;
    assert pushed[from..] == st.added[from..] + p.messages;
    NoteShapes(cfg, pushed);
    PairedShapeIff(pushed[from..], NoteLast(cfg, pushed)[from..]);
  }

  lemma {:induction false} ConcludedSettled(log: seq<Event>, step: nat, delta: seq<Message>, inp: StepInput, ending: Ending,
                         calls: seq<ToolCall>, called: nat)
    ensures SettledPaired(log) && (!ending.GaveUp? ==> Paired(delta)) ==>
      SettledPaired(log + (CalledEvents(step, calls, called) + ConcludeEvents(step, delta, inp, ending)))
  {
  }

  lemma StepPaired(cfg: Config, turnStart: nat, st: State, step: nat, inp: StepInput, open: bool)
    requires PairingInv(st, open) && RecordIn(st.log) == st.record
    requires RequestsPaired(st.log, open) && SettledPaired(st.log)
    requires !inp.cancelledAtStart && Adopted(Preparation(cfg, turnStart, st, step, inp)) ==>
      (open <==> PreparationCutsOpen(cfg, turnStart, st, step, inp))
    ensures var r := OneStep(cfg, turnStart, st, step, inp);
      && RequestsPaired(r.st.log, open) && SettledPaired(r.st.log)
      && (r.Continue? ==> PairingInv(r.st, open) && RecordIn(r.st.log) == r.st.record)
  {
    hide Ready, Converse;
    if !inp.cancelledAtStart {
      var ready := Ready(cfg, turnStart, st, step, inp);
      InvReady(cfg, turnStart, st, step, inp, open);
      ReadyRequests(cfg, turnStart, st, step, inp, open);
      ReadyMeaning(cfg, turnStart, st, step, inp);
      UsersPaired(inp.steering);
      assert ready.added[|st.added|..] == UserMessages(inp.steering);
      ConversePaired(cfg, ready, step, |st.added|, inp, open);
    }
  }

  lemma ConversePaired(cfg: Config, st: State, step: nat, from: nat, inp: StepInput, open: bool)
    requires PairingInv(st, open) && RecordIn(st.log) == st.record
    requires RequestsPaired(st.log, open) && SettledPaired(st.log)
    requires from <= |st.added| && Paired(st.added[from..])
    ensures var r := Converse(cfg, st, step, from, inp);
      && RequestsPaired(r.st.log, open) && SettledPaired(r.st.log)
      && (r.Continue? ==> PairingInv(r.st, open) && RecordIn(r.st.log) == r.st.record)
  {
    hide Converse, Produce, Conclude, RecordIn, RequestsPaired, AfterReply;
    if !Sends(cfg, st, inp) {
      BlockedLog(cfg, st, step, from, inp);
      RequestsPairedQuiet(st.log, CloseEvents(step, st.added[from..], true, 0, false), open);
    } else {
      var p := Produce(cfg, inp, st.unusable);
      var request := RequestEvent(cfg, st, step, inp);
      var events := AnswerEvents(cfg, st, step, from, inp);
      var after := AfterReply(cfg, st, step, inp);
      ConverseLog(cfg, st, step, from, inp);
      RequestsPairedRequest(st.log, request, open);
      RequestsPairedQuiet(st.log + [request], events, open);
      RequestReads(st.log, request);
      QuietReads(st.log + [request], events);
      if !p.ending.GaveUp? {
        SettledSlice(cfg, st, step, inp, from);
        InvAfterReply(cfg, st, step, inp, open);
      }
      assert events == CalledEvents(step, ReplyCalls(inp), p.called)
        + ConcludeEvents(step, after.added[from..], inp, p.ending);
      ConcludedSettled(st.log + [request], step, after.added[from..], inp, p.ending, ReplyCalls(inp), p.called);
      ConcludeInv(cfg, after, step, from, inp, p.ending, open);
    }
  }

  lemma ConcludeInv(cfg: Config, st: State, step: nat, from: nat, inp: StepInput, ending: Ending, open: bool)
    requires from <= |st.added|
    requires !ending.GaveUp? ==> PairingInv(st, open)
    ensures var r := Conclude(cfg, st, step, from, inp, ending);
      r.Continue? ==> PairingInv(r.st, open) && r.st.record == st.record
  {
    ConcludeMeaning(cfg, st, step, from, inp, ending);
    var r := Conclude(cfg, st, step, from, inp, ending);
    if r.Continue? {
      var trailing := Trailing(cfg, step, inp, ending);
      UsersPaired(inp.pending);
      InvPush(st, trailing, open);
      assert r.st.messages == Push(st, trailing).messages && r.st.added == Push(st, trailing).added;
    }
  }

  lemma StepRecord(cfg: Config, turnStart: nat, st: State, step: nat, inp: StepInput)
    ensures var r := OneStep(cfg, turnStart, st, step, inp);
      var p := Preparation(cfg, turnStart, st, step, inp);
      r.Continue? ==>
        && !inp.cancelledAtStart
        && r.st.record == (if Adopted(p) then p.rewritten.record else st.record)
  {
    hide Ready, Converse, Preparation, Produce, Conclude, AfterReply, RecordTells;
    if !inp.cancelledAtStart {
      var ready := Ready(cfg, turnStart, st, step, inp);
      ReadyMeaning(cfg, turnStart, st, step, inp);
      if Sends(cfg, ready, inp) {
        ConverseLog(cfg, ready, step, |st.added|, inp);
        ConcludeMeaning(cfg, AfterReply(cfg, ready, step, inp), step, |st.added|, inp,
          Produce(cfg, inp, ready.unusable).ending);
      } else {
        BlockedLog(cfg, ready, step, |st.added|, inp);
      }
    }
  }

  lemma RunCutsOpenStep(cfg: Config, turnStart: nat, st: State, step: nat, env: Env)
    requires step <= StepBudget(cfg)
    ensures var inp := env(step);
      var adopts := Adopted(Preparation(cfg, turnStart, st, step, inp));
      var r := OneStep(cfg, turnStart, st, step, inp);
      && (!inp.cancelledAtStart && adopts ==>
           RunCutsOpen(cfg, turnStart, st, step, env) == PreparationCutsOpen(cfg, turnStart, st, step, inp))
      && (r.Continue? && !adopts ==>
           RunCutsOpen(cfg, turnStart, st, step, env) == RunCutsOpen(cfg, turnStart, r.st, step + 1, env))
  {
    StepRecord(cfg, turnStart, st, step, env(step));
    hide OneStep, Preparation, PreparationCutsOpen, StepBudget, Adopted;
  }

  lemma AttemptedOnce(cfg: Config, turnStart: nat, st: State, step: nat, inp: StepInput, open: bool)
    requires PairingInv(st, open) && Adopted(Preparation(cfg, turnStart, st, step, inp))
    ensures st.record.None?
  {
  }

  lemma {:induction false} RunFromPaired(cfg: Config, turnStart: nat, st: State, step: nat, env: Env, open: bool)
    requires PairingInv(st, open) && RecordIn(st.log) == st.record
    requires RequestsPaired(st.log, open) && SettledPaired(st.log)
    requires st.record.None? ==> (open <==> RunCutsOpen(cfg, turnStart, st, step, env))
    ensures var log := RunFrom(cfg, turnStart, st, step, env).st.log;
      RequestsPaired(log, open) && SettledPaired(log)
    decreases StepBudget(cfg) + 1 - step
  {
    hide *;
    if step > StepBudget(cfg) {
      RunFromSpent(cfg, turnStart, st, step, env);
    } else {
      RunFromStep(cfg, turnStart, st, step, env);
      RunCutsOpenStep(cfg, turnStart, st, step, env);
      if Adopted(Preparation(cfg, turnStart, st, step, env(step))) {
        AttemptedOnce(cfg, turnStart, st, step, env(step), open);
      }
      StepPaired(cfg, turnStart, st, step, env(step), open);
      StepRecord(cfg, turnStart, st, step, env(step));
      AdoptedRecord(Preparation(cfg, turnStart, st, step, env(step)));
      var r := OneStep(cfg, turnStart, st, step, env(step));
      if r.Continue? {
        RunFromPaired(cfg, turnStart, r.st, step + 1, env, open);
      }
    }
  }

  lemma AdoptedRecord(p: Prepared)
    ensures Adopted(p) ==> p.Rewrote? && p.rewritten.record.Some?
  {
  }

  lemma {:induction false} BaseHistoryPaired(cfg: Config, history: seq<Message>)
    requires Paired(history)
    ensures var base := BaseHistory(cfg, history);
      Paired(base) && NoEmpty(base) && base != [] && base[0].role == System
  {
    var full := if history != [] && history[0].role == System then history
                else [SystemMessage(cfg.systemPrompt)] + history;
    if full != history {
      assert full[1..] == history;
    }
    NormalizePaired(full);
    NormalizeNormal(full);
    assert Normalize(full) == Repair(full[0]) + Normalize(full[1..]);
  }

  /**
   Any run from any well-paired history: a request is well paired if and only if
   no checkpoint is in force yet or the one adopted was not cut open, and when it
   was, the stray result is the third message of every later request. Every
   settlement is well paired by itself.
   */
  lemma {:induction false} RunPaired(cfg: Config, history: seq<Message>, env: Env)
    requires Paired(history)
    ensures var base := BaseHistory(cfg, history);
      var start := State(base, [], None, false, 0, []);
      var log := Run(cfg, history, env).st.log;
      && RequestsPaired(log, RunCutsOpen(cfg, TurnStart(base), start, 1, env))
      && SettledPaired(log)
  {
    var base := BaseHistory(cfg, history);
    var start := State(base, [], None, false, 0, []);
    BaseHistoryPaired(cfg, history);
    RunFromPaired(cfg, TurnStart(base), start, 1, env, RunCutsOpen(cfg, TurnStart(base), start, 1, env));
  }

  /** The volatile catalog message appended to the wire request changes nothing. */
  lemma {:induction false} CatalogKeepsPairing(ms: seq<Message>, text: string)
    ensures Paired(ms + [UserMessage(text)]) <==> Paired(ms)
  {
    PairedPlain([UserMessage(text)]);
    PairedPrefixIff(ms, [UserMessage(text)]);
  }

  // ---------------------------------------------------------------------
  // Checkpoints that covered their whole range
  // ---------------------------------------------------------------------

  ghost predicate CoversRange(cfg: Config, turnStart: nat, st: State, step: nat, inp: StepInput) {
    var p := Preparation(cfg, turnStart, st, step, inp);
    Adopted(p) ==> p.rewritten.record.value.shadowed == p.target
  }

  ghost predicate RunCoversRanges(cfg: Config, turnStart: nat, st: State, step: nat, env: Env)
    decreases StepBudget(cfg) + 1 - step
  {
    step > StepBudget(cfg) ||
    (CoversRange(cfg, turnStart, st, step, env(step)) &&
     var r := OneStep(cfg, turnStart, st, step, env(step));
     r.Continue? ==> RunCoversRanges(cfg, turnStart, r.st, step + 1, env))
  }

  ghost predicate AllPaired(log: seq<Event>) {
    forall i :: 0 <= i < |log| && log[i].Request? ==> Paired(log[i].messages)
  }

  /** The retained tail of a fully covered range begins with a user message. */
  lemma CoveredCut(cfg: Config, turnStart: nat, st: State, step: nat, inp: StepInput, open: bool)
    requires PairingInv(st, open) && Adopted(Preparation(cfg, turnStart, st, step, inp))
    requires CoversRange(cfg, turnStart, st, step, inp)
    ensures !PreparationCutsOpen(cfg, turnStart, st, step, inp)
  {
    var begun := Begin(st, step, inp);
    var p := Preparation(cfg, turnStart, st, step, inp);
    InvBegin(st, step, inp, open);
    ReadyMeaning(cfg, turnStart, st, step, inp);
    CompactionEndMeaning(begun.messages, turnStart, RatioTokens(cfg.retainRecent, cfg.contextWindow));
    RewrittenPaired(begun.messages, p.target, |begun.added|, p.rewritten);
    AdoptedCut(cfg, turnStart, st, step, inp);
  }

  lemma {:induction false} CoveredRunFrom(cfg: Config, turnStart: nat, st: State, step: nat, env: Env)
    requires PairingInv(st, false) && RecordIn(st.log) == st.record && st.record.None?
    requires RequestsPaired(st.log, false) && SettledPaired(st.log)
    requires RunCoversRanges(cfg, turnStart, st, step, env)
    ensures !RunCutsOpen(cfg, turnStart, st, step, env)
    decreases StepBudget(cfg) + 1 - step
  {
    hide OneStep, PairingInv, RequestsPaired, SettledPaired, CoversRange, PreparationCutsOpen, Preparation, RecordIn;
    if step <= StepBudget(cfg) {
      var p := Preparation(cfg, turnStart, st, step, env(step));
      if Adopted(p) {
        CoveredCut(cfg, turnStart, st, step, env(step), false);
      } else {
        StepPaired(cfg, turnStart, st, step, env(step), false);
        StepRecord(cfg, turnStart, st, step, env(step));
        var r := OneStep(cfg, turnStart, st, step, env(step));
        if r.Continue? {
          CoveredRunFrom(cfg, turnStart, r.st, step + 1, env);
        }
      }
    }
  }

  /** When every adopted checkpoint covered its whole range, every request is well paired. */
  lemma {:induction false} RunWithWholeRangesPaired(cfg: Config, history: seq<Message>, env: Env)
    requires Paired(history)
    requires var base := BaseHistory(cfg, history);
      RunCoversRanges(cfg, TurnStart(base), State(base, [], None, false, 0, []), 1, env)
    ensures AllPaired(Run(cfg, history, env).st.log)
  {
    var base := BaseHistory(cfg, history);
    BaseHistoryPaired(cfg, history);
    CoveredRunFrom(cfg, TurnStart(base), State(base, [], None, false, 0, []), 1, env);
    hide Run, BaseHistory, RunCutsOpen, TurnStart, RunCoversRanges;
    RunPaired(cfg, history, env);
  }
}
