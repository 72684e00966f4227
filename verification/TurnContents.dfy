/**
 What a step adds and reports, message by message and event by event, told from what goes in: the steering, the
 answer, the result of each call by its index, and the cancellations.
 */
module TurnContents {
  import opened Wrappers
  import opened Chat
  import opened Compaction
  import opened CompactionCalls
  import opened TurnLoop
  import opened TurnLog
  import opened TurnEnds

  // ---------------------------------------------------------------------
  // Where cancellation is looked at
  // ---------------------------------------------------------------------

  /** Call c does not run together with the call before it. */
  predicate Boundary(cfg: Config, calls: seq<ToolCall>, c: nat) {
    c <= |calls| && (0 < c < |calls| ==> !cfg.parallelSafe(calls[c - 1]) || !cfg.parallelSafe(calls[c]))
  }

  ghost predicate NextBoundary(cfg: Config, calls: seq<ToolCall>, i: nat, e: nat) {
    i < e && Boundary(cfg, calls, e) && forall c: nat :: i < c < e ==> !Boundary(cfg, calls, c)
  }

  lemma {:induction false} SafeRunEnds(cfg: Config, calls: seq<ToolCall>, i: nat)
    requires 0 < i <= |calls| && cfg.parallelSafe(calls[i - 1])
    ensures var e := SafeRun(cfg, calls, i);
      Boundary(cfg, calls, e) && forall c: nat :: i <= c < e ==> !Boundary(cfg, calls, c)
    decreases |calls| - i
  {
    if i < |calls| && cfg.parallelSafe(calls[i]) {
      SafeRunEnds(cfg, calls, i + 1);
    }
  }

  /** A batch ends at the next boundary. */
  lemma {:induction false} BatchEndMeaning(cfg: Config, calls: seq<ToolCall>, i: nat)
    requires i < |calls|
    ensures NextBoundary(cfg, calls, i, BatchEnd(cfg, calls, i))
  {
    if cfg.parallelSafe(calls[i]) {
      SafeRunEnds(cfg, calls, i + 1);
    }
  }

  /** No cancellation is seen at a boundary from i up to, but not at, e. */
  ghost predicate Uncaught(cfg: Config, calls: seq<ToolCall>, inp: StepInput, i: nat, e: nat) {
    forall c: nat :: i <= c < e && Boundary(cfg, calls, c) ==> !inp.cancelledBefore(c)
  }

  /** The calls are run up to the first boundary where a cancellation is seen, and no other is looked at. */
  lemma {:induction false} ReachedMeaning(cfg: Config, calls: seq<ToolCall>, i: nat, inp: StepInput)
    requires i <= |calls| && Boundary(cfg, calls, i)
    ensures var e := Reached(cfg, calls, i, inp);
      && Boundary(cfg, calls, e) && Uncaught(cfg, calls, inp, i, e)
      && (e == |calls| || inp.cancelledBefore(e))
    decreases |calls| - i
  {
    hide BatchEnd, Boundary;
    if i < |calls| && !inp.cancelledBefore(i) {
      BatchEndMeaning(cfg, calls, i);
      ReachedMeaning(cfg, calls, BatchEnd(cfg, calls, i), inp);
    }
  }

  // ---------------------------------------------------------------------
  // The results of the calls
  // ---------------------------------------------------------------------

  /** The results of calls from.., each its own call's: what the call returned, or that it was interrupted. */
  ghost predicate ResultsTold(cfg: Config, calls: seq<ToolCall>, inp: StepInput, from: nat, called: nat,
                              ms: seq<Message>) {
    && from + |ms| <= |calls|
    && forall k: nat :: from <= k < from + |ms| ==>
      ms[k - from] == ToolMessage(calls[k].id,
        if k < called then inp.results(k).content else cfg.interruptedResult(calls[k].name))
  }

  lemma {:induction false} ResultsConcat(cfg: Config, calls: seq<ToolCall>, inp: StepInput, from: nat, called: nat,
                                         a: seq<Message>, b: seq<Message>)
    requires ResultsTold(cfg, calls, inp, from, called, a)
    requires ResultsTold(cfg, calls, inp, from + |a|, called, b)
    ensures ResultsTold(cfg, calls, inp, from, called, a + b)
  {
    forall k: nat | from <= k < from + |a + b|
      ensures (a + b)[k - from] == ToolMessage(calls[k].id,
        if k < called then inp.results(k).content else cfg.interruptedResult(calls[k].name))
    {
      if k >= from + |a| {
        assert (a + b)[k - from] == b[k - (from + |a|)];
      } else {
        assert (a + b)[k - from] == a[k - from];
      }
    }
  }

  /** Results of calls that all ran do not depend on where the running stopped. */
  lemma {:induction false} ResultsRan(cfg: Config, calls: seq<ToolCall>, inp: StepInput, from: nat, called: nat,
                                      more: nat, ms: seq<Message>)
    requires ResultsTold(cfg, calls, inp, from, called, ms)
    requires from + |ms| <= called && from + |ms| <= more
    ensures ResultsTold(cfg, calls, inp, from, more, ms)
  {
  }

  lemma {:induction false} ResultsOne(cfg: Config, calls: seq<ToolCall>, inp: StepInput, i: nat, called: nat)
    requires i < |calls| && i < called
    ensures ResultsTold(cfg, calls, inp, i, called, [ToolMessage(calls[i].id, inp.results(i).content)])
  {
  }

  lemma {:induction false} ResultsInterrupted(cfg: Config, calls: seq<ToolCall>, inp: StepInput, i: nat)
    requires i <= |calls|
    ensures ResultsTold(cfg, calls, inp, i, i, InterruptedResults(cfg, calls[i..]))
  {
  }

  /** Call g is the first of i.. whose payload makes the row too long. */
  ghost predicate OverAt(inp: StepInput, before: nat, i: nat, g: nat) {
    && i <= g && Streak(inp, before, i, g + 1) > MAX_UNUSABLE_ARGUMENTS
    && forall k: nat :: i < k <= g ==> Streak(inp, before, i, k) <= MAX_UNUSABLE_ARGUMENTS
  }

  lemma {:induction false} OverLater(inp: StepInput, before: nat, i: nat, m: nat, g: nat)
    requires i <= m && OverAt(inp, Streak(inp, before, i, m), m, g)
    requires forall k: nat :: i < k <= m ==> Streak(inp, before, i, k) <= MAX_UNUSABLE_ARGUMENTS
    ensures OverAt(inp, before, i, g)
  {
    hide Streak;
    StreakSplit(inp, before, i, m, g + 1);
    forall k: nat | i < k <= g
      ensures Streak(inp, before, i, k) <= MAX_UNUSABLE_ARGUMENTS
    {
      if k > m {
        StreakSplit(inp, before, i, m, k);
      }
    }
  }

  lemma {:induction false} NotTooMany(inp: StepInput, before: nat, i: nat, j: nat)
    requires i <= j && !TooMany(inp, before, i, j)
    ensures forall k: nat :: i < k <= j ==> Streak(inp, before, i, k) <= MAX_UNUSABLE_ARGUMENTS
  {
    hide Streak;
  }

  lemma {:induction false} OverNow(inp: StepInput, before: nat, i: nat)
    requires NextUnusable(before, inp.results(i)) > MAX_UNUSABLE_ARGUMENTS
    ensures OverAt(inp, before, i, i)
  {
    TooManyOne(inp, before, i);
  }

  lemma {:induction false} BatchContents(cfg: Config, calls: seq<ToolCall>, i: nat, end: nat, inp: StepInput, before: nat)
    requires i <= end <= |calls|
    ensures var p := RunBatch(calls, i, end, inp, before);
      && p.called == end
      && ResultsTold(cfg, calls, inp, i, end, p.messages)
      && (p.ending == GaveUp ==> i + |p.messages| < end && OverAt(inp, before, i, i + |p.messages|))
      && (p.ending != GaveUp ==> i + |p.messages| == end)
    decreases end - i
  {
    hide Streak, ResultsTold, OverAt;
    if i == end {
      ResultsNone(cfg, calls, inp, i, end);
    } else {
      var next := NextUnusable(before, inp.results(i));
      TooManyOne(inp, before, i);
      if next > MAX_UNUSABLE_ARGUMENTS {
        ResultsNone(cfg, calls, inp, i, end);
        OverNow(inp, before, i);
      } else {
        BatchContents(cfg, calls, i + 1, end, inp, next);
        var rest := RunBatch(calls, i + 1, end, inp, next);
        ResultsOne(cfg, calls, inp, i, end);
        ResultsConcat(cfg, calls, inp, i, end, [ToolMessage(calls[i].id, inp.results(i).content)], rest.messages);
        if rest.ending == GaveUp {
          OverLater(inp, before, i, i + 1, i + 1 + |rest.messages|);
        }
      }
    }
  }

  lemma {:induction false} ResultsNone(cfg: Config, calls: seq<ToolCall>, inp: StepInput, i: nat, called: nat)
    requires i <= |calls|
    ensures ResultsTold(cfg, calls, inp, i, called, [])
  {
  }

  /** What the calls from i on leave when they are given up, ... */
  ghost predicate ToolsLeft(cfg: Config, calls: seq<ToolCall>, i: nat, inp: StepInput, before: nat, p: Production) {
    var g := i + |p.messages|;
    && OverAt(inp, before, i, g)
    && NextBoundary(cfg, calls, g, p.called)
    && Uncaught(cfg, calls, inp, i, g + 1)
    && ResultsTold(cfg, calls, inp, i, p.called, p.messages)
  }

  /** ... and when they are not. */
  ghost predicate ToolsAnswered(cfg: Config, calls: seq<ToolCall>, i: nat, inp: StepInput, p: Production) {
    && i + |p.messages| == |calls|
    && p.called == Reached(cfg, calls, i, inp)
    && ResultsTold(cfg, calls, inp, i, p.called, p.messages)
  }

  lemma {:induction false} ToolsContents(cfg: Config, calls: seq<ToolCall>, i: nat, inp: StepInput, before: nat)
    requires i <= |calls| && Boundary(cfg, calls, i)
    ensures var p := RunTools(cfg, calls, i, inp, before);
      if p.ending == GaveUp then ToolsLeft(cfg, calls, i, inp, before, p) else ToolsAnswered(cfg, calls, i, inp, p)
    decreases |calls| - i
  {
    hide BatchEnd, RunBatch, Boundary, ResultsTold, OverAt, Streak, TooMany;
    if i == |calls| {
      ResultsNone(cfg, calls, inp, i, i);
    } else if inp.cancelledBefore(i) {
      ResultsInterrupted(cfg, calls, inp, i);
    } else {
      var m := BatchEnd(cfg, calls, i);
      var batch := RunBatch(calls, i, m, inp, before);
      BatchEndMeaning(cfg, calls, i);
      BatchContents(cfg, calls, i, m, inp, before);
      BatchGivesUp(calls, i, m, inp, before);
      if batch.ending != GaveUp {
        NotTooMany(inp, before, i, m);
        ToolsContents(cfg, calls, m, inp, Streak(inp, before, i, m));
        var rest := RunTools(cfg, calls, m, inp, Streak(inp, before, i, m));
        ToolsAfter(cfg, calls, i, m, inp, before, batch.messages, rest);
      }
    }
  }

  lemma {:induction false} ToolsAfter(cfg: Config, calls: seq<ToolCall>, i: nat, m: nat, inp: StepInput, before: nat,
                                      first: seq<Message>, rest: Production)
    requires i < m <= |calls| && i + |first| == m && ResultsTold(cfg, calls, inp, i, m, first)
    requires NextBoundary(cfg, calls, i, m) && !inp.cancelledBefore(i)
    requires Reached(cfg, calls, i, inp) == Reached(cfg, calls, m, inp)
    requires forall k: nat :: i < k <= m ==> Streak(inp, before, i, k) <= MAX_UNUSABLE_ARGUMENTS
    ensures var p := rest.(messages := first + rest.messages);
      && (ToolsLeft(cfg, calls, m, inp, Streak(inp, before, i, m), rest) ==> ToolsLeft(cfg, calls, i, inp, before, p))
      && (ToolsAnswered(cfg, calls, m, inp, rest) ==> ToolsAnswered(cfg, calls, i, inp, p))
  {
    hide Boundary, ResultsTold, OverAt, Streak, Reached;
    if ToolsLeft(cfg, calls, m, inp, Streak(inp, before, i, m), rest) {
      OverFrom(inp, Streak(inp, before, i, m), m, m + |rest.messages|);
      OverLater(inp, before, i, m, m + |rest.messages|);
      ResultsRan(cfg, calls, inp, i, m, rest.called, first);
      ResultsConcat(cfg, calls, inp, i, rest.called, first, rest.messages);
    }
    if ToolsAnswered(cfg, calls, m, inp, rest) {
      ReachedFrom(cfg, calls, m, inp);
      ResultsRan(cfg, calls, inp, i, m, rest.called, first);
      ResultsConcat(cfg, calls, inp, i, rest.called, first, rest.messages);
    }
  }

  lemma {:induction false} OverFrom(inp: StepInput, before: nat, i: nat, g: nat)
    requires OverAt(inp, before, i, g)
    ensures i <= g
  {
  }

  lemma {:induction false} ReachedFrom(cfg: Config, calls: seq<ToolCall>, i: nat, inp: StepInput)
    requires i <= |calls|
    ensures i <= Reached(cfg, calls, i, inp) <= |calls|
  {
  }

  // ---------------------------------------------------------------------
  // Everything a reply adds
  // ---------------------------------------------------------------------

  /** The answer as a message: its thought and its calls, with "{}" for arguments that are no object. */
  ghost predicate Says(cfg: Config, m: Message, a: Answer, content: Option<string>) {
    && m.role == Assistant && m.content == content && m.reasoning == a.reasoning && m.callId == None
    && |m.calls| == |a.calls|
    && forall i :: 0 <= i < |a.calls| ==>
      && m.calls[i].id == a.calls[i].id && m.calls[i].name == a.calls[i].name
      && m.calls[i].arguments == (if cfg.isObject(a.calls[i].arguments) then a.calls[i].arguments else "{}")
  }

  ghost predicate Answered(calls: seq<ToolCall>, ms: seq<Message>, text: string -> string) {
    && |ms| == |calls|
    && forall k :: 0 <= k < |calls| ==> ms[k] == ToolMessage(calls[k].id, text(calls[k].name))
  }

  /** An answer is recorded unless it has neither text nor calls. */
  predicate Empty(a: Answer) {
    Blank(a.content.GetOr("")) && a.calls == []
  }

  /** The text of a cut answer with calls: noted, unless it is present and blank. */
  function CutText(cfg: Config, a: Answer): Option<string> {
    match a.content
    case None => Some(cfg.cutCallNote)
    case Some(text) => Some(if Blank(text) then text else text + cfg.cutCallNote)
  }

  /** The calls that are run when nothing is given up: up to the first boundary with a cancellation. */
  ghost predicate AllTold(cfg: Config, inp: StepInput, calls: seq<ToolCall>, ms: seq<Message>, called: nat) {
    && called <= |calls| && |ms| == |calls|
    && Boundary(cfg, calls, called) && Uncaught(cfg, calls, inp, 0, called)
    && (called == |calls| || inp.cancelledBefore(called))
    && forall k: nat :: k < |calls| ==>
      ms[k] == (if k < called then ToolMessage(calls[k].id, inp.results(k).content)
                else ToolMessage(calls[k].id, cfg.interruptedResult(calls[k].name)))
  }

  /** Given up: the results ahead of the payload that was one too many, whose whole batch was started. */
  ghost predicate SomeTold(cfg: Config, inp: StepInput, before: nat, calls: seq<ToolCall>, ms: seq<Message>, called: nat) {
    && |ms| < called <= |calls|
    && OverAt(inp, before, 0, |ms|)
    && NextBoundary(cfg, calls, |ms|, called) && Uncaught(cfg, calls, inp, 0, |ms| + 1)
    && forall k: nat :: k < |ms| ==> ms[k] == ToolMessage(calls[k].id, inp.results(k).content)
  }

  ghost predicate CallsTold(cfg: Config, inp: StepInput, before: nat, calls: seq<ToolCall>, ms: seq<Message>, called: nat) {
    if TooMany(inp, before, 0, Reached(cfg, calls, 0, inp)) then SomeTold(cfg, inp, before, calls, ms, called)
    else AllTold(cfg, inp, calls, ms, called)
  }

  /** The messages a reply adds and how many of its calls are started. */
  ghost predicate ProducedTold(cfg: Config, inp: StepInput, before: nat, ms: seq<Message>, called: nat) {
    if RunsCalls(inp) then
      && ms != [] && Says(cfg, ms[0], inp.reply.answer, inp.reply.answer.content)
      && CallsTold(cfg, inp, before, inp.reply.answer.calls, ms[1..], called)
    else
      called == 0 &&
      match inp.reply
      case Failed(_) => ms == []
      case CutShort(a) =>
        if Empty(a) then ms == []
        else ms != [] && Says(cfg, ms[0], a, a.content) && Answered(a.calls, ms[1..], cfg.interruptedResult)
      case Finished(a, _) =>
        if Empty(a) then ms == []
        else if a.calls == [] then |ms| == 1 && Says(cfg, ms[0], a, a.content)
        else ms != [] && Says(cfg, ms[0], a, CutText(cfg, a)) && Answered(a.calls, ms[1..], cfg.cutCallResult)
  }

  lemma {:induction false} CallsContents(cfg: Config, inp: StepInput, before: nat, calls: seq<ToolCall>)
    ensures var p := RunTools(cfg, calls, 0, inp, before);
      CallsTold(cfg, inp, before, calls, p.messages, p.called)
  {
    StartBoundary(cfg, calls);
    hide RunTools, Reached, TooMany, Streak;
    ToolsContents(cfg, calls, 0, inp, before);
    ToolsGiveUp(cfg, calls, 0, inp, before);
    ReachedMeaning(cfg, calls, 0, inp);
  }

  lemma {:induction false} StartBoundary(cfg: Config, calls: seq<ToolCall>)
    ensures Boundary(cfg, calls, 0)
  {
  }

  /** What an answer adds is its message and, for each of its calls in place, that call's own result. */
  lemma {:induction false} ProduceContents(cfg: Config, inp: StepInput, before: nat)
    ensures var p := Produce(cfg, inp, before);
      ProducedTold(cfg, inp, before, p.messages, p.called)
  {
    hide RunTools, CallsTold, Blank;
    var p := Produce(cfg, inp, before);
    if RunsCalls(inp) {
      CallsContents(cfg, inp, before, inp.reply.answer.calls);
      assert p.messages[1..] == RunTools(cfg, inp.reply.answer.calls, 0, inp, before).messages;
    } else if inp.reply.CutShort? && !Empty(inp.reply.answer) {
      assert p.messages[1..] == InterruptedResults(cfg, inp.reply.answer.calls);
    } else if CutCalls(inp) {
      assert p.messages[1..] == CutResults(cfg, inp.reply.answer.calls);
      CutTextNoted(cfg, inp.reply.answer);
    }
  }

  lemma {:induction false} CutTextNoted(cfg: Config, a: Answer)
    ensures NotedCalls(cfg, AssistantMessage(cfg, a)) == AssistantMessage(cfg, a).(content := CutText(cfg, a))
  {
    assert "" + cfg.cutCallNote == cfg.cutCallNote;
  }

  // ---------------------------------------------------------------------
  // Everything a step reports
  // ---------------------------------------------------------------------

  /** The note on a final answer that was cut stands behind the text of the last message, and nowhere else. */
  ghost predicate NotedAs(cfg: Config, inp: StepInput, ms: seq<Message>, noted: seq<Message>) {
    if FinalAnswer(inp) && inp.reply.truncated && ms != [] then
      && |noted| == |ms| && noted[..|ms| - 1] == ms[..|ms| - 1]
      && noted[|ms| - 1] == ms[|ms| - 1].(content := Some(ms[|ms| - 1].content.GetOr("") + cfg.cutAnswerNote))
    else noted == ms
  }

  /** A step is closed by its settlement, if it added anything, and its end. */
  ghost predicate ClosedAs(es: seq<Event>, step: nat, delta: seq<Message>, interrupted: bool, toolCalls: nat,
                           cancelled: bool) {
    if delta == [] then es == [Ended(step, toolCalls, cancelled)]
    else es == [Settled(step, interrupted, delta), Ended(step, toolCalls, cancelled)]
  }

  /** How each answer closes its step. */
  ghost predicate ClosedFor(cfg: Config, inp: StepInput, before: nat, es: seq<Event>, step: nat, delta: seq<Message>,
                            called: nat) {
    match inp.reply
    case Failed(cancelled) => ClosedAs(es, step, delta, true, 0, cancelled)
    case CutShort(a) => ClosedAs(es, step, delta, true, |a.calls|, true)
    case Finished(a, _) =>
      if Overruns(cfg, inp, before) then es == []
      else if RunsCalls(inp) && called < |a.calls| then ClosedAs(es, step, delta, true, |a.calls|, true)
      else ClosedAs(es, step, delta, false, |a.calls|, false)
  }

  /** The output a request is allowed: as much as fits all three limits, and one token at least. */
  predicate Fits(cfg: Config, input: nat, n: nat) {
    n <= cfg.maxOutputTokens && n <= U32_MAX && n <= SaturatingSub(cfg.contextWindow, input + Safety(cfg))
  }

  ghost predicate Allowed(cfg: Config, input: nat, n: nat) {
    (n == 1 || Fits(cfg, input, n)) && 1 <= n && forall x: nat :: Fits(cfg, input, x) ==> x <= n
  }

  /** The prompt as it is sent. */
  ghost predicate Asked(cfg: Config, st: State, step: nat, inp: StepInput, e: Event) {
    && e.Request? && e.step == step && e.messages == st.messages
    && e.inputTokens == InputTokens(cfg, st.messages, inp.toolTokens)
    && Allowed(cfg, e.inputTokens, e.maxOutput)
  }

  /** What an answered prompt reports: the prompt, the calls started in order, and how the step is closed. */
  ghost predicate AnswerTold(cfg: Config, ready: State, step: nat, inp: StepInput, es: seq<Event>,
                             ms: seq<Message>, called: nat, delta: seq<Message>) {
    && ProducedTold(cfg, inp, ready.unusable, ms, called)
    && NotedAs(cfg, inp, UserMessages(inp.steering) + ms, delta)
    && called <= |ReplyCalls(inp)| && 1 + called <= |es|
    && Asked(cfg, ready, step, inp, es[0])
    && (forall i :: 0 <= i < called ==> es[1 + i] == Called(step, ReplyCalls(inp)[i]))
    && ClosedFor(cfg, inp, ready.unusable, es[1 + called..], step, delta, called)
  }

  lemma {:induction false} AllowedMax(cfg: Config, input: nat)
    ensures Allowed(cfg, input, MaxOutput(cfg, Available(cfg, input)))
  {
  }

  lemma {:induction false} AskedAs(cfg: Config, st: State, step: nat, inp: StepInput)
    ensures Asked(cfg, st, step, inp, RequestEvent(cfg, st, step, inp))
  {
    hide InputTokens, Available, MaxOutput, Allowed;
    AllowedMax(cfg, InputTokens(cfg, st.messages, inp.toolTokens));
  }

  /** The count of started calls is within the answer's. */
  lemma {:induction false} CalledWithin(cfg: Config, inp: StepInput, before: nat, ms: seq<Message>, called: nat)
    requires ProducedTold(cfg, inp, before, ms, called)
    ensures called <= |ReplyCalls(inp)|
  {
    hide TooMany, Reached, OverAt, Says, Uncaught, Boundary, NextBoundary, Answered, Blank;
  }

  lemma {:induction false} CloseAs(step: nat, delta: seq<Message>, interrupted: bool, toolCalls: nat, cancelled: bool)
    ensures ClosedAs(CloseEvents(step, delta, interrupted, toolCalls, cancelled), step, delta, interrupted, toolCalls,
                     cancelled)
  {
  }

  /** The ending each answer comes to. */
  ghost predicate EndingFor(cfg: Config, inp: StepInput, before: nat, called: nat, e: Ending) {
    match inp.reply
    case Failed(cancelled) => e == NoAnswer(cancelled)
    case CutShort(_) => e == Interrupted
    case Finished(a, truncated) =>
      if Overruns(cfg, inp, before) then e == GaveUp
      else if RunsCalls(inp) then e == (if called < |a.calls| then CancelledBetween else CallsRan)
      else e == (if a.calls == [] then Final(truncated) else CallsCut)
  }

  lemma {:induction false} EndingIs(cfg: Config, inp: StepInput, before: nat)
    ensures var p := Produce(cfg, inp, before);
      EndingFor(cfg, inp, before, p.called, p.ending)
  {
    var p := Produce(cfg, inp, before);
    ReplyEnds(cfg, inp, before);
    EndingShape(cfg, inp, before);
    ProduceContents(cfg, inp, before);
    EndingCalled(cfg, inp, before, p.messages, p.called);
    CalledWithin(cfg, inp, before, p.messages, p.called);
    hide Overruns, Reached, Produce, ProducedTold;
  }

  lemma {:induction false} ConcludeFor(cfg: Config, inp: StepInput, before: nat, step: nat, delta: seq<Message>)
    ensures var p := Produce(cfg, inp, before);
      ClosedFor(cfg, inp, before, ConcludeEvents(step, delta, inp, p.ending), step, delta, p.called)
  {
    hide *;
    var p := Produce(cfg, inp, before);
    EndingIs(cfg, inp, before);
    EndingCloses(cfg, inp, before, step, delta, p.called, p.ending);
  }

  lemma {:induction false} EndingCloses(cfg: Config, inp: StepInput, before: nat, step: nat, delta: seq<Message>,
                                        called: nat, ending: Ending)
    requires EndingFor(cfg, inp, before, called, ending)
    ensures ClosedFor(cfg, inp, before, ConcludeEvents(step, delta, inp, ending), step, delta, called)
  {
    hide TooMany, Reached;
  }

  lemma {:induction false} EndingCalled(cfg: Config, inp: StepInput, before: nat, ms: seq<Message>, called: nat)
    requires ProducedTold(cfg, inp, before, ms, called)
    ensures RunsCalls(inp) && !Overruns(cfg, inp, before) ==>
      (called == |inp.reply.answer.calls| <==> Reached(cfg, inp.reply.answer.calls, 0, inp) == |inp.reply.answer.calls|)
  {
    hide TooMany, Says, Answered, Blank, NextBoundary;
    if RunsCalls(inp) && !Overruns(cfg, inp, before) {
      StartBoundary(cfg, inp.reply.answer.calls);
      ReachedMeaning(cfg, inp.reply.answer.calls, 0, inp);
      hide Boundary, Reached;
    }
  }

  lemma {:induction false} EndingShape(cfg: Config, inp: StepInput, before: nat)
    ensures var e := Produce(cfg, inp, before).ending;
      && (inp.reply.Failed? ==> e == NoAnswer(inp.reply.cancelled))
      && (inp.reply.CutShort? ==> e == Interrupted)
      && (RunsCalls(inp) ==> e == GaveUp || e == CallsRan || e == CancelledBetween)
      && (FinalAnswer(inp) ==> e == Final(inp.reply.truncated))
  {
    hide TooMany, Streak, Reached, RunTools;
    if RunsCalls(inp) {
      ToolsGiveUp(cfg, inp.reply.answer.calls, 0, inp, before);
    }
  }

  lemma {:induction false} NotedIs(cfg: Config, inp: StepInput, before: nat, ms: seq<Message>)
    ensures NotedAs(cfg, inp, ms, if Produce(cfg, inp, before).ending == Final(true) then NoteLast(cfg, ms) else ms)
  {
    ReplyEnds(cfg, inp, before);
    EndingShape(cfg, inp, before);
    hide Produce;
  }

  // ---------------------------------------------------------------------
  // One step, told whole
  // ---------------------------------------------------------------------

  /** Steering claimed after a final answer, when another step follows. */
  function Late(inp: StepInput, goesOn: bool): seq<Message> {
    if goesOn && FinalAnswer(inp) then UserMessages(inp.pending) else []
  }

  /** The lists a step leaves: the prompt's and the run's, each with the answer, its note and late steering behind it. */
  ghost predicate LeftAs(cfg: Config, ready: State, inp: StepInput, ms: seq<Message>, r: StepResult) {
    && (exists added: seq<Message> ::
          NotedAs(cfg, inp, ready.added + ms, added) && r.st.added == added + Late(inp, r.Continue?))
    && (exists messages: seq<Message> ::
          NotedAs(cfg, inp, ready.messages + ms, messages) && r.st.messages == messages + Late(inp, r.Continue?))
  }

  /** Nothing else the step leaves is changed by its answer. */
  predicate SameCheckpoint(ready: State, after: State) {
    after.record == ready.record && after.attempted == ready.attempted
  }

  /** The last step the budget allows: the configured one, or the last a 32-bit counter can name. */
  predicate IsLast(cfg: Config, step: nat) {
    step == if cfg.maxSteps == 0 then 4294967295 else cfg.maxSteps
  }

  lemma {:induction false} LastIs(cfg: Config, step: nat)
    ensures IsLast(cfg, step) <==> step == StepBudget(cfg)
  {
  }

  /** Why a step that ends the run ends it. */
  ghost predicate EndsAs(cfg: Config, ready: State, step: nat, inp: StepInput, r: StepResult)
    requires r.Stop?
  {
    if SaturatingSub(cfg.contextWindow, InputTokens(cfg, ready.messages, inp.toolTokens) + Safety(cfg)) == 0 then
      r.outcome == ContextOverflow(InputTokens(cfg, ready.messages, inp.toolTokens))
    else if !ValidRequest(ready.messages, cfg.isObject) then r.outcome == InvalidRequest
    else
      match inp.reply
      case Failed(cancelled) => r.outcome == (if cancelled then Cancelled else ProviderFailed)
      case CutShort(_) => r.outcome == Cancelled
      case Finished(a, _) =>
        if Overruns(cfg, inp, ready.unusable) then r.outcome == UnusableArguments
        else if WantsMore(cfg, inp, ready.unusable) then r.outcome == MaxSteps && IsLast(cfg, step)
        else if a.calls != [] then r.outcome == Cancelled
        else r.outcome == Done(r.st.added, r.st.record, step)
  }

  /** What a step that was prepared reports and leaves. */
  ghost predicate ReadyBecomes(cfg: Config, ready: State, step: nat, inp: StepInput, r: StepResult) {
    && ready.log <= r.st.log
    && SameCheckpoint(ready, r.st)
    && (r.Continue? <==> Sends(cfg, ready, inp) && !IsLast(cfg, step) && WantsMore(cfg, inp, ready.unusable))
    && (r.Continue? ==> r.st.unusable == NextStreak(cfg, inp, ready.unusable))
    && (r.Stop? ==> EndsAs(cfg, ready, step, inp, r))
    && if Sends(cfg, ready, inp) then
         exists ms: seq<Message>, called: nat, delta: seq<Message> ::
           && AnswerTold(cfg, ready, step, inp, r.st.log[|ready.log|..], ms, called, delta)
           && LeftAs(cfg, ready, inp, ms, r)
       else
         && ClosedAs(r.st.log[|ready.log|..], step, UserMessages(inp.steering), true, 0, false)
         && r.st.added == ready.added && r.st.messages == ready.messages
  }

  /** The prompt presses on the window: no room for the output is left, or the configured share is reached. */
  predicate Pressed(cfg: Config, input: nat) {
    var room := cfg.contextWindow - cfg.maxOutputTokens - Safety(cfg);
    var share := RatioTokens(cfg.compactAt, cfg.contextWindow);
    room < input || (0 < share && 0 < room && (share <= input || room == input))
  }

  /** A step's preparation: steering behind the history, the repair, and once in a run, under pressure, a rewrite. */
  ghost predicate ReadyTold(cfg: Config, turnStart: nat, st: State, step: nat, inp: StepInput, ready: State) {
    var begun := Normalize(st.messages + UserMessages(inp.steering));
    var end := CompactionEnd(begun, turnStart, RatioTokens(cfg.retainRecent, cfg.contextWindow));
    && ready.added == st.added + UserMessages(inp.steering)
    && ready.unusable == st.unusable
    && if !st.attempted && Pressed(cfg, InputTokens(cfg, begun, inp.toolTokens)) && end.Some? then
         exists r: Rewritten, accepted: nat, bounds: seq<nat> ::
           && RewriteTold(cfg, begun, inp.toolTokens, end.value, inp.summaries, r, accepted, bounds)
           && Reports(st, step, ready, r)
           && (r.record.Some? ==> r.record.value.newMessagesBefore == |ready.added|)
       else
         ready.messages == begun && ready.log == st.log + [Started(step)] && SameCheckpoint(st, ready)
  }

  /** What a rewrite changes and reports. */
  ghost predicate Reports(st: State, step: nat, ready: State, r: Rewritten) {
    && ready.messages == r.messages && ready.attempted
    && ready.record == (if r.record.Some? then r.record else st.record)
    && |ready.log| == |st.log| + 1 + |r.sent| + (if r.record.Some? then 1 else 0)
    && st.log + [Started(step)] <= ready.log
    && (forall i :: 0 <= i < |r.sent| ==> ready.log[|st.log| + 1 + i] == Summarizing(step, r.sent[i]))
    && (r.record.Some? ==> ready.log[|st.log| + 1 + |r.sent|] == Compacted(r.record.value))
  }

  lemma {:induction false} PressedIs(cfg: Config, input: nat)
    ensures NeedsCompaction(cfg, input) == Pressed(cfg, input)
  {
    hide RatioTokens, Safety;
  }

  lemma {:induction false} TargetIs(cfg: Config, turnStart: nat, st: State, step: nat, inp: StepInput)
    ensures var begun := Begin(st, step, inp);
      var end := CompactionEnd(begun.messages, turnStart, RatioTokens(cfg.retainRecent, cfg.contextWindow));
      && begun.messages == Normalize(st.messages + UserMessages(inp.steering))
      && begun.added == st.added + UserMessages(inp.steering)
      && begun.log == st.log + [Started(step)] && begun.unusable == st.unusable
      && begun.record == st.record && begun.attempted == st.attempted
      && CompactionTarget(cfg, begun, turnStart, inp)
        == if !st.attempted && Pressed(cfg, InputTokens(cfg, begun.messages, inp.toolTokens)) then end else None
  {
    PressedIs(cfg, InputTokens(cfg, Begin(st, step, inp).messages, inp.toolTokens));
    hide Pressed, NeedsCompaction, CompactionEnd, Normalize, UserMessages, InputTokens;
  }

  lemma {:induction false} ReadyIs(cfg: Config, turnStart: nat, st: State, step: nat, inp: StepInput)
    ensures var begun := Begin(st, step, inp);
      match CompactionTarget(cfg, begun, turnStart, inp)
      case None => Ready(cfg, turnStart, st, step, inp) == begun
      case Some(target) =>
        var r := CompactRange(cfg, begun.messages, inp.toolTokens, target, inp.summaries, |begun.added|);
        Ready(cfg, turnStart, st, step, inp) == ApplyRewrite(begun, step, r)
  {
    hide Begin, ApplyRewrite, CompactRange, CompactionTarget;
  }

  lemma {:induction false} RewriteReports(st: State, begun: State, step: nat, r: Rewritten)
    requires begun.log == st.log + [Started(step)] && begun.record == st.record
    ensures var ready := ApplyRewrite(begun, step, r);
      Reports(st, step, ready, r) && ready.added == begun.added && ready.unusable == begun.unusable
  {
    var ready := ApplyRewrite(begun, step, r);
    var es := SummaryEvents(step, r.sent);
    var adopted := if r.record.Some? then [Compacted(r.record.value)] else [];
    assert ready.log == begun.log + es + adopted;
    hide ApplyRewrite, SummaryEvents;
    LogParts(begun.log, es, adopted, ready.log);
    assert ready.log[..|begun.log|] == begun.log;
  }

  lemma {:induction false} LogParts(a: seq<Event>, b: seq<Event>, c: seq<Event>, log: seq<Event>)
    requires log == a + b + c
    ensures |log| == |a| + |b| + |c| && log[..|a|] == a
    ensures forall i :: 0 <= i < |b| ==> log[|a| + i] == b[i]
    ensures c != [] ==> log[|a| + |b|] == c[0]
  {
  }

  lemma {:induction false} RangeCount(cfg: Config, ms: seq<Message>, toolTokens: nat, target: nat,
                                      replies: nat -> Option<string>, newBefore: nat)
    requires target < |ms|
    ensures var record := CompactRange(cfg, ms, toolTokens, target, replies, newBefore).record;
      record.Some? ==> record.value.newMessagesBefore == newBefore
  {
    CompactRangeMeaning(cfg, ms, toolTokens, target, replies, newBefore);
    hide CompactRange;
  }

  lemma {:induction false} ReadyIsTold(cfg: Config, turnStart: nat, st: State, step: nat, inp: StepInput)
    ensures ReadyTold(cfg, turnStart, st, step, inp, Ready(cfg, turnStart, st, step, inp))
  {
    hide *;
    var begun := Begin(st, step, inp);
    var ready := Ready(cfg, turnStart, st, step, inp);
    TargetIs(cfg, turnStart, st, step, inp);
    ReadyIs(cfg, turnStart, st, step, inp);
    var target := CompactionTarget(cfg, begun, turnStart, inp);
    if target.Some? {
      var r := CompactRange(cfg, begun.messages, inp.toolTokens, target.value, inp.summaries, |begun.added|);
      RangeTold(cfg, begun.messages, inp.toolTokens, target.value, inp.summaries, |begun.added|);
      var accepted: nat, bounds: seq<nat> :|
        RewriteTold(cfg, begun.messages, inp.toolTokens, target.value, inp.summaries, r, accepted, bounds);
      RewriteReports(st, begun, step, r);
      RangeCount(cfg, begun.messages, inp.toolTokens, target.value, inp.summaries, |begun.added|);
      RewrittenTold(cfg, turnStart, st, step, inp, ready, target.value, r, accepted, bounds);
    } else {
      KeptTold(cfg, turnStart, st, step, inp, ready);
    }
  }

  lemma {:induction false} RewrittenTold(cfg: Config, turnStart: nat, st: State, step: nat, inp: StepInput, ready: State,
                                         target: nat, r: Rewritten, accepted: nat, bounds: seq<nat>)
    requires ready.added == st.added + UserMessages(inp.steering) && ready.unusable == st.unusable
    requires var begun := Normalize(st.messages + UserMessages(inp.steering));
      && CompactionEnd(begun, turnStart, RatioTokens(cfg.retainRecent, cfg.contextWindow)) == Some(target)
      && !st.attempted && Pressed(cfg, InputTokens(cfg, begun, inp.toolTokens))
      && RewriteTold(cfg, begun, inp.toolTokens, target, inp.summaries, r, accepted, bounds)
    requires Reports(st, step, ready, r) && (r.record.Some? ==> r.record.value.newMessagesBefore == |ready.added|)
    ensures ReadyTold(cfg, turnStart, st, step, inp, ready)
  {
    hide RewriteTold, Reports, Pressed, CompactionEnd, Normalize, UserMessages, InputTokens, RatioTokens;
  }

  lemma {:induction false} KeptTold(cfg: Config, turnStart: nat, st: State, step: nat, inp: StepInput, ready: State)
    requires ready.added == st.added + UserMessages(inp.steering) && ready.unusable == st.unusable
    requires var begun := Normalize(st.messages + UserMessages(inp.steering));
      var end := CompactionEnd(begun, turnStart, RatioTokens(cfg.retainRecent, cfg.contextWindow));
      && !(!st.attempted && Pressed(cfg, InputTokens(cfg, begun, inp.toolTokens)) && end.Some?)
      && ready.messages == begun
    requires ready.log == st.log + [Started(step)] && ready.record == st.record && ready.attempted == st.attempted
    ensures ReadyTold(cfg, turnStart, st, step, inp, ready)
  {
    hide RewriteTold, Reports, Pressed, CompactionEnd, Normalize, UserMessages, InputTokens, RatioTokens;
  }

  /** A step as a whole. */
  ghost predicate StepBecomes(cfg: Config, turnStart: nat, st: State, step: nat, inp: StepInput, r: StepResult) {
    if inp.cancelledAtStart then r == Stop(Cancelled, st)
    else
      exists ready: State ::
        ReadyTold(cfg, turnStart, st, step, inp, ready) && ReadyBecomes(cfg, ready, step, inp, r)
  }

  lemma {:induction false} LateIs(cfg: Config, step: nat, inp: StepInput, before: nat, goesOn: bool)
    requires goesOn ==> step != StepBudget(cfg)
    ensures Late(inp, goesOn) == if goesOn then Trailing(cfg, step, inp, Produce(cfg, inp, before).ending) else []
  {
    ReplyEnds(cfg, inp, before);
    hide Produce, UserMessages, StepBudget, Overruns, Reached;
  }

  lemma {:induction false} NoteAppendAs(cfg: Config, inp: StepInput, before: nat, a: seq<Message>, b: seq<Message>)
    ensures var noted := Produce(cfg, inp, before).ending == Final(true);
      (if noted then NoteLast(cfg, a + b) else a + b)[|a|..] == (if noted then NoteLast(cfg, b) else b)
  {
    hide Produce;
    assert (a + b)[|a|..] == b;
    if b == [] {
      assert a + b == a;
      NotedTail(cfg, a);
    } else {
      NoteAppend(cfg, a, b);
    }
  }

  lemma {:induction false} NotedTail(cfg: Config, a: seq<Message>)
    ensures NoteLast(cfg, a)[|a|..] == NoteLast(cfg, [])
  {
  }

  /** The lists after the reply, before the step is closed. */
  lemma {:induction false} AfterReplyIs(cfg: Config, st: State, step: nat, inp: StepInput)
    ensures var p := Produce(cfg, inp, st.unusable);
      var after := AfterReply(cfg, st, step, inp);
      var noted := p.ending == Final(true);
      && after.added == (if noted then NoteLast(cfg, st.added + p.messages) else st.added + p.messages)
      && after.messages == (if noted then NoteLast(cfg, st.messages + p.messages) else st.messages + p.messages)
      && SameCheckpoint(st, after)
  {
    hide Produce, NoteLast;
  }

  lemma {:induction false} LeftIsAs(cfg: Config, ready: State, step: nat, from: nat, inp: StepInput)
    requires from <= |ready.added| && Sends(cfg, ready, inp)
    ensures var r := Converse(cfg, ready, step, from, inp);
      && LeftAs(cfg, ready, inp, Produce(cfg, inp, ready.unusable).messages, r)
      && SameCheckpoint(ready, r.st)
  {
    var p := Produce(cfg, inp, ready.unusable);
    var after := AfterReply(cfg, ready, step, inp);
    var r := Converse(cfg, ready, step, from, inp);
    ConverseLog(cfg, ready, step, from, inp);
    ConcludeMeaning(cfg, after, step, from, inp, p.ending);
    LateIs(cfg, step, inp, ready.unusable, r.Continue?);
    AfterReplyIs(cfg, ready, step, inp);
    NotedIs(cfg, inp, ready.unusable, ready.added + p.messages);
    NotedIs(cfg, inp, ready.unusable, ready.messages + p.messages);
    hide *;
    LeftHere(cfg, ready, inp, p.messages, r, after.added, after.messages);
  }

  lemma {:induction false} LeftHere(cfg: Config, ready: State, inp: StepInput, ms: seq<Message>, r: StepResult,
                                    added: seq<Message>, messages: seq<Message>)
    requires NotedAs(cfg, inp, ready.added + ms, added) && NotedAs(cfg, inp, ready.messages + ms, messages)
    requires r.st.added == added + Late(inp, r.Continue?) && r.st.messages == messages + Late(inp, r.Continue?)
    ensures LeftAs(cfg, ready, inp, ms, r)
  {
    hide NotedAs;
  }

  /** What the step added, as it is settled. */
  lemma {:induction false} DeltaNoted(cfg: Config, ready: State, step: nat, inp: StepInput, start: seq<Message>)
    requires ready.added == start + UserMessages(inp.steering)
    ensures |start| <= |AfterReply(cfg, ready, step, inp).added|
    ensures NotedAs(cfg, inp, UserMessages(inp.steering) + Produce(cfg, inp, ready.unusable).messages,
                    AfterReply(cfg, ready, step, inp).added[|start|..])
  {
    hide *;
    var p := Produce(cfg, inp, ready.unusable);
    var own := UserMessages(inp.steering) + p.messages;
    AfterReplyIs(cfg, ready, step, inp);
    ConcatAssociates(start, UserMessages(inp.steering), p.messages);
    NoteAppendAs(cfg, inp, ready.unusable, start, own);
    NotedIs(cfg, inp, ready.unusable, own);
  }

  lemma {:induction false} ConverseLogIs(cfg: Config, ready: State, step: nat, inp: StepInput, from: nat)
    requires from <= |ready.added| && Sends(cfg, ready, inp)
    ensures from <= |AfterReply(cfg, ready, step, inp).added|
    ensures var p := Produce(cfg, inp, ready.unusable);
      var delta := AfterReply(cfg, ready, step, inp).added[from..];
      Converse(cfg, ready, step, from, inp).st.log == ready.log + [RequestEvent(cfg, ready, step, inp)]
        + (CalledEvents(step, ReplyCalls(inp), p.called) + ConcludeEvents(step, delta, inp, p.ending))
  {
    hide *;
    ConverseLog(cfg, ready, step, from, inp);
    AnswerEventsIs(cfg, ready, step, from, inp);
  }

  lemma {:induction false} AnswerTells(cfg: Config, ready: State, step: nat, inp: StepInput, start: seq<Message>)
    requires ready.added == start + UserMessages(inp.steering) && Sends(cfg, ready, inp)
    ensures |start| <= |AfterReply(cfg, ready, step, inp).added|
    ensures var r := Converse(cfg, ready, step, |start|, inp);
      var p := Produce(cfg, inp, ready.unusable);
      && ready.log <= r.st.log
      && AnswerTold(cfg, ready, step, inp, r.st.log[|ready.log|..], p.messages, p.called,
                    AfterReply(cfg, ready, step, inp).added[|start|..])
  {
    hide *;
    DeltaNoted(cfg, ready, step, inp, start);
    var r := Converse(cfg, ready, step, |start|, inp);
    var p := Produce(cfg, inp, ready.unusable);
    var delta := AfterReply(cfg, ready, step, inp).added[|start|..];
    ProduceContents(cfg, inp, ready.unusable);
    CalledWithin(cfg, inp, ready.unusable, p.messages, p.called);
    ConverseLogIs(cfg, ready, step, inp, |start|);
    AskedAs(cfg, ready, step, inp);
    ConcludeFor(cfg, inp, ready.unusable, step, delta);
    AnswerLog(cfg, ready, step, inp, r.st.log, p, delta);
    AnswerHere(cfg, ready, step, inp, r.st.log[|ready.log|..], p.messages, p.called, delta);
  }

  lemma {:induction false} AnswerEventsIs(cfg: Config, st: State, step: nat, from: nat, inp: StepInput)
    requires from <= |st.added|
    ensures from <= |AfterReply(cfg, st, step, inp).added|
    ensures var p := Produce(cfg, inp, st.unusable);
      AnswerEvents(cfg, st, step, from, inp) == CalledEvents(step, ReplyCalls(inp), p.called)
        + ConcludeEvents(step, AfterReply(cfg, st, step, inp).added[from..], inp, p.ending)
  {
    hide Produce, AfterReply, ConcludeEvents;
  }

  lemma {:induction false} AnswerHere(cfg: Config, ready: State, step: nat, inp: StepInput, es: seq<Event>,
                                      ms: seq<Message>, called: nat, delta: seq<Message>)
    requires ProducedTold(cfg, inp, ready.unusable, ms, called)
    requires NotedAs(cfg, inp, UserMessages(inp.steering) + ms, delta)
    requires called <= |ReplyCalls(inp)| && 1 + called <= |es|
    requires Asked(cfg, ready, step, inp, es[0])
    requires forall i :: 0 <= i < called ==> es[1 + i] == Called(step, ReplyCalls(inp)[i])
    requires ClosedFor(cfg, inp, ready.unusable, es[1 + called..], step, delta, called)
    ensures AnswerTold(cfg, ready, step, inp, es, ms, called, delta)
  {
    hide ProducedTold, NotedAs, Asked, ClosedFor, ReplyCalls, UserMessages;
  }

  lemma {:induction false} AnswerLog(cfg: Config, ready: State, step: nat, inp: StepInput, log: seq<Event>,
                                     p: Production, delta: seq<Message>)
    requires p.called <= |ReplyCalls(inp)|
    requires var called := CalledEvents(step, ReplyCalls(inp), p.called);
      log == ready.log + [RequestEvent(cfg, ready, step, inp)] + (called + ConcludeEvents(step, delta, inp, p.ending))
    ensures ready.log <= log
    ensures var es := log[|ready.log|..];
      && 1 + p.called <= |es| && es[0] == RequestEvent(cfg, ready, step, inp)
      && (forall i :: 0 <= i < p.called ==> es[1 + i] == Called(step, ReplyCalls(inp)[i]))
      && es[1 + p.called..] == ConcludeEvents(step, delta, inp, p.ending)
  {
    hide RequestEvent, ConcludeEvents, ReplyCalls;
    var e := RequestEvent(cfg, ready, step, inp);
    var called := CalledEvents(step, ReplyCalls(inp), p.called);
    var rest := ConcludeEvents(step, delta, inp, p.ending);
    assert log == ready.log + ([e] + (called + rest));
    assert log[|ready.log|..] == [e] + (called + rest);
    assert ([e] + (called + rest))[1 + p.called..] == rest;
  }

  lemma {:induction false} AnswerEnds(cfg: Config, ready: State, step: nat, from: nat, inp: StepInput)
    requires from <= |ready.added| && Sends(cfg, ready, inp)
    ensures var r := Converse(cfg, ready, step, from, inp);
      r.Stop? ==> EndsAs(cfg, ready, step, inp, r)
  {
    var p := Produce(cfg, inp, ready.unusable);
    var after := AfterReply(cfg, ready, step, inp);
    ConverseLog(cfg, ready, step, from, inp);
    ConcludeMeaning(cfg, after, step, from, inp, p.ending);
    EndingShape(cfg, inp, ready.unusable);
    ReplyEnds(cfg, inp, ready.unusable);
    EndingStops(cfg, after, step, from, inp, p.ending);
    LastIs(cfg, step);
    hide Converse, Produce, AfterReply, Conclude, InputTokens, Overruns, Reached, StepBudget, ValidRequest, IsLast;
  }

  lemma {:induction false} EndingStops(cfg: Config, st: State, step: nat, from: nat, inp: StepInput, ending: Ending)
    requires from <= |st.added|
    ensures var r := Conclude(cfg, st, step, from, inp, ending);
      && (ending.NoAnswer? ==> r.Stop? && r.outcome == (if ending.cancelled then Cancelled else ProviderFailed))
      && (ending.Interrupted? || ending.CancelledBetween? ==> r.Stop? && r.outcome == Cancelled)
      && (ending.CallsCut? || ending.CallsRan? || (ending.Final? && inp.pending != []) ==>
            r.Continue? || (r.outcome == MaxSteps && step == StepBudget(cfg)))
      && (ending.Final? && inp.pending == [] ==> r.Stop? && r.outcome == Done(r.st.added, r.st.record, step))
  {
    hide StepBudget, UserMessages;
  }

  lemma {:induction false} BlockedBecomes(cfg: Config, ready: State, step: nat, inp: StepInput, start: seq<Message>)
    requires ready.added == start + UserMessages(inp.steering) && !Sends(cfg, ready, inp)
    ensures ReadyBecomes(cfg, ready, step, inp, Converse(cfg, ready, step, |start|, inp))
  {
    var r := Converse(cfg, ready, step, |start|, inp);
    BlockedLog(cfg, ready, step, |start|, inp);
    assert ready.added[|start|..] == UserMessages(inp.steering);
    CloseAs(step, UserMessages(inp.steering), true, 0, false);
    hide UserMessages, InputTokens, ValidRequest, CloseEvents, ClosedAs, Overruns, WantsMore, NextStreak, StepBudget;
    assert r.st.log[|ready.log|..] == CloseEvents(step, UserMessages(inp.steering), true, 0, false);
  }

  lemma {:induction false} ConverseBecomes(cfg: Config, ready: State, step: nat, inp: StepInput, start: seq<Message>)
    requires ready.added == start + UserMessages(inp.steering)
    ensures ReadyBecomes(cfg, ready, step, inp, Converse(cfg, ready, step, |start|, inp))
  {
    LastIs(cfg, step);
    hide UserMessages, Converse, Sends, AnswerTold, LeftAs, EndsAs, Produce, AfterReply, WantsMore, NextStreak,
      StepBudget, FinalAnswer, Overruns, IsLast;
    if Sends(cfg, ready, inp) {
      AskedEnds(cfg, ready, step, |start|, inp);
      AnswerTells(cfg, ready, step, inp, start);
      LeftIsAs(cfg, ready, step, |start|, inp);
      AnswerEnds(cfg, ready, step, |start|, inp);
    } else {
      BlockedBecomes(cfg, ready, step, inp, start);
    }
  }

  lemma {:induction false} OneStepIs(cfg: Config, turnStart: nat, st: State, step: nat, inp: StepInput)
    ensures var ready := Ready(cfg, turnStart, st, step, inp);
      && |st.added| <= |ready.added|
      && OneStep(cfg, turnStart, st, step, inp)
        == if inp.cancelledAtStart then Stop(Cancelled, st) else Converse(cfg, ready, step, |st.added|, inp)
  {
    ReadyKeepsAdded(cfg, turnStart, st, step, inp);
    hide Ready, Converse, UserMessages;
  }

  lemma {:induction false} BecomesHere(cfg: Config, turnStart: nat, st: State, step: nat, inp: StepInput, ready: State,
                                       r: StepResult)
    requires inp.cancelledAtStart ==> r == Stop(Cancelled, st)
    requires !inp.cancelledAtStart ==>
      ReadyTold(cfg, turnStart, st, step, inp, ready) && ReadyBecomes(cfg, ready, step, inp, r)
    ensures StepBecomes(cfg, turnStart, st, step, inp, r)
  {
    hide ReadyTold, ReadyBecomes;
  }

  /** Every step becomes what these rules say. */
  lemma {:induction false} StepIsTold(cfg: Config, turnStart: nat, st: State, step: nat, inp: StepInput)
    ensures StepBecomes(cfg, turnStart, st, step, inp, OneStep(cfg, turnStart, st, step, inp))
  {
    hide *;
    var ready := Ready(cfg, turnStart, st, step, inp);
    OneStepIs(cfg, turnStart, st, step, inp);
    ReadyIsTold(cfg, turnStart, st, step, inp);
    ReadyKeepsAdded(cfg, turnStart, st, step, inp);
    ConverseBecomes(cfg, ready, step, inp, st.added);
    BecomesHere(cfg, turnStart, st, step, inp, ready, OneStep(cfg, turnStart, st, step, inp));
  }

  // ---------------------------------------------------------------------
  // The run, told whole
  // ---------------------------------------------------------------------

  /** What a run starts from: a system message, the given one or the configured, and the repaired rest. */
  lemma {:induction false} RunStartMeaning(cfg: Config, history: seq<Message>)
    ensures var given := history != [] && history[0].role == System;
      var system := if given then history[0] else SystemMessage(cfg.systemPrompt);
      var rest := if given then history[1..] else history;
      RunStart(cfg, history) == State([system] + Normalize(rest), [], None, false, 0, [])
  {
    var given := history != [] && history[0].role == System;
    if !given {
      assert ([SystemMessage(cfg.systemPrompt)] + history)[1..] == history;
    }
  }

  /** The current turn starts at the last user message of that list, or at its end if it has none. */
  lemma {:induction false} RunTurnMeaning(cfg: Config, history: seq<Message>)
    ensures var ms := RunStart(cfg, history).messages;
      var turn := RunTurn(cfg, history);
      LastUserBefore(ms, |ms|, turn) || (turn == |ms| && forall k :: 0 <= k < |ms| ==> ms[k].role != User)
  {
    hide BaseHistory;
    var ms := BaseHistory(cfg, history);
    LastUserMeaning(ms, |ms|);
  }

  lemma {:induction false} LastUserMeaning(ms: seq<Message>, k: nat)
    requires k <= |ms|
    requires forall j :: k <= j < |ms| ==> ms[j].role != User
    ensures var turn := LastUserIndex(ms, |ms|, k);
      LastUserBefore(ms, |ms|, turn) || (turn == |ms| && forall j :: 0 <= j < |ms| ==> ms[j].role != User)
  {
    if k > 0 && ms[k - 1].role != User {
      LastUserMeaning(ms, k - 1);
    }
  }

  /** Step k leads from one state to the other. */
  ghost predicate Leads(cfg: Config, history: seq<Message>, env: Env, k: nat, before: State, after: State) {
    StepBecomes(cfg, RunTurn(cfg, history), before, k, env(k), Continue(after))
  }

  /** The run stands before step k in this state. */
  ghost predicate Stands(cfg: Config, history: seq<Message>, env: Env, k: nat, st: State)
    decreases k, 0
  {
    if k <= 1 then k == 1 && st == RunStart(cfg, history) else Followed(cfg, history, env, k - 1, st)
  }

  /** The run stood before step k, which leads to this state. */
  ghost predicate Followed(cfg: Config, history: seq<Message>, env: Env, k: nat, st: State)
    decreases k, 1
  {
    exists before: State :: Stands(cfg, history, env, k, before) && Leads(cfg, history, env, k, before, st)
  }

  lemma {:induction false} StandsNext(cfg: Config, history: seq<Message>, env: Env, k: nat, before: State, st: State)
    requires 1 <= k && Stands(cfg, history, env, k, before)
    requires StepBecomes(cfg, RunTurn(cfg, history), before, k, env(k), Continue(st))
    ensures Stands(cfg, history, env, k + 1, st)
  {
    hide StepBecomes, RunTurn, RunStart;
  }

  lemma {:induction false} StandsFirst(cfg: Config, history: seq<Message>, env: Env)
    ensures Stands(cfg, history, env, 1, RunStart(cfg, history))
    ensures StateAt(cfg, history, env, 1) == Some(RunStart(cfg, history))
  {
    hide RunStart, StepBecomes;
  }

  lemma {:induction false} ReachedStands(cfg: Config, history: seq<Message>, env: Env, k: nat)
    requires 1 <= k && StateAt(cfg, history, env, k).Some?
    ensures Stands(cfg, history, env, k, StateAt(cfg, history, env, k).value)
  {
    hide *;
    if k == 1 {
      StandsFirst(cfg, history, env);
    } else {
      StateBefore(cfg, history, env, k);
      ReachedStands(cfg, history, env, k - 1);
      StepOf(cfg, history, env, k - 1);
      RunReaches(cfg, history, env, k - 1);
      var st := StateAt(cfg, history, env, k - 1).value;
      StepEnds(cfg, RunTurn(cfg, history), st, k - 1, env(k - 1));
      StepIsTold(cfg, RunTurn(cfg, history), st, k - 1, env(k - 1));
      StandsNext(cfg, history, env, k - 1, st, StateAt(cfg, history, env, k).value);
    }
  }

  /** Step m, reached by the rules from the repaired history, ends the run by them, in exactly this way. */
  ghost predicate EndsBy(cfg: Config, history: seq<Message>, env: Env, m: nat, st: State, run: RunResult) {
    && Stands(cfg, history, env, m, st)
    && StepBecomes(cfg, RunTurn(cfg, history), st, m, env(m), Stop(run.outcome, run.st))
  }

  /** Any run is what the rules make of its inputs, step after step. */
  lemma {:induction false} RunIsTold(cfg: Config, history: seq<Message>, env: Env)
    ensures exists m: nat, st: State :: EndsBy(cfg, history, env, m, st, Run(cfg, history, env))
  {
    hide *;
    StandsFirst(cfg, history, env);
    var m := FindLastStep(cfg, history, env, 1);
    LastStepIs(cfg, history, env, m);
    ReachedStands(cfg, history, env, m);
    LastStepEnds(cfg, history, env, m);
    var st := StateAt(cfg, history, env, m).value;
    StepIsTold(cfg, RunTurn(cfg, history), st, m, env(m));
    EndsHere(cfg, history, env, m, st, Run(cfg, history, env));
  }

  lemma {:induction false} EndsHere(cfg: Config, history: seq<Message>, env: Env, m: nat, st: State, run: RunResult)
    requires Stands(cfg, history, env, m, st)
    requires StepBecomes(cfg, RunTurn(cfg, history), st, m, env(m), Stop(run.outcome, run.st))
    ensures EndsBy(cfg, history, env, m, st, run)
  {
  }
}
