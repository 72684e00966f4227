/**
 Budgets and safety of single events over a whole run: requests and summariser calls fit the window, only
 calls of a complete answer are started, and a history with well-formed arguments is never refused by the
 request check.
 */
module TurnBudget {
  import opened Wrappers
  import opened Chat
  import opened Compaction
  import opened TurnLoop
  import opened TurnLog

  ghost predicate SummaryFits(cfg: Config, toolTokens: nat, call: SummaryCall) {
    && RequestTokens(call.messages, toolTokens) + Safety(cfg) + call.maxTokens <= cfg.contextWindow
    && call.maxTokens <= Max(cfg.compactMaxTokens, 1)
    && call.maxTokens + 19 >= cfg.compactMaxTokens
  }

  ghost predicate RequestFits(cfg: Config, toolTokens: nat, ms: seq<Message>, input: nat, maxOutput: nat) {
    && input == InputTokens(cfg, ms, toolTokens)
    && input + Safety(cfg) + maxOutput <= cfg.contextWindow
    && 1 <= maxOutput <= Max(cfg.maxOutputTokens, 1)
    && ValidRequest(ms, cfg.isObject)
  }

  /** Only a call of an answer that arrived whole is ever started. */
  ghost predicate CallComplete(inp: StepInput, call: ToolCall) {
    inp.reply.Finished? && !inp.reply.truncated && call in inp.reply.answer.calls
  }

  ghost predicate EventFits(cfg: Config, env: Env, e: Event) {
    match e
    case Request(step, ms, input, maxOutput) => RequestFits(cfg, env(step).toolTokens, ms, input, maxOutput)
    case Summarizing(step, call) => SummaryFits(cfg, env(step).toolTokens, call)
    case Called(step, call) => CallComplete(env(step), call)
    case _ => true
  }

  ghost predicate LogFits(cfg: Config, env: Env, log: seq<Event>) {
    forall i :: 0 <= i < |log| ==> EventFits(cfg, env, log[i])
  }

  // ---------------------------------------------------------------------
  // Summariser calls
  // ---------------------------------------------------------------------

  ghost predicate AllFit(cfg: Config, toolTokens: nat, sent: seq<SummaryCall>) {
    forall i :: 0 <= i < |sent| ==> SummaryFits(cfg, toolTokens, sent[i])
  }

  lemma SummarizeFits(cfg: Config, ms: seq<Message>, original: seq<Message>, toolTokens: nat, end: nat, c: nat,
                      reply: Option<string>)
    requires cfg.compactMaxTokens <= U32_MAX
    requires end < |ms| && original != [] && ms[0] == original[0]
    requires ChunkEnd(ms, end, ChunkBudget(cfg, original, toolTokens)) == Some(c)
    ensures AllFit(cfg, toolTokens, SummarizeRange(cfg, ms[..c + 1], toolTokens, reply).sent)
  {
    hide ChunkEnd, RequestTokens;
    ChunkLeavesRoom(cfg, ms, toolTokens, end, c);
  }

  lemma StepPassFits(cfg: Config, original: seq<Message>, target: nat, toolTokens: nat, reply: Option<string>, p: Pass)
    requires cfg.compactMaxTokens <= U32_MAX
    requires PassShape(original, target, p)
    requires 0 < p.remaining && PassEnd(p) < |p.messages|
    requires AllFit(cfg, toolTokens, p.sent)
    ensures AllFit(cfg, toolTokens, StepPass(cfg, toolTokens, ChunkBudget(cfg, original, toolTokens), reply, p).p.sent)
  {
    hide ChunkEnd, SummarizeRange, SummaryFits, ChunkBudget;
    var budget := ChunkBudget(cfg, original, toolTokens);
    var chunk := ChunkEnd(p.messages, PassEnd(p), budget);
    if chunk.Some? {
      SummarizeFits(cfg, p.messages, original, toolTokens, PassEnd(p), chunk.value, reply);
      var s := SummarizeRange(cfg, p.messages[..chunk.value + 1], toolTokens, reply);
      assert StepPass(cfg, toolTokens, budget, reply, p).p.sent == p.sent + s.sent;
    }
  }

  lemma {:induction false} PassesFit(cfg: Config, original: seq<Message>, target: nat, toolTokens: nat,
                                     replies: nat -> Option<string>, p: Pass)
    requires cfg.compactMaxTokens <= U32_MAX
    requires PassShape(original, target, p) && PassEnd(p) < |p.messages|
    requires AllFit(cfg, toolTokens, p.sent)
    ensures AllFit(cfg, toolTokens,
      CompactPasses(cfg, toolTokens, ChunkBudget(cfg, original, toolTokens), replies, p).sent)
    decreases p.remaining
  {
    hide StepPass, ChunkBudget, SummaryFits;
    if p.remaining != 0 {
      var budget := ChunkBudget(cfg, original, toolTokens);
      StepPassShape(original, target, cfg, toolTokens, budget, replies(|p.sent|), p);
      StepPassFits(cfg, original, target, toolTokens, replies(|p.sent|), p);
      var r := StepPass(cfg, toolTokens, budget, replies(|p.sent|), p);
      if r.Accepted? {
        PassesFit(cfg, original, target, toolTokens, replies, r.p);
      }
    }
  }

  lemma CompactRangeFits(cfg: Config, ms: seq<Message>, toolTokens: nat, target: nat,
                         replies: nat -> Option<string>, newBefore: nat)
    requires cfg.compactMaxTokens <= U32_MAX
    requires target < |ms|
    ensures AllFit(cfg, toolTokens, CompactRange(cfg, ms, toolTokens, target, replies, newBefore).sent)
  {
    hide CompactPasses, ChunkBudget, SummaryFits;
    PassesFit(cfg, ms, target, toolTokens, replies, Pass(ms, target, None, true, []));
  }

  // ---------------------------------------------------------------------
  // Started calls
  // ---------------------------------------------------------------------

  lemma ProduceCalls(cfg: Config, inp: StepInput, unusable: nat)
    ensures var p := Produce(cfg, inp, unusable);
      p.called > 0 ==> inp.reply.Finished? && !inp.reply.truncated
  {
  }

  lemma CalledFit(cfg: Config, env: Env, step: nat, inp: StepInput, unusable: nat)
    requires inp == env(step)
    ensures LogFits(cfg, env, CalledEvents(step, ReplyCalls(inp), Produce(cfg, inp, unusable).called))
  {
    ProduceCalls(cfg, inp, unusable);
    hide Produce;
    var called := Produce(cfg, inp, unusable).called;
    var es := CalledEvents(step, ReplyCalls(inp), called);
    forall i | 0 <= i < |es|
      ensures EventFits(cfg, env, es[i])
    {
      assert es[i] == Called(step, ReplyCalls(inp)[i]);
    }
  }

  // ---------------------------------------------------------------------
  // Runs
  // ---------------------------------------------------------------------

  lemma LogFitsAppend(cfg: Config, env: Env, a: seq<Event>, b: seq<Event>)
    ensures LogFits(cfg, env, a) && LogFits(cfg, env, b) ==> LogFits(cfg, env, a + b)
  {
  }

  lemma PrepareFits(cfg: Config, turnStart: nat, st: State, step: nat, env: Env)
    requires cfg.compactMaxTokens <= U32_MAX
    ensures LogFits(cfg, env, PrepareEvents(step, Preparation(cfg, turnStart, st, step, env(step))))
  {
    var inp := env(step);
    var begun := Begin(st, step, inp);
    var target := CompactionTarget(cfg, begun, turnStart, inp);
    hide CompactRange, SummaryFits, CompactionTarget;
    if target.Some? {
      CompactRangeFits(cfg, begun.messages, inp.toolTokens, target.value, inp.summaries, |begun.added|);
    }
  }

  lemma RequestEventFits(cfg: Config, st: State, step: nat, inp: StepInput)
    requires Sends(cfg, st, inp)
    ensures var e := RequestEvent(cfg, st, step, inp);
      RequestFits(cfg, inp.toolTokens, e.messages, e.inputTokens, e.maxOutput)
  {
    hide InputTokens, ValidRequest;
  }

  lemma StepFits(cfg: Config, turnStart: nat, st: State, step: nat, env: Env)
    requires cfg.compactMaxTokens <= U32_MAX
    requires LogFits(cfg, env, st.log)
    ensures LogFits(cfg, env, OneStep(cfg, turnStart, st, step, env(step)).st.log)
  {
    hide Ready, Converse, Preparation, PrepareEvents;
    var inp := env(step);
    if !inp.cancelledAtStart {
      ReadyLog(cfg, turnStart, st, step, inp);
      PrepareFits(cfg, turnStart, st, step, env);
      ReadyMeaning(cfg, turnStart, st, step, inp);
      ConverseFits(cfg, Ready(cfg, turnStart, st, step, inp), step, |st.added|, env);
    }
  }

  lemma ConverseFits(cfg: Config, st: State, step: nat, from: nat, env: Env)
    requires LogFits(cfg, env, st.log) && from <= |st.added|
    ensures LogFits(cfg, env, Converse(cfg, st, step, from, env(step)).st.log)
  {
    hide Converse, RequestFits, SummaryFits, CallComplete, Produce, AfterReply, RequestEvent;
    var inp := env(step);
    if Sends(cfg, st, inp) {
      var p := Produce(cfg, inp, st.unusable);
      var e := RequestEvent(cfg, st, step, inp);
      ConverseLog(cfg, st, step, from, inp);
      RequestEventFits(cfg, st, step, inp);
      RequestEventIs(cfg, st, step, inp);
      LogFitsAppend(cfg, env, st.log, [e]);
      CalledFit(cfg, env, step, inp, st.unusable);
      LogFitsAppend(cfg, env, CalledEvents(step, ReplyCalls(inp), p.called),
        ConcludeEvents(step, AfterReply(cfg, st, step, inp).added[from..], inp, p.ending));
      LogFitsAppend(cfg, env, st.log + [e], AnswerEvents(cfg, st, step, from, inp));
    } else {
      BlockedLog(cfg, st, step, from, inp);
    }
  }

  lemma {:induction false} RunFromFits(cfg: Config, turnStart: nat, st: State, step: nat, env: Env)
    requires cfg.compactMaxTokens <= U32_MAX
    requires LogFits(cfg, env, st.log)
    ensures LogFits(cfg, env, RunFrom(cfg, turnStart, st, step, env).st.log)
    decreases StepBudget(cfg) + 1 - step
  {
    hide *;
    if step > StepBudget(cfg) {
      RunFromSpent(cfg, turnStart, st, step, env);
    } else {
      RunFromStep(cfg, turnStart, st, step, env);
      StepFits(cfg, turnStart, st, step, env);
      var r := OneStep(cfg, turnStart, st, step, env(step));
      if r.Continue? {
        RunFromFits(cfg, turnStart, r.st, step + 1, env);
      }
    }
  }

  /** Every request and every summariser call of every run fits its window, and no cut call is started. */
  lemma RunFits(cfg: Config, history: seq<Message>, env: Env)
    requires cfg.compactMaxTokens <= U32_MAX
    ensures LogFits(cfg, env, Run(cfg, history, env).st.log)
  {
    var base := BaseHistory(cfg, history);
    RunFromFits(cfg, TurnStart(base), State(base, [], None, false, 0, []), 1, env);
  }

  /** The messages of the request as sent, the catalog last. */
  function Wire(cfg: Config, ms: seq<Message>): seq<Message> {
    match cfg.catalog
    case None => ms
    case Some(text) => ms + [UserMessage(text)]
  }

  /** The request as sent is estimated as the loop counts it, and four tokens higher with a catalog. */
  lemma {:induction false} WireTokens(cfg: Config, ms: seq<Message>, toolTokens: nat)
    ensures RequestTokens(Wire(cfg, ms), toolTokens)
         == InputTokens(cfg, ms, toolTokens) + (if cfg.catalog.Some? then 4 else 0)
  {
    if cfg.catalog.Some? {
      var text := UserMessage(cfg.catalog.value);
      TotalCostAppend(ms, [text]);
      assert TotalCost([text]) == Cost(text);
    }
  }

  // ---------------------------------------------------------------------
  // Well-formed arguments stay well formed
  // ---------------------------------------------------------------------

  lemma {:induction false} BatchValid(calls: seq<ToolCall>, i: nat, end: nat, inp: StepInput, unusable: nat,
                                      isObject: string -> bool)
    requires i <= end <= |calls|
    ensures ValidRequest(RunBatch(calls, i, end, inp, unusable).messages, isObject)
    decreases end - i
  {
    if i < end && NextUnusable(unusable, inp.results(i)) <= MAX_UNUSABLE_ARGUMENTS {
      BatchValid(calls, i + 1, end, inp, NextUnusable(unusable, inp.results(i)), isObject);
    }
  }

  lemma {:induction false} ToolsValid(cfg: Config, calls: seq<ToolCall>, i: nat, inp: StepInput, unusable: nat)
    requires i <= |calls|
    ensures ValidRequest(RunTools(cfg, calls, i, inp, unusable).messages, cfg.isObject)
    decreases |calls| - i
  {
    if i < |calls| && !inp.cancelledBefore(i) {
      var end := BatchEnd(cfg, calls, i);
      BatchValid(calls, i, end, inp, unusable, cfg.isObject);
      var batch := RunBatch(calls, i, end, inp, unusable);
      if !batch.ending.GaveUp? {
        ToolsValid(cfg, calls, end, inp, batch.unusable);
      }
    }
  }

  lemma ProduceValid(cfg: Config, inp: StepInput, unusable: nat)
    requires cfg.isObject("{}")
    ensures ValidRequest(Produce(cfg, inp, unusable).messages, cfg.isObject)
  {
    match inp.reply
    case Failed(_) =>
    case CutShort(a) =>
    case Finished(a, truncated) =>
      if !truncated && a.calls != [] {
        ToolsValid(cfg, a.calls, 0, inp, unusable);
      }
  }

  lemma AfterReplyValid(cfg: Config, st: State, step: nat, inp: StepInput)
    requires cfg.isObject("{}") && ValidRequest(st.messages, cfg.isObject)
    ensures ValidRequest(AfterReply(cfg, st, step, inp).messages, cfg.isObject)
  {
    var p := Produce(cfg, inp, st.unusable);
    ProduceValid(cfg, inp, st.unusable);
    JoinedValid(st.messages, p.messages, cfg.isObject);
    NotedValid(cfg, st.messages + p.messages);
    hide Produce, ValidRequest, NoteLast;
  }

  lemma JoinedValid(a: seq<Message>, b: seq<Message>, isObject: string -> bool)
    requires ValidRequest(a, isObject) && ValidRequest(b, isObject)
    ensures ValidRequest(a + b, isObject)
  {
    hide ValidCalls;
  }

  lemma NotedValid(cfg: Config, ms: seq<Message>)
    requires ValidRequest(ms, cfg.isObject)
    ensures ValidRequest(NoteLast(cfg, ms), cfg.isObject)
  {
    hide ValidCalls;
  }

  lemma UsersValid(ms: seq<Message>, texts: seq<string>, isObject: string -> bool)
    requires ValidRequest(ms, isObject)
    ensures ValidRequest(ms + UserMessages(texts), isObject)
  {
  }

  lemma ReadyValid(cfg: Config, turnStart: nat, st: State, step: nat, inp: StepInput)
    requires ValidRequest(st.messages, cfg.isObject)
    ensures ValidRequest(Ready(cfg, turnStart, st, step, inp).messages, cfg.isObject)
  {
    UsersValid(st.messages, inp.steering, cfg.isObject);
    hide Ready, Preparation, ValidRequest, Normalize, RecordTells;
    NormalizeValid(st.messages + UserMessages(inp.steering), cfg.isObject);
    ReadyMeaning(cfg, turnStart, st, step, inp);
    var p := Preparation(cfg, turnStart, st, step, inp);
    if Adopted(p) {
      var begun := Begin(st, step, inp);
      RewrittenValid(begun.messages, p.target, |begun.added|, p.rewritten, cfg.isObject);
    }
  }

  lemma RewrittenValid(ms: seq<Message>, target: nat, newBefore: nat, r: Rewritten, isObject: string -> bool)
    requires ValidRequest(ms, isObject) && RecordTells(ms, target, newBefore, r) && r.record.Some?
    ensures ValidRequest(r.messages, isObject)
  {
    EmptyCallsValid(isObject);
    hide ValidCalls;
  }

  lemma EmptyCallsValid(isObject: string -> bool)
    ensures ValidCalls([], isObject)
  {
  }

  lemma StepValid(cfg: Config, turnStart: nat, st: State, step: nat, inp: StepInput)
    requires cfg.isObject("{}") && ValidRequest(st.messages, cfg.isObject)
    ensures var r := OneStep(cfg, turnStart, st, step, inp);
      && (r.Stop? ==> !r.outcome.InvalidRequest?)
      && (r.Continue? ==> ValidRequest(r.st.messages, cfg.isObject))
  {
    hide Ready, Converse, ValidRequest;
    if !inp.cancelledAtStart {
      ReadyValid(cfg, turnStart, st, step, inp);
      ReadyMeaning(cfg, turnStart, st, step, inp);
      ConverseValid(cfg, Ready(cfg, turnStart, st, step, inp), step, |st.added|, inp);
    }
  }

  lemma {:induction false} RunFromValid(cfg: Config, turnStart: nat, st: State, step: nat, env: Env)
    requires cfg.isObject("{}") && ValidRequest(st.messages, cfg.isObject)
    ensures !RunFrom(cfg, turnStart, st, step, env).outcome.InvalidRequest?
    decreases StepBudget(cfg) + 1 - step
  {
    hide *;
    if step > StepBudget(cfg) {
      RunFromSpent(cfg, turnStart, st, step, env);
    } else {
      RunFromStep(cfg, turnStart, st, step, env);
      StepValid(cfg, turnStart, st, step, env(step));
      var r := OneStep(cfg, turnStart, st, step, env(step));
      if r.Continue? {
        RunFromValid(cfg, turnStart, r.st, step + 1, env);
      }
    }
  }

  lemma ConverseValid(cfg: Config, st: State, step: nat, from: nat, inp: StepInput)
    requires cfg.isObject("{}") && ValidRequest(st.messages, cfg.isObject) && from <= |st.added|
    ensures var r := Converse(cfg, st, step, from, inp);
      && (r.Stop? ==> !r.outcome.InvalidRequest?)
      && (r.Continue? ==> ValidRequest(r.st.messages, cfg.isObject))
  {
    hide Converse, AfterReply, Conclude, Produce;
    if Sends(cfg, st, inp) {
      var p := Produce(cfg, inp, st.unusable);
      ConverseLog(cfg, st, step, from, inp);
      AfterReplyValid(cfg, st, step, inp);
      ConcludeMeaning(cfg, AfterReply(cfg, st, step, inp), step, from, inp, p.ending);
    } else {
      BlockedLog(cfg, st, step, from, inp);
    }
  }

  /** If the stored history's arguments are JSON objects, no request of the run fails its check. */
  lemma RunNeverInvalid(cfg: Config, history: seq<Message>, env: Env)
    requires cfg.isObject("{}") && ValidRequest(history, cfg.isObject)
    ensures !Run(cfg, history, env).outcome.InvalidRequest?
  {
    var base := BaseHistory(cfg, history);
    var full := if history != [] && history[0].role == System then history
                else [SystemMessage(cfg.systemPrompt)] + history;
    NormalizeValid(full, cfg.isObject);
    RunFromValid(cfg, TurnStart(base), State(base, [], None, false, 0, []), 1, env);
  }
}
