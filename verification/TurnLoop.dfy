/**
 The turn loop as a state machine over the message list, and the imperative loop that runs it. Provider
 answers, cancellation, steering and tool results are arbitrary: `env(k)` holds everything the outside world
 does during step k.
 */
module TurnLoop {
  import opened Wrappers
  import opened Chat
  import opened Compaction

  datatype Answer = Answer(content: Option<string>, reasoning: Option<string>, calls: seq<ToolCall>)

  datatype Reply =
    | Failed(cancelled: bool)                     // no usable answer
    | CutShort(answer: Answer)                    // the stream was cancelled midway
    | Finished(answer: Answer, truncated: bool)   // truncated: stopped at the output limit

  datatype ToolOutcome = ToolOutcome(content: string, usable: bool)

  datatype StepInput = StepInput(
    cancelledAtStart: bool,
    toolTokens: nat,
    steering: seq<string>,              // claimed when the step begins
    summaries: nat -> Option<string>,   // summariser replies, by call
    reply: Reply,
    pending: seq<string>,               // claimed after a final answer
    cancelledBefore: nat -> bool,       // cancellation seen before call i
    results: nat -> ToolOutcome)        // what call i returns

  type Env = nat -> StepInput

  datatype Event =
    | Started(step: nat)
    | Summarizing(step: nat, summary: SummaryCall)
    | Compacted(record: Record)
    | Request(step: nat, messages: seq<Message>, inputTokens: nat, maxOutput: nat)
    | Called(step: nat, call: ToolCall)
    | Settled(step: nat, interrupted: bool, messages: seq<Message>)
    | Ended(step: nat, toolCalls: nat, cancelled: bool)

  datatype Outcome =
    | Done(added: seq<Message>, record: Option<Record>, steps: nat)
    | Cancelled
    | MaxSteps
    | ContextOverflow(inputTokens: nat)
    | InvalidRequest
    | ProviderFailed
    | UnusableArguments

  // `added` is what this run added; `record` the adopted checkpoint, if any.
  datatype State = State(
    messages: seq<Message>,
    added: seq<Message>,
    record: Option<Record>,
    attempted: bool,
    unusable: nat,
    log: seq<Event>)

  datatype StepResult = Continue(st: State) | Stop(outcome: Outcome, st: State)

  const MAX_UNUSABLE_ARGUMENTS: nat := 2

  function StepBudget(cfg: Config): nat {
    if cfg.maxSteps == 0 then U32_MAX else cfg.maxSteps
  }

  // ---------------------------------------------------------------------
  // Begin: claim steering, repair the history
  // ---------------------------------------------------------------------

  function Begin(st: State, step: nat, inp: StepInput): State {
    st.(messages := Normalize(st.messages + UserMessages(inp.steering)),
        added := st.added + UserMessages(inp.steering),
        log := st.log + [Started(step)])
  }

  // ---------------------------------------------------------------------
  // Compact under pressure
  // ---------------------------------------------------------------------

  function CatalogTokens(cfg: Config): nat {
    match cfg.catalog
    case None => 0
    case Some(text) => EstimateTokens(MessageBytes(UserMessage(text)))
  }

  function InputTokens(cfg: Config, ms: seq<Message>, toolTokens: nat): nat {
    RequestTokens(ms, toolTokens) + CatalogTokens(cfg)
  }

  function NeedsCompaction(cfg: Config, inputTokens: nat): bool {
    var pressure := SaturatingSub(SaturatingSub(cfg.contextWindow, cfg.maxOutputTokens), Safety(cfg));
    var threshold := Min(RatioTokens(cfg.compactAt, cfg.contextWindow), pressure);
    (threshold > 0 && inputTokens >= threshold)
    || inputTokens + cfg.maxOutputTokens + Safety(cfg) > cfg.contextWindow
  }

  /** The end of the range to shadow, when this step should try at all. */
  function CompactionTarget(cfg: Config, st: State, turnStart: nat, inp: StepInput): (t: Option<nat>)
    ensures t.Some? ==> !st.attempted && 1 <= t.value && t.value + 1 < |st.messages|
    ensures t.Some? ==> t.value + 1 < turnStart
  {
    if st.attempted || !NeedsCompaction(cfg, InputTokens(cfg, st.messages, inp.toolTokens)) then None
    else CompactionEnd(st.messages, turnStart, RatioTokens(cfg.retainRecent, cfg.contextWindow))
  }

  function SummaryEvents(step: nat, sent: seq<SummaryCall>): (es: seq<Event>)
    ensures |es| == |sent|
    ensures forall i :: 0 <= i < |es| ==> es[i] == Summarizing(step, sent[i])
  {
    seq(|sent|, i requires 0 <= i < |sent| => Summarizing(step, sent[i]))
  }

  function ApplyRewrite(st: State, step: nat, r: Rewritten): State {
    st.(messages := r.messages,
        attempted := true,
        record := if r.record.Some? then r.record else st.record,
        log := st.log + SummaryEvents(step, r.sent) + (if r.record.Some? then [Compacted(r.record.value)] else []))
  }

  function CompactIfPressed(cfg: Config, st: State, turnStart: nat, step: nat, inp: StepInput): State {
    match CompactionTarget(cfg, st, turnStart, inp)
    case None => st
    case Some(target) =>
      ApplyRewrite(st, step, CompactRange(cfg, st.messages, inp.toolTokens, target, inp.summaries, |st.added|))
  }

  // ---------------------------------------------------------------------
  // Settle
  // ---------------------------------------------------------------------

  /** Settle what the step added from `from` on, unless it added nothing, and end the step. */
  function Close(st: State, step: nat, from: nat, interrupted: bool, toolCalls: nat, cancelled: bool): State
    requires from <= |st.added|
  {
    var delta := st.added[from..];
    st.(log := st.log
      + (if delta == [] then [] else [Settled(step, interrupted, delta)])
      + [Ended(step, toolCalls, cancelled)])
  }

  function Push(st: State, ms: seq<Message>): State {
    st.(messages := st.messages + ms, added := st.added + ms)
  }

  // ---------------------------------------------------------------------
  // What an answer and its tool calls produce
  // ---------------------------------------------------------------------

  datatype Ending =
    | NoAnswer(cancelled: bool)
    | Interrupted
    | CallsCut                 // calls answered, none run
    | Final(noted: bool)       // no calls; noted: cut at the output limit
    | CallsRan
    | CancelledBetween
    | GaveUp                   // too many unusable payloads in a row

  // `called` is how many calls were started.
  datatype Production = Production(messages: seq<Message>, called: nat, unusable: nat, ending: Ending)

  function AssistantMessage(cfg: Config, a: Answer): Message {
    Message(Assistant, a.content, a.reasoning, Sanitized(a.calls, cfg.isObject), None)
  }

  function InterruptedResults(cfg: Config, calls: seq<ToolCall>): (ms: seq<Message>)
    ensures |ms| == |calls|
    ensures forall i :: 0 <= i < |ms| ==> ms[i] == ToolMessage(calls[i].id, cfg.interruptedResult(calls[i].name))
  {
    seq(|calls|, i requires 0 <= i < |calls| => ToolMessage(calls[i].id, cfg.interruptedResult(calls[i].name)))
  }

  function CutResults(cfg: Config, calls: seq<ToolCall>): (ms: seq<Message>)
    ensures |ms| == |calls|
    ensures forall i :: 0 <= i < |ms| ==> ms[i] == ToolMessage(calls[i].id, cfg.cutCallResult(calls[i].name))
  {
    seq(|calls|, i requires 0 <= i < |calls| => ToolMessage(calls[i].id, cfg.cutCallResult(calls[i].name)))
  }

  function Recorded(m: Message): seq<Message> {
    if IsEmptyAssistant(m) then [] else [m]
  }

  /** A cut answer with calls says so, unless its text is present and blank. */
  function NotedCalls(cfg: Config, m: Message): Message {
    if m.content.Some? && Blank(m.content.value) then m
    else m.(content := Some(m.content.GetOr("") + cfg.cutCallNote))
  }

  /** Calls i.. that may run together with call i. */
  function BatchEnd(cfg: Config, calls: seq<ToolCall>, i: nat): (e: nat)
    requires i < |calls|
    ensures i < e <= |calls|
  {
    if cfg.parallelSafe(calls[i]) then SafeRun(cfg, calls, i + 1) else i + 1
  }

  function SafeRun(cfg: Config, calls: seq<ToolCall>, i: nat): (e: nat)
    requires i <= |calls|
    ensures i <= e <= |calls|
    decreases |calls| - i
  {
    if i < |calls| && cfg.parallelSafe(calls[i]) then SafeRun(cfg, calls, i + 1) else i
  }

  function NextUnusable(unusable: nat, outcome: ToolOutcome): nat {
    if outcome.usable then 0 else unusable + 1
  }

  /** Results of calls i..end, stopping at the third unusable payload in a row. */
  function RunBatch(calls: seq<ToolCall>, i: nat, end: nat, inp: StepInput, unusable: nat): Production
    requires i <= end <= |calls|
    decreases end - i
  {
    if i == end then Production([], end, unusable, CallsRan)
    else
      var next := NextUnusable(unusable, inp.results(i));
      if next > MAX_UNUSABLE_ARGUMENTS then Production([], end, next, GaveUp)
      else
        var rest := RunBatch(calls, i + 1, end, inp, next);
        rest.(messages := [ToolMessage(calls[i].id, inp.results(i).content)] + rest.messages)
  }

  function RunTools(cfg: Config, calls: seq<ToolCall>, i: nat, inp: StepInput, unusable: nat): Production
    requires i <= |calls|
    decreases |calls| - i
  {
    if i == |calls| then Production([], i, unusable, CallsRan)
    else if inp.cancelledBefore(i) then
      Production(InterruptedResults(cfg, calls[i..]), i, unusable, CancelledBetween)
    else
      var batch := RunBatch(calls, i, BatchEnd(cfg, calls, i), inp, unusable);
      if batch.ending == GaveUp then batch
      else
        var rest := RunTools(cfg, calls, BatchEnd(cfg, calls, i), inp, batch.unusable);
        rest.(messages := batch.messages + rest.messages)
  }

  /** Everything one reply adds to the history. */
  function Produce(cfg: Config, inp: StepInput, unusable: nat): Production {
    match inp.reply
    case Failed(cancelled) => Production([], 0, unusable, NoAnswer(cancelled))
    case CutShort(a) =>
      var m := AssistantMessage(cfg, a);
      Production(Recorded(m) + InterruptedResults(cfg, a.calls), 0, unusable, Interrupted)
    case Finished(a, truncated) =>
      var m := AssistantMessage(cfg, a);
      if truncated && a.calls != [] then
        Production([NotedCalls(cfg, m)] + CutResults(cfg, a.calls), 0, unusable, CallsCut)
      else if a.calls == [] then
        Production(Recorded(m), 0, unusable, Final(truncated))
      else
        var ran := RunTools(cfg, a.calls, 0, inp, unusable);
        ran.(messages := [m] + ran.messages)
  }

  function ReplyCalls(inp: StepInput): seq<ToolCall> {
    match inp.reply
    case Failed(_) => []
    case CutShort(a) => a.calls
    case Finished(a, _) => a.calls
  }

  function CalledEvents(step: nat, calls: seq<ToolCall>, called: nat): (es: seq<Event>)
    ensures |es| == Min(called, |calls|)
    ensures forall i :: 0 <= i < |es| ==> es[i] == Called(step, calls[i])
  {
    seq(Min(called, |calls|), i requires 0 <= i < |calls| => Called(step, calls[i]))
  }

  /** The cut note goes on the last message of the list, whichever that is. */
  function NoteLast(cfg: Config, ms: seq<Message>): (r: seq<Message>)
    ensures |r| == |ms|
  {
    if ms == [] then []
    else
      var last := ms[|ms| - 1];
      ms[..|ms| - 1] + [last.(content := Some(last.content.GetOr("") + cfg.cutAnswerNote))]
  }

  function ApplyProduction(cfg: Config, st: State, step: nat, inp: StepInput, p: Production): (r: State)
    ensures |r.added| == |st.added| + |p.messages|
  {
    var pushed := Push(st, p.messages)
      .(unusable := p.unusable, log := st.log + CalledEvents(step, ReplyCalls(inp), p.called));
    if p.ending == Final(true) then
      pushed.(messages := NoteLast(cfg, pushed.messages), added := NoteLast(cfg, pushed.added))
    else pushed
  }

  /** Settle the step and decide whether another follows. */
  function Conclude(cfg: Config, st: State, step: nat, from: nat, inp: StepInput, ending: Ending): StepResult
    requires from <= |st.added|
  {
    var calls := |ReplyCalls(inp)|;
    match ending
    case NoAnswer(cancelled) =>
      Stop(if cancelled then Cancelled else ProviderFailed, Close(st, step, from, true, 0, cancelled))
    case Interrupted => Stop(Cancelled, Close(st, step, from, true, calls, true))
    case CancelledBetween => Stop(Cancelled, Close(st, step, from, true, calls, true))
    case GaveUp => Stop(UnusableArguments, st)
    case CallsCut => NextStep(cfg, Close(st, step, from, false, calls, false), step)
    case CallsRan => NextStep(cfg, Close(st, step, from, false, calls, false), step)
    case Final(_) =>
      var closed := Close(st, step, from, false, 0, false);
      if inp.pending == [] then Stop(Done(closed.added, closed.record, step), closed)
      else if step == StepBudget(cfg) then Stop(MaxSteps, closed)
      else Continue(Push(closed, UserMessages(inp.pending)))
  }

  function NextStep(cfg: Config, st: State, step: nat): StepResult {
    if step == StepBudget(cfg) then Stop(MaxSteps, st) else Continue(st)
  }

  // ---------------------------------------------------------------------
  // One step, and the run
  // ---------------------------------------------------------------------

  function MaxOutput(cfg: Config, available: nat): nat {
    Max(Min(cfg.maxOutputTokens, Min(available, U32_MAX)), 1)
  }

  function Available(cfg: Config, inputTokens: nat): nat {
    SaturatingSub(cfg.contextWindow, inputTokens + Safety(cfg))
  }

  function Ready(cfg: Config, turnStart: nat, st: State, step: nat, inp: StepInput): State {
    CompactIfPressed(cfg, Begin(st, step, inp), turnStart, step, inp)
  }

  function RequestEvent(cfg: Config, st: State, step: nat, inp: StepInput): Event {
    var input := InputTokens(cfg, st.messages, inp.toolTokens);
    Request(step, st.messages, input, MaxOutput(cfg, Available(cfg, input)))
  }

  /** From a ready history to the end of the step. */
  function Converse(cfg: Config, st: State, step: nat, from: nat, inp: StepInput): StepResult
    requires from <= |st.added|
  {
    var input := InputTokens(cfg, st.messages, inp.toolTokens);
    if Available(cfg, input) == 0 then
      Stop(ContextOverflow(input), Close(st, step, from, true, 0, false))
    else if !ValidRequest(st.messages, cfg.isObject) then
      Stop(InvalidRequest, Close(st, step, from, true, 0, false))
    else
      var asked := st.(log := st.log + [RequestEvent(cfg, st, step, inp)]);
      var p := Produce(cfg, inp, st.unusable);
      Conclude(cfg, ApplyProduction(cfg, asked, step, inp, p), step, from, inp, p.ending)
  }

  function OneStep(cfg: Config, turnStart: nat, st: State, step: nat, inp: StepInput): StepResult {
    if inp.cancelledAtStart then Stop(Cancelled, st)
    else
      ReadyKeepsAdded(cfg, turnStart, st, step, inp);
      Converse(cfg, Ready(cfg, turnStart, st, step, inp), step, |st.added|, inp)
  }

  lemma ReadyKeepsAdded(cfg: Config, turnStart: nat, st: State, step: nat, inp: StepInput)
    ensures Ready(cfg, turnStart, st, step, inp).added == st.added + UserMessages(inp.steering)
  {
  }

  datatype RunResult = RunResult(outcome: Outcome, st: State)

  function RunFrom(cfg: Config, turnStart: nat, st: State, step: nat, env: Env): RunResult
    decreases StepBudget(cfg) + 1 - step
  {
    if step > StepBudget(cfg) then RunResult(MaxSteps, st)
    else
      match OneStep(cfg, turnStart, st, step, env(step))
      case Stop(outcome, last) => RunResult(outcome, last)
      case Continue(next) => RunFrom(cfg, turnStart, next, step + 1, env)
  }

  /** A run ends when its step budget is spent, ... */
  lemma {:induction false} RunFromSpent(cfg: Config, turnStart: nat, st: State, step: nat, env: Env)
    requires step > StepBudget(cfg)
    ensures RunFrom(cfg, turnStart, st, step, env) == RunResult(MaxSteps, st)
  {
  }

  /** ... and until then each step either ends it or hands its state to the next. */
  lemma RunFromStep(cfg: Config, turnStart: nat, st: State, step: nat, env: Env)
    requires step <= StepBudget(cfg)
    ensures var r := OneStep(cfg, turnStart, st, step, env(step));
      && (r.Stop? ==> RunFrom(cfg, turnStart, st, step, env) == RunResult(r.outcome, r.st))
      && (r.Continue? ==> RunFrom(cfg, turnStart, st, step, env) == RunFrom(cfg, turnStart, r.st, step + 1, env))
  {
    hide OneStep, StepBudget;
  }

  /** The history every run starts from: a system message first, then repaired. */
  function BaseHistory(cfg: Config, history: seq<Message>): seq<Message> {
    Normalize(
      if history != [] && history[0].role == System then history
      else [SystemMessage(cfg.systemPrompt)] + history)
  }

  /** Index of the last user message before `end`, or `end`. */
  function LastUserIndex(ms: seq<Message>, end: nat, k: nat): nat
    requires k <= end <= |ms|
  {
    if k == 0 then end
    else if ms[k - 1].role == User then k - 1
    else LastUserIndex(ms, end, k - 1)
  }

  function TurnStart(base: seq<Message>): nat {
    LastUserIndex(base, |base|, |base|)
  }

  function Run(cfg: Config, history: seq<Message>, env: Env): RunResult {
    var base := BaseHistory(cfg, history);
    RunFrom(cfg, TurnStart(base), State(base, [], None, false, 0, []), 1, env)
  }

  // ---------------------------------------------------------------------
  // The loop as it runs
  // ---------------------------------------------------------------------

  method AppendUsers(messages: seq<Message>, added: seq<Message>, texts: seq<string>)
    returns (messages': seq<Message>, added': seq<Message>)
    ensures messages' == messages + UserMessages(texts)
    ensures added' == added + UserMessages(texts)
  {
    messages', added' := messages, added;
    for i := 0 to |texts|
      invariant messages' == messages + UserMessages(texts)[..i]
      invariant added' == added + UserMessages(texts)[..i]
    {
      var message := UserMessage(texts[i]);
      assert UserMessages(texts)[..i + 1] == UserMessages(texts)[..i] + [message];
      messages' := messages' + [message];
      added' := added' + [message];
    }
    assert UserMessages(texts)[..|texts|] == UserMessages(texts);
  }

  /** Pair every call that never ran with an unknown-outcome result. */
  method AppendInterruptedResults(cfg: Config, messages: seq<Message>, added: seq<Message>, calls: seq<ToolCall>)
    returns (messages': seq<Message>, added': seq<Message>)
    ensures messages' == messages + InterruptedResults(cfg, calls)
    ensures added' == added + InterruptedResults(cfg, calls)
  {
    messages', added' := messages, added;
    for i := 0 to |calls|
      invariant messages' == messages + InterruptedResults(cfg, calls)[..i]
      invariant added' == added + InterruptedResults(cfg, calls)[..i]
    {
      var message := ToolMessage(calls[i].id, cfg.interruptedResult(calls[i].name));
      assert InterruptedResults(cfg, calls)[..i + 1] == InterruptedResults(cfg, calls)[..i] + [message];
      messages' := messages' + [message];
      added' := added' + [message];
    }
    assert InterruptedResults(cfg, calls)[..|calls|] == InterruptedResults(cfg, calls);
  }

  method ExecuteBatch(calls: seq<ToolCall>, from: nat, end: nat, inp: StepInput, unusable0: nat)
    returns (results: seq<Message>, unusable: nat, gaveUp: bool)
    requires from <= end <= |calls|
    ensures Production(results, end, unusable, if gaveUp then GaveUp else CallsRan)
      == RunBatch(calls, from, end, inp, unusable0)
  {
    results, unusable, gaveUp := [], unusable0, false;
    var i := from;
    while i < end
      invariant from <= i <= end
      invariant var rest := RunBatch(calls, i, end, inp, unusable);
        RunBatch(calls, from, end, inp, unusable0) == rest.(messages := results + rest.messages)
    {
      unusable := NextUnusable(unusable, inp.results(i));
      if unusable > MAX_UNUSABLE_ARGUMENTS {
        return results, unusable, true;
      }
      results := results + [ToolMessage(calls[i].id, inp.results(i).content)];
      i := i + 1;
    }
  }

  method FindBatchEnd(cfg: Config, calls: seq<ToolCall>, i: nat) returns (e: nat)
    requires i < |calls|
    ensures e == BatchEnd(cfg, calls, i)
  {
    e := i + 1;
    if cfg.parallelSafe(calls[i]) {
      while e < |calls| && cfg.parallelSafe(calls[e])
        invariant i < e <= |calls|
        invariant SafeRun(cfg, calls, e) == SafeRun(cfg, calls, i + 1)
      {
        e := e + 1;
      }
    }
  }

  /** Cancellation is looked at between batches only; the rest is then answered as interrupted. */
  method ExecuteTools(cfg: Config, calls: seq<ToolCall>, inp: StepInput, unusable0: nat)
    returns (results: seq<Message>, called: nat, unusable: nat, ending: Ending)
    ensures Production(results, called, unusable, ending) == RunTools(cfg, calls, 0, inp, unusable0)
  {
    results, called, unusable := [], 0, unusable0;
    while called < |calls|
      invariant called <= |calls|
      invariant var rest := RunTools(cfg, calls, called, inp, unusable);
        RunTools(cfg, calls, 0, inp, unusable0) == rest.(messages := results + rest.messages)
    {
      if inp.cancelledBefore(called) {
        var _, interrupted := AppendInterruptedResults(cfg, [], results, calls[called..]);
        return interrupted, called, unusable, CancelledBetween;
      }
      var batchEnd := FindBatchEnd(cfg, calls, called);
      var batch, gaveUp;
      batch, unusable, gaveUp := ExecuteBatch(calls, called, batchEnd, inp, unusable);
      results := results + batch;
      called := batchEnd;
      if gaveUp {
        return results, called, unusable, GaveUp;
      }
    }
    ending := CallsRan;
  }

  /** What the reply adds, case by case. */
  method HandleReply(cfg: Config, inp: StepInput, unusable: nat) returns (p: Production)
    ensures p == Produce(cfg, inp, unusable)
  {
    match inp.reply
    case Failed(cancelled) =>
      p := Production([], 0, unusable, NoAnswer(cancelled));
    case CutShort(answer) =>
      var calls := SanitizeToolArguments(answer.calls, cfg.isObject);
      var assistant := Message(Assistant, answer.content, answer.reasoning, calls, None);
      var produced := [];
      if !IsEmptyAssistant(assistant) {
        produced := produced + [assistant];
      }
      var _, answered := AppendInterruptedResults(cfg, [], produced, calls);
      assert InterruptedResults(cfg, calls) == InterruptedResults(cfg, answer.calls);
      p := Production(answered, 0, unusable, Interrupted);
    case Finished(answer, truncated) =>
      var calls := SanitizeToolArguments(answer.calls, cfg.isObject);
      var assistant := Message(Assistant, answer.content, answer.reasoning, calls, None);
      if truncated && answer.calls != [] {
        if !(assistant.content.Some? && Blank(assistant.content.value)) {
          assistant := assistant.(content := Some(assistant.content.GetOr("") + cfg.cutCallNote));
        }
        var produced := [assistant];
        for i := 0 to |answer.calls|
          invariant produced == [assistant] + CutResults(cfg, answer.calls)[..i]
        {
          produced := produced + [ToolMessage(answer.calls[i].id, cfg.cutCallResult(answer.calls[i].name))];
        }
        p := Production(produced, 0, unusable, CallsCut);
      } else if answer.calls == [] {
        p := Production(if IsEmptyAssistant(assistant) then [] else [assistant], 0, unusable, Final(truncated));
      } else {
        var results, called, unusable', ending := ExecuteTools(cfg, answer.calls, inp, unusable);
        p := Production([assistant] + results, called, unusable', ending);
      }
  }

  /** Claim steering, repair, and compact when the prompt is under pressure. */
  method PrepareStep(cfg: Config, turnStart: nat, start: State, step: nat, inp: StepInput) returns (st: State)
    ensures st == Ready(cfg, turnStart, start, step, inp)
  {
    var messages, added := AppendUsers(start.messages, start.added, inp.steering);
    messages := NormalizeHistory(messages);
    st := start.(messages := messages, added := added, log := start.log + [Started(step)]);
    if !st.attempted {
      var inputTokens := InputTokens(cfg, messages, inp.toolTokens);
      if NeedsCompaction(cfg, inputTokens) {
        var retain := RatioTokens(cfg.retainRecent, cfg.contextWindow);
        var target := SelectCompactionEnd(messages, turnStart, retain);
        if target.Some? {
          var r := CompactHistory(cfg, messages, inp.toolTokens, target.value, inp.summaries, |added|);
          st := ApplyRewrite(st, step, r);
        }
      }
    }
  }

  method RunStep(cfg: Config, turnStart: nat, start: State, step: nat, inp: StepInput) returns (r: StepResult)
    ensures r == OneStep(cfg, turnStart, start, step, inp)
  {
    if inp.cancelledAtStart {
      return Stop(Cancelled, start);
    }
    var st := PrepareStep(cfg, turnStart, start, step, inp);
    ReadyKeepsAdded(cfg, turnStart, start, step, inp);
    var from := |start.added|;
    var inputTokens := InputTokens(cfg, st.messages, inp.toolTokens);
    if Available(cfg, inputTokens) == 0 {
      return Stop(ContextOverflow(inputTokens), Close(st, step, from, true, 0, false));
    }
    if !ValidRequest(st.messages, cfg.isObject) {
      return Stop(InvalidRequest, Close(st, step, from, true, 0, false));
    }
    st := st.(log := st.log + [RequestEvent(cfg, st, step, inp)]);
    var p := HandleReply(cfg, inp, st.unusable);
    st := ApplyProduction(cfg, st, step, inp, p);
    r := Conclude(cfg, st, step, from, inp, p.ending);
  }

  method RunWithObserver(cfg: Config, history: seq<Message>, env: Env) returns (outcome: Outcome, st: State)
    ensures RunResult(outcome, st) == Run(cfg, history, env)
  {
    hide RunFrom, OneStep, Normalize, TurnStart;
    var messages := history;
    if !(messages != [] && messages[0].role == System) {
      messages := [SystemMessage(cfg.systemPrompt)] + messages;
    }
    messages := NormalizeHistory(messages);
    var turnStart := TurnStart(messages);
    st := State(messages, [], None, false, 0, []);
    var step := 1;
    while step <= StepBudget(cfg)
      invariant Run(cfg, history, env) == RunFrom(cfg, turnStart, st, step, env)
      decreases StepBudget(cfg) + 1 - step
    {
      RunFromStep(cfg, turnStart, st, step, env);
      var r := RunStep(cfg, turnStart, st, step, env(step));
      if r.Stop? {
        return r.outcome, r.st;
      }
      st := r.st;
      step := step + 1;
    }
    RunFromSpent(cfg, turnStart, st, step, env);
    outcome := MaxSteps;
  }
}
