/**
 Runs at the inputs where the loop parts from its documentation: a rewrite cut open between parallel results,
 a textless answer cut at the output limit, three unusable payloads in a row, and steering that comes after the
 final answer of the last step.
 */
module TurnCases {
  import opened Wrappers
  import opened Chat
  import opened Pairing
  import opened Compaction
  import opened TurnLoop
  import opened TurnLog
  import opened TurnGrowth
  import opened TurnEnds
  import opened TurnSteering

  function CaseConfig(window: nat, summaryTokens: nat, steps: nat): Config {
    Config(window, 1, summaryTokens, NotFinite, NotFinite, steps, None, "", "", "", "", "!", "!",
      name => "", name => "", call => false, text => true)
  }

  /** Nothing is cancelled and every tool call comes back unusable. */
  function CaseInput(reply: Reply, pending: seq<string>): StepInput {
    StepInput(false, 0, [], n => if n == 0 then Some("s") else None, reply, pending, i => false,
      i => ToolOutcome("", false))
  }

  function StartOf(base: seq<Message>): State {
    State(base, [], None, false, 0, [])
  }

  /** A repaired history that starts with a system message is where the run starts. */
  lemma {:induction false} StartsAt(cfg: Config, history: seq<Message>, env: Env)
    requires Normal(history) && history != [] && history[0].role == System
    ensures Run(cfg, history, env) == RunFrom(cfg, TurnStart(history), StartOf(history), 1, env)
  {
    NormalFixed(history);
    hide RunFrom, TurnStart, Normalize;
  }

  // ---------------------------------------------------------------------
  // A rewrite cut open
  // ---------------------------------------------------------------------

  /** The first chunk is summarised, the second summary fails. */
  const OPEN_CONFIG: Config := CaseConfig(100, 32, 1)
  const OPEN_INPUT: StepInput := CaseInput(Failed(false), [])

  function AfterFirstChunk(): Pass {
    Pass([SystemMessage(""), UserMessage("s"), ToolMessage("b", ""), UserMessage(""), UserMessage("")],
      1, Some("s"), false, [SummaryCall(PARALLEL_HISTORY[..4] + [UserMessage("")], 13)])
  }

  lemma PlainCost(m: Message)
    requires m.content.Some? && m.reasoning.None? && m.calls == []
    requires m.content.value == "" || m.content.value == "s" || m.content.value == "!"
    ensures Cost(m) == 15 && MessageBytes(m) == 32 + |m.content.value|
  {
    assert m.content.value != "" ==> m.content.value[1..] == "";
  }

  lemma ParallelBytes()
    ensures forall i :: 0 <= i < |PARALLEL_HISTORY| ==> MessageBytes(PARALLEL_HISTORY[i]) == 32
  {
    assert CallBytes(PARALLEL_HISTORY[2].calls[1..]) == 0;
  }

  lemma {:induction false} SameCosts(ms: seq<Message>)
    requires forall i :: 0 <= i < |ms| ==> Cost(ms[i]) == 15
    ensures TotalCost(ms) == 15 * |ms|
  {
    if ms != [] {
      SameCosts(ms[1..]);
    }
  }

  lemma OpenBudget()
    ensures ChunkBudget(OPEN_CONFIG, PARALLEL_HISTORY, 0) == 45 && Safety(OPEN_CONFIG) == 12
  {
    ParallelBytes();
  }

  lemma FirstSummary()
    ensures SummarizeRange(OPEN_CONFIG, PARALLEL_HISTORY[..4], 0, Some("s"))
      == Summarized([SummaryCall(PARALLEL_HISTORY[..4] + [UserMessage("")], 13)], Some("s"))
  {
    var request := PARALLEL_HISTORY[..4] + [UserMessage("")];
    ParallelHistoryCosts();
    PlainCost(UserMessage(""));
    SameCosts(request);
    OpenBudget();
    assert Trim("s") == "s";
  }

  lemma FirstPass()
    ensures var p := Pass(PARALLEL_HISTORY, 4, None, true, []);
      StepPass(OPEN_CONFIG, 0, 45, Some("s"), p) == Accepted(AfterFirstChunk())
  {
    ParallelCallsCutOpen();
    FirstSummary();
    hide ChunkEnd, SummarizeRange;
    assert Trim("s") == "s";
    assert CheckpointText(OPEN_CONFIG, "s") == "s";
    assert PARALLEL_HISTORY[4..] == AfterFirstChunk().messages[2..];
  }

  lemma SecondChunk()
    ensures ChunkEnd(AfterFirstChunk().messages, 2, 45) == Some(2)
  {
    var ms := AfterFirstChunk().messages;
    PlainCost(ms[1]);
    PlainCost(ms[2]);
    hide Cost;
    assert ChunkCost(ms, 1) == 15 && ChunkCost(ms, 2) == 30;
    assert Fit(ms, 2, 45, 2) == 2;
  }

  lemma SecondPass()
    ensures var r := StepPass(OPEN_CONFIG, 0, 45, None, AfterFirstChunk());
      r.Stopped? && r.p.messages == AfterFirstChunk().messages && r.p.remaining == 1 && r.p.checkpoint == Some("s")
  {
    SecondChunk();
    hide ChunkEnd;
  }

  lemma {:induction false} TwoPasses(cfg: Config, budget: nat, replies: nat -> Option<string>, start: Pass, mid: Pass)
    requires 0 < start.remaining && PassEnd(start) < |start.messages|
    requires 0 < mid.remaining && PassEnd(mid) < |mid.messages|
    requires StepPass(cfg, 0, budget, replies(|start.sent|), start) == Accepted(mid)
    requires StepPass(cfg, 0, budget, replies(|mid.sent|), mid).Stopped?
    ensures CompactPasses(cfg, 0, budget, replies, start) == StepPass(cfg, 0, budget, replies(|mid.sent|), mid).p
  {
    hide StepPass;
  }

  lemma OpenRewrite()
    ensures var r := CompactRange(OPEN_CONFIG, PARALLEL_HISTORY, 0, 4, OPEN_INPUT.summaries, 0);
      r.messages == AfterFirstChunk().messages && r.record.Some?
  {
    var start := Pass(PARALLEL_HISTORY, 4, None, true, []);
    OpenBudget();
    FirstPass();
    SecondPass();
    OpenBytes();
    hide StepPass, ChunkBudget, TotalBytes, CompactPasses;
    TwoPasses(OPEN_CONFIG, 45, OPEN_INPUT.summaries, start, AfterFirstChunk());
  }

  lemma {:induction false} BytesAppend(a: seq<Message>, b: seq<Message>)
    ensures TotalBytes(a + b) == TotalBytes(a) + TotalBytes(b)
  {
    if a == [] {
      assert a + b == b;
    } else {
      assert (a + b)[1..] == a[1..] + b;
      BytesAppend(a[1..], b);
    }
  }

  lemma {:induction false} BytesOf(ms: seq<Message>)
    requires forall i :: 0 <= i < |ms| ==> MessageBytes(ms[i]) == 32
    ensures TotalBytes(ms) == 32 * |ms|
  {
    if ms != [] {
      BytesOf(ms[1..]);
    }
  }

  lemma OpenBytes()
    ensures TotalBytes(AfterFirstChunk().messages) < TotalBytes(PARALLEL_HISTORY)
  {
    var ms := AfterFirstChunk().messages;
    ParallelBytes();
    PlainCost(ms[1]);
    hide MessageBytes, TotalBytes;
    BytesOf(PARALLEL_HISTORY);
    assert ms[1..][1..] == ms[2..] == PARALLEL_HISTORY[4..];
    BytesOf(PARALLEL_HISTORY[4..]);
    assert ms == PARALLEL_HISTORY[..1] + [ms[1]] + PARALLEL_HISTORY[4..];
    BytesAppend(PARALLEL_HISTORY[..1] + [ms[1]], PARALLEL_HISTORY[4..]);
    BytesAppend(PARALLEL_HISTORY[..1], [ms[1]]);
    BytesOf(PARALLEL_HISTORY[..1]);
    BytesOne(ms[1]);
  }

  lemma BytesOne(m: Message)
    ensures TotalBytes([m]) == MessageBytes(m)
  {
  }

  lemma OpenPressed()
    ensures InputTokens(OPEN_CONFIG, PARALLEL_HISTORY, 0) == 105
    ensures NeedsCompaction(OPEN_CONFIG, 105)
  {
    ParallelHistoryCosts();
    SameCosts(PARALLEL_HISTORY);
    OpenBudget();
    hide TotalCost, Cost, ChunkBudget, Safety;
  }

  lemma OpenTarget()
    ensures CompactionTarget(OPEN_CONFIG, StartOf(PARALLEL_HISTORY).(log := [Started(1)]), 6, OPEN_INPUT) == Some(4)
  {
    ParallelCallsCutOpen();
    OpenPressed();
    hide CompactionEnd, NeedsCompaction, InputTokens;
  }

  lemma ParallelNormal()
    ensures Normal(PARALLEL_HISTORY) && PARALLEL_HISTORY[0].role == System
  {
  }

  lemma ParallelTurn()
    ensures |PARALLEL_HISTORY| == 7 && TurnStart(PARALLEL_HISTORY) == 6
  {
    assert PARALLEL_HISTORY[6].role == User;
  }

  /** Without steering a step begins with the repaired history it was given. */
  lemma BeginsPlain(base: seq<Message>, inp: StepInput)
    requires Normal(base) && inp.steering == []
    ensures Begin(StartOf(base), 1, inp) == StartOf(base).(log := [Started(1)])
  {
    NormalFixed(base);
    hide Normalize, Normal;
    assert UserMessages([]) == [];
    assert base + [] == base;
    assert [Started(1)] == [] + [Started(1)];
  }

  lemma OpenReady()
    ensures var ready := Ready(OPEN_CONFIG, 6, StartOf(PARALLEL_HISTORY), 1, OPEN_INPUT);
      ready.messages == AfterFirstChunk().messages && Sends(OPEN_CONFIG, ready, OPEN_INPUT)
  {
    ParallelNormal();
    BeginsPlain(PARALLEL_HISTORY, OPEN_INPUT);
    OpenTarget();
    OpenRewrite();
    OpenSends();
    hide CompactionTarget, CompactRange, Begin, InputTokens, Normal, AfterFirstChunk;
    OpenRoom();
  }

  lemma OpenSends()
    ensures InputTokens(OPEN_CONFIG, AfterFirstChunk().messages, 0) == 75
  {
    var ms := AfterFirstChunk().messages;
    forall i | 0 <= i < |ms|
      ensures Cost(ms[i]) == 15
    {
      PlainCost(ms[i]);
    }
    SameCosts(ms);
  }

  lemma OpenRoom()
    ensures Available(OPEN_CONFIG, 75) == 13
    ensures forall ms :: ValidRequest(ms, OPEN_CONFIG.isObject)
  {
  }

  /** From a well-paired history the run sends a request that opens with a result without its call. */
  lemma OpenCutSent()
    ensures Paired(PARALLEL_HISTORY)
    ensures var log := Run(OPEN_CONFIG, PARALLEL_HISTORY, (k: nat) => OPEN_INPUT).st.log;
      exists e :: e in log && e.Request? && !Paired(e.messages)
  {
    hide *;
    var env := (k: nat) => OPEN_INPUT;
    var ready := Ready(OPEN_CONFIG, 6, StartOf(PARALLEL_HISTORY), 1, OPEN_INPUT);
    ParallelHistoryPaired();
    ParallelNormal();
    ParallelTurn();
    OpenReady();
    OpenInputs();
    StartsAt(OPEN_CONFIG, PARALLEL_HISTORY, env);
    var i := SentAt(OPEN_CONFIG, 6, StartOf(PARALLEL_HISTORY), 1, env);
    RequestEventIs(OPEN_CONFIG, ready, 1, OPEN_INPUT);
    StrayResult(ready.messages);
    var e := RequestEvent(OPEN_CONFIG, ready, 1, OPEN_INPUT);
    assert e.Request? && !Paired(e.messages);
  }

  lemma OpenInputs()
    ensures StepBudget(OPEN_CONFIG) == 1 && !OPEN_INPUT.cancelledAtStart && OPEN_INPUT.reply.Failed?
    ensures var ms := AfterFirstChunk().messages;
      |ms| >= 3 && !HasCalls(ms[0]) && !HasCalls(ms[1]) && ms[2].role == Tool
  {
  }

  lemma FailedStops(cfg: Config, st: State, step: nat, from: nat, inp: StepInput)
    requires from <= |st.added| && inp.reply.Failed?
    ensures Converse(cfg, st, step, from, inp).Stop?
  {
  }

  lemma {:induction false} StrayResult(ms: seq<Message>)
    requires |ms| >= 3 && !HasCalls(ms[0]) && !HasCalls(ms[1]) && ms[2].role == Tool
    ensures !Paired(ms)
  {
    assert ms[1..][1..] == ms[2..];
    assert Paired(ms) ==> Paired(ms[1..]) && Paired(ms[2..]);
  }

  // ---------------------------------------------------------------------
  // Short runs without compaction
  // ---------------------------------------------------------------------

  const SHORT_HISTORY: seq<Message> := [SystemMessage(""), UserMessage("")]

  lemma ShortHistory()
    ensures Normal(SHORT_HISTORY) && SHORT_HISTORY[0].role == System && |SHORT_HISTORY| == 2
    ensures TurnStart(SHORT_HISTORY) == 1
  {
    assert SHORT_HISTORY[1].role == User;
  }

  lemma PlainCosts(ms: seq<Message>)
    requires forall i :: 0 <= i < |ms| ==> Cost(ms[i]) == 15
    ensures forall cfg: Config :: cfg.catalog.None? ==> InputTokens(cfg, ms, 0) == 15 * |ms|
  {
    SameCosts(ms);
  }

  lemma Roomy(steps: nat, tokens: nat)
    requires tokens <= 800
    ensures !NeedsCompaction(CaseConfig(1000, 0, steps), tokens) && Available(CaseConfig(1000, 0, steps), tokens) > 0
    ensures forall ms :: ValidRequest(ms, CaseConfig(1000, 0, steps).isObject)
  {
  }

  /** A short prompt is sent as the step begins with it. */
  lemma ShortReady(steps: nat, st: State, step: nat, inp: StepInput)
    requires forall i :: 0 <= i < |st.messages| ==> Cost(st.messages[i]) == 15
    requires |st.messages| <= 5 && Normal(st.messages) && inp.steering == [] && inp.toolTokens == 0
    ensures var cfg := CaseConfig(1000, 0, steps);
      var ready := Ready(cfg, 1, st, step, inp);
      && ready == st.(log := st.log + [Started(step)])
      && Sends(cfg, ready, inp)
  {
    NormalFixed(st.messages);
    PlainCosts(st.messages);
    Roomy(steps, 15 * |st.messages|);
    hide NeedsCompaction, Available, ValidRequest, InputTokens, Normalize, Cost;
    assert UserMessages([]) == [];
    assert st.messages + [] == st.messages && st.added + [] == st.added;
  }

  /** A step that sends is the converse half of it. */
  lemma StepSends(cfg: Config, turnStart: nat, st: State, step: nat, inp: StepInput)
    requires !inp.cancelledAtStart
    ensures Ready(cfg, turnStart, st, step, inp).added == st.added + UserMessages(inp.steering)
    ensures OneStep(cfg, turnStart, st, step, inp)
      == Converse(cfg, Ready(cfg, turnStart, st, step, inp), step, |st.added|, inp)
  {
    ReadyKeepsAdded(cfg, turnStart, st, step, inp);
    hide Ready, Converse;
  }

  // ---------------------------------------------------------------------
  // A textless answer cut at the output limit
  // ---------------------------------------------------------------------

  const CUT_CONFIG: Config := CaseConfig(1000, 0, 2)
  const CUT_INPUT: StepInput := CaseInput(Finished(Answer(None, None, []), true), [""])

  function CutEnv(k: nat): StepInput {
    if k == 1 then CUT_INPUT else CaseInput(Failed(false), [])
  }

  function CutReady(): State {
    StartOf(SHORT_HISTORY).(log := [Started(1)])
  }

  function CutMessages(): seq<Message> {
    [SystemMessage(""), UserMessage("!"), UserMessage("")]
  }

  lemma CutReply()
    ensures AfterReply(CUT_CONFIG, CutReady(), 1, CUT_INPUT).messages == CutMessages()[..2]
    ensures AfterReply(CUT_CONFIG, CutReady(), 1, CUT_INPUT).added == []
    ensures Produce(CUT_CONFIG, CUT_INPUT, 0).ending == Final(true)
  {
    assert SHORT_HISTORY + [] == SHORT_HISTORY;
    assert "" + "!" == "!";
    assert NoteLast(CUT_CONFIG, SHORT_HISTORY) == CutMessages()[..2];
  }

  lemma CutBegins()
    ensures !CUT_INPUT.cancelledAtStart && CUT_INPUT.pending == [""] && StepBudget(CUT_CONFIG) == 2
    ensures Ready(CUT_CONFIG, 1, StartOf(SHORT_HISTORY), 1, CUT_INPUT) == CutReady()
    ensures Sends(CUT_CONFIG, CutReady(), CUT_INPUT)
    ensures StartOf(SHORT_HISTORY).added == [] && CutReady().unusable == 0 && CutReady().added == []
  {
    PlainCost(SystemMessage(""));
    PlainCost(UserMessage(""));
    ShortHistory();
    hide Cost;
    ShortReady(2, StartOf(SHORT_HISTORY), 1, CUT_INPUT);
  }

  lemma CutAppended()
    ensures CutMessages()[..2] + UserMessages([""]) == CutMessages()
  {
    assert UserMessages([""]) == [UserMessage("")];
  }

  lemma CutStep() returns (next: State)
    ensures OneStep(CUT_CONFIG, 1, StartOf(SHORT_HISTORY), 1, CUT_INPUT) == Continue(next)
    ensures next.messages == CutMessages()
    ensures var e := RequestEvent(CUT_CONFIG, CutReady(), 1, CUT_INPUT);
      e.Request? && LastRequest(next.log) == Some(e) && !CompactedSince(next.log) && e.step == 1
  {
    hide *;
    var st := StartOf(SHORT_HISTORY);
    CutBegins();
    StepSends(CUT_CONFIG, 1, st, 1, CUT_INPUT);
    CutReply();
    CutAppended();
    ConverseLog(CUT_CONFIG, CutReady(), 1, 0, CUT_INPUT);
    PendingKept(CUT_CONFIG, CutReady(), 1, 0, CUT_INPUT);
    next := OneStep(CUT_CONFIG, 1, st, 1, CUT_INPUT).st;
    RequestEventIs(CUT_CONFIG, CutReady(), 1, CUT_INPUT);
    var e := RequestEvent(CUT_CONFIG, CutReady(), 1, CUT_INPUT);
    RequestReads(CutReady().log, e);
    QuietReads(CutReady().log + [e], AnswerEvents(CUT_CONFIG, CutReady(), 1, 0, CUT_INPUT));
  }

  lemma CutReadyAgain(st: State)
    requires st.messages == CutMessages()
    ensures var ready := Ready(CUT_CONFIG, 1, st, 2, CutEnv(2));
      && ready == st.(log := st.log + [Started(2)])
      && Sends(CUT_CONFIG, ready, CutEnv(2))
  {
    PlainCost(SystemMessage(""));
    PlainCost(UserMessage(""));
    PlainCost(UserMessage("!"));
    hide Cost;
    ShortReady(2, st, 2, CutEnv(2));
  }

  lemma CutInputs()
    ensures CutEnv(1) == CUT_INPUT && TextlessCut(CUT_INPUT) && !CUT_INPUT.cancelledAtStart
    ensures CutEnv(2).reply.Failed? && !CutEnv(2).cancelledAtStart
    ensures StepBudget(CUT_CONFIG) == 2 && CUT_CONFIG.cutAnswerNote != ""
  {
  }

  /** The log position of the request a step sends, and what stands before it. */
  lemma SentAt(cfg: Config, turnStart: nat, st: State, step: nat, env: Env) returns (i: nat)
    requires var inp := env(step);
      !inp.cancelledAtStart && Sends(cfg, Ready(cfg, turnStart, st, step, inp), inp) && inp.reply.Failed?
    requires step <= StepBudget(cfg)
    ensures var ready := Ready(cfg, turnStart, st, step, env(step));
      var log := RunFrom(cfg, turnStart, st, step, env).st.log;
      i < |log| && log[..i] == ready.log && log[i] == RequestEvent(cfg, ready, step, env(step))
  {
    hide *;
    var inp := env(step);
    var ready := Ready(cfg, turnStart, st, step, inp);
    StepSends(cfg, turnStart, st, step, inp);
    RunFromStep(cfg, turnStart, st, step, env);
    ConverseLog(cfg, ready, step, |st.added|, inp);
    FailedStops(cfg, ready, step, |st.added|, inp);
    i := |ready.log|;
    var e := RequestEvent(cfg, ready, step, inp);
    var rest := AnswerEvents(cfg, ready, step, |st.added|, inp);
    assert (ready.log + [e] + rest)[..i] == ready.log;
    assert (ready.log + [e] + rest)[i] == e;
  }

  /** Two consecutive requests, no checkpoint in between, and the first is no prefix of the second. */
  lemma TextlessCutSent()
    ensures var log := Run(CUT_CONFIG, SHORT_HISTORY, CutEnv).st.log;
      exists i: nat :: i < |log| && log[i].Request? &&
        LastRequest(log[..i]).Some? && !CompactedSince(log[..i]) &&
        !(LastRequest(log[..i]).value.messages <= log[i].messages)
  {
    hide *;
    var env := CutEnv;
    var start := StartOf(SHORT_HISTORY);
    CutInputs();
    ShortHistory();
    StartsAt(CUT_CONFIG, SHORT_HISTORY, env);
    RunFromStep(CUT_CONFIG, 1, start, 1, env);
    var st := CutStep();
    var inp := env(2);
    CutReadyAgain(st);
    var ready := Ready(CUT_CONFIG, 1, st, 2, inp);
    var i := SentAt(CUT_CONFIG, 1, st, 2, env);
    StartedReads(st.log, 2);
    RequestEventIs(CUT_CONFIG, ready, 2, inp);
    RequestEventIs(CUT_CONFIG, CutReady(), 1, CUT_INPUT);
    NotExtended();
    var log := Run(CUT_CONFIG, SHORT_HISTORY, env).st.log;
    assert log[i].Request? && log[..i] == ready.log;
  }

  lemma {:induction false} StartedReads(log: seq<Event>, step: nat)
    ensures LastRequest(log + [Started(step)]) == LastRequest(log)
    ensures CompactedSince(log + [Started(step)]) == CompactedSince(log)
  {
    QuietReads(log, [Started(step)]);
  }

  lemma NotExtended()
    ensures CutReady().messages == SHORT_HISTORY && !(SHORT_HISTORY <= CutMessages())
  {
    assert SHORT_HISTORY[1] != CutMessages()[1];
  }

  // ---------------------------------------------------------------------
  // Three unusable payloads in a row
  // ---------------------------------------------------------------------

  const BAD_CALL: ToolCall := ToolCall("a", "", "")
  const BAD_INPUT: StepInput := CaseInput(Finished(Answer(None, None, [BAD_CALL, BAD_CALL, BAD_CALL]), false), [])

  lemma BadReply()
    ensures Produce(CUT_CONFIG, BAD_INPUT, 0).ending == GaveUp
  {
    var calls := BAD_INPUT.reply.answer.calls;
    assert RunBatch(calls, 0, 1, BAD_INPUT, 0).unusable == 1;
    assert RunBatch(calls, 1, 2, BAD_INPUT, 1).unusable == 2;
    assert RunBatch(calls, 2, 3, BAD_INPUT, 2).ending == GaveUp;
    assert RunTools(CUT_CONFIG, calls, 2, BAD_INPUT, 2).ending == GaveUp;
    assert RunTools(CUT_CONFIG, calls, 1, BAD_INPUT, 1).ending == GaveUp;
  }

  /** The run gives up with its only step started and neither settled nor ended. */
  lemma GivenUpOpen()
    ensures var r := Run(CUT_CONFIG, SHORT_HISTORY, (k: nat) => BAD_INPUT);
      && r.outcome == UnusableArguments
      && Started(1) in r.st.log
      && forall e :: e in r.st.log ==> !e.Settled? && !e.Ended?
  {
    hide *;
    var env := (k: nat) => BAD_INPUT;
    var st := StartOf(SHORT_HISTORY);
    var ready := Ready(CUT_CONFIG, 1, st, 1, BAD_INPUT);
    CutInputs();
    ShortHistory();
    StartsAt(CUT_CONFIG, SHORT_HISTORY, env);
    RunFromStep(CUT_CONFIG, 1, st, 1, env);
    BadReady();
    StepSends(CUT_CONFIG, 1, st, 1, BAD_INPUT);
    BadReply();
    ConverseLog(CUT_CONFIG, ready, 1, 0, BAD_INPUT);
    ConcludeMeaning(CUT_CONFIG, AfterReply(CUT_CONFIG, ready, 1, BAD_INPUT), 1, 0, BAD_INPUT, GaveUp);
    GaveUpEvents(ready);
    RequestEventIs(CUT_CONFIG, ready, 1, BAD_INPUT);
  }

  lemma BadReady()
    ensures !BAD_INPUT.cancelledAtStart
    ensures var ready := Ready(CUT_CONFIG, 1, StartOf(SHORT_HISTORY), 1, BAD_INPUT);
      Sends(CUT_CONFIG, ready, BAD_INPUT) && ready.log == [Started(1)] && ready.unusable == 0 && ready.added == []
  {
    PlainCost(SystemMessage(""));
    PlainCost(UserMessage(""));
    ShortHistory();
    hide Cost;
    ShortReady(2, StartOf(SHORT_HISTORY), 1, BAD_INPUT);
  }

  lemma GaveUpEvents(st: State)
    requires st.unusable == 0
    ensures forall e :: e in AnswerEvents(CUT_CONFIG, st, 1, 0, BAD_INPUT) ==> e.Called?
  {
    BadReply();
    hide Produce, AfterReply;
  }

  // ---------------------------------------------------------------------
  // Steering behind the last answer
  // ---------------------------------------------------------------------

  const LATE_CONFIG: Config := CaseConfig(1000, 0, 1)
  const LATE_INPUT: StepInput := CaseInput(Finished(Answer(Some("s"), None, []), false), ["late"])

  /** The run ends on its budget; what was claimed after the answer is in no list and no event. */
  lemma LateSteeringLost()
    ensures var r := Run(LATE_CONFIG, SHORT_HISTORY, (k: nat) => LATE_INPUT);
      && r.outcome == MaxSteps
      && UserMessage("late") !in r.st.messages
      && UserMessage("late") !in r.st.added
      && forall e :: e in r.st.log && e.Settled? ==> UserMessage("late") !in e.messages
  {
    hide *;
    var env := (k: nat) => LATE_INPUT;
    var st := StartOf(SHORT_HISTORY);
    var ready := Ready(LATE_CONFIG, 1, st, 1, LATE_INPUT);
    ShortHistory();
    LateReady();
    StartsAt(LATE_CONFIG, SHORT_HISTORY, env);
    RunFromStep(LATE_CONFIG, 1, st, 1, env);
    StepSends(LATE_CONFIG, 1, st, 1, LATE_INPUT);
    LateReply(ready);
    PendingKept(LATE_CONFIG, ready, 1, 0, LATE_INPUT);
    ConverseLog(LATE_CONFIG, ready, 1, 0, LATE_INPUT);
    RequestEventIs(LATE_CONFIG, ready, 1, LATE_INPUT);
  }

  lemma LateReady()
    ensures !LATE_INPUT.cancelledAtStart && StepBudget(LATE_CONFIG) == 1 && StartOf(SHORT_HISTORY).added == []
    ensures var ready := Ready(LATE_CONFIG, 1, StartOf(SHORT_HISTORY), 1, LATE_INPUT);
      Sends(LATE_CONFIG, ready, LATE_INPUT) && ready == StartOf(SHORT_HISTORY).(log := [Started(1)])
  {
    PlainCost(SystemMessage(""));
    PlainCost(UserMessage(""));
    ShortHistory();
    hide Cost;
    ShortReady(1, StartOf(SHORT_HISTORY), 1, LATE_INPUT);
  }

  lemma LateReply(st: State)
    requires st == StartOf(SHORT_HISTORY).(log := [Started(1)])
    ensures Produce(LATE_CONFIG, LATE_INPUT, st.unusable).ending == Final(false) && LATE_INPUT.pending != []
    ensures var after := AfterReply(LATE_CONFIG, st, 1, LATE_INPUT);
      UserMessage("late") !in after.messages && UserMessage("late") !in after.added
    ensures forall e :: e in AnswerEvents(LATE_CONFIG, st, 1, 0, LATE_INPUT) && e.Settled? ==>
      UserMessage("late") !in e.messages
  {
    LateProduced();
    LateNowhere();
    LateLists(st);
    hide Produce, AfterReply;
    var after := AfterReply(LATE_CONFIG, st, 1, LATE_INPUT);
    assert after.added[0..] == after.added;
  }

  function LateAnswer(): Message {
    Message(Assistant, Some("s"), None, [], None)
  }

  lemma LateNowhere()
    ensures UserMessage("late") !in SHORT_HISTORY + [LateAnswer()] && UserMessage("late") !in [LateAnswer()]
  {
    assert SHORT_HISTORY[0].role == System && SHORT_HISTORY[1].content == Some("");
  }

  lemma LateLists(st: State)
    requires st == StartOf(SHORT_HISTORY).(log := [Started(1)])
    ensures AfterReply(LATE_CONFIG, st, 1, LATE_INPUT).messages == SHORT_HISTORY + [LateAnswer()]
    ensures AfterReply(LATE_CONFIG, st, 1, LATE_INPUT).added == [LateAnswer()]
  {
    LateProduced();
    hide Produce;
    assert [] + [LateAnswer()] == [LateAnswer()];
  }

  lemma LateProduced()
    ensures Produce(LATE_CONFIG, LATE_INPUT, 0)
      == Production([LateAnswer()], 0, 0, Final(false))
  {
    assert "s"[0] == 's';
    assert !Blank("s");
    assert Sanitized([], LATE_CONFIG.isObject) == [];
  }

  /** Budget is left, and then the next step is cancelled at its start. */
  function CancelledEnv(k: nat): StepInput {
    if k == 1 then LATE_INPUT else LATE_INPUT.(cancelledAtStart := true)
  }

  lemma ShortStart()
    ensures RunStart(CUT_CONFIG, SHORT_HISTORY) == StartOf(SHORT_HISTORY) && RunTurn(CUT_CONFIG, SHORT_HISTORY) == 1
  {
    ShortHistory();
    NormalFixed(SHORT_HISTORY);
    hide TurnStart, Normalize;
  }

  lemma LateGoesOn()
    ensures Asks(CUT_CONFIG, 1, StartOf(SHORT_HISTORY), 1, LATE_INPUT) && FinalAnswer(LATE_INPUT)
    ensures GoesOn(CUT_CONFIG, 1, StartOf(SHORT_HISTORY), 1, LATE_INPUT, 0) && LATE_INPUT.pending != []
  {
    PlainCost(SystemMessage(""));
    PlainCost(UserMessage(""));
    ShortHistory();
    hide Cost, Ready, Sends;
    ShortReady(2, StartOf(SHORT_HISTORY), 1, LATE_INPUT);
  }

  lemma LateAsks()
    ensures ClaimsLate(CUT_CONFIG, SHORT_HISTORY, CancelledEnv, 1)
    ensures StateAt(CUT_CONFIG, SHORT_HISTORY, CancelledEnv, 2).Some?
  {
    hide SHORT_HISTORY, CUT_CONFIG, LATE_INPUT, StateAt, RunTurn, RunStart, OneStep, Asks, GoesOn, FinalAnswer;
    ShortStart();
    LateGoesOn();
    RunIs(CUT_CONFIG, SHORT_HISTORY, CancelledEnv);
    StepOf(CUT_CONFIG, SHORT_HISTORY, CancelledEnv, 1);
  }

  lemma CancelledLast()
    requires StateAt(CUT_CONFIG, SHORT_HISTORY, CancelledEnv, 2).Some?
    ensures LastStep(CUT_CONFIG, SHORT_HISTORY, CancelledEnv, 2)
    ensures forall st :: OneStep(CUT_CONFIG, 1, st, 2, CancelledEnv(2)) == Stop(Cancelled, st)
    ensures CancelledEnv(1).steering == [] && forall k: nat :: CancelledEnv(k).steering == []
  {
    hide StateAt, Ready, Converse, Sends, RunTurn, StreakAt;
  }

  /** What was claimed after the answer is in no settlement, and the run leaves no messages at all. */
  lemma LateSteeringCancelled()
    ensures ClaimsLate(CUT_CONFIG, SHORT_HISTORY, CancelledEnv, 1) && CancelledEnv(1).pending == ["late"]
    ensures var r := Run(CUT_CONFIG, SHORT_HISTORY, CancelledEnv);
      && r.outcome == Cancelled
      && forall e :: e in r.st.log && e.Settled? ==> UserMessage("late") !in e.messages
  {
    LateIsPending();
    hide *;
    LateAsks();
    CancelledLast();
    ShortStart();
    LastStepEnds(CUT_CONFIG, SHORT_HISTORY, CancelledEnv, 2);
    RunSettlesOwn(CUT_CONFIG, SHORT_HISTORY, CancelledEnv);
    NoLateSettled(Run(CUT_CONFIG, SHORT_HISTORY, CancelledEnv).st.log);
  }

  lemma LateIsPending()
    ensures CancelledEnv(1).pending == ["late"]
  {
  }

  lemma NoLateSettled(log: seq<Event>)
    requires SettledOwn(CUT_CONFIG, CancelledEnv, log)
    ensures forall e :: e in log && e.Settled? ==> UserMessage("late") !in e.messages
  {
    forall e | e in log && e.Settled?
      ensures UserMessage("late") !in e.messages
    {
      var i :| 0 <= i < |log| && log[i] == e;
      assert OwnUsers(CUT_CONFIG, CancelledEnv(e.step), e.messages);
    }
  }
}
