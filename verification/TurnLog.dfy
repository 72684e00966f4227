/** Reading the event log back: which checkpoint is in force, which request came last. */
module TurnLog {
  import opened Wrappers
  import opened Chat
  import opened Compaction
  import opened TurnLoop

  /** Events that neither send a request nor rewrite the history. */
  ghost predicate Quiet(es: seq<Event>) {
    forall i :: 0 <= i < |es| ==> !es[i].Request? && !es[i].Compacted?
  }

  function RecordIn(log: seq<Event>): Option<Record> {
    if log == [] then None
    else
      var last := log[|log| - 1];
      if last.Compacted? then Some(last.record) else RecordIn(log[..|log| - 1])
  }

  function LastRequest(log: seq<Event>): (e: Option<Event>)
    ensures e.Some? ==> e.value.Request?
  {
    if log == [] then None
    else
      var last := log[|log| - 1];
      if last.Request? then Some(last) else LastRequest(log[..|log| - 1])
  }

  /** A checkpoint was adopted after the last request. */
  predicate CompactedSince(log: seq<Event>) {
    log != [] &&
    var last := log[|log| - 1];
    if last.Request? then false else last.Compacted? || CompactedSince(log[..|log| - 1])
  }

  function CountCompacted(log: seq<Event>): nat {
    if log == [] then 0
    else CountCompacted(log[..|log| - 1]) + if log[|log| - 1].Compacted? then 1 else 0
  }

  lemma SnocParts(log: seq<Event>, e: Event)
    ensures (log + [e])[..|log + [e]| - 1] == log
    ensures (log + [e])[|log + [e]| - 1] == e
  {
  }

  lemma {:induction false} QuietReads(log: seq<Event>, es: seq<Event>)
    requires Quiet(es)
    ensures RecordIn(log + es) == RecordIn(log)
    ensures LastRequest(log + es) == LastRequest(log)
    ensures CompactedSince(log + es) == CompactedSince(log)
    ensures CountCompacted(log + es) == CountCompacted(log)
  {
    if es == [] {
      assert log + es == log;
    } else {
      var init, last := es[..|es| - 1], es[|es| - 1];
      assert log + es == (log + init) + [last];
      SnocParts(log + init, last);
      QuietReads(log, init);
    }
  }

  lemma {:induction false} RequestReads(log: seq<Event>, e: Event)
    requires e.Request?
    ensures RecordIn(log + [e]) == RecordIn(log)
    ensures LastRequest(log + [e]) == Some(e)
    ensures !CompactedSince(log + [e])
    ensures CountCompacted(log + [e]) == CountCompacted(log)
  {
    SnocParts(log, e);
  }

  lemma {:induction false} CompactedReads(log: seq<Event>, e: Event)
    requires e.Compacted?
    ensures RecordIn(log + [e]) == Some(e.record)
    ensures LastRequest(log + [e]) == LastRequest(log)
    ensures CompactedSince(log + [e])
    ensures CountCompacted(log + [e]) == CountCompacted(log) + 1
  {
    SnocParts(log, e);
  }

  /** What preparing a step does, apart from its log. */
  datatype Prepared = Kept | Rewrote(target: nat, rewritten: Rewritten)

  function Preparation(cfg: Config, turnStart: nat, st: State, step: nat, inp: StepInput): (p: Prepared)
    ensures p.Rewrote? ==>
      && !st.attempted
      && 1 <= p.target && p.target + 1 < turnStart
      && p.target + 1 < |Begin(st, step, inp).messages|
  {
    var begun := Begin(st, step, inp);
    match CompactionTarget(cfg, begun, turnStart, inp)
    case None => Kept
    case Some(target) =>
      Rewrote(target, CompactRange(cfg, begun.messages, inp.toolTokens, target, inp.summaries, |begun.added|))
  }

  ghost predicate ReadyFrom(st: State, begun: State, ready: State, p: Prepared) {
    match p
    case Kept => ready == begun
    case Rewrote(target, r) =>
      && RecordTells(begun.messages, target, |begun.added|, r)
      && ready.messages == r.messages
      && ready.added == begun.added
      && ready.attempted
      && ready.unusable == begun.unusable
      && ready.record == (if r.record.Some? then r.record else begun.record)
  }

  lemma ReadyMeaning(cfg: Config, turnStart: nat, st: State, step: nat, inp: StepInput)
    ensures var begun := Begin(st, step, inp);
      var ready := Ready(cfg, turnStart, st, step, inp);
      && ReadyFrom(st, begun, ready, Preparation(cfg, turnStart, st, step, inp))
      && ready.added == st.added + UserMessages(inp.steering)
  {
    var begun := Begin(st, step, inp);
    var target := CompactionTarget(cfg, begun, turnStart, inp);
    if target.Some? {
      CompactRangeMeaning(cfg, begun.messages, inp.toolTokens, target.value, inp.summaries, |begun.added|);
    }
  }

  /** The log of a prepared step: its start, summariser calls, and the checkpoint if one was adopted. */
  lemma ReadyLog(cfg: Config, turnStart: nat, st: State, step: nat, inp: StepInput)
    ensures var p := Preparation(cfg, turnStart, st, step, inp);
      Ready(cfg, turnStart, st, step, inp).log == st.log + PrepareEvents(step, p)
  {
    hide CompactRange, NeedsCompaction, CompactionEnd;
    var p := Preparation(cfg, turnStart, st, step, inp);
    if p.Rewrote? {
      var adopted := if p.rewritten.record.Some? then [Compacted(p.rewritten.record.value)] else [];
      AppendLogs(st.log, [Started(step)], SummaryEvents(step, p.rewritten.sent));
      AppendLogs(st.log, [Started(step)] + SummaryEvents(step, p.rewritten.sent), adopted);
    }
  }

  function PrepareEvents(step: nat, p: Prepared): seq<Event> {
    match p
    case Kept => [Started(step)]
    case Rewrote(_, r) =>
      [Started(step)] + SummaryEvents(step, r.sent) + (if r.record.Some? then [Compacted(r.record.value)] else [])
  }

  predicate Adopted(p: Prepared) {
    p.Rewrote? && p.rewritten.record.Some?
  }

  lemma {:induction false} PrepareReads(log: seq<Event>, step: nat, p: Prepared)
    ensures var log' := log + PrepareEvents(step, p);
      && LastRequest(log') == LastRequest(log)
      && RecordIn(log') == (if Adopted(p) then p.rewritten.record else RecordIn(log))
      && CompactedSince(log') == (Adopted(p) || CompactedSince(log))
      && CountCompacted(log') == CountCompacted(log) + (if Adopted(p) then 1 else 0)
  {
    var quiet := [Started(step)] + (if p.Kept? then [] else SummaryEvents(step, p.rewritten.sent));
    QuietReads(log, quiet);
    if Adopted(p) {
      var e := Compacted(p.rewritten.record.value);
      assert PrepareEvents(step, p) == quiet + [e];
      assert log + (quiet + [e]) == (log + quiet) + [e];
      CompactedReads(log + quiet, e);
    } else {
      assert PrepareEvents(step, p) == quiet;
    }
  }

  // ---------------------------------------------------------------------
  // The conversing half of a step
  // ---------------------------------------------------------------------

  predicate Sends(cfg: Config, st: State, inp: StepInput) {
    Available(cfg, InputTokens(cfg, st.messages, inp.toolTokens)) != 0 &&
    ValidRequest(st.messages, cfg.isObject)
  }

  lemma RequestEventIs(cfg: Config, st: State, step: nat, inp: StepInput)
    ensures var e := RequestEvent(cfg, st, step, inp);
      e.Request? && e.step == step && e.messages == st.messages
  {
  }

  function CloseEvents(step: nat, delta: seq<Message>, interrupted: bool, toolCalls: nat, cancelled: bool): (es: seq<Event>)
    ensures |es| <= 2
    ensures forall i :: 0 <= i < |es| ==> es[i].Settled? || es[i].Ended?
  {
    (if delta == [] then [] else [Settled(step, interrupted, delta)]) + [Ended(step, toolCalls, cancelled)]
  }

  lemma CloseLog(st: State, step: nat, from: nat, interrupted: bool, toolCalls: nat, cancelled: bool)
    requires from <= |st.added|
    ensures Close(st, step, from, interrupted, toolCalls, cancelled)
      == st.(log := st.log + CloseEvents(step, st.added[from..], interrupted, toolCalls, cancelled))
  {
  }

  /** How a step that got an answer is closed; GaveUp is not. */
  function ConcludeEvents(step: nat, delta: seq<Message>, inp: StepInput, ending: Ending): (es: seq<Event>)
    ensures |es| <= 2
    ensures forall i :: 0 <= i < |es| ==> es[i].Settled? || es[i].Ended?
  {
    var calls := |ReplyCalls(inp)|;
    match ending
    case NoAnswer(cancelled) => CloseEvents(step, delta, true, 0, cancelled)
    case Interrupted => CloseEvents(step, delta, true, calls, true)
    case CancelledBetween => CloseEvents(step, delta, true, calls, true)
    case GaveUp => []
    case CallsCut => CloseEvents(step, delta, false, calls, false)
    case CallsRan => CloseEvents(step, delta, false, calls, false)
    case Final(_) => CloseEvents(step, delta, false, 0, false)
  }

  /** Messages pushed after the step was closed: steering claimed after a final answer. */
  function Trailing(cfg: Config, step: nat, inp: StepInput, ending: Ending): seq<Message> {
    if ending.Final? && step != StepBudget(cfg) then UserMessages(inp.pending) else []
  }

  lemma ConcludeMeaning(cfg: Config, st: State, step: nat, from: nat, inp: StepInput, ending: Ending)
    requires from <= |st.added|
    ensures var r := Conclude(cfg, st, step, from, inp, ending);
      && r.st.log == st.log + ConcludeEvents(step, st.added[from..], inp, ending)
      && r.st.messages == st.messages + (if r.Continue? then Trailing(cfg, step, inp, ending) else [])
      && r.st.added == st.added + (if r.Continue? then Trailing(cfg, step, inp, ending) else [])
      && r.st.record == st.record && r.st.attempted == st.attempted && r.st.unusable == st.unusable
      && (r.Continue? ==> ending.CallsCut? || ending.CallsRan? || ending.Final?)
      && (r.Continue? && ending.Final? ==> inp.pending != [])
      && (r.Continue? ==> step != StepBudget(cfg))
      && (r.Stop? && r.outcome.Done? ==>
           ending.Final? && inp.pending == [] && r.outcome == Done(st.added, st.record, step))
      && (r.Stop? && r.outcome.UnusableArguments? <==> ending.GaveUp?)
      && (r.Stop? ==> !r.outcome.InvalidRequest? && !r.outcome.ContextOverflow?)
  {
    hide UserMessages, Close, CloseEvents, StepBudget;
    var calls := |ReplyCalls(inp)|;
    match ending
    case NoAnswer(cancelled) => CloseLog(st, step, from, true, 0, cancelled);
    case Interrupted => CloseLog(st, step, from, true, calls, true);
    case CancelledBetween => CloseLog(st, step, from, true, calls, true);
    case GaveUp =>
    case CallsCut => CloseLog(st, step, from, false, calls, false);
    case CallsRan => CloseLog(st, step, from, false, calls, false);
    case Final(_) => CloseLog(st, step, from, false, 0, false);
  }

  /** The state a step's answer leaves, before the step is closed. */
  function AfterReply(cfg: Config, st: State, step: nat, inp: StepInput): (r: State)
    ensures |r.added| == |st.added| + |Produce(cfg, inp, st.unusable).messages|
    ensures r.record == st.record && r.attempted == st.attempted
  {
    var asked := st.(log := st.log + [RequestEvent(cfg, st, step, inp)]);
    ApplyProduction(cfg, asked, step, inp, Produce(cfg, inp, st.unusable))
  }

  /** Everything a sent request adds to the log. */
  function AnswerEvents(cfg: Config, st: State, step: nat, from: nat, inp: StepInput): seq<Event>
    requires from <= |st.added|
  {
    var p := Produce(cfg, inp, st.unusable);
    CalledEvents(step, ReplyCalls(inp), p.called)
    + ConcludeEvents(step, AfterReply(cfg, st, step, inp).added[from..], inp, p.ending)
  }

  lemma BlockedLog(cfg: Config, st: State, step: nat, from: nat, inp: StepInput)
    requires from <= |st.added|
    requires !Sends(cfg, st, inp)
    ensures var r := Converse(cfg, st, step, from, inp);
      && r.Stop? && (r.outcome.ContextOverflow? || r.outcome.InvalidRequest?)
      && (r.outcome.InvalidRequest? ==> !ValidRequest(st.messages, cfg.isObject))
      && r.st.log == st.log + CloseEvents(step, st.added[from..], true, 0, false)
  {
    CloseLog(st, step, from, true, 0, false);
  }

  lemma ConverseLog(cfg: Config, st: State, step: nat, from: nat, inp: StepInput)
    requires from <= |st.added|
    requires Sends(cfg, st, inp)
    ensures Converse(cfg, st, step, from, inp)
      == Conclude(cfg, AfterReply(cfg, st, step, inp), step, from, inp, Produce(cfg, inp, st.unusable).ending)
    ensures Converse(cfg, st, step, from, inp).st.log
      == st.log + [RequestEvent(cfg, st, step, inp)] + AnswerEvents(cfg, st, step, from, inp)
    ensures Quiet(AnswerEvents(cfg, st, step, from, inp))
  {
    var p := Produce(cfg, inp, st.unusable);
    var answered := AfterReply(cfg, st, step, inp);
    ConcludeMeaning(cfg, answered, step, from, inp, p.ending);
    AfterReplyLog(cfg, st, step, inp);
    AppendLogs(st.log + [RequestEvent(cfg, st, step, inp)], CalledEvents(step, ReplyCalls(inp), p.called),
      ConcludeEvents(step, answered.added[from..], inp, p.ending));
  }

  lemma NoteAppend(cfg: Config, a: seq<Message>, b: seq<Message>)
    requires b != []
    ensures NoteLast(cfg, a + b) == a + NoteLast(cfg, b)
  {
    assert (a + b)[..|a + b| - 1] == a + b[..|b| - 1];
  }

  /** Steering claimed after a final answer starts another step, or is lost when the budget is spent. */
  lemma PendingKept(cfg: Config, st: State, step: nat, from: nat, inp: StepInput)
    requires from <= |st.added| && Sends(cfg, st, inp)
    requires Produce(cfg, inp, st.unusable).ending.Final? && inp.pending != []
    ensures var r := Converse(cfg, st, step, from, inp);
      var answered := AfterReply(cfg, st, step, inp);
      if step == StepBudget(cfg) then
        r.Stop? && r.outcome == MaxSteps && r.st.added == answered.added && r.st.messages == answered.messages
      else
        && r.Continue?
        && r.st.added == answered.added + UserMessages(inp.pending)
        && r.st.messages == answered.messages + UserMessages(inp.pending)
  {
    ConverseLog(cfg, st, step, from, inp);
    hide Converse, Produce, AfterReply, StepBudget;
  }

  lemma AfterReplyLog(cfg: Config, st: State, step: nat, inp: StepInput)
    ensures AfterReply(cfg, st, step, inp).log == st.log + [RequestEvent(cfg, st, step, inp)]
      + CalledEvents(step, ReplyCalls(inp), Produce(cfg, inp, st.unusable).called)
  {
  }

  lemma AppendLogs(a: seq<Event>, b: seq<Event>, c: seq<Event>)
    ensures (a + b) + c == a + (b + c)
  {
  }
}
