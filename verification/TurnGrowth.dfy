/**
 The prompt only grows. Between two consecutive requests with no checkpoint in between, the first is a prefix
 of the second, except in one case: the answer in between had no text and no calls and was cut at the output
 limit, so the cut note was written onto the last message already sent.
 */
module TurnGrowth {
  import opened Wrappers
  import opened Chat
  import opened Compaction
  import opened TurnLoop
  import opened TurnLog
  import opened TurnPairing

  /** No text, no calls, stopped at the output limit. */
  predicate TextlessCut(inp: StepInput) {
    inp.reply.Finished? && inp.reply.truncated && inp.reply.answer.calls == [] &&
    Blank(inp.reply.answer.content.GetOr(""))
  }

  /** What a request's messages become before anything is appended to them. */
  function Carried(cfg: Config, sent: seq<Message>, inp: StepInput): seq<Message> {
    if TextlessCut(inp) then NoteLast(cfg, sent) else sent
  }

  lemma NoteNormal(cfg: Config, ms: seq<Message>)
    requires Normal(ms)
    ensures Normal(NoteLast(cfg, ms))
  {
    if ms != [] {
      var last := ms[|ms| - 1];
      assert !IsEmptyAssistant(last) && Strip(last) == last;
      BlankPrefix(last.content.GetOr(""), cfg.cutAnswerNote);
    }
  }

  lemma NoteChanges(cfg: Config, ms: seq<Message>)
    requires cfg.cutAnswerNote != "" && ms != []
    ensures NoteLast(cfg, ms)[|ms| - 1] != ms[|ms| - 1]
  {
    var last := ms[|ms| - 1];
    var noted := NoteLast(cfg, ms)[|ms| - 1];
    assert noted.content == Some(last.content.GetOr("") + cfg.cutAnswerNote);
    assert |noted.content.value| > |last.content.GetOr("")|;
  }

  /** Appending to the carried messages keeps the sent prefix just when they were not edited. */
  lemma PrefixIff(cfg: Config, sent: seq<Message>, inp: StepInput, next: seq<Message>)
    requires cfg.cutAnswerNote != "" && sent != []
    requires Carried(cfg, sent, inp) <= next
    ensures sent <= next <==> !TextlessCut(inp)
  {
    if TextlessCut(inp) {
      NoteChanges(cfg, sent);
      assert next[|sent| - 1] == NoteLast(cfg, sent)[|sent| - 1];
    }
  }

  // ---------------------------------------------------------------------
  // The invariant between steps
  // ---------------------------------------------------------------------

  ghost predicate GrowthInv(cfg: Config, env: Env, st: State, step: nat) {
    && st.messages != [] && NoEmpty(st.messages)
    && !CompactedSince(st.log)
    && CountCompacted(st.log) <= (if st.attempted then 1 else 0)
    && match LastRequest(st.log)
       case None => step == 1 && Normal(st.messages)
       case Some(sent) =>
         && sent.step + 1 == step
         && sent.messages != [] && Normal(sent.messages)
         && Carried(cfg, sent.messages, env(sent.step)) <= st.messages
  }

  /** What each request owes to the one before it. */
  ghost predicate RequestGrows(env: Env, history: seq<Event>, step: nat, ms: seq<Message>) {
    match LastRequest(history)
    case None => step == 1
    case Some(sent) =>
      && step == sent.step + 1
      && (!CompactedSince(history) ==> (sent.messages <= ms <==> !TextlessCut(env(sent.step))))
  }

  ghost predicate LogGrows(env: Env, log: seq<Event>) {
    forall i :: 0 <= i < |log| && log[i].Request? ==> RequestGrows(env, log[..i], log[i].step, log[i].messages)
  }

  lemma LogGrowsQuiet(env: Env, log: seq<Event>, es: seq<Event>)
    requires LogGrows(env, log)
    requires forall i :: 0 <= i < |es| ==> !es[i].Request?
    ensures LogGrows(env, log + es)
  {
    hide RequestGrows;
    forall i | 0 <= i < |log + es| && (log + es)[i].Request?
      ensures RequestGrows(env, (log + es)[..i], (log + es)[i].step, (log + es)[i].messages)
    {
      assert (log + es)[..i] == log[..i];
    }
  }

  lemma LogGrowsRequest(env: Env, log: seq<Event>, e: Event)
    requires LogGrows(env, log)
    requires e.Request? && RequestGrows(env, log, e.step, e.messages)
    ensures LogGrows(env, log + [e])
  {
    hide RequestGrows;
    forall i | 0 <= i < |log + [e]| && (log + [e])[i].Request?
      ensures RequestGrows(env, (log + [e])[..i], (log + [e])[i].step, (log + [e])[i].messages)
    {
      assert (log + [e])[..i] == log[..i];
      assert log[..|log|] == log;
    }
  }

  lemma {:induction false} NormalizeKeepsPrefix(pre: seq<Message>, ms: seq<Message>)
    requires Normal(pre) && pre <= ms
    ensures pre <= Normalize(ms)
  {
    assert ms == pre + ms[|pre|..];
    NormalizeAppend(pre, ms[|pre|..]);
    NormalFixed(pre);
  }

  lemma BeginGrows(cfg: Config, env: Env, st: State, step: nat)
    requires GrowthInv(cfg, env, st, step)
    requires cfg.cutAnswerNote != ""
    ensures var begun := Begin(st, step, env(step));
      && begun.messages != [] && Normal(begun.messages)
      && match LastRequest(st.log)
         case None => step == 1
         case Some(sent) =>
           && step == sent.step + 1
           && (sent.messages <= begun.messages <==> !TextlessCut(env(sent.step)))
  {
    var full := st.messages + UserMessages(env(step).steering);
    NormalizeNormal(full);
    NormalizeStripsFirst(st.messages, UserMessages(env(step).steering));
    var last := LastRequest(st.log);
    if last.Some? {
      var sent := last.value;
      NoteNormal(cfg, sent.messages);
      NormalizeKeepsPrefix(Carried(cfg, sent.messages, env(sent.step)), full);
      PrefixIff(cfg, sent.messages, env(sent.step), Normalize(full));
    }
  }

  lemma {:induction false} NormalizeStripsFirst(a: seq<Message>, b: seq<Message>)
    requires NoEmpty(a) && a != []
    ensures Normalize(a + b) != []
  {
    assert (a + b)[0] == a[0];
    assert Repair(a[0]) != [];
  }

  lemma ReadyGrows(cfg: Config, turnStart: nat, env: Env, st: State, step: nat)
    requires GrowthInv(cfg, env, st, step)
    requires cfg.cutAnswerNote != ""
    ensures var ready := Ready(cfg, turnStart, st, step, env(step));
      && ready.messages != [] && Normal(ready.messages)
      && RequestGrows(env, ready.log, step, ready.messages)
      && CountCompacted(ready.log) <= (if ready.attempted then 1 else 0)
  {
    var inp := env(step);
    BeginGrows(cfg, env, st, step);
    var begun := Begin(st, step, inp);
    var p := Preparation(cfg, turnStart, st, step, inp);
    var ready := Ready(cfg, turnStart, st, step, inp);
    assert begun.attempted == st.attempted;
    GrowthInvCounts(cfg, env, st, step);
    ReadyMeaning(cfg, turnStart, st, step, inp);
    ReadyLog(cfg, turnStart, st, step, inp);
    PrepareReads(st.log, step, p);
    hide Ready, Preparation, LastRequest, CompactedSince, CountCompacted, PrepareEvents, Normal, RecordTells, GrowthInv,
      Begin, TextlessCut;
    if Adopted(p) {
      RewrittenNormal(begun.messages, p.target, |begun.added|, p.rewritten);
    } else if p.Rewrote? {
      UnadoptedSame(begun.messages, p.target, |begun.added|, p.rewritten);
    }
  }

  lemma GrowthInvCounts(cfg: Config, env: Env, st: State, step: nat)
    requires GrowthInv(cfg, env, st, step)
    ensures !CompactedSince(st.log) && CountCompacted(st.log) <= (if st.attempted then 1 else 0)
  {
  }

  lemma UnadoptedSame(ms: seq<Message>, target: nat, newBefore: nat, r: Rewritten)
    ensures RecordTells(ms, target, newBefore, r) && r.record.None? ==> r.messages == ms
  {
  }

  lemma RewrittenNormal(ms: seq<Message>, target: nat, newBefore: nat, r: Rewritten)
    ensures Normal(ms) && RecordTells(ms, target, newBefore, r) && r.record.Some? ==>
      Normal(r.messages) && r.messages != []
  {
  }

  lemma AfterReplyCarries(cfg: Config, st: State, step: nat, inp: StepInput)
    requires st.messages != [] && Normal(st.messages)
    requires !Produce(cfg, inp, st.unusable).ending.GaveUp?
    ensures var after := AfterReply(cfg, st, step, inp).messages;
      after != [] && NoEmpty(after) && Carried(cfg, st.messages, inp) <= after
  {
    var p := Produce(cfg, inp, st.unusable);
    ProducePaired(cfg, inp, st.unusable);
    FinalMeaning(cfg, inp, st.unusable);
    hide Produce;
    var pushed := st.messages + p.messages;
    NoteKeepsNoEmpty(cfg, pushed);
    if p.ending == Final(true) {
      if p.messages == [] {
        assert pushed == st.messages;
      } else {
        assert st.messages <= NoteLast(cfg, pushed);
      }
    }
  }

  lemma FinalMeaning(cfg: Config, inp: StepInput, unusable: nat)
    ensures var p := Produce(cfg, inp, unusable);
      && (TextlessCut(inp) <==> p.ending == Final(true) && p.messages == [])
  {
    if inp.reply.Finished? && !inp.reply.truncated && inp.reply.answer.calls != [] {
      RunToolsAnswers(cfg, inp.reply.answer.calls, 0, inp, unusable);
    }
  }

  lemma ConverseGrows(cfg: Config, env: Env, st: State, step: nat, from: nat)
    requires from <= |st.added|
    requires st.messages != [] && Normal(st.messages)
    requires LogGrows(env, st.log) && RequestGrows(env, st.log, step, st.messages)
    requires CountCompacted(st.log) <= (if st.attempted then 1 else 0)
    ensures var r := Converse(cfg, st, step, from, env(step));
      && LogGrows(env, r.st.log) && CountCompacted(r.st.log) <= 1
      && (r.Continue? ==> GrowthInv(cfg, env, r.st, step + 1))
  {
    hide *;
    var inp := env(step);
    if !Sends(cfg, st, inp) {
      BlockedLog(cfg, st, step, from, inp);
      var es := CloseEvents(step, st.added[from..], true, 0, false);
      LogGrowsQuiet(env, st.log, es);
      QuietReads(st.log, es);
    } else {
      var p := Produce(cfg, inp, st.unusable);
      var e := RequestEvent(cfg, st, step, inp);
      var es := AnswerEvents(cfg, st, step, from, inp);
      var after := AfterReply(cfg, st, step, inp);
      ConverseLog(cfg, st, step, from, inp);
      RequestEventIs(cfg, st, step, inp);
      LogGrowsRequest(env, st.log, e);
      LogGrowsQuiet(env, st.log + [e], es);
      RequestReads(st.log, e);
      QuietReads(st.log + [e], es);
      ConcludeMeaning(cfg, after, step, from, inp, p.ending);
      var r := Conclude(cfg, after, step, from, inp, p.ending);
      if r.Continue? {
        AfterReplyCarries(cfg, st, step, inp);
        TrailingNoEmpty(cfg, step, inp, p.ending);
        GrowthInvNext(cfg, env, r.st, step, e, after.messages, Trailing(cfg, step, inp, p.ending));
      }
    }
  }

  lemma TrailingNoEmpty(cfg: Config, step: nat, inp: StepInput, ending: Ending)
    ensures NoEmpty(Trailing(cfg, step, inp, ending))
  {
    UsersPaired(inp.pending);
  }

  lemma GrowthInvNext(cfg: Config, env: Env, st: State, step: nat, e: Event, ms: seq<Message>, trailing: seq<Message>)
    requires e.Request? && e.step == step && e.messages != [] && Normal(e.messages)
    requires ms != [] && NoEmpty(ms) && NoEmpty(trailing) && st.messages == ms + trailing
    requires Carried(cfg, e.messages, env(step)) <= ms
    requires LastRequest(st.log) == Some(e) && !CompactedSince(st.log)
    requires CountCompacted(st.log) <= (if st.attempted then 1 else 0)
    ensures GrowthInv(cfg, env, st, step + 1)
  {
    hide Carried, IsEmptyAssistant, Normal, LastRequest, CompactedSince, CountCompacted;
  }

  lemma StepGrows(cfg: Config, turnStart: nat, env: Env, st: State, step: nat)
    requires GrowthInv(cfg, env, st, step) && LogGrows(env, st.log)
    requires cfg.cutAnswerNote != ""
    ensures var r := OneStep(cfg, turnStart, st, step, env(step));
      && LogGrows(env, r.st.log) && CountCompacted(r.st.log) <= 1
      && (r.Continue? ==> GrowthInv(cfg, env, r.st, step + 1))
  {
    hide Ready, Converse, Preparation, LogGrows, RequestGrows, PrepareEvents;
    var inp := env(step);
    if !inp.cancelledAtStart {
      ReadyGrows(cfg, turnStart, env, st, step);
      ReadyMeaning(cfg, turnStart, st, step, inp);
      ReadyLog(cfg, turnStart, st, step, inp);
      PrepareQuiet(step, Preparation(cfg, turnStart, st, step, inp));
      LogGrowsQuiet(env, st.log, PrepareEvents(step, Preparation(cfg, turnStart, st, step, inp)));
      ConverseGrows(cfg, env, Ready(cfg, turnStart, st, step, inp), step, |st.added|);
    }
  }

  lemma PrepareQuiet(step: nat, p: Prepared)
    ensures forall i :: 0 <= i < |PrepareEvents(step, p)| ==> !PrepareEvents(step, p)[i].Request?
  {
  }

  lemma {:induction false} RunFromGrows(cfg: Config, turnStart: nat, env: Env, st: State, step: nat)
    requires GrowthInv(cfg, env, st, step) && LogGrows(env, st.log)
    requires cfg.cutAnswerNote != ""
    ensures var log := RunFrom(cfg, turnStart, st, step, env).st.log;
      LogGrows(env, log) && CountCompacted(log) <= 1
    decreases StepBudget(cfg) + 1 - step
  {
    hide *;
    if step > StepBudget(cfg) {
      RunFromSpent(cfg, turnStart, st, step, env);
      GrowthInvCount(cfg, env, st, step);
    } else {
      RunFromStep(cfg, turnStart, st, step, env);
      StepGrows(cfg, turnStart, env, st, step);
      var r := OneStep(cfg, turnStart, st, step, env(step));
      if r.Continue? {
        RunFromGrows(cfg, turnStart, env, r.st, step + 1);
      }
    }
  }

  lemma GrowthInvCount(cfg: Config, env: Env, st: State, step: nat)
    ensures GrowthInv(cfg, env, st, step) ==> CountCompacted(st.log) <= 1
  {
  }

  /**
   In every run the steps' requests are consecutive, at most one checkpoint is
   adopted, and without one in between each request extends the one before it
   if and only if the answer in between was not a textless cut.
   */
  lemma RunGrows(cfg: Config, history: seq<Message>, env: Env)
    requires cfg.cutAnswerNote != ""
    ensures var log := Run(cfg, history, env).st.log;
      LogGrows(env, log) && CountCompacted(log) <= 1
  {
    var base := BaseHistory(cfg, history);
    BaseHistoryNormal(cfg, history);
    RunFromGrows(cfg, TurnStart(base), env, State(base, [], None, false, 0, []), 1);
  }

  lemma BaseHistoryNormal(cfg: Config, history: seq<Message>)
    ensures var base := BaseHistory(cfg, history);
      Normal(base) && base != [] && base[0].role == System
  {
    var full := if history != [] && history[0].role == System then history
                else [SystemMessage(cfg.systemPrompt)] + history;
    NormalizeNormal(full);
    assert Normalize(full) == Repair(full[0]) + Normalize(full[1..]);
  }
}
