/**
 What a run reports about its steps: they open and close strictly in turn, with at most one settlement each,
 except that giving up over unusable arguments leaves the last step open and unsettled.
 */
module TurnSettlement {
  import opened Wrappers
  import opened Chat
  import opened Compaction
  import opened TurnLoop
  import opened TurnLog
  import opened TurnEnds

  // ---------------------------------------------------------------------
  // Frames: the start, settlement and end of each step
  // ---------------------------------------------------------------------

  predicate IsFrame(e: Event) {
    e.Started? || e.Settled? || e.Ended?
  }

  function Frames(log: seq<Event>): seq<Event> {
    if log == [] then []
    else
      var last := log[|log| - 1];
      Frames(log[..|log| - 1]) + (if IsFrame(last) then [last] else [])
  }

  lemma {:induction false} FramesAppend(a: seq<Event>, b: seq<Event>)
    ensures Frames(a + b) == Frames(a) + Frames(b)
  {
    if b == [] {
      assert a + b == a;
    } else {
      var init, last := b[..|b| - 1], b[|b| - 1];
      assert a + b == (a + init) + [last];
      SnocParts(a + init, last);
      FramesAppend(a, init);
      FramesAssociate(Frames(a), Frames(init), if IsFrame(last) then [last] else []);
    }
  }

  lemma FramesAssociate(a: seq<Event>, b: seq<Event>, c: seq<Event>)
    ensures (a + b) + c == a + (b + c)
  {
  }

  lemma {:induction false} FramesNone(es: seq<Event>)
    requires forall i :: 0 <= i < |es| ==> !IsFrame(es[i])
    ensures Frames(es) == []
  {
    if es != [] {
      FramesNone(es[..|es| - 1]);
    }
  }

  lemma {:induction false} FramesAll(es: seq<Event>)
    requires forall i :: 0 <= i < |es| ==> IsFrame(es[i])
    ensures Frames(es) == es
  {
    if es != [] {
      FramesAll(es[..|es| - 1]);
      assert es == es[..|es| - 1] + [es[|es| - 1]];
    }
  }

  /** One closed step: started, at most one non-empty settlement, ended once. */
  ghost predicate ClosedStep(fs: seq<Event>, step: nat) {
    || (|fs| == 2 && fs[0] == Started(step) && fs[1].Ended? && fs[1].step == step)
    || (|fs| == 3 && fs[0] == Started(step)
        && fs[1].Settled? && fs[1].step == step && fs[1].messages != []
        && fs[2].Ended? && fs[2].step == step)
  }

  /** Steps 1..n, each closed before the next starts. */
  ghost predicate ClosedSteps(fs: seq<Event>, n: nat)
    decreases n
  {
    if n == 0 then fs == []
    else exists k: nat :: k <= |fs| && ClosedSteps(fs[..k], n - 1) && ClosedStep(fs[k..], n)
  }

  lemma ClosedStepsSnoc(fs: seq<Event>, n: nat, step: seq<Event>)
    requires ClosedSteps(fs, n) && ClosedStep(step, n + 1)
    ensures ClosedSteps(fs + step, n + 1)
  {
    assert (fs + step)[..|fs|] == fs && (fs + step)[|fs|..] == step;
  }

  /** n closed steps and one more that was started and nothing else. */
  ghost predicate LeftOpen(fs: seq<Event>, n: nat) {
    |fs| > 0 && ClosedSteps(fs[..|fs| - 1], n) && fs[|fs| - 1] == Started(n + 1)
  }

  /** Where a run's frames stand when it ends with `outcome`. */
  ghost predicate FramesOf(cfg: Config, fs: seq<Event>, outcome: Outcome) {
    match outcome
    case UnusableArguments =>
      exists n: nat :: LeftOpen(fs, n)
    case Done(_, _, steps) => ClosedSteps(fs, steps)
    case MaxSteps => ClosedSteps(fs, StepBudget(cfg))
    case _ => exists n: nat :: ClosedSteps(fs, n)
  }

  /** Where they stand after one step. */
  ghost predicate FramesAfter(cfg: Config, r: StepResult, step: nat)
    requires 1 <= step
  {
    match r
    case Continue(st) => ClosedSteps(Frames(st.log), step)
    case Stop(outcome, st) =>
      && FramesOf(cfg, Frames(st.log), outcome)
      && (outcome.UnusableArguments? ==> LeftOpen(Frames(st.log), step - 1))
  }

  lemma {:induction false} StartFrames(log: seq<Event>, step: nat, rest: seq<Event>)
    requires forall i :: 0 <= i < |rest| ==> !IsFrame(rest[i])
    ensures Frames(log + ([Started(step)] + rest)) == Frames(log) + [Started(step)]
  {
    hide Frames;
    FramesAppend(log, [Started(step)] + rest);
    FramesAppend([Started(step)], rest);
    FramesNone(rest);
    FramesAll([Started(step)]);
  }

  lemma {:induction false} PrepareFrames(log: seq<Event>, step: nat, p: Prepared)
    ensures Frames(log + PrepareEvents(step, p)) == Frames(log) + [Started(step)]
  {
    hide Frames;
    var rest := PrepareEvents(step, p)[1..];
    assert PrepareEvents(step, p) == [Started(step)] + rest;
    StartFrames(log, step, rest);
  }

  lemma {:induction false} AnswerFrames(log: seq<Event>, e: Event, step: nat, calls: seq<ToolCall>,
                                        called: nat, es: seq<Event>)
    requires e.Request?
    requires forall i :: 0 <= i < |es| ==> IsFrame(es[i])
    ensures Frames(log + [e] + (CalledEvents(step, calls, called) + es)) == Frames(log) + es
  {
    hide Frames;
    var quiet := [e] + CalledEvents(step, calls, called);
    AppendLogs([e], CalledEvents(step, calls, called), es);
    AppendLogs(log, [e], CalledEvents(step, calls, called) + es);
    FramesNone(quiet);
    FramesAll(es);
    FramesAppend(quiet, es);
    FramesAppend(log, quiet + es);
  }

  lemma CloseIsClosed(step: nat, delta: seq<Message>, interrupted: bool, toolCalls: nat, cancelled: bool)
    ensures ClosedStep([Started(step)] + CloseEvents(step, delta, interrupted, toolCalls, cancelled), step)
  {
  }

  lemma ConcludeIsClosed(step: nat, delta: seq<Message>, inp: StepInput, ending: Ending)
    ensures !ending.GaveUp? ==> ClosedStep([Started(step)] + ConcludeEvents(step, delta, inp, ending), step)
  {
  }

  /** A step closed by these frames makes one more closed step. */
  lemma ClosedNext(before: seq<Event>, fs: seq<Event>, step: nat, es: seq<Event>)
    requires 1 <= step && ClosedSteps(before, step - 1) && ClosedStep([Started(step)] + es, step)
    requires fs == (before + [Started(step)]) + es
    ensures ClosedSteps(fs, step)
  {
    ClosedStepsSnoc(before, step - 1, [Started(step)] + es);
    FramesAssociate(before, [Started(step)], es);
  }

  lemma {:induction false} BlockedFrames(cfg: Config, st: State, step: nat, from: nat, inp: StepInput, before: seq<Event>)
    requires 1 <= step && from <= |st.added| && !Sends(cfg, st, inp)
    requires Frames(st.log) == before + [Started(step)] && ClosedSteps(before, step - 1)
    ensures FramesAfter(cfg, Converse(cfg, st, step, from, inp), step)
  {
    hide Converse, Frames, ClosedSteps, ClosedStep, CloseEvents, Sends;
    BlockedLog(cfg, st, step, from, inp);
    var es := CloseEvents(step, st.added[from..], true, 0, false);
    FramesAppend(st.log, es);
    FramesAll(es);
    CloseIsClosed(step, st.added[from..], true, 0, false);
    ClosedNext(before, Frames(st.log + es), step, es);
  }

  lemma {:induction false} OpenNext(before: seq<Event>, fs: seq<Event>, step: nat)
    requires 1 <= step && ClosedSteps(before, step - 1) && fs == (before + [Started(step)]) + []
    ensures LeftOpen(fs, step - 1)
  {
    assert fs[..|fs| - 1] == before;
  }

  lemma {:induction false} OutcomeFrames(cfg: Config, r: StepResult, step: nat, fs: seq<Event>, ending: Ending)
    requires 1 <= step && Frames(r.st.log) == fs
    requires if ending.GaveUp? then LeftOpen(fs, step - 1) else ClosedSteps(fs, step)
    requires r.Stop? && r.outcome.Done? ==> r.outcome.steps == step
    requires r.Stop? && r.outcome.MaxSteps? ==> step == StepBudget(cfg)
    requires r.Stop? && r.outcome.UnusableArguments? <==> ending.GaveUp?
    ensures FramesAfter(cfg, r, step)
  {
    hide Frames, ClosedSteps, LeftOpen, StepBudget;
  }

  lemma {:induction false} ConverseFrames(cfg: Config, st: State, step: nat, from: nat, inp: StepInput, before: seq<Event>)
    requires 1 <= step && from <= |st.added|
    requires Frames(st.log) == before + [Started(step)] && ClosedSteps(before, step - 1)
    ensures FramesAfter(cfg, Converse(cfg, st, step, from, inp), step)
  {
    if !Sends(cfg, st, inp) {
      BlockedFrames(cfg, st, step, from, inp, before);
      return;
    }
    hide *;
    var p := Produce(cfg, inp, st.unusable);
    var after := AfterReply(cfg, st, step, inp);
    var delta := after.added[from..];
    var es := ConcludeEvents(step, delta, inp, p.ending);
    var e := RequestEvent(cfg, st, step, inp);
    ConverseLog(cfg, st, step, from, inp);
    AnswerEventsAre(cfg, st, step, from, inp);
    RequestEventIs(cfg, st, step, inp);
    ConcludeFramed(step, delta, inp, p.ending);
    AnswerFrames(st.log, e, step, ReplyCalls(inp), p.called, es);
    ConcludeOutcome(cfg, after, step, from, inp, p.ending);
    var r := Converse(cfg, st, step, from, inp);
    if p.ending.GaveUp? {
      OpenNext(before, Frames(r.st.log), step);
    } else {
      ConcludeIsClosed(step, delta, inp, p.ending);
      ClosedNext(before, Frames(r.st.log), step, es);
    }
    OutcomeFrames(cfg, r, step, Frames(r.st.log), p.ending);
  }

  lemma AnswerEventsAre(cfg: Config, st: State, step: nat, from: nat, inp: StepInput)
    requires from <= |st.added|
    ensures var p := Produce(cfg, inp, st.unusable);
      AnswerEvents(cfg, st, step, from, inp) == CalledEvents(step, ReplyCalls(inp), p.called)
        + ConcludeEvents(step, AfterReply(cfg, st, step, inp).added[from..], inp, p.ending)
  {
    hide Produce, AfterReply;
  }

  lemma ConcludeFramed(step: nat, delta: seq<Message>, inp: StepInput, ending: Ending)
    ensures var es := ConcludeEvents(step, delta, inp, ending);
      (forall i :: 0 <= i < |es| ==> IsFrame(es[i])) && (ending.GaveUp? ==> es == [])
  {
  }

  lemma ConcludeOutcome(cfg: Config, st: State, step: nat, from: nat, inp: StepInput, ending: Ending)
    requires from <= |st.added|
    ensures var r := Conclude(cfg, st, step, from, inp, ending);
      && (r.Stop? && r.outcome.Done? ==> r.outcome.steps == step)
      && (r.Stop? && r.outcome.MaxSteps? ==> step == StepBudget(cfg))
      && (r.Stop? && r.outcome.UnusableArguments? <==> ending.GaveUp?)
  {
  }

  lemma {:induction false} FramesAfterIs(cfg: Config, r: StepResult, step: nat)
    requires 1 <= step && FramesAfter(cfg, r, step)
    ensures r.Continue? ==> ClosedSteps(Frames(r.st.log), step)
    ensures r.Stop? ==> FramesOf(cfg, Frames(r.st.log), r.outcome)
    ensures r.Stop? && r.outcome == UnusableArguments ==> LeftOpen(Frames(r.st.log), step - 1)
    ensures r.Stop? && r.outcome != UnusableArguments ==> exists n: nat :: ClosedSteps(Frames(r.st.log), n)
  {
    hide Frames, ClosedSteps, LeftOpen;
  }

  lemma {:induction false} StepFrames(cfg: Config, turnStart: nat, st: State, step: nat, inp: StepInput)
    requires 1 <= step && ClosedSteps(Frames(st.log), step - 1)
    ensures FramesAfter(cfg, OneStep(cfg, turnStart, st, step, inp), step)
  {
    hide Ready, Converse, Frames, ClosedSteps, PrepareEvents, Preparation;
    if !inp.cancelledAtStart {
      ReadyMeaning(cfg, turnStart, st, step, inp);
      ReadyLog(cfg, turnStart, st, step, inp);
      PrepareFrames(st.log, step, Preparation(cfg, turnStart, st, step, inp));
      ConverseFrames(cfg, Ready(cfg, turnStart, st, step, inp), step, |st.added|, inp, Frames(st.log));
    }
  }

  lemma {:induction false} ReachedFrames(cfg: Config, history: seq<Message>, env: Env, k: nat)
    requires 1 <= k && StateAt(cfg, history, env, k).Some?
    ensures ClosedSteps(Frames(StateAt(cfg, history, env, k).value.log), k - 1)
  {
    hide *;
    if k == 1 {
      NoFrames(cfg, history, env);
    } else {
      StateBefore(cfg, history, env, k);
      ReachedFrames(cfg, history, env, k - 1);
      RunReaches(cfg, history, env, k - 1);
      StepOf(cfg, history, env, k - 1);
      var st := StateAt(cfg, history, env, k - 1).value;
      StepEnds(cfg, RunTurn(cfg, history), st, k - 1, env(k - 1));
      StepFrames(cfg, RunTurn(cfg, history), st, k - 1, env(k - 1));
      FramesAfterIs(cfg, OneStep(cfg, RunTurn(cfg, history), st, k - 1, env(k - 1)), k - 1);
    }
  }

  lemma {:induction false} NoFrames(cfg: Config, history: seq<Message>, env: Env)
    ensures StateAt(cfg, history, env, 1).Some?
    ensures ClosedSteps(Frames(StateAt(cfg, history, env, 1).value.log), 0)
  {
    hide BaseHistory;
  }

  lemma {:induction false} ClosedNotOpen(fs: seq<Event>, n: nat, m: nat)
    requires ClosedSteps(fs, n)
    ensures !LeftOpen(fs, m)
  {
    if n > 0 {
      var k: nat :| k <= |fs| && ClosedSteps(fs[..k], n - 1) && ClosedStep(fs[k..], n);
      assert fs[k..][|fs[k..]| - 1] == fs[|fs| - 1];
    }
  }

  /**
   Every started step ends exactly once, with at most one settlement in between,
   if and only if no step gives the run up; the step that does is left open and
   unsettled, behind closed ones.
   */
  lemma RunFrames(cfg: Config, history: seq<Message>, env: Env)
    ensures var r := Run(cfg, history, env);
      var fs := Frames(r.st.log);
      && FramesOf(cfg, fs, r.outcome)
      && ((exists n: nat :: ClosedSteps(fs, n)) <==> !exists k: nat :: GivesUpAt(cfg, history, env, k))
      && (forall k: nat :: GivesUpAt(cfg, history, env, k) ==> 1 <= k && LeftOpen(fs, k - 1))
  {
    hide *;
    NoFrames(cfg, history, env);
    var m := FindLastStep(cfg, history, env, 1);
    LastStepIs(cfg, history, env, m);
    var st := StateAt(cfg, history, env, m).value;
    var r := OneStep(cfg, RunTurn(cfg, history), st, m, env(m));
    var fs := Frames(r.st.log);
    ReachedFrames(cfg, history, env, m);
    LastStepEnds(cfg, history, env, m);
    StepFrames(cfg, RunTurn(cfg, history), st, m, env(m));
    FramesAfterIs(cfg, r, m);
    forall k: nat | GivesUpAt(cfg, history, env, k)
      ensures k == m
    {
      EndsAreLast(cfg, history, env, k);
      LastStepUnique(cfg, history, env, m, k);
    }
    forall n: nat | ClosedSteps(fs, n)
      ensures !LeftOpen(fs, m - 1)
    {
      ClosedNotOpen(fs, n, m - 1);
    }
  }
}
