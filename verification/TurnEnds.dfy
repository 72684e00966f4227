/**
 How a step ends, and with it the run, told from what goes in: the answer, the results of its calls, the
 cancellations, what is pending, and whether the prompt can be sent.
 */
module TurnEnds {
  import opened Wrappers
  import opened Chat
  import opened Compaction
  import opened TurnLoop
  import opened TurnLog

  // ---------------------------------------------------------------------
  // Unusable payloads in a row
  // ---------------------------------------------------------------------

  /** The length of the row after results i..j, when it was `before` ahead of them. */
  function Streak(inp: StepInput, before: nat, i: nat, j: nat): nat
    requires i <= j
    decreases j
  {
    if i == j then before else NextUnusable(Streak(inp, before, i, j - 1), inp.results(j - 1))
  }

  /** The row is one longer than allowed after some of the results i..j. */
  ghost predicate TooMany(inp: StepInput, before: nat, i: nat, j: nat) {
    exists k: nat :: i < k <= j && Streak(inp, before, i, k) > MAX_UNUSABLE_ARGUMENTS
  }

  /** A row counts back to the last usable result, and further back if there is none. */
  lemma {:induction false} StreakMeaning(inp: StepInput, before: nat, i: nat, j: nat)
    requires i <= j
    ensures var s := Streak(inp, before, i, j);
      && (forall k: nat :: i <= k < j && j - s <= k ==> !inp.results(k).usable)
      && (s <= j - i - 1 ==> inp.results(j - 1 - s).usable)
      && (s > j - i - 1 ==> s == before + (j - i))
    decreases j
  {
    if i < j {
      StreakMeaning(inp, before, i, j - 1);
    }
  }

  lemma {:induction false} StreakSplit(inp: StepInput, before: nat, i: nat, m: nat, j: nat)
    requires i <= m <= j
    ensures Streak(inp, Streak(inp, before, i, m), m, j) == Streak(inp, before, i, j)
    decreases j
  {
    if m < j {
      StreakSplit(inp, before, i, m, j - 1);
    }
  }

  lemma {:induction false} TooManySplit(inp: StepInput, before: nat, i: nat, m: nat, j: nat)
    requires i <= m <= j
    ensures TooMany(inp, before, i, j)
      <==> TooMany(inp, before, i, m) || TooMany(inp, Streak(inp, before, i, m), m, j)
  {
    hide Streak;
    if TooMany(inp, before, i, j) {
      var k: nat :| i < k <= j && Streak(inp, before, i, k) > MAX_UNUSABLE_ARGUMENTS;
      if k > m {
        StreakSplit(inp, before, i, m, k);
      }
    }
    if TooMany(inp, Streak(inp, before, i, m), m, j) {
      var k: nat :| m < k <= j && Streak(inp, Streak(inp, before, i, m), m, k) > MAX_UNUSABLE_ARGUMENTS;
      StreakSplit(inp, before, i, m, k);
    }
  }

  lemma {:induction false} TooManyOne(inp: StepInput, before: nat, i: nat)
    ensures Streak(inp, before, i, i + 1) == NextUnusable(before, inp.results(i))
    ensures TooMany(inp, before, i, i + 1) <==> NextUnusable(before, inp.results(i)) > MAX_UNUSABLE_ARGUMENTS
  {
    assert Streak(inp, before, i, i) == before;
    var s := Streak(inp, before, i, i + 1);
    assert s > MAX_UNUSABLE_ARGUMENTS ==> TooMany(inp, before, i, i + 1);
  }

  lemma {:induction false} BatchGivesUp(calls: seq<ToolCall>, i: nat, end: nat, inp: StepInput, before: nat)
    requires i <= end <= |calls|
    ensures var p := RunBatch(calls, i, end, inp, before);
      && (p.ending == GaveUp <==> TooMany(inp, before, i, end))
      && (p.ending != GaveUp ==> p.ending == CallsRan && p.unusable == Streak(inp, before, i, end))
    decreases end - i
  {
    hide TooMany;
    if i == end {
      NoneTooMany(inp, before, i);
    } else {
      var next := NextUnusable(before, inp.results(i));
      TooManyOne(inp, before, i);
      TooManySplit(inp, before, i, i + 1, end);
      StreakSplit(inp, before, i, i + 1, end);
      hide Streak;
      if next <= MAX_UNUSABLE_ARGUMENTS {
        BatchGivesUp(calls, i + 1, end, inp, next);
      }
    }
  }

  lemma {:induction false} NoneTooMany(inp: StepInput, before: nat, i: nat)
    ensures !TooMany(inp, before, i, i) && Streak(inp, before, i, i) == before
  {
  }

  /** How many calls are run: those before the first batch that a cancellation catches. */
  function Reached(cfg: Config, calls: seq<ToolCall>, i: nat, inp: StepInput): (e: nat)
    requires i <= |calls|
    ensures i <= e <= |calls|
    decreases |calls| - i
  {
    if i == |calls| || inp.cancelledBefore(i) then i else Reached(cfg, calls, BatchEnd(cfg, calls, i), inp)
  }

  lemma {:induction false} ToolsGiveUp(cfg: Config, calls: seq<ToolCall>, i: nat, inp: StepInput, before: nat)
    requires i <= |calls|
    ensures var p := RunTools(cfg, calls, i, inp, before);
      var end := Reached(cfg, calls, i, inp);
      && (p.ending == GaveUp <==> TooMany(inp, before, i, end))
      && (p.ending != GaveUp ==>
            && p.ending == (if end == |calls| then CallsRan else CancelledBetween)
            && p.unusable == Streak(inp, before, i, end))
    decreases |calls| - i
  {
    hide TooMany, Streak, BatchEnd, RunBatch;
    NoneTooMany(inp, before, i);
    if i < |calls| && !inp.cancelledBefore(i) {
      var m := BatchEnd(cfg, calls, i);
      var end := Reached(cfg, calls, m, inp);
      BatchGivesUp(calls, i, m, inp, before);
      TooManySplit(inp, before, i, m, end);
      StreakSplit(inp, before, i, m, end);
      if RunBatch(calls, i, m, inp, before).ending != GaveUp {
        ToolsGiveUp(cfg, calls, m, inp, Streak(inp, before, i, m));
      }
    }
  }

  // ---------------------------------------------------------------------
  // One step
  // ---------------------------------------------------------------------

  /** The step is not cancelled at its start and its prompt can be sent. */
  predicate Asks(cfg: Config, turnStart: nat, st: State, step: nat, inp: StepInput) {
    !inp.cancelledAtStart && Sends(cfg, Ready(cfg, turnStart, st, step, inp), inp)
  }

  /** A whole answer without calls. */
  predicate FinalAnswer(inp: StepInput) {
    inp.reply.Finished? && inp.reply.answer.calls == []
  }

  /** An answer with calls that was cut at the output limit: they are answered, not run. */
  predicate CutCalls(inp: StepInput) {
    inp.reply.Finished? && inp.reply.truncated && inp.reply.answer.calls != []
  }

  /** A whole answer whose calls are run. */
  predicate RunsCalls(inp: StepInput) {
    inp.reply.Finished? && !inp.reply.truncated && inp.reply.answer.calls != []
  }

  /** Among the calls that are run, one payload too many in a row is unusable. */
  ghost predicate Overruns(cfg: Config, inp: StepInput, before: nat) {
    RunsCalls(inp) && TooMany(inp, before, 0, Reached(cfg, inp.reply.answer.calls, 0, inp))
  }

  /** The row after the step. */
  function NextStreak(cfg: Config, inp: StepInput, before: nat): nat {
    if RunsCalls(inp) then Streak(inp, before, 0, Reached(cfg, inp.reply.answer.calls, 0, inp)) else before
  }

  /** The answer leaves something to go on with: steering, calls to make again, or results of all its calls. */
  ghost predicate WantsMore(cfg: Config, inp: StepInput, before: nat) {
    || (FinalAnswer(inp) && inp.pending != [])
    || CutCalls(inp)
    || (RunsCalls(inp) && !Overruns(cfg, inp, before)
        && Reached(cfg, inp.reply.answer.calls, 0, inp) == |inp.reply.answer.calls|)
  }

  /** Another step follows. */
  ghost predicate GoesOn(cfg: Config, turnStart: nat, st: State, step: nat, inp: StepInput, before: nat) {
    Asks(cfg, turnStart, st, step, inp) && step != StepBudget(cfg) && WantsMore(cfg, inp, before)
  }

  /** The run ends with an answer. */
  predicate Completes(cfg: Config, turnStart: nat, st: State, step: nat, inp: StepInput) {
    Asks(cfg, turnStart, st, step, inp) && FinalAnswer(inp) && inp.pending == []
  }

  /** The run is given up over unusable payloads. */
  ghost predicate GivesUp(cfg: Config, turnStart: nat, st: State, step: nat, inp: StepInput, before: nat) {
    Asks(cfg, turnStart, st, step, inp) && Overruns(cfg, inp, before)
  }

  /** What the answer and the results of its calls make of the step. */
  lemma {:induction false} ReplyEnds(cfg: Config, inp: StepInput, before: nat)
    ensures var p := Produce(cfg, inp, before);
      && (p.ending == GaveUp <==> Overruns(cfg, inp, before))
      && (p.ending.Final? <==> FinalAnswer(inp))
      && (p.ending == CallsCut <==> CutCalls(inp))
      && (p.ending == CallsRan <==>
            RunsCalls(inp) && !Overruns(cfg, inp, before)
            && Reached(cfg, inp.reply.answer.calls, 0, inp) == |inp.reply.answer.calls|)
      && (p.ending != GaveUp ==> p.unusable == NextStreak(cfg, inp, before))
  {
    hide TooMany, Streak, Reached, RunTools;
    if RunsCalls(inp) {
      ToolsGiveUp(cfg, inp.reply.answer.calls, 0, inp, before);
    }
  }

  lemma ConcludeEnds(cfg: Config, st: State, step: nat, from: nat, inp: StepInput, ending: Ending)
    requires from <= |st.added|
    ensures var r := Conclude(cfg, st, step, from, inp, ending);
      && (r.Continue? <==>
            (step != StepBudget(cfg) && ((ending.Final? && inp.pending != []) || ending == CallsCut || ending == CallsRan)))
      && (r.Stop? && r.outcome.Done? <==> ending.Final? && inp.pending == [])
      && (r.Stop? && r.outcome == UnusableArguments <==> ending == GaveUp)
      && r.st.unusable == st.unusable
  {
    ConcludeMeaning(cfg, st, step, from, inp, ending);
    hide Close, StepBudget;
  }

  lemma AskedEnds(cfg: Config, st: State, step: nat, from: nat, inp: StepInput)
    requires from <= |st.added| && Sends(cfg, st, inp)
    ensures var r := Converse(cfg, st, step, from, inp);
      && (r.Continue? <==> step != StepBudget(cfg) && WantsMore(cfg, inp, st.unusable))
      && (r.Stop? && r.outcome.Done? <==> FinalAnswer(inp) && inp.pending == [])
      && (r.Stop? && r.outcome == UnusableArguments <==> Overruns(cfg, inp, st.unusable))
      && (r.Continue? ==> r.st.unusable == NextStreak(cfg, inp, st.unusable))
  {
    hide Converse, Produce, Conclude, Overruns, Reached, NextStreak, StepBudget, Sends;
    var p := Produce(cfg, inp, st.unusable);
    var after := AfterReply(cfg, st, step, inp);
    ReplyEnds(cfg, inp, st.unusable);
    ConverseLog(cfg, st, step, from, inp);
    ConcludeEnds(cfg, after, step, from, inp, p.ending);
  }

  lemma ReadyStreak(cfg: Config, turnStart: nat, st: State, step: nat, inp: StepInput)
    ensures Ready(cfg, turnStart, st, step, inp).unusable == st.unusable
  {
    hide CompactRange, Normalize, CompactionTarget;
  }

  /** A step's end, read off its inputs. */
  lemma StepEnds(cfg: Config, turnStart: nat, st: State, step: nat, inp: StepInput)
    ensures var r := OneStep(cfg, turnStart, st, step, inp);
      && (r.Continue? <==> GoesOn(cfg, turnStart, st, step, inp, st.unusable))
      && (r.Stop? && r.outcome.Done? <==> Completes(cfg, turnStart, st, step, inp))
      && (r.Stop? && r.outcome == UnusableArguments <==> GivesUp(cfg, turnStart, st, step, inp, st.unusable))
      && (r.Continue? ==> r.st.unusable == NextStreak(cfg, inp, st.unusable))
  {
    hide Ready, Converse, Overruns, Reached, NextStreak, StepBudget, Sends, FinalAnswer, CutCalls, RunsCalls;
    if !inp.cancelledAtStart {
      var ready := Ready(cfg, turnStart, st, step, inp);
      ReadyStreak(cfg, turnStart, st, step, inp);
      ReadyKeepsAdded(cfg, turnStart, st, step, inp);
      if Sends(cfg, ready, inp) {
        AskedEnds(cfg, ready, step, |st.added|, inp);
      } else {
        BlockedLog(cfg, ready, step, |st.added|, inp);
      }
    }
  }

  // ---------------------------------------------------------------------
  // The run
  // ---------------------------------------------------------------------

  /** The row at the start of step k. */
  function StreakAt(cfg: Config, env: Env, k: nat): nat
    requires 1 <= k
  {
    if k == 1 then 0 else NextStreak(cfg, env(k - 1), StreakAt(cfg, env, k - 1))
  }

  function RunTurn(cfg: Config, history: seq<Message>): nat {
    TurnStart(BaseHistory(cfg, history))
  }

  function RunStart(cfg: Config, history: seq<Message>): State {
    State(BaseHistory(cfg, history), [], None, false, 0, [])
  }

  /** The state step k starts with, if every step before it goes on. */
  ghost function StateAt(cfg: Config, history: seq<Message>, env: Env, k: nat): Option<State>
    requires 1 <= k
  {
    if k == 1 then Some(RunStart(cfg, history))
    else
      match StateAt(cfg, history, env, k - 1)
      case None => None
      case Some(st) =>
        if GoesOn(cfg, RunTurn(cfg, history), st, k - 1, env(k - 1), StreakAt(cfg, env, k - 1)) then
          Some(OneStep(cfg, RunTurn(cfg, history), st, k - 1, env(k - 1)).st)
        else None
  }

  /** Step k is reached and ends the run with an answer. */
  ghost predicate CompletesAt(cfg: Config, history: seq<Message>, env: Env, k: nat) {
    && 1 <= k && StateAt(cfg, history, env, k).Some?
    && Completes(cfg, RunTurn(cfg, history), StateAt(cfg, history, env, k).value, k, env(k))
  }

  /** Step k is reached and gives the run up. */
  ghost predicate GivesUpAt(cfg: Config, history: seq<Message>, env: Env, k: nat) {
    && 1 <= k && StateAt(cfg, history, env, k).Some?
    && GivesUp(cfg, RunTurn(cfg, history), StateAt(cfg, history, env, k).value, k, env(k), StreakAt(cfg, env, k))
  }

  lemma StepOf(cfg: Config, history: seq<Message>, env: Env, k: nat)
    requires 1 <= k && StateAt(cfg, history, env, k).Some?
    ensures var st := StateAt(cfg, history, env, k).value;
      StateAt(cfg, history, env, k + 1)
        == if GoesOn(cfg, RunTurn(cfg, history), st, k, env(k), StreakAt(cfg, env, k)) then
             Some(OneStep(cfg, RunTurn(cfg, history), st, k, env(k)).st)
           else None
  {
    hide GoesOn, OneStep, StreakAt, RunTurn, RunStart;
  }

  lemma NotSpent(cfg: Config, turnStart: nat, st: State, step: nat, inp: StepInput, before: nat)
    ensures GoesOn(cfg, turnStart, st, step, inp, before) && step <= StepBudget(cfg) ==> step + 1 <= StepBudget(cfg)
    ensures 1 <= StepBudget(cfg)
  {
  }

  lemma StreakNext(cfg: Config, env: Env, k: nat)
    requires 1 <= k
    ensures StreakAt(cfg, env, k + 1) == NextStreak(cfg, env(k), StreakAt(cfg, env, k))
    ensures StreakAt(cfg, env, 1) == 0
  {
    hide NextStreak;
  }

  lemma {:induction false} RunIs(cfg: Config, history: seq<Message>, env: Env)
    ensures Run(cfg, history, env) == RunFrom(cfg, RunTurn(cfg, history), RunStart(cfg, history), 1, env)
    ensures StateAt(cfg, history, env, 1) == Some(RunStart(cfg, history)) && RunStart(cfg, history).unusable == 0
  {
    hide RunFrom, TurnStart, BaseHistory;
  }

  /** A reached step is within the budget, has the row the inputs say, and the run goes on from it. */
  lemma {:induction false} RunReaches(cfg: Config, history: seq<Message>, env: Env, k: nat)
    requires 1 <= k && StateAt(cfg, history, env, k).Some?
    ensures var st := StateAt(cfg, history, env, k).value;
      && k <= StepBudget(cfg) && st.unusable == StreakAt(cfg, env, k)
      && Run(cfg, history, env) == RunFrom(cfg, RunTurn(cfg, history), st, k, env)
  {
    hide *;
    if k == 1 {
      RunIs(cfg, history, env);
      StreakNext(cfg, env, 1);
      NotSpent(cfg, 0, RunStart(cfg, history), 1, env(1), 0);
    } else {
      StateBefore(cfg, history, env, k);
      RunReaches(cfg, history, env, k - 1);
      var st := StateAt(cfg, history, env, k - 1).value;
      StepOf(cfg, history, env, k - 1);
      StreakNext(cfg, env, k - 1);
      NotSpent(cfg, RunTurn(cfg, history), st, k - 1, env(k - 1), StreakAt(cfg, env, k - 1));
      StepEnds(cfg, RunTurn(cfg, history), st, k - 1, env(k - 1));
      RunFromStep(cfg, RunTurn(cfg, history), st, k - 1, env);
    }
  }

  lemma StateBefore(cfg: Config, history: seq<Message>, env: Env, k: nat)
    requires 1 < k && StateAt(cfg, history, env, k).Some?
    ensures StateAt(cfg, history, env, k - 1).Some?
    ensures GoesOn(cfg, RunTurn(cfg, history), StateAt(cfg, history, env, k - 1).value, k - 1, env(k - 1),
                   StreakAt(cfg, env, k - 1))
  {
    hide GoesOn, OneStep, StreakAt, RunTurn, RunStart;
  }

  /** The step a run ends with. */
  ghost predicate LastStep(cfg: Config, history: seq<Message>, env: Env, k: nat) {
    && 1 <= k && StateAt(cfg, history, env, k).Some?
    && !GoesOn(cfg, RunTurn(cfg, history), StateAt(cfg, history, env, k).value, k, env(k), StreakAt(cfg, env, k))
  }

  lemma {:induction false} LastStepIs(cfg: Config, history: seq<Message>, env: Env, k: nat)
    ensures LastStep(cfg, history, env, k) ==> 1 <= k && StateAt(cfg, history, env, k).Some?
  {
  }

  lemma {:induction false} FindLastStep(cfg: Config, history: seq<Message>, env: Env, k: nat) returns (m: nat)
    requires 1 <= k && StateAt(cfg, history, env, k).Some?
    ensures k <= m && LastStep(cfg, history, env, m)
    decreases StepBudget(cfg) + 1 - k
  {
    hide StateAt, GoesOn, StreakAt, RunTurn, StepBudget;
    RunReaches(cfg, history, env, k);
    if LastStep(cfg, history, env, k) {
      m := k;
    } else {
      StepOf(cfg, history, env, k);
      m := FindLastStep(cfg, history, env, k + 1);
    }
  }

  lemma {:induction false} NoneAfterLast(cfg: Config, history: seq<Message>, env: Env, m: nat, k: nat)
    requires LastStep(cfg, history, env, m) && m < k
    ensures StateAt(cfg, history, env, k).None?
  {
    hide GoesOn, OneStep, StreakAt, RunTurn, RunStart;
    if m + 1 < k {
      NoneAfterLast(cfg, history, env, m, k - 1);
    }
  }

  lemma LastStepUnique(cfg: Config, history: seq<Message>, env: Env, m: nat, k: nat)
    requires LastStep(cfg, history, env, m) && LastStep(cfg, history, env, k)
    ensures m == k
  {
    hide StateAt, GoesOn, StreakAt, RunTurn;
    if m < k {
      NoneAfterLast(cfg, history, env, m, k);
    }
    if k < m {
      NoneAfterLast(cfg, history, env, k, m);
    }
  }

  lemma EndsAreLast(cfg: Config, history: seq<Message>, env: Env, k: nat)
    ensures CompletesAt(cfg, history, env, k) || GivesUpAt(cfg, history, env, k) ==> LastStep(cfg, history, env, k)
  {
    hide StateAt, StreakAt, RunTurn, Asks, Reached, TooMany, StepBudget;
  }

  /** The run is what its last step makes of it. */
  lemma {:induction false} LastStepEnds(cfg: Config, history: seq<Message>, env: Env, m: nat)
    requires LastStep(cfg, history, env, m)
    ensures var st := StateAt(cfg, history, env, m).value;
      var r := OneStep(cfg, RunTurn(cfg, history), st, m, env(m));
      && r.Stop? && Run(cfg, history, env) == RunResult(r.outcome, r.st)
      && (r.outcome.Done? <==> CompletesAt(cfg, history, env, m))
      && (r.outcome == UnusableArguments <==> GivesUpAt(cfg, history, env, m))
  {
    RunReaches(cfg, history, env, m);
    var st := StateAt(cfg, history, env, m).value;
    hide StateAt, StreakAt, RunTurn, GoesOn, Completes, GivesUp, OneStep, RunFrom, Run, StepBudget;
    StepEnds(cfg, RunTurn(cfg, history), st, m, env(m));
    RunFromStep(cfg, RunTurn(cfg, history), st, m, env);
  }

  /** Which runs complete and which are given up, decided step by step from what goes in. */
  lemma RunEnds(cfg: Config, history: seq<Message>, env: Env)
    ensures var outcome := Run(cfg, history, env).outcome;
      && (outcome.Done? <==> exists k: nat :: CompletesAt(cfg, history, env, k))
      && (outcome == UnusableArguments <==> exists k: nat :: GivesUpAt(cfg, history, env, k))
  {
    RunIs(cfg, history, env);
    hide *;
    var m := FindLastStep(cfg, history, env, 1);
    LastStepEnds(cfg, history, env, m);
    forall k: nat | CompletesAt(cfg, history, env, k) || GivesUpAt(cfg, history, env, k)
      ensures k == m
    {
      EndsAreLast(cfg, history, env, k);
      LastStepUnique(cfg, history, env, m, k);
    }
  }
}
