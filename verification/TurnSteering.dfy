/**
 Steering claimed after a final answer: no settlement ever holds it, and the run leaves it exactly when a later
 step completes the run.
 */
module TurnSteering {
  import opened Wrappers
  import opened Chat
  import opened Compaction
  import opened TurnLoop
  import opened TurnLog
  import opened TurnEnds

  // ---------------------------------------------------------------------
  // Whose steering a settlement holds
  // ---------------------------------------------------------------------

  /** The user's message, with the cut note behind it at most. */
  predicate Steered(cfg: Config, m: Message, text: string) {
    m == UserMessage(text) || m == UserMessage(text + cfg.cutAnswerNote)
  }

  /** The user messages of the list are the steering the step began with, in front of everything else. */
  ghost predicate OwnUsers(cfg: Config, inp: StepInput, ms: seq<Message>) {
    && |inp.steering| <= |ms|
    && (forall i :: 0 <= i < |inp.steering| ==> Steered(cfg, ms[i], inp.steering[i]))
    && (forall i :: |inp.steering| <= i < |ms| ==> ms[i].role != User)
  }

  ghost predicate NoUsers(ms: seq<Message>) {
    forall i :: 0 <= i < |ms| ==> ms[i].role != User
  }

  lemma {:induction false} BatchNoUsers(calls: seq<ToolCall>, i: nat, end: nat, inp: StepInput, unusable: nat)
    requires i <= end <= |calls|
    ensures NoUsers(RunBatch(calls, i, end, inp, unusable).messages)
    decreases end - i
  {
    if i < end && NextUnusable(unusable, inp.results(i)) <= MAX_UNUSABLE_ARGUMENTS {
      BatchNoUsers(calls, i + 1, end, inp, NextUnusable(unusable, inp.results(i)));
    }
  }

  lemma {:induction false} ToolsNoUsers(cfg: Config, calls: seq<ToolCall>, i: nat, inp: StepInput, unusable: nat)
    requires i <= |calls|
    ensures NoUsers(RunTools(cfg, calls, i, inp, unusable).messages)
    decreases |calls| - i
  {
    if i < |calls| && !inp.cancelledBefore(i) {
      var end := BatchEnd(cfg, calls, i);
      BatchNoUsers(calls, i, end, inp, unusable);
      var batch := RunBatch(calls, i, end, inp, unusable);
      hide RunBatch, BatchEnd;
      if batch.ending != GaveUp {
        ToolsNoUsers(cfg, calls, end, inp, batch.unusable);
      }
    }
  }

  lemma ProduceNoUsers(cfg: Config, inp: StepInput, unusable: nat)
    ensures NoUsers(Produce(cfg, inp, unusable).messages)
  {
    if inp.reply.Finished? && !inp.reply.truncated && inp.reply.answer.calls != [] {
      ToolsNoUsers(cfg, inp.reply.answer.calls, 0, inp, unusable);
    }
    hide RunTools;
  }

  lemma OwnPlain(cfg: Config, inp: StepInput, produced: seq<Message>)
    requires NoUsers(produced)
    ensures OwnUsers(cfg, inp, UserMessages(inp.steering) + produced)
  {
    var ms := UserMessages(inp.steering) + produced;
    forall i | |inp.steering| <= i < |ms|
      ensures ms[i].role != User
    {
      assert ms[i] == produced[i - |inp.steering|];
    }
  }

  lemma OwnNoted(cfg: Config, inp: StepInput, produced: seq<Message>)
    requires NoUsers(produced)
    ensures OwnUsers(cfg, inp, NoteLast(cfg, UserMessages(inp.steering) + produced))
  {
    OwnPlain(cfg, inp, produced);
    var ms := UserMessages(inp.steering) + produced;
    if produced == [] && inp.steering != [] {
      assert ms[|ms| - 1] == UserMessage(inp.steering[|ms| - 1]);
    }
  }

  /** What a step adds before it is closed. */
  lemma StepAdds(cfg: Config, st: State, step: nat, inp: StepInput, start: seq<Message>)
    requires st.added == start + UserMessages(inp.steering)
    ensures var p := Produce(cfg, inp, st.unusable);
      var own := UserMessages(inp.steering) + p.messages;
      AfterReply(cfg, st, step, inp).added
        == if p.ending == Final(true) then NoteLast(cfg, start + own) else start + own
  {
    hide Produce;
    var p := Produce(cfg, inp, st.unusable);
    assert st.added + p.messages == start + (UserMessages(inp.steering) + p.messages);
  }

  lemma SliceOwn(cfg: Config, st: State, step: nat, inp: StepInput, start: seq<Message>)
    requires st.added == start + UserMessages(inp.steering)
    ensures OwnUsers(cfg, inp, AfterReply(cfg, st, step, inp).added[|start|..])
  {
    StepAdds(cfg, st, step, inp, start);
    ProduceNoUsers(cfg, inp, st.unusable);
    hide Produce, AfterReply, NoteLast, OwnUsers, NoUsers;
    var p := Produce(cfg, inp, st.unusable);
    var own := UserMessages(inp.steering) + p.messages;
    OwnPlain(cfg, inp, p.messages);
    OwnNoted(cfg, inp, p.messages);
    assert (start + own)[|start|..] == own;
    if own != [] {
      NoteAppend(cfg, start, own);
      assert (start + NoteLast(cfg, own))[|start|..] == NoteLast(cfg, own);
    } else {
      assert start + own == start;
      NoteLength(cfg, start);
    }
  }

  lemma NoteLength(cfg: Config, ms: seq<Message>)
    ensures NoteLast(cfg, ms)[|ms|..] == []
  {
  }

  ghost predicate SettledOwn(cfg: Config, env: Env, log: seq<Event>) {
    forall i :: 0 <= i < |log| && log[i].Settled? ==> OwnUsers(cfg, env(log[i].step), log[i].messages)
  }

  lemma SettledOwnAppend(cfg: Config, env: Env, log: seq<Event>, es: seq<Event>)
    requires SettledOwn(cfg, env, log) && SettledOwn(cfg, env, es)
    ensures SettledOwn(cfg, env, log + es)
  {
    hide OwnUsers;
  }

  lemma PrepareOwn(cfg: Config, env: Env, step: nat, p: Prepared)
    ensures SettledOwn(cfg, env, PrepareEvents(step, p))
  {
    hide OwnUsers;
  }

  lemma CloseOwn(cfg: Config, env: Env, step: nat, delta: seq<Message>, interrupted: bool, toolCalls: nat, cancelled: bool)
    requires OwnUsers(cfg, env(step), delta)
    ensures SettledOwn(cfg, env, CloseEvents(step, delta, interrupted, toolCalls, cancelled))
  {
    hide OwnUsers;
  }

  lemma ConcludeOwn(cfg: Config, env: Env, step: nat, delta: seq<Message>, ending: Ending)
    requires OwnUsers(cfg, env(step), delta)
    ensures SettledOwn(cfg, env, ConcludeEvents(step, delta, env(step), ending))
  {
    hide OwnUsers;
  }

  lemma AnswerOwn(cfg: Config, env: Env, st: State, step: nat, start: seq<Message>)
    requires st.added == start + UserMessages(env(step).steering)
    ensures SettledOwn(cfg, env, [RequestEvent(cfg, st, step, env(step))])
    ensures SettledOwn(cfg, env, AnswerEvents(cfg, st, step, |start|, env(step)))
  {
    hide OwnUsers, Produce, AfterReply, ConcludeEvents;
    var inp := env(step);
    var p := Produce(cfg, inp, st.unusable);
    SliceOwn(cfg, st, step, inp, start);
    ConcludeOwn(cfg, env, step, AfterReply(cfg, st, step, inp).added[|start|..], p.ending);
    SettledOwnAppend(cfg, env, CalledEvents(step, ReplyCalls(inp), p.called),
      ConcludeEvents(step, AfterReply(cfg, st, step, inp).added[|start|..], inp, p.ending));
  }

  lemma StepOwn(cfg: Config, turnStart: nat, st: State, step: nat, env: Env)
    requires SettledOwn(cfg, env, st.log)
    ensures SettledOwn(cfg, env, OneStep(cfg, turnStart, st, step, env(step)).st.log)
  {
    var inp := env(step);
    if !inp.cancelledAtStart {
      var ready := Ready(cfg, turnStart, st, step, inp);
      var prepared := PrepareEvents(step, Preparation(cfg, turnStart, st, step, inp));
      var e := RequestEvent(cfg, ready, step, inp);
      ReadyKeepsAdded(cfg, turnStart, st, step, inp);
      ReadyLog(cfg, turnStart, st, step, inp);
      PrepareOwn(cfg, env, step, Preparation(cfg, turnStart, st, step, inp));
      SettledOwnAppend(cfg, env, st.log, prepared);
      hide Ready, Converse, SettledOwn, OwnUsers, PrepareEvents, Preparation, Sends, CloseEvents, AnswerEvents;
      if Sends(cfg, ready, inp) {
        ConverseLog(cfg, ready, step, |st.added|, inp);
        AnswerOwn(cfg, env, ready, step, st.added);
        SettledOwnAppend(cfg, env, ready.log, [e]);
        SettledOwnAppend(cfg, env, ready.log + [e], AnswerEvents(cfg, ready, step, |st.added|, inp));
      } else {
        BlockedLog(cfg, ready, step, |st.added|, inp);
        BlockedOwn(cfg, inp, st.added, ready.added);
        CloseOwn(cfg, env, step, ready.added[|st.added|..], true, 0, false);
        SettledOwnAppend(cfg, env, ready.log, CloseEvents(step, ready.added[|st.added|..], true, 0, false));
      }
    }
  }

  lemma BlockedOwn(cfg: Config, inp: StepInput, start: seq<Message>, added: seq<Message>)
    requires added == start + UserMessages(inp.steering)
    ensures OwnUsers(cfg, inp, added[|start|..])
  {
    assert added[|start|..] == UserMessages(inp.steering);
    OwnPlain(cfg, inp, []);
    assert UserMessages(inp.steering) + [] == UserMessages(inp.steering);
  }

  lemma {:induction false} ReachedOwn(cfg: Config, history: seq<Message>, env: Env, k: nat)
    requires 1 <= k && StateAt(cfg, history, env, k).Some?
    ensures SettledOwn(cfg, env, StateAt(cfg, history, env, k).value.log)
  {
    hide *;
    if k == 1 {
      NothingSettled(cfg, history, env);
    } else {
      StateBefore(cfg, history, env, k);
      ReachedOwn(cfg, history, env, k - 1);
      StepOf(cfg, history, env, k - 1);
      StepOwn(cfg, RunTurn(cfg, history), StateAt(cfg, history, env, k - 1).value, k - 1, env);
    }
  }

  lemma {:induction false} NothingSettled(cfg: Config, history: seq<Message>, env: Env)
    ensures StateAt(cfg, history, env, 1).Some?
    ensures SettledOwn(cfg, env, StateAt(cfg, history, env, 1).value.log)
  {
    hide BaseHistory, OwnUsers;
  }

  /** In any run the user messages of a settlement are its own step's: none was claimed after an answer. */
  lemma RunSettlesOwn(cfg: Config, history: seq<Message>, env: Env)
    ensures SettledOwn(cfg, env, Run(cfg, history, env).st.log)
  {
    hide *;
    NothingSettled(cfg, history, env);
    var m := FindLastStep(cfg, history, env, 1);
    LastStepIs(cfg, history, env, m);
    ReachedOwn(cfg, history, env, m);
    StepOwn(cfg, RunTurn(cfg, history), StateAt(cfg, history, env, m).value, m, env);
    LastStepEnds(cfg, history, env, m);
  }

  // ---------------------------------------------------------------------
  // What the run leaves
  // ---------------------------------------------------------------------

  /** A run that completes leaves what it added; every other one leaves no messages. */
  function Left(outcome: Outcome): seq<Message> {
    if outcome.Done? then outcome.added else []
  }

  /** These texts stand at position n, with a cut note behind one of them at most written later. */
  ghost predicate Holds(cfg: Config, ms: seq<Message>, n: nat, texts: seq<string>) {
    n + |texts| <= |ms| && forall i :: 0 <= i < |texts| ==> Steered(cfg, ms[n + i], texts[i])
  }

  /** And nothing that is still last has a note yet. */
  ghost predicate HoldsFresh(cfg: Config, ms: seq<Message>, n: nat, texts: seq<string>) {
    && texts != [] && Holds(cfg, ms, n, texts)
    && (|ms| == n + |texts| ==> ms[|ms| - 1] == UserMessage(texts[|texts| - 1]))
  }

  lemma HoldsAppend(cfg: Config, ms: seq<Message>, n: nat, texts: seq<string>, more: seq<Message>)
    requires Holds(cfg, ms, n, texts)
    ensures Holds(cfg, ms + more, n, texts)
    ensures texts != [] && (more != [] || HoldsFresh(cfg, ms, n, texts)) ==> HoldsFresh(cfg, ms + more, n, texts)
  {
    hide Steered;
    assert more == [] ==> ms + more == ms;
    forall i | 0 <= i < |texts|
      ensures Steered(cfg, (ms + more)[n + i], texts[i])
    {
      assert (ms + more)[n + i] == ms[n + i];
    }
  }

  lemma HoldsNoted(cfg: Config, ms: seq<Message>, n: nat, texts: seq<string>)
    requires HoldsFresh(cfg, ms, n, texts)
    ensures Holds(cfg, NoteLast(cfg, ms), n, texts)
  {
    var noted := NoteLast(cfg, ms);
    forall i | 0 <= i < |texts|
      ensures Steered(cfg, noted[n + i], texts[i])
    {
      assert Steered(cfg, ms[n + i], texts[i]);
      assert n + i < |ms| - 1 ==> noted[n + i] == ms[n + i];
    }
  }

  lemma HoldsPlaced(cfg: Config, ms: seq<Message>, texts: seq<string>)
    requires texts != []
    ensures HoldsFresh(cfg, ms + UserMessages(texts), |ms|, texts)
  {
  }

  /** A step that asks keeps them, whatever its answer. */
  lemma ReplyHolds(cfg: Config, st: State, step: nat, inp: StepInput, n: nat, texts: seq<string>)
    requires HoldsFresh(cfg, st.added, n, texts)
    ensures var after := AfterReply(cfg, st, step, inp).added;
      && Holds(cfg, after, n, texts)
      && (!Produce(cfg, inp, st.unusable).ending.Final? ==> HoldsFresh(cfg, after, n, texts))
  {
    var p := Produce(cfg, inp, st.unusable);
    hide Produce, Holds, HoldsFresh, NoteLast;
    FreshHolds(cfg, st.added, n, texts);
    HoldsAppend(cfg, st.added, n, texts, p.messages);
    if p.ending == Final(true) {
      HoldsNoted(cfg, st.added + p.messages, n, texts);
    }
  }

  lemma FreshHolds(cfg: Config, ms: seq<Message>, n: nat, texts: seq<string>)
    requires HoldsFresh(cfg, ms, n, texts)
    ensures Holds(cfg, ms, n, texts) && texts != []
  {
  }

  lemma StepHolds(cfg: Config, turnStart: nat, st: State, step: nat, inp: StepInput, n: nat, texts: seq<string>)
    requires HoldsFresh(cfg, st.added, n, texts)
    ensures var r := OneStep(cfg, turnStart, st, step, inp);
      && (r.Continue? ==> HoldsFresh(cfg, r.st.added, n, texts))
      && (r.Stop? && r.outcome.Done? ==> Holds(cfg, r.outcome.added, n, texts))
  {
    if !inp.cancelledAtStart {
      ReadyKeepsAdded(cfg, turnStart, st, step, inp);
      hide Ready, Converse, Holds, HoldsFresh, Sends, Produce, AfterReply, Conclude, UserMessages;
      var ready := Ready(cfg, turnStart, st, step, inp);
      FreshHolds(cfg, st.added, n, texts);
      HoldsAppend(cfg, st.added, n, texts, UserMessages(inp.steering));
      if Sends(cfg, ready, inp) {
        var p := Produce(cfg, inp, ready.unusable);
        var after := AfterReply(cfg, ready, step, inp);
        ConverseLog(cfg, ready, step, |st.added|, inp);
        ConcludeMeaning(cfg, after, step, |st.added|, inp, p.ending);
        ReplyHolds(cfg, ready, step, inp, n, texts);
        HoldsAppend(cfg, after.added, n, texts, Trailing(cfg, step, inp, p.ending));
        TrailingSome(cfg, step, inp, p.ending);
      } else {
        BlockedLog(cfg, ready, step, |st.added|, inp);
      }
    }
  }

  lemma TrailingSome(cfg: Config, step: nat, inp: StepInput, ending: Ending)
    ensures ending.Final? && inp.pending != [] && step != StepBudget(cfg) ==> Trailing(cfg, step, inp, ending) != []
  {
    assert |UserMessages(inp.pending)| == |inp.pending|;
  }

  /** Step k is reached, gets its final answer, and finds steering pending. */
  ghost predicate ClaimsLate(cfg: Config, history: seq<Message>, env: Env, k: nat) {
    && 1 <= k && StateAt(cfg, history, env, k).Some?
    && Asks(cfg, RunTurn(cfg, history), StateAt(cfg, history, env, k).value, k, env(k))
    && FinalAnswer(env(k)) && env(k).pending != []
  }

  /** How many messages the run has added when step k has its answer. */
  ghost function AddedBy(cfg: Config, history: seq<Message>, env: Env, k: nat): nat
    requires 1 <= k && StateAt(cfg, history, env, k).Some?
  {
    var st := StateAt(cfg, history, env, k).value;
    |AfterReply(cfg, Ready(cfg, RunTurn(cfg, history), st, k, env(k)), k, env(k)).added|
  }

  lemma {:induction false} ClaimedNext(cfg: Config, history: seq<Message>, env: Env, k: nat)
    requires ClaimsLate(cfg, history, env, k) && StateAt(cfg, history, env, k + 1).Some?
    ensures HoldsFresh(cfg, StateAt(cfg, history, env, k + 1).value.added, AddedBy(cfg, history, env, k), env(k).pending)
  {
    var st := StateAt(cfg, history, env, k).value;
    var inp, turn := env(k), RunTurn(cfg, history);
    var ready := Ready(cfg, turn, st, k, inp);
    StepOf(cfg, history, env, k);
    hide StateAt, RunTurn, Ready, Converse, Sends, Produce, AfterReply, HoldsFresh, StepBudget;
    NextNotSpent(cfg, turn, st, k, inp, StreakAt(cfg, env, k));
    ReadyKeepsAdded(cfg, turn, st, k, inp);
    ReplyEnds(cfg, inp, ready.unusable);
    PendingKept(cfg, ready, k, |st.added|, inp);
    HoldsPlaced(cfg, AfterReply(cfg, ready, k, inp).added, inp.pending);
  }

  lemma NextNotSpent(cfg: Config, turnStart: nat, st: State, step: nat, inp: StepInput, before: nat)
    ensures GoesOn(cfg, turnStart, st, step, inp, before) ==> step != StepBudget(cfg)
  {
  }

  lemma {:induction false} ClaimedStays(cfg: Config, history: seq<Message>, env: Env, k: nat, m: nat)
    requires ClaimsLate(cfg, history, env, k) && k < m && StateAt(cfg, history, env, m).Some?
    ensures HoldsFresh(cfg, StateAt(cfg, history, env, m).value.added, AddedBy(cfg, history, env, k), env(k).pending)
  {
    hide *;
    ClaimsReached(cfg, history, env, k);
    if m == k + 1 {
      ClaimedNext(cfg, history, env, k);
    } else {
      StateBefore(cfg, history, env, m);
      ClaimedStays(cfg, history, env, k, m - 1);
      RunReaches(cfg, history, env, m - 1);
      StepOf(cfg, history, env, m - 1);
      var st := StateAt(cfg, history, env, m - 1).value;
      StepEnds(cfg, RunTurn(cfg, history), st, m - 1, env(m - 1));
      StepHolds(cfg, RunTurn(cfg, history), st, m - 1, env(m - 1), AddedBy(cfg, history, env, k), env(k).pending);
    }
  }

  lemma {:induction false} ClaimsReached(cfg: Config, history: seq<Message>, env: Env, k: nat)
    ensures ClaimsLate(cfg, history, env, k) ==>
      1 <= k && StateAt(cfg, history, env, k).Some? && !CompletesAt(cfg, history, env, k)
  {
    hide StateAt, Asks, RunTurn;
  }

  /**
   Steering claimed after a final answer is in what the run leaves if and only if
   a later step completes the run: every step in between goes on, and that one is
   not cancelled, sends its request and gets a final answer with nothing pending.
   */
  lemma LateSteering(cfg: Config, history: seq<Message>, env: Env, k: nat)
    requires ClaimsLate(cfg, history, env, k)
    ensures Holds(cfg, Left(Run(cfg, history, env).outcome), AddedBy(cfg, history, env, k), env(k).pending)
      <==> exists m: nat :: k < m && CompletesAt(cfg, history, env, m)
  {
    hide *;
    RunEnds(cfg, history, env);
    ClaimsReached(cfg, history, env, k);
    var outcome := Run(cfg, history, env).outcome;
    var n := AddedBy(cfg, history, env, k);
    NothingLeft(cfg, outcome, n, env(k).pending);
    LateHasText(cfg, history, env, k);
    if m: nat :| CompletesAt(cfg, history, env, m) {
      EndsAreLast(cfg, history, env, m);
      LastStepIs(cfg, history, env, m);
      LastStepEnds(cfg, history, env, m);
      if m < k {
        NoneAfterLast(cfg, history, env, m, k);
      } else if k < m {
        var st := StateAt(cfg, history, env, m).value;
        ClaimedStays(cfg, history, env, k, m);
        StepHolds(cfg, RunTurn(cfg, history), st, m, env(m), n, env(k).pending);
        LeftIs(outcome);
      }
    }
  }

  lemma NothingLeft(cfg: Config, outcome: Outcome, n: nat, texts: seq<string>)
    ensures !outcome.Done? && texts != [] ==> !Holds(cfg, Left(outcome), n, texts)
  {
  }

  lemma LeftIs(outcome: Outcome)
    ensures outcome.Done? ==> Left(outcome) == outcome.added
  {
  }

  lemma LateHasText(cfg: Config, history: seq<Message>, env: Env, k: nat)
    ensures ClaimsLate(cfg, history, env, k) ==> env(k).pending != []
  {
  }
}
