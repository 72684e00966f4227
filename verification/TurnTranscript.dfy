/**
 The settlements are the transcript. What the observer was told (settlements and the checkpoint record)
 together with the user's steering is exactly what the run added, and rebuilds every prompt the provider
 received.
 */
module TurnTranscript {
  import opened Wrappers
  import opened Chat
  import opened Compaction
  import opened TurnLoop
  import opened TurnLog
  import opened TurnPairing
  import opened TurnGrowth
  import opened TurnEnds

  /** Everything settled, and the steering claimed after each final answer. */
  function Covered(log: seq<Event>, env: Env): seq<Message> {
    if log == [] then []
    else
      var before := Covered(log[..|log| - 1], env);
      match log[|log| - 1]
      case Settled(_, _, ms) => before + ms
      case Ended(step, toolCalls, cancelled) =>
        if toolCalls == 0 && !cancelled then before + UserMessages(env(step).pending) else before
      case _ => before
  }

  lemma {:induction false} CoveredQuiet(log: seq<Event>, es: seq<Event>, env: Env)
    requires forall i :: 0 <= i < |es| ==> !es[i].Settled? && !es[i].Ended?
    ensures Covered(log + es, env) == Covered(log, env)
  {
    if es == [] {
      assert log + es == log;
    } else {
      var init, last := es[..|es| - 1], es[|es| - 1];
      assert log + es == (log + init) + [last];
      SnocParts(log + init, last);
      CoveredQuiet(log, init, env);
    }
  }

  function Claimed(env: Env, step: nat, toolCalls: nat, cancelled: bool): seq<Message> {
    if toolCalls == 0 && !cancelled then UserMessages(env(step).pending) else []
  }

  lemma {:induction false} CoveredSettled(log: seq<Event>, env: Env, e: Event)
    requires e.Settled?
    ensures Covered(log + [e], env) == Covered(log, env) + e.messages
  {
    SnocParts(log, e);
  }

  lemma {:induction false} CoveredEnded(log: seq<Event>, env: Env, e: Event)
    requires e.Ended?
    ensures Covered(log + [e], env) == Covered(log, env) + Claimed(env, e.step, e.toolCalls, e.cancelled)
  {
    SnocParts(log, e);
    assert Covered(log, env) + [] == Covered(log, env);
  }

  lemma {:induction false} CoveredClose(log: seq<Event>, env: Env, step: nat, delta: seq<Message>, interrupted: bool,
                     toolCalls: nat, cancelled: bool)
    ensures Covered(log + CloseEvents(step, delta, interrupted, toolCalls, cancelled), env)
      == Covered(log, env) + delta + Claimed(env, step, toolCalls, cancelled)
  {
    hide Covered, Claimed;
    var e := Ended(step, toolCalls, cancelled);
    if delta == [] {
      assert CloseEvents(step, delta, interrupted, toolCalls, cancelled) == [e];
      CoveredEnded(log, env, e);
      assert Covered(log, env) + delta == Covered(log, env);
    } else {
      var s := Settled(step, interrupted, delta);
      AppendLogs(log, [s], [e]);
      CoveredEnded(log + [s], env, e);
      CoveredSettled(log, env, s);
    }
  }

  // ---------------------------------------------------------------------
  // Lists that agree except where a note was added later
  // ---------------------------------------------------------------------

  function TextLen(m: Message): nat {
    |m.content.GetOr("")|
  }

  ghost predicate SameOrLonger(a: Message, b: Message) {
    b == a || (b == a.(content := b.content) && TextLen(b) > TextLen(a))
  }

  /** `b` is `a`, possibly with text added from `lo` on; `same` says whether any was. */
  ghost predicate Grown(a: seq<Message>, b: seq<Message>, lo: nat, same: bool) {
    && |a| == |b| && lo <= |a| && a[..lo] == b[..lo]
    && (forall i :: 0 <= i < |a| ==> SameOrLonger(a[i], b[i]))
    && (same <==> a == b)
  }

  lemma GrownAppend(a: seq<Message>, b: seq<Message>, lo: nat, same: bool, d: seq<Message>)
    requires Grown(a, b, lo, same)
    ensures Grown(a + d, b + d, lo, same)
  {
    assert (a + d)[..lo] == a[..lo] && (b + d)[..lo] == b[..lo];
    assert (a + d)[..|a|] == a && (b + d)[..|b|] == b;
  }

  lemma NoteLastParts(cfg: Config, ms: seq<Message>)
    requires ms != []
    ensures var n := |ms| - 1;
      && NoteLast(cfg, ms)[..n] == ms[..n]
      && NoteLast(cfg, ms)[n] == ms[n].(content := Some(ms[n].content.GetOr("") + cfg.cutAnswerNote))
      && TextLen(NoteLast(cfg, ms)[n]) == TextLen(ms[n]) + |cfg.cutAnswerNote|
  {
  }

  lemma LastDecides(a: seq<Message>, b: seq<Message>)
    requires |a| == |b| > 0
    requires a[..|a| - 1] == b[..|b| - 1]
    ensures a == b <==> a[|a| - 1] == b[|b| - 1]
  {
    assert a == a[..|a| - 1] + [a[|a| - 1]];
    assert b == b[..|b| - 1] + [b[|b| - 1]];
  }

  /** Writing the same note on both last messages keeps the relation. */
  lemma GrownNote(cfg: Config, a: seq<Message>, b: seq<Message>, lo: nat, same: bool)
    requires Grown(a, b, lo, same) && lo < |a|
    ensures Grown(NoteLast(cfg, a), NoteLast(cfg, b), lo, same)
  {
    var n := |a| - 1;
    var a', b' := NoteLast(cfg, a), NoteLast(cfg, b);
    NoteLastParts(cfg, a);
    NoteLastParts(cfg, b);
    hide NoteLast;
    assert a'[..lo] == a'[..n][..lo] && b'[..lo] == b'[..n][..lo];
    forall i | 0 <= i < |a|
      ensures SameOrLonger(a'[i], b'[i])
    {
      assert SameOrLonger(a[i], b[i]);
      if i < n {
        assert a'[i] == a'[..n][i] && b'[i] == b'[..n][i];
      }
    }
    assert a' == b' ==> a'[..n] == b'[..n];
    if a[..n] == b[..n] {
      LastDecides(a, b);
      LastDecides(a', b');
    }
  }

  /** Writing it on one side only makes them differ for good. */
  lemma GrownDisturb(cfg: Config, a: seq<Message>, b: seq<Message>, lo: nat, same: bool)
    requires Grown(a, b, lo, same) && lo < |a| && cfg.cutAnswerNote != ""
    ensures Grown(a, NoteLast(cfg, b), lo, false)
  {
    var n := |a| - 1;
    var b' := NoteLast(cfg, b);
    NoteLastParts(cfg, b);
    hide NoteLast;
    assert b'[..lo] == b'[..n][..lo];
    forall i | 0 <= i < |a|
      ensures SameOrLonger(a[i], b'[i])
    {
      assert SameOrLonger(a[i], b[i]);
      if i < n {
        assert b'[i] == b'[..n][i];
      }
    }
    assert SameOrLonger(a[n], b[n]) && TextLen(b'[n]) > TextLen(a[n]);
  }

  lemma HeadOfSplice(a: seq<Message>, lo: nat, head: seq<Message>, cut: nat)
    ensures cut <= lo <= |a| ==> (head + a[cut..])[..|head| + lo - cut] == head + a[..lo][cut..]
  {
  }

  lemma GrownSplice(a: seq<Message>, b: seq<Message>, lo: nat, same: bool, head: seq<Message>, cut: nat)
    requires Grown(a, b, lo, same) && cut <= lo
    ensures Grown(head + a[cut..], head + b[cut..], |head| + lo - cut, same)
  {
    var a', b' := head + a[cut..], head + b[cut..];
    var lo' := |head| + lo - cut;
    HeadOfSplice(a, lo, head, cut);
    HeadOfSplice(b, lo, head, cut);
    forall i | 0 <= i < |a'|
      ensures SameOrLonger(a'[i], b'[i])
    {
      if i >= |head| {
        assert a'[i] == a[cut + i - |head|] && b'[i] == b[cut + i - |head|];
      }
    }
    assert a == a[..lo][..cut] + a[cut..] && b == b[..lo][..cut] + b[cut..];
    assert a'[|head|..] == a[cut..] && b'[|head|..] == b[cut..];
  }

  // ---------------------------------------------------------------------
  // The claim
  // ---------------------------------------------------------------------

  /** A textless cut is harmless when the step has its own steering to write on. */
  predicate Undisturbed(inp: StepInput) {
    TextlessCut(inp) ==> inp.steering != []
  }

  ghost predicate AllUndisturbed(env: Env, lo: nat, hi: nat) {
    forall k: nat :: lo <= k < hi ==> Undisturbed(env(k))
  }

  lemma UndisturbedSnoc(env: Env, lo: nat, k: nat)
    requires lo <= k
    ensures AllUndisturbed(env, lo, k + 1) <==> AllUndisturbed(env, lo, k) && Undisturbed(env(k))
  {
    if AllUndisturbed(env, lo, k) && Undisturbed(env(k)) {
      forall j: nat | lo <= j < k + 1
        ensures Undisturbed(env(j))
      {
        if j < k {
          assert Undisturbed(env(j));
        }
      }
    }
  }

  ghost predicate RecordFits(base: seq<Message>, record: Option<Record>) {
    base != [] && (record.Some? ==> 1 <= record.value.shadowed && record.value.shadowed + 2 <= |base|)
  }

  /** The part of the prompt that precedes this run's own messages. */
  function Foundation(base: seq<Message>, record: Option<Record>): (f: seq<Message>)
    requires RecordFits(base, record)
    ensures f != []
  {
    match record
    case None => base
    case Some(r) => [base[0], UserMessage(r.summary)] + base[1 + r.shadowed..]
  }

  /** The prompt as the record, the settlements and the steering give it. */
  function Rebuilt(base: seq<Message>, record: Option<Record>, settled: seq<Message>, steering: seq<string>): seq<Message>
    requires RecordFits(base, record)
  {
    Foundation(base, record) + Normalize(settled) + UserMessages(steering)
  }

  ghost predicate RequestRebuilt(base: seq<Message>, env: Env, history: seq<Event>, step: nat, ms: seq<Message>) {
    && RecordFits(base, RecordIn(history))
    && (ms == Rebuilt(base, RecordIn(history), Covered(history, env), env(step).steering)
        <==> AllUndisturbed(env, 1, step))
  }

  ghost predicate LogRebuilt(base: seq<Message>, env: Env, log: seq<Event>) {
    forall i :: 0 <= i < |log| && log[i].Request? ==>
      RequestRebuilt(base, env, log[..i], log[i].step, log[i].messages)
  }

  lemma LogRebuiltQuiet(base: seq<Message>, env: Env, log: seq<Event>, es: seq<Event>)
    requires LogRebuilt(base, env, log)
    requires forall i :: 0 <= i < |es| ==> !es[i].Request?
    ensures LogRebuilt(base, env, log + es)
  {
    hide RequestRebuilt;
    forall i | 0 <= i < |log + es| && (log + es)[i].Request?
      ensures RequestRebuilt(base, env, (log + es)[..i], (log + es)[i].step, (log + es)[i].messages)
    {
      assert (log + es)[..i] == log[..i];
    }
  }

  lemma LogRebuiltRequest(base: seq<Message>, env: Env, log: seq<Event>, e: Event)
    requires LogRebuilt(base, env, log)
    requires e.Request? && RequestRebuilt(base, env, log, e.step, e.messages)
    ensures LogRebuilt(base, env, log + [e])
  {
    hide RequestRebuilt;
    forall i | 0 <= i < |log + [e]| && (log + [e])[i].Request?
      ensures RequestRebuilt(base, env, (log + [e])[..i], (log + [e])[i].step, (log + [e])[i].messages)
    {
      assert (log + [e])[..i] == log[..i];
      assert log[..|log|] == log;
    }
  }

  // ---------------------------------------------------------------------
  // The invariant between steps
  // ---------------------------------------------------------------------

  ghost predicate TranscriptInv(base: seq<Message>, env: Env, st: State, step: nat) {
    var settled := Covered(st.log, env);
    && Normal(base) && RecordFits(base, st.record) && RecordIn(st.log) == st.record
    && (st.record.Some? ==> st.attempted)
    && 1 <= step && (step == 1 <==> st.added == [])
    && Grown(settled, st.added, 0, AllUndisturbed(env, 2, step))
    && Grown(Foundation(base, st.record) + Normalize(settled), Normalize(st.messages),
         |Foundation(base, st.record)| - 1, AllUndisturbed(env, 1, step))
  }

  /** The same just before the request, with the step's steering in. */
  ghost predicate ReadyInv(base: seq<Message>, env: Env, st: State, step: nat) {
    var settled := Covered(st.log, env);
    var steering := UserMessages(env(step).steering);
    && RecordFits(base, st.record) && RecordIn(st.log) == st.record
    && (st.record.Some? ==> st.attempted)
    && 1 <= step && Normal(st.messages)
    && Grown(settled + steering, st.added, 0, AllUndisturbed(env, 2, step))
    && Grown(Rebuilt(base, st.record, settled, env(step).steering), st.messages,
         |Foundation(base, st.record)| - 1, AllUndisturbed(env, 1, step))
  }

  lemma BeginTranscript(base: seq<Message>, env: Env, st: State, step: nat)
    requires TranscriptInv(base, env, st, step)
    ensures var begun := Begin(st, step, env(step));
      var settled := Covered(st.log, env);
      && Normal(begun.messages)
      && Grown(settled + UserMessages(env(step).steering), begun.added, 0, AllUndisturbed(env, 2, step))
      && Grown(Rebuilt(base, st.record, settled, env(step).steering), begun.messages,
           |Foundation(base, st.record)| - 1, AllUndisturbed(env, 1, step))
  {
    hide Grown, AllUndisturbed, Covered, Normalize, Foundation, UserMessages, Normal;
    var steering := UserMessages(env(step).steering);
    var settled := Covered(st.log, env);
    UsersNormal(env(step).steering);
    NormalizeAppend(st.messages, steering);
    NormalizeNormal(st.messages + steering);
    GrownAppend(settled, st.added, 0, AllUndisturbed(env, 2, step), steering);
    GrownAppend(Foundation(base, st.record) + Normalize(settled), Normalize(st.messages),
      |Foundation(base, st.record)| - 1, AllUndisturbed(env, 1, step), steering);
  }

  lemma CutConcat(head: seq<Message>, base: seq<Message>, cut: nat, b: seq<Message>, c: seq<Message>)
    requires cut <= |base|
    ensures head + (base + b + c)[cut..] == head + base[cut..] + b + c
  {
    assert (base + b + c)[cut..] == base[cut..] + b + c;
  }

  lemma GrownLength(a: seq<Message>, b: seq<Message>, lo: nat, same: bool)
    ensures Grown(a, b, lo, same) ==> |a| == |b| && lo <= |a|
  {
  }

  lemma GrownHead(a: seq<Message>, b: seq<Message>, lo: nat, same: bool)
    requires Grown(a, b, lo, same) && 0 < lo
    ensures |b| > 0 && |a| > 0 && a[0] == b[0]
  {
    assert a[..lo][0] == b[..lo][0];
  }

  lemma SpliceRebuilt(base: seq<Message>, settled: seq<Message>, steering: seq<string>, ms: seq<Message>,
                      target: nat, newBefore: nat, r: Rewritten, same: bool)
    requires base != [] && target + 2 <= |base|
    requires Grown(Rebuilt(base, None, settled, steering), ms, |base| - 1, same)
    requires RecordTells(ms, target, newBefore, r) && r.record.Some?
    ensures RecordFits(base, r.record)
    ensures Grown(Rebuilt(base, r.record, settled, steering), r.messages, |Foundation(base, r.record)| - 1, same)
  {
    hide Normalize, Grown, UserMessages, TotalBytes;
    GrownLength(Rebuilt(base, None, settled, steering), ms, |base| - 1, same);
    GrownHead(Rebuilt(base, None, settled, steering), ms, |base| - 1, same);
    var a := Rebuilt(base, None, settled, steering);
    var cut := 1 + r.record.value.shadowed;
    var head := [base[0], UserMessage(r.record.value.summary)];
    var lo := |base| - 1;
    assert a[0] == base[0];
    GrownSplice(a, ms, lo, same, head, cut);
    assert head + ms[cut..] == r.messages;
    CutConcat(head, base, cut, Normalize(settled), UserMessages(steering));
  }

  lemma ReadyTranscript(cfg: Config, turnStart: nat, base: seq<Message>, env: Env, st: State, step: nat)
    requires TranscriptInv(base, env, st, step) && turnStart <= |base|
    ensures ReadyInv(base, env, Ready(cfg, turnStart, st, step, env(step)), step)
  {
    var inp := env(step);
    hide Grown, AllUndisturbed, Covered, Preparation, Ready, PrepareEvents, RecordIn, Rebuilt, Begin;
    BeginTranscript(base, env, st, step);
    ReadyMeaning(cfg, turnStart, st, step, inp);
    ReadyLog(cfg, turnStart, st, step, inp);
    var p := Preparation(cfg, turnStart, st, step, inp);
    PrepareReads(st.log, step, p);
    PrepareCovered(st.log, step, p, env);
    BeginKeeps(st, step, inp);
    var begun := Begin(st, step, inp);
    if Adopted(p) {
      SpliceRebuilt(base, Covered(st.log, env), inp.steering, begun.messages, p.target, |begun.added|, p.rewritten,
        AllUndisturbed(env, 1, step));
      RewrittenNormal(begun.messages, p.target, |begun.added|, p.rewritten);
    }
  }

  lemma BeginKeeps(st: State, step: nat, inp: StepInput)
    ensures var begun := Begin(st, step, inp);
      begun.record == st.record && begun.attempted == st.attempted
  {
  }

  lemma {:induction false} PrepareCovered(log: seq<Event>, step: nat, p: Prepared, env: Env)
    ensures Covered(log + PrepareEvents(step, p), env) == Covered(log, env)
  {
    hide Covered;
    CoveredQuiet(log, PrepareEvents(step, p), env);
  }

  // ---------------------------------------------------------------------
  // The answer
  // ---------------------------------------------------------------------

  /** What the answer finally adds, its cut note included. */
  function Delta(cfg: Config, p: Production): seq<Message> {
    if p.ending == Final(true) then NoteLast(cfg, p.messages) else p.messages
  }

  lemma NoteUsersNormal(cfg: Config, texts: seq<string>)
    ensures Normalize(NoteLast(cfg, UserMessages(texts))) == NoteLast(cfg, UserMessages(texts))
  {
    NoteNormal(cfg, UserMessages(texts));
    NormalFixed(NoteLast(cfg, UserMessages(texts)));
  }

  /** The state after the reply against the settled delta, not yet counting claimed steering. */
  ghost predicate RepliedInv(base: seq<Message>, env: Env, st: State, step: nat, settled: seq<Message>) {
    && RecordFits(base, st.record)
    && Grown(settled, st.added, 0, AllUndisturbed(env, 2, step + 1))
    && Grown(Foundation(base, st.record) + Normalize(settled), Normalize(st.messages),
         |Foundation(base, st.record)| - 1, AllUndisturbed(env, 1, step + 1))
  }

  lemma {:induction false} RebuiltAppend(base: seq<Message>, record: Option<Record>, settled: seq<Message>,
                                         steering: seq<string>, d: seq<Message>)
    requires RecordFits(base, record)
    ensures Foundation(base, record) + Normalize(settled + UserMessages(steering) + d)
      == Rebuilt(base, record, settled, steering) + Normalize(d)
  {
    hide Foundation, UserMessages, Normalize;
    var f, n, s, m := Foundation(base, record), Normalize(settled), UserMessages(steering), Normalize(d);
    UsersNormal(steering);
    NormalizeAppend(settled, s);
    NormalizeAppend(settled + s, d);
    assert f + ((n + s) + m) == ((f + n) + s) + m;
  }

  /** Appending the same messages to both sides of a prepared step. */
  lemma AppendsKeep(cfg: Config, base: seq<Message>, env: Env, st: State, step: nat, d: seq<Message>)
    requires ReadyInv(base, env, st, step) && Undisturbed(env(step))
    ensures RepliedInv(base, env, Push(st, d), step,
      Covered(st.log, env) + UserMessages(env(step).steering) + d)
  {
    hide Grown, AllUndisturbed, Covered, Normalize, Rebuilt, Foundation, Undisturbed;
    var inp := env(step);
    var settled := Covered(st.log, env);
    UndisturbedSnocs(env, step);
    NormalizeOfAppend(st.messages, d);
    RebuiltAppend(base, st.record, settled, inp.steering, d);
    GrownAppend(settled + UserMessages(inp.steering), st.added, 0, AllUndisturbed(env, 2, step), d);
    GrownAppend(Rebuilt(base, st.record, settled, inp.steering), st.messages,
      |Foundation(base, st.record)| - 1, AllUndisturbed(env, 1, step), Normalize(d));
  }

  /** Every case but a textless cut: the delta is appended to both lists. */
  lemma ReplyAppends(cfg: Config, base: seq<Message>, env: Env, st: State, step: nat)
    requires ReadyInv(base, env, st, step)
    requires !TextlessCut(env(step))
    ensures var p := Produce(cfg, env(step), st.unusable);
      var after := AfterReply(cfg, st, step, env(step));
      && after.added == st.added + Delta(cfg, p)
      && RepliedInv(base, env, after, step,
           Covered(st.log, env) + UserMessages(env(step).steering) + Delta(cfg, p))
  {
    hide Grown, AllUndisturbed, Covered, Produce, AfterReply, Normalize, Rebuilt, Foundation, ReadyInv, Delta, TextlessCut;
    var inp := env(step);
    var p := Produce(cfg, inp, st.unusable);
    AfterReplyLists(cfg, st, step, inp);
    AppendsKeep(cfg, base, env, st, step, Delta(cfg, p));
  }

  lemma {:induction false} NormalizeOfAppend(ms: seq<Message>, d: seq<Message>)
    requires Normal(ms)
    ensures Normalize(ms + d) == ms + Normalize(d)
  {
    NormalizeAppend(ms, d);
    NormalFixed(ms);
  }

  lemma AfterReplyLists(cfg: Config, st: State, step: nat, inp: StepInput)
    requires !TextlessCut(inp)
    ensures var p := Produce(cfg, inp, st.unusable);
      var after := AfterReply(cfg, st, step, inp);
      after.added == st.added + Delta(cfg, p) && after.messages == st.messages + Delta(cfg, p)
  {
    var p := Produce(cfg, inp, st.unusable);
    FinalMeaning(cfg, inp, st.unusable);
    hide Produce;
    if p.ending == Final(true) {
      NoteAppend(cfg, st.added, p.messages);
      NoteAppend(cfg, st.messages, p.messages);
    }
  }

  lemma UndisturbedSnocs(env: Env, step: nat)
    requires 1 <= step
    ensures AllUndisturbed(env, 1, step + 1) <==> AllUndisturbed(env, 1, step) && Undisturbed(env(step))
    ensures step >= 2 ==> (AllUndisturbed(env, 2, step + 1) <==> AllUndisturbed(env, 2, step) && Undisturbed(env(step)))
    ensures step == 1 ==> AllUndisturbed(env, 2, step) && AllUndisturbed(env, 2, step + 1)
  {
    UndisturbedSnoc(env, 1, step);
    if step >= 2 {
      UndisturbedSnoc(env, 2, step);
    }
  }

  lemma TextlessLists(cfg: Config, st: State, step: nat, inp: StepInput)
    requires TextlessCut(inp)
    ensures var after := AfterReply(cfg, st, step, inp);
      && after.added == NoteLast(cfg, st.added) && after.messages == NoteLast(cfg, st.messages)
      && Produce(cfg, inp, st.unusable).ending == Final(true)
  {
    FinalMeaning(cfg, inp, st.unusable);
    hide Produce;
    assert st.added + [] == st.added && st.messages + [] == st.messages;
  }

  /** A textless cut after steering: the note lands on the step's own last message. */
  lemma ReplyNotesSteering(cfg: Config, base: seq<Message>, env: Env, st: State, step: nat)
    requires ReadyInv(base, env, st, step)
    requires TextlessCut(env(step)) && env(step).steering != []
    ensures RepliedInv(base, env, AfterReply(cfg, st, step, env(step)), step,
      Covered(st.log, env) + NoteLast(cfg, UserMessages(env(step).steering)))
  {
    var inp := env(step);
    var settled := Covered(st.log, env);
    var steering := UserMessages(inp.steering);
    var noted := NoteLast(cfg, steering);
    var foundation := Foundation(base, st.record);
    TextlessLists(cfg, st, step, inp);
    UndisturbedSnocs(env, step);
    hide AllUndisturbed, Covered, AfterReply, NoteLast, Produce, Normalize, Grown, Foundation;
    NotedRebuilt(cfg, foundation, settled, inp.steering);
    assert foundation + Normalize(settled) + steering == Rebuilt(base, st.record, settled, inp.steering);
    GrownLength(settled + steering, st.added, 0, AllUndisturbed(env, 2, step));
    GrownNote(cfg, settled + steering, st.added, 0, AllUndisturbed(env, 2, step));
    NoteAppend(cfg, settled, steering);
    GrownNote(cfg, foundation + Normalize(settled) + steering, st.messages, |foundation| - 1,
      AllUndisturbed(env, 1, step));
    NoteNormal(cfg, st.messages);
    NormalFixed(NoteLast(cfg, st.messages));
  }

  lemma {:induction false} NotedRebuilt(cfg: Config, foundation: seq<Message>, settled: seq<Message>, steering: seq<string>)
    requires steering != []
    ensures NoteLast(cfg, foundation + Normalize(settled) + UserMessages(steering))
      == foundation + Normalize(settled + NoteLast(cfg, UserMessages(steering)))
  {
    var us := UserMessages(steering);
    hide NoteLast, Normalize;
    NoteAppend(cfg, foundation + Normalize(settled), us);
    NoteUsersNormal(cfg, steering);
    NormalizeAppend(settled, NoteLast(cfg, us));
    assert (foundation + Normalize(settled)) + NoteLast(cfg, us) == foundation + (Normalize(settled) + NoteLast(cfg, us));
  }

  /** A textless cut in a step without steering: the note lands on an older message. */
  lemma ReplyDisturbs(cfg: Config, base: seq<Message>, env: Env, st: State, step: nat)
    requires ReadyInv(base, env, st, step) && cfg.cutAnswerNote != ""
    requires TextlessCut(env(step)) && env(step).steering == []
    requires step == 1 <==> st.added == []
    ensures RepliedInv(base, env, AfterReply(cfg, st, step, env(step)), step, Covered(st.log, env))
  {
    var inp := env(step);
    var settled := Covered(st.log, env);
    var foundation := Foundation(base, st.record);
    TextlessLists(cfg, st, step, inp);
    UndisturbedSnocs(env, step);
    assert UserMessages(inp.steering) == [];
    assert settled + [] == settled;
    assert Rebuilt(base, st.record, settled, inp.steering) == foundation + Normalize(settled);
    hide AllUndisturbed, Covered, AfterReply, Produce;
    if step > 1 {
      GrownDisturb(cfg, settled, st.added, 0, AllUndisturbed(env, 2, step));
    }
    GrownDisturb(cfg, foundation + Normalize(settled), st.messages, |foundation| - 1, AllUndisturbed(env, 1, step));
    NoteNormal(cfg, st.messages);
    NormalFixed(NoteLast(cfg, st.messages));
  }

  /** The three cases together, with the slice the step is about to settle. */
  lemma ReplyTranscript(cfg: Config, base: seq<Message>, env: Env, st: State, step: nat, start: seq<Message>)
    requires ReadyInv(base, env, st, step) && cfg.cutAnswerNote != ""
    requires st.added == start + UserMessages(env(step).steering)
    requires step == 1 <==> start == []
    ensures var after := AfterReply(cfg, st, step, env(step));
      RepliedInv(base, env, after, step, Covered(st.log, env) + after.added[|start|..])
  {
    hide ReadyInv, RepliedInv, Covered, AfterReply, Produce, TextlessCut, NoteLast;
    var inp := env(step);
    var steering := UserMessages(inp.steering);
    var settled := Covered(st.log, env);
    var after := AfterReply(cfg, st, step, inp);
    if !TextlessCut(inp) {
      var d := Delta(cfg, Produce(cfg, inp, st.unusable));
      ReplyAppends(cfg, base, env, st, step);
      assert after.added == start + (steering + d);
      assert settled + (steering + d) == settled + steering + d;
    } else {
      TextlessLists(cfg, st, step, inp);
      if inp.steering != [] {
        ReplyNotesSteering(cfg, base, env, st, step);
        NoteAppend(cfg, start, steering);
      } else {
        ReplyDisturbs(cfg, base, env, st, step);
        assert st.added == start;
        assert after.added[|start|..] == [];
        assert settled + [] == settled;
      }
    }
  }

  lemma CallsEndings(cfg: Config, inp: StepInput, unusable: nat)
    ensures var p := Produce(cfg, inp, unusable);
      (p.ending.CallsCut? || p.ending.CallsRan? ==> p.messages != [] && ReplyCalls(inp) != [])
  {
    if inp.reply.Finished? && !inp.reply.truncated && inp.reply.answer.calls != [] {
      RunToolsAnswers(cfg, inp.reply.answer.calls, 0, inp, unusable);
    }
  }

  lemma {:induction false} ConcludeCovered(log: seq<Event>, env: Env, step: nat, delta: seq<Message>,
                                           inp: StepInput, ending: Ending)
    requires ending.CallsCut? || ending.CallsRan? || ending.Final?
    requires !ending.Final? ==> ReplyCalls(inp) != []
    requires inp == env(step)
    ensures Covered(log + ConcludeEvents(step, delta, inp, ending), env)
      == Covered(log, env) + delta + (if ending.Final? then UserMessages(inp.pending) else [])
  {
    hide Covered;
    if ending.Final? {
      CoveredClose(log, env, step, delta, false, 0, false);
    } else {
      CoveredClose(log, env, step, delta, false, |ReplyCalls(inp)|, false);
    }
  }

  /** Steering claimed after the answer extends both accounts alike. */
  lemma TrailingKeeps(base: seq<Message>, env: Env, st: State, step: nat, settled: seq<Message>, texts: seq<string>)
    requires RepliedInv(base, env, st, step, settled)
    ensures RepliedInv(base, env, Push(st, UserMessages(texts)), step, settled + UserMessages(texts))
  {
    hide Grown, AllUndisturbed, Foundation, Normalize;
    var us := UserMessages(texts);
    UsersNormal(texts);
    NormalizeAppend(settled, us);
    NormalizeAppend(st.messages, us);
    GrownAppend(settled, st.added, 0, AllUndisturbed(env, 2, step + 1), us);
    GrownAppend(Foundation(base, st.record) + Normalize(settled), Normalize(st.messages),
      |Foundation(base, st.record)| - 1, AllUndisturbed(env, 1, step + 1), us);
    assert Foundation(base, st.record) + Normalize(settled) + us == Foundation(base, st.record) + (Normalize(settled) + us);
  }

  /** What a completed run returns against what was settled on the way. */
  ghost predicate DoneCovered(env: Env, outcome: Outcome, log: seq<Event>) {
    outcome.Done? ==>
      && outcome.record == RecordIn(log)
      && (outcome.added == Covered(log, env) <==> AllUndisturbed(env, 2, outcome.steps + 1))
  }

  lemma AnswerCovered(cfg: Config, st: State, step: nat, from: nat, env: Env)
    requires from <= |st.added|
    requires var ending := Produce(cfg, env(step), st.unusable).ending;
      ending.CallsCut? || ending.CallsRan? || ending.Final?
    ensures var inp := env(step);
      var ending := Produce(cfg, inp, st.unusable).ending;
      var delta := AfterReply(cfg, st, step, inp).added[from..];
      Covered(st.log + [RequestEvent(cfg, st, step, inp)] + AnswerEvents(cfg, st, step, from, inp), env)
      == Covered(st.log, env) + delta + (if ending.Final? then UserMessages(inp.pending) else [])
  {
    hide Produce, AfterReply, Covered, ConcludeEvents;
    var inp := env(step);
    var p := Produce(cfg, inp, st.unusable);
    var delta := AfterReply(cfg, st, step, inp).added[from..];
    var e := RequestEvent(cfg, st, step, inp);
    var called := CalledEvents(step, ReplyCalls(inp), p.called);
    CallsEndings(cfg, inp, st.unusable);
    ConcludeCovered(st.log + [e] + called, env, step, delta, inp, p.ending);
    CoveredQuiet(st.log, [e] + called, env);
    AppendLogs(st.log, [e], called);
    AppendLogs(st.log + [e], called, ConcludeEvents(step, delta, inp, p.ending));
  }

  lemma ConverseTranscript(cfg: Config, base: seq<Message>, env: Env, st: State, step: nat, start: seq<Message>)
    requires ReadyInv(base, env, st, step) && cfg.cutAnswerNote != "" && Normal(base)
    requires st.added == start + UserMessages(env(step).steering)
    requires step == 1 <==> start == []
    requires LogRebuilt(base, env, st.log)
    ensures var r := Converse(cfg, st, step, |start|, env(step));
      && LogRebuilt(base, env, r.st.log)
      && (r.Continue? ==> TranscriptInv(base, env, r.st, step + 1))
      && (r.Stop? ==> DoneCovered(env, r.outcome, r.st.log))
  {
    var inp := env(step);
    var r := Converse(cfg, st, step, |start|, inp);
    if Sends(cfg, st, inp) {
      ConverseLogRebuilt(cfg, base, env, st, step, |start|);
      hide Converse, Produce, AfterReply, Covered, LogRebuilt, Conclude, RecordIn, Normal;
      var p := Produce(cfg, inp, st.unusable);
      ConverseLog(cfg, st, step, |start|, inp);
      ConcludeMeaning(cfg, AfterReply(cfg, st, step, inp), step, |start|, inp, p.ending);
      ReplyTranscript(cfg, base, env, st, step, start);
      if r.Continue? {
        ContinueTranscript(cfg, base, env, st, step, start);
      } else if r.outcome.Done? {
        AnswerCovered(cfg, st, step, |start|, env);
        hide Grown, Normalize, ReadyInv;
        DoneTranscript(cfg, base, env, st, step, start);
      }
    } else {
      BlockedLog(cfg, st, step, |start|, inp);
      LogRebuiltQuiet(base, env, st.log, CloseEvents(step, st.added[|start|..], true, 0, false));
    }
  }

  lemma ConverseLogRebuilt(cfg: Config, base: seq<Message>, env: Env, st: State, step: nat, from: nat)
    requires ReadyInv(base, env, st, step) && LogRebuilt(base, env, st.log)
    requires from <= |st.added| && Sends(cfg, st, env(step))
    ensures LogRebuilt(base, env, Converse(cfg, st, step, from, env(step)).st.log)
    ensures RecordIn(Converse(cfg, st, step, from, env(step)).st.log) == st.record
  {
    var inp := env(step);
    hide Converse, Produce, AfterReply, Covered, LogRebuilt, AnswerEvents;
    var e := RequestEvent(cfg, st, step, inp);
    var es := AnswerEvents(cfg, st, step, from, inp);
    ConverseLog(cfg, st, step, from, inp);
    LogRebuiltRequest(base, env, st.log, e);
    LogRebuiltQuiet(base, env, st.log + [e], es);
    RequestReads(st.log, e);
    QuietReads(st.log + [e], es);
  }

  lemma DoneTranscript(cfg: Config, base: seq<Message>, env: Env, st: State, step: nat, start: seq<Message>)
    requires |start| <= |st.added| && Sends(cfg, st, env(step))
    requires var after := AfterReply(cfg, st, step, env(step));
      RepliedInv(base, env, after, step, Covered(st.log, env) + after.added[|start|..])
    requires RecordIn(Converse(cfg, st, step, |start|, env(step)).st.log) == st.record
    ensures var r := Converse(cfg, st, step, |start|, env(step));
      r.Stop? && r.outcome.Done? ==> DoneCovered(env, r.outcome, r.st.log)
  {
    var inp := env(step);
    var r := Converse(cfg, st, step, |start|, inp);
    hide Converse, Produce, AfterReply, Covered, AnswerEvents, Conclude, AllUndisturbed, RecordIn;
    var p := Produce(cfg, inp, st.unusable);
    var after := AfterReply(cfg, st, step, inp);
    ConverseLog(cfg, st, step, |start|, inp);
    ConcludeMeaning(cfg, after, step, |start|, inp, p.ending);
    if r.Stop? && r.outcome.Done? {
      AnswerCovered(cfg, st, step, |start|, env);
      var settled := Covered(st.log, env) + after.added[|start|..];
      assert UserMessages(inp.pending) == [];
      assert settled + [] == settled;
    }
  }

  lemma ContinueTranscript(cfg: Config, base: seq<Message>, env: Env, st: State, step: nat, start: seq<Message>)
    requires |start| <= |st.added| && Sends(cfg, st, env(step)) && 1 <= step && Normal(base)
    requires st.record.Some? ==> st.attempted
    requires var after := AfterReply(cfg, st, step, env(step));
      RepliedInv(base, env, after, step, Covered(st.log, env) + after.added[|start|..])
    requires RecordIn(Converse(cfg, st, step, |start|, env(step)).st.log) == st.record
    requires Converse(cfg, st, step, |start|, env(step)).Continue?
    ensures TranscriptInv(base, env, Converse(cfg, st, step, |start|, env(step)).st, step + 1)
  {
    var inp := env(step);
    var r := Converse(cfg, st, step, |start|, inp);
    hide Converse, Produce, AfterReply, Covered, AnswerEvents, Conclude, AllUndisturbed, RecordIn, Grown, Foundation,
      Normalize, Normal, RequestEvent, ConcludeEvents, UserMessages, Sends;
    var p := Produce(cfg, inp, st.unusable);
    var after := AfterReply(cfg, st, step, inp);
    var settled := Covered(st.log, env) + after.added[|start|..];
    ConverseLog(cfg, st, step, |start|, inp);
    ConcludeMeaning(cfg, after, step, |start|, inp, p.ending);
    CallsEndings(cfg, inp, st.unusable);
    AnswerCovered(cfg, st, step, |start|, env);
    hide RepliedInv, TranscriptInv;
    var trailing := Trailing(cfg, step, inp, p.ending);
    if p.ending.Final? {
      TrailingKeeps(base, env, after, step, settled, inp.pending);
      RepliedLists(base, env, Push(after, trailing), r.st, step, settled + trailing);
    } else {
      assert settled + trailing == settled;
      assert after.added + trailing == after.added && after.messages + trailing == after.messages;
      RepliedLists(base, env, after, r.st, step, settled);
    }
    RepliedContinues(base, env, r.st, step);
  }

  lemma RepliedLists(base: seq<Message>, env: Env, a: State, b: State, step: nat, settled: seq<Message>)
    requires RepliedInv(base, env, a, step, settled)
    requires a.messages == b.messages && a.added == b.added && a.record == b.record
    ensures RepliedInv(base, env, b, step, settled)
  {
  }

  lemma RepliedContinues(base: seq<Message>, env: Env, st: State, step: nat)
    requires RepliedInv(base, env, st, step, Covered(st.log, env))
    requires Normal(base) && RecordIn(st.log) == st.record && (st.record.Some? ==> st.attempted)
    requires 1 <= step && st.added != []
    ensures TranscriptInv(base, env, st, step + 1)
  {
  }

  lemma StepTranscript(cfg: Config, turnStart: nat, base: seq<Message>, env: Env, st: State, step: nat)
    requires TranscriptInv(base, env, st, step) && turnStart <= |base| && cfg.cutAnswerNote != ""
    requires LogRebuilt(base, env, st.log)
    ensures var r := OneStep(cfg, turnStart, st, step, env(step));
      && LogRebuilt(base, env, r.st.log)
      && (r.Continue? ==> TranscriptInv(base, env, r.st, step + 1))
      && (r.Stop? ==> DoneCovered(env, r.outcome, r.st.log))
  {
    var inp := env(step);
    if !inp.cancelledAtStart {
      ReadyTranscript(cfg, turnStart, base, env, st, step);
      hide Ready, Converse, LogRebuilt, PrepareEvents, Preparation, Grown, Covered, DoneCovered, ReadyInv, Normal,
        RecordIn, Foundation, Normalize, AllUndisturbed, ReadyFrom;
      var p := Preparation(cfg, turnStart, st, step, inp);
      ReadyMeaning(cfg, turnStart, st, step, inp);
      ReadyLog(cfg, turnStart, st, step, inp);
      PrepareQuiet(step, p);
      LogRebuiltQuiet(base, env, st.log, PrepareEvents(step, p));
      ConverseTranscript(cfg, base, env, Ready(cfg, turnStart, st, step, inp), step, st.added);
    }
  }

  lemma {:induction false} RunBase(cfg: Config, history: seq<Message>, env: Env)
    ensures RunTurn(cfg, history) <= |BaseHistory(cfg, history)|
    ensures StateAt(cfg, history, env, 1).Some?
    ensures var st := StateAt(cfg, history, env, 1).value;
      TranscriptInv(BaseHistory(cfg, history), env, st, 1) && LogRebuilt(BaseHistory(cfg, history), env, st.log)
  {
    var base := BaseHistory(cfg, history);
    BaseHistoryNormal(cfg, history);
    NormalFixed(base);
    hide BaseHistory, Normalize;
    assert base + [] == base;
    assert Normalize([]) == [] by {
      NormalFixed([]);
    }
    TurnStartBound(base, |base|);
  }

  lemma {:induction false} ReachedTranscript(cfg: Config, history: seq<Message>, env: Env, k: nat)
    requires 1 <= k && StateAt(cfg, history, env, k).Some? && cfg.cutAnswerNote != ""
    ensures var base := BaseHistory(cfg, history);
      var st := StateAt(cfg, history, env, k).value;
      TranscriptInv(base, env, st, k) && LogRebuilt(base, env, st.log)
  {
    hide *;
    RunBase(cfg, history, env);
    if k > 1 {
      StateBefore(cfg, history, env, k);
      ReachedTranscript(cfg, history, env, k - 1);
      RunReaches(cfg, history, env, k - 1);
      StepOf(cfg, history, env, k - 1);
      var st, turn := StateAt(cfg, history, env, k - 1).value, RunTurn(cfg, history);
      StepEnds(cfg, turn, st, k - 1, env(k - 1));
      StepTranscript(cfg, turn, BaseHistory(cfg, history), env, st, k - 1);
    }
  }

  /**
   In every run: each prompt sent is the one the checkpoint record, the settlements
   so far and the step's steering rebuild, if and only if no step before it was a
   textless cut without steering of its own; and a completed run returns exactly
   what was settled plus the steering claimed after answers, if and only if none of
   its steps from the second to the last, that one included, was such a cut.
   */
  lemma RunTranscript(cfg: Config, history: seq<Message>, env: Env)
    requires cfg.cutAnswerNote != ""
    ensures var r := Run(cfg, history, env);
      LogRebuilt(BaseHistory(cfg, history), env, r.st.log) && DoneCovered(env, r.outcome, r.st.log)
  {
    hide *;
    RunBase(cfg, history, env);
    var m := FindLastStep(cfg, history, env, 1);
    LastStepIs(cfg, history, env, m);
    ReachedTranscript(cfg, history, env, m);
    StepTranscript(cfg, RunTurn(cfg, history), BaseHistory(cfg, history), env, StateAt(cfg, history, env, m).value, m);
    LastStepEnds(cfg, history, env, m);
  }

  lemma {:induction false} TurnStartBound(base: seq<Message>, k: nat)
    requires k <= |base|
    ensures LastUserIndex(base, |base|, k) <= |base|
  {
    if k > 0 {
      TurnStartBound(base, k - 1);
    }
  }

  // ---------------------------------------------------------------------
  // Runs that do not complete
  // ---------------------------------------------------------------------

  /** The log without the end of a step that was started. */
  function BeforeEnd(inp: StepInput, log: seq<Event>): seq<Event> {
    if inp.cancelledAtStart || log == [] then log else log[..|log| - 1]
  }

  lemma {:induction false} CoveredUnclosed(log: seq<Event>, env: Env, step: nat, delta: seq<Message>, interrupted: bool,
                                           toolCalls: nat, cancelled: bool)
    ensures var closed := log + CloseEvents(step, delta, interrupted, toolCalls, cancelled);
      closed != [] && Covered(closed[..|closed| - 1], env) == Covered(log, env) + delta
  {
    hide Covered;
    var e := Ended(step, toolCalls, cancelled);
    if delta == [] {
      assert log + CloseEvents(step, delta, interrupted, toolCalls, cancelled) == log + [e];
      SnocParts(log, e);
      assert Covered(log, env) + delta == Covered(log, env);
    } else {
      var s := Settled(step, interrupted, delta);
      assert log + CloseEvents(step, delta, interrupted, toolCalls, cancelled) == (log + [s]) + [e];
      SnocParts(log + [s], e);
      CoveredSettled(log, env, s);
    }
  }

  lemma {:induction false} ConcludeUnclosed(log: seq<Event>, env: Env, step: nat, delta: seq<Message>, inp: StepInput, ending: Ending)
    requires ending != GaveUp
    ensures var closed := log + ConcludeEvents(step, delta, inp, ending);
      closed != [] && Covered(closed[..|closed| - 1], env) == Covered(log, env) + delta
  {
    hide Covered, CloseEvents;
    var calls := |ReplyCalls(inp)|;
    match ending
    case NoAnswer(cancelled) => CoveredUnclosed(log, env, step, delta, true, 0, cancelled);
    case Interrupted => CoveredUnclosed(log, env, step, delta, true, calls, true);
    case CancelledBetween => CoveredUnclosed(log, env, step, delta, true, calls, true);
    case CallsCut => CoveredUnclosed(log, env, step, delta, false, calls, false);
    case CallsRan => CoveredUnclosed(log, env, step, delta, false, calls, false);
    case Final(_) => CoveredUnclosed(log, env, step, delta, false, 0, false);
  }

  lemma AnswerUnclosed(cfg: Config, st: State, step: nat, from: nat, env: Env)
    requires from <= |st.added| && Produce(cfg, env(step), st.unusable).ending != GaveUp
    ensures var inp := env(step);
      var log := st.log + [RequestEvent(cfg, st, step, inp)] + AnswerEvents(cfg, st, step, from, inp);
      && log != []
      && Covered(log[..|log| - 1], env) == Covered(st.log, env) + AfterReply(cfg, st, step, inp).added[from..]
  {
    hide Produce, AfterReply, Covered, ConcludeEvents, RequestEvent;
    var inp := env(step);
    var p := Produce(cfg, inp, st.unusable);
    var delta := AfterReply(cfg, st, step, inp).added[from..];
    var e := RequestEvent(cfg, st, step, inp);
    var called := CalledEvents(step, ReplyCalls(inp), p.called);
    RequestEventIs(cfg, st, step, inp);
    ConcludeUnclosed(st.log + [e] + called, env, step, delta, inp, p.ending);
    CoveredQuiet(st.log, [e] + called, env);
    AppendLogs(st.log, [e], called);
    AppendLogs(st.log + [e], called, ConcludeEvents(step, delta, inp, p.ending));
  }

  lemma GrownSame(a: seq<Message>, b: seq<Message>, lo: nat, same: bool)
    ensures Grown(a, b, lo, same) ==> (a == b <==> same)
  {
  }

  /** What the step leaves against what was settled up to it. */
  ghost predicate StepCovers(cfg: Config, env: Env, r: StepResult, step: nat, asked: bool) {
    r.st.added == Covered(BeforeEnd(env(step), r.st.log), env)
    <==> AllUndisturbed(env, 2, if asked then step + 1 else step)
  }

  lemma AskedCovers(cfg: Config, base: seq<Message>, env: Env, st: State, step: nat, start: seq<Message>)
    requires ReadyInv(base, env, st, step) && cfg.cutAnswerNote != "" && Sends(cfg, st, env(step))
    requires st.added == start + UserMessages(env(step).steering)
    requires (step == 1 <==> start == []) && !env(step).cancelledAtStart
    requires Produce(cfg, env(step), st.unusable).ending != GaveUp
    ensures var r := Converse(cfg, st, step, |start|, env(step));
      r.Stop? ==> StepCovers(cfg, env, r, step, true)
  {
    hide Converse, Produce, AfterReply, Covered, Conclude, ReadyInv, AllUndisturbed, Sends;
    var inp := env(step);
    var p := Produce(cfg, inp, st.unusable);
    var after := AfterReply(cfg, st, step, inp);
    ConverseLog(cfg, st, step, |start|, inp);
    ConcludeMeaning(cfg, after, step, |start|, inp, p.ending);
    ReplyTranscript(cfg, base, env, st, step, start);
    AnswerUnclosed(cfg, st, step, |start|, env);
    RepliedSame(base, env, after, step, Covered(st.log, env) + after.added[|start|..]);
  }

  lemma RepliedSame(base: seq<Message>, env: Env, st: State, step: nat, settled: seq<Message>)
    ensures RepliedInv(base, env, st, step, settled) ==> (settled == st.added <==> AllUndisturbed(env, 2, step + 1))
  {
    GrownSame(settled, st.added, 0, AllUndisturbed(env, 2, step + 1));
  }

  lemma BlockedAdded(cfg: Config, st: State, step: nat, from: nat, inp: StepInput)
    requires from <= |st.added| && !Sends(cfg, st, inp)
    ensures Converse(cfg, st, step, from, inp).st.added == st.added
  {
  }

  lemma BlockedCovers(cfg: Config, base: seq<Message>, env: Env, st: State, step: nat, start: seq<Message>)
    requires ReadyInv(base, env, st, step) && !Sends(cfg, st, env(step)) && !env(step).cancelledAtStart
    requires st.added == start + UserMessages(env(step).steering)
    ensures StepCovers(cfg, env, Converse(cfg, st, step, |start|, env(step)), step, false)
  {
    var inp := env(step);
    var steering := UserMessages(inp.steering);
    ReadySame(base, env, st, step);
    hide Converse, Covered, ReadyInv, AllUndisturbed, Sends, CloseEvents;
    BlockedLog(cfg, st, step, |start|, inp);
    BlockedAdded(cfg, st, step, |start|, inp);
    assert st.added[|start|..] == steering;
    CoveredUnclosed(st.log, env, step, steering, true, 0, false);
  }

  lemma ReadySame(base: seq<Message>, env: Env, st: State, step: nat)
    ensures ReadyInv(base, env, st, step) ==>
      (Covered(st.log, env) + UserMessages(env(step).steering) == st.added <==> AllUndisturbed(env, 2, step))
  {
    GrownSame(Covered(st.log, env) + UserMessages(env(step).steering), st.added, 0, AllUndisturbed(env, 2, step));
  }

  lemma TranscriptSame(base: seq<Message>, env: Env, st: State, step: nat)
    ensures TranscriptInv(base, env, st, step) ==>
      (Covered(st.log, env) == st.added <==> AllUndisturbed(env, 2, step)) && (step == 1 <==> st.added == [])
  {
    GrownSame(Covered(st.log, env), st.added, 0, AllUndisturbed(env, 2, step));
  }

  lemma StepCovered(cfg: Config, turnStart: nat, base: seq<Message>, env: Env, st: State, step: nat)
    requires TranscriptInv(base, env, st, step) && turnStart <= |base| && cfg.cutAnswerNote != ""
    ensures var r := OneStep(cfg, turnStart, st, step, env(step));
      r.Stop? && !GivesUp(cfg, turnStart, st, step, env(step), st.unusable) ==>
        StepCovers(cfg, env, r, step, Asks(cfg, turnStart, st, step, env(step)))
  {
    var inp := env(step);
    TranscriptSame(base, env, st, step);
    if !inp.cancelledAtStart {
      ReadyTranscript(cfg, turnStart, base, env, st, step);
      ReadyKeepsAdded(cfg, turnStart, st, step, inp);
      ReadyStreak(cfg, turnStart, st, step, inp);
      var ready := Ready(cfg, turnStart, st, step, inp);
      ReplyEnds(cfg, inp, ready.unusable);
      hide Ready, Converse, ReadyInv, TranscriptInv, Sends, Produce, Overruns, StepCovers, AllUndisturbed, Covered;
      if !Sends(cfg, ready, inp) {
        BlockedCovers(cfg, base, env, ready, step, st.added);
      } else if Produce(cfg, inp, ready.unusable).ending != GaveUp {
        AskedCovers(cfg, base, env, ready, step, st.added);
      }
    }
  }

  /**
   A run that is not given up leaves in its state what was settled plus the steering
   claimed after the answers of the steps before its last one, if and only if none
   of its steps from the second on that got an answer was a textless cut without
   steering of its own.
   */
  lemma {:induction false} UnfinishedTranscript(cfg: Config, history: seq<Message>, env: Env, m: nat)
    requires cfg.cutAnswerNote != "" && LastStep(cfg, history, env, m) && !GivesUpAt(cfg, history, env, m)
    ensures var st := Run(cfg, history, env).st;
      var asked := Asks(cfg, RunTurn(cfg, history), StateAt(cfg, history, env, m).value, m, env(m));
      st.added == Covered(BeforeEnd(env(m), st.log), env)
      <==> AllUndisturbed(env, 2, if asked then m + 1 else m)
  {
    RunBase(cfg, history, env);
    ReachedTranscript(cfg, history, env, m);
    RunReaches(cfg, history, env, m);
    LastStepEnds(cfg, history, env, m);
    hide StateAt, StreakAt, RunTurn, Run, OneStep, TranscriptInv, LogRebuilt, Covered, AllUndisturbed, Asks, GivesUp,
      BaseHistory, GoesOn, BeforeEnd, Completes, StepBudget;
    StepCovered(cfg, RunTurn(cfg, history), BaseHistory(cfg, history), env, StateAt(cfg, history, env, m).value, m);
  }
}
