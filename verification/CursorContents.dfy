/**
 What a poll emits and counts, told trigger by trigger from the three feeds it reads.
 */
module CursorContents {
  import opened Wrappers
  import opened Cursor

  function TriggerIds(ts: seq<Trigger>): (ids: seq<string>)
    ensures |ids| == |ts|
  {
    seq(|ts|, i requires 0 <= i < |ts| => ts[i].id)
  }

  /** What is remembered once these ids were emitted as well: the last 2048. */
  function Memory(p: Position, ids: seq<string>): seq<string> {
    if ids == [] then p.emitted
    else
      var all := p.emitted + ids;
      if |all| <= 2048 then all else all[|all| - 2048..]
  }

  /** The first k of the places lie before i, the others do not. */
  predicate Ahead(at: seq<nat>, i: nat, k: nat) {
    k <= |at| && (k > 0 ==> at[k - 1] < i) && (k < |at| ==> i <= at[k])
  }

  /** The trigger at i is emitted when k were before it: it is not the bot's own, and its id is not remembered. */
  ghost predicate Admitted(own: OwnBot, p: Position, ts: seq<Trigger>, emitted: seq<Trigger>, i: nat, k: nat)
    requires i < |ts| && k <= |emitted|
  {
    !own(ts[i].actor) && ts[i].id !in Memory(p, TriggerIds(emitted[..k]))
  }

  /** The greatest of the watermark and the emitted times. */
  ghost predicate Latest(p: Position, emitted: seq<Trigger>, w: int) {
    && p.watermark <= w && (forall i :: 0 <= i < |emitted| ==> emitted[i].at <= w)
    && (w == p.watermark || exists i :: 0 <= i < |emitted| && emitted[i].at == w)
  }

  /** Which triggers are emitted, `at` their places, and how many are dropped for which reason. */
  ghost predicate Emits(own: OwnBot, p: Position, ts: seq<Trigger>, o: Outcome, at: seq<nat>) {
    && |at| == |o.triggers|
    && (forall j, k :: 0 <= j < k < |at| ==> at[j] < at[k])
    && (forall j :: 0 <= j < |at| ==> at[j] < |ts| && o.triggers[j] == ts[at[j]])
    && (forall i: nat, k: nat :: i < |ts| && Ahead(at, i, k) ==> (i in at <==> Admitted(own, p, ts, o.triggers, i, k)))
    && o.ownBot == |OwnAt(own, ts)|
    && o.duplicate == |ts| - |at| - o.ownBot
    && o.position.emitted == Memory(p, TriggerIds(o.triggers))
    && Latest(p, o.triggers, o.position.watermark)
  }

  /** The places of the bot's own triggers. */
  function OwnAt(own: OwnBot, ts: seq<Trigger>): set<nat> {
    set i: nat | i < |ts| && own(ts[i].actor)
  }

  lemma {:induction false} OwnSnoc(own: OwnBot, ts: seq<Trigger>, t: Trigger)
    ensures |OwnAt(own, ts + [t])| == |OwnAt(own, ts)| + if own(t.actor) then 1 else 0
  {
    var all := ts + [t];
    assert forall i: nat :: i < |ts| ==> all[i] == ts[i];
    assert all[|ts|] == t;
    assert OwnAt(own, all) == OwnAt(own, ts) + if own(t.actor) then {|ts|} else {};
  }

  lemma {:induction false} IdsSnocIs(ts: seq<Trigger>, t: Trigger)
    ensures TriggerIds(ts + [t]) == TriggerIds(ts) + [t.id]
  {
  }

  lemma {:induction false} MemorySnoc(p: Position, ids: seq<string>, id: string)
    ensures LastOf(Memory(p, ids) + [id], 2048) == Memory(p, ids + [id])
  {
    var all := p.emitted + ids;
    assert p.emitted + (ids + [id]) == all + [id];
    if ids == [] {
      assert p.emitted + [id] == all + [id];
    }
  }

  lemma {:induction false} LatestSnoc(p: Position, emitted: seq<Trigger>, w: int, t: Trigger)
    requires Latest(p, emitted, w)
    ensures Latest(p, emitted + [t], Max(w, t.at))
  {
    var more := emitted + [t];
    assert more[|emitted|] == t;
    if Max(w, t.at) == w && w != p.watermark {
      var i :| 0 <= i < |emitted| && emitted[i].at == w;
      assert more[i].at == w;
    }
  }

  /** Nothing before place i changes when more is emitted behind it. */
  lemma {:induction false} AdmittedSame(own: OwnBot, p: Position, ts: seq<Trigger>, t: Trigger, emitted: seq<Trigger>,
                                        more: seq<Trigger>, i: nat, k: nat)
    requires i < |ts| && k <= |emitted| <= |more| && more[..|emitted|] == emitted
    ensures Admitted(own, p, ts + [t], more, i, k) <==> Admitted(own, p, ts, emitted, i, k)
  {
    assert more[..k] == emitted[..k];
  }

  /** One more trigger, emitted or not. */
  lemma {:induction false} EmitsSnoc(own: OwnBot, p: Position, ts: seq<Trigger>, o: Outcome, at: seq<nat>, t: Trigger)
      returns (all: seq<nat>)
    requires Emits(own, p, ts, o, at)
    ensures Emits(own, p, ts + [t], Admit(own, o, t), all)
  {
    hide *;
    var q := Admit(own, o, t);
    var taken := !own(t.actor) && t.id !in o.position.emitted;
    all := if taken then at + [|ts|] else at;
    OwnSnoc(own, ts, t);
    AdmitIs(own, o, t);
    EmitsIs(own, p, ts, o, at);
    IdsSnocIs(o.triggers, t);
    MemorySnoc(p, TriggerIds(o.triggers), t.id);
    LatestSnoc(p, o.triggers, o.position.watermark, t);
    PlacesSnoc(ts, o.triggers, at, t, taken);
    forall i: nat, k: nat | i < |ts + [t]| && Ahead(all, i, k)
      ensures k <= |q.triggers| && (i in all <==> Admitted(own, p, ts + [t], q.triggers, i, k))
    {
      AdmittedAt(own, p, ts, o, at, t, q, all, i, k);
    }
    EmitsHere(own, p, ts + [t], q, all);
  }

  /** The emitted triggers stand at these places, in order. */
  ghost predicate Placed(ts: seq<Trigger>, emitted: seq<Trigger>, at: seq<nat>) {
    && |at| == |emitted|
    && (forall j, k :: 0 <= j < k < |at| ==> at[j] < at[k])
    && (forall j :: 0 <= j < |at| ==> at[j] < |ts| && emitted[j] == ts[at[j]])
  }

  lemma {:induction false} PlacesSnoc(ts: seq<Trigger>, emitted: seq<Trigger>, at: seq<nat>, t: Trigger, taken: bool)
    requires Placed(ts, emitted, at)
    ensures Placed(ts + [t], if taken then emitted + [t] else emitted, if taken then at + [|ts|] else at)
  {
    assert forall j :: 0 <= j < |at| ==> (ts + [t])[at[j]] == ts[at[j]];
    assert (ts + [t])[|ts|] == t;
  }

  lemma {:induction false} EmitsIs(own: OwnBot, p: Position, ts: seq<Trigger>, o: Outcome, at: seq<nat>)
    requires Emits(own, p, ts, o, at)
    ensures Placed(ts, o.triggers, at) && o.ownBot == |OwnAt(own, ts)| && o.duplicate == |ts| - |at| - o.ownBot
    ensures o.position.emitted == Memory(p, TriggerIds(o.triggers)) && Latest(p, o.triggers, o.position.watermark)
  {
    hide Admitted, Ahead, OwnAt, Memory, Latest, TriggerIds;
  }

  lemma {:induction false} EmitsHere(own: OwnBot, p: Position, ts: seq<Trigger>, o: Outcome, at: seq<nat>)
    requires Placed(ts, o.triggers, at) && o.ownBot == |OwnAt(own, ts)| && o.duplicate == |ts| - |at| - o.ownBot
    requires o.position.emitted == Memory(p, TriggerIds(o.triggers)) && Latest(p, o.triggers, o.position.watermark)
    requires forall i: nat, k: nat :: i < |ts| && Ahead(at, i, k) ==>
      k <= |o.triggers| && (i in at <==> Admitted(own, p, ts, o.triggers, i, k))
    ensures Emits(own, p, ts, o, at)
  {
    hide Admitted, Ahead, OwnAt, Memory, Latest, TriggerIds;
  }

  lemma {:induction false} AdmitIs(own: OwnBot, o: Outcome, t: Trigger)
    ensures var q := Admit(own, o, t);
      var taken := !own(t.actor) && t.id !in o.position.emitted;
      && q.triggers == (if taken then o.triggers + [t] else o.triggers)
      && q.ownBot == o.ownBot + (if own(t.actor) then 1 else 0)
      && q.duplicate == o.duplicate + (if !own(t.actor) && !taken then 1 else 0)
      && q.position.emitted == (if taken then LastOf(o.position.emitted + [t.id], 2048) else o.position.emitted)
      && q.position.watermark == (if taken then Max(o.position.watermark, t.at) else o.position.watermark)
  {
    hide LastOf;
  }

  lemma {:induction false} AdmittedAt(own: OwnBot, p: Position, ts: seq<Trigger>, o: Outcome, at: seq<nat>, t: Trigger,
                                      q: Outcome, all: seq<nat>, i: nat, k: nat)
    requires Emits(own, p, ts, o, at)
    requires var taken := !own(t.actor) && t.id !in o.position.emitted;
      && q.triggers == (if taken then o.triggers + [t] else o.triggers)
      && all == (if taken then at + [|ts|] else at)
    requires i < |ts| + 1 && Ahead(all, i, k)
    ensures k <= |q.triggers|
    ensures i in all <==> Admitted(own, p, ts + [t], q.triggers, i, k)
  {
    var n := |ts|;
    assert forall j :: 0 <= j < |at| ==> at[j] < n;
    if i < n {
      assert q.triggers[..|o.triggers|] == o.triggers;
      AheadShort(at, n, all, i, k);
      AdmittedSame(own, p, ts, t, o.triggers, q.triggers, i, k);
    } else {
      assert k == |at|;
      assert q.triggers[..k] == o.triggers;
      assert (ts + [t])[n] == t;
    }
  }

  lemma {:induction false} AheadShort(at: seq<nat>, n: nat, all: seq<nat>, i: nat, k: nat)
    requires (forall j :: 0 <= j < |at| ==> at[j] < n) && (all == at || all == at + [n])
    requires i < n && Ahead(all, i, k)
    ensures k <= |at| && Ahead(at, i, k)
  {
  }

  lemma {:induction false} AllEmits(own: OwnBot, p: Position, ts: seq<Trigger>) returns (at: seq<nat>)
    ensures Emits(own, p, ts, AdmitAll(own, Outcome([], p, 0, 0), ts), at)
  {
    at := [];
    if ts == [] {
      assert OwnAt(own, ts) == {};
      assert TriggerIds([]) == [];
    } else {
      var init, t := ts[..|ts| - 1], ts[|ts| - 1];
      assert ts == init + [t];
      at := AllEmits(own, p, init);
      at := EmitsSnoc(own, p, init, AdmitAll(own, Outcome([], p, 0, 0), init), at, t);
      hide Emits, Admit;
    }
  }

  /**
   A poll reads issues, then comments, then reviews since the printed time. It fails if one of the reads does;
   otherwise it emits, in that order, exactly the triggers that are neither the bot's own nor remembered.
   */
  lemma {:induction false} PollEmits(own: OwnBot, p: Position, provider: Provider) returns (at: seq<nat>)
    ensures var f := provider(SinceText(p));
      && (Polled(own, p, provider).None? <==> f.issues.None? || f.comments.None? || f.reviews.None?)
      && (Polled(own, p, provider).Some? ==>
            Emits(own, p, f.issues.value + (f.comments.value + f.reviews.value), Polled(own, p, provider).value, at))
  {
    hide *;
    var f := provider(SinceText(p));
    at := [];
    PollIs(own, p, provider);
    if f.issues.Some? && f.comments.Some? && f.reviews.Some? {
      at := AllEmits(own, p, f.issues.value + (f.comments.value + f.reviews.value));
    }
  }

  lemma {:induction false} PollIs(own: OwnBot, p: Position, provider: Provider)
    ensures var f := provider(SinceText(p));
      Polled(own, p, provider)
        == if f.issues.None? || f.comments.None? || f.reviews.None? then None
           else Some(AdmitAll(own, Outcome([], p, 0, 0), f.issues.value + (f.comments.value + f.reviews.value)))
  {
    hide SinceText, AdmitAll;
    var f := provider(SinceText(p));
    if f.issues.Some? && f.comments.Some? && f.reviews.Some? {
      assert f.issues.value + f.comments.value + f.reviews.value == f.issues.value + (f.comments.value + f.reviews.value);
    }
  }
}
