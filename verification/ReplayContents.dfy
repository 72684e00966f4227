/**
 The replayed history told from the events alone, whatever they are: which messages the fold keeps, and where
 its newest checkpoint goes.
 */
module ReplayContents {
  import opened Wrappers
  import opened EventLog
  import opened Replay

  // ---------------------------------------------------------------------
  // Which messages are kept
  // ---------------------------------------------------------------------

  /** The event takes this sequence number off the surface: by the range it names, or as a checkpoint by its cutoff. */
  predicate Covers(e: Event, seqNo: nat) {
    match e.payload.replace
    case Replace(start, end) => start.Some? && end.Some? && start.value <= seqNo <= end.value
    case NoReplace =>
      && e.kind.CompactionSummary? && e.payload.shadowedThrough.Some?
      && 0 <= e.payload.shadowedThrough.value && seqNo <= e.payload.shadowedThrough.value
  }

  /** The event names a range, or has a cutoff. */
  predicate Replaces(e: Event) {
    match e.payload.replace
    case Replace(start, end) => start.Some? && end.Some?
    case NoReplace =>
      e.kind.CompactionSummary? && e.payload.shadowedThrough.Some? && 0 <= e.payload.shadowedThrough.value
  }

  /** A later surface event that replaces anything takes off every checkpoint, and what its range covers. */
  predicate TakesOff(e: Event, m: Event) {
    e.surface && Replaces(e) && (m.kind.CompactionSummary? || Covers(e, m.seqNo))
  }

  /** Event i is a surface message that no later event takes off. */
  ghost predicate Stays(events: seq<Event>, i: nat) {
    && i < |events| && events[i].surface && IsMessage(events[i].kind)
    && forall j :: i < j < |events| ==> !TakesOff(events[j], events[i])
  }

  /** A message as it is read: developer notes are system messages, checkpoints user messages. */
  predicate ReadFrom(e: Event, d: Derived) {
    && d.seqNo == e.seqNo && d.payload == e.payload
    && (d.checkpoint <==> e.kind == CompactionSummary)
    && d.role == match e.kind
                 case UserText => ChatUser
                 case CompactionSummary => ChatUser
                 case SystemText => ChatSystem
                 case DeveloperText => ChatSystem
                 case AssistantText => ChatAssistant
                 case ToolResult => ChatTool
                 case _ => d.role
  }

  /** The kept messages are those that stay, in the order of the log. */
  ghost predicate KeptFrom(events: seq<Event>, ds: seq<Derived>, at: seq<nat>) {
    && |at| == |ds|
    && (forall j, k :: 0 <= j < k < |at| ==> at[j] < at[k])
    && (forall i: nat :: i in at <==> Stays(events, i))
    && (forall j :: 0 <= j < |at| ==> at[j] < |events| && ReadFrom(events[at[j]], ds[j]))
  }

  lemma {:induction false} StaysSnoc(events: seq<Event>, e: Event, i: nat)
    ensures i < |events| ==>
      (Stays(events + [e], i) <==> Stays(events, i) && !TakesOff(e, events[i]))
    ensures i == |events| ==> (Stays(events + [e], i) <==> e.surface && IsMessage(e.kind))
    ensures i > |events| ==> !Stays(events + [e], i)
  {
    hide TakesOff, IsMessage;
    var all := events + [e];
    assert all[|events|] == e;
    if i < |events| {
      assert all[i] == events[i];
      if Stays(events, i) && !TakesOff(e, events[i]) {
        forall j | i < j < |all|
          ensures !TakesOff(all[j], all[i])
        {
          assert j < |events| ==> all[j] == events[j];
        }
      }
      if Stays(all, i) {
        forall j | i < j < |events|
          ensures !TakesOff(events[j], events[i])
        {
          assert all[j] == events[j];
        }
      }
    }
  }

  /** The retained messages, with where they stood. */
  lemma {:induction false} RetainAt(ds: seq<Derived>, range: (nat, nat), at: seq<nat>) returns (kept: seq<nat>)
    requires |at| == |ds| && forall j, k :: 0 <= j < k < |at| ==> at[j] < at[k]
    ensures |kept| == |Retain(ds, range)|
    ensures forall j, k :: 0 <= j < k < |kept| ==> kept[j] < kept[k]
    ensures forall i: nat :: i in kept <==> exists j :: 0 <= j < |at| && at[j] == i && Outside(ds[j], range)
    ensures forall k :: 0 <= k < |kept| ==>
      exists j :: 0 <= j < |at| && at[j] == kept[k] && ds[j] == Retain(ds, range)[k]
  {
    hide Outside;
    kept := [];
    if ds != [] {
      var n := |ds| - 1;
      kept := RetainAt(ds[..n], range, at[..n]);
      var before := kept;
      if Outside(ds[n], range) {
        kept := kept + [at[n]];
      }
      forall k | 0 <= k < |before|
        ensures exists j :: 0 <= j < n && at[j] == before[k] && ds[j] == Retain(ds[..n], range)[k]
      {
        var j :| 0 <= j < n && at[..n][j] == before[k] && ds[..n][j] == Retain(ds[..n], range)[k];
        assert at[j] == before[k] && ds[j] == Retain(ds[..n], range)[k];
      }
      forall i: nat
        ensures i in before <==> exists j :: 0 <= j < n && at[j] == i && Outside(ds[j], range)
      {
        if i in before {
          var j :| 0 <= j < n && at[..n][j] == i && Outside(ds[..n][j], range);
          assert at[j] == i && Outside(ds[j], range);
        }
        if j :| 0 <= j < n && at[j] == i && Outside(ds[j], range) {
          assert at[..n][j] == i && Outside(ds[..n][j], range);
        }
      }
    }
  }

  lemma {:induction false} OutsideTakes(e: Event, m: Event, d: Derived)
    requires ReadFrom(m, d) && e.surface && ReplaceRange(e).Some?
    ensures Outside(d, ReplaceRange(e).value) <==> !TakesOff(e, m)
  {
  }

  lemma {:induction false} ReplacesIs(e: Event)
    ensures ReplaceRange(e).Some? <==> Replaces(e)
  {
  }

  lemma {:induction false} MessageFromIs(e: Event)
    ensures IsMessage(e.kind) ==> |MessageFrom(e)| == 1 && ReadFrom(e, MessageFrom(e)[0])
    ensures !IsMessage(e.kind) ==> MessageFrom(e) == []
  {
  }

  /** The messages left after an event took some off, before its own. */
  ghost predicate LeftFrom(events: seq<Event>, e: Event, ds: seq<Derived>, at: seq<nat>) {
    && |at| == |ds|
    && (forall j, k :: 0 <= j < k < |at| ==> at[j] < at[k])
    && (forall i: nat :: i in at <==> i < |events| && Stays(events + [e], i))
    && (forall j :: 0 <= j < |at| ==> at[j] < |events| && ReadFrom(events[at[j]], ds[j]))
  }

  lemma {:induction false} LeftAfter(events: seq<Event>, e: Event, ds: seq<Derived>, at: seq<nat>)
      returns (left: seq<nat>)
    requires KeptFrom(events, ds, at)
    ensures LeftFrom(events, e, if e.surface && ReplaceRange(e).Some? then Retain(ds, ReplaceRange(e).value) else ds, left)
  {
    hide Stays, TakesOff, ReadFrom, ReplaceRange, Outside;
    forall i: nat
      ensures i < |events| ==> (Stays(events + [e], i) <==> Stays(events, i) && !TakesOff(e, events[i]))
    {
      StaysSnoc(events, e, i);
    }
    if e.surface && ReplaceRange(e).Some? {
      var range := ReplaceRange(e).value;
      left := RetainAt(ds, range, at);
      RetainedFrom(events, e, ds, at, left);
    } else {
      left := at;
      NothingTaken(e);
      assert forall i: nat :: i in at ==> i < |events|;
    }
  }

  lemma {:induction false} NothingTaken(e: Event)
    ensures !(e.surface && ReplaceRange(e).Some?) ==> forall m: Event :: !TakesOff(e, m)
  {
    ReplacesIs(e);
  }

  lemma {:induction false} RetainedFrom(events: seq<Event>, e: Event, ds: seq<Derived>, at: seq<nat>, left: seq<nat>)
    requires KeptFrom(events, ds, at) && e.surface && ReplaceRange(e).Some?
    requires forall i: nat :: i < |events| ==>
      (Stays(events + [e], i) <==> Stays(events, i) && !TakesOff(e, events[i]))
    requires |left| == |Retain(ds, ReplaceRange(e).value)|
    requires forall j, k :: 0 <= j < k < |left| ==> left[j] < left[k]
    requires forall i: nat :: i in left <==>
      exists j :: 0 <= j < |at| && at[j] == i && Outside(ds[j], ReplaceRange(e).value)
    requires forall k :: 0 <= k < |left| ==>
      exists j :: 0 <= j < |at| && at[j] == left[k] && ds[j] == Retain(ds, ReplaceRange(e).value)[k]
    ensures LeftFrom(events, e, Retain(ds, ReplaceRange(e).value), left)
  {
    hide Stays, TakesOff, ReadFrom, ReplaceRange, Outside, Retain;
    forall j | 0 <= j < |at|
      ensures Outside(ds[j], ReplaceRange(e).value) <==> !TakesOff(e, events[at[j]])
    {
      OutsideTakes(e, events[at[j]], ds[j]);
    }
    forall i: nat
      ensures i in left <==> i < |events| && Stays(events + [e], i)
    {
      if i in left {
        var j :| 0 <= j < |at| && at[j] == i && Outside(ds[j], ReplaceRange(e).value);
        assert i in at;
      }
      if i < |events| && Stays(events + [e], i) {
        assert i in at;
        var j :| 0 <= j < |at| && at[j] == i;
        assert Outside(ds[j], ReplaceRange(e).value);
      }
    }
  }

  lemma {:induction false} LeftSnoc(events: seq<Event>, e: Event, ds: seq<Derived>, at: seq<nat>) returns (all: seq<nat>)
    requires LeftFrom(events, e, ds, at)
    ensures KeptFrom(events + [e], ds + (if e.surface then MessageFrom(e) else []), all)
  {
    var n := |events|;
    StaysSnoc(events, e, n);
    MessageFromIs(e);
    forall i: nat
      ensures i > n ==> !Stays(events + [e], i)
    {
      StaysSnoc(events, e, i);
    }
    hide Stays, ReadFrom, IsMessage, MessageFrom;
    var own := if e.surface then MessageFrom(e) else [];
    all := if e.surface && IsMessage(e.kind) then at + [n] else at;
    forall i: nat
      ensures i in all <==> Stays(events + [e], i)
    {
      assert i in all <==> i in at || (e.surface && IsMessage(e.kind) && i == n);
    }
    forall j | 0 <= j < |all|
      ensures all[j] < |events + [e]| && ReadFrom((events + [e])[all[j]], (ds + own)[j])
    {
      if j < |at| {
        assert (events + [e])[all[j]] == events[at[j]];
      } else {
        assert (events + [e])[n] == e;
      }
    }
  }

  /** The fold keeps exactly the surface messages that no later event takes off. */
  lemma {:induction false} KeptMeaning(events: seq<Event>) returns (at: seq<nat>)
    ensures KeptFrom(events, Kept(events), at)
  {
    at := [];
    if events == [] {
      assert forall i: nat :: !Stays(events, i);
    } else {
      var init, e := events[..|events| - 1], events[|events| - 1];
      assert events == init + [e];
      at := KeptMeaning(init);
      var left := LeftAfter(init, e, Kept(init), at);
      var rest := if e.surface && ReplaceRange(e).Some? then Retain(Kept(init), ReplaceRange(e).value) else Kept(init);
      at := LeftSnoc(init, e, rest, left);
      AbsorbIs(Kept(init), e);
      hide KeptFrom, Retain, ReplaceRange, MessageFrom, Absorb;
    }
  }

  lemma {:induction false} AbsorbIs(ds: seq<Derived>, e: Event)
    ensures Absorb(ds, e)
      == (if e.surface && ReplaceRange(e).Some? then Retain(ds, ReplaceRange(e).value) else ds)
         + (if e.surface then MessageFrom(e) else [])
  {
    hide Retain, ReplaceRange, MessageFrom;
    assert ds + [] == ds;
  }

  // ---------------------------------------------------------------------
  // Where the checkpoint goes
  // ---------------------------------------------------------------------

  /** Element i is taken out and leads the rest, or comes second. */
  ghost predicate Moved<T(!new)>(xs: seq<T>, i: nat, second: bool, r: seq<T>) {
    && i < |xs|
    && var rest := xs[..i] + xs[i + 1..];
    if second && rest != [] then r == [rest[0], xs[i]] + rest[1..] else r == [xs[i]] + rest
  }

  /** The newest checkpoint leads, behind a leading system message; the rest keeps its order. */
  ghost predicate HistoryTold(ds: seq<Derived>, r: seq<Derived>) {
    if forall i :: 0 <= i < |ds| ==> !ds[i].checkpoint then r == ds
    else
      exists i: nat ::
        && i < |ds| && ds[i].checkpoint && (forall j :: i < j < |ds| ==> !ds[j].checkpoint)
        && Moved(ds, i, LeadsSystem(ds, i), r)
  }

  /** What is left without message i begins with a system message. */
  predicate LeadsSystem(ds: seq<Derived>, i: nat) {
    1 < |ds| && i < |ds| && ds[if i == 0 then 1 else 0].role == ChatSystem
  }

  lemma {:induction false} LeadMoves<T(!new)>(xs: seq<T>, i: nat, second: bool)
    requires i < |xs| && (second ==> |xs| > 1)
    ensures Moved(xs, i, second, Lead(xs, i, second))
  {
    var rest := Without(xs, i);
    assert second ==> rest[..1] == [rest[0]];
    assert rest[..0] == [] && rest[0..] == rest;
  }

  lemma {:induction false} HistoryMeaning(events: seq<Event>)
    ensures HistoryTold(Kept(events), DerivedHistory(events))
  {
    var ds := Kept(events);
    var i := LastFlag(Checkpoints(ds));
    assert forall j :: 0 <= j < |ds| ==> Checkpoints(ds)[j] == ds[j].checkpoint;
    hide Kept, LastFlag, Checkpoints, Lead;
    if i < |ds| {
      var second := |ds| > 1 && Without(ds, i)[0].role == ChatSystem;
      assert second == LeadsSystem(ds, i);
      LeadMoves(ds, i, second);
      assert ds[i].checkpoint;
    }
  }

  /** The store's rows: the same move, behind a leading system row. */
  ghost predicate RowsTold(rows: seq<(nat, MessageRow)>, r: seq<(nat, MessageRow)>) {
    if forall i :: 0 <= i < |rows| ==> rows[i].1.source != Some("compaction") then r == rows
    else
      exists i: nat ::
        && i < |rows| && rows[i].1.source == Some("compaction")
        && (forall j :: i < j < |rows| ==> rows[j].1.source != Some("compaction"))
        && Moved(rows, i, LeadsWithSystem(rows, i), r)
  }

  predicate LeadsWithSystem(rows: seq<(nat, MessageRow)>, i: nat) {
    1 < |rows| && i < |rows| && rows[if i == 0 then 1 else 0].1.role == System
  }

  lemma {:induction false} StoreMeaning(rows: seq<(nat, MessageRow)>)
    ensures RowsTold(rows, StoreHistory(rows))
  {
    var flags := Checkpoints(Views(rows));
    var i := LastFlag(flags);
    assert forall j :: 0 <= j < |rows| ==> flags[j] == (rows[j].1.source == Some(COMPACTION));
    hide LastFlag, Checkpoints, Views, Lead;
    if i < |rows| {
      var second := |rows| > 1 && Without(rows, i)[0].1.role == System;
      assert second == LeadsWithSystem(rows, i);
      LeadMoves(rows, i, second);
      assert flags[i];
    }
  }
}
