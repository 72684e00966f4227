/**
 Two ways to the model-visible history of a session: the surface rows of the message table, and a fold over
 the session's events that never looks at it. They agree row for row; only the place of the checkpoint can
 differ, and exactly when the retained history begins with a developer message.

 Models crates/openbad-llm/src/replay.rs and crates/openbad-store/src/projections.rs.
 */
module Replay {
  import opened Wrappers
  import opened EventLog

  datatype ChatRole = ChatSystem | ChatUser | ChatAssistant | ChatTool

  // A message read from an event's payload under a role.
  datatype Derived = Derived(seqNo: nat, role: ChatRole, payload: Payload, checkpoint: bool)

  function ChatRoleOf(role: Role): ChatRole {
    match role
    case User => ChatUser
    case System => ChatSystem
    case Developer => ChatSystem
    case Assistant => ChatAssistant
    case Tool => ChatTool
  }

  // ---------------------------------------------------------------------
  // The fold over events
  // ---------------------------------------------------------------------

  /** The inclusive range this event takes off the surface. */
  function ReplaceRange(e: Event): Option<(nat, nat)> {
    match e.payload.replace
    case Replace(start, end) =>
      if start.Some? && end.Some? then Some((start.value, end.value)) else None
    case NoReplace =>
      if e.kind.CompactionSummary? && e.payload.shadowedThrough.Some? && e.payload.shadowedThrough.value >= 0 then
        Some((0, e.payload.shadowedThrough.value))
      else None
  }

  function MessageFrom(e: Event): seq<Derived> {
    if IsMessage(e.kind) then
      [Derived(e.seqNo, ChatRoleOf(RoleOf(e.kind)), e.payload, e.kind.CompactionSummary?)]
    else []
  }

  predicate Outside(d: Derived, range: (nat, nat)) {
    !d.checkpoint && (d.seqNo < range.0 || d.seqNo > range.1)
  }

  function Retain(ds: seq<Derived>, range: (nat, nat)): seq<Derived> {
    if ds == [] then []
    else Retain(ds[..|ds| - 1], range) + (if Outside(ds[|ds| - 1], range) then [ds[|ds| - 1]] else [])
  }

  function Absorb(ds: seq<Derived>, e: Event): seq<Derived> {
    if !e.surface then ds
    else
      match ReplaceRange(e)
      case None => ds + MessageFrom(e)
      case Some(range) => Retain(ds, range) + MessageFrom(e)
  }

  function Kept(events: seq<Event>): seq<Derived> {
    if events == [] then [] else Absorb(Kept(events[..|events| - 1]), events[|events| - 1])
  }

  // ---------------------------------------------------------------------
  // Moving the newest checkpoint to the front
  // ---------------------------------------------------------------------

  /** Index of the last true flag, or the length. */
  function LastFlag(flags: seq<bool>): (i: nat)
    ensures i <= |flags|
    ensures i < |flags| ==> flags[i] && forall j :: i < j < |flags| ==> !flags[j]
    ensures i == |flags| ==> forall j :: 0 <= j < |flags| ==> !flags[j]
  {
    if flags == [] then 0
    else if flags[|flags| - 1] then |flags| - 1
    else
      var i := LastFlag(flags[..|flags| - 1]);
      if i == |flags| - 1 then |flags| else i
  }

  function Without<T>(xs: seq<T>, i: nat): (r: seq<T>)
    requires i < |xs|
    ensures |r| == |xs| - 1
  {
    xs[..i] + xs[i + 1..]
  }

  /** Take element i out and put it back first, or second when something must stay ahead of it. */
  function Lead<T>(xs: seq<T>, i: nat, behindFirst: bool): seq<T>
    requires i < |xs|
    requires behindFirst ==> |xs| > 1
  {
    var rest := Without(xs, i);
    var at := if behindFirst then 1 else 0;
    rest[..at] + [xs[i]] + rest[at..]
  }

  function Checkpoints(ds: seq<Derived>): (flags: seq<bool>)
    ensures |flags| == |ds|
  {
    seq(|ds|, i requires 0 <= i < |ds| => ds[i].checkpoint)
  }

  function DerivedHistory(events: seq<Event>): seq<Derived> {
    var ds := Kept(events);
    var i := LastFlag(Checkpoints(ds));
    if i == |ds| then ds
    else Lead(ds, i, |ds| > 1 && Without(ds, i)[0].role == ChatSystem)
  }

  method RetainOutside(ds: seq<Derived>, range: (nat, nat)) returns (kept: seq<Derived>)
    ensures kept == Retain(ds, range)
  {
    kept := [];
    for i := 0 to |ds|
      invariant kept == Retain(ds[..i], range)
    {
      assert ds[..i + 1][..i] == ds[..i];
      if Outside(ds[i], range) {
        kept := kept + [ds[i]];
      }
    }
    assert ds[..|ds|] == ds;
  }

  method DeriveMessages(events: seq<Event>) returns (messages: seq<Derived>)
    ensures messages == DerivedHistory(events)
  {
    messages := [];
    for i := 0 to |events|
      invariant messages == Kept(events[..i])
    {
      var e := events[i];
      assert events[..i + 1][..i] == events[..i];
      if e.surface {
        var range := ReplaceRange(e);
        if range.Some? {
          messages := RetainOutside(messages, range.value);
        }
        messages := messages + MessageFrom(e);
      }
    }
    assert events[..|events|] == events;
    var index := |messages|;
    while index > 0 && !messages[index - 1].checkpoint
      invariant 0 <= index <= |messages|
      invariant forall j :: index <= j < |messages| ==> !messages[j].checkpoint
    {
      index := index - 1;
    }
    if index > 0 {
      var checkpoint := messages[index - 1];
      LastFlagIs(messages, index - 1);
      messages := messages[..index - 1] + messages[index..];
      var insertAt := if messages != [] && messages[0].role == ChatSystem then 1 else 0;
      messages := messages[..insertAt] + [checkpoint] + messages[insertAt..];
    }
  }

  lemma LastFlagIs(ds: seq<Derived>, i: nat)
    requires i < |ds| && ds[i].checkpoint
    requires forall j :: i < j < |ds| ==> !ds[j].checkpoint
    ensures LastFlag(Checkpoints(ds)) == i
  {
    assert Checkpoints(ds)[i];
    assert forall j :: 0 <= j < |ds| ==> Checkpoints(ds)[j] == ds[j].checkpoint;
  }

  // ---------------------------------------------------------------------
  // The surface rows
  // ---------------------------------------------------------------------

  /** The surface rows of session s below n, in sequence order. */
  function Surface(messages: map<(nat, nat), MessageRow>, s: nat, n: nat): seq<(nat, MessageRow)> {
    if n == 0 then [] else Surface(messages, s, n - 1) + SurfaceAt(messages, s, n - 1)
  }

  function SurfaceAt(messages: map<(nat, nat), MessageRow>, s: nat, j: nat): seq<(nat, MessageRow)> {
    if (s, j) in messages && messages[(s, j)].surface then [(j, messages[(s, j)])] else []
  }

  function View(row: (nat, MessageRow)): Derived {
    Derived(row.0, ChatRoleOf(row.1.role), row.1.payload, row.1.source == Some(COMPACTION))
  }

  function Views(rows: seq<(nat, MessageRow)>): (ds: seq<Derived>)
    ensures |ds| == |rows|
    ensures forall i :: 0 <= i < |rows| ==> ds[i] == View(rows[i])
  {
    seq(|rows|, i requires 0 <= i < |rows| => View(rows[i]))
  }

  /** What the store replays: its surface rows with the newest checkpoint in front. */
  function StoreHistory(rows: seq<(nat, MessageRow)>): seq<(nat, MessageRow)> {
    var i := LastFlag(Checkpoints(Views(rows)));
    if i == |rows| then rows
    else Lead(rows, i, |rows| > 1 && Without(rows, i)[0].1.role == System)
  }

  // ---------------------------------------------------------------------
  // Agreement on the rows
  // ---------------------------------------------------------------------

  /** Checkpoints name themselves and their range; nothing else claims to be one. */
  ghost predicate WellMarked(e: Event) {
    && e.surface == IsSurface(e.kind)
    && (e.kind.CompactionSummary? ==>
         && e.payload.source == Some(COMPACTION)
         && e.payload.shadowedThrough.Some? && e.payload.shadowedThrough.value >= 0
         && (e.payload.replace == NoReplace
             || e.payload.replace == Replace(Some(0), Some(e.payload.shadowedThrough.value))))
    && (e.surface && !e.kind.CompactionSummary? ==>
         e.payload.source != Some(COMPACTION) && ReplaceRange(e).None?)
  }

  ghost predicate AllMarked(log: seq<Event>) {
    forall i :: 0 <= i < |log| ==> WellMarked(log[i])
  }

  ghost predicate OneSession(log: seq<Event>, s: nat) {
    forall i :: 0 <= i < |log| ==> log[i].session == s
  }

  ghost predicate Below(log: seq<Event>, n: nat) {
    forall i :: 0 <= i < |log| ==> log[i].seqNo < n
  }

  lemma {:induction false} KeysBelow(log: seq<Event>, n: nat)
    requires Below(log, n)
    ensures forall k :: k in Project(log).messages ==> k.1 < n
  {
    if log != [] {
      KeysBelow(log[..|log| - 1], n);
    }
  }

  lemma {:induction false} SurfaceBeyond(messages: map<(nat, nat), MessageRow>, s: nat, b: nat, n: nat)
    requires b <= n
    requires forall k :: k in messages ==> k.1 < b
    ensures Surface(messages, s, n) == Surface(messages, s, b)
  {
    if b < n {
      SurfaceBeyond(messages, s, b, n - 1);
      assert Surface(messages, s, n - 1) + [] == Surface(messages, s, n - 1);
    }
  }

  lemma {:induction false} SurfaceUnchanged(a: map<(nat, nat), MessageRow>, b: map<(nat, nat), MessageRow>, s: nat, n: nat)
    requires forall j: nat :: j < n ==> ((s, j) in a <==> (s, j) in b) && ((s, j) in a ==> a[(s, j)] == b[(s, j)])
    ensures Surface(a, s, n) == Surface(b, s, n)
  {
    if n > 0 {
      SurfaceUnchanged(a, b, s, n - 1);
    }
  }

  lemma ViewsSnoc(rows: seq<(nat, MessageRow)>, row: (nat, MessageRow))
    ensures Views(rows + [row]) == Views(rows) + [View(row)]
  {
  }

  lemma ViewsAppend(a: seq<(nat, MessageRow)>, b: seq<(nat, MessageRow)>)
    ensures Views(a + b) == Views(a) + Views(b)
  {
  }

  lemma {:induction false} RetainAppend(a: seq<Derived>, b: seq<Derived>, range: (nat, nat))
    ensures Retain(a + b, range) == Retain(a, range) + Retain(b, range)
  {
    if b == [] {
      assert a + b == a;
    } else {
      assert (a + b)[..|a + b| - 1] == a + b[..|b| - 1];
      RetainAppend(a, b[..|b| - 1], range);
    }
  }

  lemma ShadowedAt(messages: map<(nat, nat), MessageRow>, e: Event, j: nat)
    requires WellMarked(e) && e.kind.CompactionSummary?
    ensures ReplaceRange(e).Some?
    ensures Views(SurfaceAt(Shadowed(messages, e), e.session, j))
      == Retain(Views(SurfaceAt(messages, e.session, j)), ReplaceRange(e).value)
  {
    var key := (e.session, j);
    var range := ReplaceRange(e).value;
    assert Retain([], range) == [];
    if key in messages && messages[key].surface {
      var row := (j, messages[key]);
      assert Outside(View(row), range) <==> !Shadows(e, key, messages[key]);
      assert [View(row)][..0] == [];
      assert Views([row]) == [View(row)];
    }
  }

  lemma {:induction false} SurfaceEmpty(messages: map<(nat, nat), MessageRow>, s: nat, range: (nat, nat))
    ensures Views(Surface(messages, s, 0)) == [] == Retain(Views(Surface(messages, s, 0)), range)
  {
  }

  lemma SurfaceViews(messages: map<(nat, nat), MessageRow>, s: nat, n: nat)
    ensures Views(Surface(messages, s, n + 1)) == Views(Surface(messages, s, n)) + Views(SurfaceAt(messages, s, n))
  {
    hide SurfaceAt, Views;
    ViewsAppend(Surface(messages, s, n), SurfaceAt(messages, s, n));
  }

  lemma {:induction false} RetainBoth(a: seq<Derived>, b: seq<Derived>, range: (nat, nat), x: seq<Derived>, y: seq<Derived>)
    requires x == Retain(a, range) && y == Retain(b, range)
    ensures x + y == Retain(a + b, range)
  {
    hide *;
    RetainAppend(a, b, range);
  }

  /** Taking shadowed rows off the surface is the fold's retain. */
  lemma {:induction false} SurfaceShadowed(messages: map<(nat, nat), MessageRow>, e: Event, n: nat)
    requires WellMarked(e) && e.kind.CompactionSummary?
    ensures ReplaceRange(e).Some?
    ensures Views(Surface(Shadowed(messages, e), e.session, n))
      == Retain(Views(Surface(messages, e.session, n)), ReplaceRange(e).value)
  {
    hide *;
    var shadowed := Shadowed(messages, e);
    ShadowedAt(messages, e, 0);
    if n == 0 {
      SurfaceEmpty(messages, e.session, ReplaceRange(e).value);
      SurfaceEmpty(shadowed, e.session, ReplaceRange(e).value);
    } else {
      SurfaceShadowed(messages, e, n - 1);
      ShadowedAt(messages, e, n - 1);
      SurfaceViews(messages, e.session, n - 1);
      SurfaceViews(shadowed, e.session, n - 1);
      RetainBoth(
        Views(Surface(messages, e.session, n - 1)), Views(SurfaceAt(messages, e.session, n - 1)), ReplaceRange(e).value,
        Views(Surface(shadowed, e.session, n - 1)), Views(SurfaceAt(shadowed, e.session, n - 1)));
    }
  }

  /** One message event: the new row comes last, whatever it shadowed. */
  lemma {:induction false} MessageStep(messages: map<(nat, nat), MessageRow>, e: Event, n: nat)
    requires WellMarked(e) && IsMessage(e.kind) && e.seqNo < n
    requires forall k :: k in messages ==> k.1 < e.seqNo
    ensures Views(Surface(ApplyMessage(messages, e), e.session, n))
      == Absorb(Views(Surface(messages, e.session, e.seqNo)), e)
  {
    var shadowed := Shadowed(messages, e);
    var applied := ApplyMessage(messages, e);
    SurfaceBeyond(applied, e.session, e.seqNo + 1, n);
    SurfaceUnchanged(applied, shadowed, e.session, e.seqNo);
    ViewsSnoc(Surface(shadowed, e.session, e.seqNo), (e.seqNo, NewRow(e)));
    if e.kind.CompactionSummary? {
      SurfaceShadowed(messages, e, e.seqNo);
    } else {
      SurfaceUnchanged(shadowed, messages, e.session, e.seqNo);
    }
  }

  lemma {:induction false} SurfaceIsKept(log: seq<Event>, s: nat, n: nat)
    requires OneSession(log, s) && Increasing(log) && AllMarked(log) && Below(log, n)
    ensures Views(Surface(Project(log).messages, s, n)) == Kept(log)
  {
    if log == [] {
      SurfaceBeyond(map[], s, 0, n);
    } else {
      var init, e := log[..|log| - 1], log[|log| - 1];
      var messages := Project(init).messages;
      KeysBelow(init, e.seqNo);
      SurfaceIsKept(init, s, e.seqNo);
      if IsMessage(e.kind) {
        MessageStep(messages, e, n);
      } else {
        SurfaceBeyond(messages, s, e.seqNo, n);
        assert Kept(init) + [] == Kept(init);
      }
    }
  }

  // ---------------------------------------------------------------------
  // At most one checkpoint
  // ---------------------------------------------------------------------

  ghost predicate NoCheckpoint(ds: seq<Derived>) {
    forall i :: 0 <= i < |ds| ==> !ds[i].checkpoint
  }

  ghost predicate AtMostOneCheckpoint(ds: seq<Derived>) {
    forall i, j :: 0 <= i < j < |ds| ==> !(ds[i].checkpoint && ds[j].checkpoint)
  }

  lemma {:induction false} RetainDropsCheckpoints(ds: seq<Derived>, range: (nat, nat))
    ensures NoCheckpoint(Retain(ds, range))
  {
    if ds != [] {
      RetainDropsCheckpoints(ds[..|ds| - 1], range);
    }
  }

  lemma {:induction false} OneCheckpointKept(log: seq<Event>)
    requires AllMarked(log)
    ensures AtMostOneCheckpoint(Kept(log))
  {
    if log != [] {
      var init, e := log[..|log| - 1], log[|log| - 1];
      OneCheckpointKept(init);
      var range := ReplaceRange(e);
      if e.surface && range.Some? {
        RetainDropsCheckpoints(Kept(init), range.value);
      }
    }
  }

  // ---------------------------------------------------------------------
  // Agreement on the history
  // ---------------------------------------------------------------------

  /** The checkpoint is to lead a history whose first other message is a developer message. */
  ghost predicate DeveloperLeads(rows: seq<(nat, MessageRow)>) {
    var i := LastFlag(Checkpoints(Views(rows)));
    i < |rows| && |rows| > 1 && Without(rows, i)[0].1.role == Developer
  }

  lemma LeadViews(rows: seq<(nat, MessageRow)>, i: nat, behind: bool)
    requires i < |rows| && (behind ==> |rows| > 1)
    ensures Views(Lead(rows, i, behind)) == Lead(Views(rows), i, behind)
  {
    assert Views(Without(rows, i)) == Without(Views(rows), i);
  }

  lemma LeadDiffers(ds: seq<Derived>, i: nat)
    requires i < |ds| && |ds| > 1 && ds[i].checkpoint
    requires !Without(ds, i)[0].checkpoint
    ensures Lead(ds, i, true) != Lead(ds, i, false)
  {
    assert Lead(ds, i, true)[0] == Without(ds, i)[0];
    assert Lead(ds, i, false)[0] == ds[i];
  }

  lemma {:induction false} HistoriesAgree(rows: seq<(nat, MessageRow)>, events: seq<Event>)
    requires Views(rows) == Kept(events) && AtMostOneCheckpoint(Kept(events))
    ensures Views(StoreHistory(rows)) == DerivedHistory(events) <==> !DeveloperLeads(rows)
  {
    var ds := Kept(events);
    var i := LastFlag(Checkpoints(ds));
    if i < |ds| {
      var storeBehind := |rows| > 1 && Without(rows, i)[0].1.role == System;
      var derivedBehind := |ds| > 1 && Without(ds, i)[0].role == ChatSystem;
      LeadViews(rows, i, storeBehind);
      if |ds| > 1 {
        var first := if i == 0 then 1 else 0;
        assert Without(rows, i)[0] == rows[first] && Without(ds, i)[0] == ds[first];
        assert ds[i].checkpoint == Checkpoints(ds)[i];
        if DeveloperLeads(rows) {
          LeadDiffers(ds, i);
        }
      }
    }
  }

  lemma {:induction false} SessionFacts(log: seq<Event>, s: nat, n: nat)
    requires WellKept(log) && AllMarked(log) && Below(log, n)
    ensures OneSession(SessionLog(log, s), s) && Increasing(SessionLog(log, s))
    ensures AllMarked(SessionLog(log, s)) && Below(SessionLog(log, s), n)
  {
    SessionIncreasing(log, s);
    forall k: nat | k < |SessionLog(log, s)|
      ensures WellMarked(SessionLog(log, s)[k]) && SessionLog(log, s)[k].seqNo < n
      ensures SessionLog(log, s)[k].session == s
    {
      var i := SessionLogSource(log, s, k);
    }
  }

  lemma {:induction false} SessionLogSource(log: seq<Event>, s: nat, k: nat) returns (i: nat)
    requires k < |SessionLog(log, s)|
    ensures i < |log| && log[i] == SessionLog(log, s)[k] && log[i].session == s
  {
    var init := log[..|log| - 1];
    if k < |SessionLog(init, s)| {
      i := SessionLogSource(init, s, k);
      assert SessionLog(log, s)[k] == SessionLog(init, s)[k];
    } else {
      i := |log| - 1;
    }
  }

  lemma {:induction false} SessionIncreasing(log: seq<Event>, s: nat)
    requires WellKept(log)
    ensures Increasing(SessionLog(log, s))
  {
    if log != [] {
      var init, e := log[..|log| - 1], log[|log| - 1];
      SessionIncreasing(init, s);
      var own := SessionLog(init, s);
      forall k: nat | k < |own| && e.session == s
        ensures own[k].seqNo < e.seqNo
      {
        var i := SessionLogSource(init, s, k);
        assert log[i] == own[k];
      }
    }
  }

  /**
   For every session of every well-marked log: the fold over the session's events
   keeps exactly the table's surface rows with at most one checkpoint among them,
   and the two replayed histories are equal if and only if the checkpoint does not
   have to lead a developer message.
   */
  lemma {:induction false} ReplayAgrees(log: seq<Event>, s: nat, n: nat)
    requires WellKept(log) && AllMarked(log) && Below(log, n)
    ensures var rows := Surface(Project(log).messages, s, n);
      var own := SessionLog(log, s);
      && Views(rows) == Kept(own)
      && AtMostOneCheckpoint(Kept(own))
      && (Views(StoreHistory(rows)) == DerivedHistory(own) <==> !DeveloperLeads(rows))
  {
    var own := SessionLog(log, s);
    SessionFacts(log, s, n);
    ProjectOf(log, s);
    SurfaceUnchanged(Project(log).messages, Of(Project(log), s).messages, s, n);
    SurfaceIsKept(own, s, n);
    OneCheckpointKept(own);
    HistoriesAgree(Surface(Project(log).messages, s, n), own);
  }

  /** A developer note, then a checkpoint: the two histories put the checkpoint in different places. */
  lemma DeveloperFirstDiffers(note: Event, checkpoint: Event)
    requires note.session == 0 && note.seqNo == 1 && note.kind.DeveloperText? && WellMarked(note)
    requires checkpoint.session == 0 && checkpoint.seqNo == 2 && checkpoint.kind.CompactionSummary?
    requires WellMarked(checkpoint) && checkpoint.payload.shadowedThrough == Some(0)
    ensures var log := [note, checkpoint];
      && WellKept(log) && AllMarked(log)
      && Views(StoreHistory(Surface(Project(log).messages, 0, 3))) != DerivedHistory(SessionLog(log, 0))
  {
    var log := [note, checkpoint];
    var first := map[(0, 1) := NewRow(note)];
    assert log[..1] == [note] && [note][..0] == [];
    assert Project([]).messages == map[];
    assert Shadowed(map[], note) == map[];
    assert Project([note]).messages == first;
    assert !Shadows(checkpoint, (0, 1), NewRow(note));
    assert Shadowed(first, checkpoint) == first;
    var messages := Project(log).messages;
    assert messages == first[(0, 2) := NewRow(checkpoint)];
    TwoRows(messages, NewRow(note), NewRow(checkpoint));
    ReplayAgrees(log, 0, 3);
  }

  lemma {:induction false} TwoRows(messages: map<(nat, nat), MessageRow>, a: MessageRow, b: MessageRow)
    requires messages == map[(0, 1) := a, (0, 2) := b] && a.surface && b.surface
    requires a.role == Developer && a.source != Some(COMPACTION) && b.source == Some(COMPACTION)
    ensures DeveloperLeads(Surface(messages, 0, 3))
  {
    var rows := [(1, a), (2, b)];
    assert Surface(messages, 0, 0) == [];
    assert Surface(messages, 0, 1) == [];
    assert Surface(messages, 0, 2) == [(1, a)];
    assert Surface(messages, 0, 3) == rows;
    assert Checkpoints(Views(rows)) == [false, true];
  }
}
