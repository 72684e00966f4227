/**
 The durable event log, the message and turn tables kept beside it event by event, and the rebuild of those
 tables from the log.

 Models crates/openbad-store/src/projections.rs.
 */
module EventLog {
  import opened Wrappers

  datatype Kind =
    | TurnStart | TurnEnd | StepEnd | UsageRecorded
    | UserText | SystemText | DeveloperText | AssistantText | ToolResult | CompactionSummary
    | ToolCall | OtherKind

  // `surface_op.replace`, whose two bounds may each be missing or no integer.
  datatype Replace = NoReplace | Replace(start: Option<nat>, end: Option<nat>)

  // The payload fields the projections read; `body` stands for the rest.
  datatype Payload = Payload(
    reason: Option<string>,
    inputTokens: nat,
    cacheReadTokens: nat,
    outputTokens: nat,
    cost: real,
    source: Option<string>,
    shadowedThrough: Option<int>,
    replace: Replace,
    body: string)

  datatype Event = Event(
    session: nat,
    seqNo: nat,
    turn: Option<nat>,
    step: Option<nat>,
    kind: Kind,
    surface: bool,
    payload: Payload,
    createdAt: int)

  datatype Role = User | System | Developer | Assistant | Tool

  datatype MessageRow = MessageRow(
    turn: Option<nat>,
    step: Option<nat>,
    role: Role,
    payload: Payload,
    source: Option<string>,
    surface: bool,
    createdAt: int)

  datatype TurnRow = TurnRow(
    startedAt: int,
    endedAt: Option<int>,
    reason: Option<string>,
    steps: nat,
    inputTokens: nat,
    cacheReadTokens: nat,
    outputTokens: nat,
    cost: real)

  // Rows by (session, sequence number) and by (session, turn), the tables' keys.
  datatype Tables = Tables(messages: map<(nat, nat), MessageRow>, turns: map<(nat, nat), TurnRow>)

  const COMPACTION := "compaction"

  // ---------------------------------------------------------------------
  // One event
  // ---------------------------------------------------------------------

  predicate IsMessage(kind: Kind) {
    kind.UserText? || kind.SystemText? || kind.DeveloperText? || kind.AssistantText?
    || kind.ToolResult? || kind.CompactionSummary?
  }

  predicate IsSurface(kind: Kind) {
    IsMessage(kind) || kind.ToolCall?
  }

  function RoleOf(kind: Kind): Role {
    match kind
    case SystemText => System
    case DeveloperText => Developer
    case AssistantText => Assistant
    case ToolResult => Tool
    case _ => User
  }

  function FreshTurn(startedAt: int): TurnRow {
    TurnRow(startedAt, None, None, 0, 0, 0, 0, 0.0)
  }

  function ApplyTurn(turns: map<(nat, nat), TurnRow>, e: Event): map<(nat, nat), TurnRow> {
    if e.turn.None? then turns
    else
      var key := (e.session, e.turn.value);
      match e.kind
      case TurnStart =>
        if key in turns then turns[key := turns[key].(startedAt := e.createdAt)]
        else turns[key := FreshTurn(e.createdAt)]
      case TurnEnd =>
        var reason := Some(e.payload.reason.GetOr("unknown"));
        var row := if key in turns then turns[key] else FreshTurn(e.createdAt);
        turns[key := row.(endedAt := Some(e.createdAt), reason := reason)]
      case StepEnd =>
        if key in turns then turns[key := turns[key].(steps := turns[key].steps + 1)] else turns
      case UsageRecorded =>
        if key in turns then
          var row := turns[key];
          turns[key := row.(
            inputTokens := row.inputTokens + e.payload.inputTokens,
            cacheReadTokens := row.cacheReadTokens + e.payload.cacheReadTokens,
            outputTokens := row.outputTokens + e.payload.outputTokens,
            cost := row.cost + e.payload.cost)]
        else turns
      case _ => turns
  }

  /** Whether the checkpoint `e` takes the row off the surface. */
  predicate Shadows(e: Event, key: (nat, nat), row: MessageRow) {
    e.kind.CompactionSummary? && key.0 == e.session && row.surface &&
    match e.payload.shadowedThrough
    case Some(cutoff) => key.1 <= cutoff || row.source == Some(COMPACTION)
    case None => key.1 < e.seqNo
  }

  function Shadowed(messages: map<(nat, nat), MessageRow>, e: Event): map<(nat, nat), MessageRow> {
    map k | k in messages :: if Shadows(e, k, messages[k]) then messages[k].(surface := false) else messages[k]
  }

  function NewRow(e: Event): MessageRow {
    MessageRow(e.turn, e.step, RoleOf(e.kind), e.payload, e.payload.source, true, e.createdAt)
  }

  function ApplyMessage(messages: map<(nat, nat), MessageRow>, e: Event): map<(nat, nat), MessageRow> {
    if IsMessage(e.kind) then Shadowed(messages, e)[(e.session, e.seqNo) := NewRow(e)] else messages
  }

  function Apply(t: Tables, e: Event): Tables {
    Tables(ApplyMessage(t.messages, e), ApplyTurn(t.turns, e))
  }

  /** The tables after applying a log in order, from empty. */
  function Project(log: seq<Event>): Tables {
    if log == [] then Tables(map[], map[]) else Apply(Project(log[..|log| - 1]), log[|log| - 1])
  }

  // ---------------------------------------------------------------------
  // Sessions do not interact
  // ---------------------------------------------------------------------

  function Of(t: Tables, s: nat): Tables {
    Tables(map k | k in t.messages && k.0 == s :: t.messages[k], map k | k in t.turns && k.0 == s :: t.turns[k])
  }

  function SessionLog(log: seq<Event>, s: nat): seq<Event> {
    if log == [] then []
    else
      var e := log[|log| - 1];
      SessionLog(log[..|log| - 1], s) + (if e.session == s then [e] else [])
  }

  lemma ApplyElsewhere(t: Tables, e: Event, s: nat)
    ensures e.session != s ==> Of(Apply(t, e), s) == Of(t, s)
  {
  }

  lemma ApplyHereMessages(messages: map<(nat, nat), MessageRow>, turns: map<(nat, nat), TurnRow>, e: Event)
    ensures Of(Tables(ApplyMessage(messages, e), turns), e.session).messages
      == ApplyMessage(Of(Tables(messages, turns), e.session).messages, e)
  {
  }

  lemma ApplyHereTurns(messages: map<(nat, nat), MessageRow>, turns: map<(nat, nat), TurnRow>, e: Event)
    ensures Of(Tables(messages, ApplyTurn(turns, e)), e.session).turns
      == ApplyTurn(Of(Tables(messages, turns), e.session).turns, e)
  {
  }

  lemma ApplyHere(t: Tables, e: Event)
    ensures Of(Apply(t, e), e.session) == Apply(Of(t, e.session), e)
  {
    ApplyHereMessages(t.messages, t.turns, e);
    ApplyHereTurns(t.messages, t.turns, e);
  }

  /** A session's rows come from that session's events alone. */
  lemma {:induction false} ProjectOf(log: seq<Event>, s: nat)
    ensures Of(Project(log), s) == Project(SessionLog(log, s))
  {
    if log != [] {
      var init, e := log[..|log| - 1], log[|log| - 1];
      ProjectOf(init, s);
      if e.session == s {
        ApplyHere(Project(init), e);
        var own := SessionLog(init, s) + [e];
        assert own[..|own| - 1] == SessionLog(init, s);
      } else {
        ApplyElsewhere(Project(init), e, s);
        assert SessionLog(init, s) + [] == SessionLog(init, s);
      }
    }
  }

  lemma SameBySession(a: Tables, b: Tables)
    requires forall s: nat :: Of(a, s) == Of(b, s)
    ensures a == b
  {
    forall k: (nat, nat)
      ensures (k in a.messages <==> k in b.messages) && (k in a.turns <==> k in b.turns)
      ensures k in a.messages ==> a.messages[k] == b.messages[k]
      ensures k in a.turns ==> a.turns[k] == b.turns[k]
    {
      var oa, ob := Of(a, k.0), Of(b, k.0);
      assert oa == ob;
      assert k in oa.messages <==> k in a.messages;
      assert k in ob.messages <==> k in b.messages;
      assert k in oa.turns <==> k in a.turns;
      assert k in ob.turns <==> k in b.turns;
    }
    assert a.messages == b.messages && a.turns == b.turns;
  }

  // ---------------------------------------------------------------------
  // Order
  // ---------------------------------------------------------------------

  ghost predicate Increasing(log: seq<Event>) {
    forall i, j :: 0 <= i < j < |log| ==> log[i].seqNo < log[j].seqNo
  }

  /** Each session's events were appended with growing sequence numbers; sessions interleave freely. */
  ghost predicate WellKept(log: seq<Event>) {
    forall i, j :: 0 <= i < j < |log| && log[i].session == log[j].session ==> log[i].seqNo < log[j].seqNo
  }

  predicate Before(a: Event, b: Event) {
    a.session < b.session || (a.session == b.session && a.seqNo <= b.seqNo)
  }

  ghost predicate Ordered(log: seq<Event>) {
    forall i, j :: 0 <= i < j < |log| ==> Before(log[i], log[j])
  }

  function Insert(e: Event, log: seq<Event>): (r: seq<Event>)
    ensures multiset(r) == multiset(log) + multiset{e}
  {
    if log == [] then [e]
    else if Before(e, log[0]) then [e] + log
    else
      assert log == [log[0]] + log[1..];
      [log[0]] + Insert(e, log[1..])
  }

  /** The log as the rebuild reads it: by session, then by sequence number. */
  function LoadEvents(log: seq<Event>): (r: seq<Event>)
    ensures multiset(r) == multiset(log)
  {
    if log == [] then []
    else
      assert log == log[..|log| - 1] + [log[|log| - 1]];
      Insert(log[|log| - 1], LoadEvents(log[..|log| - 1]))
  }

  lemma {:induction false} LoadMember(log: seq<Event>, x: Event)
    requires x in LoadEvents(log)
    ensures x in log
  {
    assert x in multiset(LoadEvents(log));
  }

  lemma {:induction false} InsertMember(e: Event, log: seq<Event>, x: Event)
    requires x in Insert(e, log)
    ensures x == e || x in log
  {
    assert x in multiset(Insert(e, log));
  }

  lemma {:induction false} InsertOrdered(e: Event, log: seq<Event>)
    requires Ordered(log)
    ensures Ordered(Insert(e, log))
  {
    if log != [] && !Before(e, log[0]) {
      InsertOrdered(e, log[1..]);
      var rest := Insert(e, log[1..]);
      forall j | 0 <= j < |rest|
        ensures Before(log[0], rest[j])
      {
        InsertMember(e, log[1..], rest[j]);
        if rest[j] in log[1..] {
          var k :| 0 <= k < |log[1..]| && log[1..][k] == rest[j];
          assert log[k + 1] == rest[j];
        }
      }
    }
  }

  lemma {:induction false} LoadOrdered(log: seq<Event>)
    ensures Ordered(LoadEvents(log))
  {
    if log != [] {
      LoadOrdered(log[..|log| - 1]);
      InsertOrdered(log[|log| - 1], LoadEvents(log[..|log| - 1]));
    }
  }

  lemma {:induction false} SessionLogAppend(a: seq<Event>, b: seq<Event>, s: nat)
    ensures SessionLog(a + b, s) == SessionLog(a, s) + SessionLog(b, s)
  {
    if b == [] {
      assert a + b == a;
    } else {
      var init, e := b[..|b| - 1], b[|b| - 1];
      assert a + b == (a + init) + [e];
      assert (a + b)[..|a + b| - 1] == a + init;
      SessionLogAppend(a, init, s);
    }
  }

  lemma {:induction false} SessionLogOne(e: Event, s: nat)
    ensures SessionLog([e], s) == if e.session == s then [e] else []
  {
    assert [e][..0] == [];
    assert SessionLog([], s) == [];
  }

  lemma {:induction false} SessionLogNone(log: seq<Event>, s: nat)
    requires forall i :: 0 <= i < |log| ==> log[i].session != s
    ensures SessionLog(log, s) == []
  {
    if log != [] {
      SessionLogNone(log[..|log| - 1], s);
    }
  }

  lemma {:induction false} PrependKeepsSessions(e: Event, log: seq<Event>, s: nat)
    requires e.session == s ==> SessionLog(log, s) == []
    ensures SessionLog([e] + log, s) == SessionLog(log, s) + SessionLog([e], s)
  {
    SessionLogAppend([e], log, s);
    SessionLogOne(e, s);
    hide SessionLog;
    if e.session != s {
      assert [] + SessionLog(log, s) == SessionLog(log, s) + [];
    }
  }

  /** A session's newest event, inserted by (session, sequence), comes last in that session. */
  lemma {:induction false} InsertKeepsSessions(e: Event, log: seq<Event>, s: nat)
    requires Ordered(log)
    requires forall i :: 0 <= i < |log| && log[i].session == e.session ==> log[i].seqNo < e.seqNo
    ensures SessionLog(Insert(e, log), s) == SessionLog(log, s) + SessionLog([e], s)
  {
    if log == [] {
      assert SessionLog(log, s) + SessionLog([e], s) == SessionLog([e], s);
    } else if Before(e, log[0]) {
      if e.session == s {
        forall i | 0 <= i < |log|
          ensures log[i].session != s
        {
          assert i > 0 ==> Before(log[0], log[i]);
        }
        SessionLogNone(log, s);
      }
      PrependKeepsSessions(e, log, s);
    } else {
      var first, rest := [log[0]], log[1..];
      InsertKeepsSessions(e, rest, s);
      hide SessionLog;
      SessionLogAppend(first, Insert(e, rest), s);
      SessionLogAppend(first, rest, s);
      assert log == first + rest;
      assert SessionLog(first, s) + (SessionLog(rest, s) + SessionLog([e], s))
        == (SessionLog(first, s) + SessionLog(rest, s)) + SessionLog([e], s);
    }
  }

  /** Reordering by session keeps each session's events in their own order. */
  lemma {:induction false} LoadKeepsSessions(log: seq<Event>, s: nat)
    requires WellKept(log)
    ensures SessionLog(LoadEvents(log), s) == SessionLog(log, s)
  {
    if log != [] {
      var init, e := log[..|log| - 1], log[|log| - 1];
      var loaded := LoadEvents(init);
      LoadKeepsSessions(init, s);
      LoadOrdered(init);
      forall i | 0 <= i < |loaded| && loaded[i].session == e.session
        ensures loaded[i].seqNo < e.seqNo
      {
        LoadMember(init, loaded[i]);
        var k :| 0 <= k < |init| && init[k] == loaded[i];
        assert log[k] == loaded[i];
      }
      InsertKeepsSessions(e, loaded, s);
      SessionLogOne(e, s);
    }
  }

  /**
   However sessions were interleaved when their events were appended, rebuilding
   from the log sorted by session gives the tables kept up incrementally.
   */
  lemma {:induction false} RebuildAgrees(log: seq<Event>)
    requires WellKept(log)
    ensures Ordered(LoadEvents(log))
    ensures Project(LoadEvents(log)) == Project(log)
  {
    LoadOrdered(log);
    forall s: nat
      ensures Of(Project(LoadEvents(log)), s) == Of(Project(log), s)
    {
      ProjectOf(LoadEvents(log), s);
      ProjectOf(log, s);
      LoadKeepsSessions(log, s);
    }
    SameBySession(Project(LoadEvents(log)), Project(log));
  }

  // ---------------------------------------------------------------------
  // The turn table, read off the log
  // ---------------------------------------------------------------------

  predicate OfTurn(e: Event, key: (nat, nat)) {
    e.session == key.0 && e.turn == Some(key.1)
  }

  /** A turn's row comes with its first start or end. */
  ghost predicate Opens(log: seq<Event>, key: (nat, nat), i: nat) {
    i < |log| && OfTurn(log[i], key) && (log[i].kind.TurnStart? || log[i].kind.TurnEnd?)
  }

  ghost predicate FirstOpens(log: seq<Event>, key: (nat, nat), f: nat) {
    Opens(log, key, f) && forall i: nat :: Opens(log, key, i) ==> f <= i
  }

  /** The turn's last event of a kind. */
  function LastOf(log: seq<Event>, key: (nat, nat), kind: Kind): (e: Option<Event>)
    ensures e.Some? ==> e.value in log && OfTurn(e.value, key) && e.value.kind == kind
  {
    if log == [] then None
    else
      var last := log[|log| - 1];
      if OfTurn(last, key) && last.kind == kind then Some(last) else LastOf(log[..|log| - 1], key, kind)
  }

  /** A measure summed over the turn's events of a kind. */
  function Sum(log: seq<Event>, key: (nat, nat), kind: Kind, measure: Event -> nat): nat {
    if log == [] then 0
    else
      var last := log[|log| - 1];
      Sum(log[..|log| - 1], key, kind, measure)
      + if OfTurn(last, key) && last.kind == kind then measure(last) else 0
  }

  function CostSum(log: seq<Event>, key: (nat, nat)): real {
    if log == [] then 0.0
    else
      var last := log[|log| - 1];
      CostSum(log[..|log| - 1], key)
      + if OfTurn(last, key) && last.kind == UsageRecorded then last.payload.cost else 0.0
  }

  function One(e: Event): nat {
    1
  }

  function InputOf(e: Event): nat {
    e.payload.inputTokens
  }

  function CacheReadOf(e: Event): nat {
    e.payload.cacheReadTokens
  }

  function OutputOf(e: Event): nat {
    e.payload.outputTokens
  }

  /** What a turn's row says, when the log's first start or end of that turn is at f. */
  ghost predicate TurnTold(log: seq<Event>, key: (nat, nat), f: nat, row: TurnRow)
    requires f < |log|
  {
    var later := log[f + 1..];
    var start, end := LastOf(log, key, TurnStart), LastOf(log, key, TurnEnd);
    && row.startedAt == (if start.Some? then start.value.createdAt else log[f].createdAt)
    && row.endedAt == (if end.Some? then Some(end.value.createdAt) else None)
    && row.reason == (if end.Some? then Some(end.value.payload.reason.GetOr("unknown")) else None)
    && row.steps == Sum(later, key, StepEnd, One)
    && row.inputTokens == Sum(later, key, UsageRecorded, InputOf)
    && row.cacheReadTokens == Sum(later, key, UsageRecorded, CacheReadOf)
    && row.outputTokens == Sum(later, key, UsageRecorded, OutputOf)
    && row.cost == CostSum(later, key)
  }

  lemma {:induction false} LastSnoc(init: seq<Event>, e: Event, key: (nat, nat), kind: Kind)
    ensures LastOf(init + [e], key, kind) == if OfTurn(e, key) && e.kind == kind then Some(e) else LastOf(init, key, kind)
  {
    assert (init + [e])[..|init|] == init;
  }

  lemma {:induction false} SumSnoc(init: seq<Event>, e: Event, key: (nat, nat), kind: Kind, measure: Event -> nat)
    ensures Sum(init + [e], key, kind, measure)
      == Sum(init, key, kind, measure) + if OfTurn(e, key) && e.kind == kind then measure(e) else 0
  {
    assert (init + [e])[..|init|] == init;
  }

  lemma {:induction false} CostSnoc(init: seq<Event>, e: Event, key: (nat, nat))
    ensures CostSum(init + [e], key)
      == CostSum(init, key) + if OfTurn(e, key) && e.kind == UsageRecorded then e.payload.cost else 0.0
  {
    assert (init + [e])[..|init|] == init;
  }

  lemma {:induction false} NoneBeforeFirst(log: seq<Event>, key: (nat, nat))
    requires forall i: nat :: !Opens(log, key, i)
    ensures LastOf(log, key, TurnStart) == None && LastOf(log, key, TurnEnd) == None
  {
    var start, end := LastOf(log, key, TurnStart), LastOf(log, key, TurnEnd);
    if start.Some? {
      var i :| 0 <= i < |log| && log[i] == start.value;
      assert Opens(log, key, i);
    }
    if end.Some? {
      var i :| 0 <= i < |log| && log[i] == end.value;
      assert Opens(log, key, i);
    }
  }

  lemma {:induction false} OpensSnoc(init: seq<Event>, e: Event, key: (nat, nat), i: nat)
    ensures i < |init| ==> (Opens(init + [e], key, i) <==> Opens(init, key, i))
    ensures Opens(init + [e], key, |init|) <==> OfTurn(e, key) && (e.kind.TurnStart? || e.kind.TurnEnd?)
  {
  }

  /** The row of one turn after one more event. */
  lemma {:induction false} TurnRowStep(turns: map<(nat, nat), TurnRow>, e: Event, key: (nat, nat))
    ensures var r := ApplyTurn(turns, e);
      var opens := OfTurn(e, key) && (e.kind.TurnStart? || e.kind.TurnEnd?);
      && (key in r <==> key in turns || opens)
      && (!OfTurn(e, key) && key in turns ==> r[key] == turns[key])
      && (key !in turns && opens ==>
            r[key] == if e.kind.TurnStart? then TurnRow(e.createdAt, None, None, 0, 0, 0, 0, 0.0)
                      else TurnRow(e.createdAt, Some(e.createdAt), Some(e.payload.reason.GetOr("unknown")), 0, 0, 0, 0, 0.0))
      && (key in turns && OfTurn(e, key) ==>
            var row := turns[key];
            && r[key].startedAt == (if e.kind.TurnStart? then e.createdAt else row.startedAt)
            && r[key].endedAt == (if e.kind.TurnEnd? then Some(e.createdAt) else row.endedAt)
            && r[key].reason == (if e.kind.TurnEnd? then Some(e.payload.reason.GetOr("unknown")) else row.reason)
            && r[key].steps == row.steps + (if e.kind.StepEnd? then 1 else 0)
            && r[key].inputTokens == row.inputTokens + (if e.kind.UsageRecorded? then e.payload.inputTokens else 0)
            && r[key].cacheReadTokens
                 == row.cacheReadTokens + (if e.kind.UsageRecorded? then e.payload.cacheReadTokens else 0)
            && r[key].outputTokens == row.outputTokens + (if e.kind.UsageRecorded? then e.payload.outputTokens else 0)
            && r[key].cost == row.cost + (if e.kind.UsageRecorded? then e.payload.cost else 0.0))
  {
  }

  lemma {:induction false} ProjectSnoc(log: seq<Event>)
    requires log != []
    ensures var init, e := log[..|log| - 1], log[|log| - 1];
      log == init + [e] && Project(log).turns == ApplyTurn(Project(init).turns, e)
      && Project(log).messages == ApplyMessage(Project(init).messages, e)
  {
    hide ApplyTurn, ApplyMessage;
  }

  lemma {:induction false} TurnToldNext(init: seq<Event>, e: Event, key: (nat, nat), f: nat, turns: map<(nat, nat), TurnRow>)
    requires f < |init| && key in turns && TurnTold(init, key, f, turns[key])
    ensures key in ApplyTurn(turns, e) && TurnTold(init + [e], key, f, ApplyTurn(turns, e)[key])
  {
    hide ApplyTurn, LastOf, Sum, CostSum, OfTurn;
    TurnRowStep(turns, e, key);
    LastSnoc(init, e, key, TurnStart);
    LastSnoc(init, e, key, TurnEnd);
    var later := init[f + 1..];
    assert (init + [e])[f + 1..] == later + [e];
    SumSnoc(later, e, key, StepEnd, One);
    SumSnoc(later, e, key, UsageRecorded, InputOf);
    SumSnoc(later, e, key, UsageRecorded, CacheReadOf);
    SumSnoc(later, e, key, UsageRecorded, OutputOf);
    CostSnoc(later, e, key);
  }

  lemma {:induction false} TurnToldFirst(init: seq<Event>, e: Event, key: (nat, nat), turns: map<(nat, nat), TurnRow>)
    requires key !in turns && OfTurn(e, key) && (e.kind.TurnStart? || e.kind.TurnEnd?)
    requires LastOf(init, key, TurnStart) == None && LastOf(init, key, TurnEnd) == None
    ensures key in ApplyTurn(turns, e) && TurnTold(init + [e], key, |init|, ApplyTurn(turns, e)[key])
  {
    TurnRowStep(turns, e, key);
    LastSnoc(init, e, key, TurnStart);
    LastSnoc(init, e, key, TurnEnd);
    hide ApplyTurn, LastOf, OfTurn;
    assert (init + [e])[|init| + 1..] == [];
  }

  /**
   The turn table from the log alone: a turn has a row if and only if it has a start
   or an end; the start is the last start's time, or the first end's if it has none,
   the end and its reason are the last end's, and steps, tokens and cost are the sums
   over what comes after the first of its starts and ends.
   */
  lemma {:induction false} TurnRows(log: seq<Event>, key: (nat, nat))
    ensures key in Project(log).turns <==> exists f: nat :: FirstOpens(log, key, f)
    ensures forall f: nat :: FirstOpens(log, key, f) ==> TurnTold(log, key, f, Project(log).turns[key])
    ensures (exists i: nat :: Opens(log, key, i)) <==> exists f: nat :: FirstOpens(log, key, f)
  {
    hide ApplyTurn, TurnTold, OfTurn;
    if log != [] {
      var init, e := log[..|log| - 1], log[|log| - 1];
      var turns := Project(init).turns;
      TurnRows(init, key);
      ProjectSnoc(log);
      TurnRowStep(turns, e, key);
      forall i: nat
        ensures i < |init| ==> (Opens(log, key, i) <==> Opens(init, key, i))
        ensures Opens(log, key, |init|) <==> OfTurn(e, key) && (e.kind.TurnStart? || e.kind.TurnEnd?)
      {
        OpensSnoc(init, e, key, i);
      }
      hide Project;
      OpensBound(log, key);
      OpensBound(init, key);
      if f: nat :| FirstOpens(init, key, f) {
        TurnToldNext(init, e, key, f, turns);
        assert FirstOpens(log, key, f);
      } else {
        NoneBeforeFirst(init, key);
        if Opens(log, key, |init|) {
          TurnToldFirst(init, e, key, turns);
          assert FirstOpens(log, key, |init|);
        }
      }
    }
  }

  lemma {:induction false} OpensBound(log: seq<Event>, key: (nat, nat))
    ensures forall i: nat :: Opens(log, key, i) ==> i < |log|
  {
  }

  // ---------------------------------------------------------------------
  // The message table, read off the log
  // ---------------------------------------------------------------------

  /** The checkpoint `e` hides message n of its session from the surface. */
  ghost predicate Hides(e: Event, session: nat, n: nat, source: Option<string>) {
    && e.kind.CompactionSummary? && e.session == session
    && (e.payload.shadowedThrough.Some? ==> n <= e.payload.shadowedThrough.value || source == Some(COMPACTION))
  }

  /** What the row of the message event at i says. */
  ghost predicate MessageTold(log: seq<Event>, i: nat, row: MessageRow)
    requires i < |log|
  {
    var e := log[i];
    && row.turn == e.turn && row.step == e.step && row.createdAt == e.createdAt
    && row.payload == e.payload && row.source == e.payload.source
    && (row.role == System <==> e.kind.SystemText?)
    && (row.role == Developer <==> e.kind.DeveloperText?)
    && (row.role == Assistant <==> e.kind.AssistantText?)
    && (row.role == Tool <==> e.kind.ToolResult?)
    && (row.surface <==> forall j :: i < j < |log| ==> !Hides(log[j], e.session, e.seqNo, e.payload.source))
  }

  ghost predicate MessageAt(log: seq<Event>, key: (nat, nat), i: nat) {
    i < |log| && log[i].session == key.0 && log[i].seqNo == key.1 && IsMessage(log[i].kind)
  }

  lemma {:induction false} MessageToldSnoc(init: seq<Event>, e: Event, i: nat, row: MessageRow)
    requires i < |init| && MessageTold(init, i, row) && WellKept(init + [e])
    ensures var key := (init[i].session, init[i].seqNo);
      MessageTold(init + [e], i, if Shadows(e, key, row) then row.(surface := false) else row)
  {
    var log := init + [e];
    var m := init[i];
    assert log[i] == m && log[|init|] == e;
    assert e.session == m.session ==> m.seqNo < e.seqNo;
    var shown := forall j :: i < j < |init| ==> !Hides(init[j], m.session, m.seqNo, m.payload.source);
    assert forall j :: i < j < |init| ==> log[j] == init[j];
    hide Hides;
    assert (forall j :: i < j < |log| ==> !Hides(log[j], m.session, m.seqNo, m.payload.source))
      <==> shown && !Hides(e, m.session, m.seqNo, m.payload.source) by {
      if shown && !Hides(e, m.session, m.seqNo, m.payload.source) {
        forall j | i < j < |log|
          ensures !Hides(log[j], m.session, m.seqNo, m.payload.source)
        {
          assert j < |init| ==> log[j] == init[j];
        }
      }
    }
    ShadowsHides(e, m, row);
  }

  lemma {:induction false} ShadowsHides(e: Event, m: Event, row: MessageRow)
    requires row.source == m.payload.source && (e.session == m.session ==> m.seqNo < e.seqNo)
    ensures Shadows(e, (m.session, m.seqNo), row)
      <==> row.surface && Hides(e, m.session, m.seqNo, m.payload.source)
  {
  }

  /**
   The message table from the log alone: a row for each message event, saying what
   the event says, and on the surface if and only if no later checkpoint hides it.
   */
  lemma {:induction false} MessageRows(log: seq<Event>, key: (nat, nat))
    requires WellKept(log)
    ensures key in Project(log).messages <==> exists i: nat :: MessageAt(log, key, i)
    ensures forall i: nat :: MessageAt(log, key, i) ==> MessageTold(log, i, Project(log).messages[key])
  {
    hide MessageTold, Shadows, Hides, RoleOf, IsMessage;
    if log != [] {
      var init, e := log[..|log| - 1], log[|log| - 1];
      var rows := Project(init).messages;
      WellKeptInit(log);
      MessageRows(init, key);
      ProjectSnoc(log);
      hide Project, WellKept;
      MessageRowStep(rows, e, key);
      forall i: nat
        ensures MessageAt(log, key, i) <==> MessageAt(init, key, i) || (i == |init| && MessageAt(log, key, i))
        ensures MessageAt(init, key, i) ==> key == (init[i].session, init[i].seqNo) && i < |init|
      {
      }
      if i: nat :| MessageAt(init, key, i) {
        NewestOther(log, key, i);
      }
      forall i: nat | MessageAt(log, key, i)
        ensures key in Project(log).messages && MessageTold(log, i, Project(log).messages[key])
      {
        if i < |init| {
          assert MessageAt(init, key, i);
          NewestOther(log, key, i);
          MessageToldSnoc(init, e, i, rows[key]);
        } else {
          MessageToldNew(init, e);
        }
      }
      if MessageAt(log, key, |init|) {
      }
    }
  }

  lemma {:induction false} WellKeptInit(log: seq<Event>)
    requires WellKept(log) && log != []
    ensures WellKept(log[..|log| - 1])
  {
  }

  lemma {:induction false} NewestOther(log: seq<Event>, key: (nat, nat), i: nat)
    requires WellKept(log) && i < |log| - 1 && MessageAt(log[..|log| - 1], key, i)
    ensures var e := log[|log| - 1];
      key != (e.session, e.seqNo)
  {
    assert log[i] == log[..|log| - 1][i];
  }

  lemma {:induction false} MessageRowStep(messages: map<(nat, nat), MessageRow>, e: Event, key: (nat, nat))
    ensures var r := ApplyMessage(messages, e);
      var own := IsMessage(e.kind) && key == (e.session, e.seqNo);
      && (key in r <==> key in messages || own)
      && (own ==> r[key] == NewRow(e))
      && (!own && key in messages ==>
            r[key] == if Shadows(e, key, messages[key]) then messages[key].(surface := false) else messages[key])
  {
  }

  lemma {:induction false} MessageToldNew(init: seq<Event>, e: Event)
    requires IsMessage(e.kind)
    ensures MessageTold(init + [e], |init|, NewRow(e))
  {
  }

  // ---------------------------------------------------------------------
  // The store
  // ---------------------------------------------------------------------

  lemma {:induction false} AppendWellKept(log: seq<Event>, e: Event)
    requires WellKept(log)
    requires forall x :: x in log && x.session == e.session ==> x.seqNo < e.seqNo
    ensures WellKept(log + [e])
    ensures Project(log + [e]) == Apply(Project(log), e)
  {
    assert (log + [e])[..|log + [e]| - 1] == log;
    forall i | 0 <= i < |log| && log[i].session == e.session
      ensures log[i].seqNo < e.seqNo
    {
      assert log[i] in log;
    }
  }

  class Store {
    var log: seq<Event>
    var messages: map<(nat, nat), MessageRow>
    var turns: map<(nat, nat), TurnRow>

    ghost predicate Valid()
      reads this
    {
      WellKept(log) && Tables(messages, turns) == Project(log)
    }

    constructor ()
      ensures Valid() && log == []
    {
      log, messages, turns := [], map[], map[];
    }

    /** Sequence numbers continue from the session's largest. */
    method NextSeq(session: nat) returns (next: nat)
      ensures forall e :: e in log && e.session == session ==> e.seqNo < next
      ensures next == 1 || exists e :: e in log && e.session == session && e.seqNo + 1 == next
    {
      next := 1;
      for i := 0 to |log|
        invariant next >= 1
        invariant forall k :: 0 <= k < i && log[k].session == session ==> log[k].seqNo < next
        invariant next == 1 || exists e :: e in log && e.session == session && e.seqNo + 1 == next
      {
        if log[i].session == session && log[i].seqNo >= next {
          next := log[i].seqNo + 1;
          assert log[i] in log;
        }
      }
    }

    method ApplyEvent(e: Event)
      modifies this`messages, this`turns
      ensures Tables(messages, turns) == Apply(old(Tables(messages, turns)), e)
    {
      if IsMessage(e.kind) {
        if e.kind.CompactionSummary? {
          messages := map k | k in messages ::
            if Shadows(e, k, messages[k]) then messages[k].(surface := false) else messages[k];
        } else {
          assert messages == Shadowed(messages, e);
        }
        messages := messages[(e.session, e.seqNo) := NewRow(e)];
      } else {
        turns := ApplyTurn(turns, e);
      }
      assert IsMessage(e.kind) ==> ApplyTurn(turns, e) == turns;
    }

    /** Append one event and keep the tables in step with the log. */
    method AppendEvent(session: nat, turn: Option<nat>, step: Option<nat>, kind: Kind, payload: Payload, now: int)
      returns (e: Event)
      requires Valid()
      modifies this
      ensures Valid()
      ensures log == old(log) + [e]
      ensures e == Event(session, e.seqNo, turn, step, kind, IsSurface(kind), payload, now)
      ensures forall x :: x in old(log) && x.session == session ==> x.seqNo < e.seqNo
    {
      var next := NextSeq(session);
      e := Event(session, next, turn, step, kind, IsSurface(kind), payload, now);
      AppendWellKept(log, e);
      ApplyEvent(e);
      log := log + [e];
    }

    /** Clear both tables and apply the whole log again: they come out as they were. */
    method Rebuild()
      requires Valid()
      modifies this`messages, this`turns
      ensures Valid()
      ensures messages == old(messages) && turns == old(turns)
    {
      var events := LoadEvents(log);
      messages, turns := map[], map[];
      for i := 0 to |events|
        invariant Tables(messages, turns) == Project(events[..i])
      {
        assert events[..i + 1][..i] == events[..i];
        ApplyEvent(events[i]);
      }
      assert events[..|events|] == events;
      RebuildAgrees(log);
    }
  }
}
