/**
 Importing a bundle of sessions into a workspace: a merge that keeps ids that are
 free, copies sessions another workspace owns under fresh ids, and recognises the
 copies of an earlier import.

 Models import_workspace_state of crates/openbad-store/src/transfer.rs and what it calls: the plan of new
 ids, the rows written under them, the parent links mapped through the plan, and the origins remembered
 for the next import.
 */
module Transfer {
  import opened Wrappers

  // Session and event ids; fresh ones come from a supply that never repeats.
  type Id = nat

  datatype Session = Session(owner: Option<nat>, parent: Option<Id>, origin: Option<Id>, body: string)
  datatype Event = Event(id: Id, body: string)

  // Rows by (session, sequence number), and for turns by (session, turn).
  datatype Db = Db(
    sessions: map<Id, Session>,
    events: map<(Id, int), Event>,
    messages: map<(Id, int), string>,
    turns: map<(Id, int), string>)

  datatype EventRow = EventRow(id: Id, seqNo: int, body: string, hashDecodes: bool)
  datatype MessageRow = MessageRow(seqNo: int, body: string)
  datatype TurnRow = TurnRow(turn: int, body: string)

  datatype Bundle = Bundle(
    id: Id,
    parent: Option<Id>,
    body: string,
    events: seq<EventRow>,
    messages: seq<MessageRow>,
    turns: seq<TurnRow>)

  datatype Mode = Insert | Update | AlreadyImported
  datatype Placement = Placement(final: Id, mode: Mode)
  datatype Counts = Counts(sessions: nat, events: nat, messages: nat)

  type Plan = map<Id, Placement>

  // Which of several copies of one session the query lists first.
  type Pick = set<Id> -> Id

  // The tables, the id supply and the counters while an import runs.
  datatype Work = Work(db: Db, next: Id, counts: Counts)

  // ---------------------------------------------------------------------
  // Placing the bundle's sessions
  // ---------------------------------------------------------------------

  /** The workspace's copies of a session. */
  function Copies(db: Db, ws: nat, origin: Id): set<Id> {
    set s | s in db.sessions && db.sessions[s].owner == Some(ws) && db.sessions[s].origin == Some(origin)
  }

  function Placed(db: Db, ws: nat, pick: Pick, id: Id, first: bool, next: Id): (Placement, Id) {
    if id !in db.sessions then (Placement(id, Insert), next)
    else if db.sessions[id].owner == Some(ws) then (Placement(id, Update), next)
    else if first && Copies(db, ws, id) != {} then (Placement(pick(Copies(db, ws, id)), AlreadyImported), next)
    else (Placement(next, Insert), next + 1)
  }

  /** A later session of the same id replaces an earlier one's placement, and finds its copy taken. */
  function PlanFor(db: Db, ws: nat, pick: Pick, bundles: seq<Bundle>, next: Id): (Plan, Id) {
    if bundles == [] then (map[], next)
    else
      var id := bundles[|bundles| - 1].id;
      var (plan, n) := PlanFor(db, ws, pick, bundles[..|bundles| - 1], next);
      var (placement, m) := Placed(db, ws, pick, id, id !in plan, n);
      (plan[id := placement], m)
  }

  // ---------------------------------------------------------------------
  // Copying rows
  // ---------------------------------------------------------------------

  predicate EventIdUsed(db: Db, id: Id) {
    exists k :: k in db.events && db.events[k].id == id
  }

  /** An event is ignored when its place or its id is taken. */
  function InsertEvent(w: Work, key: (Id, int), id: Id, body: string): Work {
    if key in w.db.events || EventIdUsed(w.db, id) then w
    else w.(db := w.db.(events := w.db.events[key := Event(id, body)]), counts := w.counts.(events := w.counts.events + 1))
  }

  function CopyEvent(w: Work, final: Id, mint: bool, e: EventRow): Option<Work> {
    if !e.hashDecodes then None
    else if mint then Some(InsertEvent(w.(next := w.next + 1), (final, e.seqNo), w.next, e.body))
    else Some(InsertEvent(w, (final, e.seqNo), e.id, e.body))
  }

  function CopyEvents(w: Work, final: Id, mint: bool, es: seq<EventRow>): Option<Work> {
    if es == [] then Some(w)
    else
      match CopyEvents(w, final, mint, es[..|es| - 1])
      case None => None
      case Some(v) => CopyEvent(v, final, mint, es[|es| - 1])
  }

  function CopyMessage(w: Work, final: Id, m: MessageRow): Work {
    if (final, m.seqNo) in w.db.messages then w
    else w.(db := w.db.(messages := w.db.messages[(final, m.seqNo) := m.body]),
            counts := w.counts.(messages := w.counts.messages + 1))
  }

  function CopyMessages(w: Work, final: Id, ms: seq<MessageRow>): Work {
    if ms == [] then w else CopyMessage(CopyMessages(w, final, ms[..|ms| - 1]), final, ms[|ms| - 1])
  }

  function CopyTurn(w: Work, final: Id, t: TurnRow): Work {
    if (final, t.turn) in w.db.turns then w
    else w.(db := w.db.(turns := w.db.turns[(final, t.turn) := t.body]))
  }

  function CopyTurns(w: Work, final: Id, ts: seq<TurnRow>): Work {
    if ts == [] then w else CopyTurn(CopyTurns(w, final, ts[..|ts| - 1]), final, ts[|ts| - 1])
  }

  /** A new session row remembers where it came from; a taken id fails the import. */
  function CopySession(w: Work, ws: nat, b: Bundle, final: Id): Option<Work> {
    if final in w.db.sessions then None
    else Some(w.(db := w.db.(sessions := w.db.sessions[final := Session(Some(ws), None, Some(b.id), b.body)]),
                 counts := w.counts.(sessions := w.counts.sessions + 1)))
  }

  function CopyRows(w: Work, b: Bundle, final: Id, mint: bool): Option<Work> {
    match CopyEvents(w, final, mint, b.events)
    case None => None
    case Some(v) => Some(CopyTurns(CopyMessages(v, final, b.messages), final, b.turns))
  }

  function CopyBundle(w: Work, ws: nat, b: Bundle, p: Placement): Option<Work> {
    match p.mode
    case AlreadyImported => Some(w)
    case Update => CopyRows(w, b, p.final, false)
    case Insert =>
      match CopySession(w, ws, b, p.final)
      case None => None
      case Some(v) => CopyRows(v, b, p.final, true)
  }

  function CopyAll(w: Work, ws: nat, plan: Plan, bundles: seq<Bundle>): Option<Work>
  {
    if bundles == [] then Some(w)
    else
      var b := bundles[|bundles| - 1];
      match CopyAll(w, ws, plan, bundles[..|bundles| - 1])
      case None => None
      case Some(v) => if b.id in plan then CopyBundle(v, ws, b, plan[b.id]) else Some(v)
  }

  // ---------------------------------------------------------------------
  // Parent links
  // ---------------------------------------------------------------------

  /** The link this bundle sets on session s, if it sets one. */
  function Link(plan: Plan, b: Bundle, s: Id): Option<Id> {
    if b.parent.Some? && b.parent.value in plan && Written(plan, b.id) && plan[b.id].final == s then
      Some(plan[b.parent.value].final)
    else None
  }

  function SetParent(db: Db, s: Id, link: Option<Id>): Db {
    if link.Some? && s in db.sessions then
      db.(sessions := db.sessions[s := db.sessions[s].(parent := link)])
    else db
  }

  function LinkAll(db: Db, plan: Plan, bundles: seq<Bundle>): Db {
    if bundles == [] then db
    else
      var b := bundles[|bundles| - 1];
      var linked := LinkAll(db, plan, bundles[..|bundles| - 1]);
      if b.id in plan then SetParent(linked, plan[b.id].final, Link(plan, b, plan[b.id].final)) else linked
  }

  /** The whole import: every table as it should be, or none touched. */
  function Import(db: Db, ws: nat, pick: Pick, bundles: seq<Bundle>, next: Id): Option<Work>
  {
    var (plan, n) := PlanFor(db, ws, pick, bundles, next);
    match CopyAll(Work(db, n, Counts(0, 0, 0)), ws, plan, bundles)
    case None => None
    case Some(w) => Some(w.(db := LinkAll(w.db, plan, bundles)))
  }

  function Occurrences(bundles: seq<Bundle>, id: Id): nat {
    if bundles == [] then 0
    else Occurrences(bundles[..|bundles| - 1], id) + if bundles[|bundles| - 1].id == id then 1 else 0
  }

  // ---------------------------------------------------------------------
  // What a plan says
  // ---------------------------------------------------------------------

  /** All ids the supply gives are new to the tables and to the bundle. */
  ghost predicate SupplyFresh(db: Db, bundles: seq<Bundle>, next: Id) {
    && (forall s :: s in db.sessions ==> s < next)
    && (forall k :: k in db.events ==> db.events[k].id < next)
    && (forall i :: 0 <= i < |bundles| ==> bundles[i].id < next)
    && (forall i, j :: 0 <= i < |bundles| && 0 <= j < |bundles[i].events| ==> bundles[i].events[j].id < next)
  }

  /** The placement of one id, from its occurrences alone. */
  ghost predicate PlacedRight(db: Db, ws: nat, pick: Pick, id: Id, once: bool, lo: Id, hi: Id, p: Placement) {
    if id !in db.sessions then p == Placement(id, Insert)
    else if db.sessions[id].owner == Some(ws) then p == Placement(id, Update)
    else if once && Copies(db, ws, id) != {} then p == Placement(pick(Copies(db, ws, id)), AlreadyImported)
    else p.mode == Insert && lo <= p.final < hi
  }

  lemma {:induction false} PlanRight(db: Db, ws: nat, pick: Pick, bundles: seq<Bundle>, next: Id)
    ensures var (plan, n) := PlanFor(db, ws, pick, bundles, next);
      && next <= n
      && (forall id :: id in plan <==> Occurrences(bundles, id) > 0)
      && (forall id :: id in plan ==>
           PlacedRight(db, ws, pick, id, Occurrences(bundles, id) == 1, next, n, plan[id]))
  {
    if bundles != [] {
      PlanRight(db, ws, pick, bundles[..|bundles| - 1], next);
      hide Copies;
    }
  }

  /** The bundle's session is written, not skipped. */
  predicate Written(plan: Plan, id: Id) {
    id in plan && plan[id].mode != AlreadyImported
  }

  /** Sessions that rows are written to have places of their own. */
  ghost predicate FinalsDistinct(plan: Plan) {
    forall a, b :: a in plan && b in plan && a != b && Written(plan, a) && Written(plan, b) ==>
      plan[a].final != plan[b].final
  }

  lemma {:induction false} PlanDistinct(db: Db, ws: nat, pick: Pick, bundles: seq<Bundle>, next: Id)
    requires SupplyFresh(db, bundles, next)
    ensures FinalsDistinct(PlanFor(db, ws, pick, bundles, next).0)
  {
    if bundles != [] {
      var init, id := bundles[..|bundles| - 1], bundles[|bundles| - 1].id;
      PlanDistinct(db, ws, pick, init, next);
      PlanRight(db, ws, pick, init, next);
      PlanBelow(db, ws, pick, init, next);
      var (plan, n) := PlanFor(db, ws, pick, init, next);
      hide Copies, PlacedRight, FinalsDistinct;
      forall a | a in plan && a != id && Written(plan, a)
        ensures FinalWithin(db, next, n, a, plan[a].final)
      {
        WrittenWithin(db, ws, pick, a, Occurrences(init, a) == 1, next, n, plan[a]);
      }
      var (placement, m) := Placed(db, ws, pick, id, id !in plan, n);
      PlacementApart(db, ws, pick, plan, id, next, n, placement, m);
      AddedDistinct(plan, id, placement);
    }
  }

  /** A written session keeps its id, or has a new one beyond every id the tables and the bundle know. */
  ghost predicate FinalWithin(db: Db, lo: Id, hi: Id, id: Id, final: Id) {
    (id !in db.sessions && final == id) || (id in db.sessions && (final == id || lo <= final < hi))
  }

  lemma WrittenWithin(db: Db, ws: nat, pick: Pick, id: Id, once: bool, lo: Id, hi: Id, p: Placement)
    requires PlacedRight(db, ws, pick, id, once, lo, hi, p) && p.mode != AlreadyImported
    ensures FinalWithin(db, lo, hi, id, p.final)
  {
  }

  lemma PlacementApart(db: Db, ws: nat, pick: Pick, plan: Plan, id: Id, lo: Id, n: Id, p: Placement, m: Id)
    requires (p, m) == Placed(db, ws, pick, id, id !in plan, n)
    requires lo <= n && id < lo && forall a :: a in plan ==> a < lo
    requires forall a :: a in plan && a != id && Written(plan, a) ==> FinalWithin(db, lo, n, a, plan[a].final)
    ensures p.mode != AlreadyImported ==> forall a :: a in plan && a != id && Written(plan, a) ==> plan[a].final != p.final
  {
    hide Copies;
  }

  lemma AddedDistinct(plan: Plan, id: Id, p: Placement)
    requires FinalsDistinct(plan)
    requires p.mode != AlreadyImported ==> forall a :: a in plan && a != id && Written(plan, a) ==> plan[a].final != p.final
    ensures FinalsDistinct(plan[id := p])
  {
    var added := plan[id := p];
    forall a, b | a in added && b in added && a != b && Written(added, a) && Written(added, b)
      ensures added[a].final != added[b].final
    {
      assert a != id ==> Written(plan, a);
      assert b != id ==> Written(plan, b);
    }
  }

  lemma {:induction false} OccurrencesBelow(bundles: seq<Bundle>, id: Id, next: Id)
    requires forall i :: 0 <= i < |bundles| ==> bundles[i].id < next
    ensures Occurrences(bundles, id) > 0 ==> id < next
  {
    if bundles != [] {
      OccurrencesBelow(bundles[..|bundles| - 1], id, next);
    }
  }

  lemma {:induction false} PlanBelow(db: Db, ws: nat, pick: Pick, bundles: seq<Bundle>, next: Id)
    requires SupplyFresh(db, bundles, next)
    ensures forall id :: id in PlanFor(db, ws, pick, bundles, next).0 ==> id < next
  {
    PlanRight(db, ws, pick, bundles, next);
    forall id | id in PlanFor(db, ws, pick, bundles, next).0
      ensures id < next
    {
      OccurrencesBelow(bundles, id, next);
    }
  }

  // ---------------------------------------------------------------------
  // What an import leaves alone
  // ---------------------------------------------------------------------

  function Targets(plan: Plan): set<Id> {
    set id | id in plan && Written(plan, id) :: plan[id].final
  }

  ghost predicate RowsExtend<T(!new)>(a: map<(Id, int), T>, b: map<(Id, int), T>, targets: set<Id>) {
    && (forall k :: k in a ==> k in b && b[k] == a[k])
    && (forall k :: k in b && k !in a ==> k.0 in targets)
  }

  /** Everything that was there is as it was; what is new belongs to the targets. */
  ghost predicate Extends(a: Db, b: Db, targets: set<Id>) {
    && (forall s :: s in a.sessions ==> s in b.sessions && b.sessions[s] == a.sessions[s])
    && (forall s :: s in b.sessions && s !in a.sessions ==> s in targets)
    && RowsExtend(a.events, b.events, targets)
    && RowsExtend(a.messages, b.messages, targets)
    && RowsExtend(a.turns, b.turns, targets)
  }

  lemma ExtendsChain(a: Db, b: Db, c: Db, targets: set<Id>)
    ensures Extends(a, b, targets) && Extends(b, c, targets) ==> Extends(a, c, targets)
  {
  }

  lemma {:induction false} EventsExtend(w: Work, final: Id, mint: bool, es: seq<EventRow>, targets: set<Id>)
    requires final in targets && CopyEvents(w, final, mint, es).Some?
    ensures var v := CopyEvents(w, final, mint, es).value;
      Extends(w.db, v.db, targets) && v.db.sessions == w.db.sessions
      && v.db.messages == w.db.messages && v.db.turns == w.db.turns
  {
    if es != [] {
      EventsExtend(w, final, mint, es[..|es| - 1], targets);
    }
  }

  lemma {:induction false} MessagesExtend(w: Work, final: Id, ms: seq<MessageRow>, targets: set<Id>)
    requires final in targets
    ensures var v := CopyMessages(w, final, ms);
      Extends(w.db, v.db, targets) && v.next == w.next && v.db.sessions == w.db.sessions
      && v.db.events == w.db.events && v.db.turns == w.db.turns
      && (forall i :: 0 <= i < |ms| ==> (final, ms[i].seqNo) in v.db.messages)
  {
    if ms != [] {
      MessagesExtend(w, final, ms[..|ms| - 1], targets);
    }
  }

  lemma {:induction false} TurnsExtend(w: Work, final: Id, ts: seq<TurnRow>, targets: set<Id>)
    requires final in targets
    ensures var v := CopyTurns(w, final, ts);
      Extends(w.db, v.db, targets) && v.next == w.next && v.db.sessions == w.db.sessions
      && v.db.events == w.db.events && v.db.messages == w.db.messages
      && (forall i :: 0 <= i < |ts| ==> (final, ts[i].turn) in v.db.turns)
  {
    if ts != [] {
      TurnsExtend(w, final, ts[..|ts| - 1], targets);
    }
  }

  lemma {:induction false} RowsOfBundle(w: Work, b: Bundle, final: Id, mint: bool, targets: set<Id>)
    requires final in targets && CopyRows(w, b, final, mint).Some?
    ensures var v := CopyRows(w, b, final, mint).value;
      && Extends(w.db, v.db, targets) && v.db.sessions == w.db.sessions
      && CopyEvents(w, final, mint, b.events).Some?
      && v.db.events == CopyEvents(w, final, mint, b.events).value.db.events
      && v.next == CopyEvents(w, final, mint, b.events).value.next
      && (forall i :: 0 <= i < |b.messages| ==> (final, b.messages[i].seqNo) in v.db.messages)
      && (forall i :: 0 <= i < |b.turns| ==> (final, b.turns[i].turn) in v.db.turns)
  {
    hide CopyEvents, CopyMessages, CopyTurns, Extends;
    var u := CopyEvents(w, final, mint, b.events).value;
    var x := CopyMessages(u, final, b.messages);
    EventsExtend(w, final, mint, b.events, targets);
    MessagesExtend(u, final, b.messages, targets);
    TurnsExtend(x, final, b.turns, targets);
    ExtendsChain(w.db, u.db, x.db, targets);
    ExtendsChain(w.db, x.db, CopyTurns(x, final, b.turns).db, targets);
  }

  lemma SessionExtends(w: Work, ws: nat, b: Bundle, final: Id, targets: set<Id>)
    ensures final in targets && CopySession(w, ws, b, final).Some? ==>
      Extends(w.db, CopySession(w, ws, b, final).value.db, targets)
  {
  }

  lemma BundleExtends(w: Work, ws: nat, b: Bundle, p: Placement, targets: set<Id>)
    requires CopyBundle(w, ws, b, p).Some? && (p.mode != AlreadyImported ==> p.final in targets)
    ensures Extends(w.db, CopyBundle(w, ws, b, p).value.db, targets)
  {
    hide CopyRows, CopySession, Extends;
    match p.mode {
      case AlreadyImported => SelfExtends(w.db, targets);
      case Update => RowsOfBundle(w, b, p.final, false, targets);
      case Insert =>
        var v := CopySession(w, ws, b, p.final).value;
        SessionExtends(w, ws, b, p.final, targets);
        RowsOfBundle(v, b, p.final, true, targets);
        ExtendsChain(w.db, v.db, CopyRows(v, b, p.final, true).value.db, targets);
    }
  }

  lemma SelfExtends(db: Db, targets: set<Id>)
    ensures Extends(db, db, targets)
  {
  }

  lemma {:induction false} AllExtend(w: Work, ws: nat, plan: Plan, bundles: seq<Bundle>)
    requires CopyAll(w, ws, plan, bundles).Some?
    ensures Extends(w.db, CopyAll(w, ws, plan, bundles).value.db, Targets(plan))
  {
    hide CopyBundle, Extends;
    if bundles == [] {
      SelfExtends(w.db, Targets(plan));
    } else {
      var init, b := bundles[..|bundles| - 1], bundles[|bundles| - 1];
      var v := CopyAll(w, ws, plan, init).value;
      AllExtend(w, ws, plan, init);
      if b.id in plan {
        assert Written(plan, b.id) ==> plan[b.id].final in Targets(plan);
        BundleExtends(v, ws, b, plan[b.id], Targets(plan));
        ExtendsChain(w.db, v.db, CopyBundle(v, ws, b, plan[b.id]).value.db, Targets(plan));
      }
    }
  }

  /** The last link set on a session. */
  function LastLink(plan: Plan, bundles: seq<Bundle>, s: Id): Option<Id> {
    if bundles == [] then None
    else
      var link := Link(plan, bundles[|bundles| - 1], s);
      if link.Some? then link else LastLink(plan, bundles[..|bundles| - 1], s)
  }

  /** Linking changes parents only, each to the last link set. */
  lemma {:induction false} LinkMeaning(db: Db, plan: Plan, bundles: seq<Bundle>)
    ensures var r := LinkAll(db, plan, bundles);
      && r.events == db.events && r.messages == db.messages && r.turns == db.turns
      && r.sessions.Keys == db.sessions.Keys
      && forall s :: s in db.sessions ==>
           r.sessions[s] == if LastLink(plan, bundles, s).Some?
                            then db.sessions[s].(parent := LastLink(plan, bundles, s)) else db.sessions[s]
  {
    if bundles != [] {
      var init, b := bundles[..|bundles| - 1], bundles[|bundles| - 1];
      LinkMeaning(db, plan, init);
      LinkElsewhere(plan, b);
      hide Link;
    }
  }

  lemma LinkElsewhere(plan: Plan, b: Bundle)
    ensures forall s :: !(b.id in plan && plan[b.id].final == s) ==> Link(plan, b, s) == None
  {
  }

  lemma {:induction false} LinkInTargets(plan: Plan, bundles: seq<Bundle>, s: Id)
    requires LastLink(plan, bundles, s).Some?
    ensures s in Targets(plan)
  {
    if !Link(plan, bundles[|bundles| - 1], s).Some? {
      LinkInTargets(plan, bundles[..|bundles| - 1], s);
    }
  }

  ghost predicate SameRows<T(!new)>(a: map<(Id, int), T>, b: map<(Id, int), T>, s: Id) {
    forall n: int :: ((s, n) in a <==> (s, n) in b) && ((s, n) in a ==> a[(s, n)] == b[(s, n)])
  }

  /** A session, and all its rows, are in both as they are in one. */
  ghost predicate SameSession(a: Db, b: Db, s: Id) {
    && s in a.sessions && s in b.sessions && a.sessions[s] == b.sessions[s]
    && SameRows(a.events, b.events, s) && SameRows(a.messages, b.messages, s) && SameRows(a.turns, b.turns, s)
  }

  lemma {:induction false} ForeignNoTarget(db: Db, ws: nat, pick: Pick, bundles: seq<Bundle>, next: Id, s: Id)
    requires SupplyFresh(db, bundles, next) && s in db.sessions && db.sessions[s].owner != Some(ws)
    ensures s !in Targets(PlanFor(db, ws, pick, bundles, next).0)
  {
    PlanRight(db, ws, pick, bundles, next);
    hide PlanFor, Copies;
  }

  lemma ImportParts(db: Db, ws: nat, pick: Pick, bundles: seq<Bundle>, next: Id)
    returns (plan: Plan, start: Work, w: Work)
    requires Import(db, ws, pick, bundles, next).Some?
    ensures (plan, start.next) == PlanFor(db, ws, pick, bundles, next)
    ensures start == Work(db, start.next, Counts(0, 0, 0))
    ensures CopyAll(start, ws, plan, bundles) == Some(w)
    ensures Import(db, ws, pick, bundles, next) == Some(w.(db := LinkAll(w.db, plan, bundles)))
  {
    hide PlanFor, CopyAll, LinkAll;
    plan := PlanFor(db, ws, pick, bundles, next).0;
    start := Work(db, PlanFor(db, ws, pick, bundles, next).1, Counts(0, 0, 0));
    w := CopyAll(start, ws, plan, bundles).value;
  }

  lemma SameInBoth(a: Db, b: Db, r: Db, targets: set<Id>, s: Id)
    requires Extends(a, b, targets) && s !in targets && s in a.sessions
    requires r.events == b.events && r.messages == b.messages && r.turns == b.turns
    requires s in r.sessions && r.sessions[s] == b.sessions[s]
    ensures SameSession(a, r, s)
  {
  }

  /** A session another workspace owns, or none, is not altered in any table. */
  lemma ForeignUntouched(db: Db, ws: nat, pick: Pick, bundles: seq<Bundle>, next: Id, s: Id)
    requires SupplyFresh(db, bundles, next) && s in db.sessions && db.sessions[s].owner != Some(ws)
    requires Import(db, ws, pick, bundles, next).Some?
    ensures SameSession(db, Import(db, ws, pick, bundles, next).value.db, s)
  {
    hide PlanFor, CopyAll, LinkAll, Targets, LastLink, SupplyFresh, Import, SameSession, RowsExtend;
    var plan, start, w := ImportParts(db, ws, pick, bundles, next);
    ForeignNoTarget(db, ws, pick, bundles, next, s);
    AllExtend(start, ws, plan, bundles);
    LinkMeaning(w.db, plan, bundles);
    if LastLink(plan, bundles, s).Some? {
      LinkInTargets(plan, bundles, s);
    }
    SameInBoth(db, w.db, LinkAll(w.db, plan, bundles), Targets(plan), s);
  }

  // ---------------------------------------------------------------------
  // What an import puts in place
  // ---------------------------------------------------------------------

  ghost predicate EventsBelow(db: Db, next: Id) {
    forall k :: k in db.events ==> db.events[k].id < next
  }

  ghost predicate GivenBelow(es: seq<EventRow>, next: Id) {
    forall j :: 0 <= j < |es| ==> es[j].id < next
  }

  /** An event row is in its place, or its own id already stands elsewhere. */
  ghost predicate EventThere(db: Db, final: Id, mint: bool, e: EventRow) {
    e.hashDecodes && ((final, e.seqNo) in db.events || (!mint && EventIdUsed(db, e.id)))
  }

  lemma OneEventCopied(w: Work, final: Id, mint: bool, e: EventRow)
    requires EventsBelow(w.db, w.next) && e.id < w.next && CopyEvent(w, final, mint, e).Some?
    ensures var v := CopyEvent(w, final, mint, e).value;
      && EventsBelow(v.db, v.next) && w.next <= v.next
      && EventThere(v.db, final, mint, e)
      && forall k :: k in w.db.events ==> k in v.db.events && v.db.events[k] == w.db.events[k]
  {
    var v := CopyEvent(w, final, mint, e).value;
    if mint {
      assert !EventIdUsed(w.db, w.next);
    } else if (final, e.seqNo) !in w.db.events && EventIdUsed(w.db, e.id) {
      assert v == w;
    }
  }

  lemma EventStays(a: Db, b: Db, final: Id, mint: bool, e: EventRow)
    requires forall k :: k in a.events ==> k in b.events && b.events[k] == a.events[k]
    requires EventThere(a, final, mint, e)
    ensures EventThere(b, final, mint, e)
  {
    if EventIdUsed(a, e.id) {
      var k :| k in a.events && a.events[k].id == e.id;
      assert k in b.events && b.events[k].id == e.id;
    }
  }

  lemma {:induction false} EventsCopied(w: Work, final: Id, mint: bool, es: seq<EventRow>)
    requires EventsBelow(w.db, w.next) && GivenBelow(es, w.next) && CopyEvents(w, final, mint, es).Some?
    ensures var v := CopyEvents(w, final, mint, es).value;
      && EventsBelow(v.db, v.next) && w.next <= v.next
      && forall j :: 0 <= j < |es| ==> EventThere(v.db, final, mint, es[j])
  {
    if es != [] {
      var init, e := es[..|es| - 1], es[|es| - 1];
      EventsCopied(w, final, mint, init);
      var u := CopyEvents(w, final, mint, init).value;
      hide EventsBelow, EventThere, CopyEvent;
      OneEventCopied(u, final, mint, e);
      var v := CopyEvent(u, final, mint, e).value;
      forall j | 0 <= j < |es|
        ensures EventThere(v.db, final, mint, es[j])
      {
        if j < |init| {
          assert es[j] == init[j];
          EventStays(u.db, v.db, final, mint, es[j]);
        }
      }
    }
  }

  /** All of a bundle's rows stand where its session was placed. */
  ghost predicate RowsThere(db: Db, b: Bundle, final: Id, mint: bool) {
    && (forall j :: 0 <= j < |b.events| ==> EventThere(db, final, mint, b.events[j]))
    && (forall j :: 0 <= j < |b.messages| ==> (final, b.messages[j].seqNo) in db.messages)
    && (forall j :: 0 <= j < |b.turns| ==> (final, b.turns[j].turn) in db.turns)
  }

  ghost predicate Settled(db: Db, ws: nat, b: Bundle, p: Placement) {
    && p.final in db.sessions
    && db.sessions[p.final].owner == Some(ws)
    && (p.mode.Insert? ==> db.sessions[p.final] == Session(Some(ws), None, Some(b.id), b.body))
    && RowsThere(db, b, p.final, p.mode.Insert?)
  }

  lemma RowsStay(a: Db, b: Db, targets: set<Id>, bundle: Bundle, final: Id, mint: bool)
    requires Extends(a, b, targets) && RowsThere(a, bundle, final, mint)
    ensures RowsThere(b, bundle, final, mint)
  {
    hide EventThere;
    forall j | 0 <= j < |bundle.events|
      ensures EventThere(b, final, mint, bundle.events[j])
    {
      EventStays(a, b, final, mint, bundle.events[j]);
    }
  }

  lemma SettledStays(a: Db, b: Db, targets: set<Id>, ws: nat, bundle: Bundle, p: Placement)
    requires Extends(a, b, targets) && Settled(a, ws, bundle, p)
    ensures Settled(b, ws, bundle, p)
  {
    RowsStay(a, b, targets, bundle, p.final, p.mode.Insert?);
    hide RowsThere, RowsExtend;
  }

  lemma RowsSettle(w: Work, b: Bundle, final: Id, mint: bool)
    requires EventsBelow(w.db, w.next) && GivenBelow(b.events, w.next) && CopyRows(w, b, final, mint).Some?
    ensures var v := CopyRows(w, b, final, mint).value;
      && EventsBelow(v.db, v.next) && w.next <= v.next
      && RowsThere(v.db, b, final, mint)
  {
    hide CopyEvents, CopyRows, EventThere, Extends;
    RowsOfBundle(w, b, final, mint, {final});
    EventsCopied(w, final, mint, b.events);
    var u, v := CopyEvents(w, final, mint, b.events).value, CopyRows(w, b, final, mint).value;
    forall j | 0 <= j < |b.events|
      ensures EventThere(v.db, final, mint, b.events[j])
    {
      EventStays(u.db, v.db, final, mint, b.events[j]);
    }
  }

  lemma BundleSettles(w: Work, ws: nat, b: Bundle, p: Placement)
    requires EventsBelow(w.db, w.next) && GivenBelow(b.events, w.next) && CopyBundle(w, ws, b, p).Some?
    requires p.mode.Update? ==> p.final in w.db.sessions && w.db.sessions[p.final].owner == Some(ws)
    ensures var v := CopyBundle(w, ws, b, p).value;
      && EventsBelow(v.db, v.next) && w.next <= v.next
      && (p.mode != AlreadyImported ==> Settled(v.db, ws, b, p))
      && (p.mode.Insert? ==> p.final !in w.db.sessions)
  {
    hide CopyRows, RowsThere, Extends;
    match p.mode {
      case AlreadyImported =>
      case Update =>
        RowsSettle(w, b, p.final, false);
        RowsOfBundle(w, b, p.final, false, {p.final});
      case Insert =>
        var v := CopySession(w, ws, b, p.final).value;
        RowsSettle(v, b, p.final, true);
        RowsOfBundle(v, b, p.final, true, {p.final});
    }
  }

  /** What copying needs of the plan and of the supply. */
  ghost predicate Ready(w: Work, ws: nat, plan: Plan, bundles: seq<Bundle>) {
    && EventsBelow(w.db, w.next)
    && (forall i :: 0 <= i < |bundles| ==> bundles[i].id in plan)
    && (forall i :: 0 <= i < |bundles| ==> GivenBelow(bundles[i].events, w.next))
    && (forall id :: id in plan && plan[id].mode.Update? ==>
          plan[id].final in w.db.sessions && w.db.sessions[plan[id].final].owner == Some(ws))
  }

  ghost predicate AllSettled(db: Db, ws: nat, plan: Plan, bundles: seq<Bundle>) {
    forall i :: 0 <= i < |bundles| && Written(plan, bundles[i].id) ==>
      Settled(db, ws, bundles[i], plan[bundles[i].id])
  }

  lemma AllSettledStays(a: Db, b: Db, targets: set<Id>, ws: nat, plan: Plan, bundles: seq<Bundle>)
    requires AllSettled(a, ws, plan, bundles) && Extends(a, b, targets)
    ensures AllSettled(b, ws, plan, bundles)
  {
    hide Settled, Extends;
    forall i | 0 <= i < |bundles| && Written(plan, bundles[i].id)
      ensures Settled(b, ws, bundles[i], plan[bundles[i].id])
    {
      SettledStays(a, b, targets, ws, bundles[i], plan[bundles[i].id]);
    }
  }

  lemma AllSettledSnoc(db: Db, ws: nat, plan: Plan, bundles: seq<Bundle>)
    requires bundles != []
    requires AllSettled(db, ws, plan, bundles[..|bundles| - 1])
    requires var b := bundles[|bundles| - 1]; Written(plan, b.id) ==> Settled(db, ws, b, plan[b.id])
    ensures AllSettled(db, ws, plan, bundles)
  {
    hide Settled;
    var init := bundles[..|bundles| - 1];
    assert forall i :: 0 <= i < |init| ==> init[i] == bundles[i];
  }

  lemma PlaceStays(a: Db, b: Db, targets: set<Id>, s: Id, ws: nat)
    ensures Extends(a, b, targets) && s in a.sessions && a.sessions[s].owner == Some(ws) ==>
      s in b.sessions && b.sessions[s].owner == Some(ws)
  {
  }

  lemma ReadyInit(w: Work, ws: nat, plan: Plan, bundles: seq<Bundle>)
    requires Ready(w, ws, plan, bundles) && bundles != []
    ensures Ready(w, ws, plan, bundles[..|bundles| - 1])
    ensures var b := bundles[|bundles| - 1];
      && b.id in plan && GivenBelow(b.events, w.next)
      && (plan[b.id].mode.Update? ==>
           plan[b.id].final in w.db.sessions && w.db.sessions[plan[b.id].final].owner == Some(ws))
  {
    hide GivenBelow, EventsBelow;
    var n := |bundles| - 1;
    assert forall i :: 0 <= i < n ==> bundles[..n][i] == bundles[i];
  }

  lemma ReadyBelow(w: Work, ws: nat, plan: Plan, bundles: seq<Bundle>)
    ensures Ready(w, ws, plan, bundles) ==> EventsBelow(w.db, w.next)
  {
  }

  lemma {:induction false} AllSettle(w: Work, ws: nat, plan: Plan, bundles: seq<Bundle>)
    requires Ready(w, ws, plan, bundles) && CopyAll(w, ws, plan, bundles).Some?
    ensures var v := CopyAll(w, ws, plan, bundles).value;
      EventsBelow(v.db, v.next) && w.next <= v.next && AllSettled(v.db, ws, plan, bundles)
  {
    ReadyBelow(w, ws, plan, bundles);
    if bundles != [] {
      hide CopyBundle, Ready, Settled, EventsBelow, GivenBelow, Extends, AllSettled;
      ReadyInit(w, ws, plan, bundles);
      var init, b := bundles[..|bundles| - 1], bundles[|bundles| - 1];
      var u, v := CopyAll(w, ws, plan, init).value, CopyAll(w, ws, plan, bundles).value;
      var p := plan[b.id];
      hide CopyAll;
      AllSettle(w, ws, plan, init);
      AllExtend(w, ws, plan, init);
      GivenGrows(b.events, w.next, u.next);
      if p.mode.Update? {
        PlaceStays(w.db, u.db, Targets(plan), p.final, ws);
      }
      BundleSettles(u, ws, b, p);
      BundleExtends(u, ws, b, p, {p.final});
      AllSettledStays(u.db, v.db, {p.final}, ws, plan, init);
      AllSettledSnoc(v.db, ws, plan, bundles);
    }
  }

  /** A new session is written once: a second copy under one id would fail the import. */
  lemma {:induction false} InsertOnce(w: Work, ws: nat, plan: Plan, bundles: seq<Bundle>, id: Id)
    requires Ready(w, ws, plan, bundles) && CopyAll(w, ws, plan, bundles).Some?
    requires id in plan && plan[id].mode.Insert?
    ensures Occurrences(bundles, id) <= 1
  {
    if bundles != [] {
      ReadyInit(w, ws, plan, bundles);
      hide Ready, Settled, CopyRows;
      var init, b := bundles[..|bundles| - 1], bundles[|bundles| - 1];
      InsertOnce(w, ws, plan, init, id);
      if b.id == id && Occurrences(init, id) > 0 {
        AllSettle(w, ws, plan, init);
        var i := OccursAt(init, id);
        SettledPlace(CopyAll(w, ws, plan, init).value.db, ws, init[i], plan[id]);
      }
    }
  }

  lemma GivenGrows(es: seq<EventRow>, a: Id, b: Id)
    ensures GivenBelow(es, a) && a <= b ==> GivenBelow(es, b)
  {
  }

  lemma SettledPlace(db: Db, ws: nat, b: Bundle, p: Placement)
    ensures Settled(db, ws, b, p) ==> p.final in db.sessions && db.sessions[p.final].owner == Some(ws)
    ensures Settled(db, ws, b, p) ==>
      (p.mode.Insert? ==> db.sessions[p.final] == Session(Some(ws), None, Some(b.id), b.body))
  {
  }

  lemma {:induction false} OccursAt(bundles: seq<Bundle>, id: Id) returns (i: nat)
    requires Occurrences(bundles, id) > 0
    ensures i < |bundles| && bundles[i].id == id
  {
    if bundles[|bundles| - 1].id == id {
      i := |bundles| - 1;
    } else {
      i := OccursAt(bundles[..|bundles| - 1], id);
    }
  }

  lemma {:induction false} StartReady(db: Db, ws: nat, pick: Pick, bundles: seq<Bundle>, next: Id)
    requires SupplyFresh(db, bundles, next)
    ensures var (plan, n) := PlanFor(db, ws, pick, bundles, next);
      Ready(Work(db, n, Counts(0, 0, 0)), ws, plan, bundles)
  {
    PlanRight(db, ws, pick, bundles, next);
    hide PlanFor, Copies;
    var plan := PlanFor(db, ws, pick, bundles, next).0;
    forall i | 0 <= i < |bundles|
      ensures bundles[i].id in plan
    {
      OccursSome(bundles, i);
    }
  }

  // ---------------------------------------------------------------------
  // Parent links
  // ---------------------------------------------------------------------

  /** The image of a parent, if the bundle holds it. */
  function Image(plan: Plan, parent: Option<Id>): Option<Id> {
    if parent.Some? && parent.value in plan then Some(plan[parent.value].final) else None
  }

  /** The image of the last in-bundle parent listed for a session. */
  function ListedParent(plan: Plan, bundles: seq<Bundle>, id: Id): Option<Id> {
    if bundles == [] then None
    else
      var b := bundles[|bundles| - 1];
      if b.id == id && Image(plan, b.parent).Some? then Image(plan, b.parent)
      else ListedParent(plan, bundles[..|bundles| - 1], id)
  }

  lemma {:induction false} LinkListed(plan: Plan, bundles: seq<Bundle>, id: Id)
    requires FinalsDistinct(plan) && Written(plan, id)
    ensures LastLink(plan, bundles, plan[id].final) == ListedParent(plan, bundles, id)
  {
    if bundles != [] {
      LinkListed(plan, bundles[..|bundles| - 1], id);
    }
  }

  lemma {:induction false} ListedNever(plan: Plan, bundles: seq<Bundle>, id: Id)
    requires Occurrences(bundles, id) == 0
    ensures ListedParent(plan, bundles, id) == None
  {
    if bundles != [] {
      ListedNever(plan, bundles[..|bundles| - 1], id);
    }
  }

  /** Listed once, a session has the parent listed there. */
  lemma {:induction false} ListedOnce(plan: Plan, bundles: seq<Bundle>, i: nat)
    requires i < |bundles| && Occurrences(bundles, bundles[i].id) == 1
    ensures ListedParent(plan, bundles, bundles[i].id) == Image(plan, bundles[i].parent)
  {
    var n := |bundles| - 1;
    if i == n {
      ListedNever(plan, bundles[..n], bundles[i].id);
    } else {
      OccursSome(bundles[..n], i);
      ListedOnce(plan, bundles[..n], i);
    }
  }

  lemma {:induction false} OccursSome(bundles: seq<Bundle>, i: nat)
    requires i < |bundles|
    ensures Occurrences(bundles, bundles[i].id) > 0
  {
    if i < |bundles| - 1 {
      OccursSome(bundles[..|bundles| - 1], i);
    }
  }

  /**
   An imported session ends with its parent mapped to the image of that parent if
   the bundle holds it, the last one listed if there are several; otherwise a new
   session has none and an updated one keeps the one it had. Its own fields are the
   bundle's when it is new and untouched when it is not.
   */
  lemma {:induction false} ParentsMapped(db: Db, ws: nat, pick: Pick, bundles: seq<Bundle>, next: Id, i: nat)
    requires SupplyFresh(db, bundles, next) && Import(db, ws, pick, bundles, next).Some?
    requires i < |bundles|
    requires var plan := PlanFor(db, ws, pick, bundles, next).0;
      bundles[i].id in plan && Written(plan, bundles[i].id)
    ensures var plan := PlanFor(db, ws, pick, bundles, next).0;
      var after := Import(db, ws, pick, bundles, next).value.db;
      var b, p := bundles[i], plan[bundles[i].id];
      var listed := ListedParent(plan, bundles, b.id);
      var parent := if listed.Some? then listed
                    else if p.mode.Insert? || p.final !in db.sessions then None
                    else db.sessions[p.final].parent;
      && p.final in after.sessions
      && (p.mode.Insert? ==> after.sessions[p.final] == Session(Some(ws), parent, Some(b.id), b.body))
      && (p.mode.Update? ==> p.final in db.sessions && after.sessions[p.final] == db.sessions[p.final].(parent := parent))
      && (Occurrences(bundles, b.id) == 1 ==> listed == Image(plan, b.parent))
  {
    StartReady(db, ws, pick, bundles, next);
    PlanDistinct(db, ws, pick, bundles, next);
    hide PlanFor, CopyAll, LinkAll, LastLink, Occurrences, SupplyFresh, FinalsDistinct, Import, Settled, RowsExtend,
      ListedParent, Image;
    var plan, start, w := ImportParts(db, ws, pick, bundles, next);
    var b, p := bundles[i], plan[bundles[i].id];
    AllSettle(start, ws, plan, bundles);
    SettledPlace(w.db, ws, b, p);
    LinkMeaning(w.db, plan, bundles);
    LinkListed(plan, bundles, b.id);
    if Occurrences(bundles, b.id) == 1 {
      ListedOnce(plan, bundles, i);
    }
    AllExtend(start, ws, plan, bundles);
  }

  // ---------------------------------------------------------------------
  // Importing again
  // ---------------------------------------------------------------------

  ghost predicate Picks(pick: Pick) {
    forall c: set<Id> :: c != {} ==> pick(c) in c
  }

  /** How the second plan follows from the first: written sessions are now there to update or to recognise. */
  ghost predicate Follows(first: Plan, second: Plan) {
    && first.Keys == second.Keys
    && forall id :: id in first ==>
         second[id] == Placement(first[id].final,
           if Written(first, id) && first[id].final == id then Update else AlreadyImported)
  }

  ghost predicate Remains(db: Db, after: Db, s: Id) {
    && s in db.sessions && s in after.sessions
    && after.sessions[s].owner == db.sessions[s].owner && after.sessions[s].origin == db.sessions[s].origin
  }

  ghost predicate Arrived(after: Db, ws: nat, s: Id, origin: Id) {
    s in after.sessions && after.sessions[s].owner == Some(ws) && after.sessions[s].origin == Some(origin)
  }

  /** The tables after an import, as far as a second plan can tell. */
  ghost predicate AfterImport(db: Db, after: Db, ws: nat, plan: Plan) {
    && (forall s :: s in db.sessions ==> Remains(db, after, s))
    && (forall id :: id in plan && plan[id].mode.Insert? ==> Arrived(after, ws, plan[id].final, id))
    && (forall s :: s in after.sessions && s !in db.sessions ==>
          exists id :: id in plan && plan[id] == Placement(s, Insert))
  }

  lemma CopiesKept(db: Db, after: Db, ws: nat, plan: Plan, id: Id)
    requires AfterImport(db, after, ws, plan) && id in plan && !plan[id].mode.Insert?
    ensures Copies(after, ws, id) == Copies(db, ws, id)
  {
    forall s
      ensures s in Copies(after, ws, id) <==> s in Copies(db, ws, id)
    {
      if s in db.sessions {
        assert Remains(db, after, s);
      } else if s in after.sessions {
        var a :| a in plan && plan[a] == Placement(s, Insert);
        assert Arrived(after, ws, s, a);
      }
    }
  }

  lemma CopiesGained(db: Db, after: Db, ws: nat, plan: Plan, id: Id)
    requires AfterImport(db, after, ws, plan) && id in plan && plan[id].mode.Insert?
    requires Copies(db, ws, id) == {}
    ensures Copies(after, ws, id) == {plan[id].final}
  {
    forall s
      ensures s in Copies(after, ws, id) <==> s == plan[id].final
    {
      assert Arrived(after, ws, plan[id].final, id);
      if s in db.sessions {
        assert s !in Copies(db, ws, id) && Remains(db, after, s);
      } else if s in after.sessions {
        var a :| a in plan && plan[a] == Placement(s, Insert);
        assert Arrived(after, ws, s, a);
      }
    }
  }

  lemma PlacedAgain(db: Db, after: Db, ws: nat, pick: Pick, plan: Plan, id: Id, once: bool,
                    lo: Id, hi: Id, lo2: Id, hi2: Id, p: Placement)
    requires Picks(pick) && AfterImport(db, after, ws, plan) && id in plan && id < lo
    requires PlacedRight(db, ws, pick, id, once, lo, hi, plan[id])
    requires PlacedRight(after, ws, pick, id, once, lo2, hi2, p)
    requires plan[id].mode.Insert? && id in db.sessions ==> once
    ensures p == Placement(plan[id].final,
      if Written(plan, id) && plan[id].final == id then Update else AlreadyImported)
  {
    assert id in db.sessions ==> Remains(db, after, id);
    assert plan[id].mode.Insert? ==> Arrived(after, ws, plan[id].final, id);
    if id in db.sessions && db.sessions[id].owner != Some(ws) {
      if plan[id].mode.Insert? {
        CopiesGained(db, after, ws, plan, id);
        assert pick({plan[id].final}) in {plan[id].final};
      } else {
        CopiesKept(db, after, ws, plan, id);
      }
      hide Copies, AfterImport;
    }
  }

  lemma {:induction false} PlanAgainAt(db: Db, after: Db, ws: nat, pick: Pick, bundles: seq<Bundle>,
                                       next: Id, again: Id, id: Id)
    requires Picks(pick) && SupplyFresh(db, bundles, next)
    requires var plan := PlanFor(db, ws, pick, bundles, next).0;
      && AfterImport(db, after, ws, plan) && id in plan
      && (plan[id].mode.Insert? ==> Occurrences(bundles, id) <= 1)
    ensures var plan := PlanFor(db, ws, pick, bundles, next).0;
      var plan2 := PlanFor(after, ws, pick, bundles, again).0;
      id in plan2 && plan2[id] == Placement(plan[id].final,
        if Written(plan, id) && plan[id].final == id then Update else AlreadyImported)
  {
    var (plan, n) := PlanFor(db, ws, pick, bundles, next);
    var (plan2, n2) := PlanFor(after, ws, pick, bundles, again);
    PlanRight(db, ws, pick, bundles, next);
    PlanRight(after, ws, pick, bundles, again);
    PlanBelow(db, ws, pick, bundles, next);
    hide PlanFor, PlacedRight, AfterImport, SupplyFresh, Picks, Written;
    PlacedAgain(db, after, ws, pick, plan, id, Occurrences(bundles, id) == 1, next, n, again, n2, plan2[id]);
  }

  lemma {:induction false} PlanAgain(db: Db, after: Db, ws: nat, pick: Pick, bundles: seq<Bundle>, next: Id, again: Id)
    requires Picks(pick) && SupplyFresh(db, bundles, next)
    requires var plan := PlanFor(db, ws, pick, bundles, next).0;
      && AfterImport(db, after, ws, plan)
      && forall id :: id in plan && plan[id].mode.Insert? ==> Occurrences(bundles, id) <= 1
    ensures Follows(PlanFor(db, ws, pick, bundles, next).0, PlanFor(after, ws, pick, bundles, again).0)
  {
    hide PlanFor, AfterImport, SupplyFresh, Picks, Occurrences, Written;
    var plan, plan2 := PlanFor(db, ws, pick, bundles, next).0, PlanFor(after, ws, pick, bundles, again).0;
    forall id | id in plan
      ensures id in plan2 && plan2[id] == Placement(plan[id].final,
        if Written(plan, id) && plan[id].final == id then Update else AlreadyImported)
    {
      PlanAgainAt(db, after, ws, pick, bundles, next, again, id);
    }
    PlanKeys(db, ws, pick, bundles, next);
    PlanKeys(after, ws, pick, bundles, again);
    assert plan.Keys == plan2.Keys;
  }

  lemma {:induction false} PlanKeys(db: Db, ws: nat, pick: Pick, bundles: seq<Bundle>, next: Id)
    ensures forall id :: id in PlanFor(db, ws, pick, bundles, next).0 <==> Occurrences(bundles, id) > 0
  {
    PlanRight(db, ws, pick, bundles, next);
  }

  lemma {:induction false} CopiedSessions(start: Work, w: Work, ws: nat, plan: Plan, bundles: seq<Bundle>)
    requires AllSettled(w.db, ws, plan, bundles)
    requires Extends(start.db, w.db, Targets(plan))
    requires forall id :: id in plan ==> Occurrences(bundles, id) > 0
    requires forall id :: id in plan && plan[id].mode.Update? ==> plan[id].final in start.db.sessions
    ensures AfterImport(start.db, w.db, ws, plan)
  {
    hide Settled, RowsExtend;
    forall id | id in plan && plan[id].mode.Insert?
      ensures Arrived(w.db, ws, plan[id].final, id)
    {
      var i := OccursAt(bundles, id);
      SettledPlace(w.db, ws, bundles[i], plan[id]);
    }
    forall s | s in w.db.sessions && s !in start.db.sessions
      ensures exists id :: id in plan && plan[id] == Placement(s, Insert)
    {
      var id :| id in plan && Written(plan, id) && plan[id].final == s;
      assert plan[id] == Placement(s, Insert);
    }
  }

  lemma {:induction false} LinkedSessions(db: Db, w: Db, ws: nat, plan: Plan, bundles: seq<Bundle>)
    requires AfterImport(db, w, ws, plan)
    ensures AfterImport(db, LinkAll(w, plan, bundles), ws, plan)
  {
    var linked := LinkAll(w, plan, bundles);
    LinkMeaning(w, plan, bundles);
    hide LinkAll, LastLink;
    forall s | s in db.sessions
      ensures Remains(db, linked, s)
    {
      assert Remains(db, w, s);
    }
    forall id | id in plan && plan[id].mode.Insert?
      ensures Arrived(linked, ws, plan[id].final, id)
    {
      assert Arrived(w, ws, plan[id].final, id);
    }
  }

  lemma {:induction false} ImportedSessions(db: Db, ws: nat, pick: Pick, bundles: seq<Bundle>, next: Id)
    requires SupplyFresh(db, bundles, next) && Import(db, ws, pick, bundles, next).Some?
    ensures AfterImport(db, Import(db, ws, pick, bundles, next).value.db, ws, PlanFor(db, ws, pick, bundles, next).0)
  {
    StartReady(db, ws, pick, bundles, next);
    PlanKeys(db, ws, pick, bundles, next);
    hide PlanFor, CopyAll, LinkAll, SupplyFresh, AllSettled, Extends, EventsBelow, Targets, AfterImport, Import;
    var plan, start, w := ImportParts(db, ws, pick, bundles, next);
    AllSettle(start, ws, plan, bundles);
    AllExtend(start, ws, plan, bundles);
    CopiedSessions(start, w, ws, plan, bundles);
    LinkedSessions(db, w.db, ws, plan, bundles);
  }

  /** Rows already in place are all ignored. */
  lemma {:induction false} EventsIgnored(w: Work, final: Id, mint: bool, es: seq<EventRow>)
    requires forall j :: 0 <= j < |es| ==> EventThere(w.db, final, mint, es[j])
    ensures CopyEvents(w, final, false, es) == Some(w)
  {
    if es != [] {
      EventsIgnored(w, final, mint, es[..|es| - 1]);
      assert EventThere(w.db, final, mint, es[|es| - 1]);
    }
  }

  lemma {:induction false} MessagesIgnored(w: Work, final: Id, ms: seq<MessageRow>)
    requires forall j :: 0 <= j < |ms| ==> (final, ms[j].seqNo) in w.db.messages
    ensures CopyMessages(w, final, ms) == w
  {
    if ms != [] {
      MessagesIgnored(w, final, ms[..|ms| - 1]);
    }
  }

  lemma {:induction false} TurnsIgnored(w: Work, final: Id, ts: seq<TurnRow>)
    requires forall j :: 0 <= j < |ts| ==> (final, ts[j].turn) in w.db.turns
    ensures CopyTurns(w, final, ts) == w
  {
    if ts != [] {
      TurnsIgnored(w, final, ts[..|ts| - 1]);
    }
  }

  lemma RowsIgnored(w: Work, b: Bundle, final: Id, mint: bool)
    requires RowsThere(w.db, b, final, mint)
    ensures CopyRows(w, b, final, false) == Some(w)
  {
    EventsIgnored(w, final, mint, b.events);
    MessagesIgnored(w, final, b.messages);
    TurnsIgnored(w, final, b.turns);
  }

  ghost predicate AllThere(db: Db, plan: Plan, bundles: seq<Bundle>) {
    forall i :: 0 <= i < |bundles| && Written(plan, bundles[i].id) ==>
      exists mint :: RowsThere(db, bundles[i], plan[bundles[i].id].final, mint)
  }

  lemma {:induction false} AllIgnored(w: Work, ws: nat, first: Plan, second: Plan, bundles: seq<Bundle>)
    requires Follows(first, second) && AllThere(w.db, first, bundles)
    ensures CopyAll(w, ws, second, bundles) == Some(w)
  {
    if bundles != [] {
      var init, b := bundles[..|bundles| - 1], bundles[|bundles| - 1];
      assert forall i :: 0 <= i < |init| ==> init[i] == bundles[i];
      hide RowsThere, CopyRows;
      AllIgnored(w, ws, first, second, init);
      if b.id in second && second[b.id].mode.Update? {
        var mint :| RowsThere(w.db, b, first[b.id].final, mint);
        RowsIgnored(w, b, first[b.id].final, mint);
      }
    }
  }

  /** On a session it updates, the second import sets the links the first set; on others none. */
  lemma LinkAgain(first: Plan, second: Plan, b: Bundle, s: Id)
    requires FinalsDistinct(first) && Follows(first, second)
    ensures Link(second, b, s)
      == if s in first && second[s].mode.Update? then Link(first, b, s) else None
  {
    if s in first && second[s].mode.Update? && b.id in first && b.id != s {
      assert Written(first, b.id) ==> first[b.id].final != first[s].final;
    }
  }

  lemma {:induction false} LastLinkAgain(first: Plan, second: Plan, bundles: seq<Bundle>, s: Id)
    requires FinalsDistinct(first) && Follows(first, second)
    ensures LastLink(second, bundles, s)
      == if s in first && second[s].mode.Update? then LastLink(first, bundles, s) else None
  {
    if bundles != [] {
      var init, b := bundles[..|bundles| - 1], bundles[|bundles| - 1];
      LinkAgain(first, second, b, s);
      hide Follows, FinalsDistinct, Link;
      LastLinkAgain(first, second, init, s);
    }
  }

  lemma {:induction false} LinksAgain(db: Db, first: Plan, second: Plan, bundles: seq<Bundle>)
    requires FinalsDistinct(first) && Follows(first, second)
    ensures LinkAll(LinkAll(db, first, bundles), second, bundles) == LinkAll(db, first, bundles)
  {
    var once := LinkAll(db, first, bundles);
    var twice := LinkAll(once, second, bundles);
    hide LinkAll, LastLink, FinalsDistinct;
    LinkMeaning(db, first, bundles);
    LinkMeaning(once, second, bundles);
    forall s | s in once.sessions
      ensures twice.sessions[s] == once.sessions[s]
    {
      LastLinkAgain(first, second, bundles, s);
    }
    assert twice.sessions == once.sessions;
  }

  lemma {:induction false} AllThereAfter(w: Work, ws: nat, plan: Plan, bundles: seq<Bundle>)
    requires AllSettled(w.db, ws, plan, bundles)
    ensures AllThere(LinkAll(w.db, plan, bundles), plan, bundles)
  {
    var linked := LinkAll(w.db, plan, bundles);
    LinkMeaning(w.db, plan, bundles);
    hide LinkAll, LastLink, EventThere;
    forall i | 0 <= i < |bundles| && Written(plan, bundles[i].id)
      ensures exists mint :: RowsThere(linked, bundles[i], plan[bundles[i].id].final, mint)
    {
      var p := plan[bundles[i].id];
      assert Settled(w.db, ws, bundles[i], p);
      forall j | 0 <= j < |bundles[i].events|
        ensures EventThere(linked, p.final, p.mode.Insert?, bundles[i].events[j])
      {
        EventStays(w.db, linked, p.final, p.mode.Insert?, bundles[i].events[j]);
      }
      assert RowsThere(linked, bundles[i], p.final, p.mode.Insert?);
    }
  }

  /** Importing the same bundle a second time changes no table and counts nothing. */
  lemma ImportIdempotent(db: Db, ws: nat, pick: Pick, bundles: seq<Bundle>, next: Id, again: Id)
    requires Picks(pick) && SupplyFresh(db, bundles, next) && Import(db, ws, pick, bundles, next).Some?
    ensures var after := Import(db, ws, pick, bundles, next).value.db;
      var second := Import(after, ws, pick, bundles, again);
      second.Some? && second.value.db == after && second.value.counts == Counts(0, 0, 0)
  {
    StartReady(db, ws, pick, bundles, next);
    PlanDistinct(db, ws, pick, bundles, next);
    ImportedSessions(db, ws, pick, bundles, next);
    hide PlanFor, CopyAll, LinkAll, SupplyFresh, FinalsDistinct, Picks, AfterImport, Follows, Ready, AllThere, AllSettled;
    var plan, start, w := ImportParts(db, ws, pick, bundles, next);
    var after := LinkAll(w.db, plan, bundles);
    AllSettle(start, ws, plan, bundles);
    forall id | id in plan && plan[id].mode.Insert?
      ensures Occurrences(bundles, id) <= 1
    {
      InsertOnce(start, ws, plan, bundles, id);
    }
    PlanAgain(db, after, ws, pick, bundles, next, again);
    AllThereAfter(w, ws, plan, bundles);
    var (plan2, n2) := PlanFor(after, ws, pick, bundles, again);
    AllIgnored(Work(after, n2, Counts(0, 0, 0)), ws, plan, plan2, bundles);
    LinksAgain(w.db, plan, plan2, bundles);
  }

  // ---------------------------------------------------------------------
  // The store's import
  // ---------------------------------------------------------------------

  class Database {
    var sessions: map<Id, Session>
    var events: map<(Id, int), Event>
    var messages: map<(Id, int), string>
    var turns: map<(Id, int), string>
    var next: Id
    var counts: Counts

    function Tables(): Db
      reads this
    {
      Db(sessions, events, messages, turns)
    }

    function State(): Work
      reads this
    {
      Work(Tables(), next, counts)
    }

    /** The copies an earlier import made, by the session they came from. */
    method ImportedOrigins(ws: nat, pick: Pick) returns (origins: map<Id, Id>)
      ensures forall o :: o in origins <==> Copies(Tables(), ws, o) != {}
      ensures forall o :: o in origins ==> origins[o] == pick(Copies(Tables(), ws, o))
    {
      origins := map s | s in sessions && sessions[s].owner == Some(ws) && sessions[s].origin.Some?
        :: sessions[s].origin.value := pick(Copies(Tables(), ws, sessions[s].origin.value));
      forall o
        ensures o in origins <==> Copies(Tables(), ws, o) != {}
      {
        if s :| s in sessions && sessions[s].owner == Some(ws) && sessions[s].origin == Some(o) {
          assert s in Copies(Tables(), ws, o);
        }
      }
    }

    method PlaceSessions(ws: nat, pick: Pick, bundles: seq<Bundle>) returns (plan: Plan)
      modifies this`next
      ensures (plan, next) == PlanFor(Tables(), ws, pick, bundles, old(next))
    {
      hide Copies;
      var origins := ImportedOrigins(ws, pick);
      plan := map[];
      for i := 0 to |bundles|
        invariant (plan, next) == PlanFor(Tables(), ws, pick, bundles[..i], old(next))
        invariant forall o :: o in origins ==> origins[o] == pick(Copies(Tables(), ws, o))
        invariant forall o :: o in sessions && sessions[o].owner != Some(ws) ==>
          (o in origins <==> Copies(Tables(), ws, o) != {} && o !in plan)
      {
        var id := bundles[i].id;
        assert bundles[..i + 1][..i] == bundles[..i];
        var placement: Placement;
        if id !in sessions {
          placement := Placement(id, Insert);
        } else if sessions[id].owner == Some(ws) {
          placement := Placement(id, Update);
        } else if id in origins {
          placement := Placement(origins[id], AlreadyImported);
          origins := origins - {id};
        } else {
          placement := Placement(next, Insert);
          next := next + 1;
        }
        plan := plan[id := placement];
      }
      assert bundles[..|bundles|] == bundles;
    }

    method InsertEvents(final: Id, mint: bool, es: seq<EventRow>) returns (ok: bool)
      modifies this`events, this`next, this`counts
      ensures ok <==> CopyEvents(old(State()), final, mint, es).Some?
      ensures ok ==> State() == CopyEvents(old(State()), final, mint, es).value
    {
      hide EventIdUsed;
      for i := 0 to |es|
        invariant CopyEvents(old(State()), final, mint, es[..i]) == Some(State())
      {
        var e := es[i];
        assert es[..i + 1][..i] == es[..i];
        if !e.hashDecodes {
          EventsStop(old(State()), final, mint, es, i);
          return false;
        }
        var id := e.id;
        if mint {
          id := next;
          next := next + 1;
        }
        if (final, e.seqNo) !in events && !EventIdUsed(Tables(), id) {
          events := events[(final, e.seqNo) := Event(id, e.body)];
          counts := counts.(events := counts.events + 1);
        }
      }
      assert es[..|es|] == es;
      ok := true;
    }

    method InsertMessages(final: Id, ms: seq<MessageRow>)
      modifies this`messages, this`counts
      ensures State() == CopyMessages(old(State()), final, ms)
    {
      for i := 0 to |ms|
        invariant State() == CopyMessages(old(State()), final, ms[..i])
      {
        assert ms[..i + 1][..i] == ms[..i];
        if (final, ms[i].seqNo) !in messages {
          messages := messages[(final, ms[i].seqNo) := ms[i].body];
          counts := counts.(messages := counts.messages + 1);
        }
      }
      assert ms[..|ms|] == ms;
    }

    method InsertTurns(final: Id, ts: seq<TurnRow>)
      modifies this`turns
      ensures State() == CopyTurns(old(State()), final, ts)
    {
      for i := 0 to |ts|
        invariant State() == CopyTurns(old(State()), final, ts[..i])
      {
        assert ts[..i + 1][..i] == ts[..i];
        if (final, ts[i].turn) !in turns {
          turns := turns[(final, ts[i].turn) := ts[i].body];
        }
      }
      assert ts[..|ts|] == ts;
    }

    method InsertBundle(ws: nat, b: Bundle, p: Placement) returns (ok: bool)
      modifies this
      ensures ok <==> CopyBundle(old(State()), ws, b, p).Some?
      ensures ok ==> State() == CopyBundle(old(State()), ws, b, p).value
    {
      if p.mode == AlreadyImported {
        return true;
      }
      var copied := p.mode == Insert;
      if copied {
        if p.final in sessions {
          return false;
        }
        sessions := sessions[p.final := Session(Some(ws), None, Some(b.id), b.body)];
        counts := counts.(sessions := counts.sessions + 1);
      }
      ok := InsertEvents(p.final, copied, b.events);
      if ok {
        InsertMessages(p.final, b.messages);
        InsertTurns(p.final, b.turns);
      }
    }

    method InsertBundles(ws: nat, plan: Plan, bundles: seq<Bundle>) returns (ok: bool)
      modifies this
      ensures ok <==> CopyAll(old(State()), ws, plan, bundles).Some?
      ensures ok ==> State() == CopyAll(old(State()), ws, plan, bundles).value
    {
      hide CopyBundle;
      for i := 0 to |bundles|
        invariant CopyAll(old(State()), ws, plan, bundles[..i]) == Some(State())
      {
        assert bundles[..i + 1][..i] == bundles[..i];
        if bundles[i].id in plan {
          var added := InsertBundle(ws, bundles[i], plan[bundles[i].id]);
          if !added {
            CopyStops(old(State()), ws, plan, bundles, i);
            return false;
          }
        }
      }
      assert bundles[..|bundles|] == bundles;
      ok := true;
    }

    method LinkParents(plan: Plan, bundles: seq<Bundle>)
      modifies this`sessions
      ensures Tables() == LinkAll(old(Tables()), plan, bundles)
    {
      for i := 0 to |bundles|
        invariant Tables() == LinkAll(old(Tables()), plan, bundles[..i])
      {
        var b := bundles[i];
        assert bundles[..i + 1][..i] == bundles[..i];
        if b.parent.Some? && b.parent.value in plan && b.id in plan && plan[b.id].mode != AlreadyImported {
          var final := plan[b.id].final;
          if final in sessions {
            sessions := sessions[final := sessions[final].(parent := Some(plan[b.parent.value].final))];
          }
        }
      }
      assert bundles[..|bundles|] == bundles;
    }

    /** One transaction: on any failure every table is as before. */
    method ImportWorkspaceState(ws: nat, pick: Pick, bundles: seq<Bundle>) returns (imported: Option<Counts>)
      modifies this
      ensures var result := Import(old(Tables()), ws, pick, bundles, old(next));
        if result.None? then imported == None && Tables() == old(Tables())
        else State() == result.value && imported == Some(result.value.counts)
    {
      hide CopyAll, LinkAll, PlanFor;
      var before := Tables();
      counts := Counts(0, 0, 0);
      var plan := PlaceSessions(ws, pick, bundles);
      var ok := InsertBundles(ws, plan, bundles);
      if !ok {
        sessions, events, messages, turns := before.sessions, before.events, before.messages, before.turns;
        return None;
      }
      LinkParents(plan, bundles);
      return Some(counts);
    }
  }

  /** A row that fails fails all rows after it. */
  lemma {:induction false} EventsStop(w: Work, final: Id, mint: bool, es: seq<EventRow>, i: nat)
    requires i < |es| && CopyEvents(w, final, mint, es[..i + 1]).None?
    ensures CopyEvents(w, final, mint, es).None?
  {
    if i + 1 < |es| {
      assert es[..|es| - 1][..i + 1] == es[..i + 1];
      EventsStop(w, final, mint, es[..|es| - 1], i);
    } else {
      assert es[..i + 1] == es;
    }
  }

  lemma {:induction false} CopyStops(w: Work, ws: nat, plan: Plan, bundles: seq<Bundle>, i: nat)
    requires i < |bundles| && CopyAll(w, ws, plan, bundles[..i + 1]).None?
    ensures CopyAll(w, ws, plan, bundles).None?
  {
    if i + 1 < |bundles| {
      assert bundles[..|bundles| - 1][..i + 1] == bundles[..i + 1];
      CopyStops(w, ws, plan, bundles[..|bundles| - 1], i);
    } else {
      assert bundles[..i + 1] == bundles;
    }
  }
}
