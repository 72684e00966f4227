/**
 Read positions of a polled source: a watermark kept behind the newest event, and the ids of the last
 triggers emitted. What holds over any run of polls, failed ones included.

 Models crates/openbad-pipeline/src/cursor.rs and crates/openbad-pipeline/src/source.rs.
 */
module Cursor {
  import opened Wrappers
  import Civil

  const WATERMARK_OVERLAP_MS := 60000
  const MAX_REMEMBERED_TRIGGERS := 2048

  datatype Position = Position(watermark: int, emitted: seq<string>)

  // One id offered for acceptance, with the provider's time.
  datatype Offer = Offer(id: string, at: int)

  const FIRST := Position(0, [])

  function SinceMs(p: Position): int {
    Max(p.watermark - WATERMARK_OVERLAP_MS, 0)
  }

  function LastOf<T>(xs: seq<T>, n: nat): (r: seq<T>)
    ensures |r| == Min(|xs|, n)
  {
    if |xs| <= n then xs else xs[|xs| - n..]
  }

  function Accepted(p: Position, offer: Offer): (Position, bool) {
    if offer.id in p.emitted then (p, false)
    else (Position(Max(p.watermark, offer.at), LastOf(p.emitted + [offer.id], MAX_REMEMBERED_TRIGGERS)), true)
  }

  /** The position after a run of offers, and the offers that were accepted. */
  function Run(p: Position, offers: seq<Offer>): (Position, seq<Offer>) {
    if offers == [] then (p, [])
    else
      var last := offers[|offers| - 1];
      var (q, before) := Run(p, offers[..|offers| - 1]);
      var (r, isNew) := Accepted(q, last);
      (r, if isNew then before + [last] else before)
  }

  class SourceCursor {
    var watermark: int
    var emitted: seq<string>

    function State(): Position
      reads this
    {
      Position(watermark, emitted)
    }

    constructor (p: Position)
      ensures State() == p
    {
      watermark, emitted := p.watermark, p.emitted;
    }

    method Seen(id: string) returns (seen: bool)
      ensures seen <==> id in emitted
    {
      seen := false;
      for i := 0 to |emitted|
        invariant seen <==> id in emitted[..i]
      {
        if emitted[i] == id {
          seen := true;
        }
      }
      assert emitted[..|emitted|] == emitted;
    }

    method Accept(offer: Offer) returns (isNew: bool)
      modifies this
      ensures (State(), isNew) == Accepted(old(State()), offer)
    {
      var seen := Seen(offer.id);
      if seen {
        return false;
      }
      emitted := emitted + [offer.id];
      if |emitted| > MAX_REMEMBERED_TRIGGERS {
        var excess := |emitted| - MAX_REMEMBERED_TRIGGERS;
        emitted := emitted[excess..];
      }
      watermark := Max(watermark, offer.at);
      isNew := true;
    }
  }

  // ---------------------------------------------------------------------
  // Any run of offers
  // ---------------------------------------------------------------------

  function Ids(offers: seq<Offer>): seq<string> {
    if offers == [] then [] else Ids(offers[..|offers| - 1]) + [offers[|offers| - 1].id]
  }

  lemma {:induction false} IdsAt(offers: seq<Offer>)
    ensures |Ids(offers)| == |offers|
    ensures forall i :: 0 <= i < |offers| ==> Ids(offers)[i] == offers[i].id
  {
    if offers != [] {
      IdsAt(offers[..|offers| - 1]);
    }
  }

  ghost predicate Distinct(ids: seq<string>) {
    forall i, j :: 0 <= i < j < |ids| ==> ids[i] != ids[j]
  }

  /** Two acceptances of one id have at least 2048 others between them. */
  ghost predicate Apart(ids: seq<string>) {
    forall i, j :: 0 <= i < j < |ids| && ids[i] == ids[j] ==> j - i > MAX_REMEMBERED_TRIGGERS
  }

  ghost predicate IsMaximum(w: int, offers: seq<Offer>) {
    && w >= 0
    && (forall i :: 0 <= i < |offers| ==> offers[i].at <= w)
    && (w == 0 || exists i :: 0 <= i < |offers| && offers[i].at == w)
  }

  /** What the position knows of everything accepted so far. */
  ghost predicate Knows(p: Position, accepted: seq<Offer>) {
    && p.emitted == LastOf(Ids(accepted), MAX_REMEMBERED_TRIGGERS)
    && Distinct(p.emitted)
    && Apart(Ids(accepted))
    && IsMaximum(p.watermark, accepted)
  }

  lemma LastOfSnoc(ids: seq<string>, id: string, n: nat)
    ensures n > 0 ==> LastOf(LastOf(ids, n) + [id], n) == LastOf(ids + [id], n)
  {
  }

  lemma RecentIn(ids: seq<string>, i: nat)
    requires i < |ids| && |ids| - i <= MAX_REMEMBERED_TRIGGERS
    ensures ids[i] in LastOf(ids, MAX_REMEMBERED_TRIGGERS)
  {
    var recent := LastOf(ids, MAX_REMEMBERED_TRIGGERS);
    assert recent[i - (|ids| - |recent|)] == ids[i];
  }

  lemma ApartSnoc(ids: seq<string>, id: string)
    requires Apart(ids) && id !in LastOf(ids, MAX_REMEMBERED_TRIGGERS)
    ensures Apart(ids + [id])
  {
    forall i | 0 <= i < |ids| && ids[i] == id
      ensures |ids| - i > MAX_REMEMBERED_TRIGGERS
    {
      if |ids| - i <= MAX_REMEMBERED_TRIGGERS {
        RecentIn(ids, i);
      }
    }
  }

  lemma ApartDistinct(ids: seq<string>)
    requires Apart(ids)
    ensures Distinct(LastOf(ids, MAX_REMEMBERED_TRIGGERS))
  {
    var recent := LastOf(ids, MAX_REMEMBERED_TRIGGERS);
    assert forall i :: 0 <= i < |recent| ==> recent[i] == ids[|ids| - |recent| + i];
  }

  lemma MaximumSnoc(w: int, offers: seq<Offer>, offer: Offer)
    requires IsMaximum(w, offers)
    ensures IsMaximum(Max(w, offer.at), offers + [offer])
  {
    var more := offers + [offer];
    assert more[|offers|] == offer;
    if Max(w, offer.at) == w && w != 0 {
      var i :| 0 <= i < |offers| && offers[i].at == w;
      assert more[i].at == w;
    }
  }

  lemma {:induction false} AcceptKnows(p: Position, accepted: seq<Offer>, offer: Offer)
    requires Knows(p, accepted)
    ensures var (q, isNew) := Accepted(p, offer);
      && (isNew <==> offer.id !in LastOf(Ids(accepted), MAX_REMEMBERED_TRIGGERS))
      && Knows(q, if isNew then accepted + [offer] else accepted)
  {
    if offer.id !in p.emitted {
      hide Distinct, Apart, IsMaximum, LastOf;
      var ids := Ids(accepted);
      assert (accepted + [offer])[..|accepted|] == accepted;
      LastOfSnoc(ids, offer.id, MAX_REMEMBERED_TRIGGERS);
      ApartSnoc(ids, offer.id);
      ApartDistinct(ids + [offer.id]);
      MaximumSnoc(p.watermark, accepted, offer);
    }
  }

  lemma {:induction false} RunKnows(offers: seq<Offer>)
    ensures Knows(Run(FIRST, offers).0, Run(FIRST, offers).1)
  {
    if offers != [] {
      var init, last := offers[..|offers| - 1], offers[|offers| - 1];
      RunKnows(init);
      AcceptKnows(Run(FIRST, init).0, Run(FIRST, init).1, last);
    }
  }

  lemma {:induction false} RunAppend(p: Position, a: seq<Offer>, b: seq<Offer>)
    ensures var (q, before) := Run(p, a);
      var (r, added) := Run(q, b);
      Run(p, a + b) == (r, before + added)
  {
    if b == [] {
      assert a + b == a && Run(p, a).1 + [] == Run(p, a).1;
    } else {
      var init := b[..|b| - 1];
      assert (a + b)[..|a + b| - 1] == a + init;
      RunAppend(p, a, init);
      var before, added := Run(p, a).1, Run(Run(p, a).0, init).1;
      assert (before + added) + [b[|b| - 1]] == before + (added + [b[|b| - 1]]);
    }
  }

  // ---------------------------------------------------------------------
  // Polling
  // ---------------------------------------------------------------------

  datatype Trigger = Trigger(id: string, actor: string, at: int)

  // The three reads of one poll; each may fail.
  datatype Feeds = Feeds(
    issues: Option<seq<Trigger>>,
    comments: Option<seq<Trigger>>,
    reviews: Option<seq<Trigger>>)

  // What the provider answers to a `since` text.
  type Provider = string -> Feeds

  type OwnBot = string -> bool

  datatype Outcome = Outcome(triggers: seq<Trigger>, position: Position, ownBot: nat, duplicate: nat)

  function Admit(own: OwnBot, o: Outcome, t: Trigger): Outcome {
    if own(t.actor) then o.(ownBot := o.ownBot + 1)
    else
      var (p, isNew) := Accepted(o.position, Offer(t.id, t.at));
      if isNew then o.(position := p, triggers := o.triggers + [t]) else o.(duplicate := o.duplicate + 1)
  }

  function AdmitAll(own: OwnBot, o: Outcome, ts: seq<Trigger>): Outcome {
    if ts == [] then o else Admit(own, AdmitAll(own, o, ts[..|ts| - 1]), ts[|ts| - 1])
  }

  function Fetched(f: Feeds): Option<seq<Trigger>> {
    if f.issues.Some? && f.comments.Some? && f.reviews.Some? then
      Some(f.issues.value + f.comments.value + f.reviews.value)
    else None
  }

  function SinceText(p: Position): string {
    Civil.Iso8601FromMs(SinceMs(p))
  }

  /** One poll: everything or, after any failed read, nothing. */
  function Polled(own: OwnBot, p: Position, provider: Provider): Option<Outcome> {
    match Fetched(provider(SinceText(p)))
    case None => None
    case Some(ts) => Some(AdmitAll(own, Outcome([], p, 0, 0), ts))
  }

  class PollOutcome {
    var triggers: seq<Trigger>
    const cursor: SourceCursor
    var droppedOwnBot: nat
    var droppedDuplicate: nat

    function State(): Outcome
      reads this, cursor
    {
      Outcome(triggers, cursor.State(), droppedOwnBot, droppedDuplicate)
    }

    constructor (p: Position)
      ensures fresh(cursor) && State() == Outcome([], p, 0, 0)
    {
      triggers := [];
      cursor := new SourceCursor(p);
      droppedOwnBot, droppedDuplicate := 0, 0;
    }

    method Accept(own: OwnBot, trigger: Trigger)
      modifies this, cursor
      ensures State() == Admit(own, old(State()), trigger)
    {
      if own(trigger.actor) {
        droppedOwnBot := droppedOwnBot + 1;
        return;
      }
      var isNew := cursor.Accept(Offer(trigger.id, trigger.at));
      if isNew {
        triggers := triggers + [trigger];
      } else {
        droppedDuplicate := droppedDuplicate + 1;
      }
    }

    method AcceptAll(own: OwnBot, ts: seq<Trigger>)
      modifies this, cursor
      ensures State() == AdmitAll(own, old(State()), ts)
    {
      for i := 0 to |ts|
        invariant State() == AdmitAll(own, old(State()), ts[..i])
      {
        assert ts[..i + 1][..i] == ts[..i];
        Accept(own, ts[i]);
      }
      assert ts[..|ts|] == ts;
    }
  }

  lemma {:induction false} AdmitAppend(own: OwnBot, o: Outcome, a: seq<Trigger>, b: seq<Trigger>)
    ensures AdmitAll(own, o, a + b) == AdmitAll(own, AdmitAll(own, o, a), b)
  {
    if b == [] {
      assert a + b == a;
    } else {
      assert (a + b)[..|a + b| - 1] == a + b[..|b| - 1];
      AdmitAppend(own, o, a, b[..|b| - 1]);
    }
  }

  /** The given cursor is copied, never changed: a failed poll loses nothing. */
  method Poll(own: OwnBot, cursor: SourceCursor, provider: Provider) returns (outcome: Option<PollOutcome>)
    ensures outcome.None? <==> Polled(own, cursor.State(), provider).None?
    ensures outcome.Some? ==> fresh(outcome.value) && fresh(outcome.value.cursor)
    ensures outcome.Some? ==> Some(outcome.value.State()) == Polled(own, cursor.State(), provider)
  {
    hide AdmitAll;
    var since := SinceText(cursor.State());
    var result := new PollOutcome(cursor.State());
    ghost var start := result.State();
    var feeds := provider(since);
    if feeds.issues.None? {
      return None;
    }
    result.AcceptAll(own, feeds.issues.value);
    if feeds.comments.None? {
      return None;
    }
    AdmitAppend(own, start, feeds.issues.value, feeds.comments.value);
    result.AcceptAll(own, feeds.comments.value);
    if feeds.reviews.None? {
      return None;
    }
    AdmitAppend(own, start, feeds.issues.value + feeds.comments.value, feeds.reviews.value);
    result.AcceptAll(own, feeds.reviews.value);
    return Some(result);
  }

  // ---------------------------------------------------------------------
  // Any run of polls
  // ---------------------------------------------------------------------

  function Offers(own: OwnBot, ts: seq<Trigger>): seq<Offer> {
    if ts == [] then []
    else
      var t := ts[|ts| - 1];
      Offers(own, ts[..|ts| - 1]) + (if own(t.actor) then [] else [Offer(t.id, t.at)])
  }

  function OffersOf(ts: seq<Trigger>): seq<Offer> {
    Offers(_ => false, ts)
  }

  lemma {:induction false} OffersAppend(own: OwnBot, a: seq<Trigger>, b: seq<Trigger>)
    ensures Offers(own, a + b) == Offers(own, a) + Offers(own, b)
  {
    if b == [] {
      assert a + b == a;
    } else {
      var last := if own(b[|b| - 1].actor) then [] else [Offer(b[|b| - 1].id, b[|b| - 1].at)];
      assert (a + b)[..|a + b| - 1] == a + b[..|b| - 1];
      OffersAppend(own, a, b[..|b| - 1]);
      assert (Offers(own, a) + Offers(own, b[..|b| - 1])) + last == Offers(own, a) + (Offers(own, b[..|b| - 1]) + last);
    }
  }

  lemma OffersSnoc(ts: seq<Trigger>, t: Trigger)
    ensures OffersOf(ts + [t]) == OffersOf(ts) + [Offer(t.id, t.at)]
  {
    assert (ts + [t])[..|ts|] == ts;
  }

  /** A poll emits what a run of its own offers accepts, and accounts for every trigger it read. */
  lemma {:induction false} AdmitAllMeaning(own: OwnBot, p: Position, ts: seq<Trigger>)
    ensures var o := AdmitAll(own, Outcome([], p, 0, 0), ts);
      && (o.position, OffersOf(o.triggers)) == Run(p, Offers(own, ts))
      && |o.triggers| + o.ownBot + o.duplicate == |ts|
  {
    if ts != [] {
      var init, t := ts[..|ts| - 1], ts[|ts| - 1];
      var o := AdmitAll(own, Outcome([], p, 0, 0), init);
      AdmitAllMeaning(own, p, init);
      OffersSnoc(o.triggers, t);
      if own(t.actor) {
        assert Offers(own, init) + [] == Offers(own, init);
      } else {
        var offers := Offers(own, init) + [Offer(t.id, t.at)];
        assert offers[..|offers| - 1] == Offers(own, init);
      }
    }
  }

  /** The position and everything emitted after a run of polls; a failed poll leaves the position. */
  function PollRun(own: OwnBot, providers: seq<Provider>): (Position, seq<Trigger>) {
    if providers == [] then (FIRST, [])
    else
      var (p, before) := PollRun(own, providers[..|providers| - 1]);
      match Polled(own, p, providers[|providers| - 1])
      case None => (p, before)
      case Some(o) => (o.position, before + o.triggers)
  }

  lemma {:induction false} PollRunOffers(own: OwnBot, providers: seq<Provider>) returns (offers: seq<Offer>)
    ensures var (p, emitted) := PollRun(own, providers);
      (p, OffersOf(emitted)) == Run(FIRST, offers)
  {
    if providers == [] {
      offers := [];
    } else {
      var init, provider := providers[..|providers| - 1], providers[|providers| - 1];
      offers := PollRunOffers(own, init);
      var (p, before) := PollRun(own, init);
      var fetched := Fetched(provider(SinceText(p)));
      if fetched.Some? {
        hide Run, AdmitAll, Offers;
        AdmitAllMeaning(own, p, fetched.value);
        var o := AdmitAll(own, Outcome([], p, 0, 0), fetched.value);
        RunAppend(FIRST, offers, Offers(own, fetched.value));
        OffersAppend(_ => false, before, o.triggers);
        offers := offers + Offers(own, fetched.value);
      }
    }
  }

  /**
   Over any run of polls: the remembered ids are the last 2048 emitted and free of
   duplicates, one id is never emitted twice within 2048 others, and the watermark
   is the latest time emitted.
   */
  lemma {:induction false} PollRunKnows(own: OwnBot, providers: seq<Provider>)
    ensures var (p, emitted) := PollRun(own, providers);
      Knows(p, OffersOf(emitted))
  {
    var offers := PollRunOffers(own, providers);
    RunKnows(offers);
  }

  /** Within that memory the cursor is exact: the next trigger is emitted if and only if its id is not remembered. */
  lemma {:induction false} NextEmitted(own: OwnBot, providers: seq<Provider>, t: Trigger)
    requires !own(t.actor)
    ensures var (p, emitted) := PollRun(own, providers);
      var o := Admit(own, Outcome([], p, 0, 0), t);
      o.triggers == [t] <==> t.id !in LastOf(Ids(OffersOf(emitted)), MAX_REMEMBERED_TRIGGERS)
  {
    PollRunKnows(own, providers);
    var (p, emitted) := PollRun(own, providers);
    AcceptKnows(p, OffersOf(emitted), Offer(t.id, t.at));
  }

  // A provider that sends each of n triggers once, and one that sends the first of them again.

  function Name(i: nat): string {
    seq(i, _ => 'a')
  }

  function Numbered(n: nat): seq<Trigger> {
    if n == 0 then [] else Numbered(n - 1) + [Trigger(Name(n - 1), "", 0)]
  }

  function Sending(ts: seq<Trigger>): Feeds {
    Feeds(Some(ts), Some([]), Some([]))
  }

  predicate NoBot(actor: string) {
    false
  }

  lemma {:induction false} NumberedIds(n: nat)
    ensures |Ids(OffersOf(Numbered(n)))| == n
    ensures forall i: nat :: i < n ==> Ids(OffersOf(Numbered(n)))[i] == Name(i)
  {
    if n > 0 {
      NumberedIds(n - 1);
      NumberedSnoc(n);
      OffersSnoc(Numbered(n - 1), Trigger(Name(n - 1), "", 0));
      hide *;
      IdsSnoc(OffersOf(Numbered(n - 1)), Offer(Name(n - 1), 0));
    }
  }

  lemma {:induction false} IdsSnoc(offers: seq<Offer>, offer: Offer)
    ensures Ids(offers + [offer]) == Ids(offers) + [offer.id]
  {
    assert (offers + [offer])[..|offers|] == offers;
  }

  lemma {:induction false} NumberedFresh(n: nat)
    ensures Name(n) !in LastOf(Ids(OffersOf(Numbered(n))), MAX_REMEMBERED_TRIGGERS)
  {
    NumberedIds(n);
    hide Ids, OffersOf, Numbered;
    forall i: nat | i < n
      ensures Name(i) != Name(n)
    {
      assert |Name(i)| == i && |Name(n)| == n;
    }
  }

  lemma {:induction false} AdmitNew(o: Outcome, accepted: seq<Offer>, t: Trigger)
    requires Knows(o.position, accepted) && t.id !in LastOf(Ids(accepted), MAX_REMEMBERED_TRIGGERS)
    ensures var next := Admit(NoBot, o, t);
      next.triggers == o.triggers + [t] && Knows(next.position, accepted + [Offer(t.id, t.at)])
  {
    hide Knows, Accepted;
    AcceptKnows(o.position, accepted, Offer(t.id, t.at));
  }

  lemma {:induction false} AdmitSnoc(own: OwnBot, o: Outcome, ts: seq<Trigger>, t: Trigger)
    ensures AdmitAll(own, o, ts + [t]) == Admit(own, AdmitAll(own, o, ts), t)
  {
    assert (ts + [t])[..|ts|] == ts;
    hide Admit;
  }

  lemma NumberedSnoc(n: nat)
    ensures n > 0 ==> Numbered(n) == Numbered(n - 1) + [Trigger(Name(n - 1), "", 0)]
    ensures n == 0 ==> Numbered(n) == []
  {
  }

  lemma NoneAdmitted()
    ensures AdmitAll(NoBot, Outcome([], FIRST, 0, 0), []) == Outcome([], FIRST, 0, 0)
    ensures Knows(FIRST, OffersOf([]))
  {
    RunKnows([]);
  }

  /** Distinct ids are all emitted. */
  lemma {:induction false} NumberedAdmitted(n: nat)
    ensures var o := AdmitAll(NoBot, Outcome([], FIRST, 0, 0), Numbered(n));
      o.triggers == Numbered(n) && Knows(o.position, OffersOf(Numbered(n)))
  {
    hide *;
    NumberedSnoc(n);
    if n == 0 {
      NoneAdmitted();
    } else {
      NumberedAdmitted(n - 1);
      NumberedFresh(n - 1);
      var t := Trigger(Name(n - 1), "", 0);
      var start := Outcome([], FIRST, 0, 0);
      AdmitSnoc(NoBot, start, Numbered(n - 1), t);
      AdmitNew(AdmitAll(NoBot, start, Numbered(n - 1)), OffersOf(Numbered(n - 1)), t);
      OffersSnoc(Numbered(n - 1), t);
    }
  }

  lemma {:induction false} SentAll(p: Position, ts: seq<Trigger>)
    ensures Polled(NoBot, p, since => Sending(ts)) == Some(AdmitAll(NoBot, Outcome([], p, 0, 0), ts))
  {
    assert ts + [] + [] == ts;
  }

  lemma {:induction false} AdmitOne(p: Position, t: Trigger)
    ensures AdmitAll(NoBot, Outcome([], p, 0, 0), [t]) == Admit(NoBot, Outcome([], p, 0, 0), t)
  {
    assert [t][..0] == [];
  }

  lemma PollRunTwo(a: Provider, b: Provider)
    ensures PollRun(NoBot, [a, b]) ==
      var (p, before) := PollRun(NoBot, [a]);
      match Polled(NoBot, p, b)
      case None => (p, before)
      case Some(o) => (o.position, before + o.triggers)
  {
    assert [a, b][..|[a, b]| - 1] == [a];
    hide Polled;
  }

  lemma PollRunOne(a: Provider, o: Outcome)
    requires Polled(NoBot, FIRST, a) == Some(o)
    ensures PollRun(NoBot, [a]) == (o.position, o.triggers)
  {
    assert [a][..|[a]| - 1] == [];
    assert [] + o.triggers == o.triggers;
    hide Polled;
  }

  /** One more than the memory holds, and the first comes again: its id is emitted twice. */
  lemma EmittedTwice() returns (providers: seq<Provider>)
    ensures var emitted := PollRun(NoBot, providers).1;
      |emitted| == MAX_REMEMBERED_TRIGGERS + 2 && emitted[0].id == emitted[|emitted| - 1].id
  {
    var n := MAX_REMEMBERED_TRIGGERS + 1;
    var first, again: Provider := since => Sending(Numbered(n)), since => Sending([Trigger(Name(0), "", 0)]);
    providers := [first, again];
    NumberedAdmitted(n);
    var o := AdmitAll(NoBot, Outcome([], FIRST, 0, 0), Numbered(n));
    SentAll(FIRST, Numbered(n));
    NumberedFirst(n);
    hide AdmitAll, Admit, Polled, PollRun, Numbered, Knows;
    PollRunOne(first, o);
    Forgotten(o.position);
    SentAll(o.position, [Trigger(Name(0), "", 0)]);
    AdmitOne(o.position, Trigger(Name(0), "", 0));
    PollRunTwo(first, again);
  }

  lemma {:induction false} NumberedFirst(n: nat)
    ensures |Numbered(n)| == n && (n > 0 ==> Numbered(n)[0].id == Name(0))
  {
    if n > 0 {
      NumberedFirst(n - 1);
    }
  }

  lemma Forgotten(p: Position)
    requires Knows(p, OffersOf(Numbered(MAX_REMEMBERED_TRIGGERS + 1)))
    ensures var t := Trigger(Name(0), "", 0);
      Admit(NoBot, Outcome([], p, 0, 0), t).triggers == [t]
  {
    var n := MAX_REMEMBERED_TRIGGERS + 1;
    NumberedIds(n);
    hide Ids, OffersOf, Numbered, Knows;
    var ids := Ids(OffersOf(Numbered(n)));
    var recent := LastOf(ids, MAX_REMEMBERED_TRIGGERS);
    forall i | 0 <= i < |recent|
      ensures recent[i] != Name(0)
    {
      assert recent[i] == ids[i + 1] == Name(i + 1);
      assert |Name(i + 1)| == i + 1;
    }
    AdmitNew(Outcome([], p, 0, 0), OffersOf(Numbered(n)), Trigger(Name(0), "", 0));
  }

  /**
   What is printed reads back as the watermark less a minute, clamped at the epoch
   and floored to the second, if and only if that lies before the year 10000.
   */
  lemma SinceBehind(p: Position)
    ensures Civil.ParseIso8601Ms(SinceText(p)) == Some(Civil.FloorToSecond(SinceMs(p)))
      <==> SinceMs(p) < Civil.YEAR_10000
    ensures var since := Civil.FloorToSecond(SinceMs(p));
      0 <= since <= Max(p.watermark - WATERMARK_OVERLAP_MS, 0) < since + 1000
  {
    hide Civil.ParseIso8601Ms, Civil.Iso8601FromMs;
    Civil.TimestampRoundTrip(SinceMs(p));
  }
}
