/**
 What the rows of an import hold, told from the tables before it and the rows the bundle lists: of several rows
 for one place the first is taken, rows already there stay, and an event is refused for a taken id as well.
 */
module TransferRows {
  import opened Wrappers
  import opened Transfer

  type Key = (Id, int)

  // ---------------------------------------------------------------------
  // Messages and turns
  // ---------------------------------------------------------------------

  /** A row listed for a place. */
  datatype Offer = Offer(key: Key, body: string)

  /** No earlier row is listed for the place of row i. */
  ghost predicate Foremost(offers: seq<Offer>, i: nat) {
    i < |offers| && forall j: nat :: j < i ==> offers[j].key != offers[i].key
  }

  ghost predicate Listed(offers: seq<Offer>, k: Key) {
    exists i: nat :: i < |offers| && offers[i].key == k
  }

  /** Rows that were there stay; every free place that is listed takes the first row listed for it. */
  ghost predicate FirstWins(before: map<Key, string>, after: map<Key, string>, offers: seq<Offer>) {
    && (forall k :: k in after <==> k in before || Listed(offers, k))
    && (forall k :: k in before ==> k in after && after[k] == before[k])
    && (forall i: nat :: Foremost(offers, i) && offers[i].key !in before ==>
          offers[i].key in after && after[offers[i].key] == offers[i].body)
  }

  lemma {:induction false} NothingOffered(rows: map<Key, string>)
    ensures FirstWins(rows, rows, [])
  {
  }

  lemma {:induction false} ListedSnoc(offers: seq<Offer>, o: Offer, k: Key)
    ensures Listed(offers + [o], k) <==> Listed(offers, k) || o.key == k
  {
    var all := offers + [o];
    if Listed(offers, k) {
      var i: nat :| i < |offers| && offers[i].key == k;
      assert all[i].key == k;
    }
    assert all[|offers|] == o;
    if Listed(all, k) {
      var i: nat :| i < |all| && all[i].key == k;
      assert i < |offers| ==> offers[i].key == k;
    }
  }

  lemma {:induction false} ForemostSnoc(offers: seq<Offer>, o: Offer, i: nat)
    requires Foremost(offers + [o], i)
    ensures i < |offers| ==> Foremost(offers, i) && (offers + [o])[i] == offers[i]
    ensures i == |offers| ==> !Listed(offers, o.key)
  {
    var all := offers + [o];
    assert forall j: nat :: j < |offers| ==> all[j] == offers[j];
  }

  /** One more row: it is ignored if its place is taken. */
  lemma {:induction false} WinsSnoc(before: map<Key, string>, mid: map<Key, string>, offers: seq<Offer>, o: Offer)
    requires FirstWins(before, mid, offers)
    ensures FirstWins(before, if o.key in mid then mid else mid[o.key := o.body], offers + [o])
  {
    var after := if o.key in mid then mid else mid[o.key := o.body];
    hide Listed, Foremost;
    forall k
      ensures k in after <==> k in before || Listed(offers + [o], k)
    {
      ListedSnoc(offers, o, k);
    }
    var all := offers + [o];
    forall i: nat
      ensures Foremost(all, i) ==> i < |all| && (all[i].key !in before ==> all[i].key in after && after[all[i].key] == all[i].body)
    {
      ForemostWithin(all, i);
      if Foremost(all, i) {
        ForemostSnoc(offers, o, i);
      }
    }
  }

  lemma {:induction false} ForemostWithin(offers: seq<Offer>, i: nat)
    ensures Foremost(offers, i) ==> i < |offers|
  {
  }

  function MessagesOf(final: Id, ms: seq<MessageRow>): (offers: seq<Offer>)
    ensures |offers| == |ms|
    ensures forall j :: 0 <= j < |ms| ==> offers[j] == Offer((final, ms[j].seqNo), ms[j].body)
  {
    seq(|ms|, j requires 0 <= j < |ms| => Offer((final, ms[j].seqNo), ms[j].body))
  }

  function TurnsOf(final: Id, ts: seq<TurnRow>): (offers: seq<Offer>)
    ensures |offers| == |ts|
    ensures forall j :: 0 <= j < |ts| ==> offers[j] == Offer((final, ts[j].turn), ts[j].body)
  {
    seq(|ts|, j requires 0 <= j < |ts| => Offer((final, ts[j].turn), ts[j].body))
  }

  /** The message rows of all bundles that are written, in the order they are listed. */
  function MessageOffers(plan: Plan, bundles: seq<Bundle>): seq<Offer> {
    if bundles == [] then []
    else
      var b := bundles[|bundles| - 1];
      MessageOffers(plan, bundles[..|bundles| - 1])
      + (if Written(plan, b.id) then MessagesOf(plan[b.id].final, b.messages) else [])
  }

  function TurnOffers(plan: Plan, bundles: seq<Bundle>): seq<Offer> {
    if bundles == [] then []
    else
      var b := bundles[|bundles| - 1];
      TurnOffers(plan, bundles[..|bundles| - 1])
      + (if Written(plan, b.id) then TurnsOf(plan[b.id].final, b.turns) else [])
  }

  lemma {:induction false} OffersSnoc(offers: seq<Offer>, a: seq<Offer>, b: seq<Offer>, o: Offer)
    requires b == a + [o]
    ensures offers + b == (offers + a) + [o]
  {
  }

  lemma {:induction false} MessagesTold(before: map<Key, string>, w: Work, final: Id, ms: seq<MessageRow>,
                                        offers: seq<Offer>)
    requires FirstWins(before, w.db.messages, offers)
    ensures var v := CopyMessages(w, final, ms);
      && FirstWins(before, v.db.messages, offers + MessagesOf(final, ms))
      && v == w.(db := w.db.(messages := v.db.messages), counts := w.counts.(messages := v.counts.messages))
      && v.counts.messages - w.counts.messages == |v.db.messages| - |w.db.messages|
  {
    hide FirstWins;
    if ms == [] {
      assert offers + MessagesOf(final, ms) == offers;
    } else {
      var init, m := ms[..|ms| - 1], ms[|ms| - 1];
      MessagesTold(before, w, final, init, offers);
      var u := CopyMessages(w, final, init);
      var o := Offer((final, m.seqNo), m.body);
      WinsSnoc(before, u.db.messages, offers + MessagesOf(final, init), o);
      assert MessagesOf(final, ms) == MessagesOf(final, init) + [o];
      OffersSnoc(offers, MessagesOf(final, init), MessagesOf(final, ms), o);
    }
  }

  lemma {:induction false} TurnsTold(before: map<Key, string>, w: Work, final: Id, ts: seq<TurnRow>,
                                     offers: seq<Offer>)
    requires FirstWins(before, w.db.turns, offers)
    ensures var v := CopyTurns(w, final, ts);
      && FirstWins(before, v.db.turns, offers + TurnsOf(final, ts))
      && v == w.(db := w.db.(turns := v.db.turns))
  {
    hide FirstWins;
    if ts == [] {
      assert offers + TurnsOf(final, ts) == offers;
    } else {
      var init, t := ts[..|ts| - 1], ts[|ts| - 1];
      TurnsTold(before, w, final, init, offers);
      var u := CopyTurns(w, final, init);
      var o := Offer((final, t.turn), t.body);
      WinsSnoc(before, u.db.turns, offers + TurnsOf(final, init), o);
      assert TurnsOf(final, ts) == TurnsOf(final, init) + [o];
      OffersSnoc(offers, TurnsOf(final, init), TurnsOf(final, ts), o);
    }
  }

  // ---------------------------------------------------------------------
  // Events
  // ---------------------------------------------------------------------

  /** An event listed for a place, under the id given or under a fresh one. */
  datatype EventOffer = EventOffer(key: Key, given: Option<Id>, body: string)

  /** How many rows take a fresh id from the supply. */
  function Mints(offers: seq<EventOffer>): nat {
    if offers == [] then 0
    else Mints(offers[..|offers| - 1]) + if offers[|offers| - 1].given.None? then 1 else 0
  }

  /** The id of row i; a fresh one is the next of the supply, whether the row is taken or not. */
  function IdOf(offers: seq<EventOffer>, start: Id, i: nat): Id
    requires i < |offers|
  {
    match offers[i].given
    case Some(id) => id
    case None => start + Mints(offers[..i])
  }

  /** Row i finds its place or its id taken, by a row that was there or by an earlier one. */
  ghost predicate Clashes(before: map<Key, Event>, offers: seq<EventOffer>, start: Id, taken: set<nat>, i: nat)
    requires i < |offers|
  {
    || offers[i].key in before
    || (exists k :: k in before && before[k].id == IdOf(offers, start, i))
    || (exists t: nat :: t in taken && t < i
          && (offers[t].key == offers[i].key || IdOf(offers, start, t) == IdOf(offers, start, i)))
  }

  /** Exactly the rows that do not clash are taken, each with its own body under its own id. */
  ghost predicate Took(before: map<Key, Event>, after: map<Key, Event>, offers: seq<EventOffer>, start: Id,
                       taken: set<nat>)
  {
    && (forall t: nat :: t in taken <==> t < |offers| && !Clashes(before, offers, start, taken, t))
    && (forall k :: k in after <==> k in before || exists t: nat :: t in taken && t < |offers| && offers[t].key == k)
    && (forall k :: k in before ==> k in after && after[k] == before[k])
    && (forall t: nat :: t in taken && t < |offers| ==>
          offers[t].key in after && after[offers[t].key] == Event(IdOf(offers, start, t), offers[t].body))
  }

  lemma {:induction false} NothingTook(rows: map<Key, Event>, start: Id)
    ensures Took(rows, rows, [], start, {})
  {
  }

  lemma {:induction false} IdOfSnoc(offers: seq<EventOffer>, o: EventOffer, start: Id, i: nat)
    requires i < |offers|
    ensures (offers + [o])[i] == offers[i] && IdOf(offers + [o], start, i) == IdOf(offers, start, i)
  {
    assert (offers + [o])[..i] == offers[..i];
  }

  lemma {:induction false} IdOfLast(offers: seq<EventOffer>, o: EventOffer, start: Id)
    ensures (offers + [o])[|offers|] == o
    ensures IdOf(offers + [o], start, |offers|)
      == match o.given case Some(id) => id case None => start + Mints(offers)
  {
    assert (offers + [o])[..|offers|] == offers;
  }

  lemma {:induction false} MintsSnoc(offers: seq<EventOffer>, o: EventOffer)
    ensures Mints(offers + [o]) == Mints(offers) + if o.given.None? then 1 else 0
  {
    assert (offers + [o])[..|offers + [o]| - 1] == offers;
  }

  /** A row clashes with the same rows whatever is listed behind it. */
  lemma {:induction false} ClashesSnoc(before: map<Key, Event>, offers: seq<EventOffer>, o: EventOffer, start: Id,
                                       taken: set<nat>, more: set<nat>, i: nat)
    requires i < |offers| && forall t: nat :: t < |offers| ==> (t in taken <==> t in more)
    ensures Clashes(before, offers + [o], start, more, i) <==> Clashes(before, offers, start, taken, i)
  {
    var all := offers + [o];
    hide IdOf;
    forall t: nat | t <= i
      ensures all[t] == offers[t] && IdOf(all, start, t) == IdOf(offers, start, t)
    {
      IdOfSnoc(offers, o, start, t);
    }
  }

  /** The last row clashes exactly when its place or its id stands in the table it meets. */
  lemma {:induction false} ClashesLast(before: map<Key, Event>, mid: map<Key, Event>, offers: seq<EventOffer>,
                                       o: EventOffer, start: Id, taken: set<nat>, more: set<nat>, id: Id)
    requires Took(before, mid, offers, start, taken)
    requires forall t: nat :: t < |offers| ==> (t in taken <==> t in more)
    requires id == match o.given case Some(g) => g case None => start + Mints(offers)
    ensures Clashes(before, offers + [o], start, more, |offers|)
      <==> o.key in mid || exists k :: k in mid && mid[k].id == id
  {
    var all, n := offers + [o], |offers|;
    IdOfLast(offers, o, start);
    hide IdOf;
    forall t: nat | t < n
      ensures all[t] == offers[t] && IdOf(all, start, t) == IdOf(offers, start, t)
    {
      IdOfSnoc(offers, o, start, t);
    }
    hide Clashes;
    if o.key in mid || exists k :: k in mid && mid[k].id == id {
      LastMeets(before, mid, offers, o, start, taken, more, id);
    }
    if Clashes(before, all, start, more, n) {
      LastClashes(before, mid, offers, o, start, taken, more, id);
    }
  }

  lemma {:induction false} LastMeets(before: map<Key, Event>, mid: map<Key, Event>, offers: seq<EventOffer>,
                                     o: EventOffer, start: Id, taken: set<nat>, more: set<nat>, id: Id)
    requires Took(before, mid, offers, start, taken)
    requires forall t: nat :: t < |offers| ==> (t in taken <==> t in more)
    requires var all := offers + [o];
      && all[|offers|] == o && IdOf(all, start, |offers|) == id
      && forall t: nat :: t < |offers| ==> all[t] == offers[t] && IdOf(all, start, t) == IdOf(offers, start, t)
    requires o.key in mid || exists k :: k in mid && mid[k].id == id
    ensures Clashes(before, offers + [o], start, more, |offers|)
  {
    hide IdOf;
    var all := offers + [o];
    if o.key in mid && o.key !in before {
      var t: nat :| t in taken && t < |offers| && offers[t].key == o.key;
      assert t in more && all[t].key == all[|offers|].key;
    }
    if k :| k in mid && mid[k].id == id {
      if k !in before {
        var t: nat :| t in taken && t < |offers| && offers[t].key == k;
        assert t in more && IdOf(all, start, t) == IdOf(all, start, |offers|);
      } else {
        assert before[k].id == IdOf(all, start, |offers|);
      }
    }
  }

  lemma {:induction false} LastClashes(before: map<Key, Event>, mid: map<Key, Event>, offers: seq<EventOffer>,
                                       o: EventOffer, start: Id, taken: set<nat>, more: set<nat>, id: Id)
    requires Took(before, mid, offers, start, taken)
    requires forall t: nat :: t < |offers| ==> (t in taken <==> t in more)
    requires var all := offers + [o];
      && all[|offers|] == o && IdOf(all, start, |offers|) == id
      && forall t: nat :: t < |offers| ==> all[t] == offers[t] && IdOf(all, start, t) == IdOf(offers, start, t)
    requires Clashes(before, offers + [o], start, more, |offers|)
    ensures o.key in mid || exists k :: k in mid && mid[k].id == id
  {
    hide IdOf;
    var all := offers + [o];
    if k :| k in before && before[k].id == id {
      assert k in mid && mid[k].id == id;
    } else if o.key !in before {
      var t: nat :| t in more && t < |offers|
        && (all[t].key == all[|offers|].key || IdOf(all, start, t) == IdOf(all, start, |offers|));
      assert t in taken && offers[t].key in mid;
      assert mid[offers[t].key].id == IdOf(offers, start, t);
    }
  }

  /** One more event: taken or refused. */
  lemma {:induction false} TookSnoc(before: map<Key, Event>, mid: map<Key, Event>, offers: seq<EventOffer>,
                                    o: EventOffer, start: Id, taken: set<nat>, id: Id)
    requires Took(before, mid, offers, start, taken)
    requires id == match o.given case Some(g) => g case None => start + Mints(offers)
    ensures var refused := o.key in mid || exists k :: k in mid && mid[k].id == id;
      && |offers| !in taken
      && Took(before, if refused then mid else mid[o.key := Event(id, o.body)], offers + [o], start,
              if refused then taken else taken + {|offers|})
  {
    var all, n := offers + [o], |offers|;
    var refused := o.key in mid || exists k :: k in mid && mid[k].id == id;
    var after := if refused then mid else mid[o.key := Event(id, o.body)];
    var more := if refused then taken else taken + {n};
    hide *;
    TakenWithin(before, mid, offers, start, taken);
    ClashesLast(before, mid, offers, o, start, taken, more, id);
    TakenSnoc(before, mid, offers, o, start, taken, more);
    TookKeys(before, mid, offers, o, start, taken, refused);
    TookBodies(before, mid, offers, o, start, taken, id, refused);
    TookHere(before, after, all, start, more);
  }

  lemma {:induction false} TakenWithin(before: map<Key, Event>, mid: map<Key, Event>, offers: seq<EventOffer>,
                                       start: Id, taken: set<nat>)
    requires Took(before, mid, offers, start, taken)
    ensures forall t: nat :: t in taken ==> t < |offers|
    ensures forall k :: k in before ==> k in mid && mid[k] == before[k]
  {
    hide Clashes, IdOf;
  }

  lemma {:induction false} TookHere(before: map<Key, Event>, after: map<Key, Event>, offers: seq<EventOffer>, start: Id,
                                    taken: set<nat>)
    requires forall t: nat :: t in taken <==> t < |offers| && !Clashes(before, offers, start, taken, t)
    requires forall k :: k in after <==> k in before || exists t: nat :: t in taken && t < |offers| && offers[t].key == k
    requires forall k :: k in before ==> k in after && after[k] == before[k]
    requires forall t: nat :: t in taken && t < |offers| ==>
      offers[t].key in after && after[offers[t].key] == Event(IdOf(offers, start, t), offers[t].body)
    ensures Took(before, after, offers, start, taken)
  {
    hide Clashes, IdOf;
  }

  lemma {:induction false} TakenSnoc(before: map<Key, Event>, mid: map<Key, Event>, offers: seq<EventOffer>,
                                     o: EventOffer, start: Id, taken: set<nat>, more: set<nat>)
    requires Took(before, mid, offers, start, taken)
    requires more == taken || more == taken + {|offers|}
    requires |offers| in more <==> !Clashes(before, offers + [o], start, more, |offers|)
    ensures forall t: nat :: t in more <==> t < |offers + [o]| && !Clashes(before, offers + [o], start, more, t)
  {
    TakenWithin(before, mid, offers, start, taken);
    hide IdOf;
    forall t: nat
      ensures t in more <==> t < |offers + [o]| && !Clashes(before, offers + [o], start, more, t)
    {
      if t < |offers| {
        ClashesSnoc(before, offers, o, start, taken, more, t);
      }
    }
  }

  lemma {:induction false} TookBodies(before: map<Key, Event>, mid: map<Key, Event>, offers: seq<EventOffer>,
                                      o: EventOffer, start: Id, taken: set<nat>, id: Id, refused: bool)
    requires Took(before, mid, offers, start, taken)
    requires id == match o.given case Some(g) => g case None => start + Mints(offers)
    requires !refused ==> o.key !in mid
    ensures var all := offers + [o];
      var more := if refused then taken else taken + {|offers|};
      var after := if refused then mid else mid[o.key := Event(id, o.body)];
      forall t: nat :: t in more && t < |all| ==>
        all[t].key in after && after[all[t].key] == Event(IdOf(all, start, t), all[t].body)
  {
    var all := offers + [o];
    TakenWithin(before, mid, offers, start, taken);
    IdOfLast(offers, o, start);
    forall t: nat | t < |offers|
      ensures all[t] == offers[t] && IdOf(all, start, t) == IdOf(offers, start, t)
    {
      IdOfSnoc(offers, o, start, t);
    }
    hide IdOf, Clashes;
  }

  lemma {:induction false} TookKeys(before: map<Key, Event>, mid: map<Key, Event>, offers: seq<EventOffer>,
                                    o: EventOffer, start: Id, taken: set<nat>, refused: bool)
    requires Took(before, mid, offers, start, taken)
    ensures var more := if refused then taken else taken + {|offers|};
      forall k :: (k in mid || (!refused && k == o.key))
        <==> k in before || exists t: nat :: t in more && t < |offers + [o]| && (offers + [o])[t].key == k
  {
    hide IdOf, Clashes;
    var all, n := offers + [o], |offers|;
    var more := if refused then taken else taken + {n};
    forall k
      ensures (k in mid || (!refused && k == o.key))
        <==> k in before || exists t: nat :: t in more && t < |all| && all[t].key == k
    {
      if k in mid && k !in before {
        var t: nat :| t in taken && t < n && offers[t].key == k;
        assert t in more && all[t].key == k;
      }
      if !refused && k == o.key {
        assert n in more && all[n].key == k;
      }
      if t: nat :| t in more && t < |all| && all[t].key == k {
        if t < n {
          assert t in taken && offers[t].key == k;
        }
      }
    }
  }

  /** The event rows of a bundle; a copied session's events take fresh ids. */
  function EventsOf(final: Id, mint: bool, es: seq<EventRow>): (offers: seq<EventOffer>)
    ensures |offers| == |es|
    ensures forall j :: 0 <= j < |es| ==>
      offers[j] == EventOffer((final, es[j].seqNo), if mint then None else Some(es[j].id), es[j].body)
  {
    seq(|es|, j requires 0 <= j < |es| =>
      EventOffer((final, es[j].seqNo), if mint then None else Some(es[j].id), es[j].body))
  }

  function EventOffers(plan: Plan, bundles: seq<Bundle>): seq<EventOffer> {
    if bundles == [] then []
    else
      var b := bundles[|bundles| - 1];
      EventOffers(plan, bundles[..|bundles| - 1])
      + (if Written(plan, b.id) then EventsOf(plan[b.id].final, plan[b.id].mode.Insert?, b.events) else [])
  }

  /** What copying one event does to table, supply and count. */
  lemma {:induction false} OneEvent(w: Work, final: Id, mint: bool, e: EventRow)
    requires e.hashDecodes
    ensures CopyEvent(w, final, mint, e).Some?
    ensures var v := CopyEvent(w, final, mint, e).value;
      var id := if mint then w.next else e.id;
      var refused := (final, e.seqNo) in w.db.events || exists k :: k in w.db.events && w.db.events[k].id == id;
      && v.db.events == (if refused then w.db.events else w.db.events[(final, e.seqNo) := Event(id, e.body)])
      && v.next == (if mint then w.next + 1 else w.next)
      && v == w.(db := w.db.(events := v.db.events), next := v.next, counts := w.counts.(events := v.counts.events))
      && v.counts.events == w.counts.events + (if refused then 0 else 1)
      && |v.db.events| == |w.db.events| + (if refused then 0 else 1)
  {
  }

  /** The table and the supply after the events offered so far. */
  ghost predicate EventsStand(before: map<Key, Event>, w: Work, offers: seq<EventOffer>, start: Id, taken: set<nat>) {
    Took(before, w.db.events, offers, start, taken) && w.next == start + Mints(offers)
  }

  /** What copying events changes. */
  ghost predicate EventsOnly(w: Work, v: Work, grown: int) {
    && v == w.(db := w.db.(events := v.db.events), next := v.next, counts := w.counts.(events := v.counts.events))
    && v.counts.events - w.counts.events == |v.db.events| - |w.db.events| == grown
  }

  lemma {:induction false} OneTold(before: map<Key, Event>, u: Work, final: Id, mint: bool, e: EventRow,
                                   all: seq<EventOffer>, start: Id, taken: set<nat>)
      returns (more: set<nat>)
    requires EventsStand(before, u, all, start, taken) && CopyEvent(u, final, mint, e).Some?
    ensures var v := CopyEvent(u, final, mint, e).value;
      var o := EventOffer((final, e.seqNo), if mint then None else Some(e.id), e.body);
      EventsStand(before, v, all + [o], start, more) && EventsOnly(u, v, |more| - |taken|)
  {
    hide *;
    var o := EventOffer((final, e.seqNo), if mint then None else Some(e.id), e.body);
    var id := if mint then u.next else e.id;
    StandIs(before, u, all, start, taken);
    HashesDecode(u, final, mint, e);
    OneEvent(u, final, mint, e);
    MintsSnoc(all, o);
    TookSnoc(before, u.db.events, all, o, start, taken, id);
    var refused := o.key in u.db.events || exists k :: k in u.db.events && u.db.events[k].id == id;
    more := if refused then taken else taken + {|all|};
    var v := CopyEvent(u, final, mint, e).value;
    StandHere(before, v, all + [o], start, more);
    OnlyHere(u, v, if refused then 0 else 1);
  }

  lemma {:induction false} StandIs(before: map<Key, Event>, w: Work, offers: seq<EventOffer>, start: Id, taken: set<nat>)
    requires EventsStand(before, w, offers, start, taken)
    ensures Took(before, w.db.events, offers, start, taken) && w.next == start + Mints(offers)
  {
  }

  lemma {:induction false} StandHere(before: map<Key, Event>, w: Work, offers: seq<EventOffer>, start: Id,
                                     taken: set<nat>)
    requires Took(before, w.db.events, offers, start, taken) && w.next == start + Mints(offers)
    ensures EventsStand(before, w, offers, start, taken)
  {
  }

  lemma {:induction false} OnlyHere(w: Work, v: Work, grown: int)
    requires v == w.(db := w.db.(events := v.db.events), next := v.next, counts := w.counts.(events := v.counts.events))
    requires v.counts.events - w.counts.events == |v.db.events| - |w.db.events| == grown
    ensures EventsOnly(w, v, grown)
  {
  }

  lemma {:induction false} CopyEventsSnoc(w: Work, final: Id, mint: bool, init: seq<EventRow>, e: EventRow)
    ensures CopyEvents(w, final, mint, init + [e])
      == match CopyEvents(w, final, mint, init) case None => None case Some(v) => CopyEvent(v, final, mint, e)
  {
    hide CopyEvent;
    assert (init + [e])[..|init + [e]| - 1] == init;
  }

  lemma {:induction false} EventsTold(before: map<Key, Event>, w: Work, final: Id, mint: bool, es: seq<EventRow>,
                                      offers: seq<EventOffer>, start: Id, taken: set<nat>)
      returns (more: set<nat>)
    requires EventsStand(before, w, offers, start, taken) && CopyEvents(w, final, mint, es).Some?
    ensures var v := CopyEvents(w, final, mint, es).value;
      EventsStand(before, v, offers + EventsOf(final, mint, es), start, more) && EventsOnly(w, v, |more| - |taken|)
  {
    more := taken;
    if es == [] {
      assert offers + EventsOf(final, mint, es) == offers;
      NoEvents(w);
      hide EventsStand, EventsOnly;
    } else {
      hide *;
      var init, e := es[..|es| - 1], es[|es| - 1];
      assert es == init + [e];
      CopyEventsSnoc(w, final, mint, init, e);
      more := EventsTold(before, w, final, mint, init, offers, start, taken);
      var u := CopyEvents(w, final, mint, init).value;
      var first := |more|;
      var all := offers + EventsOf(final, mint, init);
      more := OneTold(before, u, final, mint, e, all, start, more);
      var o := EventOffer((final, e.seqNo), if mint then None else Some(e.id), e.body);
      EventsOfSnoc(final, mint, init, e);
      EventsJoin(offers, EventsOf(final, mint, init), o);
      EventsOnlyChain(w, u, CopyEvent(u, final, mint, e).value, first - |taken|, |more| - first);
    }
  }

  lemma {:induction false} NoEvents(w: Work)
    ensures EventsOnly(w, w, 0)
  {
  }

  lemma {:induction false} EventsOnlyChain(w: Work, u: Work, v: Work, a: int, b: int)
    requires EventsOnly(w, u, a) && EventsOnly(u, v, b)
    ensures EventsOnly(w, v, a + b)
  {
  }

  lemma {:induction false} EventsOfSnoc(final: Id, mint: bool, init: seq<EventRow>, e: EventRow)
    ensures EventsOf(final, mint, init + [e])
      == EventsOf(final, mint, init) + [EventOffer((final, e.seqNo), if mint then None else Some(e.id), e.body)]
  {
  }

  lemma {:induction false} EventsJoin(offers: seq<EventOffer>, a: seq<EventOffer>, o: EventOffer)
    ensures offers + (a + [o]) == (offers + a) + [o]
  {
  }

  lemma {:induction false} HashesDecode(w: Work, final: Id, mint: bool, e: EventRow)
    ensures CopyEvent(w, final, mint, e).Some? <==> e.hashDecodes
  {
  }

  // ---------------------------------------------------------------------
  // All bundles
  // ---------------------------------------------------------------------

  /** Tables, supply and counts so far, against those the copying began with. */
  ghost predicate RowsTold(start: Work, w: Work, plan: Plan, bundles: seq<Bundle>, taken: set<nat>) {
    && FirstWins(start.db.messages, w.db.messages, MessageOffers(plan, bundles))
    && FirstWins(start.db.turns, w.db.turns, TurnOffers(plan, bundles))
    && EventsStand(start.db.events, w, EventOffers(plan, bundles), start.next, taken)
    && Counted(start, w, |taken|)
  }

  ghost predicate Counted(start: Work, w: Work, taken: int) {
    && w.counts.events - start.counts.events == |w.db.events| - |start.db.events| == taken
    && w.counts.messages - start.counts.messages == |w.db.messages| - |start.db.messages|
    && w.counts.sessions - start.counts.sessions == |w.db.sessions| - |start.db.sessions|
  }

  lemma {:induction false} OffersNext(plan: Plan, init: seq<Bundle>, b: Bundle)
    ensures MessageOffers(plan, init + [b]) == MessageOffers(plan, init)
      + (if Written(plan, b.id) then MessagesOf(plan[b.id].final, b.messages) else [])
    ensures TurnOffers(plan, init + [b]) == TurnOffers(plan, init)
      + (if Written(plan, b.id) then TurnsOf(plan[b.id].final, b.turns) else [])
    ensures EventOffers(plan, init + [b]) == EventOffers(plan, init)
      + (if Written(plan, b.id) then EventsOf(plan[b.id].final, plan[b.id].mode.Insert?, b.events) else [])
  {
    assert (init + [b])[..|init + [b]| - 1] == init;
  }

  lemma {:induction false} RowsTable(start: Work, w: Work, plan: Plan, init: seq<Bundle>, b: Bundle, taken: set<nat>,
                                     mint: bool)
      returns (more: set<nat>)
    requires RowsTold(start, w, plan, init, taken)
    requires Written(plan, b.id) && CopyEvents(w, plan[b.id].final, mint, b.events).Some?
    ensures var final := plan[b.id].final;
      var u := CopyEvents(w, final, mint, b.events).value;
      var x := CopyMessages(u, final, b.messages);
      var y := CopyTurns(x, final, b.turns);
      && FirstWins(start.db.messages, y.db.messages, MessageOffers(plan, init) + MessagesOf(final, b.messages))
      && FirstWins(start.db.turns, y.db.turns, TurnOffers(plan, init) + TurnsOf(final, b.turns))
      && EventsStand(start.db.events, y, EventOffers(plan, init) + EventsOf(final, mint, b.events), start.next, more)
      && Counted(start, y, |more|)
  {
    var final := plan[b.id].final;
    var u := CopyEvents(w, final, mint, b.events).value;
    var x := CopyMessages(u, final, b.messages);
    var y := CopyTurns(x, final, b.turns);
    hide FirstWins, EventsStand, CopyEvents, CopyMessages, CopyTurns, MessageOffers, TurnOffers, EventOffers, EventsOnly,
      Counted;
    more := EventsTold(start.db.events, w, final, mint, b.events, EventOffers(plan, init), start.next, taken);
    OnlyIs(w, u, |more| - |taken|);
    MessagesTold(start.db.messages, u, final, b.messages, MessageOffers(plan, init));
    TurnsTold(start.db.turns, x, final, b.turns, TurnOffers(plan, init));
    StandIs(start.db.events, u, EventOffers(plan, init) + EventsOf(final, mint, b.events), start.next, more);
    StandHere(start.db.events, y, EventOffers(plan, init) + EventsOf(final, mint, b.events), start.next, more);
    CountedOn(start, w, u, x, y, |taken|, |more|);
  }

  lemma {:induction false} OnlyIs(w: Work, v: Work, grown: int)
    requires EventsOnly(w, v, grown)
    ensures v == w.(db := w.db.(events := v.db.events), next := v.next, counts := w.counts.(events := v.counts.events))
    ensures v.counts.events - w.counts.events == |v.db.events| - |w.db.events| == grown
  {
  }

  lemma {:induction false} CountedOn(start: Work, w: Work, u: Work, x: Work, y: Work, taken: int, more: int)
    requires Counted(start, w, taken) && EventsOnly(w, u, more - taken)
    requires x == u.(db := u.db.(messages := x.db.messages), counts := u.counts.(messages := x.counts.messages))
    requires x.counts.messages - u.counts.messages == |x.db.messages| - |u.db.messages|
    requires y == x.(db := x.db.(turns := y.db.turns))
    ensures Counted(start, y, more)
  {
  }

  lemma {:induction false} RowsOffered(start: Work, w: Work, plan: Plan, init: seq<Bundle>, b: Bundle, taken: set<nat>,
                                       mint: bool)
      returns (more: set<nat>)
    requires RowsTold(start, w, plan, init, taken)
    requires Written(plan, b.id) && mint == plan[b.id].mode.Insert? && CopyRows(w, b, plan[b.id].final, mint).Some?
    ensures RowsTold(start, CopyRows(w, b, plan[b.id].final, mint).value, plan, init + [b], more)
  {
    hide FirstWins, EventsStand, Counted, CopyEvents, CopyMessages, CopyTurns, MessageOffers, TurnOffers, EventOffers;
    more := RowsTable(start, w, plan, init, b, taken, mint);
    OffersNext(plan, init, b);
  }

  lemma {:induction false} SessionTold(start: Work, w: Work, ws: nat, plan: Plan, bundles: seq<Bundle>, taken: set<nat>,
                                       b: Bundle, final: Id)
    requires RowsTold(start, w, plan, bundles, taken) && CopySession(w, ws, b, final).Some?
    ensures RowsTold(start, CopySession(w, ws, b, final).value, plan, bundles, taken)
  {
    hide FirstWins, Took, Mints;
  }

  lemma {:induction false} SkippedTold(start: Work, w: Work, plan: Plan, init: seq<Bundle>, b: Bundle, taken: set<nat>)
    requires RowsTold(start, w, plan, init, taken) && !Written(plan, b.id)
    ensures RowsTold(start, w, plan, init + [b], taken)
  {
    hide FirstWins, EventsStand, MessageOffers, TurnOffers, EventOffers;
    OffersNext(plan, init, b);
    assert MessageOffers(plan, init) + [] == MessageOffers(plan, init);
    assert TurnOffers(plan, init) + [] == TurnOffers(plan, init);
    assert EventOffers(plan, init) + [] == EventOffers(plan, init);
  }

  lemma {:induction false} BundleTold(start: Work, w: Work, ws: nat, plan: Plan, init: seq<Bundle>, b: Bundle,
                                      taken: set<nat>)
      returns (more: set<nat>)
    requires RowsTold(start, w, plan, init, taken)
    requires b.id in plan && CopyBundle(w, ws, b, plan[b.id]).Some?
    ensures RowsTold(start, CopyBundle(w, ws, b, plan[b.id]).value, plan, init + [b], more)
  {
    hide RowsTold, CopyRows, CopySession;
    match plan[b.id].mode {
      case AlreadyImported =>
        SkippedTold(start, w, plan, init, b, taken);
        more := taken;
      case Update => more := RowsOffered(start, w, plan, init, b, taken, false);
      case Insert =>
        SessionTold(start, w, ws, plan, init, taken, b, plan[b.id].final);
        more := RowsOffered(start, CopySession(w, ws, b, plan[b.id].final).value, plan, init, b, taken, true);
    }
  }

  lemma {:induction false} NoneTold(start: Work, plan: Plan)
    ensures RowsTold(start, start, plan, [], {})
  {
    NothingOffered(start.db.messages);
    NothingOffered(start.db.turns);
    NothingTook(start.db.events, start.next);
  }

  lemma {:induction false} AllTold(start: Work, ws: nat, plan: Plan, bundles: seq<Bundle>) returns (taken: set<nat>)
    requires CopyAll(start, ws, plan, bundles).Some?
    ensures RowsTold(start, CopyAll(start, ws, plan, bundles).value, plan, bundles, taken)
  {
    hide RowsTold, CopyBundle;
    if bundles == [] {
      NoneTold(start, plan);
      taken := {};
    } else {
      var init, b := bundles[..|bundles| - 1], bundles[|bundles| - 1];
      taken := AllTold(start, ws, plan, init);
      var v := CopyAll(start, ws, plan, init).value;
      assert bundles == init + [b];
      if b.id in plan {
        taken := BundleTold(start, v, ws, plan, init, b, taken);
      } else {
        SkippedTold(start, v, plan, init, b, taken);
      }
    }
  }

  /**
   After an import every table holds what was there and, in each free place the written bundles list, the first
   row listed for it: events unless their id is taken as well. The counts are the growth of the tables.
   */
  lemma {:induction false} ImportTold(db: Db, ws: nat, pick: Pick, bundles: seq<Bundle>, next: Id)
      returns (taken: set<nat>)
    requires Import(db, ws, pick, bundles, next).Some?
    ensures var (plan, start) := PlanFor(db, ws, pick, bundles, next);
      var after := Import(db, ws, pick, bundles, next).value;
      && FirstWins(db.messages, after.db.messages, MessageOffers(plan, bundles))
      && FirstWins(db.turns, after.db.turns, TurnOffers(plan, bundles))
      && Took(db.events, after.db.events, EventOffers(plan, bundles), start, taken)
      && after.next == start + Mints(EventOffers(plan, bundles))
      && after.counts.events == |after.db.events| - |db.events| == |taken|
      && after.counts.messages == |after.db.messages| - |db.messages|
      && after.counts.sessions == |after.db.sessions| - |db.sessions|
  {
    hide PlanFor, CopyAll, LinkAll, Import, FirstWins, Took, Mints, LastLink;
    var plan, begun, w := ImportParts(db, ws, pick, bundles, next);
    taken := AllTold(begun, ws, plan, bundles);
    LinkMeaning(w.db, plan, bundles);
    SameKeys(w.db.sessions, LinkAll(w.db, plan, bundles).sessions);
  }

  lemma {:induction false} SameKeys(a: map<Id, Session>, b: map<Id, Session>)
    requires a.Keys == b.Keys
    ensures |a| == |b|
  {
    assert |a| == |a.Keys| && |b| == |b.Keys|;
  }

  // ---------------------------------------------------------------------
  // When an import fails
  // ---------------------------------------------------------------------

  /** A hash among the rows to write does not decode. */
  ghost predicate BadHash(plan: Plan, bundles: seq<Bundle>) {
    exists i: nat :: i < |bundles| && Written(plan, bundles[i].id) && Undecoded(bundles[i].events)
  }

  ghost predicate Undecoded(es: seq<EventRow>) {
    exists j: nat :: j < |es| && !es[j].hashDecodes
  }

  /** A session that is new is listed twice. */
  ghost predicate NewTwice(plan: Plan, bundles: seq<Bundle>) {
    exists id :: id in plan && plan[id].mode.Insert? && Occurrences(bundles, id) > 1
  }

  lemma {:induction false} EventsFail(w: Work, final: Id, mint: bool, es: seq<EventRow>)
    ensures CopyEvents(w, final, mint, es).None? <==> Undecoded(es)
  {
    if es != [] {
      var init, e := es[..|es| - 1], es[|es| - 1];
      EventsFail(w, final, mint, init);
      UndecodedSnoc(init, e);
      assert es == init + [e];
      hide Undecoded;
      if CopyEvents(w, final, mint, init).Some? {
        HashesDecode(CopyEvents(w, final, mint, init).value, final, mint, e);
      }
    }
  }

  lemma {:induction false} UndecodedSnoc(es: seq<EventRow>, e: EventRow)
    ensures Undecoded(es + [e]) <==> Undecoded(es) || !e.hashDecodes
  {
    var all := es + [e];
    assert all[|es|] == e;
    if Undecoded(es) {
      var j: nat :| j < |es| && !es[j].hashDecodes;
      assert all[j] == es[j];
    }
    if Undecoded(all) {
      var j: nat :| j < |all| && !all[j].hashDecodes;
      assert j < |es| ==> es[j] == all[j];
    }
  }

  lemma {:induction false} BadHashSnoc(plan: Plan, init: seq<Bundle>, b: Bundle)
    ensures BadHash(plan, init + [b]) <==> BadHash(plan, init) || (Written(plan, b.id) && Undecoded(b.events))
  {
    hide Undecoded, Written;
    var all := init + [b];
    assert all[|init|] == b;
    if BadHash(plan, init) {
      var i: nat :| i < |init| && Written(plan, init[i].id) && Undecoded(init[i].events);
      assert all[i] == init[i];
    }
    if BadHash(plan, all) {
      var i: nat :| i < |all| && Written(plan, all[i].id) && Undecoded(all[i].events);
      assert i < |init| ==> init[i] == all[i];
    }
  }

  lemma {:induction false} NewTwiceSnoc(plan: Plan, init: seq<Bundle>, b: Bundle)
    ensures NewTwice(plan, init + [b])
      <==> NewTwice(plan, init) || (b.id in plan && plan[b.id].mode.Insert? && Occurrences(init, b.id) > 0)
  {
    var all := init + [b];
    assert all[..|all| - 1] == init;
    forall id
      ensures Occurrences(all, id) == Occurrences(init, id) + if b.id == id then 1 else 0
    {
    }
    hide Occurrences;
  }

  /** The places the copying needs: those of new sessions are free, and no two bundles share one. */
  ghost predicate Roomy(db: Db, plan: Plan) {
    FinalsDistinct(plan) && forall id :: id in plan && plan[id].mode.Insert? ==> plan[id].final !in db.sessions
  }

  /** The sessions there after copying some bundles. */
  ghost predicate SessionsTold(db: Db, after: Db, plan: Plan, bundles: seq<Bundle>) {
    forall s :: s in after.sessions <==>
      s in db.sessions || exists id :: Created(plan, bundles, id, s)
  }

  ghost predicate Created(plan: Plan, bundles: seq<Bundle>, id: Id, s: Id) {
    id in plan && plan[id] == Placement(s, Insert) && Occurrences(bundles, id) > 0
  }

  lemma {:induction false} CreatedSnoc(plan: Plan, init: seq<Bundle>, b: Bundle, id: Id, s: Id)
    ensures Created(plan, init + [b], id, s)
      <==> Created(plan, init, id, s) || (id == b.id && b.id in plan && plan[b.id] == Placement(s, Insert))
  {
    assert (init + [b])[..|init + [b]| - 1] == init;
  }

  lemma {:induction false} RowsKeepSessions(w: Work, b: Bundle, final: Id, mint: bool)
    ensures CopyRows(w, b, final, mint).None? <==> Undecoded(b.events)
    ensures CopyRows(w, b, final, mint).Some? ==>
      CopyRows(w, b, final, mint).value.db.sessions == w.db.sessions
  {
    EventsFail(w, final, mint, b.events);
    if CopyRows(w, b, final, mint).Some? {
      RowsOfBundle(w, b, final, mint, {final});
    }
  }

  lemma {:induction false} BundleFails(db: Db, w: Work, ws: nat, plan: Plan, init: seq<Bundle>, b: Bundle)
    requires Roomy(db, plan) && SessionsTold(db, w.db, plan, init) && b.id in plan
    ensures var r := CopyBundle(w, ws, b, plan[b.id]);
      var again := plan[b.id].mode.Insert? && Occurrences(init, b.id) > 0;
      && (r.None? <==> Written(plan, b.id) && (Undecoded(b.events) || again))
      && (r.Some? ==> SessionsTold(db, r.value.db, plan, init + [b]))
  {
    var p := plan[b.id];
    hide CopyRows, Undecoded, Occurrences, Created;
    var r := CopyBundle(w, ws, b, p);
    match p.mode {
      case AlreadyImported =>
      case Update => RowsKeepSessions(w, b, p.final, false);
      case Insert =>
        PlaceTaken(db, w.db, plan, init, b.id);
        if CopySession(w, ws, b, p.final).Some? {
          RowsKeepSessions(CopySession(w, ws, b, p.final).value, b, p.final, true);
        }
    }
    if r.Some? {
      CreatedAll(db, w.db, r.value.db, plan, init, b);
    }
  }

  /** A new session's place is taken just when the session was listed before. */
  lemma {:induction false} PlaceTaken(db: Db, after: Db, plan: Plan, init: seq<Bundle>, id: Id)
    requires Roomy(db, plan) && SessionsTold(db, after, plan, init) && id in plan && plan[id].mode.Insert?
    ensures plan[id].final in after.sessions <==> Occurrences(init, id) > 0
  {
    hide Occurrences;
    var s := plan[id].final;
    if Occurrences(init, id) > 0 {
      assert Created(plan, init, id, s);
    }
    if s in after.sessions {
      var a :| Created(plan, init, a, s);
      assert Written(plan, a) && Written(plan, id);
    }
  }

  lemma {:induction false} CreatedAll(db: Db, mid: Db, after: Db, plan: Plan, init: seq<Bundle>, b: Bundle)
    requires SessionsTold(db, mid, plan, init) && b.id in plan
    requires forall s :: s in after.sessions <==> s in mid.sessions || plan[b.id] == Placement(s, Insert)
    ensures SessionsTold(db, after, plan, init + [b])
  {
    hide Created;
    forall s
      ensures s in after.sessions <==> s in db.sessions || exists id :: Created(plan, init + [b], id, s)
    {
      CreatedSnoc(plan, init, b, b.id, s);
      if id :| Created(plan, init, id, s) {
        CreatedSnoc(plan, init, b, id, s);
      }
      if id :| Created(plan, init + [b], id, s) {
        CreatedSnoc(plan, init, b, id, s);
      }
    }
  }

  lemma {:induction false} CopyFails(start: Work, ws: nat, plan: Plan, bundles: seq<Bundle>)
    requires Roomy(start.db, plan) && forall i :: 0 <= i < |bundles| ==> bundles[i].id in plan
    ensures var r := CopyAll(start, ws, plan, bundles);
      && (r.None? <==> BadHash(plan, bundles) || NewTwice(plan, bundles))
      && (r.Some? ==> SessionsTold(start.db, r.value.db, plan, bundles))
  {
    if bundles == [] {
      assert forall id, s :: !Created(plan, bundles, id, s);
    } else {
      var init, b := bundles[..|bundles| - 1], bundles[|bundles| - 1];
      assert bundles == init + [b];
      assert forall i :: 0 <= i < |init| ==> init[i] == bundles[i];
      hide CopyBundle, BadHash, NewTwice, SessionsTold, Roomy, Undecoded, Occurrences;
      CopyFails(start, ws, plan, init);
      BadHashSnoc(plan, init, b);
      NewTwiceSnoc(plan, init, b);
      if CopyAll(start, ws, plan, init).Some? {
        BundleFails(start.db, CopyAll(start, ws, plan, init).value, ws, plan, init, b);
      }
    }
  }

  lemma {:induction false} PlanRoomy(db: Db, ws: nat, pick: Pick, bundles: seq<Bundle>, next: Id)
    requires SupplyFresh(db, bundles, next)
    ensures Roomy(db, PlanFor(db, ws, pick, bundles, next).0)
    ensures forall i :: 0 <= i < |bundles| ==> bundles[i].id in PlanFor(db, ws, pick, bundles, next).0
  {
    PlanDistinct(db, ws, pick, bundles, next);
    PlanRight(db, ws, pick, bundles, next);
    hide PlanFor, Copies, FinalsDistinct, Occurrences;
    forall i | 0 <= i < |bundles|
      ensures bundles[i].id in PlanFor(db, ws, pick, bundles, next).0
    {
      OccursSome(bundles, i);
    }
  }

  /** An import fails just when a hash to write does not decode, or a session that is new is listed twice. */
  lemma {:induction false} ImportFails(db: Db, ws: nat, pick: Pick, bundles: seq<Bundle>, next: Id)
    requires SupplyFresh(db, bundles, next)
    ensures var plan := PlanFor(db, ws, pick, bundles, next).0;
      && (Import(db, ws, pick, bundles, next).None? <==> BadHash(plan, bundles) || NewTwice(plan, bundles))
      && (Import(db, ws, pick, bundles, next).Some? ==>
            forall s :: s in Import(db, ws, pick, bundles, next).value.db.sessions <==>
              s in db.sessions || exists id :: id in plan && plan[id] == Placement(s, Insert))
  {
    PlanRoomy(db, ws, pick, bundles, next);
    PlanKeys(db, ws, pick, bundles, next);
    var (plan, n) := PlanFor(db, ws, pick, bundles, next);
    CopyFails(Work(db, n, Counts(0, 0, 0)), ws, plan, bundles);
    hide PlanFor, CopyAll, LinkAll, BadHash, NewTwice, Roomy, LastLink, Occurrences, SessionsTold, SupplyFresh;
    var r := CopyAll(Work(db, n, Counts(0, 0, 0)), ws, plan, bundles);
    if r.Some? {
      LinkMeaning(r.value.db, plan, bundles);
      CreatedWhole(db, r.value.db, plan, bundles);
    }
  }

  lemma {:induction false} CreatedWhole(db: Db, after: Db, plan: Plan, bundles: seq<Bundle>)
    requires SessionsTold(db, after, plan, bundles)
    requires forall id :: id in plan ==> Occurrences(bundles, id) > 0
    ensures forall s :: s in after.sessions <==>
      s in db.sessions || exists id :: id in plan && plan[id] == Placement(s, Insert)
  {
    hide Occurrences;
    forall s
      ensures s in after.sessions <==> s in db.sessions || exists id :: id in plan && plan[id] == Placement(s, Insert)
    {
      if id :| id in plan && plan[id] == Placement(s, Insert) {
        assert Created(plan, bundles, id, s);
      }
      if id :| Created(plan, bundles, id, s) {
        assert id in plan && plan[id] == Placement(s, Insert);
      }
    }
  }

  // ---------------------------------------------------------------------
  // Sessions the import does not write to
  // ---------------------------------------------------------------------

  /** A session that no bundle is written to is the same in every table, whoever owns it. */
  lemma {:induction false} UnwrittenUntouched(db: Db, ws: nat, pick: Pick, bundles: seq<Bundle>, next: Id, s: Id)
    requires s in db.sessions && Import(db, ws, pick, bundles, next).Some?
    requires var plan := PlanFor(db, ws, pick, bundles, next).0;
      forall id :: id in plan && Written(plan, id) ==> plan[id].final != s
    ensures SameSession(db, Import(db, ws, pick, bundles, next).value.db, s)
  {
    hide PlanFor, CopyAll, LinkAll, LastLink, Import, SameSession, RowsExtend;
    var plan, start, w := ImportParts(db, ws, pick, bundles, next);
    AllExtend(start, ws, plan, bundles);
    LinkMeaning(w.db, plan, bundles);
    if LastLink(plan, bundles, s).Some? {
      LinkInTargets(plan, bundles, s);
    }
    SameInBoth(db, w.db, LinkAll(w.db, plan, bundles), Targets(plan), s);
  }

  /** A session recognised as imported before has a copy that this workspace made of it. */
  lemma {:induction false} RecognisedCopy(db: Db, ws: nat, pick: Pick, bundles: seq<Bundle>, next: Id, id: Id)
    requires Picks(pick)
    requires var plan := PlanFor(db, ws, pick, bundles, next).0;
      id in plan && plan[id].mode == AlreadyImported
    ensures var s := PlanFor(db, ws, pick, bundles, next).0[id].final;
      s in db.sessions && db.sessions[s].owner == Some(ws) && db.sessions[s].origin == Some(id)
  {
    PlanRight(db, ws, pick, bundles, next);
    hide PlanFor, Occurrences;
  }
}
