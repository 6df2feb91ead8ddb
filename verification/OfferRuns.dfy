/** Every run of the offer machine together with the inventory it trades. */
module OfferRuns {
  import opened Common
  import opened Trading
  import opened TradingInvariants
  import TR = TradingRuns
  import opened Offers

  type OfferMap = map<nat, Offer>
  type VersionMap = map<(nat, nat), Version>

  /** The creator sends the odd revisions, the other participant the even ones. */
  ghost predicate SendersAlternate(id: nat, o: Offer, versions: VersionMap) {
    && (id, 1) in versions
    && forall r :: 1 <= r <= o.revision ==>
         (id, r) in versions && versions[(id, r)].sender == if r % 2 == 1 then versions[(id, 1)].sender else o.Opposite(versions[(id, 1)].sender)
  }

  ghost predicate OfferOk(id: nat, o: Offer, versions: VersionMap) {
    && o.a < o.b && o.sender in o.Parties()
    && 1 <= o.revision <= MAX_REVISION
    && SendersAlternate(id, o, versions)
    && versions[(id, 1)].sender in o.Parties()
    && versions[(id, o.revision)].sender == o.sender
    && TermsOk(versions[(id, o.revision)].terms)
    && versions[(id, o.revision)].terms.a == o.a && versions[(id, o.revision)].terms.b == o.b
  }

  ghost predicate OffersOk(offers: OfferMap, versions: VersionMap) {
    forall id :: id in offers ==> OfferOk(id, offers[id], versions)
  }

  ghost predicate WorldOk(w: World) {
    Inv(w.db) && Linked(w.db) && OffersOk(w.offers, w.versions)
  }

  // ---- The three ways an offer changes ----

  lemma OpeningOk(offers: OfferMap, versions: VersionMap, id: nat, o: Offer, v: Version)
    requires OffersOk(offers, versions) && id !in offers
    requires o.a < o.b && o.sender in o.Parties() && o.revision == 1 && v.sender == o.sender
    requires TermsOk(v.terms) && v.terms.a == o.a && v.terms.b == o.b
    ensures OffersOk(offers[id := o], versions[(id, 1) := v])
  {
    var offers2, versions2 := offers[id := o], versions[(id, 1) := v];
    forall x | x in offers2 ensures OfferOk(x, offers2[x], versions2) {
      assert x != id ==> OfferOk(x, offers[x], versions);
    }
  }

  lemma CounteringOk(offers: OfferMap, versions: VersionMap, id: nat, o: Offer, v: Version)
    requires OffersOk(offers, versions) && id in offers && offers[id].revision < MAX_REVISION
    requires o.a == offers[id].a && o.b == offers[id].b && o.revision == offers[id].revision + 1
    requires o.sender in o.Parties() && o.sender != offers[id].sender && v.sender == o.sender
    requires TermsOk(v.terms) && v.terms.a == o.a && v.terms.b == o.b
    ensures OffersOk(offers[id := o], versions[(id, o.revision) := v])
  {
    var offers2, versions2 := offers[id := o], versions[(id, o.revision) := v];
    assert OfferOk(id, offers[id], versions);
    forall x | x in offers2 ensures OfferOk(x, offers2[x], versions2) {
      if x == id {
        NextSender(id, offers[id], versions, o, v);
      } else {
        assert OfferOk(x, offers[x], versions);
      }
    }
  }

  /** The recipient of a revision is the sender of the next. */
  lemma NextSender(id: nat, before: Offer, versions: VersionMap, o: Offer, v: Version)
    requires OfferOk(id, before, versions)
    requires o.a == before.a && o.b == before.b && o.revision == before.revision + 1
    requires o.sender in o.Parties() && o.sender != before.sender && v.sender == o.sender
    ensures SendersAlternate(id, o, versions[(id, o.revision) := v])
  {
    var versions2 := versions[(id, o.revision) := v];
    assert versions[(id, before.revision)].sender == before.sender;
    forall r | 1 <= r <= o.revision
      ensures (id, r) in versions2
           && versions2[(id, r)].sender == if r % 2 == 1 then versions2[(id, 1)].sender else o.Opposite(versions2[(id, 1)].sender)
    {
      if r <= before.revision {
        assert versions2[(id, r)] == versions[(id, r)];
      }
    }
  }

  lemma ClosingOk(offers: OfferMap, versions: VersionMap, id: nat, status: Status)
    requires OffersOk(offers, versions) && id in offers
    ensures OffersOk(offers[id := offers[id].(status := status)], versions)
  {
    var offers2 := offers[id := offers[id].(status := status)];
    assert OfferOk(id, offers[id], versions);
    forall x | x in offers2 ensures OfferOk(x, offers2[x], versions) {
      assert OfferOk(x, offers[x], versions);
    }
  }

  // ---- Each piece of work ----

  /** What any call may do: pending offers change, closed ones do not; answers are only added; trades go through Settle. */
  ghost predicate Advance(w: World, d: World) {
    && (forall id :: id in w.offers ==> id in d.offers && d.offers[id].a == w.offers[id].a && d.offers[id].b == w.offers[id].b)
    && (forall id :: id in w.offers && w.offers[id].status != Pending ==>
          d.offers[id] == w.offers[id] && CurrentTerms(d, id) == CurrentTerms(w, id))
    && (forall q :: q in w.requests ==> q in d.requests && d.requests[q] == w.requests[q])
    && w.events <= d.events
  }

  ghost predicate TradesBySettle(w: World, d: World) {
    || d.db == w.db
    || exists t, confirm :: TermsOk(t) && Settle(w.db, t, confirm).1.Accepted? && d.db == Settle(w.db, t, confirm).0
  }

  /** Work on the offers that leaves the inventory and the answers alone. */
  ghost predicate OnlyOffers(w: World, d: World) {
    OffersOk(d.offers, d.versions) && Advance(w, d) && d.db == w.db && d.requests == w.requests
  }

  lemma OpenedOk(w: World, id: nat, o: Offer, v: Version)
    requires OffersOk(w.offers, w.versions) && id !in w.offers
    requires o.a < o.b && o.sender in o.Parties() && o.revision == 1 && v.sender == o.sender
    requires TermsOk(v.terms) && v.terms.a == o.a && v.terms.b == o.b
    ensures OnlyOffers(w, Revised(w, id, o, v, SentEvent))
  {
    OpeningOk(w.offers, w.versions, id, o, v);
  }

  lemma CounteredOk(w: World, id: nat, o: Offer, v: Version)
    requires OffersOk(w.offers, w.versions) && id in w.offers && w.offers[id].revision < MAX_REVISION && w.offers[id].status == Pending
    requires o.a == w.offers[id].a && o.b == w.offers[id].b && o.revision == w.offers[id].revision + 1
    requires o.sender in o.Parties() && o.sender != w.offers[id].sender && v.sender == o.sender
    requires TermsOk(v.terms) && v.terms.a == o.a && v.terms.b == o.b
    ensures OnlyOffers(w, Revised(w, id, o, v, CounteredEvent))
  {
    CounteringOk(w.offers, w.versions, id, o, v);
  }

  lemma ClosedOk(w: World, offer: nat, status: Status, actor: Option<nat>)
    requires OffersOk(w.offers, w.versions) && offer in w.offers && w.offers[offer].status == Pending
    ensures OnlyOffers(w, Close(w, offer, status, actor))
  {
    ClosingOk(w.offers, w.versions, offer, status);
  }

  /** Creating either fails or stores the first revision. */
  lemma CreateWorkIs(w: World, actor: nat, recipient: nat, agreed: Agreed, now: int, c: Controls, newId: nat)
    ensures var snapshot := Snapshot(w.db, actor, recipient, agreed);
      var d := CreateWork(w, actor, recipient, agreed, now, c, newId).0;
      || d == w
      || (snapshot.Ok?
          && d == Revised(w, newId, Offer(snapshot.value.a, snapshot.value.b, actor, 1, Pending, now + WEEK),
                          Version(actor, snapshot.value, agreed.message), SentEvent))
  {
  }

  lemma CreateWorkOk(w: World, actor: nat, recipient: nat, agreed: Agreed, now: int, c: Controls, newId: nat)
    requires OffersOk(w.offers, w.versions) && newId !in w.offers && actor != recipient
    ensures OnlyOffers(w, CreateWork(w, actor, recipient, agreed, now, c, newId).0)
  {
    CreateWorkIs(w, actor, recipient, agreed, now, c, newId);
    if CreateWork(w, actor, recipient, agreed, now, c, newId).0 == w {
      Unchanged(w);
    } else {
      SnapshotOk(w.db, actor, recipient, agreed);
      var t := Snapshot(w.db, actor, recipient, agreed).value;
      OpenedOk(w, newId, Offer(t.a, t.b, actor, 1, Pending, now + WEEK), Version(actor, t, agreed.message));
    }
  }

  lemma ValidateIs(w: World, offer: nat, revision: nat, now: int)
    requires offer in w.offers
    ensures var c := ValidatePending(w, offer, revision, now);
      && (c.Answer? ==> c.world == w || (w.offers[offer].status == Pending && c.world == Close(w, offer, Expired, None)))
      && (c.Go? ==> w.offers[offer].status == Pending)
  {
  }

  lemma ValidateOk(w: World, offer: nat, revision: nat, now: int)
    requires OffersOk(w.offers, w.versions) && offer in w.offers
    ensures var c := ValidatePending(w, offer, revision, now);
      (c.Answer? ==> OnlyOffers(w, c.world)) && (c.Go? ==> w.offers[offer].status == Pending)
  {
    ValidateIs(w, offer, revision, now);
    var c := ValidatePending(w, offer, revision, now);
    if c.Answer? {
      if c.world == w {
        Unchanged(w);
      } else {
        ClosedOk(w, offer, Expired, None);
      }
    }
  }

  lemma OfferFacts(w: World, offer: nat)
    requires OffersOk(w.offers, w.versions) && offer in w.offers
    ensures w.offers[offer].a < w.offers[offer].b && w.offers[offer].sender in w.offers[offer].Parties()
  {
    assert OfferOk(offer, w.offers[offer], w.versions);
  }

  lemma CounterTermsOk(db: Db, o: Offer, actor: nat, agreed: Agreed)
    requires o.a < o.b && actor in o.Parties() && Snapshot(db, actor, o.Opposite(actor), agreed).Ok?
    ensures var t := Snapshot(db, actor, o.Opposite(actor), agreed).value;
      TermsOk(t) && t.a == o.a && t.b == o.b
  {
    SnapshotOk(db, actor, o.Opposite(actor), agreed);
    SameParties(o, actor, Snapshot(db, actor, o.Opposite(actor), agreed).value);
  }

  /** A counter either fails or stores the next revision. */
  lemma CounterPendingIs(w: World, actor: nat, offer: nat, agreed: Agreed, now: int)
    requires offer in w.offers
    ensures var o := w.offers[offer];
      var snapshot := Snapshot(w.db, actor, o.Opposite(actor), agreed);
      || CounterPending(w, actor, offer, agreed, now).0 == w
      || (o.sender != actor && o.revision < MAX_REVISION && snapshot.Ok?
          && CounterPending(w, actor, offer, agreed, now).0
             == Revised(w, offer, NextRevision(o, actor, now), Version(actor, snapshot.value, agreed.message), CounteredEvent))
  {
  }

  lemma Unchanged(w: World)
    requires OffersOk(w.offers, w.versions)
    ensures OnlyOffers(w, w)
  {
  }

  lemma CounterPendingOk(w: World, actor: nat, offer: nat, agreed: Agreed, now: int)
    requires OffersOk(w.offers, w.versions) && offer in w.offers && actor in w.offers[offer].Parties() && w.offers[offer].status == Pending
    ensures OnlyOffers(w, CounterPending(w, actor, offer, agreed, now).0)
  {
    var o := w.offers[offer];
    OfferFacts(w, offer);
    CounterPendingIs(w, actor, offer, agreed, now);
    if CounterPending(w, actor, offer, agreed, now).0 == w {
      Unchanged(w);
    } else {
      CounterTermsOk(w.db, o, actor, agreed);
      CounteredOk(w, offer, NextRevision(o, actor, now), Version(actor, Snapshot(w.db, actor, o.Opposite(actor), agreed).value, agreed.message));
    }
  }

  lemma CounterWorkOk(w: World, actor: nat, offer: nat, revision: nat, agreed: Agreed, now: int, enabled: bool)
    requires OffersOk(w.offers, w.versions) && offer in w.offers && actor in w.offers[offer].Parties()
    ensures OnlyOffers(w, CounterWork(w, actor, offer, revision, agreed, now, enabled).0)
  {
    ValidateOk(w, offer, revision, now);
    if ValidatePending(w, offer, revision, now).Go? {
      CounterPendingOk(w, actor, offer, agreed, now);
    }
  }

  lemma SameParties(o: Offer, actor: nat, t: Terms)
    requires o.a < o.b && actor in o.Parties() && t.a < t.b && {t.a, t.b} == {actor, o.Opposite(actor)}
    ensures t.a == o.a && t.b == o.b
  {
    assert t.a in {t.a, t.b} && t.b in {t.a, t.b};
  }

  lemma SettledOk(w: World, t: Terms, confirmGift: bool)
    requires WorldOk(w) && TermsOk(t)
    ensures var d := w.(db := Settle(w.db, t, confirmGift).0);
      WorldOk(d) && TradesBySettle(w, d)
  {
    SettleKeepsInv(w.db, t, confirmGift);
    TR.SettleKeepsLinked(w.db, t, confirmGift);
  }

  /** Work that keeps the world in order, leaves the answers alone and trades only by settling. */
  ghost predicate GoodWork(w: World, d: World) {
    WorldOk(d) && Advance(w, d) && d.requests == w.requests && TradesBySettle(w, d)
  }

  lemma OnlyOffersGood(w: World, d: World)
    requires WorldOk(w) && OnlyOffers(w, d)
    ensures GoodWork(w, d)
  {
  }

  lemma DbAside(w: World, db: Db, d: World)
    requires Advance(w.(db := db), d)
    ensures Advance(w, d)
  {
  }

  lemma AcceptedGood(w: World, t: Terms, confirmGift: bool, offer: nat, actor: nat)
    requires WorldOk(w) && TermsOk(t) && offer in w.offers && w.offers[offer].status == Pending
    ensures GoodWork(w, Close(w.(db := Settle(w.db, t, confirmGift).0), offer, Done, Some(actor)))
  {
    var db := Settle(w.db, t, confirmGift).0;
    SettledOk(w, t, confirmGift);
    ClosedOk(w.(db := db), offer, Done, Some(actor));
    DbAside(w, db, Close(w.(db := db), offer, Done, Some(actor)));
    OnlyOffersOn(w, db, Close(w.(db := db), offer, Done, Some(actor)));
  }

  lemma OnlyOffersOn(w: World, db: Db, d: World)
    requires WorldOk(w.(db := db)) && TradesBySettle(w, w.(db := db)) && OnlyOffers(w.(db := db), d) && Advance(w, d)
    ensures GoodWork(w, d)
  {
  }

  lemma CurrentTermsOk(w: World, offer: nat)
    requires OffersOk(w.offers, w.versions) && offer in w.offers
    ensures TermsOk(CurrentTerms(w, offer))
  {
    assert OfferOk(offer, w.offers[offer], w.versions);
  }

  lemma SettleOfferIs(w: World, actor: nat, offer: nat, confirmGift: bool)
    requires offer in w.offers
    ensures var d := SettleOffer(w, actor, offer, confirmGift).0;
      || d == w
      || d == Close(w.(db := Settle(w.db, CurrentTerms(w, offer), confirmGift).0), offer, Done, Some(actor))
      || d == Close(w, offer, Invalidated, Some(actor))
  {
  }

  lemma SettleOfferGood(w: World, actor: nat, offer: nat, confirmGift: bool)
    requires WorldOk(w) && offer in w.offers && w.offers[offer].status == Pending
    ensures GoodWork(w, SettleOffer(w, actor, offer, confirmGift).0)
  {
    SettleOfferIs(w, actor, offer, confirmGift);
    CurrentTermsOk(w, offer);
    AcceptedGood(w, CurrentTerms(w, offer), confirmGift, offer, actor);
    ClosedOk(w, offer, Invalidated, Some(actor));
    OnlyOffersGood(w, Close(w, offer, Invalidated, Some(actor)));
    OnlyOffersGood(w, w);
  }

  lemma ClosedGood(w: World, offer: nat, status: Status, actor: Option<nat>)
    requires WorldOk(w) && offer in w.offers && w.offers[offer].status == Pending
    ensures GoodWork(w, Close(w, offer, status, actor))
  {
    ClosedOk(w, offer, status, actor);
    OnlyOffersGood(w, Close(w, offer, status, actor));
  }

  lemma RespondPendingGood(w: World, actor: nat, offer: nat, action: Action, confirmGift: bool)
    requires WorldOk(w) && offer in w.offers && w.offers[offer].status == Pending
    ensures GoodWork(w, RespondPending(w, actor, offer, action, confirmGift).0)
  {
    if (action == Cancel) != (w.offers[offer].sender == actor) {
      OnlyOffersGood(w, w);
    } else if action == Accept {
      SettleOfferGood(w, actor, offer, confirmGift);
    } else {
      ClosedGood(w, offer, if action == Cancel then Cancelled else Declined, Some(actor));
    }
  }

  lemma RespondWorkGood(w: World, actor: nat, offer: nat, revision: nat, action: Action, confirmGift: bool, now: int, enabled: bool)
    requires WorldOk(w) && offer in w.offers
    ensures GoodWork(w, RespondWork(w, actor, offer, revision, action, confirmGift, now, enabled).0)
  {
    ValidateOk(w, offer, revision, now);
    match ValidatePending(w, offer, revision, now)
    case Answer(w2, _) => OnlyOffersGood(w, w2); OnlyOffersGood(w, w);
    case Stop(_) => OnlyOffersGood(w, w);
    case Go => RespondPendingGood(w, actor, offer, action, confirmGift); OnlyOffersGood(w, w);
  }

  /** A call's whole effect. */
  ghost predicate Good(w: World, d: World) {
    WorldOk(d) && Advance(w, d) && TradesBySettle(w, d)
  }

  lemma RecordedGood(w: World, d: World, actor: nat, request: nat, payload: Payload, response: Response)
    requires GoodWork(w, d) && (actor, request) !in w.requests
    ensures Good(w, Recorded(d, actor, request, payload, response))
  {
  }

  lemma MutateIs(w: World, actor: nat, request: nat, other: nat, payload: Payload, work: (World, Result<Response, Failure>))
    ensures var (d, reply) := Mutate(w, actor, request, other, payload, work);
      d == w
      || (actor != other && (actor, request) !in w.requests && reply.Ok? && d == Recorded(work.0, actor, request, payload, reply.value))
  {
  }

  lemma MutateGood(w: World, actor: nat, request: nat, other: nat, payload: Payload, work: (World, Result<Response, Failure>))
    requires WorldOk(w) && (actor != other ==> GoodWork(w, work.0))
    ensures Good(w, Mutate(w, actor, request, other, payload, work).0)
  {
    MutateIs(w, actor, request, other, payload, work);
    var (d, reply) := Mutate(w, actor, request, other, payload, work);
    if d != w {
      RecordedGood(w, work.0, actor, request, payload, reply.value);
    }
  }

  // ---- Calls and runs ----

  datatype Call =
    | CallCreate(actor: nat, recipient: nat, request: nat, input: TermsInput, now: int, controls: Controls, newId: nat)
    | CallCounter(actor: nat, offer: nat, revision: nat, request: nat, input: TermsInput, now: int, enabled: bool)
    | CallRespond(actor: nat, offer: nat, revision: nat, request: nat, action: Action, confirmGift: bool, now: int, enabled: bool)
    | Sweep(found: seq<nat>, now: int)
    | Inventory(op: TR.Op)

  /** New offers get new ids; the inventory changes in between by anything but settling. */
  ghost predicate CanCall(w: World, c: Call) {
    match c
    case CallCreate(_, _, _, _, _, _, newId) => newId !in w.offers
    case Inventory(op) => TR.Enabled(w.db, op) && !op.DoSettle?
    case _ => true
  }

  function Called(w: World, c: Call): (World, Result<Response, Failure>)
    requires c.CallCreate? || c.CallCounter? || c.CallRespond?
  {
    match c
    case CallCreate(actor, recipient, request, input, now, controls, newId) => Create(w, actor, recipient, request, input, now, controls, newId)
    case CallCounter(actor, offer, revision, request, input, now, enabled) => Counter(w, actor, offer, revision, request, input, now, enabled)
    case CallRespond(actor, offer, revision, request, action, confirmGift, now, enabled) =>
      Respond(w, actor, offer, revision, request, action, confirmGift, now, enabled)
  }

  function Step(w: World, c: Call): World {
    match c
    case Sweep(found, now) => ExpireOffers(w, found, now)
    case Inventory(op) => w.(db := TR.After(w.db, op))
    case _ => Called(w, c).0
  }

  lemma CreateGood(w: World, c: Call)
    requires WorldOk(w) && c.CallCreate? && CanCall(w, c)
    ensures Good(w, Step(w, c))
  {
    if Normalize(c.input).Ok? {
      var agreed := Normalize(c.input).value;
      var work := CreateWork(w, c.actor, c.recipient, agreed, c.now, c.controls, c.newId);
      if c.actor != c.recipient {
        CreateWorkOk(w, c.actor, c.recipient, agreed, c.now, c.controls, c.newId);
        OnlyOffersGood(w, work.0);
      }
      MutateGood(w, c.actor, c.request, c.recipient, PCreate(c.recipient, agreed), work);
    }
  }

  lemma CounterGood(w: World, c: Call)
    requires WorldOk(w) && c.CallCounter?
    ensures Good(w, Step(w, c))
  {
    if c.revision >= 1 && Normalize(c.input).Ok? && c.offer in w.offers && c.actor in w.offers[c.offer].Parties() {
      var agreed := Normalize(c.input).value;
      var work := CounterWork(w, c.actor, c.offer, c.revision, agreed, c.now, c.enabled);
      CounterWorkOk(w, c.actor, c.offer, c.revision, agreed, c.now, c.enabled);
      OnlyOffersGood(w, work.0);
      MutateGood(w, c.actor, c.request, w.offers[c.offer].Opposite(c.actor), PCounter(c.offer, c.revision, agreed), work);
    }
  }

  lemma RespondGood(w: World, c: Call)
    requires WorldOk(w) && c.CallRespond?
    ensures Good(w, Step(w, c))
  {
    if c.revision >= 1 && c.offer in w.offers && c.actor in w.offers[c.offer].Parties() {
      RespondWorkGood(w, c.actor, c.offer, c.revision, c.action, c.confirmGift, c.now, c.enabled);
      MutateGood(w, c.actor, c.request, w.offers[c.offer].Opposite(c.actor), PRespond(c.action, c.offer, c.revision, c.confirmGift),
                 RespondWork(w, c.actor, c.offer, c.revision, c.action, c.confirmGift, c.now, c.enabled));
    }
  }

  lemma {:induction false} SweepOk(w: World, found: seq<nat>, now: int)
    requires OffersOk(w.offers, w.versions)
    ensures OnlyOffers(w, ExpireOffers(w, found, now))
    decreases |found|
  {
    if found != [] {
      var due := found[0] in w.offers && w.offers[found[0]].status == Pending && w.offers[found[0]].expiresAt <= now;
      var next := if due then Close(w, found[0], Expired, None) else w;
      if due {
        ClosedOk(w, found[0], Expired, None);
      }
      SweepOk(next, found[1..], now);
      AdvanceTransitive(w, next, ExpireOffers(w, found, now));
    }
  }

  lemma StepGood(w: World, c: Call)
    requires WorldOk(w) && CanCall(w, c)
    ensures WorldOk(Step(w, c)) && Advance(w, Step(w, c))
    ensures !c.Inventory? ==> TradesBySettle(w, Step(w, c))
  {
    match c
    case CallCreate(_, _, _, _, _, _, _) => CreateGood(w, c);
    case CallCounter(_, _, _, _, _, _, _) => CounterGood(w, c);
    case CallRespond(_, _, _, _, _, _, _, _) => RespondGood(w, c);
    case Sweep(found, now) => SweepOk(w, found, now);
    case Inventory(op) =>
      TR.StepKeepsInv(w.db, op);
      TR.StepKeepsLinked(w.db, op);
  }

  function Run(w: World, calls: seq<Call>): World
    decreases |calls|
  {
    if calls == [] then w else Run(Step(w, calls[0]), calls[1..])
  }

  ghost predicate ValidRun(w: World, calls: seq<Call>)
    decreases |calls|
  {
    calls == [] || (CanCall(w, calls[0]) && ValidRun(Step(w, calls[0]), calls[1..]))
  }

  lemma AdvanceTransitive(w: World, x: World, d: World)
    requires Advance(w, x) && Advance(x, d)
    ensures Advance(w, d)
  {
  }

  /**
   Over every run: senders alternate, no offer passes 100 revisions, a closed offer never changes again, and
   recorded answers stay.
   */
  lemma {:induction false} RunOk(w: World, calls: seq<Call>)
    requires WorldOk(w) && ValidRun(w, calls)
    ensures WorldOk(Run(w, calls)) && Advance(w, Run(w, calls))
    decreases |calls|
  {
    if calls != [] {
      StepGood(w, calls[0]);
      RunOk(Step(w, calls[0]), calls[1..]);
      AdvanceTransitive(w, Step(w, calls[0]), Run(w, calls));
    }
  }

  function Start(legacy: map<nat, nat>): World {
    World(TR.NOTHING.(legacy := legacy), map[], map[], map[], [])
  }

  /** From empty tables, every run of the inventory and of the offers ends in a world in order. */
  lemma ReachableWorldOk(legacy: map<nat, nat>, calls: seq<Call>)
    requires ValidRun(Start(legacy), calls)
    ensures WorldOk(Run(Start(legacy), calls))
  {
    TR.EmptyTablesOk(legacy);
    RunOk(Start(legacy), calls);
  }

  lemma ClosedForever(w: World, calls: seq<Call>, id: nat)
    requires WorldOk(w) && ValidRun(w, calls) && id in w.offers && w.offers[id].status != Pending
    ensures id in Run(w, calls).offers && Run(w, calls).offers[id] == w.offers[id]
  {
    RunOk(w, calls);
  }

  /** The sender of revision r is the creator exactly when r is odd. */
  lemma SenderIsCreatorIffOdd(w: World, id: nat, r: nat)
    requires WorldOk(w) && id in w.offers && 1 <= r <= w.offers[id].revision
    ensures w.offers[id].revision <= MAX_REVISION
    ensures (id, 1) in w.versions && (id, r) in w.versions
    ensures w.versions[(id, r)].sender == w.versions[(id, 1)].sender <==> r % 2 == 1
  {
    assert OfferOk(id, w.offers[id], w.versions);
  }

  // ---- Answering once ----

  /** The same request sent again at another time, with other switches and another unused offer id. */
  ghost predicate SameRequest(c: Call, again: Call) {
    match c
    case CallCreate(actor, recipient, request, input, _, _, _) =>
      again.CallCreate? && again.actor == actor && again.recipient == recipient && again.request == request && again.input == input
    case CallCounter(actor, offer, revision, request, input, _, _) =>
      again.CallCounter? && again.actor == actor && again.offer == offer && again.revision == revision
      && again.request == request && again.input == input
    case CallRespond(actor, offer, revision, request, action, confirmGift, _, _) =>
      again.CallRespond? && again.actor == actor && again.offer == offer && again.revision == revision && again.request == request
      && again.action == action && again.confirmGift == confirmGift
    case _ => false
  }

  function PayloadOf(c: Call): Payload
    requires c.CallRespond? || ((c.CallCreate? || c.CallCounter?) && Normalize(c.input).Ok?)
  {
    match c
    case CallCreate(_, recipient, _, input, _, _, _) => PCreate(recipient, Normalize(input).value)
    case CallCounter(_, offer, revision, _, input, _, _) => PCounter(offer, revision, Normalize(input).value)
    case CallRespond(_, offer, revision, _, action, confirmGift, _, _) => PRespond(action, offer, revision, confirmGift)
  }

  lemma RecordedAnswer(w: World, c: Call)
    requires c.CallCreate? || c.CallCounter? || c.CallRespond?
    requires Called(w, c).1.Ok?
    ensures c.CallRespond? || Normalize(c.input).Ok?
    ensures var w1 := Called(w, c).0;
      (c.actor, c.request) in w1.requests && w1.requests[(c.actor, c.request)] == (PayloadOf(c), Called(w, c).1.value)
  {
  }

  lemma AnswerFromRecord(d: World, again: Call, response: Response)
    requires again.CallCreate? || again.CallCounter? || again.CallRespond?
    requires again.CallRespond? || Normalize(again.input).Ok?
    requires (again.actor, again.request) in d.requests && d.requests[(again.actor, again.request)] == (PayloadOf(again), response)
    requires !again.CallCreate? ==> again.revision >= 1 && again.offer in d.offers && again.actor in d.offers[again.offer].Parties()
    requires again.CallCreate? ==> again.actor != again.recipient
    requires forall id :: id in d.offers ==> d.offers[id].a != d.offers[id].b
    ensures Called(d, again) == (d, Ok(response))
  {
  }

  lemma AnsweredShape(w: World, c: Call)
    requires c.CallCreate? || c.CallCounter? || c.CallRespond?
    requires Called(w, c).1.Ok?
    ensures !c.CallCreate? ==> c.revision >= 1 && c.offer in w.offers && c.actor in w.offers[c.offer].Parties()
    ensures c.CallCreate? ==> c.actor != c.recipient
  {
  }

  /** Repeating a call whose answer was committed returns the answer and does nothing, whatever happened in between. */
  lemma ReplayAnswers(w: World, c: Call, calls: seq<Call>, again: Call)
    requires c.CallCreate? || c.CallCounter? || c.CallRespond?
    requires WorldOk(w) && CanCall(w, c) && Called(w, c).1.Ok? && ValidRun(Called(w, c).0, calls)
    requires SameRequest(c, again)
    ensures var d := Run(Called(w, c).0, calls);
      Called(d, again) == (d, Called(w, c).1)
  {
    StepGood(w, c);
    RecordedAnswer(w, c);
    AnsweredShape(w, c);
    var w1 := Called(w, c).0;
    var d := Run(w1, calls);
    RunOk(w1, calls);
    assert forall id :: id in d.offers ==> OfferOk(id, d.offers[id], d.versions);
    AnswerFromRecord(d, again, Called(w, c).1.value);
  }

  /** The call is one whose parties and offer the service accepts, so it looks at its record. */
  predicate Admitted(w: World, c: Call) {
    match c
    case CallCreate(actor, recipient, _, input, _, _, _) => Normalize(input).Ok? && actor != recipient
    case CallCounter(actor, offer, revision, _, input, _, _) =>
      Normalize(input).Ok? && revision >= 1 && offer in w.offers && actor in w.offers[offer].Parties()
    case CallRespond(actor, offer, revision, _, _, _, _, _) =>
      revision >= 1 && offer in w.offers && actor in w.offers[offer].Parties()
    case _ => false
  }

  predicate SamePayload(c: Call, again: Call)
    requires c.CallRespond? || ((c.CallCreate? || c.CallCounter?) && Normalize(c.input).Ok?)
    requires again.CallCreate? || again.CallCounter? || again.CallRespond?
  {
    (again.CallRespond? || Normalize(again.input).Ok?) && PayloadOf(again) == PayloadOf(c)
  }

  lemma OtherPayloadRefused(d: World, again: Call, payload: Payload, response: Response)
    requires again.CallCreate? || again.CallCounter? || again.CallRespond?
    requires (again.actor, again.request) in d.requests && d.requests[(again.actor, again.request)] == (payload, response)
    requires again.CallRespond? || Normalize(again.input).Ok? ==> PayloadOf(again) != payload
    requires forall id :: id in d.offers ==> d.offers[id].a != d.offers[id].b
    ensures Called(d, again).0 == d && Called(d, again).1.Err?
    ensures Called(d, again).1 == Err(RequestReused) <==> Admitted(d, again)
  {
  }

  /**
   A committed request id sent again with anything else in it is refused and changes nothing, whatever happened in
   between; the reuse is named exactly when the call gets as far as its record.
   */
  lemma ReuseRefused(w: World, c: Call, calls: seq<Call>, again: Call)
    requires c.CallCreate? || c.CallCounter? || c.CallRespond?
    requires WorldOk(w) && CanCall(w, c) && Called(w, c).1.Ok? && ValidRun(Called(w, c).0, calls)
    requires again.CallCreate? || again.CallCounter? || again.CallRespond?
    requires again.actor == c.actor && again.request == c.request
    ensures c.CallRespond? || Normalize(c.input).Ok?
    ensures !SamePayload(c, again) ==>
      var (d, reply) := Called(Run(Called(w, c).0, calls), again);
      d == Run(Called(w, c).0, calls) && reply.Err? && (reply == Err(RequestReused) <==> Admitted(d, again))
  {
    StepGood(w, c);
    RecordedAnswer(w, c);
    var d := Run(Called(w, c).0, calls);
    RunOk(Called(w, c).0, calls);
    assert forall id :: id in d.offers ==> OfferOk(id, d.offers[id], d.versions);
    if !SamePayload(c, again) {
      OtherPayloadRefused(d, again, PayloadOf(c), Called(w, c).1.value);
    }
  }
}
