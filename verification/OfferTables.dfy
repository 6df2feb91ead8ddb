/** The offer transactions as the service runs them: rows read, checked and updated in order. */
module OfferTables {
  import opened Common
  import opened Trading
  import O = Offers
  import opened Offers

  class OfferService {
    var db: Db
    var offers: map<nat, Offer>
    var versions: map<(nat, nat), Version>
    var requests: map<(nat, nat), (Payload, Response)>
    var events: seq<Event>

    function View(): World
      reads this
    {
      World(db, offers, versions, requests, events)
    }

    /** What a request that was already committed answers. */
    method Recall(actor: nat, request: nat, other: nat, payload: Payload) returns (known: Option<Result<Response, Failure>>)
      ensures forall work :: known.Some? ==> Mutate(View(), actor, request, other, payload, work) == (View(), known.value)
      ensures known.None? <==> actor != other && (actor, request) !in requests
    {
      if actor == other {
        return Some(Err(SelfTrade));
      }
      if (actor, request) in requests {
        var (before, response) := requests[(actor, request)];
        return Some(if before != payload then Err(RequestReused) else Ok(response));
      }
      return None;
    }

    method CloseOffer(offer: nat, status: Status, actor: Option<nat>)
      requires offer in offers
      modifies this`offers, this`events
      ensures View() == Close(old(View()), offer, status, actor)
    {
      var row := offers[offer];
      offers := offers[offer := row.(status := status)];
      events := events + [Event(offer, row.revision, actor, ClosedEvent(status))];
    }

    method Revise(id: nat, o: Offer, v: Version, kind: EventKind)
      modifies this`offers, this`versions, this`events
      ensures View() == Revised(old(View()), id, o, v, kind)
    {
      offers := offers[id := o];
      versions := versions[(id, o.revision) := v];
      events := events + [Event(id, o.revision, Some(o.sender), kind)];
    }

    method Record(actor: nat, request: nat, payload: Payload, response: Response)
      modifies this`requests
      ensures View() == Recorded(old(View()), actor, request, payload, response)
    {
      requests := requests[(actor, request) := (payload, response)];
    }

    method CheckPending(offer: nat, revision: nat, now: int) returns (answer: Option<Result<Response, Failure>>)
      requires offer in offers
      modifies this`offers, this`events
      ensures var c := ValidatePending(old(View()), offer, revision, now);
        match answer
        case None => c == Go && View() == old(View())
        case Some(Ok(response)) => c == Answer(View(), response)
        case Some(Err(f)) => c == Stop(f) && View() == old(View())
    {
      var row := offers[offer];
      if row.status != Pending {
        return Some(Ok(Closed(offer)));
      }
      if row.expiresAt <= now {
        CloseOffer(offer, Expired, None);
        return Some(Ok(TooLate(offer)));
      }
      if row.revision != revision {
        return Some(Err(OfferChanged));
      }
      return None;
    }

    method Create(actor: nat, recipient: nat, request: nat, input: TermsInput, now: int, c: Controls, newId: nat)
      returns (r: Result<Response, Failure>)
      modifies this
      ensures (View(), r) == O.Create(old(View()), actor, recipient, request, input, now, c, newId)
    {
      var agreed := Normalize(input);
      if agreed.Err? {
        return Err(agreed.error);
      }
      var payload := PCreate(recipient, agreed.value);
      var known := Recall(actor, request, recipient, payload);
      if known.Some? {
        return known.value;
      }
      r := CreateOffer(actor, recipient, agreed.value, now, c, newId);
      if r.Ok? {
        Record(actor, request, payload, r.value);
      }
    }

    method CreateOffer(actor: nat, recipient: nat, agreed: Agreed, now: int, c: Controls, newId: nat) returns (r: Result<Response, Failure>)
      modifies this`offers, this`versions, this`events
      ensures (View(), r) == CreateWork(old(View()), actor, recipient, agreed, now, c, newId)
    {
      if !c.enabled {
        return Err(Paused);
      }
      if !c.recipientAllows {
        return Err(OffersDisabled);
      }
      if |ActiveOf(offers, actor, now)| >= ACTIVE_OFFERS || |ActiveOf(offers, recipient, now)| >= ACTIVE_OFFERS {
        return Err(TooManyOffers);
      }
      var terms := Snapshot(db, actor, recipient, agreed);
      if terms.Err? {
        return Err(terms.error);
      }
      Revise(newId, Offer(terms.value.a, terms.value.b, actor, 1, Pending, now + WEEK), Version(actor, terms.value, agreed.message), SentEvent);
      return Ok(Sent(newId));
    }

    method Counter(actor: nat, offer: nat, revision: nat, request: nat, input: TermsInput, now: int, enabled: bool)
      returns (r: Result<Response, Failure>)
      modifies this
      ensures (View(), r) == O.Counter(old(View()), actor, offer, revision, request, input, now, enabled)
    {
      if revision < 1 {
        return Err(InvalidRevision);
      }
      var agreed := Normalize(input);
      if agreed.Err? {
        return Err(agreed.error);
      }
      if offer !in offers || actor !in offers[offer].Parties() {
        return Err(OfferMissing);
      }
      var payload := PCounter(offer, revision, agreed.value);
      var known := Recall(actor, request, offers[offer].Opposite(actor), payload);
      if known.Some? {
        return known.value;
      }
      r := CounterOffer(actor, offer, revision, agreed.value, now, enabled);
      if r.Ok? {
        Record(actor, request, payload, r.value);
      }
    }

    method CounterOffer(actor: nat, offer: nat, revision: nat, agreed: Agreed, now: int, enabled: bool) returns (r: Result<Response, Failure>)
      requires offer in offers
      modifies this`offers, this`versions, this`events
      ensures (View(), r) == CounterWork(old(View()), actor, offer, revision, agreed, now, enabled)
    {
      if !enabled {
        return Err(Paused);
      }
      var answer := CheckPending(offer, revision, now);
      if answer.Some? {
        return answer.value;
      }
      r := ReviseTerms(actor, offer, agreed, now);
    }

    method ReviseTerms(actor: nat, offer: nat, agreed: Agreed, now: int) returns (r: Result<Response, Failure>)
      requires offer in offers
      modifies this`offers, this`versions, this`events
      ensures (View(), r) == CounterPending(old(View()), actor, offer, agreed, now)
    {
      var row := offers[offer];
      if row.sender == actor {
        return Err(NotRecipient);
      }
      if row.revision >= MAX_REVISION {
        return Err(RevisionLimit);
      }
      var terms := Snapshot(db, actor, row.Opposite(actor), agreed);
      if terms.Err? {
        return Err(terms.error);
      }
      Revise(offer, row.(sender := actor, revision := row.revision + 1, expiresAt := now + WEEK),
             Version(actor, terms.value, agreed.message), CounteredEvent);
      return Ok(Sent(offer));
    }

    method Respond(actor: nat, offer: nat, revision: nat, request: nat, action: Action, confirmGift: bool, now: int, enabled: bool)
      returns (r: Result<Response, Failure>)
      modifies this
      ensures (View(), r) == O.Respond(old(View()), actor, offer, revision, request, action, confirmGift, now, enabled)
    {
      if revision < 1 {
        return Err(InvalidRevision);
      }
      if offer !in offers || actor !in offers[offer].Parties() {
        return Err(OfferMissing);
      }
      var payload := PRespond(action, offer, revision, confirmGift);
      var known := Recall(actor, request, offers[offer].Opposite(actor), payload);
      if known.Some? {
        return known.value;
      }
      r := AnswerOffer(actor, offer, revision, action, confirmGift, now, enabled);
      if r.Ok? {
        Record(actor, request, payload, r.value);
      }
    }

    method AnswerOffer(actor: nat, offer: nat, revision: nat, action: Action, confirmGift: bool, now: int, enabled: bool)
      returns (r: Result<Response, Failure>)
      requires offer in offers
      modifies this`db, this`offers, this`events
      ensures (View(), r) == RespondWork(old(View()), actor, offer, revision, action, confirmGift, now, enabled)
    {
      if action == Accept && !enabled {
        return Err(Paused);
      }
      var answer := CheckPending(offer, revision, now);
      if answer.Some? {
        return answer.value;
      }
      if (action == Cancel) != (offers[offer].sender == actor) {
        return Err(WrongParticipant);
      }
      if action == Accept {
        r := AcceptOffer(actor, offer, confirmGift);
        return;
      }
      CloseOffer(offer, if action == Cancel then Cancelled else Declined, Some(actor));
      return Ok(Sent(offer));
    }

    method AcceptOffer(actor: nat, offer: nat, confirmGift: bool) returns (r: Result<Response, Failure>)
      requires offer in offers
      modifies this`db, this`offers, this`events
      ensures (View(), r) == SettleOffer(old(View()), actor, offer, confirmGift)
    {
      var (settled, outcome) := Settle(db, CurrentTerms(View(), offer), confirmGift);
      if outcome.ConfirmGift? {
        return Err(GiftUnconfirmed);
      }
      if outcome.InventoryFull? {
        return Err(InventoryFullNow);
      }
      if outcome.TransferRefused? {
        return Err(MoveRefused);
      }
      if outcome.Accepted? {
        db := settled;
        CloseOffer(offer, Done, Some(actor));
        return Ok(Sent(offer));
      }
      CloseOffer(offer, Invalidated, Some(actor));
      return Ok(Broken(offer, outcome));
    }

    method ExpireOffers(found: seq<nat>, now: int) returns (closed: nat)
      modifies this`offers, this`events
      ensures View() == O.ExpireOffers(old(View()), found, now)
      ensures |events| == |old(events)| + closed
    {
      closed := 0;
      var i := 0;
      while i < |found|
        invariant 0 <= i <= |found|
        invariant O.ExpireOffers(old(View()), found, now) == O.ExpireOffers(View(), found[i..], now)
        invariant db == old(db) && versions == old(versions) && requests == old(requests)
        invariant |events| == |old(events)| + closed
      {
        var id := found[i];
        if id in offers && offers[id].status == Pending && offers[id].expiresAt <= now {
          CloseOffer(id, Expired, None);
          closed := closed + 1;
        }
        i := i + 1;
      }
    }
  }
}
