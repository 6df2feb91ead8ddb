/** The life of a trade offer: sent, countered, closed - and each request answered once. */
module Offers {
  import opened Common
  import opened Trading
  import opened TradingInvariants

  datatype Status = Pending | Done | Declined | Cancelled | Expired | Invalidated

  /** Participants in order; sender made the current revision. */
  datatype Offer = Offer(a: nat, b: nat, sender: nat, revision: nat, status: Status, expiresAt: int) {
    function Parties(): set<nat> { {a, b} }
    function Opposite(player: nat): nat { if player == a then b else a }
  }

  /** One revision's sender and terms; written once. */
  datatype Version = Version(sender: nat, terms: Terms, message: string)

  datatype TermsInput = TermsInput(give: seq<nat>, receive: seq<nat>, fingerprints: map<nat, Fingerprint>, message: string, confirmGift: bool)

  /** Normalised terms: a duplicate-free list in ascending order is its set. */
  datatype Agreed = Agreed(give: set<nat>, receive: set<nat>, fingerprints: map<nat, Fingerprint>, message: string, confirmGift: bool)

  datatype Action = Accept | Decline | Cancel

  datatype Payload =
    | PCreate(recipient: nat, agreed: Agreed)
    | PCounter(offer: nat, revision: nat, agreed: Agreed)
    | PRespond(action: Action, offer: nat, revision: nat, confirmGift: bool)

  /** What a committed request answers; the last three carry an error message to the caller. */
  datatype Response = Sent(offer: nat) | Closed(offer: nat) | TooLate(offer: nat) | Broken(offer: nat, outcome: Outcome)

  datatype Failure =
    | InvalidTerms | MissingReview | GiftUnconfirmed | SelfTrade | Paused | OffersDisabled | TooManyOffers
    | ItemsUnavailable | ItemChanged | NoEntitlementLeft | RequestReused | OfferMissing | OfferChanged | NotRecipient
    | RevisionLimit | WrongParticipant | InventoryFullNow | InvalidRevision | MoveRefused

  datatype EventKind = SentEvent | CounteredEvent | ClosedEvent(status: Status)

  datatype Event = Event(offer: nat, revision: nat, actor: Option<nat>, kind: EventKind)

  datatype World = World(
    db: Db, offers: map<nat, Offer>, versions: map<(nat, nat), Version>,
    requests: map<(nat, nat), (Payload, Response)>, events: seq<Event>)

  const ITEMS_PER_SIDE: nat := 50
  const ACTIVE_OFFERS: nat := 50
  const MAX_REVISION: nat := 100
  const WEEK: int := 7 * 24 * 3600 * 1000

  // ---- Terms ----

  function Normalize(t: TermsInput): Result<Agreed, Failure> {
    var all := t.give + t.receive;
    if |t.give| > ITEMS_PER_SIDE || |t.receive| > ITEMS_PER_SIDE || |t.message| > 240 then Err(InvalidTerms)
    else if all == [] || !Distinct(all) then Err(InvalidTerms)
    else if |t.fingerprints| != |all| || (exists i :: 0 <= i < |all| && all[i] !in t.fingerprints) then Err(MissingReview)
    else if (t.give == [] || t.receive == []) && !t.confirmGift then Err(GiftUnconfirmed)
    else Ok(Agreed(Elems(t.give), Elems(t.receive), t.fingerprints, t.message, t.confirmGift))
  }

  /** An item may be offered by its owner, tradable and just as the sender reviewed it. */
  function ItemProblem(db: Db, x: nat, owner: nat, agreed: Agreed): Option<Failure> {
    if x !in db.items || db.items[x].owner != owner || RestrictionOf(db, x) != Unrestricted then Some(ItemsUnavailable)
    else if x !in agreed.fingerprints || FingerprintOf(db, x) != agreed.fingerprints[x] then Some(ItemChanged)
    else None
  }

  /** The first item, in ascending order, that cannot be offered. */
  function FirstProblem(db: Db, assets: seq<nat>, sender: nat, recipient: nat, agreed: Agreed): Option<Failure> {
    if assets == [] then None
    else
      var problem := ItemProblem(db, assets[0], if assets[0] in agreed.give then sender else recipient, agreed);
      if problem.Some? then problem else FirstProblem(db, assets[1..], sender, recipient, agreed)
  }

  function OfferedItems(db: Db, assets: seq<nat>): (r: seq<Offered>)
    requires forall x :: x in assets ==> x in db.items
    ensures Assets(r) == assets
    ensures forall i :: 0 <= i < |r| ==> r[i] == Offered(assets[i], FingerprintOf(db, assets[i]))
  {
    var r := seq(|assets|, i requires 0 <= i < |assets| => Offered(assets[i], FingerprintOf(db, assets[i])));
    assert Assets(r) == assets;
    r
  }

  lemma {:induction false} NoProblem(db: Db, assets: seq<nat>, sender: nat, recipient: nat, agreed: Agreed)
    requires FirstProblem(db, assets, sender, recipient, agreed).None?
    ensures forall x :: x in assets ==>
      x in db.items && RestrictionOf(db, x) == Unrestricted && db.items[x].owner == if x in agreed.give then sender else recipient
  {
    if assets != [] {
      NoProblem(db, assets[1..], sender, recipient, agreed);
      assert assets == [assets[0]] + assets[1..];
    }
  }

  /** Checks the terms against the inventory and snapshots the items. */
  function Snapshot(db: Db, sender: nat, recipient: nat, agreed: Agreed): Result<Terms, Failure> {
    var assets := Ascending(agreed.give + agreed.receive);
    if exists i :: 0 <= i < |assets| && assets[i] !in db.items then Err(ItemsUnavailable)
    else
      var problem := FirstProblem(db, assets, sender, recipient, agreed);
      if problem.Some? then Err(problem.value)
      else if Entitlements(db, assets, {}).None? then Err(NoEntitlementLeft)
      else Ok(Between(sender, recipient, OfferedItems(db, assets)))
  }

  /** A snapshot lists the agreed items, each as it is and owned by one of the two players. */
  lemma SnapshotItems(db: Db, sender: nat, recipient: nat, agreed: Agreed)
    requires Snapshot(db, sender, recipient, agreed).Ok?
    ensures var assets := Ascending(agreed.give + agreed.receive);
      && (forall x :: x in assets ==> x in db.items && db.items[x].owner in {sender, recipient})
      && Snapshot(db, sender, recipient, agreed).value == Between(sender, recipient, OfferedItems(db, assets))
  {
    NoProblem(db, Ascending(agreed.give + agreed.receive), sender, recipient, agreed);
  }

  /** What is snapshotted is between the two players, each item owned by one of them. */
  lemma SnapshotOk(db: Db, sender: nat, recipient: nat, agreed: Agreed)
    requires sender != recipient && Snapshot(db, sender, recipient, agreed).Ok?
    ensures var t := Snapshot(db, sender, recipient, agreed).value;
      TermsOk(t) && {t.a, t.b} == {sender, recipient} && t.a < t.b && Elems(Assets(t.offered)) == agreed.give + agreed.receive
  {
    SnapshotItems(db, sender, recipient, agreed);
    var assets := Ascending(agreed.give + agreed.receive);
    AscendingLists(agreed.give + agreed.receive);
    OfferedOwners(db, assets, {sender, recipient});
    BetweenOk(sender, recipient, OfferedItems(db, assets));
  }

  function Between(sender: nat, recipient: nat, offered: seq<Offered>): Terms {
    if sender < recipient then Terms(sender, recipient, offered) else Terms(recipient, sender, offered)
  }

  lemma BetweenOk(sender: nat, recipient: nat, offered: seq<Offered>)
    requires sender != recipient && Distinct(Assets(offered))
    requires forall i :: 0 <= i < |offered| ==> offered[i].fingerprint.terms.owner in {sender, recipient}
    ensures var t := Between(sender, recipient, offered);
      TermsOk(t) && {t.a, t.b} == {sender, recipient} && t.a < t.b
  {
  }

  lemma OfferedOwners(db: Db, assets: seq<nat>, owners: set<nat>)
    requires forall x :: x in assets ==> x in db.items && db.items[x].owner in owners
    ensures forall i :: 0 <= i < |OfferedItems(db, assets)| ==> OfferedItems(db, assets)[i].fingerprint.terms.owner in owners
  {
    forall i | 0 <= i < |OfferedItems(db, assets)| ensures OfferedItems(db, assets)[i].fingerprint.terms.owner in owners {
      assert assets[i] in assets;
    }
  }

  // ---- Requests ----

  /** Commits a response under its request id. */
  function Recorded(w: World, actor: nat, request: nat, payload: Payload, response: Response): World {
    w.(requests := w.requests[(actor, request) := (payload, response)])
  }

  /** Answers a recorded request from the record; otherwise does the work, and records it unless it failed. */
  function Mutate(w: World, actor: nat, request: nat, other: nat, payload: Payload, work: (World, Result<Response, Failure>))
    : (World, Result<Response, Failure>)
  {
    if actor == other then (w, Err(SelfTrade))
    else if (actor, request) in w.requests then
      var (before, response) := w.requests[(actor, request)];
      if before != payload then (w, Err(RequestReused)) else (w, Ok(response))
    else
      match work.1
      case Err(f) => (w, Err(f))
      case Ok(response) => (Recorded(work.0, actor, request, payload, response), Ok(response))
  }

  function WithEvent(w: World, offer: nat, revision: nat, actor: Option<nat>, kind: EventKind): World {
    w.(events := w.events + [Event(offer, revision, actor, kind)])
  }

  /** Closes an offer and journals it. */
  function Close(w: World, offer: nat, status: Status, actor: Option<nat>): World
    requires offer in w.offers
  {
    WithEvent(w.(offers := w.offers[offer := w.offers[offer].(status := status)]), offer, w.offers[offer].revision, actor, ClosedEvent(status))
  }

  /** Stores an offer with the version its sender just made, and journals it. */
  function Revised(w: World, id: nat, o: Offer, v: Version, kind: EventKind): World {
    WithEvent(w.(offers := w.offers[id := o], versions := w.versions[(id, o.revision) := v]), id, o.revision, Some(o.sender), kind)
  }

  // ---- Create ----

  function ActiveOf(offers: map<nat, Offer>, player: nat, now: int): set<nat> {
    set o | o in offers && offers[o].status == Pending && offers[o].expiresAt > now && player in offers[o].Parties()
  }

  datatype Controls = Controls(enabled: bool, recipientAllows: bool)

  function CreateWork(w: World, actor: nat, recipient: nat, agreed: Agreed, now: int, c: Controls, newId: nat)
    : (World, Result<Response, Failure>)
  {
    if !c.enabled then (w, Err(Paused))
    else if !c.recipientAllows then (w, Err(OffersDisabled))
    else if |ActiveOf(w.offers, actor, now)| >= ACTIVE_OFFERS || |ActiveOf(w.offers, recipient, now)| >= ACTIVE_OFFERS
    then (w, Err(TooManyOffers))
    else
      match Snapshot(w.db, actor, recipient, agreed)
      case Err(f) => (w, Err(f))
      case Ok(terms) =>
        var offer := Offer(terms.a, terms.b, actor, 1, Pending, now + WEEK);
        (Revised(w, newId, offer, Version(actor, terms, agreed.message), SentEvent), Ok(Sent(newId)))
  }

  function Create(w: World, actor: nat, recipient: nat, request: nat, input: TermsInput, now: int, c: Controls, newId: nat)
    : (World, Result<Response, Failure>)
  {
    match Normalize(input)
    case Err(f) => (w, Err(f))
    case Ok(agreed) =>
      Mutate(w, actor, request, recipient, PCreate(recipient, agreed), CreateWork(w, actor, recipient, agreed, now, c, newId))
  }

  // ---- Counter and respond ----

  datatype Checked = Go | Answer(world: World, response: Response) | Stop(failure: Failure)

  /** A closed or expired offer is answered with an error that is recorded; a changed one fails the request. */
  function ValidatePending(w: World, offer: nat, revision: nat, now: int): Checked
    requires offer in w.offers
  {
    var o := w.offers[offer];
    if o.status != Pending then Answer(w, Closed(offer))
    else if o.expiresAt <= now then Answer(Close(w, offer, Expired, None), TooLate(offer))
    else if o.revision != revision then Stop(OfferChanged)
    else Go
  }

  function CounterWork(w: World, actor: nat, offer: nat, revision: nat, agreed: Agreed, now: int, enabled: bool)
    : (World, Result<Response, Failure>)
    requires offer in w.offers
  {
    if !enabled then (w, Err(Paused))
    else
      match ValidatePending(w, offer, revision, now)
      case Answer(w2, response) => (w2, Ok(response))
      case Stop(f) => (w, Err(f))
      case Go => CounterPending(w, actor, offer, agreed, now)
  }

  /** The counter's sender now waits for the other participant, another week. */
  function NextRevision(o: Offer, actor: nat, now: int): Offer {
    o.(sender := actor, revision := o.revision + 1, expiresAt := now + WEEK)
  }

  function CounterPending(w: World, actor: nat, offer: nat, agreed: Agreed, now: int): (World, Result<Response, Failure>)
    requires offer in w.offers
  {
    var o := w.offers[offer];
    if o.sender == actor then (w, Err(NotRecipient))
    else if o.revision >= MAX_REVISION then (w, Err(RevisionLimit))
    else
      match Snapshot(w.db, actor, o.Opposite(actor), agreed)
      case Err(f) => (w, Err(f))
      case Ok(terms) =>
        (Revised(w, offer, NextRevision(o, actor, now), Version(actor, terms, agreed.message), CounteredEvent), Ok(Sent(offer)))
  }

  function Counter(w: World, actor: nat, offer: nat, revision: nat, request: nat, input: TermsInput, now: int, enabled: bool)
    : (World, Result<Response, Failure>)
  {
    if revision < 1 then (w, Err(InvalidRevision))
    else
      match Normalize(input)
      case Err(f) => (w, Err(f))
      case Ok(agreed) =>
        if offer !in w.offers || actor !in w.offers[offer].Parties() then (w, Err(OfferMissing))
        else
          Mutate(w, actor, request, w.offers[offer].Opposite(actor), PCounter(offer, revision, agreed),
                 CounterWork(w, actor, offer, revision, agreed, now, enabled))
  }

  function CurrentTerms(w: World, offer: nat): Terms
    requires offer in w.offers
  {
    var o := w.offers[offer];
    if (offer, o.revision) in w.versions then w.versions[(offer, o.revision)].terms else Terms(o.a, o.b, [])
  }

  /** Accepting settles the current revision's terms; changed items or a lost entitlement close the offer. */
  function SettleOffer(w: World, actor: nat, offer: nat, confirmGift: bool): (World, Result<Response, Failure>)
    requires offer in w.offers
  {
    var (db, outcome) := Settle(w.db, CurrentTerms(w, offer), confirmGift);
    match outcome
    case ConfirmGift => (w, Err(GiftUnconfirmed))
    case InventoryFull => (w, Err(InventoryFullNow))
    case TransferRefused => (w, Err(MoveRefused))
    case Accepted(_) => (Close(w.(db := db), offer, Done, Some(actor)), Ok(Sent(offer)))
    case _ => (Close(w, offer, Invalidated, Some(actor)), Ok(Broken(offer, outcome)))
  }

  function RespondWork(w: World, actor: nat, offer: nat, revision: nat, action: Action, confirmGift: bool, now: int, enabled: bool)
    : (World, Result<Response, Failure>)
    requires offer in w.offers
  {
    if action == Accept && !enabled then (w, Err(Paused))
    else
      match ValidatePending(w, offer, revision, now)
      case Answer(w2, response) => (w2, Ok(response))
      case Stop(f) => (w, Err(f))
      case Go => RespondPending(w, actor, offer, action, confirmGift)
  }

  /** Only the sender cancels, only the other participant accepts or declines. */
  function RespondPending(w: World, actor: nat, offer: nat, action: Action, confirmGift: bool): (World, Result<Response, Failure>)
    requires offer in w.offers
  {
    if (action == Cancel) != (w.offers[offer].sender == actor) then (w, Err(WrongParticipant))
    else if action == Accept then SettleOffer(w, actor, offer, confirmGift)
    else (Close(w, offer, if action == Cancel then Cancelled else Declined, Some(actor)), Ok(Sent(offer)))
  }

  function Respond(w: World, actor: nat, offer: nat, revision: nat, request: nat, action: Action, confirmGift: bool, now: int, enabled: bool)
    : (World, Result<Response, Failure>)
  {
    if revision < 1 then (w, Err(InvalidRevision))
    else if offer !in w.offers || actor !in w.offers[offer].Parties() then (w, Err(OfferMissing))
    else
      Mutate(w, actor, request, w.offers[offer].Opposite(actor), PRespond(action, offer, revision, confirmGift),
             RespondWork(w, actor, offer, revision, action, confirmGift, now, enabled))
  }

  // ---- Expiry ----

  /** Closes the due offers among those a sweep locked. */
  function ExpireOffers(w: World, found: seq<nat>, now: int): World
    decreases |found|
  {
    if found == [] then w
    else
      var due := found[0] in w.offers && w.offers[found[0]].status == Pending && w.offers[found[0]].expiresAt <= now;
      ExpireOffers(if due then Close(w, found[0], Expired, None) else w, found[1..], now)
  }
}
