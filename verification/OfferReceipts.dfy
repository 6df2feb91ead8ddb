/** What accepted offers transferred, over every run of the offer machine: no ownership of an item is sold twice. */
module OfferReceipts {
  import opened Common
  import opened Trading
  import opened TradingInvariants
  import TR = TradingRuns
  import opened Offers
  import opened OfferRuns

  type Pairs = set<(nat, nat)>

  /** A world and, for each offer that was accepted, the (asset, generation) pairs it transferred. */
  datatype Ledger = Ledger(w: World, receipts: map<nat, Pairs>)

  function DoneOffers(offers: OfferMap): set<nat> {
    set o | o in offers && offers[o].status == Done
  }

  /** The call that turns a pending offer into an accepted one. */
  predicate Accepts(w: World, c: Call) {
    && c.CallRespond? && c.offer in w.offers && w.offers[c.offer].status == Pending
    && c.offer in Step(w, c).offers && Step(w, c).offers[c.offer].status == Done
  }

  /** The pairs that accepting an offer transfers. */
  function SoldBy(w: World, offer: nat, confirmGift: bool): Pairs
    requires offer in w.offers
  {
    var terms := CurrentTerms(w, offer);
    TR.Transferred(w.db, terms, Settle(w.db, terms, confirmGift).1)
  }

  function Next(l: Ledger, c: Call): Ledger {
    Ledger(Step(l.w, c), if Accepts(l.w, c) then l.receipts[c.offer := SoldBy(l.w, c.offer, c.confirmGift)] else l.receipts)
  }

  // ---- What one call sells ----

  /** No offer was accepted and no item moved. */
  ghost predicate SellsNothing(w: World, d: World) {
    d.db == w.db && DoneOffers(d.offers) == DoneOffers(w.offers)
  }

  /** One pending offer was accepted, and the inventory moved as its settlement says. */
  ghost predicate Sells(w: World, d: World, offer: nat, confirmGift: bool) {
    && offer in w.offers && w.offers[offer].status == Pending
    && Settle(w.db, CurrentTerms(w, offer), confirmGift).1.Accepted?
    && d.db == Settle(w.db, CurrentTerms(w, offer), confirmGift).0
    && DoneOffers(d.offers) == DoneOffers(w.offers) + {offer}
    && CurrentTerms(d, offer) == CurrentTerms(w, offer)
  }

  lemma ClosingSellsNothing(w: World, offer: nat, status: Status, actor: Option<nat>)
    requires offer in w.offers && w.offers[offer].status == Pending && status != Done
    ensures SellsNothing(w, Close(w, offer, status, actor))
  {
  }

  lemma ValidateSellsNothing(w: World, offer: nat, revision: nat, now: int)
    requires offer in w.offers
    ensures var c := ValidatePending(w, offer, revision, now);
      (c.Answer? ==> SellsNothing(w, c.world)) && (c.Go? ==> w.offers[offer].status == Pending)
  {
    if w.offers[offer].status == Pending {
      ClosingSellsNothing(w, offer, Expired, None);
    }
  }

  lemma CreateSellsNothing(w: World, c: Call)
    requires c.CallCreate? && c.newId !in w.offers
    ensures SellsNothing(w, Step(w, c))
  {
    if Normalize(c.input).Ok? {
      var agreed := Normalize(c.input).value;
      var work := CreateWork(w, c.actor, c.recipient, agreed, c.now, c.controls, c.newId);
      CreateWorkIs(w, c.actor, c.recipient, agreed, c.now, c.controls, c.newId);
      MutateIs(w, c.actor, c.request, c.recipient, PCreate(c.recipient, agreed), work);
    }
  }

  lemma CounterWorkSellsNothing(w: World, actor: nat, offer: nat, revision: nat, agreed: Agreed, now: int, enabled: bool)
    requires offer in w.offers
    ensures SellsNothing(w, CounterWork(w, actor, offer, revision, agreed, now, enabled).0)
  {
    ValidateSellsNothing(w, offer, revision, now);
    CounterPendingIs(w, actor, offer, agreed, now);
  }

  lemma CounterSellsNothing(w: World, c: Call)
    requires c.CallCounter?
    ensures SellsNothing(w, Step(w, c))
  {
    if c.revision >= 1 && Normalize(c.input).Ok? && c.offer in w.offers && c.actor in w.offers[c.offer].Parties() {
      var agreed := Normalize(c.input).value;
      var work := CounterWork(w, c.actor, c.offer, c.revision, agreed, c.now, c.enabled);
      CounterWorkSellsNothing(w, c.actor, c.offer, c.revision, agreed, c.now, c.enabled);
      MutateIs(w, c.actor, c.request, w.offers[c.offer].Opposite(c.actor), PCounter(c.offer, c.revision, agreed), work);
    }
  }

  lemma {:induction false} SweepSellsNothing(w: World, found: seq<nat>, now: int)
    ensures SellsNothing(w, ExpireOffers(w, found, now))
    decreases |found|
  {
    if found != [] {
      var due := found[0] in w.offers && w.offers[found[0]].status == Pending && w.offers[found[0]].expiresAt <= now;
      if due {
        ClosingSellsNothing(w, found[0], Expired, None);
      }
      SweepSellsNothing(if due then Close(w, found[0], Expired, None) else w, found[1..], now);
    }
  }

  // ---- Responses ----

  /** A response's work accepts its offer by settling it, or sells nothing; the offer ends as Done only by a sale. */
  ghost predicate SaleWork(w: World, d: World, offer: nat, confirmGift: bool)
    requires offer in w.offers
  {
    && offer in d.offers
    && if w.offers[offer].status == Pending && d.offers[offer].status == Done then Sells(w, d, offer, confirmGift) else SellsNothing(w, d)
  }

  lemma SettlingSells(w: World, actor: nat, offer: nat, confirmGift: bool)
    requires offer in w.offers && w.offers[offer].status == Pending
    ensures SaleWork(w, SettleOffer(w, actor, offer, confirmGift).0, offer, confirmGift)
  {
    if Settle(w.db, CurrentTerms(w, offer), confirmGift).1.Accepted? {
      AcceptingSells(w, actor, offer, confirmGift);
    } else {
      ClosingSellsNothing(w, offer, Invalidated, Some(actor));
    }
  }

  lemma AcceptingSells(w: World, actor: nat, offer: nat, confirmGift: bool)
    requires offer in w.offers && w.offers[offer].status == Pending
    requires Settle(w.db, CurrentTerms(w, offer), confirmGift).1.Accepted?
    ensures Sells(w, SettleOffer(w, actor, offer, confirmGift).0, offer, confirmGift)
    ensures offer in SettleOffer(w, actor, offer, confirmGift).0.offers
    ensures SettleOffer(w, actor, offer, confirmGift).0.offers[offer].status == Done
  {
  }

  lemma RespondPendingSells(w: World, actor: nat, offer: nat, action: Action, confirmGift: bool)
    requires offer in w.offers && w.offers[offer].status == Pending
    ensures SaleWork(w, RespondPending(w, actor, offer, action, confirmGift).0, offer, confirmGift)
  {
    if (action == Cancel) == (w.offers[offer].sender == actor) {
      if action == Accept {
        SettlingSells(w, actor, offer, confirmGift);
      } else {
        ClosingSellsNothing(w, offer, if action == Cancel then Cancelled else Declined, Some(actor));
      }
    }
  }

  lemma RespondWorkSells(w: World, actor: nat, offer: nat, revision: nat, action: Action, confirmGift: bool, now: int, enabled: bool)
    requires offer in w.offers
    ensures SaleWork(w, RespondWork(w, actor, offer, revision, action, confirmGift, now, enabled).0, offer, confirmGift)
  {
    ValidateSellsNothing(w, offer, revision, now);
    if ValidatePending(w, offer, revision, now).Go? {
      RespondPendingSells(w, actor, offer, action, confirmGift);
    }
  }

  /** A response that changes anything is its work with the answer on record. */
  lemma RespondIs(w: World, c: Call)
    requires c.CallRespond?
    ensures var d := Step(w, c);
      d == w
      || (c.offer in w.offers
          && var work := RespondWork(w, c.actor, c.offer, c.revision, c.action, c.confirmGift, c.now, c.enabled).0;
             d == work.(requests := d.requests))
  {
    if c.revision >= 1 && c.offer in w.offers && c.actor in w.offers[c.offer].Parties() {
      MutateIs(w, c.actor, c.request, w.offers[c.offer].Opposite(c.actor), PRespond(c.action, c.offer, c.revision, c.confirmGift),
               RespondWork(w, c.actor, c.offer, c.revision, c.action, c.confirmGift, c.now, c.enabled));
    }
  }

  lemma RecordedSells(w: World, work: World, d: World, offer: nat, confirmGift: bool)
    requires offer in w.offers && SaleWork(w, work, offer, confirmGift) && d == work.(requests := d.requests)
    ensures SaleWork(w, d, offer, confirmGift)
  {
  }

  lemma RespondSells(w: World, c: Call)
    requires c.CallRespond?
    ensures if Accepts(w, c) then Sells(w, Step(w, c), c.offer, c.confirmGift) else SellsNothing(w, Step(w, c))
  {
    RespondIs(w, c);
    if Step(w, c) != w {
      RespondWorkSells(w, c.actor, c.offer, c.revision, c.action, c.confirmGift, c.now, c.enabled);
      RecordedSells(w, RespondWork(w, c.actor, c.offer, c.revision, c.action, c.confirmGift, c.now, c.enabled).0, Step(w, c),
                    c.offer, c.confirmGift);
    }
  }

  /** Items change hands only by the call that accepts their offer, and only as its settlement says. */
  lemma StepSells(w: World, c: Call)
    requires CanCall(w, c)
    ensures Accepts(w, c) ==> Sells(w, Step(w, c), c.offer, c.confirmGift)
    ensures !Accepts(w, c) ==> DoneOffers(Step(w, c).offers) == DoneOffers(w.offers) && (c.Inventory? || Step(w, c).db == w.db)
  {
    match c
    case CallCreate(_, _, _, _, _, _, _) => CreateSellsNothing(w, c);
    case CallCounter(_, _, _, _, _, _, _) => CounterSellsNothing(w, c);
    case CallRespond(_, _, _, _, _, _, _, _) => RespondSells(w, c);
    case Sweep(found, now) => SweepSellsNothing(w, found, now);
    case Inventory(_) =>
  }

  // ---- Receipts over runs ----

  /** Each accepted offer has one receipt, about ownerships that are over, and no two receipts share one. */
  ghost predicate ReceiptsApart(items: Items, receipts: map<nat, Pairs>) {
    && (forall o, p :: o in receipts && p in receipts[o] ==> p.0 in items && p.1 < items[p.0].generation)
    && (forall o, q :: o in receipts && q in receipts && o != q ==> receipts[o] !! receipts[q])
  }

  /** The item and ownership an offered line was agreed for. */
  function Named(line: Offered): (nat, nat) {
    (line.asset, line.fingerprint.terms.generation)
  }

  /** An accepted offer's receipt has every item of its last terms, at the ownership it was agreed for. */
  ghost predicate ReceiptsComplete(w: World, receipts: map<nat, Pairs>) {
    && receipts.Keys == DoneOffers(w.offers)
    && forall o, i :: o in receipts && 0 <= i < |CurrentTerms(w, o).offered| ==> Named(CurrentTerms(w, o).offered[i]) in receipts[o]
  }

  ghost predicate LedgerOk(l: Ledger) {
    WorldOk(l.w) && ReceiptsApart(l.w.db.items, l.receipts) && ReceiptsComplete(l.w, l.receipts)
  }

  lemma ReceiptsAge(before: Items, after: Items, receipts: map<nat, Pairs>)
    requires ReceiptsApart(before, receipts) && TR.Older(before, after)
    ensures ReceiptsApart(after, receipts)
  {
  }

  lemma AddReceipt(before: Items, after: Items, moved: set<nat>, offer: nat, latest: Pairs, receipts: map<nat, Pairs>)
    requires ReceiptsApart(before, receipts) && TR.Older(before, after) && moved <= before.Keys && offer !in receipts
    requires forall x :: x in moved ==> after[x].generation == before[x].generation + 1
    requires forall p :: p in latest ==> p.0 in moved && p.1 == before[p.0].generation
    ensures ReceiptsApart(after, receipts[offer := latest])
  {
    forall o | o in receipts ensures receipts[o] !! latest {
      forall p | p in receipts[o] ensures p !in latest {
        assert p.1 < before[p.0].generation;
      }
    }
  }

  /** What a settlement transfers, and that the items it names are among it. */
  lemma SaleFacts(db: Db, t: Terms, confirmGift: bool)
    requires Inv(db) && TermsOk(t) && Settle(db, t, confirmGift).1.Accepted?
    ensures var (after, outcome) := Settle(db, t, confirmGift);
      var moved := TR.MovedBy(t, outcome.companions);
      && TR.Older(db.items, after.items) && moved <= db.items.Keys
      && (forall x :: x in moved ==> after.items[x].generation == db.items[x].generation + 1)
      && (forall p :: p in TR.Transferred(db, t, outcome) ==> p.0 in moved && p.1 == db.items[p.0].generation)
      && (forall i :: 0 <= i < |t.offered| ==> Named(t.offered[i]) in TR.Transferred(db, t, outcome))
  {
    TR.SettleConserves(db, t, confirmGift);
    TR.AcceptedParts(db, t, confirmGift);
    OfferedTransferred(db, t, Settle(db, t, confirmGift).1);
  }

  lemma OfferedTransferred(db: Db, t: Terms, outcome: Outcome)
    requires TermsHold(db, t) && outcome.Accepted?
    ensures forall i :: 0 <= i < |t.offered| ==> Named(t.offered[i]) in TR.Transferred(db, t, outcome)
  {
    forall i | 0 <= i < |t.offered| ensures Named(t.offered[i]) in TR.Transferred(db, t, outcome) {
      var x := t.offered[i].asset;
      assert Assets(t.offered)[i] == x;
      assert x in TR.MovedBy(t, outcome.companions);
      assert FingerprintOf(db, x) == t.offered[i].fingerprint;
    }
  }

  lemma SaleKeepsReceipts(l: Ledger, c: Call)
    requires LedgerOk(l) && CanCall(l.w, c) && Accepts(l.w, c)
    ensures ReceiptsApart(Next(l, c).w.db.items, Next(l, c).receipts) && ReceiptsComplete(Next(l, c).w, Next(l, c).receipts)
  {
    var t := CurrentTerms(l.w, c.offer);
    StepSells(l.w, c);
    StepGood(l.w, c);
    CurrentTermsOk(l.w, c.offer);
    SaleFacts(l.w.db, t, c.confirmGift);
    var (after, outcome) := Settle(l.w.db, t, c.confirmGift);
    assert c.offer !in l.receipts;
    AddReceipt(l.w.db.items, after.items, TR.MovedBy(t, outcome.companions), c.offer, SoldBy(l.w, c.offer, c.confirmGift), l.receipts);
    SaleCompletes(l, Step(l.w, c), c.offer, SoldBy(l.w, c.offer, c.confirmGift));
  }

  lemma SaleCompletes(l: Ledger, d: World, offer: nat, latest: Pairs)
    requires ReceiptsComplete(l.w, l.receipts) && Advance(l.w, d)
    requires offer in d.offers && DoneOffers(d.offers) == DoneOffers(l.w.offers) + {offer} && offer !in l.receipts
    requires forall i :: 0 <= i < |CurrentTerms(d, offer).offered| ==> Named(CurrentTerms(d, offer).offered[i]) in latest
    ensures ReceiptsComplete(d, l.receipts[offer := latest])
  {
  }

  lemma QuietKeepsReceipts(l: Ledger, c: Call)
    requires LedgerOk(l) && CanCall(l.w, c) && !Accepts(l.w, c)
    ensures ReceiptsApart(Next(l, c).w.db.items, Next(l, c).receipts) && ReceiptsComplete(Next(l, c).w, Next(l, c).receipts)
  {
    StepSells(l.w, c);
    StepGood(l.w, c);
    if c.Inventory? {
      TR.StepAges(l.w.db, c.op);
    }
    ReceiptsAge(l.w.db.items, Step(l.w, c).db.items, l.receipts);
    QuietCompletes(l, Step(l.w, c));
  }

  lemma QuietCompletes(l: Ledger, d: World)
    requires ReceiptsComplete(l.w, l.receipts) && Advance(l.w, d) && DoneOffers(d.offers) == DoneOffers(l.w.offers)
    ensures ReceiptsComplete(d, l.receipts)
  {
  }

  lemma NextOk(l: Ledger, c: Call)
    requires LedgerOk(l) && CanCall(l.w, c)
    ensures LedgerOk(Next(l, c))
  {
    StepGood(l.w, c);
    if Accepts(l.w, c) {
      SaleKeepsReceipts(l, c);
    } else {
      QuietKeepsReceipts(l, c);
    }
  }

  function LedgerAfter(l: Ledger, calls: seq<Call>): (d: Ledger)
    ensures d.w == Run(l.w, calls)
    decreases |calls|
  {
    if calls == [] then l else LedgerAfter(Next(l, calls[0]), calls[1..])
  }

  lemma {:induction false} LedgerStaysOk(l: Ledger, calls: seq<Call>)
    requires LedgerOk(l) && ValidRun(l.w, calls)
    ensures LedgerOk(LedgerAfter(l, calls))
    decreases |calls|
  {
    if calls != [] {
      NextOk(l, calls[0]);
      LedgerStaysOk(Next(l, calls[0]), calls[1..]);
    }
  }

  /** Every run from empty tables leaves one receipt for each accepted offer, and no two share an (asset, generation) pair. */
  lemma ReachableReceipts(legacy: map<nat, nat>, calls: seq<Call>)
    requires ValidRun(Start(legacy), calls)
    ensures LedgerOk(LedgerAfter(Ledger(Start(legacy), map[]), calls))
  {
    TR.EmptyTablesOk(legacy);
    LedgerStaysOk(Ledger(Start(legacy), map[]), calls);
  }

  /** So two accepted offers never name the same item at the same ownership, whatever was created, countered or traded between. */
  lemma SoldOnce(legacy: map<nat, nat>, calls: seq<Call>, o: nat, q: nat, i: nat, j: nat)
    requires ValidRun(Start(legacy), calls)
    requires var w := Run(Start(legacy), calls);
      && o != q && o in w.offers && q in w.offers && w.offers[o].status == Done && w.offers[q].status == Done
      && i < |CurrentTerms(w, o).offered| && j < |CurrentTerms(w, q).offered|
    ensures var w := Run(Start(legacy), calls);
      Named(CurrentTerms(w, o).offered[i]) != Named(CurrentTerms(w, q).offered[j])
  {
    ReachableReceipts(legacy, calls);
    Apart(LedgerAfter(Ledger(Start(legacy), map[]), calls), o, q);
  }

  lemma Apart(l: Ledger, o: nat, q: nat)
    requires LedgerOk(l) && o != q && o in DoneOffers(l.w.offers) && q in DoneOffers(l.w.offers)
    ensures forall i, j :: 0 <= i < |CurrentTerms(l.w, o).offered| && 0 <= j < |CurrentTerms(l.w, q).offered| ==>
      Named(CurrentTerms(l.w, o).offered[i]) != Named(CurrentTerms(l.w, q).offered[j])
  {
    forall i, j | 0 <= i < |CurrentTerms(l.w, o).offered| && 0 <= j < |CurrentTerms(l.w, q).offered|
      ensures Named(CurrentTerms(l.w, o).offered[i]) != Named(CurrentTerms(l.w, q).offered[j])
    {
      assert Named(CurrentTerms(l.w, o).offered[i]) in l.receipts[o];
      assert Named(CurrentTerms(l.w, q).offered[j]) in l.receipts[q];
    }
  }
}
