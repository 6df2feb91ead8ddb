/** What a settlement conserves, what opening a case needs, and every run of grants, trades, openings and trade-ups. */
module TradingRuns {
  import opened Common
  import opened Trading
  import opened TradingInvariants

  // ---- Conservation ----

  /** Everything about an item that a trade leaves alone. */
  ghost predicate SameThing(before: Item, after: Item) {
    after == before.(owner := after.owner, generation := after.generation, kills := after.kills)
    && (after.kills.Some? <==> before.kills.Some?)
  }

  /** Exactly the moved items changed hands, each to the other participant and one generation on. */
  ghost predicate Exchanged(before: Items, after: Items, moved: set<nat>, a: nat, b: nat) {
    && after.Keys == before.Keys && moved <= before.Keys
    && (forall x :: x in before && x !in moved ==> after[x] == before[x])
    && (forall x :: x in moved ==>
          && SameThing(before[x], after[x]) && after[x].generation == before[x].generation + 1
          && ((before[x].owner == a && after[x].owner == b) || (before[x].owner == b && after[x].owner == a)))
  }

  /** An unopened grant behind a moved case goes with it; every other grant stays where it is. */
  ghost predicate GrantsFollow(before: Db, after: Db, moved: set<nat>) {
    && after.cases.Keys == before.cases.Keys
    && forall g :: g in before.cases ==>
         if before.cases[g].asset in moved && before.cases[g].asset in after.items
         then after.cases[g] == before.cases[g].(owner := after.items[before.cases[g].asset].owner)
         else after.cases[g] == before.cases[g]
  }

  lemma ExchangedByHandOver(items: Items, moved: set<nat>, t: Terms)
    requires t.a != t.b && OwnedByParties(items, moved, t)
    ensures Exchanged(items, HandedItems(items, moved, t), moved, t.a, t.b)
  {
  }

  lemma GrantsFollowHandOver(db: Db, moved: set<nat>, t: Terms)
    requires GrantsNamed(db.items, db.cases)
    ensures GrantsFollow(db, HandOver(db, moved, t), moved)
  {
  }

  function MovedBy(t: Terms, companions: set<nat>): set<nat> {
    Elems(Assets(t.offered)) + companions
  }

  /** What an acceptance did, in terms of what it moved. */
  lemma AcceptedParts(db: Db, t: Terms, confirmGift: bool)
    requires Inv(db) && TermsOk(t) && Settle(db, t, confirmGift).1.Accepted?
    ensures TermsHold(db, t) && forall x :: x in Assets(t.offered) ==> x in db.items && RestrictionOf(db, x) == Unrestricted
    ensures var companions := Settle(db, t, confirmGift).1.companions;
      && Entitlements(db, Assets(t.offered), {}) == Some(companions)
      && OwnedByParties(db.items, MovedBy(t, companions), t)
      && (forall x :: x in MovedBy(t, companions) ==> Movable(db.items[x]))
      && Settle(db, t, confirmGift).0 == HandOver(db, MovedBy(t, companions), t)
      && Fits(db, Assets(t.offered), t.a) && Fits(db, Assets(t.offered), t.b)
  {
    MovedFacts(db, t);
    TermsAssets(db, t);
  }

  /** An acceptance moves the offered items and their companion keys, and nothing else changes hands. */
  lemma SettleConserves(db: Db, t: Terms, confirmGift: bool)
    requires Inv(db) && TermsOk(t) && Settle(db, t, confirmGift).1.Accepted?
    ensures var (after, outcome) := Settle(db, t, confirmGift);
      && Exchanged(db.items, after.items, MovedBy(t, outcome.companions), t.a, t.b)
      && GrantsFollow(db, after, MovedBy(t, outcome.companions))
  {
    AcceptedParts(db, t, confirmGift);
    var companions := Settle(db, t, confirmGift).1.companions;
    ExchangedByHandOver(db.items, MovedBy(t, companions), t);
    GrantsFollowHandOver(db, MovedBy(t, companions), t);
  }

  predicate Boxed(item: Item) {
    item.kind == Case && item.caseGrant.Some?
  }

  function BoxedIn(items: Items, assets: seq<nat>): set<nat> {
    set x | x in assets && x in items && Boxed(items[x])
  }

  /** The companions are active keys, one for each offered case that a key opens. */
  lemma OneKeyPerCase(db: Db, t: Terms, confirmGift: bool)
    requires Inv(db) && TermsOk(t) && Settle(db, t, confirmGift).1.Accepted?
    ensures var companions := Settle(db, t, confirmGift).1.companions;
      && |companions| == |BoxedIn(db.items, Assets(t.offered))|
      && forall k :: k in companions ==> k in db.items && db.items[k].kind == Key && db.items[k].active
  {
    AcceptedParts(db, t, confirmGift);
    CompanionCount(db, Assets(t.offered), {});
  }

  lemma NeedShape(db: Db, x: nat, taken: set<nat>)
    requires x in db.items
    ensures var need := NeedOf(db, x, taken);
      && (need.TakeKey? ==> Boxed(db.items[x]) && need.asset !in taken && need.asset in db.items
                            && db.items[need.asset].kind == Key && db.items[need.asset].active)
      && (need.Nothing? ==> !Boxed(db.items[x]))
  {
  }

  lemma BoxedFirst(items: Items, assets: seq<nat>)
    requires assets != [] && Distinct(assets) && assets[0] in items
    ensures |BoxedIn(items, assets)| == |BoxedIn(items, assets[1..])| + if Boxed(items[assets[0]]) then 1 else 0
  {
    var x, rest := assets[0], assets[1..];
    assert assets == [x] + rest && x !in rest;
    assert BoxedIn(items, assets) == BoxedIn(items, rest) + (if Boxed(items[x]) then {x} else {});
  }

  lemma {:induction false} CompanionCount(db: Db, assets: seq<nat>, taken: set<nat>)
    requires Distinct(assets) && forall x :: x in assets ==> x in db.items
    requires forall k :: k in taken ==> k in db.items && db.items[k].kind == Key && db.items[k].active
    requires Entitlements(db, assets, taken).Some?
    ensures |Entitlements(db, assets, taken).value| == |taken| + |BoxedIn(db.items, assets)|
    ensures forall k :: k in Entitlements(db, assets, taken).value ==> k in db.items && db.items[k].kind == Key && db.items[k].active
    decreases |assets|
  {
    if assets == [] {
      assert BoxedIn(db.items, assets) == {};
    } else {
      var need := NeedOf(db, assets[0], taken);
      NeedShape(db, assets[0], taken);
      BoxedFirst(db.items, assets);
      CompanionCount(db, assets[1..], if need.TakeKey? then taken + {need.asset} else taken);
    }
  }

  // ---- Capacity ----

  function SentBy(items: Items, assets: seq<nat>, owner: nat): set<nat> {
    set x | x in assets && x in items && items[x].owner == owner
  }

  lemma {:induction false} OutgoingCount(items: Items, assets: seq<nat>, owner: nat)
    requires Distinct(assets) && forall x :: x in assets ==> x in items
    ensures OutgoingFrom(items, assets, owner) == |SentBy(items, assets, owner)|
    decreases |assets|
  {
    if assets == [] {
      assert SentBy(items, assets, owner) == {};
    } else {
      var x, rest := assets[0], assets[1..];
      OutgoingCount(items, rest, owner);
      assert assets == [x] + rest && x !in rest;
      assert SentBy(items, assets, owner) == SentBy(items, rest, owner) + (if items[x].owner == owner then {x} else {});
    }
  }

  /** Between two owners, what one does not send the other does. */
  lemma {:induction false} OutgoingBoth(items: Items, assets: seq<nat>, a: nat, b: nat)
    requires a != b && forall x :: x in assets ==> x in items && items[x].owner in {a, b}
    ensures OutgoingFrom(items, assets, a) + OutgoingFrom(items, assets, b) == |assets|
    decreases |assets|
  {
    if assets != [] {
      OutgoingBoth(items, assets[1..], a, b);
    }
  }

  lemma SeenAfter(items: Items, assets: seq<nat>, keys: set<nat>, t: Terms, owner: nat)
    requires t.a != t.b && OwnedByParties(items, Elems(assets) + keys, t) && owner in {t.a, t.b}
    requires forall x :: x in assets ==> x in items && items[x].active && items[x].kind != Key
    requires forall x :: x in keys ==> x in items && items[x].kind == Key
    ensures SeenOf(HandedItems(items, Elems(assets) + keys, t), owner)
         == (SeenOf(items, owner) - SentBy(items, assets, owner)) + SentBy(items, assets, Partner(t, owner))
    ensures SentBy(items, assets, owner) <= SeenOf(items, owner)
    ensures SentBy(items, assets, Partner(t, owner)) !! SeenOf(items, owner)
  {
  }

  lemma TagStays(items: Items, moved: set<nat>, t: Terms, owner: nat)
    requires forall x :: x in moved ==> x in items && Movable(items[x])
    ensures HasNameTag(HandedItems(items, moved, t), owner) == HasNameTag(items, owner)
  {
    var after := HandedItems(items, moved, t);
    if HasNameTag(items, owner) {
      var x :| x in items && items[x].active && items[x].owner == owner && items[x].definition == NAME_TAG;
      assert x in after && after[x].active && after[x].owner == owner && after[x].definition == NAME_TAG;
    }
  }

  lemma ReplaceCount(before: set<nat>, outgoing: set<nat>, incoming: set<nat>)
    requires outgoing <= before && incoming !! before
    ensures |(before - outgoing) + incoming| == |before| - |outgoing| + |incoming|
  {
    assert before == (before - outgoing) + outgoing;
  }

  lemma SeenCount(items: Items, assets: seq<nat>, keys: set<nat>, t: Terms, owner: nat)
    requires t.a != t.b && Distinct(assets) && OwnedByParties(items, Elems(assets) + keys, t) && owner in {t.a, t.b}
    requires forall x :: x in assets ==> x in items && items[x].active && items[x].kind != Key
    requires forall x :: x in keys ==> x in items && items[x].kind == Key
    ensures |SeenOf(HandedItems(items, Elems(assets) + keys, t), owner)|
         == |SeenOf(items, owner)| - OutgoingFrom(items, assets, owner) + (|assets| - OutgoingFrom(items, assets, owner))
  {
    var other := Partner(t, owner);
    SeenAfter(items, assets, keys, t, owner);
    OutgoingCount(items, assets, owner);
    OutgoingCount(items, assets, other);
    assert forall x :: x in assets ==> x in Elems(assets) + keys;
    OutgoingBoth(items, assets, owner, other);
    ReplaceCount(SeenOf(items, owner), SentBy(items, assets, owner), SentBy(items, assets, other));
  }

  lemma VisibleAfter(db: Db, t: Terms, companions: set<nat>, owner: nat)
    requires t.a != t.b && Distinct(Assets(t.offered)) && owner in {t.a, t.b}
    requires OwnedByParties(db.items, MovedBy(t, companions), t)
    requires forall x :: x in MovedBy(t, companions) ==> Movable(db.items[x])
    requires forall x :: x in Assets(t.offered) ==> x in db.items && db.items[x].active && db.items[x].kind != Key
    requires forall x :: x in companions ==> x in db.items && db.items[x].kind == Key
    requires Fits(db, Assets(t.offered), owner)
    ensures Visible(HandOver(db, MovedBy(t, companions), t), owner) <= VISIBLE_LIMIT
  {
    SeenCount(db.items, Assets(t.offered), companions, t, owner);
    TagStays(db.items, MovedBy(t, companions), t, owner);
  }

  /** After an acceptance both players see at most 512 items. */
  lemma SettleFits(db: Db, t: Terms, confirmGift: bool)
    requires Inv(db) && TermsOk(t) && Settle(db, t, confirmGift).1.Accepted?
    ensures var after := Settle(db, t, confirmGift).0;
      Visible(after, t.a) <= VISIBLE_LIMIT && Visible(after, t.b) <= VISIBLE_LIMIT
  {
    AcceptedParts(db, t, confirmGift);
    OneKeyPerCase(db, t, confirmGift);
    var companions := Settle(db, t, confirmGift).1.companions;
    VisibleAfter(db, t, companions, t.a);
    VisibleAfter(db, t, companions, t.b);
  }

  // ---- Pending offers that name the same items ----

  /** The (asset, generation) pairs an outcome transferred. */
  function Transferred(db: Db, t: Terms, outcome: Outcome): set<(nat, nat)> {
    if !outcome.Accepted? then {}
    else set x | x in MovedBy(t, outcome.companions) && x in db.items :: (x, db.items[x].generation)
  }

  /** Once one offer is accepted, every other offer that names one of its items as it was is dead. */
  lemma OtherOffersDie(db: Db, t: Terms, confirmGift: bool, other: Terms, i: nat)
    requires Inv(db) && TermsOk(t) && Settle(db, t, confirmGift).1.Accepted?
    requires i < |other.offered| && other.offered[i].asset in Assets(t.offered)
    requires other.offered[i].fingerprint == FingerprintOf(db, other.offered[i].asset)
    ensures !TermsHold(Settle(db, t, confirmGift).0, other)
  {
    SettleConserves(db, t, confirmGift);
    var after := Settle(db, t, confirmGift).0;
    var x := other.offered[i].asset;
    assert after.items[x].generation == db.items[x].generation + 1;
    assert x in after.items && FingerprintOf(after, x) != other.offered[i].fingerprint;
  }

  // ---- Grants, openings and trade-ups ----

  lemma GrantCaseKeepsInv(db: Db, player: nat, g: nat, caseAsset: nat, keyAsset: nat, caseDefinition: nat, keyDefinition: nat, look: string)
    requires Inv(db) && g !in db.cases && caseAsset !in db.items && keyAsset !in db.items && caseAsset != keyAsset
    requires keyDefinition != NAME_TAG && keyDefinition != UNSEALED_GRAFFITI
    ensures Inv(GrantCase(db, player, g, caseAsset, keyAsset, caseDefinition, keyDefinition, look))
  {
    var d := GrantCase(db, player, g, caseAsset, keyAsset, caseDefinition, keyDefinition, look);
    GrantedSurplus(db.items, db.cases, d.items, d.cases, caseAsset, keyAsset, g);
    GrantedBacking(db.items, db.cases, d.items, d.cases, caseAsset, keyAsset, g);
  }

  /** A grant adds one case and the key that opens it. */
  ghost predicate Granted(items: Items, cases: CaseGrants, items2: Items, cases2: CaseGrants, caseAsset: nat, keyAsset: nat, g: nat) {
    && caseAsset !in items && keyAsset !in items && caseAsset != keyAsset && g !in cases
    && items2.Keys == items.Keys + {caseAsset, keyAsset} && cases2.Keys == cases.Keys + {g}
    && (forall x :: x in items ==> items2[x] == items[x]) && (forall h :: h in cases ==> cases2[h] == cases[h])
    && Boxed(items2[caseAsset]) && items2[caseAsset].caseGrant.value == g && items2[caseAsset].active
    && items2[keyAsset].kind == Key && items2[keyAsset].active && Movable(items2[keyAsset])
    && cases2[g].asset == caseAsset && cases2[g].opening.None?
    && cases2[g].owner == items2[caseAsset].owner == items2[keyAsset].owner
    && cases2[g].keyDefinition == items2[keyAsset].definition && cases2[g].caseDefinition == items2[caseAsset].definition
  }

  lemma GrantedBacking(items: Items, cases: CaseGrants, items2: Items, cases2: CaseGrants, caseAsset: nat, keyAsset: nat, g: nat)
    requires Granted(items, cases, items2, cases2, caseAsset, keyAsset, g)
    requires CasesBacked(items, cases) && GrantsNamed(items, cases) && KeysMovable(items)
    ensures CasesBacked(items2, cases2) && GrantsNamed(items2, cases2) && KeysMovable(items2)
  {
  }

  lemma GrantedSets(items: Items, cases: CaseGrants, items2: Items, cases2: CaseGrants, caseAsset: nat, keyAsset: nat, g: nat, o: nat, k: nat)
    requires Granted(items, cases, items2, cases2, caseAsset, keyAsset, g) && CasesBacked(items, cases)
    ensures KeysOf(items2, o, k)
         == KeysOf(items, o, k) + (if o == cases2[g].owner && k == cases2[g].keyDefinition then {keyAsset} else {})
    ensures CasesOf(items2, cases2, o, k)
         == CasesOf(items, cases, o, k) + (if o == cases2[g].owner && k == cases2[g].keyDefinition then {caseAsset} else {})
  {
  }

  lemma GrantedSurplus(items: Items, cases: CaseGrants, items2: Items, cases2: CaseGrants, caseAsset: nat, keyAsset: nat, g: nat)
    requires Granted(items, cases, items2, cases2, caseAsset, keyAsset, g) && CasesBacked(items, cases) && Surplus(items, cases)
    ensures Surplus(items2, cases2)
  {
    forall o, k ensures |KeysOf(items2, o, k)| >= |CasesOf(items2, cases2, o, k)| {
      GrantedSets(items, cases, items2, cases2, caseAsset, keyAsset, g, o, k);
      assert |KeysOf(items, o, k)| >= |CasesOf(items, cases, o, k)|;
      assert keyAsset !in KeysOf(items, o, k) && caseAsset !in CasesOf(items, cases, o, k);
    }
  }

  /** The keys and cases left after some items were consumed and a new one appeared. */
  lemma AfterConsumption(items: Items, cases: CaseGrants, after: CaseGrants, gone: set<nat>, x: nat, item: Item, o: nat, k: nat)
    requires x !in items && item.kind == Cosmetic
    requires after.Keys == cases.Keys && forall g :: g in cases ==> after[g].keyDefinition == cases[g].keyDefinition
    ensures KeysOf(Consumed(items, gone)[x := item], o, k) == KeysOf(items, o, k) - gone
    ensures CasesOf(Consumed(items, gone)[x := item], after, o, k) == CasesOf(items, cases, o, k) - gone
  {
  }

  lemma ConsumptionKeepsBacking(items: Items, cases: CaseGrants, gone: set<nat>, x: nat, item: Item)
    requires CasesBacked(items, cases) && GrantsNamed(items, cases) && KeysMovable(items) && x !in items && item.kind == Cosmetic
    ensures CasesBacked(Consumed(items, gone)[x := item], cases) && GrantsNamed(Consumed(items, gone)[x := item], cases)
    ensures KeysMovable(Consumed(items, gone)[x := item])
  {
  }

  /** Consuming no key never leaves a case without one. */
  lemma ConsumptionKeepsSurplus(items: Items, cases: CaseGrants, gone: set<nat>, x: nat, item: Item)
    requires Surplus(items, cases) && x !in items && item.kind == Cosmetic
    requires forall y :: y in gone && y in items ==> items[y].kind != Key
    ensures Surplus(Consumed(items, gone)[x := item], cases)
  {
    var after := Consumed(items, gone)[x := item];
    forall o, k ensures |KeysOf(after, o, k)| >= |CasesOf(after, cases, o, k)| {
      AfterConsumption(items, cases, cases, gone, x, item, o, k);
      assert KeysOf(items, o, k) - gone == KeysOf(items, o, k);
      SubsetCardinality(CasesOf(items, cases, o, k) - gone, CasesOf(items, cases, o, k));
      assert |KeysOf(items, o, k)| >= |CasesOf(items, cases, o, k)|;
    }
  }

  lemma TradeUpKeepsInv(db: Db, player: nat, inputs: seq<nat>, compatible: bool, roll: Roll)
    requires Inv(db) && roll.asset !in db.items
    ensures Inv(TradeUp(db, player, inputs, compatible, roll))
  {
    var d := TradeUp(db, player, inputs, compatible, roll);
    if d != db {
      var reward := Reward(player, roll.definition, roll.kills, roll.look, None, None);
      ConsumptionKeepsSurplus(db.items, db.cases, Elems(inputs), roll.asset, reward);
      ConsumptionKeepsBacking(db.items, db.cases, Elems(inputs), roll.asset, reward);
    }
  }

  lemma PackOpenedKeepsInv(db: Db, player: nat, g: nat, roll: Roll)
    requires Inv(db) && g in db.packs && roll.asset !in db.items
    requires db.packs[g].asset in db.items && db.items[db.packs[g].asset].kind == Case
    ensures Inv(PackOpened(db, player, g, roll))
  {
    var reward := Reward(player, roll.definition, None, roll.look, None, Some(g));
    ConsumptionKeepsSurplus(db.items, db.cases, {db.packs[g].asset}, roll.asset, reward);
    ConsumptionKeepsBacking(db.items, db.cases, {db.packs[g].asset}, roll.asset, reward);
  }

  /** Opening a case uses up the case and one key of its definition, so the balance stays. */
  lemma CaseOpenedKeepsInv(db: Db, player: nat, g: nat, key: nat, roll: Roll)
    requires Inv(db) && g in db.cases && roll.asset !in db.items
    requires OwnedActive(db.items, player, db.cases[g].asset, Case, db.cases[g].caseDefinition)
    requires OwnedActive(db.items, player, key, Key, db.cases[g].keyDefinition)
    ensures Inv(CaseOpened(db, player, g, key, roll))
  {
    var x := db.cases[g].asset;
    var reward := Reward(player, roll.definition, roll.kills, roll.look, Some(g), None);
    var d := CaseOpened(db, player, g, key, roll);
    ConsumptionKeepsBacking(db.items, db.cases, {x, key}, roll.asset, reward);
    forall o, k ensures |KeysOf(d.items, o, k)| >= |CasesOf(d.items, d.cases, o, k)| {
      AfterConsumption(db.items, db.cases, d.cases, {x, key}, roll.asset, reward, o, k);
      OneEach(KeysOf(db.items, o, k), CasesOf(db.items, db.cases, o, k), key, x);
    }
    OpenedGrantBacking(db, g, d.cases[g], d.items);
  }

  lemma OneEach(keys: set<nat>, boxes: set<nat>, key: nat, x: nat)
    requires |keys| >= |boxes| && x !in keys && key !in boxes && (key in keys <==> x in boxes)
    ensures |keys - {x, key}| >= |boxes - {x, key}|
  {
    assert keys - {x, key} == keys - {key};
    assert boxes - {x, key} == boxes - {x};
  }

  lemma OpenedGrantBacking(db: Db, g: nat, spent: CaseGrant, items: Items)
    requires CasesBacked(items, db.cases) && GrantsNamed(items, db.cases) && g in db.cases
    requires spent == db.cases[g].(opening := spent.opening) && !items[spent.asset].active
    ensures CasesBacked(items, db.cases[g := spent]) && GrantsNamed(items, db.cases[g := spent])
  {
  }

  lemma OpenKeepsInv(db: Db, player: nat, asset: nat, requested: Option<nat>, oldest: set<nat> -> nat,
                     catalog: map<nat, nat>, packCatalog: set<nat>, roll: Roll)
    requires Inv(db) && roll.asset !in db.items
    ensures Inv(Open(db, player, asset, requested, oldest, catalog, packCatalog, roll).0)
  {
    OpenIs(db, player, asset, requested, oldest, catalog, packCatalog, roll);
    var cases := CaseGrantsFor(db, player, asset);
    if Open(db, player, asset, requested, oldest, catalog, packCatalog, roll).1.Opened? {
      if cases != {} {
        var g := LeastOf(cases);
        CaseOpenedKeepsInv(db, player, g, KeyFor(db, player, db.cases[g].keyDefinition, requested, oldest).value, roll);
      } else {
        PackOpenedKeepsInv(db, player, LeastOf(PackGrantsFor(db, player, asset)), roll);
      }
    }
  }

  /** The reply to opening an active case without naming a key: only its odds version and the catalog can refuse it. */
  lemma ActiveCaseOpens(db: Db, x: nat, oldest: set<nat> -> nat, catalog: map<nat, nat>, packCatalog: set<nat>, roll: Roll)
    requires Inv(db) && x in db.items && db.items[x].active && db.items[x].kind == Case && db.items[x].caseGrant.Some?
    requires forall s :: s != {} ==> oldest(s) in s
    ensures db.items[x].caseGrant.value in db.cases
    ensures var drop := db.cases[db.items[x].caseGrant.value];
      Open(db, db.items[x].owner, x, None, oldest, catalog, packCatalog, roll).1
      == (if drop.odds != CASE_ODDS then NotAvailable
          else if drop.caseDefinition in catalog && catalog[drop.caseDefinition] == drop.keyDefinition then Opened(roll.asset)
          else NotInCatalog)
  {
    var g, player := db.items[x].caseGrant.value, db.items[x].owner;
    var drop := db.cases[g];
    var cases := CaseGrantsFor(db, player, x);
    assert g in cases;
    assert LeastOf(cases) == g;
    var keys, boxes := KeysOf(db.items, player, drop.keyDefinition), CasesOf(db.items, db.cases, player, drop.keyDefinition);
    assert x in boxes;
    assert |keys| >= |boxes|;
    assert keys != {};
    assert oldest(keys) in keys;
  }

  /** What a call did: nothing, or it opened the grant it chose and spent the item behind it. */
  lemma OpenIs(db: Db, player: nat, asset: nat, requested: Option<nat>, oldest: set<nat> -> nat,
               catalog: map<nat, nat>, packCatalog: set<nat>, roll: Roll)
    ensures var (d, reply) := Open(db, player, asset, requested, oldest, catalog, packCatalog, roll);
      var cases, packs := CaseGrantsFor(db, player, asset), PackGrantsFor(db, player, asset);
      if !reply.Opened? then d == db
      else if cases != {} then
        var g := LeastOf(cases);
        var key := KeyFor(db, player, db.cases[g].keyDefinition, requested, oldest);
        && key.Some? && d == CaseOpened(db, player, g, key.value, roll)
        && db.cases[g].opening.None? && db.cases[g].odds == CASE_ODDS
        && OwnedActive(db.items, player, asset, Case, db.cases[g].caseDefinition)
        && OwnedActive(db.items, player, key.value, Key, db.cases[g].keyDefinition)
      else
        && packs != {}
        && var g := LeastOf(packs);
           && d == PackOpened(db, player, g, roll)
           && db.packs[g].result.None? && db.packs[g].odds in PACK_ODDS
           && OwnedActive(db.items, player, asset, Case, db.packs[g].definition)
  {
  }

  lemma OtherItemKeepsInv(db: Db, after: Db, x: nat)
    requires Inv(db) && x !in db.items && after.cases == db.cases && x in after.items && after.items == db.items[x := after.items[x]]
    requires after.items[x].kind != Key && after.items[x].caseGrant.None?
    ensures Inv(after)
  {
    forall o, k ensures |KeysOf(after.items, o, k)| >= |CasesOf(after.items, after.cases, o, k)| {
      assert KeysOf(after.items, o, k) == KeysOf(db.items, o, k);
      assert CasesOf(after.items, after.cases, o, k) == CasesOf(db.items, db.cases, o, k);
      assert |KeysOf(db.items, o, k)| >= |CasesOf(db.items, db.cases, o, k)|;
    }
  }

  // ---- Runs ----

  datatype Op =
    | DoGrantCase(player: nat, g: nat, caseAsset: nat, keyAsset: nat, caseDefinition: nat, keyDefinition: nat, look: string)
    | DoGrantPack(player: nat, g: nat, asset: nat, definition: nat, look: string)
    | DoGrantSeal(player: nat, g: nat, asset: nat, look: string)
    | DoGrantItem(asset: nat, item: Item)
    | DoSettle(terms: Terms, confirmGift: bool)
    | DoOpen(player: nat, asset: nat, requested: Option<nat>, oldest: set<nat> -> nat, catalog: map<nat, nat>, packCatalog: set<nat>, roll: Roll)
    | DoTradeUp(player: nat, inputs: seq<nat>, compatible: bool, roll: Roll)

  /** The tables and, per accepted offer, the (asset, generation) pairs it transferred. */
  datatype State = State(db: Db, receipts: seq<set<(nat, nat)>>)

  /** New assets and grants get new numbers; an offer's terms are as they were recorded. */
  ghost predicate Enabled(db: Db, op: Op) {
    match op
    case DoGrantCase(_, g, c, k, _, keyDefinition, _) =>
      g !in db.cases && c !in db.items && k !in db.items && c != k && keyDefinition != NAME_TAG && keyDefinition != UNSEALED_GRAFFITI
    case DoGrantPack(_, g, x, _, _) => g !in db.packs && x !in db.items
    case DoGrantSeal(_, g, x, _) => g !in db.seals && x !in db.items
    case DoGrantItem(x, item) =>
      x !in db.items && item.kind == Cosmetic && item.generation == 0 && item.caseGrant.None? && item.definition != SEALED_GRAFFITI
    case DoSettle(t, _) => TermsOk(t)
    case DoOpen(_, _, _, _, _, _, roll) => roll.asset !in db.items
    case DoTradeUp(_, _, _, roll) => roll.asset !in db.items
  }

  function After(db: Db, op: Op): Db {
    match op
    case DoGrantCase(p, g, c, k, cd, kd, look) => GrantCase(db, p, g, c, k, cd, kd, look)
    case DoGrantPack(p, g, x, d, look) => GrantPack(db, p, g, x, d, look)
    case DoGrantSeal(p, g, x, look) => GrantSeal(db, p, g, x, look)
    case DoGrantItem(x, item) => db.(items := db.items[x := item])
    case DoSettle(t, confirm) => Settle(db, t, confirm).0
    case DoOpen(p, x, requested, oldest, catalog, packCatalog, roll) => Open(db, p, x, requested, oldest, catalog, packCatalog, roll).0
    case DoTradeUp(p, inputs, compatible, roll) => TradeUp(db, p, inputs, compatible, roll)
  }

  function Apply(s: State, op: Op): State {
    var receipts :=
      if op.DoSettle? && Settle(s.db, op.terms, op.confirmGift).1.Accepted?
      then s.receipts + [Transferred(s.db, op.terms, Settle(s.db, op.terms, op.confirmGift).1)]
      else s.receipts;
    State(After(s.db, op), receipts)
  }

  lemma StepKeepsInv(db: Db, op: Op)
    requires Inv(db) && Enabled(db, op)
    ensures Inv(After(db, op))
  {
    match op
    case DoGrantCase(p, g, c, k, cd, kd, look) => GrantCaseKeepsInv(db, p, g, c, k, cd, kd, look);
    case DoGrantPack(p, g, x, d, look) => OtherItemKeepsInv(db, After(db, op), x);
    case DoGrantSeal(p, g, x, look) => OtherItemKeepsInv(db, After(db, op), x);
    case DoGrantItem(x, item) => OtherItemKeepsInv(db, After(db, op), x);
    case DoSettle(t, confirm) => SettleKeepsInv(db, t, confirm);
    case DoOpen(p, x, requested, oldest, catalog, packCatalog, roll) =>
      OpenKeepsInv(db, p, x, requested, oldest, catalog, packCatalog, roll);
    case DoTradeUp(p, inputs, compatible, roll) => TradeUpKeepsInv(db, p, inputs, compatible, roll);
  }

  /** Rows keep the grants they name, and grants the rows. */
  ghost predicate SameLinks(before: Db, after: Db) {
    && (forall x :: x in before.items ==>
          x in after.items && after.items[x] == before.items[x].(active := after.items[x].active))
    && (forall g :: g in before.cases ==> g in after.cases && after.cases[g].asset == before.cases[g].asset)
    && (forall g :: g in before.packs ==> g in after.packs && after.packs[g].asset == before.packs[g].asset)
    && after.seals == before.seals
  }

  lemma NewRowKeepsLinked(before: Db, after: Db, x: nat)
    requires Linked(before) && SameLinks(before, after) && after.items.Keys == before.items.Keys + {x}
    requires RowLinked(after, x)
    ensures Linked(after)
  {
    forall y | y in after.items ensures RowLinked(after, y) {
      assert y != x ==> RowLinked(before, y);
    }
  }

  lemma OpenCaseKeepsLinked(db: Db, player: nat, g: nat, requested: Option<nat>, oldest: set<nat> -> nat, catalog: map<nat, nat>, roll: Roll)
    requires Linked(db) && g in db.cases && roll.asset !in db.items
    ensures Linked(OpenCase(db, player, g, requested, oldest, catalog, roll).0)
  {
    var key := KeyFor(db, player, db.cases[g].keyDefinition, requested, oldest);
    if OpenCase(db, player, g, requested, oldest, catalog, roll).1.Opened? {
      CaseOpenedSameLinks(db, player, g, key.value, roll);
      NewRowKeepsLinked(db, CaseOpened(db, player, g, key.value, roll), roll.asset);
    }
  }

  lemma OpenPackKeepsLinked(db: Db, player: nat, g: nat, requested: Option<nat>, packCatalog: set<nat>, roll: Roll)
    requires Linked(db) && g in db.packs && roll.asset !in db.items
    ensures Linked(OpenPack(db, player, g, requested, packCatalog, roll).0)
  {
    PackOpenedSameLinks(db, player, g, roll);
    NewRowKeepsLinked(db, PackOpened(db, player, g, roll), roll.asset);
  }

  lemma OpenKeepsLinked(db: Db, player: nat, asset: nat, requested: Option<nat>, oldest: set<nat> -> nat,
                        catalog: map<nat, nat>, packCatalog: set<nat>, roll: Roll)
    requires Linked(db) && roll.asset !in db.items
    ensures Linked(Open(db, player, asset, requested, oldest, catalog, packCatalog, roll).0)
  {
    var cases, packs := CaseGrantsFor(db, player, asset), PackGrantsFor(db, player, asset);
    if cases != {} {
      OpenCaseKeepsLinked(db, player, LeastOf(cases), requested, oldest, catalog, roll);
    } else if packs != {} {
      OpenPackKeepsLinked(db, player, LeastOf(packs), requested, packCatalog, roll);
    }
  }

  lemma CaseOpenedSameLinks(db: Db, player: nat, g: nat, key: nat, roll: Roll)
    requires g in db.cases && roll.asset !in db.items
    ensures var d := CaseOpened(db, player, g, key, roll);
      SameLinks(db, d) && d.items.Keys == db.items.Keys + {roll.asset} && RowLinked(d, roll.asset)
  {
  }

  lemma PackOpenedSameLinks(db: Db, player: nat, g: nat, roll: Roll)
    requires g in db.packs && roll.asset !in db.items
    ensures var d := PackOpened(db, player, g, roll);
      SameLinks(db, d) && d.items.Keys == db.items.Keys + {roll.asset} && RowLinked(d, roll.asset)
  {
  }

  lemma GrantKeepsLinked(db: Db, op: Op)
    requires Linked(db) && Enabled(db, op) && (op.DoGrantCase? || op.DoGrantPack? || op.DoGrantSeal? || op.DoGrantItem?)
    ensures Linked(After(db, op))
  {
    var d := After(db, op);
    forall x | x in d.items ensures RowLinked(d, x) {
      assert x in db.items ==> RowLinked(db, x);
    }
  }

  lemma TradeUpKeepsLinked(db: Db, player: nat, inputs: seq<nat>, compatible: bool, roll: Roll)
    requires Linked(db) && roll.asset !in db.items
    ensures Linked(TradeUp(db, player, inputs, compatible, roll))
  {
    var d := TradeUp(db, player, inputs, compatible, roll);
    if d != db {
      NewRowKeepsLinked(db, d, roll.asset);
    }
  }

  lemma StepKeepsLinked(db: Db, op: Op)
    requires Linked(db) && Enabled(db, op)
    ensures Linked(After(db, op))
  {
    match op
    case DoSettle(t, confirm) => SettleKeepsLinked(db, t, confirm);
    case DoOpen(p, x, requested, oldest, catalog, packCatalog, roll) =>
      OpenKeepsLinked(db, p, x, requested, oldest, catalog, packCatalog, roll);
    case DoTradeUp(p, inputs, compatible, roll) => TradeUpKeepsLinked(db, p, inputs, compatible, roll);
    case _ => GrantKeepsLinked(db, op);
  }

  lemma SettleKeepsLinked(db: Db, t: Terms, confirmGift: bool)
    requires Linked(db)
    ensures Linked(Settle(db, t, confirmGift).0)
  {
    var (d, outcome) := Settle(db, t, confirmGift);
    if outcome.Accepted? {
      HandOverKeepsLinked(db, MovedBy(t, outcome.companions), t);
    }
  }

  /** Items never vanish and ownership generations never go back. */
  ghost predicate Older(before: Items, after: Items) {
    forall x :: x in before ==> x in after && before[x].generation <= after[x].generation
  }

  lemma SettleAges(db: Db, t: Terms, confirmGift: bool)
    requires Inv(db) && TermsOk(t)
    ensures Older(db.items, Settle(db, t, confirmGift).0.items)
  {
    if Settle(db, t, confirmGift).1.Accepted? {
      SettleConserves(db, t, confirmGift);
    }
  }

  lemma OpenAges(db: Db, player: nat, asset: nat, requested: Option<nat>, oldest: set<nat> -> nat,
                 catalog: map<nat, nat>, packCatalog: set<nat>, roll: Roll)
    requires roll.asset !in db.items
    ensures Older(db.items, Open(db, player, asset, requested, oldest, catalog, packCatalog, roll).0.items)
  {
    OpenIs(db, player, asset, requested, oldest, catalog, packCatalog, roll);
  }

  lemma TradeUpAges(db: Db, player: nat, inputs: seq<nat>, compatible: bool, roll: Roll)
    requires roll.asset !in db.items
    ensures Older(db.items, TradeUp(db, player, inputs, compatible, roll).items)
  {
  }

  lemma StepAges(db: Db, op: Op)
    requires Inv(db) && Enabled(db, op)
    ensures Older(db.items, After(db, op).items)
  {
    match op
    case DoSettle(t, confirm) => SettleAges(db, t, confirm);
    case DoOpen(p, x, requested, oldest, catalog, packCatalog, roll) =>
      OpenAges(db, p, x, requested, oldest, catalog, packCatalog, roll);
    case DoTradeUp(p, inputs, compatible, roll) => TradeUpAges(db, p, inputs, compatible, roll);
    case _ =>
  }

  /** No pair is on two receipts, and every receipt is about a generation that is over. */
  ghost predicate ReceiptsOk(items: Items, receipts: seq<set<(nat, nat)>>) {
    && (forall i, p :: 0 <= i < |receipts| && p in receipts[i] ==> p.0 in items && p.1 < items[p.0].generation)
    && (forall i, j :: 0 <= i < j < |receipts| ==> receipts[i] !! receipts[j])
  }

  lemma AcceptanceReceipt(db: Db, t: Terms, confirmGift: bool, receipts: seq<set<(nat, nat)>>)
    requires Inv(db) && TermsOk(t) && ReceiptsOk(db.items, receipts) && Settle(db, t, confirmGift).1.Accepted?
    ensures var (after, outcome) := Settle(db, t, confirmGift);
      ReceiptsOk(after.items, receipts + [Transferred(db, t, outcome)])
  {
    SettleConserves(db, t, confirmGift);
    var (after, outcome) := Settle(db, t, confirmGift);
    var latest := Transferred(db, t, outcome);
    AddReceipt(db.items, after.items, MovedBy(t, outcome.companions), latest, receipts);
  }

  lemma AddReceipt(before: Items, after: Items, moved: set<nat>, latest: set<(nat, nat)>, receipts: seq<set<(nat, nat)>>)
    requires ReceiptsOk(before, receipts) && Older(before, after) && moved <= before.Keys
    requires forall x :: x in moved ==> after[x].generation == before[x].generation + 1
    requires forall p :: p in latest ==> p.0 in moved && p.1 == before[p.0].generation
    ensures ReceiptsOk(after, receipts + [latest])
  {
    var all := receipts + [latest];
    forall i, p: (nat, nat) | 0 <= i < |all| && p in all[i] ensures p.0 in after && p.1 < after[p.0].generation {
      if i < |receipts| {
        assert p in receipts[i];
      }
    }
    forall i, j | 0 <= i < j < |all| ensures all[i] !! all[j] {
      if j == |receipts| {
        forall p | p in receipts[i] ensures p !in latest {
          assert p.1 < before[p.0].generation;
        }
      }
    }
  }

  lemma ApplyReceipts(s: State, op: Op)
    requires Inv(s.db) && ReceiptsOk(s.db.items, s.receipts) && Enabled(s.db, op)
    ensures ReceiptsOk(Apply(s, op).db.items, Apply(s, op).receipts)
  {
    if op.DoSettle? && Settle(s.db, op.terms, op.confirmGift).1.Accepted? {
      AcceptanceReceipt(s.db, op.terms, op.confirmGift, s.receipts);
    } else {
      StepAges(s.db, op);
    }
  }

  lemma ApplyKeeps(s: State, op: Op)
    requires Inv(s.db) && ReceiptsOk(s.db.items, s.receipts) && Enabled(s.db, op)
    ensures Inv(Apply(s, op).db) && ReceiptsOk(Apply(s, op).db.items, Apply(s, op).receipts)
  {
    StepKeepsInv(s.db, op);
    ApplyReceipts(s, op);
  }

  function Run(s: State, ops: seq<Op>): State
    decreases |ops|
  {
    if ops == [] then s else Run(Apply(s, ops[0]), ops[1..])
  }

  ghost predicate ValidRun(s: State, ops: seq<Op>)
    decreases |ops|
  {
    ops == [] || (Enabled(s.db, ops[0]) && ValidRun(Apply(s, ops[0]), ops[1..]))
  }

  /**
   Over every run: each active case keeps its unopened grant and a key for it, and no ownership generation of an
   asset is transferred by two accepted offers.
   */
  lemma {:induction false} RunKeepsEntitlements(s: State, ops: seq<Op>)
    requires Inv(s.db) && Linked(s.db) && ReceiptsOk(s.db.items, s.receipts) && ValidRun(s, ops)
    ensures var d := Run(s, ops);
      Inv(d.db) && Linked(d.db) && ReceiptsOk(d.db.items, d.receipts)
    decreases |ops|
  {
    if ops != [] {
      ApplyKeeps(s, ops[0]);
      StepKeepsLinked(s.db, ops[0]);
      RunKeepsEntitlements(Apply(s, ops[0]), ops[1..]);
    }
  }

  const NOTHING := Db(map[], map[], map[], map[], map[])

  lemma EmptyTablesOk(legacy: map<nat, nat>)
    ensures var db := NOTHING.(legacy := legacy);
      Inv(db) && PacksNamed(db.items, db.packs) && Linked(db) && ReceiptsOk(db.items, [])
  {
    var db := NOTHING.(legacy := legacy);
    forall o, k ensures |KeysOf(db.items, o, k)| >= |CasesOf(db.items, db.cases, o, k)| {
      assert CasesOf(db.items, db.cases, o, k) == {};
    }
  }

  /** So do all tables any run of grants, settlements, openings and trade-ups can fill. */
  lemma ReachableEntitlements(legacy: map<nat, nat>, ops: seq<Op>)
    requires ValidRun(State(NOTHING.(legacy := legacy), []), ops)
    ensures var d := Run(State(NOTHING.(legacy := legacy), []), ops);
      Inv(d.db) && PacksNamed(d.db.items, d.db.packs) && Linked(d.db) && ReceiptsOk(d.db.items, d.receipts)
  {
    EmptyTablesOk(legacy);
    RunKeepsEntitlements(State(NOTHING.(legacy := legacy), []), ops);
    RunKeepsPacksNamed(State(NOTHING.(legacy := legacy), []), ops);
  }

  // ---- Packages ----

  /** A package's item names it, and no case grant. */
  ghost predicate PacksNamed(items: Items, packs: map<nat, PackGrant>) {
    forall g :: g in packs ==> packs[g].asset in items && PackItem(items[packs[g].asset], g)
  }

  ghost predicate PackItem(item: Item, g: nat) {
    item.kind == Case && item.packGrant == Some(g) && item.caseGrant.None?
  }

  /** What an item is and which grants it names never changes, nor does the asset a package grant names. */
  ghost predicate SameNames(before: Db, after: Db) {
    && (forall x :: x in before.items ==>
          && x in after.items && after.items[x].kind == before.items[x].kind
          && after.items[x].caseGrant == before.items[x].caseGrant && after.items[x].packGrant == before.items[x].packGrant)
    && (forall g :: g in before.packs ==> g in after.packs && after.packs[g].asset == before.packs[g].asset)
  }

  lemma OpenSameNames(db: Db, player: nat, asset: nat, requested: Option<nat>, oldest: set<nat> -> nat,
                      catalog: map<nat, nat>, packCatalog: set<nat>, roll: Roll)
    requires roll.asset !in db.items
    ensures var d := Open(db, player, asset, requested, oldest, catalog, packCatalog, roll).0;
      SameNames(db, d) && d.packs.Keys == db.packs.Keys
  {
    OpenIs(db, player, asset, requested, oldest, catalog, packCatalog, roll);
    var cases := CaseGrantsFor(db, player, asset);
    if Open(db, player, asset, requested, oldest, catalog, packCatalog, roll).1.Opened? {
      if cases != {} {
        var g := LeastOf(cases);
        CaseOpenedSameLinks(db, player, g, KeyFor(db, player, db.cases[g].keyDefinition, requested, oldest).value, roll);
      } else {
        PackOpenedSameLinks(db, player, LeastOf(PackGrantsFor(db, player, asset)), roll);
      }
    }
  }

  lemma SettleSameNames(db: Db, t: Terms, confirmGift: bool)
    ensures var d := Settle(db, t, confirmGift).0;
      SameNames(db, d) && d.packs.Keys == db.packs.Keys
  {
    var (d, outcome) := Settle(db, t, confirmGift);
    SettleIs(db, t, confirmGift);
    if outcome.Accepted? {
      HandOverSameNames(db, MovedBy(t, outcome.companions), t);
    }
  }

  lemma HandOverSameNames(db: Db, moved: set<nat>, t: Terms)
    ensures SameNames(db, HandOver(db, moved, t)) && HandOver(db, moved, t).packs.Keys == db.packs.Keys
  {
  }

  lemma TradeUpStays(db: Db, player: nat, inputs: seq<nat>, compatible: bool, roll: Roll)
    requires roll.asset !in db.items
    ensures var d := TradeUp(db, player, inputs, compatible, roll);
      SameNames(db, d) && d.packs.Keys == db.packs.Keys && SpentStay(db, d)
  {
  }

  lemma GrantStays(db: Db, op: Op)
    requires Enabled(db, op) && !op.DoSettle? && !op.DoOpen? && !op.DoTradeUp?
    ensures SameNames(db, After(db, op)) && (op.DoGrantPack? || After(db, op).packs.Keys == db.packs.Keys)
    ensures SpentStay(db, After(db, op))
  {
  }

  lemma StepSameNames(db: Db, op: Op)
    requires Enabled(db, op)
    ensures SameNames(db, After(db, op)) && (op.DoGrantPack? || After(db, op).packs.Keys == db.packs.Keys)
  {
    match op
    case DoSettle(t, confirm) => SettleSameNames(db, t, confirm);
    case DoOpen(p, x, requested, oldest, catalog, packCatalog, roll) =>
      OpenSameNames(db, p, x, requested, oldest, catalog, packCatalog, roll);
    case DoTradeUp(p, inputs, compatible, roll) => TradeUpStays(db, p, inputs, compatible, roll);
    case _ => GrantStays(db, op);
  }

  lemma StepKeepsPacksNamed(db: Db, op: Op)
    requires PacksNamed(db.items, db.packs) && Enabled(db, op)
    ensures PacksNamed(After(db, op).items, After(db, op).packs)
  {
    StepSameNames(db, op);
  }

  lemma {:induction false} RunKeepsPacksNamed(s: State, ops: seq<Op>)
    requires PacksNamed(s.db.items, s.db.packs) && ValidRun(s, ops)
    ensures PacksNamed(Run(s, ops).db.items, Run(s, ops).db.packs)
    decreases |ops|
  {
    if ops != [] {
      StepKeepsPacksNamed(s.db, ops[0]);
      RunKeepsPacksNamed(Apply(s, ops[0]), ops[1..]);
    }
  }

  // ---- An opened grant stays as it is ----

  ghost predicate Spent(items: Items, x: nat) {
    x in items && !items[x].active
  }

  /** Opened grants whose item is spent keep every field, for the item never moves again. */
  ghost predicate SpentStay(before: Db, after: Db) {
    && (forall x :: Spent(before.items, x) ==> Spent(after.items, x))
    && (forall g :: g in before.cases && before.cases[g].opening.Some? && Spent(before.items, before.cases[g].asset) ==>
          g in after.cases && after.cases[g] == before.cases[g])
    && (forall g :: g in before.packs && before.packs[g].result.Some? && Spent(before.items, before.packs[g].asset) ==>
          g in after.packs && after.packs[g] == before.packs[g])
  }

  lemma SettleSpentStay(db: Db, t: Terms, confirmGift: bool)
    requires Inv(db) && TermsOk(t)
    ensures SpentStay(db, Settle(db, t, confirmGift).0)
  {
    SettleIs(db, t, confirmGift);
    if Settle(db, t, confirmGift).1.Accepted? {
      MovedFacts(db, t);
      HandOverSpentStay(db, Elems(Assets(t.offered)) + Entitlements(db, Assets(t.offered), {}).value, t);
    }
  }

  lemma HandOverSpentStay(db: Db, moved: set<nat>, t: Terms)
    requires forall x :: x in moved ==> x in db.items && db.items[x].active
    ensures SpentStay(db, HandOver(db, moved, t))
  {
  }

  lemma OpenSpentStay(db: Db, player: nat, asset: nat, requested: Option<nat>, oldest: set<nat> -> nat,
                      catalog: map<nat, nat>, packCatalog: set<nat>, roll: Roll)
    requires roll.asset !in db.items
    ensures SpentStay(db, Open(db, player, asset, requested, oldest, catalog, packCatalog, roll).0)
  {
    OpenIs(db, player, asset, requested, oldest, catalog, packCatalog, roll);
  }

  lemma StepSpentStay(db: Db, op: Op)
    requires Inv(db) && Enabled(db, op)
    ensures SpentStay(db, After(db, op))
  {
    match op
    case DoSettle(t, confirm) => SettleSpentStay(db, t, confirm);
    case DoOpen(p, x, requested, oldest, catalog, packCatalog, roll) =>
      OpenSpentStay(db, p, x, requested, oldest, catalog, packCatalog, roll);
    case DoTradeUp(p, inputs, compatible, roll) => TradeUpStays(db, p, inputs, compatible, roll);
    case _ => GrantStays(db, op);
  }

  lemma {:induction false} RunSpentStay(s: State, ops: seq<Op>)
    requires Inv(s.db) && ValidRun(s, ops)
    ensures Inv(Run(s, ops).db) && SpentStay(s.db, Run(s, ops).db)
    decreases |ops|
  {
    if ops != [] {
      StepKeepsInv(s.db, ops[0]);
      StepSpentStay(s.db, ops[0]);
      RunSpentStay(Apply(s, ops[0]), ops[1..]);
    }
  }

  // ---- Asking again ----

  /** The one grant behind an asset, once it is known. */
  lemma OnlyCaseGrant(db: Db, g: nat)
    requires Inv(db) && g in db.cases
    ensures CaseGrantsFor(db, db.cases[g].owner, db.cases[g].asset) == {g}
  {
    var player, asset := db.cases[g].owner, db.cases[g].asset;
    forall h | h in CaseGrantsFor(db, player, asset) ensures h == g {
      assert db.items[db.cases[h].asset].caseGrant == Some(h);
      assert db.items[db.cases[g].asset].caseGrant == Some(g);
    }
  }

  lemma OnlyPackGrant(db: Db, g: nat)
    requires Inv(db) && PacksNamed(db.items, db.packs) && g in db.packs
    ensures CaseGrantsFor(db, db.packs[g].owner, db.packs[g].asset) == {}
    ensures PackGrantsFor(db, db.packs[g].owner, db.packs[g].asset) == {g}
  {
    var player, asset := db.packs[g].owner, db.packs[g].asset;
    assert PackItem(db.items[asset], g);
    forall h | h in PackGrantsFor(db, player, asset) ensures h == g {
      assert PackItem(db.items[db.packs[h].asset], h);
    }
    assert forall h :: h in db.cases ==> db.items[db.cases[h].asset].caseGrant == Some(h);
  }

  /** How a call answers for an opened case grant. */
  lemma OpenedCaseAnswers(db: Db, g: nat, again: Option<nat>, oldest: set<nat> -> nat,
                          catalog: map<nat, nat>, packCatalog: set<nat>, roll: Roll)
    requires Inv(db) && g in db.cases && db.cases[g].opening.Some? && db.cases[g].odds in OPENED_CASE_ODDS
    ensures var (player, opening) := (db.cases[g].owner, db.cases[g].opening.value);
      Open(db, player, db.cases[g].asset, again, oldest, catalog, packCatalog, roll)
      == (db, if again.Some? && again.value != opening.key then DifferentKey
              else if ActiveCosmetic(db.items, player, opening.result) then Replayed(opening.result)
              else RewardGone)
  {
    OnlyCaseGrant(db, g);
  }

  lemma OpenedPackAnswers(db: Db, g: nat, again: Option<nat>, oldest: set<nat> -> nat,
                          catalog: map<nat, nat>, packCatalog: set<nat>, roll: Roll)
    requires Inv(db) && PacksNamed(db.items, db.packs) && g in db.packs && db.packs[g].result.Some? && db.packs[g].odds in PACK_ODDS
    ensures var (player, result) := (db.packs[g].owner, db.packs[g].result.value);
      Open(db, player, db.packs[g].asset, again, oldest, catalog, packCatalog, roll)
      == (db, if again.Some? && again.value != 0 then NotAvailable
              else if ActiveCosmetic(db.items, player, result) then Replayed(result)
              else RewardGone)
  {
    OnlyPackGrant(db, g);
  }

  lemma OpenedCaseAnswersLater(s: State, g: nat, ops: seq<Op>, again: Option<nat>, oldest: set<nat> -> nat,
                               catalog: map<nat, nat>, packCatalog: set<nat>, roll: Roll)
    requires Inv(s.db) && ValidRun(s, ops) && g in s.db.cases && s.db.cases[g].opening.Some?
    requires s.db.cases[g].odds in OPENED_CASE_ODDS && Spent(s.db.items, s.db.cases[g].asset)
    ensures var (player, opening, d) := (s.db.cases[g].owner, s.db.cases[g].opening.value, Run(s, ops).db);
      Open(d, player, s.db.cases[g].asset, again, oldest, catalog, packCatalog, roll)
      == (d, if again.Some? && again.value != opening.key then DifferentKey
             else if ActiveCosmetic(d.items, player, opening.result) then Replayed(opening.result)
             else RewardGone)
  {
    RunSpentStay(s, ops);
    OpenedCaseAnswers(Run(s, ops).db, g, again, oldest, catalog, packCatalog, roll);
  }

  lemma OpenedPackAnswersLater(s: State, g: nat, ops: seq<Op>, again: Option<nat>, oldest: set<nat> -> nat,
                               catalog: map<nat, nat>, packCatalog: set<nat>, roll: Roll)
    requires Inv(s.db) && PacksNamed(s.db.items, s.db.packs) && ValidRun(s, ops) && g in s.db.packs && s.db.packs[g].result.Some?
    requires s.db.packs[g].odds in PACK_ODDS && Spent(s.db.items, s.db.packs[g].asset)
    ensures var (player, result, d) := (s.db.packs[g].owner, s.db.packs[g].result.value, Run(s, ops).db);
      Open(d, player, s.db.packs[g].asset, again, oldest, catalog, packCatalog, roll)
      == (d, if again.Some? && again.value != 0 then NotAvailable
             else if ActiveCosmetic(d.items, player, result) then Replayed(result)
             else RewardGone)
  {
    RunSpentStay(s, ops);
    RunKeepsPacksNamed(s, ops);
    OpenedPackAnswers(Run(s, ops).db, g, again, oldest, catalog, packCatalog, roll);
  }

  /** What a successful opening leaves: the grant with the key it used and the reward it gave, and a spent case. */
  lemma OpenedCaseFacts(db: Db, player: nat, asset: nat, requested: Option<nat>, oldest: set<nat> -> nat,
                        catalog: map<nat, nat>, packCatalog: set<nat>, roll: Roll)
    requires Inv(db) && roll.asset !in db.items && CaseGrantsFor(db, player, asset) != {}
    requires Open(db, player, asset, requested, oldest, catalog, packCatalog, roll).1.Opened?
    ensures var d := Open(db, player, asset, requested, oldest, catalog, packCatalog, roll).0;
      var g := LeastOf(CaseGrantsFor(db, player, asset));
      && Inv(d) && g in db.cases && KeyFor(db, player, db.cases[g].keyDefinition, requested, oldest).Some?
      && g in d.cases && d.cases[g].owner == player && d.cases[g].asset == asset && d.cases[g].odds == CASE_ODDS
      && d.cases[g].opening == Some(Opening(KeyFor(db, player, db.cases[g].keyDefinition, requested, oldest).value, roll.asset))
      && Spent(d.items, asset)
  {
    OpenIs(db, player, asset, requested, oldest, catalog, packCatalog, roll);
    OpenKeepsInv(db, player, asset, requested, oldest, catalog, packCatalog, roll);
  }

  /**
   After a case was opened, its player's every later call answers by the same record, whatever ran in between:
   a call that names another key is refused, the reward comes back while the player still holds it, and once it
   was traded or used up it is gone. Nothing changes.
   */
  lemma OpeningReplays(s: State, player: nat, asset: nat, requested: Option<nat>, oldest: set<nat> -> nat,
                       catalog: map<nat, nat>, packCatalog: set<nat>, roll: Roll, ops: seq<Op>,
                       again: Option<nat>, oldest2: set<nat> -> nat, catalog2: map<nat, nat>, packCatalog2: set<nat>, roll2: Roll)
    requires Inv(s.db) && roll.asset !in s.db.items && CaseGrantsFor(s.db, player, asset) != {}
    requires Open(s.db, player, asset, requested, oldest, catalog, packCatalog, roll).1.Opened?
    requires ValidRun(Apply(s, DoOpen(player, asset, requested, oldest, catalog, packCatalog, roll)), ops)
    ensures var g := LeastOf(CaseGrantsFor(s.db, player, asset));
      g in s.db.cases && KeyFor(s.db, player, s.db.cases[g].keyDefinition, requested, oldest).Some?
    ensures var key := KeyFor(s.db, player, s.db.cases[LeastOf(CaseGrantsFor(s.db, player, asset))].keyDefinition, requested, oldest).value;
      var d := Run(Apply(s, DoOpen(player, asset, requested, oldest, catalog, packCatalog, roll)), ops).db;
      Open(d, player, asset, again, oldest2, catalog2, packCatalog2, roll2)
      == (d, if again.Some? && again.value != key then DifferentKey
             else if ActiveCosmetic(d.items, player, roll.asset) then Replayed(roll.asset)
             else RewardGone)
  {
    var s1 := Apply(s, DoOpen(player, asset, requested, oldest, catalog, packCatalog, roll));
    var g := LeastOf(CaseGrantsFor(s.db, player, asset));
    OpenedCaseFacts(s.db, player, asset, requested, oldest, catalog, packCatalog, roll);
    OpenedCaseAnswersLater(s1, g, ops, again, oldest2, catalog2, packCatalog2, roll2);
  }

  /** The same for a package, which no key opens. */
  lemma PackReplays(s: State, player: nat, asset: nat, requested: Option<nat>, oldest: set<nat> -> nat,
                    catalog: map<nat, nat>, packCatalog: set<nat>, roll: Roll, ops: seq<Op>,
                    again: Option<nat>, oldest2: set<nat> -> nat, catalog2: map<nat, nat>, packCatalog2: set<nat>, roll2: Roll)
    requires Inv(s.db) && PacksNamed(s.db.items, s.db.packs) && roll.asset !in s.db.items && CaseGrantsFor(s.db, player, asset) == {}
    requires Open(s.db, player, asset, requested, oldest, catalog, packCatalog, roll).1.Opened?
    requires ValidRun(Apply(s, DoOpen(player, asset, requested, oldest, catalog, packCatalog, roll)), ops)
    ensures var d := Run(Apply(s, DoOpen(player, asset, requested, oldest, catalog, packCatalog, roll)), ops).db;
      Open(d, player, asset, again, oldest2, catalog2, packCatalog2, roll2)
      == (d, if again.Some? && again.value != 0 then NotAvailable
             else if ActiveCosmetic(d.items, player, roll.asset) then Replayed(roll.asset)
             else RewardGone)
  {
    var first := DoOpen(player, asset, requested, oldest, catalog, packCatalog, roll);
    var s1 := Apply(s, first);
    var g := LeastOf(PackGrantsFor(s.db, player, asset));
    OpenIs(s.db, player, asset, requested, oldest, catalog, packCatalog, roll);
    OpenKeepsInv(s.db, player, asset, requested, oldest, catalog, packCatalog, roll);
    StepKeepsPacksNamed(s.db, first);
    OpenedPackAnswersLater(s1, g, ops, again, oldest2, catalog2, packCatalog2, roll2);
  }
}
