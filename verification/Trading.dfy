/**
 Two-party settlement of trade offers and the opening of cases. Ids are numbers; a fingerprint,
 an injective digest in the program, is the tuple it digests.
 */
module Trading {
  import opened Common

  datatype Kind = Case | Key | Cosmetic

  datatype Item = Item(
    owner: nat, generation: nat, kind: Kind, active: bool, definition: nat, medal: bool,
    caseGrant: Option<nat>, packGrant: Option<nat>, sealGrant: Option<nat>,
    kills: Option<nat>, look: string)

  datatype Opening = Opening(key: nat, result: nat)

  datatype CaseGrant = CaseGrant(owner: nat, asset: nat, caseDefinition: nat, keyDefinition: nat, odds: string, opening: Option<Opening>)

  datatype PackGrant = PackGrant(owner: nat, asset: nat, definition: nat, odds: string, result: Option<nat>)

  datatype SealGrant = SealGrant(owner: nat, asset: nat, unsealed: bool)

  datatype Db = Db(
    items: map<nat, Item>, cases: map<nat, CaseGrant>, packs: map<nat, PackGrant>, seals: map<nat, SealGrant>,
    legacy: map<nat, nat>)

  const NAME_TAG: nat := 1200
  const SEALED_GRAFFITI: nat := 1348
  const UNSEALED_GRAFFITI: nat := 1349
  const VISIBLE_LIMIT: nat := 512

  // ---- Entitlements ----

  /** The owner's active keys of a definition. */
  function KeysOf(items: map<nat, Item>, owner: nat, definition: nat): set<nat> {
    set x | x in items && items[x].active && items[x].kind == Key && items[x].owner == owner && items[x].definition == definition
  }

  predicate CaseGrantOpen(db: Db, g: nat, owner: nat, asset: nat) {
    g in db.cases && db.cases[g].owner == owner && db.cases[g].asset == asset && db.cases[g].opening.None?
  }

  predicate PackGrantOpen(db: Db, g: nat, owner: nat, asset: nat) {
    g in db.packs && db.packs[g].owner == owner && db.packs[g].asset == asset && db.packs[g].result.None?
  }

  predicate SealGrantOpen(db: Db, g: nat, owner: nat, asset: nat) {
    g in db.seals && db.seals[g].owner == owner && db.seals[g].asset == asset && !db.seals[g].unsealed
  }

  predicate OpeningEntitlement(db: Db, x: nat)
    requires x in db.items
  {
    var item := db.items[x];
    if item.kind == Case then
      || (item.caseGrant.Some? && CaseGrantOpen(db, item.caseGrant.value, item.owner, x)
          && KeysOf(db.items, item.owner, db.cases[item.caseGrant.value].keyDefinition) != {})
      || (item.packGrant.Some? && PackGrantOpen(db, item.packGrant.value, item.owner, x))
    else if item.definition == SEALED_GRAFFITI then
      item.sealGrant.Some? && SealGrantOpen(db, item.sealGrant.value, item.owner, x)
    else true
  }

  datatype Restriction = Unrestricted | WasConsumed | WithItsCase | MedalStays | NameTagStays | UnsealedStays | NoEntitlement | NoSealEntitlement

  /** Why an item cannot be traded, if anything. */
  function RestrictionOf(db: Db, x: nat): Restriction
    requires x in db.items
  {
    var item := db.items[x];
    if !item.active then WasConsumed
    else if item.kind == Key then WithItsCase
    else if item.medal then MedalStays
    else if item.definition == NAME_TAG then NameTagStays
    else if item.definition == UNSEALED_GRAFFITI then UnsealedStays
    else if item.kind == Case && item.caseGrant.None? && item.packGrant.None? then NoEntitlement
    else if item.definition == SEALED_GRAFFITI && item.sealGrant.None? then NoSealEntitlement
    else if !OpeningEntitlement(db, x) then NoEntitlement
    else Unrestricted
  }

  /** Everything the parties agree on: all terms but the kill count, which may grow while an offer waits. */
  datatype Fingerprint = Fingerprint(asset: nat, terms: Item, restriction: Restriction)

  function FingerprintOf(db: Db, x: nat): Fingerprint
    requires x in db.items
  {
    Fingerprint(x, db.items[x].(kills := if db.items[x].kills.Some? then Some(0) else None), RestrictionOf(db, x))
  }

  datatype Need = Refused | Nothing | TakeKey(asset: nat)

  /** What an offered item must bring along, given the companions taken so far. */
  function NeedOf(db: Db, x: nat, taken: set<nat>): Need
    requires x in db.items
  {
    var item := db.items[x];
    if item.kind == Case && item.caseGrant.Some? then
      if !CaseGrantOpen(db, item.caseGrant.value, item.owner, x) then Refused
      else
        var keys := KeysOf(db.items, item.owner, db.cases[item.caseGrant.value].keyDefinition) - taken;
        if keys == {} then Refused else TakeKey(LeastOf(keys))
    else if item.kind == Case && item.packGrant.Some? then
      if PackGrantOpen(db, item.packGrant.value, item.owner, x) then Nothing else Refused
    else if item.definition == SEALED_GRAFFITI then
      if item.sealGrant.Some? && SealGrantOpen(db, item.sealGrant.value, item.owner, x) then Nothing else Refused
    else Nothing
  }

  /** The keys the offered items bring along, each case its own; None when one has no entitlement left. */
  function Entitlements(db: Db, assets: seq<nat>, taken: set<nat>): Option<set<nat>>
    requires forall x :: x in assets ==> x in db.items
    decreases |assets|
  {
    if assets == [] then Some(taken)
    else
      match NeedOf(db, assets[0], taken)
      case Refused => None
      case Nothing => Entitlements(db, assets[1..], taken)
      case TakeKey(k) => Entitlements(db, assets[1..], taken + {k})
  }

  // ---- Settlement ----

  datatype Offered = Offered(asset: nat, fingerprint: Fingerprint)

  /** One revision's terms between two participants; a primary key keeps its assets distinct. */
  datatype Terms = Terms(a: nat, b: nat, offered: seq<Offered>)

  function Assets(offered: seq<Offered>): (r: seq<nat>)
    ensures |r| == |offered|
    ensures forall i :: 0 <= i < |r| ==> r[i] == offered[i].asset
  {
    seq(|offered|, i requires 0 <= i < |offered| => offered[i].asset)
  }

  predicate OneSided(t: Terms) {
    || (forall i :: 0 <= i < |t.offered| ==> t.offered[i].fingerprint.terms.owner != t.a)
    || (forall i :: 0 <= i < |t.offered| ==> t.offered[i].fingerprint.terms.owner != t.b)
  }

  predicate TermsHold(db: Db, t: Terms) {
    && t.offered != []
    && forall i :: 0 <= i < |t.offered| ==>
         && t.offered[i].asset in db.items
         && FingerprintOf(db, t.offered[i].asset) == t.offered[i].fingerprint
         && RestrictionOf(db, t.offered[i].asset) == Unrestricted
  }

  /** Active items a player sees: not keys. */
  function SeenOf(items: map<nat, Item>, owner: nat): set<nat> {
    set x | x in items && items[x].active && items[x].kind != Key && items[x].owner == owner
  }

  predicate HasNameTag(items: map<nat, Item>, owner: nat) {
    exists x :: x in items && items[x].active && items[x].owner == owner && items[x].definition == NAME_TAG
  }

  function LegacyOf(db: Db, owner: nat): nat {
    if owner in db.legacy then db.legacy[owner] else 0
  }

  /** How many items a player sees, counting the free name tag even when it is still to come. */
  function Visible(db: Db, owner: nat): nat {
    |SeenOf(db.items, owner)| + LegacyOf(db, owner) + (if HasNameTag(db.items, owner) then 0 else 1)
  }

  function OutgoingFrom(items: map<nat, Item>, assets: seq<nat>, owner: nat): nat
    requires forall x :: x in assets ==> x in items
  {
    if assets == [] then 0 else (if items[assets[0]].owner == owner then 1 else 0) + OutgoingFrom(items, assets[1..], owner)
  }

  predicate Fits(db: Db, assets: seq<nat>, owner: nat)
    requires forall x :: x in assets ==> x in db.items
  {
    var outgoing := OutgoingFrom(db.items, assets, owner);
    Visible(db, owner) - outgoing + (|assets| - outgoing) <= VISIBLE_LIMIT
  }

  /** The database refuses to change the owner of these. */
  predicate Movable(item: Item) {
    item.active && !item.medal && item.definition != NAME_TAG && item.definition != UNSEALED_GRAFFITI
  }

  function Partner(t: Terms, owner: nat): nat {
    if owner == t.a then t.b else t.a
  }

  function Handed(item: Item, to: nat): Item {
    item.(owner := to, generation := item.generation + 1, kills := if item.kills.Some? then Some(0) else None)
  }

  function HandedItems(items: map<nat, Item>, moved: set<nat>, t: Terms): map<nat, Item> {
    map x | x in items :: if x in moved then Handed(items[x], Partner(t, items[x].owner)) else items[x]
  }

  /** The case grants behind moved cases. */
  predicate CaseGrantMoves(db: Db, g: nat, moved: set<nat>)
    requires g in db.cases
  {
    var x := db.cases[g].asset;
    x in moved && x in db.items && db.items[x].kind == Case && db.items[x].caseGrant == Some(g)
  }

  predicate PackGrantMoves(db: Db, g: nat, moved: set<nat>)
    requires g in db.packs
  {
    var x := db.packs[g].asset;
    x in moved && x in db.items && db.items[x].kind == Case && db.items[x].packGrant == Some(g)
  }

  predicate SealGrantMoves(db: Db, g: nat, moved: set<nat>)
    requires g in db.seals
  {
    var x := db.seals[g].asset;
    x in moved && x in db.items && db.items[x].definition == SEALED_GRAFFITI && db.items[x].sealGrant == Some(g)
  }

  function HandedCases(db: Db, moved: set<nat>, t: Terms): map<nat, CaseGrant> {
    map g | g in db.cases ::
      if CaseGrantMoves(db, g, moved) then db.cases[g].(owner := Partner(t, db.items[db.cases[g].asset].owner)) else db.cases[g]
  }

  function HandedPacks(db: Db, moved: set<nat>, t: Terms): map<nat, PackGrant> {
    map g | g in db.packs ::
      if PackGrantMoves(db, g, moved) then db.packs[g].(owner := Partner(t, db.items[db.packs[g].asset].owner)) else db.packs[g]
  }

  function HandedSeals(db: Db, moved: set<nat>, t: Terms): map<nat, SealGrant> {
    map g | g in db.seals ::
      if SealGrantMoves(db, g, moved) then db.seals[g].(owner := Partner(t, db.items[db.seals[g].asset].owner)) else db.seals[g]
  }

  /** Each moved item, and the grant behind it, passes to the other participant. */
  function HandOver(db: Db, moved: set<nat>, t: Terms): Db {
    Db(HandedItems(db.items, moved, t), HandedCases(db, moved, t), HandedPacks(db, moved, t), HandedSeals(db, moved, t), db.legacy)
  }

  datatype Outcome = ConfirmGift | ItemsChanged | EntitlementGone | InventoryFull | TransferRefused | Accepted(companions: set<nat>)

  /** The outcome of accepting; only an acceptance changes items. */
  function Settle(db: Db, t: Terms, confirmGift: bool): (Db, Outcome) {
    var assets := Assets(t.offered);
    if OneSided(t) && !confirmGift then (db, ConfirmGift)
    else if !TermsHold(db, t) then (db, ItemsChanged)
    else
      TermsAssets(db, t);
      match Entitlements(db, assets, {})
      case None => (db, EntitlementGone)
      case Some(companions) =>
        if !Fits(db, assets, t.a) || !Fits(db, assets, t.b) then (db, InventoryFull)
        else
          var moved := Elems(assets) + companions;
          if exists x :: x in moved && x in db.items && !Movable(db.items[x]) then (db, TransferRefused)
          else (HandOver(db, moved, t), Accepted(companions))
  }

  lemma TermsAssets(db: Db, t: Terms)
    requires TermsHold(db, t)
    ensures forall x :: x in Assets(t.offered) ==> x in db.items && RestrictionOf(db, x) == Unrestricted
  {
  }

  // ---- Opening ----

  const CASE_ODDS: string := "b2g-cases-v4"
  const OPENED_CASE_ODDS: set<string> := {"b2g-cases-v1", "b2g-cases-v2", "b2g-cases-v3", "b2g-cases-v4"}
  const PACK_ODDS: set<string> := {"b2g-service-drops-v3", "b2g-service-drops-v4"}

  datatype OpenReply = NotAvailable | DifferentKey | RewardGone | AlreadyConsumed | NotInCatalog | Replayed(result: nat) | Opened(result: nat)

  function CaseGrantsFor(db: Db, player: nat, asset: nat): set<nat> {
    set g | g in db.cases && db.cases[g].owner == player && db.cases[g].asset == asset
  }

  function PackGrantsFor(db: Db, player: nat, asset: nat): set<nat> {
    set g | g in db.packs && db.packs[g].owner == player && db.packs[g].asset == asset
  }

  predicate ActiveCosmetic(items: map<nat, Item>, player: nat, x: nat) {
    x in items && items[x].owner == player && items[x].active && items[x].kind == Cosmetic
  }

  predicate OwnedActive(items: map<nat, Item>, player: nat, x: nat, kind: Kind, definition: nat) {
    x in items && items[x].owner == player && items[x].active && items[x].kind == kind && items[x].definition == definition
  }

  /** The key a call uses: the one it names, or the player's first of the right definition. */
  function KeyFor(db: Db, player: nat, definition: nat, requested: Option<nat>, oldest: set<nat> -> nat): Option<nat> {
    match requested
    case Some(k) => Some(k)
    case None =>
      var keys := KeysOf(db.items, player, definition);
      if keys == {} then None else Some(oldest(keys))
  }

  function Consumed(items: map<nat, Item>, gone: set<nat>): map<nat, Item> {
    map x | x in items :: if x in gone then items[x].(active := false) else items[x]
  }

  function Reward(player: nat, definition: nat, kills: Option<nat>, look: string, caseGrant: Option<nat>, packGrant: Option<nat>): Item {
    Item(player, 0, Cosmetic, true, definition, false, caseGrant, packGrant, None, kills, look)
  }

  /** What a call rolls: the new asset and what it looks like. */
  datatype Roll = Roll(asset: nat, definition: nat, kills: Option<nat>, look: string)

  /** The opened case and its key are consumed, the reward appears, the grant records both. */
  function CaseOpened(db: Db, player: nat, g: nat, key: nat, roll: Roll): Db
    requires g in db.cases
  {
    db.(items := Consumed(db.items, {db.cases[g].asset, key})[roll.asset := Reward(player, roll.definition, roll.kills, roll.look, Some(g), None)],
        cases := db.cases[g := db.cases[g].(opening := Some(Opening(key, roll.asset)))])
  }

  function OpenCase(db: Db, player: nat, g: nat, requested: Option<nat>, oldest: set<nat> -> nat, catalog: map<nat, nat>, roll: Roll)
    : (Db, OpenReply)
    requires g in db.cases
  {
    var drop := db.cases[g];
    if drop.opening.Some? && drop.odds in OPENED_CASE_ODDS then
      if requested.Some? && requested.value != drop.opening.value.key then (db, DifferentKey)
      else if !ActiveCosmetic(db.items, player, drop.opening.value.result) then (db, RewardGone)
      else (db, Replayed(drop.opening.value.result))
    else if drop.opening.Some? || drop.odds != CASE_ODDS then (db, NotAvailable)
    else
      var key := KeyFor(db, player, drop.keyDefinition, requested, oldest);
      if !OwnedActive(db.items, player, drop.asset, Case, drop.caseDefinition) || key.None?
         || !OwnedActive(db.items, player, key.value, Key, drop.keyDefinition) then (db, AlreadyConsumed)
      else if drop.caseDefinition !in catalog || catalog[drop.caseDefinition] != drop.keyDefinition then (db, NotInCatalog)
      else (CaseOpened(db, player, g, key.value, roll), Opened(roll.asset))
  }

  function PackOpened(db: Db, player: nat, g: nat, roll: Roll): Db
    requires g in db.packs
  {
    db.(items := Consumed(db.items, {db.packs[g].asset})[roll.asset := Reward(player, roll.definition, None, roll.look, None, Some(g))],
        packs := db.packs[g := db.packs[g].(result := Some(roll.asset))])
  }

  function OpenPack(db: Db, player: nat, g: nat, requested: Option<nat>, packCatalog: set<nat>, roll: Roll): (Db, OpenReply)
    requires g in db.packs
  {
    var drop := db.packs[g];
    if (drop.odds !in PACK_ODDS && !(drop.result.Some? && drop.odds == "b2g-service-drops-v2"))
       || (requested.Some? && requested.value != 0) then (db, NotAvailable)
    else if drop.result.Some? then
      if ActiveCosmetic(db.items, player, drop.result.value) then (db, Replayed(drop.result.value)) else (db, RewardGone)
    else if !OwnedActive(db.items, player, drop.asset, Case, drop.definition) then (db, AlreadyConsumed)
    else if drop.definition !in packCatalog then (db, NotInCatalog)
    else (PackOpened(db, player, g, roll), Opened(roll.asset))
  }

  /** openB2GCase: a case if the player has one under that asset, otherwise a package. */
  function Open(db: Db, player: nat, asset: nat, requested: Option<nat>, oldest: set<nat> -> nat,
                catalog: map<nat, nat>, packCatalog: set<nat>, roll: Roll): (Db, OpenReply)
  {
    var cases, packs := CaseGrantsFor(db, player, asset), PackGrantsFor(db, player, asset);
    if cases != {} then OpenCase(db, player, LeastOf(cases), requested, oldest, catalog, roll)
    else if packs != {} then OpenPack(db, player, LeastOf(packs), requested, packCatalog, roll)
    else (db, NotAvailable)
  }

  // ---- Grants and trade-ups ----

  function GrantCase(db: Db, player: nat, g: nat, caseAsset: nat, keyAsset: nat, caseDefinition: nat, keyDefinition: nat, look: string): Db {
    db.(items := db.items[caseAsset := Item(player, 0, Case, true, caseDefinition, false, Some(g), None, None, None, look)]
                         [keyAsset := Item(player, 0, Key, true, keyDefinition, false, Some(g), None, None, None, "B2G Case Key")],
        cases := db.cases[g := CaseGrant(player, caseAsset, caseDefinition, keyDefinition, CASE_ODDS, None)])
  }

  function GrantPack(db: Db, player: nat, g: nat, asset: nat, definition: nat, look: string): Db {
    db.(items := db.items[asset := Item(player, 0, Case, true, definition, false, None, Some(g), None, None, look)],
        packs := db.packs[g := PackGrant(player, asset, definition, "b2g-service-drops-v4", None)])
  }

  function GrantSeal(db: Db, player: nat, g: nat, asset: nat, look: string): Db {
    db.(items := db.items[asset := Item(player, 0, Cosmetic, true, SEALED_GRAFFITI, false, None, None, Some(g), None, look)],
        seals := db.seals[g := SealGrant(player, asset, false)])
  }

  /** Ten of the player's active cosmetics become one; compatible is the catalog's verdict on them. */
  function TradeUp(db: Db, player: nat, inputs: seq<nat>, compatible: bool, roll: Roll): Db {
    if |inputs| == 10 && Distinct(inputs) && compatible && (forall i :: 0 <= i < |inputs| ==> ActiveCosmetic(db.items, player, inputs[i]))
    then db.(items := Consumed(db.items, Elems(inputs))[roll.asset := Reward(player, roll.definition, roll.kills, roll.look, None, None)])
    else db
  }
}
