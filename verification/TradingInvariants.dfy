/** Every active case stays openable, and a settlement moves exactly what was agreed. */
module TradingInvariants {
  import opened Common
  import opened Trading

  type Items = map<nat, Item>
  type CaseGrants = map<nat, CaseGrant>

  /** The owner's active cases that a key of the definition opens. */
  function CasesOf(items: Items, cases: CaseGrants, owner: nat, definition: nat): set<nat> {
    set x | x in items && items[x].active && items[x].kind == Case && items[x].owner == owner
            && items[x].caseGrant.Some? && items[x].caseGrant.value in cases
            && cases[items[x].caseGrant.value].keyDefinition == definition
  }

  /** An active case's grant is unopened, names the case, and belongs to the case's owner. */
  ghost predicate CasesBacked(items: Items, cases: CaseGrants) {
    forall x :: x in items && items[x].active && items[x].kind == Case && items[x].caseGrant.Some? ==>
      var g := items[x].caseGrant.value;
      g in cases && cases[g].asset == x && cases[g].owner == items[x].owner && cases[g].opening.None?
      && cases[g].caseDefinition == items[x].definition
  }

  /** A grant's case item names the grant. */
  ghost predicate GrantsNamed(items: Items, cases: CaseGrants) {
    forall g :: g in cases ==> cases[g].asset in items && items[cases[g].asset].caseGrant == Some(g)
                               && items[cases[g].asset].kind == Case
  }

  /** As many active keys of each definition as active cases that need them. */
  ghost predicate Surplus(items: Items, cases: CaseGrants) {
    forall owner, definition :: |KeysOf(items, owner, definition)| >= |CasesOf(items, cases, owner, definition)|
  }

  ghost predicate KeysMovable(items: Items) {
    forall x :: x in items && items[x].kind == Key ==>
      !items[x].medal && items[x].definition != NAME_TAG && items[x].definition != UNSEALED_GRAFFITI
  }

  ghost predicate Inv(db: Db) {
    && CasesBacked(db.items, db.cases)
    && GrantsNamed(db.items, db.cases)
    && Surplus(db.items, db.cases)
    && KeysMovable(db.items)
  }

  // ---- The greedy choice of companion keys always succeeds ----

  /** The taken keys answer the cases done so far, owner by owner and definition by definition. */
  ghost predicate Matched(items: Items, cases: CaseGrants, done: set<nat>, taken: set<nat>) {
    && (forall k :: k in taken ==> k in items && items[k].active && items[k].kind == Key)
    && forall owner, definition ::
         |taken * KeysOf(items, owner, definition)| == |done * CasesOf(items, cases, owner, definition)|
  }

  lemma TakenForCase(items: Items, cases: CaseGrants, done: set<nat>, taken: set<nat>, x: nat, k: nat)
    requires Matched(items, cases, done, taken) && x !in done && k !in taken && x in items
    requires items[x].caseGrant.Some? && items[x].caseGrant.value in cases
    requires x in CasesOf(items, cases, items[x].owner, cases[items[x].caseGrant.value].keyDefinition)
    requires k in KeysOf(items, items[x].owner, cases[items[x].caseGrant.value].keyDefinition)
    ensures Matched(items, cases, done + {x}, taken + {k})
  {
    forall owner, definition
      ensures |(taken + {k}) * KeysOf(items, owner, definition)| == |(done + {x}) * CasesOf(items, cases, owner, definition)|
    {
      var keys, boxes := KeysOf(items, owner, definition), CasesOf(items, cases, owner, definition);
      assert k in keys <==> x in boxes;
      AddBoth(taken, keys, k, done, boxes, x);
    }
  }

  lemma AddOne(s: set<nat>, t: set<nat>, x: nat)
    requires x !in s
    ensures |(s + {x}) * t| == |s * t| + if x in t then 1 else 0
  {
    assert (s + {x}) * t == s * t + (if x in t then {x} else {});
  }

  lemma AddBoth(taken: set<nat>, keys: set<nat>, k: nat, done: set<nat>, boxes: set<nat>, x: nat)
    requires k !in taken && x !in done && |taken * keys| == |done * boxes| && (k in keys <==> x in boxes)
    ensures |(taken + {k}) * keys| == |(done + {x}) * boxes|
  {
    AddOne(taken, keys, k);
    AddOne(done, boxes, x);
  }

  lemma SkippedItem(items: Items, cases: CaseGrants, done: set<nat>, taken: set<nat>, x: nat)
    requires Matched(items, cases, done, taken)
    requires x in items ==> items[x].kind != Case || items[x].caseGrant.None?
    ensures Matched(items, cases, done + {x}, taken)
  {
    forall owner, definition ensures |taken * KeysOf(items, owner, definition)| == |(done + {x}) * CasesOf(items, cases, owner, definition)| {
      var boxes := CasesOf(items, cases, owner, definition);
      assert (done + {x}) * boxes == done * boxes;
    }
  }

  /** A case not yet done leaves one of its owner's keys untaken. */
  lemma KeyRemains(items: Items, cases: CaseGrants, done: set<nat>, taken: set<nat>, x: nat, owner: nat, definition: nat)
    requires Matched(items, cases, done, taken) && Surplus(items, cases)
    requires x in CasesOf(items, cases, owner, definition) && x !in done
    ensures KeysOf(items, owner, definition) - taken != {}
  {
    var keys, boxes := KeysOf(items, owner, definition), CasesOf(items, cases, owner, definition);
    assert |taken * keys| == |done * boxes|;
    SubsetCardinality(done * boxes, boxes - {x});
    assert keys == taken * keys + (keys - taken);
    assert |keys| == |taken * keys| + |keys - taken|;
  }

  lemma CaseNeed(db: Db, done: set<nat>, taken: set<nat>, x: nat)
    requires Inv(db) && Matched(db.items, db.cases, done, taken) && x !in done
    requires x in db.items && RestrictionOf(db, x) == Unrestricted
    requires db.items[x].kind == Case && db.items[x].caseGrant.Some?
    ensures NeedOf(db, x, taken).TakeKey?
    ensures var k := NeedOf(db, x, taken).asset;
      k !in taken && k in db.items && Matched(db.items, db.cases, done + {x}, taken + {k})
  {
    var g := db.items[x].caseGrant.value;
    KeyRemains(db.items, db.cases, done, taken, x, db.items[x].owner, db.cases[g].keyDefinition);
    TakenForCase(db.items, db.cases, done, taken, x, NeedOf(db, x, taken).asset);
  }

  lemma OtherNeed(db: Db, taken: set<nat>, x: nat)
    requires x in db.items && RestrictionOf(db, x) == Unrestricted
    requires db.items[x].kind != Case || db.items[x].caseGrant.None?
    ensures NeedOf(db, x, taken) == Nothing
  {
  }

  function Took(need: Need, taken: set<nat>): set<nat> {
    if need.TakeKey? then taken + {need.asset} else taken
  }

  /** One more offered item, with the key it brings along, keeps the count. */
  lemma NeedKeepsMatched(db: Db, done: set<nat>, taken: set<nat>, x: nat)
    requires Inv(db) && Matched(db.items, db.cases, done, taken) && x !in done
    requires x in db.items && RestrictionOf(db, x) == Unrestricted
    ensures !NeedOf(db, x, taken).Refused?
    ensures Matched(db.items, db.cases, done + {x}, Took(NeedOf(db, x, taken), taken))
  {
    if db.items[x].kind == Case && db.items[x].caseGrant.Some? {
      CaseNeed(db, done, taken, x);
    } else {
      OtherNeed(db, taken, x);
      SkippedItem(db.items, db.cases, done, taken, x);
    }
  }

  lemma EntitlementsStep(db: Db, assets: seq<nat>, taken: set<nat>)
    requires assets != [] && (forall x :: x in assets ==> x in db.items) && !NeedOf(db, assets[0], taken).Refused?
    ensures Entitlements(db, assets, taken) == Entitlements(db, assets[1..], Took(NeedOf(db, assets[0], taken), taken))
  {
  }

  lemma NextDone(assets: seq<nat>, done: set<nat>)
    requires assets != [] && Distinct(assets) && Elems(assets) !! done
    ensures assets[0] !in done && Distinct(assets[1..]) && Elems(assets[1..]) !! done + {assets[0]}
    ensures done + Elems(assets) == (done + {assets[0]}) + Elems(assets[1..])
  {
    assert assets == [assets[0]] + assets[1..];
    assert Elems(assets) == {assets[0]} + Elems(assets[1..]);
  }

  /** Whatever distinct tradable items are offered, every offered case finds a key of its own. */
  lemma {:induction false} GreedySucceeds(db: Db, done: set<nat>, assets: seq<nat>, taken: set<nat>)
    requires Inv(db) && Distinct(assets) && Elems(assets) !! done
    requires forall x :: x in assets ==> x in db.items && RestrictionOf(db, x) == Unrestricted
    requires Matched(db.items, db.cases, done, taken)
    ensures Entitlements(db, assets, taken).Some?
    ensures Matched(db.items, db.cases, done + Elems(assets), Entitlements(db, assets, taken).value)
    decreases |assets|
  {
    if assets == [] {
      assert done + Elems(assets) == done;
    } else {
      NextDone(assets, done);
      NeedKeepsMatched(db, done, taken, assets[0]);
      EntitlementsStep(db, assets, taken);
      GreedySucceeds(db, done + {assets[0]}, assets[1..], Took(NeedOf(db, assets[0], taken), taken));
    }
  }

  lemma NothingMatched(items: Items, cases: CaseGrants)
    ensures Matched(items, cases, {}, {})
  {
    forall owner, definition ensures |{} * KeysOf(items, owner, definition)| == |{} * CasesOf(items, cases, owner, definition)| {
      assert {} * KeysOf(items, owner, definition) == {};
      assert {} * CasesOf(items, cases, owner, definition) == {};
    }
  }

  // ---- Handing over ----

  /** Two different participants, and every offered item belonged to one of them when it was offered. */
  ghost predicate TermsOk(t: Terms) {
    && t.a != t.b && Distinct(Assets(t.offered))
    && forall i :: 0 <= i < |t.offered| ==> t.offered[i].fingerprint.terms.owner in {t.a, t.b}
  }

  ghost predicate OwnedByParties(items: Items, moved: set<nat>, t: Terms) {
    forall x :: x in moved ==> x in items && items[x].owner in {t.a, t.b}
  }

  lemma KeysAfter(items: Items, moved: set<nat>, t: Terms, owner: nat, definition: nat)
    requires t.a != t.b && OwnedByParties(items, moved, t)
    ensures owner in {t.a, t.b} ==>
      KeysOf(HandedItems(items, moved, t), owner, definition)
      == (KeysOf(items, owner, definition) - moved) + moved * KeysOf(items, Partner(t, owner), definition)
    ensures owner !in {t.a, t.b} ==> KeysOf(HandedItems(items, moved, t), owner, definition) == KeysOf(items, owner, definition)
  {
  }

  lemma CasesAfter(items: Items, cases: CaseGrants, after: CaseGrants, moved: set<nat>, t: Terms, owner: nat, definition: nat)
    requires t.a != t.b && OwnedByParties(items, moved, t)
    requires after.Keys == cases.Keys && forall g :: g in cases ==> after[g].keyDefinition == cases[g].keyDefinition
    ensures owner in {t.a, t.b} ==>
      CasesOf(HandedItems(items, moved, t), after, owner, definition)
      == (CasesOf(items, cases, owner, definition) - moved) + moved * CasesOf(items, cases, Partner(t, owner), definition)
    ensures owner !in {t.a, t.b} ==>
      CasesOf(HandedItems(items, moved, t), after, owner, definition) == CasesOf(items, cases, owner, definition)
  {
  }

  lemma SwapCount(before: set<nat>, moved: set<nat>, incoming: set<nat>)
    requires before !! incoming
    ensures |(before - moved) + incoming| == |before| - |moved * before| + |incoming|
  {
    assert before == (before - moved) + moved * before;
    assert (before - moved) !! (moved * before);
  }

  /** Each side loses as many keys as cases of a definition, and gains as many. */
  lemma HandOverKeepsSurplus(items: Items, cases: CaseGrants, after: CaseGrants, moved: set<nat>, t: Terms)
    requires Surplus(items, cases) && t.a != t.b && OwnedByParties(items, moved, t)
    requires after.Keys == cases.Keys && forall g :: g in cases ==> after[g].keyDefinition == cases[g].keyDefinition
    requires forall owner, definition ::
      |moved * KeysOf(items, owner, definition)| == |moved * CasesOf(items, cases, owner, definition)|
    ensures Surplus(HandedItems(items, moved, t), after)
  {
    forall owner, definition
      ensures |KeysOf(HandedItems(items, moved, t), owner, definition)| >= |CasesOf(HandedItems(items, moved, t), after, owner, definition)|
    {
      assert |KeysOf(items, owner, definition)| >= |CasesOf(items, cases, owner, definition)|;
      KeysAfter(items, moved, t, owner, definition);
      CasesAfter(items, cases, after, moved, t, owner, definition);
      if owner in {t.a, t.b} {
        var other := Partner(t, owner);
        SwapCount(KeysOf(items, owner, definition), moved, moved * KeysOf(items, other, definition));
        SwapCount(CasesOf(items, cases, owner, definition), moved, moved * CasesOf(items, cases, other, definition));
      }
    }
  }

  lemma HandOverKeepsBacking(db: Db, moved: set<nat>, t: Terms)
    requires CasesBacked(db.items, db.cases) && GrantsNamed(db.items, db.cases) && KeysMovable(db.items)
    ensures CasesBacked(HandedItems(db.items, moved, t), HandedCases(db, moved, t))
    ensures GrantsNamed(HandedItems(db.items, moved, t), HandedCases(db, moved, t))
    ensures KeysMovable(HandedItems(db.items, moved, t))
  {
  }

  /** What an accepted offer moves: its items and their companion keys, all of the two participants, and nothing immovable. */
  lemma MovedFacts(db: Db, t: Terms)
    requires Inv(db) && TermsOk(t) && TermsHold(db, t)
    ensures Entitlements(db, Assets(t.offered), {}).Some?
    ensures var moved := Elems(Assets(t.offered)) + Entitlements(db, Assets(t.offered), {}).value;
      && OwnedByParties(db.items, moved, t)
      && (forall owner, definition ::
            |moved * KeysOf(db.items, owner, definition)| == |moved * CasesOf(db.items, db.cases, owner, definition)|)
      && (forall x :: x in moved ==> Movable(db.items[x]))
  {
    var assets := Assets(t.offered);
    TermsAssets(db, t);
    NothingMatched(db.items, db.cases);
    GreedySucceeds(db, {}, assets, {});
    assert {} + Elems(assets) == Elems(assets);
    MatchedMoves(db, t, Entitlements(db, assets, {}).value);
  }

  lemma MatchedMoves(db: Db, t: Terms, companions: set<nat>)
    requires Inv(db) && TermsOk(t) && TermsHold(db, t)
    requires Matched(db.items, db.cases, Elems(Assets(t.offered)), companions)
    ensures var moved := Elems(Assets(t.offered)) + companions;
      && OwnedByParties(db.items, moved, t)
      && (forall owner, definition ::
            |moved * KeysOf(db.items, owner, definition)| == |moved * CasesOf(db.items, db.cases, owner, definition)|)
      && (forall x :: x in moved ==> Movable(db.items[x]))
  {
    var offered := Elems(Assets(t.offered));
    var moved := offered + companions;
    TermsAssets(db, t);
    forall x | x in offered ensures db.items[x].owner in {t.a, t.b} && db.items[x].active && db.items[x].kind != Key && Movable(db.items[x]) {
      var i :| 0 <= i < |t.offered| && Assets(t.offered)[i] == x;
      assert FingerprintOf(db, x) == t.offered[i].fingerprint;
    }
    forall k | k in companions ensures db.items[k].owner in {t.a, t.b} && Movable(db.items[k]) {
      CompanionOwner(db, t, companions, k);
    }
    forall owner, definition
      ensures |moved * KeysOf(db.items, owner, definition)| == |moved * CasesOf(db.items, db.cases, owner, definition)|
    {
      assert moved * KeysOf(db.items, owner, definition) == companions * KeysOf(db.items, owner, definition);
      assert moved * CasesOf(db.items, db.cases, owner, definition) == offered * CasesOf(db.items, db.cases, owner, definition);
    }
  }

  lemma CompanionOwner(db: Db, t: Terms, companions: set<nat>, k: nat)
    requires TermsOk(t) && TermsHold(db, t) && k in companions
    requires Matched(db.items, db.cases, Elems(Assets(t.offered)), companions)
    ensures db.items[k].owner in {t.a, t.b}
  {
    var owner, definition := db.items[k].owner, db.items[k].definition;
    var offered := Elems(Assets(t.offered));
    assert k in companions * KeysOf(db.items, owner, definition);
    assert |offered * CasesOf(db.items, db.cases, owner, definition)| > 0;
    var x :| x in offered * CasesOf(db.items, db.cases, owner, definition);
    var i :| 0 <= i < |t.offered| && Assets(t.offered)[i] == x;
    assert FingerprintOf(db, x) == t.offered[i].fingerprint;
  }

  lemma HandOverKeepsInv(db: Db, moved: set<nat>, t: Terms)
    requires Inv(db) && t.a != t.b && OwnedByParties(db.items, moved, t)
    requires forall owner, definition ::
      |moved * KeysOf(db.items, owner, definition)| == |moved * CasesOf(db.items, db.cases, owner, definition)|
    ensures Inv(HandOver(db, moved, t))
  {
    HandOverKeepsSurplus(db.items, db.cases, HandedCases(db, moved, t), moved, t);
    HandOverKeepsBacking(db, moved, t);
  }

  lemma SettleIs(db: Db, t: Terms, confirmGift: bool)
    ensures var (after, outcome) := Settle(db, t, confirmGift);
      if !outcome.Accepted? then after == db
      else
        && TermsHold(db, t) && (forall x :: x in Assets(t.offered) ==> x in db.items)
        && Entitlements(db, Assets(t.offered), {}) == Some(outcome.companions)
        && after == HandOver(db, Elems(Assets(t.offered)) + outcome.companions, t)
  {
    if TermsHold(db, t) {
      TermsAssets(db, t);
    }
  }

  lemma SettleKeepsInv(db: Db, t: Terms, confirmGift: bool)
    requires Inv(db) && TermsOk(t)
    ensures Inv(Settle(db, t, confirmGift).0)
  {
    SettleIs(db, t, confirmGift);
    if Settle(db, t, confirmGift).1.Accepted? {
      MovedFacts(db, t);
      HandOverKeepsInv(db, Elems(Assets(t.offered)) + Entitlements(db, Assets(t.offered), {}).value, t);
    }
  }

  /** With the invariant, an accepted offer never fails for a missing key or an item the database will not move. */
  lemma SettleOutcomes(db: Db, t: Terms, confirmGift: bool)
    requires Inv(db) && TermsOk(t)
    ensures var outcome := Settle(db, t, confirmGift).1;
      && outcome != EntitlementGone && outcome != TransferRefused
      && (outcome.Accepted? <==>
            && (!OneSided(t) || confirmGift) && TermsHold(db, t)
            && (TermsHold(db, t) ==> forall x :: x in Assets(t.offered) ==> x in db.items)
            && Fits(db, Assets(t.offered), t.a) && Fits(db, Assets(t.offered), t.b))
  {
    if TermsHold(db, t) {
      TermsAssets(db, t);
      MovedFacts(db, t);
    }
  }

  // ---- Rows and the grants they name ----

  /** Every row that names a grant is the row the grant names. */
  ghost predicate Linked(db: Db) {
    forall x :: x in db.items ==> RowLinked(db, x)
  }

  ghost predicate RowLinked(db: Db, x: nat)
    requires x in db.items
  {
    var item := db.items[x];
    && (item.kind == Case && item.caseGrant.Some? ==> item.caseGrant.value in db.cases && db.cases[item.caseGrant.value].asset == x)
    && (item.kind == Case && item.packGrant.Some? ==> item.packGrant.value in db.packs && db.packs[item.packGrant.value].asset == x)
    && (item.definition == SEALED_GRAFFITI && item.sealGrant.Some? ==>
          item.sealGrant.value in db.seals && db.seals[item.sealGrant.value].asset == x)
  }

  lemma HandOverKeepsLinked(db: Db, moved: set<nat>, t: Terms)
    requires Linked(db)
    ensures Linked(HandOver(db, moved, t))
  {
    forall x | x in HandOver(db, moved, t).items ensures RowLinked(HandOver(db, moved, t), x) {
      assert RowLinked(db, x);
    }
  }

  lemma HandOneItem(db: Db, x: nat, t: Terms)
    requires x in db.items
    ensures HandedItems(db.items, {x}, t) == db.items[x := Handed(db.items[x], Partner(t, db.items[x].owner))]
  {
  }

  lemma HandOneGrant(db: Db, x: nat, t: Terms)
    requires x in db.items && RowLinked(db, x)
    ensures var item := db.items[x];
      && HandedCases(db, {x}, t)
         == (if item.kind == Case && item.caseGrant.Some?
             then db.cases[item.caseGrant.value := db.cases[item.caseGrant.value].(owner := Partner(t, item.owner))] else db.cases)
  {
  }

  lemma HandOnePack(db: Db, x: nat, t: Terms)
    requires x in db.items && RowLinked(db, x)
    ensures var item := db.items[x];
      && HandedPacks(db, {x}, t)
         == (if item.kind == Case && item.packGrant.Some?
             then db.packs[item.packGrant.value := db.packs[item.packGrant.value].(owner := Partner(t, item.owner))] else db.packs)
  {
  }

  lemma HandOneSeal(db: Db, x: nat, t: Terms)
    requires x in db.items && RowLinked(db, x)
    ensures var item := db.items[x];
      && HandedSeals(db, {x}, t)
         == (if item.definition == SEALED_GRAFFITI && item.sealGrant.Some?
             then db.seals[item.sealGrant.value := db.seals[item.sealGrant.value].(owner := Partner(t, item.owner))] else db.seals)
  {
  }

  lemma HandItemsStep(items: Items, moved: set<nat>, x: nat, t: Terms)
    requires x !in moved
    ensures HandedItems(HandedItems(items, moved, t), {x}, t) == HandedItems(items, moved + {x}, t)
  {
  }

  lemma HandCasesStep(db: Db, moved: set<nat>, x: nat, t: Terms)
    requires x !in moved
    ensures HandedCases(HandOver(db, moved, t), {x}, t) == HandedCases(db, moved + {x}, t)
  {
  }

  lemma HandPacksStep(db: Db, moved: set<nat>, x: nat, t: Terms)
    requires x !in moved
    ensures HandedPacks(HandOver(db, moved, t), {x}, t) == HandedPacks(db, moved + {x}, t)
  {
  }

  lemma HandSealsStep(db: Db, moved: set<nat>, x: nat, t: Terms)
    requires x !in moved
    ensures HandedSeals(HandOver(db, moved, t), {x}, t) == HandedSeals(db, moved + {x}, t)
  {
  }

  /** Handing over one more row after a set of rows is handing over the larger set. */
  lemma HandOverStep(db: Db, moved: set<nat>, x: nat, t: Terms)
    requires x !in moved
    ensures HandOver(HandOver(db, moved, t), {x}, t) == HandOver(db, moved + {x}, t)
  {
    HandItemsStep(db.items, moved, x, t);
    HandCasesStep(db, moved, x, t);
    HandPacksStep(db, moved, x, t);
    HandSealsStep(db, moved, x, t);
  }

  lemma HandOverNothing(db: Db, t: Terms)
    ensures HandOver(db, {}, t) == db
  {
    var d := HandOver(db, {}, t);
    assert d.items == db.items && d.cases == db.cases && d.packs == db.packs && d.seals == db.seals;
  }
}
