/** The settlement transaction row by row, on the tables it updates. */
module TradingTables {
  import opened Common
  import T = Trading
  import opened Trading
  import opened TradingInvariants
  import opened TradingRuns

  class Tables {
    var items: map<nat, Item>
    var cases: map<nat, CaseGrant>
    var packs: map<nat, PackGrant>
    var seals: map<nat, SealGrant>
    const legacy: map<nat, nat>

    function View(): Db
      reads this
    {
      Db(items, cases, packs, seals, legacy)
    }

    /** Locks one key for each offered case, choosing the first key not yet among the companions. */
    method Entitle(assets: seq<nat>) returns (companions: Option<seq<nat>>)
      requires forall x :: x in assets ==> x in items
      ensures companions.None? <==> Entitlements(View(), assets, {}).None?
      ensures companions.Some? ==> Entitlements(View(), assets, {}) == Some(Elems(companions.value)) && Distinct(companions.value)
    {
      var keys: seq<nat> := [];
      var i := 0;
      assert Elems(keys) == {} && assets[0..] == assets;
      while i < |assets|
        invariant 0 <= i <= |assets|
        invariant Distinct(keys)
        invariant Entitlements(View(), assets, {}) == Entitlements(View(), assets[i..], Elems(keys))
      {
        var need := NeedOf(View(), assets[i], Elems(keys));
        match need {
          case Refused => return None;
          case Nothing =>
          case TakeKey(k) =>
            NeedShape(View(), assets[i], Elems(keys));
            assert Elems(keys + [k]) == Elems(keys) + {k};
            keys := keys + [k];
        }
        i := i + 1;
      }
      return Some(keys);
    }

    /** Updates the row of one item and of the grant behind it. */
    method HandOne(x: nat, t: Terms)
      requires x in items && RowLinked(View(), x)
      modifies this
      ensures View() == HandOver(old(View()), {x}, t)
    {
      HandOneItem(View(), x, t);
      HandOneGrant(View(), x, t);
      HandOnePack(View(), x, t);
      HandOneSeal(View(), x, t);
      var item := items[x];
      var recipient := if item.owner == t.a then t.b else t.a;
      items := items[x := Handed(item, recipient)];
      if item.kind == Case && item.caseGrant.Some? {
        var g := item.caseGrant.value;
        cases := cases[g := cases[g].(owner := recipient)];
      }
      if item.kind == Case && item.packGrant.Some? {
        var g := item.packGrant.value;
        packs := packs[g := packs[g].(owner := recipient)];
      }
      if item.definition == SEALED_GRAFFITI && item.sealGrant.Some? {
        var g := item.sealGrant.value;
        seals := seals[g := seals[g].(owner := recipient)];
      }
    }

    /** All rows, or none: a row the database refuses to move rolls the transaction back. */
    method HandRows(rows: seq<nat>, t: Terms) returns (ok: bool)
      requires Distinct(rows) && Linked(View()) && forall x :: x in rows ==> x in items
      modifies this
      ensures ok <==> forall x :: x in rows ==> Movable(old(items)[x])
      ensures View() == if ok then HandOver(old(View()), Elems(rows), t) else old(View())
    {
      var before := View();
      HandOverNothing(before, t);
      var i := 0;
      while i < |rows|
        invariant 0 <= i <= |rows|
        invariant View() == HandOver(before, Elems(rows[..i]), t)
        invariant forall x :: x in rows[..i] ==> Movable(before.items[x])
      {
        var x := rows[i];
        assert rows[..i + 1] == rows[..i] + [x];
        assert x !in rows[..i];
        assert Elems(rows[..i + 1]) == Elems(rows[..i]) + {x};
        if !Movable(items[x]) {
          items, cases, packs, seals := before.items, before.cases, before.packs, before.seals;
          return false;
        }
        HandOverKeepsLinked(before, Elems(rows[..i]), t);
        HandOverStep(before, Elems(rows[..i]), x, t);
        HandOne(x, t);
        i := i + 1;
      }
      assert rows[..i] == rows;
      return true;
    }

    method Settle(t: Terms, confirmGift: bool) returns (outcome: Outcome)
      requires Linked(View()) && TermsOk(t)
      modifies this
      ensures (View(), outcome) == T.Settle(old(View()), t, confirmGift)
    {
      if OneSided(t) && !confirmGift {
        return ConfirmGift;
      }
      if !TermsHold(View(), t) {
        return ItemsChanged;
      }
      TermsAssets(View(), t);
      var assets := Assets(t.offered);
      var companions := Entitle(assets);
      if companions.None? {
        return EntitlementGone;
      }
      if !Fits(View(), assets, t.a) || !Fits(View(), assets, t.b) {
        return InventoryFull;
      }
      var rows := assets + companions.value;
      KeysApart(View(), assets, companions.value);
      var ok := HandRows(rows, t);
      return if ok then Accepted(Elems(companions.value)) else TransferRefused;
    }

    // ---- Opening and trading up ----

    /** Marks rows as consumed, one at a time. */
    method Consume(assets: seq<nat>)
      modifies this`items
      ensures items == Consumed(old(items), Elems(assets))
    {
      assert items == Consumed(items, Elems(assets[..0]));
      for i := 0 to |assets|
        invariant items == Consumed(old(items), Elems(assets[..i]))
      {
        var x := assets[i];
        assert assets[..i + 1] == assets[..i] + [x];
        if x in items {
          items := items[x := items[x].(active := false)];
        }
      }
      assert assets[..|assets|] == assets;
    }

    method OpenCase(player: nat, g: nat, requested: Option<nat>, oldest: set<nat> -> nat, catalog: map<nat, nat>, roll: Roll)
      returns (reply: OpenReply)
      requires g in cases && roll.asset !in items
      modifies this`items, this`cases
      ensures (View(), reply) == T.OpenCase(old(View()), player, g, requested, oldest, catalog, roll)
    {
      var drop := cases[g];
      if (drop.opening.None? && drop.odds != CASE_ODDS) || (drop.opening.Some? && drop.odds !in OPENED_CASE_ODDS) {
        return NotAvailable;
      }
      if drop.opening.Some? {
        if requested.Some? && drop.opening.value.key != requested.value {
          return DifferentKey;
        }
        var found := ActiveCosmetic(items, player, drop.opening.value.result);
        return if found then Replayed(drop.opening.value.result) else RewardGone;
      }
      var key := KeyFor(View(), player, drop.keyDefinition, requested, oldest);
      if !OwnedActive(items, player, drop.asset, Case, drop.caseDefinition) || key.None?
         || !OwnedActive(items, player, key.value, Key, drop.keyDefinition) {
        return AlreadyConsumed;
      }
      if drop.caseDefinition !in catalog || catalog[drop.caseDefinition] != drop.keyDefinition {
        return NotInCatalog;
      }
      RecordOpening(player, g, key.value, roll);
      return Opened(roll.asset);
    }

    method RecordOpening(player: nat, g: nat, key: nat, roll: Roll)
      requires g in cases && cases[g].asset in items && key in items && roll.asset !in items
      modifies this`items, this`cases
      ensures View() == CaseOpened(old(View()), player, g, key, roll)
    {
      var drop := cases[g];
      ghost var before := items;
      items := items[roll.asset := Reward(player, roll.definition, roll.kills, roll.look, Some(g), None)];
      Consume([drop.asset, key]);
      assert Elems([drop.asset, key]) == {drop.asset, key};
      assert items == Consumed(before, {drop.asset, key})[roll.asset := Reward(player, roll.definition, roll.kills, roll.look, Some(g), None)];
      cases := cases[g := drop.(opening := Some(Opening(key, roll.asset)))];
    }

    method TradeUp(player: nat, inputs: seq<nat>, compatible: bool, roll: Roll)
      requires roll.asset !in items
      modifies this`items
      ensures View() == T.TradeUp(old(View()), player, inputs, compatible, roll)
    {
      if |inputs| != 10 || !Distinct(inputs) || !compatible {
        return;
      }
      for i := 0 to |inputs|
        invariant forall k :: 0 <= k < i ==> ActiveCosmetic(items, player, inputs[k])
      {
        if !ActiveCosmetic(items, player, inputs[i]) {
          return;
        }
      }
      ghost var before := items;
      var reward := Reward(player, roll.definition, roll.kills, roll.look, None, None);
      items := items[roll.asset := reward];
      Consume(inputs);
      assert roll.asset !in Elems(inputs);
      assert items == Consumed(before, Elems(inputs))[roll.asset := reward];
    }
  }

  /** Companions are keys and offered items are not, so no row is handed over twice. */
  lemma KeysApart(db: Db, assets: seq<nat>, companions: seq<nat>)
    requires Distinct(assets) && Distinct(companions)
    requires forall x :: x in assets ==> x in db.items && RestrictionOf(db, x) == Unrestricted
    requires Entitlements(db, assets, {}) == Some(Elems(companions))
    ensures Distinct(assets + companions) && forall x :: x in assets + companions ==> x in db.items
    ensures Elems(assets + companions) == Elems(assets) + Elems(companions)
  {
    CompanionCount(db, assets, {});
    forall k | k in companions ensures k in db.items && k !in assets {
      assert k in Elems(companions);
    }
    DistinctConcat(assets, companions);
  }

  lemma DistinctConcat(a: seq<nat>, b: seq<nat>)
    requires Distinct(a) && Distinct(b) && forall k :: k in b ==> k !in a
    ensures Distinct(a + b) && Elems(a + b) == Elems(a) + Elems(b)
  {
    var s := a + b;
    forall i, j | 0 <= i < j < |s| ensures s[i] != s[j] {
      if i < |a| <= j {
        assert s[j] in b;
      }
    }
  }
}
