/** Which of the attacker's own items a kill event counts for, judged by the match's signed manifest. */
module StatTrak {
  import opened Common

  /** A payload field as it arrives: absent, text, or something else. */
  datatype Field = Missing | Text(s: string) | Other

  datatype Kill = Kill(attacker: Field, victim: Field, weapon: Field, itemId: Field, originalOwner: Field, generation: Field)

  datatype ManifestItem = ManifestItem(
    assetId: string, b2g: bool, cosmetic: bool, quality: int, scoreType: Option<int>, counted: bool,
    loadoutSlot: int, weaponKey: string, generation: Option<string>)

  datatype ManifestPlayer = ManifestPlayer(steamId: string, playerId: string, items: seq<ManifestItem>)

  /** The counter a kill raises: whose item, which, and which ownership of it. */
  datatype Counter = Counter(playerId: string, assetId: string, generation: string)

  predicate IsDigit(c: char) { '0' <= c <= '9' }

  predicate AllDigits(s: string) {
    forall i :: 0 <= i < |s| ==> IsDigit(s[i])
  }

  function Decimal(s: string): nat
    requires AllDigits(s)
  {
    if s == [] then 0 else Decimal(s[..|s| - 1]) * 10 + (s[|s| - 1] as int - '0' as int)
  }

  predicate IsSteamId(s: string) {
    |s| == 17 && AllDigits(s)
  }

  predicate IsItemId(s: string) {
    1 <= |s| <= 20 && AllDigits(s) && s[0] != '0' && Decimal(s) <= 18_446_744_073_709_551_615
  }

  predicate IsWeaponChar(c: char) {
    'a' <= c <= 'z' || IsDigit(c) || c == '_'
  }

  predicate IsWeapon(s: string) {
    1 <= |s| <= 63 && forall i :: 0 <= i < |s| ==> IsWeaponChar(s[i])
  }

  predicate IsGeneration(s: string) {
    && (s == "0" || (1 <= |s| <= 19 && AllDigits(s) && s[0] != '0'))
    && AllDigits(s) && Decimal(s) <= 9_223_372_036_854_775_807
  }

  const WEAPON_PREFIX: string := "weapon_"

  function BareWeapon(s: string): string {
    if WEAPON_PREFIX <= s then s[|WEAPON_PREFIX|..] else s
  }

  /** The manifest's key for a weapon the server names differently. */
  function SourceKey(weapon: string): string {
    if weapon == "m4a1" then "m4a4" else weapon
  }

  predicate FitsWeapon(item: ManifestItem, weapon: string) {
    if weapon == "knife" || weapon == "knife_t" then item.loadoutSlot == 0 else item.weaponKey == SourceKey(weapon)
  }

  predicate CountsKills(item: ManifestItem) {
    item.b2g && item.cosmetic && item.quality == 9 && item.scoreType == Some(0) && item.counted
  }

  /** A kill of somebody else, with well-formed evidence of an item the attacker owned first. */
  predicate EvidenceOk(k: Kill) {
    && k.attacker.Text? && IsSteamId(k.attacker.s)
    && k.victim.Text? && (k.victim.s == "" || IsSteamId(k.victim.s)) && k.victim.s != k.attacker.s
    && k.itemId.Text? && IsItemId(k.itemId.s)
    && k.originalOwner == k.attacker
    && k.weapon.Text? && IsWeapon(k.weapon.s)
  }

  function FindPlayer(players: seq<ManifestPlayer>, steamId: string): Option<ManifestPlayer> {
    if players == [] then None
    else if players[0].steamId == steamId then Some(players[0])
    else FindPlayer(players[1..], steamId)
  }

  function FindItem(items: seq<ManifestItem>, assetId: string, weapon: string): Option<ManifestItem> {
    if items == [] then None
    else if items[0].assetId == assetId && CountsKills(items[0]) && FitsWeapon(items[0], weapon) then Some(items[0])
    else FindItem(items[1..], assetId, weapon)
  }

  /** statTrakAssetForKill; an item without a recorded generation counts as generation "0". */
  function CounterFor(manifest: seq<ManifestPlayer>, k: Kill): Option<Counter> {
    if !EvidenceOk(k) then None
    else
      var player := FindPlayer(manifest, k.attacker.s);
      if player.None? then None
      else
        var item := FindItem(player.value.items, k.itemId.s, BareWeapon(k.weapon.s));
        if item.None? then None
        else
          var generation := item.value.generation.GetOr("0");
          var observed := if k.generation == Missing then Text("0") else k.generation;
          if !observed.Text? || !IsGeneration(generation) || !IsGeneration(observed.s) || generation != observed.s then None
          else Some(Counter(player.value.playerId, item.value.assetId, generation))
  }

  lemma {:induction false} FoundPlayer(players: seq<ManifestPlayer>, steamId: string)
    ensures FindPlayer(players, steamId).Some? <==> exists p :: p in players && p.steamId == steamId
    ensures FindPlayer(players, steamId).Some? ==>
      FindPlayer(players, steamId).value in players && FindPlayer(players, steamId).value.steamId == steamId
  {
    if players != [] {
      FoundPlayer(players[1..], steamId);
      assert players == [players[0]] + players[1..];
    }
  }

  lemma {:induction false} FoundItem(items: seq<ManifestItem>, assetId: string, weapon: string)
    ensures FindItem(items, assetId, weapon).Some? ==>
      var item := FindItem(items, assetId, weapon).value;
      item in items && item.assetId == assetId && CountsKills(item) && FitsWeapon(item, weapon)
  {
    if items != [] {
      FoundItem(items[1..], assetId, weapon);
      assert items == [items[0]] + items[1..];
    }
  }

  /** A kill only ever counts for an item on the attacker's own manifest entry, named by the event, at the observed ownership. */
  lemma CounterIsAttackersOwn(manifest: seq<ManifestPlayer>, k: Kill)
    requires CounterFor(manifest, k).Some?
    ensures var c := CounterFor(manifest, k).value;
      && k.victim != k.attacker
      && c.assetId == k.itemId.s && k.originalOwner == k.attacker
      && c.generation == (if k.generation == Missing then "0" else k.generation.s)
      && exists p, item :: p in manifest && p.steamId == k.attacker.s && p.playerId == c.playerId && item in p.items
           && item.assetId == c.assetId && CountsKills(item) && item.generation.GetOr("0") == c.generation
  {
    FoundPlayer(manifest, k.attacker.s);
    var p := FindPlayer(manifest, k.attacker.s).value;
    FoundItem(p.items, k.itemId.s, BareWeapon(k.weapon.s));
    var item := FindItem(p.items, k.itemId.s, BareWeapon(k.weapon.s)).value;
    assert p in manifest && item in p.items;
  }
}
