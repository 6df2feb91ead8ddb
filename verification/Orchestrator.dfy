/** Reserving a match from a plan, and checking a finished veto against the reservation. */
module Orchestrator {
  import opened Common
  import opened MapVeto
  import opened Queue
  import opened Ranking
  import opened TeamSearch
  import opened MatchEvaluation

  datatype Side = Playing(team: Team) | FreeForAll

  datatype RosterRow = RosterRow(player: string, side: Side, slot: nat, rating: real)

  /** What the veto check reads of the reserved match. */
  datatype Reserved = Reserved(mapPool: seq<string>, region: string, roster: seq<RosterRow>)

  // ---- Reserving ----

  datatype ReserveError = WrongPlayerCount | NoProvisionalMap | NoTeam(player: string) | PlayerTwice(player: string)

  datatype Slots = Slots(alpha: nat, bravo: nat, ffa: nat) {
    function Of(side: Side): nat {
      match side
      case Playing(Alpha) => alpha
      case Playing(Bravo) => bravo
      case FreeForAll => ffa
    }

    function Next(side: Side): Slots {
      match side
      case Playing(Alpha) => this.(alpha := alpha + 1)
      case Playing(Bravo) => this.(bravo := bravo + 1)
      case FreeForAll => this.(ffa := ffa + 1)
    }
  }

  /** The side of each player; bravo's entries are written after alpha's. */
  function SideOf(plan: MatchPlan): map<string, Side> {
    if plan.mode == Deathmatch then map p | p in MemberIds(plan.tickets) :: FreeForAll
    else (map p | p in plan.alphaIds :: Playing(Alpha)) + (map p | p in plan.bravoIds :: Playing(Bravo))
  }

  function CountSide(rows: seq<RosterRow>, side: Side): nat {
    if rows == [] then 0 else CountSide(rows[..|rows| - 1], side) + (if rows[|rows| - 1].side == side then 1 else 0)
  }

  /** Rows says of each player in turn: its side, and the next free slot of that side. */
  ghost predicate RowsFor(rows: seq<RosterRow>, players: seq<Player>, sides: map<string, Side>) {
    && |rows| == |players|
    && forall i :: 0 <= i < |rows| ==>
         && rows[i].player == players[i].id && rows[i].rating == players[i].rating
         && players[i].id in sides && rows[i].side == sides[players[i].id]
         && rows[i].slot == CountSide(rows[..i], rows[i].side) + 1
  }

  predicate Insertable(players: seq<Player>, sides: map<string, Side>) {
    DistinctPlayers(players) && forall i :: 0 <= i < |players| ==> players[i].id in sides
  }

  function IdsOf(players: seq<Player>): set<string> {
    set p | p in players :: p.id
  }

  /** One more player keeps a roster insertable exactly when it has a side and is new. */
  lemma InsertableStep(players: seq<Player>, i: nat, sides: map<string, Side>)
    requires i < |players| && Insertable(players[..i], sides)
    ensures players[..i + 1] == players[..i] + [players[i]]
    ensures IdsOf(players[..i + 1]) == IdsOf(players[..i]) + {players[i].id}
    ensures Insertable(players[..i + 1], sides) <==> players[i].id in sides && players[i].id !in IdsOf(players[..i])
  {
    var done := players[..i];
    assert players[..i + 1] == done + [players[i]];
    assert forall j :: 0 <= j < i ==> done[j] == players[j] && players[..i + 1][j] == players[j];
    if players[i].id in IdsOf(done) {
      var j :| 0 <= j < i && done[j].id == players[i].id;
      assert players[..i + 1][j].id == players[..i + 1][i].id;
    }
  }

  lemma NotInsertable(players: seq<Player>, i: nat, sides: map<string, Side>)
    requires i < |players| && Insertable(players[..i], sides)
    requires !(players[i].id in sides && players[i].id !in IdsOf(players[..i]))
    ensures !Insertable(players, sides)
  {
    InsertableStep(players, i, sides);
    var next := players[..i + 1];
    if players[i].id in sides {
      var j, k :| 0 <= j < k < |next| && next[j].id == next[k].id;
      assert players[j].id == players[k].id;
    }
  }

  lemma NextSlot(slots: Slots, side: Side)
    ensures forall x :: slots.Next(side).Of(x) == slots.Of(x) + if x == side then 1 else 0
  {
  }

  /** Either the whole roster or nothing: the transaction commits only when every player could be inserted. */
  method InsertRoster(players: seq<Player>, sides: map<string, Side>) returns (r: Result<seq<RosterRow>, ReserveError>)
    ensures r.Ok? <==> Insertable(players, sides)
    ensures r.Ok? ==> RowsFor(r.value, players, sides)
    ensures r.Err? ==> r.error.NoTeam? || r.error.PlayerTwice?
  {
    var rows: seq<RosterRow> := [];
    var inserted: set<string> := {};
    var slots := Slots(0, 0, 0);
    var i := 0;
    while i < |players|
      invariant 0 <= i <= |players|
      invariant RowsFor(rows, players[..i], sides)
      invariant inserted == IdsOf(players[..i])
      invariant forall side :: slots.Of(side) == CountSide(rows, side)
      invariant Insertable(players[..i], sides)
    {
      var player := players[i];
      if player.id !in sides || player.id in inserted {
        NotInsertable(players, i, sides);
        return Err(if player.id !in sides then NoTeam(player.id) else PlayerTwice(player.id));
      }
      InsertableStep(players, i, sides);
      NextSlot(slots, sides[player.id]);
      slots := slots.Next(sides[player.id]);
      inserted := inserted + {player.id};
      rows := Appended(rows, players, i, sides, slots.Of(sides[player.id]));
      i := i + 1;
    }
    assert players[..i] == players;
    r := Ok(rows);
  }

  /** The next player's row in its slot. */
  function Appended(rows: seq<RosterRow>, players: seq<Player>, i: nat, sides: map<string, Side>, slot: nat): (r: seq<RosterRow>)
    requires i < |players| && RowsFor(rows, players[..i], sides) && players[i].id in sides
    requires slot == CountSide(rows, sides[players[i].id]) + 1
    ensures RowsFor(r, players[..i + 1], sides)
    ensures forall side :: CountSide(r, side) == CountSide(rows, side) + if side == sides[players[i].id] then 1 else 0
  {
    var r := rows + [RosterRow(players[i].id, sides[players[i].id], slot, players[i].rating)];
    assert forall k :: 0 <= k <= |rows| ==> r[..k] == rows[..k];
    assert rows[..|rows|] == rows;
    r
  }

  method Reserve(plan: MatchPlan) returns (r: Result<Reserved, ReserveError>)
    ensures r.Ok? <==>
      && |PlayersOf(plan.tickets)| == ExpectedPlayers(plan.mode)
      && plan.map_ in plan.mapPool && Insertable(PlayersOf(plan.tickets), SideOf(plan))
    ensures r.Ok? ==> ReservedFrom(r.value, plan)
  {
    var players := PlayersOf(plan.tickets);
    if |players| != ExpectedPlayers(plan.mode) {
      return Err(WrongPlayerCount);
    }
    if plan.mapPool == [] || plan.map_ !in plan.mapPool {
      return Err(NoProvisionalMap);
    }
    var rows := InsertRoster(players, SideOf(plan));
    if rows.Err? {
      return Err(rows.error);
    }
    return Ok(Reserved(plan.mapPool, plan.region, rows.value));
  }

  ghost predicate ReservedFrom(reserved: Reserved, plan: MatchPlan) {
    && reserved.mapPool == plan.mapPool && reserved.region == plan.region
    && RowsFor(reserved.roster, PlayersOf(plan.tickets), SideOf(plan))
  }

  // ---- Captains ----

  /** Higher rated first, then the smaller id. */
  predicate Outranks(a: Player, b: Player) {
    a.rating > b.rating || (a.rating == b.rating && Before(a.id, b.id))
  }

  function CaptainOf(best: Option<Player>, players: seq<Player>): Option<Player>
    decreases |players|
  {
    if players == [] then best
    else CaptainOf(if best.None? || Outranks(players[0], best.value) then Some(players[0]) else best, players[1..])
  }

  function Among(players: seq<Player>, ids: seq<string>): (r: seq<Player>)
    ensures forall p :: p in r <==> p in players && p.id in ids
  {
    if players == [] then []
    else
      assert players == [players[0]] + players[1..];
      (if players[0].id in ids then [players[0]] else []) + Among(players[1..], ids)
  }

  /** The veto a plan asks for; None where a team has nobody to be captain. */
  function SeedFor(plan: MatchPlan): Option<VetoSeed> {
    var players := PlayersOf(plan.tickets);
    var alpha, bravo := CaptainOf(None, Among(players, plan.alphaIds)), CaptainOf(None, Among(players, plan.bravoIds));
    if alpha.None? || bravo.None? then None
    else Some(VetoSeed(Captains(alpha.value.id, bravo.value.id), plan.mapPool, 30))
  }

  lemma OutranksChain(a: Player, b: Player, c: Player)
    requires !Outranks(b, a) && !Outranks(c, b)
    ensures !Outranks(c, a)
  {
    BeforeTotal(a.id, b.id);
    BeforeTotal(b.id, c.id);
    if Before(a.id, b.id) && Before(b.id, c.id) {
      BeforeTransitive(a.id, b.id, c.id);
    }
    if Before(a.id, c.id) && Before(c.id, a.id) {
      BeforeTransitive(a.id, c.id, a.id);
    }
    BeforeIrreflexive(a.id);
  }

  lemma NotBothOutrank(a: Player, b: Player)
    requires Outranks(a, b)
    ensures !Outranks(b, a)
  {
    if Before(a.id, b.id) && Before(b.id, a.id) {
      BeforeTransitive(a.id, b.id, a.id);
      BeforeIrreflexive(a.id);
    }
  }

  /** The captain is one of the team and nobody on it outranks him. */
  lemma {:induction false} CaptainIsBest(best: Option<Player>, players: seq<Player>)
    ensures CaptainOf(best, players).None? <==> best.None? && players == []
    ensures var c := CaptainOf(best, players);
      c.Some? ==>
        && (c == best || c.value in players)
        && (best.Some? ==> !Outranks(best.value, c.value))
        && forall p :: p in players ==> !Outranks(p, c.value)
    decreases |players|
  {
    if best.Some? {
      BeforeIrreflexive(best.value.id);
    }
    if players != [] {
      var p := players[0];
      var next := if best.None? || Outranks(p, best.value) then Some(p) else best;
      CaptainIsBest(next, players[1..]);
      var c := CaptainOf(next, players[1..]).value;
      BeforeIrreflexive(p.id);
      if best.Some? {
        if Outranks(p, best.value) {
          NotBothOutrank(p, best.value);
          OutranksChain(c, p, best.value);
        } else {
          OutranksChain(c, best.value, p);
        }
      }
      assert players == [p] + players[1..];
    }
  }

  // ---- The check of a finished veto ----

  datatype VetoError = NotComplete | WrongRegion | NoSingleMap | WrongBanCount | WrongCaptains | BadBan

  /** A player's side in the roster; a later row for the same player would win. */
  function RosterSides(roster: seq<RosterRow>): map<string, Side> {
    if roster == [] then map[]
    else RosterSides(roster[..|roster| - 1])[roster[|roster| - 1].player := roster[|roster| - 1].side]
  }

  predicate HasSide(sides: map<string, Side>, player: string, team: Team) {
    player in sides && sides[player] == Playing(team)
  }

  /** One ban for each turn: in order, by the captain whose turn it is, a pool map not selected and not banned before. */
  predicate BansOk(bans: seq<Ban>, captains: Captains, pool: seq<string>, selected: string) {
    && (forall i :: 0 <= i < |bans| ==> BanOk(bans[i], i, captains, pool, selected))
    && Distinct(BanMaps(bans))
  }

  predicate BanOk(ban: Ban, i: nat, captains: Captains, pool: seq<string>, selected: string) {
    && ban.sequence == i + 1 && ban.team == TeamAt(i) && ban.captain == captains.Of(ban.team)
    && ban.map_ in pool && ban.map_ != selected
  }

  /** The first check the veto fails, if any. */
  function VetoProblem(state: VetoState, reserved: Reserved): Option<VetoError> {
    var sides := RosterSides(reserved.roster);
    if state.status != Allocating || state.selectedMap.None? || state.selectedMap.value == "" then Some(NotComplete)
    else if state.region != reserved.region then Some(WrongRegion)
    else if state.remaining != [state.selectedMap.value] || state.selectedMap.value !in reserved.mapPool then Some(NoSingleMap)
    else if |state.bans| != |reserved.mapPool| - 1 then Some(WrongBanCount)
    else if !HasSide(sides, state.captains.alpha, Alpha) || !HasSide(sides, state.captains.bravo, Bravo) then Some(WrongCaptains)
    else if !BansOk(state.bans, state.captains, reserved.mapPool, state.selectedMap.value) then Some(BadBan)
    else None
  }

  method CheckBans(bans: seq<Ban>, captains: Captains, pool: seq<string>, selected: string) returns (ok: bool)
    ensures ok == BansOk(bans, captains, pool, selected)
  {
    var banned: set<string> := {};
    var maps := BanMaps(bans);
    for i := 0 to |bans|
      invariant forall k :: 0 <= k < i ==> BanOk(bans[k], k, captains, pool, selected)
      invariant Distinct(maps[..i]) && banned == Elems(maps[..i])
    {
      var ban := bans[i];
      var expected := if i % 2 == 0 then Alpha else Bravo;
      assert maps[..i + 1] == maps[..i] + [ban.map_];
      if ban.sequence != i + 1 || ban.team != expected || ban.captain != captains.Of(ban.team)
         || ban.map_ !in pool || ban.map_ == selected || ban.map_ in banned {
        if ban.map_ in banned {
          var k :| 0 <= k < i && maps[..i][k] == ban.map_;
          assert maps[k] == maps[i];
        } else {
          assert !BanOk(bans[i], i, captains, pool, selected);
        }
        return false;
      }
      banned := banned + {ban.map_};
    }
    assert maps[..|bans|] == maps;
    return true;
  }

  method ValidateCompletedVeto(state: VetoState, reserved: Reserved) returns (problem: Option<VetoError>)
    ensures problem == VetoProblem(state, reserved)
  {
    if state.status != Allocating || state.selectedMap.None? || state.selectedMap.value == "" {
      return Some(NotComplete);
    }
    if state.region != reserved.region {
      return Some(WrongRegion);
    }
    var selected := state.selectedMap.value;
    if |state.remaining| != 1 || state.remaining[0] != selected || selected !in reserved.mapPool {
      return Some(NoSingleMap);
    }
    if |state.bans| != |reserved.mapPool| - 1 {
      return Some(WrongBanCount);
    }
    var sides := RosterSides(reserved.roster);
    if !HasSide(sides, state.captains.alpha, Alpha) || !HasSide(sides, state.captains.bravo, Bravo) {
      return Some(WrongCaptains);
    }
    var ok := CheckBans(state.bans, state.captains, reserved.mapPool, selected);
    return if ok then None else Some(BadBan);
  }

  // ---- A finished veto passes the check ----

  lemma StageBansOk(v: VetoRecord, seed: VetoSeed, matchId: string, region: string, pool: seq<string>)
    requires StageOf(v, seed, matchId, region) && v.state.status == Allocating
    requires Elems(pool) == Elems(seed.mapPool)
    ensures BansOk(v.state.bans, v.state.captains, pool, v.state.remaining[0])
    ensures v.state.remaining[0] in pool
  {
    StagePartitionsPool(v, seed, matchId, region);
    var maps := BanMaps(v.state.bans);
    assert v.state.remaining[0] in Elems(v.state.remaining);
    assert v.state.remaining[0] in Elems(pool);
    forall i | 0 <= i < |v.state.bans| ensures BanOk(v.state.bans[i], i, v.state.captains, pool, v.state.remaining[0]) {
      assert maps[i] in Elems(maps);
      assert maps[i] in Elems(pool);
    }
  }

  /**
   A veto played to the end from a pool passes against a reservation with the same maps, region and captains'
   sides exactly when the reservation lists no map twice and the selected map has a name.
   */
  lemma FinishedVetoPasses(v: VetoRecord, seed: VetoSeed, matchId: string, region: string, reserved: Reserved)
    requires StageOf(v, seed, matchId, region) && v.state.status == Allocating
    requires reserved.region == region && seed.mapPool == Dedup(reserved.mapPool)
    requires HasSide(RosterSides(reserved.roster), seed.captains.alpha, Alpha)
    requires HasSide(RosterSides(reserved.roster), seed.captains.bravo, Bravo)
    ensures VetoProblem(v.state, reserved).None? <==> Distinct(reserved.mapPool) && v.state.selectedMap != Some("")
  {
    StageBansOk(v, seed, matchId, region, reserved.mapPool);
    StagePartitionsPool(v, seed, matchId, region);
    DedupLength(reserved.mapPool);
  }

  lemma {:induction false} DedupLength(s: seq<string>)
    ensures |Dedup(s)| <= |s|
    ensures |Dedup(s)| == |s| <==> Distinct(s)
  {
    if s != [] {
      DedupLength(s[..|s| - 1]);
      assert s == s[..|s| - 1] + [s[|s| - 1]];
      if Distinct(s) {
        assert Dedup(s) == s;
      } else if Distinct(s[..|s| - 1]) {
        assert Elems(Dedup(s[..|s| - 1])) == Elems(s[..|s| - 1]);
        assert s[|s| - 1] in Elems(s[..|s| - 1]);
      }
    }
  }

  lemma {:induction false} RosterSidesOf(rows: seq<RosterRow>, sides: map<string, Side>)
    requires forall i :: 0 <= i < |rows| ==> rows[i].player in sides && rows[i].side == sides[rows[i].player]
    ensures forall i :: 0 <= i < |rows| ==> rows[i].player in RosterSides(rows)
    ensures forall p :: p in RosterSides(rows) ==> p in sides && RosterSides(rows)[p] == sides[p]
  {
    if rows != [] {
      RosterSidesOf(rows[..|rows| - 1], sides);
    }
  }

  lemma TeamsDisjoint(p: MatchPlan)
    requires TeamsShare(p)
    ensures forall id :: id in p.alphaIds ==> id !in p.bravoIds
    ensures forall id :: id in MemberIds(p.tickets) <==> id in p.alphaIds || id in p.bravoIds
  {
    var all, a, b := multiset(MemberIds(p.tickets)), multiset(p.alphaIds), multiset(p.bravoIds);
    DistinctMultiset(MemberIds(p.tickets));
    forall id ensures id in MemberIds(p.tickets) <==> id in p.alphaIds || id in p.bravoIds {
      assert id in MemberIds(p.tickets) <==> id in all;
      assert all[id] == a[id] + b[id];
      assert id in p.alphaIds <==> id in a;
      assert id in p.bravoIds <==> id in b;
    }
    forall id | id in p.alphaIds ensures id !in p.bravoIds {
      assert id in a && all[id] == a[id] + b[id];
      assert id in p.bravoIds <==> id in b;
    }
  }

  /** A sound plan can always be reserved, and both its teams have a captain. */
  lemma SoundPlanReserves(p: MatchPlan)
    requires p.mode == Competitive && TeamsShare(p) && PoolAgreed(p)
    ensures Insertable(PlayersOf(p.tickets), SideOf(p)) && p.map_ in p.mapPool
    ensures SeedFor(p).Some? && SeedFor(p).value.mapPool == p.mapPool
  {
    TeamsDisjoint(p);
    SidedPlayersInsert(p);
    CaptainSits(p, p.alphaIds);
    CaptainSits(p, p.bravoIds);
  }

  lemma SidedPlayersInsert(p: MatchPlan)
    requires p.mode == Competitive && Distinct(MemberIds(p.tickets))
    requires forall id :: id in MemberIds(p.tickets) ==> id in p.alphaIds || id in p.bravoIds
    ensures Insertable(PlayersOf(p.tickets), SideOf(p))
  {
    var players := PlayersOf(p.tickets);
    assert forall i :: 0 <= i < |players| ==> MemberIds(p.tickets)[i] == players[i].id;
  }

  /** Each captain sits on the team that named him. */
  lemma CaptainsSeated(p: MatchPlan, reserved: Reserved)
    requires p.mode == Competitive && TeamsShare(p) && SeedFor(p).Some?
    requires RowsFor(reserved.roster, PlayersOf(p.tickets), SideOf(p))
    ensures HasSide(RosterSides(reserved.roster), SeedFor(p).value.captains.alpha, Alpha)
    ensures HasSide(RosterSides(reserved.roster), SeedFor(p).value.captains.bravo, Bravo)
  {
    TeamsDisjoint(p);
    SeatOfCaptain(p, reserved, p.alphaIds);
    SeatOfCaptain(p, reserved, p.bravoIds);
    SidesByTeam(p, SeedFor(p).value.captains.alpha);
    SidesByTeam(p, SeedFor(p).value.captains.bravo);
  }

  lemma SidesByTeam(p: MatchPlan, id: string)
    requires p.mode == Competitive && forall x :: x in p.alphaIds ==> x !in p.bravoIds
    ensures id in p.alphaIds ==> HasSide(SideOf(p), id, Alpha)
    ensures id in p.bravoIds ==> HasSide(SideOf(p), id, Bravo)
  {
  }

  lemma SeatOfCaptain(p: MatchPlan, reserved: Reserved, ids: seq<string>)
    requires ids != [] && forall id :: id in ids ==> id in MemberIds(p.tickets)
    requires RowsFor(reserved.roster, PlayersOf(p.tickets), SideOf(p))
    ensures var c := CaptainOf(None, Among(PlayersOf(p.tickets), ids));
      c.Some? && c.value.id in ids
      && c.value.id in RosterSides(reserved.roster) && c.value.id in SideOf(p)
      && RosterSides(reserved.roster)[c.value.id] == SideOf(p)[c.value.id]
  {
    RosterSidesOf(reserved.roster, SideOf(p));
    CaptainSits(p, ids);
    SeatOf(p, reserved, CaptainOf(None, Among(PlayersOf(p.tickets), ids)).value);
  }

  lemma CaptainSits(p: MatchPlan, ids: seq<string>)
    requires ids != [] && forall id :: id in ids ==> id in MemberIds(p.tickets)
    ensures var c := CaptainOf(None, Among(PlayersOf(p.tickets), ids));
      c.Some? && c.value in PlayersOf(p.tickets) && c.value.id in ids
  {
    var players := PlayersOf(p.tickets);
    assert ids[0] in MemberIds(p.tickets);
    var i :| 0 <= i < |players| && players[i].id == ids[0];
    assert players[i] in Among(players, ids);
    CaptainIsBest(None, Among(players, ids));
  }

  lemma SeatOf(p: MatchPlan, reserved: Reserved, c: Player)
    requires RowsFor(reserved.roster, PlayersOf(p.tickets), SideOf(p)) && c in PlayersOf(p.tickets)
    ensures exists i :: 0 <= i < |reserved.roster| && reserved.roster[i].player == c.id
  {
    var i :| 0 <= i < |PlayersOf(p.tickets)| && PlayersOf(p.tickets)[i] == c;
    assert reserved.roster[i].player == c.id;
  }

  lemma DedupKeepsDistinct(s: seq<string>)
    requires Distinct(s)
    ensures Dedup(s) == s
  {
  }

  lemma SelectedIsNamed(p: MatchPlan, seed: VetoSeed, v: VetoRecord, matchId: string)
    requires PoolAgreed(p) && seed.mapPool == p.mapPool
    requires StageOf(v, seed, matchId, p.region) && v.state.status == Allocating
    ensures v.state.selectedMap != Some("")
  {
    StageBansOk(v, seed, matchId, p.region, p.mapPool);
    assert v.state.remaining[0] in MAP_POOL;
  }

  lemma SoundVetoPasses(p: MatchPlan, seed: VetoSeed, reserved: Reserved, v: VetoRecord, matchId: string)
    requires p.mode == Competitive && TeamsShare(p) && PoolAgreed(p) && SeedFor(p) == Some(seed)
    requires ReservedFrom(reserved, p)
    requires StageOf(v, seed, matchId, p.region) && v.state.status == Allocating
    ensures VetoProblem(v.state, reserved).None?
  {
    CaptainsSeated(p, reserved);
    DedupKeepsDistinct(p.mapPool);
    SelectedIsNamed(p, seed, v, matchId);
    FinishedVetoPasses(v, seed, matchId, p.region, reserved);
  }

  /** From the matchmaker's plan to the end of its veto: whatever was banned, the orchestrator accepts the result. */
  lemma MatchedVetoPasses(tickets: seq<SearchTicket>, now: int, elo: real -> real, reserved: Reserved,
                          v: VetoRecord, matchId: string)
    requires EvaluateCompetitive(tickets, now, elo).Some?
    ensures var plan := EvaluateCompetitive(tickets, now, elo).value;
      && Insertable(PlayersOf(plan.tickets), SideOf(plan)) && SeedFor(plan).Some?
      && (ReservedFrom(reserved, plan) && StageOf(v, SeedFor(plan).value, matchId, plan.region) && v.state.status == Allocating ==>
            VetoProblem(v.state, reserved).None?)
  {
    CompetitivePlanSound(tickets, now, elo);
    var plan := EvaluateCompetitive(tickets, now, elo).value;
    SoundPlanReserves(plan);
    var seed := SeedFor(plan).value;
    if ReservedFrom(reserved, plan) && StageOf(v, seed, matchId, plan.region) && v.state.status == Allocating {
      SoundVetoPasses(plan, seed, reserved, v, matchId);
    }
  }

  // ---- Rosters ----

  lemma {:induction false} CountSideGrows(rows: seq<RosterRow>, i: nat, j: nat, side: Side)
    requires i < j <= |rows| && rows[i].side == side
    ensures CountSide(rows[..i], side) < CountSide(rows[..j], side)
    decreases j
  {
    assert rows[..j][..j - 1] == rows[..j - 1];
    if i < j - 1 {
      CountSideGrows(rows, i, j - 1, side);
    }
  }

  /** Slots count up from 1 on each side, so no side hands out a slot twice. */
  lemma SlotsUnique(rows: seq<RosterRow>, players: seq<Player>, sides: map<string, Side>, i: nat, j: nat)
    requires RowsFor(rows, players, sides) && i < j < |rows| && rows[i].side == rows[j].side
    ensures 1 <= rows[i].slot < rows[j].slot
  {
    CountSideGrows(rows, i, j, rows[i].side);
  }
}
