/** The captain map veto: the record a ready check opens, and the ban step. */
module MapVeto {
  import opened Common

  datatype Team = Alpha | Bravo

  datatype Captains = Captains(alpha: string, bravo: string) {
    function Of(team: Team): string {
      if team == Alpha then alpha else bravo
    }
  }

  datatype Ban = Ban(sequence: nat, map_: string, team: Team, captain: string, automated: bool, createdAt: int)

  datatype Status = Active | Allocating

  /** What players see; every ticket of the match carries a copy. */
  datatype VetoState = VetoState(
    matchId: string, region: string, captains: Captains, acting: Team,
    remaining: seq<string>, bans: seq<Ban>, status: Status,
    selectedMap: Option<string>, expiresAt: Option<int>)

  /** The stored record: the public state and the private bookkeeping. */
  datatype VetoRecord = VetoRecord(
    state: VetoState, expiresAtMs: Option<int>, turnSeconds: int,
    ticketIds: seq<string>, members: seq<string>)

  datatype VetoSeed = VetoSeed(captains: Captains, mapPool: seq<string>, turnSeconds: int)

  datatype BanMode = Manual | System

  datatype BanReply = Missing | NotActive | StillActive | Forbidden | InvalidMap | Updated | Finalize

  function Other(team: Team): Team {
    if team == Alpha then Bravo else Alpha
  }

  /** The team whose turn the ban at position i is: alpha opens, then they alternate. */
  function TeamAt(i: nat): Team {
    if i % 2 == 0 then Alpha else Bravo
  }

  function BanMaps(bans: seq<Ban>): seq<string> {
    seq(|bans|, i requires 0 <= i < |bans| => bans[i].map_)
  }

  /** The list without its first occurrence of x. */
  function RemoveFirst(s: seq<string>, x: string): (r: seq<string>)
    ensures multiset(r) == multiset(s) - multiset{x}
    ensures |r| == if x in s then |s| - 1 else |s|
  {
    if s == [] then []
    else
      assert s == [s[0]] + s[1..];
      if s[0] == x then s[1..] else [s[0]] + RemoveFirst(s[1..], x)
  }

  /** The veto a completed ready check opens; a pool of one map is decided at once. */
  function OpenVeto(matchId: string, region: string, seed: VetoSeed, ticketIds: seq<string>,
                    members: seq<string>, now: int, vetoExpiresAt: int): VetoRecord
  {
    var allocating := |seed.mapPool| == 1;
    VetoRecord(
      VetoState(matchId, region, seed.captains, Alpha, seed.mapPool, [],
                if allocating then Allocating else Active,
                if allocating then Some(seed.mapPool[0]) else None,
                if allocating then None else Some(vetoExpiresAt)),
      if allocating then None else Some(now + seed.turnSeconds * 1000),
      seed.turnSeconds, ticketIds, members)
  }

  /** The map a call bans and whether the deadline chose it, or why the call is refused. */
  function BanChoice(v: VetoRecord, player: string, requested: string, now: int, mode: BanMode)
    : (r: Result<(string, bool), BanReply>)
    ensures r.Ok? ==> v.state.status == Active && |v.state.remaining| >= 2 && r.value.0 in v.state.remaining
    ensures r.Err? ==> r.error in {NotActive, StillActive, Forbidden, InvalidMap}
  {
    var s := v.state;
    if s.status != Active || |s.remaining| <= 1 then Err(NotActive)
    else
      var expired := v.expiresAtMs.Some? && v.expiresAtMs.value <= now;
      if mode == System || expired then
        if v.expiresAtMs.None? || v.expiresAtMs.value > now then Err(StillActive)
        else Ok((s.remaining[|s.remaining| - 1], true))
      else if player != s.captains.Of(s.acting) then Err(Forbidden)
      else if requested !in s.remaining then Err(InvalidMap)
      else Ok((requested, false))
  }

  /** One call of the ban script on an existing record. */
  function BanStep(v: VetoRecord, player: string, requested: string, now: int, nextExpires: int, mode: BanMode)
    : (VetoRecord, BanReply)
  {
    match BanChoice(v, player, requested, now, mode)
    case Err(reply) => (v, reply)
    case Ok((map_, automated)) =>
      (Banned(v, map_, automated, now, nextExpires), if |v.state.remaining| == 2 then Finalize else Updated)
  }

  /** The record after a ban that was allowed. */
  function Banned(v: VetoRecord, map_: string, automated: bool, now: int, nextExpires: int): VetoRecord
    requires map_ in v.state.remaining && |v.state.remaining| >= 2
  {
    var s := v.state;
    var remaining := RemoveFirst(s.remaining, map_);
    var bans := s.bans + [Ban(|s.bans| + 1, map_, s.acting, s.captains.Of(s.acting), automated, now)];
    if |remaining| == 1 then
      v.(state := s.(remaining := remaining, bans := bans, status := Allocating,
                     selectedMap := Some(remaining[0]), expiresAt := None),
         expiresAtMs := None)
    else
      v.(state := s.(remaining := remaining, bans := bans, acting := Other(s.acting), expiresAt := Some(nextExpires)),
         expiresAtMs := Some(now + v.turnSeconds * 1000))
  }

  /** v is a stage of the veto that `seed` opened: nothing lost, nothing invented, turns in order. */
  ghost predicate StageOf(v: VetoRecord, seed: VetoSeed, matchId: string, region: string) {
    var s := v.state;
    && Distinct(seed.mapPool)
    && s.matchId == matchId && s.region == region && s.captains == seed.captains
    && v.turnSeconds == seed.turnSeconds
    && |s.remaining| >= 1
    && multiset(s.remaining) + multiset(BanMaps(s.bans)) == multiset(seed.mapPool)
    && (forall i :: 0 <= i < |s.bans| ==>
          && s.bans[i].sequence == i + 1
          && s.bans[i].team == TeamAt(i)
          && s.bans[i].captain == seed.captains.Of(TeamAt(i)))
    && (s.status == Allocating <==> |s.remaining| == 1)
    && (s.status == Active ==> s.acting == TeamAt(|s.bans|) && s.selectedMap == None
                               && s.expiresAt.Some? && v.expiresAtMs.Some?)
    && (s.status == Allocating ==> s.selectedMap == Some(s.remaining[0]) && s.expiresAt == None && v.expiresAtMs == None)
  }

  lemma OpenIsStage(matchId: string, region: string, seed: VetoSeed, ticketIds: seq<string>,
                    members: seq<string>, now: int, vetoExpiresAt: int)
    requires seed.mapPool != [] && Distinct(seed.mapPool)
    ensures StageOf(OpenVeto(matchId, region, seed, ticketIds, members, now, vetoExpiresAt), seed, matchId, region)
  {
    assert BanMaps([]) == [];
  }

  lemma MoveOne(a: multiset<string>, b: multiset<string>, x: string)
    requires x in a
    ensures (a - multiset{x}) + (b + multiset{x}) == a + b
  {
  }

  /** Banning a map moves it from the remaining list to the bans; together they stay the pool. */
  lemma BannedMaps(v: VetoRecord, map_: string, automated: bool, now: int, nextExpires: int)
    requires map_ in v.state.remaining && |v.state.remaining| >= 2
    ensures var w := Banned(v, map_, automated, now, nextExpires);
      && |w.state.remaining| == |v.state.remaining| - 1
      && multiset(w.state.remaining) + multiset(BanMaps(w.state.bans))
         == multiset(v.state.remaining) + multiset(BanMaps(v.state.bans))
  {
    var w := Banned(v, map_, automated, now, nextExpires);
    var old_ := BanMaps(v.state.bans);
    assert BanMaps(w.state.bans) == old_ + [map_];
    assert multiset(old_ + [map_]) == multiset(old_) + multiset{map_};
    assert map_ in multiset(v.state.remaining);
    MoveOne(multiset(v.state.remaining), multiset(old_), map_);
  }

  /** A ban keeps every clause of the veto and adds exactly one ban. */
  lemma BannedKeepsStage(v: VetoRecord, seed: VetoSeed, matchId: string, region: string,
                         map_: string, automated: bool, now: int, nextExpires: int)
    requires StageOf(v, seed, matchId, region)
    requires v.state.status == Active && map_ in v.state.remaining
    ensures var w := Banned(v, map_, automated, now, nextExpires);
      StageOf(w, seed, matchId, region) && |w.state.bans| == |v.state.bans| + 1
  {
    BannedMaps(v, map_, automated, now, nextExpires);
    var w := Banned(v, map_, automated, now, nextExpires);
    assert w.state.bans == v.state.bans + [Ban(|v.state.bans| + 1, map_, v.state.acting, seed.captains.Of(v.state.acting), automated, now)];
  }

  lemma BanStepKeepsStage(v: VetoRecord, seed: VetoSeed, matchId: string, region: string,
                          player: string, requested: string, now: int, nextExpires: int, mode: BanMode)
    requires StageOf(v, seed, matchId, region)
    ensures var r := BanStep(v, player, requested, now, nextExpires, mode);
      && StageOf(r.0, seed, matchId, region)
      && (r.1.Updated? ==> v.state.status == Active && r.0.state.status == Active
                           && |r.0.state.bans| == |v.state.bans| + 1)
      && (r.1.Finalize? ==> v.state.status == Active && r.0.state.status == Allocating
                            && |r.0.state.bans| == |v.state.bans| + 1)
  {
    var choice := BanChoice(v, player, requested, now, mode);
    if choice.Ok? {
      var (map_, automated) := choice.value;
      BannedKeepsStage(v, seed, matchId, region, map_, automated, now, nextExpires);
      BannedMaps(v, map_, automated, now, nextExpires);
    }
  }

  /** At every stage, banned and remaining maps split the pool: no map in both, none twice. */
  lemma StagePartitionsPool(v: VetoRecord, seed: VetoSeed, matchId: string, region: string)
    requires StageOf(v, seed, matchId, region)
    ensures Distinct(v.state.remaining) && Distinct(BanMaps(v.state.bans))
    ensures Elems(v.state.remaining) !! Elems(BanMaps(v.state.bans))
    ensures Elems(v.state.remaining) + Elems(BanMaps(v.state.bans)) == Elems(seed.mapPool)
    ensures |v.state.remaining| + |v.state.bans| == |seed.mapPool|
    ensures v.state.status == Allocating <==> |v.state.bans| == |seed.mapPool| - 1
  {
    var rem, banned := v.state.remaining, BanMaps(v.state.bans);
    DistinctMultiset(seed.mapPool);
    DistinctMultiset(rem);
    DistinctMultiset(banned);
    assert forall x :: multiset(seed.mapPool)[x] == multiset(rem)[x] + multiset(banned)[x];
    forall x | x in rem ensures x !in banned {
      assert x in multiset(rem);
      assert x in banned <==> x in multiset(banned);
    }
    forall x ensures x in Elems(seed.mapPool) <==> x in Elems(rem) + Elems(banned) {
      assert x in seed.mapPool <==> x in multiset(seed.mapPool);
      assert x in rem <==> x in multiset(rem);
      assert x in banned <==> x in multiset(banned);
    }
    assert |multiset(seed.mapPool)| == |multiset(rem)| + |multiset(banned)|;
  }

  /** A ban is always available: to the acting captain before the deadline, to anyone from the deadline on. */
  lemma BanAvailable(v: VetoRecord, seed: VetoSeed, matchId: string, region: string,
                     player: string, requested: string, now: int, nextExpires: int, mode: BanMode)
    requires StageOf(v, seed, matchId, region) && v.state.status == Active
    ensures var r := BanStep(v, player, requested, now, nextExpires, mode).1;
      (r.Updated? || r.Finalize?) <==>
      (v.expiresAtMs.value <= now
       || (mode == Manual && player == seed.captains.Of(TeamAt(|v.state.bans|)) && requested in v.state.remaining))
  {
    assert v.state.remaining[|v.state.remaining| - 1] in v.state.remaining;
  }

  // ---- Runs of the ban script ----

  datatype BanCall = BanCall(player: string, requested: string, now: int, nextExpires: int, mode: BanMode)

  function BanRun(v: VetoRecord, calls: seq<BanCall>): VetoRecord
    decreases |calls|
  {
    if calls == [] then v
    else
      var c := calls[0];
      BanRun(BanStep(v, c.player, c.requested, c.now, c.nextExpires, c.mode).0, calls[1..])
  }

  /** How many calls of the run were allowed bans. */
  function BansMade(v: VetoRecord, calls: seq<BanCall>): nat
    decreases |calls|
  {
    if calls == [] then 0
    else
      var c := calls[0];
      var r := BanStep(v, c.player, c.requested, c.now, c.nextExpires, c.mode);
      (if r.1.Updated? || r.1.Finalize? then 1 else 0) + BansMade(r.0, calls[1..])
  }

  lemma {:induction false} RunKeepsStage(v: VetoRecord, seed: VetoSeed, matchId: string, region: string, calls: seq<BanCall>)
    requires StageOf(v, seed, matchId, region)
    ensures StageOf(BanRun(v, calls), seed, matchId, region)
    ensures |BanRun(v, calls).state.bans| == |v.state.bans| + BansMade(v, calls)
    decreases |calls|
  {
    if calls != [] {
      var c := calls[0];
      BanStepKeepsStage(v, seed, matchId, region, c.player, c.requested, c.now, c.nextExpires, c.mode);
      RunKeepsStage(BanStep(v, c.player, c.requested, c.now, c.nextExpires, c.mode).0, seed, matchId, region, calls[1..]);
    }
  }

  /** Any run from the opening: allocating exactly after |pool| - 1 bans, never more, and the pool stays split. */
  lemma VetoRun(matchId: string, region: string, seed: VetoSeed, ticketIds: seq<string>, members: seq<string>,
                openedAt: int, vetoExpiresAt: int, calls: seq<BanCall>)
    requires seed.mapPool != [] && Distinct(seed.mapPool)
    ensures var v0 := OpenVeto(matchId, region, seed, ticketIds, members, openedAt, vetoExpiresAt);
      var v := BanRun(v0, calls);
      && StageOf(v, seed, matchId, region)
      && |v.state.bans| == BansMade(v0, calls) <= |seed.mapPool| - 1
      && (v.state.status == Allocating <==> BansMade(v0, calls) == |seed.mapPool| - 1)
      && Elems(v.state.remaining) !! Elems(BanMaps(v.state.bans))
      && Elems(v.state.remaining) + Elems(BanMaps(v.state.bans)) == Elems(seed.mapPool)
  {
    var v0 := OpenVeto(matchId, region, seed, ticketIds, members, openedAt, vetoExpiresAt);
    OpenIsStage(matchId, region, seed, ticketIds, members, openedAt, vetoExpiresAt);
    RunKeepsStage(v0, seed, matchId, region, calls);
    StagePartitionsPool(BanRun(v0, calls), seed, matchId, region);
  }
}
