/**
 The scripts as Redis runs them: one command after another on the keys, with loops over
 members and ticket ids. Each is proved to do exactly what Queue says in one step.
 */
module RedisScripts {
  import opened Common
  import opened MapVeto
  import Q = Queue
  import opened Queue

  lemma PointOne(pointers: map<string, string>, members: seq<string>, i: nat, t: string)
    requires i < |members|
    ensures Pointed(pointers, members[..i + 1], t) == Pointed(pointers, members[..i], t)[members[i] := t]
  {
    assert members[..i + 1] == members[..i] + [members[i]];
  }

  lemma {:induction false} RemoveOne(maps: seq<string>, next: string, banned: string)
    ensures RemoveFirst(maps + [next], banned)
         == if banned !in maps && next == banned then RemoveFirst(maps, banned) else RemoveFirst(maps, banned) + [next]
  {
    if maps == [] {
      assert RemoveFirst([next], banned) == if next == banned then [] else [next];
    } else {
      assert (maps + [next])[1..] == maps[1..] + [next];
      if maps[0] != banned {
        RemoveOne(maps[1..], next, banned);
      }
    }
  }

  lemma StrikeOne(maps: seq<string>, i: nat, banned: string)
    requires i < |maps|
    ensures RemoveFirst(maps[..i + 1], banned)
         == if banned !in maps[..i] && maps[i] == banned then RemoveFirst(maps[..i], banned) else RemoveFirst(maps[..i], banned) + [maps[i]]
    ensures banned in maps[..i + 1] <==> banned in maps[..i] || maps[i] == banned
  {
    assert maps[..i + 1] == maps[..i] + [maps[i]];
    RemoveOne(maps[..i], maps[i], banned);
  }

  /** All keys of one prefix, by family. */
  class Redis {
    var queue: QueueKeys
    var matches: MatchKeys
    var groups: GroupKeys
    var extras: ExtraKeys

    ghost function View(): Store
      reads this
    {
      Store(queue, matches, groups, extras)
    }

    constructor ()
      ensures View() == EMPTY
    {
      queue, matches, groups, extras := EMPTY.queue, EMPTY.matches, EMPTY.groups, EMPTY.extras;
    }

    // ---- Loops several scripts share ----

    method ClearPointers(members: seq<string>, t: string)
      modifies this`queue
      ensures queue == old(queue).(pointers := Unpointed(old(queue.pointers), members, t))
    {
      var i := 0;
      while i < |members|
        invariant 0 <= i <= |members|
        invariant queue == old(queue).(pointers := Unpointed(old(queue.pointers), members[..i], t))
      {
        var m := members[i];
        assert members[..i + 1] == members[..i] + [m];
        if m in queue.pointers && queue.pointers[m] == t {
          queue := queue.(pointers := queue.pointers - {m});
        }
        i := i + 1;
      }
      assert members[..i] == members;
    }

    method Delete(t: string)
      requires t in queue.tickets
      modifies this`queue
      ensures View() == Drop(old(View()), t)
    {
      var k := queue.tickets[t];
      queue := queue.(tickets := queue.tickets - {t});
      queue := queue.(searching := queue.searching - {t});
      ClearPointers(k.members, t);
      if k.partyId.Some? && k.partyId.value in queue.partyPointers && queue.partyPointers[k.partyId.value] == t {
        queue := queue.(partyPointers := queue.partyPointers - {k.partyId.value});
      }
    }

    method Rewrite(ids: seq<string>, f: Ticket -> Ticket)
      modifies this`queue
      ensures queue == old(queue).(tickets := Patched(old(queue.tickets), ids, f))
    {
      var i := 0;
      while i < |ids|
        invariant 0 <= i <= |ids|
        invariant queue == old(queue).(tickets := queue.tickets)
        invariant Patched(old(queue.tickets), ids, f) == Patched(queue.tickets, ids[i..], f)
      {
        if ids[i] in queue.tickets {
          queue := queue.(tickets := queue.tickets[ids[i] := f(queue.tickets[ids[i]])]);
        }
        i := i + 1;
      }
    }

    // ---- JOIN and LEAVE ----

    method FindRoster(r: JoinRequest) returns (roster: Result<Roster, JoinReply>)
      modifies this`groups
      ensures (View(), roster) == RosterFor(old(View()), r)
    {
      if r.verified.Some? {
        return Ok(Roster(Some(SteamLobby(r.verified.value.partyId)), r.verified.value.leader, r.verified.value.members));
      }
      if r.player !in groups.partyOf {
        return Ok(Roster(None, r.player, [r.player]));
      }
      var id := groups.partyOf[r.player];
      if id !in groups.parties {
        groups := groups.(partyOf := groups.partyOf - {r.player});
        return Ok(Roster(None, r.player, [r.player]));
      }
      var party := groups.parties[id];
      if party.leader != r.player {
        return Err(LeaderRequired);
      }
      var members: seq<string> := [];
      for i := 0 to |party.members|
        invariant members == party.Players()[..i]
        invariant FirstUnready(party.members) == FirstUnready(party.members[i..])
      {
        if !party.members[i].ready {
          return Err(NotReady(party.members[i].player));
        }
        members := members + [party.members[i].player];
      }
      assert members == party.Players();
      return Ok(Roster(Some(RedisParty(id)), party.leader, members));
    }

    method CheckMembers(members: seq<string>, now: int) returns (refusal: Option<JoinReply>)
      modifies this`queue
      ensures (View(), refusal) == Q.CheckMembers(old(View()), members, now)
    {
      var i := 0;
      while i < |members|
        invariant 0 <= i <= |members|
        invariant Q.CheckMembers(old(View()), members, now) == Q.CheckMembers(View(), members[i..], now)
      {
        var m := members[i];
        if m in extras.cooldowns && extras.cooldowns[m] > now {
          return Some(Cooldown(m));
        }
        if m in queue.pointers && queue.pointers[m] in queue.tickets {
          return Some(AlreadyQueued(m));
        }
        queue := queue.(pointers := queue.pointers - {m});
        i := i + 1;
      }
      return None;
    }

    method Write(r: JoinRequest, roster: Roster)
      modifies this`queue
      ensures View() == Enqueue(old(View()), r, roster)
    {
      queue := queue.(fence := queue.fence + 1);
      queue := queue.(tickets := queue.tickets[r.ticketId :=
        Ticket(queue.fence, roster.partyId, roster.leader, roster.members, r.mode, Searching, 0, None, None, None)]);
      queue := queue.(searching := queue.searching[r.ticketId := r.joinedAt]);
      PointAll(roster.members, r.ticketId);
      if roster.partyId.Some? {
        queue := queue.(partyPointers := queue.partyPointers[roster.partyId.value := r.ticketId]);
      }
      queue := queue.(issued := queue.issued[r.ticketId := roster.members]);
    }

    method PointAll(members: seq<string>, t: string)
      modifies this`queue
      ensures queue == old(queue).(pointers := Pointed(old(queue.pointers), members, t))
    {
      var i := 0;
      while i < |members|
        invariant 0 <= i <= |members|
        invariant queue == old(queue).(pointers := Pointed(old(queue.pointers), members[..i], t))
      {
        PointOne(old(queue.pointers), members, i, t);
        queue := queue.(pointers := queue.pointers[members[i] := t]);
        i := i + 1;
      }
      assert members[..i] == members;
    }

    method Join(r: JoinRequest, now: int) returns (reply: JoinReply)
      modifies this`queue, this`groups
      ensures (View(), reply) == Q.Join(old(View()), r, now)
    {
      if r.verified.Some? && !VerifiedPartyOk(r.player, r.verified.value) {
        return InvalidParty;
      }
      if r.player in queue.pointers && queue.pointers[r.player] in queue.tickets {
        return Existing(queue.pointers[r.player]);
      }
      queue := queue.(pointers := queue.pointers - {r.player});
      var roster := FindRoster(r);
      if roster.Err? {
        return roster.error;
      }
      var refusal := CheckMembers(roster.value.members, now);
      if refusal.Some? {
        return refusal.value;
      }
      Write(r, roster.value);
      return Created(r.ticketId);
    }

    method Leave(player: string, kind: LeaveKind) returns (reply: LeaveReply)
      modifies this`queue
      ensures (View(), reply) == Q.Leave(old(View()), player, kind)
    {
      if player !in queue.pointers {
        return Nothing;
      }
      var t := queue.pointers[player];
      if !kind.Plain? && t != kind.ticketId {
        return Nothing;
      }
      if t !in queue.tickets {
        queue := queue.(pointers := queue.pointers - {player});
        return Nothing;
      }
      var k := queue.tickets[t];
      if !kind.Plain? && (k.phase != Searching || (!kind.SessionEnded? && (k.fencingToken != kind.fencingToken || k.mode != Deathmatch))) {
        return Nothing;
      }
      if k.partyId.Some? && k.leader != player && !kind.SessionEnded? {
        return LeaveRefused;
      }
      Delete(t);
      return Removed(t);
    }

    // ---- Deathmatch ----

    method AssignDeathmatch(t: string, fencingToken: nat, a: Assignment) returns (reply: AssignReply)
      modifies this`queue, this`extras
      ensures (View(), reply) == Q.AssignDeathmatch(old(View()), t, fencingToken, a)
    {
      if t !in queue.tickets || queue.tickets[t].fencingToken != fencingToken || queue.tickets[t].phase != Searching
         || queue.tickets[t].mode != Deathmatch {
        return Stale;
      }
      var k := queue.tickets[t];
      k := k.(phase := Assigned, playersFound := a.humanPlayers.GetOr(|k.members|));
      k := k.(readyCheck := None, mapVeto := None, assignment := Some(a));
      queue := queue.(tickets := queue.tickets[t := k]);
      queue := queue.(searching := queue.searching - {t});
      AddPlayers(a.matchId, k.members);
      return Delivered;
    }

    method AddPlayers(matchId: string, members: seq<string>)
      modifies this`extras
      ensures var before := if matchId in old(extras.populations) then old(extras.populations)[matchId] else {};
        extras == old(extras).(populations := old(extras.populations)[matchId := before + Elems(members)])
    {
      var population := if matchId in extras.populations then extras.populations[matchId] else {};
      ghost var before := population;
      for i := 0 to |members|
        invariant population == before + Elems(members[..i])
      {
        assert members[..i + 1] == members[..i] + [members[i]];
        population := population + {members[i]};
      }
      assert members[..|members|] == members;
      extras := extras.(populations := extras.populations[matchId := population]);
    }

    method CompleteDeathmatch(matchId: string, players: seq<string>) returns (cleared: nat)
      modifies this`queue, this`extras
      ensures (View(), cleared) == Q.CompleteDeathmatch(old(View()), matchId, players)
    {
      var seen: set<string> := {};
      cleared := 0;
      var i := 0;
      while i < |players|
        invariant 0 <= i <= |players|
        invariant extras == old(extras)
        invariant var whole, rest := ClearPlayers(old(View()), players, matchId, {}), ClearPlayers(View(), players[i..], matchId, seen);
          whole == (rest.0, rest.1 + cleared)
      {
        var p := players[i];
        if p in queue.pointers && queue.pointers[p] !in seen {
          var t := queue.pointers[p];
          seen := seen + {t};
          if t in queue.tickets && queue.tickets[t].phase == Assigned && queue.tickets[t].assignment.Some?
             && queue.tickets[t].assignment.value.matchId == matchId {
            Delete(t);
            cleared := cleared + 1;
          }
        }
        i := i + 1;
      }
      extras := extras.(populations := extras.populations - {matchId});
    }

    method ReassignMatch(oldMatch: string, a: Assignment, players: seq<string>) returns (count: (nat, nat))
      modifies this`queue
      ensures (View(), count) == Reassigned(old(View()), oldMatch, a, players, {})
    {
      var seen: set<string> := {};
      count := (0, 0);
      var i := 0;
      while i < |players|
        invariant 0 <= i <= |players|
        invariant var whole, rest := Reassigned(old(View()), oldMatch, a, players, {}), Reassigned(View(), oldMatch, a, players[i..], seen);
          whole == (rest.0, (rest.1.0 + count.0, rest.1.1 + count.1))
      {
        var p := players[i];
        if p in queue.pointers && queue.pointers[p] !in seen {
          var t := queue.pointers[p];
          seen := seen + {t};
          if t in queue.tickets && queue.tickets[t].phase == Assigned && queue.tickets[t].assignment.Some?
             && queue.tickets[t].assignment.value.matchId == oldMatch {
            var k := queue.tickets[t];
            queue := queue.(tickets := queue.tickets[t := k.(assignment := Some(a), readyCheck := None)]);
            count := (count.0 + |k.members|, count.1 + 1);
          }
        }
        i := i + 1;
      }
    }

    // ---- Ready checks ----

    method CheckClaims(claims: seq<PlanTicket>) returns (r: Result<nat, ReadyReply>)
      ensures r == Q.CheckClaims(View(), claims, {}, 0)
    {
      var seen: set<string> := {};
      var total: nat := 0;
      var i := 0;
      while i < |claims|
        invariant 0 <= i <= |claims|
        invariant Q.CheckClaims(View(), claims, {}, 0) == Q.CheckClaims(View(), claims[i..], seen, total)
      {
        var c := claims[i];
        if c.id !in queue.tickets || queue.tickets[c.id].fencingToken != c.fencingToken || queue.tickets[c.id].phase != Searching {
          return Err(TicketStale(c.id));
        }
        var members := queue.tickets[c.id].members;
        var twice := SeePlayers(members, seen);
        if twice.Some? {
          return Err(DuplicatePlayer(twice.value));
        }
        seen := seen + Elems(members);
        total := total + |members|;
        i := i + 1;
      }
      return Ok(total);
    }

    static method SeePlayers(members: seq<string>, before: set<string>) returns (twice: Option<string>)
      ensures twice == FirstSeen(members, before)
    {
      var seen := before;
      var i := 0;
      while i < |members|
        invariant 0 <= i <= |members|
        invariant FirstSeen(members, before) == FirstSeen(members[i..], seen)
      {
        if members[i] in seen {
          return Some(members[i]);
        }
        seen := seen + {members[i]};
        i := i + 1;
      }
      return None;
    }

    method CreateReadyCheck(plan: ReadyPlan, now: int) returns (reply: ReadyReply)
      modifies this`queue, this`matches
      ensures (View(), reply) == Q.CreateReadyCheck(old(View()), plan, now)
    {
      if !PlanOk(plan) {
        return BadPlan;
      }
      var ready := ReadyFor(plan, now);
      var checked := CheckClaims(plan.tickets);
      if checked.Err? {
        return checked.error;
      }
      if checked.value != ready.state.totalPlayers {
        return WrongSize;
      }
      matches := matches.(ready := matches.ready[plan.matchId := ready]);
      matches := matches.(readyDeadlines := matches.readyDeadlines[plan.matchId := ready.expiresAtMs]);
      matches := matches.(origins := matches.origins[plan.matchId := Origin(ready.veto, plan.region)]);
      Rewrite(ready.ticketIds, EnterReady(ready.state));
      EndSearch(ready.ticketIds);
      return Opened(ready.state);
    }

    method EndSearch(ids: seq<string>)
      modifies this`queue
      ensures queue == old(queue).(searching := old(queue.searching) - Elems(ids))
    {
      for i := 0 to |ids|
        invariant queue == old(queue).(searching := old(queue.searching) - Elems(ids[..i]))
      {
        assert ids[..i + 1] == ids[..i] + [ids[i]];
        queue := queue.(searching := queue.searching - {ids[i]});
      }
      assert ids[..|ids|] == ids;
    }

    method Accept(player: string, matchId: string, now: int, vetoExpiresAt: int) returns (reply: AcceptReply)
      modifies this`queue, this`matches
      ensures (View(), reply) == Q.Accept(old(View()), player, matchId, now, vetoExpiresAt)
    {
      if matchId !in matches.ready {
        return AcceptMissing;
      }
      var ready := matches.ready[matchId];
      if ready.expiresAtMs <= now {
        return AcceptExpired;
      }
      if player !in ready.members {
        return AcceptMissing;
      }
      if player !in ready.state.accepted {
        ready := ready.(state := ready.state.(accepted := ready.state.accepted + [player]));
      }
      var complete := |ready.state.accepted| == ready.state.totalPlayers;
      if complete && ready.veto.Some? {
        var veto := EnterVetoPhase(matchId, ready, now, vetoExpiresAt);
        return AcceptVeto(veto);
      }
      if complete {
        Rewrite(ready.ticketIds, EnterAssigned(ready.state.totalPlayers, ready.assignment));
        Forget(matchId);
        return AcceptAssigned(ready.assignment);
      }
      Rewrite(ready.ticketIds, ShowReady(ready.state));
      matches := matches.(ready := matches.ready[matchId := ready]);
      return AcceptWaiting(ready.state);
    }

    method Forget(matchId: string)
      modifies this`matches
      ensures View() == CloseReady(old(View()), matchId)
    {
      matches := matches.(ready := matches.ready - {matchId});
      matches := matches.(readyDeadlines := matches.readyDeadlines - {matchId});
    }

    method EnterVetoPhase(matchId: string, ready: ReadyRecord, now: int, vetoExpiresAt: int) returns (shown: VetoState)
      requires ready.veto.Some?
      modifies this`queue, this`matches
      ensures View() == CloseReady(StartVeto(old(View()), matchId, ready, now, vetoExpiresAt), matchId)
      ensures shown == OpenVeto(ready.state.matchId, ready.state.region, ready.veto.value, ready.ticketIds, ready.members, now, vetoExpiresAt).state
    {
      var seed := ready.veto.value;
      var allocating := |seed.mapPool| == 1;
      shown := VetoState(ready.state.matchId, ready.state.region, seed.captains, Alpha, seed.mapPool, [],
                         if allocating then Allocating else Active,
                         if allocating then Some(seed.mapPool[0]) else None,
                         if allocating then None else Some(vetoExpiresAt));
      var deadline := now + seed.turnSeconds * 1000;
      var veto := VetoRecord(shown, if allocating then None else Some(deadline), seed.turnSeconds, ready.ticketIds, ready.members);
      matches := matches.(vetoes := matches.vetoes[matchId := veto]);
      if allocating {
        matches := matches.(finalizations := matches.finalizations[matchId := now]);
      } else {
        matches := matches.(vetoDeadlines := matches.vetoDeadlines[matchId := deadline]);
      }
      Rewrite(ready.ticketIds, EnterVeto(ready.state.totalPlayers, shown));
      Forget(matchId);
    }

    // ---- The map veto ----

    static method Strike(maps: seq<string>, banned: string) returns (remaining: seq<string>, found: bool)
      ensures remaining == RemoveFirst(maps, banned) && found == (banned in maps)
    {
      remaining, found := [], false;
      for i := 0 to |maps|
        invariant found == (banned in maps[..i])
        invariant remaining == RemoveFirst(maps[..i], banned)
      {
        StrikeOne(maps, i, banned);
        if maps[i] == banned && !found {
          found := true;
        } else {
          remaining := remaining + [maps[i]];
        }
      }
      assert maps[..|maps|] == maps;
    }

    static method ChooseBan(veto: VetoRecord, player: string, requested: string, now: int, mode: BanMode)
      returns (choice: Result<(string, bool), BanReply>, remaining: seq<string>)
      ensures choice == BanChoice(veto, player, requested, now, mode)
      ensures choice.Ok? ==> remaining == RemoveFirst(veto.state.remaining, choice.value.0)
    {
      var state := veto.state;
      remaining := [];
      if state.status != Active || |state.remaining| <= 1 {
        return Err(NotActive), remaining;
      }
      var map_, automated := requested, false;
      if mode == System || (veto.expiresAtMs.Some? && veto.expiresAtMs.value <= now) {
        if veto.expiresAtMs.None? || veto.expiresAtMs.value > now {
          return Err(StillActive), remaining;
        }
        map_, automated := state.remaining[|state.remaining| - 1], true;
      } else if player != state.captains.Of(state.acting) {
        return Err(Forbidden), remaining;
      }
      var found;
      remaining, found := Strike(state.remaining, map_);
      choice := if found then Ok((map_, automated)) else Err(InvalidMap);
    }

    method BanVetoMap(matchId: string, player: string, requested: string, now: int, nextExpires: int, mode: BanMode)
      returns (reply: BanReply)
      modifies this`queue, this`matches
      ensures (View(), reply) == Q.BanVetoMap(old(View()), matchId, player, requested, now, nextExpires, mode)
    {
      if matchId !in matches.vetoes {
        return Missing;
      }
      var veto := matches.vetoes[matchId];
      var choice, remaining := ChooseBan(veto, player, requested, now, mode);
      if choice.Err? {
        return choice.error;
      }
      veto := WithBan(veto, choice.value.0, choice.value.1, now, nextExpires, remaining);
      var final := |remaining| == 1;
      StoreBan(matchId, veto, final, now);
      return if final then Finalize else Updated;
    }

    static method WithBan(before: VetoRecord, map_: string, automated: bool, now: int, nextExpires: int, remaining: seq<string>)
      returns (veto: VetoRecord)
      requires map_ in before.state.remaining && |before.state.remaining| >= 2
      requires remaining == RemoveFirst(before.state.remaining, map_)
      ensures veto == Banned(before, map_, automated, now, nextExpires)
    {
      var state := before.state;
      var captain := state.captains.Of(state.acting);
      state := state.(bans := state.bans + [Ban(|state.bans| + 1, map_, state.acting, captain, automated, now)]);
      state := state.(remaining := remaining);
      if |remaining| == 1 {
        state := state.(status := Allocating, selectedMap := Some(remaining[0]), expiresAt := None);
        veto := before.(state := state, expiresAtMs := None);
      } else {
        state := state.(acting := Other(state.acting), expiresAt := Some(nextExpires));
        veto := before.(state := state, expiresAtMs := Some(now + before.turnSeconds * 1000));
      }
    }

    method StoreBan(matchId: string, veto: VetoRecord, final: bool, now: int)
      modifies this`queue, this`matches
      ensures View() == FileBan(old(View()), matchId, veto, final, now)
    {
      if final {
        matches := matches.(vetoDeadlines := matches.vetoDeadlines - {matchId});
        matches := matches.(finalizations := matches.finalizations[matchId := now]);
      } else {
        matches := matches.(vetoDeadlines := matches.vetoDeadlines[matchId := now + veto.turnSeconds * 1000]);
      }
      matches := matches.(vetoes := matches.vetoes[matchId := veto]);
      Rewrite(veto.ticketIds, ShowVeto(veto.state));
    }

    method CompleteVeto(matchId: string, a: Assignment) returns (reply: CompleteReply)
      modifies this`queue, this`matches
      ensures (View(), reply) == Q.CompleteVeto(old(View()), matchId, a)
    {
      if matchId !in matches.vetoes {
        return NoVeto;
      }
      var veto := matches.vetoes[matchId];
      if veto.state.status != Allocating || veto.state.selectedMap.None? || veto.state.selectedMap.value != a.map_ {
        return WrongMap;
      }
      var delivered := FinishTickets(veto.ticketIds, a);
      matches := matches.(vetoes := matches.vetoes - {matchId});
      matches := matches.(vetoDeadlines := matches.vetoDeadlines - {matchId});
      matches := matches.(finalizations := matches.finalizations - {matchId});
      return Players(delivered);
    }

    method FinishTickets(ids: seq<string>, a: Assignment) returns (delivered: nat)
      modifies this`queue
      ensures queue == old(queue).(tickets := Patched(old(queue.tickets), ids, FinishVeto(a)))
      ensures delivered == Reached(old(queue.tickets), ids, a)
    {
      delivered := 0;
      var i := 0;
      while i < |ids|
        invariant 0 <= i <= |ids|
        invariant queue == old(queue).(tickets := queue.tickets)
        invariant Patched(old(queue.tickets), ids, FinishVeto(a)) == Patched(queue.tickets, ids[i..], FinishVeto(a))
        invariant Reached(old(queue.tickets), ids, a) == delivered + Reached(queue.tickets, ids[i..], a)
      {
        if ids[i] in queue.tickets {
          var k := queue.tickets[ids[i]];
          if k.phase == VetoPhase {
            queue := queue.(tickets := queue.tickets[ids[i] := k.(phase := Assigned, playersFound := 10, readyCheck := None,
                                                                  mapVeto := None, assignment := Some(a))]);
            delivered := delivered + |k.members|;
          } else {
            assert queue.tickets[ids[i] := k] == queue.tickets;
          }
        }
        i := i + 1;
      }
    }

    // ---- Cancelling a ready check ----

    method Followers(ids: seq<string>) returns (followers: set<string>)
      ensures followers == LobbyFollowers(queue.tickets, ids)
    {
      followers := {};
      var i := 0;
      while i < |ids|
        invariant 0 <= i <= |ids|
        invariant LobbyFollowers(queue.tickets, ids) == followers + LobbyFollowers(queue.tickets, ids[i..])
      {
        if ids[i] in queue.tickets && queue.tickets[ids[i]].partyId.Some? && queue.tickets[ids[i]].partyId.value.SteamLobby? {
          var k := queue.tickets[ids[i]];
          followers := followers + (Elems(k.members) - {k.leader});
        }
        i := i + 1;
      }
    }

    method Penalise(ready: ReadyRecord, followers: set<string>, requester: string, now: int, mode: CancelMode)
      modifies this`extras
      ensures View() == Penalised(old(View()), ready, followers, requester, mode, ready.members, now)
    {
      var members := ready.members;
      var i := 0;
      while i < |members|
        invariant 0 <= i <= |members|
        invariant Penalised(old(View()), ready, followers, requester, mode, members, now)
               == Penalised(View(), ready, followers, requester, mode, members[i..], now)
      {
        var m := members[i];
        assert members[i..] == [m] + members[i + 1..];
        var penalize := (mode == Decline && m == requester) || (mode == Expiry && m !in ready.state.accepted);
        if m in followers {
          penalize := false;
        }
        if penalize {
          extras := extras.(failures := extras.failures[m := (if m in extras.failures then extras.failures[m] else 0) + 1]);
          var count := extras.failures[m];
          var seconds := 30;
          if count == 2 { seconds := 120; }
          if count == 3 { seconds := 600; }
          if count >= 4 { seconds := 1800; }
          extras := extras.(cooldowns := extras.cooldowns[m := now + seconds * 1000]);
        }
        i := i + 1;
      }
    }

    method DeleteAll(ids: seq<string>)
      modifies this`queue
      ensures View() == DropAll(old(View()), ids)
    {
      var i := 0;
      while i < |ids|
        invariant 0 <= i <= |ids|
        invariant DropAll(old(View()), ids) == DropAll(View(), ids[i..])
      {
        if ids[i] in queue.tickets {
          Delete(ids[i]);
        }
        i := i + 1;
      }
    }

    method CancelReadyCheck(matchId: string, requester: string, now: int, mode: CancelMode) returns (reply: CancelReply)
      modifies this
      ensures (View(), reply) == Q.CancelReadyCheck(old(View()), matchId, requester, now, mode)
    {
      if matchId !in matches.ready {
        return CancelMissing;
      }
      var ready := matches.ready[matchId];
      if mode == Expiry && ready.expiresAtMs > now {
        return CancelActive;
      }
      var followers := Followers(ready.ticketIds);
      Penalise(ready, followers, requester, now, mode);
      DeleteAll(ready.ticketIds);
      Forget(matchId);
      extras := extras.(cancellations := extras.cancellations[matchId := (now, mode)]);
      return Cancelled;
    }

    // ---- Party scripts ----

    method CreateParty(player: string, newId: string) returns (reply: PartyReply)
      modifies this`groups
      ensures (View(), reply) == Q.CreateParty(old(View()), player, newId)
    {
      if player in groups.partyOf {
        if groups.partyOf[player] in groups.parties {
          return PartyOk;
        }
        assert (groups.partyOf - {player})[player := newId] == groups.partyOf[player := newId];
        groups := groups.(partyOf := groups.partyOf - {player});
      }
      groups := groups.(parties := groups.parties[newId := Party(player, [Member(player, true)], 1)]);
      groups := groups.(partyOf := groups.partyOf[player := newId]);
      return PartyOk;
    }

    method InviteToParty(player: string, invited: string, inviteId: string) returns (reply: PartyReply)
      modifies this`groups
      ensures (View(), reply) == Q.InviteToParty(old(View()), player, invited, inviteId)
    {
      if player !in groups.partyOf {
        return PartyNotFound;
      }
      var id := groups.partyOf[player];
      if id !in groups.parties {
        groups := groups.(partyOf := groups.partyOf - {player});
        return PartyNotFound;
      }
      var party := groups.parties[id];
      if party.leader != player {
        return PartyLeaderRequired;
      }
      if |party.members| >= MAX_PARTY {
        return PartyFull;
      }
      for i := 0 to |party.members|
        invariant invited !in party.Players()[..i]
      {
        if party.members[i].player == invited {
          assert party.Players()[i] == invited;
          return AlreadyMember;
        }
      }
      assert party.Players()[..|party.members|] == party.Players();
      if invited in groups.partyOf {
        return AlreadyInParty;
      }
      groups := groups.(invites := groups.invites[inviteId := Invite(id, invited)]);
      return PartyOk;
    }

    method AcceptInvite(player: string, inviteId: string) returns (reply: PartyReply)
      modifies this`groups
      ensures (View(), reply) == Q.AcceptInvite(old(View()), player, inviteId)
    {
      if inviteId !in groups.invites || groups.invites[inviteId].invited != player {
        return InviteNotFound;
      }
      if player in groups.partyOf {
        return AlreadyInParty;
      }
      var id := groups.invites[inviteId].partyId;
      if RedisParty(id) in queue.partyPointers {
        return PartyQueued;
      }
      if id !in groups.parties {
        return PartyNotFound;
      }
      var party := groups.parties[id];
      if |party.members| >= MAX_PARTY {
        return PartyFull;
      }
      party := party.(members := party.members + [Member(player, false)]);
      party := party.(version := party.version + 1);
      groups := groups.(parties := groups.parties[id := party]);
      groups := groups.(partyOf := groups.partyOf[player := id]);
      groups := groups.(invites := groups.invites - {inviteId});
      return PartyOk;
    }

    method SetReady(player: string, ready: bool) returns (reply: PartyReply)
      modifies this`groups
      ensures (View(), reply) == Q.SetReady(old(View()), player, ready)
    {
      if player !in groups.partyOf {
        return PartyNotFound;
      }
      var id := groups.partyOf[player];
      if RedisParty(id) in queue.partyPointers {
        return PartyQueued;
      }
      if id !in groups.parties {
        return PartyNotFound;
      }
      var party := groups.parties[id];
      var members, found := MarkReady(party.members, player, ready);
      if !found {
        return PartyNotFound;
      }
      groups := groups.(parties := groups.parties[id := party.(members := members, version := party.version + 1)]);
      return PartyOk;
    }

    static method MarkReady(members: seq<Member>, player: string, ready: bool) returns (marked: seq<Member>, found: bool)
      ensures marked == MarkedReady(members, player, ready)
      ensures forall party: Party :: party.members == members ==> found == (player in party.Players())
    {
      marked, found := members, false;
      for i := 0 to |members|
        invariant |marked| == |members|
        invariant forall j :: 0 <= j < |members| ==>
          marked[j] == if j < i && members[j].player == player then members[j].(ready := ready) else members[j]
        invariant found <==> exists j :: 0 <= j < i && members[j].player == player
      {
        if members[i].player == player {
          marked := marked[i := members[i].(ready := ready)];
          found := true;
        }
      }
      forall party: Party | party.members == members ensures found == (player in party.Players()) {
        forall j | 0 <= j < |members| ensures party.Players()[j] == members[j].player {}
      }
    }

    method TransferLeader(player: string, next: string) returns (reply: PartyReply)
      modifies this`groups
      ensures (View(), reply) == Q.TransferLeader(old(View()), player, next)
    {
      if player !in groups.partyOf {
        return PartyNotFound;
      }
      var id := groups.partyOf[player];
      if RedisParty(id) in queue.partyPointers {
        return PartyQueued;
      }
      if id !in groups.parties {
        return PartyNotFound;
      }
      var party := groups.parties[id];
      if party.leader != player {
        return PartyLeaderRequired;
      }
      if next !in party.Players() {
        return MemberNotFound;
      }
      party := party.(leader := next);
      party := party.(version := party.version + 1);
      groups := groups.(parties := groups.parties[id := party]);
      return PartyOk;
    }

    static lemma WithoutNext(kept: seq<Member>, members: seq<Member>, i: nat, player: string)
      requires i < |members|
      ensures kept + Without(members[i..], player)
           == (if members[i].player == player then kept else kept + [members[i]]) + Without(members[i + 1..], player)
    {
      assert members[i..][1..] == members[i + 1..];
    }

    static method Remaining(members: seq<Member>, player: string) returns (remaining: seq<Member>)
      ensures remaining == Without(members, player)
    {
      remaining := [];
      var i := 0;
      while i < |members|
        invariant 0 <= i <= |members|
        invariant Without(members, player) == remaining + Without(members[i..], player)
      {
        WithoutNext(remaining, members, i, player);
        if members[i].player != player {
          remaining := remaining + [members[i]];
        }
        i := i + 1;
      }
    }

    method LeaveParty(player: string) returns (reply: PartyReply)
      modifies this`groups
      ensures (View(), reply) == Q.LeaveParty(old(View()), player)
    {
      if player !in groups.partyOf {
        return PartyNotFound;
      }
      var id := groups.partyOf[player];
      if RedisParty(id) in queue.partyPointers {
        return PartyQueued;
      }
      if id !in groups.parties {
        groups := groups.(partyOf := groups.partyOf - {player});
        return PartyGone;
      }
      var party := groups.parties[id];
      var remaining := Remaining(party.members, player);
      groups := groups.(partyOf := groups.partyOf - {player});
      if remaining == [] {
        groups := groups.(parties := groups.parties - {id});
        return PartyGone;
      }
      party := party.(members := remaining);
      if party.leader == player {
        party := party.(leader := remaining[0].player);
      }
      party := party.(version := party.version + 1);
      groups := groups.(parties := groups.parties[id := party]);
      return PartyOk;
    }
  }
}
