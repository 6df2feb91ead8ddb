/** What every script keeps true of the store. */
module QueueInvariants {
  import opened Common
  import opened MapVeto
  import opened Queue

  type Tickets = map<string, Ticket>
  type Readies = map<string, ReadyRecord>
  type Vetoes = map<string, VetoRecord>
  type Issued = map<string, seq<string>>
  type Origins = map<string, Origin>

  // ---- The invariant, one clause per pair of keys that must agree ----

  /** A player's ticket pointer names t exactly when t is live and lists the player. */
  ghost predicate PointersAgree(tickets: Tickets, pointers: map<string, string>) {
    && (forall p :: p in pointers ==> pointers[p] in tickets && p in tickets[pointers[p]].members)
    && (forall t, p :: t in tickets && p in tickets[t].members ==> p in pointers && pointers[p] == t)
  }

  ghost predicate RosterShape(leader: string, members: seq<string>) {
    Distinct(members) && 1 <= |members| <= MAX_PARTY && leader in members
  }

  /** A ticket carries a ready check, a veto or an assignment exactly as its phase says. */
  ghost predicate ShapeOk(k: Ticket) {
    && RosterShape(k.leader, k.members)
    && (k.readyCheck.Some? <==> k.phase == ReadyPhase)
    && (k.mapVeto.Some? <==> k.phase == VetoPhase)
    && (k.assignment.Some? <==> k.phase == Assigned)
  }

  ghost predicate TicketsOk(tickets: Tickets, issued: Issued) {
    forall t :: t in tickets ==> ShapeOk(tickets[t]) && t in issued && issued[t] == tickets[t].members
  }

  /** The searching set lists exactly the searching tickets. */
  ghost predicate SearchIndex(tickets: Tickets, searching: map<string, int>) {
    forall t :: t in searching <==> t in tickets && tickets[t].phase == Searching
  }

  /** The ready deadlines list exactly the ready records, each under its own deadline. */
  ghost predicate ReadyIndex(ready: Readies, deadlines: map<string, int>) {
    && deadlines.Keys == ready.Keys
    && (forall m :: m in ready ==> deadlines[m] == ready[m].expiresAtMs)
  }

  /** The veto deadlines list exactly the active vetoes, the finalizations exactly the allocating ones. */
  ghost predicate VetoIndex(vetoes: Vetoes, deadlines: map<string, int>, finalizations: map<string, int>) {
    && (forall m :: m in deadlines <==> m in vetoes && vetoes[m].state.status == Active)
    && (forall m :: m in deadlines ==> vetoes[m].expiresAtMs == Some(deadlines[m]))
    && (forall m :: m in finalizations <==> m in vetoes && vetoes[m].state.status == Allocating)
  }

  /** The rosters the listed tickets were issued with, in order. */
  function Rosters(issued: Issued, ids: seq<string>): seq<string> {
    if ids == [] then []
    else (if ids[0] in issued then issued[ids[0]] else []) + Rosters(issued, ids[1..])
  }

  /** The record on its own: acceptances are members, once each, and not yet everyone. */
  ghost predicate ReadyRecordOk(issued: Issued, m: string, r: ReadyRecord) {
    && r.state.matchId == m
    && Distinct(r.ticketIds) && Distinct(r.members) && |r.members| == r.state.totalPlayers
    && Elems(r.ticketIds) <= issued.Keys && r.members == Rosters(issued, r.ticketIds)
    && Distinct(r.state.accepted) && Elems(r.state.accepted) <= Elems(r.members)
    && |r.state.accepted| < r.state.totalPlayers
    && (r.assignment.Some? <==> r.veto.None?)
    && (r.veto.Some? ==> r.veto.value.mapPool != [] && Distinct(r.veto.value.mapPool))
  }

  ghost predicate ReadyRecordsOk(ready: Readies, issued: Issued, origins: Origins) {
    forall m :: m in ready ==>
      && ReadyRecordOk(issued, m, ready[m])
      && m in origins && origins[m] == Origin(ready[m].veto, ready[m].state.region)
  }

  ghost predicate VetoRecordOk(issued: Issued, m: string, v: VetoRecord, origin: Origin) {
    && Distinct(v.ticketIds) && Elems(v.ticketIds) <= issued.Keys
    && origin.seed.Some? && StageOf(v, origin.seed.value, m, origin.region)
  }

  ghost predicate VetoRecordsOk(vetoes: Vetoes, issued: Issued, origins: Origins) {
    forall m :: m in vetoes ==> m in origins && VetoRecordOk(issued, m, vetoes[m], origins[m])
  }

  /** v may stand as match m's veto. */
  ghost predicate VetoFits(v: VetoRecord, issued: Issued, origins: Origins, m: string) {
    VetoRecordsOk(map[m := v], issued, origins)
  }

  lemma FitsAlone(v: VetoRecord, issued: Issued, origins: Origins, m: string)
    ensures VetoFits(v, issued, origins, m) <==> m in origins && VetoRecordOk(issued, m, v, origins[m])
  {
    var alone := map[m := v];
    assert m in alone && alone[m] == v;
  }

  /**
   A ticket's ready-check copy is the public state of the record it names, which lists the
   ticket; and a live ticket that a record lists carries that record's copy.
   */
  ghost predicate ReadyLinks(tickets: Tickets, ready: Readies) {
    && (forall t :: t in tickets && tickets[t].readyCheck.Some? ==>
          var m := tickets[t].readyCheck.value.matchId;
          m in ready && t in ready[m].ticketIds && tickets[t].readyCheck.value == ready[m].state)
    && (forall m, t :: m in ready && t in ready[m].ticketIds && t in tickets ==>
          tickets[t].readyCheck == Some(ready[m].state))
  }

  ghost predicate VetoLinks(tickets: Tickets, vetoes: Vetoes) {
    && (forall t :: t in tickets && tickets[t].mapVeto.Some? ==>
          var m := tickets[t].mapVeto.value.matchId;
          m in vetoes && t in vetoes[m].ticketIds && tickets[t].mapVeto.value == vetoes[m].state)
    && (forall m, t :: m in vetoes && t in vetoes[m].ticketIds && t in tickets ==>
          tickets[t].mapVeto == Some(vetoes[m].state))
  }

  ghost predicate PartySound(party: Party) {
    && 1 <= |party.members| <= MAX_PARTY
    && Distinct(party.Players())
    && party.leader in party.Players()
  }

  /** A player's party pointer names exactly the party that lists the player. */
  ghost predicate PartiesOk(parties: map<string, Party>, partyOf: map<string, string>) {
    && (forall id :: id in parties ==> PartySound(parties[id]))
    && (forall p :: p in partyOf ==> partyOf[p] in parties && p in parties[partyOf[p]].Players())
    && (forall id, p :: id in parties && p in parties[id].Players() ==> p in partyOf && partyOf[p] == id)
  }

  /** A party's ticket pointer names a live ticket of that party, and a live Redis-party ticket is so named. */
  ghost predicate PartyPointersAgree(tickets: Tickets, partyPointers: map<PartyId, string>) {
    && (forall q :: q in partyPointers ==>
          partyPointers[q] in tickets && tickets[partyPointers[q]].partyId == Some(q))
    && (forall t :: t in tickets && tickets[t].partyId.Some? && tickets[t].partyId.value.RedisParty? ==>
          tickets[t].partyId.value in partyPointers && partyPointers[tickets[t].partyId.value] == t)
  }

  /** While a Redis party is queued its members and leader are its ticket's. */
  ghost predicate RosterFrozen(tickets: Tickets, partyPointers: map<PartyId, string>, parties: map<string, Party>) {
    forall id :: RedisParty(id) in partyPointers && partyPointers[RedisParty(id)] in tickets ==>
      && id in parties
      && tickets[partyPointers[RedisParty(id)]].members == parties[id].Players()
      && tickets[partyPointers[RedisParty(id)]].leader == parties[id].leader
  }

  ghost predicate TicketInv(q: QueueKeys) {
    && PointersAgree(q.tickets, q.pointers)
    && TicketsOk(q.tickets, q.issued)
    && SearchIndex(q.tickets, q.searching)
  }

  ghost predicate RecordInv(m: MatchKeys, issued: Issued) {
    && ReadyIndex(m.ready, m.readyDeadlines)
    && VetoIndex(m.vetoes, m.vetoDeadlines, m.finalizations)
    && ReadyRecordsOk(m.ready, issued, m.origins)
    && VetoRecordsOk(m.vetoes, issued, m.origins)
    && m.ready.Keys !! m.vetoes.Keys
  }

  ghost predicate LinkInv(tickets: Tickets, m: MatchKeys) {
    && ReadyLinks(tickets, m.ready)
    && VetoLinks(tickets, m.vetoes)
  }

  ghost predicate PartyInv(q: QueueKeys, g: GroupKeys) {
    && PartiesOk(g.parties, g.partyOf)
    && PartyPointersAgree(q.tickets, q.partyPointers)
    && RosterFrozen(q.tickets, q.partyPointers, g.parties)
  }

  ghost predicate Inv(s: Store) {
    && TicketInv(s.queue)
    && RecordInv(s.matches, s.queue.issued)
    && LinkInv(s.queue.tickets, s.matches)
    && PartyInv(s.queue, s.groups)
  }

  lemma EmptyInv()
    ensures Inv(EMPTY)
  {
  }

  // ---- Removing tickets ----

  lemma DropPointers(tickets: Tickets, pointers: map<string, string>, t: string)
    requires PointersAgree(tickets, pointers) && t in tickets
    ensures PointersAgree(tickets - {t}, Unpointed(pointers, tickets[t].members, t))
  {
  }

  lemma DropPartyPointers(tickets: Tickets, partyPointers: map<PartyId, string>, parties: map<string, Party>, t: string)
    requires PartyPointersAgree(tickets, partyPointers) && t in tickets
    requires RosterFrozen(tickets, partyPointers, parties)
    ensures var q := PartyUnpointed(partyPointers, tickets[t].partyId, t);
      PartyPointersAgree(tickets - {t}, q) && RosterFrozen(tickets - {t}, q, parties)
  {
  }

  /** Fewer live tickets leave every clause about tickets and records true. */
  lemma FewerTickets(s: Store, tickets: Tickets)
    requires Inv(s) && tickets.Keys <= s.queue.tickets.Keys && forall t :: t in tickets ==> tickets[t] == s.queue.tickets[t]
    ensures TicketsOk(tickets, s.queue.issued) && ReadyLinks(tickets, s.matches.ready) && VetoLinks(tickets, s.matches.vetoes)
  {
  }

  lemma DropKeepsInv(s: Store, t: string)
    requires Inv(s) && t in s.queue.tickets
    ensures Inv(Drop(s, t))
  {
    var d := Drop(s, t);
    DropPointers(s.queue.tickets, s.queue.pointers, t);
    DropPartyPointers(s.queue.tickets, s.queue.partyPointers, s.groups.parties, t);
    FewerTickets(s, d.queue.tickets);
  }

  /** Dropping a list of tickets touches nothing but the tickets and the keys that name them. */
  lemma {:induction false} DropAllFrame(s: Store, ids: seq<string>)
    ensures var d := DropAll(s, ids);
      && d == s.(queue := s.queue.(tickets := d.queue.tickets, pointers := d.queue.pointers,
                                       partyPointers := d.queue.partyPointers, searching := d.queue.searching))
      && d.queue.tickets == s.queue.tickets - Elems(ids)
    decreases |ids|
  {
    if ids != [] {
      var s1 := if ids[0] in s.queue.tickets then Drop(s, ids[0]) else s;
      assert s1.queue.tickets == s.queue.tickets - {ids[0]};
      DropAllFrame(s1, ids[1..]);
      assert Elems(ids) == {ids[0]} + Elems(ids[1..]);
    }
  }

  lemma {:induction false} DropAllKeepsInv(s: Store, ids: seq<string>)
    requires Inv(s)
    ensures Inv(DropAll(s, ids))
    decreases |ids|
  {
    if ids != [] {
      if ids[0] in s.queue.tickets { DropKeepsInv(s, ids[0]); }
      DropAllKeepsInv(if ids[0] in s.queue.tickets then Drop(s, ids[0]) else s, ids[1..]);
    }
  }

  /** Leaving drops the ticket the player's pointer names, or changes nothing. */
  lemma LeaveIs(s: Store, player: string, kind: LeaveKind)
    requires PointersAgree(s.queue.tickets, s.queue.pointers)
    ensures var d := Leave(s, player, kind).0;
      || d == s
      || (player in s.queue.pointers && s.queue.pointers[player] in s.queue.tickets && d == Drop(s, s.queue.pointers[player]))
  {
  }

  lemma LeaveKeepsInv(s: Store, player: string, kind: LeaveKind)
    requires Inv(s)
    ensures Inv(Leave(s, player, kind).0)
  {
    LeaveIs(s, player, kind);
    if Leave(s, player, kind).0 != s {
      DropKeepsInv(s, s.queue.pointers[player]);
    }
  }

  lemma {:induction false} ClearPlayersKeepsInv(s: Store, players: seq<string>, matchId: string, seen: set<string>)
    requires Inv(s)
    ensures Inv(ClearPlayers(s, players, matchId, seen).0)
    decreases |players|
  {
    if players != [] {
      var p := players[0];
      if p !in s.queue.pointers || s.queue.pointers[p] in seen {
        ClearPlayersKeepsInv(s, players[1..], matchId, seen);
      } else {
        var t := s.queue.pointers[p];
        if PlaysIn(s, t, matchId) {
          DropKeepsInv(s, t);
          ClearPlayersKeepsInv(Drop(s, t), players[1..], matchId, seen + {t});
        } else {
          ClearPlayersKeepsInv(s, players[1..], matchId, seen + {t});
        }
      }
    }
  }

  // ---- JOIN ----

  /** A roster the join script may enqueue. */
  ghost predicate RosterOk(parties: map<string, Party>, ro: Roster) {
    && RosterShape(ro.leader, ro.members)
    && (ro.partyId.Some? && ro.partyId.value.RedisParty? ==>
          && ro.partyId.value.id in parties
          && ro.members == parties[ro.partyId.value.id].Players()
          && ro.leader == parties[ro.partyId.value.id].leader)
  }

  /** A verified lobby queues under its own key, anyone else under a party's or none. */
  ghost predicate PartyAsRequested(r: JoinRequest, ro: Roster) {
    if r.verified.Some? then ro.partyId == Some(SteamLobby(r.verified.value.partyId))
    else ro.partyId.Some? ==> ro.partyId.value.RedisParty?
  }

  /** With no stale keys about, looking a roster up changes nothing. */
  lemma RosterForIsClean(s: Store, r: JoinRequest)
    requires PartiesOk(s.groups.parties, s.groups.partyOf)
    requires r.verified.Some? ==> VerifiedPartyOk(r.player, r.verified.value)
    ensures var (s1, ro) := RosterFor(s, r);
      && s1 == s
      && (ro.Ok? ==> RosterOk(s.groups.parties, ro.value) && r.player in ro.value.members && ro.value.leader == r.player)
      && (ro.Ok? ==> PartyAsRequested(r, ro.value))
  {
  }

  lemma {:induction false} CheckMembersIsClean(s: Store, members: seq<string>, now: int)
    requires PointersAgree(s.queue.tickets, s.queue.pointers)
    ensures var (s1, refusal) := CheckMembers(s, members, now);
      s1 == s && (refusal.None? ==> forall p :: p in members ==> p !in s.queue.pointers)
    decreases |members|
  {
    if members != [] {
      var m := members[0];
      if !(m in s.extras.cooldowns && s.extras.cooldowns[m] > now) && !(m in s.queue.pointers && s.queue.pointers[m] in s.queue.tickets) {
        assert m !in s.queue.pointers;
        assert s.queue.pointers - {m} == s.queue.pointers;
        assert s.(queue := s.queue.(pointers := s.queue.pointers - {m})) == s;
        CheckMembersIsClean(s, members[1..], now);
        assert members == [m] + members[1..];
      }
    }
  }

  lemma NewTicketPointers(tickets: Tickets, pointers: map<string, string>, t: string, k: Ticket)
    requires PointersAgree(tickets, pointers) && t !in tickets
    requires forall p :: p in k.members ==> p !in pointers
    ensures PointersAgree(tickets[t := k], Pointed(pointers, k.members, t))
  {
    var after, now := tickets[t := k], Pointed(pointers, k.members, t);
    forall u, p | u in after && p in after[u].members ensures p in now && now[p] == u {
      if u != t { assert p in pointers && pointers[p] == u; }
    }
    forall p | p in now ensures now[p] in after && p in after[now[p]].members {
      if p !in k.members { assert p in pointers; }
    }
  }

  lemma {:induction false} RostersGrow(issued: Issued, ids: seq<string>, t: string, members: seq<string>)
    requires Elems(ids) <= issued.Keys && t !in issued
    ensures Rosters(issued[t := members], ids) == Rosters(issued, ids)
  {
    if ids != [] {
      assert ids[0] in Elems(ids) && Elems(ids[1..]) <= Elems(ids);
      RostersGrow(issued, ids[1..], t, members);
    }
  }

  /** Issuing a new ticket id leaves every record as it was, and no record lists the new id. */
  lemma NewTicketRecords(ready: Readies, vetoes: Vetoes, issued: Issued, origins: Origins, t: string, members: seq<string>)
    requires ReadyRecordsOk(ready, issued, origins) && VetoRecordsOk(vetoes, issued, origins) && t !in issued
    ensures ReadyRecordsOk(ready, issued[t := members], origins) && VetoRecordsOk(vetoes, issued[t := members], origins)
    ensures forall m :: m in ready ==> t !in ready[m].ticketIds
    ensures forall m :: m in vetoes ==> t !in vetoes[m].ticketIds
  {
    forall m | m in ready ensures ReadyRecordOk(issued[t := members], m, ready[m]) && t !in ready[m].ticketIds {
      assert ReadyRecordOk(issued, m, ready[m]);
      assert t !in Elems(ready[m].ticketIds);
      RostersGrow(issued, ready[m].ticketIds, t, members);
    }
    forall m | m in vetoes ensures VetoRecordOk(issued[t := members], m, vetoes[m], origins[m]) && t !in vetoes[m].ticketIds {
      assert VetoRecordOk(issued, m, vetoes[m], origins[m]);
      assert t !in Elems(vetoes[m].ticketIds);
    }
  }

  lemma NewTicketParties(s: Store, t: string, k: Ticket, q: Option<PartyId>)
    requires PartyPointersAgree(s.queue.tickets, s.queue.partyPointers) && RosterFrozen(s.queue.tickets, s.queue.partyPointers, s.groups.parties)
    requires PointersAgree(s.queue.tickets, s.queue.pointers)
    requires t !in s.queue.tickets && k.partyId == q && RosterOk(s.groups.parties, Roster(q, k.leader, k.members))
    requires forall p :: p in k.members ==> p !in s.queue.pointers
    ensures var pp := if q.Some? then s.queue.partyPointers[q.value := t] else s.queue.partyPointers;
      PartyPointersAgree(s.queue.tickets[t := k], pp) && RosterFrozen(s.queue.tickets[t := k], pp, s.groups.parties)
  {
    assert k.leader in k.members && k.leader !in s.queue.pointers;
  }

  lemma NewTicketShape(tickets: Tickets, issued: Issued, searching: map<string, int>, t: string, k: Ticket, at: int)
    requires TicketsOk(tickets, issued) && SearchIndex(tickets, searching) && t !in issued
    requires ShapeOk(k) && k.phase == Searching
    ensures t !in tickets
    ensures TicketsOk(tickets[t := k], issued[t := k.members]) && SearchIndex(tickets[t := k], searching[t := at])
  {
    var after := tickets[t := k];
    forall u | u in after ensures ShapeOk(after[u]) {
      assert u != t ==> ShapeOk(tickets[u]);
    }
  }

  lemma EnqueueKeepsTickets(s: Store, r: JoinRequest, ro: Roster)
    requires TicketInv(s.queue) && RosterShape(ro.leader, ro.members)
    requires r.ticketId !in s.queue.issued && forall p :: p in ro.members ==> p !in s.queue.pointers
    ensures TicketInv(Enqueue(s, r, ro).queue)
  {
    var k := Enqueue(s, r, ro).queue.tickets[r.ticketId];
    NewTicketPointers(s.queue.tickets, s.queue.pointers, r.ticketId, k);
    NewTicketShape(s.queue.tickets, s.queue.issued, s.queue.searching, r.ticketId, k, r.joinedAt);
  }

  lemma EnqueueKeepsRecords(s: Store, r: JoinRequest, ro: Roster)
    requires RecordInv(s.matches, s.queue.issued) && r.ticketId !in s.queue.issued
    ensures RecordInv(Enqueue(s, r, ro).matches, Enqueue(s, r, ro).queue.issued)
  {
    NewTicketRecords(s.matches.ready, s.matches.vetoes, s.queue.issued, s.matches.origins, r.ticketId, ro.members);
  }

  lemma EnqueueKeepsLinks(s: Store, r: JoinRequest, ro: Roster)
    requires LinkInv(s.queue.tickets, s.matches) && RecordInv(s.matches, s.queue.issued) && r.ticketId !in s.queue.issued
    ensures LinkInv(Enqueue(s, r, ro).queue.tickets, Enqueue(s, r, ro).matches)
  {
    NewTicketRecords(s.matches.ready, s.matches.vetoes, s.queue.issued, s.matches.origins, r.ticketId, ro.members);
  }

  lemma EnqueueKeepsParties(s: Store, r: JoinRequest, ro: Roster)
    requires PartyInv(s.queue, s.groups) && TicketInv(s.queue) && RosterOk(s.groups.parties, ro) && r.ticketId !in s.queue.issued
    requires forall p :: p in ro.members ==> p !in s.queue.pointers
    ensures PartyInv(Enqueue(s, r, ro).queue, Enqueue(s, r, ro).groups)
  {
    NewTicketParties(s, r.ticketId, Enqueue(s, r, ro).queue.tickets[r.ticketId], ro.partyId);
  }

  lemma EnqueueKeepsInv(s: Store, r: JoinRequest, ro: Roster)
    requires Inv(s) && RosterOk(s.groups.parties, ro)
    requires r.ticketId !in s.queue.issued && forall p :: p in ro.members ==> p !in s.queue.pointers
    ensures Inv(Enqueue(s, r, ro))
  {
    EnqueueKeepsTickets(s, r, ro);
    EnqueueKeepsRecords(s, r, ro);
    EnqueueKeepsLinks(s, r, ro);
    EnqueueKeepsParties(s, r, ro);
  }

  /** The join script when no key is stale: it only checks, then enqueues. */
  function CleanJoin(s: Store, r: JoinRequest, now: int): (Store, JoinReply) {
    match RosterFor(s, r).1
    case Err(reply) => (s, reply)
    case Ok(ro) =>
      match CheckMembers(s, ro.members, now).1
      case Some(reply) => (s, reply)
      case None => (Enqueue(s, r, ro), Created(r.ticketId))
  }

  lemma JoinIsClean(s: Store, r: JoinRequest, now: int)
    requires PointersAgree(s.queue.tickets, s.queue.pointers) && PartiesOk(s.groups.parties, s.groups.partyOf)
    requires r.verified.Some? ==> VerifiedPartyOk(r.player, r.verified.value)
    requires r.player !in s.queue.pointers
    ensures JoinScript(s, r, now) == CleanJoin(s, r, now)
  {
    assert s.(queue := s.queue.(pointers := s.queue.pointers - {r.player})) == s by {
      assert s.queue.pointers - {r.player} == s.queue.pointers;
    }
    RosterForIsClean(s, r);
    if RosterFor(s, r).1.Ok? { CheckMembersIsClean(s, RosterFor(s, r).1.value.members, now); }
  }

  /** A join either changes nothing or enqueues one sound roster led by the requester. */
  lemma JoinOutcome(s: Store, r: JoinRequest, now: int) returns (ro: Roster)
    requires PointersAgree(s.queue.tickets, s.queue.pointers) && PartiesOk(s.groups.parties, s.groups.partyOf)
    ensures var (d, reply) := Join(s, r, now);
      if reply.Created? then
        && RosterOk(s.groups.parties, ro) && (forall p :: p in ro.members ==> p !in s.queue.pointers)
        && r.player == ro.leader && d == Enqueue(s, r, ro)
        && PartyAsRequested(r, ro)
      else d == s
  {
    ro := Roster(None, r.player, [r.player]);
    if (r.verified.None? || VerifiedPartyOk(r.player, r.verified.value)) && r.player !in s.queue.pointers {
      JoinIsClean(s, r, now);
      RosterForIsClean(s, r);
      if RosterFor(s, r).1.Ok? {
        ro := RosterFor(s, r).1.value;
        CheckMembersIsClean(s, ro.members, now);
      }
    }
  }

  lemma JoinKeepsInv(s: Store, r: JoinRequest, now: int)
    requires Inv(s) && r.ticketId !in s.queue.issued
    ensures Inv(Join(s, r, now).0)
  {
    var ro := JoinOutcome(s, r, now);
    if Join(s, r, now).1.Created? { EnqueueKeepsInv(s, r, ro); }
  }
}
