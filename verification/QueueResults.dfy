/** Results about whole operations: clearing a finished match, undoing a join, snapshots that stay true. */
module QueueResults {
  import opened Common
  import opened Queue
  import opened QueueInvariants
  import opened QueueMatches
  import opened QueueRuns

  // ---- A finished deathmatch clears exactly its own tickets ----

  /** Live tickets of the match that list one of the players. */
  ghost function TicketsOf(tickets: Tickets, players: seq<string>, matchId: string): set<string> {
    set t | t in tickets && tickets[t].phase == Assigned && tickets[t].assignment.Some?
            && tickets[t].assignment.value.matchId == matchId
            && exists p :: p in players && p in tickets[t].members
  }

  lemma DropTicketsOf(tickets: Tickets, pointers: map<string, string>, players: seq<string>, matchId: string, t: string)
    requires PointersAgree(tickets, pointers) && players != [] && players[0] in pointers && pointers[players[0]] == t
    ensures t in TicketsOf(tickets, players, matchId) ==>
      TicketsOf(tickets - {t}, players[1..], matchId) == TicketsOf(tickets, players, matchId) - {t}
    ensures t !in TicketsOf(tickets, players, matchId) ==>
      TicketsOf(tickets, players[1..], matchId) == TicketsOf(tickets, players, matchId)
    ensures t in TicketsOf(tickets, players, matchId) <==>
      tickets[t].phase == Assigned && tickets[t].assignment.Some? && tickets[t].assignment.value.matchId == matchId
  {
    assert players == [players[0]] + players[1..];
  }

  lemma SkipTicketsOf(tickets: Tickets, pointers: map<string, string>, players: seq<string>, matchId: string, seen: set<string>)
    requires PointersAgree(tickets, pointers) && players != []
    requires players[0] !in pointers || pointers[players[0]] in seen
    requires seen !! TicketsOf(tickets, players, matchId)
    ensures TicketsOf(tickets, players[1..], matchId) == TicketsOf(tickets, players, matchId)
  {
    assert players == [players[0]] + players[1..];
    forall t | t in TicketsOf(tickets, players, matchId) ensures t in TicketsOf(tickets, players[1..], matchId) {
      var p :| p in players && p in tickets[t].members;
      assert p != players[0];
    }
  }

  lemma MinusOne(tickets: Tickets, hit: set<string>, t: string)
    requires t in hit
    ensures (tickets - {t}) - (hit - {t}) == tickets - hit && |hit| == |hit - {t}| + 1
  {
  }

  /** Whatever order the population is listed in: the match's tickets go, everyone else's stay, each counted once. */
  lemma {:induction false} ClearedExactly(s: Store, players: seq<string>, matchId: string, seen: set<string>)
    requires PointersAgree(s.queue.tickets, s.queue.pointers)
    requires seen !! TicketsOf(s.queue.tickets, players, matchId)
    ensures var hit := TicketsOf(s.queue.tickets, players, matchId);
      var (d, n) := ClearPlayers(s, players, matchId, seen);
      && d.queue.tickets == s.queue.tickets - hit && n == |hit|
      && PointersAgree(d.queue.tickets, d.queue.pointers)
    decreases |players|
  {
    var hit := TicketsOf(s.queue.tickets, players, matchId);
    if players == [] {
      assert hit == {};
    } else if players[0] !in s.queue.pointers || s.queue.pointers[players[0]] in seen {
      SkipTicketsOf(s.queue.tickets, s.queue.pointers, players, matchId, seen);
      ClearedExactly(s, players[1..], matchId, seen);
    } else {
      var t := s.queue.pointers[players[0]];
      DropTicketsOf(s.queue.tickets, s.queue.pointers, players, matchId, t);
      if PlaysIn(s, t, matchId) {
        DropPointers(s.queue.tickets, s.queue.pointers, t);
        MinusOne(s.queue.tickets, hit, t);
        ClearedExactly(Drop(s, t), players[1..], matchId, seen + {t});
      } else {
        ClearedExactly(s, players[1..], matchId, seen + {t});
      }
    }
  }

  /** The pointers a set of live tickets allows are unique, so the listing order cannot show in them either. */
  lemma PointersUnique(tickets: Tickets, p1: map<string, string>, p2: map<string, string>)
    requires PointersAgree(tickets, p1) && PointersAgree(tickets, p2)
    ensures p1 == p2
  {
    assert forall p :: p in p1 ==> p in p2 && p2[p] == p1[p];
    assert forall p :: p in p2 ==> p in p1;
  }

  lemma ClearingIgnoresOrder(s: Store, players1: seq<string>, players2: seq<string>, matchId: string)
    requires PointersAgree(s.queue.tickets, s.queue.pointers) && Elems(players1) == Elems(players2)
    ensures var (d1, n1) := ClearPlayers(s, players1, matchId, {});
      var (d2, n2) := ClearPlayers(s, players2, matchId, {});
      d1.queue.tickets == d2.queue.tickets && d1.queue.pointers == d2.queue.pointers && n1 == n2
  {
    ClearedExactly(s, players1, matchId, {});
    ClearedExactly(s, players2, matchId, {});
    assert forall p :: p in players1 <==> p in Elems(players1);
    assert forall p :: p in players2 <==> p in Elems(players2);
    assert TicketsOf(s.queue.tickets, players1, matchId) == TicketsOf(s.queue.tickets, players2, matchId);
    PointersUnique(ClearPlayers(s, players1, matchId, {}).0.queue.tickets,
                   ClearPlayers(s, players1, matchId, {}).0.queue.pointers,
                   ClearPlayers(s, players2, matchId, {}).0.queue.pointers);
  }

  // ---- Leaving undoes joining ----

  lemma PointedUnpointed(pointers: map<string, string>, members: seq<string>, t: string)
    requires forall p :: p in members ==> p !in pointers
    ensures Unpointed(Pointed(pointers, members, t), members, t) == pointers
  {
  }

  lemma DropUndoesEnqueue(s: Store, r: JoinRequest, ro: Roster)
    requires r.ticketId !in s.queue.tickets && r.ticketId !in s.queue.searching
    requires forall p :: p in ro.members ==> p !in s.queue.pointers
    ensures var d := Enqueue(s, r, ro);
      var keys := if ro.partyId.Some? then s.queue.partyPointers - {ro.partyId.value} else s.queue.partyPointers;
      Drop(d, r.ticketId) == s.(queue := s.queue.(fence := d.queue.fence, issued := d.queue.issued, partyPointers := keys))
  {
    var e := Drop(Enqueue(s, r, ro), r.ticketId);
    PointedUnpointed(s.queue.pointers, ro.members, r.ticketId);
    assert e.queue.tickets == s.queue.tickets;
    assert e.queue.searching == s.queue.searching;
    assert ro.partyId.Some? ==> e.queue.partyPointers == s.queue.partyPointers - {ro.partyId.value};
  }

  /** A queued Redis party's leader holds a ticket pointer, so a leader without one has a free party key. */
  lemma FreePartyKey(q: QueueKeys, g: GroupKeys, id: string)
    requires PointersAgree(q.tickets, q.pointers) && PartyInv(q, g)
    requires id in g.parties && g.parties[id].leader !in q.pointers
    ensures RedisParty(id) !in q.partyPointers
  {
    assert PartySound(g.parties[id]);
  }

  lemma LeaderLeaves(s: Store, r: JoinRequest, ro: Roster)
    requires ro.leader == r.player && ro.leader in ro.members
    ensures var d := Enqueue(s, r, ro);
      Leave(d, r.player, Plain) == (Drop(d, r.ticketId), Removed(r.ticketId))
  {
    assert Enqueue(s, r, ro).queue.pointers[r.player] == r.ticketId;
  }

  /**
   A fresh join followed by the leader's leave restores every key but the fence counter; a verified lobby's own key,
   which the join overwrites, ends up free even if an older ticket held it.
   */
  lemma LeaveUndoesJoin(s: Store, r: JoinRequest, now: int)
    requires Inv(s) && r.ticketId !in s.queue.issued && Join(s, r, now).1.Created?
    ensures var (d, _) := Join(s, r, now);
      var lobby := if r.verified.Some? then {SteamLobby(r.verified.value.partyId)} else {};
      Leave(d, r.player, Plain)
      == (s.(queue := s.queue.(fence := d.queue.fence, issued := d.queue.issued, partyPointers := s.queue.partyPointers - lobby)),
          Removed(r.ticketId))
  {
    var ro := JoinOutcome(s, r, now);
    if ro.partyId.Some? && ro.partyId.value.RedisParty? {
      FreePartyKey(s.queue, s.groups, ro.partyId.value.id);
    }
    LeaderLeaves(s, r, ro);
    DropUndoesEnqueue(s, r, ro);
    LobbyKey(s.queue.partyPointers, r, ro);
  }

  lemma LobbyKey(keys: map<PartyId, string>, r: JoinRequest, ro: Roster)
    requires PartyAsRequested(r, ro)
    requires ro.partyId.Some? && ro.partyId.value.RedisParty? ==> ro.partyId.value !in keys
    ensures (if ro.partyId.Some? then keys - {ro.partyId.value} else keys)
         == keys - if r.verified.Some? then {SteamLobby(r.verified.value.partyId)} else {}
  {
  }

  // ---- Ticket snapshots stay true ----

  lemma JoinIssues(s: Store, r: JoinRequest, now: int, t: string)
    requires r.ticketId !in s.queue.issued && t in s.queue.issued
    ensures t in Join(s, r, now).0.queue.issued && Join(s, r, now).0.queue.issued[t] == s.queue.issued[t]
  {
  }

  lemma TicketStepIssues(s: Store, op: Op, t: string)
    requires Enabled(s, op) && TicketOp(op) && t in s.queue.issued
    ensures t in TicketStep(s, op).queue.issued && TicketStep(s, op).queue.issued[t] == s.queue.issued[t]
  {
    if op.DoJoin? {
      JoinIssues(s, op.request, op.now, t);
    }
  }

  lemma IssuedGrows(s: Store, op: Op, t: string)
    requires Enabled(s, op) && t in s.queue.issued
    ensures t in Apply(s, op).queue.issued && Apply(s, op).queue.issued[t] == s.queue.issued[t]
  {
    if TicketOp(op) {
      TicketStepIssues(s, op, t);
    }
  }

  /** A plan read from the store stays a plan of issued tickets through any run, whoever joins or leaves meanwhile. */
  lemma {:induction false} SnapshotsStayTrue(s: Store, ops: seq<Op>, tickets: seq<PlanTicket>)
    requires ValidRun(s, ops) && PlanFromStore(s, tickets)
    ensures PlanFromStore(Run(s, ops), tickets)
    decreases |ops|
  {
    if ops != [] {
      forall i | 0 <= i < |tickets|
        ensures tickets[i].id in Apply(s, ops[0]).queue.issued && Apply(s, ops[0]).queue.issued[tickets[i].id] == tickets[i].members
      {
        IssuedGrows(s, ops[0], tickets[i].id);
      }
      SnapshotsStayTrue(Apply(s, ops[0]), ops[1..], tickets);
    }
  }
}
