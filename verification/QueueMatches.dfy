/** The scripts that move matches along - ready check, veto, assignment, cancellation - keep the invariant. */
module QueueMatches {
  import opened Common
  import opened MapVeto
  import opened Queue
  import opened QueueInvariants

  // ---- Rewriting tickets in place ----

  lemma {:induction false} PatchedAt(tickets: Tickets, ids: seq<string>, f: Ticket -> Ticket)
    requires Distinct(ids)
    ensures var after := Patched(tickets, ids, f);
      && after.Keys == tickets.Keys
      && forall t :: t in tickets ==> after[t] == if t in ids then f(tickets[t]) else tickets[t]
    decreases |ids|
  {
    if ids != [] {
      var next := if ids[0] in tickets then tickets[ids[0] := f(tickets[ids[0]])] else tickets;
      assert forall i :: 0 <= i < |ids[1..]| ==> ids[1..][i] == ids[i + 1];
      assert ids[0] !in ids[1..];
      PatchedAt(next, ids[1..], f);
      assert ids == [ids[0]] + ids[1..];
    }
  }

  /** Scripts that rewrite tickets never touch who is in them. */
  ghost predicate SameRosters(a: Tickets, b: Tickets) {
    && a.Keys == b.Keys
    && forall t :: t in a ==> b[t].members == a[t].members && b[t].leader == a[t].leader && b[t].partyId == a[t].partyId
  }

  lemma RewriteKeepsPointers(a: Tickets, b: Tickets, pointers: map<string, string>)
    requires PointersAgree(a, pointers) && SameRosters(a, b)
    ensures PointersAgree(b, pointers)
  {
  }

  lemma RewriteKeepsIssued(a: Tickets, b: Tickets, issued: Issued)
    requires TicketsOk(a, issued) && SameRosters(a, b)
    requires forall t :: t in b ==> ShapeOk(b[t])
    ensures TicketsOk(b, issued)
  {
  }

  lemma RewriteKeepsParties(a: Tickets, b: Tickets, partyPointers: map<PartyId, string>, parties: map<string, Party>)
    requires PartyPointersAgree(a, partyPointers) && RosterFrozen(a, partyPointers, parties) && SameRosters(a, b)
    ensures PartyPointersAgree(b, partyPointers) && RosterFrozen(b, partyPointers, parties)
  {
  }

  /** A rewrite that keeps every ticket well shaped and the search index exact leaves only records and links to check. */
  lemma RewriteKeepsInv(s: Store, d: Store)
    requires Inv(s) && SameRosters(s.queue.tickets, d.queue.tickets)
    requires d.queue.pointers == s.queue.pointers && d.queue.issued == s.queue.issued
    requires d.groups.partyOf == s.groups.partyOf && d.groups.parties == s.groups.parties
    requires d.queue.partyPointers == s.queue.partyPointers
    requires forall t :: t in d.queue.tickets ==> ShapeOk(d.queue.tickets[t])
    requires SearchIndex(d.queue.tickets, d.queue.searching)
    ensures TicketInv(d.queue) && PartyInv(d.queue, d.groups)
  {
    RewriteKeepsPointers(s.queue.tickets, d.queue.tickets, d.queue.pointers);
    RewriteKeepsIssued(s.queue.tickets, d.queue.tickets, d.queue.issued);
    RewriteKeepsParties(s.queue.tickets, d.queue.tickets, d.queue.partyPointers, d.groups.parties);
  }

  // ---- Deathmatch ----

  lemma AssignedLinks(tickets: Tickets, ready: Readies, vetoes: Vetoes, t: string, k: Ticket)
    requires ReadyLinks(tickets, ready) && VetoLinks(tickets, vetoes)
    requires t in tickets && tickets[t].readyCheck.None? && tickets[t].mapVeto.None?
    requires k.readyCheck.None? && k.mapVeto.None?
    ensures ReadyLinks(tickets[t := k], ready) && VetoLinks(tickets[t := k], vetoes)
  {
  }

  lemma AssignedTickets(before: Tickets, after: Tickets, issued: Issued, searching: map<string, int>, t: string)
    requires TicketsOk(before, issued) && SearchIndex(before, searching) && t in before && t in after
    requires after == before[t := after[t]]
    requires after[t].members == before[t].members && after[t].leader == before[t].leader && after[t].partyId == before[t].partyId
    requires after[t].phase == Assigned && after[t].readyCheck.None? && after[t].mapVeto.None? && after[t].assignment.Some?
    ensures SameRosters(before, after) && SearchIndex(after, searching - {t})
    ensures forall u :: u in after ==> ShapeOk(after[u])
  {
    assert ShapeOk(before[t]);
    assert ShapeOk(after[t]);
    forall u | u in after ensures ShapeOk(after[u]) {
      assert u != t ==> ShapeOk(before[u]);
    }
  }

  /** Moving one ticket without ready check or veto to `assigned` keeps the invariant. */
  lemma AssignKeepsInv(s: Store, d: Store, t: string, k: Ticket)
    requires Inv(s) && t in s.queue.tickets && s.queue.tickets[t].readyCheck.None? && s.queue.tickets[t].mapVeto.None?
    requires k.members == s.queue.tickets[t].members && k.leader == s.queue.tickets[t].leader && k.partyId == s.queue.tickets[t].partyId
    requires k.phase == Assigned && k.readyCheck.None? && k.mapVeto.None? && k.assignment.Some?
    requires d == s.(queue := s.queue.(tickets := s.queue.tickets[t := k], searching := s.queue.searching - {t}),
                     extras := s.extras.(populations := d.extras.populations))
    ensures Inv(d)
  {
    AssignedLinks(s.queue.tickets, s.matches.ready, s.matches.vetoes, t, k);
    AssignedTickets(s.queue.tickets, d.queue.tickets, s.queue.issued, s.queue.searching, t);
    RewriteKeepsInv(s, d);
  }

  lemma AssignDeathmatchKeepsInv(s: Store, t: string, fencingToken: nat, a: Assignment)
    requires Inv(s)
    ensures Inv(AssignDeathmatch(s, t, fencingToken, a).0)
  {
    var (d, reply) := AssignDeathmatch(s, t, fencingToken, a);
    if reply.Delivered? {
      assert ShapeOk(s.queue.tickets[t]);
      AssignKeepsInv(s, d, t, d.queue.tickets[t]);
    }
  }

  lemma {:induction false} ReassignedKeepsInv(s: Store, oldMatch: string, a: Assignment, players: seq<string>, seen: set<string>)
    requires Inv(s)
    ensures Inv(Reassigned(s, oldMatch, a, players, seen).0)
    decreases |players|
  {
    if players != [] {
      var p := players[0];
      if p !in s.queue.pointers || s.queue.pointers[p] in seen {
        ReassignedKeepsInv(s, oldMatch, a, players[1..], seen);
      } else {
        var t := s.queue.pointers[p];
        if PlaysIn(s, t, oldMatch) {
          var k := s.queue.tickets[t].(assignment := Some(a), readyCheck := None);
          assert ShapeOk(s.queue.tickets[t]);
          assert s.queue.searching - {t} == s.queue.searching;
          AssignKeepsInv(s, s.(queue := s.queue.(tickets := s.queue.tickets[t := k])), t, k);
          ReassignedKeepsInv(s.(queue := s.queue.(tickets := s.queue.tickets[t := k])), oldMatch, a, players[1..], seen + {t});
        } else {
          ReassignedKeepsInv(s, oldMatch, a, players[1..], seen + {t});
        }
      }
    }
  }

  // ---- CREATE_READY_CHECK ----

  /** The plan was made from tickets the store issued: a ticket's roster never changes, so a snapshot stays true. */
  ghost predicate PlanFromStore(s: Store, tickets: seq<PlanTicket>) {
    forall i :: 0 <= i < |tickets| ==> tickets[i].id in s.queue.issued && s.queue.issued[tickets[i].id] == tickets[i].members
  }

  lemma {:induction false} FirstSeenNone(members: seq<string>, seen: set<string>)
    requires FirstSeen(members, seen).None?
    ensures Distinct(members) && Elems(members) !! seen
  {
    if members != [] {
      FirstSeenNone(members[1..], seen + {members[0]});
      assert forall i :: 0 < i < |members| ==> members[i] == members[1..][i - 1];
      assert forall i :: 0 < i < |members| ==> members[i] in Elems(members[1..]);
      assert Elems(members) == {members[0]} + Elems(members[1..]);
    }
  }

  lemma DistinctConcat(a: seq<string>, b: seq<string>)
    requires Distinct(a) && Distinct(b) && Elems(a) !! Elems(b)
    ensures Distinct(a + b) && Elems(a + b) == Elems(a) + Elems(b)
  {
    assert forall i :: 0 <= i < |a| ==> a[i] in Elems(a);
    assert forall i :: 0 <= i < |b| ==> b[i] in Elems(b);
  }

  /** What a successful claim check establishes. */
  ghost predicate ClaimsHold(s: Store, claims: seq<PlanTicket>) {
    && Distinct(PlanMembers(claims)) && Distinct(PlanIds(claims))
    && forall i :: 0 <= i < |claims| ==>
      && claims[i].id in s.queue.tickets && s.queue.tickets[claims[i].id].phase == Searching
      && claims[i].members != [] && claims[i].members[0] in PlanMembers(claims)
  }

  /** A new claim whose members are unlike all later ones keeps ids and members apart. */
  lemma ClaimsExtend(s: Store, claims: seq<PlanTicket>)
    requires claims != [] && ClaimsHold(s, claims[1..])
    requires TicketsOk(s.queue.tickets, s.queue.issued) && PlanFromStore(s, claims)
    requires claims[0].id in s.queue.tickets && s.queue.tickets[claims[0].id].phase == Searching
    requires Elems(claims[0].members) !! Elems(PlanMembers(claims[1..]))
    ensures ClaimsHold(s, claims)
  {
    var c, rest := claims[0], claims[1..];
    assert ShapeOk(s.queue.tickets[c.id]) && s.queue.tickets[c.id].members == c.members;
    DistinctConcat(c.members, PlanMembers(rest));
    assert PlanMembers(claims) == c.members + PlanMembers(rest);
    forall i | 0 < i < |claims|
      ensures claims[i].id != c.id && claims[i] == rest[i - 1]
    {
      assert claims[i] == rest[i - 1];
      var first := rest[i - 1].members[0];
      assert first in Elems(PlanMembers(rest)) && first !in Elems(c.members);
    }
    assert PlanIds(claims) == [c.id] + PlanIds(rest);
    assert c.members[0] in PlanMembers(claims);
  }

  lemma {:induction false} ClaimsSound(s: Store, claims: seq<PlanTicket>, seen: set<string>, total: nat)
    requires TicketsOk(s.queue.tickets, s.queue.issued) && PlanFromStore(s, claims)
    requires CheckClaims(s, claims, seen, total).Ok?
    ensures ClaimsHold(s, claims) && Elems(PlanMembers(claims)) !! seen
    ensures CheckClaims(s, claims, seen, total).value == total + |PlanMembers(claims)|
    decreases |claims|
  {
    if claims != [] {
      var c, rest := claims[0], claims[1..];
      var members := s.queue.tickets[c.id].members;
      assert members == c.members;
      FirstSeenNone(members, seen);
      assert PlanFromStore(s, rest) by { assert forall i :: 0 <= i < |rest| ==> rest[i] == claims[i + 1]; }
      ClaimsSound(s, rest, seen + Elems(members), total + |members|);
      ClaimsExtend(s, claims);
      assert Elems(PlanMembers(claims)) == Elems(members) + Elems(PlanMembers(rest));
    }
  }

  lemma {:induction false} PlanRosters(s: Store, tickets: seq<PlanTicket>)
    requires PlanFromStore(s, tickets)
    ensures Rosters(s.queue.issued, PlanIds(tickets)) == PlanMembers(tickets)
    ensures Elems(PlanIds(tickets)) <= s.queue.issued.Keys
  {
    if tickets != [] {
      assert forall i :: 0 <= i < |tickets[1..]| ==> tickets[1..][i] == tickets[i + 1];
      PlanRosters(s, tickets[1..]);
      assert PlanIds(tickets)[1..] == PlanIds(tickets[1..]);
    }
  }

  lemma NewReadyRecord(ready: Readies, deadlines: map<string, int>, issued: Issued, origins: Origins, m: string, r: ReadyRecord)
    requires ReadyIndex(ready, deadlines) && ReadyRecordsOk(ready, issued, origins)
    requires m !in origins && ReadyRecordOk(issued, m, r)
    ensures ReadyIndex(ready[m := r], deadlines[m := r.expiresAtMs])
    ensures ReadyRecordsOk(ready[m := r], issued, origins[m := Origin(r.veto, r.state.region)])
  {
    var after := ready[m := r];
    forall n | n in after ensures ReadyRecordOk(issued, n, after[n]) {
      if n != m { assert ReadyRecordOk(issued, n, ready[n]); }
    }
  }

  lemma NewOrigin(vetoes: Vetoes, issued: Issued, origins: Origins, m: string, o: Origin)
    requires VetoRecordsOk(vetoes, issued, origins) && m !in origins
    ensures VetoRecordsOk(vetoes, issued, origins[m := o]) && m !in vetoes
  {
    forall n | n in vetoes ensures n in origins && VetoRecordOk(issued, n, vetoes[n], origins[m := o][n]) {
      assert VetoRecordOk(issued, n, vetoes[n], origins[n]);
    }
  }

  lemma OpenReadyKeepsRecords(s: Store, ready: ReadyRecord)
    requires RecordInv(s.matches, s.queue.issued) && ready.state.matchId !in s.matches.origins
    requires ReadyRecordOk(s.queue.issued, ready.state.matchId, ready)
    ensures RecordInv(OpenReady(s, ready).matches, OpenReady(s, ready).queue.issued)
  {
    var m := ready.state.matchId;
    NewReadyRecord(s.matches.ready, s.matches.readyDeadlines, s.queue.issued, s.matches.origins, m, ready);
    NewOrigin(s.matches.vetoes, s.queue.issued, s.matches.origins, m, Origin(ready.veto, ready.state.region));
  }

  /** The listed tickets are live and searching. */
  ghost predicate AllSearching(tickets: Tickets, ids: seq<string>) {
    forall t :: t in ids ==> t in tickets && tickets[t].phase == Searching && tickets[t].readyCheck.None? && tickets[t].mapVeto.None?
  }

  lemma EnterReadyTickets(tickets: Tickets, issued: Issued, searching: map<string, int>, ids: seq<string>, state: ReadyState)
    requires TicketsOk(tickets, issued) && SearchIndex(tickets, searching)
    requires Distinct(ids) && AllSearching(tickets, ids)
    ensures var after := Patched(tickets, ids, EnterReady(state));
      && SameRosters(tickets, after)
      && (forall t :: t in after ==> ShapeOk(after[t]))
      && SearchIndex(after, searching - Elems(ids))
  {
    var after := Patched(tickets, ids, EnterReady(state));
    PatchedAt(tickets, ids, EnterReady(state));
    forall t | t in after ensures ShapeOk(after[t]) { assert ShapeOk(tickets[t]); }
  }

  lemma EnterReadyLinks(tickets: Tickets, ready: Readies, ids: seq<string>, m: string, r: ReadyRecord)
    requires ReadyLinks(tickets, ready) && m !in ready
    requires r.ticketIds == ids && r.state.matchId == m
    requires Distinct(ids) && AllSearching(tickets, ids)
    ensures ReadyLinks(Patched(tickets, ids, EnterReady(r.state)), ready[m := r])
  {
    PatchedAt(tickets, ids, EnterReady(r.state));
  }

  lemma EnterReadyVetoLinks(tickets: Tickets, vetoes: Vetoes, ids: seq<string>, state: ReadyState)
    requires VetoLinks(tickets, vetoes) && Distinct(ids) && AllSearching(tickets, ids)
    ensures VetoLinks(Patched(tickets, ids, EnterReady(state)), vetoes)
  {
    PatchedAt(tickets, ids, EnterReady(state));
  }

  lemma OpenReadyKeepsInv(s: Store, ready: ReadyRecord)
    requires Inv(s) && ready.state.matchId !in s.matches.origins
    requires ReadyRecordOk(s.queue.issued, ready.state.matchId, ready) && AllSearching(s.queue.tickets, ready.ticketIds)
    ensures Inv(OpenReady(s, ready))
  {
    OpenReadyKeepsRecords(s, ready);
    EnterReadyTickets(s.queue.tickets, s.queue.issued, s.queue.searching, ready.ticketIds, ready.state);
    EnterReadyLinks(s.queue.tickets, s.matches.ready, ready.ticketIds, ready.state.matchId, ready);
    EnterReadyVetoLinks(s.queue.tickets, s.matches.vetoes, ready.ticketIds, ready.state);
    RewriteKeepsInv(s, OpenReady(s, ready));
  }

  lemma PlanReady(s: Store, plan: ReadyPlan, now: int)
    requires TicketsOk(s.queue.tickets, s.queue.issued) && PlanFromStore(s, plan.tickets) && PlanOk(plan)
    requires CheckClaims(s, plan.tickets, {}, 0).Ok?
    ensures var ready := ReadyFor(plan, now);
      && ReadyRecordOk(s.queue.issued, plan.matchId, ready)
      && AllSearching(s.queue.tickets, ready.ticketIds)
      && CheckClaims(s, plan.tickets, {}, 0).value == ready.state.totalPlayers
  {
    var ready := ReadyFor(plan, now);
    ClaimsSound(s, plan.tickets, {}, 0);
    PlanRosters(s, plan.tickets);
    forall t | t in ready.ticketIds
      ensures t in s.queue.tickets && s.queue.tickets[t].phase == Searching && s.queue.tickets[t].readyCheck.None? && s.queue.tickets[t].mapVeto.None?
    {
      var i :| 0 <= i < |ready.ticketIds| && ready.ticketIds[i] == t;
      assert t == plan.tickets[i].id;
      assert ShapeOk(s.queue.tickets[t]);
    }
  }

  lemma CreateReadyCheckKeepsInv(s: Store, plan: ReadyPlan, now: int)
    requires Inv(s) && plan.matchId !in s.matches.origins && PlanFromStore(s, plan.tickets)
    ensures Inv(CreateReadyCheck(s, plan, now).0)
  {
    if CreateReadyCheck(s, plan, now).1.Opened? {
      PlanReady(s, plan, now);
      OpenReadyKeepsInv(s, ReadyFor(plan, now));
    }
  }
}
