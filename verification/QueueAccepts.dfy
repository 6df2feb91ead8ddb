/** Accepting keeps the invariant, whether others are still missing or the last acceptance opens the veto or assigns. */
module QueueAccepts {
  import opened Common
  import opened MapVeto
  import opened Queue
  import opened QueueInvariants
  import opened QueueMatches

  // ---- ACCEPT: the record ----

  /** Adding an acceptance keeps the record sound, and a full list names every member exactly once. */
  lemma AcceptedRecord(issued: Issued, m: string, r: ReadyRecord, player: string)
    requires ReadyRecordOk(issued, m, r) && player in r.members
    ensures var w := WithAccepted(r, player);
      && Distinct(w.state.accepted) && Elems(w.state.accepted) == Elems(r.state.accepted) + {player}
      && (|w.state.accepted| != w.state.totalPlayers ==> ReadyRecordOk(issued, m, w))
      && (|w.state.accepted| == w.state.totalPlayers <==> Elems(w.state.accepted) == Elems(r.members))
  {
    var w := WithAccepted(r, player);
    if player !in r.state.accepted {
      assert Elems(w.state.accepted) == Elems(r.state.accepted) + {player};
    } else {
      assert player in Elems(r.state.accepted);
    }
    assert player in Elems(r.members);
    DistinctCardinality(w.state.accepted);
    DistinctCardinality(r.members);
    SubsetCardinality(Elems(w.state.accepted), Elems(r.members));
  }

  lemma WaitingRecords(ready: Readies, deadlines: map<string, int>, issued: Issued, origins: Origins, m: string, w: ReadyRecord)
    requires ReadyIndex(ready, deadlines) && ReadyRecordsOk(ready, issued, origins) && m in ready
    requires ReadyRecordOk(issued, m, w) && w.expiresAtMs == ready[m].expiresAtMs
    requires w.veto == ready[m].veto && w.state.region == ready[m].state.region
    ensures ReadyIndex(ready[m := w], deadlines) && ReadyRecordsOk(ready[m := w], issued, origins)
  {
    PutReadyRecord(ready, issued, origins, m, w);
  }

  /** A ready record added or replaced leaves the others as they were. */
  lemma PutReadyRecord(ready: Readies, issued: Issued, origins: Origins, m: string, w: ReadyRecord)
    requires ReadyRecordsOk(ready, issued, origins) && ReadyRecordOk(issued, m, w)
    requires m in origins && origins[m] == Origin(w.veto, w.state.region)
    ensures ReadyRecordsOk(ready[m := w], issued, origins)
  {
    var after := ready[m := w];
    forall n | n in after
      ensures ReadyRecordOk(issued, n, after[n]) && n in origins && origins[n] == Origin(after[n].veto, after[n].state.region)
    {
      if n != m { assert ReadyRecordOk(issued, n, ready[n]); }
    }
  }

  lemma ClosedRecords(ready: Readies, deadlines: map<string, int>, issued: Issued, origins: Origins, m: string)
    requires ReadyIndex(ready, deadlines) && ReadyRecordsOk(ready, issued, origins)
    ensures ReadyIndex(ready - {m}, deadlines - {m}) && ReadyRecordsOk(ready - {m}, issued, origins)
  {
    var after := ready - {m};
    forall n | n in after ensures ReadyRecordOk(issued, n, after[n]) { assert ReadyRecordOk(issued, n, ready[n]); }
  }

  lemma StartedIndex(vetoes: Vetoes, deadlines: map<string, int>, finalizations: map<string, int>, m: string, v: VetoRecord, now: int)
    requires VetoIndex(vetoes, deadlines, finalizations) && m !in vetoes
    requires v.expiresAtMs.Some? <==> v.state.status == Active
    ensures VetoIndex(vetoes[m := v],
                      if v.expiresAtMs.Some? then deadlines[m := v.expiresAtMs.value] else deadlines,
                      if v.state.status == Allocating then finalizations[m := now] else finalizations)
  {
  }

  /** A record added or replaced leaves the others as they were. */
  lemma PutVetoRecord(vetoes: Vetoes, issued: Issued, origins: Origins, m: string, v: VetoRecord)
    requires VetoRecordsOk(vetoes, issued, origins) && VetoFits(v, issued, origins, m)
    ensures VetoRecordsOk(vetoes[m := v], issued, origins)
  {
    var after := vetoes[m := v];
    FitsAlone(v, issued, origins, m);
    forall n | n in after ensures n in origins && VetoRecordOk(issued, n, after[n], origins[n]) {
      if n != m { assert VetoRecordOk(issued, n, vetoes[n], origins[n]); }
    }
  }

  // ---- ACCEPT: the tickets ----

  /** The listed tickets that are live all carry this ready check. */
  ghost predicate AllReady(tickets: Tickets, ids: seq<string>, state: ReadyState) {
    forall t :: t in ids && t in tickets ==> tickets[t].readyCheck == Some(state)
  }

  lemma ShownReady(tickets: Tickets, issued: Issued, searching: map<string, int>, ids: seq<string>, was: ReadyState, state: ReadyState)
    requires TicketsOk(tickets, issued) && SearchIndex(tickets, searching)
    requires Distinct(ids) && AllReady(tickets, ids, was)
    ensures var after := Patched(tickets, ids, ShowReady(state));
      SameRosters(tickets, after) && SearchIndex(after, searching) && forall t :: t in after ==> ShapeOk(after[t])
  {
    var after := Patched(tickets, ids, ShowReady(state));
    PatchedAt(tickets, ids, ShowReady(state));
    forall t | t in after ensures ShapeOk(after[t]) { assert ShapeOk(tickets[t]); }
  }

  lemma ShownReadyLinks(tickets: Tickets, ready: Readies, m: string, w: ReadyRecord)
    requires ReadyLinks(tickets, ready)
    requires m in ready && Distinct(w.ticketIds) && w.ticketIds == ready[m].ticketIds
    requires forall n :: n in ready ==> ready[n].state.matchId == n
    requires w.state.matchId == m
    ensures ReadyLinks(Patched(tickets, w.ticketIds, ShowReady(w.state)), ready[m := w])
  {
    var after, now := Patched(tickets, w.ticketIds, ShowReady(w.state)), ready[m := w];
    PatchedAt(tickets, w.ticketIds, ShowReady(w.state));
    forall n, t | n in now && t in now[n].ticketIds && t in after ensures after[t].readyCheck == Some(now[n].state) {
      if n != m {
        assert tickets[t].readyCheck == Some(ready[n].state);
        assert t !in w.ticketIds;
      }
    }
    forall t | t in after && after[t].readyCheck.Some?
      ensures var n := after[t].readyCheck.value.matchId;
        n in now && t in now[n].ticketIds && after[t].readyCheck.value == now[n].state
    {
      if t !in w.ticketIds { assert tickets[t].readyCheck.value.matchId != m; }
    }
  }

  lemma ShownReadyVetoLinks(tickets: Tickets, vetoes: Vetoes, ids: seq<string>, state: ReadyState)
    requires VetoLinks(tickets, vetoes) && Distinct(ids)
    ensures VetoLinks(Patched(tickets, ids, ShowReady(state)), vetoes)
  {
    PatchedAt(tickets, ids, ShowReady(state));
  }

  lemma EnteredVeto(tickets: Tickets, issued: Issued, searching: map<string, int>, ids: seq<string>, was: ReadyState,
                    total: nat, veto: VetoState)
    requires TicketsOk(tickets, issued) && SearchIndex(tickets, searching)
    requires Distinct(ids) && AllReady(tickets, ids, was)
    ensures var after := Patched(tickets, ids, EnterVeto(total, veto));
      SameRosters(tickets, after) && SearchIndex(after, searching) && forall t :: t in after ==> ShapeOk(after[t])
  {
    var after := Patched(tickets, ids, EnterVeto(total, veto));
    PatchedAt(tickets, ids, EnterVeto(total, veto));
    forall t | t in after ensures ShapeOk(after[t]) { assert ShapeOk(tickets[t]); }
  }

  lemma EnteredAssigned(tickets: Tickets, issued: Issued, searching: map<string, int>, ids: seq<string>, was: ReadyState,
                        total: nat, a: Option<Assignment>)
    requires TicketsOk(tickets, issued) && SearchIndex(tickets, searching) && a.Some?
    requires Distinct(ids) && AllReady(tickets, ids, was)
    ensures var after := Patched(tickets, ids, EnterAssigned(total, a));
      SameRosters(tickets, after) && SearchIndex(after, searching) && forall t :: t in after ==> ShapeOk(after[t])
  {
    var after := Patched(tickets, ids, EnterAssigned(total, a));
    PatchedAt(tickets, ids, EnterAssigned(total, a));
    forall t | t in after ensures ShapeOk(after[t]) { assert ShapeOk(tickets[t]); }
  }

  /** Once no live ticket carries match m's ready check, its record can go. */
  lemma ClosedReadyLinks(tickets: Tickets, after: Tickets, ready: Readies, m: string)
    requires ReadyLinks(tickets, ready) && m in ready
    requires forall n :: n in ready ==> ready[n].state.matchId == n
    requires after.Keys <= tickets.Keys
    requires forall t :: t in after ==> after[t].readyCheck == if t in ready[m].ticketIds then None else tickets[t].readyCheck
    ensures ReadyLinks(after, ready - {m})
  {
    forall n, t | n in ready - {m} && t in (ready - {m})[n].ticketIds && t in after
      ensures after[t].readyCheck == Some(ready[n].state)
    {
      assert tickets[t].readyCheck == Some(ready[n].state);
      assert t !in ready[m].ticketIds;
    }
  }

  lemma EnteredVetoReadyLinks(tickets: Tickets, ready: Readies, m: string, total: nat, v: VetoRecord)
    requires ReadyLinks(tickets, ready) && m in ready && Distinct(v.ticketIds) && v.ticketIds == ready[m].ticketIds
    requires forall n :: n in ready ==> ready[n].state.matchId == n
    ensures ReadyLinks(Patched(tickets, v.ticketIds, EnterVeto(total, v.state)), ready - {m})
  {
    PatchedAt(tickets, v.ticketIds, EnterVeto(total, v.state));
    ClosedReadyLinks(tickets, Patched(tickets, v.ticketIds, EnterVeto(total, v.state)), ready, m);
  }

  lemma EnteredVetoLinks(tickets: Tickets, issued: Issued, vetoes: Vetoes, m: string, total: nat, v: VetoRecord)
    requires TicketsOk(tickets, issued) && VetoLinks(tickets, vetoes)
    requires m !in vetoes && Distinct(v.ticketIds) && v.state.matchId == m
    requires AllInReady(tickets, v.ticketIds)
    ensures VetoLinks(Patched(tickets, v.ticketIds, EnterVeto(total, v.state)), vetoes[m := v])
  {
    PatchedAt(tickets, v.ticketIds, EnterVeto(total, v.state));
    NoVetoYet(tickets, issued, v.ticketIds);
  }

  lemma NoVetoYet(tickets: Tickets, issued: Issued, ids: seq<string>)
    requires TicketsOk(tickets, issued) && AllInReady(tickets, ids)
    ensures forall t :: t in ids && t in tickets ==> tickets[t].mapVeto.None?
  {
    forall t | t in ids && t in tickets
      ensures tickets[t].mapVeto.None?
    {
      assert ShapeOk(tickets[t]);
    }
  }

  ghost predicate AllInReady(tickets: Tickets, ids: seq<string>) {
    forall t :: t in ids && t in tickets ==> tickets[t].readyCheck.Some?
  }

  lemma EnteredAssignedLinks(tickets: Tickets, ready: Readies, vetoes: Vetoes, m: string, total: nat, a: Option<Assignment>)
    requires ReadyLinks(tickets, ready) && VetoLinks(tickets, vetoes)
    requires m in ready && Distinct(ready[m].ticketIds)
    requires forall n :: n in ready ==> ready[n].state.matchId == n
    ensures ReadyLinks(Patched(tickets, ready[m].ticketIds, EnterAssigned(total, a)), ready - {m})
    ensures VetoLinks(Patched(tickets, ready[m].ticketIds, EnterAssigned(total, a)), vetoes)
  {
    var after := Patched(tickets, ready[m].ticketIds, EnterAssigned(total, a));
    PatchedAt(tickets, ready[m].ticketIds, EnterAssigned(total, a));
    ClosedReadyLinks(tickets, after, ready, m);
  }

  // ---- ACCEPT: the script ----

  /** What the invariant says about one ready record, gathered for the scripts that use it. */
  lemma ReadyFacts(s: Store, m: string)
    requires Inv(s) && m in s.matches.ready
    ensures ReadyRecordOk(s.queue.issued, m, s.matches.ready[m]) && m !in s.matches.vetoes && m in s.matches.origins
    ensures s.matches.origins[m] == Origin(s.matches.ready[m].veto, s.matches.ready[m].state.region)
    ensures AllReady(s.queue.tickets, s.matches.ready[m].ticketIds, s.matches.ready[m].state)
    ensures forall n :: n in s.matches.ready ==> s.matches.ready[n].state.matchId == n
  {
    forall n | n in s.matches.ready ensures s.matches.ready[n].state.matchId == n { assert ReadyRecordOk(s.queue.issued, n, s.matches.ready[n]); }
  }

  lemma WaitingKeepsInv(s: Store, m: string, w: ReadyRecord)
    requires Inv(s) && m in s.matches.ready && ReadyRecordOk(s.queue.issued, m, w)
    requires w == s.matches.ready[m].(state := s.matches.ready[m].state.(accepted := w.state.accepted))
    ensures Inv(s.(queue := s.queue.(tickets := Patched(s.queue.tickets, w.ticketIds, ShowReady(w.state))),
                   matches := s.matches.(ready := s.matches.ready[m := w])))
  {
    ReadyFacts(s, m);
    WaitingRecords(s.matches.ready, s.matches.readyDeadlines, s.queue.issued, s.matches.origins, m, w);
    ShownReady(s.queue.tickets, s.queue.issued, s.queue.searching, w.ticketIds, s.matches.ready[m].state, w.state);
    ShownReadyLinks(s.queue.tickets, s.matches.ready, m, w);
    ShownReadyVetoLinks(s.queue.tickets, s.matches.vetoes, w.ticketIds, w.state);
    RewriteKeepsInv(s, s.(queue := s.queue.(tickets := Patched(s.queue.tickets, w.ticketIds, ShowReady(w.state))),
                          matches := s.matches.(ready := s.matches.ready[m := w])));
  }

  lemma VetoOpened(s: Store, m: string, r: ReadyRecord, now: int, vetoExpiresAt: int)
    requires Inv(s) && m in s.matches.ready && s.matches.ready[m].veto.Some?
    requires r == s.matches.ready[m].(state := s.matches.ready[m].state.(accepted := r.state.accepted))
    ensures VetoFits(OpenVeto(r.state.matchId, r.state.region, r.veto.value, r.ticketIds, r.members, now, vetoExpiresAt),
                     s.queue.issued, s.matches.origins, m)
  {
    ReadyFacts(s, m);
    var v := OpenVeto(r.state.matchId, r.state.region, r.veto.value, r.ticketIds, r.members, now, vetoExpiresAt);
    OpenIsStage(m, r.state.region, r.veto.value, r.ticketIds, r.members, now, vetoExpiresAt);
    FitsAlone(v, s.queue.issued, s.matches.origins, m);
  }

  lemma StartVetoKeepsRecords(s: Store, m: string, r: ReadyRecord, v: VetoRecord, now: int, vetoExpiresAt: int)
    requires RecordInv(s.matches, s.queue.issued) && m in s.matches.ready && r.veto.Some?
    requires v == OpenVeto(r.state.matchId, r.state.region, r.veto.value, r.ticketIds, r.members, now, vetoExpiresAt)
    requires VetoFits(v, s.queue.issued, s.matches.origins, m)
    requires v.expiresAtMs.Some? <==> v.state.status == Active
    ensures RecordInv(CloseReady(StartVeto(s, m, r, now, vetoExpiresAt), m).matches,
                      CloseReady(StartVeto(s, m, r, now, vetoExpiresAt), m).queue.issued)
  {
    var d := CloseReady(StartVeto(s, m, r, now, vetoExpiresAt), m);
    ClosedRecords(s.matches.ready, s.matches.readyDeadlines, s.queue.issued, s.matches.origins, m);
    StartedIndex(s.matches.vetoes, s.matches.vetoDeadlines, s.matches.finalizations, m, v, now);
    PutVetoRecord(s.matches.vetoes, s.queue.issued, s.matches.origins, m, v);
    assert d.matches.vetoes == s.matches.vetoes[m := v];
    assert d.matches.ready == s.matches.ready - {m};
  }

  lemma StartVetoKeepsInv(s: Store, m: string, r: ReadyRecord, now: int, vetoExpiresAt: int)
    requires Inv(s) && m in s.matches.ready && s.matches.ready[m].veto.Some?
    requires r == s.matches.ready[m].(state := s.matches.ready[m].state.(accepted := r.state.accepted))
    ensures Inv(CloseReady(StartVeto(s, m, r, now, vetoExpiresAt), m))
  {
    var v := OpenVeto(r.state.matchId, r.state.region, r.veto.value, r.ticketIds, r.members, now, vetoExpiresAt);
    ReadyFacts(s, m);
    VetoOpened(s, m, r, now, vetoExpiresAt);
    StartVetoKeepsRecords(s, m, r, v, now, vetoExpiresAt);
    EnteredVeto(s.queue.tickets, s.queue.issued, s.queue.searching, r.ticketIds, s.matches.ready[m].state, r.state.totalPlayers, v.state);
    EnteredVetoReadyLinks(s.queue.tickets, s.matches.ready, m, r.state.totalPlayers, v);
    EnteredVetoLinks(s.queue.tickets, s.queue.issued, s.matches.vetoes, m, r.state.totalPlayers, v);
    RewriteKeepsInv(s, CloseReady(StartVeto(s, m, r, now, vetoExpiresAt), m));
  }

  lemma AssignReadyKeepsInv(s: Store, m: string, total: nat)
    requires Inv(s) && m in s.matches.ready && s.matches.ready[m].veto.None?
    ensures Inv(CloseReady(s.(queue := s.queue.(tickets :=
      Patched(s.queue.tickets, s.matches.ready[m].ticketIds, EnterAssigned(total, s.matches.ready[m].assignment)))), m))
  {
    var r := s.matches.ready[m];
    ReadyFacts(s, m);
    ClosedRecords(s.matches.ready, s.matches.readyDeadlines, s.queue.issued, s.matches.origins, m);
    EnteredAssigned(s.queue.tickets, s.queue.issued, s.queue.searching, r.ticketIds, r.state, total, r.assignment);
    EnteredAssignedLinks(s.queue.tickets, s.matches.ready, s.matches.vetoes, m, total, r.assignment);
    RewriteKeepsInv(s, CloseReady(s.(queue := s.queue.(tickets := Patched(s.queue.tickets, r.ticketIds, EnterAssigned(total, r.assignment)))), m));
  }

  /** The acceptance counts: the script reads the record and neither refusal applies. */
  ghost predicate Counts(s: Store, player: string, m: string, now: int) {
    m in s.matches.ready && s.matches.ready[m].expiresAtMs > now && player in s.matches.ready[m].members
  }

  lemma WaitingAcceptKeepsInv(s: Store, player: string, m: string, now: int, vetoExpiresAt: int)
    requires Inv(s) && Counts(s, player, m, now)
    requires var r := WithAccepted(s.matches.ready[m], player); |r.state.accepted| != r.state.totalPlayers
    ensures Inv(Accept(s, player, m, now, vetoExpiresAt).0)
  {
    ReadyFacts(s, m);
    AcceptedRecord(s.queue.issued, m, s.matches.ready[m], player);
    WaitingKeepsInv(s, m, WithAccepted(s.matches.ready[m], player));
  }

  /** The last acceptance of a check with a veto starts the veto and closes the check. */
  lemma VetoAcceptIs(s: Store, player: string, m: string, now: int, vetoExpiresAt: int)
    requires Counts(s, player, m, now) && s.matches.ready[m].veto.Some?
    requires var r := WithAccepted(s.matches.ready[m], player); |r.state.accepted| == r.state.totalPlayers
    ensures var r := WithAccepted(s.matches.ready[m], player);
      Accept(s, player, m, now, vetoExpiresAt).0 == CloseReady(StartVeto(s, m, r, now, vetoExpiresAt), m)
  {
  }

  lemma VetoAcceptKeepsInv(s: Store, player: string, m: string, now: int, vetoExpiresAt: int)
    requires Inv(s) && Counts(s, player, m, now) && s.matches.ready[m].veto.Some?
    requires var r := WithAccepted(s.matches.ready[m], player); |r.state.accepted| == r.state.totalPlayers
    ensures Inv(Accept(s, player, m, now, vetoExpiresAt).0)
  {
    VetoAcceptIs(s, player, m, now, vetoExpiresAt);
    StartVetoKeepsInv(s, m, WithAccepted(s.matches.ready[m], player), now, vetoExpiresAt);
  }

  lemma AssignAcceptKeepsInv(s: Store, player: string, m: string, now: int, vetoExpiresAt: int)
    requires Inv(s) && Counts(s, player, m, now) && s.matches.ready[m].veto.None?
    requires var r := WithAccepted(s.matches.ready[m], player); |r.state.accepted| == r.state.totalPlayers
    ensures Inv(Accept(s, player, m, now, vetoExpiresAt).0)
  {
    AssignReadyKeepsInv(s, m, s.matches.ready[m].state.totalPlayers);
  }

  lemma AcceptKeepsInv(s: Store, player: string, m: string, now: int, vetoExpiresAt: int)
    requires Inv(s)
    ensures Inv(Accept(s, player, m, now, vetoExpiresAt).0)
  {
    if !Counts(s, player, m, now) {
      assert Accept(s, player, m, now, vetoExpiresAt).0 == s;
    } else if |WithAccepted(s.matches.ready[m], player).state.accepted| == WithAccepted(s.matches.ready[m], player).state.totalPlayers {
      if s.matches.ready[m].veto.Some? {
        VetoAcceptKeepsInv(s, player, m, now, vetoExpiresAt);
      } else {
        AssignAcceptKeepsInv(s, player, m, now, vetoExpiresAt);
      }
    } else {
      WaitingAcceptKeepsInv(s, player, m, now, vetoExpiresAt);
    }
  }
}
