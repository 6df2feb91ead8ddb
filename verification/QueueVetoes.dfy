/** Banning maps, delivering a finished veto and cancelling a ready check keep the invariant. */
module QueueVetoes {
  import opened Common
  import opened MapVeto
  import opened Queue
  import opened QueueInvariants
  import opened QueueMatches
  import opened QueueAccepts

  // ---- BAN_VETO_MAP ----

  ghost predicate AllInVeto(tickets: Tickets, ids: seq<string>) {
    forall t :: t in ids && t in tickets ==> tickets[t].mapVeto.Some?
  }

  lemma ShownVeto(tickets: Tickets, issued: Issued, searching: map<string, int>, ids: seq<string>, veto: VetoState)
    requires TicketsOk(tickets, issued) && SearchIndex(tickets, searching) && Distinct(ids) && AllInVeto(tickets, ids)
    ensures var after := Patched(tickets, ids, ShowVeto(veto));
      SameRosters(tickets, after) && SearchIndex(after, searching) && forall t :: t in after ==> ShapeOk(after[t])
  {
    var after := Patched(tickets, ids, ShowVeto(veto));
    PatchedAt(tickets, ids, ShowVeto(veto));
    forall t | t in after ensures ShapeOk(after[t]) { assert ShapeOk(tickets[t]); }
  }

  lemma ShownVetoReadyLinks(tickets: Tickets, ready: Readies, ids: seq<string>, veto: VetoState)
    requires ReadyLinks(tickets, ready) && Distinct(ids)
    ensures ReadyLinks(Patched(tickets, ids, ShowVeto(veto)), ready)
  {
    PatchedAt(tickets, ids, ShowVeto(veto));
  }

  lemma ShownVetoLinks(tickets: Tickets, vetoes: Vetoes, m: string, v: VetoRecord)
    requires VetoLinks(tickets, vetoes)
    requires m in vetoes && Distinct(v.ticketIds) && v.ticketIds == vetoes[m].ticketIds && v.state.matchId == m
    requires forall n :: n in vetoes ==> vetoes[n].state.matchId == n
    ensures VetoLinks(Patched(tickets, v.ticketIds, ShowVeto(v.state)), vetoes[m := v])
  {
    var after, now := Patched(tickets, v.ticketIds, ShowVeto(v.state)), vetoes[m := v];
    PatchedAt(tickets, v.ticketIds, ShowVeto(v.state));
    forall n, t | n in now && t in now[n].ticketIds && t in after ensures after[t].mapVeto == Some(now[n].state) {
      if n != m {
        assert tickets[t].mapVeto == Some(vetoes[n].state);
        assert t !in v.ticketIds;
      }
    }
    forall t | t in after && after[t].mapVeto.Some?
      ensures var n := after[t].mapVeto.value.matchId;
        n in now && t in now[n].ticketIds && after[t].mapVeto.value == now[n].state
    {
      if t !in v.ticketIds { assert tickets[t].mapVeto.value.matchId != m; }
    }
  }

  lemma VetoFacts(s: Store, m: string)
    requires RecordInv(s.matches, s.queue.issued) && LinkInv(s.queue.tickets, s.matches) && m in s.matches.vetoes
    ensures Distinct(s.matches.vetoes[m].ticketIds) && AllInVeto(s.queue.tickets, s.matches.vetoes[m].ticketIds)
    ensures forall n :: n in s.matches.vetoes ==> s.matches.vetoes[n].state.matchId == n
  {
    forall n | n in s.matches.vetoes ensures s.matches.vetoes[n].state.matchId == n {
      assert VetoRecordOk(s.queue.issued, n, s.matches.vetoes[n], s.matches.origins[n]);
    }
  }

  /** A ban on its own leaves the tickets listed and the deadline rule of its stage. */
  lemma BanShape(v: VetoRecord, player: string, requested: string, now: int, nextExpires: int, mode: BanMode)
    ensures var (w, reply) := BanStep(v, player, requested, now, nextExpires, mode);
      && w.ticketIds == v.ticketIds && w.state.matchId == v.state.matchId
      && (reply.Updated? ==> w.state.status == Active && w.expiresAtMs == Some(now + w.turnSeconds * 1000))
  {
  }

  lemma SameListFits(v: VetoRecord, w: VetoRecord, seed: VetoSeed, issued: Issued, origins: Origins, m: string)
    requires VetoFits(v, issued, origins, m) && m in origins && origins[m].seed == Some(seed)
    requires w.ticketIds == v.ticketIds && StageOf(w, seed, m, origins[m].region)
    ensures VetoFits(w, issued, origins, m)
  {
    FitsAlone(v, issued, origins, m);
    FitsAlone(w, issued, origins, m);
  }

  /** The banned record fits where the old one was, and is still filed under the right index. */
  lemma BannedFits(v: VetoRecord, issued: Issued, origins: Origins, m: string, player: string, requested: string,
                   now: int, nextExpires: int, mode: BanMode)
    requires VetoFits(v, issued, origins, m)
    ensures var (w, reply) := BanStep(v, player, requested, now, nextExpires, mode);
      && VetoFits(w, issued, origins, m) && w.ticketIds == v.ticketIds && w.state.matchId == m
      && (reply.Finalize? ==> v.state.status == Active && w.state.status == Allocating)
      && (reply.Updated? ==> v.state.status == Active && w.state.status == Active
                             && w.expiresAtMs == Some(now + w.turnSeconds * 1000))
  {
    FitsAlone(v, issued, origins, m);
    var seed := origins[m].seed.value;
    BanStepKeepsStage(v, seed, m, origins[m].region, player, requested, now, nextExpires, mode);
    BanShape(v, player, requested, now, nextExpires, mode);
    SameListFits(v, BanStep(v, player, requested, now, nextExpires, mode).0, seed, issued, origins, m);
  }

  lemma BannedIndex(vetoes: Vetoes, deadlines: map<string, int>, finalizations: map<string, int>, m: string, w: VetoRecord, final: bool, now: int)
    requires VetoIndex(vetoes, deadlines, finalizations) && m in vetoes && vetoes[m].state.status == Active
    requires final ==> w.state.status == Allocating
    requires !final ==> w.state.status == Active && w.expiresAtMs == Some(now + w.turnSeconds * 1000)
    ensures VetoIndex(vetoes[m := w],
                      if final then deadlines - {m} else deadlines[m := now + w.turnSeconds * 1000],
                      if final then finalizations[m := now] else finalizations)
  {
  }

  /** w may replace the active veto of match m. */
  ghost predicate Follows(k: MatchKeys, issued: Issued, m: string, w: VetoRecord, final: bool, now: int) {
    && m in k.vetoes && k.vetoes[m].state.status == Active
    && VetoFits(w, issued, k.origins, m)
    && w.ticketIds == k.vetoes[m].ticketIds && w.state.matchId == m
    && (final ==> w.state.status == Allocating)
    && (!final ==> w.state.status == Active && w.expiresAtMs == Some(now + w.turnSeconds * 1000))
  }

  /** The match keys after a ban was filed. */
  function FiledKeys(k: MatchKeys, m: string, w: VetoRecord, final: bool, now: int): MatchKeys {
    k.(vetoes := k.vetoes[m := w],
       vetoDeadlines := if final then k.vetoDeadlines - {m} else k.vetoDeadlines[m := now + w.turnSeconds * 1000],
       finalizations := if final then k.finalizations[m := now] else k.finalizations)
  }

  lemma ReplacedVetoApart(ready: Readies, vetoes: Vetoes, m: string, w: VetoRecord)
    requires ready.Keys !! vetoes.Keys && m in vetoes
    ensures ready.Keys !! vetoes[m := w].Keys
  {
  }

  lemma FiledKeysOk(k: MatchKeys, issued: Issued, m: string, w: VetoRecord, final: bool, now: int)
    requires RecordInv(k, issued) && Follows(k, issued, m, w, final, now)
    ensures RecordInv(FiledKeys(k, m, w, final, now), issued)
  {
    BannedIndex(k.vetoes, k.vetoDeadlines, k.finalizations, m, w, final, now);
    PutVetoRecord(k.vetoes, issued, k.origins, m, w);
    ReplacedVetoApart(k.ready, k.vetoes, m, w);
  }

  lemma FileBanKeepsInv(s: Store, m: string, w: VetoRecord, final: bool, now: int)
    requires Inv(s) && Follows(s.matches, s.queue.issued, m, w, final, now)
    ensures Inv(FileBan(s, m, w, final, now))
  {
    VetoFacts(s, m);
    FiledKeysOk(s.matches, s.queue.issued, m, w, final, now);
    assert FileBan(s, m, w, final, now).matches == FiledKeys(s.matches, m, w, final, now);
    ShownVeto(s.queue.tickets, s.queue.issued, s.queue.searching, w.ticketIds, w.state);
    ShownVetoReadyLinks(s.queue.tickets, s.matches.ready, w.ticketIds, w.state);
    ShownVetoLinks(s.queue.tickets, s.matches.vetoes, m, w);
    RewriteKeepsInv(s, FileBan(s, m, w, final, now));
  }

  lemma BanFollows(k: MatchKeys, issued: Issued, m: string, player: string, requested: string,
                   now: int, nextExpires: int, mode: BanMode)
    requires VetoRecordsOk(k.vetoes, issued, k.origins) && m in k.vetoes
    ensures var (w, reply) := BanStep(k.vetoes[m], player, requested, now, nextExpires, mode);
      reply.Updated? || reply.Finalize? ==> Follows(k, issued, m, w, reply.Finalize?, now)
  {
    FitsAlone(k.vetoes[m], issued, k.origins, m);
    BannedFits(k.vetoes[m], issued, k.origins, m, player, requested, now, nextExpires, mode);
  }

  /** The script files the ban step's record, or changes nothing. */
  lemma BanIs(s: Store, m: string, player: string, requested: string, now: int, nextExpires: int, mode: BanMode)
    ensures var d := BanVetoMap(s, m, player, requested, now, nextExpires, mode).0;
      || d == s
      || (m in s.matches.vetoes
          && var (w, reply) := BanStep(s.matches.vetoes[m], player, requested, now, nextExpires, mode);
             (reply.Updated? || reply.Finalize?) && d == FileBan(s, m, w, reply.Finalize?, now))
  {
  }

  lemma BanVetoMapKeepsInv(s: Store, m: string, player: string, requested: string, now: int, nextExpires: int, mode: BanMode)
    requires Inv(s)
    ensures Inv(BanVetoMap(s, m, player, requested, now, nextExpires, mode).0)
  {
    BanIs(s, m, player, requested, now, nextExpires, mode);
    if BanVetoMap(s, m, player, requested, now, nextExpires, mode).0 != s {
      var (w, reply) := BanStep(s.matches.vetoes[m], player, requested, now, nextExpires, mode);
      BanFollows(s.matches, s.queue.issued, m, player, requested, now, nextExpires, mode);
      FileBanKeepsInv(s, m, w, reply.Finalize?, now);
    }
  }

  // ---- COMPLETE_VETO ----

  lemma FinishedTickets(tickets: Tickets, issued: Issued, searching: map<string, int>, ids: seq<string>, a: Assignment)
    requires TicketsOk(tickets, issued) && SearchIndex(tickets, searching) && Distinct(ids) && AllInVeto(tickets, ids)
    ensures var after := Patched(tickets, ids, FinishVeto(a));
      SameRosters(tickets, after) && SearchIndex(after, searching) && forall t :: t in after ==> ShapeOk(after[t])
  {
    var after := Patched(tickets, ids, FinishVeto(a));
    PatchedAt(tickets, ids, FinishVeto(a));
    forall t | t in after ensures ShapeOk(after[t]) { assert ShapeOk(tickets[t]); }
  }

  lemma FinishedReadyLinks(tickets: Tickets, issued: Issued, ready: Readies, ids: seq<string>, a: Assignment)
    requires TicketsOk(tickets, issued) && ReadyLinks(tickets, ready) && Distinct(ids) && AllInVeto(tickets, ids)
    ensures ReadyLinks(Patched(tickets, ids, FinishVeto(a)), ready)
  {
    PatchedAt(tickets, ids, FinishVeto(a));
    forall t | t in ids && t in tickets ensures tickets[t].phase == VetoPhase && tickets[t].readyCheck.None? {
      assert ShapeOk(tickets[t]);
    }
  }

  lemma FinishedVetoLinks(tickets: Tickets, issued: Issued, vetoes: Vetoes, m: string, a: Assignment)
    requires TicketsOk(tickets, issued) && VetoLinks(tickets, vetoes)
    requires m in vetoes && Distinct(vetoes[m].ticketIds) && AllInVeto(tickets, vetoes[m].ticketIds)
    requires forall n :: n in vetoes ==> vetoes[n].state.matchId == n
    ensures VetoLinks(Patched(tickets, vetoes[m].ticketIds, FinishVeto(a)), vetoes - {m})
  {
    var ids := vetoes[m].ticketIds;
    PatchedAt(tickets, ids, FinishVeto(a));
    forall t | t in ids && t in tickets ensures tickets[t].phase == VetoPhase {
      assert ShapeOk(tickets[t]);
    }
    forall n, t | n in vetoes && n != m && t in vetoes[n].ticketIds && t in tickets ensures t !in ids {
      assert tickets[t].mapVeto == Some(vetoes[n].state);
    }
  }

  lemma FinishedIndex(vetoes: Vetoes, deadlines: map<string, int>, finalizations: map<string, int>, m: string)
    requires VetoIndex(vetoes, deadlines, finalizations)
    ensures VetoIndex(vetoes - {m}, deadlines - {m}, finalizations - {m})
  {
  }

  lemma FinishedRecords(vetoes: Vetoes, issued: Issued, origins: Origins, m: string)
    requires VetoRecordsOk(vetoes, issued, origins)
    ensures VetoRecordsOk(vetoes - {m}, issued, origins)
  {
    var after := vetoes - {m};
    forall n | n in after ensures n in origins && VetoRecordOk(issued, n, after[n], origins[n]) {
      assert VetoRecordOk(issued, n, vetoes[n], origins[n]);
    }
  }

  lemma CompleteVetoKeepsInv(s: Store, m: string, a: Assignment)
    requires Inv(s)
    ensures Inv(CompleteVeto(s, m, a).0)
  {
    var (d, reply) := CompleteVeto(s, m, a);
    if reply.Players? {
      VetoFacts(s, m);
      FinishedTickets(s.queue.tickets, s.queue.issued, s.queue.searching, s.matches.vetoes[m].ticketIds, a);
      FinishedReadyLinks(s.queue.tickets, s.queue.issued, s.matches.ready, s.matches.vetoes[m].ticketIds, a);
      FinishedVetoLinks(s.queue.tickets, s.queue.issued, s.matches.vetoes, m, a);
      FinishedIndex(s.matches.vetoes, s.matches.vetoDeadlines, s.matches.finalizations, m);
      FinishedRecords(s.matches.vetoes, s.queue.issued, s.matches.origins, m);
      RewriteKeepsInv(s, d);
    }
  }

  // ---- CANCEL_READY_CHECK ----

  /** d differs from s only in keys the invariant does not read. */
  ghost predicate SameCore(s: Store, d: Store) {
    d == s.(groups := s.groups.(invites := d.groups.invites),
            extras := s.extras.(populations := d.extras.populations, failures := d.extras.failures,
                                cooldowns := d.extras.cooldowns, cancellations := d.extras.cancellations))
  }

  lemma SameCoreKeepsInv(s: Store, d: Store)
    requires Inv(s) && SameCore(s, d)
    ensures Inv(d)
  {
  }

  /** p's failure count went up by one and the cooldown follows the ladder. */
  ghost predicate Hit(s: Store, d: Store, p: string, now: int) {
    && p in d.extras.failures && d.extras.failures[p] == (if p in s.extras.failures then s.extras.failures[p] else 0) + 1
    && p in d.extras.cooldowns && d.extras.cooldowns[p] == now + PenaltySeconds(d.extras.failures[p]) * 1000
  }

  ghost predicate Spared(s: Store, d: Store, p: string) {
    && (p in d.extras.failures <==> p in s.extras.failures) && (p in s.extras.failures ==> d.extras.failures[p] == s.extras.failures[p])
    && (p in d.extras.cooldowns <==> p in s.extras.cooldowns) && (p in s.extras.cooldowns ==> d.extras.cooldowns[p] == s.extras.cooldowns[p])
  }

  lemma PenaltyStep(s: Store, fault: bool, m: string, now: int, p: string)
    ensures var d := PenalisedOne(s, fault, m, now);
      if fault && p == m then Hit(s, d, p, now) else Spared(s, d, p)
  {
  }

  /** A cancellation penalises exactly the members at fault; a lobby follower never is, nor anyone outside the match. */
  lemma {:induction false} PenalisedExactly(s: Store, ready: ReadyRecord, followers: set<string>, requester: string,
                                            mode: CancelMode, members: seq<string>, now: int, p: string)
    requires Distinct(members)
    ensures var d := Penalised(s, ready, followers, requester, mode, members, now);
      if p in members && AtFault(ready, followers, requester, mode, p) then Hit(s, d, p, now) else Spared(s, d, p)
    decreases |members|
  {
    if members != [] {
      var m, rest := members[0], members[1..];
      var fault := AtFault(ready, followers, requester, mode, m);
      PenaltyStep(s, fault, m, now, p);
      assert forall i :: 0 <= i < |rest| ==> rest[i] == members[i + 1];
      assert m !in rest;
      assert p in members <==> p == m || p in rest;
      PenalisedExactly(PenalisedOne(s, fault, m, now), ready, followers, requester, mode, rest, now, p);
    }
  }

  lemma CloseEmptyReady(s: Store, m: string, cancellations: map<string, (int, CancelMode)>)
    requires Inv(s) && m in s.matches.ready && forall t :: t in s.matches.ready[m].ticketIds ==> t !in s.queue.tickets
    ensures Inv(CloseReady(s, m).(extras := CloseReady(s, m).extras.(cancellations := cancellations)))
  {
    ReadyFacts(s, m);
    ClosedRecords(s.matches.ready, s.matches.readyDeadlines, s.queue.issued, s.matches.origins, m);
    ClosedReadyLinks(s.queue.tickets, s.queue.tickets, s.matches.ready, m);
  }

  /** The store once a cancelled check's members were penalised and its tickets dropped. */
  function Emptied(s: Store, m: string, requester: string, now: int, mode: CancelMode): Store
    requires m in s.matches.ready
  {
    var ready := s.matches.ready[m];
    DropAll(Penalised(s, ready, LobbyFollowers(s.queue.tickets, ready.ticketIds), requester, mode, ready.members, now), ready.ticketIds)
  }

  lemma EmptiedKeepsInv(s: Store, m: string, requester: string, now: int, mode: CancelMode)
    requires Inv(s) && m in s.matches.ready
    ensures var d := Emptied(s, m, requester, now, mode);
      Inv(d) && d.matches == s.matches && forall t :: t in s.matches.ready[m].ticketIds ==> t !in d.queue.tickets
  {
    var ready := s.matches.ready[m];
    var p := Penalised(s, ready, LobbyFollowers(s.queue.tickets, ready.ticketIds), requester, mode, ready.members, now);
    SameCoreKeepsInv(s, p);
    DropAllKeepsInv(p, ready.ticketIds);
    DropAllFrame(p, ready.ticketIds);
    assert forall t :: t in ready.ticketIds ==> t in Elems(ready.ticketIds);
  }

  /** Cancelling empties the check and closes it, or changes nothing. */
  lemma CancelIs(s: Store, m: string, requester: string, now: int, mode: CancelMode)
    ensures var d := CancelReadyCheck(s, m, requester, now, mode).0;
      || d == s
      || (m in s.matches.ready
          && var e := Emptied(s, m, requester, now, mode);
             d == CloseReady(e, m).(extras := CloseReady(e, m).extras.(cancellations := e.extras.cancellations[m := (now, mode)])))
  {
  }

  lemma CancelReadyCheckKeepsInv(s: Store, m: string, requester: string, now: int, mode: CancelMode)
    requires Inv(s)
    ensures Inv(CancelReadyCheck(s, m, requester, now, mode).0)
  {
    CancelIs(s, m, requester, now, mode);
    if CancelReadyCheck(s, m, requester, now, mode).0 != s {
      var e := Emptied(s, m, requester, now, mode);
      EmptiedKeepsInv(s, m, requester, now, mode);
      CloseEmptyReady(e, m, e.extras.cancellations[m := (now, mode)]);
    }
  }
}
