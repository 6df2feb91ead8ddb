/** Every run of the queue and party scripts: what always holds, and how a ready check, a search and a match end. */
module QueueRuns {
  import opened Common
  import opened MapVeto
  import opened Queue
  import opened QueueInvariants
  import opened QueueMatches
  import opened QueueAccepts
  import opened QueueVetoes
  import opened PartyInvariants

  /** One atomic step: a script call, or a key that Redis lets expire or a worker acknowledges. */
  datatype Op =
    | DoJoin(request: JoinRequest, now: int)
    | DoLeave(player: string, kind: LeaveKind)
    | DoAssignDeathmatch(ticketId: string, fencingToken: nat, assignment: Assignment)
    | DoCompleteDeathmatch(matchId: string, players: seq<string>)
    | DoCreateReady(plan: ReadyPlan, now: int)
    | DoAccept(player: string, matchId: string, now: int, vetoExpiresAt: int)
    | DoBan(matchId: string, player: string, map_: string, now: int, nextExpires: int, mode: BanMode)
    | DoCompleteVeto(matchId: string, assignment: Assignment)
    | DoCancel(matchId: string, requester: string, now: int, reason: CancelMode)
    | DoReassign(matchId: string, assignment: Assignment, players: seq<string>)
    | DoCreateParty(player: string, newId: string)
    | DoInvite(player: string, invited: string, inviteId: string)
    | DoAcceptInvite(player: string, inviteId: string)
    | DoSetReady(player: string, ready: bool)
    | DoTransfer(player: string, next: string)
    | DoLeaveParty(player: string)
    | ExpireInvite(inviteId: string)
    | ExpirePopulation(matchId: string)
    | ExpireFailures(player: string)
    | AcknowledgeCancellation(matchId: string)

  /** Random ids are new, and a plan is made of tickets the store handed out. */
  ghost predicate Enabled(s: Store, op: Op) {
    match op
    case DoJoin(r, _) => r.ticketId !in s.queue.issued
    case DoCreateReady(plan, _) => plan.matchId !in s.matches.origins && PlanFromStore(s, plan.tickets)
    case DoCreateParty(_, id) => id !in s.groups.parties
    case _ => true
  }

  predicate PartyEntry(op: Op) {
    op.DoCreateParty? || op.DoInvite? || op.DoAcceptInvite?
  }

  predicate PartyChange(op: Op) {
    op.DoSetReady? || op.DoTransfer? || op.DoLeaveParty?
  }

  predicate Expiry(op: Op) {
    op.ExpireInvite? || op.ExpirePopulation? || op.ExpireFailures? || op.AcknowledgeCancellation?
  }

  predicate TicketOp(op: Op) {
    op.DoJoin? || op.DoLeave? || op.DoAssignDeathmatch? || op.DoCompleteDeathmatch?
  }

  predicate ReadyOp(op: Op) {
    op.DoCreateReady? || op.DoAccept? || op.DoCancel?
  }

  predicate VetoOp(op: Op) {
    op.DoBan? || op.DoCompleteVeto? || op.DoReassign?
  }

  function TicketStep(s: Store, op: Op): (d: Store)
    requires TicketOp(op)
    ensures d.matches == s.matches
  {
    match op
    case DoJoin(r, now) => Join(s, r, now).0
    case DoLeave(p, kind) => Leave(s, p, kind).0
    case DoAssignDeathmatch(t, f, a) => AssignDeathmatch(s, t, f, a).0
    case DoCompleteDeathmatch(m, players) => CompleteDeathmatch(s, m, players).0
  }

  function ReadyStep(s: Store, op: Op): (d: Store)
    requires ReadyOp(op)
    ensures d.queue.issued == s.queue.issued
    ensures forall m :: m in s.matches.ready && (op.DoCreateReady? || op.matchId != m) ==> m in d.matches.ready
  {
    match op
    case DoCreateReady(plan, now) => CreateReadyCheck(s, plan, now).0
    case DoAccept(p, m, now, e) => Accept(s, p, m, now, e).0
    case DoCancel(m, p, now, mode) => CancelReadyCheck(s, m, p, now, mode).0
  }

  function VetoStep(s: Store, op: Op): (d: Store)
    requires VetoOp(op)
    ensures d.queue.issued == s.queue.issued
    ensures d.matches.ready == s.matches.ready && d.matches.origins == s.matches.origins
  {
    match op
    case DoBan(m, p, map_, now, e, mode) => BanVetoMap(s, m, p, map_, now, e, mode).0
    case DoCompleteVeto(m, a) => CompleteVeto(s, m, a).0
    case DoReassign(m, a, players) => Reassigned(s, m, a, players, {}).0
  }

  function EntryStep(s: Store, op: Op): (d: Store)
    requires PartyEntry(op)
    ensures d == s.(groups := d.groups)
  {
    match op
    case DoCreateParty(p, id) => CreateParty(s, p, id).0
    case DoInvite(p, q, id) => InviteToParty(s, p, q, id).0
    case DoAcceptInvite(p, id) => AcceptInvite(s, p, id).0
  }

  function ChangeStep(s: Store, op: Op): (d: Store)
    requires PartyChange(op)
    ensures d == s.(groups := d.groups)
  {
    match op
    case DoSetReady(p, ready) => SetReady(s, p, ready).0
    case DoTransfer(p, q) => TransferLeader(s, p, q).0
    case DoLeaveParty(p) => LeaveParty(s, p).0
  }

  function ExpiryStep(s: Store, op: Op): (d: Store)
    requires Expiry(op)
    ensures d.queue == s.queue && d.matches == s.matches
  {
    match op
    case ExpireInvite(id) => s.(groups := s.groups.(invites := s.groups.invites - {id}))
    case ExpirePopulation(m) => s.(extras := s.extras.(populations := s.extras.populations - {m}))
    case ExpireFailures(p) => s.(extras := s.extras.(failures := s.extras.failures - {p}))
    case AcknowledgeCancellation(m) => s.(extras := s.extras.(cancellations := s.extras.cancellations - {m}))
  }

  function Apply(s: Store, op: Op): Store {
    if TicketOp(op) then TicketStep(s, op)
    else if ReadyOp(op) then ReadyStep(s, op)
    else if VetoOp(op) then VetoStep(s, op)
    else if PartyEntry(op) then EntryStep(s, op)
    else if PartyChange(op) then ChangeStep(s, op)
    else ExpiryStep(s, op)
  }

  lemma PartyEntryKeepsInv(s: Store, op: Op)
    requires Inv(s) && Enabled(s, op) && PartyEntry(op)
    ensures Inv(EntryStep(s, op))
  {
    match op
    case DoCreateParty(p, id) => CreatePartyKeepsInv(s, p, id);
    case DoInvite(p, q, id) => InviteKeepsInv(s, p, q, id);
    case DoAcceptInvite(p, id) => AcceptInviteKeepsInv(s, p, id);
  }

  lemma PartyChangeKeepsInv(s: Store, op: Op)
    requires Inv(s) && PartyChange(op)
    ensures Inv(ChangeStep(s, op))
  {
    match op
    case DoSetReady(p, ready) => SetReadyKeepsInv(s, p, ready);
    case DoTransfer(p, q) => TransferKeepsInv(s, p, q);
    case DoLeaveParty(p) => LeavePartyKeepsInv(s, p);
  }

  lemma ExpirySameCore(s: Store, op: Op)
    requires Expiry(op)
    ensures SameCore(s, ExpiryStep(s, op))
  {
  }

  lemma ExpiryKeepsInv(s: Store, op: Op)
    requires Inv(s)
    requires Expiry(op)
    ensures Inv(ExpiryStep(s, op))
  {
    ExpirySameCore(s, op);
    SameCoreKeepsInv(s, ExpiryStep(s, op));
  }

  lemma CompleteDeathmatchIs(s: Store, matchId: string, players: seq<string>)
    ensures SameCore(ClearPlayers(s, players, matchId, {}).0, CompleteDeathmatch(s, matchId, players).0)
  {
  }

  lemma CompleteDeathmatchKeepsInv(s: Store, matchId: string, players: seq<string>)
    requires Inv(s)
    ensures Inv(CompleteDeathmatch(s, matchId, players).0)
  {
    ClearPlayersKeepsInv(s, players, matchId, {});
    CompleteDeathmatchIs(s, matchId, players);
    SameCoreKeepsInv(ClearPlayers(s, players, matchId, {}).0, CompleteDeathmatch(s, matchId, players).0);
  }

  lemma TicketOpKeepsInv(s: Store, op: Op)
    requires Inv(s) && Enabled(s, op) && TicketOp(op)
    ensures Inv(TicketStep(s, op))
  {
    match op
    case DoJoin(r, now) => JoinKeepsInv(s, r, now);
    case DoLeave(p, kind) => LeaveKeepsInv(s, p, kind);
    case DoAssignDeathmatch(t, f, a) => AssignDeathmatchKeepsInv(s, t, f, a);
    case DoCompleteDeathmatch(m, players) => CompleteDeathmatchKeepsInv(s, m, players);
  }

  lemma ReadyOpKeepsInv(s: Store, op: Op)
    requires Inv(s) && Enabled(s, op) && ReadyOp(op)
    ensures Inv(ReadyStep(s, op))
  {
    match op
    case DoCreateReady(plan, now) => CreateReadyCheckKeepsInv(s, plan, now);
    case DoAccept(p, m, now, e) => AcceptKeepsInv(s, p, m, now, e);
    case DoCancel(m, p, now, mode) => CancelReadyCheckKeepsInv(s, m, p, now, mode);
  }

  lemma VetoOpKeepsInv(s: Store, op: Op)
    requires Inv(s) && VetoOp(op)
    ensures Inv(VetoStep(s, op))
  {
    match op
    case DoBan(m, p, map_, now, e, mode) => BanVetoMapKeepsInv(s, m, p, map_, now, e, mode);
    case DoCompleteVeto(m, a) => CompleteVetoKeepsInv(s, m, a);
    case DoReassign(m, a, players) => ReassignedKeepsInv(s, m, a, players, {});
  }

  lemma StepKeepsInv(s: Store, op: Op)
    requires Inv(s) && Enabled(s, op)
    ensures Inv(Apply(s, op))
  {
    if TicketOp(op) {
      TicketOpKeepsInv(s, op);
    } else if ReadyOp(op) {
      ReadyOpKeepsInv(s, op);
    } else if VetoOp(op) {
      VetoOpKeepsInv(s, op);
    } else if PartyEntry(op) {
      PartyEntryKeepsInv(s, op);
    } else if PartyChange(op) {
      PartyChangeKeepsInv(s, op);
    } else {
      ExpiryKeepsInv(s, op);
    }
  }

  // ---- Runs ----

  function Run(s: Store, ops: seq<Op>): Store
    decreases |ops|
  {
    if ops == [] then s else Run(Apply(s, ops[0]), ops[1..])
  }

  ghost predicate ValidRun(s: Store, ops: seq<Op>)
    decreases |ops|
  {
    ops == [] || (Enabled(s, ops[0]) && ValidRun(Apply(s, ops[0]), ops[1..]))
  }

  lemma {:induction false} RunKeepsInv(s: Store, ops: seq<Op>)
    requires Inv(s) && ValidRun(s, ops)
    ensures Inv(Run(s, ops))
    decreases |ops|
  {
    if ops != [] {
      StepKeepsInv(s, ops[0]);
      RunKeepsInv(Apply(s, ops[0]), ops[1..]);
    }
  }

  /** In every state any run reaches from the empty store, all redundant keys agree. */
  lemma ReachableInv(ops: seq<Op>)
    requires ValidRun(EMPTY, ops)
    ensures Inv(Run(EMPTY, ops))
  {
    EmptyInv();
    RunKeepsInv(EMPTY, ops);
  }

  /** So no player is ever in two live tickets, and the pointer decides which one. */
  lemma OneTicketPerPlayer(ops: seq<Op>, player: string, t: string)
    requires ValidRun(EMPTY, ops)
    ensures var s := Run(EMPTY, ops);
      t in s.queue.tickets && player in s.queue.tickets[t].members <==> player in s.queue.pointers && s.queue.pointers[player] == t
  {
    var s := Run(EMPTY, ops);
    ReachableInv(ops);
    PointerDecides(s.queue.tickets, s.queue.pointers, player, t);
  }

  lemma PointerDecides(tickets: Tickets, pointers: map<string, string>, player: string, t: string)
    requires PointersAgree(tickets, pointers)
    ensures t in tickets && player in tickets[t].members <==> player in pointers && pointers[player] == t
  {
  }

  // ---- How a ready check ends ----

  /** Everyone accepted: the accepted list with the last player is every member, each once. */
  ghost predicate Unanimous(r: ReadyRecord, player: string) {
    && Distinct(WithAccepted(r, player).state.accepted)
    && Elems(WithAccepted(r, player).state.accepted) == Elems(r.members)
    && |WithAccepted(r, player).state.accepted| == |r.members|
  }

  /** m's ready check became its veto, shown on every listed ticket that is still live. */
  ghost predicate BecameVeto(s: Store, d: Store, op: Op, m: string)
    requires m in s.matches.ready
  {
    && op.DoAccept? && op.matchId == m && Unanimous(s.matches.ready[m], op.player)
    && m in d.matches.vetoes && m !in s.matches.vetoes
    && d.extras.cancellations == s.extras.cancellations
    && forall t :: t in s.matches.ready[m].ticketIds && t in d.queue.tickets ==> d.queue.tickets[t].mapVeto == Some(d.matches.vetoes[m].state)
  }

  ghost predicate BecameAssigned(s: Store, d: Store, op: Op, m: string)
    requires m in s.matches.ready
  {
    && op.DoAccept? && op.matchId == m && Unanimous(s.matches.ready[m], op.player)
    && m !in d.matches.vetoes
    && d.extras.cancellations == s.extras.cancellations
    && forall t :: t in s.matches.ready[m].ticketIds && t in d.queue.tickets ==>
         d.queue.tickets[t].phase == Assigned && d.queue.tickets[t].assignment == s.matches.ready[m].assignment
  }

  ghost predicate BecameCancelled(s: Store, d: Store, op: Op, m: string)
    requires m in s.matches.ready
  {
    && op.DoCancel? && op.matchId == m
    && m !in d.matches.vetoes
    && m in d.extras.cancellations && d.extras.cancellations[m] == (op.now, op.reason)
    && forall t :: t in s.matches.ready[m].ticketIds ==> t !in d.queue.tickets
  }

  /** Only accepting or cancelling it removes a ready record. */
  lemma OnlyTwoScriptsEndReady(s: Store, op: Op, m: string)
    requires m in s.matches.ready && m !in Apply(s, op).matches.ready
    ensures (op.DoAccept? || op.DoCancel?) && op.matchId == m
  {
  }

  lemma AcceptEnds(s: Store, player: string, m: string, now: int, e: int)
    requires m in s.matches.ready && ReadyRecordOk(s.queue.issued, m, s.matches.ready[m])
    requires m !in Accept(s, player, m, now, e).0.matches.ready
    ensures Counts(s, player, m, now)
    ensures |WithAccepted(s.matches.ready[m], player).state.accepted| == s.matches.ready[m].state.totalPlayers
    ensures Unanimous(s.matches.ready[m], player)
  {
    assert Counts(s, player, m, now);
    AcceptedRecord(s.queue.issued, m, s.matches.ready[m], player);
  }

  lemma AcceptedToVeto(s: Store, player: string, m: string, now: int, e: int)
    requires Inv(s) && m in s.matches.ready && s.matches.ready[m].veto.Some?
    requires m !in Accept(s, player, m, now, e).0.matches.ready
    ensures BecameVeto(s, Accept(s, player, m, now, e).0, DoAccept(player, m, now, e), m)
  {
    ReadyFacts(s, m);
    AcceptEnds(s, player, m, now, e);
    VetoAcceptIs(s, player, m, now, e);
    VetoEnding(s, player, m, now, e);
  }

  lemma VetoEnding(s: Store, player: string, m: string, now: int, e: int)
    requires m in s.matches.ready && s.matches.ready[m].veto.Some? && m !in s.matches.vetoes
    requires Distinct(s.matches.ready[m].ticketIds) && Unanimous(s.matches.ready[m], player)
    ensures var d := CloseReady(StartVeto(s, m, WithAccepted(s.matches.ready[m], player), now, e), m);
      BecameVeto(s, d, DoAccept(player, m, now, e), m)
  {
    VetoShown(s, m, WithAccepted(s.matches.ready[m], player), now, e);
  }

  /** Starting a veto shows it on every listed ticket that is live. */
  lemma VetoShown(s: Store, m: string, r: ReadyRecord, now: int, e: int)
    requires r.veto.Some? && Distinct(r.ticketIds)
    ensures var d := CloseReady(StartVeto(s, m, r, now, e), m);
      && m in d.matches.vetoes && d.extras == s.extras
      && forall t :: t in r.ticketIds && t in d.queue.tickets ==> d.queue.tickets[t].mapVeto == Some(d.matches.vetoes[m].state)
  {
    var v := OpenVeto(r.state.matchId, r.state.region, r.veto.value, r.ticketIds, r.members, now, e);
    PatchedAt(s.queue.tickets, r.ticketIds, EnterVeto(r.state.totalPlayers, v.state));
  }

  lemma AcceptedToAssigned(s: Store, player: string, m: string, now: int, e: int)
    requires Inv(s) && m in s.matches.ready && s.matches.ready[m].veto.None?
    requires m !in Accept(s, player, m, now, e).0.matches.ready
    ensures BecameAssigned(s, Accept(s, player, m, now, e).0, DoAccept(player, m, now, e), m)
  {
    ReadyFacts(s, m);
    AcceptEnds(s, player, m, now, e);
    var r := WithAccepted(s.matches.ready[m], player);
    PatchedAt(s.queue.tickets, r.ticketIds, EnterAssigned(r.state.totalPlayers, r.assignment));
  }

  lemma CancelEnds(s: Store, m: string, requester: string, now: int, mode: CancelMode)
    requires m in s.matches.ready && m !in s.matches.vetoes
    requires m !in CancelReadyCheck(s, m, requester, now, mode).0.matches.ready
    ensures BecameCancelled(s, CancelReadyCheck(s, m, requester, now, mode).0, DoCancel(m, requester, now, mode), m)
  {
    var r := s.matches.ready[m];
    var followers := LobbyFollowers(s.queue.tickets, r.ticketIds);
    var p := Penalised(s, r, followers, requester, mode, r.members, now);
    DropAllFrame(p, r.ticketIds);
    assert forall t :: t in r.ticketIds ==> t in Elems(r.ticketIds);
  }

  /** The three ways a ready check ends. */
  datatype Ending = ToVeto | ToAssigned | ToCancelled

  ghost predicate Ended(how: Ending, s: Store, d: Store, op: Op, m: string)
    requires m in s.matches.ready
  {
    match how
    case ToVeto => BecameVeto(s, d, op, m)
    case ToAssigned => BecameAssigned(s, d, op, m)
    case ToCancelled => BecameCancelled(s, d, op, m)
  }

  /** They exclude one another. */
  lemma OneEnding(s: Store, d: Store, op: Op, m: string, how: Ending, other: Ending)
    requires m in s.matches.ready && Ended(how, s, d, op, m) && Ended(other, s, d, op, m)
    ensures how == other
  {
  }

  lemma AcceptEnding(s: Store, op: Op, m: string) returns (how: Ending)
    requires Inv(s) && op.DoAccept? && op.matchId == m && m in s.matches.ready && m !in ReadyStep(s, op).matches.ready
    ensures Ended(how, s, ReadyStep(s, op), op, m)
  {
    if s.matches.ready[m].veto.Some? {
      how := ToVeto;
      AcceptedToVeto(s, op.player, m, op.now, op.vetoExpiresAt);
    } else {
      how := ToAssigned;
      AcceptedToAssigned(s, op.player, m, op.now, op.vetoExpiresAt);
    }
  }

  lemma CancelEnding(s: Store, op: Op, m: string)
    requires Inv(s) && op.DoCancel? && op.matchId == m && m in s.matches.ready && m !in ReadyStep(s, op).matches.ready
    ensures Ended(ToCancelled, s, ReadyStep(s, op), op, m)
  {
    assert m !in s.matches.vetoes;
    CancelEnds(s, m, op.requester, op.now, op.reason);
  }

  lemma ReadyStepEnds(s: Store, op: Op, m: string) returns (how: Ending)
    requires Inv(s) && (op.DoAccept? || op.DoCancel?) && op.matchId == m
    requires m in s.matches.ready && m !in ReadyStep(s, op).matches.ready
    ensures Ended(how, s, ReadyStep(s, op), op, m)
  {
    if op.DoCancel? {
      how := ToCancelled;
      CancelEnding(s, op, m);
    } else {
      how := AcceptEnding(s, op, m);
    }
  }

  /** It ended in one of the three ways and in no other. */
  ghost predicate EndedOnce(s: Store, d: Store, op: Op, m: string)
    requires m in s.matches.ready
  {
    exists how :: Ended(how, s, d, op, m) && forall other :: Ended(other, s, d, op, m) ==> other == how
  }

  lemma ReadyStepEndsOnce(s: Store, op: Op, d: Store, m: string)
    requires Inv(s) && (op.DoAccept? || op.DoCancel?) && op.matchId == m && d == ReadyStep(s, op)
    requires m in s.matches.ready && m !in d.matches.ready
    ensures EndedOnce(s, d, op, m)
  {
    var how := ReadyStepEnds(s, op, m);
    forall other | Ended(other, s, d, op, m)
      ensures other == how
    {
      OneEnding(s, d, op, m, how, other);
    }
  }

  /**
   A ready record disappears in exactly one of three ways: everyone accepted and it became the veto,
   everyone accepted and its tickets were assigned, or it was cancelled and the outbox says so.
   */
  lemma ReadyCheckEnds(s: Store, op: Op, m: string)
    requires Inv(s) && Enabled(s, op) && m in s.matches.ready && m !in Apply(s, op).matches.ready
    ensures EndedOnce(s, Apply(s, op), op, m)
  {
    if (op.DoAccept? || op.DoCancel?) && op.matchId == m {
      ReadyStepEndsOnce(s, op, Apply(s, op), m);
    } else {
      OnlyTwoScriptsEndReady(s, op, m);
    }
  }
}
