/**
 The Redis keys the queue and party scripts share, and what each script does
 to them. Every function here is one atomic script run on the whole store;
 RedisScripts holds the scripts as step-by-step code with loops.
 */
module Queue {
  import opened Common
  import opened MapVeto

  datatype Mode = Competitive | Deathmatch

  datatype Phase = Searching | ReadyPhase | VetoPhase | Assigned

  datatype PartyId = RedisParty(id: string) | SteamLobby(id: string)

  datatype Assignment = Assignment(matchId: string, map_: string, humanPlayers: Option<nat>, details: string)

  datatype ReadyState = ReadyState(
    mode: Mode, matchId: string, expiresAt: int, accepted: seq<string>, totalPlayers: nat,
    map_: string, mapPool: seq<string>, region: string)

  /** The stored ready check: the public state and the private plan behind it. */
  datatype ReadyRecord = ReadyRecord(
    state: ReadyState, expiresAtMs: int, ticketIds: seq<string>, members: seq<string>,
    assignment: Option<Assignment>, veto: Option<VetoSeed>)

  datatype Ticket = Ticket(
    fencingToken: nat, partyId: Option<PartyId>, leader: string, members: seq<string>,
    mode: Mode, phase: Phase, playersFound: nat,
    readyCheck: Option<ReadyState>, mapVeto: Option<VetoState>, assignment: Option<Assignment>)

  datatype Member = Member(player: string, ready: bool)

  datatype Party = Party(leader: string, members: seq<Member>, version: nat) {
    function Players(): (r: seq<string>)
      ensures |r| == |members|
    {
      seq(|members|, i requires 0 <= i < |members| => members[i].player)
    }
  }

  datatype Invite = Invite(partyId: string, invited: string)

  datatype CancelMode = Decline | Expiry

  /** What a ready check was opened with: kept to say which plan a later veto came from. */
  datatype Origin = Origin(seed: Option<VetoSeed>, region: string)

  /**
   Tickets and the keys that name them. `issued`, the roster each ticket id was created
   with, is history and not a Redis key: it says that random ids never repeat.
   */
  datatype QueueKeys = QueueKeys(
    tickets: map<string, Ticket>,
    pointers: map<string, string>,
    partyPointers: map<PartyId, string>,
    searching: map<string, int>,
    fence: nat,
    issued: map<string, seq<string>>)

  /** Ready checks and vetoes with their indexes. `origins` is history, like `issued`. */
  datatype MatchKeys = MatchKeys(
    ready: map<string, ReadyRecord>,
    readyDeadlines: map<string, int>,
    vetoes: map<string, VetoRecord>,
    vetoDeadlines: map<string, int>,
    finalizations: map<string, int>,
    origins: map<string, Origin>)

  datatype GroupKeys = GroupKeys(
    parties: map<string, Party>,
    partyOf: map<string, string>,
    invites: map<string, Invite>)

  datatype ExtraKeys = ExtraKeys(
    cancellations: map<string, (int, CancelMode)>,
    failures: map<string, nat>,
    cooldowns: map<string, int>,
    populations: map<string, set<string>>)

  datatype Store = Store(queue: QueueKeys, matches: MatchKeys, groups: GroupKeys, extras: ExtraKeys)

  const EMPTY: Store :=
    Store(QueueKeys(map[], map[], map[], map[], 0, map[]),
          MatchKeys(map[], map[], map[], map[], map[], map[]),
          GroupKeys(map[], map[], map[]),
          ExtraKeys(map[], map[], map[], map[]))

  // ---- Removing tickets ----

  /** The pointer keys left after every member whose pointer still names t lost it. */
  function Unpointed(pointers: map<string, string>, members: seq<string>, t: string): map<string, string> {
    map p | p in pointers && !(p in members && pointers[p] == t) :: pointers[p]
  }

  function PartyUnpointed(pointers: map<PartyId, string>, party: Option<PartyId>, t: string): map<PartyId, string> {
    if party.Some? && party.value in pointers && pointers[party.value] == t
    then pointers - {party.value}
    else pointers
  }

  /** Deletes a live ticket together with its index entry and the pointers that name it. */
  function Drop(s: Store, t: string): Store
    requires t in s.queue.tickets
  {
    var k := s.queue.tickets[t];
    s.(queue := s.queue.(
         tickets := s.queue.tickets - {t},
         searching := s.queue.searching - {t},
         pointers := Unpointed(s.queue.pointers, k.members, t),
         partyPointers := PartyUnpointed(s.queue.partyPointers, k.partyId, t)))
  }

  // ---- JOIN ----

  datatype VerifiedParty = VerifiedParty(partyId: string, leader: string, members: seq<string>)

  datatype JoinRequest = JoinRequest(player: string, ticketId: string, joinedAt: int, mode: Mode, verified: Option<VerifiedParty>)

  datatype JoinReply =
    | Existing(ticketId: string)
    | Created(ticketId: string)
    | LeaderRequired
    | NotReady(player: string)
    | Cooldown(player: string)
    | AlreadyQueued(player: string)
    | InvalidParty

  datatype Roster = Roster(partyId: Option<PartyId>, leader: string, members: seq<string>)

  /** The first member who has not readied up. */
  function FirstUnready(members: seq<Member>): Option<string> {
    if members == [] then None
    else if !members[0].ready then Some(members[0].player)
    else FirstUnready(members[1..])
  }

  /** Whom the request queues: a verified lobby, the requester's ready party, or the requester alone. */
  function RosterFor(s: Store, r: JoinRequest): (result: (Store, Result<Roster, JoinReply>))
    ensures result.1.Err? ==> result.1.error.LeaderRequired? || result.1.error.NotReady?
    ensures result.0.matches == s.matches && result.0.queue == s.queue
  {
    if r.verified.Some? then
      var v := r.verified.value;
      (s, Ok(Roster(Some(SteamLobby(v.partyId)), v.leader, v.members)))
    else if r.player !in s.groups.partyOf then (s, Ok(Roster(None, r.player, [r.player])))
    else
      var id := s.groups.partyOf[r.player];
      if id !in s.groups.parties then
        (s.(groups := s.groups.(partyOf := s.groups.partyOf - {r.player})), Ok(Roster(None, r.player, [r.player])))
      else
        var party := s.groups.parties[id];
        if party.leader != r.player then (s, Err(LeaderRequired))
        else
          match FirstUnready(party.members)
          case Some(p) => (s, Err(NotReady(p)))
          case None => (s, Ok(Roster(Some(RedisParty(id)), party.leader, party.Players())))
  }

  /** Every member must be off cooldown and in no live ticket; pointers to dead tickets are cleared on the way. */
  function CheckMembers(s: Store, members: seq<string>, now: int): (r: (Store, Option<JoinReply>))
    ensures r.1.Some? ==> r.1.value.Cooldown? || r.1.value.AlreadyQueued?
    ensures r.0.matches == s.matches && r.0.queue.issued == s.queue.issued
    decreases |members|
  {
    if members == [] then (s, None)
    else
      var m := members[0];
      if m in s.extras.cooldowns && s.extras.cooldowns[m] > now then (s, Some(Cooldown(m)))
      else if m in s.queue.pointers && s.queue.pointers[m] in s.queue.tickets then (s, Some(AlreadyQueued(m)))
      else CheckMembers(s.(queue := s.queue.(pointers := s.queue.pointers - {m})), members[1..], now)
  }

  function Pointed(pointers: map<string, string>, members: seq<string>, t: string): map<string, string> {
    pointers + (map p | p in members :: t)
  }

  /** Writes the new ticket and everything that points to it. */
  function Enqueue(s: Store, r: JoinRequest, roster: Roster): Store {
    s.(queue := s.queue.(
         fence := s.queue.fence + 1,
         tickets := s.queue.tickets[r.ticketId :=
           Ticket(s.queue.fence + 1, roster.partyId, roster.leader, roster.members, r.mode, Searching, 0, None, None, None)],
         searching := s.queue.searching[r.ticketId := r.joinedAt],
         pointers := Pointed(s.queue.pointers, roster.members, r.ticketId),
         partyPointers := if roster.partyId.Some? then s.queue.partyPointers[roster.partyId.value := r.ticketId]
                          else s.queue.partyPointers,
         issued := s.queue.issued[r.ticketId := roster.members]))
  }

  function JoinScript(s: Store, r: JoinRequest, now: int): (result: (Store, JoinReply))
    ensures result.0.matches == s.matches
  {
    if r.player in s.queue.pointers && s.queue.pointers[r.player] in s.queue.tickets then (s, Existing(s.queue.pointers[r.player]))
    else
      var (s1, roster) := RosterFor(s.(queue := s.queue.(pointers := s.queue.pointers - {r.player})), r);
      match roster
      case Err(reply) => (s1, reply)
      case Ok(ro) =>
        var (s2, refusal) := CheckMembers(s1, ro.members, now);
        match refusal
        case Some(reply) => (s2, reply)
        case None => (Enqueue(s2, r, ro), Created(r.ticketId))
  }

  /** The guard of joinVerifiedParty (the id pattern itself is what makes the id a lobby id). */
  predicate VerifiedPartyOk(player: string, v: VerifiedParty) {
    && v.leader == player
    && 2 <= |v.members| <= 5
    && Distinct(v.members)
    && player in v.members
    && "" !in v.members
  }

  /** A join call: the launcher's claim is checked before the script sees it. */
  function Join(s: Store, r: JoinRequest, now: int): (result: (Store, JoinReply))
    ensures result.0.matches == s.matches
  {
    if r.verified.Some? && !VerifiedPartyOk(r.player, r.verified.value) then (s, InvalidParty)
    else JoinScript(s, r, now)
  }

  // ---- LEAVE ----

  datatype LeaveKind = Plain | Fenced(ticketId: string, fencingToken: nat) | SessionEnded(ticketId: string)

  datatype LeaveReply = Nothing | Removed(ticketId: string) | LeaveRefused

  function Leave(s: Store, player: string, kind: LeaveKind): (r: (Store, LeaveReply))
    ensures r.0.matches == s.matches && r.0.queue.issued == s.queue.issued
  {
    if player !in s.queue.pointers then (s, Nothing)
    else
      var t := s.queue.pointers[player];
      if !kind.Plain? && t != kind.ticketId then (s, Nothing)
      else if t !in s.queue.tickets then (s.(queue := s.queue.(pointers := s.queue.pointers - {player})), Nothing)
      else
        var k := s.queue.tickets[t];
        if !kind.Plain? && (k.phase != Searching
                            || (kind.Fenced? && (k.fencingToken != kind.fencingToken || k.mode != Deathmatch)))
        then (s, Nothing)
        else if k.partyId.Some? && k.leader != player && !kind.SessionEnded? then (s, LeaveRefused)
        else (Drop(s, t), Removed(t))
  }

  // ---- Deathmatch ----

  datatype AssignReply = Stale | Delivered

  function AssignDeathmatch(s: Store, t: string, fencingToken: nat, a: Assignment): (r: (Store, AssignReply))
    ensures r.0.matches == s.matches && r.0.queue.issued == s.queue.issued
  {
    if t !in s.queue.tickets then (s, Stale)
    else
      var k := s.queue.tickets[t];
      if k.fencingToken != fencingToken || k.phase != Searching || k.mode != Deathmatch then (s, Stale)
      else
        var population := if a.matchId in s.extras.populations then s.extras.populations[a.matchId] else {};
        (s.(queue := s.queue.(
              tickets := s.queue.tickets[t := k.(phase := Assigned, playersFound := a.humanPlayers.GetOr(|k.members|),
                                                 readyCheck := None, mapVeto := None, assignment := Some(a))],
              searching := s.queue.searching - {t}),
            extras := s.extras.(populations := s.extras.populations[a.matchId := population + Elems(k.members)])),
         Delivered)
  }

  predicate PlaysIn(s: Store, t: string, matchId: string) {
    t in s.queue.tickets && s.queue.tickets[t].phase == Assigned && s.queue.tickets[t].assignment.Some?
    && s.queue.tickets[t].assignment.value.matchId == matchId
  }

  /** Clears the finished match's tickets, visiting its players in any order; each ticket once. */
  function ClearPlayers(s: Store, players: seq<string>, matchId: string, seen: set<string>): (r: (Store, nat))
    ensures r.0.matches == s.matches && r.0.queue.issued == s.queue.issued
    decreases |players|
  {
    if players == [] then (s, 0)
    else
      var p := players[0];
      if p !in s.queue.pointers || s.queue.pointers[p] in seen then ClearPlayers(s, players[1..], matchId, seen)
      else
        var t := s.queue.pointers[p];
        if PlaysIn(s, t, matchId) then
          var (s1, n) := ClearPlayers(Drop(s, t), players[1..], matchId, seen + {t});
          (s1, n + 1)
        else ClearPlayers(s, players[1..], matchId, seen + {t})
  }

  /** players is the stored population in whatever order Redis lists it. */
  function CompleteDeathmatch(s: Store, matchId: string, players: seq<string>): (r: (Store, nat))
    ensures r.0.matches == s.matches && r.0.queue.issued == s.queue.issued
  {
    var (s1, n) := ClearPlayers(s, players, matchId, {});
    (s1.(extras := s1.extras.(populations := s1.extras.populations - {matchId})), n)
  }

  // ---- CREATE_READY_CHECK ----

  datatype PlanTicket = PlanTicket(id: string, fencingToken: nat, members: seq<string>, mode: Mode)

  datatype DirectAssignment = DirectAssignment(map_: string, humanPlayers: Option<nat>, details: string)

  datatype ReadyPlan = ReadyPlan(
    matchId: string, mode: Mode, tickets: seq<PlanTicket>, map_: string, mapPool: Option<seq<string>>,
    region: string, durationMs: int, assignment: Option<DirectAssignment>, veto: Option<VetoSeed>)

  datatype ReadyReply =
    | BadPlan
    | TicketStale(id: string)
    | DuplicatePlayer(player: string)
    | WrongSize
    | Opened(state: ReadyState)

  /** First occurrences, in order. */
  function Dedup(s: seq<string>): (r: seq<string>)
    ensures Distinct(r) && Elems(r) == Elems(s)
    ensures Distinct(s) ==> r == s
  {
    if s == [] then []
    else
      var front := Dedup(s[..|s| - 1]);
      var last := s[|s| - 1];
      assert s == s[..|s| - 1] + [last];
      assert Elems(s) == Elems(s[..|s| - 1]) + {last};
      if last in front then
        assert last in Elems(front);
        front
      else
        assert last !in Elems(front);
        front + [last]
  }

  function PlanMembers(tickets: seq<PlanTicket>): seq<string> {
    if tickets == [] then [] else tickets[0].members + PlanMembers(tickets[1..])
  }

  function PlanIds(tickets: seq<PlanTicket>): (r: seq<string>)
    ensures |r| == |tickets|
  {
    seq(|tickets|, i requires 0 <= i < |tickets| => tickets[i].id)
  }

  function ExpectedPlayers(mode: Mode): nat {
    if mode == Deathmatch then 14 else 10
  }

  function PlanPool(plan: ReadyPlan): (r: seq<string>)
    ensures Distinct(r)
  {
    Dedup(plan.mapPool.GetOr([plan.map_]))
  }

  /** The guards createReadyCheck applies before it runs the script. */
  predicate PlanOk(plan: ReadyPlan) {
    && (plan.assignment.Some? <==> plan.veto.None?)
    && PlanPool(plan) != [] && plan.map_ in PlanPool(plan)
    && (forall i :: 0 <= i < |plan.tickets| ==> plan.tickets[i].mode == plan.mode)
    && !(plan.mode == Deathmatch && plan.veto.Some?)
    && |PlanMembers(plan.tickets)| == ExpectedPlayers(plan.mode)
  }

  function ReadyFor(plan: ReadyPlan, now: int): ReadyRecord {
    var expires := now + plan.durationMs;
    ReadyRecord(
      ReadyState(plan.mode, plan.matchId, expires, [], |PlanMembers(plan.tickets)|, plan.map_, PlanPool(plan), plan.region),
      expires, PlanIds(plan.tickets), PlanMembers(plan.tickets),
      if plan.assignment.Some?
      then Some(Assignment(plan.matchId, plan.assignment.value.map_, plan.assignment.value.humanPlayers, plan.assignment.value.details))
      else None,
      if plan.veto.Some? then Some(plan.veto.value.(mapPool := PlanPool(plan))) else None)
  }

  /** The first of `members` already seen. */
  function FirstSeen(members: seq<string>, seen: set<string>): Option<string> {
    if members == [] then None
    else if members[0] in seen then Some(members[0])
    else FirstSeen(members[1..], seen + {members[0]})
  }

  /** Every claimed ticket must be live, unchanged and searching, with no player twice; returns the head count. */
  function CheckClaims(s: Store, claims: seq<PlanTicket>, seen: set<string>, total: nat): (r: Result<nat, ReadyReply>)
    ensures r.Err? ==> r.error.TicketStale? || r.error.DuplicatePlayer?
    decreases |claims|
  {
    if claims == [] then Ok(total)
    else
      var c := claims[0];
      if c.id !in s.queue.tickets || s.queue.tickets[c.id].fencingToken != c.fencingToken || s.queue.tickets[c.id].phase != Searching
      then Err(TicketStale(c.id))
      else
        var members := s.queue.tickets[c.id].members;
        match FirstSeen(members, seen)
        case Some(p) => Err(DuplicatePlayer(p))
        case None => CheckClaims(s, claims[1..], seen + Elems(members), total + |members|)
  }

  /** Applies f to each listed ticket that still exists. */
  function Patched(tickets: map<string, Ticket>, ids: seq<string>, f: Ticket -> Ticket): map<string, Ticket>
    decreases |ids|
  {
    if ids == [] then tickets
    else Patched(if ids[0] in tickets then tickets[ids[0] := f(tickets[ids[0]])] else tickets, ids[1..], f)
  }

  function EnterReady(state: ReadyState): Ticket -> Ticket {
    (k: Ticket) => k.(phase := ReadyPhase, playersFound := state.totalPlayers, readyCheck := Some(state))
  }

  function OpenReady(s: Store, ready: ReadyRecord): Store {
    s.(queue := s.queue.(
         tickets := Patched(s.queue.tickets, ready.ticketIds, EnterReady(ready.state)),
         searching := s.queue.searching - Elems(ready.ticketIds)),
       matches := s.matches.(
         ready := s.matches.ready[ready.state.matchId := ready],
         readyDeadlines := s.matches.readyDeadlines[ready.state.matchId := ready.expiresAtMs],
         origins := s.matches.origins[ready.state.matchId := Origin(ready.veto, ready.state.region)]))
  }

  function CreateReadyCheck(s: Store, plan: ReadyPlan, now: int): (r: (Store, ReadyReply))
    ensures r.0.queue.issued == s.queue.issued && s.matches.ready.Keys <= r.0.matches.ready.Keys
  {
    if !PlanOk(plan) then (s, BadPlan)
    else
      var ready := ReadyFor(plan, now);
      match CheckClaims(s, plan.tickets, {}, 0)
      case Err(reply) => (s, reply)
      case Ok(total) =>
        if total != ready.state.totalPlayers then (s, WrongSize)
        else (OpenReady(s, ready), Opened(ready.state))
  }

  // ---- ACCEPT ----

  datatype AcceptReply =
    | AcceptMissing
    | AcceptExpired
    | AcceptVeto(veto: VetoState)
    | AcceptAssigned(assignment: Option<Assignment>)
    | AcceptWaiting(state: ReadyState)

  /** The record once `player` accepted: nobody is listed twice. */
  function WithAccepted(ready: ReadyRecord, player: string): ReadyRecord {
    if player in ready.state.accepted then ready
    else ready.(state := ready.state.(accepted := ready.state.accepted + [player]))
  }

  function EnterVeto(total: nat, veto: VetoState): Ticket -> Ticket {
    (k: Ticket) =>
      k.(phase := VetoPhase, playersFound := total, readyCheck := None, mapVeto := Some(veto), assignment := None)
  }

  function EnterAssigned(total: nat, a: Option<Assignment>): Ticket -> Ticket {
    (k: Ticket) => k.(phase := Assigned, playersFound := total, readyCheck := None, assignment := a)
  }

  function ShowReady(state: ReadyState): Ticket -> Ticket {
    (k: Ticket) => k.(readyCheck := Some(state))
  }

  function CloseReady(s: Store, matchId: string): Store {
    s.(matches := s.matches.(
         ready := s.matches.ready - {matchId},
         readyDeadlines := s.matches.readyDeadlines - {matchId}))
  }

  function StartVeto(s: Store, m: string, ready: ReadyRecord, now: int, vetoExpiresAt: int): (d: Store)
    requires ready.veto.Some?
    ensures d.queue.issued == s.queue.issued && d.matches.origins == s.matches.origins && d.matches.ready == s.matches.ready
  {
    var veto := OpenVeto(ready.state.matchId, ready.state.region, ready.veto.value, ready.ticketIds, ready.members,
                         now, vetoExpiresAt);
    s.(queue := s.queue.(
         tickets := Patched(s.queue.tickets, ready.ticketIds, EnterVeto(ready.state.totalPlayers, veto.state))),
       matches := s.matches.(
         vetoes := s.matches.vetoes[m := veto],
         finalizations := if veto.state.status == Allocating then s.matches.finalizations[m := now]
                          else s.matches.finalizations,
         vetoDeadlines := if veto.expiresAtMs.Some? then s.matches.vetoDeadlines[m := veto.expiresAtMs.value]
                          else s.matches.vetoDeadlines))
  }

  /** What the script does with a record that now holds the acceptance. */
  function Accepted(s: Store, matchId: string, ready: ReadyRecord, now: int, vetoExpiresAt: int): (r: (Store, AcceptReply))
    ensures r.0.queue.issued == s.queue.issued && r.0.matches.origins == s.matches.origins
    ensures s.matches.ready.Keys - {matchId} <= r.0.matches.ready.Keys
  {
    if |ready.state.accepted| != ready.state.totalPlayers then
      (s.(queue := s.queue.(tickets := Patched(s.queue.tickets, ready.ticketIds, ShowReady(ready.state))),
          matches := s.matches.(ready := s.matches.ready[matchId := ready])),
       AcceptWaiting(ready.state))
    else if ready.veto.Some? then
      (CloseReady(StartVeto(s, matchId, ready, now, vetoExpiresAt), matchId),
       AcceptVeto(OpenVeto(ready.state.matchId, ready.state.region, ready.veto.value, ready.ticketIds, ready.members,
                           now, vetoExpiresAt).state))
    else
      (CloseReady(s.(queue := s.queue.(
                       tickets := Patched(s.queue.tickets, ready.ticketIds,
                                          EnterAssigned(ready.state.totalPlayers, ready.assignment)))), matchId),
       AcceptAssigned(ready.assignment))
  }

  function Accept(s: Store, player: string, matchId: string, now: int, vetoExpiresAt: int): (r: (Store, AcceptReply))
    ensures r.0.queue.issued == s.queue.issued && r.0.matches.origins == s.matches.origins
    ensures s.matches.ready.Keys - {matchId} <= r.0.matches.ready.Keys
  {
    if matchId !in s.matches.ready then (s, AcceptMissing)
    else if s.matches.ready[matchId].expiresAtMs <= now then (s, AcceptExpired)
    else if player !in s.matches.ready[matchId].members then (s, AcceptMissing)
    else Accepted(s, matchId, WithAccepted(s.matches.ready[matchId], player), now, vetoExpiresAt)
  }

  // ---- BAN_VETO_MAP and COMPLETE_VETO ----

  function ShowVeto(veto: VetoState): Ticket -> Ticket {
    (k: Ticket) => k.(mapVeto := Some(veto))
  }

  /** Stores the banned record, moves it between the two indexes and shows it on the tickets. */
  function FileBan(s: Store, matchId: string, v: VetoRecord, final: bool, now: int): Store {
    s.(queue := s.queue.(tickets := Patched(s.queue.tickets, v.ticketIds, ShowVeto(v.state))),
       matches := s.matches.(
         vetoes := s.matches.vetoes[matchId := v],
         vetoDeadlines := if final then s.matches.vetoDeadlines - {matchId}
                          else s.matches.vetoDeadlines[matchId := now + v.turnSeconds * 1000],
         finalizations := if final then s.matches.finalizations[matchId := now] else s.matches.finalizations))
  }

  function BanVetoMap(s: Store, matchId: string, player: string, requested: string, now: int, nextExpires: int, mode: BanMode)
    : (r: (Store, BanReply))
    ensures r.0.queue.issued == s.queue.issued
    ensures r.0.matches.ready == s.matches.ready && r.0.matches.origins == s.matches.origins
  {
    if matchId !in s.matches.vetoes then (s, Missing)
    else
      var (v, reply) := BanStep(s.matches.vetoes[matchId], player, requested, now, nextExpires, mode);
      if !reply.Updated? && !reply.Finalize? then (s, reply)
      else (FileBan(s, matchId, v, reply.Finalize?, now), reply)
  }

  datatype CompleteReply = NoVeto | WrongMap | Players(delivered: nat)

  function FinishVeto(a: Assignment): Ticket -> Ticket {
    (k: Ticket) =>
      if k.phase == VetoPhase
      then k.(phase := Assigned, playersFound := 10, readyCheck := None, mapVeto := None, assignment := Some(a))
      else k
  }

  /** How many players the finished veto reaches. */
  function Reached(tickets: map<string, Ticket>, ids: seq<string>, a: Assignment): nat
    decreases |ids|
  {
    if ids == [] then 0
    else if ids[0] !in tickets then Reached(tickets, ids[1..], a)
    else
      var k := tickets[ids[0]];
      (if k.phase == VetoPhase then |k.members| else 0) + Reached(tickets[ids[0] := FinishVeto(a)(k)], ids[1..], a)
  }

  function CompleteVeto(s: Store, matchId: string, a: Assignment): (r: (Store, CompleteReply))
    ensures r.0.queue.issued == s.queue.issued
    ensures r.0.matches.ready == s.matches.ready && r.0.matches.origins == s.matches.origins
  {
    if matchId !in s.matches.vetoes then (s, NoVeto)
    else
      var v := s.matches.vetoes[matchId];
      if v.state.status != Allocating || v.state.selectedMap != Some(a.map_) then (s, WrongMap)
      else
        (s.(queue := s.queue.(tickets := Patched(s.queue.tickets, v.ticketIds, FinishVeto(a))),
            matches := s.matches.(
              vetoes := s.matches.vetoes - {matchId},
              vetoDeadlines := s.matches.vetoDeadlines - {matchId},
              finalizations := s.matches.finalizations - {matchId})),
         Players(Reached(s.queue.tickets, v.ticketIds, a)))
  }

  // ---- CANCEL_READY_CHECK ----

  datatype CancelReply = CancelMissing | CancelActive | Cancelled

  /** Players who follow a lobby leader and never chose to search. */
  function LobbyFollowers(tickets: map<string, Ticket>, ids: seq<string>): set<string> {
    if ids == [] then {}
    else
      (if ids[0] in tickets && tickets[ids[0]].partyId.Some? && tickets[ids[0]].partyId.value.SteamLobby?
       then Elems(tickets[ids[0]].members) - {tickets[ids[0]].leader} else {})
      + LobbyFollowers(tickets, ids[1..])
  }

  predicate AtFault(ready: ReadyRecord, followers: set<string>, requester: string, mode: CancelMode, player: string) {
    && player !in followers
    && (if mode == Decline then player == requester else player !in ready.state.accepted)
  }

  function PenaltySeconds(count: nat): nat {
    if count >= 4 then 1800 else if count == 3 then 600 else if count == 2 then 120 else 30
  }

  /** One member's turn in the penalty loop. */
  function PenalisedOne(s: Store, fault: bool, m: string, now: int): Store {
    if fault then
      var count := (if m in s.extras.failures then s.extras.failures[m] else 0) + 1;
      s.(extras := s.extras.(
           failures := s.extras.failures[m := count],
           cooldowns := s.extras.cooldowns[m := now + PenaltySeconds(count) * 1000]))
    else s
  }

  function Penalised(s: Store, ready: ReadyRecord, followers: set<string>, requester: string, mode: CancelMode,
                     members: seq<string>, now: int): (d: Store)
    ensures d == s.(extras := s.extras.(failures := d.extras.failures, cooldowns := d.extras.cooldowns))
    decreases |members|
  {
    if members == [] then s
    else
      Penalised(PenalisedOne(s, AtFault(ready, followers, requester, mode, members[0]), members[0], now),
                ready, followers, requester, mode, members[1..], now)
  }

  function DropAll(s: Store, ids: seq<string>): (d: Store)
    ensures d.matches == s.matches && d.queue.issued == s.queue.issued
    decreases |ids|
  {
    if ids == [] then s else DropAll(if ids[0] in s.queue.tickets then Drop(s, ids[0]) else s, ids[1..])
  }

  function CancelReadyCheck(s: Store, matchId: string, requester: string, now: int, mode: CancelMode): (r: (Store, CancelReply))
    ensures r.0.queue.issued == s.queue.issued && r.0.matches.origins == s.matches.origins
    ensures s.matches.ready.Keys - {matchId} <= r.0.matches.ready.Keys
  {
    if matchId !in s.matches.ready then (s, CancelMissing)
    else
      var ready := s.matches.ready[matchId];
      if mode == Expiry && ready.expiresAtMs > now then (s, CancelActive)
      else
        var followers := LobbyFollowers(s.queue.tickets, ready.ticketIds);
        var s1 := DropAll(Penalised(s, ready, followers, requester, mode, ready.members, now), ready.ticketIds);
        (CloseReady(s1, matchId).(
           extras := CloseReady(s1, matchId).extras.(cancellations := s1.extras.cancellations[matchId := (now, mode)])),
         Cancelled)
  }

  // ---- REASSIGN_MATCH ----

  function Reassigned(s: Store, oldMatch: string, a: Assignment, players: seq<string>, seen: set<string>): (r: (Store, (nat, nat)))
    ensures r.0.matches == s.matches && r.0.queue.issued == s.queue.issued
    decreases |players|
  {
    if players == [] then (s, (0, 0))
    else
      var p := players[0];
      if p !in s.queue.pointers || s.queue.pointers[p] in seen then Reassigned(s, oldMatch, a, players[1..], seen)
      else
        var t := s.queue.pointers[p];
        if PlaysIn(s, t, oldMatch) then
          var k := s.queue.tickets[t];
          var (s1, n) := Reassigned(
            s.(queue := s.queue.(tickets := s.queue.tickets[t := k.(assignment := Some(a), readyCheck := None)])),
            oldMatch, a, players[1..], seen + {t});
          (s1, (n.0 + |k.members|, n.1 + 1))
        else Reassigned(s, oldMatch, a, players[1..], seen + {t})
  }

  // ---- Party scripts ----

  datatype PartyReply =
    | PartyOk
    | PartyGone
    | PartyNotFound
    | PartyLeaderRequired
    | PartyFull
    | AlreadyMember
    | AlreadyInParty
    | PartyQueued
    | InviteNotFound
    | MemberNotFound

  const MAX_PARTY: nat := 5

  function CreateParty(s: Store, player: string, newId: string): (r: (Store, PartyReply))
    ensures r.0 == s.(groups := r.0.groups)
  {
    if player in s.groups.partyOf && s.groups.partyOf[player] in s.groups.parties then (s, PartyOk)
    else
      (s.(groups := s.groups.(
            parties := s.groups.parties[newId := Party(player, [Member(player, true)], 1)],
            partyOf := s.groups.partyOf[player := newId])),
       PartyOk)
  }

  function InviteToParty(s: Store, player: string, invited: string, inviteId: string): (r: (Store, PartyReply))
    ensures r.0 == s.(groups := r.0.groups)
  {
    if player !in s.groups.partyOf then (s, PartyNotFound)
    else
      var id := s.groups.partyOf[player];
      if id !in s.groups.parties then (s.(groups := s.groups.(partyOf := s.groups.partyOf - {player})), PartyNotFound)
      else if s.groups.parties[id].leader != player then (s, PartyLeaderRequired)
      else if |s.groups.parties[id].members| >= MAX_PARTY then (s, PartyFull)
      else if invited in s.groups.parties[id].Players() then (s, AlreadyMember)
      else if invited in s.groups.partyOf then (s, AlreadyInParty)
      else (s.(groups := s.groups.(invites := s.groups.invites[inviteId := Invite(id, invited)])), PartyOk)
  }

  function AcceptInvite(s: Store, player: string, inviteId: string): (r: (Store, PartyReply))
    ensures r.0 == s.(groups := r.0.groups)
  {
    if inviteId !in s.groups.invites || s.groups.invites[inviteId].invited != player then (s, InviteNotFound)
    else if player in s.groups.partyOf then (s, AlreadyInParty)
    else
      var id := s.groups.invites[inviteId].partyId;
      if RedisParty(id) in s.queue.partyPointers then (s, PartyQueued)
      else if id !in s.groups.parties then (s, PartyNotFound)
      else
        var party := s.groups.parties[id];
        if |party.members| >= MAX_PARTY then (s, PartyFull)
        else
          (s.(groups := s.groups.(
                parties := s.groups.parties[id := party.(members := party.members + [Member(player, false)],
                                                         version := party.version + 1)],
                partyOf := s.groups.partyOf[player := id],
                invites := s.groups.invites - {inviteId})),
           PartyOk)
  }

  function MarkedReady(members: seq<Member>, player: string, ready: bool): (r: seq<Member>)
    ensures |r| == |members|
    ensures forall i :: 0 <= i < |r| ==> r[i].player == members[i].player
  {
    seq(|members|, i requires 0 <= i < |members| => if members[i].player == player then members[i].(ready := ready) else members[i])
  }

  function SetReady(s: Store, player: string, ready: bool): (r: (Store, PartyReply))
    ensures r.0 == s.(groups := r.0.groups)
  {
    if player !in s.groups.partyOf then (s, PartyNotFound)
    else
      var id := s.groups.partyOf[player];
      if RedisParty(id) in s.queue.partyPointers then (s, PartyQueued)
      else if id !in s.groups.parties || player !in s.groups.parties[id].Players() then (s, PartyNotFound)
      else
        var party := s.groups.parties[id];
        (s.(groups := s.groups.(
              parties := s.groups.parties[id := party.(members := MarkedReady(party.members, player, ready),
                                                       version := party.version + 1)])),
         PartyOk)
  }

  function TransferLeader(s: Store, player: string, next: string): (r: (Store, PartyReply))
    ensures r.0 == s.(groups := r.0.groups)
  {
    if player !in s.groups.partyOf then (s, PartyNotFound)
    else
      var id := s.groups.partyOf[player];
      if RedisParty(id) in s.queue.partyPointers then (s, PartyQueued)
      else if id !in s.groups.parties then (s, PartyNotFound)
      else
        var party := s.groups.parties[id];
        if party.leader != player then (s, PartyLeaderRequired)
        else if next !in party.Players() then (s, MemberNotFound)
        else
          (s.(groups := s.groups.(parties := s.groups.parties[id := party.(leader := next, version := party.version + 1)])),
           PartyOk)
  }

  function Without(members: seq<Member>, player: string): (r: seq<Member>)
    ensures forall m :: m in r <==> m in members && m.player != player
    ensures |r| <= |members|
  {
    if members == [] then []
    else
      assert members == [members[0]] + members[1..];
      if members[0].player == player then Without(members[1..], player)
      else [members[0]] + Without(members[1..], player)
  }

  function LeaveParty(s: Store, player: string): (r: (Store, PartyReply))
    ensures r.0 == s.(groups := r.0.groups)
  {
    if player !in s.groups.partyOf then (s, PartyNotFound)
    else
      var id := s.groups.partyOf[player];
      if RedisParty(id) in s.queue.partyPointers then (s, PartyQueued)
      else if id !in s.groups.parties then (s.(groups := s.groups.(partyOf := s.groups.partyOf - {player})), PartyGone)
      else
        var party := s.groups.parties[id];
        var remaining := Without(party.members, player);
        if remaining == [] then (s.(groups := s.groups.(partyOf := s.groups.partyOf - {player}, parties := s.groups.parties - {id})), PartyGone)
        else
          (s.(groups := s.groups.(
                partyOf := s.groups.partyOf - {player},
                parties := s.groups.parties[id := Party(if party.leader == player then remaining[0].player else party.leader,
                                                        remaining, party.version + 1)])),
           PartyOk)
  }
}
