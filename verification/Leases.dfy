/** Server instances, their leases and the commands sent to their nodes; each function is one transaction. */
module Leases {
  import opened Common

  datatype State = Starting | Ready | Leased | Draining | Quarantined | Offline

  /** An instance is known by its node and its key there. */
  datatype InstanceId = InstanceId(node: nat, key: nat)

  datatype Instance = Instance(state: State, activeLease: Option<nat>)

  datatype LeaseStatus = Active | Released | Expired

  datatype Lease = Lease(match_: nat, instance: InstanceId, token: nat, status: LeaseStatus, expiresAt: int)

  datatype CommandKind = Start | Stop | Prepare | SyncRoster | SyncInventory | AnnounceDrop | Drain | Quarantine | Unquarantine

  datatype CommandStatus = Waiting | Claimed | Completed | Failed

  datatype Command = Command(
    node: nat, kind: CommandKind, instance: Option<InstanceId>, status: CommandStatus,
    claim: Option<nat>, claimedAt: int, attempts: nat, maxAttempts: nat, nextAttempt: int)

  datatype MatchStatus = Pending | Live | Over | Cancelled | Disputed

  /** `last` is the fencing sequence; `claims`, every claim token handed out, is history. */
  datatype Control = Control(
    instances: map<InstanceId, Instance>, leases: map<nat, Lease>, commands: map<nat, Command>,
    matches: map<nat, MatchStatus>, last: nat, claims: set<nat>)

  function ActiveOn(leases: map<nat, Lease>, i: InstanceId): set<nat> {
    set l | l in leases && leases[l].status == Active && leases[l].instance == i
  }

  function ActiveFor(leases: map<nat, Lease>, m: nat): set<nat> {
    set l | l in leases && leases[l].status == Active && leases[l].match_ == m
  }

  function NewCommand(node: nat, kind: CommandKind, instance: Option<InstanceId>, maxAttempts: nat, now: int): Command {
    Command(node, kind, instance, Waiting, None, 0, 0, maxAttempts, now)
  }

  const MAX_ATTEMPTS: nat := 5

  function Enqueue(s: Control, id: nat, node: nat, kind: CommandKind, instance: Option<InstanceId>, now: int): Control {
    s.(commands := s.commands[id := NewCommand(node, kind, instance, MAX_ATTEMPTS, now)])
  }

  // ---- Allocating ----

  datatype LeaseReply = Existing(lease: nat) | Granted(lease: nat) | NoCapacity | Conflict

  /** The match's lease if it has one, otherwise a new one on a ready instance; the index on active leases may refuse it. */
  function LeaseReady(s: Control, m: nat, pick: Option<InstanceId>, leaseId: nat, commandId: nat, expiresAt: int, now: int)
    : (Control, LeaseReply)
  {
    var existing := ActiveFor(s.leases, m);
    if existing != {} then (s, Existing(LeastOf(existing)))
    else if pick.None? || pick.value !in s.instances || s.instances[pick.value].state != Ready then (s, NoCapacity)
    else
      var fenced := s.(last := s.last + 1);
      if ActiveOn(s.leases, pick.value) != {} then (fenced, Conflict)
      else (Allocated(fenced, m, pick.value, leaseId, commandId, expiresAt, now), Granted(leaseId))
  }

  function Allocated(s: Control, m: nat, i: InstanceId, leaseId: nat, commandId: nat, expiresAt: int, now: int): Control {
    s.(leases := s.leases[leaseId := Lease(m, i, s.last, Active, expiresAt)],
       instances := s.instances[i := Instance(Leased, Some(leaseId))],
       commands := s.commands[commandId := NewCommand(i.node, Prepare, None, MAX_ATTEMPTS, now)])
  }

  /** A start already on its way is reused. */
  function StartPending(commands: map<nat, Command>, i: InstanceId): bool {
    exists c :: c in commands && commands[c].node == i.node && commands[c].kind == Start && commands[c].instance == Some(i)
                && commands[c].status in {Waiting, Claimed}
  }

  predicate CanWake(s: Control, i: InstanceId) {
    && i in s.instances && s.instances[i].state in {Offline, Starting, Draining}
    && s.instances[i].activeLease.None? && ActiveOn(s.leases, i) == {}
  }

  function Wake(s: Control, pick: Option<InstanceId>, commandId: nat, now: int): Control {
    if pick.None? || !CanWake(s, pick.value) || s.instances[pick.value].state != Offline then s
    else if StartPending(s.commands, pick.value) then s
    else
      var i := pick.value;
      Enqueue(s.(instances := s.instances[i := s.instances[i].(state := Starting)]), commandId, i.node, Start, Some(i), now)
  }

  // ---- Ending a lease ----

  function Release(s: Control, leaseId: nat, commandId: nat, now: int): (Control, bool) {
    if leaseId !in s.leases || s.leases[leaseId].status != Active || s.leases[leaseId].instance !in s.instances then (s, false)
    else
      var i := s.leases[leaseId].instance;
      (Enqueue(EndLease(s, leaseId, Released, Draining), commandId, i.node, Drain, Some(i), now), true)
  }

  /** Ends a lease and moves its instance on, without a lease. */
  function EndLease(s: Control, leaseId: nat, status: LeaseStatus, state: State): Control
    requires leaseId in s.leases
  {
    s.(leases := s.leases[leaseId := s.leases[leaseId].(status := status)],
       instances := s.instances[s.leases[leaseId].instance := Instance(state, None)])
  }

  function FailedMatch(status: MatchStatus, pendingResult: bool): MatchStatus {
    if status == Pending then Cancelled
    else if (status == Live || status == Disputed) && !pendingResult then Disputed
    else status
  }

  /** A lease that expired or whose server died: the instance is quarantined and the match fails. */
  function QuarantineFailure(s: Control, leaseId: nat, commandId: nat, pendingResults: set<nat>, now: int): Control
    requires leaseId in s.leases
  {
    var lease := s.leases[leaseId];
    var ended := Enqueue(EndLease(s, leaseId, Expired, Quarantined), commandId, lease.instance.node, Quarantine, Some(lease.instance), now);
    if lease.match_ in s.matches
    then ended.(matches := s.matches[lease.match_ := FailedMatch(s.matches[lease.match_], lease.match_ in pendingResults)])
    else ended
  }

  /** Quarantines the expired leases among those a sweep locked. */
  function SweepExpired(s: Control, found: seq<nat>, newCommands: seq<nat>, pendingResults: set<nat>, now: int): Control
    requires |newCommands| == |found|
    decreases |found|
  {
    if found == [] then s
    else
      var due := found[0] in s.leases && s.leases[found[0]].status == Active && s.leases[found[0]].expiresAt <= now
                 && s.leases[found[0]].instance in s.instances;
      SweepExpired(if due then QuarantineFailure(s, found[0], newCommands[0], pendingResults, now) else s,
                   found[1..], newCommands[1..], pendingResults, now)
  }

  // ---- Heartbeats ----

  /** One instance as its agent reports it: never leased or quarantined; a lease and match it serves, and whether its server is dead. */
  datatype Report = Report(key: nat, state: State, authority: Option<(nat, nat)>, dead: bool)

  predicate ReportOk(r: Report) {
    r.state in {Starting, Ready, Draining, Offline}
  }

  /** The row an agent's report leaves: the control plane's own states win. */
  function Observed(s: Control, i: InstanceId, state: State): Instance {
    if i !in s.instances then Instance(state, None)
    else if s.instances[i].state in {Leased, Draining, Quarantined} then s.instances[i]
    else s.instances[i].(state := state)
  }

  /** The report names the lease its instance holds, and says the server behind it is dead. */
  predicate Died(s: Control, i: InstanceId, r: Report) {
    && r.state != Ready && r.dead && r.authority.Some?
    && i in s.instances && s.instances[i].activeLease == Some(r.authority.value.0)
    && r.authority.value.0 in s.leases && s.leases[r.authority.value.0].status == Active
    && s.leases[r.authority.value.0].match_ == r.authority.value.1
  }

  /** One instance's part of a heartbeat. */
  function Heard(s: Control, node: nat, r: Report, commandId: nat, pendingResults: set<nat>, now: int): Control {
    var i := InstanceId(node, r.key);
    var seen := s.(instances := s.instances[i := Observed(s, i, r.state)]);
    if Died(seen, i, r) then QuarantineFailure(seen, r.authority.value.0, commandId, pendingResults, now) else seen
  }

  function HeardAll(s: Control, node: nat, reports: seq<Report>, newCommands: seq<nat>, pendingResults: set<nat>, now: int): Control
    requires |newCommands| == |reports|
    decreases |reports|
  {
    if reports == [] then s
    else HeardAll(Heard(s, node, reports[0], newCommands[0], pendingResults, now), node, reports[1..], newCommands[1..], pendingResults, now)
  }

  /** Claims not answered within 30 seconds go back in line. */
  function Reclaimed(commands: map<nat, Command>, node: nat, now: int): map<nat, Command> {
    map c | c in commands ::
      if commands[c].node == node && commands[c].status == Claimed && commands[c].claimedAt < now - 30_000
      then commands[c].(status := Waiting, claim := None) else commands[c]
  }

  predicate Claimable(s: Control, node: nat, c: nat, now: int, deferDrain: bool) {
    && c in s.commands && s.commands[c].node == node && s.commands[c].status == Waiting && s.commands[c].nextAttempt <= now
    && !(deferDrain && s.commands[c].kind == Drain)
  }

  /** Hands out the picked commands, each under its own new claim token. */
  function ClaimAll(s: Control, node: nat, picks: seq<(nat, nat)>, now: int, deferDrain: bool): Control
    decreases |picks|
  {
    if picks == [] then s
    else
      var (c, claim) := picks[0];
      ClaimAll(if Claimable(s, node, c, now, deferDrain) then ClaimOne(s, c, claim, now) else s, node, picks[1..], now, deferDrain)
  }

  function ClaimOne(s: Control, c: nat, claim: nat, now: int): Control
    requires c in s.commands
  {
    s.(commands := s.commands[c := s.commands[c].(status := Claimed, claim := Some(claim), claimedAt := now, attempts := s.commands[c].attempts + 1)],
       claims := s.claims + {claim})
  }

  function Heartbeat(s: Control, node: nat, reports: seq<Report>, newCommands: seq<nat>, picks: seq<(nat, nat)>,
                     pendingResults: set<nat>, now: int, deferDrain: bool): Control
    requires |newCommands| == |reports|
  {
    var heard := HeardAll(s, node, reports, newCommands, pendingResults, now);
    ClaimAll(heard.(commands := Reclaimed(heard.commands, node, now)), node, picks, now, deferDrain)
  }

  // ---- Acknowledging ----

  predicate Acknowledgeable(s: Control, node: nat, c: nat, claim: nat) {
    c in s.commands && s.commands[c].node == node && s.commands[c].status == Claimed && s.commands[c].claim == Some(claim)
  }

  function RetrySeconds(attempts: nat): nat {
    Min(30, Power2(if attempts == 0 then 0 else attempts - 1))
  }

  function Power2(n: nat): nat {
    if n == 0 then 1 else 2 * Power2(n - 1)
  }

  /** The command's own row: done, failed for good, or waiting for another attempt. */
  function Answered(command: Command, succeeded: bool, now: int): Command {
    if succeeded then command.(status := Completed)
    else if command.attempts >= command.maxAttempts then command.(status := Failed)
    else command.(status := Waiting, claim := None, nextAttempt := now + RetrySeconds(command.attempts) * 1000)
  }

  /** What an acknowledged command does to its instance. */
  function Effect(row: Instance, kind: CommandKind, succeeded: bool, terminal: bool, wentOffline: bool): Instance {
    if succeeded && kind == Drain && row.state == Draining then row.(state := if wentOffline then Offline else Ready)
    else if succeeded && kind == Quarantine then row.(state := Quarantined)
    else if succeeded && kind == Unquarantine && row.state == Quarantined then row.(state := Ready)
    else if terminal then Instance(Quarantined, None)
    else row
  }

  function Acknowledge(s: Control, node: nat, c: nat, claim: nat, succeeded: bool, wentOffline: bool, now: int): (Control, bool) {
    if !Acknowledgeable(s, node, c, claim) then (s, false)
    else
      var command := s.commands[c];
      var terminal := !succeeded && command.attempts >= command.maxAttempts;
      var answered := s.(commands := s.commands[c := Answered(command, succeeded, now)]);
      if command.instance.Some? && command.instance.value in s.instances && command.instance.value.node == node then
        var i := command.instance.value;
        (answered.(instances := s.instances[i := Effect(s.instances[i], command.kind, succeeded, terminal, wentOffline)]), true)
      else (answered, true)
  }
}
