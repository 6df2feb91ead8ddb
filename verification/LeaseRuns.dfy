/** What holds over every run of the lease transactions. */
module LeaseRuns {
  import opened Common
  import opened Leases

  type LeaseMap = map<nat, Lease>
  type InstanceMap = map<InstanceId, Instance>
  type CommandMap = map<nat, Command>

  /** No two active leases share a match or an instance. */
  ghost predicate OneEach(leases: LeaseMap) {
    forall a, b :: a in leases && b in leases && a != b && leases[a].status == Active && leases[b].status == Active ==>
      leases[a].match_ != leases[b].match_ && leases[a].instance != leases[b].instance
  }

  /** Fencing tokens are distinct, and an active lease holds the largest issued for its instance. */
  ghost predicate TokensOk(leases: LeaseMap, last: nat) {
    && (forall l :: l in leases ==> leases[l].token <= last)
    && (forall a, b :: a in leases && b in leases && a != b ==> leases[a].token != leases[b].token)
    && (forall a, b :: a in leases && b in leases && leases[b].status == Active && leases[a].instance == leases[b].instance ==>
          leases[a].token <= leases[b].token)
  }

  /** An instance's pointer names an active lease on it; a leased instance has one. */
  ghost predicate PointersOk(instances: InstanceMap, leases: LeaseMap) {
    && (forall l :: l in leases ==> leases[l].instance in instances)
    && (forall i :: i in instances && instances[i].activeLease.Some? ==>
          var l := instances[i].activeLease.value;
          l in leases && leases[l].status == Active && leases[l].instance == i)
    && (forall i :: i in instances && instances[i].state == Leased ==> instances[i].activeLease.Some?)
  }

  /** Only claimed commands carry an open claim, each its own, and every claim was handed out. */
  ghost predicate ClaimsOk(commands: CommandMap, claims: set<nat>) {
    && (forall c :: c in commands && commands[c].claim.Some? ==> commands[c].claim.value in claims)
    && (forall c, d :: c in commands && d in commands && c != d && commands[c].claim.Some? ==> commands[c].claim != commands[d].claim)
    && (forall c :: c in commands && commands[c].status == Waiting ==> commands[c].claim.None?)
    && (forall c :: c in commands && commands[c].status == Claimed ==> commands[c].claim.Some?)
  }

  ghost predicate Inv(s: Control) {
    OneEach(s.leases) && TokensOk(s.leases, s.last) && PointersOk(s.instances, s.leases) && ClaimsOk(s.commands, s.claims)
  }

  // ---- Leases and instances ----

  lemma AllocateKeepsLeases(leases: LeaseMap, last: nat, l: nat, lease: Lease)
    requires OneEach(leases) && TokensOk(leases, last) && l !in leases
    requires lease.status == Active && lease.token == last + 1
    requires ActiveFor(leases, lease.match_) == {} && ActiveOn(leases, lease.instance) == {}
    ensures OneEach(leases[l := lease]) && TokensOk(leases[l := lease], last + 1)
  {
    forall a | a in leases && leases[a].status == Active ensures leases[a].match_ != lease.match_ && leases[a].instance != lease.instance {
      assert a !in ActiveFor(leases, lease.match_) && a !in ActiveOn(leases, lease.instance);
    }
  }

  lemma AllocateKeepsPointers(instances: InstanceMap, leases: LeaseMap, l: nat, lease: Lease)
    requires PointersOk(instances, leases) && l !in leases && lease.status == Active && lease.instance in instances
    ensures PointersOk(instances[lease.instance := Instance(Leased, Some(l))], leases[l := lease])
  {
  }

  lemma EndKeepsLeases(leases: LeaseMap, last: nat, l: nat, status: LeaseStatus)
    requires OneEach(leases) && TokensOk(leases, last) && l in leases && status != Active
    ensures OneEach(leases[l := leases[l].(status := status)]) && TokensOk(leases[l := leases[l].(status := status)], last)
  {
  }

  /** The ended lease was its instance's only active one, so no pointer is left dangling. */
  lemma EndKeepsPointers(instances: InstanceMap, leases: LeaseMap, l: nat, status: LeaseStatus, state: State)
    requires PointersOk(instances, leases) && l in leases && status != Active && state != Leased
    ensures PointersOk(instances[leases[l].instance := Instance(state, None)], leases[l := leases[l].(status := status)])
  {
    var instances2, leases2 := instances[leases[l].instance := Instance(state, None)], leases[l := leases[l].(status := status)];
    forall i | i in instances2 && instances2[i].activeLease.Some?
      ensures instances2[i].activeLease.value in leases2 && leases2[instances2[i].activeLease.value].status == Active
           && leases2[instances2[i].activeLease.value].instance == i
    {
      assert i in instances && instances2[i] == instances[i];
      assert leases[instances[i].activeLease.value].instance == i;
    }
  }

  lemma NewCommandKeepsClaims(commands: CommandMap, claims: set<nat>, c: nat, command: Command)
    requires ClaimsOk(commands, claims) && c !in commands && command.status == Waiting && command.claim.None?
    ensures ClaimsOk(commands[c := command], claims)
  {
  }

  lemma EndLeaseKeepsInv(s: Control, l: nat, status: LeaseStatus, state: State)
    requires Inv(s) && l in s.leases && status != Active && state != Leased
    ensures Inv(EndLease(s, l, status, state))
  {
    EndKeepsLeases(s.leases, s.last, l, status);
    EndKeepsPointers(s.instances, s.leases, l, status, state);
  }

  lemma QuarantineKeepsInv(s: Control, l: nat, c: nat, pendingResults: set<nat>, now: int)
    requires Inv(s) && l in s.leases && c !in s.commands
    ensures Inv(QuarantineFailure(s, l, c, pendingResults, now))
  {
    EndLeaseKeepsInv(s, l, Expired, Quarantined);
    NewCommandKeepsClaims(s.commands, s.claims, c,
                          NewCommand(s.leases[l].instance.node, Quarantine, Some(s.leases[l].instance), MAX_ATTEMPTS, now));
  }

  /** A failed lease ends its match: nothing waits or plays on, unless a result of a live match is still on its way. */
  lemma FailureEndsMatch(s: Control, l: nat, c: nat, pendingResults: set<nat>, now: int)
    requires Inv(s) && l in s.leases && s.leases[l].match_ in s.matches
    ensures var m, d := s.leases[l].match_, QuarantineFailure(s, l, c, pendingResults, now);
      && d.matches[m] != Pending
      && (d.matches[m] == Live <==> s.matches[m] == Live && m in pendingResults)
      && (s.matches[m] in {Over, Cancelled} ==> d.matches[m] == s.matches[m])
      && (forall x :: x in s.matches && x != m ==> d.matches[x] == s.matches[x])
      && (s.leases[l].status == Active ==> ActiveOn(d.leases, s.leases[l].instance) == {} && ActiveFor(d.leases, m) == {})
  {
    var d := QuarantineFailure(s, l, c, pendingResults, now);
    if s.leases[l].status == Active {
      assert forall a :: a in ActiveOn(s.leases, s.leases[l].instance) ==> a == l;
      assert forall a :: a in ActiveFor(s.leases, s.leases[l].match_) ==> a == l;
      assert ActiveOn(d.leases, s.leases[l].instance) <= ActiveOn(s.leases, s.leases[l].instance) - {l};
      assert ActiveFor(d.leases, s.leases[l].match_) <= ActiveFor(s.leases, s.leases[l].match_) - {l};
    }
  }

  lemma ReleaseKeepsInv(s: Control, l: nat, c: nat, now: int)
    requires Inv(s) && c !in s.commands
    ensures Inv(Release(s, l, c, now).0)
  {
    if Release(s, l, c, now).1 {
      EndLeaseKeepsInv(s, l, Released, Draining);
      NewCommandKeepsClaims(s.commands, s.claims, c,
                            NewCommand(s.leases[l].instance.node, Drain, Some(s.leases[l].instance), MAX_ATTEMPTS, now));
    }
  }

  lemma AllocatedKeepsInv(s: Control, m: nat, i: InstanceId, l: nat, c: nat, expiresAt: int, now: int)
    requires Inv(s) && l !in s.leases && c !in s.commands && i in s.instances
    requires ActiveFor(s.leases, m) == {} && ActiveOn(s.leases, i) == {}
    ensures Inv(Allocated(s.(last := s.last + 1), m, i, l, c, expiresAt, now))
  {
    var lease := Lease(m, i, s.last + 1, Active, expiresAt);
    AllocateKeepsLeases(s.leases, s.last, l, lease);
    AllocateKeepsPointers(s.instances, s.leases, l, lease);
    NewCommandKeepsClaims(s.commands, s.claims, c, NewCommand(i.node, Prepare, None, MAX_ATTEMPTS, now));
  }

  lemma LeaseReadyKeepsInv(s: Control, m: nat, pick: Option<InstanceId>, l: nat, c: nat, expiresAt: int, now: int)
    requires Inv(s) && l !in s.leases && c !in s.commands
    ensures Inv(LeaseReady(s, m, pick, l, c, expiresAt, now).0)
  {
    var (d, reply) := LeaseReady(s, m, pick, l, c, expiresAt, now);
    LeaseReadyIs(s, m, pick, l, c, expiresAt, now);
    if d != s {
      BurnKeepsInv(s);
      if reply.Granted? {
        AllocatedKeepsInv(s, m, pick.value, l, c, expiresAt, now);
      }
    }
  }

  /** An allocation changes nothing, or burns a token, or leases a ready instance that the indexes allow. */
  lemma LeaseReadyIs(s: Control, m: nat, pick: Option<InstanceId>, l: nat, c: nat, expiresAt: int, now: int)
    ensures var (d, reply) := LeaseReady(s, m, pick, l, c, expiresAt, now);
      var burned := s.(last := s.last + 1);
      || d == s
      || (!reply.Granted? && d == burned)
      || (reply.Granted? && pick.Some? && pick.value in s.instances && s.instances[pick.value].state == Ready
          && ActiveFor(s.leases, m) == {} && ActiveOn(s.leases, pick.value) == {}
          && d == Allocated(burned, m, pick.value, l, c, expiresAt, now))
  {
  }

  /** A token drawn for an allocation that failed leaves a gap and nothing else. */
  lemma BurnKeepsInv(s: Control)
    requires Inv(s)
    ensures Inv(s.(last := s.last + 1))
  {
  }

  lemma RestateKeepsPointers(instances: InstanceMap, leases: LeaseMap, i: InstanceId, row: Instance)
    requires PointersOk(instances, leases)
    requires row.activeLease.Some? ==> i in instances && row.activeLease == instances[i].activeLease
    requires row.state == Leased ==> row.activeLease.Some?
    ensures PointersOk(instances[i := row], leases)
  {
  }

  lemma WakeKeepsInv(s: Control, pick: Option<InstanceId>, c: nat, now: int)
    requires Inv(s) && c !in s.commands
    ensures Inv(Wake(s, pick, c, now))
  {
    var d := Wake(s, pick, c, now);
    if d != s {
      var i := pick.value;
      RestateKeepsPointers(s.instances, s.leases, i, s.instances[i].(state := Starting));
      NewCommandKeepsClaims(s.commands, s.claims, c, NewCommand(i.node, Start, Some(i), MAX_ATTEMPTS, now));
    }
  }

  lemma HeardKeepsInv(s: Control, node: nat, r: Report, c: nat, pendingResults: set<nat>, now: int)
    requires Inv(s) && ReportOk(r) && c !in s.commands
    ensures Inv(Heard(s, node, r, c, pendingResults, now))
    ensures Heard(s, node, r, c, pendingResults, now).commands.Keys <= s.commands.Keys + {c}
  {
    var i := InstanceId(node, r.key);
    var seen := s.(instances := s.instances[i := Observed(s, i, r.state)]);
    RestateKeepsPointers(s.instances, s.leases, i, Observed(s, i, r.state));
    if Died(seen, i, r) {
      QuarantineKeepsInv(seen, r.authority.value.0, c, pendingResults, now);
    }
  }

  lemma {:induction false} HeardAllKeepsInv(s: Control, node: nat, reports: seq<Report>, cs: seq<nat>, pendingResults: set<nat>, now: int)
    requires Inv(s) && |cs| == |reports| && Distinct(cs) && (forall c :: c in cs ==> c !in s.commands)
    requires forall r :: r in reports ==> ReportOk(r)
    ensures Inv(HeardAll(s, node, reports, cs, pendingResults, now))
    decreases |reports|
  {
    if reports != [] {
      HeardKeepsInv(s, node, reports[0], cs[0], pendingResults, now);
      HeardAllKeepsInv(Heard(s, node, reports[0], cs[0], pendingResults, now), node, reports[1..], cs[1..], pendingResults, now);
    }
  }

  lemma ReclaimKeepsClaims(commands: CommandMap, claims: set<nat>, node: nat, now: int)
    requires ClaimsOk(commands, claims)
    ensures ClaimsOk(Reclaimed(commands, node, now), claims)
  {
  }

  lemma {:induction false} ClaimAllKeepsInv(s: Control, node: nat, picks: seq<(nat, nat)>, now: int, deferDrain: bool)
    requires Inv(s) && (forall k :: 0 <= k < |picks| ==> picks[k].1 !in s.claims)
    requires forall j, k :: 0 <= j < k < |picks| ==> picks[j].1 != picks[k].1
    ensures Inv(ClaimAll(s, node, picks, now, deferDrain))
    decreases |picks|
  {
    if picks != [] {
      var (c, claim) := picks[0];
      var next := if Claimable(s, node, c, now, deferDrain) then ClaimOne(s, c, claim, now) else s;
      assert forall k :: 0 <= k < |picks[1..]| ==> picks[1..][k] == picks[k + 1];
      ClaimAllKeepsInv(next, node, picks[1..], now, deferDrain);
    }
  }

  lemma {:induction false} SweepKeepsInv(s: Control, found: seq<nat>, cs: seq<nat>, pendingResults: set<nat>, now: int)
    requires Inv(s) && |cs| == |found| && Distinct(cs) && forall c :: c in cs ==> c !in s.commands
    ensures Inv(SweepExpired(s, found, cs, pendingResults, now))
    decreases |found|
  {
    if found != [] {
      var due := found[0] in s.leases && s.leases[found[0]].status == Active && s.leases[found[0]].expiresAt <= now
                 && s.leases[found[0]].instance in s.instances;
      if due {
        QuarantineKeepsInv(s, found[0], cs[0], pendingResults, now);
      }
      SweepKeepsInv(if due then QuarantineFailure(s, found[0], cs[0], pendingResults, now) else s, found[1..], cs[1..], pendingResults, now);
    }
  }

  lemma AnswerKeepsClaims(commands: CommandMap, claims: set<nat>, c: nat, succeeded: bool, now: int)
    requires ClaimsOk(commands, claims) && c in commands
    ensures ClaimsOk(commands[c := Answered(commands[c], succeeded, now)], claims)
  {
  }

  lemma EffectKeepsPointers(instances: InstanceMap, leases: LeaseMap, i: InstanceId, kind: CommandKind,
                            succeeded: bool, terminal: bool, wentOffline: bool)
    requires PointersOk(instances, leases) && i in instances
    ensures PointersOk(instances[i := Effect(instances[i], kind, succeeded, terminal, wentOffline)], leases)
  {
    RestateKeepsPointers(instances, leases, i, Effect(instances[i], kind, succeeded, terminal, wentOffline));
  }

  /** An acknowledgement that counts changes the command's row and at most its instance's. */
  lemma AcknowledgeIs(s: Control, node: nat, c: nat, claim: nat, succeeded: bool, wentOffline: bool, now: int)
    requires Acknowledgeable(s, node, c, claim)
    ensures var command := s.commands[c];
      var d := Acknowledge(s, node, c, claim, succeeded, wentOffline, now).0;
      && d == s.(commands := s.commands[c := Answered(command, succeeded, now)], instances := d.instances)
      && (d.instances == s.instances
          || (command.instance.Some? && command.instance.value in s.instances
              && d.instances == s.instances[command.instance.value :=
                   Effect(s.instances[command.instance.value], command.kind, succeeded,
                          !succeeded && command.attempts >= command.maxAttempts, wentOffline)]))
  {
  }

  lemma AcknowledgeKeepsInv(s: Control, node: nat, c: nat, claim: nat, succeeded: bool, wentOffline: bool, now: int)
    requires Inv(s)
    ensures Inv(Acknowledge(s, node, c, claim, succeeded, wentOffline, now).0)
  {
    if Acknowledgeable(s, node, c, claim) {
      AcknowledgeIs(s, node, c, claim, succeeded, wentOffline, now);
      AnswerKeepsClaims(s.commands, s.claims, c, succeeded, now);
      var command := s.commands[c];
      if command.instance.Some? && command.instance.value in s.instances {
        EffectKeepsPointers(s.instances, s.leases, command.instance.value, command.kind, succeeded,
                            !succeeded && command.attempts >= command.maxAttempts, wentOffline);
      }
    }
  }

  // ---- Runs ----

  datatype Op =
    | DoHeartbeat(node: nat, reports: seq<Report>, newCommands: seq<nat>, picks: seq<(nat, nat)>, pendingResults: set<nat>,
                  now: int, deferDrain: bool)
    | DoAcknowledge(node: nat, command: nat, claim: nat, succeeded: bool, wentOffline: bool, now: int)
    | DoEnqueue(command: nat, node: nat, kind: CommandKind, instance: Option<InstanceId>, now: int)
    | DoLease(match_: nat, pick: Option<InstanceId>, lease: nat, command: nat, expiresAt: int, now: int)
    | DoWake(pick: Option<InstanceId>, command: nat, now: int)
    | DoRelease(lease: nat, command: nat, now: int)
    | DoSweep(found: seq<nat>, newCommands: seq<nat>, pendingResults: set<nat>, now: int)
    | DoMatch(match_: nat, status: MatchStatus)

  /** New leases, commands and claim tokens get new numbers. */
  ghost predicate Enabled(s: Control, op: Op) {
    match op
    case DoHeartbeat(_, reports, cs, picks, _, _, _) =>
      && |cs| == |reports| && Distinct(cs) && (forall c :: c in cs ==> c !in s.commands)
      && (forall r :: r in reports ==> ReportOk(r))
      && (forall k :: 0 <= k < |picks| ==> picks[k].1 !in s.claims)
      && (forall j, k :: 0 <= j < k < |picks| ==> picks[j].1 != picks[k].1)
    case DoEnqueue(c, _, _, _, _) => c !in s.commands
    case DoLease(_, _, l, c, _, _) => l !in s.leases && c !in s.commands
    case DoWake(_, c, _) => c !in s.commands
    case DoRelease(_, c, _) => c !in s.commands
    case DoSweep(found, cs, _, _) => |cs| == |found| && Distinct(cs) && forall c :: c in cs ==> c !in s.commands
    case _ => true
  }

  function Apply(s: Control, op: Op): Control {
    match op
    case DoHeartbeat(node, reports, cs, picks, pendingResults, now, deferDrain) =>
      if |cs| == |reports| then Heartbeat(s, node, reports, cs, picks, pendingResults, now, deferDrain) else s
    case DoAcknowledge(node, c, claim, succeeded, wentOffline, now) => Acknowledge(s, node, c, claim, succeeded, wentOffline, now).0
    case DoEnqueue(c, node, kind, instance, now) => Enqueue(s, c, node, kind, instance, now)
    case DoLease(m, pick, l, c, expiresAt, now) => LeaseReady(s, m, pick, l, c, expiresAt, now).0
    case DoWake(pick, c, now) => Wake(s, pick, c, now)
    case DoRelease(l, c, now) => Release(s, l, c, now).0
    case DoSweep(found, cs, pendingResults, now) => if |cs| == |found| then SweepExpired(s, found, cs, pendingResults, now) else s
    case DoMatch(m, status) => s.(matches := s.matches[m := status])
  }

  lemma {:induction false} HeardAllKeepsClaimHistory(s: Control, node: nat, reports: seq<Report>, cs: seq<nat>, pendingResults: set<nat>, now: int)
    requires |cs| == |reports|
    ensures HeardAll(s, node, reports, cs, pendingResults, now).claims == s.claims
    decreases |reports|
  {
    if reports != [] {
      HeardAllKeepsClaimHistory(Heard(s, node, reports[0], cs[0], pendingResults, now), node, reports[1..], cs[1..], pendingResults, now);
    }
  }

  lemma HeartbeatKeepsInv(s: Control, op: Op)
    requires Inv(s) && op.DoHeartbeat? && Enabled(s, op)
    ensures Inv(Apply(s, op))
  {
    HeardAllKeepsInv(s, op.node, op.reports, op.newCommands, op.pendingResults, op.now);
    HeardAllKeepsClaimHistory(s, op.node, op.reports, op.newCommands, op.pendingResults, op.now);
    var heard := HeardAll(s, op.node, op.reports, op.newCommands, op.pendingResults, op.now);
    ReclaimKeepsClaims(heard.commands, heard.claims, op.node, op.now);
    ClaimAllKeepsInv(heard.(commands := Reclaimed(heard.commands, op.node, op.now)), op.node, op.picks, op.now, op.deferDrain);
  }

  lemma StepKeepsInv(s: Control, op: Op)
    requires Inv(s) && Enabled(s, op)
    ensures Inv(Apply(s, op))
  {
    match op
    case DoHeartbeat(_, _, _, _, _, _, _) => HeartbeatKeepsInv(s, op);
    case DoAcknowledge(node, c, claim, succeeded, wentOffline, now) => AcknowledgeKeepsInv(s, node, c, claim, succeeded, wentOffline, now);
    case DoEnqueue(c, node, kind, instance, now) =>
      NewCommandKeepsClaims(s.commands, s.claims, c, NewCommand(node, kind, instance, MAX_ATTEMPTS, now));
    case DoLease(m, pick, l, c, expiresAt, now) => LeaseReadyKeepsInv(s, m, pick, l, c, expiresAt, now);
    case DoWake(pick, c, now) => WakeKeepsInv(s, pick, c, now);
    case DoRelease(l, c, now) => ReleaseKeepsInv(s, l, c, now);
    case DoSweep(found, cs, pendingResults, now) => SweepKeepsInv(s, found, cs, pendingResults, now);
    case DoMatch(_, _) =>
  }

  function Run(s: Control, ops: seq<Op>): Control
    decreases |ops|
  {
    if ops == [] then s else Run(Apply(s, ops[0]), ops[1..])
  }

  ghost predicate ValidRun(s: Control, ops: seq<Op>)
    decreases |ops|
  {
    ops == [] || (Enabled(s, ops[0]) && ValidRun(Apply(s, ops[0]), ops[1..]))
  }

  /** In every run, whatever interleaves: one active lease per match and instance, honest pointers, rising fences. */
  lemma {:induction false} RunKeepsInv(s: Control, ops: seq<Op>)
    requires Inv(s) && ValidRun(s, ops)
    ensures Inv(Run(s, ops))
    decreases |ops|
  {
    if ops != [] {
      StepKeepsInv(s, ops[0]);
      RunKeepsInv(Apply(s, ops[0]), ops[1..]);
    }
  }

  const EMPTY: Control := Control(map[], map[], map[], map[], 0, {})

  /** So in every state reached from empty tables. */
  lemma ReachableInv(ops: seq<Op>)
    requires ValidRun(EMPTY, ops)
    ensures Inv(Run(EMPTY, ops))
  {
    RunKeepsInv(EMPTY, ops);
  }
}
