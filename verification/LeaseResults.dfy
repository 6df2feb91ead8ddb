/** When a free-looking server really is free, and why no acknowledgement counts twice. */
module LeaseResults {
  import opened Common
  import opened Leases
  import opened LeaseRuns

  // ---- Free-looking instances ----

  predicate LooksFree(state: State) {
    state in {Ready, Starting, Offline, Draining}
  }

  /** An instance that looks free carries no active lease. */
  ghost predicate FreeIsFree(instances: InstanceMap, leases: LeaseMap) {
    forall i :: i in instances && LooksFree(instances[i].state) ==> ActiveOn(leases, i) == {}
  }

  /** The step that breaks it: a successful unquarantine of an instance that still has an active lease. */
  predicate FreesLeased(s: Control, op: Op) {
    && op.DoAcknowledge? && op.succeeded && Acknowledgeable(s, op.node, op.command, op.claim)
    && s.commands[op.command].kind == Unquarantine
    && s.commands[op.command].instance.Some?
    && s.commands[op.command].instance.value.node == op.node
    && s.commands[op.command].instance.value in s.instances
    && s.instances[s.commands[op.command].instance.value].state == Quarantined
    && ActiveOn(s.leases, s.commands[op.command].instance.value) != {}
  }

  lemma RestateKeepsFree(instances: InstanceMap, leases: LeaseMap, i: InstanceId, row: Instance)
    requires FreeIsFree(instances, leases)
    requires LooksFree(row.state) ==> ActiveOn(leases, i) == {}
    ensures FreeIsFree(instances[i := row], leases)
  {
  }

  lemma AllocateKeepsFree(instances: InstanceMap, leases: LeaseMap, l: nat, lease: Lease)
    requires FreeIsFree(instances, leases) && l !in leases
    ensures FreeIsFree(instances[lease.instance := Instance(Leased, Some(l))], leases[l := lease])
  {
    var instances2, leases2 := instances[lease.instance := Instance(Leased, Some(l))], leases[l := lease];
    forall i | i in instances2 && LooksFree(instances2[i].state) ensures ActiveOn(leases2, i) == {} {
      assert ActiveOn(leases2, i) == ActiveOn(leases, i);
    }
  }

  lemma EndKeepsFree(instances: InstanceMap, leases: LeaseMap, l: nat, status: LeaseStatus, state: State)
    requires FreeIsFree(instances, leases) && OneEach(leases) && l in leases && leases[l].status == Active && status != Active
    ensures FreeIsFree(instances[leases[l].instance := Instance(state, None)], leases[l := leases[l].(status := status)])
  {
    var i0 := leases[l].instance;
    var instances2, leases2 := instances[i0 := Instance(state, None)], leases[l := leases[l].(status := status)];
    forall i | i in instances2 && LooksFree(instances2[i].state) ensures ActiveOn(leases2, i) == {} {
      if i == i0 {
        assert forall a :: a in ActiveOn(leases, i0) ==> a == l;
      } else {
        assert ActiveOn(leases2, i) == ActiveOn(leases, i);
      }
    }
  }

  lemma NewInstanceFree(instances: InstanceMap, leases: LeaseMap, i: InstanceId)
    requires PointersOk(instances, leases) && i !in instances
    ensures ActiveOn(leases, i) == {}
  {
  }

  lemma HeardKeepsFree(s: Control, node: nat, r: Report, c: nat, pendingResults: set<nat>, now: int)
    requires Inv(s) && FreeIsFree(s.instances, s.leases)
    ensures var d := Heard(s, node, r, c, pendingResults, now);
      FreeIsFree(d.instances, d.leases)
  {
    var i := InstanceId(node, r.key);
    if i !in s.instances {
      NewInstanceFree(s.instances, s.leases, i);
    }
    var seen := s.(instances := s.instances[i := Observed(s, i, r.state)]);
    RestateKeepsFree(s.instances, s.leases, i, Observed(s, i, r.state));
    if Died(seen, i, r) {
      EndKeepsFree(seen.instances, seen.leases, r.authority.value.0, Expired, Quarantined);
    }
  }

  lemma {:induction false} HeardAllKeepsFree(s: Control, node: nat, reports: seq<Report>, cs: seq<nat>, pendingResults: set<nat>, now: int)
    requires Inv(s) && FreeIsFree(s.instances, s.leases) && |cs| == |reports| && Distinct(cs) && (forall c :: c in cs ==> c !in s.commands)
    requires forall r :: r in reports ==> ReportOk(r)
    ensures var d := HeardAll(s, node, reports, cs, pendingResults, now);
      FreeIsFree(d.instances, d.leases)
    decreases |reports|
  {
    if reports != [] {
      HeardKeepsInv(s, node, reports[0], cs[0], pendingResults, now);
      HeardKeepsFree(s, node, reports[0], cs[0], pendingResults, now);
      HeardAllKeepsFree(Heard(s, node, reports[0], cs[0], pendingResults, now), node, reports[1..], cs[1..], pendingResults, now);
    }
  }

  lemma {:induction false} ClaimAllFrame(s: Control, node: nat, picks: seq<(nat, nat)>, now: int, deferDrain: bool)
    ensures var d := ClaimAll(s, node, picks, now, deferDrain);
      d.instances == s.instances && d.leases == s.leases
    decreases |picks|
  {
    if picks != [] {
      var (c, claim) := picks[0];
      ClaimAllFrame(if Claimable(s, node, c, now, deferDrain) then ClaimOne(s, c, claim, now) else s, node, picks[1..], now, deferDrain);
    }
  }

  lemma {:induction false} SweepKeepsFree(s: Control, found: seq<nat>, cs: seq<nat>, pendingResults: set<nat>, now: int)
    requires Inv(s) && FreeIsFree(s.instances, s.leases) && |cs| == |found| && Distinct(cs) && forall c :: c in cs ==> c !in s.commands
    ensures var d := SweepExpired(s, found, cs, pendingResults, now);
      FreeIsFree(d.instances, d.leases)
    decreases |found|
  {
    if found != [] {
      var due := found[0] in s.leases && s.leases[found[0]].status == Active && s.leases[found[0]].expiresAt <= now
                 && s.leases[found[0]].instance in s.instances;
      if due {
        QuarantineKeepsInv(s, found[0], cs[0], pendingResults, now);
        EndKeepsFree(s.instances, s.leases, found[0], Expired, Quarantined);
      }
      SweepKeepsFree(if due then QuarantineFailure(s, found[0], cs[0], pendingResults, now) else s, found[1..], cs[1..], pendingResults, now);
    }
  }

  predicate Touches(s: Control, op: Op)
    requires op.DoAcknowledge?
  {
    && Acknowledgeable(s, op.node, op.command, op.claim)
    && s.commands[op.command].instance.Some? && s.commands[op.command].instance.value in s.instances
    && s.commands[op.command].instance.value.node == op.node
  }

  /** An acknowledgement changes at most the row of its command's instance. */
  lemma AcknowledgeRow(s: Control, op: Op)
    requires op.DoAcknowledge?
    ensures var d := Apply(s, op);
      && d.leases == s.leases
      && if !Touches(s, op) then d.instances == s.instances
         else
           var command := s.commands[op.command];
           var i := command.instance.value;
           d.instances == s.instances[i := Effect(s.instances[i], command.kind, op.succeeded,
                                                  !op.succeeded && command.attempts >= command.maxAttempts, op.wentOffline)]
  {
  }

  /** Acknowledging keeps free instances free exactly when it does not unquarantine a leased one. */
  lemma AcknowledgeFree(s: Control, op: Op)
    requires Inv(s) && FreeIsFree(s.instances, s.leases) && op.DoAcknowledge?
    ensures FreeIsFree(Apply(s, op).instances, Apply(s, op).leases) <==> !FreesLeased(s, op)
  {
    AcknowledgeRow(s, op);
    if FreesLeased(s, op) {
      var i := s.commands[op.command].instance.value;
      var d := Apply(s, op);
      assert i in d.instances && LooksFree(d.instances[i].state) && ActiveOn(d.leases, i) != {};
    } else if Touches(s, op) {
      var i := s.commands[op.command].instance.value;
      RestateKeepsFree(s.instances, s.leases, i, Apply(s, op).instances[i]);
    }
  }

  lemma HeartbeatKeepsFree(s: Control, node: nat, reports: seq<Report>, cs: seq<nat>, picks: seq<(nat, nat)>,
                           pendingResults: set<nat>, now: int, deferDrain: bool)
    requires Inv(s) && FreeIsFree(s.instances, s.leases) && |cs| == |reports| && Distinct(cs) && (forall c :: c in cs ==> c !in s.commands)
    requires forall r :: r in reports ==> ReportOk(r)
    ensures var d := Heartbeat(s, node, reports, cs, picks, pendingResults, now, deferDrain);
      FreeIsFree(d.instances, d.leases)
  {
    HeardAllKeepsFree(s, node, reports, cs, pendingResults, now);
    var heard := HeardAll(s, node, reports, cs, pendingResults, now);
    ClaimAllFrame(heard.(commands := Reclaimed(heard.commands, node, now)), node, picks, now, deferDrain);
  }

  lemma LeaseReadyKeepsFree(s: Control, m: nat, pick: Option<InstanceId>, l: nat, c: nat, expiresAt: int, now: int)
    requires Inv(s) && FreeIsFree(s.instances, s.leases) && l !in s.leases
    ensures var d := LeaseReady(s, m, pick, l, c, expiresAt, now).0;
      FreeIsFree(d.instances, d.leases)
  {
    if LeaseReady(s, m, pick, l, c, expiresAt, now).1.Granted? {
      AllocateKeepsFree(s.instances, s.leases, l, Lease(m, pick.value, s.last + 1, Active, expiresAt));
    }
  }

  lemma OtherStepsFree(s: Control, op: Op)
    requires Inv(s) && Enabled(s, op) && FreeIsFree(s.instances, s.leases) && !op.DoAcknowledge?
    ensures FreeIsFree(Apply(s, op).instances, Apply(s, op).leases)
  {
    match op
    case DoHeartbeat(node, reports, cs, picks, pendingResults, now, deferDrain) =>
      HeartbeatKeepsFree(s, node, reports, cs, picks, pendingResults, now, deferDrain);
    case DoEnqueue(_, _, _, _, _) =>
    case DoLease(m, pick, l, c, expiresAt, now) =>
      LeaseReadyKeepsFree(s, m, pick, l, c, expiresAt, now);
    case DoWake(pick, c, now) =>
      if Apply(s, op) != s {
        RestateKeepsFree(s.instances, s.leases, pick.value, s.instances[pick.value].(state := Starting));
      }
    case DoRelease(l, c, now) =>
      if Release(s, l, c, now).1 {
        EndKeepsFree(s.instances, s.leases, l, Released, Draining);
      }
    case DoSweep(found, cs, pendingResults, now) => SweepKeepsFree(s, found, cs, pendingResults, now);
    case DoMatch(_, _) =>
  }

  /** Exactly one kind of step can make a leased instance look free. */
  lemma FreeBreaksOnlyByUnquarantine(s: Control, op: Op)
    requires Inv(s) && Enabled(s, op) && FreeIsFree(s.instances, s.leases)
    ensures FreeIsFree(Apply(s, op).instances, Apply(s, op).leases) <==> !FreesLeased(s, op)
  {
    if op.DoAcknowledge? {
      AcknowledgeFree(s, op);
    } else {
      OtherStepsFree(s, op);
    }
  }

  ghost predicate Guarded(s: Control, ops: seq<Op>)
    decreases |ops|
  {
    ops == [] || (!FreesLeased(s, ops[0]) && Guarded(Apply(s, ops[0]), ops[1..]))
  }

  /** As long as nobody unquarantines a leased instance, every instance that looks free is free. */
  lemma {:induction false} GuardedRunsStayFree(s: Control, ops: seq<Op>)
    requires Inv(s) && ValidRun(s, ops) && FreeIsFree(s.instances, s.leases) && Guarded(s, ops)
    ensures FreeIsFree(Run(s, ops).instances, Run(s, ops).leases)
    decreases |ops|
  {
    if ops != [] {
      StepKeepsInv(s, ops[0]);
      FreeBreaksOnlyByUnquarantine(s, ops[0]);
      GuardedRunsStayFree(Apply(s, ops[0]), ops[1..]);
    }
  }

  const SERVER: InstanceId := InstanceId(1, 1)

  /** A server reports ready and is leased. */
  const LEASING: seq<Op> := [
    DoHeartbeat(1, [Report(1, Ready, None, false)], [0], [], {}, 0, false),
    DoLease(7, Some(SERVER), 70, 100, 1000, 0)]

  /** Its node gets a command for it under a claim. */
  function Commanding(c: nat, kind: CommandKind, claim: nat): seq<Op> {
    [DoEnqueue(c, 1, kind, Some(SERVER), 0), DoHeartbeat(1, [], [], [(c, claim)], {}, 0, false)]
  }

  /** A server is leased, quarantined by command, then unquarantined while its lease is still active. */
  const UNGUARDED: seq<Op> :=
    LEASING + (Commanding(101, Quarantine, 201) + ([DoAcknowledge(1, 101, 201, true, false, 0)]
    + (Commanding(102, Unquarantine, 202) + ([DoAcknowledge(1, 102, 202, true, false, 0)] + []))))

  lemma OneStep(s: Control, op: Op, d: Control, rest: seq<Op>)
    requires Enabled(s, op) && Apply(s, op) == d
    ensures Run(s, [op] + rest) == Run(d, rest)
    ensures ValidRun(s, [op] + rest) <==> ValidRun(d, rest)
  {
    assert ([op] + rest)[1..] == rest;
  }

  lemma TwoSteps(s: Control, a: Op, mid: Control, b: Op, d: Control, rest: seq<Op>)
    requires Enabled(s, a) && Apply(s, a) == mid && Enabled(mid, b) && Apply(mid, b) == d
    ensures Run(s, [a, b] + rest) == Run(d, rest)
    ensures ValidRun(s, [a, b] + rest) <==> ValidRun(d, rest)
  {
    OneStep(mid, b, d, rest);
    OneStep(s, a, mid, [b] + rest);
    assert [a, b] + rest == [a] + ([b] + rest);
  }

  lemma QuietHeartbeat(s: Control, c: nat, claim: nat)
    requires c in s.commands && s.commands[c] == NewCommand(1, s.commands[c].kind, s.commands[c].instance, MAX_ATTEMPTS, 0)
    requires forall x :: x in s.commands && s.commands[x].status == Claimed ==> s.commands[x].claimedAt == 0
    ensures Apply(s, DoHeartbeat(1, [], [], [(c, claim)], {}, 0, false)) == ClaimOne(s, c, claim, 0)
  {
    var picks: seq<(nat, nat)> := [(c, claim)];
    assert Reclaimed(s.commands, 1, 0) == s.commands;
    assert s.(commands := Reclaimed(s.commands, 1, 0)) == s;
    assert HeardAll(s, 1, [], [], {}, 0) == s;
    assert picks[1..] == [];
    assert ClaimAll(s, 1, picks, 0, false) == ClaimOne(s, c, claim, 0);
  }

  const LEASED: Control :=
    Control(map[SERVER := Instance(Leased, Some(70))], map[70 := Lease(7, SERVER, 1, Active, 1000)],
            map[100 := NewCommand(1, Prepare, None, MAX_ATTEMPTS, 0)], map[], 1, {})

  /** The server while its first command is claimed. */
  const HELD: Control := ClaimOne(Enqueue(LEASED, 101, 1, Quarantine, Some(SERVER), 0), 101, 201, 0)

  const SET_ASIDE: Control :=
    HELD.(commands := HELD.commands[101 := HELD.commands[101].(status := Completed)],
          instances := HELD.instances[SERVER := Instance(Quarantined, Some(70))])

  const RECALLED: Control := ClaimOne(Enqueue(SET_ASIDE, 102, 1, Unquarantine, Some(SERVER), 0), 102, 202, 0)

  const FREED: Control :=
    RECALLED.(commands := RECALLED.commands[102 := RECALLED.commands[102].(status := Completed)],
              instances := RECALLED.instances[SERVER := Instance(Ready, Some(70))])

  lemma LeasingRun(rest: seq<Op>)
    ensures Run(EMPTY, LEASING + rest) == Run(LEASED, rest)
    ensures ValidRun(EMPTY, LEASING + rest) <==> ValidRun(LEASED, rest)
  {
    var s1 := Control(map[SERVER := Instance(Ready, None)], map[], map[], map[], 0, {});
    FirstHeartbeat(s1);
    FirstLease(s1, LEASED);
    TwoSteps(EMPTY, LEASING[0], s1, LEASING[1], LEASED, rest);
    assert LEASING == [LEASING[0], LEASING[1]];
  }

  lemma CommandingRun(s: Control, c: nat, kind: CommandKind, claim: nat, rest: seq<Op>)
    requires c !in s.commands && claim !in s.claims
    requires forall x :: x in s.commands && s.commands[x].status == Claimed ==> s.commands[x].claimedAt == 0
    ensures var d := ClaimOne(Enqueue(s, c, 1, kind, Some(SERVER), 0), c, claim, 0);
      Run(s, Commanding(c, kind, claim) + rest) == Run(d, rest) && (ValidRun(s, Commanding(c, kind, claim) + rest) <==> ValidRun(d, rest))
  {
    var ops := Commanding(c, kind, claim);
    var mid := Enqueue(s, c, 1, kind, Some(SERVER), 0);
    QuietHeartbeat(mid, c, claim);
    TwoSteps(s, ops[0], mid, ops[1], ClaimOne(mid, c, claim, 0), rest);
    assert ops == [ops[0], ops[1]];
  }

  /** Quarantining it by command keeps its lease. */
  lemma SetAsideRun(rest: seq<Op>)
    ensures var op := DoAcknowledge(1, 101, 201, true, false, 0);
      Run(HELD, [op] + rest) == Run(SET_ASIDE, rest) && (ValidRun(HELD, [op] + rest) <==> ValidRun(SET_ASIDE, rest))
  {
    var op := DoAcknowledge(1, 101, 201, true, false, 0);
    AcknowledgedServer(HELD, op, SET_ASIDE);
    OneStep(HELD, op, SET_ASIDE, rest);
  }

  /** Unquarantining it makes it ready. */
  lemma FreedRun()
    ensures var op := DoAcknowledge(1, 102, 202, true, false, 0);
      Run(RECALLED, [op] + []) == FREED && ValidRun(RECALLED, [op] + [])
  {
    var op := DoAcknowledge(1, 102, 202, true, false, 0);
    AcknowledgedServer(RECALLED, op, FREED);
    OneStep(RECALLED, op, FREED, []);
  }

  lemma FirstHalf(rest: seq<Op>)
    ensures var ops := LEASING + (Commanding(101, Quarantine, 201) + ([DoAcknowledge(1, 101, 201, true, false, 0)] + rest));
      Run(EMPTY, ops) == Run(SET_ASIDE, rest) && (ValidRun(EMPTY, ops) <==> ValidRun(SET_ASIDE, rest))
  {
    var acknowledged := [DoAcknowledge(1, 101, 201, true, false, 0)] + rest;
    LeasingRun(Commanding(101, Quarantine, 201) + acknowledged);
    CommandingRun(LEASED, 101, Quarantine, 201, acknowledged);
    SetAsideRun(rest);
  }

  lemma SecondHalf()
    ensures var ops := Commanding(102, Unquarantine, 202) + ([DoAcknowledge(1, 102, 202, true, false, 0)] + []);
      Run(SET_ASIDE, ops) == FREED && ValidRun(SET_ASIDE, ops)
  {
    CommandingRun(SET_ASIDE, 102, Unquarantine, 202, [DoAcknowledge(1, 102, 202, true, false, 0)] + []);
    FreedRun();
  }

  /**
   The guard is needed: this run leaves a ready server with an active lease on it. Picking that server for any other
   match then fails at the index and burns a fencing token.
   */
  lemma ReadyCanBeLeased()
    ensures ValidRun(EMPTY, UNGUARDED)
    ensures var s := Run(EMPTY, UNGUARDED);
      && SERVER in s.instances && s.instances[SERVER].state == Ready && ActiveOn(s.leases, SERVER) == {70}
      && forall m, l, c, expiresAt, now :: m != 7 ==>
           LeaseReady(s, m, Some(SERVER), l, c, expiresAt, now) == (s.(last := s.last + 1), Conflict)
  {
    FirstHalf(Commanding(102, Unquarantine, 202) + ([DoAcknowledge(1, 102, 202, true, false, 0)] + []));
    SecondHalf();
    FreedRefuses();
  }

  lemma FreedRefuses()
    ensures ActiveOn(FREED.leases, SERVER) == {70}
    ensures forall m, l, c, expiresAt, now :: m != 7 ==>
      LeaseReady(FREED, m, Some(SERVER), l, c, expiresAt, now) == (FREED.(last := FREED.last + 1), Conflict)
  {
    assert ActiveOn(FREED.leases, SERVER) == {70};
    assert forall m :: m != 7 ==> ActiveFor(FREED.leases, m) == {};
  }

  lemma FirstHeartbeat(s1: Control)
    requires s1 == Control(map[SERVER := Instance(Ready, None)], map[], map[], map[], 0, {})
    ensures Apply(EMPTY, LEASING[0]) == s1 && Enabled(EMPTY, LEASING[0])
  {
    var reports := [Report(1, Ready, None, false)];
    assert reports[1..] == [];
    assert Heard(EMPTY, 1, reports[0], 0, {}, 0) == s1;
    assert HeardAll(EMPTY, 1, reports, [0], {}, 0) == s1;
    assert Reclaimed(s1.commands, 1, 0) == s1.commands;
  }

  lemma FirstLease(s1: Control, s2: Control)
    requires s1 == Control(map[SERVER := Instance(Ready, None)], map[], map[], map[], 0, {})
    requires s2 == Control(map[SERVER := Instance(Leased, Some(70))], map[70 := Lease(7, SERVER, 1, Active, 1000)],
                           map[100 := NewCommand(1, Prepare, None, MAX_ATTEMPTS, 0)], map[], 1, {})
    ensures Apply(s1, LEASING[1]) == s2
  {
  }

  lemma AcknowledgedServer(s: Control, op: Op, d: Control)
    requires op.DoAcknowledge? && op.succeeded && Acknowledgeable(s, op.node, op.command, op.claim)
    requires s.commands[op.command].instance == Some(SERVER) && op.node == 1 && SERVER in s.instances
    requires d == s.(commands := s.commands[op.command := s.commands[op.command].(status := Completed)],
                     instances := s.instances[SERVER := Effect(s.instances[SERVER], s.commands[op.command].kind, true, false, op.wentOffline)])
    ensures Apply(s, op) == d
  {
  }

  // ---- One acknowledgement per claim ----

  /** The claim is over: handed out before, and no command is still claimed under it. */
  ghost predicate Spent(s: Control, claim: nat) {
    claim in s.claims && forall c :: c in s.commands && s.commands[c].claim == Some(claim) ==> s.commands[c].status in {Completed, Failed}
  }

  ghost predicate CommandsFollow(before: CommandMap, after: CommandMap, claims: set<nat>) {
    forall c :: c in after ==>
      || after[c].claim.None?
      || after[c].claim.value !in claims
      || (c in before && before[c].claim == after[c].claim && (before[c].status in {Completed, Failed} ==> after[c].status == before[c].status))
  }

  lemma {:induction false} HeardAllFollows(s: Control, node: nat, reports: seq<Report>, cs: seq<nat>, pendingResults: set<nat>, now: int)
    requires |cs| == |reports| && forall c :: c in cs ==> c !in s.commands
    requires Distinct(cs)
    ensures CommandsFollow(s.commands, HeardAll(s, node, reports, cs, pendingResults, now).commands, s.claims)
    decreases |reports|
  {
    if reports != [] {
      var next := Heard(s, node, reports[0], cs[0], pendingResults, now);
      assert next.commands.Keys <= s.commands.Keys + {cs[0]};
      HeardAllFollows(next, node, reports[1..], cs[1..], pendingResults, now);
    }
  }

  lemma {:induction false} ClaimAllFollows(s: Control, node: nat, picks: seq<(nat, nat)>, now: int, deferDrain: bool, old_: set<nat>)
    requires Inv(s) && old_ <= s.claims
    requires forall k :: 0 <= k < |picks| ==> picks[k].1 !in s.claims
    requires forall j, k :: 0 <= j < k < |picks| ==> picks[j].1 != picks[k].1
    ensures CommandsFollow(s.commands, ClaimAll(s, node, picks, now, deferDrain).commands, old_)
    ensures s.claims <= ClaimAll(s, node, picks, now, deferDrain).claims
    decreases |picks|
  {
    if picks != [] {
      var (c, claim) := picks[0];
      var next := if Claimable(s, node, c, now, deferDrain) then ClaimOne(s, c, claim, now) else s;
      assert forall k :: 0 <= k < |picks[1..]| ==> picks[1..][k] == picks[k + 1];
      var first: seq<(nat, nat)> := [picks[0]];
      ClaimAllKeepsInv(s, node, first, now, deferDrain);
      assert first[1..] == [];
      assert ClaimAll(s, node, first, now, deferDrain) == next;
      ClaimAllFollows(next, node, picks[1..], now, deferDrain, old_);
    }
  }

  lemma {:induction false} SweepFollows(s: Control, found: seq<nat>, cs: seq<nat>, pendingResults: set<nat>, now: int)
    requires |cs| == |found| && Distinct(cs) && forall c :: c in cs ==> c !in s.commands
    ensures CommandsFollow(s.commands, SweepExpired(s, found, cs, pendingResults, now).commands, s.claims)
    ensures SweepExpired(s, found, cs, pendingResults, now).claims == s.claims
    decreases |found|
  {
    if found != [] {
      var due := found[0] in s.leases && s.leases[found[0]].status == Active && s.leases[found[0]].expiresAt <= now
                 && s.leases[found[0]].instance in s.instances;
      SweepFollows(if due then QuarantineFailure(s, found[0], cs[0], pendingResults, now) else s, found[1..], cs[1..], pendingResults, now);
    }
  }

  lemma HeartbeatFollows(s: Control, op: Op)
    requires Inv(s) && op.DoHeartbeat? && Enabled(s, op)
    ensures CommandsFollow(s.commands, Apply(s, op).commands, s.claims) && s.claims <= Apply(s, op).claims
  {
    HeardAllFollows(s, op.node, op.reports, op.newCommands, op.pendingResults, op.now);
    HeardAllKeepsInv(s, op.node, op.reports, op.newCommands, op.pendingResults, op.now);
    HeardAllKeepsClaimHistory(s, op.node, op.reports, op.newCommands, op.pendingResults, op.now);
    var heard := HeardAll(s, op.node, op.reports, op.newCommands, op.pendingResults, op.now);
    ReclaimKeepsClaims(heard.commands, heard.claims, op.node, op.now);
    var reclaimed := heard.(commands := Reclaimed(heard.commands, op.node, op.now));
    ClaimAllFollows(reclaimed, op.node, op.picks, op.now, op.deferDrain, s.claims);
  }

  lemma AcknowledgeFollows(s: Control, op: Op)
    requires op.DoAcknowledge?
    ensures CommandsFollow(s.commands, Apply(s, op).commands, s.claims) && Apply(s, op).claims == s.claims
  {
  }

  lemma OtherFollows(s: Control, op: Op)
    requires Enabled(s, op) && !op.DoHeartbeat? && !op.DoSweep? && !op.DoAcknowledge?
    ensures CommandsFollow(s.commands, Apply(s, op).commands, s.claims) && Apply(s, op).claims == s.claims
  {
  }

  lemma StepFollows(s: Control, op: Op)
    requires Inv(s) && Enabled(s, op)
    ensures CommandsFollow(s.commands, Apply(s, op).commands, s.claims) && s.claims <= Apply(s, op).claims
  {
    match op
    case DoHeartbeat(_, _, _, _, _, _, _) => HeartbeatFollows(s, op);
    case DoSweep(found, cs, pendingResults, now) => SweepFollows(s, found, cs, pendingResults, now);
    case DoAcknowledge(_, _, _, _, _, _) => AcknowledgeFollows(s, op);
    case _ => OtherFollows(s, op);
  }

  lemma SpentStays(s: Control, op: Op, claim: nat)
    requires Inv(s) && Enabled(s, op) && Spent(s, claim)
    ensures Spent(Apply(s, op), claim)
  {
    StepFollows(s, op);
  }

  lemma {:induction false} SpentForever(s: Control, ops: seq<Op>, claim: nat)
    requires Inv(s) && ValidRun(s, ops) && Spent(s, claim)
    ensures Spent(Run(s, ops), claim)
    decreases |ops|
  {
    if ops != [] {
      StepKeepsInv(s, ops[0]);
      SpentStays(s, ops[0], claim);
      SpentForever(Apply(s, ops[0]), ops[1..], claim);
    }
  }

  lemma AcknowledgeSpends(s: Control, op: Op)
    requires Inv(s) && op.DoAcknowledge? && Acknowledgeable(s, op.node, op.command, op.claim)
    ensures Spent(Apply(s, op), op.claim)
  {
    var d := Apply(s, op);
    assert d.claims == s.claims;
    assert forall c :: c in s.commands && s.commands[c].claim == Some(op.claim) ==> c == op.command;
  }

  lemma SpentRefuses(s: Control, node: nat, c: nat, claim: nat, succeeded: bool, wentOffline: bool, now: int)
    requires Spent(s, claim)
    ensures Acknowledge(s, node, c, claim, succeeded, wentOffline, now) == (s, false)
  {
  }

  /** After a claim was acknowledged, no later acknowledgement under it does anything, whatever happened since. */
  lemma AcknowledgedOnce(s: Control, op: Op, ops: seq<Op>, node: nat, c: nat, succeeded: bool, wentOffline: bool, now: int)
    requires Inv(s) && op.DoAcknowledge? && Acknowledgeable(s, op.node, op.command, op.claim)
    requires ValidRun(Apply(s, op), ops)
    ensures var d := Run(Apply(s, op), ops);
      Acknowledge(d, node, c, op.claim, succeeded, wentOffline, now) == (d, false)
  {
    StepKeepsInv(s, op);
    AcknowledgeSpends(s, op);
    SpentForever(Apply(s, op), ops, op.claim);
    SpentRefuses(Run(Apply(s, op), ops), node, c, op.claim, succeeded, wentOffline, now);
  }
}
