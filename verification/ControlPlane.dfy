/** The node-control transactions row by row, each doing what Leases says in one step. */
module ControlPlane {
  import opened Common
  import L = Leases
  import opened Leases

  class Service {
    var instances: map<InstanceId, Instance>
    var leases: map<nat, Lease>
    var commands: map<nat, Command>
    var matches: map<nat, MatchStatus>
    var last: nat
    ghost var claims: set<nat>

    ghost function View(): Control
      reads this
    {
      Control(instances, leases, commands, matches, last, claims)
    }

    method InsertCommand(id: nat, node: nat, kind: CommandKind, instance: Option<InstanceId>, now: int)
      modifies this`commands
      ensures View() == Enqueue(old(View()), id, node, kind, instance, now)
    {
      commands := commands[id := NewCommand(node, kind, instance, MAX_ATTEMPTS, now)];
    }

    method LeaseReadyServerNow(m: nat, pick: Option<InstanceId>, leaseId: nat, commandId: nat, expiresAt: int, now: int)
      returns (reply: LeaseReply)
      modifies this
      ensures (View(), reply) == LeaseReady(old(View()), m, pick, leaseId, commandId, expiresAt, now)
    {
      var existing := ActiveFor(leases, m);
      if existing != {} {
        return Existing(LeastOf(existing));
      }
      if pick.None? || pick.value !in instances || instances[pick.value].state != Ready {
        return NoCapacity;
      }
      var i := pick.value;
      last := last + 1;
      if ActiveOn(leases, i) != {} {
        return Conflict;
      }
      leases := leases[leaseId := Lease(m, i, last, Active, expiresAt)];
      instances := instances[i := Instance(Leased, Some(leaseId))];
      commands := commands[commandId := NewCommand(i.node, Prepare, None, MAX_ATTEMPTS, now)];
      return Granted(leaseId);
    }

    method WakeServer(pick: Option<InstanceId>, commandId: nat, now: int)
      modifies this`instances, this`commands
      ensures View() == Wake(old(View()), pick, commandId, now)
    {
      if pick.None? || pick.value !in instances {
        return;
      }
      var i := pick.value;
      var row := instances[i];
      if row.state !in {Offline, Starting, Draining} || row.activeLease.Some? || ActiveOn(leases, i) != {} {
        return;
      }
      if row.state != Offline || StartPending(commands, i) {
        return;
      }
      instances := instances[i := row.(state := Starting)];
      InsertCommand(commandId, i.node, Start, Some(i), now);
    }

    /** Ends the lease's row, then moves its instance on without it. */
    method End(leaseId: nat, status: LeaseStatus, state: State)
      requires leaseId in leases
      modifies this`leases, this`instances
      ensures View() == EndLease(old(View()), leaseId, status, state)
    {
      var lease := leases[leaseId];
      leases := leases[leaseId := lease.(status := status)];
      instances := instances[lease.instance := Instance(state, None)];
    }

    method ReleaseLease(leaseId: nat, commandId: nat, now: int) returns (released: bool)
      modifies this
      ensures (View(), released) == Release(old(View()), leaseId, commandId, now)
    {
      if leaseId !in leases || leases[leaseId].status != Active || leases[leaseId].instance !in instances {
        return false;
      }
      var i := leases[leaseId].instance;
      End(leaseId, Released, Draining);
      InsertCommand(commandId, i.node, Drain, Some(i), now);
      return true;
    }

    method QuarantineLeaseFailure(leaseId: nat, commandId: nat, pendingResults: set<nat>, now: int)
      requires leaseId in leases
      modifies this
      ensures View() == QuarantineFailure(old(View()), leaseId, commandId, pendingResults, now)
    {
      var lease := leases[leaseId];
      End(leaseId, Expired, Quarantined);
      InsertCommand(commandId, lease.instance.node, Quarantine, Some(lease.instance), now);
      if lease.match_ in matches {
        var status := matches[lease.match_];
        if status == Pending {
          matches := matches[lease.match_ := Cancelled];
        } else if (status == Live || status == Disputed) && lease.match_ !in pendingResults {
          matches := matches[lease.match_ := Disputed];
        } else {
          assert matches[lease.match_ := status] == matches;
        }
      }
    }

    method QuarantineExpiredLeases(found: seq<nat>, newCommands: seq<nat>, pendingResults: set<nat>, now: int)
      requires |newCommands| == |found|
      modifies this
      ensures View() == SweepExpired(old(View()), found, newCommands, pendingResults, now)
    {
      var i := 0;
      while i < |found|
        invariant 0 <= i <= |found|
        invariant SweepExpired(old(View()), found, newCommands, pendingResults, now)
               == SweepExpired(View(), found[i..], newCommands[i..], pendingResults, now)
      {
        var l := found[i];
        if l in leases && leases[l].status == Active && leases[l].expiresAt <= now && leases[l].instance in instances {
          QuarantineLeaseFailure(l, newCommands[i], pendingResults, now);
        }
        i := i + 1;
      }
    }

    // ---- Heartbeat ----

    method Hear(node: nat, r: Report, commandId: nat, pendingResults: set<nat>, now: int)
      modifies this
      ensures View() == Heard(old(View()), node, r, commandId, pendingResults, now)
    {
      var i := InstanceId(node, r.key);
      if i !in instances {
        instances := instances[i := Instance(r.state, None)];
      } else if instances[i].state !in {Leased, Draining, Quarantined} {
        instances := instances[i := instances[i].(state := r.state)];
      } else {
        assert instances[i := instances[i]] == instances;
      }
      if r.state != Ready && r.dead && r.authority.Some? && instances[i].activeLease == Some(r.authority.value.0) {
        var l := r.authority.value.0;
        if l in leases && leases[l].status == Active && leases[l].match_ == r.authority.value.1 {
          QuarantineLeaseFailure(l, commandId, pendingResults, now);
        }
      }
    }

    method HearAll(node: nat, reports: seq<Report>, newCommands: seq<nat>, pendingResults: set<nat>, now: int)
      requires |newCommands| == |reports|
      modifies this
      ensures View() == HeardAll(old(View()), node, reports, newCommands, pendingResults, now)
    {
      var i := 0;
      while i < |reports|
        invariant 0 <= i <= |reports|
        invariant HeardAll(old(View()), node, reports, newCommands, pendingResults, now)
               == HeardAll(View(), node, reports[i..], newCommands[i..], pendingResults, now)
      {
        Hear(node, reports[i], newCommands[i], pendingResults, now);
        i := i + 1;
      }
    }

    method Claim(node: nat, picks: seq<(nat, nat)>, now: int, deferDrain: bool)
      modifies this`commands, this`claims
      ensures View() == ClaimAll(old(View()), node, picks, now, deferDrain)
    {
      var i := 0;
      while i < |picks|
        invariant 0 <= i <= |picks|
        invariant ClaimAll(old(View()), node, picks, now, deferDrain) == ClaimAll(View(), node, picks[i..], now, deferDrain)
      {
        var (c, claim) := picks[i];
        if c in commands && commands[c].node == node && commands[c].status == Waiting && commands[c].nextAttempt <= now
           && !(deferDrain && commands[c].kind == Drain) {
          var row := commands[c];
          commands := commands[c := row.(status := Claimed, claim := Some(claim), claimedAt := now, attempts := row.attempts + 1)];
          claims := claims + {claim};
        }
        i := i + 1;
      }
    }

    method Heartbeat(node: nat, reports: seq<Report>, newCommands: seq<nat>, picks: seq<(nat, nat)>,
                     pendingResults: set<nat>, now: int, deferDrain: bool)
      requires |newCommands| == |reports|
      modifies this
      ensures View() == L.Heartbeat(old(View()), node, reports, newCommands, picks, pendingResults, now, deferDrain)
    {
      HearAll(node, reports, newCommands, pendingResults, now);
      commands := Reclaimed(commands, node, now);
      Claim(node, picks, now, deferDrain);
    }

    // ---- Acknowledging ----

    /** min(30, 2 ** max(0, attempts - 1)) by doubling. */
    static method Backoff(attempts: nat) returns (seconds: nat)
      ensures seconds == RetrySeconds(attempts)
    {
      var power := 1;
      var i := 0;
      while i + 1 < attempts
        invariant power == Power2(i) && (i == 0 || i < attempts)
        decreases attempts - i
      {
        power := 2 * power;
        i := i + 1;
      }
      seconds := if power < 30 then power else 30;
    }

    method Answer(c: nat, succeeded: bool, now: int) returns (terminal: bool)
      requires c in commands
      modifies this`commands
      ensures View() == old(View()).(commands := old(commands)[c := Answered(old(commands)[c], succeeded, now)])
      ensures terminal == (!succeeded && old(commands)[c].attempts >= old(commands)[c].maxAttempts)
    {
      var row := commands[c];
      terminal := !succeeded && row.attempts >= row.maxAttempts;
      if succeeded || terminal {
        commands := commands[c := row.(status := if succeeded then Completed else Failed)];
      } else {
        var seconds := Backoff(row.attempts);
        commands := commands[c := row.(status := Waiting, claim := None, nextAttempt := now + seconds * 1000)];
      }
    }

    method Settle(i: InstanceId, kind: CommandKind, succeeded: bool, terminal: bool, wentOffline: bool)
      requires i in instances && !(succeeded && terminal)
      modifies this`instances
      ensures View() == old(View()).(instances := old(instances)[i := Effect(old(instances)[i], kind, succeeded, terminal, wentOffline)])
    {
      assert instances[i := instances[i]] == instances;
      if succeeded && kind == Drain && instances[i].state == Draining {
        instances := instances[i := instances[i].(state := if wentOffline then Offline else Ready)];
      }
      if succeeded && kind == Quarantine {
        instances := instances[i := instances[i].(state := Quarantined)];
      }
      if succeeded && kind == Unquarantine && instances[i].state == Quarantined {
        instances := instances[i := instances[i].(state := Ready)];
      }
      if terminal {
        instances := instances[i := Instance(Quarantined, None)];
      }
    }

    method AcknowledgeCommand(node: nat, c: nat, claim: nat, succeeded: bool, wentOffline: bool, now: int) returns (accepted: bool)
      modifies this`commands, this`instances
      ensures (View(), accepted) == Acknowledge(old(View()), node, c, claim, succeeded, wentOffline, now)
    {
      if c !in commands || commands[c].node != node || commands[c].status != Claimed || commands[c].claim != Some(claim) {
        return false;
      }
      var command := commands[c];
      var terminal := Answer(c, succeeded, now);
      if command.instance.Some? && command.instance.value in instances && command.instance.value.node == node {
        Settle(command.instance.value, command.kind, succeeded, terminal, wentOffline);
      }
      return true;
    }
  }
}
