/** From the matchmaker's plan, through any run of the queue scripts, to the orchestrator's check. */
module VetoHandover {
  import opened Common
  import opened MapVeto
  import opened Queue
  import opened QueueInvariants
  import opened QueueRuns
  import opened TeamSearch
  import opened MatchEvaluation
  import opened Orchestrator

  /** The ready check the matchmaker opens for a reserved plan. */
  ghost predicate OpensVetoOf(ready: ReadyPlan, plan: MatchPlan) {
    && ready.veto == SeedFor(plan) && ready.veto.Some?
    && ready.mapPool == Some(plan.mapPool) && ready.map_ == plan.map_ && ready.region == plan.region
  }

  /** A successful ready check remembers the plan's own seed: removing duplicate maps changes nothing. */
  lemma OpeningRemembersPlan(s: Store, ready: ReadyPlan, now: int, plan: MatchPlan)
    requires OpensVetoOf(ready, plan) && Distinct(plan.mapPool)
    requires CreateReadyCheck(s, ready, now).1.Opened?
    ensures var d := CreateReadyCheck(s, ready, now).0;
      ready.matchId in d.matches.origins && d.matches.origins[ready.matchId] == Origin(SeedFor(plan), plan.region)
  {
    DedupKeepsDistinct(plan.mapPool);
    assert PlanPool(ready) == plan.mapPool;
  }

  lemma ReadyStepKeepsOrigin(s: Store, op: Op, m: string)
    requires Enabled(s, op) && ReadyOp(op) && m in s.matches.origins
    ensures m in ReadyStep(s, op).matches.origins && ReadyStep(s, op).matches.origins[m] == s.matches.origins[m]
  {
  }

  /** No step changes what a match was opened with. */
  lemma OriginsStay(s: Store, op: Op, m: string)
    requires Enabled(s, op) && m in s.matches.origins
    ensures m in Apply(s, op).matches.origins && Apply(s, op).matches.origins[m] == s.matches.origins[m]
  {
    if ReadyOp(op) {
      ReadyStepKeepsOrigin(s, op, m);
    }
  }

  lemma {:induction false} OriginsStayInRun(s: Store, ops: seq<Op>, m: string)
    requires ValidRun(s, ops) && m in s.matches.origins
    ensures m in Run(s, ops).matches.origins && Run(s, ops).matches.origins[m] == s.matches.origins[m]
    decreases |ops|
  {
    if ops != [] {
      OriginsStay(s, ops[0], m);
      OriginsStayInRun(Apply(s, ops[0]), ops[1..], m);
    }
  }

  /** In any reachable store, an allocating veto opened from a matchmaker plan passes the orchestrator's check. */
  lemma ReachableVetoPasses(ops: seq<Op>, tickets: seq<SearchTicket>, now: int, elo: real -> real, reserved: Reserved, m: string)
    requires ValidRun(EMPTY, ops) && EvaluateCompetitive(tickets, now, elo).Some?
    requires ReservedFrom(reserved, EvaluateCompetitive(tickets, now, elo).value)
    requires var s := Run(EMPTY, ops);
      && m in s.matches.vetoes && s.matches.vetoes[m].state.status == Allocating
      && m in s.matches.origins
      && s.matches.origins[m].seed == SeedFor(EvaluateCompetitive(tickets, now, elo).value)
      && s.matches.origins[m].region == EvaluateCompetitive(tickets, now, elo).value.region
    ensures VetoProblem(Run(EMPTY, ops).matches.vetoes[m].state, reserved).None?
  {
    var s := Run(EMPTY, ops);
    ReachableInv(ops);
    VetoStage(s, m);
    MatchedVetoPasses(tickets, now, elo, reserved, s.matches.vetoes[m], m);
  }

  /** What holds at the end of a run that opened a ready check on its way. */
  lemma OpenedRun(before: seq<Op>, ready: ReadyPlan, at: int, after: seq<Op>, plan: MatchPlan)
    requires ValidRun(EMPTY, before) && Enabled(Run(EMPTY, before), DoCreateReady(ready, at))
    requires ValidRun(Apply(Run(EMPTY, before), DoCreateReady(ready, at)), after)
    requires OpensVetoOf(ready, plan) && Distinct(plan.mapPool) && CreateReadyCheck(Run(EMPTY, before), ready, at).1.Opened?
    ensures var d := Run(Apply(Run(EMPTY, before), DoCreateReady(ready, at)), after);
      Inv(d) && ready.matchId in d.matches.origins && d.matches.origins[ready.matchId] == Origin(SeedFor(plan), plan.region)
  {
    var s := Run(EMPTY, before);
    var op := DoCreateReady(ready, at);
    ReachableInv(before);
    StepKeepsInv(s, op);
    RunKeepsInv(Apply(s, op), after);
    OpeningRemembersPlan(s, ready, at, plan);
    OriginsStayInRun(Apply(s, op), after, ready.matchId);
  }

  /**
   From the matchmaker's plan to the match: whatever ran before its ready check was opened, whoever accepted,
   banned or left since, a veto of that match that reached its end passes the check against the reserved plan.
   */
  lemma PlannedVetoPasses(before: seq<Op>, ready: ReadyPlan, at: int, after: seq<Op>,
                          tickets: seq<SearchTicket>, now: int, elo: real -> real, reserved: Reserved)
    requires EvaluateCompetitive(tickets, now, elo).Some?
    requires var plan := EvaluateCompetitive(tickets, now, elo).value;
      OpensVetoOf(ready, plan) && ReservedFrom(reserved, plan)
    requires ValidRun(EMPTY, before) && Enabled(Run(EMPTY, before), DoCreateReady(ready, at))
    requires CreateReadyCheck(Run(EMPTY, before), ready, at).1.Opened?
    requires ValidRun(Apply(Run(EMPTY, before), DoCreateReady(ready, at)), after)
    ensures var vetoes := Run(Apply(Run(EMPTY, before), DoCreateReady(ready, at)), after).matches.vetoes;
      ready.matchId in vetoes && vetoes[ready.matchId].state.status == Allocating ==>
        VetoProblem(vetoes[ready.matchId].state, reserved).None?
  {
    var d := Run(Apply(Run(EMPTY, before), DoCreateReady(ready, at)), after);
    var m := ready.matchId;
    CompetitivePlanSound(tickets, now, elo);
    OpenedRun(before, ready, at, after, EvaluateCompetitive(tickets, now, elo).value);
    if m in d.matches.vetoes && d.matches.vetoes[m].state.status == Allocating {
      VetoStage(d, m);
      MatchedVetoPasses(tickets, now, elo, reserved, d.matches.vetoes[m], m);
    }
  }

  lemma VetoStage(s: Store, m: string)
    requires Inv(s) && m in s.matches.vetoes
    ensures m in s.matches.origins && s.matches.origins[m].seed.Some?
    ensures StageOf(s.matches.vetoes[m], s.matches.origins[m].seed.value, m, s.matches.origins[m].region)
  {
    assert VetoRecordOk(s.queue.issued, m, s.matches.vetoes[m], s.matches.origins[m]);
  }
}
