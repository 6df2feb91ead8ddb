/** Kill counters across matches and trades: batches of any matches interleaved with transfers that start a new ownership. */
module OwnershipCounts {
  import opened Common
  import opened StatTrak
  import opened Ingestion

  /** The counter an event raises under a manifest, if any. */
  function CounterOf(m: Manifest, kind: Kind): Option<Counter> {
    if kind.PlayerKilled? then CounterFor(m, kind.kill) else None
  }

  /** What one match has of its own; inventory rows are everybody's. */
  datatype MatchRow = MatchRow(stored: seq<Event>, status: Status, conflicts: set<Event>)

  /** A stored event, and what it counted for under the manifest of its batch. */
  datatype Entry = Entry(match_: nat, event: Event, counter: Option<Counter>)

  /** The tables with their history: every stored event in order, and each row as it was when its present owner got it. */
  datatype Ledger = Ledger(rows: Rows, matches: map<nat, MatchRow>, history: seq<Entry>, since: Rows)

  datatype Step =
    | Batch(match_: nat, manifest: Manifest, events: seq<Event>)
    | Transfer(asset: string, owner: string)

  const MAX_GENERATION: nat := 9_223_372_036_854_775_807

  function Numeral(n: nat): (s: string)
    ensures AllDigits(s) && Decimal(s) == n
  {
    var digit := [(n % 10 + '0' as int) as char];
    if n < 10 then digit else Numeral(n / 10) + digit
  }

  /** Whether the table lets the row pass to this owner. */
  predicate CanPass(row: Row, owner: string) {
    row.owner != owner && AllDigits(row.generation) && Decimal(row.generation) < MAX_GENERATION
  }

  /** A row in new hands: one generation on, its counter back at zero. */
  function Passed(row: Row, owner: string): Row
    requires AllDigits(row.generation)
  {
    row.(owner := owner, generation := Numeral(Decimal(row.generation) + 1), count := if row.count.Some? then Some(0) else None)
  }

  /** The state one match's batch works on. */
  function StateOf(l: Ledger, id: nat): State
    requires id in l.matches
  {
    State(l.matches[id].stored, l.rows, l.matches[id].status, l.matches[id].conflicts)
  }

  /** The history with a batch: one entry more for each event it inserts. */
  function Extended(s: State, m: Manifest, events: seq<Event>, id: nat, history: seq<Entry>): seq<Entry>
    decreases |events|
  {
    if events == [] then history
    else
      match IngestOne(s, m, events[0])
      case None => history
      case Some((next, outcome)) =>
        Extended(next, m, events[1..], id,
                 if outcome == Inserted then history + [Entry(id, events[0], CounterOf(m, events[0].kind))] else history)
  }

  function Apply(l: Ledger, step: Step): Ledger {
    match step
    case Batch(id, m, events) =>
      if id !in l.matches || Ingest(StateOf(l, id), m, events).1.None? then l
      else
        var d := Ingest(StateOf(l, id), m, events).0;
        Ledger(d.rows, l.matches[id := MatchRow(d.stored, d.status, d.conflicts)], Extended(StateOf(l, id), m, events, id, l.history), l.since)
    case Transfer(a, owner) =>
      if a in l.rows && CanPass(l.rows[a], owner) then
        var row := Passed(l.rows[a], owner);
        l.(rows := l.rows[a := row], since := l.since[a := row])
      else l
  }

  predicate AtMost(g: string, h: string) {
    AllDigits(g) && AllDigits(h) ==> Decimal(g) <= Decimal(h)
  }

  /** A manifest lists ownerships that were, or still are: it was signed from the same tables, earlier. */
  ghost predicate NotNewer(m: Manifest, rows: Rows) {
    forall p, item :: p in m && item in p.items && item.assetId in rows ==>
      AtMost(item.generation.GetOr("0"), rows[item.assetId].generation)
  }

  ghost predicate Enabled(l: Ledger, step: Step) {
    step.Batch? ==> NotNewer(step.manifest, l.rows)
  }

  // ---- What a counter is ----

  predicate Credits(c: Option<Counter>, a: string, row: Row) {
    c.Some? && c.value.assetId == a && Matches(row, c.value)
  }

  /** How many of the stored kills count for the asset at this row's ownership. */
  function Credited(history: seq<Entry>, a: string, row: Row): nat {
    if history == [] then 0
    else Credited(history[..|history| - 1], a, row) + (if Credits(history[|history| - 1].counter, a, row) then 1 else 0)
  }

  lemma CreditedSnoc(history: seq<Entry>, e: Entry, a: string, row: Row)
    ensures Credited(history + [e], a, row) == Credited(history, a, row) + (if Credits(e.counter, a, row) then 1 else 0)
  {
    assert (history + [e])[..|history|] == history;
  }

  lemma {:induction false} NoCredit(history: seq<Entry>, a: string, row: Row)
    requires forall i :: 0 <= i < |history| ==> !Credits(history[i].counter, a, row)
    ensures Credited(history, a, row) == 0
  {
    if history != [] {
      NoCredit(history[..|history| - 1], a, row);
    }
  }

  /** Only the ownership decides what counts, not the counter's value. */
  lemma {:induction false} CreditedByOwnership(history: seq<Entry>, a: string, row: Row, other: Row)
    requires other == row.(count := other.count) && (other.count.Some? <==> row.count.Some?)
    ensures Credited(history, a, other) == Credited(history, a, row)
  {
    if history != [] {
      CreditedByOwnership(history[..|history| - 1], a, row, other);
    }
  }

  /** Every row is what it was when its owner got it, raised by the stored kills of that ownership, up to the limit. */
  ghost predicate CountsExact(rows: Rows, history: seq<Entry>, since: Rows) {
    && rows.Keys == since.Keys
    && forall a :: a in since ==> AllDigits(since[a].generation) && rows[a] == Tallied(since[a], Credited(history, a, since[a]))
  }

  /** No stored kill names an ownership still to come. */
  ghost predicate PastOnly(history: seq<Entry>, since: Rows) {
    forall i :: 0 <= i < |history| && history[i].counter.Some? && history[i].counter.value.assetId in since ==>
      AllDigits(history[i].counter.value.generation) && AtMost(history[i].counter.value.generation, since[history[i].counter.value.assetId].generation)
  }

  /** One match's part of the history. */
  function EventsOf(history: seq<Entry>, id: nat): seq<Event> {
    if history == [] then []
    else
      EventsOf(history[..|history| - 1], id)
      + (if history[|history| - 1].match_ == id then [history[|history| - 1].event] else [])
  }

  /** The history is what the matches have stored. */
  ghost predicate HistoryOk(matches: map<nat, MatchRow>, history: seq<Entry>) {
    forall id :: id in matches ==> matches[id].stored == EventsOf(history, id)
  }

  ghost predicate Exact(l: Ledger) {
    HistoryOk(l.matches, l.history) && CountsExact(l.rows, l.history, l.since) && PastOnly(l.history, l.since)
  }

  // ---- Batches ----

  lemma CounterIsListed(m: Manifest, kind: Kind, rows: Rows)
    requires NotNewer(m, rows) && CounterOf(m, kind).Some? && CounterOf(m, kind).value.assetId in rows
    ensures var c := CounterOf(m, kind).value;
      AllDigits(c.generation) && AtMost(c.generation, rows[c.assetId].generation)
  {
    CounterIsAttackersOwn(m, kind.kill);
  }

  lemma InsertedCounts(s: State, m: Manifest, kind: Kind, history: seq<Entry>, e: Entry, since: Rows)
    requires CountsExact(s.rows, history, since) && e.counter == CounterOf(m, kind)
    ensures CountsExact(Effect(s, m, kind).rows, history + [e], since)
  {
    EffectKeepsKeys(s, m, kind);
    forall a | a in since
      ensures Effect(s, m, kind).rows[a] == Tallied(since[a], Credited(history + [e], a, since[a]))
    {
      CreditedSnoc(history, e, a, since[a]);
      EffectOnRow(s, m, kind, a);
      TalliedOnce(since[a], Credited(history, a, since[a]), m, kind, a);
    }
  }

  lemma InsertedPast(m: Manifest, kind: Kind, history: seq<Entry>, e: Entry, since: Rows)
    requires PastOnly(history, since) && NotNewer(m, since) && e.counter == CounterOf(m, kind)
    ensures PastOnly(history + [e], since)
  {
    if e.counter.Some? && e.counter.value.assetId in since {
      CounterIsListed(m, kind, since);
    }
  }

  lemma EventsSnoc(history: seq<Entry>, e: Entry)
    ensures forall id :: EventsOf(history + [e], id) == EventsOf(history, id) + (if e.match_ == id then [e.event] else [])
  {
    assert (history + [e])[..|history|] == history;
  }

  lemma {:induction false} BatchExact(s: State, m: Manifest, events: seq<Event>, tally: Tally, id: nat, history: seq<Entry>, since: Rows)
    requires CountsExact(s.rows, history, since) && PastOnly(history, since) && NotNewer(m, since)
    requires s.stored == EventsOf(history, id) && IngestAll(s, m, events, tally).Some?
    ensures var d, longer := IngestAll(s, m, events, tally).value.0, Extended(s, m, events, id, history);
      && CountsExact(d.rows, longer, since) && PastOnly(longer, since)
      && d.stored == EventsOf(longer, id)
      && forall other :: other != id ==> EventsOf(longer, other) == EventsOf(history, other)
    decreases |events|
  {
    if events != [] {
      var (next, outcome) := IngestOne(s, m, events[0]).value;
      if outcome == Inserted {
        var e := Entry(id, events[0], CounterOf(m, events[0].kind));
        InsertedCounts(s.(stored := s.stored + [events[0]]), m, events[0].kind, history, e, since);
        InsertedPast(m, events[0].kind, history, e, since);
        EventsSnoc(history, e);
        EffectKeepsStored(s.(stored := s.stored + [events[0]]), m, events[0].kind);
        BatchExact(next, m, events[1..], tally.Plus(outcome), id, history + [e], since);
      } else {
        BatchExact(next, m, events[1..], tally.Plus(outcome), id, history, since);
      }
    }
  }

  lemma EffectKeepsStored(s: State, m: Manifest, kind: Kind)
    ensures Effect(s, m, kind).stored == s.stored
  {
  }

  /** Rows and the rows they started from carry the same generations. */
  lemma SameGenerations(m: Manifest, rows: Rows, history: seq<Entry>, since: Rows)
    requires CountsExact(rows, history, since) && NotNewer(m, rows)
    ensures NotNewer(m, since)
  {
    forall p, item | p in m && item in p.items && item.assetId in since
      ensures AtMost(item.generation.GetOr("0"), since[item.assetId].generation)
    {
      assert rows[item.assetId].generation == since[item.assetId].generation;
    }
  }

  // ---- Transfers ----

  lemma PassedStartsOver(history: seq<Entry>, since: Rows, a: string, row: Row, owner: string)
    requires PastOnly(history, since) && a in since && AllDigits(row.generation) && row.generation == since[a].generation
    ensures Credited(history, a, Passed(row, owner)) == 0
    ensures PastOnly(history, since[a := Passed(row, owner)])
  {
    var passed := Passed(row, owner);
    forall i | 0 <= i < |history| ensures !Credits(history[i].counter, a, passed) {
      if history[i].counter.Some? && history[i].counter.value.assetId == a {
        assert Decimal(history[i].counter.value.generation) < Decimal(passed.generation);
      }
    }
    NoCredit(history, a, passed);
  }

  lemma TransferExact(l: Ledger, a: string, owner: string)
    requires Exact(l) && a in l.rows && CanPass(l.rows[a], owner)
    ensures Exact(Apply(l, Transfer(a, owner)))
  {
    var row := Passed(l.rows[a], owner);
    PassedStartsOver(l.history, l.since, a, l.rows[a], owner);
    assert row == Tallied(row, 0);
    CountsElsewhere(l.rows, l.history, l.since, a, row);
  }

  lemma CountsElsewhere(rows: Rows, history: seq<Entry>, since: Rows, a: string, row: Row)
    requires CountsExact(rows, history, since) && a in since && AllDigits(row.generation)
    requires row == Tallied(row, Credited(history, a, row))
    ensures CountsExact(rows[a := row], history, since[a := row])
  {
  }

  // ---- Runs ----

  lemma StepExact(l: Ledger, step: Step)
    requires Exact(l) && Enabled(l, step)
    ensures Exact(Apply(l, step))
  {
    match step
    case Batch(id, m, events) =>
      SameGenerations(m, l.rows, l.history, l.since);
      if id in l.matches && Ingest(StateOf(l, id), m, events).1.Some? {
        BatchExact(StateOf(l, id), m, events, Tally(0, 0, 0), id, l.history, l.since);
      }
    case Transfer(a, owner) =>
      if a in l.rows && CanPass(l.rows[a], owner) {
        TransferExact(l, a, owner);
      }
  }

  function Run(l: Ledger, steps: seq<Step>): Ledger
    decreases |steps|
  {
    if steps == [] then l else Run(Apply(l, steps[0]), steps[1..])
  }

  ghost predicate ValidRun(l: Ledger, steps: seq<Step>)
    decreases |steps|
  {
    steps == [] || (Enabled(l, steps[0]) && ValidRun(Apply(l, steps[0]), steps[1..]))
  }

  /** However batches and trades interleave, every counter is its start under this owner plus the stored kills of this ownership. */
  lemma {:induction false} RunExact(l: Ledger, steps: seq<Step>)
    requires Exact(l) && ValidRun(l, steps)
    ensures Exact(Run(l, steps))
    decreases |steps|
  {
    if steps != [] {
      StepExact(l, steps[0]);
      RunExact(Apply(l, steps[0]), steps[1..]);
    }
  }

  /** Since the base, a row was never traded, or it is generations on and its present owner started at zero. */
  ghost predicate TradedOrNot(base: Row, since: Row) {
    || since == base
    || (AllDigits(base.generation) && AllDigits(since.generation) && Decimal(base.generation) < Decimal(since.generation)
        && since.count == if base.count.Some? then Some(0) else None)
  }

  ghost predicate FromBase(base: Rows, since: Rows) {
    since.Keys == base.Keys && forall a :: a in base ==> TradedOrNot(base[a], since[a])
  }

  lemma StepFromBase(l: Ledger, step: Step, base: Rows)
    requires Exact(l) && FromBase(base, l.since)
    ensures FromBase(base, Apply(l, step).since)
  {
    if step.Transfer? && step.asset in l.rows && CanPass(l.rows[step.asset], step.owner) {
      PassedFromBase(base[step.asset], l.since[step.asset], l.rows[step.asset], step.owner);
    }
  }

  lemma PassedFromBase(base: Row, since: Row, row: Row, owner: string)
    requires TradedOrNot(base, since) && AllDigits(row.generation) && row.generation == since.generation
    requires row.count.Some? <==> since.count.Some?
    ensures TradedOrNot(base, Passed(row, owner))
  {
  }

  lemma {:induction false} RunFromBase(l: Ledger, steps: seq<Step>, base: Rows)
    requires Exact(l) && ValidRun(l, steps) && FromBase(base, l.since)
    ensures FromBase(base, Run(l, steps).since)
    decreases |steps|
  {
    if steps != [] {
      StepExact(l, steps[0]);
      StepFromBase(l, steps[0], base);
      RunFromBase(Apply(l, steps[0]), steps[1..], base);
    }
  }

  /** The present owner's first count: the base row's if the item was never traded, otherwise zero. */
  function FirstCount(base: Row, row: Row): nat
    requires base.count.Some?
  {
    if row.generation == base.generation then base.count.value else 0
  }

  ghost predicate Countable(base: Rows) {
    forall a :: a in base ==> AllDigits(base[a].generation) && (base[a].count.Some? ==> base[a].count.value <= COUNT_LIMIT)
  }

  /**
   A counter is the capped sum of the stored kills of the present ownership, added to the item's first count while it was
   never traded and to zero afterwards; kills of an older ownership are in no such sum.
   */
  lemma CountIsOwnersKills(base: Rows, matches: map<nat, MatchRow>, steps: seq<Step>, a: string)
    requires Countable(base) && a in base && base[a].count.Some?
    requires forall id :: id in matches ==> matches[id].stored == []
    requires ValidRun(Ledger(base, matches, [], base), steps)
    ensures var d := Run(Ledger(base, matches, [], base), steps);
      && HistoryOk(d.matches, d.history) && a in d.rows
      && d.rows[a].count == Some(Min(FirstCount(base[a], d.rows[a]) + Credited(d.history, a, d.rows[a]), COUNT_LIMIT))
  {
    var l := Ledger(base, matches, [], base);
    StartExact(base, matches);
    RunExact(l, steps);
    RunFromBase(l, steps, base);
    CountOfRow(Run(l, steps), base, a);
  }

  lemma StartExact(base: Rows, matches: map<nat, MatchRow>)
    requires Countable(base) && forall id :: id in matches ==> matches[id].stored == []
    ensures Exact(Ledger(base, matches, [], base)) && FromBase(base, base)
  {
  }

  lemma CountOfRow(d: Ledger, base: Rows, a: string)
    requires CountsExact(d.rows, d.history, d.since) && FromBase(base, d.since) && a in base && base[a].count.Some?
    ensures a in d.rows
    ensures d.rows[a].count == Some(Min(FirstCount(base[a], d.rows[a]) + Credited(d.history, a, d.rows[a]), COUNT_LIMIT))
  {
    CreditedByOwnership(d.history, a, d.since[a], d.rows[a]);
  }

  // ---- Kills of an older ownership ----

  /** Every listing of the asset in this manifest is of an ownership before the row's. */
  ghost predicate ListsOlder(m: Manifest, a: string, row: Row) {
    AllDigits(row.generation)
    && forall p, item :: p in m && item in p.items && item.assetId == a && AllDigits(item.generation.GetOr("0")) ==>
         Decimal(item.generation.GetOr("0")) < Decimal(row.generation)
  }

  lemma OlderNeverMatches(m: Manifest, kind: Kind, a: string, row: Row)
    requires ListsOlder(m, a, row)
    ensures !CountsFor(kind, m, a, row)
  {
    if CountsFor(kind, m, a, row) {
      CounterIsAttackersOwn(m, kind.kill);
    }
  }

  lemma {:induction false} OlderBatchLeaves(s: State, m: Manifest, events: seq<Event>, tally: Tally, a: string)
    requires a in s.rows && ListsOlder(m, a, s.rows[a]) && IngestAll(s, m, events, tally).Some?
    ensures var d := IngestAll(s, m, events, tally).value.0;
      a in d.rows && d.rows[a] == s.rows[a]
    decreases |events|
  {
    if events != [] {
      var (next, outcome) := IngestOne(s, m, events[0]).value;
      OlderNeverMatches(m, events[0].kind, a, s.rows[a]);
      EffectOnRow(s.(stored := s.stored + [events[0]]), m, events[0].kind, a);
      OlderBatchLeaves(next, m, events[1..], tally.Plus(outcome), a);
    }
  }

  ghost predicate GenerationsGrow(before: Rows, after: Rows) {
    forall a :: a in before ==> a in after && AllDigits(after[a].generation)
                                && AtMost(before[a].generation, after[a].generation)
  }

  lemma StepGenerationsGrow(l: Ledger, step: Step)
    requires Exact(l) && Enabled(l, step)
    ensures GenerationsGrow(l.rows, Apply(l, step).rows)
  {
    StepExact(l, step);
    forall a | a in l.rows
      ensures a in Apply(l, step).rows && AtMost(l.rows[a].generation, Apply(l, step).rows[a].generation)
    {
      assert l.rows[a].generation == l.since[a].generation;
      assert Apply(l, step).rows[a].generation == Apply(l, step).since[a].generation;
    }
  }

  lemma {:induction false} RunGenerationsGrow(l: Ledger, steps: seq<Step>)
    requires Exact(l) && ValidRun(l, steps)
    ensures GenerationsGrow(l.rows, Run(l, steps).rows)
    decreases |steps|
  {
    if steps != [] {
      StepExact(l, steps[0]);
      StepGenerationsGrow(l, steps[0]);
      RunGenerationsGrow(Apply(l, steps[0]), steps[1..]);
    }
  }

  /** Once an item was traded, no batch of a match whose manifest lists an older ownership of it ever changes its row. */
  lemma OlderKillsNeverCount(l: Ledger, steps: seq<Step>, id: nat, m: Manifest, events: seq<Event>, a: string)
    requires Exact(l) && ValidRun(l, steps) && a in l.rows && ListsOlder(m, a, l.rows[a])
    ensures var d := Run(l, steps);
      && a in d.rows && a in Apply(d, Batch(id, m, events)).rows
      && Apply(d, Batch(id, m, events)).rows[a] == d.rows[a]
  {
    RunGenerationsGrow(l, steps);
    var d := Run(l, steps);
    if id in d.matches && Ingest(StateOf(d, id), m, events).1.Some? {
      OlderBatchLeaves(StateOf(d, id), m, events, Tally(0, 0, 0), a);
    }
  }
}
