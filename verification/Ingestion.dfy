/** Match events arrive in batches, perhaps many times; each takes effect once. */
module Ingestion {
  import opened Common
  import opened StatTrak

  datatype Kind =
    | MatchLive
    | MatchAborted
    | PlayerKilled(kill: Kill)
    | Signal(wellFormed: bool)
    | Note(text: string)

  /** An event; its checksum stands for the whole of it. */
  datatype Event = Event(id: nat, sequence: nat, kind: Kind)

  datatype Status = Pending | Live | Over | Cancelled | Disputed

  /** An inventory row as the counter update sees it. */
  datatype Row = Row(owner: string, generation: string, countable: bool, count: Option<nat>)

  type Rows = map<string, Row>
  type Manifest = seq<ManifestPlayer>

  datatype State = State(stored: seq<Event>, rows: Rows, status: Status, conflicts: set<Event>)

  const COUNT_LIMIT: nat := 4_294_967_295

  datatype Outcome = Inserted | Duplicate | Conflict

  datatype Tally = Tally(inserted: nat, duplicates: nat, conflicts: nat) {
    function Plus(o: Outcome): Tally {
      match o
      case Inserted => this.(inserted := inserted + 1)
      case Duplicate => this.(duplicates := duplicates + 1)
      case Conflict => this.(conflicts := conflicts + 1)
    }

    function Total(): nat { inserted + duplicates + conflicts }
  }

  /** Unique indexes refuse a second event under the same id or the same sequence. */
  predicate Taken(stored: seq<Event>, e: Event) {
    exists i :: 0 <= i < |stored| && (stored[i].id == e.id || stored[i].sequence == e.sequence)
  }

  /** Whether the counter names this row as it is owned now. */
  predicate Matches(row: Row, c: Counter) {
    row.owner == c.playerId && row.generation == c.generation && row.countable && row.count.Some?
  }

  function Raised(rows: Rows, c: Counter): Rows {
    if c.assetId in rows && Matches(rows[c.assetId], c)
    then rows[c.assetId := rows[c.assetId].(count := Some(Min(rows[c.assetId].count.value + 1, COUNT_LIMIT)))]
    else rows
  }

  function Effect(s: State, m: Manifest, kind: Kind): State {
    match kind
    case MatchLive => s.(status := if s.status == Pending then Live else s.status)
    case MatchAborted => s.(status := if s.status in {Pending, Live} then Cancelled else s.status)
    case PlayerKilled(kill) => s.(rows := if CounterFor(m, kill).Some? then Raised(s.rows, CounterFor(m, kill).value) else s.rows)
    case _ => s
  }

  /** One event of a batch; None when it makes the whole batch fail. */
  function IngestOne(s: State, m: Manifest, e: Event): Option<(State, Outcome)> {
    if !Taken(s.stored, e) then
      if e.kind == Signal(false) then None
      else Some((Effect(s.(stored := s.stored + [e]), m, e.kind), Inserted))
    else if e in s.stored then Some((s, Duplicate))
    else Some((s.(conflicts := s.conflicts + {e}, status := if s.status == Cancelled then Cancelled else Disputed), Conflict))
  }

  function IngestAll(s: State, m: Manifest, events: seq<Event>, tally: Tally): Option<(State, Tally)>
    decreases |events|
  {
    if events == [] then Some((s, tally))
    else
      match IngestOne(s, m, events[0])
      case None => None
      case Some((next, outcome)) => IngestAll(next, m, events[1..], tally.Plus(outcome))
  }

  /** One batch is one transaction: all of it or nothing. */
  function Ingest(s: State, m: Manifest, events: seq<Event>): (State, Option<Tally>) {
    match IngestAll(s, m, events, Tally(0, 0, 0))
    case None => (s, None)
    case Some((d, tally)) => (d, Some(tally))
  }

  // ---- The batch loop ----

  class MatchStore {
    var stored: seq<Event>
    var rows: Rows
    var status: Status
    var conflicts: set<Event>

    function View(): State
      reads this
    {
      State(stored, rows, status, conflicts)
    }

    method Insert(e: Event, m: Manifest) returns (ok: bool)
      requires !Taken(stored, e)
      modifies this
      ensures ok <==> IngestOne(old(View()), m, e).Some?
      ensures ok ==> IngestOne(old(View()), m, e) == Some((View(), Inserted))
    {
      stored := stored + [e];
      match e.kind {
        case MatchLive =>
          if status == Pending {
            status := Live;
          }
        case MatchAborted =>
          if status == Pending || status == Live {
            status := Cancelled;
          }
        case PlayerKilled(kill) =>
          var counter := CounterFor(m, kill);
          if counter.Some? {
            var c := counter.value;
            if c.assetId in rows && Matches(rows[c.assetId], c) {
              var next := rows[c.assetId].count.value + 1;
              rows := rows[c.assetId := rows[c.assetId].(count := Some(if next < COUNT_LIMIT then next else COUNT_LIMIT))];
            }
          }
        case Signal(wellFormed) =>
          if !wellFormed {
            return false;
          }
        case Note(_) =>
      }
      return true;
    }

    method IngestEvents(events: seq<Event>, m: Manifest) returns (tally: Option<Tally>)
      modifies this
      ensures (View(), tally) == Ingest(old(View()), m, events)
    {
      var before := View();
      var inserted, duplicates, conflicted := 0, 0, 0;
      var i := 0;
      while i < |events|
        invariant 0 <= i <= |events|
        invariant inserted >= 0 && duplicates >= 0 && conflicted >= 0
        invariant IngestAll(before, m, events, Tally(0, 0, 0)) == IngestAll(View(), m, events[i..], Tally(inserted, duplicates, conflicted))
      {
        var e := events[i];
        if !Taken(stored, e) {
          var ok := Insert(e, m);
          if !ok {
            stored, rows, status, conflicts := before.stored, before.rows, before.status, before.conflicts;
            return None;
          }
          inserted := inserted + 1;
        } else if e in stored {
          duplicates := duplicates + 1;
        } else {
          conflicted := conflicted + 1;
          conflicts := conflicts + {e};
          if status != Cancelled {
            status := Disputed;
          }
        }
        i := i + 1;
      }
      return Some(Tally(inserted, duplicates, conflicted));
    }
  }

  // ---- Every event is stored once ----

  ghost predicate StoredOnce(stored: seq<Event>) {
    forall i, j :: 0 <= i < j < |stored| ==> stored[i].id != stored[j].id && stored[i].sequence != stored[j].sequence
  }

  /** Whether an event of this kind counts for the asset at this ownership. */
  predicate CountsFor(kind: Kind, m: Manifest, asset: string, row: Row) {
    kind.PlayerKilled? && CounterFor(m, kind.kill).Some?
    && CounterFor(m, kind.kill).value.assetId == asset && Matches(row, CounterFor(m, kind.kill).value)
  }

  /** How many of the stored kills count for this asset at this ownership. */
  function Kills(stored: seq<Event>, m: Manifest, asset: string, row: Row): nat {
    if stored == [] then 0
    else
      Kills(stored[..|stored| - 1], m, asset, row) + (if CountsFor(stored[|stored| - 1].kind, m, asset, row) then 1 else 0)
  }

  /** Each row is the base row with its counter raised once per stored qualifying kill, up to the limit. */
  ghost predicate CountsExact(s: State, m: Manifest, base: Rows) {
    && s.rows.Keys == base.Keys
    && forall a :: a in base ==> s.rows[a] == Tallied(base[a], Kills(s.stored, m, a, base[a]))
  }

  lemma KillsSnoc(stored: seq<Event>, e: Event, m: Manifest, a: string, row: Row)
    ensures Kills(stored + [e], m, a, row) == Kills(stored, m, a, row) + (if CountsFor(e.kind, m, a, row) then 1 else 0)
  {
    assert (stored + [e])[..|stored|] == stored;
  }

  /** An inserted event raises exactly the row it counts for. */
  lemma EffectOnRow(s: State, m: Manifest, kind: Kind, a: string)
    requires a in s.rows
    ensures var d := Effect(s, m, kind);
      && d.rows.Keys == s.rows.Keys && d.stored == s.stored
      && d.rows[a] == if CountsFor(kind, m, a, s.rows[a]) then s.rows[a].(count := Some(Min(s.rows[a].count.value + 1, COUNT_LIMIT))) else s.rows[a]
  {
  }

  /** The row as its base and the stored kills say. */
  function Tallied(base: Row, kills: nat): Row {
    base.(count := if base.count.None? then None else Some(Min(base.count.value + kills, COUNT_LIMIT)))
  }

  lemma TalliedOnce(base: Row, kills: nat, m: Manifest, kind: Kind, a: string)
    ensures CountsFor(kind, m, a, Tallied(base, kills)) == CountsFor(kind, m, a, base)
    ensures CountsFor(kind, m, a, base) ==>
      Tallied(base, kills + 1) == Tallied(base, kills).(count := Some(Min(Tallied(base, kills).count.value + 1, COUNT_LIMIT)))
  {
  }

  lemma InsertKeepsCounts(s: State, m: Manifest, e: Event, base: Rows)
    requires CountsExact(s, m, base)
    ensures CountsExact(Effect(s.(stored := s.stored + [e]), m, e.kind), m, base)
  {
    var next := s.(stored := s.stored + [e]);
    var d := Effect(next, m, e.kind);
    EffectKeepsKeys(next, m, e.kind);
    forall a | a in base ensures d.rows[a] == Tallied(base[a], Kills(d.stored, m, a, base[a])) {
      KillsSnoc(s.stored, e, m, a, base[a]);
      EffectOnRow(next, m, e.kind, a);
      TalliedOnce(base[a], Kills(s.stored, m, a, base[a]), m, e.kind, a);
    }
  }

  lemma EffectKeepsKeys(s: State, m: Manifest, kind: Kind)
    ensures Effect(s, m, kind).rows.Keys == s.rows.Keys
  {
  }

  lemma InsertKeepsStoredOnce(stored: seq<Event>, e: Event)
    requires StoredOnce(stored) && !Taken(stored, e)
    ensures StoredOnce(stored + [e])
  {
  }

  lemma OneKeeps(s: State, m: Manifest, e: Event, base: Rows)
    requires StoredOnce(s.stored) && CountsExact(s, m, base) && IngestOne(s, m, e).Some?
    ensures var d := IngestOne(s, m, e).value.0;
      StoredOnce(d.stored) && CountsExact(d, m, base)
  {
    if !Taken(s.stored, e) {
      InsertKeepsStoredOnce(s.stored, e);
      InsertKeepsCounts(s, m, e, base);
    }
  }

  /** A batch keeps ids and sequences unique and counters exact. */
  lemma {:induction false} AllKeeps(s: State, m: Manifest, events: seq<Event>, tally: Tally, base: Rows)
    requires StoredOnce(s.stored) && CountsExact(s, m, base) && IngestAll(s, m, events, tally).Some?
    ensures var (d, t) := IngestAll(s, m, events, tally).value;
      StoredOnce(d.stored) && CountsExact(d, m, base)
    decreases |events|
  {
    if events != [] {
      OneKeeps(s, m, events[0], base);
      var (next, outcome) := IngestOne(s, m, events[0]).value;
      AllKeeps(next, m, events[1..], tally.Plus(outcome), base);
    }
  }

  function Run(s: State, m: Manifest, batches: seq<seq<Event>>): State
    decreases |batches|
  {
    if batches == [] then s else Run(Ingest(s, m, batches[0]).0, m, batches[1..])
  }

  /** Over any batches in any order, with any repetition: effects follow the stored events exactly. */
  lemma {:induction false} EffectsExactlyOnce(s: State, m: Manifest, batches: seq<seq<Event>>, base: Rows)
    requires StoredOnce(s.stored) && CountsExact(s, m, base)
    ensures var d := Run(s, m, batches);
      StoredOnce(d.stored) && CountsExact(d, m, base)
    decreases |batches|
  {
    if batches != [] {
      if Ingest(s, m, batches[0]).1.Some? {
        AllKeeps(s, m, batches[0], Tally(0, 0, 0), base);
      }
      EffectsExactlyOnce(Ingest(s, m, batches[0]).0, m, batches[1..], base);
    }
  }

  /** From a match with no events yet, a counter is its first value plus the stored kills that name it, at most 2^32 - 1. */
  lemma CounterIsStoredKills(m: Manifest, batches: seq<seq<Event>>, base: Rows, a: string, status: Status)
    requires forall x :: x in base && base[x].count.Some? ==> base[x].count.value <= COUNT_LIMIT
    requires a in base && base[a].count.Some?
    ensures var d := Run(State([], base, status, {}), m, batches);
      a in d.rows && d.rows[a].count == Some(Min(base[a].count.value + Kills(d.stored, m, a, base[a]), COUNT_LIMIT))
  {
    var s := State([], base, status, {});
    assert CountsExact(s, m, base);
    EffectsExactlyOnce(s, m, batches, base);
  }

  /** Every event of a batch is counted once, as stored, already stored, or in conflict. */
  lemma BatchAddsUp(s: State, m: Manifest, events: seq<Event>)
    requires Ingest(s, m, events).1.Some?
    ensures var (d, t) := Ingest(s, m, events);
      && t.value.inserted + t.value.duplicates + t.value.conflicts == |events|
      && |d.stored| == |s.stored| + t.value.inserted
  {
    AllTally(s, m, events, Tally(0, 0, 0));
  }

  lemma {:induction false} AllTally(s: State, m: Manifest, events: seq<Event>, tally: Tally)
    requires IngestAll(s, m, events, tally).Some?
    ensures var (d, t) := IngestAll(s, m, events, tally).value;
      && t.Total() == tally.Total() + |events|
      && |d.stored| == |s.stored| + (t.inserted - tally.inserted) && t.inserted >= tally.inserted
      && s.stored <= d.stored
    decreases |events|
  {
    if events != [] {
      var (next, outcome) := IngestOne(s, m, events[0]).value;
      AllTally(next, m, events[1..], tally.Plus(outcome));
    }
  }

  // ---- Retrying a batch ----

  /** The event has had its effect: it is stored, or its conflict is on record and shown in the status. */
  ghost predicate Settled(s: State, e: Event) {
    && Taken(s.stored, e)
    && (e in s.stored || (e in s.conflicts && s.status in {Cancelled, Disputed}))
  }

  lemma OneSettles(s: State, m: Manifest, e: Event)
    requires IngestOne(s, m, e).Some?
    ensures Settled(IngestOne(s, m, e).value.0, e)
  {
    if !Taken(s.stored, e) {
      assert (s.stored + [e])[|s.stored|] == e;
    }
  }

  lemma SettledStays(s: State, m: Manifest, e: Event, f: Event)
    requires Settled(s, f) && IngestOne(s, m, e).Some?
    ensures Settled(IngestOne(s, m, e).value.0, f)
  {
    var d := IngestOne(s, m, e).value.0;
    var i :| 0 <= i < |s.stored| && (s.stored[i].id == f.id || s.stored[i].sequence == f.sequence);
    assert d.stored[i] == s.stored[i];
    if f !in s.stored && !Taken(s.stored, e) {
      assert e != f;
    }
  }

  lemma SettledAgain(s: State, m: Manifest, e: Event)
    requires Settled(s, e)
    ensures IngestOne(s, m, e) == Some((s, if e in s.stored then Duplicate else Conflict))
  {
    if e !in s.stored {
      assert s.conflicts + {e} == s.conflicts;
    }
  }

  lemma {:induction false} AllSettle(s: State, m: Manifest, events: seq<Event>, tally: Tally, done: seq<Event>)
    requires IngestAll(s, m, events, tally).Some? && forall f :: f in done ==> Settled(s, f)
    ensures forall f :: f in done + events ==> Settled(IngestAll(s, m, events, tally).value.0, f)
    decreases |events|
  {
    if events == [] {
      assert done + events == done;
    } else {
      var (next, outcome) := IngestOne(s, m, events[0]).value;
      OneSettles(s, m, events[0]);
      forall f | f in done ensures Settled(next, f) {
        SettledStays(s, m, events[0], f);
      }
      AllSettle(next, m, events[1..], tally.Plus(outcome), done + [events[0]]);
      assert (done + [events[0]]) + events[1..] == done + events;
    }
  }

  lemma {:induction false} SettledBatchAgain(s: State, m: Manifest, events: seq<Event>, tally: Tally)
    requires forall f :: f in events ==> Settled(s, f)
    ensures IngestAll(s, m, events, tally).Some?
    ensures var (d, t) := IngestAll(s, m, events, tally).value;
      d == s && t.inserted == tally.inserted
    decreases |events|
  {
    if events != [] {
      SettledAgain(s, m, events[0]);
      SettledBatchAgain(s, m, events[1..], tally.Plus(if events[0] in s.stored then Duplicate else Conflict));
    }
  }

  /** Sending a committed batch again, at any later time and even under another manifest, changes nothing and inserts nothing. */
  lemma RetryChangesNothing(s: State, m: Manifest, events: seq<Event>, later: seq<seq<Event>>, m2: Manifest)
    requires Ingest(s, m, events).1.Some?
    ensures var d := Run(Ingest(s, m, events).0, m, later);
      Ingest(d, m2, events).0 == d && Ingest(d, m2, events).1.Some? && Ingest(d, m2, events).1.value.inserted == 0
  {
    AllSettle(s, m, events, Tally(0, 0, 0), []);
    assert [] + events == events;
    var d0 := Ingest(s, m, events).0;
    RunKeepsSettled(d0, m, later, events);
    SettledBatchAgain(Run(d0, m, later), m2, events, Tally(0, 0, 0));
  }

  lemma {:induction false} RunKeepsSettled(s: State, m: Manifest, batches: seq<seq<Event>>, events: seq<Event>)
    requires forall f :: f in events ==> Settled(s, f)
    ensures forall f :: f in events ==> Settled(Run(s, m, batches), f)
    decreases |batches|
  {
    if batches != [] {
      if Ingest(s, m, batches[0]).1.Some? {
        AllSettle(s, m, batches[0], Tally(0, 0, 0), events);
        assert forall f :: f in events ==> f in events + batches[0];
      }
      RunKeepsSettled(Ingest(s, m, batches[0]).0, m, batches[1..], events);
    }
  }

  // ---- The match's status ----

  /** Forward only: a cancelled match stays cancelled and a disputed one never comes back to life. */
  predicate Forward(before: Status, after: Status) {
    || before == after
    || (before == Pending && after == Live)
    || (before in {Pending, Live} && after == Cancelled)
    || (before != Cancelled && after == Disputed)
  }

  lemma ForwardTwice(a: Status, b: Status, c: Status)
    requires Forward(a, b) && Forward(b, c)
    ensures Forward(a, c)
  {
  }

  lemma {:induction false} StatusMovesForward(s: State, m: Manifest, events: seq<Event>, tally: Tally)
    requires IngestAll(s, m, events, tally).Some?
    ensures Forward(s.status, IngestAll(s, m, events, tally).value.0.status)
    decreases |events|
  {
    if events != [] {
      var (next, outcome) := IngestOne(s, m, events[0]).value;
      StatusMovesForward(next, m, events[1..], tally.Plus(outcome));
      ForwardTwice(s.status, next.status, IngestAll(s, m, events, tally).value.0.status);
    }
  }
}
