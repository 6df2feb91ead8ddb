/** The trade event journal: an advisory lock held through commit, burned ids, and readers that page by cursor. */
module Journal {
  import opened Common

  const PAGE: nat := 100

  /** A journal reader: whose offers, perhaps only one of them, from where, how far, and what it got. */
  datatype Reader = Reader(player: nat, only: Option<nat>, start: nat, cursor: nat, delivered: seq<nat>)

  /**
   `last` is the last id the sequence handed out; `pending` holds the rows each open transaction
   inserted; `committed` maps visible ids to their offers.
   */
  datatype State = State(
    last: nat, lock: Option<nat>, pending: map<nat, map<nat, nat>>, committed: map<nat, nat>,
    parties: map<nat, set<nat>>, readers: map<nat, Reader>)

  datatype Op =
    | Begin(tx: nat)
    | Lock(tx: nat)
    | Insert(tx: nat, offer: nat)
    | Commit(tx: nat)
    | Rollback(tx: nat)
    | Subscribe(reader: nat, player: nat, only: Option<nat>, start: nat)
    | Read(reader: nat)

  predicate Relevant(s: State, r: Reader, id: nat)
    requires id in s.committed
  {
    var offer := s.committed[id];
    offer in s.parties && r.player in s.parties[offer] && (r.only.None? || r.only.value == offer)
  }

  /** Visible ids of the reader's events above lo and up to hi. */
  function Between(s: State, r: Reader, lo: nat, hi: nat): set<nat> {
    set id | id in s.committed && lo < id <= hi && Relevant(s, r, id)
  }

  /** Visible ids of the reader's events above its cursor. */
  function Unread(s: State, r: Reader): set<nat> {
    set id | id in s.committed && r.cursor < id && Relevant(s, r, id)
  }

  function Take(s: seq<nat>, n: nat): seq<nat> {
    if |s| <= n then s else s[..n]
  }

  /** The next page, ascending by id. */
  function Page(s: State, r: Reader): seq<nat> {
    Take(Ascending(Unread(s, r)), PAGE)
  }

  function Delivered(s: State, r: Reader): Reader {
    var page := Page(s, r);
    if page == [] then r else r.(cursor := page[|page| - 1], delivered := r.delivered + page)
  }

  /** Inserting needs the lock; the lock goes only when its transaction ends. */
  ghost predicate Enabled(s: State, op: Op) {
    match op
    case Begin(tx) => tx !in s.pending
    case Lock(tx) => tx in s.pending && s.lock in {None, Some(tx)}
    case Insert(tx, _) => tx in s.pending && s.lock == Some(tx)
    case Commit(tx) => tx in s.pending
    case Rollback(tx) => tx in s.pending
    case Subscribe(reader, _, _, _) => reader !in s.readers
    case Read(reader) => reader in s.readers
  }

  function Released(s: State, tx: nat): Option<nat> {
    if s.lock == Some(tx) then None else s.lock
  }

  function Apply(s: State, op: Op): State {
    match op
    case Begin(tx) => s.(pending := s.pending[tx := map[]])
    case Lock(tx) => s.(lock := Some(tx))
    case Insert(tx, offer) =>
      var rows := if tx in s.pending then s.pending[tx] else map[];
      s.(last := s.last + 1, pending := s.pending[tx := rows[s.last + 1 := offer]])
    case Commit(tx) =>
      s.(committed := if tx in s.pending then s.committed + s.pending[tx] else s.committed,
         pending := s.pending - {tx}, lock := Released(s, tx))
    case Rollback(tx) => s.(pending := s.pending - {tx}, lock := Released(s, tx))
    case Subscribe(reader, player, only, start) => s.(readers := s.readers[reader := Reader(player, only, start, start, [])])
    case Read(reader) => if reader in s.readers then s.(readers := s.readers[reader := Delivered(s, s.readers[reader])]) else s
  }

  // ---- The invariant ----

  /** The lock's holder is open; only it has rows waiting, and they are newer than everything visible. */
  ghost predicate WritersOk(s: State) {
    && (s.lock.Some? ==> s.lock.value in s.pending)
    && (forall id :: id in s.committed ==> id <= s.last)
    && (forall tx, id :: tx in s.pending && id in s.pending[tx] ==>
          s.lock == Some(tx) && id <= s.last && forall seen :: seen in s.committed ==> seen < id)
  }

  /** A reader holds exactly the visible events between its start and its cursor, each once, in order. */
  ghost predicate ReaderOk(s: State, r: Reader) {
    && r.start <= r.cursor
    && (r.cursor == r.start || r.cursor in s.committed)
    && r.delivered == Ascending(Between(s, r, r.start, r.cursor))
  }

  ghost predicate Inv(s: State) {
    WritersOk(s) && forall k :: k in s.readers ==> ReaderOk(s, s.readers[k])
  }

  // ---- Pages ----

  /** The next page lists the unread ids up to its last one. */
  lemma PageLists(s: State, r: Reader)
    requires Unread(s, r) != {}
    ensures var page, unread := Page(s, r), Unread(s, r);
      && page != [] && page[|page| - 1] in unread && |page| == (if |unread| <= PAGE then |unread| else PAGE)
      && Lists(page, set id | id in unread && id <= page[|page| - 1])
  {
    var unread := Unread(s, r);
    AscendingLists(unread);
    var all := Ascending(unread);
    var n := if |all| <= PAGE then |all| else PAGE;
    assert Page(s, r) == all[..n];
    ListsCut(all, unread, n);
    assert all[n - 1] in Elems(all);
  }

  lemma NothingUnread(s: State, r: Reader)
    requires Unread(s, r) == {}
    ensures Delivered(s, r) == r
  {
    assert Ascending(Unread(s, r)) == [];
  }

  // ---- Steps ----

  /** Reading moves the cursor over exactly the page's events. */
  lemma ReadSplits(s: State, r: Reader)
    requires r.start <= r.cursor && Unread(s, r) != {}
    ensures var d := Delivered(s, r);
      var page := set id | id in Unread(s, r) && id <= d.cursor;
      && d.cursor in Unread(s, r) && d == r.(cursor := d.cursor, delivered := r.delivered + Page(s, r)) && Lists(Page(s, r), page)
      && Between(s, d, r.start, d.cursor) == Between(s, r, r.start, r.cursor) + page
      && Unread(s, d) == Unread(s, r) - page
  {
    PageLists(s, r);
    var d := Delivered(s, r);
    assert forall id :: id in s.committed ==> Relevant(s, d, id) == Relevant(s, r, id);
  }

  lemma ReadOk(s: State, r: Reader)
    requires ReaderOk(s, r)
    ensures ReaderOk(s, Delivered(s, r))
  {
    if Unread(s, r) == {} {
      NothingUnread(s, r);
    } else {
      ReadSplits(s, r);
      var d := Delivered(s, r);
      var page := set id | id in Unread(s, r) && id <= d.cursor;
      var before := Between(s, r, r.start, r.cursor);
      AscendingLists(before);
      ListsJoin(r.delivered, before, Page(s, r), page);
      ListIsAscending(d.delivered, before + page);
    }
  }

  /** What becomes visible is newer than anything any reader has reached. */
  lemma CommitKeepsReader(s: State, d: State, r: Reader)
    requires ReaderOk(s, r) && d.parties == s.parties
    requires forall id :: id in s.committed ==> id in d.committed && d.committed[id] == s.committed[id]
    requires forall id :: id in d.committed && id !in s.committed ==> forall seen :: seen in s.committed ==> seen < id
    ensures ReaderOk(d, r)
  {
    assert Between(d, r, r.start, r.cursor) == Between(s, r, r.start, r.cursor);
  }

  lemma StepKeepsWriters(s: State, op: Op)
    requires WritersOk(s) && Enabled(s, op)
    ensures WritersOk(Apply(s, op))
  {
  }

  lemma StepKeepsInv(s: State, op: Op)
    requires Inv(s) && Enabled(s, op)
    ensures Inv(Apply(s, op))
  {
    StepKeepsWriters(s, op);
    var d := Apply(s, op);
    forall k | k in d.readers ensures ReaderOk(d, d.readers[k]) {
      if op.Read? && op.reader == k {
        ReadOk(s, s.readers[k]);
        CommitKeepsReader(s, d, Delivered(s, s.readers[k]));
      } else if op.Subscribe? && op.reader == k {
        assert Between(d, d.readers[k], op.start, op.start) == {};
        assert Ascending({}) == [];
      } else {
        CommitKeepsReader(s, d, s.readers[k]);
      }
    }
  }

  function Run(s: State, ops: seq<Op>): State
    decreases |ops|
  {
    if ops == [] then s else Run(Apply(s, ops[0]), ops[1..])
  }

  ghost predicate ValidRun(s: State, ops: seq<Op>)
    decreases |ops|
  {
    ops == [] || (Enabled(s, ops[0]) && ValidRun(Apply(s, ops[0]), ops[1..]))
  }

  /** However writers and readers interleave and whoever rolls back, every reader holds exactly what it should. */
  lemma {:induction false} RunKeepsInv(s: State, ops: seq<Op>)
    requires Inv(s) && ValidRun(s, ops)
    ensures Inv(Run(s, ops))
    decreases |ops|
  {
    if ops != [] {
      StepKeepsInv(s, ops[0]);
      RunKeepsInv(Apply(s, ops[0]), ops[1..]);
    }
  }

  /** So does every state reached from an empty journal. */
  lemma ReachableInv(parties: map<nat, set<nat>>, ops: seq<Op>)
    requires ValidRun(State(0, None, map[], map[], parties, map[]), ops)
    ensures Inv(Run(State(0, None, map[], map[], parties, map[]), ops))
  {
    RunKeepsInv(State(0, None, map[], map[], parties, map[]), ops);
  }

  // ---- Nothing appears below a cursor ----

  /** Every id up to the cursor was handed out, and none of them is still waiting for its commit. */
  ghost predicate Settled(s: State, cursor: nat) {
    cursor <= s.last && forall tx, id :: tx in s.pending && id in s.pending[tx] ==> cursor < id
  }

  lemma SettledStep(s: State, cursor: nat, op: Op)
    requires Settled(s, cursor) && Enabled(s, op)
    ensures Settled(Apply(s, op), cursor)
    ensures forall id :: id <= cursor ==> (id in Apply(s, op).committed <==> id in s.committed)
  {
  }

  lemma {:induction false} SettledStays(s: State, cursor: nat, ops: seq<Op>)
    requires Settled(s, cursor) && ValidRun(s, ops)
    ensures Settled(Run(s, ops), cursor)
    ensures forall id :: id <= cursor ==> (id in Run(s, ops).committed <==> id in s.committed)
    decreases |ops|
  {
    if ops != [] {
      SettledStep(s, cursor, ops[0]);
      SettledStays(Apply(s, ops[0]), cursor, ops[1..]);
    }
  }

  /** A transaction that can insert the next id and commit it, and the calls that do so. */
  lemma NextIdCommits(s: State) returns (ops: seq<Op>)
    requires WritersOk(s)
    ensures ValidRun(s, ops) && s.last + 1 in Run(s, ops).committed
  {
    if s.lock.Some? {
      ops := InsertAndCommit(s, s.lock.value);
    } else {
      var tx, begun := 0, s;
      if s.pending == map[] {
        begun := Apply(s, Begin(0));
      } else {
        tx :| tx in s.pending;
      }
      var rest := InsertAndCommit(Apply(begun, Lock(tx)), tx);
      ops := [Lock(tx)] + rest;
      assert ops[1..] == rest;
      if s.pending == map[] {
        assert ([Begin(0)] + ops)[1..] == ops;
        ops := [Begin(0)] + ops;
      }
    }
  }

  lemma InsertAndCommit(s: State, tx: nat) returns (ops: seq<Op>)
    requires s.lock == Some(tx) && tx in s.pending
    ensures ValidRun(s, ops) && s.last + 1 in Run(s, ops).committed
  {
    ops := [Insert(tx, 0), Commit(tx)];
    var inserted := Apply(s, ops[0]);
    assert ops[1..] == [Commit(tx)] && [Commit(tx)][1..] == [];
    assert Run(s, ops) == Run(inserted, [Commit(tx)]) == Run(Apply(inserted, Commit(tx)), []);
    assert ValidRun(inserted, [Commit(tx)]) by {
      assert ValidRun(Apply(inserted, Commit(tx)), []);
    }
  }

  lemma WaitingRowCommits(s: State, tx: nat, id: nat)
    requires WritersOk(s) && tx in s.pending && id in s.pending[tx]
    ensures ValidRun(s, [Commit(tx)]) && id !in s.committed && id in Run(s, [Commit(tx)]).committed
  {
    assert [Commit(tx)][1..] == [];
    assert Run(s, [Commit(tx)]) == Run(Apply(s, Commit(tx)), []);
    assert ValidRun(Apply(s, Commit(tx)), []);
  }

  /** A cursor is safe to page from, in every run to come, exactly when it is settled. */
  lemma SafeIffSettled(s: State, cursor: nat)
    requires WritersOk(s)
    ensures Settled(s, cursor)
       <==> forall ops, id :: ValidRun(s, ops) && id <= cursor ==> (id in Run(s, ops).committed <==> id in s.committed)
  {
    if Settled(s, cursor) {
      forall ops, id | ValidRun(s, ops) && id <= cursor
        ensures id in Run(s, ops).committed <==> id in s.committed
      {
        SettledStays(s, cursor, ops);
      }
    } else if s.last < cursor {
      var ops := NextIdCommits(s);
      assert s.last + 1 !in s.committed;
    } else {
      var tx, id :| tx in s.pending && id in s.pending[tx] && id <= cursor;
      WaitingRowCommits(s, tx, id);
    }
  }

  /**
   No id at or below a reader's cursor becomes visible in any run to come, once the reader has an event
   or if it started from a settled id.
   */
  lemma NothingAppearsBelow(s: State, ops: seq<Op>, k: nat, id: nat)
    requires Inv(s) && ValidRun(s, ops) && k in s.readers && id <= s.readers[k].cursor
    requires s.readers[k].cursor != s.readers[k].start || Settled(s, s.readers[k].start)
    ensures id in Run(s, ops).committed <==> id in s.committed
  {
    assert ReaderOk(s, s.readers[k]);
    SettledStays(s, s.readers[k].cursor, ops);
  }

  // ---- Catching up ----

  function ReadTimes(s: State, r: Reader, n: nat): Reader
    decreases n
  {
    if n == 0 then r else ReadTimes(s, Delivered(s, r), n - 1)
  }

  /** Each page takes the next 100 events, or all that are left. */
  lemma ReadTakesPage(s: State, r: Reader)
    requires ReaderOk(s, r)
    ensures |Unread(s, Delivered(s, r))| == if |Unread(s, r)| <= PAGE then 0 else |Unread(s, r)| - PAGE
  {
    if Unread(s, r) == {} {
      NothingUnread(s, r);
    } else {
      PageLists(s, r);
      ReadSplits(s, r);
      var page := set id | id in Unread(s, r) && id <= Delivered(s, r).cursor;
      ListSize(Page(s, r), page);
      SubsetSize(page, Unread(s, r));
    }
  }

  lemma ListSize(l: seq<nat>, s: set<nat>)
    requires Lists(l, s)
    ensures |l| == |s|
  {
    ListIsAscending(l, s);
    AscendingLists(s);
  }

  lemma SubsetSize(a: set<nat>, b: set<nat>)
    requires a <= b
    ensures |b - a| == |b| - |a|
  {
    assert b == a + (b - a);
  }

  /** Everything visible for the reader after its start. */
  function Due(s: State, r: Reader): set<nat> {
    set id | id in s.committed && r.start < id && Relevant(s, r, id)
  }

  /** Paging until nothing is left delivers every visible event after the start exactly once, in order. */
  lemma {:induction false} PagingCatchesUp(s: State, r: Reader, n: nat)
    requires ReaderOk(s, r) && |Unread(s, r)| <= PAGE * n
    ensures var d := ReadTimes(s, r, n);
      && ReaderOk(s, d) && Unread(s, d) == {}
      && d.delivered == Ascending(Due(s, r))
    decreases n
  {
    if n > 0 {
      ReadOk(s, r);
      ReadTakesPage(s, r);
      PagingCatchesUp(s, Delivered(s, r), n - 1);
      assert Due(s, Delivered(s, r)) == Due(s, r);
    } else {
      assert Due(s, r) == Between(s, r, r.start, r.cursor) + Unread(s, r);
    }
  }

  // ---- The lock is needed ----

  /** Two writers of one offer, both with rows waiting, which only happens without the lock. */
  const UNLOCKED: State :=
    State(2, None, map[1 := map[1 := 5], 2 := map[2 := 5]], map[], map[5 := {9}], map[0 := Reader(9, None, 0, 0, [])])

  /** If the later writer commits first, a reader passes the earlier event and never gets it. */
  lemma EventLostWithoutLock()
    ensures !WritersOk(UNLOCKED)
    ensures var d := Apply(Apply(Apply(UNLOCKED, Commit(2)), Read(0)), Commit(1));
      1 in d.committed && d.readers[0].cursor == 2 && 1 !in d.readers[0].delivered
      && Apply(d, Read(0)).readers[0].delivered == d.readers[0].delivered
  {
    assert 1 in UNLOCKED.pending[1] && 2 in UNLOCKED.pending[2];
    var s1 := Apply(UNLOCKED, Commit(2));
    var r0 := s1.readers[0];
    assert s1.committed == map[2 := 5];
    assert Unread(s1, r0) == {2};
    assert LeastOf({2}) == 2 && {2} - {2} == {};
    assert Page(s1, r0) == [2];
    var s2 := Apply(s1, Read(0));
    assert s2.readers[0] == Reader(9, None, 0, 2, [2]);
    var d := Apply(s2, Commit(1));
    assert d.readers == s2.readers && 1 in d.committed;
    assert d.committed == map[1 := 5, 2 := 5];
    assert Unread(d, d.readers[0]) == {};
    NothingUnread(d, d.readers[0]);
  }
}
