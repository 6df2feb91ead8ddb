/** The search over sets of tickets that fill a match around the longest-waiting ticket. */
module MatchSearch {
  import opened Common
  import opened Queue
  import opened Ranking
  import opened TeamSearch
  import opened MatchEvaluation

  // ---- Candidates: oldest first ----

  predicate JoinedBefore(a: SearchTicket, b: SearchTicket) {
    a.joinedAt < b.joinedAt || (a.joinedAt == b.joinedAt && Before(a.id, b.id))
  }

  function InsertByAge(t: SearchTicket, s: seq<SearchTicket>): seq<SearchTicket> {
    if s == [] || !JoinedBefore(s[0], t) then [t] + s else [s[0]] + InsertByAge(t, s[1..])
  }

  /** A stable sort by joining time, then id. */
  function SortByAge(s: seq<SearchTicket>): seq<SearchTicket> {
    if s == [] then [] else InsertByAge(s[0], SortByAge(s[1..]))
  }

  function InMode(tickets: seq<SearchTicket>, mode: Mode): seq<SearchTicket> {
    if tickets == [] then []
    else (if tickets[0].mode == mode then [tickets[0]] else []) + InMode(tickets[1..], mode)
  }

  function Sorted(tickets: seq<SearchTicket>, mode: Mode): seq<SearchTicket> {
    SortByAge(InMode(tickets, mode))
  }

  function Target(mode: Mode): nat {
    if mode == Deathmatch then 14 else 10
  }

  function Candidates(sorted: seq<SearchTicket>, mode: Mode): seq<SearchTicket> {
    var width := if mode == Deathmatch then 30 else 25;
    if |sorted| <= width then sorted else sorted[..width]
  }

  lemma {:induction false} InsertKeepsTickets(t: SearchTicket, s: seq<SearchTicket>)
    ensures multiset(InsertByAge(t, s)) == multiset(s) + multiset{t}
  {
    if s != [] && JoinedBefore(s[0], t) {
      InsertKeepsTickets(t, s[1..]);
      assert s == [s[0]] + s[1..];
    }
  }

  lemma {:induction false} SortKeepsTickets(s: seq<SearchTicket>)
    ensures multiset(SortByAge(s)) == multiset(s)
  {
    if s != [] {
      SortKeepsTickets(s[1..]);
      InsertKeepsTickets(s[0], SortByAge(s[1..]));
      assert s == [s[0]] + s[1..];
    }
  }

  lemma AgeChain(a: SearchTicket, b: SearchTicket, c: SearchTicket)
    requires !JoinedBefore(b, a) && !JoinedBefore(c, b)
    ensures !JoinedBefore(c, a)
  {
    BeforeTotal(b.id, a.id);
    BeforeTotal(c.id, b.id);
    if JoinedBefore(c, a) {
      if Before(c.id, a.id) && Before(a.id, b.id) {
        BeforeTransitive(c.id, a.id, b.id);
      }
      if Before(b.id, c.id) && Before(c.id, a.id) {
        BeforeTransitive(b.id, c.id, a.id);
      }
      if Before(a.id, b.id) && Before(b.id, c.id) {
        BeforeTransitive(a.id, b.id, c.id);
      }
      BeforeIrreflexive(a.id);
      BeforeIrreflexive(b.id);
      BeforeIrreflexive(c.id);
      if Before(b.id, c.id) && Before(c.id, b.id) {
        BeforeTransitive(b.id, c.id, b.id);
      }
      if Before(a.id, c.id) && Before(c.id, a.id) {
        BeforeTransitive(a.id, c.id, a.id);
      }
    }
  }

  lemma NotBoth(a: SearchTicket, b: SearchTicket)
    requires JoinedBefore(a, b)
    ensures !JoinedBefore(b, a)
  {
    if Before(b.id, a.id) && Before(a.id, b.id) {
      BeforeTransitive(a.id, b.id, a.id);
      BeforeIrreflexive(a.id);
    }
  }

  ghost predicate OldestFirst(s: seq<SearchTicket>) {
    forall i, j :: 0 <= i < j < |s| ==> !JoinedBefore(s[j], s[i])
  }

  lemma {:induction false} InsertKeepsOrder(t: SearchTicket, s: seq<SearchTicket>)
    requires OldestFirst(s)
    ensures OldestFirst(InsertByAge(t, s))
  {
    if s != [] && JoinedBefore(s[0], t) {
      var tail := InsertByAge(t, s[1..]);
      InsertKeepsOrder(t, s[1..]);
      InsertKeepsTickets(t, s[1..]);
      NotBoth(s[0], t);
      forall j | 0 <= j < |tail| ensures !JoinedBefore(tail[j], s[0]) {
        assert tail[j] in multiset(tail);
        assert tail[j] == t || tail[j] in s[1..];
      }
    } else if s != [] {
      forall j | 0 <= j < |s| ensures !JoinedBefore(s[j], t) {
        if j > 0 {
          AgeChain(t, s[0], s[j]);
        }
      }
    }
  }

  lemma {:induction false} SortedOldestFirst(s: seq<SearchTicket>)
    ensures OldestFirst(SortByAge(s))
  {
    if s != [] {
      SortedOldestFirst(s[1..]);
      InsertKeepsOrder(s[0], SortByAge(s[1..]));
    }
  }

  // ---- The search tree ----

  /** The complete sets below a node, in the order they are reached. */
  function Combos(candidates: seq<SearchTicket>, anchor: SearchTicket, target: nat, index: nat, selected: seq<SearchTicket>, size: nat)
    : seq<seq<SearchTicket>>
    decreases |candidates| - index, 1
  {
    if size > target then []
    else if size == target then [selected]
    else Extensions(candidates, anchor, target, index, selected, size)
  }

  function Extensions(candidates: seq<SearchTicket>, anchor: SearchTicket, target: nat, index: nat, selected: seq<SearchTicket>, size: nat)
    : seq<seq<SearchTicket>>
    decreases |candidates| - index, 0
  {
    if index >= |candidates| then []
    else
      (if candidates[index] == anchor then [] else Below(candidates, anchor, target, index, selected, size))
      + Extensions(candidates, anchor, target, index + 1, selected, size)
  }

  /** The sets that go on with candidate i. */
  function Below(candidates: seq<SearchTicket>, anchor: SearchTicket, target: nat, i: nat, selected: seq<SearchTicket>, size: nat)
    : seq<seq<SearchTicket>>
    requires i < |candidates|
    decreases |candidates| - i - 1, 2
  {
    Combos(candidates, anchor, target, i + 1, selected + [candidates[i]], size + |candidates[i].players|)
  }

  datatype Progress = Progress(visited: nat, best: Option<MatchPlan>)

  function PlanRank(p: MatchPlan): Rank {
    Rank(p.quality.score, JoinIds(Ids(p.tickets), ":"))
  }

  /** What stays fixed during one search. */
  datatype Setting = Setting(now: int, limit: int, mode: Mode, elo: real -> real)

  function KeepPlan(best: Option<MatchPlan>, plan: Option<MatchPlan>): Option<MatchPlan> {
    if plan.None? then best else Keep(best, plan.value, PlanRank)
  }

  /** Evaluates the sets in order until the limit is spent. */
  function Evaluated(p: Progress, sets: seq<seq<SearchTicket>>, g: Setting): Progress
    decreases |sets|
  {
    if sets == [] || p.visited >= g.limit then p
    else Evaluated(Progress(p.visited + 1, KeepPlan(p.best, Evaluate(sets[0], g.now, g.mode, g.elo))), sets[1..], g)
  }

  lemma {:induction false} EvaluatedConcat(p: Progress, xs: seq<seq<SearchTicket>>, ys: seq<seq<SearchTicket>>, g: Setting)
    ensures Evaluated(Evaluated(p, xs, g), ys, g) == Evaluated(p, xs + ys, g)
    decreases |xs|
  {
    if xs == [] {
      assert xs + ys == ys;
    } else if p.visited < g.limit {
      assert (xs + ys)[1..] == xs[1..] + ys;
      EvaluatedConcat(Progress(p.visited + 1, KeepPlan(p.best, Evaluate(xs[0], g.now, g.mode, g.elo))), xs[1..], ys, g);
    }
  }

  /** Evaluating the sets from one candidate on: first those with it, then the rest. */
  lemma EvaluatedNext(p: Progress, candidates: seq<SearchTicket>, anchor: SearchTicket, target: nat, i: nat,
                      selected: seq<SearchTicket>, size: nat, g: Setting)
    returns (rest: seq<seq<SearchTicket>>)
    requires i < |candidates|
    ensures rest == Extensions(candidates, anchor, target, i + 1, selected, size)
    ensures Evaluated(p, Extensions(candidates, anchor, target, i, selected, size), g)
         == Evaluated(if candidates[i] == anchor then p else Evaluated(p, Below(candidates, anchor, target, i, selected, size), g), rest, g)
  {
    rest := Extensions(candidates, anchor, target, i + 1, selected, size);
    if candidates[i] == anchor {
      assert [] + rest == rest;
    } else {
      EvaluatedConcat(p, Below(candidates, anchor, target, i, selected, size), rest, g);
    }
  }

  class MatchSearcher {
    const candidates: seq<SearchTicket>
    const anchor: SearchTicket
    const target: nat
    const setting: Setting
    var selected: seq<SearchTicket>
    var visited: nat
    var best: Option<MatchPlan>

    constructor (candidates: seq<SearchTicket>, anchor: SearchTicket, setting: Setting)
      ensures this.candidates == candidates && this.anchor == anchor && this.setting == setting
      ensures target == Target(setting.mode) && selected == [anchor] && visited == 0 && best == None
    {
      this.candidates, this.anchor, this.setting := candidates, anchor, setting;
      target := Target(setting.mode);
      selected, visited, best := [anchor], 0, None;
    }

    method Visit(index: nat, size: nat)
      modifies this
      ensures selected == old(selected)
      ensures Progress(visited, best) ==
           Evaluated(Progress(old(visited), old(best)), Combos(candidates, anchor, target, index, selected, size), setting)
      decreases |candidates| - index, 1
    {
      if visited >= setting.limit || size > target {
        return;
      }
      if size == target {
        visited := visited + 1;
        var plan := Evaluate(selected, setting.now, setting.mode, setting.elo);
        if plan.Some? && (best.None? || Better(PlanRank(plan.value), PlanRank(best.value))) {
          best := plan;
        }
        return;
      }
      Extend(index, size);
    }

    /** The loop over the tickets that may come next. */
    method Extend(index: nat, size: nat)
      modifies this
      ensures selected == old(selected)
      ensures Progress(visited, best) ==
           Evaluated(Progress(old(visited), old(best)), Extensions(candidates, anchor, target, index, selected, size), setting)
      decreases |candidates| - index, 0
    {
      ghost var was := selected;
      ghost var rest := Extensions(candidates, anchor, target, index, was, size);
      ghost var result := Evaluated(Progress(visited, best), rest, setting);
      var i := index;
      while i < |candidates|
        invariant index <= i
        invariant selected == was && rest == Extensions(candidates, anchor, target, i, was, size)
        invariant result == Evaluated(Progress(visited, best), rest, setting)
      {
        rest := EvaluatedNext(Progress(visited, best), candidates, anchor, target, i, was, size, setting);
        if candidates[i] != anchor {
          Take(i, size);
        }
        i := i + 1;
      }
    }

    /** Visits the sets that go on with one candidate. */
    method Take(i: nat, size: nat)
      requires i < |candidates|
      modifies this
      ensures selected == old(selected)
      ensures Progress(visited, best) == Evaluated(Progress(old(visited), old(best)), Below(candidates, anchor, target, i, selected, size), setting)
      decreases |candidates| - i - 1, 2
    {
      var ticket := candidates[i];
      selected := selected + [ticket];
      Visit(i + 1, size + |ticket.players|);
      selected := selected[..|selected| - 1];
    }
  }

  // ---- The whole of findMatch ----

  function Searched(sorted: seq<SearchTicket>, g: Setting): Progress
    requires sorted != []
  {
    Evaluated(Progress(0, None), Combos(Candidates(sorted, g.mode), sorted[0], Target(g.mode), 1, [sorted[0]], |sorted[0].players|), g)
  }

  /** The plan found for one mode, if any. */
  function BestFor(tickets: seq<SearchTicket>, g: Setting): Option<MatchPlan> {
    var sorted := Sorted(tickets, g.mode);
    if sorted == [] then None else Searched(sorted, g).best
  }

  function OldestJoin(tickets: seq<SearchTicket>): int
    requires tickets != []
  {
    if |tickets| == 1 then tickets[0].joinedAt else Min(tickets[0].joinedAt, OldestJoin(tickets[1..]))
  }

  /** Plan a goes before plan b: its longest wait is longer, or as long with a better score. */
  predicate Sooner(a: MatchPlan, b: MatchPlan)
    requires a.tickets != [] && b.tickets != []
  {
    var x, y := OldestJoin(a.tickets), OldestJoin(b.tickets);
    x < y || (x == y && a.quality.score < b.quality.score)
  }

  function First(left: Option<MatchPlan>, right: Option<MatchPlan>): Option<MatchPlan>
    requires left.Some? ==> left.value.tickets != []
    requires right.Some? ==> right.value.tickets != []
  {
    if left.None? then right
    else if right.None? then left
    else if Sooner(right.value, left.value) then right else left
  }

  function FindMatch(tickets: seq<SearchTicket>, now: int, limit: int, elo: real -> real): Option<MatchPlan> {
    var competitive := BestFor(tickets, Setting(now, limit, Competitive, elo));
    var deathmatch := BestFor(tickets, Setting(now, limit, Deathmatch, elo));
    PlanHasTickets(tickets, Setting(now, limit, Competitive, elo));
    PlanHasTickets(tickets, Setting(now, limit, Deathmatch, elo));
    First(competitive, deathmatch)
  }

  method SearchMode(tickets: seq<SearchTicket>, g: Setting) returns (plan: Option<MatchPlan>, visited: nat)
    ensures plan == BestFor(tickets, g)
    ensures g.limit >= 0 ==> visited <= g.limit
  {
    var sorted := Sorted(tickets, g.mode);
    if sorted == [] {
      return None, 0;
    }
    var search := new MatchSearcher(Candidates(sorted, g.mode), sorted[0], g);
    search.Visit(1, |sorted[0].players|);
    EvaluatedCount(Progress(0, None), Combos(Candidates(sorted, g.mode), sorted[0], Target(g.mode), 1, [sorted[0]], |sorted[0].players|), g);
    return search.best, search.visited;
  }

  method Match(tickets: seq<SearchTicket>, now: int, limit: int, elo: real -> real) returns (plan: Option<MatchPlan>)
    ensures plan == FindMatch(tickets, now, limit, elo)
  {
    var competitive, _ := SearchMode(tickets, Setting(now, limit, Competitive, elo));
    var deathmatch, _ := SearchMode(tickets, Setting(now, limit, Deathmatch, elo));
    PlanHasTickets(tickets, Setting(now, limit, Competitive, elo));
    PlanHasTickets(tickets, Setting(now, limit, Deathmatch, elo));
    plan := First(competitive, deathmatch);
  }

  // ---- The search as a fold over the accepted sets ----

  /** The plans of the sets that match, in order. */
  function Accepted(sets: seq<seq<SearchTicket>>, g: Setting): seq<MatchPlan> {
    if sets == [] then []
    else
      var plan := Evaluate(sets[0], g.now, g.mode, g.elo);
      (if plan.Some? then [plan.value] else []) + Accepted(sets[1..], g)
  }

  function Taken(visited: nat, n: nat, limit: int): (taken: nat)
    ensures taken <= n
  {
    if limit <= visited then 0 else if limit - visited < n then limit - visited else n
  }

  lemma AcceptedCons(best: Option<MatchPlan>, first: seq<SearchTicket>, rest: seq<seq<SearchTicket>>, g: Setting)
    ensures Best(best, Accepted([first] + rest, g), PlanRank)
         == Best(KeepPlan(best, Evaluate(first, g.now, g.mode, g.elo)), Accepted(rest, g), PlanRank)
  {
    assert ([first] + rest)[1..] == rest;
    var plan := Evaluate(first, g.now, g.mode, g.elo);
    if plan.Some? {
      var plans := [plan.value] + Accepted(rest, g);
      assert plans[1..] == Accepted(rest, g);
    } else {
      assert [] + Accepted(rest, g) == Accepted(rest, g);
    }
  }

  /** The search never evaluates more sets than the limit, and picks the best of exactly those it evaluated. */
  lemma {:induction false} EvaluatedCount(p: Progress, sets: seq<seq<SearchTicket>>, g: Setting)
    ensures var n := Taken(p.visited, |sets|, g.limit);
      Evaluated(p, sets, g) == Progress(p.visited + n, Best(p.best, Accepted(sets[..n], g), PlanRank))
    decreases |sets|
  {
    var n := Taken(p.visited, |sets|, g.limit);
    if n > 0 {
      var plan := Evaluate(sets[0], g.now, g.mode, g.elo);
      var next := Progress(p.visited + 1, KeepPlan(p.best, plan));
      EvaluatedCount(next, sets[1..], g);
      assert sets[..n] == [sets[0]] + sets[1..][..n - 1];
      AcceptedCons(p.best, sets[0], sets[1..][..n - 1], g);
    }
  }

  lemma {:induction false} AcceptedFrom(sets: seq<seq<SearchTicket>>, g: Setting, plan: MatchPlan)
    ensures plan in Accepted(sets, g) <==> exists i :: 0 <= i < |sets| && Evaluate(sets[i], g.now, g.mode, g.elo) == Some(plan)
  {
    if sets != [] {
      AcceptedFrom(sets[1..], g, plan);
      assert forall i :: 1 <= i < |sets| ==> sets[i] == sets[1..][i - 1];
    }
  }

  lemma BestForIs(tickets: seq<SearchTicket>, g: Setting) returns (sets: seq<seq<SearchTicket>>)
    requires Sorted(tickets, g.mode) != []
    ensures var anchor := Sorted(tickets, g.mode)[0];
      sets == Combos(Candidates(Sorted(tickets, g.mode), g.mode), anchor, Target(g.mode), 1, [anchor], |anchor.players|)
    ensures BestFor(tickets, g) == Best(None, Accepted(sets[..Taken(0, |sets|, g.limit)], g), PlanRank)
  {
    var sorted := Sorted(tickets, g.mode);
    sets := Combos(Candidates(sorted, g.mode), sorted[0], Target(g.mode), 1, [sorted[0]], |sorted[0].players|);
    EvaluatedCount(Progress(0, None), sets, g);
  }

  lemma PlanHasTickets(tickets: seq<SearchTicket>, g: Setting)
    ensures BestFor(tickets, g).Some? ==> BestFor(tickets, g).value.tickets != []
  {
    if Sorted(tickets, g.mode) != [] && BestFor(tickets, g).Some? {
      var sets := BestForIs(tickets, g);
      var plans := Accepted(sets[..Taken(0, |sets|, g.limit)], g);
      var i := BestIsFirstLeast(plans, PlanRank);
      AcceptedFrom(sets[..Taken(0, |sets|, g.limit)], g, plans[i]);
    }
  }

  // ---- Every complete set is reached ----

  /** Increasing positions from `from` on, none of them the anchor. */
  ghost predicate Positions(candidates: seq<SearchTicket>, anchor: SearchTicket, from: nat, ix: seq<nat>) {
    && (forall k :: 0 <= k < |ix| ==> from <= ix[k] < |candidates| && candidates[ix[k]] != anchor)
    && (forall k, l :: 0 <= k < l < |ix| ==> ix[k] < ix[l])
  }

  function Chosen(candidates: seq<SearchTicket>, ix: seq<nat>): seq<SearchTicket>
    requires forall k :: 0 <= k < |ix| ==> ix[k] < |candidates|
  {
    if ix == [] then [] else [candidates[ix[0]]] + Chosen(candidates, ix[1..])
  }

  /** The chosen tickets reach the target with the last of them and not before. */
  ghost predicate Fills(candidates: seq<SearchTicket>, target: nat, size: nat, ix: seq<nat>)
    requires forall k :: 0 <= k < |ix| ==> ix[k] < |candidates|
    decreases |ix|
  {
    if ix == [] then size == target else size < target && Fills(candidates, target, size + |candidates[ix[0]].players|, ix[1..])
  }

  /** With no empty tickets, filling is nothing more than adding up to the target. */
  lemma {:induction false} FillsBySize(candidates: seq<SearchTicket>, target: nat, size: nat, ix: seq<nat>)
    requires forall k :: 0 <= k < |ix| ==> ix[k] < |candidates|
    requires forall t :: t in candidates ==> t.players != []
    ensures Fills(candidates, target, size, ix) <==> size + Size(Chosen(candidates, ix)) == target
    decreases |ix|
  {
    if ix != [] {
      FillsBySize(candidates, target, size + |candidates[ix[0]].players|, ix[1..]);
    }
  }

  lemma PositionsTail(candidates: seq<SearchTicket>, anchor: SearchTicket, from: nat, ix: seq<nat>)
    requires Positions(candidates, anchor, from, ix) && ix != []
    ensures Positions(candidates, anchor, ix[0] + 1, ix[1..])
  {
  }

  lemma {:induction false} SetIsReached(candidates: seq<SearchTicket>, anchor: SearchTicket, target: nat, index: nat,
                                        selected: seq<SearchTicket>, size: nat, ix: seq<nat>)
    requires Positions(candidates, anchor, index, ix) && Fills(candidates, target, size, ix)
    ensures selected + Chosen(candidates, ix) in Combos(candidates, anchor, target, index, selected, size)
    decreases |ix|, |candidates| - index, 1
  {
    if ix == [] {
      assert selected + Chosen(candidates, ix) == selected;
    } else {
      SetIsExtension(candidates, anchor, target, index, selected, size, ix);
    }
  }

  lemma {:induction false} SetIsExtension(candidates: seq<SearchTicket>, anchor: SearchTicket, target: nat, index: nat,
                                          selected: seq<SearchTicket>, size: nat, ix: seq<nat>)
    requires Positions(candidates, anchor, index, ix) && Fills(candidates, target, size, ix) && ix != []
    ensures selected + Chosen(candidates, ix) in Extensions(candidates, anchor, target, index, selected, size)
    decreases |ix|, |candidates| - index, 0
  {
    if ix[0] == index {
      var t := candidates[index];
      PositionsTail(candidates, anchor, index, ix);
      SetIsReached(candidates, anchor, target, index + 1, selected + [t], size + |t.players|, ix[1..]);
      assert (selected + [t]) + Chosen(candidates, ix[1..]) == selected + Chosen(candidates, ix);
    } else {
      SetIsExtension(candidates, anchor, target, index + 1, selected, size, ix);
    }
  }

  lemma {:induction false} ReachedIsSet(candidates: seq<SearchTicket>, anchor: SearchTicket, target: nat, index: nat,
                                        selected: seq<SearchTicket>, size: nat, found: seq<SearchTicket>) returns (ix: seq<nat>)
    requires found in Combos(candidates, anchor, target, index, selected, size)
    ensures Positions(candidates, anchor, index, ix) && Fills(candidates, target, size, ix)
    ensures found == selected + Chosen(candidates, ix)
    decreases |candidates| - index, 1
  {
    if size == target {
      ix := [];
    } else {
      ix := ExtensionIsSet(candidates, anchor, target, index, selected, size, found);
    }
  }

  lemma {:induction false} ExtensionIsSet(candidates: seq<SearchTicket>, anchor: SearchTicket, target: nat, index: nat,
                                          selected: seq<SearchTicket>, size: nat, found: seq<SearchTicket>) returns (ix: seq<nat>)
    requires size < target && found in Extensions(candidates, anchor, target, index, selected, size)
    ensures Positions(candidates, anchor, index, ix) && Fills(candidates, target, size, ix)
    ensures found == selected + Chosen(candidates, ix)
    decreases |candidates| - index, 0
  {
    var t := candidates[index];
    if t != anchor && found in Below(candidates, anchor, target, index, selected, size) {
      var tail := ReachedIsSet(candidates, anchor, target, index + 1, selected + [t], size + |t.players|, found);
      ix := [index] + tail;
      assert ix[1..] == tail;
    } else {
      ix := ExtensionIsSet(candidates, anchor, target, index + 1, selected, size, found);
    }
  }

  // ---- What the search finds ----

  /** A set of the mode's first tickets that contains the longest waiting one and exactly fills a match. */
  ghost predicate FullSet(tickets: seq<SearchTicket>, mode: Mode, ix: seq<nat>) {
    var sorted := Sorted(tickets, mode);
    && sorted != []
    && Positions(Candidates(sorted, mode), sorted[0], 1, ix)
    && Fills(Candidates(sorted, mode), Target(mode), |sorted[0].players|, ix)
  }

  function SetAt(tickets: seq<SearchTicket>, mode: Mode, ix: seq<nat>): seq<SearchTicket>
    requires Sorted(tickets, mode) != []
    requires forall k :: 0 <= k < |ix| ==> ix[k] < |Candidates(Sorted(tickets, mode), mode)|
  {
    [Sorted(tickets, mode)[0]] + Chosen(Candidates(Sorted(tickets, mode), mode), ix)
  }

  /** How many sets the search would evaluate without a limit. */
  function FullSets(tickets: seq<SearchTicket>, mode: Mode): nat {
    var sorted := Sorted(tickets, mode);
    if sorted == [] then 0
    else |Combos(Candidates(sorted, mode), sorted[0], Target(mode), 1, [sorted[0]], |sorted[0].players|)|
  }

  lemma FullSetAccepted(tickets: seq<SearchTicket>, g: Setting, ix: seq<nat>, sets: seq<seq<SearchTicket>>)
    requires FullSet(tickets, g.mode, ix)
    requires var anchor := Sorted(tickets, g.mode)[0];
      sets == Combos(Candidates(Sorted(tickets, g.mode), g.mode), anchor, Target(g.mode), 1, [anchor], |anchor.players|)
    requires Evaluate(SetAt(tickets, g.mode, ix), g.now, g.mode, g.elo).Some?
    ensures Evaluate(SetAt(tickets, g.mode, ix), g.now, g.mode, g.elo).value in Accepted(sets, g)
  {
    var sorted := Sorted(tickets, g.mode);
    SetIsReached(Candidates(sorted, g.mode), sorted[0], Target(g.mode), 1, [sorted[0]], |sorted[0].players|, ix);
    AcceptedFrom(sets, g, Evaluate(SetAt(tickets, g.mode, ix), g.now, g.mode, g.elo).value);
  }

  /** A plan the search returns is always the evaluation of a full set around the oldest ticket. */
  lemma FoundPlanIsFullSet(tickets: seq<SearchTicket>, g: Setting) returns (ix: seq<nat>)
    requires BestFor(tickets, g).Some?
    ensures FullSet(tickets, g.mode, ix)
    ensures Evaluate(SetAt(tickets, g.mode, ix), g.now, g.mode, g.elo) == BestFor(tickets, g)
  {
    var sorted := Sorted(tickets, g.mode);
    var sets := BestForIs(tickets, g);
    var taken := sets[..Taken(0, |sets|, g.limit)];
    var i := BestIsFirstLeast(Accepted(taken, g), PlanRank);
    AcceptedFrom(taken, g, Accepted(taken, g)[i]);
    var k :| 0 <= k < |taken| && Evaluate(taken[k], g.now, g.mode, g.elo) == BestFor(tickets, g);
    ix := ReachedIsSet(Candidates(sorted, g.mode), sorted[0], Target(g.mode), 1, [sorted[0]], |sorted[0].players|, taken[k]);
  }

  /** Unless the limit cut it off, the search misses nothing and nothing beats its plan. */
  lemma FoundPlanIsBest(tickets: seq<SearchTicket>, g: Setting)
    requires FullSets(tickets, g.mode) <= g.limit
    ensures forall ix :: FullSet(tickets, g.mode, ix) && Evaluate(SetAt(tickets, g.mode, ix), g.now, g.mode, g.elo).Some? ==>
      && BestFor(tickets, g).Some?
      && !Better(PlanRank(Evaluate(SetAt(tickets, g.mode, ix), g.now, g.mode, g.elo).value), PlanRank(BestFor(tickets, g).value))
  {
    forall ix | FullSet(tickets, g.mode, ix) && Evaluate(SetAt(tickets, g.mode, ix), g.now, g.mode, g.elo).Some?
      ensures BestFor(tickets, g).Some?
      ensures !Better(PlanRank(Evaluate(SetAt(tickets, g.mode, ix), g.now, g.mode, g.elo).value), PlanRank(BestFor(tickets, g).value))
    {
      var sets := BestForIs(tickets, g);
      assert sets[..Taken(0, |sets|, g.limit)] == sets;
      FullSetAccepted(tickets, g, ix, sets);
      var i := BestIsFirstLeast(Accepted(sets, g), PlanRank);
    }
  }

  /** The candidates are the mode's tickets in order of age: nobody left out joined before anybody kept. */
  lemma CandidatesAreOldest(tickets: seq<SearchTicket>, mode: Mode)
    ensures var sorted := Sorted(tickets, mode);
      OldestFirst(sorted) && multiset(sorted) == multiset(InMode(tickets, mode))
    ensures forall t :: t in Sorted(tickets, mode) <==> t in tickets && t.mode == mode
  {
    var own := InMode(tickets, mode);
    InModeMembers(tickets, mode);
    SortKeepsTickets(own);
    SortedOldestFirst(own);
    assert forall t :: t in Sorted(tickets, mode) <==> t in multiset(Sorted(tickets, mode));
    assert forall t :: t in own <==> t in multiset(own);
  }

  lemma {:induction false} InModeMembers(tickets: seq<SearchTicket>, mode: Mode)
    ensures forall t :: t in InMode(tickets, mode) <==> t in tickets && t.mode == mode
  {
    if tickets != [] {
      InModeMembers(tickets[1..], mode);
      assert tickets == [tickets[0]] + tickets[1..];
    }
  }

  // ---- Matchability never expires ----

  /** A mode's plan found later is never worse than the one found now, even when the limit cuts the search. */
  lemma BestForLater(tickets: seq<SearchTicket>, g: Setting, later: int)
    requires g.now <= later && BestFor(tickets, g).Some?
    ensures BestFor(tickets, g.(now := later)).Some?
    ensures !Better(PlanRank(BestFor(tickets, g).value), PlanRank(BestFor(tickets, g.(now := later)).value))
  {
    var sets := BestForIs(tickets, g);
    var _ := BestForIs(tickets, g.(now := later));
    var taken := sets[..Taken(0, |sets|, g.limit)];
    var i := BestIsFirstLeast(Accepted(taken, g), PlanRank);
    AcceptedLater(taken, g, later, Accepted(taken, g)[i]);
    var _ := BestIsFirstLeast(Accepted(taken, g.(now := later)), PlanRank);
  }

  /** Each plan accepted now is accepted later with the same rank. */
  lemma AcceptedLater(sets: seq<seq<SearchTicket>>, g: Setting, later: int, plan: MatchPlan)
    requires g.now <= later && plan in Accepted(sets, g)
    ensures exists q :: q in Accepted(sets, g.(now := later)) && PlanRank(q) == PlanRank(plan)
  {
    AcceptedFrom(sets, g, plan);
    var k :| 0 <= k < |sets| && Evaluate(sets[k], g.now, g.mode, g.elo) == Some(plan);
    EvaluateLater(sets[k], g.now, later, g.mode, g.elo);
    var q := Evaluate(sets[k], later, g.mode, g.elo).value;
    AcceptedFrom(sets, g.(now := later), q);
    assert PlanRank(q) == PlanRank(plan);
  }

  /** If the tickets match at one time they match at every later time, even when the limit cuts the search. */
  lemma MatchabilityNeverExpires(tickets: seq<SearchTicket>, now: int, later: int, limit: int, elo: real -> real)
    requires now <= later && FindMatch(tickets, now, limit, elo).Some?
    ensures FindMatch(tickets, later, limit, elo).Some?
  {
    var c, d := Setting(now, limit, Competitive, elo), Setting(now, limit, Deathmatch, elo);
    if BestFor(tickets, c).Some? {
      BestForLater(tickets, c, later);
    }
    if BestFor(tickets, d).Some? {
      BestForLater(tickets, d, later);
    }
  }
}
