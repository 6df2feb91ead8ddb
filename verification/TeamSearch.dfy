/** Splitting ten players' tickets into two teams of five. */
module TeamSearch {
  import opened Common
  import opened Queue
  import opened Ranking

  datatype Band = Normal | Restricted

  datatype Player = Player(id: string, rating: real, uncertainty: real, band: Band, pings: map<string, real>)

  /** A ticket as the matchmaker sees it, with resolved profiles. */
  datatype SearchTicket = SearchTicket(
    id: string, joinedAt: int, mode: Mode, regions: seq<string>, maps: seq<string>, players: seq<Player>)

  const TEAM_SIZE: nat := 5
  const STACK_WEIGHT: real := 35.0

  datatype TeamChoice = TeamChoice(
    alpha: seq<SearchTicket>, bravo: seq<SearchTicket>,
    ratingDifference: real, predictedAlphaWin: real, stackImbalance: nat)

  function Size(tickets: seq<SearchTicket>): nat {
    if tickets == [] then 0 else |tickets[0].players| + Size(tickets[1..])
  }

  function PlayersOf(tickets: seq<SearchTicket>): (r: seq<Player>)
    ensures |r| == Size(tickets)
  {
    if tickets == [] then [] else tickets[0].players + PlayersOf(tickets[1..])
  }

  function Ids(tickets: seq<SearchTicket>): seq<string> {
    seq(|tickets|, i requires 0 <= i < |tickets| => tickets[i].id)
  }

  function RatingSum(players: seq<Player>): real {
    if players == [] then 0.0 else players[0].rating + RatingSum(players[1..])
  }

  function Abs(x: real): real {
    if x < 0.0 then -x else x
  }

  // ---- Stack imbalance ----

  function Sizes(tickets: seq<SearchTicket>): seq<nat> {
    seq(|tickets|, i requires 0 <= i < |tickets| => |tickets[i].players|)
  }

  ghost predicate Descending(s: seq<nat>) {
    forall i, j :: 0 <= i < j < |s| ==> s[i] >= s[j]
  }

  function InsertDown(x: nat, s: seq<nat>): seq<nat> {
    if s == [] || x >= s[0] then [x] + s else [s[0]] + InsertDown(x, s[1..])
  }

  function SortDown(s: seq<nat>): seq<nat> {
    if s == [] then [] else InsertDown(s[0], SortDown(s[1..]))
  }

  lemma {:induction false} InsertDownKeeps(x: nat, s: seq<nat>)
    ensures multiset(InsertDown(x, s)) == multiset(s) + multiset{x}
  {
    if s != [] && x < s[0] {
      InsertDownKeeps(x, s[1..]);
      assert s == [s[0]] + s[1..];
    }
  }

  lemma {:induction false} InsertDownOrders(x: nat, s: seq<nat>)
    requires Descending(s)
    ensures Descending(InsertDown(x, s))
    ensures forall y :: y in InsertDown(x, s) ==> y == x || y in s
  {
    if s != [] && x < s[0] {
      InsertDownOrders(x, s[1..]);
      var tail := InsertDown(x, s[1..]);
      forall i | 0 <= i < |tail| ensures s[0] >= tail[i] {
        assert tail[i] == x || tail[i] in s[1..];
      }
    }
  }

  lemma {:induction false} SortDownSorts(s: seq<nat>)
    ensures multiset(SortDown(s)) == multiset(s) && Descending(SortDown(s))
  {
    if s != [] {
      SortDownSorts(s[1..]);
      InsertDownKeeps(s[0], SortDown(s[1..]));
      InsertDownOrders(s[0], SortDown(s[1..]));
      assert s == [s[0]] + s[1..];
    }
  }

  function At(s: seq<nat>, i: nat): nat {
    if i < |s| then s[i] else 0
  }

  function Gap(x: nat, y: nat): nat {
    if x < y then y - x else x - y
  }

  /** Sum of the position-by-position gaps from i on. */
  function GapsFrom(left: seq<nat>, right: seq<nat>, i: nat): nat
    decreases Max(|left|, |right|) - i
  {
    if i >= Max(|left|, |right|) then 0 else Gap(At(left, i), At(right, i)) + GapsFrom(left, right, i + 1)
  }

  function StackImbalance(alpha: seq<SearchTicket>, bravo: seq<SearchTicket>): nat {
    GapsFrom(SortDown(Sizes(alpha)), SortDown(Sizes(bravo)), 0)
  }

  method MeasureImbalance(alpha: seq<SearchTicket>, bravo: seq<SearchTicket>) returns (difference: nat)
    ensures difference == StackImbalance(alpha, bravo)
  {
    var left := SortDown(Sizes(alpha));
    var right := SortDown(Sizes(bravo));
    difference := 0;
    var index := 0;
    while index < Max(|left|, |right|)
      invariant 0 <= index <= Max(|left|, |right|)
      invariant GapsFrom(left, right, 0) == difference + GapsFrom(left, right, index)
    {
      difference := difference + Gap(At(left, index), At(right, index));
      index := index + 1;
    }
  }

  lemma {:induction false} NoGaps(left: seq<nat>, right: seq<nat>, i: nat)
    ensures GapsFrom(left, right, i) == 0 <==> forall k :: i <= k < Max(|left|, |right|) ==> At(left, k) == At(right, k)
    decreases Max(|left|, |right|) - i
  {
    if i < Max(|left|, |right|) {
      NoGaps(left, right, i + 1);
    }
  }

  lemma HeadIsMax(s: seq<nat>, t: seq<nat>)
    requires Descending(s) && multiset(s) == multiset(t) && t != []
    ensures s != [] && t[0] <= s[0]
  {
    assert t[0] in multiset(s);
  }

  lemma TailMultiset(s: seq<nat>)
    requires s != []
    ensures multiset(s[1..]) == multiset(s) - multiset{s[0]}
  {
    assert s == [s[0]] + s[1..];
  }

  /** Two descending lists of the same numbers are the same list. */
  lemma {:induction false} SortedUnique(s: seq<nat>, t: seq<nat>)
    requires Descending(s) && Descending(t) && multiset(s) == multiset(t)
    ensures s == t
  {
    if s == [] {
      assert |multiset(t)| == |t|;
    } else {
      assert |multiset(t)| == |t| && |multiset(s)| == |s|;
      HeadIsMax(s, t);
      HeadIsMax(t, s);
      TailMultiset(s);
      TailMultiset(t);
      SortedUnique(s[1..], t[1..]);
      assert s == [s[0]] + s[1..] && t == [t[0]] + t[1..];
    }
  }

  ghost predicate Positive(s: seq<nat>) {
    forall i :: 0 <= i < |s| ==> s[i] > 0
  }

  lemma SortedPositive(tickets: seq<SearchTicket>)
    requires forall t :: t in tickets ==> t.players != []
    ensures Positive(SortDown(Sizes(tickets)))
  {
    var s := Sizes(tickets);
    SortDownSorts(s);
    forall i | 0 <= i < |SortDown(s)| ensures SortDown(s)[i] > 0 {
      assert SortDown(s)[i] in multiset(s);
    }
  }

  lemma SameWhenPadded(left: seq<nat>, right: seq<nat>)
    requires Positive(left) && Positive(right)
    ensures left == right <==> forall k :: 0 <= k < Max(|left|, |right|) ==> At(left, k) == At(right, k)
  {
    if forall k :: 0 <= k < Max(|left|, |right|) ==> At(left, k) == At(right, k) {
      assert |left| < |right| ==> At(left, |left|) == At(right, |left|);
      assert |right| < |left| ==> At(left, |right|) == At(right, |right|);
      assert forall k :: 0 <= k < |left| ==> left[k] == At(left, k) && right[k] == At(right, k);
    }
  }

  /** The imbalance vanishes exactly when both teams are built from the same stack sizes. */
  lemma NoImbalance(alpha: seq<SearchTicket>, bravo: seq<SearchTicket>)
    requires forall t :: t in alpha + bravo ==> t.players != []
    ensures StackImbalance(alpha, bravo) == 0 <==> multiset(Sizes(alpha)) == multiset(Sizes(bravo))
  {
    var left, right := SortDown(Sizes(alpha)), SortDown(Sizes(bravo));
    NoGaps(left, right, 0);
    SortedPositive(alpha);
    SortedPositive(bravo);
    SameWhenPadded(left, right);
    SortDownSorts(Sizes(alpha));
    SortDownSorts(Sizes(bravo));
    if multiset(left) == multiset(right) {
      SortedUnique(left, right);
    }
  }

  // ---- The search ----

  /** elo maps the rating gap in bravo's favour to alpha's chance of winning. */
  function Candidate(alpha: seq<SearchTicket>, bravo: seq<SearchTicket>, elo: real -> real): TeamChoice {
    var alphaRating := RatingSum(PlayersOf(alpha)) / 5.0;
    var bravoRating := RatingSum(PlayersOf(bravo)) / 5.0;
    TeamChoice(alpha, bravo, Abs(alphaRating - bravoRating), elo(bravoRating - alphaRating), StackImbalance(alpha, bravo))
  }

  function TeamRank(c: TeamChoice): Rank {
    Rank(c.ratingDifference + c.stackImbalance as real * STACK_WEIGHT, JoinIds(Ids(c.alpha), ":"))
  }

  /** The complete splits below a node of the search tree, in the order they are visited. */
  function Leaves(tickets: seq<SearchTicket>, index: nat, alpha: seq<SearchTicket>, bravo: seq<SearchTicket>, elo: real -> real)
    : seq<TeamChoice>
    requires index <= |tickets|
    decreases |tickets| - index
  {
    if Size(alpha) > TEAM_SIZE || Size(bravo) > TEAM_SIZE then []
    else if index == |tickets| then
      if Size(alpha) == TEAM_SIZE && Size(bravo) == TEAM_SIZE then [Candidate(alpha, bravo, elo)] else []
    else
      Leaves(tickets, index + 1, alpha + [tickets[index]], bravo, elo)
      + Leaves(tickets, index + 1, alpha, bravo + [tickets[index]], elo)
  }

  function ChooseTeams(tickets: seq<SearchTicket>, elo: real -> real): Option<TeamChoice> {
    Best(None, Leaves(tickets, 0, [], [], elo), TeamRank)
  }

  lemma {:induction false} SizeConcat(a: seq<SearchTicket>, b: seq<SearchTicket>)
    ensures Size(a + b) == Size(a) + Size(b)
  {
    if a == [] {
      assert a + b == b;
    } else {
      assert (a + b)[1..] == a[1..] + b;
      SizeConcat(a[1..], b);
    }
  }

  class TeamSearcher {
    const tickets: seq<SearchTicket>
    const elo: real -> real
    var alpha: seq<SearchTicket>
    var bravo: seq<SearchTicket>
    var best: Option<TeamChoice>

    constructor (tickets: seq<SearchTicket>, elo: real -> real)
      ensures this.tickets == tickets && this.elo == elo
      ensures alpha == [] && bravo == [] && best == None
    {
      this.tickets, this.elo := tickets, elo;
      alpha, bravo, best := [], [], None;
    }

    method Visit(index: nat, alphaSize: nat, bravoSize: nat)
      requires index <= |tickets| && alphaSize == Size(alpha) && bravoSize == Size(bravo)
      modifies this
      ensures alpha == old(alpha) && bravo == old(bravo)
      ensures best == Best(old(best), Leaves(tickets, index, alpha, bravo, elo), TeamRank)
      decreases |tickets| - index
    {
      if alphaSize > TEAM_SIZE || bravoSize > TEAM_SIZE {
        return;
      }
      if index == |tickets| {
        if alphaSize == TEAM_SIZE && bravoSize == TEAM_SIZE {
          Consider();
        }
        return;
      }
      var ticket := tickets[index];
      SizeConcat(alpha, [ticket]);
      SizeConcat(bravo, [ticket]);
      BestConcat(best, Leaves(tickets, index + 1, alpha + [ticket], bravo, elo),
                 Leaves(tickets, index + 1, alpha, bravo + [ticket], elo), TeamRank);
      alpha := alpha + [ticket];
      Visit(index + 1, alphaSize + |ticket.players|, bravoSize);
      alpha := alpha[..|alpha| - 1];
      bravo := bravo + [ticket];
      Visit(index + 1, alphaSize, bravoSize + |ticket.players|);
      bravo := bravo[..|bravo| - 1];
    }

    method Consider()
      modifies this`best
      ensures best == Keep(old(best), Candidate(alpha, bravo, elo), TeamRank)
    {
      var alphaRating := RatingSum(PlayersOf(alpha)) / 5.0;
      var bravoRating := RatingSum(PlayersOf(bravo)) / 5.0;
      var stacks := MeasureImbalance(alpha, bravo);
      var candidate := TeamChoice(alpha, bravo, Abs(alphaRating - bravoRating), elo(bravoRating - alphaRating), stacks);
      if best.None? || Better(TeamRank(candidate), TeamRank(best.value)) {
        best := Some(candidate);
      }
    }
  }

  method SearchTeams(tickets: seq<SearchTicket>, elo: real -> real) returns (choice: Option<TeamChoice>)
    ensures choice == ChooseTeams(tickets, elo)
  {
    var search := new TeamSearcher(tickets, elo);
    search.Visit(0, 0, 0);
    choice := search.best;
  }

  // ---- What the search finds, over all 2^n ways to pick sides ----

  /** The tickets a pick sends to one side, in ticket order. */
  function Side(tickets: seq<SearchTicket>, pick: seq<bool>, side: bool): seq<SearchTicket>
    requires |pick| == |tickets|
  {
    if tickets == [] then []
    else (if pick[0] == side then [tickets[0]] else []) + Side(tickets[1..], pick[1..], side)
  }

  ghost predicate FiveEach(tickets: seq<SearchTicket>, pick: seq<bool>) {
    |pick| == |tickets| && Size(Side(tickets, pick, true)) == TEAM_SIZE && Size(Side(tickets, pick, false)) == TEAM_SIZE
  }

  function ByPick(tickets: seq<SearchTicket>, pick: seq<bool>, elo: real -> real): TeamChoice
    requires |pick| == |tickets|
  {
    Candidate(Side(tickets, pick, true), Side(tickets, pick, false), elo)
  }

  lemma SideStep(prefix: seq<SearchTicket>, tickets: seq<SearchTicket>, index: nat, first: bool, tail: seq<bool>, side: bool)
    requires index < |tickets| && |tail| == |tickets| - index - 1
    ensures prefix + Side(tickets[index..], [first] + tail, side)
         == (if first == side then prefix + [tickets[index]] else prefix) + Side(tickets[index + 1..], tail, side)
  {
    assert tickets[index..][1..] == tickets[index + 1..];
    assert ([first] + tail)[1..] == tail;
  }

  /** Pruning loses nothing: every five-a-side pick is a leaf. */
  lemma {:induction false} PickIsLeaf(tickets: seq<SearchTicket>, index: nat, alpha: seq<SearchTicket>, bravo: seq<SearchTicket>,
                                      pick: seq<bool>, elo: real -> real)
    requires index <= |tickets| && |pick| == |tickets| - index
    requires Size(alpha + Side(tickets[index..], pick, true)) == TEAM_SIZE
    requires Size(bravo + Side(tickets[index..], pick, false)) == TEAM_SIZE
    ensures Candidate(alpha + Side(tickets[index..], pick, true), bravo + Side(tickets[index..], pick, false), elo)
         in Leaves(tickets, index, alpha, bravo, elo)
    decreases |pick|
  {
    SizeConcat(alpha, Side(tickets[index..], pick, true));
    SizeConcat(bravo, Side(tickets[index..], pick, false));
    if pick == [] {
      assert alpha + [] == alpha && bravo + [] == bravo;
    } else {
      var first, tail := pick[0], pick[1..];
      assert pick == [first] + tail;
      SideStep(alpha, tickets, index, first, tail, true);
      SideStep(bravo, tickets, index, first, tail, false);
      var t := tickets[index];
      PickIsLeaf(tickets, index + 1, if first then alpha + [t] else alpha, if first then bravo else bravo + [t], tail, elo);
      LeafBelow(tickets, index, alpha, bravo, first,
                Candidate(alpha + Side(tickets[index..], pick, true), bravo + Side(tickets[index..], pick, false), elo), elo);
    }
  }

  /** A leaf of either child is a leaf of the node, unless the node is pruned. */
  lemma LeafBelow(tickets: seq<SearchTicket>, index: nat, alpha: seq<SearchTicket>, bravo: seq<SearchTicket>,
                  first: bool, c: TeamChoice, elo: real -> real)
    requires index < |tickets| && Size(alpha) <= TEAM_SIZE && Size(bravo) <= TEAM_SIZE
    requires var t := tickets[index];
      c in Leaves(tickets, index + 1, if first then alpha + [t] else alpha, if first then bravo else bravo + [t], elo)
    ensures c in Leaves(tickets, index, alpha, bravo, elo)
  {
  }

  lemma {:induction false} LeafIsPick(tickets: seq<SearchTicket>, index: nat, alpha: seq<SearchTicket>, bravo: seq<SearchTicket>,
                                      c: TeamChoice, elo: real -> real)
    returns (pick: seq<bool>)
    requires index <= |tickets| && c in Leaves(tickets, index, alpha, bravo, elo)
    ensures |pick| == |tickets| - index
    ensures var a, b := alpha + Side(tickets[index..], pick, true), bravo + Side(tickets[index..], pick, false);
      c == Candidate(a, b, elo) && Size(a) == TEAM_SIZE && Size(b) == TEAM_SIZE
    decreases |tickets| - index
  {
    if index == |tickets| {
      pick := [];
      assert alpha + Side(tickets[index..], pick, true) == alpha && bravo + Side(tickets[index..], pick, false) == bravo;
    } else {
      var t := tickets[index];
      var first := c in Leaves(tickets, index + 1, alpha + [t], bravo, elo);
      var a, b := if first then alpha + [t] else alpha, if first then bravo else bravo + [t];
      var tail := LeafIsPick(tickets, index + 1, a, b, c, elo);
      pick := [first] + tail;
      SideStep(alpha, tickets, index, first, tail, true);
      SideStep(bravo, tickets, index, first, tail, false);
    }
  }

  lemma PickFound(tickets: seq<SearchTicket>, pick: seq<bool>, elo: real -> real)
    requires FiveEach(tickets, pick)
    ensures ByPick(tickets, pick, elo) in Leaves(tickets, 0, [], [], elo)
  {
    assert tickets[0..] == tickets;
    assert [] + Side(tickets, pick, true) == Side(tickets, pick, true);
    assert [] + Side(tickets, pick, false) == Side(tickets, pick, false);
    PickIsLeaf(tickets, 0, [], [], pick, elo);
  }

  lemma LeafFound(tickets: seq<SearchTicket>, c: TeamChoice, elo: real -> real) returns (pick: seq<bool>)
    requires c in Leaves(tickets, 0, [], [], elo)
    ensures FiveEach(tickets, pick) && c == ByPick(tickets, pick, elo)
  {
    assert tickets[0..] == tickets;
    pick := LeafIsPick(tickets, 0, [], [], c, elo);
    assert [] + Side(tickets, pick, true) == Side(tickets, pick, true);
    assert [] + Side(tickets, pick, false) == Side(tickets, pick, false);
  }

  /** No choice exactly when no pick puts five players on each side. */
  lemma NoTeamsIffNoSplit(tickets: seq<SearchTicket>, elo: real -> real)
    ensures ChooseTeams(tickets, elo) == None <==> forall pick :: !FiveEach(tickets, pick)
  {
    var leaves := Leaves(tickets, 0, [], [], elo);
    var _ := BestIsFirstLeast(leaves, TeamRank);
    if leaves != [] {
      var pick := LeafFound(tickets, leaves[0], elo);
    }
    forall pick | FiveEach(tickets, pick) ensures leaves != [] {
      PickFound(tickets, pick, elo);
    }
  }

  /** The choice is a five-a-side pick, and no other pick of all 2^n beats its rank. */
  lemma ChosenTeamsAreBest(tickets: seq<SearchTicket>, elo: real -> real) returns (pick: seq<bool>)
    requires ChooseTeams(tickets, elo).Some?
    ensures FiveEach(tickets, pick) && ChooseTeams(tickets, elo).value == ByPick(tickets, pick, elo)
    ensures forall other :: FiveEach(tickets, other) ==>
      !Better(TeamRank(ByPick(tickets, other, elo)), TeamRank(ByPick(tickets, pick, elo)))
  {
    var leaves := Leaves(tickets, 0, [], [], elo);
    var i := BestIsFirstLeast(leaves, TeamRank);
    pick := LeafFound(tickets, leaves[i], elo);
    forall other | FiveEach(tickets, other)
      ensures !Better(TeamRank(ByPick(tickets, other, elo)), TeamRank(ByPick(tickets, pick, elo)))
    {
      PickFound(tickets, other, elo);
    }
  }
}
