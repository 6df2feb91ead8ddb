/** Whether a set of tickets makes a match now, and how good a match it is. */
module MatchEvaluation {
  import opened Common
  import opened Queue
  import opened Ranking
  import opened TeamSearch

  const MAP_POOL: seq<string> := ["Mirage", "Inferno", "Nuke", "Overpass", "Vertigo", "Ancient", "Anubis"]
  const DEATHMATCH_MAP: string := "Dust II"

  datatype Quality = Quality(
    score: real, predictedAlphaWin: real, ratingDifference: real, pingSpread: real, maxPing: real,
    stackImbalance: nat, oldestWait: int, ratingWindow: int, pingLimit: int)

  datatype MatchPlan = MatchPlan(
    mode: Mode, tickets: seq<SearchTicket>, alphaIds: seq<string>, bravoIds: seq<string>,
    map_: string, mapPool: seq<string>, region: string, quality: Quality)

  // ---- Maps and regions everyone allows ----

  function Keeping(s: seq<string>, others: seq<seq<string>>): (r: seq<string>)
    ensures forall v :: v in r <==> v in s && forall i :: 0 <= i < |others| ==> v in others[i]
  {
    if s == [] then []
    else
      assert s == [s[0]] + s[1..];
      var tail := Keeping(s[1..], others);
      if forall i :: 0 <= i < |others| ==> s[0] in others[i] then [s[0]] + tail else tail
  }

  lemma {:induction false} KeepingDistinct(s: seq<string>, others: seq<seq<string>>)
    requires Distinct(s)
    ensures Distinct(Keeping(s, others))
  {
    if s != [] {
      KeepingDistinct(s[1..], others);
      assert s[0] !in s[1..];
    }
  }

  function Intersection(values: seq<seq<string>>): seq<string> {
    if values == [] then [] else Keeping(values[0], values[1..])
  }

  function MapsOf(tickets: seq<SearchTicket>): seq<seq<string>> {
    seq(|tickets|, i requires 0 <= i < |tickets| => tickets[i].maps)
  }

  function RegionsOf(tickets: seq<SearchTicket>): seq<seq<string>> {
    seq(|tickets|, i requires 0 <= i < |tickets| => tickets[i].regions)
  }

  lemma InEveryList(values: seq<seq<string>>, v: string)
    ensures v in Intersection(values) <==> values != [] && forall i :: 0 <= i < |values| ==> v in values[i]
  {
    if values != [] {
      assert values == [values[0]] + values[1..];
      if v in Intersection(values) {
        forall i | 0 <= i < |values| ensures v in values[i] {
          if i > 0 {
            assert values[1..][i - 1] == values[i];
          }
        }
      }
    }
  }

  // ---- Waiting and limits ----

  /** Whole seconds since the ticket joined, never negative; times are in milliseconds. */
  function WaitSeconds(ticket: SearchTicket, now: int): int {
    Max(0, (now - ticket.joinedAt) / 1000)
  }

  function OldestWait(tickets: seq<SearchTicket>, now: int): int {
    if tickets == [] then 0 else Max(WaitSeconds(tickets[0], now), OldestWait(tickets[1..], now))
  }

  function RatingWindow(wait: int): int {
    Min(400, 100 + wait / 60 * 50)
  }

  function PingLimit(wait: int): int {
    Min(110, 70 + wait / 60 * 5)
  }

  function FiveStacks(tickets: seq<SearchTicket>): nat {
    if tickets == [] then 0 else (if |tickets[0].players| == 5 then 1 else 0) + FiveStacks(tickets[1..])
  }

  predicate MixedBands(players: seq<Player>) {
    exists i, j :: 0 <= i < j < |players| && players[i].band != players[j].band
  }

  predicate DistinctPlayers(players: seq<Player>) {
    forall i, j :: 0 <= i < j < |players| ==> players[i].id != players[j].id
  }

  function Ratings(players: seq<Player>): (r: seq<real>)
    ensures |r| == |players|
  {
    seq(|players|, i requires 0 <= i < |players| => players[i].rating)
  }

  predicate RatingsWithin(players: seq<Player>, window: int) {
    players == [] || Largest(Ratings(players)) - Smallest(Ratings(players)) <= window as real
  }

  // ---- Regions ----

  function Largest(s: seq<real>): (r: real)
    requires s != []
    ensures r in s && forall x :: x in s ==> x <= r
  {
    if |s| == 1 then s[0]
    else
      assert s == [s[0]] + s[1..];
      var rest := Largest(s[1..]);
      if rest < s[0] then s[0] else rest
  }

  function Smallest(s: seq<real>): (r: real)
    requires s != []
    ensures r in s && forall x :: x in s ==> r <= x
  {
    if |s| == 1 then s[0]
    else
      assert s == [s[0]] + s[1..];
      var rest := Smallest(s[1..]);
      if s[0] < rest then s[0] else rest
  }

  function Sum(s: seq<real>): real {
    if s == [] then 0.0 else s[0] + Sum(s[1..])
  }

  /** A player without a measurement is infinitely far away. */
  predicate Reachable(players: seq<Player>, region: string) {
    forall i :: 0 <= i < |players| ==> region in players[i].pings
  }

  function PingsTo(players: seq<Player>, region: string): seq<real>
    requires Reachable(players, region)
  {
    seq(|players|, i requires 0 <= i < |players| => players[i].pings[region])
  }

  datatype RegionOption = RegionOption(region: string, maxPing: real, averagePing: real, spread: real)

  function Option_(players: seq<Player>, region: string): RegionOption
    requires players != [] && Reachable(players, region)
  {
    var pings := PingsTo(players, region);
    RegionOption(region, Largest(pings), Sum(pings) / |pings| as real, Largest(pings) - Smallest(pings))
  }

  predicate NearerThan(a: RegionOption, b: RegionOption) {
    || a.maxPing < b.maxPing
    || (a.maxPing == b.maxPing && a.averagePing < b.averagePing)
    || (a.maxPing == b.maxPing && a.averagePing == b.averagePing && Before(a.region, b.region))
  }

  predicate Playable(players: seq<Player>, region: string, limit: int)
    requires players != []
  {
    Reachable(players, region) && Option_(players, region).maxPing <= limit as real
  }

  /** The first of the playable regions in order of worst ping, then average ping, then name. */
  function NearestRegion(best: Option<RegionOption>, regions: seq<string>, players: seq<Player>, limit: int): Option<RegionOption>
    requires players != []
    decreases |regions|
  {
    if regions == [] then best
    else if Playable(players, regions[0], limit) && (best.None? || NearerThan(Option_(players, regions[0]), best.value))
    then NearestRegion(Some(Option_(players, regions[0])), regions[1..], players, limit)
    else NearestRegion(best, regions[1..], players, limit)
  }

  lemma {:induction false} NearestIsPlayable(best: Option<RegionOption>, regions: seq<string>, players: seq<Player>, limit: int)
    requires players != []
    ensures var r := NearestRegion(best, regions, players, limit);
      r.Some? ==> r == best || (r.value.region in regions && Playable(players, r.value.region, limit) && r.value == Option_(players, r.value.region))
    decreases |regions|
  {
    if regions != [] {
      if Playable(players, regions[0], limit) && (best.None? || NearerThan(Option_(players, regions[0]), best.value)) {
        NearestIsPlayable(Some(Option_(players, regions[0])), regions[1..], players, limit);
      } else {
        NearestIsPlayable(best, regions[1..], players, limit);
      }
    }
  }

  /** A wider limit only adds regions farther away than every one already allowed, so the choice stands. */
  lemma {:induction false} WiderLimitSameRegion(best: Option<RegionOption>, wide: Option<RegionOption>, regions: seq<string>,
                                               players: seq<Player>, limit: int, wider: int)
    requires players != [] && limit <= wider
    requires best.Some? ==> wide == best && best.value.maxPing <= limit as real
    requires best.None? && wide.Some? ==> wide.value.maxPing > limit as real
    ensures NearestRegion(best, regions, players, limit).Some? ==>
      NearestRegion(wide, regions, players, wider) == NearestRegion(best, regions, players, limit)
    decreases |regions|
  {
    if regions != [] {
      var next, nextWide := best, wide;
      if Playable(players, regions[0], limit) && (best.None? || NearerThan(Option_(players, regions[0]), best.value)) {
        next := Some(Option_(players, regions[0]));
      }
      if Playable(players, regions[0], wider) && (wide.None? || NearerThan(Option_(players, regions[0]), wide.value)) {
        nextWide := Some(Option_(players, regions[0]));
      }
      WiderLimitSameRegion(next, nextWide, regions[1..], players, limit, wider);
    }
  }

  // ---- The two evaluations ----

  function RegionFor(tickets: seq<SearchTicket>, limit: int): Option<RegionOption> {
    var players := PlayersOf(tickets);
    if players == [] then None else NearestRegion(None, Intersection(RegionsOf(tickets)), players, limit)
  }

  function CompetitiveMaps(tickets: seq<SearchTicket>): seq<string> {
    Keeping(MAP_POOL, [Intersection(MapsOf(tickets))])
  }

  function Uncertainty(players: seq<Player>): real {
    if players == [] then 0.0 else players[0].uncertainty + Uncertainty(players[1..])
  }

  function PlayerIds(players: seq<Player>): (r: seq<string>)
    ensures |r| == |players|
  {
    seq(|players|, i requires 0 <= i < |players| => players[i].id)
  }

  function AbsHalf(x: real): real {
    Abs(x - 0.5)
  }

  /** Everything but the ping and team search: who may meet whom after this wait. */
  predicate MayMeet(tickets: seq<SearchTicket>, wait: int) {
    var players := PlayersOf(tickets);
    && RatingsWithin(players, RatingWindow(wait))
    && !(FiveStacks(tickets) == 1 && wait < 180)
    && !(MixedBands(players) && wait < 300)
  }

  predicate OfMode(tickets: seq<SearchTicket>, mode: Mode, size: nat) {
    && (forall i :: 0 <= i < |tickets| ==> tickets[i].mode == mode)
    && |PlayersOf(tickets)| == size && DistinctPlayers(PlayersOf(tickets))
  }

  function CompetitivePlan(tickets: seq<SearchTicket>, wait: int, region: RegionOption, teams: TeamChoice): MatchPlan
    requires CompetitiveMaps(tickets) != []
  {
    var players := PlayersOf(tickets);
    var maps := CompetitiveMaps(tickets);
    var score := AbsHalf(teams.predictedAlphaWin) * 1000.0 + region.spread * 2.0
                 + teams.stackImbalance as real * STACK_WEIGHT + Uncertainty(players) / 10.0 * 0.02;
    MatchPlan(Competitive, tickets, PlayerIds(PlayersOf(teams.alpha)), PlayerIds(PlayersOf(teams.bravo)),
              maps[0], maps, region.region,
              Quality(score, teams.predictedAlphaWin, teams.ratingDifference, region.spread, region.maxPing,
                      teams.stackImbalance, wait, RatingWindow(wait), PingLimit(wait)))
  }

  function EvaluateCompetitive(tickets: seq<SearchTicket>, now: int, elo: real -> real): Option<MatchPlan> {
    if !OfMode(tickets, Competitive, 10) then None
    else if CompetitiveMaps(tickets) == [] || Intersection(RegionsOf(tickets)) == [] then None
    else
      var wait := OldestWait(tickets, now);
      if !MayMeet(tickets, wait) then None
      else
        match RegionFor(tickets, PingLimit(wait))
        case None => None
        case Some(region) =>
          match ChooseTeams(tickets, elo)
          case None => None
          case Some(teams) => Some(CompetitivePlan(tickets, wait, region, teams))
  }

  function DeathmatchPlan(tickets: seq<SearchTicket>, wait: int, region: RegionOption): MatchPlan {
    var players := PlayersOf(tickets);
    var score := region.spread * 2.0 + (if players == [] then 0.0 else Uncertainty(players) / |players| as real) * 0.02;
    MatchPlan(Deathmatch, tickets, [], [], DEATHMATCH_MAP, [DEATHMATCH_MAP], region.region,
              Quality(score, 0.5, 0.0, region.spread, region.maxPing, 0, wait, 0, PingLimit(wait)))
  }

  function EvaluateDeathmatch(tickets: seq<SearchTicket>, now: int): Option<MatchPlan> {
    if !OfMode(tickets, Deathmatch, 14) then None
    else if Intersection(RegionsOf(tickets)) == [] then None
    else
      var wait := OldestWait(tickets, now);
      if MixedBands(PlayersOf(tickets)) && wait < 300 then None
      else
        match RegionFor(tickets, PingLimit(wait))
        case None => None
        case Some(region) => Some(DeathmatchPlan(tickets, wait, region))
  }

  function Evaluate(tickets: seq<SearchTicket>, now: int, mode: Mode, elo: real -> real): Option<MatchPlan> {
    if mode == Deathmatch then EvaluateDeathmatch(tickets, now) else EvaluateCompetitive(tickets, now, elo)
  }

  // ---- What a plan promises ----

  lemma PlayerIdsConcat(a: seq<Player>, b: seq<Player>)
    ensures PlayerIds(a + b) == PlayerIds(a) + PlayerIds(b)
  {
  }

  function MemberIds(tickets: seq<SearchTicket>): seq<string> {
    PlayerIds(PlayersOf(tickets))
  }

  lemma MemberIdsCons(t: SearchTicket, rest: seq<SearchTicket>)
    ensures MemberIds([t] + rest) == PlayerIds(t.players) + MemberIds(rest)
  {
    assert ([t] + rest)[1..] == rest;
    PlayerIdsConcat(t.players, PlayersOf(rest));
  }

  /** Picking sides shares the players out: nobody lost, nobody on both teams' lists twice. */
  lemma {:induction false} SidesSharePlayers(tickets: seq<SearchTicket>, pick: seq<bool>)
    requires |pick| == |tickets|
    ensures multiset(MemberIds(Side(tickets, pick, true))) + multiset(MemberIds(Side(tickets, pick, false))) == multiset(MemberIds(tickets))
  {
    if tickets != [] {
      var rest, tail := tickets[1..], pick[1..];
      SidesSharePlayers(rest, tail);
      assert tickets == [tickets[0]] + rest;
      MemberIdsCons(tickets[0], rest);
      MemberIdsCons(tickets[0], Side(rest, tail, pick[0]));
      assert [] + Side(rest, tail, !pick[0]) == Side(rest, tail, !pick[0]);
    }
  }

  ghost predicate TeamsShare(p: MatchPlan) {
    && |p.alphaIds| == TEAM_SIZE && |p.bravoIds| == TEAM_SIZE
    && multiset(p.alphaIds) + multiset(p.bravoIds) == multiset(MemberIds(p.tickets))
    && Distinct(MemberIds(p.tickets))
  }

  ghost predicate PoolAgreed(p: MatchPlan) {
    && p.mapPool != [] && Distinct(p.mapPool) && p.map_ == p.mapPool[0]
    && forall m :: m in p.mapPool <==> m in MAP_POOL && forall i :: 0 <= i < |p.tickets| ==> m in p.tickets[i].maps
  }

  ghost predicate RegionAgreed(p: MatchPlan) {
    && (forall i :: 0 <= i < |p.tickets| ==> p.region in p.tickets[i].regions)
    && PlayersOf(p.tickets) != [] && Playable(PlayersOf(p.tickets), p.region, p.quality.pingLimit)
  }

  lemma RegionForAgreed(tickets: seq<SearchTicket>, limit: int)
    requires RegionFor(tickets, limit).Some?
    ensures var r := RegionFor(tickets, limit).value;
      && (forall i :: 0 <= i < |tickets| ==> r.region in tickets[i].regions)
      && Playable(PlayersOf(tickets), r.region, limit)
  {
    var regions := Intersection(RegionsOf(tickets));
    NearestIsPlayable(None, regions, PlayersOf(tickets), limit);
    EveryTicketAllows(tickets, RegionFor(tickets, limit).value.region);
  }

  lemma EveryTicketAllows(tickets: seq<SearchTicket>, region: string)
    requires region in Intersection(RegionsOf(tickets))
    ensures forall i :: 0 <= i < |tickets| ==> region in tickets[i].regions
  {
    InEveryList(RegionsOf(tickets), region);
    forall i | 0 <= i < |tickets| ensures region in tickets[i].regions {
      assert RegionsOf(tickets)[i] == tickets[i].regions;
    }
  }

  lemma CompetitiveMapsAgreed(tickets: seq<SearchTicket>)
    requires tickets != []
    ensures Distinct(CompetitiveMaps(tickets))
    ensures forall m :: m in CompetitiveMaps(tickets) <==> m in MAP_POOL && forall i :: 0 <= i < |tickets| ==> m in tickets[i].maps
  {
    KeepingDistinct(MAP_POOL, [Intersection(MapsOf(tickets))]);
    forall m ensures m in CompetitiveMaps(tickets) <==> m in MAP_POOL && forall i :: 0 <= i < |tickets| ==> m in tickets[i].maps {
      MapAllowed(tickets, m);
    }
  }

  lemma MapAllowed(tickets: seq<SearchTicket>, m: string)
    requires tickets != []
    ensures m in Intersection(MapsOf(tickets)) <==> forall i :: 0 <= i < |tickets| ==> m in tickets[i].maps
    ensures m in CompetitiveMaps(tickets) <==> m in MAP_POOL && m in Intersection(MapsOf(tickets))
  {
    InEveryList(MapsOf(tickets), m);
    assert forall i :: 0 <= i < |tickets| ==> MapsOf(tickets)[i] == tickets[i].maps;
    assert [Intersection(MapsOf(tickets))][0] == Intersection(MapsOf(tickets));
  }

  lemma ChosenTeamsShare(tickets: seq<SearchTicket>, elo: real -> real)
    requires ChooseTeams(tickets, elo).Some?
    ensures var c := ChooseTeams(tickets, elo).value;
      && |MemberIds(c.alpha)| == TEAM_SIZE && |MemberIds(c.bravo)| == TEAM_SIZE
      && multiset(MemberIds(c.alpha)) + multiset(MemberIds(c.bravo)) == multiset(MemberIds(tickets))
  {
    var pick := ChosenTeamsAreBest(tickets, elo);
    SidesSharePlayers(tickets, pick);
  }

  /** A competitive plan: two teams of five sharing the ten players, a map pool and a region everyone allows. */
  lemma CompetitivePlanSound(tickets: seq<SearchTicket>, now: int, elo: real -> real)
    requires EvaluateCompetitive(tickets, now, elo).Some?
    ensures var p := EvaluateCompetitive(tickets, now, elo).value;
      p.mode == Competitive && p.tickets == tickets && TeamsShare(p) && PoolAgreed(p) && RegionAgreed(p)
  {
    var p := EvaluateCompetitive(tickets, now, elo).value;
    CompetitiveIs(tickets, now, elo);
    PlanTeamsShare(tickets, elo, p);
    CompetitiveMapsAgreed(tickets);
    RegionForAgreed(tickets, PingLimit(OldestWait(tickets, now)));
  }

  /** Where a plan's parts come from. */
  lemma CompetitiveIs(tickets: seq<SearchTicket>, now: int, elo: real -> real)
    requires EvaluateCompetitive(tickets, now, elo).Some?
    ensures var p := EvaluateCompetitive(tickets, now, elo).value;
      var wait := OldestWait(tickets, now);
      && OfMode(tickets, Competitive, 10) && CompetitiveMaps(tickets) != []
      && RegionFor(tickets, PingLimit(wait)).Some? && ChooseTeams(tickets, elo).Some?
      && p == CompetitivePlan(tickets, wait, RegionFor(tickets, PingLimit(wait)).value, ChooseTeams(tickets, elo).value)
  {
  }

  lemma PlanTeamsShare(tickets: seq<SearchTicket>, elo: real -> real, p: MatchPlan)
    requires DistinctPlayers(PlayersOf(tickets)) && ChooseTeams(tickets, elo).Some? && p.tickets == tickets
    requires p.alphaIds == MemberIds(ChooseTeams(tickets, elo).value.alpha) && p.bravoIds == MemberIds(ChooseTeams(tickets, elo).value.bravo)
    ensures TeamsShare(p)
  {
    ChosenTeamsShare(tickets, elo);
  }

  // ---- Limits only relax as time passes ----

  lemma {:induction false} WaitGrows(tickets: seq<SearchTicket>, now: int, later: int)
    requires now <= later
    ensures 0 <= OldestWait(tickets, now) <= OldestWait(tickets, later)
  {
    if tickets != [] {
      WaitGrows(tickets[1..], now, later);
    }
  }

  lemma LimitsRelax(wait: int, longer: int)
    requires 0 <= wait <= longer
    ensures RatingWindow(wait) <= RatingWindow(longer) && PingLimit(wait) <= PingLimit(longer)
  {
    assert wait / 60 <= longer / 60;
  }

  lemma MayMeetLater(tickets: seq<SearchTicket>, wait: int, longer: int)
    requires 0 <= wait <= longer && MayMeet(tickets, wait)
    ensures MayMeet(tickets, longer)
  {
    LimitsRelax(wait, longer);
  }

  lemma RegionLater(tickets: seq<SearchTicket>, wait: int, longer: int)
    requires 0 <= wait <= longer && RegionFor(tickets, PingLimit(wait)).Some?
    ensures RegionFor(tickets, PingLimit(longer)) == RegionFor(tickets, PingLimit(wait))
  {
    LimitsRelax(wait, longer);
    var players := PlayersOf(tickets);
    WiderLimitSameRegion(None, None, Intersection(RegionsOf(tickets)), players, PingLimit(wait), PingLimit(longer));
  }

  /** Two plans that differ at most in the waiting time and the limits it allows. */
  ghost predicate SameMatch(p: MatchPlan, q: MatchPlan) {
    q == p.(quality := p.quality.(oldestWait := q.quality.oldestWait, ratingWindow := q.quality.ratingWindow, pingLimit := q.quality.pingLimit))
  }

  /** A set of tickets that matches now matches at every later time: same teams, map, region and score. */
  lemma EvaluateLater(tickets: seq<SearchTicket>, now: int, later: int, mode: Mode, elo: real -> real)
    requires now <= later && Evaluate(tickets, now, mode, elo).Some?
    ensures Evaluate(tickets, later, mode, elo).Some?
    ensures SameMatch(Evaluate(tickets, now, mode, elo).value, Evaluate(tickets, later, mode, elo).value)
  {
    var wait, longer := OldestWait(tickets, now), OldestWait(tickets, later);
    WaitGrows(tickets, now, later);
    RegionLater(tickets, wait, longer);
    if mode == Competitive {
      MayMeetLater(tickets, wait, longer);
    }
  }
}
