/** Choosing a reward's rarity by weight: the subtract-and-compare loop and how often it picks what. */
module WeightedChoice {
  import opened Common

  datatype Entry = Entry(rarity: int, weight: nat)

  datatype Reward = Reward(rarity: int, pin: bool, name: string)

  const ROLLS: nat := 10_000

  const CASE_WEIGHTS: map<int, nat> := map[3 := 5100, 4 := 2500, 5 := 1600, 6 := 800]
  const PIN_WEIGHTS: map<int, nat> := map[3 := 4000, 4 := 3000, 5 := 2000, 6 := 1000]
  const SOUVENIR_WEIGHTS: map<int, nat> := map[1 := 3800, 2 := 2500, 3 := 1500, 4 := 1000, 5 := 700, 6 := 500]

  function Total(entries: seq<Entry>): nat {
    if entries == [] then 0 else entries[0].weight + Total(entries[1..])
  }

  /** Total weight before entry i. */
  function Below(entries: seq<Entry>, i: nat): nat
    requires i <= |entries|
  {
    if i == 0 then 0 else Below(entries, i - 1) + entries[i - 1].weight
  }

  /** Roll r falls on entry i when it lies in the i-th of the consecutive intervals the weights cut out. */
  ghost predicate FallsOn(entries: seq<Entry>, roll: nat, i: nat)
    requires i < |entries|
  {
    Below(entries, i) <= roll < Below(entries, i) + entries[i].weight
  }

  /** The loop: subtract each weight until the roll falls under one; the last entry takes what is left. */
  method ChooseRarity(entries: seq<Entry>, roll: nat) returns (rarity: int, ghost index: nat)
    requires entries != []
    ensures index < |entries| && rarity == entries[index].rarity
    ensures roll < Total(entries) ==> FallsOn(entries, roll, index)
    ensures rarity == Chosen(entries, roll)
  {
    var rarityRoll: nat := roll;
    rarity, index := entries[|entries| - 1].rarity, |entries| - 1;
    var i := 0;
    BelowAll(entries);
    while i < |entries|
      invariant 0 <= i <= |entries|
      invariant roll >= Below(entries, i) && rarityRoll == roll - Below(entries, i)
      invariant rarity == entries[|entries| - 1].rarity && index == |entries| - 1
      invariant Chosen(entries, roll) == ChosenFrom(entries, i, rarityRoll)
    {
      if rarityRoll < entries[i].weight {
        rarity, index := entries[i].rarity, i;
        return;
      }
      rarityRoll := rarityRoll - entries[i].weight;
      i := i + 1;
    }
  }

  function ChosenFrom(entries: seq<Entry>, i: nat, roll: nat): int
    requires entries != [] && i <= |entries|
    decreases |entries| - i
  {
    if i == |entries| then entries[|entries| - 1].rarity
    else if roll < entries[i].weight then entries[i].rarity
    else ChosenFrom(entries, i + 1, roll - entries[i].weight)
  }

  function Chosen(entries: seq<Entry>, roll: nat): int
    requires entries != []
  {
    ChosenFrom(entries, 0, roll)
  }

  lemma {:induction false} BelowCons(entries: seq<Entry>, i: nat)
    requires 1 <= i <= |entries|
    ensures Below(entries, i) == entries[0].weight + Below(entries[1..], i - 1)
  {
    if i > 1 {
      BelowCons(entries, i - 1);
    }
  }

  lemma {:induction false} BelowAll(entries: seq<Entry>)
    ensures Below(entries, |entries|) == Total(entries)
  {
    if entries != [] {
      BelowCons(entries, |entries|);
      BelowAll(entries[1..]);
    }
  }

  lemma {:induction false} BelowGrows(entries: seq<Entry>, i: nat, j: nat)
    requires i <= j <= |entries|
    ensures Below(entries, i) <= Below(entries, j)
    decreases j
  {
    if i < j {
      BelowGrows(entries, i, j - 1);
    }
  }

  /** A roll falls on one entry at most. */
  lemma FallsOnOne(entries: seq<Entry>, roll: nat, i: nat, j: nat)
    requires i < |entries| && j < |entries| && FallsOn(entries, roll, i) && FallsOn(entries, roll, j)
    ensures i == j
  {
    if i < j {
      BelowGrows(entries, i + 1, j);
    } else if j < i {
      BelowGrows(entries, j + 1, i);
    }
  }

  ghost predicate DistinctRarities(entries: seq<Entry>) {
    forall i, j :: 0 <= i < j < |entries| ==> entries[i].rarity != entries[j].rarity
  }

  lemma {:induction false} ChosenFalls(entries: seq<Entry>, from: nat, roll: nat) returns (i: nat)
    requires entries != [] && from <= |entries| && Below(entries, from) <= roll < Total(entries)
    ensures i < |entries| && FallsOn(entries, roll, i) && ChosenFrom(entries, from, roll - Below(entries, from)) == entries[i].rarity
    decreases |entries| - from
  {
    BelowAll(entries);
    if roll - Below(entries, from) < entries[from].weight {
      i := from;
    } else {
      i := ChosenFalls(entries, from + 1, roll);
    }
  }

  /** A rarity is chosen by exactly the rolls that fall on its entry. */
  lemma ChosenIffFalls(entries: seq<Entry>, roll: nat, k: nat)
    requires DistinctRarities(entries) && k < |entries| && roll < Total(entries)
    ensures Chosen(entries, roll) == entries[k].rarity <==> FallsOn(entries, roll, k)
  {
    var i := ChosenFalls(entries, 0, roll);
    if i != k {
      assert entries[i].rarity != entries[k].rarity;
      if FallsOn(entries, roll, k) {
        FallsOnOne(entries, roll, i, k);
      }
    }
  }

  // ---- Counting rolls ----

  function Interval(lo: int, hi: int): (s: set<int>)
    ensures forall x :: x in s <==> lo <= x < hi
    decreases hi - lo
  {
    if lo >= hi then {} else Interval(lo, hi - 1) + {hi - 1}
  }

  lemma {:induction false} IntervalSize(lo: int, hi: int)
    requires lo <= hi
    ensures |Interval(lo, hi)| == hi - lo
    decreases hi - lo
  {
    if lo < hi {
      IntervalSize(lo, hi - 1);
    }
  }

  /** The rolls below the total weight that choose the rarity of entry k. */
  function Rolls(entries: seq<Entry>, k: nat): set<int>
    requires k < |entries|
  {
    set roll: int | 0 <= roll < Total(entries) && Chosen(entries, roll) == entries[k].rarity
  }

  lemma RollChooses(entries: seq<Entry>, k: nat, roll: int)
    requires DistinctRarities(entries) && k < |entries|
    ensures roll in Rolls(entries, k) <==> Below(entries, k) <= roll < Below(entries, k) + entries[k].weight
  {
    BelowAll(entries);
    BelowGrows(entries, k + 1, |entries|);
    if 0 <= roll < Total(entries) {
      ChosenIffFalls(entries, roll, k);
    }
  }

  /** Exactly its weight's many of the total's rolls choose each rarity. */
  lemma ExactOdds(entries: seq<Entry>, k: nat)
    requires DistinctRarities(entries) && k < |entries|
    ensures |Rolls(entries, k)| == entries[k].weight
  {
    var lo := Below(entries, k);
    var interval := Interval(lo, lo + entries[k].weight);
    forall roll: int ensures roll in Rolls(entries, k) <==> roll in interval {
      RollChooses(entries, k, roll);
    }
    assert Rolls(entries, k) == interval;
    IntervalSize(lo, lo + entries[k].weight);
  }

  // ---- The scaled roll of the packages ----

  /** A roll of ten thousand scaled to the table's total weight. */
  function Scaled(roll: nat, total: nat): nat {
    roll * total / ROLLS
  }

  lemma ScaledInside(roll: nat, total: nat)
    requires roll < ROLLS && total > 0
    ensures Scaled(roll, total) < total
  {
    DivAtLeast(roll * total, ROLLS, total);
    MulMonotone(roll + 1, ROLLS, total);
    assert (roll + 1) * total == roll * total + total;
  }

  function CeilDiv(a: nat, b: nat): nat
    requires b > 0
  {
    (a + b - 1) / b
  }

  lemma CeilDivBounds(a: nat, b: nat)
    requires b > 0
    ensures a <= CeilDiv(a, b) * b < a + b
  {
    var q := (a + b - 1) / b;
    assert q * b <= a + b - 1 < q * b + b;
  }

  /** Scaling reaches a level exactly from one roll on. */
  lemma ScaledReaches(roll: nat, total: nat, level: nat)
    requires total > 0
    ensures Scaled(roll, total) >= level <==> roll >= CeilDiv(level * ROLLS, total)
  {
    var c := CeilDiv(level * ROLLS, total);
    CeilDivBounds(level * ROLLS, total);
    DivAtLeast(roll * total, ROLLS, level);
    if roll >= c {
      MulMonotone(c, roll, total);
    } else {
      MulMonotone(roll, c - 1, total);
      assert (c - 1) * total == c * total - total;
    }
  }

  lemma DivAtLeast(a: nat, b: nat, level: nat)
    requires b > 0
    ensures a / b >= level <==> a >= level * b
  {
    var q := a / b;
    assert q * b <= a < q * b + b;
    if q >= level {
      MulMonotone(level, q, b);
    } else {
      MulMonotone(q + 1, level, b);
      assert (q + 1) * b == q * b + b;
    }
  }

  lemma MulMonotone(x: nat, y: nat, b: nat)
    requires x <= y
    ensures x * b <= y * b
  {
  }

  /** The rolls of ten thousand that choose the rarity of entry k. */
  function ScaledRolls(entries: seq<Entry>, k: nat): set<int>
    requires k < |entries|
  {
    set roll: int | 0 <= roll < ROLLS && Chosen(entries, Scaled(roll, Total(entries))) == entries[k].rarity
  }

  /** The first roll that scales to a level. */
  function FirstReaching(level: nat, total: nat): nat
    requires total > 0
  {
    CeilDiv(level * ROLLS, total)
  }

  lemma ScaledBetween(roll: nat, total: nat, lo: nat, hi: nat)
    requires total > 0
    ensures lo <= Scaled(roll, total) < hi <==> FirstReaching(lo, total) <= roll < FirstReaching(hi, total)
  {
    ScaledReaches(roll, total, lo);
    ScaledReaches(roll, total, hi);
  }

  lemma FirstReachingInside(level: nat, total: nat)
    requires total > 0 && level <= total
    ensures FirstReaching(level, total) <= ROLLS
  {
    ScaledPast(ROLLS, total, level);
    ScaledReaches(ROLLS, total, level);
  }

  lemma ScaledRollChooses(entries: seq<Entry>, k: nat, roll: int)
    requires DistinctRarities(entries) && k < |entries| && Total(entries) > 0
    ensures var total, lo := Total(entries), Below(entries, k);
      roll in ScaledRolls(entries, k) <==> FirstReaching(lo, total) <= roll < FirstReaching(lo + entries[k].weight, total)
  {
    var total, lo := Total(entries), Below(entries, k);
    BelowAll(entries);
    BelowGrows(entries, k + 1, |entries|);
    FirstReachingInside(lo + entries[k].weight, total);
    if 0 <= roll < ROLLS {
      ScaledRollFalls(entries, k, roll);
    }
  }

  lemma ScaledRollFalls(entries: seq<Entry>, k: nat, roll: nat)
    requires DistinctRarities(entries) && k < |entries| && Total(entries) > 0 && roll < ROLLS
    ensures var total, lo := Total(entries), Below(entries, k);
      Chosen(entries, Scaled(roll, total)) == entries[k].rarity
      <==> FirstReaching(lo, total) <= roll < FirstReaching(lo + entries[k].weight, total)
  {
    ScaledBetween(roll, Total(entries), Below(entries, k), Below(entries, k) + entries[k].weight);
    ScaledInside(roll, Total(entries));
    ChosenIffFalls(entries, Scaled(roll, Total(entries)), k);
  }

  /** The chosen rolls are those from the first to reach the entry's interval up to the first past it. */
  lemma ScaledInterval(entries: seq<Entry>, k: nat)
    requires DistinctRarities(entries) && k < |entries| && Total(entries) > 0
    ensures var total, lo := Total(entries), Below(entries, k);
      ScaledRolls(entries, k) == Interval(FirstReaching(lo, total), FirstReaching(lo + entries[k].weight, total))
  {
    var total, lo := Total(entries), Below(entries, k);
    EveryScaledRoll(entries, k, FirstReaching(lo, total), FirstReaching(lo + entries[k].weight, total));
  }

  lemma EveryScaledRoll(entries: seq<Entry>, k: nat, first: int, last: int)
    requires DistinctRarities(entries) && k < |entries| && Total(entries) > 0
    requires first == FirstReaching(Below(entries, k), Total(entries))
    requires last == FirstReaching(Below(entries, k) + entries[k].weight, Total(entries))
    ensures ScaledRolls(entries, k) == Interval(first, last)
  {
    forall roll: int ensures roll in ScaledRolls(entries, k) <==> first <= roll < last {
      ScaledRollChooses(entries, k, roll);
    }
    IsInterval(ScaledRolls(entries, k), first, last);
  }

  lemma IsInterval(s: set<int>, lo: int, hi: int)
    requires forall x :: x in s <==> lo <= x < hi
    ensures s == Interval(lo, hi)
  {
  }

  /** Close to its share: count / 10,000 and weight / total differ by less than 1 / 10,000. */
  ghost predicate NearShare(count: nat, weight: nat, total: nat) {
    ROLLS * weight < count * total + total && count * total < ROLLS * weight + total
  }

  lemma CeilDifference(lo: nat, weight: nat, total: nat)
    requires total > 0
    ensures var first, last := FirstReaching(lo, total), FirstReaching(lo + weight, total);
      first <= last && NearShare(last - first, weight, total)
  {
    var first, last := CeilDiv(lo * ROLLS, total), CeilDiv((lo + weight) * ROLLS, total);
    CeilDivBounds(lo * ROLLS, total);
    CeilDivBounds((lo + weight) * ROLLS, total);
    CeilDivMonotone(lo * ROLLS, (lo + weight) * ROLLS, total);
    assert (last - first) * total == last * total - first * total;
  }

  /** The number of rolls differs from 10,000 times the rarity's share by less than one. */
  lemma ScaledOdds(entries: seq<Entry>, k: nat)
    requires DistinctRarities(entries) && k < |entries| && Total(entries) > 0
    ensures NearShare(|ScaledRolls(entries, k)|, entries[k].weight, Total(entries))
  {
    ScaledInterval(entries, k);
    CeilDifference(Below(entries, k), entries[k].weight, Total(entries));
    IntervalSize(FirstReaching(Below(entries, k), Total(entries)), FirstReaching(Below(entries, k) + entries[k].weight, Total(entries)));
  }

  lemma ScaledPast(roll: nat, total: nat, level: nat)
    requires roll >= ROLLS && level <= total
    ensures Scaled(roll, total) >= level
  {
    MulMonotone(ROLLS, roll, total);
    DivAtLeast(roll * total, ROLLS, level);
    MulMonotone(level, total, ROLLS);
  }

  lemma CeilDivMonotone(a: nat, b: nat, c: nat)
    requires c > 0 && a <= b
    ensures CeilDiv(a, c) <= CeilDiv(b, c)
  {
    CeilDivBounds(a, c);
    CeilDivBounds(b, c);
    var x, y := CeilDiv(a, c), CeilDiv(b, c);
    assert (y + 1) * c == y * c + c;
    if y < x {
      MulMonotone(y + 1, x, c);
    }
  }

  // ---- Reward tables ----

  /** The rarities that occur, each once, in order of first occurrence. */
  function RaritiesOf(rewards: seq<Reward>): (r: seq<int>)
    ensures Distinct(r)
    ensures forall x :: x in r <==> exists i :: 0 <= i < |rewards| && rewards[i].rarity == x
  {
    if rewards == [] then []
    else
      var last := rewards[|rewards| - 1].rarity;
      var front := RaritiesOf(rewards[..|rewards| - 1]);
      if last in front then front else front + [last]
  }

  /** A case's table; a rarity without a listed weight weighs 1. */
  function CaseTable(rewards: seq<Reward>): (r: seq<Entry>)
    ensures |r| == |RaritiesOf(rewards)| && DistinctRarities(r)
    ensures forall i :: 0 <= i < |r| ==>
      r[i] == Entry(RaritiesOf(rewards)[i], if RaritiesOf(rewards)[i] in CASE_WEIGHTS then CASE_WEIGHTS[RaritiesOf(rewards)[i]] else 1)
  {
    var rarities := RaritiesOf(rewards);
    seq(|rarities|, i requires 0 <= i < |rarities| =>
      Entry(rarities[i], if rarities[i] in CASE_WEIGHTS then CASE_WEIGHTS[rarities[i]] else 1))
  }

  predicate AllPins(rewards: seq<Reward>) {
    forall i :: 0 <= i < |rewards| ==> rewards[i].pin
  }

  function PackWeights(rewards: seq<Reward>): map<int, nat> {
    if AllPins(rewards) then PIN_WEIGHTS else SOUVENIR_WEIGHTS
  }

  /** A package's table; rarities without a weight cannot be chosen. */
  function PackTable(rewards: seq<Reward>): seq<Entry> {
    Weighted(RaritiesOf(rewards), PackWeights(rewards))
  }

  function Weighted(rarities: seq<int>, weights: map<int, nat>): (r: seq<Entry>)
    ensures forall e :: e in r <==> e.rarity in rarities && e.rarity in weights && e.weight == weights[e.rarity]
  {
    if rarities == [] then []
    else
      assert rarities == [rarities[0]] + rarities[1..];
      (if rarities[0] in weights then [Entry(rarities[0], weights[rarities[0]])] else []) + Weighted(rarities[1..], weights)
  }

  lemma {:induction false} WeightedDistinct(rarities: seq<int>, weights: map<int, nat>)
    requires Distinct(rarities)
    ensures DistinctRarities(Weighted(rarities, weights))
  {
    if rarities != [] {
      WeightedDistinct(rarities[1..], weights);
      assert rarities[0] !in rarities[1..];
      var rest := Weighted(rarities[1..], weights);
      assert forall i :: 0 <= i < |rest| ==> rest[i] in rest;
    }
  }

  lemma TotalPositive(entries: seq<Entry>)
    requires entries != [] && forall e :: e in entries ==> e.weight > 0
    ensures Total(entries) > 0
  {
    assert entries[0] in entries;
  }

  /** The rewards of one rarity. */
  function Pool(rewards: seq<Reward>, rarity: int): (r: seq<Reward>)
    ensures forall x :: x in r <==> x in rewards && x.rarity == rarity
  {
    if rewards == [] then []
    else
      assert rewards == [rewards[0]] + rewards[1..];
      (if rewards[0].rarity == rarity then [rewards[0]] else []) + Pool(rewards[1..], rarity)
  }

  /** The rarity a table yields always has a reward to give. */
  lemma ChosenHasRewards(rewards: seq<Reward>, entries: seq<Entry>, roll: nat)
    requires entries != [] && roll < Total(entries) && forall e :: e in entries ==> e.rarity in RaritiesOf(rewards)
    ensures Pool(rewards, Chosen(entries, roll)) != []
  {
    var i := ChosenFalls(entries, 0, roll);
    assert entries[i] in entries;
    var k :| 0 <= k < |rewards| && rewards[k].rarity == entries[i].rarity;
    assert rewards[k] in Pool(rewards, entries[i].rarity);
  }

  /** Each rarity of a case is drawn by exactly its weight's many rolls, and never without a reward. */
  lemma CaseOdds(rewards: seq<Reward>, k: nat)
    requires k < |CaseTable(rewards)|
    ensures |Rolls(CaseTable(rewards), k)| == CaseTable(rewards)[k].weight
    ensures forall roll: nat :: roll < Total(CaseTable(rewards)) ==> Pool(rewards, Chosen(CaseTable(rewards), roll)) != []
  {
    var entries := CaseTable(rewards);
    ExactOdds(entries, k);
    forall roll: nat | roll < Total(entries) ensures Pool(rewards, Chosen(entries, roll)) != [] {
      ChosenHasRewards(rewards, entries, roll);
    }
  }

  /** Each rarity of a package is drawn by its share of the 10,000 rolls to within less than one, and never without a reward. */
  lemma PackOdds(rewards: seq<Reward>, k: nat)
    requires k < |PackTable(rewards)|
    ensures var entries := PackTable(rewards);
      Total(entries) > 0
      && NearShare(|ScaledRolls(entries, k)|, entries[k].weight, Total(entries))
    ensures forall roll: nat :: roll < ROLLS ==> Pool(rewards, Chosen(PackTable(rewards), Scaled(roll, Total(PackTable(rewards))))) != []
  {
    var entries := PackTable(rewards);
    WeightedDistinct(RaritiesOf(rewards), PackWeights(rewards));
    TotalPositive(entries);
    ScaledOdds(entries, k);
    forall roll: nat | roll < ROLLS ensures Pool(rewards, Chosen(entries, Scaled(roll, Total(entries)))) != [] {
      ScaledInside(roll, Total(entries));
      ChosenHasRewards(rewards, entries, Scaled(roll, Total(entries)));
    }
  }

  // ---- The two choosers, given their rolls ----

  datatype Draw = Special(index: nat) | Ordinary(reward: Reward) | CatalogEmpty

  const SPECIAL_POINTS: nat := 500

  /** chooseCaseReward: a special below 500 of 10,000; otherwise a rarity by weight and one of its rewards. */
  method ChooseCaseReward(rewards: seq<Reward>, specials: nat, roll: nat, specialRoll: nat, rarityRoll: nat, pick: nat) returns (draw: Draw)
    requires rewards != [] && roll < ROLLS
    requires (specials > 0 ==> specialRoll < specials) && rarityRoll < Total(CaseTable(rewards))
    requires pick < |Pool(rewards, Chosen(CaseTable(rewards), rarityRoll))|
    ensures roll < SPECIAL_POINTS ==> draw == if specials == 0 then CatalogEmpty else Special(specialRoll)
    ensures roll >= SPECIAL_POINTS ==> draw.Ordinary? && draw.reward in rewards && draw.reward.rarity == Chosen(CaseTable(rewards), rarityRoll)
  {
    if roll < SPECIAL_POINTS {
      return if specials == 0 then CatalogEmpty else Special(specialRoll);
    }
    var rarity, _ := ChooseRarity(CaseTable(rewards), rarityRoll);
    var pool := Pool(rewards, rarity);
    assert pool[pick] in pool;
    return Ordinary(pool[pick]);
  }

  /** chooseContainerReward: None for a container without a supported rarity. */
  method ChoosePackReward(rewards: seq<Reward>, roll: nat, pick: nat) returns (reward: Option<Reward>)
    requires roll < ROLLS
    requires PackTable(rewards) != [] ==>
      pick < |Pool(rewards, Chosen(PackTable(rewards), Scaled(roll, Total(PackTable(rewards)))))|
    ensures reward.None? <==> PackTable(rewards) == []
    ensures reward.Some? ==>
      reward.value in rewards && reward.value.rarity == Chosen(PackTable(rewards), Scaled(roll, Total(PackTable(rewards))))
  {
    var entries := PackTable(rewards);
    if entries == [] {
      return None;
    }
    var rarity, _ := ChooseRarity(entries, Scaled(roll, Total(entries)));
    var pool := Pool(rewards, rarity);
    assert pool[pick] in pool;
    return Some(pool[pick]);
  }
}
