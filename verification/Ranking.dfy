/** How the matchmaker compares candidates: by score, ties by the joined ticket ids. */
module Ranking {
  import opened Common

  /** Code-unit order of strings. */
  predicate Before(a: string, b: string) {
    b != [] && (a == [] || a[0] < b[0] || (a[0] == b[0] && Before(a[1..], b[1..])))
  }

  function JoinIds(ids: seq<string>, separator: string): string {
    if ids == [] then "" else if |ids| == 1 then ids[0] else ids[0] + separator + JoinIds(ids[1..], separator)
  }

  datatype Rank = Rank(score: real, ids: string)

  predicate Better(a: Rank, b: Rank) {
    a.score < b.score || (a.score == b.score && Before(a.ids, b.ids))
  }

  lemma {:induction false} BeforeIrreflexive(a: string)
    ensures !Before(a, a)
  {
    if a != [] {
      BeforeIrreflexive(a[1..]);
    }
  }

  lemma {:induction false} BeforeTransitive(a: string, b: string, c: string)
    requires Before(a, b) && Before(b, c)
    ensures Before(a, c)
  {
    if a != [] && a[0] == b[0] && b[0] == c[0] {
      BeforeTransitive(a[1..], b[1..], c[1..]);
    }
  }

  lemma {:induction false} BeforeTotal(a: string, b: string)
    ensures Before(a, b) || Before(b, a) || a == b
  {
    if a != [] && b != [] && a[0] == b[0] {
      BeforeTotal(a[1..], b[1..]);
      assert a == [a[0]] + a[1..] && b == [b[0]] + b[1..];
    }
  }

  lemma BetterIrreflexive(a: Rank)
    ensures !Better(a, a)
  {
    BeforeIrreflexive(a.ids);
  }

  lemma BetterTransitive(a: Rank, b: Rank, c: Rank)
    requires Better(a, b) && Better(b, c)
    ensures Better(a, c)
  {
    if a.score == b.score && b.score == c.score {
      BeforeTransitive(a.ids, b.ids, c.ids);
    }
  }

  lemma BetterTotal(a: Rank, b: Rank)
    ensures Better(a, b) || Better(b, a) || a == b
  {
    BeforeTotal(a.ids, b.ids);
  }

  /** Keeps the candidate so far unless the next one is strictly better. */
  function Keep<T>(best: Option<T>, item: T, rank: T -> Rank): Option<T> {
    if best.None? || Better(rank(item), rank(best.value)) then Some(item) else best
  }

  function Best<T>(best: Option<T>, items: seq<T>, rank: T -> Rank): Option<T>
    decreases |items|
  {
    if items == [] then best else Best(Keep(best, items[0], rank), items[1..], rank)
  }

  lemma {:induction false} BestConcat<T>(best: Option<T>, xs: seq<T>, ys: seq<T>, rank: T -> Rank)
    ensures Best(Best(best, xs, rank), ys, rank) == Best(best, xs + ys, rank)
    decreases |xs|
  {
    if xs == [] {
      assert xs + ys == ys;
    } else {
      assert (xs + ys)[1..] == xs[1..] + ys;
      BestConcat(Keep(best, xs[0], rank), xs[1..], ys, rank);
    }
  }

  /** Item i is the first of the least: nothing beats it, and it beats everything before it. */
  ghost predicate FirstLeast<T>(items: seq<T>, i: nat, rank: T -> Rank)
    requires i < |items|
  {
    && (forall j :: 0 <= j < |items| ==> !Better(rank(items[j]), rank(items[i])))
    && (forall j :: 0 <= j < i ==> Better(rank(items[i]), rank(items[j])))
  }

  lemma {:induction false} BestIsFirstLeast<T>(items: seq<T>, rank: T -> Rank) returns (i: nat)
    ensures items == [] <==> Best(None, items, rank) == None
    ensures items != [] ==> i < |items| && Best(None, items, rank) == Some(items[i]) && FirstLeast(items, i, rank)
  {
    i := 0;
    if items != [] {
      var last := |items| - 1;
      var front, x := items[..last], items[last];
      BestConcat(None, front, [x], rank);
      assert items == front + [x];
      i := BestIsFirstLeast(front, rank);
      assert Best(Best(None, front, rank), [x], rank) == Keep(Best(None, front, rank), x, rank);
      BetterIrreflexive(rank(x));
      if front == [] || Better(rank(x), rank(front[i])) {
        forall j | 0 <= j < last ensures Better(rank(x), rank(items[j])) && !Better(rank(items[j]), rank(x)) {
          BetterChain(rank(x), rank(front[i]), rank(front[j]));
        }
        i := last;
      }
    }
  }

  lemma BetterChain(x: Rank, least: Rank, other: Rank)
    requires Better(x, least) && !Better(other, least)
    ensures Better(x, other) && !Better(other, x)
  {
    BetterTotal(least, other);
    if Better(least, other) {
      BetterTransitive(x, least, other);
    }
    if Better(other, x) {
      BetterTransitive(other, x, least);
    }
  }
}
