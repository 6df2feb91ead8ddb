/** Small data types and facts about sequences used by every other module. */
module Common {

  datatype Option<+T> = None | Some(value: T) {
    function GetOr(default: T): T {
      if Some? then value else default
    }
  }

  datatype Result<+T, +E> = Ok(value: T) | Err(error: E)

  /** No element occurs twice. */
  predicate Distinct<T(==)>(s: seq<T>) {
    forall i, j :: 0 <= i < j < |s| ==> s[i] != s[j]
  }

  function Elems<T>(s: seq<T>): set<T> {
    set x | x in s
  }

  function Max(x: int, y: int): int {
    if x < y then y else x
  }

  function Min(x: int, y: int): int {
    if x < y then x else y
  }

  lemma {:induction false} DistinctCardinality<T>(s: seq<T>)
    requires Distinct(s)
    ensures |Elems(s)| == |s|
  {
    if s == [] {
      assert Elems(s) == {};
    } else {
      var last := |s| - 1;
      DistinctCardinality(s[..last]);
      assert s == s[..last] + [s[last]];
      assert Elems(s) == Elems(s[..last]) + {s[last]};
      assert s[last] !in s[..last];
    }
  }

  lemma SubsetCardinality<T>(a: set<T>, b: set<T>)
    requires a <= b
    ensures |a| <= |b|
    ensures |a| == |b| ==> a == b
  {
    assert b == a + (b - a);
    assert |b| == |a| + |b - a|;
  }

  /** A duplicate-free list inside another of the same length covers it. */
  lemma DistinctCover<T>(a: seq<T>, b: seq<T>)
    requires Distinct(a) && Distinct(b) && Elems(a) <= Elems(b) && |a| == |b|
    ensures Elems(a) == Elems(b)
  {
    DistinctCardinality(a);
    DistinctCardinality(b);
    SubsetCardinality(Elems(a), Elems(b));
  }

  lemma {:induction false} DistinctMultiset<T>(s: seq<T>)
    ensures Distinct(s) <==> forall x :: multiset(s)[x] <= 1
  {
    if s != [] {
      var last := |s| - 1;
      var front := s[..last];
      DistinctMultiset(front);
      assert s == front + [s[last]];
      assert multiset(s) == multiset(front) + multiset{s[last]};
      if Distinct(front) && s[last] !in front {
        assert Distinct(s);
      } else if !Distinct(front) {
        var x :| multiset(front)[x] > 1;
        assert multiset(s)[x] > 1;
        var i, j :| 0 <= i < j < |front| && front[i] == front[j];
        assert s[i] == s[j];
      } else {
        var i :| 0 <= i < |front| && front[i] == s[last];
        assert s[last] in multiset(front);
        assert multiset(s)[s[last]] > 1;
        assert s[i] == s[last];
      }
    }
  }

  // ---- Sets of numbers ----

  lemma {:induction false} FindLeast(s: set<nat>) returns (k: nat)
    requires s != {}
    ensures k in s && forall j :: j in s ==> k <= j
  {
    var x :| x in s;
    var rest := s - {x};
    if rest == {} {
      assert s == {x};
      k := x;
    } else {
      var least := FindLeast(rest);
      k := if x < least then x else least;
      assert s == rest + {x};
    }
  }

  lemma LeastExists(s: set<nat>)
    requires s != {}
    ensures exists k :: k in s && forall j :: j in s ==> k <= j
  {
    var k := FindLeast(s);
  }

  function LeastOf(s: set<nat>): (k: nat)
    requires s != {}
    ensures k in s && forall j :: j in s ==> k <= j
  {
    LeastExists(s);
    var k :| k in s && forall j :: j in s ==> k <= j;
    k
  }

  /** The elements in ascending order. */
  function Ascending(s: set<nat>): seq<nat> {
    if s == {} then []
    else
      var k := LeastOf(s);
      [k] + Ascending(s - {k})
  }

  ghost predicate Increasing(s: seq<nat>) {
    forall i, j :: 0 <= i < j < |s| ==> s[i] < s[j]
  }

  /** l lists the elements of s, each once, in ascending order. */
  ghost predicate Lists(l: seq<nat>, s: set<nat>) {
    Increasing(l) && Elems(l) == s
  }

  lemma {:induction false} AscendingLists(s: set<nat>)
    ensures Lists(Ascending(s), s) && |Ascending(s)| == |s|
  {
    if s != {} {
      var k := LeastOf(s);
      var less := s - {k};
      var rest := Ascending(less);
      AscendingLists(less);
      ListsPrepend(k, rest, less);
      assert s == {k} + less && Ascending(s) == [k] + rest;
    }
  }

  lemma ListsPrepend(k: nat, rest: seq<nat>, s: set<nat>)
    requires Lists(rest, s) && forall j :: j in s ==> k < j
    ensures Lists([k] + rest, {k} + s)
  {
    forall i | 0 <= i < |rest| ensures k < rest[i] {
      assert rest[i] in Elems(rest);
    }
    assert Elems([k] + rest) == {k} + Elems(rest);
  }

  /** There is one such list. */
  lemma {:induction false} ListIsAscending(l: seq<nat>, s: set<nat>)
    requires Lists(l, s)
    ensures l == Ascending(s)
  {
    if l == [] {
      assert s == {};
    } else {
      var rest := l[1..];
      assert l == [l[0]] + rest && l[0] in s && l[0] !in rest;
      assert forall x :: x in s ==> x == l[0] || x in rest;
      assert LeastOf(s) == l[0];
      assert Elems(rest) == s - {l[0]};
      ListIsAscending(rest, s - {l[0]});
    }
  }

  lemma ListsJoin(l: seq<nat>, a: set<nat>, r: seq<nat>, b: set<nat>)
    requires Lists(l, a) && Lists(r, b) && forall x, y :: x in a && y in b ==> x < y
    ensures Lists(l + r, a + b)
  {
    forall i, j | 0 <= i < j < |l + r| ensures (l + r)[i] < (l + r)[j] {
      if i < |l| <= j {
        assert l[i] in Elems(l) && r[j - |l|] in Elems(r);
      }
    }
    assert Elems(l + r) == Elems(l) + Elems(r);
  }

  /** Cutting a list cuts the set at the last element kept. */
  lemma ListsCut(l: seq<nat>, s: set<nat>, n: nat)
    requires Lists(l, s) && 0 < n <= |l|
    ensures Lists(l[..n], set x | x in s && x <= l[n - 1])
  {
    var low := set x | x in s && x <= l[n - 1];
    forall x | x in low ensures x in l[..n] {
      assert x in Elems(l);
      var i :| 0 <= i < |l| && l[i] == x;
      assert i < n && l[..n][i] == x;
    }
    forall i | 0 <= i < n ensures l[i] in low {
      assert l[i] in Elems(l);
    }
  }
}
