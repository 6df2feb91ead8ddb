/** The canonical printer that signatures rest on: object members in code-unit order of their keys. */
module CanonicalJson {
  import opened Common
  import opened JsonText

  datatype Keyed<+T> = Keyed(key: Text, item: T)

  /** Code-unit order, the order of Array.prototype.sort on strings. */
  predicate KeyBefore(a: Text, b: Text) {
    b != [] && (a == [] || a[0] < b[0] || (a[0] == b[0] && KeyBefore(a[1..], b[1..])))
  }

  function Insert<T>(e: Keyed<T>, s: seq<Keyed<T>>): seq<Keyed<T>> {
    if s == [] || !KeyBefore(s[0].key, e.key) then [e] + s else [s[0]] + Insert(e, s[1..])
  }

  function Sort<T>(s: seq<Keyed<T>>): seq<Keyed<T>> {
    if s == [] then [] else Insert(s[0], Sort(s[1..]))
  }

  /** canonicalJson: the value's text with every object's keys sorted. */
  function Print(v: Json): Text {
    match v
    case Arr(items) => [OPEN_ARRAY] + Join(seq(|items|, i requires 0 <= i < |items| => Print(items[i]))) + [CLOSE_ARRAY]
    case Obj(members) =>
      var entries := Sort(seq(|members|, i requires 0 <= i < |members| => Keyed(members[i].key, Print(members[i].value))));
      [OPEN_OBJECT] + Join(EntryTexts(entries)) + [CLOSE_OBJECT]
    case _ => Plain(v)
  }

  function EntryTexts(entries: seq<Keyed<Text>>): seq<Text> {
    seq(|entries|, i requires 0 <= i < |entries| => MemberText(entries[i].key, entries[i].item))
  }

  /** The value with every object's members in key order. */
  function Canon(v: Json): Json {
    match v
    case Arr(items) => Arr(seq(|items|, i requires 0 <= i < |items| => Canon(items[i])))
    case Obj(members) => Obj(Members(Sort(seq(|members|, i requires 0 <= i < |members| => Keyed(members[i].key, Canon(members[i].value))))))
    case _ => v
  }

  function Members(entries: seq<Keyed<Json>>): seq<Member> {
    seq(|entries|, i requires 0 <= i < |entries| => Member(entries[i].key, entries[i].item))
  }

  ghost predicate DistinctKeys<T>(s: seq<Keyed<T>>) {
    forall i, j :: 0 <= i < j < |s| ==> s[i].key != s[j].key
  }

  /** A JavaScript value: no object has a key twice, and numbers are number text. */
  ghost predicate Wf(v: Json) {
    match v
    case Num(token) => IsToken(token)
    case Arr(items) => forall i :: 0 <= i < |items| ==> Wf(items[i])
    case Obj(members) =>
      && (forall i :: 0 <= i < |members| ==> Wf(members[i].value))
      && (forall i, j :: 0 <= i < j < |members| ==> members[i].key != members[j].key)
    case _ => true
  }

  /** Equal up to the order of object members. */
  ghost predicate Same(a: Json, b: Json) {
    match (a, b)
    case (Arr(xs), Arr(ys)) => |xs| == |ys| && forall i :: 0 <= i < |xs| ==> Same(xs[i], ys[i])
    case (Obj(xs), Obj(ys)) =>
      && |xs| == |ys|
      && forall i :: 0 <= i < |xs| ==> exists j :: 0 <= j < |ys| && xs[i].key == ys[j].key && Same(xs[i].value, ys[j].value)
    case (Arr(_), _) => false
    case (Obj(_), _) => false
    case (_, _) => a == b
  }

  // ---- The key order ----

  lemma {:induction false} KeyIrreflexive(a: Text)
    ensures !KeyBefore(a, a)
  {
    if a != [] {
      KeyIrreflexive(a[1..]);
    }
  }

  lemma {:induction false} KeyTransitive(a: Text, b: Text, c: Text)
    requires KeyBefore(a, b) && KeyBefore(b, c)
    ensures KeyBefore(a, c)
  {
    if a != [] && a[0] == b[0] && b[0] == c[0] {
      KeyTransitive(a[1..], b[1..], c[1..]);
    }
  }

  lemma {:induction false} KeyTotal(a: Text, b: Text)
    ensures KeyBefore(a, b) || KeyBefore(b, a) || a == b
  {
    if a != [] && b != [] && a[0] == b[0] {
      KeyTotal(a[1..], b[1..]);
      assert a == [a[0]] + a[1..] && b == [b[0]] + b[1..];
    }
  }

  // ---- Sorting ----

  ghost predicate KeysRise<T>(s: seq<Keyed<T>>) {
    forall i, j :: 0 <= i < j < |s| ==> KeyBefore(s[i].key, s[j].key)
  }

  lemma {:induction false} InsertElems<T>(e: Keyed<T>, s: seq<Keyed<T>>)
    ensures Elems(Insert(e, s)) == Elems(s) + {e} && |Insert(e, s)| == |s| + 1
  {
    if s != [] && KeyBefore(s[0].key, e.key) {
      var tail := Insert(e, s[1..]);
      InsertElems(e, s[1..]);
      assert s == [s[0]] + s[1..];
      assert Elems(s) == {s[0]} + Elems(s[1..]);
      assert Elems([s[0]] + tail) == {s[0]} + Elems(tail);
    } else {
      assert Elems([e] + s) == {e} + Elems(s);
    }
  }

  lemma {:induction false} InsertRises<T>(e: Keyed<T>, s: seq<Keyed<T>>)
    requires KeysRise(s) && forall i :: 0 <= i < |s| ==> s[i].key != e.key
    ensures KeysRise(Insert(e, s))
  {
    if s != [] {
      KeyTotal(s[0].key, e.key);
      if KeyBefore(s[0].key, e.key) {
        var tail := Insert(e, s[1..]);
        InsertRises(e, s[1..]);
        InsertElems(e, s[1..]);
        forall i | 0 <= i < |tail| ensures KeyBefore(s[0].key, tail[i].key) {
          assert tail[i] in Elems(tail);
          if tail[i] != e {
            assert tail[i] in s[1..];
          }
        }
      } else {
        forall i | 0 <= i < |s| ensures KeyBefore(e.key, s[i].key) {
          if i > 0 {
            KeyTransitive(e.key, s[0].key, s[i].key);
          }
        }
      }
    }
  }

  /** Distinct keys sort into a strictly rising list of the same entries. */
  lemma {:induction false} SortSorts<T>(s: seq<Keyed<T>>)
    requires DistinctKeys(s)
    ensures KeysRise(Sort(s)) && Elems(Sort(s)) == Elems(s) && |Sort(s)| == |s|
  {
    if s != [] {
      SortSorts(s[1..]);
      var rest := Sort(s[1..]);
      forall i | 0 <= i < |rest| ensures rest[i].key != s[0].key {
        assert rest[i] in Elems(rest);
      }
      InsertElems(s[0], rest);
      InsertRises(s[0], rest);
      assert s == [s[0]] + s[1..];
    }
  }

  lemma RiseHead<T>(s: seq<Keyed<T>>, t: seq<Keyed<T>>)
    requires KeysRise(s) && KeysRise(t) && Elems(s) == Elems(t) && s != [] && t != []
    ensures s[0] == t[0] && Elems(s[1..]) == Elems(t[1..])
  {
    assert s[0] in Elems(t) && t[0] in Elems(s);
    var i :| 0 <= i < |t| && t[i] == s[0];
    var j :| 0 <= j < |s| && s[j] == t[0];
    if i > 0 && j > 0 {
      KeyTransitive(s[0].key, t[0].key, s[0].key);
    }
    KeyIrreflexive(s[0].key);
    assert s == [s[0]] + s[1..] && t == [t[0]] + t[1..];
    assert Elems(s) == {s[0]} + Elems(s[1..]) && Elems(t) == {t[0]} + Elems(t[1..]);
  }

  /** There is one rising list of a set of entries. */
  lemma {:induction false} RisingUnique<T>(s: seq<Keyed<T>>, t: seq<Keyed<T>>)
    requires KeysRise(s) && KeysRise(t) && Elems(s) == Elems(t) && |s| == |t|
    ensures s == t
  {
    if s != [] {
      RiseHead(s, t);
      RisingUnique(s[1..], t[1..]);
      assert s == [s[0]] + s[1..] && t == [t[0]] + t[1..];
    }
  }

  // ---- Printing is plain printing of the sorted value ----

  function Mapped(entries: seq<Keyed<Json>>): seq<Keyed<Text>> {
    seq(|entries|, i requires 0 <= i < |entries| => Keyed(entries[i].key, Plain(entries[i].item)))
  }

  lemma {:induction false} InsertMapped(e: Keyed<Json>, s: seq<Keyed<Json>>)
    ensures Mapped(Insert(e, s)) == Insert(Keyed(e.key, Plain(e.item)), Mapped(s))
  {
    if s != [] && KeyBefore(s[0].key, e.key) {
      InsertMapped(e, s[1..]);
      assert Mapped(s)[1..] == Mapped(s[1..]);
    }
  }

  lemma {:induction false} SortMapped(s: seq<Keyed<Json>>)
    ensures Mapped(Sort(s)) == Sort(Mapped(s))
  {
    if s != [] {
      SortMapped(s[1..]);
      InsertMapped(s[0], Sort(s[1..]));
      assert Mapped(s)[1..] == Mapped(s[1..]);
    }
  }

  function CanonEntries(members: seq<Member>): seq<Keyed<Json>> {
    seq(|members|, i requires 0 <= i < |members| => Keyed(members[i].key, Canon(members[i].value)))
  }

  function PrintEntries(members: seq<Member>): seq<Keyed<Text>> {
    seq(|members|, i requires 0 <= i < |members| => Keyed(members[i].key, Print(members[i].value)))
  }

  /** The sorting printer writes the plain text of the sorted value. */
  lemma {:induction false} PrintIsPlainCanon(v: Json)
    ensures Print(v) == Plain(Canon(v))
    decreases v
  {
    match v
    case Arr(items) =>
      forall i | 0 <= i < |items| ensures Print(items[i]) == Plain(Canon(items[i])) {
        PrintIsPlainCanon(items[i]);
      }
      assert seq(|items|, i requires 0 <= i < |items| => Print(items[i]))
          == seq(|items|, i requires 0 <= i < |items| => Plain(seq(|items|, k requires 0 <= k < |items| => Canon(items[k]))[i]));
    case Obj(members) =>
      forall i | 0 <= i < |members| ensures Print(members[i].value) == Plain(Canon(members[i].value)) {
        PrintIsPlainCanon(members[i].value);
      }
      ObjectPrint(members);
    case _ =>
  }

  lemma ObjectPrint(members: seq<Member>)
    requires forall i :: 0 <= i < |members| ==> Print(members[i].value) == Plain(Canon(members[i].value))
    ensures Print(Obj(members)) == Plain(Canon(Obj(members)))
  {
    var sorted := Sort(CanonEntries(members));
    assert Canon(Obj(members)) == Obj(Members(sorted));
    assert PrintEntries(members) == Mapped(CanonEntries(members));
    SortMapped(CanonEntries(members));
    assert EntryTexts(Mapped(sorted)) == MemberTexts(Members(sorted));
    assert Print(Obj(members)) == [OPEN_OBJECT] + Join(EntryTexts(Sort(PrintEntries(members)))) + [CLOSE_OBJECT];
    assert Plain(Obj(Members(sorted))) == [OPEN_OBJECT] + Join(MemberTexts(Members(sorted))) + [CLOSE_OBJECT];
  }

  // ---- Sorting decides equality up to order ----

  lemma CanonKeys(members: seq<Member>)
    requires forall i, j :: 0 <= i < j < |members| ==> members[i].key != members[j].key
    ensures DistinctKeys(CanonEntries(members))
  {
  }

  lemma {:induction false} CanonTokens(v: Json)
    requires Wf(v)
    ensures TokensOk(Canon(v))
    decreases v
  {
    match v
    case Arr(items) =>
      forall i | 0 <= i < |items| ensures TokensOk(Canon(items[i])) {
        CanonTokens(items[i]);
      }
    case Obj(members) =>
      var entries := CanonEntries(members);
      CanonKeys(members);
      SortSorts(entries);
      forall i | 0 <= i < |Sort(entries)| ensures TokensOk(Sort(entries)[i].item) {
        assert Sort(entries)[i] in Elems(entries);
        var k :| 0 <= k < |entries| && entries[k] == Sort(entries)[i];
        CanonTokens(members[k].value);
      }
      assert Canon(v) == Obj(Members(Sort(entries)));
    case _ =>
  }

  lemma MembersInjective(s: seq<Keyed<Json>>, t: seq<Keyed<Json>>)
    requires Members(s) == Members(t)
    ensures s == t
  {
    assert |Members(s)| == |s| && |Members(t)| == |t|;
    forall i | 0 <= i < |s| ensures s[i] == t[i] {
      assert Members(s)[i] == Members(t)[i];
    }
  }

  /** A list of distinct entries inside another as long has the same entries. */
  lemma SameEntries(s: seq<Keyed<Json>>, t: seq<Keyed<Json>>)
    requires DistinctKeys(s) && DistinctKeys(t) && |s| == |t| && Elems(s) <= Elems(t)
    ensures Sort(s) == Sort(t)
  {
    DistinctCover(s, t);
    SortSorts(s);
    SortSorts(t);
    RisingUnique(Sort(s), Sort(t));
  }

  lemma {:induction false} SameHasOneCanon(a: Json, b: Json)
    requires Wf(a) && Wf(b) && Same(a, b)
    ensures Canon(a) == Canon(b)
    decreases a
  {
    match (a, b)
    case (Arr(xs), Arr(ys)) =>
      forall i | 0 <= i < |xs| ensures Canon(xs[i]) == Canon(ys[i]) {
        SameHasOneCanon(xs[i], ys[i]);
      }
    case (Obj(xs), Obj(ys)) =>
      var s, t := CanonEntries(xs), CanonEntries(ys);
      forall i | 0 <= i < |xs| ensures s[i] in Elems(t) {
        var j :| 0 <= j < |ys| && xs[i].key == ys[j].key && Same(xs[i].value, ys[j].value);
        SameHasOneCanon(xs[i].value, ys[j].value);
        assert t[j] == s[i];
      }
      CanonKeys(xs);
      CanonKeys(ys);
      SameEntries(s, t);
    case (_, _) =>
  }

  lemma {:induction false} OneCanonIsSame(a: Json, b: Json)
    requires Wf(a) && Wf(b) && Canon(a) == Canon(b)
    ensures Same(a, b)
    decreases a
  {
    match (a, b)
    case (Arr(xs), Arr(ys)) =>
      ArrayCanon(xs, ys);
      forall i | 0 <= i < |xs| ensures Same(xs[i], ys[i]) {
        OneCanonIsSame(xs[i], ys[i]);
      }
    case (Obj(xs), Obj(ys)) =>
      ObjectCanon(xs, ys);
      forall i | 0 <= i < |xs| ensures exists j :: 0 <= j < |ys| && xs[i].key == ys[j].key && Same(xs[i].value, ys[j].value) {
        var j :| 0 <= j < |ys| && xs[i].key == ys[j].key && Canon(xs[i].value) == Canon(ys[j].value);
        OneCanonIsSame(xs[i].value, ys[j].value);
      }
    case (_, _) =>
  }

  lemma ArrayCanon(xs: seq<Json>, ys: seq<Json>)
    requires Canon(Arr(xs)) == Canon(Arr(ys))
    ensures |xs| == |ys| && forall i :: 0 <= i < |xs| ==> Canon(xs[i]) == Canon(ys[i])
  {
    var s := seq(|xs|, i requires 0 <= i < |xs| => Canon(xs[i]));
    var t := seq(|ys|, i requires 0 <= i < |ys| => Canon(ys[i]));
    assert Canon(Arr(xs)) == Arr(s) && Canon(Arr(ys)) == Arr(t);
    assert |s| == |xs| && |t| == |ys|;
    forall i | 0 <= i < |xs| ensures Canon(xs[i]) == Canon(ys[i]) {
      assert s[i] == t[i];
    }
  }

  lemma ObjectCanon(xs: seq<Member>, ys: seq<Member>)
    requires forall i, j :: 0 <= i < j < |xs| ==> xs[i].key != xs[j].key
    requires forall i, j :: 0 <= i < j < |ys| ==> ys[i].key != ys[j].key
    requires Canon(Obj(xs)) == Canon(Obj(ys))
    ensures |xs| == |ys|
    ensures forall i :: 0 <= i < |xs| ==>
      exists j :: 0 <= j < |ys| && xs[i].key == ys[j].key && Canon(xs[i].value) == Canon(ys[j].value)
  {
    var s, t := CanonEntries(xs), CanonEntries(ys);
    CanonKeys(xs);
    CanonKeys(ys);
    SortSorts(s);
    SortSorts(t);
    assert Canon(Obj(xs)) == Obj(Members(Sort(s))) && Canon(Obj(ys)) == Obj(Members(Sort(t)));
    MembersInjective(Sort(s), Sort(t));
    forall i | 0 <= i < |xs|
      ensures exists j :: 0 <= j < |ys| && xs[i].key == ys[j].key && Canon(xs[i].value) == Canon(ys[j].value)
    {
      assert s[i] in Elems(t);
      var j :| 0 <= j < |t| && t[j] == s[i];
      assert xs[i].key == ys[j].key;
    }
  }

  // ---- Main results ----

  /** The printed text parses back to the sorted value, with nothing left over. */
  lemma PrintedParses(v: Json, rest: Text)
    requires Wf(v) && Ends(rest)
    ensures ParseValue(Print(v) + rest) == Some((Canon(v), rest))
  {
    PrintIsPlainCanon(v);
    CanonTokens(v);
    PlainParses(Canon(v), rest);
  }

  /** Two values print the same text exactly when they are equal up to the order of object members. */
  lemma PrintsSameIffSame(a: Json, b: Json)
    requires Wf(a) && Wf(b)
    ensures Print(a) == Print(b) <==> Same(a, b)
  {
    if Print(a) == Print(b) {
      PrintedParses(a, []);
      PrintedParses(b, []);
      OneCanonIsSame(a, b);
    }
    if Same(a, b) {
      SameHasOneCanon(a, b);
      PrintIsPlainCanon(a);
      PrintIsPlainCanon(b);
    }
  }
}
