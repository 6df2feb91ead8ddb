/** The text of JSON values as JSON.stringify and the canonical printer write them, over UTF-16 code units. */
module JsonText {
  import opened Common

  /** A UTF-16 code unit. */
  type Unit = u: nat | u < 0x1_0000
  type Text = seq<Unit>

  /** Num holds the canonical decimal text of a finite number; object keys are distinct. */
  datatype Json =
    | Null
    | Bool(b: bool)
    | Num(token: Text)
    | Str(s: Text)
    | Arr(items: seq<Json>)
    | Obj(members: seq<Member>)

  datatype Member = Member(key: Text, value: Json)

  const QUOTE: Unit := 34
  const COMMA: Unit := 44
  const COLON: Unit := 58
  const OPEN_ARRAY: Unit := 91
  const BACKSLASH: Unit := 92
  const CLOSE_ARRAY: Unit := 93
  const OPEN_OBJECT: Unit := 123
  const CLOSE_OBJECT: Unit := 125
  const LETTER_U: Unit := 117
  const NULL_TEXT: Text := [110, 117, 108, 108]
  const TRUE_TEXT: Text := [116, 114, 117, 101]
  const FALSE_TEXT: Text := [102, 97, 108, 115, 101]

  // ---- Strings ----

  predicate IsHigh(u: Unit) { 0xD800 <= u < 0xDC00 }
  predicate IsLow(u: Unit) { 0xDC00 <= u < 0xE000 }

  /** A lower-case hexadecimal digit. */
  function HexDigit(d: nat): Unit
    requires d < 16
  {
    if d < 10 then 48 + d else 87 + d
  }

  function HexValue(u: Unit): Option<nat> {
    if 48 <= u <= 57 then Some(u - 48)
    else if 97 <= u <= 102 then Some(u - 87)
    else if 65 <= u <= 70 then Some(u - 55)
    else None
  }

  function Hex4(u: Unit): Text {
    [HexDigit(u / 4096), HexDigit(u / 256 % 16), HexDigit(u / 16 % 16), HexDigit(u % 16)]
  }

  /** The short escapes, by the unit they stand for. */
  function ShortEscape(u: Unit): Option<Unit> {
    if u == QUOTE then Some(QUOTE)
    else if u == BACKSLASH then Some(BACKSLASH)
    else if u == 8 then Some(98)
    else if u == 12 then Some(102)
    else if u == 10 then Some(110)
    else if u == 13 then Some(114)
    else if u == 9 then Some(116)
    else None
  }

  predicate NeedsHex(u: Unit) {
    u < 0x20 || IsHigh(u) || IsLow(u)
  }

  /** One unit that is not half of a surrogate pair. */
  function Escape(u: Unit): Text {
    match ShortEscape(u)
    case Some(c) => [BACKSLASH, c]
    case None => if NeedsHex(u) then [BACKSLASH, LETTER_U] + Hex4(u) else [u]
  }

  predicate StartsPair(s: Text) {
    |s| >= 2 && IsHigh(s[0]) && IsLow(s[1])
  }

  function Escaped(s: Text): Text
    decreases |s|
  {
    if s == [] then []
    else if StartsPair(s) then [s[0], s[1]] + Escaped(s[2..])
    else Escape(s[0]) + Escaped(s[1..])
  }

  function Quoted(s: Text): Text {
    [QUOTE] + Escaped(s) + [QUOTE]
  }

  // ---- Values ----

  function Join(parts: seq<Text>): Text {
    if parts == [] then []
    else if |parts| == 1 then parts[0]
    else parts[0] + [COMMA] + Join(parts[1..])
  }

  function MemberText(key: Text, value: Text): Text {
    Quoted(key) + [COLON] + value
  }

  /** The text of a value with members in the order they are in. */
  function Plain(v: Json): Text {
    match v
    case Null => NULL_TEXT
    case Bool(b) => if b then TRUE_TEXT else FALSE_TEXT
    case Num(token) => token
    case Str(s) => Quoted(s)
    case Arr(items) => [OPEN_ARRAY] + Join(seq(|items|, i requires 0 <= i < |items| => Plain(items[i]))) + [CLOSE_ARRAY]
    case Obj(members) =>
      [OPEN_OBJECT]
      + Join(seq(|members|, i requires 0 <= i < |members| => MemberText(members[i].key, Plain(members[i].value))))
      + [CLOSE_OBJECT]
  }

  predicate IsNumberUnit(u: Unit) {
    48 <= u <= 57 || u == 45 || u == 43 || u == 46 || u == 101 || u == 69
  }

  /** Starts with a digit or a minus sign and has only the units numbers are written with. */
  predicate IsToken(t: Text) {
    && t != [] && (48 <= t[0] <= 57 || t[0] == 45)
    && forall i :: 0 <= i < |t| ==> IsNumberUnit(t[i])
  }

  ghost predicate TokensOk(v: Json) {
    match v
    case Num(token) => IsToken(token)
    case Arr(items) => forall i :: 0 <= i < |items| ==> TokensOk(items[i])
    case Obj(members) => forall i :: 0 <= i < |members| ==> TokensOk(members[i].value)
    case _ => true
  }

  // ---- Parsing ----

  /** The unit a string body starts with, escapes undone, and the text after it. */
  function ParseUnit(t: Text): (r: Option<(Unit, Text)>)
    ensures r.Some? ==> |r.value.1| < |t|
  {
    if t == [] || t[0] == QUOTE || t[0] < 0x20 then None
    else if t[0] != BACKSLASH then Some((t[0], t[1..]))
    else if |t| < 2 then None
    else if t[1] == LETTER_U then ParseHex(t)
    else
      match LongForm(t[1])
      case Some(u) => Some((u, t[2..]))
      case None => None
  }

  /** The unit a short escape stands for. */
  function LongForm(c: Unit): Option<Unit> {
    if c == QUOTE || c == BACKSLASH || c == 47 then Some(c)
    else if c == 98 then Some(8)
    else if c == 102 then Some(12)
    else if c == 110 then Some(10)
    else if c == 114 then Some(13)
    else if c == 116 then Some(9)
    else None
  }

  function ParseHex(t: Text): (r: Option<(Unit, Text)>)
    ensures r.Some? ==> |r.value.1| < |t|
  {
    if |t| < 6 then None
    else
      var a, b, c, d := HexValue(t[2]), HexValue(t[3]), HexValue(t[4]), HexValue(t[5]);
      if a.None? || b.None? || c.None? || d.None? then None
      else if a.value >= 16 || b.value >= 16 || c.value >= 16 || d.value >= 16 then None
      else Some((Number(a.value, b.value, c.value, d.value), t[6..]))
  }

  function Number(a: nat, b: nat, c: nat, d: nat): Unit
    requires a < 16 && b < 16 && c < 16 && d < 16
  {
    a * 4096 + b * 256 + c * 16 + d
  }

  /** A string body up to and including its closing quote. */
  function ParseChars(t: Text): (r: Option<(Text, Text)>)
    ensures r.Some? ==> |r.value.1| < |t|
    decreases |t|
  {
    if t == [] then None
    else if t[0] == QUOTE then Some(([], t[1..]))
    else
      var first := ParseUnit(t);
      if first.None? then None
      else
        var rest := ParseChars(first.value.1);
        if rest.None? then None else Some(([first.value.0] + rest.value.0, rest.value.1))
  }

  function NumberLength(t: Text): (n: nat)
    ensures n <= |t|
  {
    if t == [] || !IsNumberUnit(t[0]) then 0 else 1 + NumberLength(t[1..])
  }

  function ParseValue(t: Text): (r: Option<(Json, Text)>)
    ensures r.Some? ==> |r.value.1| < |t|
    decreases |t|, 0
  {
    if t == [] then None
    else if NULL_TEXT <= t then Some((Null, t[4..]))
    else if TRUE_TEXT <= t then Some((Bool(true), t[4..]))
    else if FALSE_TEXT <= t then Some((Bool(false), t[5..]))
    else if t[0] == QUOTE then
      var s := ParseChars(t[1..]);
      if s.None? then None else Some((Str(s.value.0), s.value.1))
    else if t[0] == OPEN_ARRAY then
      if |t| >= 2 && t[1] == CLOSE_ARRAY then Some((Arr([]), t[2..]))
      else
        var items := ParseItems(t[1..]);
        if items.None? then None else Some((Arr(items.value.0), items.value.1))
    else if t[0] == OPEN_OBJECT then
      if |t| >= 2 && t[1] == CLOSE_OBJECT then Some((Obj([]), t[2..]))
      else
        var members := ParseMembers(t[1..]);
        if members.None? then None else Some((Obj(members.value.0), members.value.1))
    else
      var n := NumberLength(t);
      if n == 0 || !IsToken(t[..n]) then None else Some((Num(t[..n]), t[n..]))
  }

  /** One or more values, separated by commas, up to the closing bracket. */
  function ParseItems(t: Text): (r: Option<(seq<Json>, Text)>)
    ensures r.Some? ==> |r.value.1| < |t|
    decreases |t|, 1
  {
    var first := ParseValue(t);
    if first.None? || first.value.1 == [] then None
    else
      var (v, after) := first.value;
      if after[0] == CLOSE_ARRAY then Some(([v], after[1..]))
      else if after[0] != COMMA then None
      else
        var rest := ParseItems(after[1..]);
        if rest.None? then None else Some(([v] + rest.value.0, rest.value.1))
  }

  function ParseMember(t: Text): (r: Option<(Member, Text)>)
    ensures r.Some? ==> |r.value.1| < |t|
    decreases |t|, 1
  {
    if t == [] || t[0] != QUOTE then None
    else
      var key := ParseChars(t[1..]);
      if key.None? || key.value.1 == [] || key.value.1[0] != COLON then None
      else
        var value := ParseValue(key.value.1[1..]);
        if value.None? then None else Some((Member(key.value.0, value.value.0), value.value.1))
  }

  function ParseMembers(t: Text): (r: Option<(seq<Member>, Text)>)
    ensures r.Some? ==> |r.value.1| < |t|
    decreases |t|, 2
  {
    var first := ParseMember(t);
    if first.None? || first.value.1 == [] then None
    else
      var (m, after) := first.value;
      if after[0] == CLOSE_OBJECT then Some(([m], after[1..]))
      else if after[0] != COMMA then None
      else
        var rest := ParseMembers(after[1..]);
        if rest.None? then None else Some(([m] + rest.value.0, rest.value.1))
  }

  // ---- The parser inverts the printer ----

  lemma HexDigitValue(d: nat)
    requires d < 16
    ensures HexValue(HexDigit(d)) == Some(d)
  {
  }

  lemma Hex4Number(u: Unit)
    ensures u / 4096 < 16
    ensures Number(u / 4096, u / 256 % 16, u / 16 % 16, u % 16) == u
  {
    var q := u / 16;
    var r := q / 16;
    assert u == 16 * q + u % 16;
    assert q == 16 * r + q % 16;
    assert r == 16 * (r / 16) + r % 16;
    assert u / 256 == r && u / 4096 == r / 16;
  }

  lemma EscapeParses(u: Unit, t: Text)
    ensures ParseUnit(Escape(u) + t) == Some((u, t))
    ensures Escape(u) != [] && Escape(u)[0] != QUOTE
  {
    var e := Escape(u) + t;
    if ShortEscape(u).Some? {
      assert e[2..] == t;
    } else if NeedsHex(u) {
      HexDigitValue(u / 4096);
      HexDigitValue(u / 256 % 16);
      HexDigitValue(u / 16 % 16);
      HexDigitValue(u % 16);
      Hex4Number(u);
      assert e[6..] == t;
      assert e[2..6] == Hex4(u);
    } else {
      assert e[1..] == t;
    }
  }

  lemma RawParses(u: Unit, t: Text)
    requires u >= 0x20 && u != QUOTE && u != BACKSLASH
    ensures ParseUnit([u] + t) == Some((u, t))
  {
    assert ([u] + t)[1..] == t;
  }

  lemma CharsStep(piece: Text, u: Unit, t: Text)
    requires piece != [] && piece[0] != QUOTE && ParseUnit(piece + t) == Some((u, t))
    ensures ParseChars(t).Some? ==> ParseChars(piece + t) == Some(([u] + ParseChars(t).value.0, ParseChars(t).value.1))
  {
  }

  lemma Assoc(a: Text, b: Text, c: Text)
    ensures (a + b) + c == a + (b + c)
  {
  }

  lemma Head(u: Unit, t: Text)
    ensures ([u] + t)[0] == u && ([u] + t)[1..] == t
  {
  }

  lemma {:induction false} CharsParse(s: Text, rest: Text)
    ensures ParseChars(Escaped(s) + ([QUOTE] + rest)) == Some((s, rest))
    decreases |s|
  {
    var end := [QUOTE] + rest;
    if s == [] {
      assert [] + end == end;
      Head(QUOTE, rest);
    } else if StartsPair(s) {
      CharsParse(s[2..], rest);
      PairStep(s[0], s[1], Escaped(s[2..]) + end);
      Assoc([s[0], s[1]], Escaped(s[2..]), end);
      assert s == [s[0], s[1]] + s[2..];
    } else {
      CharsParse(s[1..], rest);
      EscapeParses(s[0], Escaped(s[1..]) + end);
      CharsStep(Escape(s[0]), s[0], Escaped(s[1..]) + end);
      Assoc(Escape(s[0]), Escaped(s[1..]), end);
      assert s == [s[0]] + s[1..];
    }
  }

  lemma PairStep(high: Unit, low: Unit, t: Text)
    requires IsHigh(high) && IsLow(low) && ParseChars(t).Some?
    ensures ParseChars([high, low] + t) == Some(([high, low] + ParseChars(t).value.0, ParseChars(t).value.1))
  {
    RawParses(low, t);
    CharsStep([low], low, t);
    RawParses(high, [low] + t);
    CharsStep([high], high, [low] + t);
    assert [high, low] + t == [high] + ([low] + t);
    var chars := ParseChars(t).value.0;
    assert [high, low] + chars == [high] + ([low] + chars);
  }

  /** What may follow a value: the end of the text or punctuation that no number contains. */
  predicate Ends(rest: Text) {
    rest == [] || !IsNumberUnit(rest[0])
  }

  lemma {:induction false} NumberEnds(token: Text, rest: Text)
    requires (forall i :: 0 <= i < |token| ==> IsNumberUnit(token[i])) && Ends(rest)
    ensures NumberLength(token + rest) == |token|
  {
    if token == [] {
      assert token + rest == rest;
    } else {
      assert (token + rest)[1..] == token[1..] + rest;
      NumberEnds(token[1..], rest);
    }
  }

  lemma TokenParses(token: Text, rest: Text)
    requires IsToken(token) && Ends(rest)
    ensures ParseValue(token + rest) == Some((Num(token), rest))
  {
    NumberEnds(token, rest);
    var t := token + rest;
    assert t[0] == token[0];
    assert t[..|token|] == token && t[|token|..] == rest;
  }

  lemma QuotedText(s: Text, rest: Text)
    ensures Quoted(s) + rest == [QUOTE] + (Escaped(s) + ([QUOTE] + rest))
  {
  }

  lemma QuotedParses(s: Text, rest: Text)
    ensures ParseValue(Quoted(s) + rest) == Some((Str(s), rest))
  {
    CharsParse(s, rest);
    QuotedText(s, rest);
    Head(QUOTE, Escaped(s) + ([QUOTE] + rest));
  }

  /** A value's text starts with none of the closing brackets. */
  lemma PlainStarts(v: Json)
    requires TokensOk(v)
    ensures Plain(v) != [] && Plain(v)[0] != CLOSE_ARRAY && Plain(v)[0] != CLOSE_OBJECT
  {
  }

  function Plains(items: seq<Json>): seq<Text> {
    seq(|items|, i requires 0 <= i < |items| => Plain(items[i]))
  }

  function MemberTexts(members: seq<Member>): seq<Text> {
    seq(|members|, i requires 0 <= i < |members| => MemberText(members[i].key, Plain(members[i].value)))
  }

  function Weight(v: Json): nat
    decreases v
  {
    match v
    case Arr(items) => 1 + ItemsWeight(items)
    case Obj(members) => 1 + MembersWeight(members)
    case _ => 1
  }

  function ItemsWeight(items: seq<Json>): nat
    decreases items
  {
    if items == [] then 0 else 1 + Weight(items[0]) + ItemsWeight(items[1..])
  }

  function MembersWeight(members: seq<Member>): nat
    decreases members
  {
    if members == [] then 0 else 1 + Weight(members[0].value) + MembersWeight(members[1..])
  }

  // One step of each parser, whatever text it reads.

  lemma NotALiteral(t: Text)
    requires t != [] && t[0] !in {110, 116, 102}
    ensures !(NULL_TEXT <= t) && !(TRUE_TEXT <= t) && !(FALSE_TEXT <= t)
  {
  }

  lemma ArrayStep(t: Text, items: seq<Json>, rest: Text)
    requires ParseItems(t) == Some((items, rest)) && t != [] && t[0] != CLOSE_ARRAY
    ensures ParseValue([OPEN_ARRAY] + t) == Some((Arr(items), rest))
  {
    var whole := [OPEN_ARRAY] + t;
    Head(OPEN_ARRAY, t);
    NotALiteral(whole);
    assert whole[1] == t[0];
  }

  lemma EmptyArrayStep(rest: Text)
    ensures ParseValue([OPEN_ARRAY] + ([] + ([CLOSE_ARRAY] + rest))) == Some((Arr([]), rest))
  {
    var t := [OPEN_ARRAY] + ([] + ([CLOSE_ARRAY] + rest));
    assert t[0] == OPEN_ARRAY && t[1] == CLOSE_ARRAY && t[2..] == rest;
  }

  lemma ObjectStep(t: Text, members: seq<Member>, rest: Text)
    requires ParseMembers(t) == Some((members, rest)) && t != [] && t[0] != CLOSE_OBJECT
    ensures ParseValue([OPEN_OBJECT] + t) == Some((Obj(members), rest))
  {
    var whole := [OPEN_OBJECT] + t;
    Head(OPEN_OBJECT, t);
    NotALiteral(whole);
    assert whole[1] == t[0];
  }

  lemma EmptyObjectStep(rest: Text)
    ensures ParseValue([OPEN_OBJECT] + ([] + ([CLOSE_OBJECT] + rest))) == Some((Obj([]), rest))
  {
    var t := [OPEN_OBJECT] + ([] + ([CLOSE_OBJECT] + rest));
    assert t[0] == OPEN_OBJECT && t[1] == CLOSE_OBJECT && t[2..] == rest;
  }

  lemma LastItem(t: Text, v: Json, rest: Text)
    requires ParseValue(t) == Some((v, [CLOSE_ARRAY] + rest))
    ensures ParseItems(t) == Some(([v], rest))
  {
    Head(CLOSE_ARRAY, rest);
  }

  lemma NextItem(t: Text, v: Json, more: Text, vs: seq<Json>, rest: Text)
    requires ParseValue(t) == Some((v, [COMMA] + more)) && ParseItems(more) == Some((vs, rest))
    ensures ParseItems(t) == Some(([v] + vs, rest))
  {
    Head(COMMA, more);
  }

  lemma LastMember(t: Text, m: Member, rest: Text)
    requires ParseMember(t) == Some((m, [CLOSE_OBJECT] + rest))
    ensures ParseMembers(t) == Some(([m], rest))
  {
    Head(CLOSE_OBJECT, rest);
  }

  lemma NextMember(t: Text, m: Member, more: Text, ms: seq<Member>, rest: Text)
    requires ParseMember(t) == Some((m, [COMMA] + more)) && ParseMembers(more) == Some((ms, rest))
    ensures ParseMembers(t) == Some(([m] + ms, rest))
  {
    Head(COMMA, more);
  }

  lemma KeyStep(t: Text, key: Text, value: Text, v: Json, rest: Text)
    requires ParseChars(t) == Some((key, [COLON] + value)) && ParseValue(value) == Some((v, rest))
    ensures ParseMember([QUOTE] + t) == Some((Member(key, v), rest))
  {
    Head(QUOTE, t);
    Head(COLON, value);
  }

  lemma JoinOne(parts: seq<Text>)
    requires |parts| == 1
    ensures Join(parts) == parts[0]
  {
  }

  lemma JoinMore(parts: seq<Text>, end: Text)
    requires |parts| > 1
    ensures Join(parts) + end == parts[0] + ([COMMA] + (Join(parts[1..]) + end))
  {
    Assoc(parts[0] + [COMMA], Join(parts[1..]), end);
    Assoc(parts[0], [COMMA], Join(parts[1..]) + end);
  }

  lemma MemberTextIs(key: Text, value: Text, rest: Text)
    ensures MemberText(key, value) + rest == [QUOTE] + (Escaped(key) + ([QUOTE] + ([COLON] + (value + rest))))
  {
    QuotedText(key, [COLON] + (value + rest));
    Assoc(Quoted(key) + [COLON], value, rest);
    Assoc(Quoted(key), [COLON], value + rest);
  }

  lemma Bracketed(open: Unit, inner: Text, close: Unit, rest: Text)
    ensures ([open] + inner + [close]) + rest == [open] + (inner + ([close] + rest))
  {
  }

  lemma {:induction false} PlainParses(v: Json, rest: Text)
    requires TokensOk(v) && Ends(rest)
    ensures ParseValue(Plain(v) + rest) == Some((v, rest))
    decreases Weight(v), 0
  {
    match v
    case Null => assert (NULL_TEXT + rest)[4..] == rest;
    case Bool(b) => BoolParses(b, rest);
    case Num(token) => TokenParses(token, rest);
    case Str(s) => QuotedParses(s, rest);
    case Arr(items) => ArrayParses(items, rest);
    case Obj(members) => ObjectParses(members, rest);
  }

  lemma {:induction false} ArrayParses(items: seq<Json>, rest: Text)
    requires forall i :: 0 <= i < |items| ==> TokensOk(items[i])
    ensures ParseValue(Plain(Arr(items)) + rest) == Some((Arr(items), rest))
    decreases ItemsWeight(items), 2
  {
    assert Plain(Arr(items)) == [OPEN_ARRAY] + Join(Plains(items)) + [CLOSE_ARRAY];
    Bracketed(OPEN_ARRAY, Join(Plains(items)), CLOSE_ARRAY, rest);
    if items == [] {
      EmptyArrayStep(rest);
    } else {
      ItemsParse(items, rest);
      JoinStarts(items);
      ArrayStep(Join(Plains(items)) + ([CLOSE_ARRAY] + rest), items, rest);
    }
  }

  lemma {:induction false} ObjectParses(members: seq<Member>, rest: Text)
    requires forall i :: 0 <= i < |members| ==> TokensOk(members[i].value)
    ensures ParseValue(Plain(Obj(members)) + rest) == Some((Obj(members), rest))
    decreases MembersWeight(members), 3
  {
    assert Plain(Obj(members)) == [OPEN_OBJECT] + Join(MemberTexts(members)) + [CLOSE_OBJECT];
    Bracketed(OPEN_OBJECT, Join(MemberTexts(members)), CLOSE_OBJECT, rest);
    if members == [] {
      EmptyObjectStep(rest);
    } else {
      MembersParse(members, rest);
      ObjectStep(Join(MemberTexts(members)) + ([CLOSE_OBJECT] + rest), members, rest);
    }
  }

  lemma BoolParses(b: bool, rest: Text)
    ensures ParseValue(Plain(Bool(b)) + rest) == Some((Bool(b), rest))
  {
    assert (TRUE_TEXT + rest)[4..] == rest && (FALSE_TEXT + rest)[5..] == rest;
    assert (TRUE_TEXT + rest)[0] == 116 && (FALSE_TEXT + rest)[0] == 102;
  }

  lemma JoinStarts(items: seq<Json>)
    requires items != [] && TokensOk(items[0])
    ensures Join(Plains(items)) != [] && Join(Plains(items))[0] != CLOSE_ARRAY
  {
    PlainStarts(items[0]);
  }

  lemma {:induction false} ItemsParse(items: seq<Json>, rest: Text)
    requires items != [] && forall i :: 0 <= i < |items| ==> TokensOk(items[i])
    ensures ParseItems(Join(Plains(items)) + ([CLOSE_ARRAY] + rest)) == Some((items, rest))
    decreases ItemsWeight(items), 1
  {
    var t := Join(Plains(items)) + ([CLOSE_ARRAY] + rest);
    if |items| == 1 {
      JoinOne(Plains(items));
      PlainParses(items[0], [CLOSE_ARRAY] + rest);
      LastItem(t, items[0], rest);
      assert items == [items[0]];
    } else {
      var more := Join(Plains(items[1..])) + ([CLOSE_ARRAY] + rest);
      JoinMore(Plains(items), [CLOSE_ARRAY] + rest);
      assert Plains(items)[1..] == Plains(items[1..]);
      ItemsParse(items[1..], rest);
      PlainParses(items[0], [COMMA] + more);
      NextItem(t, items[0], more, items[1..], rest);
      assert items == [items[0]] + items[1..];
    }
  }

  lemma {:induction false} MemberParses(m: Member, rest: Text)
    requires TokensOk(m.value) && Ends(rest)
    ensures ParseMember(MemberText(m.key, Plain(m.value)) + rest) == Some((m, rest))
    decreases Weight(m.value), 1
  {
    var value := Plain(m.value) + rest;
    CharsParse(m.key, [COLON] + value);
    PlainParses(m.value, rest);
    KeyStep(Escaped(m.key) + ([QUOTE] + ([COLON] + value)), m.key, value, m.value, rest);
    MemberTextIs(m.key, Plain(m.value), rest);
  }

  lemma MembersStart(members: seq<Member>, end: Text)
    requires members != []
    ensures Join(MemberTexts(members)) + end != [] && (Join(MemberTexts(members)) + end)[0] == QUOTE
  {
  }

  lemma {:induction false} MembersParse(members: seq<Member>, rest: Text)
    requires members != [] && forall i :: 0 <= i < |members| ==> TokensOk(members[i].value)
    ensures var t := Join(MemberTexts(members)) + ([CLOSE_OBJECT] + rest);
      ParseMembers(t) == Some((members, rest)) && t != [] && t[0] == QUOTE
    decreases MembersWeight(members), 2
  {
    var t := Join(MemberTexts(members)) + ([CLOSE_OBJECT] + rest);
    var m := members[0];
    MembersStart(members, [CLOSE_OBJECT] + rest);
    if |members| == 1 {
      JoinOne(MemberTexts(members));
      MemberParses(m, [CLOSE_OBJECT] + rest);
      LastMember(t, m, rest);
      assert members == [m];
    } else {
      var more := Join(MemberTexts(members[1..])) + ([CLOSE_OBJECT] + rest);
      JoinMore(MemberTexts(members), [CLOSE_OBJECT] + rest);
      assert MemberTexts(members)[1..] == MemberTexts(members[1..]);
      MembersParse(members[1..], rest);
      MemberParses(m, [COMMA] + more);
      NextMember(t, m, more, members[1..], rest);
      assert members == [m] + members[1..];
    }
  }
}
