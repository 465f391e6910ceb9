/** JSON.parse on integers (RFC 8259), and the round trip with canonical serialization. */
module JsonParser {
  import opened Common
  import opened CanonicalJson
  import Ordering

  datatype Parsed<+T> = Read(value: T, rest: Text) | Bad

  // ------------------------------------------------------------------ tokens

  predicate IsBlank(u: Unit) { u == 32 || u == 9 || u == 10 || u == 13 }

  function Skip(t: Text): (r: Text)
    ensures |r| <= |t| && (r != [] ==> !IsBlank(r[0]))
  {
    if t != [] && IsBlank(t[0]) then Skip(t[1..]) else t
  }

  predicate IsDigit(u: Unit) { 48 <= u <= 57 }

  function HexValue(u: Unit): Option<int> {
    if IsDigit(u) then Some(u - 48)
    else if 97 <= u <= 102 then Some(u - 87)
    else if 65 <= u <= 70 then Some(u - 55)
    else None
  }

  function ParseHex4(t: Text): Option<Unit> {
    if |t| < 4 then None
    else
      var a, b, c, d := HexValue(t[0]), HexValue(t[1]), HexValue(t[2]), HexValue(t[3]);
      if a.Some? && b.Some? && c.Some? && d.Some? then
        var u := 0x1000 * a.value + 0x100 * b.value + 16 * c.value + d.value;
        if 0 <= u < 0x1_0000 then Some(u) else None
      else None
  }

  /** What follows a backslash. */
  function ParseEscape(t: Text): (r: Parsed<Unit>)
    ensures r.Read? ==> |r.rest| < |t|
  {
    if t == [] then Bad
    else if t[0] == QUOTE || t[0] == BACKSLASH || t[0] == 47 then Read(t[0], t[1..])
    else if t[0] == 98 then Read(8, t[1..])
    else if t[0] == 102 then Read(12, t[1..])
    else if t[0] == 110 then Read(10, t[1..])
    else if t[0] == 114 then Read(13, t[1..])
    else if t[0] == 116 then Read(9, t[1..])
    else if t[0] == 117 then
      var u := ParseHex4(t[1..]);
      if u.Some? then Read(u.value, t[5..]) else Bad
    else Bad
  }

  function Prepend(u: Unit, p: Parsed<Text>): Parsed<Text> {
    match p case Bad => Bad case Read(s, rest) => Read([u] + s, rest)
  }

  /** A string after its opening quote. */
  function ParseString(t: Text): (r: Parsed<Text>)
    ensures r.Read? ==> |r.rest| < |t|
    decreases |t|
  {
    if t == [] then Bad
    else if t[0] == QUOTE then Read([], t[1..])
    else if t[0] == BACKSLASH then
      var e := ParseEscape(t[1..]);
      if e.Bad? then Bad else Prepend(e.value, ParseString(e.rest))
    else if t[0] < 32 then Bad
    else Prepend(t[0], ParseString(t[1..]))
  }

  function ParseDigits(t: Text, n: nat): (r: (nat, Text))
    ensures |r.1| <= |t|
  {
    if t != [] && IsDigit(t[0]) then ParseDigits(t[1..], 10 * n + (t[0] - 48)) else (n, t)
  }

  /** Fractions, exponents and integers that are not safe are outside the model. */
  predicate Fractional(t: Text) { t != [] && (t[0] == 46 || t[0] == 69 || t[0] == 101) }

  function ParseNat(t: Text): (r: Parsed<nat>)
    ensures r.Read? ==> |r.rest| < |t|
  {
    if t == [] || !IsDigit(t[0]) then Bad
    else
      var (n, rest) := if t[0] == 48 then (0, t[1..]) else ParseDigits(t[1..], t[0] - 48);
      if Fractional(rest) || !IsSafe(n) then Bad else Read(n, rest)
  }

  predicate StartsNumber(t: Text) { t != [] && (t[0] == MINUS || IsDigit(t[0])) }

  function ParseNumber(t: Text): (r: Parsed<Json>)
    requires StartsNumber(t)
    ensures r.Read? ==> |r.rest| < |t|
  {
    if t[0] == MINUS then
      match ParseNat(t[1..])
      case Bad => Bad
      case Read(n, rest) => Read(if n == 0 then NegZero else Num(0 - n), rest)
    else
      match ParseNat(t)
      case Bad => Bad
      case Read(n, rest) => Read(Num(n), rest)
  }

  predicate StartsWith(t: Text, word: Text) { |word| <= |t| && t[..|word|] == word }

  predicate StartsWord(t: Text) { t != [] && (t[0] == 110 || t[0] == 116 || t[0] == 102) }

  function ParseWord(t: Text): (r: Parsed<Json>)
    requires StartsWord(t)
    ensures r.Read? ==> |r.rest| < |t|
  {
    if StartsWith(t, NULL_TEXT) then Read(Null, t[4..])
    else if StartsWith(t, TRUE_TEXT) then Read(Bool(true), t[4..])
    else if StartsWith(t, FALSE_TEXT) then Read(Bool(false), t[5..])
    else Bad
  }

  // ------------------------------------------------------------------ values

  function KeyAt(ms: seq<Member>, key: Text): (k: nat)
    ensures k <= |ms| && (k < |ms| ==> ms[k].key == key)
    ensures k == |ms| ==> forall i :: 0 <= i < |ms| ==> ms[i].key != key
  {
    if ms == [] || ms[0].key == key then 0
    else
      var k := KeyAt(ms[1..], key);
      assert forall i :: 1 <= i < |ms| ==> ms[i] == ms[1..][i - 1];
      1 + k
  }

  /** Defining a property that exists keeps its place and takes the new value. */
  function Put(ms: seq<Member>, m: Member): seq<Member> {
    var k := KeyAt(ms, m.key);
    if k < |ms| then ms[k := m] else ms + [m]
  }

  function Defined(ms: seq<Member>): seq<Member> {
    if ms == [] then [] else Put(Defined(ms[..|ms| - 1]), ms[|ms| - 1])
  }

  function ParseValue(t: Text): (r: Parsed<Json>)
    ensures r.Read? ==> |r.rest| < |t|
    decreases |t|, 4
  {
    if t == [] then Bad
    else if t[0] == QUOTE then ParseText(t)
    else if t[0] == 91 then ParseArray(t)
    else if t[0] == 123 then ParseObject(t)
    else if StartsNumber(t) then ParseNumber(t)
    else if StartsWord(t) then ParseWord(t)
    else Bad
  }

  function ParseText(t: Text): (r: Parsed<Json>)
    requires t != [] && t[0] == QUOTE
    ensures r.Read? ==> |r.rest| < |t|
  {
    match ParseString(t[1..])
    case Bad => Bad
    case Read(s, rest) => Read(Str(s), rest)
  }

  function ParseArray(t: Text): (r: Parsed<Json>)
    requires t != [] && t[0] == 91
    ensures r.Read? ==> |r.rest| < |t|
    decreases |t|, 3
  {
    var s := Skip(t[1..]);
    if s != [] && s[0] == 93 then Read(Arr([]), s[1..])
    else
      match ParseItems(s)
      case Bad => Bad
      case Read(items, rest) => Read(Arr(items), rest)
  }

  function ParseObject(t: Text): (r: Parsed<Json>)
    requires t != [] && t[0] == 123
    ensures r.Read? ==> |r.rest| < |t|
    decreases |t|, 3
  {
    var s := Skip(t[1..]);
    if s != [] && s[0] == 125 then Read(Obj([]), s[1..])
    else
      match ParseMembers(s)
      case Bad => Bad
      case Read(ms, rest) => Read(Obj(Defined(ms)), rest)
  }

  /** One item or more, up to the closing bracket. */
  function ParseItems(t: Text): (r: Parsed<seq<Json>>)
    ensures r.Read? ==> |r.rest| < |t|
    decreases |t|, 5
  {
    match ParseValue(t)
    case Bad => Bad
    case Read(v, after) =>
      var s := Skip(after);
      if s == [] then Bad
      else if s[0] == 93 then Read([v], s[1..])
      else if s[0] != COMMA then Bad
      else
        match ParseItems(Skip(s[1..]))
        case Bad => Bad
        case Read(items, rest) => Read([v] + items, rest)
  }

  function ParseMember(t: Text): (r: Parsed<Member>)
    ensures r.Read? ==> |r.rest| < |t|
    decreases |t|, 5
  {
    if t == [] || t[0] != QUOTE then Bad
    else
      match ParseString(t[1..])
      case Bad => Bad
      case Read(key, after) =>
        var s := Skip(after);
        if s == [] || s[0] != COLON then Bad
        else
          match ParseValue(Skip(s[1..]))
          case Bad => Bad
          case Read(v, rest) => Read(Member(key, v), rest)
  }

  function ParseMembers(t: Text): (r: Parsed<seq<Member>>)
    ensures r.Read? ==> |r.rest| < |t|
    decreases |t|, 6
  {
    match ParseMember(t)
    case Bad => Bad
    case Read(m, after) =>
      var s := Skip(after);
      if s == [] then Bad
      else if s[0] == 125 then Read([m], s[1..])
      else if s[0] != COMMA then Bad
      else
        match ParseMembers(Skip(s[1..]))
        case Bad => Bad
        case Read(ms, rest) => Read([m] + ms, rest)
  }

  /** JSON.parse: one value, with nothing but whitespace around it. */
  function Parse(t: Text): Option<Json> {
    match ParseValue(Skip(t))
    case Bad => None
    case Read(v, rest) => if Skip(rest) == [] then Some(v) else None
  }

  // ------------------------------------------------------------------ reading tokens back

  lemma HexDigitValue(d: int)
    requires 0 <= d < 16
    ensures HexValue(HexDigit(d)) == Some(d)
  {
  }

  lemma HexSum(u: Unit)
    ensures 0x1000 * (u / 0x1000) + 0x100 * (u / 0x100 % 16) + 16 * (u / 16 % 16) + u % 16 == u
    ensures 0 <= u / 0x1000 < 16
  {
    var a := u / 16;
    var b := a / 16;
    assert u == 16 * a + u % 16 && a == 16 * b + a % 16 && b == 16 * (b / 16) + b % 16;
    assert b == u / 0x100 && b / 16 == u / 0x1000;
  }

  lemma Hex4RoundTrip(u: Unit, rest: Text)
    ensures ParseHex4(Hex4(u) + rest) == Some(u)
  {
    var h, t := Hex4(u), Hex4(u) + rest;
    assert t[0] == h[0] && t[1] == h[1] && t[2] == h[2] && t[3] == h[3];
    HexSum(u);
    HexDigitValue(u / 0x1000);
    HexDigitValue(u / 0x100 % 16);
    HexDigitValue(u / 16 % 16);
    HexDigitValue(u % 16);
  }

  lemma UnitRoundTrip(u: Unit, rest: Text)
    ensures ParseString(EscapeUnit(u) + rest) == Prepend(u, ParseString(rest))
  {
    var t := EscapeUnit(u) + rest;
    if |EscapeUnit(u)| == 1 {
      assert t[1..] == rest;
    } else if |EscapeUnit(u)| == 2 {
      assert t[1..][1..] == rest;
    } else {
      assert t[1..][1..] == Hex4(u) + rest && t[1..][5..] == rest;
      Hex4RoundTrip(u, rest);
    }
  }

  lemma PairRoundTrip(high: Unit, low: Unit, rest: Text)
    requires IsHigh(high) && IsLow(low)
    ensures ParseString([high, low] + rest) == Prepend(high, Prepend(low, ParseString(rest)))
  {
    var t := [high, low] + rest;
    assert t[1..] == [low] + rest && t[1..][1..] == rest;
  }

  lemma EscapedUnit(s: Text, tail: Text)
    requires s != [] && !(IsHigh(s[0]) && |s| > 1 && IsLow(s[1]))
    ensures Escaped(s) + tail == EscapeUnit(s[0]) + (Escaped(s[1..]) + tail)
  {
  }

  lemma PairAppend(s: Text, e: Text, tail: Text)
    requires |s| > 1
    ensures s[..2] + e + tail == [s[0], s[1]] + (e + tail)
  {
  }

  lemma EscapedPair(s: Text, tail: Text)
    requires |s| > 1 && IsHigh(s[0]) && IsLow(s[1])
    ensures Escaped(s) + tail == [s[0], s[1]] + (Escaped(s[2..]) + tail)
  {
    PairAppend(s, Escaped(s[2..]), tail);
  }

  lemma ClosingQuote(rest: Text)
    ensures ParseString([QUOTE] + rest) == Read([], rest)
  {
    assert ([QUOTE] + rest)[1..] == rest;
  }

  predicate PairFirst(s: Text) { |s| > 1 && IsHigh(s[0]) && IsLow(s[1]) }

  lemma UnitCase(s: Text, tail: Text, rest: Text)
    requires s != [] && !PairFirst(s) && ParseString(Escaped(s[1..]) + tail) == Read(s[1..], rest)
    ensures ParseString(Escaped(s) + tail) == Read(s, rest)
  {
    EscapedUnit(s, tail);
    UnitRoundTrip(s[0], Escaped(s[1..]) + tail);
    assert s == [s[0]] + s[1..];
  }

  lemma PairCase(s: Text, tail: Text, rest: Text)
    requires PairFirst(s) && ParseString(Escaped(s[2..]) + tail) == Read(s[2..], rest)
    ensures ParseString(Escaped(s) + tail) == Read(s, rest)
  {
    EscapedPair(s, tail);
    PairRoundTrip(s[0], s[1], Escaped(s[2..]) + tail);
    assert s == [s[0]] + ([s[1]] + s[2..]);
  }

  lemma {:induction false} StringRoundTrip(s: Text, rest: Text)
    ensures ParseString(Escaped(s) + ([QUOTE] + rest)) == Read(s, rest)
    decreases |s|
  {
    if s == [] {
      assert Escaped(s) + ([QUOTE] + rest) == [QUOTE] + rest;
      ClosingQuote(rest);
    } else if PairFirst(s) {
      StringRoundTrip(s[2..], rest);
      PairCase(s, [QUOTE] + rest, rest);
    } else {
      StringRoundTrip(s[1..], rest);
      UnitCase(s, [QUOTE] + rest, rest);
    }
  }

  /** The text after a number does not continue it. */
  predicate Stops(rest: Text) { rest == [] || (!IsDigit(rest[0]) && !Fractional(rest)) }

  lemma DigitsRoundTrip(n: nat, rest: Text)
    requires n > 0 && Stops(rest) && IsSafe(n)
    ensures ParseNat(PrintNat(n) + rest) == Read(n, rest)
  {
    FirstDigits(n, rest);
  }

  lemma {:induction false} FirstDigits(n: nat, rest: Text)
    requires n > 0
    ensures var t := PrintNat(n) + rest;
            IsDigit(t[0]) && t[0] != 48 && ParseDigits(t[1..], t[0] - 48) == ParseDigits(rest, n)
  {
    var t := PrintNat(n) + rest;
    if n < 10 {
      assert t[1..] == rest;
    } else {
      var more := [48 + n % 10] + rest;
      assert t == PrintNat(n / 10) + more;
      FirstDigits(n / 10, more);
      assert more[1..] == rest;
    }
  }

  lemma PositiveRoundTrip(n: int, rest: Text)
    requires Stops(rest) && IsSafe(n) && n > 0
    ensures var t := PrintInt(n) + rest; StartsNumber(t) && ParseNumber(t) == Read(Num(n), rest)
  {
    DigitsRoundTrip(n, rest);
    FirstDigits(n, rest);
  }

  lemma MinusThen(digits: Text, n: nat, rest: Text)
    requires ParseNat(digits) == Read(n, rest) && n > 0
    ensures ParseNumber([MINUS] + digits) == Read(Num(0 - n), rest)
  {
    assert ([MINUS] + digits)[1..] == digits;
  }

  lemma NegativeRoundTrip(n: int, rest: Text)
    requires Stops(rest) && IsSafe(n) && n < 0
    ensures var t := PrintInt(n) + rest; StartsNumber(t) && ParseNumber(t) == Read(Num(n), rest)
  {
    DigitsRoundTrip(-n, rest);
    MinusThen(PrintNat(-n) + rest, -n, rest);
    assert PrintInt(n) + rest == [MINUS] + (PrintNat(-n) + rest);
  }

  lemma ZeroRoundTrip(rest: Text)
    requires Stops(rest)
    ensures var t := PrintInt(0) + rest; StartsNumber(t) && ParseNumber(t) == Read(Num(0), rest)
  {
    assert (PrintInt(0) + rest)[1..] == rest;
  }

  lemma IntRoundTrip(n: int, rest: Text)
    requires Stops(rest) && IsSafe(n)
    ensures var t := PrintInt(n) + rest; StartsNumber(t) && ParseNumber(t) == Read(Num(n), rest)
  {
    if n > 0 { PositiveRoundTrip(n, rest); } else if n < 0 { NegativeRoundTrip(n, rest); } else { ZeroRoundTrip(rest); }
  }

  lemma WordRoundTrip(rest: Text)
    ensures ParseValue(NULL_TEXT + rest) == Read(Null, rest)
    ensures ParseValue(TRUE_TEXT + rest) == Read(Bool(true), rest)
    ensures ParseValue(FALSE_TEXT + rest) == Read(Bool(false), rest)
  {
    assert (NULL_TEXT + rest)[0] == 110 && (TRUE_TEXT + rest)[0] == 116 && (FALSE_TEXT + rest)[0] == 102;
    assert !StartsWith(TRUE_TEXT + rest, NULL_TEXT) && !StartsWith(FALSE_TEXT + rest, NULL_TEXT)
        && !StartsWith(FALSE_TEXT + rest, TRUE_TEXT);
  }

  // ------------------------------------------------------------------ reading values back

  /** A value as canonicalization leaves it, up to the order of members. */
  predicate Clean(v: Json) {
    match v
    case NegZero => false
    case Num(n) => IsSafe(n)
    case Arr(items) => forall i :: 0 <= i < |items| ==> Clean(items[i])
    case Obj(ms) => DistinctKeys(ms) && forall i :: 0 <= i < |ms| ==> Clean(ms[i].value)
    case _ => true
  }

  lemma PrintHead(v: Json)
    ensures Print(v) != [] && !IsBlank(Print(v)[0]) && Print(v)[0] != 93 && Print(v)[0] != 125
  {
    match v
    case Num(n) => if n > 0 { FirstDigits(n, []); assert PrintNat(n) + [] == PrintNat(n); } else if n < 0 { } else { }
    case _ =>
  }

  lemma SkipPrinted(v: Json, rest: Text)
    ensures Skip(Print(v) + rest) == Print(v) + rest
  {
    PrintHead(v);
  }

  lemma {:induction false} DefinedDistinct(ms: seq<Member>)
    requires DistinctKeys(ms)
    ensures Defined(ms) == ms
  {
    if ms != [] {
      DefinedDistinct(ms[..|ms| - 1]);
      assert ms == ms[..|ms| - 1] + [ms[|ms| - 1]];
    }
  }

  lemma JoinStep(parts: seq<Text>, tail: Text)
    requires |parts| > 1
    ensures Join(parts) + tail == parts[0] + ([COMMA] + (Join(parts[1..]) + tail))
  {
  }

  lemma StringValue(s: Text, rest: Text)
    ensures ParseValue(PrintString(s) + rest) == Read(Str(s), rest)
  {
    var t := PrintString(s) + rest;
    assert t[1..] == Escaped(s) + ([QUOTE] + rest);
    StringRoundTrip(s, rest);
  }

  lemma NumberValue(n: int, rest: Text)
    requires Stops(rest) && IsSafe(n)
    ensures ParseValue(PrintInt(n) + rest) == Read(Num(n), rest)
  {
    IntRoundTrip(n, rest);
    if n > 0 { FirstDigits(n, rest); }
  }

  lemma WordValue(v: Json, rest: Text)
    requires v.Null? || v.Bool?
    ensures ParseValue(Print(v) + rest) == Read(v, rest)
  {
    WordRoundTrip(rest);
  }

  /** Any clean value printed in front of anything that does not continue a number is read back exactly. */
  lemma {:induction false} ValueRoundTrip(v: Json, rest: Text)
    requires Clean(v) && Stops(rest)
    ensures ParseValue(Print(v) + rest) == Read(v, rest)
    decreases v, 1, 0
  {
    match v
    case Null => WordValue(v, rest);
    case Bool(b) => WordValue(v, rest);
    case Num(n) => NumberValue(n, rest);
    case Str(s) => StringValue(s, rest);
    case Arr(items) => ArrayRoundTrip(v, rest);
    case Obj(ms) => ObjectRoundTrip(v, rest);
  }

  lemma {:induction false} ArrayRoundTrip(v: Json, rest: Text)
    requires v.Arr? && Clean(v)
    ensures ParseValue(Print(v) + rest) == Read(v, rest)
    decreases v, 0, |v.items| + 1
  {
    var t, tail := Print(v) + rest, [93] + rest;
    assert t[1..] == Join(PrintItems(v.items)) + tail;
    if v.items == [] {
      assert t[1..] == tail && tail[1..] == rest;
    } else {
      ItemsRoundTrip(v, 0, rest);
      assert v.items[0..] == v.items;
      PrintHead(v.items[0]);
      JoinHead(PrintItems(v.items), tail);
    }
  }

  lemma JoinHead(parts: seq<Text>, tail: Text)
    requires parts != [] && parts[0] != []
    ensures Join(parts) + tail != [] && (Join(parts) + tail)[0] == parts[0][0]
  {
  }

  lemma {:induction false} ItemsRoundTrip(v: Json, k: nat, rest: Text)
    requires v.Arr? && Clean(v) && k < |v.items|
    ensures ParseItems(Join(PrintItems(v.items[k..])) + ([93] + rest)) == Read(v.items[k..], rest)
    decreases v, 0, |v.items| - k
  {
    var items, tail := v.items[k..], [93] + rest;
    var parts := PrintItems(items);
    if |items| == 1 {
      ValueRoundTrip(items[0], tail);
      assert tail[1..] == rest && items == [items[0]];
    } else {
      assert parts[1..] == PrintItems(v.items[k + 1..]);
      var more := Join(parts[1..]) + tail;
      JoinStep(parts, tail);
      ValueRoundTrip(items[0], [COMMA] + more);
      ItemsRoundTrip(v, k + 1, rest);
      PrintHead(items[1]);
      JoinHead(parts[1..], tail);
      assert ([COMMA] + more)[1..] == more && Skip(more) == more;
      assert items == [items[0]] + v.items[k + 1..];
    }
  }

  lemma ObjectOpens(body: Text, ms: seq<Member>, rest: Text)
    requires body != [] && !IsBlank(body[0]) && body[0] != 125 && ParseMembers(body) == Read(ms, rest) && DistinctKeys(ms)
    ensures ParseValue([123] + body) == Read(Obj(ms), rest)
  {
    assert ([123] + body)[1..] == body;
    DefinedDistinct(ms);
  }

  lemma EmptyObject(rest: Text)
    ensures ParseValue([123] + ([125] + rest)) == Read(Obj([]), rest)
  {
    var t := [123] + ([125] + rest);
    assert t[1..] == [125] + rest && t[1..][1..] == rest;
  }

  lemma {:induction false} ObjectRoundTrip(v: Json, rest: Text)
    requires v.Obj? && Clean(v)
    ensures ParseValue(Print(v) + rest) == Read(v, rest)
    decreases v, 0, |v.members| + 1
  {
    var tail := [125] + rest;
    var body := Join(PrintMembers(v.members)) + tail;
    assert Print(v) + rest == [123] + body;
    if v.members == [] {
      assert body == tail;
      EmptyObject(rest);
    } else {
      MembersRoundTrip(v, 0, rest);
      assert v.members[0..] == v.members;
      JoinHead(PrintMembers(v.members), tail);
      ObjectOpens(body, v.members, rest);
    }
  }

  lemma MemberRoundTrip(m: Member, rest: Text)
    requires ParseValue(Print(m.value) + rest) == Read(m.value, rest)
    ensures ParseMember(PrintString(m.key) + [COLON] + Print(m.value) + rest) == Read(m, rest)
  {
    var t := PrintString(m.key) + [COLON] + Print(m.value) + rest;
    var after := [COLON] + (Print(m.value) + rest);
    assert t[1..] == Escaped(m.key) + ([QUOTE] + after);
    StringRoundTrip(m.key, after);
    assert after[1..] == Print(m.value) + rest;
    SkipPrinted(m.value, rest);
  }

  lemma MembersCons(t: Text, m: Member, more: Text, ms: seq<Member>, rest: Text)
    requires ParseMember(t) == Read(m, [COMMA] + more) && more != [] && !IsBlank(more[0])
    requires ParseMembers(more) == Read(ms, rest)
    ensures ParseMembers(t) == Read([m] + ms, rest)
  {
    assert ([COMMA] + more)[1..] == more && Skip(more) == more;
  }

  lemma {:induction false} MembersRoundTrip(v: Json, k: nat, rest: Text)
    requires v.Obj? && Clean(v) && k < |v.members|
    ensures ParseMembers(Join(PrintMembers(v.members[k..])) + ([125] + rest)) == Read(v.members[k..], rest)
    decreases v, 0, |v.members| - k
  {
    var ms, tail := v.members[k..], [125] + rest;
    var parts := PrintMembers(ms);
    if |ms| == 1 {
      ValueRoundTrip(ms[0].value, tail);
      MemberRoundTrip(ms[0], tail);
      assert tail[1..] == rest && ms == [ms[0]];
    } else {
      assert parts[1..] == PrintMembers(v.members[k + 1..]);
      var more := Join(parts[1..]) + tail;
      JoinStep(parts, tail);
      ValueRoundTrip(ms[0].value, [COMMA] + more);
      MemberRoundTrip(ms[0], [COMMA] + more);
      MembersRoundTrip(v, k + 1, rest);
      JoinHead(parts[1..], tail);
      MembersCons(Join(parts) + tail, ms[0], more, v.members[k + 1..], rest);
      assert ms == [ms[0]] + v.members[k + 1..];
    }
  }

  lemma {:induction false} CanonIsClean(v: Json)
    requires WellFormed(v)
    ensures Clean(Canon(v))
  {
    match v
    case Arr(items) =>
      forall i | 0 <= i < |items| ensures Clean(Canon(items[i])) { CanonIsClean(items[i]); }
    case Obj(ms) =>
      forall i | 0 <= i < |ms| ensures Clean(Canon(ms[i].value)) { CanonIsClean(ms[i].value); }
      CanonObj(ms);
      SortedClean(CanonMembers(ms));
    case _ =>
  }

  lemma SortedClean(ms: seq<Member>)
    requires DistinctKeys(ms) && forall i :: 0 <= i < |ms| ==> Clean(ms[i].value)
    ensures var r := SortMembers(ms); DistinctKeys(r) && forall i :: 0 <= i < |r| ==> Clean(r[i].value)
  {
    var r := SortMembers(ms);
    forall i | 0 <= i < |r| ensures Clean(r[i].value) { assert r[i] in multiset(ms); }
    SortKeepsDistinct(ms);
  }

  /** Members have distinct keys exactly when no key has two different or repeated members. */
  lemma DistinctByCount(ms: seq<Member>)
    ensures DistinctKeys(ms) <==>
            forall x, y :: x in multiset(ms) && y in multiset(ms) && x.key == y.key ==> x == y && multiset(ms)[x] == 1
  {
    if DistinctKeys(ms) {
      forall x, y | x in multiset(ms) && y in multiset(ms) && x.key == y.key ensures x == y && multiset(ms)[x] == 1 {
        var i :| 0 <= i < |ms| && ms[i] == x;
        var j :| 0 <= j < |ms| && ms[j] == y;
        assert i == j;
        MemberOnce(ms, i);
      }
    }
    forall i, j | 0 <= i < j < |ms| && ms[i].key == ms[j].key ensures ms[i] != ms[j] || multiset(ms)[ms[i]] >= 2 {
      if ms[i] == ms[j] { MemberTwice(ms, i, j); }
    }
  }

  lemma MemberOnce(ms: seq<Member>, k: nat)
    requires k < |ms| && DistinctKeys(ms)
    ensures multiset(ms)[ms[k]] == 1
  {
    var before, after := ms[..k], ms[k + 1..];
    assert ms == before + [ms[k]] + after;
    assert ms[k] !in before && ms[k] !in after;
    assert multiset(ms) == multiset(before) + multiset{ms[k]} + multiset(after);
  }

  lemma MemberTwice(ms: seq<Member>, i: nat, j: nat)
    requires i < j < |ms| && ms[i] == ms[j]
    ensures multiset(ms)[ms[i]] >= 2
  {
    var before, rest := ms[..j], ms[j..];
    assert ms == before + rest;
    assert before[i] in multiset(before) && rest[0] in multiset(rest);
  }

  // ------------------------------------------------------------------ the laws of canonical serialization

  /** Parsing a serialized value gives the canonical value back, also in front of other text. */
  lemma ParseSerialized(v: Json, rest: Text)
    requires WellFormed(v) && Stops(rest)
    ensures ParseValue(Serialize(v) + rest) == Read(Canon(v), rest)
    ensures Parse(Serialize(v)) == Some(Canon(v))
  {
    SerializeIsPrint(v);
    CanonIsClean(v);
    ValueRoundTrip(Canon(v), rest);
    ValueRoundTrip(Canon(v), []);
    assert Serialize(v) + [] == Serialize(v);
    SkipPrinted(Canon(v), []);
  }

  /** Serialization is injective on canonical values, so a hash of it identifies the value up to member order. */
  lemma SerializeIsInjective(v: Json, w: Json)
    requires WellFormed(v) && WellFormed(w)
    ensures Serialize(v) == Serialize(w) <==> Canon(v) == Canon(w)
  {
    ParseSerialized(v, []);
    ParseSerialized(w, []);
    SerializeIsPrint(v);
    SerializeIsPrint(w);
  }

  // ------------------------------------------------------------------ the same value, whatever the order of members

  /** Some member of ns stands for m. */
  ghost predicate HasSame(m: Member, ns: seq<Member>)
    decreases m, 1
  {
    exists j :: 0 <= j < |ns| && ns[j].key == m.key && Same(m.value, ns[j].value)
  }

  /** Equal but for the order of object members, at any depth, and the sign of zero. */
  ghost predicate Same(v: Json, w: Json)
    decreases v, 0
  {
    match v
    case NegZero => w == Num(0) || w == NegZero
    case Num(n) => w == v || (n == 0 && w == NegZero)
    case Arr(items) => w.Arr? && |w.items| == |items| && forall i :: 0 <= i < |items| ==> Same(items[i], w.items[i])
    case Obj(ms) => w.Obj? && |w.members| == |ms| && forall i :: 0 <= i < |ms| ==> HasSame(ms[i], w.members)
    case _ => w == v
  }

  lemma WithoutMember(b: seq<Member>, k: nat)
    requires k < |b| && DistinctKeys(b)
    ensures var rest := b[..k] + b[k + 1..];
            && DistinctKeys(rest) && multiset(b) == multiset(rest) + multiset{b[k]}
            && forall m :: m in b && m.key != b[k].key ==> m in rest
  {
    var rest := b[..k] + b[k + 1..];
    assert b == b[..k] + [b[k]] + b[k + 1..];
    forall i, j | 0 <= i < j < |rest| ensures rest[i].key != rest[j].key {
      assert rest[i] == b[if i < k then i else i + 1] && rest[j] == b[if j < k then j else j + 1];
    }
  }

  lemma {:induction false} SameElements(a: seq<Member>, b: seq<Member>)
    requires DistinctKeys(a) && DistinctKeys(b) && |a| == |b| && forall i :: 0 <= i < |a| ==> a[i] in b
    ensures multiset(a) == multiset(b)
    decreases |a|
  {
    if a != [] {
      var n := |a| - 1;
      var k :| 0 <= k < |b| && b[k] == a[n];
      assert a == a[..n] + [a[n]];
      WithoutMember(b, k);
      SameElements(a[..n], b[..k] + b[k + 1..]);
    }
  }

  lemma {:induction false} SameIffCanon(v: Json, w: Json)
    requires WellFormed(v) && WellFormed(w)
    ensures Same(v, w) <==> Canon(v) == Canon(w)
    decreases v, 1
  {
    match v
    case Arr(items) =>
      if w.Arr? {
        forall i | 0 <= i < |items| && i < |w.items| ensures Same(items[i], w.items[i]) <==> Canon(items[i]) == Canon(w.items[i]) {
          SameIffCanon(items[i], w.items[i]);
        }
        SameArrays(items, w.items);
      }
    case Obj(ms) =>
      if w.Obj? {
        forall i, j | 0 <= i < |ms| && 0 <= j < |w.members|
          ensures Same(ms[i].value, w.members[j].value) <==> Canon(ms[i].value) == Canon(w.members[j].value)
        {
          SameIffCanon(ms[i].value, w.members[j].value);
        }
        SameObjects(ms, w.members);
      }
    case _ =>
  }

  lemma SameArrays(a: seq<Json>, b: seq<Json>)
    ensures Canon(Arr(a)) == Canon(Arr(b)) <==> |a| == |b| && forall i :: 0 <= i < |a| ==> Canon(a[i]) == Canon(b[i])
  {
    var x, y := Canon(Arr(a)).items, Canon(Arr(b)).items;
    assert forall i :: 0 <= i < |a| ==> x[i] == Canon(a[i]);
    assert forall i :: 0 <= i < |b| ==> y[i] == Canon(b[i]);
  }

  lemma CanonKeys(ms: seq<Member>)
    requires DistinctKeys(ms)
    ensures DistinctKeys(CanonMembers(ms)) && Ordering.KeysIdentify(CanonMembers(ms), MemberKey)
  {
    var x := CanonMembers(ms);
    forall i, j | 0 <= i < |x| && 0 <= j < |x| && x[i].key == x[j].key ensures i == j { assert ms[i].key == ms[j].key; }
  }

  lemma SortedAlike(a: seq<Member>, b: seq<Member>)
    requires DistinctKeys(a) && DistinctKeys(b)
    ensures Canon(Obj(a)) == Canon(Obj(b)) <==> multiset(CanonMembers(a)) == multiset(CanonMembers(b))
  {
    CanonObj(a);
    CanonObj(b);
    CanonKeys(a);
    KeyOrder();
    Ordering.SortIsCanonical(CanonMembers(a), CanonMembers(b), MemberKey, KeyLeq);
  }

  lemma HasSameIffIn(m: Member, b: seq<Member>)
    requires forall j :: 0 <= j < |b| ==> (Same(m.value, b[j].value) <==> Canon(m.value) == Canon(b[j].value))
    ensures HasSame(m, b) <==> Member(m.key, Canon(m.value)) in CanonMembers(b)
  {
    var y := CanonMembers(b);
    if HasSame(m, b) {
      var j :| 0 <= j < |b| && b[j].key == m.key && Same(m.value, b[j].value);
      assert y[j] == Member(m.key, Canon(m.value));
    }
    if Member(m.key, Canon(m.value)) in y {
      var j :| 0 <= j < |y| && y[j] == Member(m.key, Canon(m.value));
      assert b[j].key == m.key && Same(m.value, b[j].value);
    }
  }

  lemma SameMultisets(x: seq<Member>, y: seq<Member>)
    requires DistinctKeys(x) && DistinctKeys(y)
    ensures multiset(x) == multiset(y) <==> |x| == |y| && forall i :: 0 <= i < |x| ==> x[i] in y
  {
    if |x| == |y| && forall i :: 0 <= i < |x| ==> x[i] in y { SameElements(x, y); }
    if multiset(x) == multiset(y) {
      Ordering.SameSize(x, y);
      forall i | 0 <= i < |x| ensures x[i] in y { assert x[i] in multiset(y); }
    }
  }

  lemma SameObjects(a: seq<Member>, b: seq<Member>)
    requires DistinctKeys(a) && DistinctKeys(b)
    requires forall i, j :: 0 <= i < |a| && 0 <= j < |b| ==> (Same(a[i].value, b[j].value) <==> Canon(a[i].value) == Canon(b[j].value))
    ensures Canon(Obj(a)) == Canon(Obj(b)) <==> |a| == |b| && forall i :: 0 <= i < |a| ==> HasSame(a[i], b)
  {
    CanonKeys(a);
    CanonKeys(b);
    SortedAlike(a, b);
    SameMultisets(CanonMembers(a), CanonMembers(b));
    forall i | 0 <= i < |a| ensures HasSame(a[i], b) <==> CanonMembers(a)[i] in CanonMembers(b) { HasSameIffIn(a[i], b); }
  }

  /** The law every hash of the repository rests on: two values serialize alike exactly when they are the same
      value up to the order of object members and the sign of zero. */
  lemma SerializeIdentifies(v: Json, w: Json)
    requires WellFormed(v) && WellFormed(w)
    ensures Serialize(v) == Serialize(w) <==> Same(v, w)
  {
    SerializeIsInjective(v, w);
    SameIffCanon(v, w);
  }

  /** Parsing what was serialized and serializing again changes nothing. */
  lemma SerializeIsAFixpoint(v: Json)
    requires WellFormed(v)
    ensures Parse(Serialize(v)).Some? && Same(v, Parse(Serialize(v)).value)
    ensures Serialize(Parse(Serialize(v)).value) == Serialize(v)
  {
    ParseSerialized(v, []);
    CanonIsClean(v);
    CleanIsWellFormed(Canon(v));
    CanonIsStable(v);
    SameIffCanon(v, Canon(v));
    SerializeIsInjective(v, Canon(v));
  }

  lemma {:induction false} CleanIsWellFormed(v: Json)
    requires Clean(v)
    ensures WellFormed(v)
  {
    match v
    case Arr(items) => forall i | 0 <= i < |items| ensures WellFormed(items[i]) { CleanIsWellFormed(items[i]); }
    case Obj(ms) => forall i | 0 <= i < |ms| ensures WellFormed(ms[i].value) { CleanIsWellFormed(ms[i].value); }
    case _ =>
  }

  lemma {:induction false} CanonIsStable(v: Json)
    requires WellFormed(v)
    ensures Canon(Canon(v)) == Canon(v)
  {
    match v
    case Arr(items) =>
      forall i | 0 <= i < |items| ensures Canon(Canon(items[i])) == Canon(items[i]) { CanonIsStable(items[i]); }
    case Obj(ms) =>
      forall i | 0 <= i < |ms| ensures Canon(Canon(ms[i].value)) == Canon(ms[i].value) { CanonIsStable(ms[i].value); }
      StableMembers(ms);
    case _ =>
  }

  lemma SortKeepsDistinct(ms: seq<Member>)
    requires DistinctKeys(ms)
    ensures DistinctKeys(SortMembers(ms))
  {
    DistinctByCount(ms);
    DistinctByCount(SortMembers(ms));
  }

  lemma SortedIsStable(ms: seq<Member>)
    requires DistinctKeys(ms) && forall i :: 0 <= i < |ms| ==> Canon(Canon(ms[i].value)) == Canon(ms[i].value)
    ensures var r := SortMembers(CanonMembers(ms)); DistinctKeys(r) && CanonMembers(r) == r
  {
    var x := CanonMembers(ms);
    var r := SortMembers(x);
    CanonKeys(ms);
    SortKeepsDistinct(x);
    forall i | 0 <= i < |r| ensures Canon(r[i].value) == r[i].value {
      assert r[i] in multiset(x);
      var k :| 0 <= k < |x| && x[k] == r[i];
    }
  }

  lemma StableMembers(ms: seq<Member>)
    requires DistinctKeys(ms) && forall i :: 0 <= i < |ms| ==> Canon(Canon(ms[i].value)) == Canon(ms[i].value)
    ensures Canon(Canon(Obj(ms))) == Canon(Obj(ms))
  {
    var r := SortMembers(CanonMembers(ms));
    CanonObj(ms);
    SortedIsStable(ms);
    SortedAlike(ms, r);
  }
}
