/** Canonical JSON (src/domain/canonical-json.js), on text as UTF-16 code units, and the parser that reads it back. */
module CanonicalJson {
  import opened Common
  import Ordering

  type Unit = x: int | 0 <= x < 0x1_0000
  type Text = seq<Unit>

  const QUOTE: Unit := 34
  const BACKSLASH: Unit := 92
  const COMMA: Unit := 44
  const COLON: Unit := 58
  const MINUS: Unit := 45
  const LF: Unit := 10
  const CR: Unit := 13

  /** JSON values. Numbers are integers, with negative zero apart; an object is its members in insertion order. */
  datatype Json = Null | Bool(b: bool) | Num(n: int) | NegZero | Str(s: Text) | Arr(items: seq<Json>) | Obj(members: seq<Member>)
  datatype Member = Member(key: Text, value: Json)

  /** An object has one member a key. */
  predicate DistinctKeys(ms: seq<Member>) {
    forall i, j :: 0 <= i < j < |ms| ==> ms[i].key != ms[j].key
  }

  /** Integers that JavaScript numbers hold and print exactly. */
  predicate IsSafe(n: int) { -0x1F_FFFF_FFFF_FFFF <= n <= 0x1F_FFFF_FFFF_FFFF }

  predicate WellFormed(v: Json) {
    match v
    case Num(n) => IsSafe(n)
    case Arr(items) => forall i :: 0 <= i < |items| ==> WellFormed(items[i])
    case Obj(ms) => DistinctKeys(ms) && forall i :: 0 <= i < |ms| ==> WellFormed(ms[i].value)
    case _ => true
  }

  // ------------------------------------------------------------------ order of keys: Array.prototype.sort

  /** Lexicographic order of code units. */
  predicate KeyLeq(a: Text, b: Text) {
    a == [] || (b != [] && (a[0] < b[0] || (a[0] == b[0] && KeyLeq(a[1..], b[1..]))))
  }

  lemma {:induction false} KeyTotal(a: Text, b: Text)
    ensures KeyLeq(a, b) || KeyLeq(b, a)
    ensures KeyLeq(a, b) && KeyLeq(b, a) ==> a == b
  {
    if a != [] && b != [] {
      KeyTotal(a[1..], b[1..]);
      assert a == [a[0]] + a[1..] && b == [b[0]] + b[1..];
    }
  }

  lemma {:induction false} KeyTransitive(a: Text, b: Text, c: Text)
    requires KeyLeq(a, b) && KeyLeq(b, c)
    ensures KeyLeq(a, c)
  {
    if a != [] && a[0] == b[0] && b[0] == c[0] { KeyTransitive(a[1..], b[1..], c[1..]); }
  }

  lemma KeyOrder()
    ensures Ordering.TotalOrder(KeyLeq)
  {
    forall a, b ensures KeyLeq(a, b) || KeyLeq(b, a) { KeyTotal(a, b); }
    forall a, b | KeyLeq(a, b) && KeyLeq(b, a) ensures a == b { KeyTotal(a, b); }
    forall a, b, c | KeyLeq(a, b) && KeyLeq(b, c) ensures KeyLeq(a, c) { KeyTransitive(a, b, c); }
  }

  function MemberKey(m: Member): Text { m.key }

  function SortMembers(ms: seq<Member>): (r: seq<Member>)
    ensures |r| == |ms| && multiset(r) == multiset(ms)
  {
    Ordering.SortBy(ms, MemberKey, KeyLeq)
  }

  // ------------------------------------------------------------------ printing tokens: JSON.stringify

  function HexDigit(d: int): Unit
    requires 0 <= d < 16
  {
    if d < 10 then 48 + d else 87 + d
  }

  function Hex4(u: Unit): (r: Text)
    ensures |r| == 4
  {
    [HexDigit(u / 0x1000), HexDigit(u / 0x100 % 16), HexDigit(u / 16 % 16), HexDigit(u % 16)]
  }

  predicate IsHigh(u: Unit) { 0xD800 <= u < 0xDC00 }
  predicate IsLow(u: Unit) { 0xDC00 <= u < 0xE000 }

  function EscapeUnit(u: Unit): (r: Text)
    ensures |r| > 0
  {
    if u == QUOTE || u == BACKSLASH then [BACKSLASH, u]
    else if u == 8 then [BACKSLASH, 98]
    else if u == 9 then [BACKSLASH, 116]
    else if u == 10 then [BACKSLASH, 110]
    else if u == 12 then [BACKSLASH, 102]
    else if u == 13 then [BACKSLASH, 114]
    else if u < 32 || IsHigh(u) || IsLow(u) then [BACKSLASH, 117] + Hex4(u)
    else [u]
  }

  /** Surrogate pairs stay as they are; a lone surrogate is escaped. */
  function Escaped(s: Text): Text {
    if s == [] then []
    else if IsHigh(s[0]) && |s| > 1 && IsLow(s[1]) then s[..2] + Escaped(s[2..])
    else EscapeUnit(s[0]) + Escaped(s[1..])
  }

  function PrintString(s: Text): (r: Text) { [QUOTE] + Escaped(s) + [QUOTE] }

  function PrintNat(n: nat): (r: Text)
    ensures |r| > 0
  {
    (if n < 10 then [] else PrintNat(n / 10)) + [48 + n % 10]
  }

  function PrintInt(n: int): Text { if n < 0 then [MINUS] + PrintNat(-n) else PrintNat(n) }

  const NULL_TEXT: Text := [110, 117, 108, 108]
  const TRUE_TEXT: Text := [116, 114, 117, 101]
  const FALSE_TEXT: Text := [102, 97, 108, 115, 101]

  function Join(parts: seq<Text>): Text {
    if parts == [] then [] else if |parts| == 1 then parts[0] else parts[0] + [COMMA] + Join(parts[1..])
  }

  // ------------------------------------------------------------------ serialize

  datatype Entry = Entry(key: Text, text: Text)

  function EntryKey(e: Entry): Text { e.key }

  function EntryText(e: Entry): Text { PrintString(e.key) + [COLON] + e.text }

  function EntryTexts(es: seq<Entry>): seq<Text> {
    seq(|es|, i requires 0 <= i < |es| => EntryText(es[i]))
  }

  function ObjectText(entries: seq<Entry>): Text {
    [123] + Join(EntryTexts(Ordering.SortBy(entries, EntryKey, KeyLeq))) + [125]
  }

  /** serialize: keys sorted by code unit, -0 printed as 0. */
  function Serialize(v: Json): Text {
    match v
    case Null => NULL_TEXT
    case Bool(b) => if b then TRUE_TEXT else FALSE_TEXT
    case Num(n) => PrintInt(n)
    case NegZero => [48]
    case Str(s) => PrintString(s)
    case Arr(items) => [91] + Join(seq(|items|, i requires 0 <= i < |items| => Serialize(items[i]))) + [93]
    case Obj(ms) =>
      var entries := seq(|ms|, i requires 0 <= i < |ms| => Entry(ms[i].key, Serialize(ms[i].value)));
      ObjectText(entries)
  }

  // ------------------------------------------------------------------ canonical values

  /** The value with -0 replaced by 0 and all members sorted. */
  function Canon(v: Json): Json {
    match v
    case NegZero => Num(0)
    case Arr(items) => Arr(seq(|items|, i requires 0 <= i < |items| => Canon(items[i])))
    case Obj(ms) => Obj(SortMembers(seq(|ms|, i requires 0 <= i < |ms| => Member(ms[i].key, Canon(ms[i].value)))))
    case _ => v
  }

  /** Printing members in the order they have. */
  function Print(v: Json): Text {
    match v
    case Null => NULL_TEXT
    case Bool(b) => if b then TRUE_TEXT else FALSE_TEXT
    case Num(n) => PrintInt(n)
    case NegZero => [48]
    case Str(s) => PrintString(s)
    case Arr(items) => [91] + Join(PrintItems(items)) + [93]
    case Obj(ms) => [123] + Join(PrintMembers(ms)) + [125]
  }

  function PrintItems(items: seq<Json>): (r: seq<Text>)
    ensures |r| == |items|
    ensures forall i :: 0 <= i < |items| ==> r[i] == Print(items[i])
  {
    seq(|items|, i requires 0 <= i < |items| => Print(items[i]))
  }

  function PrintMembers(ms: seq<Member>): (r: seq<Text>)
    ensures |r| == |ms|
    ensures forall i :: 0 <= i < |ms| ==> r[i] == PrintString(ms[i].key) + [COLON] + Print(ms[i].value)
  {
    seq(|ms|, i requires 0 <= i < |ms| => PrintString(ms[i].key) + [COLON] + Print(ms[i].value))
  }

  function CanonMembers(ms: seq<Member>): (r: seq<Member>)
    ensures |r| == |ms| && forall i :: 0 <= i < |ms| ==> r[i] == Member(ms[i].key, Canon(ms[i].value))
  {
    seq(|ms|, i requires 0 <= i < |ms| => Member(ms[i].key, Canon(ms[i].value)))
  }

  lemma CanonObj(ms: seq<Member>)
    ensures Canon(Obj(ms)) == Obj(SortMembers(CanonMembers(ms)))
  {
    assert CanonMembers(ms) == seq(|ms|, i requires 0 <= i < |ms| => Member(ms[i].key, Canon(ms[i].value)));
  }

  function EntryOf(m: Member): Entry { Entry(m.key, Print(m.value)) }

  lemma SortedEntries(ms: seq<Member>)
    ensures EntryTexts(Ordering.SortBy(Mapped(CanonMembers(ms), EntryOf), EntryKey, KeyLeq))
            == PrintMembers(SortMembers(CanonMembers(ms)))
  {
    Ordering.SortMapped(CanonMembers(ms), EntryOf, MemberKey, EntryKey, KeyLeq);
  }

  /** Serializing is printing the canonical value. */
  lemma {:induction false} SerializeIsPrint(v: Json)
    ensures Serialize(v) == Print(Canon(v))
  {
    match v
    case Arr(items) =>
      forall i | 0 <= i < |items| ensures Serialize(items[i]) == Print(Canon(items[i])) { SerializeIsPrint(items[i]); }
      assert seq(|items|, i requires 0 <= i < |items| => Serialize(items[i]))
          == PrintItems(seq(|items|, i requires 0 <= i < |items| => Canon(items[i])));
    case Obj(ms) =>
      forall i | 0 <= i < |ms| ensures Serialize(ms[i].value) == Print(Canon(ms[i].value)) { SerializeIsPrint(ms[i].value); }
      var entries := seq(|ms|, i requires 0 <= i < |ms| => Entry(ms[i].key, Serialize(ms[i].value)));
      assert entries == Mapped(CanonMembers(ms), EntryOf);
      SortedEntries(ms);
      CanonObj(ms);
    case _ =>
  }
}
