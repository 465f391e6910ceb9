/** What canonical text looks like, said without the functions that make it (sections 3.2.2 and 3.2.3 of RFC 8785;
    src/domain/canonical-json.js): ascending keys, fixed escapes, plain decimals, and no text that is shorter. */
module CanonicalForm {
  import opened Common
  import opened CanonicalJson
  import opened JsonParser
  import Ordering

  // ------------------------------------------------------------------ order of keys

  /** Up to index k the texts agree, and there a has the smaller code unit. */
  predicate SmallerAt(a: Text, b: Text, k: nat) {
    k < |a| && k < |b| && (forall i :: 0 <= i < k ==> a[i] == b[i]) && a[k] < b[k]
  }

  predicate IsPrefix(a: Text, b: Text) {
    |a| <= |b| && forall i :: 0 <= i < |a| ==> a[i] == b[i]
  }

  /** A proper prefix, or smaller at the first difference. */
  predicate Before(a: Text, b: Text) {
    (|a| < |b| && IsPrefix(a, b)) || exists k: nat :: k < |a| && SmallerAt(a, b, k)
  }

  lemma SmallerShift(a: Text, b: Text)
    requires a != [] && b != [] && a[0] == b[0]
    ensures IsPrefix(a, b) <==> IsPrefix(a[1..], b[1..])
    ensures (exists k: nat :: k < |a| && SmallerAt(a, b, k)) <==> exists k: nat :: k < |a| - 1 && SmallerAt(a[1..], b[1..], k)
  {
    var x, y := a[1..], b[1..];
    if IsPrefix(x, y) {
      forall i | 0 <= i < |a| ensures a[i] == b[i] { if i > 0 { assert x[i - 1] == y[i - 1]; } }
    }
    if k: nat :| k < |a| && SmallerAt(a, b, k) { assert SmallerAt(x, y, k - 1); }
    if k: nat :| k < |a| - 1 && SmallerAt(x, y, k) {
      forall i | 0 <= i < k + 1 ensures a[i] == b[i] { if i > 0 { assert x[i - 1] == y[i - 1]; } }
      assert SmallerAt(a, b, k + 1);
    }
  }

  /** The order keys are sorted by is that of their code units. */
  lemma {:induction false} KeyOrderIs(a: Text, b: Text)
    ensures KeyLeq(a, b) <==> IsPrefix(a, b) || exists k: nat :: k < |a| && SmallerAt(a, b, k)
  {
    if a != [] && b != [] {
      if a[0] == b[0] {
        KeyOrderIs(a[1..], b[1..]);
        SmallerShift(a, b);
      } else if a[0] < b[0] {
        assert SmallerAt(a, b, 0);
      } else {
        forall k: nat | k < |a| ensures !SmallerAt(a, b, k) { }
      }
    }
  }

  /** In every object, at any depth, each key comes before every later one. */
  predicate Ascending(v: Json) {
    match v
    case Arr(items) => forall i :: 0 <= i < |items| ==> Ascending(items[i])
    case Obj(ms) =>
      && (forall i, j :: 0 <= i < j < |ms| ==> Before(ms[i].key, ms[j].key))
      && forall i :: 0 <= i < |ms| ==> Ascending(ms[i].value)
    case _ => true
  }

  lemma DistinctIsBefore(a: Text, b: Text)
    requires KeyLeq(a, b) && a != b
    ensures Before(a, b)
  {
    KeyOrderIs(a, b);
    assert IsPrefix(a, b) && |a| == |b| ==> a == b;
  }

  lemma SortedIsAscending(ms: seq<Member>)
    requires DistinctKeys(ms)
    ensures var r := SortMembers(ms); forall i, j :: 0 <= i < j < |r| ==> Before(r[i].key, r[j].key)
  {
    var r := SortMembers(ms);
    KeyOrder();
    Ordering.SortBySorted(ms, MemberKey, KeyLeq);
    SortKeepsDistinct(ms);
    forall i, j | 0 <= i < j < |r| ensures Before(r[i].key, r[j].key) {
      assert KeyLeq(MemberKey(r[i]), MemberKey(r[j]));
      DistinctIsBefore(r[i].key, r[j].key);
    }
  }

  lemma {:induction false} CanonIsAscending(v: Json)
    requires WellFormed(v)
    ensures Ascending(Canon(v))
  {
    match v
    case Arr(items) => forall i | 0 <= i < |items| ensures Ascending(Canon(items[i])) { CanonIsAscending(items[i]); }
    case Obj(ms) =>
      forall i | 0 <= i < |ms| ensures Ascending(Canon(ms[i].value)) { CanonIsAscending(ms[i].value); }
      CanonObj(ms);
      CanonKeys(ms);
      SortedIsAscending(CanonMembers(ms));
      SortedAscend(CanonMembers(ms));
    case _ =>
  }

  lemma SortedAscend(ms: seq<Member>)
    requires forall i :: 0 <= i < |ms| ==> Ascending(ms[i].value)
    ensures var r := SortMembers(ms); forall i :: 0 <= i < |r| ==> Ascending(r[i].value)
  {
    var r := SortMembers(ms);
    forall i | 0 <= i < |r| ensures Ascending(r[i].value) { assert r[i] in multiset(ms); }
  }

  /** What is printed is the same value with its members in ascending order at every depth, and a parser reads them
      in that order. */
  lemma KeysAscend(v: Json)
    requires WellFormed(v)
    ensures exists w :: Serialize(v) == Print(w) && Same(v, w) && Ascending(w) && Parse(Serialize(v)) == Some(w)
  {
    SerializeIsPrint(v);
    CanonIsAscending(v);
    ParseSerialized(v, []);
    SerializeIsAFixpoint(v);
    assert Serialize(v) == Print(Canon(v)) && Same(v, Canon(v)) && Parse(Serialize(v)) == Some(Canon(v));
  }

  // ------------------------------------------------------------------ escapes

  /** The unit is half of a surrogate pair of the text. */
  predicate Paired(s: Text, i: nat)
    requires i < |s|
  {
    (0xD800 <= s[i] <= 0xDBFF && i + 1 < |s| && 0xDC00 <= s[i + 1] <= 0xDFFF)
    || (0xDC00 <= s[i] <= 0xDFFF && i > 0 && 0xD800 <= s[i - 1] <= 0xDBFF)
  }

  predicate Surrogate(u: Unit) { 0xD800 <= u <= 0xDFFF }

  /** The short escapes: quote, backslash, backspace, tab, line feed, form feed and carriage return. */
  function Short(u: Unit): Option<Unit> {
    match u
    case 34 => Some(34)
    case 92 => Some(92)
    case 8 => Some(98)
    case 9 => Some(116)
    case 10 => Some(110)
    case 12 => Some(102)
    case 13 => Some(114)
    case _ => None
  }

  const HEX: Text := [48, 49, 50, 51, 52, 53, 54, 55, 56, 57, 97, 98, 99, 100, 101, 102]

  ghost predicate InHex(u: Unit, t: Text) {
    exists a: Unit, b: Unit, c: Unit, d: Unit ::
      a < 16 && b < 16 && c < 16 && d < 16 && u == 4096 * a + 256 * b + 16 * c + d
      && t == [92, 117, HEX[a], HEX[b], HEX[c], HEX[d]]
  }

  /** A unit in a string: itself, a short escape, or four lower-case hexadecimal digits. */
  ghost predicate WrittenAs(u: Unit, t: Text) {
    if Short(u).Some? then t == [92, Short(u).value]
    else if u >= 32 && !Surrogate(u) then t == [u]
    else InHex(u, t)
  }

  lemma HexDigitIs(d: int)
    requires 0 <= d < 16
    ensures HexDigit(d) == HEX[d]
  {
  }

  lemma HexWritten(u: Unit)
    ensures InHex(u, [92, 117] + Hex4(u))
  {
    var a: Unit, b: Unit, c: Unit, d: Unit := u / 0x1000, u / 0x100 % 16, u / 16 % 16, u % 16;
    HexSum(u);
    HexDigitIs(a);
    HexDigitIs(b);
    HexDigitIs(c);
    HexDigitIs(d);
    assert [92, 117] + Hex4(u) == [92, 117, HEX[a], HEX[b], HEX[c], HEX[d]];
  }

  lemma EscapeCases(u: Unit)
    ensures EscapeUnit(u) == if Short(u).Some? then [92, Short(u).value]
                             else if u >= 32 && !Surrogate(u) then [u] else [92, 117] + Hex4(u)
  {
  }

  /** Every unit is written as section 3.2.2.2 of RFC 8785 has it. */
  lemma EscapesExactly(u: Unit)
    ensures WrittenAs(u, EscapeUnit(u))
  {
    EscapeCases(u);
    HexWritten(u);
  }

  /** The text is written unit by unit: pairs as they are, everything else as above. */
  ghost predicate StringWrittenAs(s: Text, parts: seq<Text>) {
    |parts| == |s| && forall i :: 0 <= i < |s| ==> if Paired(s, i) then parts[i] == [s[i]] else WrittenAs(s[i], parts[i])
  }

  function Concat(parts: seq<Text>): Text {
    if parts == [] then [] else parts[0] + Concat(parts[1..])
  }

  lemma PairedLater(s: Text, n: nat, i: nat)
    requires n + i < |s| && n == if PairFirst(s) then 2 else 1
    ensures Paired(s, n + i) <==> Paired(s[n..], i)
  {
  }

  lemma WrittenLater(s: Text, n: nat, first: seq<Text>, rest: seq<Text>)
    requires n <= |s| && n == (if PairFirst(s) then 2 else 1) && |first| == n && StringWrittenAs(s[n..], rest)
    requires forall i :: 0 <= i < n ==> if Paired(s, i) then first[i] == [s[i]] else WrittenAs(s[i], first[i])
    ensures StringWrittenAs(s, first + rest)
  {
    var parts := first + rest;
    forall i | 0 <= i < |s| ensures if Paired(s, i) then parts[i] == [s[i]] else WrittenAs(s[i], parts[i]) {
      if i >= n { PairedLater(s, n, i - n); }
    }
  }

  /** So is every printed string, between quotes. */
  lemma {:induction false} StringsAreWritten(s: Text) returns (parts: seq<Text>)
    ensures StringWrittenAs(s, parts) && Escaped(s) == Concat(parts) && PrintString(s) == [34] + Concat(parts) + [34]
    decreases |s|
  {
    if s == [] {
      parts := [];
    } else if PairFirst(s) {
      var rest := StringsAreWritten(s[2..]);
      WrittenLater(s, 2, [[s[0]], [s[1]]], rest);
      ConcatPair([s[0]], [s[1]], rest);
      assert s[..2] == [s[0]] + [s[1]];
      parts := [[s[0]], [s[1]]] + rest;
    } else {
      var rest := StringsAreWritten(s[1..]);
      EscapesExactly(s[0]);
      WrittenLater(s, 1, [EscapeUnit(s[0])], rest);
      ConcatOne(EscapeUnit(s[0]), rest);
      parts := [EscapeUnit(s[0])] + rest;
    }
  }

  lemma ConcatOne(p: Text, rest: seq<Text>)
    ensures Concat([p] + rest) == p + Concat(rest)
  {
  }

  lemma ConcatPair(p: Text, q: Text, rest: seq<Text>)
    ensures Concat([p, q] + rest) == p + q + Concat(rest)
  {
    assert ([p, q] + rest)[1..] == [q] + rest;
    ConcatOne(q, rest);
  }

  // ------------------------------------------------------------------ tokens, spelled out

  predicate Spells(t: Text, s: string) { |t| == |s| && forall i :: 0 <= i < |s| ==> t[i] == s[i] as int }

  lemma TokensSpelled()
    ensures Spells([QUOTE, BACKSLASH, COMMA, COLON, MINUS, LF, CR], "\"\\,:-\n\r")
    ensures Spells(Serialize(Null), "null") && Spells(Serialize(Bool(true)), "true") && Spells(Serialize(Bool(false)), "false")
    ensures Spells(Serialize(NegZero), "0") && Spells(Serialize(Num(0)), "0") && Spells(Serialize(Num(-7)), "-7")
  {
  }

  lemma DigitsSpelled(n: nat)
    requires n < 100
    ensures Spells(PrintNat(n), if n < 10 then ["0123456789"[n]] else ["0123456789"[n / 10], "0123456789"[n % 10]])
  {
  }

  /** Arrays and objects: brackets, commas and colons, and nothing between them. */
  lemma ArraySpelled(v: Json, w: Json)
    ensures Serialize(Arr([v, w])) == ['[' as int] + Serialize(v) + [',' as int] + Serialize(w) + [']' as int]
  {
    var items, texts := [v, w], [Serialize(v), Serialize(w)];
    assert seq(|items|, i requires 0 <= i < |items| => Serialize(items[i])) == texts;
    assert texts[1..] == [Serialize(w)];
    assert Join(texts) == Serialize(v) + [COMMA] + Serialize(w);
  }

  lemma ObjectSpelled(v: Json, key: Text)
    ensures Serialize(Obj([Member(key, v)])) == ['{' as int] + PrintString(key) + [':' as int] + Serialize(v) + ['}' as int]
  {
    var ms := [Member(key, v)];
    var es := seq(|ms|, i requires 0 <= i < |ms| => Entry(ms[i].key, Serialize(ms[i].value)));
    assert es == [Entry(key, Serialize(v))] && es[..0] == [];
    assert Ordering.SortBy(es, EntryKey, KeyLeq) == es;
    assert EntryTexts(es) == [EntryText(es[0])];
  }

  lemma EmptySpelled()
    ensures Spells(Serialize(Arr([])), "[]") && Spells(Serialize(Obj([])), "{}")
  {
    SerializeIsPrint(Arr([]));
    SerializeIsPrint(Obj([]));
    assert Canon(Arr([])).items == [] && PrintItems([]) == [];
    CanonObj([]);
    assert SortMembers([]) == [] && PrintMembers([]) == [];
  }

  // ------------------------------------------------------------------ what a parser also takes

  /** Hexadecimal digits of either case. */
  lemma HexEitherCase(d: int)
    requires 10 <= d < 16
    ensures HexValue('a' as int + d - 10) == Some(d) && HexValue('A' as int + d - 10) == Some(d)
  {
  }

  predicate Blanks(t: Text) { forall u <- t :: u in {' ' as int, '\t' as int, '\n' as int, '\r' as int} }

  lemma {:induction false} SkipBlanks(b: Text, t: Text)
    requires Blanks(b) && (t == [] || !IsBlank(t[0]))
    ensures Skip(b + t) == t
  {
    if b == [] {
      assert b + t == t;
    } else {
      assert b[0] in b && (b + t)[1..] == b[1..] + t;
      assert forall u <- b[1..] :: u in b;
      SkipBlanks(b[1..], t);
    }
  }

  /** Blanks around a value do not matter. */
  lemma ReadsBetweenBlanks(v: Json, b: Text, c: Text)
    requires WellFormed(v) && Blanks(b) && Blanks(c)
    ensures Parse(b + Serialize(v) + c) == Some(Canon(v))
  {
    var t := Serialize(v) + c;
    assert c != [] ==> c[0] in c;
    ParseSerialized(v, c);
    SerializeIsPrint(v);
    CanonIsClean(v);
    SkipPrinted(Canon(v), c);
    assert Skip(t) == t && t != [];
    SkipBlanks(b, t);
    assert b + Serialize(v) + c == b + t;
    SkipBlanks(c, []);
    assert c + [] == c;
  }
}
