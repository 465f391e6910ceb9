/** Canonical text is the shortest text of its value: no blank, no escape and no digit could be left out. */
module ShortestText {
  import opened Common
  import opened CanonicalJson
  import opened JsonParser
  import opened CanonicalForm
  import Ordering

  // ------------------------------------------------------------------ the least size of a value's text

  /** The least number of units that write one unit inside a string. */
  function UnitSize(u: Unit): nat {
    if Short(u).Some? then 2 else if u < 32 then 6 else 1
  }

  function StringSize(s: Text): nat {
    if s == [] then 0 else UnitSize(s[0]) + StringSize(s[1..])
  }

  function Commas(n: nat): nat { if n == 0 then 0 else n - 1 }

  function Size(v: Json): nat
    decreases v, 0
  {
    match v
    case Null => 4
    case Bool(b) => if b then 4 else 5
    case Num(n) => |PrintInt(n)|
    case NegZero => 1
    case Str(s) => 2 + StringSize(s)
    case Arr(items) => 2 + ItemsSize(items) + Commas(|items|)
    case Obj(ms) => 2 + MembersSize(ms) + Commas(|ms|)
  }

  function ItemsSize(items: seq<Json>): nat
    decreases items, 1
  {
    if items == [] then 0
    else
      assert items[|items| - 1] in items;
      ItemsSize(items[..|items| - 1]) + Size(items[|items| - 1])
  }

  function MemberSize(m: Member): nat
    decreases m, 1
  {
    3 + StringSize(m.key) + Size(m.value)
  }

  function MembersSize(ms: seq<Member>): nat
    decreases ms, 1
  {
    if ms == [] then 0
    else
      assert ms[|ms| - 1] in ms;
      MembersSize(ms[..|ms| - 1]) + MemberSize(ms[|ms| - 1])
  }

  lemma {:induction false} ItemsFront(v: Json, items: seq<Json>)
    ensures ItemsSize([v] + items) == Size(v) + ItemsSize(items)
  {
    if items == [] {
      assert [v] + items == [v] && [v][..0] == [];
    } else {
      var n := |items| - 1;
      assert ([v] + items)[..n + 1] == [v] + items[..n];
      ItemsFront(v, items[..n]);
    }
  }

  lemma {:induction false} MembersFront(m: Member, ms: seq<Member>)
    ensures MembersSize([m] + ms) == MemberSize(m) + MembersSize(ms)
  {
    if ms == [] {
      assert [m] + ms == [m] && [m][..0] == [];
    } else {
      var n := |ms| - 1;
      assert ([m] + ms)[..n + 1] == [m] + ms[..n];
      MembersFront(m, ms[..n]);
    }
  }

  // ------------------------------------------------------------------ no text is shorter

  lemma SizeOfUnit(u: Unit, s: Text)
    ensures StringSize([u] + s) == UnitSize(u) + StringSize(s)
  {
    assert ([u] + s)[1..] == s;
  }

  lemma EscapeReads(t: Text)
    requires ParseEscape(t).Read?
    ensures var e := ParseEscape(t); UnitSize(e.value) + |e.rest| <= 1 + |t|
  {
  }

  /** Reading a string consumes at least its size and the closing quote. */
  lemma {:induction false} StringReads(t: Text)
    requires ParseString(t).Read?
    ensures var p := ParseString(t); StringSize(p.value) + 1 + |p.rest| <= |t|
    decreases |t|
  {
    if t[0] == QUOTE {
    } else if t[0] == BACKSLASH {
      var e := ParseEscape(t[1..]);
      EscapeReads(t[1..]);
      StringReads(e.rest);
      SizeOfUnit(e.value, ParseString(e.rest).value);
    } else {
      StringReads(t[1..]);
      SizeOfUnit(t[0], ParseString(t[1..]).value);
    }
  }

  lemma {:induction false} DigitsRead(t: Text, n: nat)
    requires n > 0
    ensures var (m, rest) := ParseDigits(t, n); m > 0 && |PrintNat(m)| + |rest| == |PrintNat(n)| + |t|
    decreases |t|
  {
    if t != [] && IsDigit(t[0]) {
      var d := t[0] - 48;
      assert (10 * n + d) / 10 == n;
      DigitsRead(t[1..], 10 * n + d);
    }
  }

  lemma NatReads(t: Text)
    requires ParseNat(t).Read?
    ensures var p := ParseNat(t); |PrintNat(p.value)| + |p.rest| <= |t| && (p.value == 0 ==> |p.rest| < |t|)
  {
    if t[0] != 48 { DigitsRead(t[1..], t[0] - 48); }
  }

  lemma NumberReads(t: Text)
    requires StartsNumber(t) && ParseNumber(t).Read?
    ensures var p := ParseNumber(t); Size(p.value) + |p.rest| <= |t|
  {
    if t[0] == MINUS { NatReads(t[1..]); } else { NatReads(t); }
  }

  lemma WordReads(t: Text)
    requires StartsWord(t) && ParseWord(t).Read?
    ensures var p := ParseWord(t); Size(p.value) + |p.rest| <= |t|
  {
  }

  lemma PutSize(ms: seq<Member>, m: Member)
    ensures MembersSize(Put(ms, m)) <= MembersSize(ms) + MemberSize(m) && |Put(ms, m)| <= |ms| + 1
    ensures |ms| > 0 ==> |Put(ms, m)| > 0
  {
    var k := KeyAt(ms, m.key);
    if k < |ms| {
      ReplaceSize(ms, k, m);
    } else {
      assert (ms + [m])[..|ms|] == ms;
    }
  }

  lemma {:induction false} ReplaceSize(ms: seq<Member>, k: nat, m: Member)
    requires k < |ms|
    ensures MembersSize(ms[k := m]) + MemberSize(ms[k]) == MembersSize(ms) + MemberSize(m)
  {
    var n := |ms| - 1;
    if k < n {
      assert ms[k := m][..n] == ms[..n][k := m];
      ReplaceSize(ms[..n], k, m);
    } else {
      assert ms[k := m][..n] == ms[..n];
    }
  }

  /** A repeated key costs its text and is not printed again. */
  lemma {:induction false} DefinedSize(ms: seq<Member>)
    ensures MembersSize(Defined(ms)) <= MembersSize(ms) && |Defined(ms)| <= |ms|
  {
    if ms != [] {
      DefinedSize(ms[..|ms| - 1]);
      PutSize(Defined(ms[..|ms| - 1]), ms[|ms| - 1]);
    }
  }

  lemma {:induction false} ValueReads(t: Text)
    requires ParseValue(t).Read?
    ensures var p := ParseValue(t); Size(p.value) + |p.rest| <= |t|
    decreases |t|, 4
  {
    if t[0] == QUOTE { StringReads(t[1..]); }
    else if t[0] == 91 { ArrayReads(t); }
    else if t[0] == 123 { ObjectReads(t); }
    else if StartsNumber(t) { NumberReads(t); }
    else { WordReads(t); }
  }

  lemma {:induction false} ArrayReads(t: Text)
    requires t != [] && t[0] == 91 && ParseArray(t).Read?
    ensures var p := ParseArray(t); Size(p.value) + |p.rest| <= |t|
    decreases |t|, 3
  {
    var s := Skip(t[1..]);
    if s != [] && s[0] == 93 { } else { ItemsRead(s); }
  }

  lemma {:induction false} ItemsRead(t: Text)
    requires ParseItems(t).Read?
    ensures var p := ParseItems(t); p.value != [] && ItemsSize(p.value) + |p.value| + |p.rest| <= |t|
    decreases |t|, 5
  {
    var v := ParseValue(t);
    ValueReads(t);
    var s := Skip(v.rest);
    if s[0] == 93 {
      ItemsFront(v.value, []);
      assert [v.value] + [] == [v.value];
    } else {
      ItemsRead(Skip(s[1..]));
      ItemsFront(v.value, ParseItems(Skip(s[1..])).value);
    }
  }

  lemma {:induction false} MemberReads(t: Text)
    requires ParseMember(t).Read?
    ensures var p := ParseMember(t); MemberSize(p.value) + |p.rest| <= |t|
    decreases |t|, 5
  {
    StringReads(t[1..]);
    var s := Skip(ParseString(t[1..]).rest);
    ValueReads(Skip(s[1..]));
  }

  lemma {:induction false} MembersRead(t: Text)
    requires ParseMembers(t).Read?
    ensures var p := ParseMembers(t); p.value != [] && MembersSize(p.value) + |p.value| + |p.rest| <= |t|
    decreases |t|, 6
  {
    var m := ParseMember(t);
    MemberReads(t);
    var s := Skip(m.rest);
    if s[0] == 125 {
      MembersFront(m.value, []);
      assert [m.value] + [] == [m.value];
    } else {
      MembersRead(Skip(s[1..]));
      MembersFront(m.value, ParseMembers(Skip(s[1..])).value);
    }
  }

  lemma {:induction false} ObjectReads(t: Text)
    requires t != [] && t[0] == 123 && ParseObject(t).Read?
    ensures var p := ParseObject(t); Size(p.value) + |p.rest| <= |t|
    decreases |t|, 3
  {
    var s := Skip(t[1..]);
    if s != [] && s[0] == 125 { } else {
      MembersRead(s);
      DefinedSize(ParseMembers(s).value);
    }
  }

  lemma TextIsAtLeast(t: Text)
    requires Parse(t).Some?
    ensures Size(Parse(t).value) <= |t|
  {
    ValueReads(Skip(t));
  }

  // ------------------------------------------------------------------ canonical text has that size

  /** No surrogate stands alone. */
  predicate WellPaired(s: Text) { forall i :: 0 <= i < |s| && Surrogate(s[i]) ==> Paired(s, i) }

  predicate AllPaired(v: Json) {
    match v
    case Str(s) => WellPaired(s)
    case Arr(items) => forall i :: 0 <= i < |items| ==> AllPaired(items[i])
    case Obj(ms) => forall i :: 0 <= i < |ms| ==> WellPaired(ms[i].key) && AllPaired(ms[i].value)
    case _ => true
  }

  lemma PairedRest(s: Text, n: nat)
    requires WellPaired(s) && n <= |s| && n == (if PairFirst(s) then 2 else 1)
    ensures WellPaired(s[n..])
  {
    forall i | 0 <= i < |s| - n && Surrogate(s[n..][i]) ensures Paired(s[n..], i) { PairedLater(s, n, i); }
  }

  lemma {:induction false} EscapedSize(s: Text)
    requires WellPaired(s)
    ensures |Escaped(s)| == StringSize(s)
    decreases |s|
  {
    if s == [] {
    } else if PairFirst(s) {
      PairedRest(s, 2);
      EscapedSize(s[2..]);
      assert s[1..][1..] == s[2..];
    } else {
      PairedRest(s, 1);
      EscapedSize(s[1..]);
      EscapeCases(s[0]);
      assert !Surrogate(s[0]) || Paired(s, 0);
    }
  }

  lemma JoinFirst(part: Text, parts: seq<Text>)
    ensures Join([part] + parts) == if parts == [] then part else part + [COMMA] + Join(parts)
  {
    assert ([part] + parts)[1..] == parts;
  }

  function TextsSize(parts: seq<Text>): nat {
    if parts == [] then 0 else |parts[0]| + TextsSize(parts[1..])
  }

  lemma {:induction false} JoinSize(parts: seq<Text>)
    ensures |Join(parts)| == TextsSize(parts) + Commas(|parts|)
  {
    if parts != [] {
      JoinSize(parts[1..]);
      JoinFirst(parts[0], parts[1..]);
      assert parts == [parts[0]] + parts[1..];
    }
  }

  lemma {:induction false} TextsBack(parts: seq<Text>)
    requires parts != []
    ensures TextsSize(parts) == TextsSize(parts[..|parts| - 1]) + |parts[|parts| - 1]|
  {
    if |parts| > 1 {
      TextsBack(parts[1..]);
      assert parts[1..][..|parts| - 2] == parts[..|parts| - 1][1..];
    }
  }

  lemma {:induction false} ItemTexts(items: seq<Json>, parts: seq<Text>)
    requires |parts| == |items| && forall i :: 0 <= i < |items| ==> |parts[i]| == Size(items[i])
    ensures TextsSize(parts) == ItemsSize(items)
  {
    if items != [] {
      TextsBack(parts);
      ItemTexts(items[..|items| - 1], parts[..|parts| - 1]);
    }
  }

  lemma {:induction false} MemberTexts(ms: seq<Member>, parts: seq<Text>)
    requires |parts| == |ms| && forall i :: 0 <= i < |ms| ==> |parts[i]| == MemberSize(ms[i])
    ensures TextsSize(parts) == MembersSize(ms)
  {
    if ms != [] {
      TextsBack(parts);
      MemberTexts(ms[..|ms| - 1], parts[..|parts| - 1]);
    }
  }

  /** Without lone surrogates, which have to be escaped, a printed value has its least size. */
  lemma {:induction false} PrintedSize(v: Json)
    requires AllPaired(v)
    ensures |Print(v)| == Size(v)
  {
    match v
    case Str(s) => EscapedSize(s);
    case Arr(items) =>
      forall i | 0 <= i < |items| ensures |Print(items[i])| == Size(items[i]) { PrintedSize(items[i]); }
      JoinSize(PrintItems(items));
      ItemTexts(items, PrintItems(items));
    case Obj(ms) =>
      forall i | 0 <= i < |ms| ensures |PrintMembers(ms)[i]| == MemberSize(ms[i]) {
        PrintedSize(ms[i].value);
        EscapedSize(ms[i].key);
      }
      JoinSize(PrintMembers(ms));
      MemberTexts(ms, PrintMembers(ms));
    case _ =>
  }

  // ------------------------------------------------------------------ sorting keeps it

  lemma {:induction false} InsertSize(m: Member, ms: seq<Member>)
    ensures MembersSize(Ordering.Insert(m, ms, MemberKey, KeyLeq)) == MembersSize(ms) + MemberSize(m)
  {
    if ms == [] {
      assert [m][..0] == [];
    } else if KeyLeq(ms[|ms| - 1].key, m.key) {
      assert (ms + [m])[..|ms|] == ms;
    } else {
      var front := Ordering.Insert(m, ms[..|ms| - 1], MemberKey, KeyLeq);
      InsertSize(m, ms[..|ms| - 1]);
      assert (front + [ms[|ms| - 1]])[..|front|] == front;
    }
  }

  lemma {:induction false} SortSize(ms: seq<Member>)
    ensures MembersSize(SortMembers(ms)) == MembersSize(ms)
  {
    if ms != [] {
      SortSize(ms[..|ms| - 1]);
      InsertSize(ms[|ms| - 1], SortMembers(ms[..|ms| - 1]));
    }
  }

  lemma {:induction false} SameItemsSize(a: seq<Json>, b: seq<Json>)
    requires |a| == |b| && forall i :: 0 <= i < |a| ==> Size(a[i]) == Size(b[i])
    ensures ItemsSize(a) == ItemsSize(b)
  {
    if a != [] { SameItemsSize(a[..|a| - 1], b[..|b| - 1]); }
  }

  lemma {:induction false} SameMembersSize(a: seq<Member>, b: seq<Member>)
    requires |a| == |b| && forall i :: 0 <= i < |a| ==> MemberSize(a[i]) == MemberSize(b[i])
    ensures MembersSize(a) == MembersSize(b)
  {
    if a != [] { SameMembersSize(a[..|a| - 1], b[..|b| - 1]); }
  }

  lemma {:induction false} CanonSize(v: Json)
    ensures Size(Canon(v)) == Size(v)
  {
    match v
    case NegZero => assert PrintInt(0) == [48];
    case Arr(items) =>
      forall i | 0 <= i < |items| ensures Size(Canon(items[i])) == Size(items[i]) { CanonSize(items[i]); }
      SameItemsSize(Canon(v).items, items);
    case Obj(ms) =>
      forall i | 0 <= i < |ms| ensures MemberSize(CanonMembers(ms)[i]) == MemberSize(ms[i]) { CanonSize(ms[i].value); }
      SameMembersSize(CanonMembers(ms), ms);
      SortSize(CanonMembers(ms));
      CanonObj(ms);
    case _ =>
  }

  lemma {:induction false} CanonPaired(v: Json)
    requires AllPaired(v)
    ensures AllPaired(Canon(v))
  {
    match v
    case Arr(items) => forall i | 0 <= i < |items| ensures AllPaired(Canon(items[i])) { CanonPaired(items[i]); }
    case Obj(ms) =>
      forall i | 0 <= i < |ms| ensures AllPaired(Canon(ms[i].value)) { CanonPaired(ms[i].value); }
      CanonObj(ms);
      SortedPaired(CanonMembers(ms));
    case _ =>
  }

  lemma SortedPaired(ms: seq<Member>)
    requires forall i :: 0 <= i < |ms| ==> WellPaired(ms[i].key) && AllPaired(ms[i].value)
    ensures AllPaired(Obj(SortMembers(ms)))
  {
    var r := SortMembers(ms);
    forall i | 0 <= i < |r| ensures WellPaired(r[i].key) && AllPaired(r[i].value) { assert r[i] in multiset(ms); }
  }

  // ------------------------------------------------------------------ what a parser returns is well formed

  lemma PutDistinct(ms: seq<Member>, m: Member)
    requires DistinctKeys(ms)
    ensures DistinctKeys(Put(ms, m)) && forall x <- Put(ms, m) :: x == m || x in ms
  {
  }

  lemma {:induction false} DefinedIsDistinct(ms: seq<Member>)
    ensures DistinctKeys(Defined(ms)) && forall x <- Defined(ms) :: x in ms
  {
    if ms != [] {
      DefinedIsDistinct(ms[..|ms| - 1]);
      PutDistinct(Defined(ms[..|ms| - 1]), ms[|ms| - 1]);
    }
  }

  lemma {:induction false} ParsedValue(t: Text)
    requires ParseValue(t).Read?
    ensures WellFormed(ParseValue(t).value)
    decreases |t|, 4
  {
    if t[0] == 91 { ParsedArray(t); }
    else if t[0] == 123 { ParsedObject(t); }
  }

  lemma {:induction false} ParsedArray(t: Text)
    requires t != [] && t[0] == 91 && ParseArray(t).Read?
    ensures WellFormed(ParseArray(t).value)
    decreases |t|, 3
  {
    var s := Skip(t[1..]);
    if s != [] && s[0] == 93 { } else { ParsedItems(s); }
  }

  lemma {:induction false} ParsedItems(t: Text)
    requires ParseItems(t).Read?
    ensures forall v <- ParseItems(t).value :: WellFormed(v)
    decreases |t|, 5
  {
    ParsedValue(t);
    var s := Skip(ParseValue(t).rest);
    if s[0] != 93 { ParsedItems(Skip(s[1..])); }
  }

  lemma {:induction false} ParsedMembers(t: Text)
    requires ParseMembers(t).Read?
    ensures forall m <- ParseMembers(t).value :: WellFormed(m.value)
    decreases |t|, 6
  {
    var m := ParseMember(t);
    ParsedValue(Skip(Skip(ParseString(t[1..]).rest)[1..]));
    var s := Skip(m.rest);
    if s[0] != 125 { ParsedMembers(Skip(s[1..])); }
  }

  lemma {:induction false} ParsedObject(t: Text)
    requires t != [] && t[0] == 123 && ParseObject(t).Read?
    ensures WellFormed(ParseObject(t).value)
    decreases |t|, 3
  {
    var s := Skip(t[1..]);
    if s != [] && s[0] == 125 {
    } else {
      ParsedMembers(s);
      DefinedIsDistinct(ParseMembers(s).value);
    }
  }

  lemma ParsedIsWellFormed(t: Text)
    requires Parse(t).Some?
    ensures WellFormed(Parse(t).value)
  {
    ParsedValue(Skip(t));
  }

  /** No text that parses to the same value is shorter than the canonical one. */
  lemma CanonicalIsShortest(v: Json, t: Text)
    requires WellFormed(v) && AllPaired(v) && Parse(t).Some? && Same(v, Parse(t).value)
    ensures |Serialize(v)| <= |t|
  {
    var w := Parse(t).value;
    ParsedIsWellFormed(t);
    SameIffCanon(v, w);
    SerializeIsPrint(v);
    CanonPaired(v);
    PrintedSize(Canon(v));
    CanonSize(w);
    TextIsAtLeast(t);
  }
}
