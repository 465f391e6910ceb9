/** Framing a canonical packet after any text and reading it back. */
module PacketRoundTrip {
  import opened Common
  import opened CanonicalJson
  import opened JsonParser
  import opened PacketEnvelope

  // ------------------------------------------------------------------ serialized text has no control characters

  predicate Printable(t: Text) { forall i :: 0 <= i < |t| ==> t[i] >= 32 }

  lemma {:induction false} NatIsPrintable(n: nat)
    ensures Printable(PrintNat(n))
  {
    if n >= 10 { NatIsPrintable(n / 10); }
  }

  lemma EscapeUnitIsPrintable(u: Unit)
    ensures Printable(EscapeUnit(u))
  {
    if |EscapeUnit(u)| > 2 { HexSum(u); }
  }

  lemma {:induction false} EscapedIsPrintable(s: Text)
    ensures Printable(Escaped(s))
    decreases |s|
  {
    if s != [] {
      if IsHigh(s[0]) && |s| > 1 && IsLow(s[1]) {
        EscapedIsPrintable(s[2..]);
      } else {
        EscapedIsPrintable(s[1..]);
        EscapeUnitIsPrintable(s[0]);
      }
    }
  }

  lemma {:induction false} JoinIsPrintable(parts: seq<Text>)
    requires forall i :: 0 <= i < |parts| ==> Printable(parts[i])
    ensures Printable(Join(parts))
  {
    if |parts| > 1 { JoinIsPrintable(parts[1..]); }
  }

  lemma {:induction false} PrintIsPrintable(v: Json)
    ensures Printable(Print(v))
  {
    match v
    case Num(n) => NatIsPrintable(if n < 0 then -n else n);
    case Str(s) => EscapedIsPrintable(s);
    case Arr(items) =>
      forall i | 0 <= i < |items| ensures Printable(PrintItems(items)[i]) { PrintIsPrintable(items[i]); }
      JoinIsPrintable(PrintItems(items));
    case Obj(ms) =>
      forall i | 0 <= i < |ms| ensures Printable(PrintMembers(ms)[i]) {
        PrintIsPrintable(ms[i].value);
        EscapedIsPrintable(ms[i].key);
      }
      JoinIsPrintable(PrintMembers(ms));
    case _ =>
  }

  /** A serialized value is one line, whatever its strings contain. */
  lemma SerializedIsOneLine(v: Json)
    ensures Printable(Serialize(v)) && LF !in Serialize(v) && CR !in Serialize(v)
  {
    SerializeIsPrint(v);
    PrintIsPrintable(Canon(v));
  }

  // ------------------------------------------------------------------ fences over concatenated text

  predicate LineEnded(t: Text) { t == [] || t[|t| - 1] == LF }

  lemma IndexInFront(a: Text, b: Text)
    ensures IndexOfLf(a) < |a| ==> IndexOfLf(a + b) == IndexOfLf(a)
  {
    var k := IndexOfLf(a);
    if k < |a| {
      assert (a + b)[k] == LF;
      assert forall i :: 0 <= i < k ==> (a + b)[i] == a[i];
    }
  }

  /** Lines of line-ended text followed by more are the lines of both, in turn. */
  lemma {:induction false} FenceCarries(f: Fence, a: Text, b: Text)
    requires LineEnded(a)
    ensures Scan(f, Lines(a + b)) == Scan(Scan(f, Lines(a)), Lines(b))
    decreases |a|
  {
    if a == [] {
      assert a + b == b;
      assert Lines(a) == [[]];
      assert Scan(f, [[]]) == Scan(ScanLine(f, []), []);
    } else {
      var k := IndexOfLf(a);
      IndexInFront(a, b);
      assert (a + b)[..k] == a[..k] && (a + b)[k + 1..] == a[k + 1..] + b;
      assert LineEnded(a[k + 1..]) by { if k + 1 < |a| { assert a[k + 1..][|a| - k - 2] == a[|a| - 1]; } }
      var g := ScanLine(f, DropCr(a[..k]));
      FenceCarries(g, a[k + 1..], b);
      ScanCons(f, DropCr(a[..k]), Lines(a[k + 1..] + b));
      ScanCons(f, DropCr(a[..k]), Lines(a[k + 1..]));
    }
  }

  lemma ScanCons(f: Fence, line: Text, lines: seq<Text>)
    ensures Scan(f, [line] + lines) == Scan(ScanLine(f, line), lines)
  {
    assert ([line] + lines)[1..] == lines;
  }

  lemma PlainLine(f: Fence, line: Text)
    requires Plain(line)
    ensures ScanLine(f, line) == f
  {
    assert line[0..] == line;
  }

  lemma OneLine(f: Fence, line: Text, eol: Text)
    requires LF !in line && CR !in line && Plain(line) && (eol == [LF] || eol == [CR, LF])
    ensures Scan(f, Lines(line + eol)) == f
  {
    var t := line + eol;
    var k := IndexOfLf(t);
    assert k == |t| - 1 by {
      assert t[|t| - 1] == LF;
      assert forall i :: 0 <= i < |line| ==> t[i] == line[i];
    }
    assert t[k + 1..] == [];
    assert DropCr(t[..k]) == line;
    PlainLine(f, line);
    PlainLine(f, []);
    assert Lines(t) == [line] + [[]];
    ScanCons(f, line, [[]]);
    assert Scan(f, [[]]) == Scan(ScanLine(f, []), []);
  }

  // ------------------------------------------------------------------ the framed text

  predicate IsEol(eol: Text) { eol == [LF] || eol == [CR, LF] }

  function Middle(framing: Framing, eol: Text, s: Text): Text { framing.opening + eol + (s + eol) }

  function Framed(prefix: Text, framing: Framing, eol: Text, s: Text): Text {
    prefix + Middle(framing, eol, s) + framing.closing
  }

  lemma {:induction false} TrimTail(t: Text, ws: Text)
    requires t != [] && !IsTrimmed(t[|t| - 1]) && forall u <- ws :: IsTrimmed(u)
    ensures TrimEnd(t + ws) == t
  {
    if ws == [] {
      assert t + ws == t;
    } else {
      assert (t + ws)[..|t + ws| - 1] == t + ws[..|ws| - 1];
      TrimTail(t, ws[..|ws| - 1]);
    }
  }

  lemma EndsWithLast(t: Text, end: Text)
    requires end != [] && EndsWith(t, end)
    ensures t != [] && t[|t| - 1] == end[|end| - 1]
  {
  }

  lemma NotRepaired(t: Text)
    requires t != [] && t[|t| - 1] != BACKSLASH
    ensures RepairSentinel(t) == t
  {
    if EndsWith(t, DOM_SAFE.closing + [BACKSLASH]) { EndsWithLast(t, DOM_SAFE.closing + [BACKSLASH]); }
  }

  lemma FramingFound(t: Text, framing: Framing)
    requires (framing == DOM_SAFE || framing == LEGACY) && EndsWith(t, framing.closing)
    ensures PacketFraming(t) == Some(framing)
  {
    if EndsWith(t, DOM_SAFE.closing) {
      EndsWithLast(t, DOM_SAFE.closing);
      EndsWithLast(t, framing.closing);
    }
  }

  lemma MiddleKeepsFence(f: Fence, framing: Framing, eol: Text, s: Text)
    requires Markers(framing) && IsEol(eol) && OneLineText(s) && Plain(s)
    ensures Scan(f, Lines(Middle(framing, eol, s))) == f
  {
    OneLine(f, framing.opening, eol);
    FenceCarries(f, framing.opening + eol, s + eol);
    OneLine(f, s, eol);
  }

  lemma ClosingPlace(prefix: Text, framing: Framing, eol: Text, s: Text)
    requires IsEol(eol)
    ensures var t := Framed(prefix, framing, eol, s);
            var close := |t| - |framing.closing|;
            t[..close] == prefix + Middle(framing, eol, s) && LineStart(t, close)
  {
  }

  lemma MiddleIsOutside(prefix: Text, framing: Framing, eol: Text, s: Text)
    requires LineEnded(prefix) && Markers(framing) && IsEol(eol) && OneLineText(s) && Plain(s)
    ensures OutsideFence(prefix + Middle(framing, eol, s)) <==> OutsideFence(prefix)
  {
    FenceCarries(Outside, prefix, Middle(framing, eol, s));
    MiddleKeepsFence(FenceAfter(prefix), framing, eol, s);
  }

  lemma LineFeedsInMiddle(framing: Framing, eol: Text, s: Text, at: nat)
    requires OneLineText(framing.opening) && IsEol(eol) && OneLineText(s) && at < |Middle(framing, eol, s)| - 1
    requires at != |framing.opening| + |eol| - 1
    ensures Middle(framing, eol, s)[at] != LF
  {
    var m, n := Middle(framing, eol, s), |framing.opening| + |eol|;
    if at < n {
      assert m[at] == (framing.opening + eol)[at];
    } else {
      assert m[at] == (s + eol)[at - n];
    }
  }

  /** Between the opening marker and the closing one, the only line starts are that of the packet and the end. */
  lemma LineStartsInside(prefix: Text, framing: Framing, eol: Text, s: Text, o: nat)
    requires Markers(framing) && IsEol(eol) && OneLineText(s) && s != []
    requires |prefix| < o < |prefix| + |Middle(framing, eol, s)|
    ensures LineStart(Framed(prefix, framing, eol, s), o) ==> Framed(prefix, framing, eol, s)[o] == s[0]
  {
    var t, m, n := Framed(prefix, framing, eol, s), Middle(framing, eol, s), |framing.opening| + |eol|;
    assert t[o - 1] == m[o - 1 - |prefix|] && t[o] == m[o - |prefix|];
    if o - |prefix| != n {
      LineFeedsInMiddle(framing, eol, s, o - 1 - |prefix|);
    } else {
      assert m[n] == (s + eol)[0];
    }
  }

  lemma MarkerHead(t: Text, marker: Text, o: nat)
    requires marker != []
    ensures MarkerAt(t, marker, o) ==> t[o] == marker[0]
  {
    assert MarkerAt(t, marker, o) ==> t[o + 0] == marker[0];
  }

  lemma OpeningFound(outside: Scanner, prefix: Text, framing: Framing, eol: Text, s: Text)
    requires LineEnded(prefix) && Markers(framing) && IsEol(eol) && OneLineText(s) && s != [] && s[0] !in [60, 67]
    requires outside(prefix)
    ensures var t := Framed(prefix, framing, eol, s);
            FindOpening(outside, t, framing.opening, |t| - |framing.closing| - 1) == |prefix|
  {
    var t, m := Framed(prefix, framing, eol, s), Middle(framing, eol, s);
    assert t[..|prefix|] == prefix;
    assert OpensAt(outside, t, framing.opening, |prefix|);
    forall o | |prefix| < o < |prefix| + |m| ensures !OpensAt(outside, t, framing.opening, o) {
      LineStartsInside(prefix, framing, eol, s, o);
      MarkerHead(t, framing.opening, o);
    }
    FoundIsLast(outside, t, framing.opening, |prefix| + |m| - 1, |prefix|);
  }

  lemma PacketTextIs(eol: Text, s: Text)
    requires IsEol(eol) && OneLineText(s) && s != []
    ensures PacketText(eol + (s + eol)) == Some(s)
  {
    var inner := s + eol;
    assert (eol + inner)[|eol|..] == inner;
    assert s[|s| - 1] in s && inner[|s| - 1] == s[|s| - 1];
    assert inner[..|s|] == s;
  }

  lemma FramedSlices(prefix: Text, framing: Framing, eol: Text, s: Text)
    ensures var t := Framed(prefix, framing, eol, s);
            && t[..|prefix|] == prefix
            && t[|prefix| + |framing.opening|..|t| - |framing.closing|] == eol + (s + eol)
  {
  }

  /** Where the markers of a text are, and what is around them. */
  predicate Located(outside: Scanner, t: Text, framing: Framing, close: nat, prefix: Text, between: Text) {
    && EndsWith(t, framing.closing) && close == |t| - |framing.closing| && LineStart(t, close)
    && outside(t[..close]) == outside(prefix) && |prefix| + |framing.opening| <= close
    && (outside(prefix) ==> FindOpening(outside, t, framing.opening, close - 1) == |prefix|)
    && t[..|prefix|] == prefix && t[|prefix| + |framing.opening|..close] == between
  }

  lemma LocatedRead(outside: Scanner, read: Reader, t: Text, framing: Framing, close: nat, prefix: Text, between: Text)
    requires Markers(framing) && Located(outside, t, framing, close, prefix, between)
    ensures ParseFramed(outside, read, t, framing) == if outside(prefix) then read(prefix, between) else Err(PacketAmbiguous)
  {
    ParsedFromParts(outside, read, t, framing, close, |prefix|, outside(prefix), read(prefix, between));
  }

  lemma FramedEnds(prefix: Text, framing: Framing, eol: Text, s: Text)
    ensures EndsWith(Framed(prefix, framing, eol, s), framing.closing)
  {
  }

  lemma FramedIsLocated(outside: Scanner, prefix: Text, framing: Framing, eol: Text, s: Text)
    requires LineEnded(prefix) && Markers(framing) && IsEol(eol)
    requires OneLineText(s) && s != [] && s[0] !in [60, 67]
    requires outside(prefix + Middle(framing, eol, s)) == outside(prefix)
    ensures var t := Framed(prefix, framing, eol, s);
            Located(outside, t, framing, |t| - |framing.closing|, prefix, eol + (s + eol))
  {
    FramedEnds(prefix, framing, eol, s);
    ClosingPlace(prefix, framing, eol, s);
    FramedSlices(prefix, framing, eol, s);
    if outside(prefix) { OpeningFound(outside, prefix, framing, eol, s); }
  }

  lemma FramedRead(outside: Scanner, read: Reader, prefix: Text, framing: Framing, eol: Text, s: Text)
    requires LineEnded(prefix) && Markers(framing) && IsEol(eol)
    requires OneLineText(s) && s != [] && s[0] !in [60, 67]
    requires outside(prefix + Middle(framing, eol, s)) == outside(prefix)
    ensures EndsWith(Framed(prefix, framing, eol, s), framing.closing)
    ensures ParseFramed(outside, read, Framed(prefix, framing, eol, s), framing)
            == if outside(prefix) then read(prefix, eol + (s + eol)) else Err(PacketAmbiguous)
  {
    var t := Framed(prefix, framing, eol, s);
    FramedIsLocated(outside, prefix, framing, eol, s);
    LocatedRead(outside, read, t, framing, |t| - |framing.closing|, prefix, eol + (s + eol));
  }

  /** A printed value starts with neither a marker, a fence nor a space. */
  lemma SerializedHead(v: Json)
    ensures Serialize(v) != [] && Plain(Serialize(v)) && Serialize(v)[0] !in [60, 67]
  {
    SerializeIsPrint(v);
    PrintHead(Canon(v));
    match Canon(v)
    case Num(n) => if n > 0 { FirstDigits(n, []); assert PrintNat(n) + [] == PrintNat(n); }
    case _ =>
  }

  lemma FramedIsFound(prefix: Text, framing: Framing, eol: Text, s: Text, ws: Text)
    requires (framing == DOM_SAFE || framing == LEGACY) && forall u <- ws :: IsTrimmed(u)
    ensures var t := Framed(prefix, framing, eol, s);
            TrimEnd(t + ws) == t && t != [] && RepairSentinel(t) == t && EndsWith(t, framing.closing)
            && PacketFraming(t) == Some(framing)
  {
    var t := Framed(prefix, framing, eol, s);
    BothAreMarkers();
    assert t[|t| - 1] == framing.closing[|framing.closing| - 1];
    TrimTail(t, ws);
    NotRepaired(t);
    FramingFound(t, framing);
  }

  lemma FramedIsRead(outside: Scanner, read: Reader, prefix: Text, framing: Framing, eol: Text, s: Text, ws: Text)
    requires LineEnded(prefix) && (framing == DOM_SAFE || framing == LEGACY) && IsEol(eol)
    requires OneLineText(s) && s != [] && s[0] !in [60, 67] && forall u <- ws :: IsTrimmed(u)
    requires outside(prefix + Middle(framing, eol, s)) == outside(prefix)
    ensures FindAndRead(outside, read, Framed(prefix, framing, eol, s) + ws)
            == if outside(prefix) then read(prefix, eol + (s + eol)) else Err(PacketAmbiguous)
  {
    BothAreMarkers();
    FramedIsFound(prefix, framing, eol, s, ws);
    FramedRead(outside, read, prefix, framing, eol, s);
  }

  function Accepted(prefix: Text, v: Json, s: Text, maxDepth: int): Result<Envelope, Error> {
    if maxDepth < 1 then Err(InvalidLimit)
    else if Depth(v) > maxDepth then Err(TooDeep)
    else Ok(Envelope(TrimEnd(prefix), v, s))
  }

  lemma SerializedRead(prefix: Text, eol: Text, v: Json, maxDepth: int)
    requires IsEol(eol) && WellFormed(v)
    ensures ReadPacket(prefix, eol + (Serialize(v) + eol), maxDepth) == Accepted(prefix, Canon(v), Serialize(v), maxDepth)
  {
    SerializedIsOneLine(v);
    SerializedHead(v);
    PacketTextIs(eol, Serialize(v));
    ParseSerialized(v, []);
  }

  lemma SerializedFound(prefix: Text, framing: Framing, eol: Text, v: Json, ws: Text, read: Reader)
    requires LineEnded(prefix) && (framing == DOM_SAFE || framing == LEGACY) && IsEol(eol) && forall u <- ws :: IsTrimmed(u)
    ensures FindAndRead(OutsideFence, read, Framed(prefix, framing, eol, Serialize(v)) + ws)
            == if OutsideFence(prefix) then read(prefix, eol + (Serialize(v) + eol)) else Err(PacketAmbiguous)
  {
    SerializedIsOneLine(v);
    SerializedHead(v);
    BothAreMarkers();
    MiddleIsOutside(prefix, framing, eol, Serialize(v));
    FramedIsRead(OutsideFence, read, prefix, framing, eol, Serialize(v), ws);
  }

  /** The round trip. After any text that ends with its line, decoy markers, whole earlier packets and Markdown
      included, a canonically serialized value between its markers reads back as that value with the text's
      right-trimmed body, if it is within the depth limit; and when the text leaves a fence open, the packet is
      refused whatever it holds. */
  lemma FramingRoundTrip(prefix: Text, framing: Framing, eol: Text, v: Json, ws: Text, maxDepth: int)
    requires LineEnded(prefix) && (framing == DOM_SAFE || framing == LEGACY) && IsEol(eol) && WellFormed(v)
    requires forall u <- ws :: IsTrimmed(u)
    ensures ParseFinal(Framed(prefix, framing, eol, Serialize(v)) + ws, maxDepth)
            == if !OutsideFence(prefix) then Err(PacketAmbiguous)
               else if maxDepth < 1 then Err(InvalidLimit)
               else if Depth(Canon(v)) > maxDepth then Err(TooDeep)
               else Ok(Envelope(TrimEnd(prefix), Canon(v), Serialize(v)))
  {
    SerializedFound(prefix, framing, eol, v, ws, ReaderFor(maxDepth));
    SerializedRead(prefix, eol, v, maxDepth);
  }
}
