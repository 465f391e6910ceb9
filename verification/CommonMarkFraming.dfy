/** The packet parser against the same parser with the standard's fences. */
module CommonMarkFraming {
  import opened Common
  import opened CanonicalJson
  import opened JsonParser
  import opened PacketEnvelope
  import opened PacketRoundTrip
  import opened CommonMark

  predicate StandardOutside(t: Text) { StandardFence(t).Outside? }

  /** The parser with fences as CommonMark defines them. */
  function ParseByStandard(raw: Text, maxDepth: int): Result<Envelope, Error> {
    FindAndRead(StandardOutside, ReaderFor(maxDepth), raw)
  }

  // ------------------------------------------------------------------ lines of concatenated text

  lemma FirstEndInFront(a: Text, b: Text)
    requires a != [] && a[|a| - 1] == LF
    ensures var e := FirstEnd(a);
            e < |a| && FirstEnd(a + b) == e && EndLength(a + b, e) == EndLength(a, e)
            && (a + b)[..e] == a[..e] && (a + b)[e + EndLength(a, e)..] == a[e + EndLength(a, e)..] + b
  {
    var e := FirstEnd(a);
    assert (a + b)[e] == a[e];
    assert forall i :: 0 <= i < e ==> (a + b)[i] == a[i];
    FirstEndIs(a + b, e);
  }

  lemma LinesFront(t: Text, afterCr: bool)
    requires FirstEnd(t) < |t|
    ensures LinesOf(t, afterCr) == [FirstOf(t, afterCr)] + LinesOf(RestOf(t), FirstOf(t, afterCr).beforeCr)
  {
  }

  lemma FrontOfBoth(a: Text, b: Text, afterCr: bool)
    requires a != [] && a[|a| - 1] == LF
    ensures FirstEnd(a) < |a| && FirstEnd(a + b) < |a + b|
    ensures FirstOf(a + b, afterCr) == FirstOf(a, afterCr) && RestOf(a + b) == RestOf(a) + b
  {
    FirstEndInFront(a, b);
  }

  lemma RestEnds(a: Text, afterCr: bool)
    requires a != [] && a[|a| - 1] == LF && FirstEnd(a) < |a|
    ensures RestOf(a) == [] ==> !FirstOf(a, afterCr).beforeCr
    ensures RestOf(a) != [] ==> RestOf(a)[|RestOf(a)| - 1] == LF
  {
    var e := FirstEnd(a);
    if e + EndLength(a, e) < |a| { assert RestOf(a)[|RestOf(a)| - 1] == a[|a| - 1]; }
  }

  /** After a line feed the lines start anew. */
  lemma {:induction false} LinesCarry(a: Text, b: Text, afterCr: bool)
    requires a != [] && a[|a| - 1] == LF
    ensures Splice(LinesOf(a, afterCr), LinesOf(b, false), LinesOf(a + b, afterCr))
    decreases |a|
  {
    FrontOfBoth(a, b, afterCr);
    RestEnds(a, afterCr);
    LinesFront(a, afterCr);
    LinesFront(a + b, afterCr);
    var line, rest := FirstOf(a, afterCr), RestOf(a);
    if rest == [] {
      assert rest + b == b && LinesOf(rest, false) == [EMPTY_LINE];
      SpliceOne(line, LinesOf(b, false));
    } else {
      LinesCarry(rest, b, line.beforeCr);
      SpliceMore(line, LinesOf(rest, line.beforeCr), LinesOf(b, false), LinesOf(rest + b, line.beforeCr));
    }
  }

  /** The lines of a text that ends with its line, whose last is empty, followed by those of another text. */
  predicate Splice(front: seq<Line>, back: seq<Line>, all: seq<Line>) {
    front != [] && front[|front| - 1] == EMPTY_LINE && all == front[..|front| - 1] + back
  }

  lemma SpliceOne(line: Line, back: seq<Line>)
    ensures Splice([line] + [EMPTY_LINE], back, [line] + back)
  {
    assert ([line] + [EMPTY_LINE])[..1] == [line];
  }

  lemma SpliceMore(line: Line, front: seq<Line>, back: seq<Line>, all: seq<Line>)
    requires Splice(front, back, all)
    ensures Splice([line] + front, back, [line] + all)
  {
    assert ([line] + front)[..|front|] == [line] + front[..|front| - 1];
  }

  // ------------------------------------------------------------------ responses on which the two never part

  ghost predicate NoneParts(lines: seq<Line>) { NeverPart(lines, |lines|) }

  lemma SameBefore(lines: seq<Line>, more: seq<Line>, n: nat, i: nat)
    requires i < n <= |lines| && n <= |more| && lines[..n] == more[..n]
    ensures PartsAt(lines, i) == PartsAt(more, i)
  {
    assert lines[..i] == lines[..n][..i] && more[..i] == more[..n][..i];
    assert lines[i] == lines[..n][i] && more[i] == more[..n][i];
  }

  lemma EmptyNeverParts(lines: seq<Line>, i: nat)
    requires i < |lines| && lines[i] == EMPTY_LINE
    ensures !PartsAt(lines, i)
  {
  }

  lemma FrontNeverParts(front: seq<Line>, back: seq<Line>, all: seq<Line>)
    requires Splice(front, back, all) && NoneParts(all)
    ensures NoneParts(front)
  {
    var n := |front| - 1;
    assert all[..n] == front[..n];
    EmptyNeverParts(front, n);
    forall i | 0 <= i < n ensures !PartsAt(front, i) { SameBefore(front, all, n, i); }
  }

  lemma SplitAtLineStart(t: Text, offset: nat)
    requires 0 < offset <= |t| && LineStart(t, offset)
    ensures var a := t[..offset]; a != [] && a[|a| - 1] == LF && a + t[offset..] == t
  {
  }

  lemma SameFencesFor(a: Text)
    requires FenceAfter(a) == StandardFence(a)
    ensures OutsideFence(a) == StandardOutside(a)
  {
  }

  /** At every place where a line can start, the scanner then says what the standard says. */
  lemma SameAtLineStart(t: Text, offset: nat)
    requires NoneParts(LinesOf(t, false)) && offset <= |t| && LineStart(t, offset)
    ensures OutsideFence(t[..offset]) == StandardOutside(t[..offset])
  {
    if offset == 0 {
      NothingOpen();
    } else {
      SplitAtLineStart(t, offset);
      SameAfterFront(t[..offset], t[offset..]);
    }
    SameFencesFor(t[..offset]);
  }

  lemma NothingOpen()
    ensures FenceAfter([]) == Outside && StandardFence([]) == Outside
  {
    EmptyLineIsIdle(Outside);
    assert LinesOf([], false) == [EMPTY_LINE] && [EMPTY_LINE][..0] == [];
    CodeIsScan(Outside, []);
  }

  lemma SameAfterFront(a: Text, b: Text)
    requires a != [] && a[|a| - 1] == LF && NoneParts(LinesOf(a + b, false))
    ensures FenceAfter(a) == StandardFence(a)
  {
    LinesCarry(a, b, false);
    FrontNeverParts(LinesOf(a, false), LinesOf(b, false), LinesOf(a + b, false));
    FencesAgreeIff(a);
  }

  ghost predicate SameScanners(one: Scanner, other: Scanner, t: Text) {
    forall offset: nat :: offset <= |t| && LineStart(t, offset) ==> one(t[..offset]) == other(t[..offset])
  }

  lemma {:induction false} SameOpening(one: Scanner, other: Scanner, t: Text, marker: Text, from: int)
    requires from < |t| && SameScanners(one, other, t)
    ensures FindOpening(one, t, marker, from) == FindOpening(other, t, marker, from)
    decreases from + 1
  {
    if from >= 0 {
      assert Standalone(one, t, from) == Standalone(other, t, from);
      SameOpening(one, other, t, marker, from - 1);
    }
  }

  lemma SameParse(one: Scanner, other: Scanner, read: Reader, t: Text, framing: Framing)
    requires Markers(framing) && EndsWith(t, framing.closing) && SameScanners(one, other, t)
    ensures ParseFramed(one, read, t, framing) == ParseFramed(other, read, t, framing)
  {
    SameOpening(one, other, t, framing.opening, |t| - |framing.closing| - 1);
  }

  /** A response on whose lines the scanner and the standard never part is parsed as the standard has it. */
  lemma ResponsesFollowStandard(raw: Text, maxDepth: int)
    requires NoneParts(LinesOf(RepairSentinel(TrimEnd(raw)), false))
    ensures ParseFinal(raw, maxDepth) == ParseByStandard(raw, maxDepth)
  {
    var t := RepairSentinel(TrimEnd(raw));
    var one: Scanner, other: Scanner := OutsideFence, StandardOutside;
    forall offset: nat | offset <= |t| && LineStart(t, offset) ensures one(t[..offset]) == other(t[..offset]) {
      SameAtLineStart(t, offset);
    }
    BothAreMarkers();
    if PacketFraming(t).Some? { SameParse(one, other, ReaderFor(maxDepth), t, PacketFraming(t).value); }
  }

  // ------------------------------------------------------------------ the framing round trip, by the standard

  lemma {:induction false} StandardScanAppend(a: seq<Line>, b: seq<Line>)
    ensures StandardScan(Outside, a + b) == StandardScan(StandardScan(Outside, a), b)
  {
    if b == [] {
      assert a + b == a;
    } else {
      assert (a + b)[..|a + b| - 1] == a + b[..|b| - 1];
      StandardScanAppend(a, b[..|b| - 1]);
    }
  }

  lemma StandardSplice(front: seq<Line>, back: seq<Line>, all: seq<Line>)
    requires Splice(front, back, all)
    ensures StandardScan(Outside, all) == StandardScan(StandardScan(Outside, front), back)
  {
    var n := |front| - 1;
    StandardScanAppend(front[..n], back);
    EmptyLineIsIdle(StandardScan(Outside, front[..n]));
  }

  /** The standard's fence state, too, composes over line-ended text. */
  lemma StandardCarries(a: Text, b: Text)
    requires LineEnded(a)
    ensures StandardFence(a + b) == StandardScan(StandardFence(a), LinesOf(b, false))
  {
    if a == [] {
      assert a + b == b;
      NothingOpen();
    } else {
      LinesCarry(a, b, false);
      StandardSplice(LinesOf(a, false), LinesOf(b, false), LinesOf(a + b, false));
    }
  }

  lemma PlainLineIsIdle(f: Fence, line: Text)
    requires Plain(line)
    ensures StandardLine(f, Line(line, false, false)) == f
  {
    assert RunOf(line, SPACE) == 0 && line[0..] == line;
  }

  lemma OneLineOf(line: Text, eol: Text)
    requires OneLineText(line) && IsEol(eol)
    ensures LinesOf(line + eol, false) == [Line(line, false, false), EMPTY_LINE]
  {
    var t, e := line + eol, |line|;
    assert t[e] == eol[0] && t[|t| - 1] == LF;
    assert forall i :: 0 <= i < e ==> t[i] == line[i] && line[i] in line;
    FirstEndIs(t, e);
    assert EndLength(t, e) == |eol| && t[..e] == line && t[e + |eol|..] == [];
    LinesFront(t, false);
  }

  lemma LineAdded(a: Text, line: Text, eol: Text)
    requires LineEnded(a) && OneLineText(line) && Plain(line) && IsEol(eol)
    ensures LineEnded(a + (line + eol)) && StandardFence(a + (line + eol)) == StandardFence(a)
  {
    var f, first := StandardFence(a), Line(line, false, false);
    StandardCarries(a, line + eol);
    OneLineOf(line, eol);
    PlainLineIsIdle(f, line);
    EmptyLineIsIdle(f);
    assert [first, EMPTY_LINE][..1] == [first] && [first][..0] == [];
    assert StandardScan(f, [first]) == f;
  }

  lemma MiddleIsStandard(prefix: Text, framing: Framing, eol: Text, s: Text)
    requires LineEnded(prefix) && Markers(framing) && IsEol(eol) && OneLineText(s) && Plain(s)
    ensures StandardOutside(prefix + Middle(framing, eol, s)) == StandardOutside(prefix)
  {
    LineAdded(prefix, framing.opening, eol);
    LineAdded(prefix + (framing.opening + eol), s, eol);
    assert prefix + Middle(framing, eol, s) == prefix + (framing.opening + eol) + (s + eol);
  }

  /** The round trip under the standard: after any line-ended text, a canonically serialized value between its
      markers is read back exactly when the text leaves no fence open. */
  lemma StandardRoundTrip(prefix: Text, framing: Framing, eol: Text, v: Json, ws: Text, maxDepth: int)
    requires LineEnded(prefix) && (framing == DOM_SAFE || framing == LEGACY) && IsEol(eol) && WellFormed(v)
    requires forall u <- ws :: IsTrimmed(u)
    ensures ParseByStandard(Framed(prefix, framing, eol, Serialize(v)) + ws, maxDepth)
            == if StandardOutside(prefix) then Accepted(prefix, Canon(v), Serialize(v), maxDepth) else Err(PacketAmbiguous)
  {
    SerializedIsOneLine(v);
    SerializedHead(v);
    BothAreMarkers();
    MiddleIsStandard(prefix, framing, eol, Serialize(v));
    FramedIsRead(StandardOutside, ReaderFor(maxDepth), prefix, framing, eol, Serialize(v), ws);
    SerializedRead(prefix, eol, v, maxDepth);
  }

  lemma CodeRoundTrip(prefix: Text, framing: Framing, eol: Text, v: Json, ws: Text, maxDepth: int)
    requires LineEnded(prefix) && (framing == DOM_SAFE || framing == LEGACY) && IsEol(eol) && WellFormed(v)
    requires forall u <- ws :: IsTrimmed(u)
    ensures ParseFinal(Framed(prefix, framing, eol, Serialize(v)) + ws, maxDepth)
            == if OutsideFence(prefix) then Accepted(prefix, Canon(v), Serialize(v), maxDepth) else Err(PacketAmbiguous)
  {
    FramingRoundTrip(prefix, framing, eol, v, ws, maxDepth);
  }

  ghost predicate Recovered(t: Text) {
    Recovers(LinesOf(t, false), |LinesOf(t, false)|)
  }

  /** The parser does with a framed value what the standard has it do exactly when, in the text before it, scanner
      and standard meet again after every line at which they part, or both are left with some fence open. */
  lemma FramingFollowsStandardIff(prefix: Text, framing: Framing, eol: Text, v: Json, ws: Text, maxDepth: int)
    requires LineEnded(prefix) && (framing == DOM_SAFE || framing == LEGACY) && IsEol(eol) && WellFormed(v)
    requires forall u <- ws :: IsTrimmed(u)
    ensures var raw := Framed(prefix, framing, eol, Serialize(v)) + ws;
            ParseFinal(raw, maxDepth) == ParseByStandard(raw, maxDepth)
            <==> Recovered(prefix) || (FenceAfter(prefix).Inside? && StandardFence(prefix).Inside?)
  {
    StandardRoundTrip(prefix, framing, eol, v, ws, maxDepth);
    CodeRoundTrip(prefix, framing, eol, v, ws, maxDepth);
    FencesAgreeIff(prefix);
  }

  /** A packet after a line that only the scanner takes for a fence is refused although nothing is open. */
  lemma TickInfoRefusesPacket(v: Json)
    requires WellFormed(v)
    ensures var raw := Framed(TICK_INFO, DOM_SAFE, [LF], Serialize(v));
            ParseFinal(raw, Depth(Canon(v))) == Err(PacketAmbiguous) && ParseByStandard(raw, Depth(Canon(v))).Ok?
  {
    TickInfoDiffers();
    NoTrailing(TICK_INFO, v);
  }

  /** And one inside a fence that follows a carriage return is taken. */
  lemma LoneCrTakesPacket(v: Json)
    requires WellFormed(v)
    ensures var raw := Framed(CR_FENCE, DOM_SAFE, [LF], Serialize(v));
            ParseFinal(raw, Depth(Canon(v))).Ok? && ParseByStandard(raw, Depth(Canon(v))) == Err(PacketAmbiguous)
  {
    LoneCrDiffers();
    NoTrailing(CR_FENCE, v);
  }

  lemma NoTrailing(prefix: Text, v: Json)
    requires LineEnded(prefix) && WellFormed(v)
    ensures var raw, d := Framed(prefix, DOM_SAFE, [LF], Serialize(v)), Depth(Canon(v));
            && ParseFinal(raw, d).Ok? == OutsideFence(prefix)
            && (ParseFinal(raw, d).Err? ==> ParseFinal(raw, d) == Err(PacketAmbiguous))
            && ParseByStandard(raw, d).Ok? == StandardOutside(prefix)
            && (ParseByStandard(raw, d).Err? ==> ParseByStandard(raw, d) == Err(PacketAmbiguous))
  {
    var raw := Framed(prefix, DOM_SAFE, [LF], Serialize(v));
    assert raw + [] == raw;
    StandardRoundTrip(prefix, DOM_SAFE, [LF], v, [], Depth(Canon(v)));
    CodeRoundTrip(prefix, DOM_SAFE, [LF], v, [], Depth(Canon(v)));
  }
}
