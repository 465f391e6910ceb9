/** Fenced code blocks as CommonMark 0.31.2 defines them, and exactly where the packet scanner differs.

    Lines are those of section 2.1 of CommonMark 0.31.2, fences those of section 4.5, at the top level of a
    document: container blocks, indented code and HTML blocks are not modelled. */
module CommonMark {
  import opened Common
  import opened CanonicalJson
  import opened PacketEnvelope
  import opened PacketRoundTrip

  // ------------------------------------------------------------------ section 2.1: lines

  /** The first line feed or carriage return, or the end of the text. */
  function FirstEnd(t: Text): (e: nat)
    ensures e <= |t| && (e < |t| ==> t[e] == LF || t[e] == CR) && forall i :: 0 <= i < e ==> t[i] != LF && t[i] != CR
  {
    if t == [] || t[0] == LF || t[0] == CR then 0
    else
      var e := FirstEnd(t[1..]);
      assert forall i :: 1 <= i <= e ==> t[i] == t[1..][i - 1];
      1 + e
  }

  /** A line feed, a carriage return and a line feed, or a carriage return alone. */
  function EndLength(t: Text, e: nat): (n: nat)
    requires e < |t|
    ensures 1 <= n && e + n <= |t|
  {
    if t[e] == CR && e + 1 < |t| && t[e + 1] == LF then 2 else 1
  }

  predicate LoneCr(t: Text, e: nat)
    requires e < |t|
  {
    t[e] == CR && EndLength(t, e) == 1
  }

  /** A line without its ending; whether the ending before it, and its own, is a carriage return alone. */
  datatype Line = Line(text: Text, afterCr: bool, beforeCr: bool)

  function LinesOf(t: Text, afterCr: bool): seq<Line>
    decreases |t|
  {
    var e := FirstEnd(t);
    if e == |t| then [Line(t, afterCr, false)]
    else [Line(t[..e], afterCr, LoneCr(t, e))] + LinesOf(t[e + EndLength(t, e)..], LoneCr(t, e))
  }

  // ------------------------------------------------------------------ section 4.5: fences

  /** At most three spaces, then exactly n markers, at least three of them. */
  predicate RunAt(line: Text, s: nat, marker: Unit, n: nat) {
    && s <= 3 && n >= 3 && s + n <= |line|
    && (forall i :: 0 <= i < s ==> line[i] == SPACE) && (forall i :: s <= i < s + n ==> line[i] == marker)
    && (s + n < |line| ==> line[s + n] != marker)
  }

  /** An opening fence: the info string after backticks contains no backtick. */
  predicate Opening(line: Text, s: nat, marker: Unit, n: nat) {
    && (marker == TICK || marker == TILDE) && RunAt(line, s, marker, n)
    && (marker == TICK ==> forall i :: s + n <= i < |line| ==> line[i] != TICK)
  }

  /** A closing fence: as long as the opening one at least, nothing after it but spaces and tabs. */
  predicate Closing(line: Text, s: nat, marker: Unit, n: nat, length: nat) {
    && (marker == TICK || marker == TILDE) && RunAt(line, s, marker, n) && n >= length
    && forall i :: s + n <= i < |line| ==> line[i] == TAB || line[i] == SPACE
  }

  /** A backtick fence with a backtick in its info string. */
  predicate TickInfo(line: Text) {
    FenceOf(line).Inside? && FenceOf(line).marker == TICK
    && TICK in line[RunOf(line, SPACE)..][FenceOf(line).length..]
  }

  function Opened(line: Text): Fence { if TickInfo(line) then Outside else FenceOf(line) }

  predicate Closes(f: Fence, line: Text)
    requires f.Inside?
  {
    IsBareFence(line) && FenceOf(line).marker == f.marker && FenceOf(line).length >= f.length
  }

  lemma RunIsExact(t: Text, u: Unit, n: nat)
    requires n <= |t| && (forall i :: 0 <= i < n ==> t[i] == u) && (n < |t| ==> t[n] != u)
    ensures RunOf(t, u) == n
  {
    if n > 0 {
      assert forall i :: 0 <= i < n - 1 ==> t[1..][i] == t[i + 1];
      RunIsExact(t[1..], u, n - 1);
    }
  }

  lemma FenceIsRun(line: Text, s: nat, marker: Unit, n: nat)
    requires (marker == TICK || marker == TILDE) && RunAt(line, s, marker, n)
    ensures RunOf(line, SPACE) == s && FenceOf(line) == Inside(marker, n)
  {
    assert line[s] == marker;
    RunIsExact(line, SPACE, s);
    RunIsExact(line[s..], marker, n);
    if marker == TILDE { RunIsExact(line[s..], TICK, 0); }
  }

  lemma RunIsFence(line: Text)
    requires FenceOf(line).Inside?
    ensures var f := FenceOf(line);
            (f.marker == TICK || f.marker == TILDE) && RunAt(line, RunOf(line, SPACE), f.marker, f.length)
  {
    var s, f := RunOf(line, SPACE), FenceOf(line);
    forall i | s <= i < s + f.length ensures line[i] == f.marker { assert line[i] == line[s..][i - s]; }
  }

  lemma AfterRun(line: Text, s: nat, n: nat)
    requires s + n <= |line|
    ensures line[s..][n..] == line[s + n..]
  {
  }

  /** `Opened` is the standard's rule for opening fences. */
  lemma OpenedIsOpening(line: Text, marker: Unit, n: nat)
    ensures Opened(line) == Inside(marker, n) <==> exists s :: Opening(line, s, marker, n)
  {
    if FenceOf(line) == Inside(marker, n) {
      var s := RunOf(line, SPACE);
      RunIsFence(line);
      AfterRun(line, s, n);
      if Opened(line) == Inside(marker, n) {
        forall i | marker == TICK && s + n <= i < |line| ensures line[i] != TICK { assert line[i] == line[s + n..][i - s - n]; }
        assert Opening(line, s, marker, n);
      }
    }
    forall s | Opening(line, s, marker, n) ensures Opened(line) == Inside(marker, n) {
      FenceIsRun(line, s, marker, n);
      AfterRun(line, s, n);
    }
  }

  /** `Closes` is the standard's rule for closing fences. */
  lemma ClosesIsClosing(f: Fence, line: Text)
    requires f.Inside?
    ensures Closes(f, line) <==> exists s, n :: Closing(line, s, f.marker, n, f.length)
  {
    if Closes(f, line) {
      var s, n := RunOf(line, SPACE), FenceOf(line).length;
      RunIsFence(line);
      AfterRun(line, s, n);
      forall i | s + n <= i < |line| ensures line[i] == TAB || line[i] == SPACE { assert line[i] == line[s + n..][i - s - n]; }
      assert Closing(line, s, f.marker, n, f.length);
    }
    forall s, n | Closing(line, s, f.marker, n, f.length) ensures Closes(f, line) {
      FenceIsRun(line, s, f.marker, n);
      AfterRun(line, s, n);
    }
  }

  function StandardLine(f: Fence, line: Line): Fence {
    if f.Outside? then Opened(line.text) else if Closes(f, line.text) then Outside else f
  }

  function StandardScan(f: Fence, lines: seq<Line>): Fence {
    if lines == [] then f else StandardLine(StandardScan(f, lines[..|lines| - 1]), lines[|lines| - 1])
  }

  /** The fence that the standard has open after the text. */
  function StandardFence(t: Text): Fence { StandardScan(Outside, LinesOf(t, false)) }

  // ------------------------------------------------------------------ the scanner on the standard's lines

  /** The scanner knows no carriage return alone: what follows one belongs to the same line. */
  function CodeLine(f: Fence, line: Line): Fence {
    if line.afterCr then f
    else if f.Outside? then FenceOf(line.text)
    else if Closes(f, line.text) && !line.beforeCr then Outside
    else f
  }

  function CodeScan(f: Fence, lines: seq<Line>): Fence {
    if lines == [] then f else CodeLine(CodeScan(f, lines[..|lines| - 1]), lines[|lines| - 1])
  }

  lemma {:induction false} CodeScanFront(f: Fence, line: Line, rest: seq<Line>)
    ensures CodeScan(f, [line] + rest) == CodeScan(CodeLine(f, line), rest)
  {
    var lines := [line] + rest;
    if rest == [] {
      assert lines[..0] == [];
    } else {
      assert lines[..|lines| - 1] == [line] + rest[..|rest| - 1];
      CodeScanFront(f, line, rest[..|rest| - 1]);
    }
  }

  lemma {:induction false} RunStopsAt(p: Text, u: Unit, v: Unit, rest: Text)
    requires v != u
    ensures RunOf(p + ([v] + rest), u) == RunOf(p, u)
  {
    var t := p + ([v] + rest);
    if p != [] && p[0] == u {
      assert t[1..] == p[1..] + ([v] + rest);
      RunStopsAt(p[1..], u, v, rest);
    }
  }

  /** A carriage return inside a line ends its fence run and spoils it as a closing fence. */
  lemma CrDecides(f: Fence, p: Text, rest: Text)
    ensures ScanLine(f, p + ([CR] + rest)) == CodeLine(f, Line(p, false, true))
  {
    var line, s := p + ([CR] + rest), RunOf(p, SPACE);
    RunStopsAt(p, SPACE, CR, rest);
    assert line[s..] == p[s..] + ([CR] + rest);
    RunStopsAt(p[s..], TICK, CR, rest);
    RunStopsAt(p[s..], TILDE, CR, rest);
    assert FenceOf(line) == FenceOf(p);
    if FenceOf(line).Inside? {
      var n := FenceOf(line).length;
      assert line[s..][n..][|p| - s - n] == line[|p|] == CR;
    }
  }

  lemma LineFeedAfter(t: Text, j: nat)
    requires j <= |t| && LF !in t[..j]
    ensures IndexOfLf(t) == j + IndexOfLf(t[j..])
  {
    var k, m := IndexOfLf(t), IndexOfLf(t[j..]);
    forall i | 0 <= i < j ensures t[i] != LF { assert t[i] == t[..j][i]; }
    assert m < |t| - j ==> t[j + m] == t[j..][m];
    assert forall i :: j <= i < j + m ==> t[i] == t[j..][i - j];
  }

  lemma LinesAt(t: Text, k: nat)
    requires k == IndexOfLf(t) < |t|
    ensures Lines(t) == [DropCr(t[..k])] + Lines(t[k + 1..])
  {
  }

  lemma LineOfAll(t: Text)
    requires LF !in t
    ensures Lines(t) == [t]
  {
  }

  function AfterFeed(t: Text, k: nat): seq<Text>
    requires k <= |t|
  {
    if k == |t| then [] else Lines(t[k + 1..])
  }

  /** The scanner's lines after the first. */
  function Tail(t: Text): seq<Text> { AfterFeed(t, IndexOfLf(t)) }

  lemma TailAt(t: Text)
    ensures Lines(t)[1..] == Tail(t)
  {
    if IndexOfLf(t) < |t| { LinesAt(t, IndexOfLf(t)); }
  }

  lemma SameAfterFeed(t: Text, j: nat, k: nat)
    requires j + k <= |t|
    ensures AfterFeed(t, j + k) == AfterFeed(t[j..], k)
  {
    if j + k < |t| { assert t[j..][k + 1..] == t[j + k + 1..]; }
  }

  lemma SameTail(t: Text, j: nat, rest: Text)
    requires j <= |t| && LF !in t[..j] && rest == t[j..]
    ensures Tail(t) == Tail(rest)
  {
    LineFeedAfter(t, j);
    SameAfterFeed(t, j, IndexOfLf(t[j..]));
  }

  lemma FirstFeed(t: Text)
    ensures var e := FirstEnd(t);
            IndexOfLf(t) >= e && (e < |t| && !LoneCr(t, e) ==> IndexOfLf(t) == e + EndLength(t, e) - 1)
            && (e < |t| && LoneCr(t, e) && IndexOfLf(t) < |t| ==> IndexOfLf(t) > e + 1)
  {
  }

  lemma DropsEnding(t: Text, e: nat, k: nat)
    requires e <= k < |t| && (k == e || (k == e + 1 && t[e] == CR)) && (e > 0 ==> t[e - 1] != CR)
    ensures DropCr(t[..k]) == t[..e]
  {
  }

  lemma FirstLineAtEnd(t: Text)
    requires FirstEnd(t) < |t| && !LoneCr(t, FirstEnd(t))
    ensures Lines(t) == [t[..FirstEnd(t)]] + Lines(t[FirstEnd(t) + EndLength(t, FirstEnd(t))..])
  {
    FirstFeed(t);
    LinesAt(t, IndexOfLf(t));
    DropsEnding(t, FirstEnd(t), IndexOfLf(t));
  }

  /** The first line keeps a carriage return that no line feed follows. */
  lemma FirstLineHas(t: Text)
    requires FirstEnd(t) < |t| && LoneCr(t, FirstEnd(t))
    ensures var line, e := Lines(t)[0], FirstEnd(t); |line| > e && line[..e] == t[..e] && line[e] == CR
  {
    var e, k := FirstEnd(t), IndexOfLf(t);
    FirstFeed(t);
    if k < |t| {
      LinesAt(t, k);
      assert t[..k][..e] == t[..e] && t[..k][e] == CR;
    }
  }

  lemma FirstLineWithCr(f: Fence, t: Text)
    requires FirstEnd(t) < |t| && LoneCr(t, FirstEnd(t))
    ensures ScanLine(f, Lines(t)[0]) == CodeLine(f, Line(t[..FirstEnd(t)], false, true))
  {
    FirstLineHas(t);
    CrDecidesAt(f, Lines(t)[0], FirstEnd(t));
  }

  lemma CrDecidesAt(f: Fence, line: Text, e: nat)
    requires e < |line| && line[e] == CR
    ensures ScanLine(f, line) == CodeLine(f, Line(line[..e], false, true))
  {
    assert line == line[..e] + ([CR] + line[e + 1..]);
    CrDecides(f, line[..e], line[e + 1..]);
  }

  /** A text's first line and the rest of it. */
  function FirstOf(t: Text, afterCr: bool): Line {
    var e := FirstEnd(t);
    Line(t[..e], afterCr, e < |t| && LoneCr(t, e))
  }

  function RestOf(t: Text): (rest: Text)
    requires FirstEnd(t) < |t|
    ensures |rest| < |t|
  {
    t[FirstEnd(t) + EndLength(t, FirstEnd(t))..]
  }

  lemma CodeScanText(f: Fence, t: Text, afterCr: bool)
    ensures var line := FirstOf(t, afterCr); var f' := CodeLine(f, line);
            CodeScan(f, LinesOf(t, afterCr))
            == if FirstEnd(t) == |t| then f' else CodeScan(f', LinesOf(RestOf(t), line.beforeCr))
  {
    var e, line := FirstEnd(t), FirstOf(t, afterCr);
    if e == |t| {
      assert t[..e] == t && [line][..0] == [];
    } else {
      CodeScanFront(f, line, LinesOf(RestOf(t), line.beforeCr));
    }
  }

  lemma ScanFirst(f: Fence, lines: seq<Text>)
    requires lines != []
    ensures Scan(f, lines) == Scan(ScanLine(f, lines[0]), lines[1..])
  {
  }

  lemma TextIsLine(f: Fence, p: Text)
    ensures ScanLine(f, p) == CodeLine(f, Line(p, false, false))
  {
  }

  lemma TailOfWhole(t: Text)
    requires FirstEnd(t) == |t|
    ensures Tail(t) == []
  {
  }

  lemma RestAfterFeed(t: Text)
    requires FirstEnd(t) < |t| && !LoneCr(t, FirstEnd(t))
    ensures IndexOfLf(t) < |t| && t[IndexOfLf(t) + 1..] == RestOf(t)
  {
    FirstFeed(t);
  }

  lemma TailPast(t: Text)
    requires FirstEnd(t) < |t| && !LoneCr(t, FirstEnd(t))
    ensures Tail(t) == Lines(RestOf(t))
  {
    RestAfterFeed(t);
  }

  lemma CrSplits(t: Text)
    requires FirstEnd(t) < |t| && LoneCr(t, FirstEnd(t))
    ensures LF !in t[..FirstEnd(t) + 1] && t[FirstEnd(t) + 1..] == RestOf(t)
  {
    NoFeedIn(t, FirstEnd(t) + 1);
  }

  lemma NoFeedIn(t: Text, n: nat)
    requires n <= |t| && forall i :: 0 <= i < n ==> t[i] != LF
    ensures LF !in t[..n]
  {
  }

  lemma TailCr(t: Text)
    requires FirstEnd(t) < |t| && LoneCr(t, FirstEnd(t))
    ensures Tail(t) == Tail(RestOf(t))
  {
    CrSplits(t);
    SameTail(t, FirstEnd(t) + 1, RestOf(t));
  }

  lemma ScanWhole(f: Fence, t: Text)
    requires FirstEnd(t) == |t|
    ensures Scan(f, Lines(t)) == CodeLine(f, FirstOf(t, false))
  {
    LineOfAll(t);
    assert t[..|t|] == t;
    TextIsLine(f, t);
    ScanFirst(f, [t]);
  }

  lemma ScanPast(f: Fence, t: Text)
    requires FirstEnd(t) < |t| && !LoneCr(t, FirstEnd(t))
    ensures Scan(f, Lines(t)) == Scan(CodeLine(f, FirstOf(t, false)), Lines(RestOf(t)))
  {
    FirstLineAtEnd(t);
    TextIsLine(f, t[..FirstEnd(t)]);
    ScanFirst(f, [t[..FirstEnd(t)]] + Lines(RestOf(t)));
  }

  lemma ScanCr(f: Fence, t: Text)
    requires FirstEnd(t) < |t| && LoneCr(t, FirstEnd(t))
    ensures Scan(f, Lines(t)) == Scan(CodeLine(f, FirstOf(t, false)), Tail(RestOf(t)))
  {
    FirstLineWithCr(f, t);
    TailCr(t);
    TailAt(t);
    ScanFirst(f, Lines(t));
  }

  /** Up to the next line feed nothing changes the scanner's state. */
  lemma {:induction false} CodeSkips(f: Fence, t: Text)
    ensures CodeScan(f, LinesOf(t, true)) == Scan(f, Tail(t))
    decreases |t|
  {
    CodeScanText(f, t, true);
    if FirstEnd(t) == |t| {
      TailOfWhole(t);
    } else if FirstOf(t, true).beforeCr {
      TailCr(t);
      CodeSkips(f, RestOf(t));
    } else {
      TailPast(t);
      CodeIsScan(f, RestOf(t));
    }
  }

  /** On the standard's lines the scanner is `CodeLine`. */
  lemma {:induction false} CodeIsScan(f: Fence, t: Text)
    ensures CodeScan(f, LinesOf(t, false)) == Scan(f, Lines(t))
    decreases |t|
  {
    var line := FirstOf(t, false);
    var f' := CodeLine(f, line);
    CodeScanText(f, t, false);
    if FirstEnd(t) == |t| {
      ScanWhole(f, t);
    } else if line.beforeCr {
      ScanCr(f, t);
      CodeSkips(f', RestOf(t));
    } else {
      ScanPast(f, t);
      CodeIsScan(f', RestOf(t));
    }
  }

  // ------------------------------------------------------------------ where they differ

  /** From one state, the scanner and the standard part: at a backtick fence with a backtick in its info string,
      at a closing fence that ends in a carriage return alone, and at any fence that follows one. */
  predicate Parts(f: Fence, line: Line) {
    if line.afterCr then if f.Outside? then Opened(line.text).Inside? else Closes(f, line.text)
    else if f.Outside? then TickInfo(line.text)
    else line.beforeCr && Closes(f, line.text)
  }

  /** From different states c of the scanner and g of the standard, the two meet. */
  predicate Rejoins(c: Fence, g: Fence, line: Line) {
    if c.Outside? then
      g.Inside? && if line.afterCr then Closes(g, line.text) else FenceOf(line.text) == g && !Closes(g, line.text)
    else if g.Outside? then
      Opened(line.text) == c && (line.afterCr || line.beforeCr || !Closes(c, line.text))
    else
      !line.afterCr && !line.beforeCr && Closes(c, line.text) && Closes(g, line.text)
  }

  lemma BareFenceOpens(line: Text)
    requires IsBareFence(line)
    ensures Opened(line) == FenceOf(line)
  {
  }

  /** Line by line, exactly when the scanner's state becomes the standard's. */
  lemma LineAgreement(c: Fence, g: Fence, line: Line)
    ensures CodeLine(c, line) == StandardLine(g, line) <==> if c == g then !Parts(c, line) else Rejoins(c, g, line)
  {
    if IsBareFence(line.text) { BareFenceOpens(line.text); }
  }

  /** For a line without carriage returns: the only difference is a backtick in a backtick fence's info string. */
  lemma PlainLineAgreement(f: Fence, line: Text)
    ensures ScanLine(f, line) == StandardLine(f, Line(line, false, false)) <==> !(f.Outside? && TickInfo(line))
  {
    LineAgreement(f, f, Line(line, false, false));
  }

  function CodeAt(lines: seq<Line>, i: nat): Fence
    requires i <= |lines|
  {
    CodeScan(Outside, lines[..i])
  }

  function StandardAt(lines: seq<Line>, i: nat): Fence
    requires i <= |lines|
  {
    StandardScan(Outside, lines[..i])
  }

  predicate PartsAt(lines: seq<Line>, i: nat)
    requires i < |lines|
  {
    CodeAt(lines, i) == StandardAt(lines, i) && Parts(StandardAt(lines, i), lines[i])
  }

  predicate RejoinsAt(lines: seq<Line>, i: nat)
    requires i < |lines|
  {
    CodeAt(lines, i) != StandardAt(lines, i) && Rejoins(CodeAt(lines, i), StandardAt(lines, i), lines[i])
  }

  ghost predicate RejoinsLater(lines: seq<Line>, i: nat, n: nat)
    requires n <= |lines|
  {
    exists j :: i < j < n && RejoinsAt(lines, j)
  }

  /** Among the first n lines, each at which the two part is followed by one at which they meet again. */
  ghost predicate Recovers(lines: seq<Line>, n: nat)
    requires n <= |lines|
  {
    forall i :: 0 <= i < n && PartsAt(lines, i) ==> RejoinsLater(lines, i, n)
  }

  lemma StepAgreement(lines: seq<Line>, i: nat)
    requires i < |lines|
    ensures CodeAt(lines, i + 1) == StandardAt(lines, i + 1)
            <==> if CodeAt(lines, i) == StandardAt(lines, i) then !PartsAt(lines, i) else RejoinsAt(lines, i)
  {
    assert lines[..i + 1][..i] == lines[..i];
    LineAgreement(CodeAt(lines, i), StandardAt(lines, i), lines[i]);
  }

  lemma LaterStep(lines: seq<Line>, i: nat, n: nat)
    requires i < n < |lines|
    ensures RejoinsLater(lines, i, n + 1) <==> RejoinsAt(lines, n) || RejoinsLater(lines, i, n)
  {
    if RejoinsLater(lines, i, n) {
      var j :| i < j < n && RejoinsAt(lines, j);
      assert i < j < n + 1;
    }
  }

  lemma RecoversStep(lines: seq<Line>, n: nat)
    requires n < |lines|
    ensures Recovers(lines, n + 1) <==> !PartsAt(lines, n) && (RejoinsAt(lines, n) || Recovers(lines, n))
  {
    forall i | 0 <= i < n
      ensures RejoinsLater(lines, i, n + 1) <==> RejoinsAt(lines, n) || RejoinsLater(lines, i, n)
    {
      LaterStep(lines, i, n);
    }
  }

  lemma {:induction false} AgreeIffRecovers(lines: seq<Line>, n: nat)
    requires n <= |lines|
    ensures CodeAt(lines, n) == StandardAt(lines, n) <==> Recovers(lines, n)
  {
    if n == 0 {
      assert lines[..0] == [];
    } else {
      AgreeIffRecovers(lines, n - 1);
      StepAgreement(lines, n - 1);
      RecoversStep(lines, n - 1);
    }
  }

  /** For a whole text: the scanner's fence is the standard's exactly when every line at which they part is
      followed by one at which they meet. */
  lemma FencesAgreeIff(t: Text)
    ensures FenceAfter(t) == StandardFence(t) <==> Recovers(LinesOf(t, false), |LinesOf(t, false)|)
  {
    var lines := LinesOf(t, false);
    CodeIsScan(Outside, t);
    AgreeIffRecovers(lines, |lines|);
    assert lines[..|lines|] == lines;
  }

  predicate AgreesUpTo(lines: seq<Line>, n: nat)
    requires n <= |lines|
  {
    forall i :: 0 <= i <= n ==> CodeAt(lines, i) == StandardAt(lines, i)
  }

  ghost predicate NeverPart(lines: seq<Line>, n: nat)
    requires n <= |lines|
  {
    forall i :: 0 <= i < n ==> !PartsAt(lines, i)
  }

  lemma AgreesStep(lines: seq<Line>, n: nat)
    requires n < |lines|
    ensures AgreesUpTo(lines, n + 1) <==> AgreesUpTo(lines, n) && CodeAt(lines, n + 1) == StandardAt(lines, n + 1)
    ensures AgreesUpTo(lines, n) ==> CodeAt(lines, n) == StandardAt(lines, n)
  {
  }

  lemma NeverPartStep(lines: seq<Line>, n: nat)
    requires n < |lines|
    ensures NeverPart(lines, n + 1) <==> NeverPart(lines, n) && !PartsAt(lines, n)
  {
  }

  lemma AgreesAtStart(lines: seq<Line>)
    ensures AgreesUpTo(lines, 0) && NeverPart(lines, 0)
  {
    assert lines[..0] == [];
  }

  /** And they agree at every line exactly when they never part. */
  lemma {:induction false} AgreeAtEveryLine(lines: seq<Line>, n: nat)
    requires n <= |lines|
    ensures AgreesUpTo(lines, n) <==> NeverPart(lines, n)
  {
    if n == 0 {
      AgreesAtStart(lines);
    } else {
      AgreeAtEveryLine(lines, n - 1);
      AgreesStep(lines, n - 1);
      NeverPartStep(lines, n - 1);
      StepAgreement(lines, n - 1);
    }
  }

  // ------------------------------------------------------------------ inputs at which they differ

  /** "```a`" and a line feed: a fence to the scanner, a code span or text to the standard. */
  const TICK_INFO: Text := [TICK, TICK, TICK, 97, TICK, LF]

  /** "a", a carriage return alone, "```" and a line feed: one line to the scanner, text and a fence to the standard. */
  const CR_FENCE: Text := [97, CR, TICK, TICK, TICK, LF]

  /** "```a`" and then "```x": the second opens the same fence for both. */
  const REJOINED: Text := [TICK, TICK, TICK, 97, TICK, LF, TICK, TICK, TICK, 120, LF]

  lemma FirstEndIs(t: Text, e: nat)
    requires e < |t| && (t[e] == LF || t[e] == CR) && forall i :: 0 <= i < e ==> t[i] != LF && t[i] != CR
    ensures FirstEnd(t) == e
  {
  }

  lemma OneMoreLine(lines: seq<Line>, line: Line)
    ensures CodeScan(Outside, lines + [line]) == CodeLine(CodeScan(Outside, lines), line)
    ensures StandardScan(Outside, lines + [line]) == StandardLine(StandardScan(Outside, lines), line)
  {
    assert (lines + [line])[..|lines|] == lines;
  }

  lemma TwoLines(a: Line, b: Line)
    ensures CodeScan(Outside, [a, b]) == CodeLine(CodeLine(Outside, a), b)
    ensures StandardScan(Outside, [a, b]) == StandardLine(StandardLine(Outside, a), b)
  {
    OneMoreLine([], a);
    OneMoreLine([a], b);
    assert [] + [a] == [a] && [a] + [b] == [a, b];
  }

  lemma ThreeLines(a: Line, b: Line, c: Line)
    ensures CodeScan(Outside, [a, b, c]) == CodeLine(CodeLine(CodeLine(Outside, a), b), c)
    ensures StandardScan(Outside, [a, b, c]) == StandardLine(StandardLine(StandardLine(Outside, a), b), c)
  {
    TwoLines(a, b);
    OneMoreLine([a, b], c);
    assert [a, b] + [c] == [a, b, c];
  }

  const EMPTY_LINE: Line := Line([], false, false)

  lemma EmptyLineIsIdle(f: Fence)
    ensures CodeLine(f, EMPTY_LINE) == f && StandardLine(f, EMPTY_LINE) == f
  {
  }

  lemma EndedText(t: Text, afterCr: bool)
    requires t != [] && FirstEnd(t) == |t| - 1 && t[|t| - 1] == LF
    ensures LinesOf(t, afterCr) == [Line(t[..|t| - 1], afterCr, false), EMPTY_LINE]
  {
    assert t[|t|..] == [];
  }

  lemma TickInfoLine()
    ensures var line := TICK_INFO[..5]; FenceOf(line) == Inside(TICK, 3) && TickInfo(line)
  {
    var line := TICK_INFO[..5];
    FenceIsRun(line, 0, TICK, 3);
    AfterRun(line, 0, 3);
    assert line[3..][1] == TICK;
  }

  /** An open fence that is none. */
  lemma TickInfoDiffers()
    ensures FenceAfter(TICK_INFO) == Inside(TICK, 3) && StandardFence(TICK_INFO) == Outside
  {
    var line := Line(TICK_INFO[..5], false, false);
    FirstEndIs(TICK_INFO, 5);
    EndedText(TICK_INFO, false);
    TickInfoLine();
    TwoLines(line, EMPTY_LINE);
    EmptyLineIsIdle(CodeLine(Outside, line));
    CodeIsScan(Outside, TICK_INFO);
  }

  lemma BareTicks(line: Text)
    requires line == [TICK, TICK, TICK]
    ensures FenceOf(line) == Inside(TICK, 3) && Opened(line) == Inside(TICK, 3)
  {
    FenceIsRun(line, 0, TICK, 3);
    AfterRun(line, 0, 3);
  }

  lemma CrLines()
    ensures LinesOf(CR_FENCE, false) == [Line([97], false, true), Line([TICK, TICK, TICK], true, false), EMPTY_LINE]
  {
    var rest := [TICK, TICK, TICK, LF];
    assert CR_FENCE[2..] == rest && CR_FENCE[..1] == [97] && rest[..3] == [TICK, TICK, TICK];
    FirstEndIs(CR_FENCE, 1);
    FirstEndIs(rest, 3);
    EndedText(rest, true);
  }

  /** An open fence that is overlooked. */
  lemma LoneCrDiffers()
    ensures FenceAfter(CR_FENCE) == Outside && StandardFence(CR_FENCE) == Inside(TICK, 3)
  {
    var a, b := Line([97], false, true), Line([TICK, TICK, TICK], true, false);
    CrLines();
    BareTicks(b.text);
    ThreeLines(a, b, EMPTY_LINE);
    EmptyLineIsIdle(Outside);
    EmptyLineIsIdle(Inside(TICK, 3));
    CodeIsScan(Outside, CR_FENCE);
  }

  lemma RejoinedLines()
    ensures LinesOf(REJOINED, false)
            == [Line(TICK_INFO[..5], false, false), Line([TICK, TICK, TICK, 120], false, false), EMPTY_LINE]
  {
    var rest := [TICK, TICK, TICK, 120, LF];
    assert REJOINED[..5] == TICK_INFO[..5] && REJOINED[6..] == rest && rest[..4] == [TICK, TICK, TICK, 120];
    FirstEndIs(REJOINED, 5);
    FirstEndIs(rest, 4);
    EndedText(rest, false);
  }

  lemma NamedTicks(line: Text)
    requires line == [TICK, TICK, TICK, 120]
    ensures Opened(line) == Inside(TICK, 3) && !IsBareFence(line)
  {
    FenceIsRun(line, 0, TICK, 3);
    AfterRun(line, 0, 3);
    assert line[3..] == [120] && [120][0] == 120;
  }

  /** The two can part and meet again, so their last states say less than their states at every line. */
  lemma PartedAndRejoined()
    ensures FenceAfter(REJOINED) == StandardFence(REJOINED) == Inside(TICK, 3)
    ensures FenceAfter(REJOINED[..6]) != StandardFence(REJOINED[..6])
  {
    var a, b := Line(TICK_INFO[..5], false, false), Line([TICK, TICK, TICK, 120], false, false);
    RejoinedLines();
    TickInfoLine();
    NamedTicks(b.text);
    ThreeLines(a, b, EMPTY_LINE);
    EmptyLineIsIdle(Inside(TICK, 3));
    CodeIsScan(Outside, REJOINED);
    assert REJOINED[..6] == TICK_INFO;
    TickInfoDiffers();
  }
}
