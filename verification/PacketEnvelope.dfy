/** The last controller packet of an agent's answer (src/domain/controller-packet-envelope.js). */
module PacketEnvelope {
  import opened Common
  import opened CanonicalJson
  import opened JsonParser

  // ------------------------------------------------------------------ lines and whitespace

  /** The whitespace trimEnd removes, as code units. */
  predicate IsTrimmed(u: Unit) {
    9 <= u <= 13 || u == 32 || u == 0xA0 || u == 0x1680 || 0x2000 <= u <= 0x200A || u == 0x2028 || u == 0x2029
    || u == 0x202F || u == 0x205F || u == 0x3000 || u == 0xFEFF
  }

  function TrimEnd(t: Text): (r: Text)
    ensures |r| <= |t| && r == t[..|r|] && (r != [] ==> !IsTrimmed(r[|r| - 1]))
  {
    if t != [] && IsTrimmed(t[|t| - 1]) then TrimEnd(t[..|t| - 1]) else t
  }

  function IndexOfLf(t: Text): (k: nat)
    ensures k <= |t| && (k < |t| ==> t[k] == LF) && forall i :: 0 <= i < k ==> t[i] != LF
  {
    if t == [] || t[0] == LF then 0
    else
      var k := IndexOfLf(t[1..]);
      assert forall i :: 1 <= i <= k ==> t[i] == t[1..][i - 1];
      1 + k
  }

  function DropCr(t: Text): Text { if t != [] && t[|t| - 1] == CR then t[..|t| - 1] else t }

  /** Splitting at line feeds, each with one carriage return before it if there is one. */
  function Lines(t: Text): (r: seq<Text>)
    ensures r != []
    decreases |t|
  {
    var k := IndexOfLf(t);
    if k == |t| then [t] else [DropCr(t[..k])] + Lines(t[k + 1..])
  }

  // ------------------------------------------------------------------ Markdown fences

  const TICK: Unit := 96
  const TILDE: Unit := 126
  const SPACE: Unit := 32
  const TAB: Unit := 9

  datatype Fence = Outside | Inside(marker: Unit, length: nat)

  function RunOf(t: Text, u: Unit): (n: nat)
    ensures n <= |t| && (n < |t| ==> t[n] != u) && forall i :: 0 <= i < n ==> t[i] == u
  {
    if t == [] || t[0] != u then 0
    else
      var n := RunOf(t[1..], u);
      assert forall i :: 1 <= i <= n ==> t[i] == t[1..][i - 1];
      1 + n
  }

  /** The fence a line starts with after at most three spaces, if it does. */
  function FenceOf(line: Text): Fence {
    var s := RunOf(line, SPACE);
    var rest := line[s..];
    if s > 3 then Outside
    else if RunOf(rest, TICK) >= 3 then Inside(TICK, RunOf(rest, TICK))
    else if RunOf(rest, TILDE) >= 3 then Inside(TILDE, RunOf(rest, TILDE))
    else Outside
  }

  predicate OnlyBlanks(t: Text) { forall i :: 0 <= i < |t| ==> t[i] == TAB || t[i] == SPACE }

  /** A fence and nothing after it. */
  predicate IsBareFence(line: Text) {
    FenceOf(line).Inside? && OnlyBlanks(line[RunOf(line, SPACE)..][FenceOf(line).length..])
  }

  function ScanLine(f: Fence, line: Text): Fence {
    var g := FenceOf(line);
    match f
    case Outside => g
    case Inside(marker, length) =>
      if g.Inside? && IsBareFence(line) && g.marker == marker && g.length >= length then Outside else f
  }

  function Scan(f: Fence, lines: seq<Text>): Fence
    decreases |lines|
  {
    if lines == [] then f else Scan(ScanLine(f, lines[0]), lines[1..])
  }

  /** The fence state after the text. */
  function FenceAfter(t: Text): Fence { Scan(Outside, Lines(t)) }

  predicate OutsideFence(t: Text) { FenceAfter(t).Outside? }

  method OutsideMarkdownFence(text: Text, offset: nat) returns (outside: bool)
    requires offset <= |text|
    ensures outside <==> OutsideFence(text[..offset])
  {
    var lines := Lines(text[..offset]);
    var active := Outside;
    for i := 0 to |lines|
      invariant Scan(Outside, lines) == Scan(active, lines[i..])
    {
      var line := lines[i];
      assert lines[i..][0] == line && lines[i..][1..] == lines[i + 1..];
      var g := FenceOf(line);
      if active.Outside? {
        active := g;
        continue;
      }
      if g.Inside? && IsBareFence(line) && g.marker == active.marker && g.length >= active.length { active := Outside; }
    }
    outside := active.Outside?;
  }

  // ------------------------------------------------------------------ the envelope

  datatype Framing = Framing(opening: Text, closing: Text)

  const DOM_SAFE: Framing :=
    Framing([67, 79, 78, 84, 82, 79, 76, 76, 69, 82, 95, 80, 65, 67, 75, 69, 84, 95, 66, 69, 71, 73, 78],
            [67, 79, 78, 84, 82, 79, 76, 76, 69, 82, 95, 80, 65, 67, 75, 69, 84, 95, 69, 78, 68])

  const LEGACY: Framing :=
    Framing([60, 99, 111, 110, 116, 114, 111, 108, 108, 101, 114, 95, 112, 97, 99, 107, 101, 116, 62],
            [60, 47, 99, 111, 110, 116, 114, 111, 108, 108, 101, 114, 95, 112, 97, 99, 107, 101, 116, 62])

  predicate EndsWith(t: Text, end: Text) {
    |end| <= |t| && forall i :: 0 <= i < |end| ==> t[|t| - |end| + i] == end[i]
  }

  function PacketFraming(t: Text): Option<Framing> {
    if EndsWith(t, DOM_SAFE.closing) then Some(DOM_SAFE)
    else if EndsWith(t, LEGACY.closing) then Some(LEGACY)
    else None
  }

  predicate LineStart(t: Text, offset: nat)
    requires offset <= |t|
  {
    offset == 0 || t[offset - 1] == LF
  }

  /** Decides whether text leaves no fence open. */
  type Scanner = Text -> bool

  /** A marker there stands on a line of its own, outside Markdown fences. */
  predicate Standalone(outside: Scanner, t: Text, offset: nat)
    requires offset <= |t|
  {
    LineStart(t, offset) && outside(t[..offset])
  }

  predicate MarkerAt(t: Text, marker: Text, offset: nat) {
    offset + |marker| <= |t| && forall i :: 0 <= i < |marker| ==> t[offset + i] == marker[i]
  }

  predicate OpensAt(outside: Scanner, t: Text, marker: Text, offset: nat) {
    MarkerAt(t, marker, offset) && Standalone(outside, t, offset)
  }

  /** The last standalone opening marker at or before an offset, or -1. */
  function FindOpening(outside: Scanner, t: Text, marker: Text, from: int): (offset: int)
    requires from < |t|
    ensures -1 <= offset <= from || offset == -1
    decreases from + 1
  {
    if from < 0 then -1
    else if OpensAt(outside, t, marker, from) then from
    else FindOpening(outside, t, marker, from - 1)
  }

  predicate IsLastOpening(outside: Scanner, t: Text, marker: Text, from: int, offset: int)
    requires from < |t|
  {
    && -1 <= offset && (offset >= 0 ==> offset <= from && OpensAt(outside, t, marker, offset))
    && forall o :: offset < o <= from && 0 <= o ==> !OpensAt(outside, t, marker, o)
  }

  lemma {:induction false} FoundIsLast(outside: Scanner, t: Text, marker: Text, from: int, offset: int)
    requires from < |t|
    ensures FindOpening(outside, t, marker, from) == offset <==> IsLastOpening(outside, t, marker, from, offset)
    decreases from + 1
  {
    if from >= 0 && !OpensAt(outside, t, marker, from) { FoundIsLast(outside, t, marker, from - 1, offset); }
  }

  method LastOpening(t: Text, marker: Text, from: int) returns (offset: int)
    requires from < |t|
    ensures offset == FindOpening(OutsideFence, t, marker, from)
  {
    offset := LastIndexOf(t, marker, from);
    while offset >= 0
      invariant -1 <= offset
      invariant offset >= 0 ==> offset <= from && MarkerAt(t, marker, offset)
      invariant forall o :: offset < o <= from && 0 <= o ==> !OpensAt(OutsideFence, t, marker, o)
      decreases offset
    {
      var outside := OutsideMarkdownFence(t, offset);
      if LineStart(t, offset) && outside {
        FoundIsLast(OutsideFence, t, marker, from, offset);
        return;
      }
      offset := LastIndexOf(t, marker, offset - 1);
    }
    FoundIsLast(OutsideFence, t, marker, from, offset);
  }

  method LastIndexOf(t: Text, marker: Text, from: int) returns (offset: int)
    requires from < |t|
    ensures -1 <= offset && (offset >= 0 ==> offset <= from && MarkerAt(t, marker, offset))
    ensures forall o :: offset < o <= from && 0 <= o ==> !MarkerAt(t, marker, o)
  {
    offset := if from < 0 then -1 else from;
    while offset >= 0 && !MarkerAt(t, marker, offset)
      invariant -1 <= offset && (offset >= 0 ==> offset <= from)
      invariant forall o :: offset < o <= from && 0 <= o ==> !MarkerAt(t, marker, o)
    {
      offset := offset - 1;
    }
  }

  /** One to three spaces between a line start and the offset. */
  function Indent(t: Text, offset: nat): (s: nat)
    requires offset <= |t|
    ensures s <= 3 && s <= offset
  {
    if offset >= 1 && t[offset - 1] == SPACE && LineStart(t, offset - 1) then 1
    else if offset >= 2 && t[offset - 1] == SPACE && t[offset - 2] == SPACE && LineStart(t, offset - 2) then 2
    else if offset >= 3 && t[offset - 1] == SPACE && t[offset - 2] == SPACE && t[offset - 3] == SPACE
            && LineStart(t, offset - 3) then 3
    else 0
  }

  /** Plain-text extraction can leave spaces before the final marker and a backslash after it. */
  function RepairSentinel(t: Text): Text {
    if EndsWith(t, DOM_SAFE.closing + [BACKSLASH]) then
      var at := |t| - |DOM_SAFE.closing| - 1;
      if Indent(t, at) > 0 then t[..at - Indent(t, at)] + DOM_SAFE.closing else t
    else t
  }

  /** The length of an end-of-line the text starts with. */
  function LeadingEol(t: Text): (n: nat)
    ensures n <= |t|
  {
    if t != [] && t[0] == LF then 1 else if |t| > 1 && t[0] == CR && t[1] == LF then 2 else 0
  }

  function TrailingEol(t: Text): (n: nat)
    ensures n <= |t|
  {
    if t != [] && t[|t| - 1] == LF then (if |t| > 1 && t[|t| - 2] == CR then 2 else 1) else 0
  }

  function Deepest(items: seq<nat>): (d: nat)
    ensures forall i :: 0 <= i < |items| ==> items[i] <= d
    ensures d == 0 || d in items
  {
    if items == [] then 0 else var d := Deepest(items[..|items| - 1]); if items[|items| - 1] > d then items[|items| - 1] else d
  }

  /** A scalar has depth 1. */
  function Depth(v: Json): (d: nat)
    ensures d >= 1
  {
    match v
    case Arr(items) => 1 + Deepest(seq(|items|, i requires 0 <= i < |items| => Depth(items[i])))
    case Obj(ms) => 1 + Deepest(seq(|ms|, i requires 0 <= i < |ms| => Depth(ms[i].value)))
    case _ => 1
  }

  datatype Error = EmptyResponse | PacketMissing | PacketAmbiguous | InvalidJson | InvalidLimit | TooDeep

  /** What is made of the text before the markers and of the text between them. */
  type Reader = (Text, Text) -> Result<Envelope, Error>

  datatype Envelope = Envelope(body: Text, parsed: Json, packetText: Text)

  /** The text of the packet: what is between the markers but for the ends of their lines. */
  function PacketText(between: Text): Option<Text> {
    if LeadingEol(between) == 0 then None
    else
      var inner := between[LeadingEol(between)..];
      Some(inner[..|inner| - TrailingEol(inner)])
  }

  /** The units that may follow a backslash in a JSON string. */
  predicate Escapable(u: Unit) {
    u == QUOTE || u == BACKSLASH || u == 47 || u == 98 || u == 102 || u == 110 || u == 114 || u == 116 || u == 117
  }

  /** Doubles every backslash that cannot begin an escape, as in a Windows path. */
  function EscapeStray(t: Text): Text {
    if t == [] then []
    else if t[0] == BACKSLASH && (|t| == 1 || !Escapable(t[1])) then [BACKSLASH, BACKSLASH] + EscapeStray(t[1..])
    else [t[0]] + EscapeStray(t[1..])
  }

  predicate StrayAt(t: Text, i: nat) {
    i < |t| && t[i] == BACKSLASH && (i + 1 == |t| || !Escapable(t[i + 1]))
  }

  lemma {:induction false} EscapeGrows(t: Text)
    ensures |EscapeStray(t)| >= |t|
    ensures EscapeStray(t) == t <==> |EscapeStray(t)| == |t|
  {
    if t != [] { EscapeGrows(t[1..]); }
  }

  /** The repair changes exactly the texts with such a backslash, so only those are parsed a second time. */
  lemma {:induction false} RepairsExactlyStray(t: Text)
    ensures EscapeStray(t) == t <==> forall i: nat :: !StrayAt(t, i)
  {
    EscapeGrows(t);
    if t != [] {
      EscapeGrows(t[1..]);
      RepairsExactlyStray(t[1..]);
      assert forall i: nat :: StrayAt(t, i + 1) <==> StrayAt(t[1..], i);
      assert forall i: nat :: i > 0 && StrayAt(t, i) ==> StrayAt(t[1..], i - 1);
      assert StrayAt(t, 0) <==> t[0] == BACKSLASH && (|t| == 1 || !Escapable(t[1]));
    }
  }

  /** parsePacketJson: a second attempt with stray backslashes escaped. */
  function ParsePacketJson(t: Text): Option<Json> {
    var parsed := Parse(t);
    if parsed.Some? then parsed
    else
      var repaired := EscapeStray(t);
      if repaired == t then None else Parse(repaired)
  }

  function ReadPacket(before: Text, between: Text, maxDepth: int): Result<Envelope, Error> {
    var text := PacketText(between);
    if text.None? then Err(PacketAmbiguous)
    else
      var parsed := ParsePacketJson(text.value);
      if parsed.None? then Err(InvalidJson)
      else if maxDepth < 1 then Err(InvalidLimit)
      else if Depth(parsed.value) > maxDepth then Err(TooDeep)
      else Ok(Envelope(TrimEnd(before), parsed.value, text.value))
  }

  /** A standalone closing marker cannot overlap an earlier opening one. */
  lemma MarkersApart(t: Text, framing: Framing, open: nat, close: nat)
    requires Markers(framing)
    requires open < close <= |t| && MarkerAt(t, framing.opening, open) && LineStart(t, close)
    ensures open + |framing.opening| <= close
  {
    forall i | open <= i < open + |framing.opening| ensures t[i] != LF {
      assert t[open + (i - open)] == framing.opening[i - open];
    }
  }

  lemma NoLfInOpenings()
    ensures LF !in DOM_SAFE.opening && LF !in LEGACY.opening
  {
  }

  predicate OneLineText(t: Text) { LF !in t && CR !in t }

  /** A line that starts with something else than a space or a fence marker. */
  predicate Plain(line: Text) { line == [] || (line[0] != SPACE && line[0] != TICK && line[0] != TILDE) }

  /** What the parser needs of a pair of markers: each is one line, starts and ends with a letter or a bracket. */
  predicate Markers(framing: Framing) {
    && framing.opening != [] && OneLineText(framing.opening) && Plain(framing.opening) && framing.opening[0] in [60, 67]
    && framing.closing != [] && framing.closing[|framing.closing| - 1] in [62, 68]
  }

  lemma BothAreMarkers()
    ensures Markers(DOM_SAFE) && Markers(LEGACY)
  {
    NoLfInOpenings();
  }

  function ParseFramed(outside: Scanner, read: Reader, t: Text, framing: Framing): Result<Envelope, Error>
    requires Markers(framing) && EndsWith(t, framing.closing)
  {
    var close := |t| - |framing.closing|;
    if !Standalone(outside, t, close) then Err(PacketAmbiguous)
    else
      var open := FindOpening(outside, t, framing.opening, close - 1);
      if open < 0 then Err(PacketAmbiguous)
      else
        FoundIsLast(outside, t, framing.opening, close - 1, open);
        MarkersApart(t, framing, open, close);
        read(t[..open], t[open + |framing.opening|..close])
  }

  function FindAndRead(outside: Scanner, read: Reader, raw: Text): Result<Envelope, Error> {
    if TrimEnd(raw) == [] then Err(EmptyResponse)
    else
      var t := RepairSentinel(TrimEnd(raw));
      match PacketFraming(t)
      case None => Err(PacketMissing)
      case Some(framing) => BothAreMarkers(); ParseFramed(outside, read, t, framing)
  }

  function ReaderFor(maxDepth: int): Reader {
    (before, between) => ReadPacket(before, between, maxDepth)
  }

  function ParseFinal(raw: Text, maxDepth: int): Result<Envelope, Error> {
    FindAndRead(OutsideFence, ReaderFor(maxDepth), raw)
  }

  lemma ParsedFromParts(
      outside: Scanner, read: Reader, t: Text, framing: Framing, close: nat, open: nat, ok: bool,
      out: Result<Envelope, Error>)
    requires Markers(framing) && EndsWith(t, framing.closing) && close == |t| - |framing.closing|
    requires LineStart(t, close) && outside(t[..close]) == ok
    requires ok ==> open + |framing.opening| <= close && FindOpening(outside, t, framing.opening, close - 1) == open
    requires ok ==> read(t[..open], t[open + |framing.opening|..close]) == out
    ensures ParseFramed(outside, read, t, framing) == if ok then out else Err(PacketAmbiguous)
  {
  }

  method SearchAndRead(t: Text, f: Framing, read: Reader) returns (out: Result<Envelope, Error>)
    requires Markers(f) && EndsWith(t, f.closing)
    ensures out == ParseFramed(OutsideFence, read, t, f)
  {
    var close := |t| - |f.closing|;
    var outside := OutsideMarkdownFence(t, close);
    if !LineStart(t, close) || !outside { return Err(PacketAmbiguous); }
    var open := LastOpening(t, f.opening, close - 1);
    if open < 0 { return Err(PacketAmbiguous); }
    FoundIsLast(OutsideFence, t, f.opening, close - 1, open);
    MarkersApart(t, f, open, close);
    out := read(t[..open], t[open + |f.opening|..close]);
    ParsedFromParts(OutsideFence, read, t, f, close, open, true, out);
  }

  /** parseFinalControllerPacketJsonEnvelope, searching as the source does. */
  method ParseFinalControllerPacketJsonEnvelope(raw: Text, maxDepth: int) returns (out: Result<Envelope, Error>)
    ensures out == ParseFinal(raw, maxDepth)
  {
    if TrimEnd(raw) == [] { return Err(EmptyResponse); }
    var t := RepairSentinel(TrimEnd(raw));
    var framing := PacketFraming(t);
    if framing.None? { return Err(PacketMissing); }
    BothAreMarkers();
    out := SearchAndRead(t, framing.value, ReaderFor(maxDepth));
  }
}
