/** Exactly which texts hold a packet, and what is read from them (src/domain/controller-packet-envelope.js). */
module PacketReading {
  import opened Common
  import opened CanonicalJson
  import opened JsonParser
  import opened PacketEnvelope
  import opened PacketRoundTrip
  import CanonicalForm

  // ------------------------------------------------------------------ markers

  predicate Spells(t: Text, s: string) { |t| == |s| && forall i :: 0 <= i < |s| ==> t[i] == s[i] as int }

  lemma MarkersSpelled()
    ensures Spells(DOM_SAFE.opening, "CONTROLLER_PACKET_BEGIN") && Spells(DOM_SAFE.closing, "CONTROLLER_PACKET_END")
    ensures Spells(LEGACY.opening, "<controller_packet>") && Spells(LEGACY.closing, "</controller_packet>")
    ensures Spells([TICK, TILDE, SPACE, TAB, BACKSLASH], "`~ \t\\")
  {
  }

  /** The units trimEnd removes are the whitespace that trim removes. */
  lemma SameSpaces(c: char)
    requires c < '\U{10000}'
    ensures IsTrimmed(c as int) <==> IsSpace(c)
  {
  }

  // ------------------------------------------------------------------ the end of the text

  predicate AllTrimmed(t: Text) { forall u <- t :: IsTrimmed(u) }

  /** The text without the whitespace at its end. */
  lemma {:induction false} TrimEndTells(t: Text)
    ensures var r := TrimEnd(t); r <= t && AllTrimmed(t[|r|..]) && (r != [] ==> !IsTrimmed(r[|r| - 1]))
  {
    if t != [] && IsTrimmed(t[|t| - 1]) {
      var n := |t| - 1;
      TrimEndTells(t[..n]);
      var r := TrimEnd(t);
      assert t[|r|..] == t[..n][|r|..] + [t[n]];
    }
  }

  predicate IsIndent(t: Text) { 1 <= |t| <= 3 && forall u <- t :: u == SPACE }

  /** A closing marker indented by one to three spaces and followed by a backslash. */
  predicate Damaged(t: Text, front: Text, indent: Text) {
    t == front + indent + DOM_SAFE.closing + [BACKSLASH] && IsIndent(indent) && (front == [] || front[|front| - 1] == LF)
  }

  lemma DamagedIndent(t: Text, front: Text, indent: Text)
    requires Damaged(t, front, indent)
    ensures EndsWith(t, DOM_SAFE.closing + [BACKSLASH])
    ensures var at := |t| - |DOM_SAFE.closing| - 1; Indent(t, at) == |indent| && t[..at - Indent(t, at)] == front
  {
    var at := |t| - |DOM_SAFE.closing| - 1;
    var end := DOM_SAFE.closing + [BACKSLASH];
    assert t == front + indent + end;
    assert at == |front| + |indent|;
    forall i | |front| <= i < at ensures t[i] == SPACE { assert t[i] == indent[i - |front|] && indent[i - |front|] in indent; }
    assert front != [] ==> t[|front| - 1] == LF;
  }

  lemma IndentIsSpaces(t: Text, at: nat)
    requires at <= |t| && Indent(t, at) > 0
    ensures var s := Indent(t, at); IsIndent(t[at - s..at]) && (at == s || t[at - s - 1] == LF)
  {
    var s := Indent(t, at);
    var indent := t[at - s..at];
    forall i | 0 <= i < |indent| ensures indent[i] == SPACE { assert indent[i] == t[at - s + i]; }
  }

  lemma SplitsAt(t: Text, at: nat, s: nat, end: Text)
    requires s <= at <= |t| && t[at..] == end
    ensures t == t[..at - s] + t[at - s..at] + end
  {
  }

  lemma IndentDamages(t: Text)
    requires EndsWith(t, DOM_SAFE.closing + [BACKSLASH])
    ensures var at := |t| - |DOM_SAFE.closing| - 1;
            var s := Indent(t, at);
            s > 0 ==> Damaged(t, t[..at - s], t[at - s..at])
  {
    var at := |t| - |DOM_SAFE.closing| - 1;
    if Indent(t, at) > 0 {
      EndsWithIs(t, DOM_SAFE.closing + [BACKSLASH]);
      IndentIsSpaces(t, at);
      SplitsAt(t, at, Indent(t, at), DOM_SAFE.closing + [BACKSLASH]);
    }
  }

  /** Exactly such a text is repaired, by taking indent and backslash away. */
  lemma RepairsExactly(t: Text, front: Text, indent: Text)
    ensures Damaged(t, front, indent) ==> RepairSentinel(t) == front + DOM_SAFE.closing
    ensures RepairSentinel(t) != t ==> IsDamaged(t)
  {
    if Damaged(t, front, indent) { RepairsDamaged(t, front, indent); }
    if RepairSentinel(t) != t { RepairedIsDamaged(t); }
  }

  ghost predicate IsDamaged(t: Text) { exists front, indent :: Damaged(t, front, indent) }

  lemma RepairsDamaged(t: Text, front: Text, indent: Text)
    requires Damaged(t, front, indent)
    ensures RepairSentinel(t) == front + DOM_SAFE.closing
  {
    DamagedIndent(t, front, indent);
  }

  lemma RepairedIsDamaged(t: Text)
    requires RepairSentinel(t) != t
    ensures IsDamaged(t)
  {
    var at := |t| - |DOM_SAFE.closing| - 1;
    IndentDamages(t);
    assert Damaged(t, t[..at - Indent(t, at)], t[at - Indent(t, at)..at]);
  }

  // ------------------------------------------------------------------ the text of the packet

  predicate HoldsWith(between: Text, e: Text, text: Text, f: Text) {
    && IsEol(e) && (f == [] || IsEol(f)) && between == e + (text + f)
    && (f == [] ==> text == [] || text[|text| - 1] != LF) && (f == [LF] ==> text == [] || text[|text| - 1] != CR)
  }

  /** What is between the markers starts with an end of line, and one end of line at its end is not part of the text. */
  ghost predicate Holds(between: Text, text: Text) {
    exists e, f :: HoldsWith(between, e, text, f)
  }

  lemma LeadingSplits(between: Text)
    ensures var n := LeadingEol(between); n == 0 || IsEol(between[..n])
    ensures forall e: Text :: IsEol(e) && e <= between ==> LeadingEol(between) == |e|
  {
    forall e: Text | IsEol(e) && e <= between ensures LeadingEol(between) == |e| {
      assert between[0] == e[0] && (|e| == 2 ==> between[1] == e[1]);
    }
  }

  lemma TrailingSplits(inner: Text)
    ensures var n := TrailingEol(inner);
            var text, f := inner[..|inner| - n], inner[|inner| - n..];
            && inner == text + f && (f == [] || IsEol(f))
            && (f == [] ==> text == [] || text[|text| - 1] != LF) && (f == [LF] ==> text == [] || text[|text| - 1] != CR)
  {
  }

  lemma TrailingIs(text: Text, f: Text)
    requires f == [] || IsEol(f)
    requires (f == [] ==> text == [] || text[|text| - 1] != LF) && (f == [LF] ==> text == [] || text[|text| - 1] != CR)
    ensures TrailingEol(text + f) == |f|
  {
    var t := text + f;
    if f == [] { assert t == text; } else { assert t[|t| - 1] == LF && (|f| == 2 ==> t[|t| - 2] == CR); }
  }

  lemma InThree(between: Text, n: nat, m: nat)
    requires n <= |between| && m <= |between| - n
    ensures var inner := between[n..];
            between == between[..n] + (inner[..|inner| - m] + inner[|inner| - m..])
  {
    var inner := between[n..];
    assert inner == inner[..|inner| - m] + inner[|inner| - m..];
    assert between == between[..n] + inner;
  }

  lemma PacketTextHolds(between: Text)
    requires PacketText(between).Some?
    ensures Holds(between, PacketText(between).value)
  {
    var n, inner := LeadingEol(between), between[LeadingEol(between)..];
    LeadingSplits(between);
    TrailingSplits(inner);
    InThree(between, n, TrailingEol(inner));
    assert HoldsWith(between, between[..n], inner[..|inner| - TrailingEol(inner)], inner[|inner| - TrailingEol(inner)..]);
  }

  lemma PacketTextExactly(between: Text, text: Text)
    ensures PacketText(between) == Some(text) <==> Holds(between, text)
  {
    if PacketText(between).Some? { PacketTextHolds(between); }
    if Holds(between, text) {
      var e, f :| HoldsWith(between, e, text, f);
      HeldIsText(between, e, text, f);
    }
  }

  lemma HeldIsText(between: Text, e: Text, text: Text, f: Text)
    requires HoldsWith(between, e, text, f)
    ensures PacketText(between) == Some(text)
  {
    LeadingSplits(between);
    assert e <= between;
    assert between[|e|..] == text + f;
    TrailingIs(text, f);
    assert (text + f)[..|text|] == text;
  }

  // ------------------------------------------------------------------ depth

  /** Some value lies n - 1 levels below v. */
  ghost predicate Reaches(v: Json, n: nat)
    decreases v
  {
    n == 1 || (n > 1 && match v
                        case Arr(items) => exists i :: 0 <= i < |items| && Reaches(items[i], n - 1)
                        case Obj(ms) => exists i :: 0 <= i < |ms| && Reaches(ms[i].value, n - 1)
                        case _ => false)
  }

  lemma {:induction false} DepthReaches(v: Json, n: nat)
    requires n > 0
    ensures Reaches(v, n) <==> n <= Depth(v)
  {
    match v
    case Arr(items) =>
      var depths := seq(|items|, i requires 0 <= i < |items| => Depth(items[i]));
      forall i | 0 <= i < |items| && n > 1 ensures Reaches(items[i], n - 1) <==> n - 1 <= depths[i] { DepthReaches(items[i], n - 1); }
      if n > 1 && n <= Depth(v) { assert Deepest(depths) in depths; }
    case Obj(ms) =>
      var depths := seq(|ms|, i requires 0 <= i < |ms| => Depth(ms[i].value));
      forall i | 0 <= i < |ms| && n > 1 ensures Reaches(ms[i].value, n - 1) <==> n - 1 <= depths[i] { DepthReaches(ms[i].value, n - 1); }
      if n > 1 && n <= Depth(v) { assert Deepest(depths) in depths; }
    case _ =>
  }

  // ------------------------------------------------------------------ the second attempt

  /** Each unit as it is, a stray backslash twice. */
  predicate DoubledAt(t: Text, parts: seq<Text>) {
    |parts| == |t| && forall i :: 0 <= i < |t| ==> parts[i] == if StrayAt(t, i) then [BACKSLASH, BACKSLASH] else [t[i]]
  }

  lemma {:induction false} RepairDoubles(t: Text) returns (parts: seq<Text>)
    ensures DoubledAt(t, parts) && EscapeStray(t) == CanonicalForm.Concat(parts)
  {
    if t == [] {
      parts := [];
    } else {
      var rest := RepairDoubles(t[1..]);
      var first := if StrayAt(t, 0) then [BACKSLASH, BACKSLASH] else [t[0]];
      parts := [first] + rest;
      forall i | 0 <= i < |t| ensures parts[i] == if StrayAt(t, i) then [BACKSLASH, BACKSLASH] else [t[i]] {
        if i > 0 { assert StrayAt(t, i) <==> StrayAt(t[1..], i - 1); }
      }
      CanonicalForm.ConcatOne(first, rest);
    }
  }

  /** The units that begin an escape after a backslash in a JSON string. */
  lemma EscapableExactly(u: Unit)
    ensures Escapable(u) <==> ParseEscape([u, 48, 48, 48, 48]).Read?
  {
    assert [u, 48, 48, 48, 48][1..] == [48, 48, 48, 48];
  }

  /** The text is read as it is or, if that fails, with its stray backslashes doubled. */
  lemma ReadsTwice(t: Text)
    ensures ParsePacketJson(t) == if Parse(t).Some? then Parse(t) else Parse(EscapeStray(t))
  {
  }

  // ------------------------------------------------------------------ the whole text

  /** The marker stands at the start of a line, outside fences. */
  predicate Opens(outside: Scanner, t: Text, marker: Text, o: nat) {
    && o + |marker| <= |t| && t[o..o + |marker|] == marker && (o == 0 || t[o - 1] == LF) && outside(t[..o])
  }

  lemma OpensIsOpensAt(outside: Scanner, t: Text, marker: Text, o: nat)
    ensures Opens(outside, t, marker, o) <==> o <= |t| && OpensAt(outside, t, marker, o)
  {
    if Opens(outside, t, marker, o) {
      forall i | 0 <= i < |marker| ensures t[o + i] == marker[i] { assert t[o..o + |marker|][i] == t[o + i]; }
    }
  }

  /** The text, right-trimmed and repaired, ends with a closing marker on a line of its own outside fences; o is the
      last standalone opening marker before it. */
  predicate PacketAt(outside: Scanner, t: Text, framing: Framing, o: nat) {
    var close := |t| - |framing.closing|;
    && close >= 0 && t[close..] == framing.closing && (close == 0 || t[close - 1] == LF) && outside(t[..close])
    && o < close && Opens(outside, t, framing.opening, o)
    && forall later :: o < later < close ==> !Opens(outside, t, framing.opening, later)
  }

  function Between(t: Text, framing: Framing, o: nat): Text
    requires o + |framing.opening| <= |t| - |framing.closing|
  {
    t[o + |framing.opening|..|t| - |framing.closing|]
  }

  lemma EndsWithIs(t: Text, end: Text)
    ensures EndsWith(t, end) <==> |end| <= |t| && t[|t| - |end|..] == end
  {
    if |end| <= |t| {
      var tail := t[|t| - |end|..];
      forall i | 0 <= i < |end| ensures tail[i] == t[|t| - |end| + i] { }
    }
  }

  lemma LastIsLast(outside: Scanner, t: Text, marker: Text, close: nat, o: nat)
    requires close <= |t|
    ensures IsLastOpening(outside, t, marker, close - 1, o) <==>
            o < close && Opens(outside, t, marker, o) && forall later :: o < later < close ==> !Opens(outside, t, marker, later)
  {
    forall i: nat | i <= |t| ensures Opens(outside, t, marker, i) <==> OpensAt(outside, t, marker, i) { OpensIsOpensAt(outside, t, marker, i); }
  }

  lemma FoundIsPacket(outside: Scanner, t: Text, framing: Framing, o: nat)
    requires Markers(framing) && EndsWith(t, framing.closing)
    ensures var close := |t| - |framing.closing|;
            Standalone(outside, t, close) && FindOpening(outside, t, framing.opening, close - 1) == o
            <==> PacketAt(outside, t, framing, o)
  {
    EndsWithIs(t, framing.closing);
    FoundIsLast(outside, t, framing.opening, |t| - |framing.closing| - 1, o);
    LastIsLast(outside, t, framing.opening, |t| - |framing.closing|, o);
  }

  /** What the packet at o is read as. */
  ghost predicate ReadAs(t: Text, framing: Framing, o: nat, maxDepth: int, env: Envelope) {
    && o + |framing.opening| <= |t| - |framing.closing|
    && Holds(Between(t, framing, o), env.packetText) && env.body == TrimEnd(t[..o])
    && (if Parse(env.packetText).Some? then Parse(env.packetText) else Parse(EscapeStray(env.packetText))) == Some(env.parsed)
    && maxDepth >= 1 && !Reaches(env.parsed, maxDepth + 1)
  }

  ghost predicate Framed(outside: Scanner, t: Text, framing: Framing, maxDepth: int, env: Envelope) {
    exists o: nat :: o <= |t| && PacketAt(outside, t, framing, o) && ReadAs(t, framing, o, maxDepth, env)
  }

  lemma ReadPacketExactly(before: Text, between: Text, maxDepth: int, env: Envelope)
    ensures ReadPacket(before, between, maxDepth) == Ok(env) <==>
            && Holds(between, env.packetText) && env.body == TrimEnd(before)
            && ParsePacketJson(env.packetText) == Some(env.parsed) && maxDepth >= 1 && !Reaches(env.parsed, maxDepth + 1)
  {
    PacketTextExactly(between, env.packetText);
    if maxDepth >= 1 { DepthReaches(env.parsed, maxDepth + 1); }
  }

  lemma FoundOpens(outside: Scanner, t: Text, framing: Framing, o: nat)
    requires Markers(framing) && EndsWith(t, framing.closing) && PacketAt(outside, t, framing, o)
    ensures var close := |t| - |framing.closing|;
            && Standalone(outside, t, close) && FindOpening(outside, t, framing.opening, close - 1) == o
            && o + |framing.opening| <= close
  {
    var close := |t| - |framing.closing|;
    FoundIsPacket(outside, t, framing, o);
    OpensIsOpensAt(outside, t, framing.opening, o);
    MarkersApart(t, framing, o, close);
  }

  lemma ParsedFound(outside: Scanner, read: Reader, t: Text, framing: Framing, o: nat)
    requires Markers(framing) && EndsWith(t, framing.closing)
    requires var close := |t| - |framing.closing|;
             && Standalone(outside, t, close) && FindOpening(outside, t, framing.opening, close - 1) == o
             && o + |framing.opening| <= close
    ensures ParseFramed(outside, read, t, framing) == read(t[..o], Between(t, framing, o))
  {
  }

  lemma ReaderReads(before: Text, between: Text, maxDepth: int)
    ensures ReaderFor(maxDepth)(before, between) == ReadPacket(before, between, maxDepth)
  {
  }

  lemma ReadWhenFound(outside: Scanner, t: Text, framing: Framing, o: nat, maxDepth: int, env: Envelope)
    requires Markers(framing) && EndsWith(t, framing.closing) && PacketAt(outside, t, framing, o)
    ensures ParseFramed(outside, ReaderFor(maxDepth), t, framing) == Ok(env) <==> ReadAs(t, framing, o, maxDepth, env)
  {
    FoundOpens(outside, t, framing, o);
    ParsedFound(outside, ReaderFor(maxDepth), t, framing, o);
    ReaderReads(t[..o], Between(t, framing, o), maxDepth);
    ReadPacketExactly(t[..o], Between(t, framing, o), maxDepth, env);
    ReadsTwice(env.packetText);
  }

  lemma ParsedNothing(outside: Scanner, read: Reader, t: Text, framing: Framing)
    requires Markers(framing) && EndsWith(t, framing.closing)
    requires var close := |t| - |framing.closing|;
             !Standalone(outside, t, close) || FindOpening(outside, t, framing.opening, close - 1) < 0
    ensures ParseFramed(outside, read, t, framing) == Err(PacketAmbiguous)
  {
  }

  lemma NothingFound(outside: Scanner, t: Text, framing: Framing, maxDepth: int)
    requires Markers(framing) && EndsWith(t, framing.closing)
    requires forall o: nat :: o <= |t| ==> !PacketAt(outside, t, framing, o)
    ensures ParseFramed(outside, ReaderFor(maxDepth), t, framing) == Err(PacketAmbiguous)
  {
    var close := |t| - |framing.closing|;
    var o := FindOpening(outside, t, framing.opening, close - 1);
    if o >= 0 && Standalone(outside, t, close) { FoundIsPacket(outside, t, framing, o); }
    ParsedNothing(outside, ReaderFor(maxDepth), t, framing);
  }

  lemma OnePacket(outside: Scanner, t: Text, framing: Framing, o: nat, o': nat)
    requires PacketAt(outside, t, framing, o) && PacketAt(outside, t, framing, o')
    ensures o == o'
  {
  }

  lemma ReadExactly(outside: Scanner, t: Text, framing: Framing, maxDepth: int, env: Envelope)
    requires Markers(framing) && EndsWith(t, framing.closing)
    ensures ParseFramed(outside, ReaderFor(maxDepth), t, framing) == Ok(env) <==> Framed(outside, t, framing, maxDepth, env)
  {
    if o: nat :| o <= |t| && PacketAt(outside, t, framing, o) {
      ReadWhenFound(outside, t, framing, o, maxDepth, env);
      forall o': nat | o' <= |t| && PacketAt(outside, t, framing, o') ensures o' == o { OnePacket(outside, t, framing, o, o'); }
    } else {
      NothingFound(outside, t, framing, maxDepth);
    }
  }

  /** A packet is read from a text exactly if the text, right-trimmed and repaired, ends with the closing marker of one
      of the two framings, standalone and outside fences, and the last standalone opening marker before it is followed
      by a line, valid JSON of at most the given depth, and the closing line; the body is what is before, trimmed. */
  lemma ReadsExactly(raw: Text, maxDepth: int, env: Envelope)
    ensures ParseFinal(raw, maxDepth) == Ok(env) <==>
            var t := RepairSentinel(TrimEnd(raw));
            Framed(OutsideFence, t, DOM_SAFE, maxDepth, env) || Framed(OutsideFence, t, LEGACY, maxDepth, env)
  {
    var t := RepairSentinel(TrimEnd(raw));
    BothAreMarkers();
    EndsWithIs(t, DOM_SAFE.closing);
    EndsWithIs(t, LEGACY.closing);
    if EndsWith(t, DOM_SAFE.closing) {
      ReadExactly(OutsideFence, t, DOM_SAFE, maxDepth, env);
      EndsWithLast(t, DOM_SAFE.closing);
      if EndsWith(t, LEGACY.closing) { EndsWithLast(t, LEGACY.closing); }
    } else if EndsWith(t, LEGACY.closing) {
      ReadExactly(OutsideFence, t, LEGACY, maxDepth, env);
    }
    if TrimEnd(raw) == [] { NotEnding(t); }
  }

  lemma NotEnding(t: Text)
    requires t == []
    ensures !EndsWith(t, DOM_SAFE.closing) && !EndsWith(t, LEGACY.closing)
  {
  }
}
