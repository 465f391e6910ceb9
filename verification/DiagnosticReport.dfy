/** The diagnostic report and the incident merge (src/diagnostics/diagnostic-schema.js). */
module DiagnosticReport {
  const COUNT_CAP := 1000000
  const LIST_CAP := 32

  /** The six identifying fields; a missing identifier prints as the empty string. */
  datatype Incident = Incident(
    source: string, code: string, stage: string,
    deliveryId: string, tabId: string, documentId: string,
    occurredAt: nat)

  datatype Entry = Entry(
    incident: Incident, fingerprint: string,
    firstSeenAt: nat, lastSeenAt: nat, count: nat)

  function Join(parts: seq<string>): string {
    if |parts| == 0 then ""
    else if |parts| == 1 then parts[0]
    else parts[0] + ":" + Join(parts[1..])
  }

  function Parts(i: Incident): seq<string> {
    [i.source, i.code, i.stage, i.deliveryId, i.tabId, i.documentId]
  }

  function Fingerprint(i: Incident): string {
    Join(Parts(i))
  }

  /** What the token and identity patterns of the projection guarantee: no field holds a colon. */
  predicate ColonFree(parts: seq<string>) {
    forall p :: p in parts ==> ':' !in p
  }

  lemma {:induction false} HeadBeforeColon(a: string, b: string, x: string, y: string)
    requires ':' !in a && ':' !in b
    requires a + ":" + x == b + ":" + y
    ensures a == b && x == y
  {
    var l, r := a + ":" + x, b + ":" + y;
    assert l[|a|] == ':' && r[|b|] == ':';
    assert |a| == |b|;
    assert a == l[..|a|] && b == r[..|b|];
    assert x == l[|a| + 1..] && y == r[|b| + 1..];
  }

  /** Joining colon-free fields of equal number loses nothing. */
  lemma {:induction false} JoinInjective(a: seq<string>, b: seq<string>)
    requires |a| == |b| && ColonFree(a) && ColonFree(b)
    requires Join(a) == Join(b)
    ensures a == b
  {
    if |a| >= 2 {
      HeadBeforeColon(a[0], b[0], Join(a[1..]), Join(b[1..]));
      JoinInjective(a[1..], b[1..]);
      assert a == [a[0]] + a[1..] && b == [b[0]] + b[1..];
    }
  }

  /** Two projected incidents share a fingerprint exactly when their six fields agree. */
  lemma FingerprintIdentifies(i: Incident, j: Incident)
    requires ColonFree(Parts(i)) && ColonFree(Parts(j))
    ensures Fingerprint(i) == Fingerprint(j) <==> i == j.(occurredAt := i.occurredAt)
  {
    if Fingerprint(i) == Fingerprint(j) {
      JoinInjective(Parts(i), Parts(j));
      assert Parts(i)[0] == Parts(j)[0] && Parts(i)[1] == Parts(j)[1] && Parts(i)[2] == Parts(j)[2];
      assert Parts(i)[3] == Parts(j)[3] && Parts(i)[4] == Parts(j)[4] && Parts(i)[5] == Parts(j)[5];
    }
  }

  function Min(a: nat, b: nat): nat { if a <= b then a else b }

  /** JavaScript `items.slice(-n)`. */
  function LastN<T>(items: seq<T>, n: nat): seq<T> {
    if |items| <= n then items else items[|items| - n..]
  }

  /** Index of the first entry with this fingerprint, or the length when there is none. */
  function FindEntry(items: seq<Entry>, fp: string): (k: nat)
    ensures k <= |items|
    ensures k < |items| ==> items[k].fingerprint == fp
    ensures forall i :: 0 <= i < k ==> items[i].fingerprint != fp
  {
    if items == [] || items[0].fingerprint == fp then 0
    else
      var k := FindEntry(items[1..], fp);
      assert forall i :: 1 <= i <= k ==> items[i] == items[1..][i - 1];
      k + 1
  }

  function Bump(e: Entry, at: nat): Entry {
    e.(count := Min(COUNT_CAP, e.count + 1), lastSeenAt := at)
  }

  function NewEntry(incoming: Incident): Entry {
    Entry(incoming, Fingerprint(incoming), incoming.occurredAt, incoming.occurredAt, 1)
  }

  function Merge(previous: seq<Entry>, incoming: Incident): seq<Entry> {
    var kept := LastN(previous, LIST_CAP - 1);
    var k := FindEntry(kept, Fingerprint(incoming));
    if k < |kept| then kept[k := Bump(kept[k], incoming.occurredAt)]
    else kept + [NewEntry(incoming)]
  }

  /** The merge as the source runs it: copy the tail, look for the fingerprint, update the copy in place. */
  method MergeDiagnosticIncident(previous: seq<Entry>, incoming: Incident) returns (items: seq<Entry>)
    ensures items == Merge(previous, incoming)
    ensures |items| <= LIST_CAP
  {
    var kept := LastN(previous, LIST_CAP - 1);
    var fp := Fingerprint(incoming);
    if |kept| == 0 {
      return [NewEntry(incoming)];
    }
    var copy := new Entry[|kept|](i requires 0 <= i < |kept| => kept[i]);
    var k := 0;
    while k < copy.Length && copy[k].fingerprint != fp
      invariant 0 <= k <= copy.Length
      invariant forall i :: 0 <= i < k ==> kept[i].fingerprint != fp
    {
      k := k + 1;
    }
    assert copy[..] == kept;
    assert k == FindEntry(kept, fp);
    if k < copy.Length {
      copy[k] := Bump(copy[k], incoming.occurredAt);
      assert copy[..] == kept[k := Bump(kept[k], incoming.occurredAt)];
      items := copy[..];
    } else {
      items := copy[..] + [NewEntry(incoming)];
    }
  }

  predicate Distinct(items: seq<Entry>) {
    forall i, j :: 0 <= i < j < |items| ==> items[i].fingerprint != items[j].fingerprint
  }

  /** The count recorded for a fingerprint; 0 when it is not listed. */
  function CountOf(items: seq<Entry>, fp: string): nat {
    var k := FindEntry(items, fp);
    if k < |items| then items[k].count else 0
  }

  predicate Listed(items: seq<Entry>, fp: string) {
    FindEntry(items, fp) < |items|
  }

  lemma ListedAt(items: seq<Entry>, fp: string, i: nat)
    requires i < |items| && items[i].fingerprint == fp && Distinct(items)
    ensures FindEntry(items, fp) == i && CountOf(items, fp) == items[i].count
  {
  }

  /** One merge keeps fingerprints distinct, bumps exactly the incoming one and leaves the rest of the
      last 31 entries alone. An entry before the last 31 is forgotten, the incoming one included. */
  lemma MergeCounts(previous: seq<Entry>, incoming: Incident, fp: string)
    requires Distinct(previous)
    ensures Distinct(Merge(previous, incoming))
    ensures CountOf(Merge(previous, incoming), fp) ==
            (var old31 := CountOf(LastN(previous, 31), fp);
             if fp == Fingerprint(incoming) then Min(1000000, old31 + 1) else old31)
  {
    var kept := LastN(previous, LIST_CAP - 1);
    var now := Merge(previous, incoming);
    var k := FindEntry(kept, Fingerprint(incoming));
    assert Distinct(kept);
    var j := FindEntry(kept, fp);
    if k < |kept| {
      assert forall i :: 0 <= i < |kept| ==> now[i].fingerprint == kept[i].fingerprint;
      if j < |kept| { ListedAt(now, fp, j); } else { assert FindEntry(now, fp) == |now|; }
    } else {
      if fp == Fingerprint(incoming) {
        ListedAt(now, fp, |kept|);
      } else if j < |kept| {
        ListedAt(now, fp, j);
      } else {
        assert forall i :: 0 <= i < |now| ==> now[i].fingerprint != fp;
      }
    }
  }

  // ------------------------------------------------------------------ whole histories

  function MergeAll(history: seq<Incident>): seq<Entry> {
    if history == [] then [] else Merge(MergeAll(history[..|history| - 1]), history[|history| - 1])
  }

  function Occurrences(history: seq<Incident>, fp: string): nat {
    if history == [] then 0
    else Occurrences(history[..|history| - 1], fp)
         + (if Fingerprint(history[|history| - 1]) == fp then 1 else 0)
  }

  ghost function Fingerprints(history: seq<Incident>): set<string> {
    set i | 0 <= i < |history| :: Fingerprint(history[i])
  }

  /** No count is ever invented: over any history the report lists each fingerprint at most once and
      never counts more incidents than occurred. */
  lemma {:induction false} CountsAreSound(history: seq<Incident>, fp: string)
    ensures Distinct(MergeAll(history)) && |MergeAll(history)| <= 32
    ensures CountOf(MergeAll(history), fp) <= Min(1000000, Occurrences(history, fp))
  {
    if history != [] {
      var before := MergeAll(history[..|history| - 1]);
      CountsAreSound(history[..|history| - 1], fp);
      MergeCounts(before, history[|history| - 1], fp);
      LastCounts(before, LIST_CAP - 1, fp);
    }
  }

  /** Cutting the front of a list raises no count. */
  lemma LastCounts(items: seq<Entry>, n: nat, fp: string)
    requires Distinct(items)
    ensures CountOf(LastN(items, n), fp) <= CountOf(items, fp)
  {
    var kept := LastN(items, n);
    var j := FindEntry(kept, fp);
    if j < |kept| { ListedAt(items, fp, |items| - |kept| + j); }
  }

  ghost function EntryFingerprints(items: seq<Entry>): set<string> {
    set i | 0 <= i < |items| :: items[i].fingerprint
  }

  lemma {:induction false} DistinctSize(items: seq<Entry>)
    requires Distinct(items)
    ensures |EntryFingerprints(items)| == |items|
  {
    if items != [] {
      var init := items[..|items| - 1];
      DistinctSize(init);
      assert EntryFingerprints(items) == EntryFingerprints(init) + {items[|items| - 1].fingerprint};
    }
  }

  /** As long as at most 31 different incidents occur, every count is exact (up to its cap). */
  lemma {:induction false} CountsAreExact(history: seq<Incident>, fp: string)
    requires |Fingerprints(history)| <= 31
    ensures EntryFingerprints(MergeAll(history)) == Fingerprints(history)
    ensures CountOf(MergeAll(history), fp) == Min(1000000, Occurrences(history, fp))
  {
    if history != [] {
      var past, last := history[..|history| - 1], history[|history| - 1];
      assert Fingerprints(history) == Fingerprints(past) + {Fingerprint(last)};
      if Fingerprint(last) in Fingerprints(past) {
        assert Fingerprints(history) == Fingerprints(past);
      }
      CountsAreExact(past, fp);
      CountsAreSound(past, fp);
      var before := MergeAll(past);
      DistinctSize(before);
      MergeCounts(before, last, fp);
      assert LastN(before, LIST_CAP - 1) == before;
      MergeFingerprints(before, last);
    }
  }

  lemma MergeFingerprints(before: seq<Entry>, last: Incident)
    requires |before| <= LIST_CAP - 1
    ensures EntryFingerprints(Merge(before, last)) == EntryFingerprints(before) + {Fingerprint(last)}
  {
    var now := Merge(before, last);
    var k := FindEntry(before, Fingerprint(last));
    if k < |before| {
      assert now[k].fingerprint == before[k].fingerprint;
      assert forall i :: 0 <= i < |before| ==> now[i].fingerprint == before[i].fingerprint;
    } else {
      assert now[|before|].fingerprint == Fingerprint(last);
      assert forall i :: 0 <= i < |before| ==> now[i] == before[i];
    }
  }

  /** The bound is sharp: once 32 are listed, the oldest is dropped before the lookup, so an incident
      equal to the oldest restarts at 1 whatever its count was. */
  lemma OldestOfFullListRestarts(previous: seq<Entry>, incoming: Incident)
    requires |previous| == 32 && Distinct(previous)
    requires previous[0].fingerprint == Fingerprint(incoming)
    ensures CountOf(Merge(previous, incoming), Fingerprint(incoming)) == 1
  {
    var kept := LastN(previous, LIST_CAP - 1);
    assert forall i :: 0 <= i < |kept| ==> kept[i] == previous[i + 1];
    MergeCounts(previous, incoming, Fingerprint(incoming));
  }

  // ------------------------------------------------------------------ what an entry tells of the history

  /** No incident with this fingerprint from n on. */
  predicate NoneFrom(history: seq<Incident>, fp: string, n: nat) {
    forall i :: n <= i < |history| ==> Fingerprint(history[i]) != fp
  }

  /** The entry was opened by incident f, shows its time and that of the fingerprint's last incident, and counts
      every occurrence since f. */
  ghost predicate Tells(history: seq<Incident>, e: Entry, f: nat) {
    && f < |history| && Fingerprint(history[f]) == e.fingerprint && e.incident == history[f]
    && e.firstSeenAt == history[f].occurredAt
    && (exists l :: f <= l < |history| && Fingerprint(history[l]) == e.fingerprint
                    && e.lastSeenAt == history[l].occurredAt && NoneFrom(history, e.fingerprint, l + 1))
    && e.count == Min(1000000, Occurrences(history[f..], e.fingerprint))
  }

  lemma TellsOther(history: seq<Incident>, e: Entry, f: nat)
    requires history != [] && Tells(history[..|history| - 1], e, f) && Fingerprint(history[|history| - 1]) != e.fingerprint
    ensures Tells(history, e, f)
  {
    var past := history[..|history| - 1];
    var l :| f <= l < |past| && Fingerprint(past[l]) == e.fingerprint
             && e.lastSeenAt == past[l].occurredAt && NoneFrom(past, e.fingerprint, l + 1);
    assert NoneFrom(history, e.fingerprint, l + 1) by {
      forall i | l + 1 <= i < |history| ensures Fingerprint(history[i]) != e.fingerprint {
        if i < |past| { assert past[i] == history[i]; }
      }
    }
    assert history[l] == past[l];
    assert history[f..][..|history| - f - 1] == past[f..];
  }

  lemma TellsAgain(history: seq<Incident>, e: Entry, f: nat)
    requires history != [] && Tells(history[..|history| - 1], e, f) && Fingerprint(history[|history| - 1]) == e.fingerprint
    ensures Tells(history, Bump(e, history[|history| - 1].occurredAt), f)
  {
    var n := |history| - 1;
    assert history[f..][..n - f] == history[..n][f..];
    assert NoneFrom(history, e.fingerprint, n + 1);
  }

  lemma TellsNew(history: seq<Incident>)
    requires history != []
    ensures Tells(history, NewEntry(history[|history| - 1]), |history| - 1)
  {
    var n := |history| - 1;
    assert history[n..] == [history[n]] && [history[n]][..0] == [];
    assert NoneFrom(history, Fingerprint(history[n]), n + 1);
  }

  predicate Rising(firsts: seq<nat>, n: nat) {
    (forall i, j :: 0 <= i < j < |firsts| ==> firsts[i] < firsts[j]) && forall i :: 0 <= i < |firsts| ==> firsts[i] < n
  }

  ghost predicate AllTell(history: seq<Incident>, items: seq<Entry>, firsts: seq<nat>) {
    && |firsts| == |items| && Rising(firsts, |history|)
    && forall k :: 0 <= k < |items| ==> Tells(history, items[k], firsts[k])
  }

  lemma LastTell(history: seq<Incident>, items: seq<Entry>, firsts: seq<nat>, n: nat)
    requires AllTell(history, items, firsts) && Distinct(items)
    ensures AllTell(history, LastN(items, n), LastN(firsts, n)) && Distinct(LastN(items, n))
  {
  }

  lemma FoundTell(history: seq<Incident>, kept: seq<Entry>, firsts: seq<nat>, k: nat)
    requires history != [] && AllTell(history[..|history| - 1], kept, firsts) && Distinct(kept)
    requires k < |kept| && kept[k].fingerprint == Fingerprint(history[|history| - 1])
    ensures AllTell(history, kept[k := Bump(kept[k], history[|history| - 1].occurredAt)], firsts)
  {
    var items := kept[k := Bump(kept[k], history[|history| - 1].occurredAt)];
    forall i | 0 <= i < |items| ensures Tells(history, items[i], firsts[i]) {
      if i == k { TellsAgain(history, kept[i], firsts[i]); } else { TellsOther(history, kept[i], firsts[i]); }
    }
  }

  lemma NewTell(history: seq<Incident>, kept: seq<Entry>, firsts: seq<nat>)
    requires history != [] && AllTell(history[..|history| - 1], kept, firsts)
    requires forall i :: 0 <= i < |kept| ==> kept[i].fingerprint != Fingerprint(history[|history| - 1])
    ensures AllTell(history, kept + [NewEntry(history[|history| - 1])], firsts + [|history| - 1])
  {
    forall i | 0 <= i < |kept| ensures Tells(history, kept[i], firsts[i]) { TellsOther(history, kept[i], firsts[i]); }
    TellsNew(history);
  }

  /** Over any history the list is in the order its entries were opened, and each entry tells when it was opened and
      last seen and how often since. */
  lemma {:induction false} ListTellsHistory(history: seq<Incident>) returns (firsts: seq<nat>)
    ensures AllTell(history, MergeAll(history), firsts)
  {
    if history == [] {
      firsts := [];
    } else {
      var past, last := history[..|history| - 1], history[|history| - 1];
      firsts := ListTellsHistory(past);
      CountsAreSound(past, "");
      LastTell(past, MergeAll(past), firsts, LIST_CAP - 1);
      firsts := MergeTells(history, LastN(MergeAll(past), LIST_CAP - 1), LastN(firsts, LIST_CAP - 1));
    }
  }

  lemma MergeTells(history: seq<Incident>, kept: seq<Entry>, firsts: seq<nat>) returns (now: seq<nat>)
    requires history != [] && AllTell(history[..|history| - 1], kept, firsts) && Distinct(kept)
    ensures var last := history[|history| - 1];
            var k := FindEntry(kept, Fingerprint(last));
            AllTell(history, if k < |kept| then kept[k := Bump(kept[k], last.occurredAt)] else kept + [NewEntry(last)], now)
  {
    var k := FindEntry(kept, Fingerprint(history[|history| - 1]));
    if k < |kept| {
      FoundTell(history, kept, firsts, k);
      now := firsts;
    } else {
      NewTell(history, kept, firsts);
      now := firsts + [|history| - 1];
    }
  }

  /** Whatever came before, the last incident is listed. */
  lemma LastIsListed(history: seq<Incident>)
    requires history != []
    ensures Listed(MergeAll(history), Fingerprint(history[|history| - 1]))
  {
    var last := history[|history| - 1];
    CountsAreSound(history[..|history| - 1], "");
    MergeCounts(MergeAll(history[..|history| - 1]), last, Fingerprint(last));
  }

  // ------------------------------------------------------------------ the report

  datatype Section = Server | Repair | DeliveryReview | Extension | Startup | DeliveryRecovery

  datatype Update = SetSection(section: Section, record: string) | AddIncident(incident: Incident)

  datatype Report = Report(sections: map<Section, string>, incidents: seq<Entry>)

  const EMPTY_REPORT := Report(map[], [])

  function Apply(report: Report, update: Update): Report {
    match update
    case SetSection(section, record) => report.(sections := report.sections[section := record])
    case AddIncident(incident) => report.(incidents := Merge(report.incidents, incident))
  }

  function Fold(updates: seq<Update>): Report {
    if updates == [] then EMPTY_REPORT
    else Apply(Fold(updates[..|updates| - 1]), updates[|updates| - 1])
  }

  // ------------------------------------------------------------------ what a list of updates leaves

  predicate Sets(update: Update, section: Section) { update.SetSection? && update.section == section }

  /** Update i sets the section, and no later one does. */
  predicate LastSets(updates: seq<Update>, i: nat, section: Section) {
    i < |updates| && Sets(updates[i], section) && forall j :: i < j < |updates| ==> !Sets(updates[j], section)
  }

  /** The incidents among the updates, in their order. */
  function IncidentsOf(updates: seq<Update>): seq<Incident> {
    if updates == [] then []
    else
      var past, last := IncidentsOf(updates[..|updates| - 1]), updates[|updates| - 1];
      if last.AddIncident? then past + [last.incident] else past
  }

  /** One update sets its section or merges its incident, and leaves everything else alone. */
  predicate OneUpdate(before: Report, after: Report, update: Update) {
    match update
    case SetSection(section, record) =>
      && after.incidents == before.incidents && after.sections.Keys == before.sections.Keys + {section}
      && after.sections[section] == record
      && forall other <- before.sections :: other != section ==> after.sections[other] == before.sections[other]
    case AddIncident(incident) => after.sections == before.sections && after.incidents == Merge(before.incidents, incident)
  }

  lemma AppliesOne(report: Report, update: Update)
    ensures OneUpdate(report, Apply(report, update), update)
  {
  }

  ghost predicate SomeSets(updates: seq<Update>, section: Section) {
    exists i :: 0 <= i < |updates| && Sets(updates[i], section)
  }

  lemma SomeSetsStep(updates: seq<Update>, section: Section)
    requires updates != []
    ensures SomeSets(updates, section) <==>
            SomeSets(updates[..|updates| - 1], section) || Sets(updates[|updates| - 1], section)
  {
    var past := updates[..|updates| - 1];
    if i :| 0 <= i < |past| && Sets(past[i], section) { assert Sets(updates[i], section); }
    if i :| 0 <= i < |past| && Sets(updates[i], section) { assert Sets(past[i], section); }
  }

  /** The folded report has exactly the sections that some update sets. */
  lemma {:induction false} FoldedSections(updates: seq<Update>, section: Section)
    ensures section in Fold(updates).sections <==> SomeSets(updates, section)
  {
    if updates != [] {
      FoldedSections(updates[..|updates| - 1], section);
      AppliesOne(Fold(updates[..|updates| - 1]), updates[|updates| - 1]);
      SomeSetsStep(updates, section);
    }
  }

  /** Each with the record of the last update that sets it. */
  lemma {:induction false} FoldedRecord(updates: seq<Update>, i: nat, section: Section)
    requires LastSets(updates, i, section)
    ensures section in Fold(updates).sections && Fold(updates).sections[section] == updates[i].record
  {
    var n := |updates| - 1;
    AppliesOne(Fold(updates[..n]), updates[n]);
    if i < n {
      assert LastSets(updates[..n], i, section) && !Sets(updates[n], section);
      FoldedRecord(updates[..n], i, section);
    }
  }

  /** And its incidents are the merge of all incidents in their order. */
  lemma {:induction false} FoldedIncidents(updates: seq<Update>)
    ensures Fold(updates).incidents == MergeAll(IncidentsOf(updates))
  {
    if updates != [] {
      var past, last := updates[..|updates| - 1], updates[|updates| - 1];
      FoldedIncidents(past);
      if last.AddIncident? { assert (IncidentsOf(past) + [last.incident])[..|IncidentsOf(past)|] == IncidentsOf(past); }
    }
  }
}
