/**
 A rebuild while other threads create entries: it scans the file, empties it, writes the
 scanned entries back and replaces the index, each under its own lock. Which entries come
 through depends on where their two steps, line and index entry, fall.
 */
module DisplayRace {
  import opened Collections
  import opened DisplayLog
  import opened DisplayState
  import opened DisplayIndex

  /** How far the rebuild is. */
  datatype Phase = Untouched | Snapped | Truncated | Restored | Replaced

  /** An entry, with the phases in which its line was written and its index entry put. */
  datatype Made = Made(rec: Rec, line: Phase, entry: Option<Phase>)

  datatype Race = Race(lines: seq<Line>, index: map<Id, Rec>, snapshot: Dict<Id, Rec>, phase: Phase, made: map<Id, Made>)

  datatype Turn =
    | PutLine(d: Draft)
    | PutEntry(id: Id)
    | ScanFile
    | Truncate
    | WriteBack
    | Replace
    | RowLines(recs: seq<Rec>)     // a flush, the rebuild's own or another's

  /** Ids of new entries are new. */
  ghost predicate Enabled(c: Race, turn: Turn) {
    match turn
    case PutLine(d) => ValidDraft(d) && d.id.value != NO_ID && d.id.value !in c.made
    case PutEntry(id) => id in c.made && c.made[id].entry.None?
    case ScanFile => c.phase == Untouched
    case Truncate => c.phase == Snapped
    case WriteBack => c.phase == Truncated && c.snapshot.WF()
    case Replace => c.phase == Restored
    case RowLines(recs) => forall i :: 0 <= i < |recs| ==> recs[i].id != NO_ID && !Live(recs[i]) && recs[i].id !in c.made
  }

  function Take(c: Race, turn: Turn): Race
    requires Enabled(c, turn)
  {
    match turn
    case PutLine(d) =>
      c.(lines := c.lines + AsLines([DraftRec(d)]), made := c.made[d.id.value := Made(DraftRec(d), c.phase, None)])
    case PutEntry(id) =>
      c.(index := c.index[id := c.made[id].rec], made := c.made[id := c.made[id].(entry := Some(c.phase))])
    case ScanFile => c.(snapshot := ScanDict(c.lines), phase := Snapped)
    case Truncate => c.(lines := [], phase := Truncated)
    case WriteBack => c.(lines := c.lines + AsLines(c.snapshot.Values()), phase := Restored)
    case Replace => c.(index := c.snapshot.vals, phase := Replaced)
    case RowLines(recs) => c.(lines := c.lines + AsLines(recs))
  }

  /** With nothing in between, the steps of the rebuild and its flush are the rebuild. */
  lemma StepsAreRebuild(c: Race, s: Store, order: seq<Id>, end: RebuildEnd)
    requires c.phase == Untouched && c.lines == s.lines && c.index == s.index.vals
    requires end.readOk && end.resetOk && end.truncateOk && end.flush.Flushed? && end.preWritten >= |ScanDict(s.lines).keys|
    requires var recs := NumberedRecs(Undisplayed(Unnumbered(s.db), order), NextDisplay(Unnumbered(s.db)));
             Enabled(Take(Take(c, ScanFile), Truncate), RowLines(recs))
    ensures var recs := NumberedRecs(Undisplayed(Unnumbered(s.db), order), NextDisplay(Unnumbered(s.db)));
            var flushed := Take(Take(Take(c, ScanFile), Truncate), RowLines(recs));
            && Enabled(flushed, WriteBack)
            && var done := Take(Take(flushed, WriteBack), Replace);
               && done.lines == Rebuild(s, order, end).lines && done.index == Rebuild(s, order, end).index.vals
               && done.made == c.made
  {
    RebuiltLines(s, order, end);
    RebuiltIndex(s, order, end);
    var kept := ScanDict(s.lines);
    assert kept.Values()[..Min(end.preWritten, |kept.keys|)] == kept.Values();
    FlushOfEmptied(s, order);
  }

  lemma FlushOfEmptied(s: Store, order: seq<Id>)
    ensures Flush(Emptied(s, true), order, Flushed).lines
            == [] + AsLines(NumberedRecs(Undisplayed(Unnumbered(s.db), order), NextDisplay(Unnumbered(s.db))))
  {
    if Undisplayed(Unnumbered(s.db), order) == [] {
      assert AsLines(NumberedRecs([], NextDisplay(Unnumbered(s.db)))) == [];
    }
  }

  /** Nor is a create anything but its two steps. */
  lemma StepsAreCreate(c: Race, s: Store, d: Draft)
    requires s.ready && c.lines == s.lines && c.index == s.index.vals && Enabled(c, PutLine(d))
    ensures var m := Take(c, PutLine(d));
            && Enabled(m, PutEntry(d.id.value))
            && Take(m, PutEntry(d.id.value)).lines == Create(s, d).lines
            && Take(m, PutEntry(d.id.value)).index == Create(s, d).index.vals
  {
  }

  // ---- Where an entry is ----

  predicate OnFile(m: Made, phase: Phase) {
    match phase
    case Untouched => true
    case Snapped => true
    case Truncated => m.line == Truncated
    case _ => m.line != Snapped
  }

  predicate InIndex(m: Made, phase: Phase) {
    if phase == Replaced then m.line == Untouched || m.entry == Some(Replaced) else m.entry.Some?
  }

  ghost predicate Has(entries: map<Id, Rec>, id: Id, rec: Rec) {
    id in entries && Bare(entries[id]) == Bare(rec)
  }

  ghost predicate Holds(entries: map<Id, Rec>, id: Id, rec: Rec, there: bool) {
    if there then Has(entries, id, rec) else id !in entries
  }

  ghost predicate NotAhead(m: Made, phase: Phase) {
    match phase
    case Untouched => m.line == Untouched
    case Snapped => m.line in {Untouched, Snapped}
    case Truncated => m.line in {Untouched, Snapped, Truncated}
    case Restored => m.line != Replaced
    case Replaced => true
  }

  ghost predicate EntryOk(c: Race, id: Id)
    requires id in c.made
  {
    var m := c.made[id];
    && NotAhead(m, c.phase) && (m.entry == Some(Replaced) ==> c.phase == Replaced)
    && m.rec.id == id && Live(m.rec) && Normalise(m.rec) == m.rec
    && Holds(Scan(c.lines), id, m.rec, OnFile(m, c.phase))
    && Holds(c.index, id, m.rec, InIndex(m, c.phase))
    && (c.phase != Untouched ==> Holds(c.snapshot.vals, id, m.rec, m.line == Untouched))
  }

  ghost predicate RaceInv(c: Race) {
    && Scanned(c.snapshot)
    && (forall id {:trigger EntryOk(c, id)} :: id in c.made ==> EntryOk(c, id))
    && (forall id :: id in Scan(c.lines) || id in c.index || id in c.snapshot.vals ==> id in c.made)
  }

  // ---- One step ----

  /** Entry `id` looks the same before and after a step that keeps the phase. */
  lemma UntouchedEntry(c: Race, d: Race, id: Id)
    requires id in c.made && EntryOk(c, id) && d.phase == c.phase && d.snapshot == c.snapshot
    requires id in d.made && d.made[id] == c.made[id]
    requires (id in Scan(d.lines) <==> id in Scan(c.lines)) && (id in Scan(c.lines) ==> Scan(d.lines)[id] == Scan(c.lines)[id])
    requires (id in d.index <==> id in c.index) && (id in c.index ==> d.index[id] == c.index[id])
    ensures EntryOk(d, id)
  {
  }

  lemma PutLineOk(c: Race, d: Draft)
    requires RaceInv(c) && Enabled(c, PutLine(d))
    ensures RaceInv(Take(c, PutLine(d)))
  {
    var r, t := DraftRec(d), Take(c, PutLine(d));
    AsLinesOne(r);
    ScanAppendRec(c.lines, r);
    forall id | id in t.made ensures EntryOk(t, id) {
      if id != r.id { UntouchedEntry(c, t, id); }
    }
  }

  lemma PutEntryOk(c: Race, id: Id)
    requires RaceInv(c) && Enabled(c, PutEntry(id))
    ensures RaceInv(Take(c, PutEntry(id)))
  {
    var t := Take(c, PutEntry(id));
    assert EntryOk(c, id) && EntryOk(t, id);
    forall x | x in t.made ensures EntryOk(t, x) {
      if x != id { UntouchedEntry(c, t, x); }
    }
  }

  lemma ScanFileOk(c: Race)
    requires RaceInv(c) && c.phase == Untouched
    ensures RaceInv(Take(c, ScanFile))
  {
    PreservedScanned(c.lines, true);
    forall id | id in c.made ensures EntryOk(Take(c, ScanFile), id) {
      assert EntryOk(c, id);
    }
  }

  lemma TruncateOk(c: Race)
    requires RaceInv(c) && c.phase == Snapped
    ensures RaceInv(Take(c, Truncate))
  {
    assert Scan([]) == map[];
    forall id | id in c.made ensures EntryOk(Take(c, Truncate), id) {
      assert EntryOk(c, id);
    }
  }

  /** After the write-back the file has what it had, and the scanned entries. */
  lemma WrittenBack(c: Race)
    requires RaceInv(c)
    ensures var after := Scan(c.lines + AsLines(c.snapshot.Values()));
            forall id :: if id in c.snapshot.vals then id in after && after[id] == c.snapshot.vals[id]
                         else (id in after <==> id in Scan(c.lines)) && (id in after ==> after[id] == Scan(c.lines)[id])
  {
    var kept := c.snapshot;
    assert kept.Values()[..|kept.keys|] == kept.Values();
    ScanAppend(c.lines, AsLines(kept.Values()));
    ScanOfValues(kept, |kept.keys|);
    AllKeys(kept);
  }

  lemma WriteBackOk(c: Race)
    requires RaceInv(c) && Enabled(c, WriteBack)
    ensures RaceInv(Take(c, WriteBack))
  {
    WrittenBack(c);
    forall id | id in c.made ensures EntryOk(Take(c, WriteBack), id) {
      assert EntryOk(c, id);
    }
  }

  lemma ReplaceOk(c: Race)
    requires RaceInv(c) && Enabled(c, Replace)
    ensures RaceInv(Take(c, Replace))
  {
    forall id | id in c.made ensures EntryOk(Take(c, Replace), id) {
      assert EntryOk(c, id);
    }
  }

  lemma RowLinesOk(c: Race, recs: seq<Rec>)
    requires RaceInv(c) && Enabled(c, RowLines(recs))
    ensures RaceInv(Take(c, RowLines(recs)))
  {
    ScanAppendDead(c.lines, recs);
    forall id | id in c.made ensures EntryOk(Take(c, RowLines(recs)), id) {
      UntouchedEntry(c, Take(c, RowLines(recs)), id);
    }
  }

  lemma TurnKeepsRace(c: Race, turn: Turn)
    requires RaceInv(c) && Enabled(c, turn)
    ensures RaceInv(Take(c, turn))
  {
    match turn
    case PutLine(d) => PutLineOk(c, d);
    case PutEntry(id) => PutEntryOk(c, id);
    case ScanFile => ScanFileOk(c);
    case Truncate => TruncateOk(c);
    case WriteBack => WriteBackOk(c);
    case Replace => ReplaceOk(c);
    case RowLines(recs) => RowLinesOk(c, recs);
  }

  // ---- Every schedule ----

  ghost predicate Taken(c: Race, turn: Turn, d: Race) {
    Enabled(c, turn) && d == Take(c, turn)
  }

  /** Any number of creates, one rebuild, and flushes, in any order their own steps allow. */
  ghost predicate Schedule(trace: seq<Race>, turns: seq<Turn>) {
    && |trace| == |turns| + 1
    && forall i {:trigger turns[i]} :: 0 <= i < |turns| ==> Taken(trace[i], turns[i], trace[i + 1])
  }

  /** A loaded index that agrees with the file, before the rebuild begins. */
  ghost predicate Calm(c: Race) {
    && c.phase == Untouched && c.snapshot == EmptyDict() && SameBare(c.index, Scan(c.lines))
    && c.made == map id | id in Scan(c.lines) :: Made(Scan(c.lines)[id], Untouched, Some(Untouched))
  }

  lemma CalmEntry(c: Race, id: Id)
    requires Calm(c) && id in Scan(c.lines)
    ensures id in c.made && EntryOk(c, id)
  {
    ScanKeyed(c.lines);
    assert Bare(c.index[id]) == Bare(Scan(c.lines)[id]);
  }

  lemma CalmIsOk(c: Race)
    requires Calm(c)
    ensures RaceInv(c)
  {
    forall id | id in c.made ensures EntryOk(c, id) {
      CalmEntry(c, id);
    }
  }

  lemma {:induction false} RaceKeepsInv(trace: seq<Race>, turns: seq<Turn>, i: nat)
    requires Schedule(trace, turns) && Calm(trace[0]) && i <= |turns|
    ensures RaceInv(trace[i])
  {
    if i == 0 {
      CalmIsOk(trace[0]);
    } else {
      RaceKeepsInv(trace, turns, i - 1);
      assert Taken(trace[i - 1], turns[i - 1], trace[i]);
      TurnKeepsRace(trace[i - 1], turns[i - 1]);
    }
  }

  /** Main result: once the rebuild is through, an entry is missing from the file exactly when its line
      was written between the scan and the truncation, and from the index exactly when its
      line came after the scan and its index entry not after the replacement. A finished
      create is therefore whole exactly when its line came before the scan, or after the
      truncation with the index entry after the replacement. */
  lemma RebuildLosesExactly(trace: seq<Race>, turns: seq<Turn>, i: nat, id: Id)
    requires Schedule(trace, turns) && Calm(trace[0]) && i <= |turns|
    requires trace[i].phase == Replaced && id in trace[i].made
    ensures var c := trace[i];
            var m := c.made[id];
            && Holds(Scan(c.lines), id, m.rec, m.line != Snapped)
            && Holds(c.index, id, m.rec, m.line == Untouched || m.entry == Some(Replaced))
            && (AgreeAt(c.index, Scan(c.lines), id) <==>
                  m.line == Untouched || (m.line != Snapped <==> m.entry == Some(Replaced)))
            && (m.entry.Some? ==>
                  (Has(Scan(c.lines), id, m.rec) && Has(c.index, id, m.rec) <==>
                     m.line == Untouched || (m.line != Snapped && m.entry == Some(Replaced))))
  {
    RaceKeepsInv(trace, turns, i);
    assert EntryOk(trace[i], id);
  }

  /** Entries that were there before the rebuild always come through. */
  lemma {:induction false} OldEntriesSurvive(trace: seq<Race>, turns: seq<Turn>, i: nat, id: Id)
    requires Schedule(trace, turns) && Calm(trace[0]) && i <= |turns| && id in Scan(trace[0].lines)
    ensures id in trace[i].made && trace[i].made[id] == trace[0].made[id]
    ensures trace[i].phase == Replaced ==>
              var was := Scan(trace[0].lines)[id];
              Has(Scan(trace[i].lines), id, was) && Has(trace[i].index, id, was)
  {
    if i > 0 {
      OldEntriesSurvive(trace, turns, i - 1, id);
      assert Taken(trace[i - 1], turns[i - 1], trace[i]);
    }
    if trace[i].phase == Replaced { RebuildLosesExactly(trace, turns, i, id); }
  }
}
