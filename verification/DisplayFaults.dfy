/**
 What every step keeps, whether it lands or not: the index holds live entries under their
 own ids, rows stay, and the file changes about the ids the step is about and no others.
 */
module DisplayFaults {
  import opened Collections
  import opened DisplayLog
  import opened DisplayState
  import opened DisplayIndex
  import opened DisplayRuns

  /** Live entries, each under its own id. */
  ghost predicate Entries(d: Dict<Id, Rec>) {
    && d.WF()
    && forall id :: id in d.vals ==> id != NO_ID && d.vals[id].id == id && Live(d.vals[id])
  }

  ghost predicate Base(s: Store) {
    Entries(s.index) && DbKeyed(s.db) && (!s.ready ==> s.index.vals == map[])
  }

  /** The step creates no entry under the empty id. */
  predicate NonEmptyIds(op: Op) {
    match op
    case OpCreate(d, _) => ValidDraft(d) ==> d.id.value != NO_ID
    case OpCrash(o) => NonEmptyIds(o)
    case _ => true
  }

  // ---- The index ----

  lemma NoEntries()
    ensures Entries(EmptyDict())
  {
  }

  lemma OpenBase(s: Store, readOk: bool)
    requires Base(s)
    ensures Base(Load(s)) && Base(Open(s, readOk))
  {
    PreservedScanned(s.lines, true);
    NoEntries();
  }

  lemma PutEntry(d: Dict<Id, Rec>, r: Rec)
    requires Entries(d) && r.id != NO_ID && Live(r)
    ensures Entries(d.Put(r.id, r))
  {
    d.PutKeepsWF(r.id, r);
  }

  lemma PopEntry(d: Dict<Id, Rec>, id: Id)
    requires Entries(d)
    ensures Entries(d.Pop(id))
  {
    d.PopKeepsWF(id);
  }

  /** A write changes lines only. */
  lemma CutIs(s: Store, t: Store, w: Write)
    ensures Cut(s, t, w).index == t.index && Cut(s, t, w).ready == t.ready && Cut(s, t, w).db == t.db
  {
  }

  lemma CreateBase(s: Store, d: Draft, w: Write)
    requires Base(s) && (ValidDraft(d) ==> d.id.value != NO_ID)
    ensures Base(CreateEnding(s, d, w)) && CreateEnding(s, d, w).db == s.db
  {
    OpenBase(s, true);
    if ValidDraft(d) {
      PutEntry(Load(s).index, DraftRec(d));
      CutIs(s, Create(s, d), w);
    }
  }

  lemma UpdateBase(s: Store, id: Id, p: Patch, w: Write)
    requires Base(s)
    ensures Base(UpdateEnding(s, id, p, w)) && UpdateEnding(s, id, p, w).db == s.db
  {
    OpenBase(s, true);
    CutIs(s, Update(s, id, p), w);
    if id in Pending(s) {
      PutEntry(Load(s).index, Bare(Merged(Pending(s)[id], p)));
    }
  }

  lemma CancelBase(s: Store, id: Id, w: Write)
    requires Base(s)
    ensures Base(CancelEnding(s, id, w)) && CancelEnding(s, id, w).db == s.db
  {
    OpenBase(s, true);
    UpdateBase(s, id, CANCEL, w);
    CutIs(s, Load(s), w);
  }

  lemma TombstoneBase(s: Store, id: Id, w: Write)
    requires Base(s)
    ensures Base(TombstoneEnding(s, id, w)) && TombstoneEnding(s, id, w).db == s.db
  {
    OpenBase(s, true);
    CutIs(s, Tombstone(s, id), w);
    PopEntry(Load(s).index, id);
  }

  lemma FailOneBase(s: Store, id: Id, end: FailEnd)
    requires Base(s)
    ensures Base(FailOne(s, id, end)) && FailOne(s, id, end).db == s.db
  {
    if end.FailEnd? {
      CancelBase(s, id, end.cancel);
      TombstoneBase(CancelEnding(s, id, end.cancel), id, end.tomb);
    }
  }

  lemma {:induction false} FailManyBase(s: Store, ids: seq<Id>, ends: seq<FailEnd>)
    requires Base(s)
    ensures Base(FailMany(s, ids, ends)) && FailMany(s, ids, ends).db == s.db
  {
    if ids != [] {
      FailManyBase(s, ids[..|ids| - 1], ends);
      FailOneBase(FailMany(s, ids[..|ids| - 1], ends), ids[|ids| - 1], EndAt(ends, |ids| - 1));
    }
  }

  lemma FailAllBase(s: Store, ends: seq<FailEnd>)
    requires Base(s)
    ensures Base(FailAll(s, ends)) && FailAll(s, ends).db == s.db
  {
    OpenBase(s, true);
    FailManyBase(Load(s), Load(s).index.keys, ends);
  }

  /** The row of a promotion is committed. */
  predicate Commits(s: Store, e: Rec, commitOk: bool) {
    commitOk && e.id !in s.db
  }

  /** What a promotion comes to. */
  lemma PromoteEnds(s: Store, e: Rec, commitOk: bool, w: Write)
    ensures PromoteEnding(s, e, commitOk, w)
            == if !Commits(s, e, commitOk) then Load(s)
               else if Lost(w) then Committed(s, e)
               else if w == CutShort(1) then Append(Committed(s, e), [Tomb(e.id)])
               else Append(Append(Committed(s, e), [Tomb(e.id)]), [SentRec(s, e)])
  {
    if Commits(s, e, commitOk) {
      PromoteCut(s, e, w);
      PromoteUnfolds(s, e);
      AppendTwo(Committed(s, e), Tomb(e.id), SentRec(s, e));
    } else {
      RefusedIsLoad(s, e, w);
    }
  }

  lemma PromoteBase(s: Store, e: Rec, commitOk: bool, w: Write)
    requires Base(s) && e.id != NO_ID
    ensures Base(PromoteEnding(s, e, commitOk, w))
    ensures s.db.Keys <= PromoteEnding(s, e, commitOk, w).db.Keys
  {
    OpenBase(s, true);
    PromoteEnds(s, e, commitOk, w);
    PopEntry(Load(s).index, e.id);
  }

  /** The head of the queue is a pending, queued entry without a schedule, and none was created earlier. */
  lemma HeadOf(s: Store)
    requires Base(s)
    ensures Load(s).index.WF()
    ensures Queue(s) != [] ==>
              && Queue(s)[0].id in Pending(s) && Pending(s)[Queue(s)[0].id] == Queue(s)[0] && Queue(s)[0].id != NO_ID
              && Queue(s)[0].body.status == Queued && Queue(s)[0].body.scheduledAt == None
    ensures forall id :: id in Pending(s) && Pending(s)[id].body.status == Queued && Pending(s)[id].body.scheduledAt == None ==>
              Queue(s) != [] && !Earlier(Pending(s)[id].body.createdAt, Queue(s)[0].body.createdAt)
  {
    OpenBase(s, true);
    HeadOfQueue(s);
  }

  lemma DispatchEnds(s: Store, paneReady: bool, sendOk: bool, commitOk: bool, w: Write)
    requires Base(s)
    ensures Load(s).index.WF()
    ensures DispatchEnding(s, paneReady, sendOk, commitOk, w)
            == if paneReady && sendOk && Queue(s) != [] then PromoteEnding(Load(s), Queue(s)[0], commitOk, w) else Load(s)
  {
    HeadOf(s);
    DispatchIdle(s, paneReady, sendOk, commitOk, w);
    DispatchPromotes(s, commitOk, w);
  }

  lemma DispatchBase(s: Store, paneReady: bool, sendOk: bool, commitOk: bool, w: Write)
    requires Base(s)
    ensures Load(s).index.WF()
    ensures Base(DispatchEnding(s, paneReady, sendOk, commitOk, w))
    ensures s.db.Keys <= DispatchEnding(s, paneReady, sendOk, commitOk, w).db.Keys
  {
    HeadOf(s);
    OpenBase(s, true);
    DispatchEnds(s, paneReady, sendOk, commitOk, w);
    if Queue(s) != [] { PromoteBase(Load(s), Queue(s)[0], commitOk, w); }
  }

  /** What a flush leaves alone, also where file and table overlap. */
  lemma FlushBase(s: Store, order: seq<Id>, end: FlushEnd)
    requires DbKeyed(s.db)
    ensures var t := Flush(s, order, end);
            t.index == s.index && t.ready == s.ready && DbKeyed(t.db) && t.db.Keys == s.db.Keys
  {
    FlushKeepsKeys(s, order, end);
    UndisplayedSound(s.db, order);
    NumberAllKeys(s.db, Undisplayed(s.db, order), NextDisplay(s.db));
  }

  lemma RebuildBase(s: Store, order: seq<Id>, end: RebuildEnd)
    requires Base(s)
    ensures Base(Rebuild(s, order, end)) && Rebuild(s, order, end).db.Keys == s.db.Keys
  {
    if end.resetOk {
      FlushBase(Emptied(s, end.truncateOk), order, end.flush);
      RebuiltIndex(s, order, end);
      RebuiltLines(s, order, end);
      PreservedScanned(s.lines, end.readOk);
    }
  }

  lemma UpdateLastBase(s: Store, id: Id, order: seq<Id>, end: FlushEnd)
    requires Base(s)
    ensures Base(UpdateLast(s, id, order, end)) && UpdateLast(s, id, order, end).db.Keys == s.db.Keys
  {
    FlushBase(s, order, end);
  }

  lemma OthersBase(s: Store, op: Op)
    requires Base(s) && Names(s, op)
    requires op.OpMarker? || op.OpDelete? || op.OpRestart? || op.OpArrive? || op.OpAmend?
    ensures Base(Step(s, op)) && s.db.Keys <= Step(s, op).db.Keys
  {
    match op
    case OpArrive(m) => ArriveBase(s, m);
    case OpAmend(id, body) => AmendBase(s, id, body);
    case _ => NoEntries();
  }

  lemma ArriveBase(s: Store, m: Msg)
    requires Base(s) && m.id != NO_ID
    ensures Base(Arrive(s, m)) && s.db.Keys <= Arrive(s, m).db.Keys
  {
  }

  lemma AmendBase(s: Store, id: Id, body: Body)
    requires Base(s)
    ensures Base(Amend(s, id, body)) && s.db.Keys <= Amend(s, id, body).db.Keys
  {
  }

  /** Every step keeps the index in shape and the rows in the table. */
  lemma StepBase(s: Store, op: Op)
    requires Base(s) && Names(s, op) && NonEmptyIds(op)
    ensures Base(Step(s, op)) && s.db.Keys <= Step(s, op).db.Keys
    decreases op
  {
    match op
    case OpCreate(d, w) => CreateBase(s, d, w);
    case OpUpdate(id, p, w) => UpdateBase(s, id, p, w);
    case OpCancel(id, w) => CancelBase(s, id, w);
    case OpTombstone(id, w) => TombstoneBase(s, id, w);
    case OpFailAll(ends) => FailAllBase(s, ends);
    case OpPromote(e, ok, w) =>
      OpenBase(s, true);
      PromoteBase(s, e, ok, w);
    case OpDispatch(pane, send, ok, w) => DispatchBase(s, pane, send, ok, w);
    case OpFlush(order, end) => FlushBase(s, order, end);
    case OpUpdateLast(id, order, end) => UpdateLastBase(s, id, order, end);
    case OpRebuild(order, end) => RebuildBase(s, order, end);
    case OpLoad(readOk) => OpenBase(s, readOk);
    case OpCrash(o) =>
      StepBase(s, o);
      NoEntries();
    case _ => OthersBase(s, op);
  }

  lemma {:induction false} RunBase(trace: seq<Store>, ops: seq<Op>, i: nat)
    requires Run(trace, ops) && i <= |ops| && Base(trace[0])
    requires forall j {:trigger NonEmptyIds(ops[j])} :: 0 <= j < i ==> NonEmptyIds(ops[j])
    ensures Base(trace[i])
  {
    if i > 0 {
      RunBase(trace, ops, i - 1);
      assert FollowsAt(trace, ops, i - 1) && NonEmptyIds(ops[i - 1]);
      StepBase(trace[i - 1], ops[i - 1]);
    }
  }

  // ---- Entries that are gone ----

  /** Neither the file nor the index knows the entry any more. */
  ghost predicate Away(s: Store, id: Id) {
    id !in Scan(s.lines) && id !in s.index.vals
  }

  /** The step creates no entry under this id, nor under the empty one. */
  predicate CreatesOther(op: Op, id: Id) {
    match op
    case OpCreate(d, _) => ValidDraft(d) ==> d.id.value != NO_ID && d.id.value != id
    case OpCrash(o) => CreatesOther(o, id)
    case _ => true
  }

  lemma CreatesNonEmpty(op: Op, id: Id)
    requires CreatesOther(op, id)
    ensures NonEmptyIds(op)
  {
  }

  /** A line that is dead or about another id brings no entry back. */
  lemma LineBringsNone(lines: seq<Line>, r: Rec, id: Id)
    requires id !in Scan(lines) && (r.id == id ==> !Live(r))
    ensures id !in Scan(lines + AsLines([r]))
  {
    AsLinesOne(r);
    if r.id == NO_ID {
      AppendedWithoutId(lines, r);
    } else {
      ScanAppendRec(lines, r);
    }
  }

  lemma CutBringsNone(s: Store, t: Store, r: Rec, w: Write, id: Id)
    requires t.lines == s.lines && id !in Scan(s.lines) && (r.id == id ==> !Live(r))
    ensures id !in Scan(Cut(s, Append(t, [r]), w).lines)
  {
    OneLine(s, t, r, w);
    LineBringsNone(s.lines, r, id);
  }

  lemma {:induction false} LinesBringNone(lines: seq<Line>, recs: seq<Rec>, id: Id)
    requires id !in Scan(lines)
    requires forall i :: 0 <= i < |recs| ==> recs[i].id == id ==> !Live(recs[i])
    ensures id !in Scan(lines + AsLines(recs))
  {
    if recs == [] {
      assert lines + AsLines(recs) == lines;
    } else {
      var init, r := recs[..|recs| - 1], recs[|recs| - 1];
      LinesBringNone(lines, init, id);
      AsLinesSnoc(recs);
      AsLinesOne(r);
      ConcatAssoc(lines, AsLines(init), [Obj(r)]);
      LineBringsNone(lines + AsLines(init), r, id);
    }
  }

  lemma OpenStaysAway(s: Store, readOk: bool, id: Id)
    requires Away(s, id)
    ensures Away(Load(s), id) && Away(Open(s, readOk), id) && id !in Pending(s)
  {
  }

  lemma CreateStaysAway(s: Store, d: Draft, w: Write, id: Id)
    requires Away(s, id) && (ValidDraft(d) ==> d.id.value != id)
    ensures Away(CreateEnding(s, d, w), id)
  {
    if ValidDraft(d) {
      var r, l := DraftRec(d), Load(s);
      LineBringsNone(s.lines, r, id);
      CutBringsNone(s, l.(index := l.index.Put(r.id, r)), r, w, id);
    }
  }

  lemma UpdateStaysAway(s: Store, x: Id, p: Patch, w: Write, id: Id)
    requires Base(s) && Away(s, id)
    ensures Away(UpdateEnding(s, x, p, w), id)
  {
    var l := Load(s);
    OpenBase(s, true);
    NoLine(s, l, w);
    if x in l.index.vals {
      var m := Merged(l.index.vals[x], p);
      CutBringsNone(s, l.(index := l.index.Put(x, Bare(m))), m, w, id);
    }
  }

  lemma CancelStaysAway(s: Store, x: Id, w: Write, id: Id)
    requires Base(s) && Away(s, id)
    ensures Away(CancelEnding(s, x, w), id)
  {
    NoLine(s, Load(s), w);
    UpdateStaysAway(s, x, CANCEL, w, id);
  }

  lemma TombstoneStaysAway(s: Store, x: Id, w: Write, id: Id)
    requires Base(s) && Away(s, id)
    ensures Away(TombstoneEnding(s, x, w), id)
  {
    var l := Load(s);
    NoLine(s, l, w);
    CutBringsNone(s, l.(index := l.index.Pop(x)), Tomb(x), w, id);
  }

  lemma {:induction false} FailManyStaysAway(s: Store, ids: seq<Id>, ends: seq<FailEnd>, id: Id)
    requires Base(s) && Away(s, id)
    ensures Away(FailMany(s, ids, ends), id)
  {
    if ids != [] {
      var t, x, end := FailMany(s, ids[..|ids| - 1], ends), ids[|ids| - 1], EndAt(ends, |ids| - 1);
      FailManyStaysAway(s, ids[..|ids| - 1], ends, id);
      FailManyBase(s, ids[..|ids| - 1], ends);
      if end.FailEnd? {
        CancelStaysAway(t, x, end.cancel, id);
        CancelBase(t, x, end.cancel);
        TombstoneStaysAway(CancelEnding(t, x, end.cancel), x, end.tomb, id);
      }
    }
  }

  lemma PromoteStaysAway(s: Store, e: Rec, commitOk: bool, w: Write, id: Id)
    requires Away(s, id)
    ensures Away(PromoteEnding(s, e, commitOk, w), id)
  {
    PromoteEnds(s, e, commitOk, w);
    LineBringsNone(s.lines, Tomb(e.id), id);
    LineBringsNone(s.lines + AsLines([Tomb(e.id)]), SentRec(s, e), id);
  }

  lemma FlushStaysAway(s: Store, order: seq<Id>, end: FlushEnd, id: Id)
    requires Away(s, id)
    ensures Away(Flush(s, order, end), id)
  {
    var recs := NumberedRecs(Undisplayed(s.db, order), NextDisplay(s.db));
    LinesBringNone(s.lines, recs, id);
    if end.WriteFailed? { LinesBringNone(s.lines, recs[..Min(end.written, |recs|)], id); }
  }

  lemma UpdateLastStaysAway(s: Store, x: Id, order: seq<Id>, end: FlushEnd, id: Id)
    requires Away(s, id)
    ensures Away(UpdateLast(s, x, order, end), id)
  {
    FlushStaysAway(s, order, end, id);
    if x in s.db && s.db[x].displaySeq.Some? { LineBringsNone(s.lines, Serialize(s.db[x], s.db[x].displaySeq.value, true), id); }
  }

  lemma RebuildStaysAway(s: Store, order: seq<Id>, end: RebuildEnd, id: Id)
    requires Away(s, id)
    ensures Away(Rebuild(s, order, end), id)
  {
    if end.resetOk {
      var kept, emptied := Preserved(s.lines, end.readOk), Emptied(s, end.truncateOk);
      PreservedScanned(s.lines, end.readOk);
      assert Scan([]) == map[];
      FlushStaysAway(emptied, order, end.flush, id);
      RebuiltLines(s, order, end);
      RebuiltIndex(s, order, end);
      var n := Min(end.preWritten, |kept.keys|);
      ValuesDistinct(kept, n);
      forall i | 0 <= i < n ensures kept.Values()[..n][i].id != id {
        assert IdsOf(kept.Values()[..n])[i] == kept.keys[i] && kept.keys[i] in kept.vals;
      }
      LinesBringNone(Flush(emptied, order, end.flush).lines, kept.Values()[..n], id);
    }
  }

  lemma MarkerStaysAway(s: Store, metadata: string, attempts: nat, current: int, now: nat, id: Id)
    requires Away(s, id)
    ensures Away(WriteMarker(s, metadata, attempts, current, now), id)
  {
    ScanPrepend(MarkerRec(metadata, now), s.lines);
  }

  lemma DeleteStaysAway(s: Store, unlinkOk: bool, id: Id)
    requires Away(s, id)
    ensures Away(Delete(s, unlinkOk), id)
  {
    assert Scan([]) == map[];
  }

  /** Steps that touch neither file nor index, and a restart, which forgets the index. */
  lemma RowsStayAway(s: Store, m: Msg, x: Id, body: Body, id: Id)
    requires Away(s, id)
    ensures Away(Arrive(s, m), id) && Away(Amend(s, x, body), id) && Away(Restart(s), id)
  {
  }

  /** What is away stays away, however any step ends. */
  lemma StepStaysAway(s: Store, op: Op, id: Id)
    requires Base(s) && CreatesOther(op, id) && Away(s, id)
    ensures Away(Step(s, op), id)
    decreases op
  {
    OpenStaysAway(s, true, id);
    match op
    case OpCreate(d, w) => CreateStaysAway(s, d, w, id);
    case OpUpdate(x, p, w) => UpdateStaysAway(s, x, p, w, id);
    case OpCancel(x, w) => CancelStaysAway(s, x, w, id);
    case OpTombstone(x, w) => TombstoneStaysAway(s, x, w, id);
    case OpFailAll(ends) =>
      OpenBase(s, true);
      FailManyStaysAway(Load(s), Load(s).index.keys, ends, id);
    case OpPromote(e, ok, w) => PromoteStaysAway(s, e, ok, w, id);
    case OpDispatch(pane, send, ok, w) =>
      DispatchEnds(s, pane, send, ok, w);
      if Queue(s) != [] { PromoteStaysAway(Load(s), Queue(s)[0], ok, w, id); }
    case OpFlush(order, end) => FlushStaysAway(s, order, end, id);
    case OpUpdateLast(x, order, end) => UpdateLastStaysAway(s, x, order, end, id);
    case OpRebuild(order, end) => RebuildStaysAway(s, order, end, id);
    case OpCrash(o) => StepStaysAway(s, o, id);
    case OpMarker(m, attempts, current, now) => MarkerStaysAway(s, m, attempts, current, now, id);
    case OpLoad(readOk) => OpenStaysAway(s, readOk, id);
    case OpDelete(unlinkOk) => DeleteStaysAway(s, unlinkOk, id);
    case OpArrive(m) => RowsStayAway(s, m, m.id, m.body, id);
    case OpAmend(x, body) => RowsStayAway(s, Msg(x, body, None, None), x, body, id);
    case OpRestart => RowsStayAway(s, Msg(id, NO_BODY, None, None), id, NO_BODY, id);
  }
}
