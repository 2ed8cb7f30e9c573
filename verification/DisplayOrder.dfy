/**
 Delivery order: of two queued messages the one created first is sent first, with the
 smaller sequence numbers, whatever fails along the way; and what a shutdown leaves.
 */
module DisplayOrder {
  import opened Collections
  import opened DisplayLog
  import opened DisplayState
  import opened DisplayIndex
  import opened DisplayRuns
  import opened DisplayFaults

  /** Entry `id` is queued, without a schedule, and was created at `at`. */
  predicate WaitingIn(entries: map<Id, Rec>, id: Id, at: Option<nat>) {
    && id in entries && entries[id].body.status == Queued && entries[id].body.scheduledAt == None
    && entries[id].body.createdAt == at
  }

  /** `id` has no row and waits in the file, created at `at`; so it does in the index if the index has it. */
  ghost predicate Waiting(s: Store, id: Id, at: Option<nat>) {
    && id !in s.db && WaitingIn(Scan(s.lines), id, at)
    && (id in s.index.vals ==> WaitingIn(s.index.vals, id, at))
  }

  /** Two waiting entries, of which the index does not have the later one alone. */
  ghost predicate WaitTogether(s: Store, a: Id, ta: Option<nat>, b: Id, tb: Option<nat>) {
    Waiting(s, a, ta) && Waiting(s, b, tb) && (b in s.index.vals ==> a in s.index.vals)
  }

  /** A rebuild that empties the file and does not write the entry back. */
  ghost predicate Drops(s: Store, end: RebuildEnd, id: Id) {
    && end.resetOk && end.truncateOk
    && !(end.readOk && id in ScanDict(s.lines).keys[..Min(end.preWritten, |ScanDict(s.lines).keys|)])
  }

  /** The operation leaves entry `id` to the dispatcher: it neither edits, cancels, deletes nor directly
      promotes it, nor is it a rebuild that drops it. */
  ghost predicate Quiet(s: Store, op: Op, id: Id) {
    match op
    case OpCreate(d, _) => ValidDraft(d) ==> d.id.value != id
    case OpUpdate(x, _, _) => x != id
    case OpCancel(x, _) => x != id
    case OpTombstone(x, _) => x != id
    case OpFailAll(_) => false
    case OpPromote(e, _, _) => e.id != id
    case OpRebuild(_, end) => !Drops(s, end, id)
    case OpDelete(_) => false
    case OpCrash(o) => Quiet(s, o, id)
    case _ => true
  }

  predicate Rebuilds(op: Op) {
    match op
    case OpRebuild(_, _) => true
    case OpCrash(o) => Rebuilds(o)
    case _ => false
  }

  // ---- What the file keeps of an entry ----

  lemma LineLeaves(lines: seq<Line>, r: Rec, id: Id)
    requires r.id != id
    ensures SameAtIn(Scan(lines), Scan(lines + AsLines([r])), id)
  {
    AsLinesOne(r);
    if r.id == NO_ID {
      AppendedWithoutId(lines, r);
    } else {
      ScanAppendRec(lines, r);
    }
  }

  /** A line about another id, written or lost. */
  lemma CutLeaves(s: Store, t: Store, r: Rec, w: Write, id: Id)
    requires t.lines == s.lines && r.id != id
    ensures SameAtIn(Scan(s.lines), Scan(Cut(s, Append(t, [r]), w).lines), id)
  {
    OneLine(s, t, r, w);
    LineLeaves(s.lines, r, id);
  }

  lemma {:induction false} LinesLeave(lines: seq<Line>, recs: seq<Rec>, id: Id)
    requires forall i :: 0 <= i < |recs| ==> recs[i].id != id
    ensures SameAtIn(Scan(lines), Scan(lines + AsLines(recs)), id)
  {
    if recs == [] {
      assert lines + AsLines(recs) == lines;
    } else {
      var init, r := recs[..|recs| - 1], recs[|recs| - 1];
      LinesLeave(lines, init, id);
      AsLinesSnoc(recs);
      AsLinesOne(r);
      ConcatAssoc(lines, AsLines(init), [Obj(r)]);
      LineLeaves(lines + AsLines(init), r, id);
    }
  }

  /** A flush writes about rows only. */
  lemma FlushLeaves(s: Store, order: seq<Id>, end: FlushEnd, id: Id)
    requires DbKeyed(s.db) && id !in s.db
    ensures SameAtIn(Scan(s.lines), Scan(Flush(s, order, end).lines), id)
  {
    UndisplayedSound(s.db, order);
    var recs := NumberedRecs(Undisplayed(s.db, order), NextDisplay(s.db));
    LinesLeave(s.lines, recs, id);
    if end.WriteFailed? { LinesLeave(s.lines, recs[..Min(end.written, |recs|)], id); }
  }

  /** Entries written back are read back; the others are as they were before. */
  lemma WrittenBack(lines: seq<Line>, kept: Dict<Id, Rec>, n: nat, id: Id)
    requires Scanned(kept) && n <= |kept.keys|
    ensures var after := Scan(lines + AsLines(kept.Values()[..n]));
            if id in kept.keys[..n] then SameAtIn(kept.vals, after, id) else SameAtIn(Scan(lines), after, id)
  {
    ScanAppend(lines, AsLines(kept.Values()[..n]));
    ScanOfValues(kept, n);
  }

  lemma RebuildLeaves(s: Store, order: seq<Id>, end: RebuildEnd, id: Id)
    requires DbKeyed(s.db) && id !in s.db && end.resetOk && !Drops(s, end, id)
    ensures SameAtIn(Scan(s.lines), Scan(Rebuild(s, order, end).lines), id)
  {
    var kept, emptied := Preserved(s.lines, end.readOk), Emptied(s, end.truncateOk);
    PreservedScanned(s.lines, end.readOk);
    FlushLeaves(emptied, order, end.flush, id);
    RebuiltLines(s, order, end);
    WrittenBack(Flush(emptied, order, end.flush).lines, kept, Min(end.preWritten, |kept.keys|), id);
  }

  // ---- What the index keeps of an entry ----

  /** The index the step starts from: the one there was, a replay of the file, or none. */
  ghost function Source(s: Store, op: Op): map<Id, Rec> {
    match op
    case OpCreate(d, _) => if ValidDraft(d) then Pending(s) else s.index.vals
    case OpLoad(readOk) => Open(s, readOk).index.vals
    case OpRebuild(_, end) => if end.resetOk then Preserved(s.lines, end.readOk).vals else s.index.vals
    case OpRestart => map[]
    case OpCrash(_) => map[]
    case OpUpdate(_, _, _) => Pending(s)
    case OpCancel(_, _) => Pending(s)
    case OpTombstone(_, _) => Pending(s)
    case OpPromote(_, _, _) => Pending(s)
    case _ => s.index.vals
  }

  lemma SourceIs(s: Store, op: Op)
    ensures Source(s, op) == s.index.vals || Source(s, op) == Scan(s.lines) || Source(s, op) == map[]
  {
  }

  /** The step from `s` to `t` leaves entry `id` as it was in the file and in the index it starts from,
      and gives it no row. */
  ghost predicate Frame(s: Store, source: map<Id, Rec>, t: Store, id: Id) {
    SameAtIn(Scan(s.lines), Scan(t.lines), id) && SameAtIn(source, t.index.vals, id) && id !in t.db
  }

  lemma CreateFrame(s: Store, d: Draft, w: Write, id: Id)
    requires id !in s.db && (ValidDraft(d) ==> d.id.value != id)
    ensures Frame(s, Source(s, OpCreate(d, w)), CreateEnding(s, d, w), id)
  {
    if ValidDraft(d) {
      var r, l := DraftRec(d), Load(s);
      LineLeaves(s.lines, r, id);
      CutLeaves(s, l.(index := l.index.Put(r.id, r)), r, w, id);
    }
  }

  lemma UpdateFrame(s: Store, x: Id, p: Patch, w: Write, id: Id)
    requires Base(s) && id !in s.db && x != id
    ensures Frame(s, Pending(s), UpdateEnding(s, x, p, w), id)
  {
    var l := Load(s);
    OpenBase(s, true);
    NoLine(s, l, w);
    if x in l.index.vals {
      var m := Merged(l.index.vals[x], p);
      CutLeaves(s, l.(index := l.index.Put(x, Bare(m))), m, w, id);
    }
  }

  lemma CancelFrame(s: Store, x: Id, w: Write, id: Id)
    requires Base(s) && id !in s.db && x != id
    ensures Frame(s, Pending(s), CancelEnding(s, x, w), id)
  {
    NoLine(s, Load(s), w);
    UpdateFrame(s, x, CANCEL, w, id);
  }

  lemma TombstoneFrame(s: Store, x: Id, w: Write, id: Id)
    requires id !in s.db && x != id
    ensures Frame(s, Pending(s), TombstoneEnding(s, x, w), id)
  {
    var l := Load(s);
    if x !in l.index.vals || l.index.vals[x].body.status != Cancelled {
      NoLine(s, l, w);
    } else {
      var t := l.(index := l.index.Pop(x));
      CutLeaves(s, t, Tomb(x), w, id);
      CutIs(s, Append(t, [Tomb(x)]), w);
    }
  }

  /** One more line about another id. */
  lemma LineFrame(s: Store, source: map<Id, Rec>, t: Store, r: Rec, id: Id)
    requires Frame(s, source, t, id) && r.id != id
    ensures Frame(s, source, Append(t, [r]), id)
  {
    LineLeaves(t.lines, r, id);
  }

  lemma PopFrame(d: Dict<Id, Rec>, x: Id, id: Id)
    ensures x != id ==> SameAtIn(d.vals, d.Pop(x).vals, id)
  {
  }

  lemma InsertFrame(db: map<Id, Msg>, m: Msg, id: Id)
    ensures id !in db && m.id != id ==> id !in db[m.id := m]
  {
  }

  lemma CommittedFrame(s: Store, e: Rec, id: Id)
    requires id !in s.db && e.id != id
    ensures Frame(s, Pending(s), Committed(s, e), id)
  {
    PopFrame(Load(s).index, e.id, id);
    InsertFrame(s.db, PromotedMsg(Load(s), e), id);
  }

  lemma PromoteFrame(s: Store, e: Rec, commitOk: bool, w: Write, id: Id)
    requires id !in s.db && e.id != id
    ensures Frame(s, Pending(s), PromoteEnding(s, e, commitOk, w), id)
  {
    PromoteEnds(s, e, commitOk, w);
    if Commits(s, e, commitOk) {
      CommittedFrame(s, e, id);
      LineFrame(s, Pending(s), Committed(s, e), Tomb(e.id), id);
      LineFrame(s, Pending(s), Append(Committed(s, e), [Tomb(e.id)]), SentRec(s, e), id);
    }
  }

  lemma FlushFrame(s: Store, order: seq<Id>, end: FlushEnd, id: Id)
    requires Base(s) && id !in s.db
    ensures Frame(s, s.index.vals, Flush(s, order, end), id)
  {
    FlushBase(s, order, end);
    FlushLeaves(s, order, end, id);
  }

  lemma UpdateLastFrame(s: Store, x: Id, order: seq<Id>, end: FlushEnd, id: Id)
    requires Base(s) && id !in s.db
    ensures Frame(s, s.index.vals, UpdateLast(s, x, order, end), id)
  {
    if x in s.db && s.db[x].displaySeq.None? {
      FlushFrame(s, order, end, id);
    } else if x in s.db {
      LineFrame(s, s.index.vals, s, Serialize(s.db[x], s.db[x].displaySeq.value, true), id);
    }
  }

  lemma RebuildFrame(s: Store, order: seq<Id>, end: RebuildEnd, id: Id)
    requires Base(s) && id !in s.db && !Drops(s, end, id)
    ensures Frame(s, Source(s, OpRebuild(order, end)), Rebuild(s, order, end), id)
  {
    RebuildBase(s, order, end);
    if end.resetOk {
      RebuildLeaves(s, order, end, id);
      RebuiltIndex(s, order, end);
    }
  }

  lemma MarkerFrame(s: Store, metadata: string, attempts: nat, current: int, now: nat, id: Id)
    requires id !in s.db
    ensures Frame(s, s.index.vals, WriteMarker(s, metadata, attempts, current, now), id)
  {
    ScanPrepend(MarkerRec(metadata, now), s.lines);
  }

  lemma FileFrame(s: Store, op: Op, id: Id)
    requires Base(s) && Quiet(s, op, id) && id !in s.db
    requires op.OpFlush? || op.OpUpdateLast? || op.OpMarker? || op.OpRebuild?
    ensures Frame(s, Source(s, op), Step(s, op), id)
  {
    match op
    case OpFlush(order, end) => FlushFrame(s, order, end, id);
    case OpUpdateLast(x, order, end) => UpdateLastFrame(s, x, order, end, id);
    case OpMarker(m, attempts, current, now) => MarkerFrame(s, m, attempts, current, now, id);
    case OpRebuild(order, end) => RebuildFrame(s, order, end, id);
  }

  /** A step that is quiet about an entry without a row, and is not a dispatch, leaves it alone. */
  lemma EntryFrame(s: Store, op: Op, id: Id)
    requires Base(s) && Names(s, op) && Quiet(s, op, id) && !op.OpDispatch? && !op.OpCrash?
    requires id !in s.db && id in Scan(s.lines)
    ensures Frame(s, Source(s, op), Step(s, op), id)
  {
    match op
    case OpCreate(d, w) => CreateFrame(s, d, w, id);
    case OpUpdate(x, p, w) => UpdateFrame(s, x, p, w, id);
    case OpCancel(x, w) => CancelFrame(s, x, w, id);
    case OpTombstone(x, w) => TombstoneFrame(s, x, w, id);
    case OpPromote(e, ok, w) => PromoteFrame(s, e, ok, w, id);
    case OpRestart =>
    case OpLoad(_) =>
    case OpArrive(_) =>
    case OpAmend(_, _) =>
    case _ => FileFrame(s, op, id);
  }

  // ---- What the table keeps of a row ----

  /** Rows keep their dispatch number for ever, and their display number unless a rebuild resets it. */
  ghost predicate SameRow(a: map<Id, Msg>, b: map<Id, Msg>, id: Id, display: bool) {
    id in a ==> id in b && b[id].dispatchSeq == a[id].dispatchSeq
                && (display && a[id].displaySeq.Some? ==> b[id].displaySeq == a[id].displaySeq)
  }

  lemma {:induction false} NumberAllFrame(db: map<Id, Msg>, msgs: seq<Msg>, next: nat, id: Id)
    requires forall i :: 0 <= i < |msgs| ==> msgs[i].id in db && db[msgs[i].id] == msgs[i] && msgs[i].displaySeq.None?
    ensures SameRow(db, NumberAll(db, msgs, next), id, true)
  {
    if msgs != [] {
      NumberAllFrame(db, msgs[..|msgs| - 1], next, id);
    }
  }

  lemma FlushRow(s: Store, order: seq<Id>, end: FlushEnd, id: Id)
    requires DbKeyed(s.db)
    ensures SameRow(s.db, Flush(s, order, end).db, id, true)
  {
    UndisplayedSound(s.db, order);
    NumberAllFrame(s.db, Undisplayed(s.db, order), NextDisplay(s.db), id);
  }

  lemma PromoteRow(s: Store, e: Rec, commitOk: bool, w: Write, id: Id)
    ensures SameRow(s.db, PromoteEnding(s, e, commitOk, w).db, id, true)
  {
  }

  lemma RebuildRow(s: Store, order: seq<Id>, end: RebuildEnd, id: Id)
    requires Base(s)
    ensures SameRow(s.db, Rebuild(s, order, end).db, id, false)
  {
    FlushRow(Emptied(s, end.truncateOk), order, end.flush, id);
  }

  predicate LeavesRows(op: Op) {
    op.OpCreate? || op.OpUpdate? || op.OpCancel? || op.OpTombstone? || op.OpFailAll? || op.OpMarker?
    || op.OpDelete? || op.OpRestart? || op.OpLoad?
  }

  lemma RowsUntouched(s: Store, op: Op)
    requires Base(s) && LeavesRows(op) && NonEmptyIds(op)
    ensures Step(s, op).db == s.db
  {
    match op
    case OpCreate(d, w) => CreateBase(s, d, w);
    case OpUpdate(id, p, w) => UpdateBase(s, id, p, w);
    case OpCancel(id, w) => CancelBase(s, id, w);
    case OpTombstone(id, w) => TombstoneBase(s, id, w);
    case OpFailAll(ends) => FailAllBase(s, ends);
    case _ =>
  }

  lemma DispatchRow(s: Store, paneReady: bool, sendOk: bool, commitOk: bool, w: Write, id: Id)
    requires Base(s)
    ensures Load(s).index.WF()
    ensures SameRow(s.db, DispatchEnding(s, paneReady, sendOk, commitOk, w).db, id, true)
  {
    HeadOf(s);
    DispatchEnds(s, paneReady, sendOk, commitOk, w);
    if Queue(s) != [] { PromoteRow(Load(s), Queue(s)[0], commitOk, w, id); }
  }

  lemma RowFrame(s: Store, op: Op, id: Id)
    requires Base(s) && Names(s, op) && NonEmptyIds(op)
    ensures SameRow(s.db, Step(s, op).db, id, !Rebuilds(op))
    decreases op
  {
    if LeavesRows(op) {
      RowsUntouched(s, op);
    } else {
      match op
      case OpPromote(e, ok, w) => PromoteRow(s, e, ok, w, id);
      case OpDispatch(pane, send, ok, w) => DispatchRow(s, pane, send, ok, w, id);
      case OpFlush(order, end) => FlushRow(s, order, end, id);
      case OpUpdateLast(_, order, end) => FlushRow(s, order, end, id);
      case OpRebuild(order, end) => RebuildRow(s, order, end, id);
      case OpCrash(o) => RowFrame(s, o, id);
      case _ =>
    }
  }

  // ---- One dispatch ----

  /** What a dispatch does: nothing but load the index, or it promotes the earliest waiting entry, which
      has no row yet, with fresh maxima. */
  lemma DispatchEffect(s: Store, paneReady: bool, sendOk: bool, commitOk: bool, w: Write)
    requires Base(s)
    ensures Load(s).index.WF()
    ensures
      var t := DispatchEnding(s, paneReady, sendOk, commitOk, w);
      if paneReady && sendOk && Queue(s) != [] && Commits(s, Queue(s)[0], commitOk) then
        var e := Queue(s)[0];
        && e.id in Pending(s) && Pending(s)[e.id] == e && e.body.status == Queued && e.body.scheduledAt == None
        && (forall id :: id in Pending(s) && Pending(s)[id].body.status == Queued && Pending(s)[id].body.scheduledAt == None ==>
              !Earlier(Pending(s)[id].body.createdAt, e.body.createdAt))
        && t == PromoteEnding(Load(s), e, true, w)
        && t.db == s.db[e.id := PromotedMsg(Load(s), e)]
        && (forall id :: id in s.db && s.db[id].dispatchSeq.Some? ==>
              s.db[id].dispatchSeq.value < t.db[e.id].dispatchSeq.value)
        && (forall id :: id in s.db && s.db[id].displaySeq.Some? ==>
              s.db[id].displaySeq.value < t.db[e.id].displaySeq.value)
      else t == Load(s)
  {
    HeadOf(s);
    DispatchEnds(s, paneReady, sendOk, commitOk, w);
    if Queue(s) != [] {
      PromoteEnds(Load(s), Queue(s)[0], commitOk, w);
      forall id | id in s.db
        ensures s.db[id].dispatchSeq.Some? ==> s.db[id].dispatchSeq.value < NextDispatch(Load(s))
        ensures s.db[id].displaySeq.Some? ==> s.db[id].displaySeq.value < NextDisplay(s.db)
      {
        NextIsLarger(Load(s), id);
      }
    }
  }

  lemma NextIsLarger(s: Store, id: Id)
    requires id in s.db
    ensures s.db[id].dispatchSeq.Some? ==> s.db[id].dispatchSeq.value < NextDispatch(s)
    ensures s.db[id].displaySeq.Some? ==> s.db[id].displaySeq.value < NextDisplay(s.db)
  {
    if s.db[id].dispatchSeq.Some? {
      assert s.db[id].dispatchSeq.value in DispatchSeqs(s.db) + ReservedSeqs(Pending(s));
    }
    if s.db[id].displaySeq.Some? {
      assert s.db[id].displaySeq.value in DisplaySeqs(s.db);
    }
  }

  // ---- Order ----

  ghost predicate Sent(s: Store, id: Id, display: bool) {
    id in s.db && s.db[id].dispatchSeq.Some? && (display ==> s.db[id].displaySeq.Some?)
  }

  ghost predicate SentBefore(s: Store, a: Id, b: Id, display: bool) {
    && Sent(s, a, display) && Sent(s, b, display)
    && s.db[a].dispatchSeq.value < s.db[b].dispatchSeq.value
    && (display ==> s.db[a].displaySeq.value < s.db[b].displaySeq.value)
  }

  /** The three phases two coexisting entries go through. */
  ghost predicate InOrder(s: Store, a: Id, ta: Option<nat>, b: Id, tb: Option<nat>, display: bool) {
    || WaitTogether(s, a, ta, b, tb)
    || (Sent(s, a, display) && Waiting(s, b, tb))
    || SentBefore(s, a, b, display)
  }

  /** Until it has its row the entry is left to the dispatcher. */
  ghost predicate LeftAlone(s: Store, op: Op, id: Id) {
    id in s.db || Quiet(s, op, id)
  }

  /** Both entries are left to the dispatcher, and there is no rebuild where display numbers count. */
  ghost predicate Undisturbed(s: Store, op: Op, a: Id, b: Id, display: bool) {
    LeftAlone(s, op, a) && LeftAlone(s, op, b) && NonEmptyIds(op) && (display ==> !Rebuilds(op))
  }

  lemma WaitingFrame(s: Store, source: map<Id, Rec>, t: Store, id: Id, at: Option<nat>)
    requires Waiting(s, id, at) && Frame(s, source, t, id)
    requires source == s.index.vals || source == Scan(s.lines) || source == map[]
    ensures Waiting(t, id, at) && (id in t.index.vals <==> id in source)
  {
  }

  lemma SentFrame(s: Store, t: Store, id: Id, display: bool)
    requires Sent(s, id, display) && SameRow(s.db, t.db, id, display)
    ensures Sent(t, id, display)
    ensures t.db[id].dispatchSeq == s.db[id].dispatchSeq
    ensures display ==> t.db[id].displaySeq == s.db[id].displaySeq
  {
  }

  lemma SentBeforeFrame(s: Store, t: Store, a: Id, b: Id, display: bool)
    requires SentBefore(s, a, b, display) && SameRow(s.db, t.db, a, display) && SameRow(s.db, t.db, b, display)
    ensures SentBefore(t, a, b, display)
  {
    SentFrame(s, t, a, display);
    SentFrame(s, t, b, display);
  }

  lemma QuietKeepsWaiting(s: Store, op: Op, id: Id, at: Option<nat>)
    requires Base(s) && Names(s, op) && LeftAlone(s, op, id) && !op.OpDispatch? && !op.OpCrash?
    ensures Waiting(s, id, at) ==> Waiting(Step(s, op), id, at) && (id in Step(s, op).index.vals <==> id in Source(s, op))
  {
    if Waiting(s, id, at) {
      SourceIs(s, op);
      EntryFrame(s, op, id);
      WaitingFrame(s, Source(s, op), Step(s, op), id, at);
    }
  }

  lemma OthersKeepOrder(s: Store, op: Op, a: Id, ta: Option<nat>, b: Id, tb: Option<nat>, display: bool)
    requires Base(s) && Names(s, op) && Undisturbed(s, op, a, b, display) && !op.OpCrash? && !op.OpDispatch?
    requires InOrder(s, a, ta, b, tb, display)
    ensures InOrder(Step(s, op), a, ta, b, tb, display)
  {
    SourceIs(s, op);
    QuietKeepsWaiting(s, op, a, ta);
    QuietKeepsWaiting(s, op, b, tb);
    RowFrame(s, op, a);
    RowFrame(s, op, b);
    var t := Step(s, op);
    if WaitTogether(s, a, ta, b, tb) {
      assert WaitTogether(t, a, ta, b, tb);
    } else if SentBefore(s, a, b, display) {
      SentBeforeFrame(s, t, a, b, display);
    } else {
      SentFrame(s, t, a, display);
    }
  }

  /** The entry promoted is not the later one of two that wait together. */
  lemma HeadIsEarlier(s: Store, a: Id, ta: Option<nat>, b: Id, tb: Option<nat>)
    requires Base(s) && s.ready && WaitTogether(s, a, ta, b, tb) && Earlier(ta, tb)
    ensures Queue(s) != [] ==> Queue(s)[0].id != b
  {
    HeadOf(s);
  }

  lemma PromotionKeepsOrder(s: Store, e: Rec, w: Write, a: Id, ta: Option<nat>, b: Id, tb: Option<nat>, display: bool)
    requires s.ready && a != b && InOrder(s, a, ta, b, tb, display) && e.id !in s.db
    requires WaitTogether(s, a, ta, b, tb) ==> e.id != b
    ensures InOrder(PromoteEnding(s, e, true, w), a, ta, b, tb, display)
  {
    var t := PromoteEnding(s, e, true, w);
    PromoteEnds(s, e, true, w);
    PromoteRow(s, e, true, w, a);
    PromoteRow(s, e, true, w, b);
    if e.id != a && a !in s.db { PromoteFrame(s, e, true, w, a); }
    if e.id != b && b !in s.db { PromoteFrame(s, e, true, w, b); }
    if SentBefore(s, a, b, display) {
      SentBeforeFrame(s, t, a, b, display);
    } else if WaitTogether(s, a, ta, b, tb) {
      WaitingFrame(s, s.index.vals, t, b, tb);
      if e.id != a { WaitingFrame(s, s.index.vals, t, a, ta); }
    } else {
      SentFrame(s, t, a, display);
      NextIsLarger(s, a);
      if e.id != b { WaitingFrame(s, s.index.vals, t, b, tb); }
    }
  }

  lemma LoadKeepsOrder(s: Store, a: Id, ta: Option<nat>, b: Id, tb: Option<nat>, display: bool)
    requires InOrder(s, a, ta, b, tb, display)
    ensures InOrder(Load(s), a, ta, b, tb, display) && InOrder(Restart(s), a, ta, b, tb, display)
  {
  }

  lemma DispatchKeepsOrder(s: Store, paneReady: bool, sendOk: bool, commitOk: bool, w: Write,
                           a: Id, ta: Option<nat>, b: Id, tb: Option<nat>, display: bool)
    requires Base(s) && Earlier(ta, tb) && a != b
    requires InOrder(s, a, ta, b, tb, display)
    ensures Load(s).index.WF()
    ensures InOrder(DispatchEnding(s, paneReady, sendOk, commitOk, w), a, ta, b, tb, display)
  {
    OpenBase(s, true);
    LoadKeepsOrder(s, a, ta, b, tb, display);
    DispatchEffect(s, paneReady, sendOk, commitOk, w);
    if paneReady && sendOk && Queue(s) != [] && Commits(s, Queue(s)[0], commitOk) {
      if WaitTogether(Load(s), a, ta, b, tb) { HeadIsEarlier(Load(s), a, ta, b, tb); }
      PromotionKeepsOrder(Load(s), Queue(s)[0], w, a, ta, b, tb, display);
    }
  }

  lemma StepKeepsOrder(s: Store, op: Op, a: Id, ta: Option<nat>, b: Id, tb: Option<nat>, display: bool)
    requires Base(s) && Names(s, op) && Undisturbed(s, op, a, b, display)
    requires Earlier(ta, tb) && a != b && InOrder(s, a, ta, b, tb, display)
    ensures InOrder(Step(s, op), a, ta, b, tb, display)
    decreases op
  {
    match op
    case OpCrash(o) =>
      StepKeepsOrder(s, o, a, ta, b, tb, display);
      LoadKeepsOrder(Step(s, o), a, ta, b, tb, display);
    case OpDispatch(pane, send, ok, w) => DispatchKeepsOrder(s, pane, send, ok, w, a, ta, b, tb, display);
    case _ => OthersKeepOrder(s, op, a, ta, b, tb, display);
  }

  ghost predicate AllUndisturbed(trace: seq<Store>, ops: seq<Op>, n: nat, a: Id, b: Id, display: bool)
    requires n <= |ops| && n <= |trace|
  {
    forall j {:trigger Undisturbed(trace[j], ops[j], a, b, display)} :: 0 <= j < n ==>
      Undisturbed(trace[j], ops[j], a, b, display)
  }

  lemma {:induction false} RunKeepsOrder(trace: seq<Store>, ops: seq<Op>, i: nat,
                                         a: Id, ta: Option<nat>, b: Id, tb: Option<nat>, display: bool)
    requires Run(trace, ops) && Base(trace[0]) && i <= |ops|
    requires WaitTogether(trace[0], a, ta, b, tb) && Earlier(ta, tb) && AllUndisturbed(trace, ops, i, a, b, display)
    ensures Base(trace[i]) && InOrder(trace[i], a, ta, b, tb, display)
  {
    if i > 0 {
      RunKeepsOrder(trace, ops, i - 1, a, ta, b, tb, display);
      assert FollowsAt(trace, ops, i - 1) && Undisturbed(trace[i - 1], ops[i - 1], a, b, display);
      StepBase(trace[i - 1], ops[i - 1]);
      StepKeepsOrder(trace[i - 1], ops[i - 1], a, ta, b, tb, display);
    }
  }

  /** Main result: of two entries that wait together, the one created first is sent first and
      carries the smaller dispatch number and, if no rebuild intervenes, the smaller display
      number, whatever reads, writes and commits fail and wherever the process dies. */
  lemma CreatedFirstIsSentFirst(trace: seq<Store>, ops: seq<Op>, i: nat,
                                a: Id, ta: Option<nat>, b: Id, tb: Option<nat>, display: bool)
    requires Run(trace, ops) && Base(trace[0]) && i <= |ops|
    requires WaitTogether(trace[0], a, ta, b, tb) && AllUndisturbed(trace, ops, i, a, b, display)
    requires tb.Some? && (ta == None || ta.value < tb.value)
    ensures InOrder(trace[i], a, ta, b, tb, display)
    ensures b in trace[i].db ==>
              && a in trace[i].db && trace[i].db[a].dispatchSeq.Some? && trace[i].db[b].dispatchSeq.Some?
              && trace[i].db[a].dispatchSeq.value < trace[i].db[b].dispatchSeq.value
              && (display ==> trace[i].db[a].displaySeq.Some? && trace[i].db[b].displaySeq.Some?
                              && trace[i].db[a].displaySeq.value < trace[i].db[b].displaySeq.value)
  {
    RunKeepsOrder(trace, ops, i, a, ta, b, tb, display);
  }

  /** The only entry pending is the one sent. */
  lemma LoneEntryIsSent(c: Store, r: Rec, w: Write)
    requires Base(c) && c.ready && c.index.vals == map[r.id := r] && r.id !in c.db
    requires r.body.status == Queued && r.body.scheduledAt == None
    ensures var t := DispatchEnding(c, true, true, true, w);
            Sent(t, r.id, true) && forall id :: id != r.id && id !in c.db ==> Frame(c, c.index.vals, t, id)
  {
    HeadOf(c);
    assert r.id in Pending(c);
    DispatchEffect(c, true, true, true, w);
    forall id | id != r.id && id !in c.db ensures Frame(c, c.index.vals, DispatchEnding(c, true, true, true, w), id) {
      PromoteFrame(c, r, true, w, id);
    }
  }

  lemma CreatedAlone(s: Store, d: Draft)
    requires Base(s) && s.ready && s.index == EmptyDict() && ValidDraft(d) && d.id.value != NO_ID
    ensures var c := Create(s, d);
            Base(c) && c.ready && c.index.vals == map[d.id.value := DraftRec(d)] && c.db == s.db
  {
    CreateBase(s, d, Written);
  }

  /** Why the index counts: with the file unreadable at the first touch, an entry created afterwards is
      sent while the one already on file still waits, whichever was created first. */
  lemma UnreadEntryIsOvertaken(s: Store, a: Id, ta: Option<nat>, d: Draft, w: Write)
    requires Base(s) && !s.ready && Waiting(s, a, ta)
    requires ValidDraft(d) && d.id.value !in {NO_ID, a} && d.id.value !in s.db
    requires d.status.value == Queued && d.scheduledAt.None?
    ensures var c := Create(Open(s, false), d);
            && Load(c).index.WF()
            && Sent(DispatchEnding(c, true, true, true, w), d.id.value, true)
            && Waiting(DispatchEnding(c, true, true, true, w), a, ta)
  {
    var o := Open(s, false);
    var c := Create(o, d);
    OpenBase(s, false);
    CreatedAlone(o, d);
    CreateFrame(o, d, Written, a);
    WaitingFrame(o, o.index.vals, c, a, ta);
    LoneEntryIsSent(c, DraftRec(d), w);
    WaitingFrame(c, c.index.vals, DispatchEnding(c, true, true, true, w), a, ta);
  }

  // ---- Shutdown ----

  /** Shutting an agent down empties its queue: what remains in the file are the entries whose
      status was patched to something the API does not know, those the process never got to,
      and those whose tombstone was not written. */
  lemma ShutdownEmptiesQueue(s: Store, ends: seq<FailEnd>)
    requires Inv(s)
    ensures var l, t := Load(s), FailAll(s, ends);
            && (forall id :: id in Scan(t.lines) ==> id in Pending(s))
            && (forall i {:trigger l.index.keys[i]} :: 0 <= i < |l.index.keys| ==>
                  (l.index.keys[i] in Scan(t.lines) <==>
                     Spared(Pending(s), l.index.keys[i], EndAt(ends, i)) || Lost(EndAt(ends, i).tomb)))
  {
    var l, t := Load(s), FailAll(s, ends);
    var ids := l.index.keys;
    LoadKeepsInv(s);
    LoadIsSound(s);
    FailManySettles(l, ids, ends);
    FailAllAddsNothing(l, t, ids);
    forall i {:trigger ids[i]} | 0 <= i < |ids|
      ensures ids[i] in Scan(t.lines) <==> Spared(Pending(s), ids[i], EndAt(ends, i)) || Lost(EndAt(ends, i).tomb)
    {
      assert ids[i] in l.index.vals && Settled(l, t, ids[i], EndAt(ends, i));
    }
  }
}
