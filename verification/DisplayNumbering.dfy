/**
 Crash safety of the numbering: whatever writes and commits fail, and wherever, the
 committed display numbers are exactly 1..n; and which numbered messages a reader of the
 file does not find under their committed number.
 */
module DisplayNumbering {
  import opened Collections
  import opened DisplayLog
  import opened DisplayState
  import opened DisplayIndex
  import opened DisplayRuns
  import opened DisplayFaults

  /** `seats[k]` is the message that holds number k + 1, and nobody else holds a number. */
  ghost predicate Dense(db: map<Id, Msg>, seats: seq<Id>) {
    && (forall k :: 0 <= k < |seats| ==> seats[k] in db && db[seats[k]].displaySeq == Some(k + 1))
    && (forall id :: id in db && db[id].displaySeq.Some? ==>
          1 <= db[id].displaySeq.value <= |seats| && seats[db[id].displaySeq.value - 1] == id)
  }

  ghost predicate Numbered1ToN(db: map<Id, Msg>) {
    exists seats :: Dense(db, seats)
  }

  /** The reader's entry for a message shows it as delivered, with number `n`. */
  ghost predicate ShownAs(lines: seq<Line>, id: Id, n: nat) {
    id in Seen(lines) && !Seen(lines)[id].deleted && !Marked(Seen(lines)[id]) && Seen(lines)[id].num == Some(n)
  }

  predicate HasNumber(db: map<Id, Msg>, id: Id) {
    id in db && db[id].displaySeq.Some?
  }

  /** The record shows a delivered message; the retry card carries number 0. */
  predicate Delivered(r: Rec) {
    !r.deleted && !Marked(r) && r.num.Some? && r.num.value > 0
  }

  /** The numbered messages a reader misses are exactly the ones in `missed`; only rows are shown. */
  ghost predicate FileCarries(lines: seq<Line>, db: map<Id, Msg>, missed: set<Id>) {
    && (forall id :: HasNumber(db, id) ==> (ShownAs(lines, id, db[id].displaySeq.value) <==> id !in missed))
    && (forall id :: id in missed ==> HasNumber(db, id))
    && (forall id :: id in Seen(lines) && Delivered(Seen(lines)[id]) ==> id in db)
  }

  ghost predicate Numbers(s: Store, missed: set<Id>) {
    Numbered1ToN(s.db) && FileCarries(s.lines, s.db, missed)
  }

  ghost predicate NumberInv(s: Store, missed: set<Id>) {
    Base(s) && Numbers(s, missed)
  }

  /** The sent line is not written though the row is committed. */
  predicate LineLost(w: Write) {
    w.CutShort? && w.lines < 2
  }

  /** A pre-sent line about a numbered message takes it out of the readers' sight. */
  function Hides(db: map<Id, Msg>, id: Id, missed: set<Id>): set<Id> {
    if HasNumber(db, id) then missed + {id} else missed
  }

  /** The shutdown writes a line about the entry. */
  predicate WritesAbout(pending: map<Id, Rec>, id: Id, end: FailEnd) {
    !Spared(pending, id, end)
    && (!Lost(end.tomb) || (pending[id].body.status != Cancelled && !Lost(end.cancel)))
  }

  function HiddenByShutdown(s: Store, ids: seq<Id>, ends: seq<FailEnd>, missed: set<Id>): set<Id> {
    if ids == [] then missed
    else
      var n := |ids| - 1;
      var before := HiddenByShutdown(s, ids[..n], ends, missed);
      if WritesAbout(s.index.vals, ids[n], EndAt(ends, n)) then Hides(s.db, ids[n], before) else before
  }

  function NumberedAmong(db: map<Id, Msg>, ids: seq<Id>): set<Id> {
    set id | id in ids && HasNumber(db, id)
  }

  /** The promotion commits the row of `e` and loses its sent line. */
  predicate Tears(s: Store, e: Rec, commitOk: bool, w: Write) {
    Commits(s, e, commitOk) && LineLost(w)
  }

  /** The messages a reader misses after the step. One more when a promotion is torn or lost, or when a
      pre-sent line is written for an id that has a numbered row; one fewer when the message is
      written anew. A rebuild leaves those whose pre-sent lines it writes back, and a deletion all. */
  ghost function MissedAfter(s: Store, op: Op, missed: set<Id>): set<Id>
    requires s.index.WF()
  {
    match op
    case OpCreate(d, w) => if ValidDraft(d) && !Lost(w) then Hides(s.db, d.id.value, missed) else missed
    case OpUpdate(id, _, w) => if id in Pending(s) && !Lost(w) then Hides(s.db, id, missed) else missed
    case OpCancel(id, w) => if Cancellable(s, id) && !Lost(w) then Hides(s.db, id, missed) else missed
    case OpTombstone(id, w) =>
      if id in Pending(s) && Pending(s)[id].body.status == Cancelled && !Lost(w) then Hides(s.db, id, missed) else missed
    case OpFailAll(ends) => HiddenByShutdown(Load(s), Load(s).index.keys, ends, missed)
    case OpPromote(e, ok, w) => if Tears(s, e, ok, w) then missed + {e.id} else missed
    case OpDispatch(pane, send, ok, w) =>
      if pane && send && Queue(s) != [] && Tears(s, Queue(s)[0], ok, w) then missed + {Queue(s)[0].id} else missed
    case OpUpdateLast(id, _, end) => if Rewrites(s, id, end) then missed - {id} else missed
    case OpRebuild(_, end) =>
      var kept := Preserved(s.lines, end.readOk);
      if end.resetOk then NumberedAmong(Step(s, op).db, kept.keys[..Min(end.preWritten, |kept.keys|)]) else missed
    case OpDelete(unlinkOk) => if unlinkOk then set id | id in s.db && HasNumber(s.db, id) else missed
    case OpCrash(o) => MissedAfter(s, o, missed)
    case _ => missed
  }

  /** A numbered message is written again. */
  predicate Rewrites(s: Store, id: Id, end: FlushEnd) {
    HasNumber(s.db, id) && !(end.WriteFailed? && end.written == 0)
  }

  /** A query returns every row once, in an order of its own. */
  ghost predicate Covers(order: seq<Id>, db: map<Id, Msg>) {
    NoDup(order) && forall id :: id in order <==> id in db
  }

  /** Queries cover the table, and entries are created under non-empty ids. */
  ghost predicate NumberValid(s: Store, op: Op) {
    match op
    case OpCreate(_, _) => NonEmptyIds(op)
    case OpFlush(order, _) => Covers(order, s.db)
    case OpUpdateLast(_, order, _) => Covers(order, s.db)
    case OpRebuild(order, _) => Covers(order, s.db)
    case OpCrash(o) => NumberValid(s, o)
    case _ => true
  }

  // ---- The maximum is the count ----

  lemma DenseMax(db: map<Id, Msg>, seats: seq<Id>)
    requires Dense(db, seats)
    ensures MaxOf(DisplaySeqs(db)) == |seats|
  {
    var m := MaxOf(DisplaySeqs(db));
    if seats != [] {
      var top := seats[|seats| - 1];
      assert db[top].displaySeq.value in DisplaySeqs(db);
    }
    assert m <= |seats|;
  }

  // ---- Numbering a batch ----

  ghost predicate Batch(db: map<Id, Msg>, msgs: seq<Msg>) {
    && (forall i :: 0 <= i < |msgs| ==> msgs[i].id in db && db[msgs[i].id] == msgs[i] && msgs[i].displaySeq.None?)
    && (forall i, j :: 0 <= i < j < |msgs| ==> msgs[i].id != msgs[j].id)
  }

  function Ids(msgs: seq<Msg>): seq<Id> {
    seq(|msgs|, i requires 0 <= i < |msgs| => msgs[i].id)
  }

  lemma {:induction false} NumberAllFacts(db: map<Id, Msg>, msgs: seq<Msg>, next: nat)
    requires Batch(db, msgs)
    ensures NumberAll(db, msgs, next).Keys == db.Keys
    ensures forall i :: 0 <= i < |msgs| ==> NumberAll(db, msgs, next)[msgs[i].id] == msgs[i].(displaySeq := Some(next + i))
    ensures forall id :: id in db && id !in Ids(msgs) ==> NumberAll(db, msgs, next)[id] == db[id]
  {
    if msgs != [] {
      var n := |msgs| - 1;
      var init := msgs[..n];
      assert forall i :: 0 <= i < n ==> init[i] == msgs[i];
      NumberAllFacts(db, init, next);
      assert Ids(msgs) == Ids(init) + [msgs[n].id];
    }
  }

  lemma {:induction false} EligibleRowsNoDup(db: map<Id, Msg>, order: seq<Id>)
    requires NoDup(order) && DbKeyed(db)
    ensures NoDup(EligibleRows(db, order))
  {
    if order != [] {
      var init, last := order[..|order| - 1], order[|order| - 1];
      EligibleRowsNoDup(db, init);
      EligibleRowsSound(db, init);
      SplitLast(order);
      NoDupSnoc(init, last);
      NoDupSnoc(EligibleRows(db, init), if last in db then db[last] else Msg(0, NO_BODY, None, None));
    }
  }

  /** A flush works on a batch of all the eligible rows, in display order. */
  lemma UndisplayedIsBatch(db: map<Id, Msg>, order: seq<Id>)
    requires DbKeyed(db) && Covers(order, db)
    ensures Batch(db, Undisplayed(db, order))
    ensures forall id :: id in db && Eligible(db[id]) ==> db[id] in Undisplayed(db, order)
  {
    var rows := EligibleRows(db, order);
    var msgs := Undisplayed(db, order);
    UndisplayedSound(db, order);
    EligibleRowsNoDup(db, order);
    EligibleRowsSound(db, order);
    SortKeepsMembers(rows, SortKey);
    forall i, j | 0 <= i < j < |msgs| ensures msgs[i].id != msgs[j].id {
      assert msgs[i] != msgs[j];
    }
  }

  /** Giving the next number to a message that holds none. */
  lemma SeatOne(db: map<Id, Msg>, seats: seq<Id>, m: Msg)
    requires Dense(db, seats)
    requires m.id in db ==> db[m.id].displaySeq.None?
    requires m.displaySeq == Some(|seats| + 1)
    ensures Dense(db[m.id := m], seats + [m.id])
  {
    var db', seats' := db[m.id := m], seats + [m.id];
    forall k | 0 <= k < |seats'| ensures seats'[k] in db' && db'[seats'[k]].displaySeq == Some(k + 1) {
      if k < |seats| {
        assert seats'[k] == seats[k] && db[seats[k]].displaySeq.Some?;
      }
    }
  }

  lemma BatchInit(db: map<Id, Msg>, msgs: seq<Msg>)
    requires msgs != [] && Batch(db, msgs)
    ensures Batch(db, msgs[..|msgs| - 1])
    ensures Ids(msgs) == Ids(msgs[..|msgs| - 1]) + [msgs[|msgs| - 1].id]
    ensures msgs[|msgs| - 1].id !in Ids(msgs[..|msgs| - 1])
  {
  }

  lemma StillUnnumbered(db: map<Id, Msg>, msgs: seq<Msg>, next: nat)
    requires msgs != [] && Batch(db, msgs)
    ensures var n := |msgs| - 1;
            msgs[n].id in NumberAll(db, msgs[..n], next) && NumberAll(db, msgs[..n], next)[msgs[n].id].displaySeq.None?
  {
    BatchInit(db, msgs);
    NumberAllFacts(db, msgs[..|msgs| - 1], next);
  }

  lemma {:induction false} BatchDense(db: map<Id, Msg>, seats: seq<Id>, msgs: seq<Msg>, next: nat, seats': seq<Id>)
    requires Dense(db, seats) && Batch(db, msgs)
    requires next == |seats| + 1 && seats' == seats + Ids(msgs)
    ensures Dense(NumberAll(db, msgs, next), seats')
  {
    if msgs == [] {
      assert seats' == seats;
    } else {
      var init, n := msgs[..|msgs| - 1], |msgs| - 1;
      var m := msgs[n].(displaySeq := Some(next + n));
      BatchInit(db, msgs);
      BatchDense(db, seats, init, next, seats + Ids(init));
      StillUnnumbered(db, msgs, next);
      NumberAllLast(db, msgs, next);
      SeatOne(NumberAll(db, init, next), seats + Ids(init), m);
      ConcatAssoc(seats, Ids(init), [m.id]);
    }
  }

  lemma NumberAllLast(db: map<Id, Msg>, msgs: seq<Msg>, next: nat)
    requires msgs != []
    ensures var n := |msgs| - 1;
            NumberAll(db, msgs, next) == NumberAll(db, msgs[..n], next)[msgs[n].id := msgs[n].(displaySeq := Some(next + n))]
  {
  }

  // ---- What appended lines do to the reader's view ----

  /** Lines about ids that hold no number, and none that show a message without a row. */
  ghost predicate Unnamed(recs: seq<Rec>, db: map<Id, Msg>) {
    forall i :: 0 <= i < |recs| ==> !HasNumber(db, recs[i].id) && (Delivered(recs[i]) ==> recs[i].id in db)
  }

  /** Such lines leave every numbered message as shown. */
  lemma {:induction false} AppendKeepsCarried(lines: seq<Line>, recs: seq<Rec>, db: map<Id, Msg>, missed: set<Id>)
    requires FileCarries(lines, db, missed) && Unnamed(recs, db)
    ensures FileCarries(lines + AsLines(recs), db, missed)
  {
    if recs == [] {
      assert lines + AsLines(recs) == lines;
    } else {
      var init, r := recs[..|recs| - 1], recs[|recs| - 1];
      AppendKeepsCarried(lines, init, db, missed);
      AsLinesSnoc(recs);
      ConcatAssoc(lines, AsLines(init), [Obj(r)]);
      LineKeepsCarried(lines + AsLines(init), r, db, missed);
    }
  }

  lemma LineKeepsCarried(lines: seq<Line>, r: Rec, db: map<Id, Msg>, missed: set<Id>)
    requires FileCarries(lines, db, missed) && !HasNumber(db, r.id) && (Delivered(r) ==> r.id in db)
    ensures FileCarries(lines + [Obj(r)], db, missed)
  {
    LineIsLocal(lines, r);
  }

  /** A line says nothing about other ids. */
  lemma LineIsLocal(lines: seq<Line>, r: Rec)
    ensures forall id, n :: id != r.id ==> (ShownAs(lines + [Obj(r)], id, n) <==> ShownAs(lines, id, n))
    ensures forall id :: id in Seen(lines + [Obj(r)]) ==>
              || (id in Seen(lines) && Seen(lines + [Obj(r)])[id] == Seen(lines)[id])
              || (id == r.id && Seen(lines + [Obj(r)])[id] == r)
  {
    SeenVals(lines, Obj(r));
  }

  lemma AppendShows(lines: seq<Line>, r: Rec, n: nat)
    requires r.id != NO_ID && !r.deleted && !Marked(r) && r.num == Some(n)
    ensures ShownAs(lines + [Obj(r)], r.id, n)
  {
    SeenVals(lines, Obj(r));
  }

  /** A pre-sent line: marked, or a tombstone. */
  predicate PreSentLine(r: Rec) {
    r.id != NO_ID && (r.deleted || Marked(r))
  }

  lemma LineHides(lines: seq<Line>, r: Rec)
    requires PreSentLine(r)
    ensures forall n :: !ShownAs(lines + [Obj(r)], r.id, n)
    ensures r.id in Seen(lines + [Obj(r)]) && !Delivered(Seen(lines + [Obj(r)])[r.id])
  {
    SeenVals(lines, Obj(r));
  }

  lemma HidingLine(lines: seq<Line>, r: Rec, db: map<Id, Msg>, missed: set<Id>)
    requires FileCarries(lines, db, missed) && PreSentLine(r)
    ensures FileCarries(lines + AsLines([r]), db, Hides(db, r.id, missed))
  {
    AsLinesOne(r);
    LineIsLocal(lines, r);
    LineHides(lines, r);
  }

  lemma {:induction false} HidingLines(lines: seq<Line>, recs: seq<Rec>, db: map<Id, Msg>, missed: set<Id>)
    requires FileCarries(lines, db, missed)
    requires forall i :: 0 <= i < |recs| ==> PreSentLine(recs[i])
    ensures FileCarries(lines + AsLines(recs), db, missed + NumberedAmong(db, IdsOf(recs)))
  {
    if recs == [] {
      assert lines + AsLines(recs) == lines && missed + NumberedAmong(db, IdsOf(recs)) == missed;
    } else {
      var init, r := recs[..|recs| - 1], recs[|recs| - 1];
      HidingLines(lines, init, db, missed);
      AsLinesSnoc(recs);
      AsLinesOne(r);
      ConcatAssoc(lines, AsLines(init), [Obj(r)]);
      HidingLine(lines + AsLines(init), r, db, missed + NumberedAmong(db, IdsOf(init)));
      assert missed + NumberedAmong(db, IdsOf(recs)) == Hides(db, r.id, missed + NumberedAmong(db, IdsOf(init)));
    }
  }

  /** A line that may be lost. */
  lemma CutHides(s: Store, t: Store, r: Rec, w: Write, missed: set<Id>)
    requires t.lines == s.lines && t.db == s.db && Numbers(s, missed) && PreSentLine(r)
    ensures Numbers(Cut(s, Append(t, [r]), w), if Lost(w) then missed else Hides(s.db, r.id, missed))
  {
    OneLine(s, t, r, w);
    HidingLine(s.lines, r, s.db, missed);
  }

  lemma PositiveNumbers(db: map<Id, Msg>, id: Id)
    requires Numbered1ToN(db)
    ensures HasNumber(db, id) ==> db[id].displaySeq.value > 0
  {
    var seats :| Dense(db, seats);
  }

  /** The retry card in front, which carries number 0. */
  lemma PrependKeepsCarried(r: Rec, lines: seq<Line>, db: map<Id, Msg>, missed: set<Id>)
    requires FileCarries(lines, db, missed) && Numbered1ToN(db) && r.num == Some(0)
    ensures FileCarries([Obj(r)] + lines, db, missed)
  {
    SeenAppend([Obj(r)], lines);
    SeenOne(Obj(r));
    forall id | HasNumber(db, id)
      ensures ShownAs([Obj(r)] + lines, id, db[id].displaySeq.value) <==> ShownAs(lines, id, db[id].displaySeq.value)
    {
      PositiveNumbers(db, id);
    }
  }

  // ---- Flush ----

  /** A message and its line, numbered together. */
  lemma CarryOne(lines: seq<Line>, db: map<Id, Msg>, m: Msg, replace: bool, missed: set<Id>)
    requires FileCarries(lines, db, missed) && m.id != NO_ID && m.displaySeq.Some?
    ensures FileCarries(lines + [Obj(Serialize(m, m.displaySeq.value, replace))], db[m.id := m], missed - {m.id})
  {
    var r := Serialize(m, m.displaySeq.value, replace);
    AppendShows(lines, r, m.displaySeq.value);
    LineIsLocal(lines, r);
  }

  lemma NotMissed(db: map<Id, Msg>, lines: seq<Line>, missed: set<Id>, id: Id)
    requires FileCarries(lines, db, missed) && !HasNumber(db, id)
    ensures missed - {id} == missed
  {
  }

  lemma NumberedRecsSnoc(msgs: seq<Msg>, next: nat)
    requires msgs != []
    ensures var n := |msgs| - 1;
            NumberedRecs(msgs, next) == NumberedRecs(msgs[..n], next) + [Serialize(msgs[n], next + n, false)]
  {
  }

  lemma NumberedRecsDistinct(db: map<Id, Msg>, msgs: seq<Msg>, next: nat)
    requires Batch(db, msgs) && DbKeyed(db)
    ensures DistinctIds(NumberedRecs(msgs, next))
  {
  }

  lemma NumberedLinesSnoc(lines: seq<Line>, msgs: seq<Msg>, next: nat)
    requires msgs != []
    ensures var n := |msgs| - 1;
            lines + AsLines(NumberedRecs(msgs, next))
            == (lines + AsLines(NumberedRecs(msgs[..n], next))) + [Obj(Serialize(msgs[n], next + n, false))]
  {
    var n := |msgs| - 1;
    NumberedRecsSnoc(msgs, next);
    assert NumberedRecs(msgs, next)[..n] == NumberedRecs(msgs[..n], next);
    AsLinesSnoc(NumberedRecs(msgs, next));
    ConcatAssoc(lines, AsLines(NumberedRecs(msgs[..n], next)), [Obj(Serialize(msgs[n], next + n, false))]);
  }

  /** The complete block of a successful flush shows every message of the batch. */
  lemma {:induction false} FlushedCarries(lines: seq<Line>, db: map<Id, Msg>, msgs: seq<Msg>, next: nat, missed: set<Id>)
    requires FileCarries(lines, db, missed) && Batch(db, msgs) && DbKeyed(db)
    ensures FileCarries(lines + AsLines(NumberedRecs(msgs, next)), NumberAll(db, msgs, next), missed)
  {
    if msgs == [] {
      assert lines + AsLines(NumberedRecs(msgs, next)) == lines;
    } else {
      BatchInit(db, msgs);
      FlushedCarries(lines, db, msgs[..|msgs| - 1], next, missed);
      FlushedOneMore(lines, db, msgs, next, missed);
    }
  }

  lemma FlushedOneMore(lines: seq<Line>, db: map<Id, Msg>, msgs: seq<Msg>, next: nat, missed: set<Id>)
    requires msgs != [] && Batch(db, msgs) && DbKeyed(db)
    requires var init := msgs[..|msgs| - 1];
             FileCarries(lines + AsLines(NumberedRecs(init, next)), NumberAll(db, init, next), missed)
    ensures FileCarries(lines + AsLines(NumberedRecs(msgs, next)), NumberAll(db, msgs, next), missed)
  {
    var n := |msgs| - 1;
    NumberedLinesSnoc(lines, msgs, next);
    StillUnnumbered(db, msgs, next);
    CarryFirst(lines + AsLines(NumberedRecs(msgs[..n], next)), NumberAll(db, msgs[..n], next),
               msgs[n].(displaySeq := Some(next + n)), missed);
  }

  lemma CarryFirst(lines: seq<Line>, db: map<Id, Msg>, m: Msg, missed: set<Id>)
    requires FileCarries(lines, db, missed) && m.id != NO_ID && m.displaySeq.Some? && !HasNumber(db, m.id)
    ensures FileCarries(lines + [Obj(Serialize(m, m.displaySeq.value, false))], db[m.id := m], missed)
  {
    NotMissed(db, lines, missed, m.id);
    CarryOne(lines, db, m, false, missed);
  }

  /** What a flush that succeeds leaves, also where it finds nothing to number. */
  lemma FlushedIs(s: Store, order: seq<Id>)
    ensures var msgs, next := Undisplayed(s.db, order), NextDisplay(s.db);
            && Flush(s, order, Flushed).db == NumberAll(s.db, msgs, next)
            && Flush(s, order, Flushed).lines == s.lines + AsLines(NumberedRecs(msgs, next))
  {
    if Undisplayed(s.db, order) == [] {
      assert AsLines(NumberedRecs([], NextDisplay(s.db))) == [];
    }
  }

  lemma FlushCommitted(s: Store, order: seq<Id>, missed: set<Id>)
    requires DbKeyed(s.db) && Numbers(s, missed) && Covers(order, s.db)
    ensures Numbers(Flush(s, order, Flushed), missed)
  {
    var seats :| Dense(s.db, seats);
    DenseMax(s.db, seats);
    UndisplayedIsBatch(s.db, order);
    FlushedIs(s, order);
    BatchNumbers(s, Undisplayed(s.db, order), seats, missed);
  }

  lemma BatchNumbers(s: Store, msgs: seq<Msg>, seats: seq<Id>, missed: set<Id>)
    requires DbKeyed(s.db) && Dense(s.db, seats) && FileCarries(s.lines, s.db, missed) && Batch(s.db, msgs)
    ensures Numbered1ToN(NumberAll(s.db, msgs, |seats| + 1))
    ensures FileCarries(s.lines + AsLines(NumberedRecs(msgs, |seats| + 1)), NumberAll(s.db, msgs, |seats| + 1), missed)
  {
    BatchDense(s.db, seats, msgs, |seats| + 1, seats + Ids(msgs));
    FlushedCarries(s.lines, s.db, msgs, |seats| + 1, missed);
  }

  lemma FlushUncommitted(s: Store, order: seq<Id>, end: FlushEnd, missed: set<Id>)
    requires DbKeyed(s.db) && Numbers(s, missed) && Covers(order, s.db) && !end.Flushed?
    ensures Numbers(Flush(s, order, end), missed)
  {
    var msgs, next := Undisplayed(s.db, order), NextDisplay(s.db);
    UndisplayedIsBatch(s.db, order);
    CutShortKeepsCarried(s, msgs, next, if end.WriteFailed? then Min(end.written, |msgs|) else |msgs|, missed);
  }

  lemma FlushKeepsNumbers(s: Store, order: seq<Id>, end: FlushEnd, missed: set<Id>)
    requires DbKeyed(s.db) && Numbers(s, missed) && Covers(order, s.db)
    ensures Numbers(Flush(s, order, end), missed)
  {
    if end.Flushed? {
      FlushCommitted(s, order, missed);
    } else {
      FlushUncommitted(s, order, end, missed);
    }
  }

  /** Lines of a flush that was not committed speak only about unnumbered messages. */
  lemma CutShortKeepsCarried(s: Store, msgs: seq<Msg>, next: nat, k: nat, missed: set<Id>)
    requires FileCarries(s.lines, s.db, missed) && Batch(s.db, msgs) && k <= |msgs|
    ensures FileCarries(s.lines + AsLines(NumberedRecs(msgs, next)[..k]), s.db, missed)
    ensures k == |msgs| ==> NumberedRecs(msgs, next)[..k] == NumberedRecs(msgs, next)
  {
    AppendKeepsCarried(s.lines, NumberedRecs(msgs, next)[..k], s.db, missed);
  }

  /** A flush that succeeds numbers every message but the undelivered ones of the user, from n + 1 on,
      and renumbers nobody. */
  lemma FlushCompletes(s: Store, order: seq<Id>, seats: seq<Id>)
    requires DbKeyed(s.db) && Covers(order, s.db) && Dense(s.db, seats)
    ensures Dense(Flush(s, order, Flushed).db, seats + Ids(Undisplayed(s.db, order)))
    ensures Flush(s, order, Flushed).db.Keys == s.db.Keys
    ensures forall id :: id in s.db ==>
              (Flush(s, order, Flushed).db[id].displaySeq.None? <==>
                 s.db[id].displaySeq.None? && s.db[id].body.role == User && s.db[id].body.deliveredAt.None?)
    ensures forall id :: id in s.db ==>
              Flush(s, order, Flushed).db[id] == s.db[id].(displaySeq := Flush(s, order, Flushed).db[id].displaySeq)
    ensures forall id :: id in s.db && s.db[id].displaySeq.Some? ==> Flush(s, order, Flushed).db[id] == s.db[id]
  {
    var msgs := Undisplayed(s.db, order);
    DenseMax(s.db, seats);
    UndisplayedIsBatch(s.db, order);
    UndisplayedSound(s.db, order);
    BatchDense(s.db, seats, msgs, |seats| + 1, seats + Ids(msgs));
    BatchLeavesRest(s.db, msgs, |seats| + 1);
    FlushedIs(s, order);
  }

  lemma BatchLeavesRest(db: map<Id, Msg>, msgs: seq<Msg>, next: nat)
    requires Batch(db, msgs) && DbKeyed(db)
    requires forall i :: 0 <= i < |msgs| ==> Eligible(msgs[i])
    requires forall id :: id in db && Eligible(db[id]) ==> db[id] in msgs
    ensures NumberAll(db, msgs, next).Keys == db.Keys
    ensures forall id :: id in db ==>
              var after := NumberAll(db, msgs, next)[id];
              && (after.displaySeq.None? <==>
                    db[id].displaySeq.None? && db[id].body.role == User && db[id].body.deliveredAt.None?)
              && after == db[id].(displaySeq := after.displaySeq)
              && (db[id].displaySeq.Some? ==> after == db[id])
  {
    NumberAllFacts(db, msgs, next);
    forall id | id in db
      ensures var after := NumberAll(db, msgs, next)[id];
              if db[id] in msgs then after.displaySeq.Some? && after == db[id].(displaySeq := after.displaySeq)
              else after == db[id]
    {
      if db[id] in msgs {
        var i :| 0 <= i < |msgs| && msgs[i] == db[id];
        assert NumberAll(db, msgs, next)[msgs[i].id].displaySeq == Some(next + i);
      }
    }
  }

  // ---- Display order ----

  /** Of two messages the first is shown earlier: by delivery or else by creation, one with neither
      standing at the first of January 9999. */
  predicate ShownEarlier(a: Body, b: Body) {
    match (a.deliveredAt, a.createdAt, b.deliveredAt, b.createdAt)
    case (Some(x), _, Some(y), _) => x < y
    case (Some(x), _, None, Some(y)) => x < y
    case (None, Some(x), Some(y), _) => x < y
    case (None, Some(x), None, Some(y)) => x < y
    case (Some(x), _, None, None) => x < 253370764800
    case (None, Some(x), None, None) => x < 253370764800
    case (None, None, Some(y), _) => 253370764800 < y
    case (None, None, None, Some(y)) => 253370764800 < y
    case (None, None, None, None) => false
  }

  lemma KeyIsTime(a: Msg, b: Msg)
    ensures SortKey(a) < SortKey(b) <==> ShownEarlier(a.body, b.body)
  {
  }

  lemma {:induction false} EligibleKeepsOrder(db: map<Id, Msg>, order: seq<Id>, i: nat, j: nat)
    requires i < j < |order| && order[i] in db && order[j] in db && Eligible(db[order[i]]) && Eligible(db[order[j]])
    ensures Precedes(EligibleRows(db, order), db[order[i]], db[order[j]])
  {
    var init, last := order[..|order| - 1], order[|order| - 1];
    if j < |order| - 1 {
      EligibleKeepsOrder(db, init, i, j);
      PrecedesInPrefix(EligibleRows(db, init), if last in db && Eligible(db[last]) then [db[last]] else [],
                       db[order[i]], db[order[j]]);
    } else {
      EligibleRowsSound(db, init);
      assert init[i] in init;
      assert db[order[i]] in EligibleRows(db, init);
      PrecedesLast(EligibleRows(db, init), db[order[i]], db[last]);
    }
  }

  /** The rows at places `i` and `j` of the query's answer are both shown, the first one before the
      second: at an earlier time, or at the same time and earlier in the answer. */
  ghost predicate ShownFirst(db: map<Id, Msg>, order: seq<Id>, i: nat, j: nat) {
    && i < |order| && j < |order| && order[i] in db && order[j] in db
    && var x, y := db[order[i]].body, db[order[j]].body;
       && (x.role == User ==> x.deliveredAt.Some?) && (y.role == User ==> y.deliveredAt.Some?)
       && (ShownEarlier(x, y) || (i < j && !ShownEarlier(y, x)))
  }

  lemma UndisplayedInOrder(db: map<Id, Msg>, order: seq<Id>, i: nat, j: nat)
    requires ShownFirst(db, order, i, j) && db[order[i]].displaySeq.None? && db[order[j]].displaySeq.None?
    ensures Precedes(Undisplayed(db, order), db[order[i]], db[order[j]])
  {
    var x, y := db[order[i]], db[order[j]];
    KeyIsTime(x, y);
    KeyIsTime(y, x);
    EligibleRowsSound(db, order);
    if SortKey(x) < SortKey(y) {
      SortOrders(EligibleRows(db, order), SortKey, x, y);
    } else {
      EligibleKeepsOrder(db, order, i, j);
      SortKeepsOrder(EligibleRows(db, order), SortKey, x, y);
    }
  }

  /** The numbers of a flush that succeeds follow the times of the messages. */
  lemma FlushNumbersInOrder(s: Store, order: seq<Id>, i: nat, j: nat)
    requires DbKeyed(s.db) && Covers(order, s.db) && ShownFirst(s.db, order, i, j)
    requires s.db[order[i]].displaySeq.None? && s.db[order[j]].displaySeq.None?
    ensures var t := Flush(s, order, Flushed);
            && HasNumber(t.db, order[i]) && HasNumber(t.db, order[j])
            && t.db[order[i]].displaySeq.value < t.db[order[j]].displaySeq.value
  {
    var msgs, next := Undisplayed(s.db, order), NextDisplay(s.db);
    UndisplayedInOrder(s.db, order, i, j);
    UndisplayedIsBatch(s.db, order);
    FlushedIs(s, order);
    NumberAllFacts(s.db, msgs, next);
    var p, q :| 0 <= p < q < |msgs| && msgs[p] == s.db[order[i]] && msgs[q] == s.db[order[j]];
    assert NumberAll(s.db, msgs, next)[msgs[p].id] == msgs[p].(displaySeq := Some(next + p));
    assert NumberAll(s.db, msgs, next)[msgs[q].id] == msgs[q].(displaySeq := Some(next + q));
  }

  // ---- Promotion ----

  lemma SeatPromoted(s: Store, e: Rec)
    requires Numbered1ToN(s.db) && e.id !in s.db
    ensures Numbered1ToN(Committed(s, e).db)
  {
    var seats :| Dense(s.db, seats);
    DenseMax(s.db, seats);
    SeatOne(s.db, seats, PromotedMsg(Load(s), e));
  }

  /** A row that no line has followed yet is one that readers miss: only rows are shown. */
  lemma RowIsMissed(lines: seq<Line>, db: map<Id, Msg>, m: Msg, missed: set<Id>)
    requires FileCarries(lines, db, missed) && m.id !in db && m.displaySeq.Some? && m.displaySeq.value > 0
    ensures FileCarries(lines, db[m.id := m], missed + {m.id})
  {
    var db' := db[m.id := m];
    forall id | HasNumber(db', id)
      ensures ShownAs(lines, id, db'[id].displaySeq.value) <==> id !in missed + {m.id}
    {
      assert id != m.id ==> HasNumber(db, id);
    }
  }

  lemma CommittedNumbers(s: Store, e: Rec, missed: set<Id>)
    requires Numbers(s, missed) && e.id !in s.db
    ensures Numbers(Committed(s, e), missed + {e.id})
  {
    SeatPromoted(s, e);
    RowIsMissed(s.lines, s.db, PromotedMsg(Load(s), e), missed);
  }

  lemma TombedNumbers(s: Store, e: Rec, missed: set<Id>)
    requires Numbers(s, missed) && e.id != NO_ID
    ensures e.id !in s.db ==> Numbers(Append(Committed(s, e), [Tomb(e.id)]), missed + {e.id})
  {
    if e.id !in s.db {
      CommittedNumbers(s, e, missed);
      HidingLine(s.lines, Tomb(e.id), Committed(s, e).db, missed + {e.id});
      assert Hides(Committed(s, e).db, e.id, missed + {e.id}) == missed + {e.id};
    }
  }

  lemma SentShows(t: Store, m: Msg, missed: set<Id>)
    requires Numbers(t, missed) && m.id != NO_ID && m.displaySeq.Some? && m.id in t.db && t.db[m.id] == m
    ensures Numbers(Append(t, [Serialize(m, m.displaySeq.value, false)]), missed - {m.id})
  {
    AsLinesOne(Serialize(m, m.displaySeq.value, false));
    CarryOne(t.lines, t.db, m, false, missed);
    assert t.db[m.id := m] == t.db;
  }

  lemma PromotedNumbers(s: Store, e: Rec, missed: set<Id>)
    requires Numbers(s, missed) && e.id != NO_ID
    ensures e.id !in s.db ==> Numbers(Append(Append(Committed(s, e), [Tomb(e.id)]), [SentRec(s, e)]), missed)
  {
    if e.id !in s.db {
      TombedNumbers(s, e, missed);
      NotMissed(s.db, s.lines, missed, e.id);
      SentShows(Append(Committed(s, e), [Tomb(e.id)]), PromotedMsg(Load(s), e), missed + {e.id});
      assert missed + {e.id} - {e.id} == missed;
    }
  }

  /** Promotion commits before it writes: unless both lines arrive, the table numbers a message
      that no reader can see. */
  lemma PromoteNumbers(s: Store, e: Rec, commitOk: bool, w: Write, missed: set<Id>)
    requires Numbers(s, missed) && e.id != NO_ID
    ensures Numbers(PromoteEnding(s, e, commitOk, w), if Tears(s, e, commitOk, w) then missed + {e.id} else missed)
  {
    PromoteEnds(s, e, commitOk, w);
    if Commits(s, e, commitOk) {
      CommittedNumbers(s, e, missed);
      TombedNumbers(s, e, missed);
      PromotedNumbers(s, e, missed);
    }
  }

  lemma MissedIsOne(lines: seq<Line>, db: map<Id, Msg>, a: set<Id>, b: set<Id>)
    requires FileCarries(lines, db, a) && FileCarries(lines, db, b)
    ensures a == b
  {
    forall id ensures id in a <==> id in b {
      assert id in a ==> HasNumber(db, id);
      assert id in b ==> HasNumber(db, id);
    }
  }

  /** So, unlike a flush, a committed promotion is crash safe only as a whole. */
  lemma PromoteCarriesExactly(s: Store, e: Rec, w: Write, missed: set<Id>)
    requires Numbers(s, missed) && e.id != NO_ID && e.id !in s.db
    ensures Numbers(PromoteEnding(s, e, true, w), missed) <==> !LineLost(w)
  {
    PromoteNumbers(s, e, true, w, missed);
    NotMissed(s.db, s.lines, missed, e.id);
    var t := PromoteEnding(s, e, true, w);
    if Numbers(t, missed) && LineLost(w) {
      MissedIsOne(t.lines, t.db, missed, missed + {e.id});
    }
  }

  lemma DispatchNumbers(s: Store, paneReady: bool, sendOk: bool, commitOk: bool, w: Write, missed: set<Id>)
    requires NumberInv(s, missed)
    ensures Load(s).index.WF()
    ensures Numbers(DispatchEnding(s, paneReady, sendOk, commitOk, w),
                    if paneReady && sendOk && Queue(s) != [] && Tears(s, Queue(s)[0], commitOk, w)
                    then missed + {Queue(s)[0].id} else missed)
  {
    HeadOf(s);
    DispatchEnds(s, paneReady, sendOk, commitOk, w);
    if Queue(s) != [] { PromoteNumbers(Load(s), Queue(s)[0], commitOk, w, missed); }
  }

  // ---- Pre-sent lines ----

  lemma CreateNumbers(s: Store, d: Draft, w: Write, missed: set<Id>)
    requires Numbers(s, missed) && (ValidDraft(d) ==> d.id.value != NO_ID)
    ensures Numbers(CreateEnding(s, d, w), MissedCreate(s, d, w, missed))
  {
    if ValidDraft(d) {
      var r, l := DraftRec(d), Load(s);
      CutHides(s, l.(index := l.index.Put(r.id, r)), r, w, missed);
      CutHides(s, l, r, w, missed);
      if w.CutShort? {
        CreateCut(s, d, w);
        OneLine(s, l, r, w);
      } else {
        HidingLine(s.lines, r, s.db, missed);
      }
    }
  }

  ghost function MissedCreate(s: Store, d: Draft, w: Write, missed: set<Id>): set<Id> {
    if ValidDraft(d) && !Lost(w) then Hides(s.db, d.id.value, missed) else missed
  }

  lemma UpdateNumbers(s: Store, id: Id, p: Patch, w: Write, missed: set<Id>)
    requires NumberInv(s, missed)
    ensures Numbers(UpdateEnding(s, id, p, w), if id in Pending(s) && !Lost(w) then Hides(s.db, id, missed) else missed)
  {
    var l := Load(s);
    OpenBase(s, true);
    NoLine(s, l, w);
    if id in l.index.vals {
      var m := Merged(l.index.vals[id], p);
      CutHides(s, l.(index := l.index.Put(id, Bare(m))), m, w, missed);
    }
  }

  lemma CancelNumbers(s: Store, id: Id, w: Write, missed: set<Id>)
    requires NumberInv(s, missed)
    ensures Numbers(CancelEnding(s, id, w), if Cancellable(s, id) && !Lost(w) then Hides(s.db, id, missed) else missed)
  {
    NoLine(s, Load(s), w);
    UpdateNumbers(s, id, CANCEL, w, missed);
  }

  predicate Discards(s: Store, id: Id) {
    id in Pending(s) && Pending(s)[id].body.status == Cancelled
  }

  lemma TombstoneNumbers(s: Store, id: Id, w: Write, missed: set<Id>)
    requires NumberInv(s, missed)
    ensures Numbers(TombstoneEnding(s, id, w), if Discards(s, id) && !Lost(w) then Hides(s.db, id, missed) else missed)
  {
    var l := Load(s);
    OpenBase(s, true);
    NoLine(s, l, w);
    if Discards(s, id) {
      CutHides(s, l.(index := l.index.Pop(id)), Tomb(id), w, missed);
    }
  }

  /** What cancelling does to the index, whether or not its line arrives. */
  lemma CancelIndex(s: Store, id: Id, w: Write)
    requires Base(s) && s.ready
    ensures var t := CancelEnding(s, id, w);
            && t.ready && SameBut(s.index.vals, t.index.vals, id)
            && (Discards(t, id) <==> id in s.index.vals && Known(s.index.vals[id].body.status))
  {
    NoLine(s, s, w);
  }

  lemma TombstoneIndex(s: Store, id: Id, w: Write)
    requires Base(s) && s.ready
    ensures var t := TombstoneEnding(s, id, w);
            t.ready && SameBut(s.index.vals, t.index.vals, id)
  {
  }

  lemma FailOneIndex(s: Store, id: Id, end: FailEnd)
    requires Base(s) && s.ready
    ensures var t := FailOne(s, id, end);
            t.ready && SameBut(s.index.vals, t.index.vals, id)
  {
    if end.FailEnd? {
      var c := CancelEnding(s, id, end.cancel);
      CancelIndex(s, id, end.cancel);
      CancelBase(s, id, end.cancel);
      TombstoneIndex(c, id, end.tomb);
      SameButTwice(s.index.vals, c.index.vals, FailOne(s, id, end).index.vals, id);
    }
  }

  lemma SameButTwice(a: map<Id, Rec>, b: map<Id, Rec>, c: map<Id, Rec>, id: Id)
    requires SameBut(a, b, id) && SameBut(b, c, id)
    ensures SameBut(a, c, id)
  {
    forall x | x != id ensures SameAtIn(a, c, x) {
      assert SameAtIn(a, b, x) && SameAtIn(b, c, x);
    }
  }

  lemma FailOneNumbers(s: Store, id: Id, end: FailEnd, missed: set<Id>)
    requires NumberInv(s, missed) && s.ready
    ensures Numbers(FailOne(s, id, end), if WritesAbout(s.index.vals, id, end) then Hides(s.db, id, missed) else missed)
  {
    if end.FailEnd? {
      var c := CancelEnding(s, id, end.cancel);
      CancelIndex(s, id, end.cancel);
      CancelBase(s, id, end.cancel);
      CancelNumbers(s, id, end.cancel, missed);
      TombstoneNumbers(c, id, end.tomb, if Cancellable(s, id) && !Lost(end.cancel) then Hides(s.db, id, missed) else missed);
      HidesOnce(s.db, id, missed);
    }
  }

  lemma HidesOnce(db: map<Id, Msg>, id: Id, missed: set<Id>)
    ensures Hides(db, id, Hides(db, id, missed)) == Hides(db, id, missed)
  {
  }

  lemma {:induction false} FailManyNumbers(s: Store, ids: seq<Id>, ends: seq<FailEnd>, missed: set<Id>)
    requires NumberInv(s, missed) && s.ready && NoDup(ids)
    ensures var t := FailMany(s, ids, ends);
            && NumberInv(t, HiddenByShutdown(s, ids, ends, missed)) && t.ready && t.db == s.db
            && forall x {:trigger SameAtIn(s.index.vals, t.index.vals, x)} :: x !in ids ==>
                 SameAtIn(s.index.vals, t.index.vals, x)
  {
    if ids != [] {
      var n := |ids| - 1;
      LastIsNew(ids);
      FailManyNumbers(s, ids[..n], ends, missed);
      var t := FailMany(s, ids[..n], ends);
      assert SameAtIn(s.index.vals, t.index.vals, ids[n]);
      FailOneNumbers(t, ids[n], EndAt(ends, n), HiddenByShutdown(s, ids[..n], ends, missed));
      FailOneBase(t, ids[n], EndAt(ends, n));
      FailOneIndex(t, ids[n], EndAt(ends, n));
      SplitLast(ids);
      forall x | x !in ids ensures SameAtIn(s.index.vals, FailMany(s, ids, ends).index.vals, x) {
        assert SameAtIn(s.index.vals, t.index.vals, x) && SameAtIn(t.index.vals, FailMany(s, ids, ends).index.vals, x);
      }
    }
  }

  lemma FailAllNumbers(s: Store, ends: seq<FailEnd>, missed: set<Id>)
    requires NumberInv(s, missed)
    ensures Numbers(FailAll(s, ends), HiddenByShutdown(Load(s), Load(s).index.keys, ends, missed))
  {
    OpenBase(s, true);
    FailManyNumbers(Load(s), Load(s).index.keys, ends, missed);
  }

  // ---- The other steps ----

  lemma UpdateLastNumbers(s: Store, id: Id, order: seq<Id>, end: FlushEnd, missed: set<Id>)
    requires NumberInv(s, missed) && Covers(order, s.db)
    ensures Numbers(UpdateLast(s, id, order, end), if Rewrites(s, id, end) then missed - {id} else missed)
  {
    FlushKeepsNumbers(s, order, end, missed);
    if Rewrites(s, id, end) {
      AsLinesOne(Serialize(s.db[id], s.db[id].displaySeq.value, true));
      CarryOne(s.lines, s.db, s.db[id], true, missed);
      assert s.db[id := s.db[id]] == s.db;
    }
  }

  /** With every number taken back nobody misses one. */
  lemma EmptiedNumbers(s: Store, truncateOk: bool, missed: set<Id>)
    requires NumberInv(s, missed)
    ensures Numbers(Emptied(s, truncateOk), {}) && DbKeyed(Emptied(s, truncateOk).db)
  {
    assert Dense(Emptied(s, truncateOk).db, []);
    assert Seen([]) == map[];
  }

  lemma RestoredNumbers(s: Store, kept: Dict<Id, Rec>, n: nat)
    requires Numbers(s, {}) && Scanned(kept) && n <= |kept.keys|
    ensures Numbers(Append(s, kept.Values()[..n]), NumberedAmong(s.db, kept.keys[..n]))
  {
    var recs := kept.Values()[..n];
    ValuesDistinct(kept, n);
    forall i | 0 <= i < n ensures PreSentLine(recs[i]) {
      assert kept.keys[i] in kept.vals && recs[i] == kept.vals[kept.keys[i]];
    }
    HidingLines(s.lines, recs, s.db, {});
    assert {} + NumberedAmong(s.db, kept.keys[..n]) == NumberedAmong(s.db, kept.keys[..n]);
  }

  /** A rebuild mends every torn promotion, but what it writes back hides the rows of the same ids. */
  lemma RebuildNumbers(s: Store, order: seq<Id>, end: RebuildEnd, missed: set<Id>)
    requires NumberInv(s, missed) && Covers(order, s.db) && end.resetOk
    ensures var kept := Preserved(s.lines, end.readOk);
            Numbers(Rebuild(s, order, end),
                    NumberedAmong(Rebuild(s, order, end).db, kept.keys[..Min(end.preWritten, |kept.keys|)]))
  {
    var emptied := Emptied(s, end.truncateOk);
    EmptiedNumbers(s, end.truncateOk, missed);
    FlushKeepsNumbers(emptied, order, end.flush, {});
    PreservedScanned(s.lines, end.readOk);
    var kept := Preserved(s.lines, end.readOk);
    RebuiltLines(s, order, end);
    RestoredNumbers(Flush(emptied, order, end.flush), kept, Min(end.preWritten, |kept.keys|));
  }

  /** A row that holds no number changes nothing for those that do. */
  lemma UnnumberedRow(db: map<Id, Msg>, m: Msg, id: Id)
    requires m.id !in db && m.displaySeq.None?
    ensures HasNumber(db[m.id := m], id) <==> HasNumber(db, id)
    ensures HasNumber(db, id) ==> db[m.id := m][id] == db[id]
  {
  }

  lemma ArriveNumbers(s: Store, m: Msg, missed: set<Id>)
    requires Numbers(s, missed) && m.id !in s.db && m.displaySeq.None?
    ensures Numbers(Arrive(s, m), missed)
  {
    var db := Arrive(s, m).db;
    forall id ensures HasNumber(db, id) <==> HasNumber(s.db, id) {
      UnnumberedRow(s.db, m, id);
    }
    var seats :| Dense(s.db, seats);
    assert Dense(db, seats);
  }

  /** An amended row keeps its number. */
  lemma AmendedRow(s: Store, id: Id, body: Body, x: Id)
    ensures HasNumber(Amend(s, id, body).db, x) <==> HasNumber(s.db, x)
    ensures HasNumber(s.db, x) ==> Amend(s, id, body).db[x].displaySeq == s.db[x].displaySeq
  {
  }

  lemma AmendNumbers(s: Store, id: Id, body: Body, missed: set<Id>)
    requires Numbers(s, missed)
    ensures Numbers(Amend(s, id, body), missed)
  {
    var db := Amend(s, id, body).db;
    forall x ensures HasNumber(db, x) <==> HasNumber(s.db, x) {
      AmendedRow(s, id, body, x);
    }
    var seats :| Dense(s.db, seats);
    assert Dense(db, seats);
  }

  lemma DeleteNumbers(s: Store, unlinkOk: bool, missed: set<Id>)
    requires Numbers(s, missed)
    ensures Numbers(Delete(s, unlinkOk), if unlinkOk then set id | id in s.db && HasNumber(s.db, id) else missed)
  {
    assert Seen([]) == map[];
  }

  /** The numbers alone, through any step. */
  lemma StepNumbers(s: Store, op: Op, missed: set<Id>)
    requires NumberInv(s, missed) && Names(s, op) && NumberValid(s, op)
    ensures Numbers(Step(s, op), MissedAfter(s, op, missed))
    decreases op
  {
    match op
    case OpCreate(d, w) => CreateNumbers(s, d, w, missed);
    case OpUpdate(id, p, w) => UpdateNumbers(s, id, p, w, missed);
    case OpCancel(id, w) => CancelNumbers(s, id, w, missed);
    case OpTombstone(id, w) => TombstoneNumbers(s, id, w, missed);
    case OpFailAll(ends) => FailAllNumbers(s, ends, missed);
    case OpPromote(e, ok, w) =>
      OpenBase(s, true);
      PromoteNumbers(s, e, ok, w, missed);
    case OpDispatch(pane, send, ok, w) => DispatchNumbers(s, pane, send, ok, w, missed);
    case OpFlush(order, end) => FlushKeepsNumbers(s, order, end, missed);
    case OpUpdateLast(id, order, end) => UpdateLastNumbers(s, id, order, end, missed);
    case OpMarker(m, _, _, now) => PrependKeepsCarried(MarkerRec(m, now), s.lines, s.db, missed);
    case OpRebuild(order, end) => if end.resetOk { RebuildNumbers(s, order, end, missed); }
    case OpDelete(ok) => DeleteNumbers(s, ok, missed);
    case OpRestart =>
    case OpLoad(_) =>
    case OpArrive(m) => ArriveNumbers(s, m, missed);
    case OpAmend(id, body) => AmendNumbers(s, id, body, missed);
    case OpCrash(o) => StepNumbers(s, o, missed);
  }

  lemma ValidIsNonEmpty(s: Store, op: Op)
    requires NumberValid(s, op)
    ensures NonEmptyIds(op)
  {
  }

  /** One step keeps the numbers 1..n, and changes whom readers miss in exactly the way it says. */
  lemma StepKeepsNumbers(s: Store, op: Op, missed: set<Id>)
    requires NumberInv(s, missed) && Names(s, op) && NumberValid(s, op)
    ensures NumberInv(Step(s, op), MissedAfter(s, op, missed))
  {
    ValidIsNonEmpty(s, op);
    StepBase(s, op);
    StepNumbers(s, op, missed);
  }

  // ---- Every run ----

  /** The messages readers miss after the first `i` steps of a run. */
  ghost function MissedIn(trace: seq<Store>, ops: seq<Op>, i: nat, start: set<Id>): set<Id>
    requires Run(trace, ops) && i <= |ops|
  {
    if i == 0 then start
    else
      assert FollowsAt(trace, ops, i - 1);
      MissedAfter(trace[i - 1], ops[i - 1], MissedIn(trace, ops, i - 1, start))
  }

  lemma NumbersAtNext(trace: seq<Store>, ops: seq<Op>, i: nat, start: set<Id>)
    requires Run(trace, ops) && i < |ops| && NumberValid(trace[i], ops[i])
    requires NumberInv(trace[i], MissedIn(trace, ops, i, start))
    ensures NumberInv(trace[i + 1], MissedIn(trace, ops, i + 1, start))
  {
    assert FollowsAt(trace, ops, i);
    StepKeepsNumbers(trace[i], ops[i], MissedIn(trace, ops, i, start));
  }

  ghost predicate AllValid(trace: seq<Store>, ops: seq<Op>, n: nat)
    requires n <= |ops| && n <= |trace|
  {
    forall j: nat {:trigger NumberValid(trace[j], ops[j])} :: j < n ==> NumberValid(trace[j], ops[j])
  }

  /** Main result: in every state of every run, with reads, writes and commits failing and the
      process dying anywhere, the committed numbers are 1..n, and the file shows every
      numbered message under its number except exactly the missed ones. */
  lemma NumbersAreCrashSafe(trace: seq<Store>, ops: seq<Op>, i: nat, start: set<Id>)
    requires Run(trace, ops) && i <= |ops| && AllValid(trace, ops, i)
    requires NumberInv(trace[0], start)
    ensures NumberInv(trace[i], MissedIn(trace, ops, i, start))
  {
    var k := 0;
    while k < i
      invariant k <= i && NumberInv(trace[k], MissedIn(trace, ops, k, start))
    {
      assert NumberValid(trace[k], ops[k]);
      NumbersAtNext(trace, ops, k, start);
      k := k + 1;
    }
  }

  // ---- Runs in which nothing is missed ----

  /** The step neither commits a promotion without its sent line nor removes a file that shows numbers. */
  ghost predicate Whole(s: Store, op: Op)
    requires s.index.WF()
  {
    match op
    case OpPromote(_, ok, w) => ok ==> !LineLost(w)
    case OpDispatch(pane, send, ok, w) => pane && send && ok && Queue(s) != [] ==> !LineLost(w)
    case OpDelete(unlinkOk) => unlinkOk ==> forall id :: !HasNumber(s.db, id)
    case OpCrash(o) => Whole(s, o)
    case _ => true
  }

  lemma LandingIsApart(s: Store, op: Op)
    requires Inv(s) && Names(s, op)
    ensures Lands(s, op) ==> RowsApart(s, op)
  {
    StepKeepsInvExactly(s, op);
    RowsApartExactly(s, op);
  }

  lemma PendingHasNoNumber(s: Store, id: Id)
    requires Inv(s)
    ensures id in Pending(s) ==> !HasNumber(s.db, id)
    ensures id in Scan(s.lines) ==> !HasNumber(s.db, id)
  {
    if id in Pending(s) { PendingIsLive(s, id); }
  }

  lemma {:induction false} ShutdownHidesNone(s: Store, ids: seq<Id>, ends: seq<FailEnd>)
    requires forall id :: id in ids ==> !HasNumber(s.db, id)
    ensures HiddenByShutdown(s, ids, ends, {}) == {}
  {
    if ids != [] {
      ShutdownHidesNone(s, ids[..|ids| - 1], ends);
    }
  }

  lemma FailAllHidesNone(s: Store, ends: seq<FailEnd>)
    requires Inv(s)
    ensures HiddenByShutdown(Load(s), Load(s).index.keys, ends, {}) == {}
  {
    LoadKeepsInv(s);
    forall id | id in Load(s).index.keys ensures !HasNumber(s.db, id) { PendingHasNoNumber(s, id); }
    ShutdownHidesNone(Load(s), Load(s).index.keys, ends);
  }

  lemma RebuildHidesNone(s: Store, order: seq<Id>, end: RebuildEnd)
    requires Inv(s) && end.resetOk
    ensures MissedAfter(s, OpRebuild(order, end), {}) == {}
  {
    var kept, db := Preserved(s.lines, end.readOk), Rebuild(s, order, end).db;
    PreservedScanned(s.lines, end.readOk);
    RebuildScan(s, order, end);
    forall id | id in kept.keys ensures !HasNumber(db, id) {
      assert id in Scan(s.lines) && id !in s.db;
    }
  }

  lemma PromotionMissesExactly(s: Store, e: Rec, commitOk: bool, w: Write)
    requires Inv(s)
    ensures e.id in Pending(s) ==> (Tears(s, e, commitOk, w) <==> commitOk && LineLost(w))
  {
    if e.id in Pending(s) { PendingIsLive(s, e.id); }
  }

  lemma NoneNumbered(db: map<Id, Msg>)
    ensures (set id | id in db && HasNumber(db, id)) == {} <==> forall id :: !HasNumber(db, id)
  {
    var held := set id | id in db && HasNumber(db, id);
    forall id | HasNumber(db, id) ensures held != {} {
      assert id in held;
    }
  }

  /** Where rows and pre-sent ids are apart, nobody misses a message after the step exactly when
      the step is whole. */
  lemma WholeExactly(s: Store, op: Op)
    requires Inv(s) && Names(s, op)
    ensures RowsApart(s, op) ==> (MissedAfter(s, op, {}) == {} <==> Whole(s, op))
    decreases op
  {
    LoadKeepsInv(s);
    match op
    case OpCreate(d, _) =>
    case OpUpdate(id, _, _) => PendingHasNoNumber(s, id);
    case OpCancel(id, _) => PendingHasNoNumber(s, id);
    case OpTombstone(id, _) => PendingHasNoNumber(s, id);
    case OpFailAll(ends) => FailAllHidesNone(s, ends);
    case OpPromote(e, ok, w) => PromotionMissesExactly(s, e, ok, w);
    case OpDispatch(_, _, ok, w) =>
      QueueHead(s);
      if Queue(s) != [] { PromotionMissesExactly(s, Queue(s)[0], ok, w); }
    case OpRebuild(order, end) => if end.resetOk { RebuildHidesNone(s, order, end); }
    case OpDelete(_) => NoneNumbered(s.db);
    case OpCrash(o) => WholeExactly(s, o);
    case _ =>
  }

  ghost predicate WholeAt(trace: seq<Store>, ops: seq<Op>, i: nat)
    requires i < |trace| && i < |ops|
  {
    trace[i].index.WF() && Whole(trace[i], ops[i])
  }

  /** In a run that lands and whose promotions are whole, every numbered message is shown throughout. */
  lemma {:induction false} WholePromotionsTearNothing(trace: seq<Store>, ops: seq<Op>, i: nat)
    requires Run(trace, ops) && i <= |ops| && Inv(trace[0]) && AllLand(trace, ops, i)
    requires forall j: nat {:trigger WholeAt(trace, ops, j)} :: j < i ==> WholeAt(trace, ops, j)
    ensures MissedIn(trace, ops, i, {}) == {}
  {
    if i > 0 {
      WholePromotionsTearNothing(trace, ops, i - 1);
      InvUpTo(trace, ops, i - 1);
      assert FollowsAt(trace, ops, i - 1) && LandsAt(trace, ops, i - 1) && WholeAt(trace, ops, i - 1);
      LandingIsApart(trace[i - 1], ops[i - 1]);
      WholeExactly(trace[i - 1], ops[i - 1]);
    }
  }

  // ---- A rebuild can hide what it numbers ----

  lemma RebuildNumbersRow(s: Store, order: seq<Id>, end: RebuildEnd, id: Id)
    requires DbKeyed(s.db) && Covers(order, s.db) && end.resetOk && end.flush.Flushed?
    requires id in s.db && !(s.db[id].body.role == User && s.db[id].body.deliveredAt.None?)
    ensures HasNumber(Rebuild(s, order, end).db, id)
  {
    var emptied := Emptied(s, end.truncateOk);
    assert Dense(emptied.db, []);
    FlushCompletes(emptied, order, []);
    RowBodyStays(emptied, order, id);
    RebuiltLines(s, order, end);
  }

  lemma RowBodyStays(s: Store, order: seq<Id>, id: Id)
    requires DbKeyed(s.db) && Covers(order, s.db) && id in s.db
    ensures id in Flush(s, order, Flushed).db && Flush(s, order, Flushed).db[id].body == s.db[id].body
  {
    UndisplayedIsBatch(s.db, order);
    FlushedIs(s, order);
    NumberAllBody(s.db, Undisplayed(s.db, order), NextDisplay(s.db), id);
  }

  lemma NumberAllBody(db: map<Id, Msg>, msgs: seq<Msg>, next: nat, id: Id)
    requires Batch(db, msgs) && id in db
    ensures id in NumberAll(db, msgs, next) && NumberAll(db, msgs, next)[id].body == db[id].body
  {
    NumberAllFacts(db, msgs, next);
    if id in Ids(msgs) {
      var i :| 0 <= i < |msgs| && msgs[i].id == id;
      assert NumberAll(db, msgs, next)[msgs[i].id] == msgs[i].(displaySeq := Some(next + i));
    }
  }

  /** A message with a row whose entry the file still shows: a rebuild that succeeds numbers it and then
      writes the entry back behind its line, so no reader finds it. */
  lemma RebuildHidesReturned(s: Store, order: seq<Id>, end: RebuildEnd, missed: set<Id>, id: Id)
    requires NumberInv(s, missed) && Covers(order, s.db)
    requires end.readOk && end.resetOk && end.flush.Flushed? && end.preWritten >= |ScanDict(s.lines).keys|
    requires id in s.db && !(s.db[id].body.role == User && s.db[id].body.deliveredAt.None?) && id in Scan(s.lines)
    ensures var t := Rebuild(s, order, end);
            HasNumber(t.db, id) && !ShownAs(t.lines, id, t.db[id].displaySeq.value)
  {
    RebuildNumbersRow(s, order, end, id);
    RebuildNumbers(s, order, end, missed);
    PreservedScanned(s.lines, true);
    var keys := ScanDict(s.lines).keys;
    assert keys[..|keys|] == keys && id in keys;
  }
}
