/**
 Whole runs of one agent's display: every operation with every way its writes can end,
 crashes in the middle included. For each step the exact condition under which the loaded
 index stays the replay of the file and pre-sent ids stay apart from the rows of the
 table; and over every run whose steps meet it, that they do.
 */
module DisplayRuns {
  import opened Collections
  import opened DisplayLog
  import opened DisplayState
  import opened DisplayIndex

  datatype Op =
    | OpCreate(draft: Draft, write: Write)
    | OpUpdate(id: Id, patch: Patch, write: Write)
    | OpCancel(id: Id, write: Write)
    | OpTombstone(id: Id, write: Write)
    | OpFailAll(ends: seq<FailEnd>)
    | OpPromote(entry: Rec, commitOk: bool, write: Write)
    | OpDispatch(paneReady: bool, sendOk: bool, commitOk: bool, write: Write)
    | OpFlush(order: seq<Id>, end: FlushEnd)
    | OpUpdateLast(id: Id, order: seq<Id>, end: FlushEnd)
    | OpMarker(metadata: string, attempts: nat, current: int, now: nat)
    | OpRebuild(order: seq<Id>, rebuildEnd: RebuildEnd)
    | OpDelete(unlinkOk: bool)
    | OpRestart
    | OpLoad(readOk: bool)
    | OpArrive(msg: Msg)
    | OpAmend(id: Id, body: Body)
    | OpCrash(op: Op)      // the process dies in the operation, at the point its ends say

  ghost function Step(s: Store, op: Op): Store
    requires s.index.WF()
  {
    match op
    case OpCreate(d, w) => CreateEnding(s, d, w)
    case OpUpdate(id, p, w) => UpdateEnding(s, id, p, w)
    case OpCancel(id, w) => CancelEnding(s, id, w)
    case OpTombstone(id, w) => TombstoneEnding(s, id, w)
    case OpFailAll(ends) => FailAll(s, ends)
    case OpPromote(e, ok, w) => PromoteEnding(s, e, ok, w)
    case OpDispatch(pane, send, ok, w) => DispatchEnding(s, pane, send, ok, w)
    case OpFlush(order, end) => Flush(s, order, end)
    case OpUpdateLast(id, order, end) => UpdateLast(s, id, order, end)
    case OpMarker(m, attempts, current, now) => WriteMarker(s, m, attempts, current, now)
    case OpRebuild(order, end) => Rebuild(s, order, end)
    case OpDelete(ok) => Delete(s, ok)
    case OpRestart => Restart(s)
    case OpLoad(readOk) => Open(s, readOk)
    case OpArrive(m) => Arrive(s, m)
    case OpAmend(id, body) => Amend(s, id, body)
    case OpCrash(o) => Restart(Step(s, o))
  }

  /** What the callers guarantee: a promoted entry was listed as pending, and a row that some
      other component inserts is new to the table and to the file. */
  ghost predicate Names(s: Store, op: Op) {
    match op
    case OpPromote(e, _, _) => e.id in Pending(s)
    case OpArrive(m) => m.id != NO_ID && m.id !in s.db && m.id !in Scan(s.lines) && m.displaySeq.None? && m.dispatchSeq.None?
    case OpCrash(o) => Names(s, o)
    case _ => true
  }

  /** Not one line was written. */
  predicate Lost(w: Write) {
    w == CutShort(0)
  }

  /** The step neither writes a draft under the id of a row nor commits a row whose tombstone is lost. */
  ghost predicate RowsApart(s: Store, op: Op)
    requires Load(s).index.WF()
  {
    match op
    case OpCreate(d, w) => ValidDraft(d) && !Lost(w) && d.id.value != NO_ID ==> d.id.value !in s.db
    case OpPromote(_, ok, w) => ok ==> !Lost(w)
    case OpDispatch(pane, send, ok, w) => pane && send && ok && Queue(s) != [] ==> !Lost(w)
    case OpCrash(o) => RowsApart(s, o)
    case _ => true
  }

  /** The line of a created entry and its place in the index go together. */
  ghost predicate CreateLands(s: Store, d: Draft, w: Write)
    requires ValidDraft(d)
  {
    match w
    case Written => d.id.value != NO_ID && d.id.value !in s.db
    case CutShort(k) =>
      k > 0 && d.id.value != NO_ID ==>
        && d.id.value !in s.db && d.id.value in Pending(s)
        && Bare(Pending(s)[d.id.value]) == DraftRec(d)
  }

  ghost predicate UpdateLands(s: Store, id: Id, p: Patch, w: Write) {
    Lost(w) && id in Pending(s) ==> Bare(Merged(Pending(s)[id], p)) == Bare(Pending(s)[id])
  }

  predicate Known(st: Status) {
    st in {Queued, Scheduled, Cancelled}
  }

  /** The shutdown passes entry `id` over: the process died before, or the status is one that
      neither cancelling nor discarding accepts. */
  predicate Spared(pending: map<Id, Rec>, id: Id, end: FailEnd) {
    end.NotReached? || id !in pending || !Known(pending[id].body.status)
  }

  /** The step's index changes and its lines agree. */
  ghost predicate Lands(s: Store, op: Op)
    requires Load(s).index.WF()
  {
    match op
    case OpCreate(d, w) => ValidDraft(d) ==> CreateLands(s, d, w)
    case OpUpdate(id, p, w) => UpdateLands(s, id, p, w)
    case OpCancel(id, w) => Lost(w) ==> !Cancellable(s, id)
    case OpTombstone(id, w) => Lost(w) ==> !(id in Pending(s) && Pending(s)[id].body.status == Cancelled)
    case OpFailAll(ends) => TombsLand(Load(s), Load(s).index.keys, ends)
    case OpRebuild(_, end) => end.resetOk ==> KeptAreRewritten(s, end)
    case OpLoad(readOk) => readOk || s.ready || Scan(s.lines) == map[]
    case _ => RowsApart(s, op)
  }

  ghost predicate TombsLand(s: Store, ids: seq<Id>, ends: seq<FailEnd>) {
    forall i :: 0 <= i < |ids| ==> Spared(s.index.vals, ids[i], EndAt(ends, i)) || !Lost(EndAt(ends, i).tomb)
  }

  // ---- A single line, written or lost ----

  lemma OneLine(s: Store, t: Store, r: Rec, w: Write)
    requires t.lines == s.lines
    ensures Cut(s, Append(t, [r]), w) == if Lost(w) then t else Append(t, [r])
  {
    CutAppend(s, t, [r], w);
    assert [r][..1] == [r] && [r][..0] == [];
    assert t.lines + AsLines([]) == t.lines;
  }

  lemma NoLine(s: Store, t: Store, w: Write)
    requires t.lines == s.lines
    ensures Cut(s, t, w) == t
  {
    assert t.lines[..|t.lines|] == t.lines;
  }

  // ---- Creating ----

  lemma CreateCut(s: Store, d: Draft, w: Write)
    requires ValidDraft(d) && w.CutShort?
    ensures CreateEnding(s, d, w) == if Lost(w) then Load(s) else Append(Load(s), [DraftRec(d)])
  {
    var r, l := DraftRec(d), Load(s);
    OneLine(s, l.(index := l.index.Put(r.id, r)), r, w);
  }

  lemma CreateWhole(s: Store, d: Draft)
    requires Inv(s) && ValidDraft(d)
    ensures Inv(Create(s, d)) <==> d.id.value != NO_ID && d.id.value !in s.db
  {
    var r, l := DraftRec(d), Load(s);
    LoadKeepsInv(s);
    if r.id != NO_ID && r.id !in s.db {
      CreateKeepsInv(s, d);
    } else if r.id != NO_ID {
      AsLinesOne(r);
      ScanAppendRec(l.lines, r);
      assert r.id in Scan(Create(s, d).lines);
    } else {
      assert NO_ID in Create(s, d).index.vals;
    }
  }

  lemma AppendedWithoutId(lines: seq<Line>, r: Rec)
    requires r.id == NO_ID
    ensures Scan(lines + AsLines([r])) == Scan(lines)
  {
    AsLinesOne(r);
    SeenVals(lines, Obj(r));
  }

  lemma SameBareOneSided(a: map<Id, Rec>, b: map<Id, Rec>, id: Id, x: Rec)
    requires SameBare(a, b)
    ensures SameBare(a, b[id := x]) <==> id in a && Bare(a[id]) == Bare(x)
    ensures id in a ==> (SameBare(a[id := x], b) <==> Bare(a[id]) == Bare(x))
  {
    if id in a {
      assert b[id := x][id] == x && a[id := x][id] == x;
    }
  }

  lemma DisjointPut(scan: map<Id, Rec>, id: Id, x: Rec, db: map<Id, Msg>)
    requires forall k :: k in scan ==> k !in db
    ensures (forall k :: k in scan[id := x] ==> k !in db) <==> id !in db
  {
    assert id in scan[id := x];
  }

  /** A line without its index entry. */
  lemma LineOnly(l: Store, r: Rec)
    requires Inv(l) && l.ready && r.id != NO_ID && Live(r) && Normalise(r) == r && Bare(r) == r
    ensures Inv(Append(l, [r])) <==> r.id !in l.db && r.id in l.index.vals && Bare(l.index.vals[r.id]) == r
  {
    AsLinesOne(r);
    ScanAppendRec(l.lines, r);
    SameBareOneSided(l.index.vals, Scan(l.lines), r.id, r);
    DisjointPut(Scan(l.lines), r.id, r, l.db);
  }

  lemma CreateExactly(s: Store, d: Draft, w: Write)
    requires Inv(s)
    ensures Inv(CreateEnding(s, d, w)) <==> (ValidDraft(d) ==> CreateLands(s, d, w))
  {
    if ValidDraft(d) {
      LoadKeepsInv(s);
      if w.Written? {
        CreateWhole(s, d);
      } else {
        CreateCut(s, d, w);
        if d.id.value == NO_ID {
          AppendedWithoutId(s.lines, DraftRec(d));
        } else {
          LineOnly(Load(s), DraftRec(d));
        }
      }
    }
  }

  // ---- Patching ----

  /** The index entry changed, its line lost. */
  lemma EntryOnly(l: Store, x: Rec)
    requires Inv(l) && l.ready && Bare(x) == x
    ensures x.id in l.index.vals ==> (Inv(l.(index := l.index.Put(x.id, x))) <==> x == Bare(l.index.vals[x.id]))
  {
    var id := x.id;
    l.index.PutKeepsWF(id, x);
    SameBareOneSided(l.index.vals, Scan(l.lines), id, x);
  }

  /** An update whose line is lost is harmless exactly when it changes nothing. */
  lemma UpdateExactly(s: Store, id: Id, p: Patch, w: Write)
    requires Inv(s)
    ensures Inv(UpdateEnding(s, id, p, w)) <==> UpdateLands(s, id, p, w)
  {
    LoadKeepsInv(s);
    var l := Load(s);
    if id in l.index.vals {
      PendingIsOnFile(s, id);
      PendingIsLive(s, id);
      var m := Merged(l.index.vals[id], p);
      OneLine(s, l.(index := l.index.Put(id, Bare(m))), m, w);
      if Lost(w) {
        EntryOnly(l, Bare(m));
      } else {
        UpdateKeepsInv(s, id, p);
      }
    } else {
      NoLine(s, l, w);
    }
  }

  lemma CancelExactly(s: Store, id: Id, w: Write)
    requires Inv(s)
    ensures Inv(CancelEnding(s, id, w)) <==> (Lost(w) ==> !Cancellable(s, id))
  {
    LoadKeepsInv(s);
    if Cancellable(s, id) {
      UpdateExactly(s, id, CANCEL, w);
      assert Merged(Pending(s)[id], CANCEL).body.status == Cancelled;
    } else {
      NoLine(s, Load(s), w);
    }
  }

  /** A lost tombstone never is. */
  lemma TombstoneExactly(s: Store, id: Id, w: Write)
    requires Inv(s)
    ensures Inv(TombstoneEnding(s, id, w)) <==>
            (Lost(w) ==> !(id in Pending(s) && Pending(s)[id].body.status == Cancelled))
  {
    LoadKeepsInv(s);
    var l := Load(s);
    if id in l.index.vals && l.index.vals[id].body.status == Cancelled {
      OneLine(s, l.(index := l.index.Pop(id)), Tomb(id), w);
      TombstoneKeepsInv(s, id);
    } else {
      NoLine(s, l, w);
    }
  }

  // ---- Shutting down ----

  /** A loaded index of live entries, each of which the file has too. */
  ghost predicate Sound(s: Store) {
    && s.ready && s.index.WF() && Keyed(s.index)
    && forall id :: id in s.index.vals ==> Live(s.index.vals[id]) && id in Scan(s.lines)
  }

  ghost predicate SameAtIn(a: map<Id, Rec>, b: map<Id, Rec>, x: Id) {
    (x in a <==> x in b) && (x in a ==> a[x] == b[x])
  }

  ghost predicate SameAt(s: Store, t: Store, x: Id) {
    SameAtIn(s.index.vals, t.index.vals, x) && SameAtIn(Scan(s.lines), Scan(t.lines), x)
  }

  /** What the shutdown makes of entry `x`. */
  ghost predicate Settled(s: Store, t: Store, x: Id, end: FailEnd) {
    if Spared(s.index.vals, x, end) then SameAt(s, t, x)
    else x !in t.index.vals && (x in Scan(t.lines) <==> Lost(end.tomb))
  }

  ghost predicate SameBut(a: map<Id, Rec>, b: map<Id, Rec>, id: Id) {
    forall x {:trigger SameAtIn(a, b, x)} :: x != id ==> SameAtIn(a, b, x)
  }

  /** The step from `s` to `t` touched at most entry `id`. */
  ghost predicate OnlyAt(s: Store, t: Store, id: Id) {
    && Sound(t) && t.db == s.db
    && forall x {:trigger SameAt(s, t, x)} :: x != id ==> SameAt(s, t, x)
  }

  lemma OnlyAtParts(s: Store, t: Store, id: Id)
    requires Sound(t) && t.db == s.db
    requires SameBut(s.index.vals, t.index.vals, id) && SameBut(Scan(s.lines), Scan(t.lines), id)
    ensures OnlyAt(s, t, id)
  {
  }

  lemma OnlyAtTwice(s: Store, m: Store, t: Store, id: Id)
    requires OnlyAt(s, m, id) && OnlyAt(m, t, id)
    ensures OnlyAt(s, t, id)
  {
    forall x | x != id ensures SameAt(s, t, x) {
      assert SameAt(s, m, x) && SameAt(m, t, x);
    }
  }

  /** The replay before and after a line that may have been lost. */
  lemma LineSettles(lines: seq<Line>, r: Rec, w: Write)
    requires r.id != NO_ID
    ensures var after := if Lost(w) then lines else lines + AsLines([r]);
            && SameBut(Scan(lines), Scan(after), r.id)
            && (Live(r) && r.id in Scan(lines) ==> r.id in Scan(after))
            && (!Live(r) && r.id in Scan(lines) ==> (r.id in Scan(after) <==> Lost(w)))
  {
    AsLinesOne(r);
    ScanAppendRec(lines, r);
  }

  lemma PutStaysSound(index: map<Id, Rec>, before: map<Id, Rec>, after: map<Id, Rec>, x: Rec)
    requires forall id :: id in index ==> Live(index[id]) && id in before
    requires SameBut(before, after, x.id) && x.id in after && Live(x)
    ensures forall id :: id in index[x.id := x] ==> Live(index[x.id := x][id]) && id in after
    ensures SameBut(index, index[x.id := x], x.id)
  {
    forall id | id in index[x.id := x] ensures Live(index[x.id := x][id]) && id in after {
      assert id != x.id ==> SameAtIn(before, after, id);
    }
  }

  lemma PutSettles(s: Store, t: Store, x: Rec)
    requires Sound(s) && x.id in s.index.vals && Live(x)
    requires t.ready && t.db == s.db && t.index == s.index.Put(x.id, x)
    requires SameBut(Scan(s.lines), Scan(t.lines), x.id) && x.id in Scan(t.lines)
    ensures OnlyAt(s, t, x.id)
  {
    s.index.PutKeepsWF(x.id, x);
    PutStaysSound(s.index.vals, Scan(s.lines), Scan(t.lines), x);
    OnlyAtParts(s, t, x.id);
  }

  lemma PopSettles(s: Store, t: Store, id: Id)
    requires Sound(s) && t.ready && t.db == s.db && t.index == s.index.Pop(id)
    requires SameBut(Scan(s.lines), Scan(t.lines), id)
    ensures OnlyAt(s, t, id) && id !in t.index.vals
  {
    s.index.PopKeepsWF(id);
    forall x | x in t.index.vals ensures Live(t.index.vals[x]) && x in Scan(t.lines) {
      assert SameAtIn(Scan(s.lines), Scan(t.lines), x);
    }
    OnlyAtParts(s, t, id);
  }

  lemma CancelSettles(s: Store, id: Id, w: Write)
    requires Sound(s) && id in s.index.vals && Known(s.index.vals[id].body.status)
    ensures var t := CancelEnding(s, id, w);
            OnlyAt(s, t, id) && id in t.index.vals && t.index.vals[id].body.status == Cancelled
  {
    if Cancellable(s, id) {
      var m := Merged(s.index.vals[id], CANCEL);
      OneLine(s, s.(index := s.index.Put(id, Bare(m))), m, w);
      LineSettles(s.lines, m, w);
      PutSettles(s, CancelEnding(s, id, w), Bare(m));
    } else {
      NoLine(s, s, w);
    }
  }

  lemma TombstoneSettles(s: Store, id: Id, w: Write)
    requires Sound(s) && id in s.index.vals && s.index.vals[id].body.status == Cancelled
    ensures var t := TombstoneEnding(s, id, w);
            OnlyAt(s, t, id) && id !in t.index.vals && (id in Scan(t.lines) <==> Lost(w))
  {
    OneLine(s, s.(index := s.index.Pop(id)), Tomb(id), w);
    LineSettles(s.lines, Tomb(id), w);
    PopSettles(s, TombstoneEnding(s, id, w), id);
  }

  lemma SparedIsLeft(s: Store, id: Id, end: FailEnd)
    requires Sound(s) && Spared(s.index.vals, id, end)
    ensures FailOne(s, id, end) == s
  {
    if end.FailEnd? {
      NoLine(s, s, end.cancel);
      NoLine(s, s, end.tomb);
    }
  }

  lemma FailOneSettles(s: Store, id: Id, end: FailEnd)
    requires Sound(s)
    ensures OnlyAt(s, FailOne(s, id, end), id) && Settled(s, FailOne(s, id, end), id, end)
  {
    if Spared(s.index.vals, id, end) {
      SparedIsLeft(s, id, end);
    } else {
      var c := CancelEnding(s, id, end.cancel);
      CancelSettles(s, id, end.cancel);
      TombstoneSettles(c, id, end.tomb);
      OnlyAtTwice(s, c, FailOne(s, id, end), id);
    }
  }

  /** The part of a shutdown that has dealt with `ids`. */
  ghost predicate Outside(s: Store, t: Store, ids: seq<Id>) {
    && Sound(t) && t.db == s.db
    && forall x {:trigger SameAt(s, t, x)} :: x !in ids ==> SameAt(s, t, x)
  }

  ghost predicate AllSettled(s: Store, t: Store, ids: seq<Id>, ends: seq<FailEnd>) {
    forall i {:trigger ids[i]} :: 0 <= i < |ids| ==> Settled(s, t, ids[i], EndAt(ends, i))
  }

  lemma OutsideGrows(s: Store, m: Store, t: Store, init: seq<Id>, id: Id)
    requires Outside(s, m, init) && OnlyAt(m, t, id)
    ensures Outside(s, t, init + [id])
  {
    forall x | x !in init + [id] ensures SameAt(s, t, x) {
      assert x !in init && x != id;
      assert SameAt(s, m, x) && SameAt(m, t, x);
    }
  }

  lemma StaysSettled(s: Store, m: Store, t: Store, id: Id, x: Id, end: FailEnd)
    requires OnlyAt(m, t, id) && x != id && Settled(s, m, x, end)
    ensures Settled(s, t, x, end)
  {
    assert SameAt(m, t, x);
  }

  lemma SettlesLater(s: Store, m: Store, t: Store, id: Id, end: FailEnd)
    requires SameAt(s, m, id) && Settled(m, t, id, end)
    ensures Settled(s, t, id, end)
  {
  }

  lemma SettledGrows(s: Store, m: Store, t: Store, init: seq<Id>, id: Id, ends: seq<FailEnd>)
    requires Outside(s, m, init) && AllSettled(s, m, init, ends) && id !in init
    requires OnlyAt(m, t, id) && Settled(m, t, id, EndAt(ends, |init|))
    ensures AllSettled(s, t, init + [id], ends)
  {
    var ids := init + [id];
    forall i {:trigger ids[i]} | 0 <= i < |ids| ensures Settled(s, t, ids[i], EndAt(ends, i)) {
      if i < |init| {
        StaysSettled(s, m, t, id, init[i], EndAt(ends, i));
      } else {
        assert SameAt(s, m, id);
        SettlesLater(s, m, t, id, EndAt(ends, i));
      }
    }
  }

  lemma LastIsNew<T>(s: seq<T>)
    requires s != [] && NoDup(s)
    ensures NoDup(s[..|s| - 1]) && s[|s| - 1] !in s[..|s| - 1]
  {
  }

  lemma {:induction false} FailManySettles(s: Store, ids: seq<Id>, ends: seq<FailEnd>)
    requires Sound(s) && NoDup(ids)
    ensures Outside(s, FailMany(s, ids, ends), ids) && AllSettled(s, FailMany(s, ids, ends), ids, ends)
  {
    if ids != [] {
      var init, id := ids[..|ids| - 1], ids[|ids| - 1];
      var m, t := FailMany(s, init, ends), FailMany(s, ids, ends);
      LastIsNew(ids);
      FailManySettles(s, init, ends);
      FailOneSettles(m, id, EndAt(ends, |init|));
      SplitLast(ids);
      OutsideGrows(s, m, t, init, id);
      SettledGrows(s, m, t, init, id, ends);
    }
  }

  lemma LoadIsSound(s: Store)
    requires IndexInv(s)
    ensures Sound(Load(s)) && NoDup(Load(s).index.keys)
  {
    LoadKeepsInv(s);
    forall id | id in Load(s).index.vals ensures Live(Load(s).index.vals[id]) {
      PendingIsLive(s, id);
    }
  }

  /** A shutdown is harmless exactly when no entry it gives up loses its tombstone. */
  lemma FailAllExactly(s: Store, ends: seq<FailEnd>)
    requires Inv(s)
    ensures Inv(FailAll(s, ends)) <==> TombsLand(Load(s), Load(s).index.keys, ends)
    ensures Disjoint(FailAll(s, ends)) && DbKeyed(FailAll(s, ends).db)
  {
    var l, t := Load(s), FailAll(s, ends);
    var ids := l.index.keys;
    LoadKeepsInv(s);
    LoadIsSound(s);
    FailManySettles(l, ids, ends);
    FailAllAddsNothing(l, t, ids);
    if TombsLand(l, ids, ends) {
      forall x ensures AgreeAt(t.index.vals, Scan(t.lines), x) {
        SettledAgrees(l, t, ids, ends, x);
      }
      AgreeIsSame(t.index.vals, Scan(t.lines));
    } else {
      var i :| 0 <= i < |ids| && !Spared(l.index.vals, ids[i], EndAt(ends, i)) && Lost(EndAt(ends, i).tomb);
      assert Settled(l, t, ids[i], EndAt(ends, i));
    }
  }

  lemma FailAllAddsNothing(l: Store, t: Store, ids: seq<Id>)
    requires Sound(l) && ids == l.index.keys && Outside(l, t, ids)
    ensures forall x :: x in Scan(t.lines) ==> x in Scan(l.lines)
  {
    forall x | x in Scan(t.lines) ensures x in Scan(l.lines) {
      if x in ids {
        assert x in l.index.vals;
      } else {
        assert SameAt(l, t, x);
      }
    }
  }

  lemma SettledAgrees(l: Store, t: Store, ids: seq<Id>, ends: seq<FailEnd>, x: Id)
    requires SameBare(l.index.vals, Scan(l.lines))
    requires Outside(l, t, ids) && AllSettled(l, t, ids, ends) && TombsLand(l, ids, ends)
    ensures AgreeAt(t.index.vals, Scan(t.lines), x)
  {
    assert AgreeAt(l.index.vals, Scan(l.lines), x);
    if x in ids {
      var i :| 0 <= i < |ids| && ids[i] == x;
      assert Settled(l, t, ids[i], EndAt(ends, i));
    } else {
      assert SameAt(l, t, x);
    }
  }

  // ---- Promoting ----

  /** The entry evicted and its row committed, nothing written yet. */
  ghost function Committed(s: Store, e: Rec): Store {
    var l := Load(s);
    l.(db := l.db[e.id := PromotedMsg(l, e)], index := l.index.Pop(e.id))
  }

  ghost function SentRec(s: Store, e: Rec): Rec {
    Serialize(PromotedMsg(Load(s), e), NextDisplay(s.db), false)
  }

  /** A promotion that goes through is the row's insertion followed by the two lines. */
  lemma PromoteUnfolds(s: Store, e: Rec)
    requires e.id !in s.db
    ensures Promote(s, e, true) == Append(Committed(s, e), [Tomb(e.id), SentRec(s, e)])
    ensures var l := Load(s);
            var m := PromotedMsg(l, e);
            Promote(s, e, true)
            == PromoteToSent(l.(db := l.db[e.id := m]), e.id, Serialize(m, m.displaySeq.value, false))
  {
  }

  lemma TwoLines(a: Rec, b: Rec)
    ensures [a, b][..0] == [] && [a, b][..1] == [a] && [a, b][..2] == [a, b]
  {
  }

  /** What is left of a promotion whose row was committed. */
  lemma PromoteCut(s: Store, e: Rec, w: Write)
    requires e.id !in s.db
    ensures PromoteEnding(s, e, true, w)
            == if Lost(w) then Committed(s, e)
               else if w == CutShort(1) then Append(Committed(s, e), [Tomb(e.id)])
               else Promote(s, e, true)
  {
    PromoteUnfolds(s, e);
    TwoLines(Tomb(e.id), SentRec(s, e));
    CutAppend(s, Committed(s, e), [Tomb(e.id), SentRec(s, e)], w);
    assert s.lines + AsLines([]) == s.lines;
  }

  lemma RefusedIsLoad(s: Store, e: Rec, w: Write)
    ensures PromoteEnding(s, e, false, w) == Load(s)
    ensures e.id in s.db ==> PromoteEnding(s, e, true, w) == Load(s)
  {
    NoLine(s, Load(s), w);
  }

  /** The entry is gone from the index, its row is there, and the file still shows it waiting. */
  lemma LostPromotion(s: Store, e: Rec)
    requires Inv(s) && e.id in Scan(s.lines)
    ensures var t := Committed(s, e); !Synced(t) && !Disjoint(t) && DbKeyed(t.db)
  {
    LoadKeepsInv(s);
    PendingIsOnFile(s, e.id);
    PendingIsLive(s, e.id);
  }

  lemma TornPromotionKeepsInv(s: Store, e: Rec)
    requires Inv(s) && e.id in Scan(s.lines)
    ensures Inv(Append(Committed(s, e), [Tomb(e.id)]))
  {
    LoadKeepsInv(s);
    PendingIsOnFile(s, e.id);
    PendingIsLive(s, e.id);
    var l := Load(s);
    PopKeepsInv(l, e.id);
    InsertKeepsInv(Append(l.(index := l.index.Pop(e.id)), [Tomb(e.id)]), PromotedMsg(l, e));
  }

  /** A promotion is harmless exactly when the row is refused or the tombstone is written. */
  lemma PromoteExactly(s: Store, e: Rec, commitOk: bool, w: Write)
    requires Inv(s) && e.id in Scan(s.lines)
    ensures var t := PromoteEnding(s, e, commitOk, w);
            && (Synced(t) && Disjoint(t) <==> (commitOk ==> !Lost(w)))
            && (Disjoint(t) <==> (commitOk ==> !Lost(w)))
            && (Inv(t) <==> (commitOk ==> !Lost(w)))
            && DbKeyed(t.db)
  {
    LoadKeepsInv(s);
    PendingIsOnFile(s, e.id);
    PendingIsLive(s, e.id);
    RefusedIsLoad(s, e, w);
    PromoteCut(s, e, w);
    LostPromotion(s, e);
    TornPromotionKeepsInv(s, e);
    PromoteKeepsInv(s, e, true);
    PromoteKeepsKeys(s, e, true);
  }

  lemma DispatchIdle(s: Store, paneReady: bool, sendOk: bool, commitOk: bool, w: Write)
    requires Load(s).index.WF()
    ensures Queue(s) == [] || !paneReady || !sendOk ==> DispatchEnding(s, paneReady, sendOk, commitOk, w) == Load(s)
  {
    NoLine(s, Load(s), w);
  }

  lemma DispatchPromotes(s: Store, commitOk: bool, w: Write)
    requires Load(s).index.WF()
    ensures Queue(s) != [] ==>
              DispatchEnding(s, true, true, commitOk, w) == PromoteEnding(Load(s), Queue(s)[0], commitOk, w)
  {
  }

  /** A dispatch is harmless exactly when it promotes nothing or its promotion is harmless. */
  lemma DispatchExactly(s: Store, paneReady: bool, sendOk: bool, commitOk: bool, w: Write)
    requires Inv(s)
    ensures Load(s).index.WF()
    ensures var t := DispatchEnding(s, paneReady, sendOk, commitOk, w);
            var apart := paneReady && sendOk && commitOk && Queue(s) != [] ==> !Lost(w);
            (Inv(t) <==> apart) && (Disjoint(t) <==> apart) && DbKeyed(t.db)
  {
    LoadKeepsInv(s);
    if Queue(s) == [] || !paneReady || !sendOk {
      DispatchIdle(s, paneReady, sendOk, commitOk, w);
    } else {
      QueueHead(s);
      PendingIsOnFile(s, Queue(s)[0].id);
      DispatchPromotes(s, commitOk, w);
      PromoteExactly(Load(s), Queue(s)[0], commitOk, w);
    }
  }

  // ---- Rows and pre-sent ids ----

  /** Disjointness and the table's keys. */
  ghost predicate Apart(s: Store) {
    Disjoint(s) && DbKeyed(s.db)
  }

  lemma CreateApart(s: Store, d: Draft, w: Write)
    requires Inv(s)
    ensures Apart(CreateEnding(s, d, w)) <==>
            (ValidDraft(d) && !Lost(w) && d.id.value != NO_ID ==> d.id.value !in s.db)
  {
    if ValidDraft(d) {
      var r := DraftRec(d);
      if w.CutShort? { CreateCut(s, d, w); }
      AsLinesOne(r);
      if r.id == NO_ID {
        AppendedWithoutId(s.lines, r);
      } else {
        ScanAppendRec(s.lines, r);
        DisjointPut(Scan(s.lines), r.id, r, s.db);
      }
    }
  }

  /** An operation on pending entries that loses its line leaves file and table as they were. */
  lemma PatchesApart(s: Store, id: Id, p: Patch, w: Write)
    requires Inv(s)
    ensures Apart(UpdateEnding(s, id, p, w)) && Apart(CancelEnding(s, id, w)) && Apart(TombstoneEnding(s, id, w))
  {
    LoadKeepsInv(s);
    UpdateApart(s, id, p, w);
    if Cancellable(s, id) {
      UpdateApart(s, id, CANCEL, w);
    } else {
      NoLine(s, Load(s), w);
    }
    TombstoneExactly(s, id, w);
    if Lost(w) {
      var l := Load(s);
      OneLine(s, l.(index := l.index.Pop(id)), Tomb(id), w);
      NoLine(s, l, w);
    }
  }

  lemma UpdateApart(s: Store, id: Id, p: Patch, w: Write)
    requires Inv(s)
    ensures Apart(UpdateEnding(s, id, p, w))
  {
    LoadKeepsInv(s);
    UpdateExactly(s, id, p, w);
    if Lost(w) && id in Pending(s) {
      var l := Load(s);
      var m := Merged(l.index.vals[id], p);
      OneLine(s, l.(index := l.index.Put(id, Bare(m))), m, w);
      NoLine(s, l, w);
    }
  }

  lemma RebuildExactly(s: Store, order: seq<Id>, end: RebuildEnd)
    requires Inv(s)
    ensures Inv(Rebuild(s, order, end)) <==> (end.resetOk ==> KeptAreRewritten(s, end))
    ensures Apart(Rebuild(s, order, end))
  {
    if end.resetOk {
      RebuildStaysDisjoint(s, order, end);
      RebuildSyncedExactly(s, order, end);
      FlushKeepsKeys(Emptied(s, end.truncateOk), order, end.flush);
      if KeptAreRewritten(s, end) {
        RebuildKeepsInv(s, order, end);
      }
    }
  }

  /** A cold index that is loaded from an unreadable file is right exactly when nothing was pending. */
  lemma OpenExactly(s: Store, readOk: bool)
    requires Inv(s)
    ensures Inv(Open(s, readOk)) <==> readOk || s.ready || Scan(s.lines) == map[]
    ensures Apart(Open(s, readOk))
  {
    LoadKeepsInv(s);
    assert Scan(s.lines) != map[] ==> Scan(s.lines).Keys != {};
  }

  lemma OthersKeepInv(s: Store, op: Op)
    requires Inv(s) && Names(s, op)
    requires op.OpFlush? || op.OpUpdateLast? || op.OpMarker? || op.OpDelete? || op.OpRestart?
             || op.OpArrive? || op.OpAmend?
    ensures Inv(Step(s, op))
  {
    match op
    case OpFlush(order, end) => FlushedInv(s, order, end);
    case OpUpdateLast(id, order, end) => UpdatedLastInv(s, id, order, end);
    case OpMarker(m, attempts, current, now) => MarkedInv(s, m, attempts, current, now);
    case OpDelete(ok) => ForgottenInv(s, ok);
    case OpRestart => ForgottenInv(s, false);
    case OpArrive(m) => InsertKeepsInv(s, m);
    case _ =>
  }

  lemma FlushedInv(s: Store, order: seq<Id>, end: FlushEnd)
    requires Inv(s)
    ensures Inv(Flush(s, order, end))
  {
    FlushKeepsInv(s, order, end);
    FlushKeepsKeys(s, order, end);
  }

  lemma UpdatedLastInv(s: Store, id: Id, order: seq<Id>, end: FlushEnd)
    requires Inv(s)
    ensures Inv(UpdateLast(s, id, order, end))
  {
    UpdateLastKeepsInv(s, id, order, end);
    FlushKeepsKeys(s, order, end);
  }

  lemma MarkedInv(s: Store, metadata: string, attempts: nat, current: int, now: nat)
    requires Inv(s)
    ensures Inv(WriteMarker(s, metadata, attempts, current, now))
  {
    ScanPrepend(MarkerRec(metadata, now), s.lines);
  }

  lemma ForgottenInv(s: Store, unlinkOk: bool)
    requires Inv(s)
    ensures Inv(Delete(s, unlinkOk)) && Inv(Restart(s))
  {
    assert Scan([]) == map[];
  }

  /** Which steps keep rows and pre-sent ids apart. */
  lemma RowsApartExactly(s: Store, op: Op)
    requires Inv(s) && Names(s, op)
    ensures Apart(Step(s, op)) <==> RowsApart(s, op)
    decreases op
  {
    match op
    case OpCreate(d, w) => CreateApart(s, d, w);
    case OpUpdate(id, p, w) => PatchesApart(s, id, p, w);
    case OpCancel(id, w) => PatchesApart(s, id, CANCEL, w);
    case OpTombstone(id, w) => PatchesApart(s, id, CANCEL, w);
    case OpFailAll(ends) => FailAllExactly(s, ends);
    case OpPromote(e, ok, w) =>
      PendingIsOnFile(s, e.id);
      PromoteExactly(s, e, ok, w);
    case OpDispatch(pane, send, ok, w) => DispatchExactly(s, pane, send, ok, w);
    case OpRebuild(order, end) => RebuildExactly(s, order, end);
    case OpLoad(readOk) => OpenExactly(s, readOk);
    case OpCrash(o) => RowsApartExactly(s, o);
    case _ => OthersKeepInv(s, op);
  }

  /** One step keeps the index the replay of the file, and pre-sent ids apart from rows,
      exactly when it lands. */
  lemma StepKeepsInvExactly(s: Store, op: Op)
    requires Inv(s) && Names(s, op)
    ensures Inv(Step(s, op)) <==> Lands(s, op)
  {
    match op
    case OpCreate(d, w) => CreateExactly(s, d, w);
    case OpUpdate(id, p, w) => UpdateExactly(s, id, p, w);
    case OpCancel(id, w) => CancelExactly(s, id, w);
    case OpTombstone(id, w) => TombstoneExactly(s, id, w);
    case OpFailAll(ends) => FailAllExactly(s, ends);
    case OpPromote(e, ok, w) =>
      PendingIsOnFile(s, e.id);
      PromoteExactly(s, e, ok, w);
    case OpDispatch(pane, send, ok, w) => DispatchExactly(s, pane, send, ok, w);
    case OpRebuild(order, end) => RebuildExactly(s, order, end);
    case OpLoad(readOk) => OpenExactly(s, readOk);
    case OpCrash(o) => RowsApartExactly(s, o);
    case _ => OthersKeepInv(s, op);
  }

  // ---- Every run ----

  ghost predicate Follows(s: Store, op: Op, t: Store) {
    s.index.WF() && Names(s, op) && t == Step(s, op)
  }

  ghost predicate FollowsAt(trace: seq<Store>, ops: seq<Op>, i: nat)
    requires |trace| == |ops| + 1 && i < |ops|
  {
    Follows(trace[i], ops[i], trace[i + 1])
  }

  /** A run: consecutive states related by operations, with nothing asked of how they end. */
  ghost predicate Run(trace: seq<Store>, ops: seq<Op>) {
    && |trace| == |ops| + 1
    && forall i: nat {:trigger FollowsAt(trace, ops, i)} :: i < |ops| ==> FollowsAt(trace, ops, i)
  }

  ghost predicate LandsAt(trace: seq<Store>, ops: seq<Op>, i: nat)
    requires i < |trace| && i < |ops|
  {
    trace[i].index.WF() && Lands(trace[i], ops[i])
  }

  ghost predicate AllLand(trace: seq<Store>, ops: seq<Op>, n: nat)
    requires n <= |ops| && n <= |trace|
  {
    forall i: nat {:trigger LandsAt(trace, ops, i)} :: i < n ==> LandsAt(trace, ops, i)
  }

  /** A process that has just started on any file whose pre-sent ids are not rows of the table. */
  ghost predicate ColdStart(s: Store) {
    !s.ready && s.index == EmptyDict() && DbKeyed(s.db) && Disjoint(s)
  }

  lemma {:induction false} InvUpTo(trace: seq<Store>, ops: seq<Op>, n: nat)
    requires Run(trace, ops) && n <= |ops| && Inv(trace[0]) && AllLand(trace, ops, n)
    ensures Inv(trace[n])
  {
    if n > 0 {
      InvUpTo(trace, ops, n - 1);
      assert FollowsAt(trace, ops, n - 1) && LandsAt(trace, ops, n - 1);
      StepKeepsInvExactly(trace[n - 1], ops[n - 1]);
    }
  }

  /** Main result: over every run, failed reads and writes and crashes included, the loaded index
      is the replay of the file and pre-sent ids are no rows in all states, exactly when
      every step lands. */
  lemma IndexIsReplay(trace: seq<Store>, ops: seq<Op>)
    requires Run(trace, ops) && ColdStart(trace[0])
    ensures (forall i: nat :: i < |trace| ==> Inv(trace[i])) <==> AllLand(trace, ops, |ops|)
    ensures forall i: nat :: i < |trace| && Inv(trace[i]) ==>
              && SameBare(Pending(trace[i]), Scan(trace[i].lines))
              && (forall id :: id in Pending(trace[i]) ==> id !in trace[i].db)
  {
    if AllLand(trace, ops, |ops|) {
      forall i: nat | i < |trace| ensures Inv(trace[i]) {
        InvUpTo(trace, ops, i);
      }
    }
    if forall i: nat :: i < |trace| ==> Inv(trace[i]) {
      forall i: nat | i < |ops| ensures LandsAt(trace, ops, i) {
        assert Inv(trace[i]) && Inv(trace[i + 1]) && FollowsAt(trace, ops, i);
        StepKeepsInvExactly(trace[i], ops[i]);
      }
    }
    forall i: nat | i < |trace| && Inv(trace[i])
      ensures SameBare(Pending(trace[i]), Scan(trace[i].lines))
      ensures forall id :: id in Pending(trace[i]) ==> id !in trace[i].db
    {
      LoadKeepsInv(trace[i]);
    }
  }

  // ---- A step that does not land ----

  /** The one demand on created ids that no write failure is behind: an entry with the empty
      id enters the index, where no reader of the file will find it. */
  lemma CreateSyncedExactly(s: Store, d: Draft)
    requires Inv(s) && ValidDraft(d)
    ensures Synced(Create(s, d)) <==> d.id.value != NO_ID
  {
    LoadKeepsInv(s);
    var r := DraftRec(d);
    AsLinesOne(r);
    if r.id == NO_ID {
      SeenKeyed(s.lines + [Obj(r)]);
      assert NO_ID in Create(s, d).index.vals;
    } else {
      ScanAppendRec(s.lines, r);
      SameBarePut(Load(s).index.vals, Scan(s.lines), r.id, r, r);
    }
  }

  /** A committed promotion none of whose lines is written comes back with the next process:
      the message waits again although it has its row. */
  lemma LostPromotionComesBack(s: Store, e: Rec)
    requires Inv(s) && e.id in Scan(s.lines)
    ensures var t := Restart(PromoteEnding(s, e, true, CutShort(0)));
            e.id in Pending(t) && e.id in t.db && Pending(t) == Scan(s.lines)
  {
    LoadKeepsInv(s);
    PendingIsOnFile(s, e.id);
    PendingIsLive(s, e.id);
    PromoteCut(s, e, CutShort(0));
  }

  /** Once the head of the queue is a row, no dispatch gets any further. */
  lemma HeadWithRowBlocks(s: Store, paneReady: bool, sendOk: bool, commitOk: bool, w: Write)
    requires Load(s).index.WF()
    ensures Queue(s) != [] && Queue(s)[0].id in s.db ==>
              var t := DispatchEnding(s, paneReady, sendOk, commitOk, w);
              t == Load(s) && Load(t).index.WF() && Queue(t) == Queue(s) && t.db == s.db
  {
    if Queue(s) != [] && paneReady && sendOk {
      DispatchPromotes(s, commitOk, w);
      RefusedIsLoad(Load(s), Queue(s)[0], w);
    } else {
      DispatchIdle(s, paneReady, sendOk, commitOk, w);
    }
  }

  /** Entry `id` is queued without a schedule, and was created earlier than every other such entry. */
  ghost predicate Earliest(pending: map<Id, Rec>, id: Id) {
    && id in pending && pending[id].body.status == Queued && pending[id].body.scheduledAt == None
    && forall x :: x in pending && x != id && pending[x].body.status == Queued && pending[x].body.scheduledAt == None ==>
         Earlier(pending[id].body.createdAt, pending[x].body.createdAt)
  }

  lemma EarliestIsHead(s: Store, id: Id)
    requires Load(s).index.WF() && Keyed(Load(s).index)
    ensures Earliest(Pending(s), id) ==> Queue(s) != [] && Queue(s)[0].id == id
  {
    HeadOfQueue(s);
  }

  /** So a lost promotion of the entry created first stops the queue from the next start on:
      every dispatch sends its text again and leaves everything as it was. */
  lemma LostPromotionBlocksQueue(s: Store, e: Rec, paneReady: bool, sendOk: bool, commitOk: bool, w: Write)
    requires Inv(s) && Earliest(Scan(s.lines), e.id)
    ensures var t := Restart(PromoteEnding(s, e, true, CutShort(0)));
            && Load(t).index.WF() && Queue(t) != [] && Queue(t)[0].id == e.id
            && DispatchEnding(t, paneReady, sendOk, commitOk, w) == Load(t)
  {
    var t := Restart(PromoteEnding(s, e, true, CutShort(0)));
    LoadKeepsInv(s);
    LostPromotionComesBack(s, e);
    ScanKeyed(t.lines);
    EarliestIsHead(t, e.id);
    HeadWithRowBlocks(t, paneReady, sendOk, commitOk, w);
  }
}
