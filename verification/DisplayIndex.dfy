/**
 What it means that the in-memory pre-sent index is what a replay of the file would give,
 and that no pre-sent id is a row of the messages table; and that each operation that
 goes through keeps it so.
 */
module DisplayIndex {
  import opened Collections
  import opened DisplayLog
  import opened DisplayState

  /** The index, once loaded, is the replay of the file up to `_replace` flags. */
  ghost predicate Synced(s: Store) {
    s.ready ==> SameBare(s.index.vals, Scan(s.lines))
  }

  /** Index and file say the same of one entry. */
  ghost predicate AgreeAt(a: map<Id, Rec>, b: map<Id, Rec>, x: Id) {
    (x in a <==> x in b) && (x in a ==> Bare(a[x]) == Bare(b[x]))
  }

  lemma AgreeIsSame(a: map<Id, Rec>, b: map<Id, Rec>)
    requires forall x :: AgreeAt(a, b, x)
    ensures SameBare(a, b)
  {
    forall x ensures x in a.Keys <==> x in b.Keys {
      assert AgreeAt(a, b, x);
    }
    forall x | x in a ensures Bare(a[x]) == Bare(b[x]) {
      assert AgreeAt(a, b, x);
    }
  }

  ghost predicate Disjoint(s: Store) {
    forall id :: id in Scan(s.lines) ==> id !in s.db
  }

  ghost predicate Keyed(d: Dict<Id, Rec>) {
    forall id :: id in d.vals ==> id != NO_ID && d.vals[id].id == id
  }

  ghost predicate IndexInv(s: Store) {
    s.index.WF() && Keyed(s.index) && Synced(s) && Disjoint(s)
  }

  /** The preserved lines of a rebuild all get back into a file that was truncated; where the old
      file could not be read, it is truncated or held no entries. */
  ghost predicate KeptAreRewritten(s: Store, end: RebuildEnd) {
    if end.readOk then end.truncateOk ==> end.preWritten >= |ScanDict(s.lines).keys|
    else end.truncateOk || Scan(s.lines) == map[]
  }

  // ---- Replay of the appended lines ----

  lemma ScanKeyed(lines: seq<Line>)
    ensures Keyed(ScanDict(lines))
    ensures forall id :: id in Scan(lines) ==> Live(Scan(lines)[id]) && Normalise(Scan(lines)[id]) == Scan(lines)[id]
  {
    SeenKeyed(lines);
  }

  lemma {:induction false} ScanAppendDead(lines: seq<Line>, recs: seq<Rec>)
    requires forall i :: 0 <= i < |recs| ==> recs[i].id != NO_ID && !Live(recs[i]) && recs[i].id !in Scan(lines)
    ensures Scan(lines + AsLines(recs)) == Scan(lines)
  {
    if recs == [] {
      assert lines + AsLines(recs) == lines;
    } else {
      var init, r := recs[..|recs| - 1], recs[|recs| - 1];
      ScanAppendDead(lines, init);
      AsLinesSnoc(recs);
      ConcatAssoc(lines, AsLines(init), [Obj(r)]);
      ScanAppendRec(lines + AsLines(init), r);
    }
  }

  lemma AsLinesOne(r: Rec)
    ensures AsLines([r]) == [Obj(r)]
  {
  }

  lemma LoadKeepsInv(s: Store)
    requires IndexInv(s)
    ensures IndexInv(Load(s)) && Load(s).ready
    ensures SameBare(Pending(s), Scan(s.lines))
  {
    ScanKeyed(s.lines);
  }

  // ---- One lemma per operation ----

  lemma SameBarePut(a: map<Id, Rec>, b: map<Id, Rec>, id: Id, x: Rec, y: Rec)
    requires SameBare(a, b) && Bare(x) == Bare(y)
    ensures SameBare(a[id := x], b[id := y])
  {
  }

  lemma SameBareRemove(a: map<Id, Rec>, b: map<Id, Rec>, id: Id)
    requires SameBare(a, b)
    ensures SameBare(a - {id}, b - {id})
  {
  }

  /** Putting an entry in the index and its line in the file. */
  lemma PutKeepsInv(l: Store, r: Rec, x: Rec)
    requires IndexInv(l) && l.ready
    requires r.id != NO_ID && r.id !in l.db && x.id == r.id
    requires Live(r) && Bare(x) == Bare(Normalise(r))
    ensures IndexInv(Append(l.(index := l.index.Put(r.id, x)), [r]))
  {
    AsLinesOne(r);
    ScanAppendRec(l.lines, r);
    l.index.PutKeepsWF(r.id, x);
    SameBarePut(l.index.vals, Scan(l.lines), r.id, x, Normalise(r));
  }

  /** Dropping an entry from the index and writing its tombstone. */
  lemma PopKeepsInv(l: Store, id: Id)
    requires IndexInv(l) && l.ready && id != NO_ID
    ensures IndexInv(Append(l.(index := l.index.Pop(id)), [Tomb(id)]))
    ensures id !in Scan(Append(l.(index := l.index.Pop(id)), [Tomb(id)]).lines)
  {
    AsLinesOne(Tomb(id));
    ScanAppendRec(l.lines, Tomb(id));
    l.index.PopKeepsWF(id);
    SameBareRemove(l.index.vals, Scan(l.lines), id);
  }

  lemma CreateKeepsInv(s: Store, d: Draft)
    requires IndexInv(s)
    requires ValidDraft(d) ==> d.id.value != NO_ID && d.id.value !in s.db
    ensures IndexInv(Create(s, d))
  {
    if ValidDraft(d) {
      LoadKeepsInv(s);
      PutKeepsInv(Load(s), DraftRec(d), DraftRec(d));
    }
  }

  /** Pending entries are undeleted, marked, and known to no row. */
  lemma PendingIsLive(s: Store, id: Id)
    requires IndexInv(s) && id in Pending(s)
    ensures Live(Pending(s)[id]) && Pending(s)[id].id == id && id != NO_ID && id !in s.db
  {
    LoadKeepsInv(s);
    ScanKeyed(s.lines);
    assert Bare(Pending(s)[id]) == Bare(Scan(s.lines)[id]);
  }

  /** What waits in the file is pending, and the other way round. */
  lemma PendingIsOnFile(s: Store, id: Id)
    requires IndexInv(s)
    ensures id in Pending(s) <==> id in Scan(s.lines)
  {
    LoadKeepsInv(s);
  }

  lemma UpdateKeepsInv(s: Store, id: Id, p: Patch)
    requires IndexInv(s)
    ensures IndexInv(Update(s, id, p))
  {
    LoadKeepsInv(s);
    var l := Load(s);
    if id in l.index.vals && Marked(l.index.vals[id]) {
      PendingIsLive(s, id);
      var m := Merged(l.index.vals[id], p);
      PutKeepsInv(l, m, Bare(m));
    }
  }

  lemma TombstoneKeepsInv(s: Store, id: Id)
    requires IndexInv(s)
    ensures IndexInv(Tombstone(s, id))
  {
    LoadKeepsInv(s);
    if id in Pending(s) {
      PopKeepsInv(Load(s), id);
    }
  }

  lemma PromoteKeepsInv(s: Store, e: Rec, commitOk: bool)
    requires IndexInv(s) && e.id in Scan(s.lines)
    ensures IndexInv(Promote(s, e, commitOk))
  {
    LoadKeepsInv(s);
    PendingIsOnFile(s, e.id);
    PendingIsLive(s, e.id);
    var l := Load(s);
    if commitOk && e.id !in l.db {
      var m := PromotedMsg(l, e);
      SentKeepsInv(l, e.id, m);
    }
  }

  lemma SentKeepsInv(l: Store, id: Id, m: Msg)
    requires IndexInv(l) && l.ready && id != NO_ID
    requires m.id == id && m.displaySeq.Some?
    ensures IndexInv(PromoteToSent(l.(db := l.db[id := m]), id, Serialize(m, m.displaySeq.value, false)))
  {
    var sent := Serialize(m, m.displaySeq.value, false);
    PopKeepsInv(l, id);
    var popped := Append(l.(index := l.index.Pop(id)), [Tomb(id)]);
    InsertKeepsInv(popped, m);
    DeadLineKeepsInv(popped.(db := popped.db[id := m]), sent);
    AppendTwo(l.(db := l.db[id := m], index := l.index.Pop(id)), Tomb(id), sent);
  }

  lemma InsertKeepsInv(s: Store, m: Msg)
    requires IndexInv(s) && m.id !in Scan(s.lines)
    ensures IndexInv(s.(db := s.db[m.id := m]))
  {
  }

  lemma DeadLineKeepsInv(s: Store, r: Rec)
    requires IndexInv(s) && r.id != NO_ID && !Live(r) && r.id !in Scan(s.lines)
    ensures IndexInv(Append(s, [r]))
  {
    AsLinesOne(r);
    ScanAppendRec(s.lines, r);
    assert Scan(s.lines) - {r.id} == Scan(s.lines);
  }

  lemma AppendTwo(s: Store, a: Rec, b: Rec)
    ensures Append(s, [a, b]) == Append(Append(s, [a]), [b])
  {
    assert AsLines([a, b]) == AsLines([a]) + AsLines([b]);
    ConcatAssoc(s.lines, AsLines([a]), AsLines([b]));
  }

  lemma {:induction false} FilterRecsSound(rs: seq<Rec>)
    ensures forall r :: r in FilterRecs(rs) <==> r in rs && Dispatchable(r)
  {
    if rs != [] {
      FilterRecsSound(rs[..|rs| - 1]);
      SplitLast(rs);
    }
  }

  /** Created earlier; an entry without a creation time counts as the earliest. */
  predicate Earlier(a: Option<nat>, b: Option<nat>) {
    b.Some? && (a.None? || a.value < b.value)
  }

  /** The head of the queue is a pending, queued entry without a schedule, and of those none was
      created earlier, nor has it a creation time where another has none. */
  lemma QueueHead(s: Store)
    requires IndexInv(s)
    ensures Load(s).index.WF()
    ensures forall id :: id in Pending(s) && Pending(s)[id].body.status == Queued && Pending(s)[id].body.scheduledAt == None ==>
              && Queue(s) != []
              && (Pending(s)[id].body.createdAt == None ==> Queue(s)[0].body.createdAt == None)
              && (Pending(s)[id].body.createdAt.Some? && Queue(s)[0].body.createdAt.Some? ==>
                    Queue(s)[0].body.createdAt.value <= Pending(s)[id].body.createdAt.value)
    ensures Queue(s) != [] ==>
              && Queue(s)[0].id in Pending(s) && Pending(s)[Queue(s)[0].id] == Queue(s)[0]
              && Queue(s)[0].body.status == Queued && Queue(s)[0].body.scheduledAt == None
  {
    LoadKeepsInv(s);
    HeadOfQueue(s);
  }

  lemma QueueMembers(s: Store)
    requires Load(s).index.WF() && Keyed(Load(s).index)
    ensures forall id :: id in Pending(s) ==>
              (Pending(s)[id] in Queue(s) <==> Pending(s)[id].body.status == Queued && Pending(s)[id].body.scheduledAt == None)
    ensures forall r :: r in Queue(s) ==> r.id in Pending(s) && Pending(s)[r.id] == r
    ensures SortedByKey(Queue(s), CreatedKey)
  {
    var vs := Load(s).index.Values();
    ValuesAreValues(Load(s).index);
    FilterRecsSound(vs);
    SortSorts(FilterRecs(vs), CreatedKey);
    SortKeepsMembers(FilterRecs(vs), CreatedKey);
  }

  lemma HeadOfQueue(s: Store)
    requires Load(s).index.WF() && Keyed(Load(s).index)
    ensures forall id :: id in Pending(s) && Pending(s)[id].body.status == Queued && Pending(s)[id].body.scheduledAt == None ==>
              Queue(s) != [] && !Earlier(Pending(s)[id].body.createdAt, Queue(s)[0].body.createdAt)
    ensures Queue(s) != [] ==>
              && Queue(s)[0].id in Pending(s) && Pending(s)[Queue(s)[0].id] == Queue(s)[0]
              && Queue(s)[0].body.status == Queued && Queue(s)[0].body.scheduledAt == None
  {
    QueueMembers(s);
    var q := Queue(s);
    if q != [] {
      assert q[0] in q;
    }
    forall id | id in Pending(s) && Pending(s)[id].body.status == Queued && Pending(s)[id].body.scheduledAt == None
      ensures q != [] && !Earlier(Pending(s)[id].body.createdAt, q[0].body.createdAt)
    {
      assert Pending(s)[id] in q;
      var i :| 0 <= i < |q| && q[i] == Pending(s)[id];
      assert CreatedKey(q[0]) <= CreatedKey(q[i]);
    }
  }

  lemma {:induction false} FilterKeepsOrder(rs: seq<Rec>, i: nat, j: nat)
    requires i < j < |rs| && Dispatchable(rs[i]) && Dispatchable(rs[j])
    ensures Precedes(FilterRecs(rs), rs[i], rs[j])
  {
    var init, last := rs[..|rs| - 1], rs[|rs| - 1];
    if j < |rs| - 1 {
      FilterKeepsOrder(init, i, j);
      PrecedesInPrefix(FilterRecs(init), if Dispatchable(last) then [last] else [], rs[i], rs[j]);
    } else {
      FilterRecsSound(init);
      assert init[i] in FilterRecs(init);
      PrecedesLast(FilterRecs(init), rs[i], last);
    }
  }

  lemma FilteredAndSorted(rs: seq<Rec>, i: nat, j: nat)
    requires i < |rs| && j < |rs| && Dispatchable(rs[i]) && Dispatchable(rs[j])
    requires CreatedKey(rs[i]) < CreatedKey(rs[j]) || (i < j && CreatedKey(rs[i]) <= CreatedKey(rs[j]))
    ensures Precedes(SortByKey(FilterRecs(rs), CreatedKey), rs[i], rs[j])
  {
    FilterRecsSound(rs);
    if CreatedKey(rs[i]) < CreatedKey(rs[j]) {
      SortOrders(FilterRecs(rs), CreatedKey, rs[i], rs[j]);
    } else {
      FilterKeepsOrder(rs, i, j);
      SortKeepsOrder(FilterRecs(rs), CreatedKey, rs[i], rs[j]);
    }
  }

  /** The whole queue: earlier created entries stand before later ones, and entries created at the same
      time stand as the index lists them. */
  lemma QueueIsByCreation(s: Store, i: nat, j: nat)
    requires Load(s).index.WF() && i < |Load(s).index.keys| && j < |Load(s).index.keys|
    ensures Load(s).index.keys[i] in Pending(s) && Load(s).index.keys[j] in Pending(s)
    ensures var x, y := Pending(s)[Load(s).index.keys[i]], Pending(s)[Load(s).index.keys[j]];
            && x.body.status == Queued && x.body.scheduledAt == None && y.body.status == Queued && y.body.scheduledAt == None
            && (Earlier(x.body.createdAt, y.body.createdAt) || (x.body.createdAt == y.body.createdAt && i < j))
            ==> Precedes(Queue(s), x, y)
  {
    var index := Load(s).index;
    assert index.keys[i] in index.keys && index.keys[j] in index.keys;
    var x, y := index.Values()[i], index.Values()[j];
    if Dispatchable(x) && Dispatchable(y) && (CreatedKey(x) < CreatedKey(y) || (CreatedKey(x) == CreatedKey(y) && i < j)) {
      FilteredAndSorted(index.Values(), i, j);
    }
  }

  lemma ValuesAreValues(d: Dict<Id, Rec>)
    requires d.WF()
    ensures forall id :: id in d.vals ==> d.vals[id] in d.Values()
    ensures Keyed(d) ==> forall r :: r in d.Values() ==> r.id in d.vals && d.vals[r.id] == r
  {
    forall id | id in d.vals ensures d.vals[id] in d.Values() {
      assert id in d.keys;
      var i :| 0 <= i < |d.keys| && d.keys[i] == id;
      assert d.Values()[i] == d.vals[id];
    }
    forall r | Keyed(d) && r in d.Values() ensures r.id in d.vals && d.vals[r.id] == r {
      var i :| 0 <= i < |d.Values()| && d.Values()[i] == r;
      assert d.keys[i] in d.vals;
    }
  }

  lemma {:induction false} EligibleRowsSound(db: map<Id, Msg>, order: seq<Id>)
    ensures forall m :: m in EligibleRows(db, order) <==> exists id :: id in order && id in db && db[id] == m && Eligible(m)
  {
    if order != [] {
      var init, last := order[..|order| - 1], order[|order| - 1];
      EligibleRowsSound(db, init);
      SplitLast(order);
      forall m ensures m in EligibleRows(db, order) <==> exists id :: id in order && id in db && db[id] == m && Eligible(m) {
        if m in EligibleRows(db, order) {
          if m in EligibleRows(db, init) {
            var id :| id in init && id in db && db[id] == m && Eligible(m);
            assert id in order;
          } else {
            assert last in order;
          }
        }
        if id :| id in order && id in db && db[id] == m && Eligible(m) {
          assert id in init || id == last;
        }
      }
    }
  }

  ghost predicate DbKeyed(db: map<Id, Msg>) {
    forall id :: id in db ==> id != NO_ID && db[id].id == id
  }

  /** What a flush is about to write: rows of the table that are eligible. */
  lemma UndisplayedSound(db: map<Id, Msg>, order: seq<Id>)
    requires DbKeyed(db)
    ensures forall i :: 0 <= i < |Undisplayed(db, order)| ==>
              var m := Undisplayed(db, order)[i]; m.id in order && m.id in db && db[m.id] == m && Eligible(m)
  {
    EligibleRowsSound(db, order);
    SortKeepsMembers(EligibleRows(db, order), SortKey);
    forall i | 0 <= i < |Undisplayed(db, order)|
      ensures var m := Undisplayed(db, order)[i]; m.id in order && m.id in db && db[m.id] == m && Eligible(m)
    {
      var m := Undisplayed(db, order)[i];
      assert m in Undisplayed(db, order);
      assert m in EligibleRows(db, order);
    }
  }

  lemma {:induction false} NumberAllKeys(db: map<Id, Msg>, msgs: seq<Msg>, next: nat)
    requires forall i :: 0 <= i < |msgs| ==> msgs[i].id in db
    ensures NumberAll(db, msgs, next).Keys == db.Keys
  {
    if msgs != [] {
      NumberAllKeys(db, msgs[..|msgs| - 1], next);
    }
  }

  lemma FlushScan(s: Store, order: seq<Id>, end: FlushEnd)
    requires DbKeyed(s.db) && Disjoint(s)
    ensures Scan(Flush(s, order, end).lines) == Scan(s.lines)
  {
    UndisplayedSound(s.db, order);
    var recs := NumberedRecs(Undisplayed(s.db, order), NextDisplay(s.db));
    ScanAppendDead(s.lines, recs);
    if end.WriteFailed? {
      ScanAppendDead(s.lines, recs[..Min(end.written, |recs|)]);
    }
  }

  lemma FlushFacts(s: Store, order: seq<Id>, end: FlushEnd)
    requires DbKeyed(s.db)
    requires Disjoint(s)
    ensures Scan(Flush(s, order, end).lines) == Scan(s.lines)
    ensures Flush(s, order, end).db.Keys == s.db.Keys
    ensures Flush(s, order, end).index == s.index && Flush(s, order, end).ready == s.ready
  {
    FlushScan(s, order, end);
    UndisplayedSound(s.db, order);
    NumberAllKeys(s.db, Undisplayed(s.db, order), NextDisplay(s.db));
  }

  lemma FlushKeepsInv(s: Store, order: seq<Id>, end: FlushEnd)
    requires IndexInv(s) && DbKeyed(s.db)
    ensures IndexInv(Flush(s, order, end))
  {
    FlushFacts(s, order, end);
  }

  lemma UpdateLastKeepsInv(s: Store, id: Id, order: seq<Id>, end: FlushEnd)
    requires IndexInv(s) && DbKeyed(s.db)
    ensures IndexInv(UpdateLast(s, id, order, end))
  {
    if id in s.db && s.db[id].displaySeq.None? {
      FlushKeepsInv(s, order, end);
    } else if id in s.db && !(end.WriteFailed? && end.written == 0) {
      ScanAppendDead(s.lines, [Serialize(s.db[id], s.db[id].displaySeq.value, true)]);
    }
  }

  // ---- Rebuild ----

  /** Entries as a scan returns them: keyed, live and normalised. */
  ghost predicate Scanned(d: Dict<Id, Rec>) {
    && d.WF() && Keyed(d)
    && forall id :: id in d.vals ==> Live(d.vals[id]) && Normalise(d.vals[id]) == d.vals[id]
  }

  lemma ValuesDistinct(d: Dict<Id, Rec>, n: nat)
    requires d.WF() && Keyed(d) && n <= |d.keys|
    ensures DistinctIds(d.Values()[..n])
    ensures IdsOf(d.Values()[..n]) == d.keys[..n]
  {
    var recs := d.Values()[..n];
    forall i | 0 <= i < n ensures recs[i].id == d.keys[i] && recs[i].id != NO_ID {
      assert d.keys[i] in d.vals;
    }
  }

  lemma ValueSeen(d: Dict<Id, Rec>, n: nat, i: nat)
    requires Scanned(d) && i < n <= |d.keys| && DistinctIds(d.Values()[..n])
    ensures var seen := Seen(AsLines(d.Values()[..n]));
            d.keys[i] in seen && d.keys[i] in d.vals && seen[d.keys[i]] == d.vals[d.keys[i]]
            && d.Values()[..n][i].id == d.keys[i]
  {
    var recs := d.Values()[..n];
    assert d.keys[i] in d.vals;
    ValuesDistinct(d, n);
    assert IdsOf(recs)[i] == d.keys[i];
    SeenInBlock(recs, i);
  }

  /** Rewriting the first `n` scanned entries makes a replay see exactly those. */
  lemma ScanOfValues(d: Dict<Id, Rec>, n: nat)
    requires Scanned(d) && n <= |d.keys|
    ensures Scan(AsLines(d.Values()[..n])).Keys == (set i | 0 <= i < n :: d.keys[i])
    ensures Seen(AsLines(d.Values()[..n])).Keys == (set i | 0 <= i < n :: d.keys[i])
    ensures forall id :: id in Scan(AsLines(d.Values()[..n])) ==>
              id in d.vals && Scan(AsLines(d.Values()[..n]))[id] == d.vals[id]
  {
    var recs := d.Values()[..n];
    ValuesDistinct(d, n);
    var seen := Seen(AsLines(recs));
    forall i: nat | i < n
      ensures d.keys[i] in seen && d.keys[i] in d.vals && seen[d.keys[i]] == d.vals[d.keys[i]] && recs[i].id == d.keys[i]
    {
      ValueSeen(d, n, i);
    }
    forall id | id in seen ensures exists i :: 0 <= i < n && d.keys[i] == id {
      OnlyBlockSeen(recs, id);
      var i :| 0 <= i < |recs| && recs[i].id == id;
      assert d.keys[i] == id;
    }
  }

  lemma AllKeys(d: Dict<Id, Rec>)
    requires d.WF()
    ensures (set i | 0 <= i < |d.keys| :: d.keys[i]) == d.vals.Keys
  {
    forall id | id in d.vals ensures exists i :: 0 <= i < |d.keys| && d.keys[i] == id {
      assert id in d.keys;
    }
  }

  lemma PreservedScanned(lines: seq<Line>, readOk: bool)
    ensures Scanned(Preserved(lines, readOk))
    ensures Preserved(lines, readOk).vals == if readOk then Scan(lines) else map[]
  {
    ScanKeyed(lines);
  }

  /** After a rebuild the file's pre-sent entries are the preserved ones that reached it,
      together with all of them when the old file could not be truncated. */
  lemma RebuildScan(s: Store, order: seq<Id>, end: RebuildEnd)
    requires IndexInv(s) && DbKeyed(s.db) && end.resetOk
    ensures
      var kept := Preserved(s.lines, end.readOk);
      var n := Min(end.preWritten, |kept.keys|);
      var t := Rebuild(s, order, end);
      && Scan(t.lines).Keys == (if end.truncateOk then {} else Scan(s.lines).Keys) + (set i | 0 <= i < n :: kept.keys[i])
      && (forall id :: id in Scan(t.lines) ==> id in Scan(s.lines) && Scan(t.lines)[id] == Scan(s.lines)[id])
      && t.db.Keys == s.db.Keys
  {
    var kept := Preserved(s.lines, end.readOk);
    var emptied := Emptied(s, end.truncateOk);
    EmptiedFacts(s, end.truncateOk);
    FlushFacts(emptied, order, end.flush);
    PreservedScanned(s.lines, end.readOk);
    RebuiltLines(s, order, end);
    ScanRestored(Flush(emptied, order, end.flush).lines, kept, Min(end.preWritten, |kept.keys|), Scan(s.lines));
  }

  lemma RebuiltLines(s: Store, order: seq<Id>, end: RebuildEnd)
    requires end.resetOk
    ensures var kept, flushed := Preserved(s.lines, end.readOk), Flush(Emptied(s, end.truncateOk), order, end.flush);
            && Rebuild(s, order, end).lines == flushed.lines + AsLines(kept.Values()[..Min(end.preWritten, |kept.keys|)])
            && Rebuild(s, order, end).db == flushed.db
  {
  }

  lemma EmptiedFacts(s: Store, truncateOk: bool)
    requires Disjoint(s) && DbKeyed(s.db)
    ensures
      var t := Emptied(s, truncateOk);
      && Disjoint(t) && DbKeyed(t.db) && t.db.Keys == s.db.Keys
      && Scan(t.lines) == if truncateOk then map[] else Scan(s.lines)
  {
    assert Scan([]) == map[];
  }

  lemma ScanRestored(lines: seq<Line>, kept: Dict<Id, Rec>, n: nat, before: map<Id, Rec>)
    requires Scanned(kept) && n <= |kept.keys|
    requires Scan(lines) == map[] || Scan(lines) == before
    requires kept.vals == map[] || kept.vals == before
    ensures Scan(lines + AsLines(kept.Values()[..n])).Keys
            == Scan(lines).Keys + (set i | 0 <= i < n :: kept.keys[i])
    ensures forall id :: id in Scan(lines + AsLines(kept.Values()[..n])) ==>
              id in before && Scan(lines + AsLines(kept.Values()[..n]))[id] == before[id]
  {
    ScanAppend(lines, AsLines(kept.Values()[..n]));
    ScanOfValues(kept, n);
  }

  lemma RebuiltIndex(s: Store, order: seq<Id>, end: RebuildEnd)
    requires end.resetOk
    ensures Rebuild(s, order, end).index == Preserved(s.lines, end.readOk) && Rebuild(s, order, end).ready
  {
  }

  lemma SameWhenSameKeys(a: map<Id, Rec>, b: map<Id, Rec>)
    requires forall id :: id in b ==> id in a && b[id] == a[id]
    ensures SameBare(a, b) <==> a.Keys == b.Keys
  {
  }

  /** Which keys are in the file again after a rebuild that wrote the first `n` back. */
  lemma KeysWrittenBack(d: Dict<Id, Rec>, n: nat, truncated: bool)
    requires d.WF() && n <= |d.keys|
    ensures (if truncated then {} else d.vals.Keys) + (set i | 0 <= i < n :: d.keys[i]) == d.vals.Keys
            <==> (truncated ==> n == |d.keys|)
  {
    AllKeys(d);
    var written := set i | 0 <= i < n :: d.keys[i];
    assert written <= d.vals.Keys by {
      forall i | 0 <= i < n ensures d.keys[i] in d.vals { assert d.keys[i] in d.keys; }
    }
    if truncated && n < |d.keys| {
      CutKeysDiffer(d, n);
    }
  }

  /** A rebuild leaves index and file in agreement exactly when the preserved entries were
      all written back or the old file could not be truncated: the index is replaced by
      the preserved entries whether or not the last write succeeded. A file that could not
      be read must be truncated, or have held no entries. */
  lemma RebuildSyncedExactly(s: Store, order: seq<Id>, end: RebuildEnd)
    requires IndexInv(s) && DbKeyed(s.db) && end.resetOk
    ensures Synced(Rebuild(s, order, end)) <==> KeptAreRewritten(s, end)
  {
    var kept := Preserved(s.lines, end.readOk);
    RebuildScan(s, order, end);
    RebuiltIndex(s, order, end);
    PreservedScanned(s.lines, end.readOk);
    if end.readOk {
      SameWhenSameKeys(kept.vals, Scan(Rebuild(s, order, end).lines));
      KeysWrittenBack(kept, Min(end.preWritten, |kept.keys|), end.truncateOk);
    } else {
      assert kept.keys == [];
    }
  }

  /** A rebuild that cannot read the old file but truncates it drops every pending entry, from the
      file and from the index. */
  lemma UnreadRebuildDropsPending(s: Store, order: seq<Id>, end: RebuildEnd)
    requires IndexInv(s) && DbKeyed(s.db) && end.resetOk && !end.readOk
    ensures Pending(Rebuild(s, order, end)) == map[]
    ensures Scan(Rebuild(s, order, end).lines) == if end.truncateOk then map[] else Scan(s.lines)
  {
    RebuildScan(s, order, end);
    RebuiltIndex(s, order, end);
    assert Preserved(s.lines, end.readOk).keys == [];
    if !end.truncateOk {
      assert Scan(Rebuild(s, order, end).lines).Keys == Scan(s.lines).Keys;
    } else {
      assert Scan(Rebuild(s, order, end).lines).Keys == {};
    }
  }

  lemma RebuildStaysDisjoint(s: Store, order: seq<Id>, end: RebuildEnd)
    requires IndexInv(s) && DbKeyed(s.db) && end.resetOk
    ensures Disjoint(Rebuild(s, order, end))
  {
    RebuildScan(s, order, end);
  }

  lemma RebuildKeepsInv(s: Store, order: seq<Id>, end: RebuildEnd)
    requires IndexInv(s) && DbKeyed(s.db)
    requires end.resetOk ==> KeptAreRewritten(s, end)
    ensures IndexInv(Rebuild(s, order, end))
  {
    if end.resetOk {
      RebuildSyncedExactly(s, order, end);
      RebuildStaysDisjoint(s, order, end);
      RebuiltIndex(s, order, end);
      PreservedScanned(s.lines, end.readOk);
    }
  }

  /** A key cut off is among the first ones no more. */
  lemma CutKeysDiffer(d: Dict<Id, Rec>, n: nat)
    requires d.WF() && n < |d.keys|
    ensures d.keys[n] in d.vals && d.keys[n] !in (set i | 0 <= i < n :: d.keys[i])
  {
    assert d.keys[n] in d.keys;
  }

  // ---- Keys ----

  /** The invariant with the table's own keys. */
  ghost predicate Inv(s: Store) {
    IndexInv(s) && DbKeyed(s.db)
  }

  lemma InsertKeepsKeys(db: map<Id, Msg>, m: Msg)
    requires DbKeyed(db) && m.id != NO_ID
    ensures DbKeyed(db[m.id := m])
  {
  }

  lemma PromoteKeepsKeys(s: Store, e: Rec, commitOk: bool)
    requires Inv(s) && e.id in Scan(s.lines)
    ensures DbKeyed(Promote(s, e, commitOk).db)
  {
    PendingIsOnFile(s, e.id);
    PendingIsLive(s, e.id);
    InsertKeepsKeys(s.db, PromotedMsg(Load(s), e));
  }

  lemma FlushKeepsKeys(s: Store, order: seq<Id>, end: FlushEnd)
    requires DbKeyed(s.db)
    ensures DbKeyed(Flush(s, order, end).db)
  {
    UndisplayedSound(s.db, order);
    NumberAllKeyed(s.db, Undisplayed(s.db, order), NextDisplay(s.db));
  }

  lemma {:induction false} NumberAllKeyed(db: map<Id, Msg>, msgs: seq<Msg>, next: nat)
    requires DbKeyed(db)
    requires forall i :: 0 <= i < |msgs| ==> msgs[i].id in db
    ensures DbKeyed(NumberAll(db, msgs, next))
  {
    if msgs != [] {
      NumberAllKeyed(db, msgs[..|msgs| - 1], next);
    }
  }
}
