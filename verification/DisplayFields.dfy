/**
 What each operation leaves for readers, field by field: the entry a reader of the file
 finds afterwards, the entry in the index, and the row.
 */
module DisplayFields {
  import opened Collections
  import opened DisplayLog
  import opened DisplayState
  import opened DisplayIndex
  import opened DisplayRuns
  import opened DisplayFaults
  import opened DisplayNumbering

  // ---- Entries ----

  /** The last line about an id waits exactly when it is not deleted and carries one of the two marks, the
      legacy one included; it is read with the mark under its present name and otherwise as it is. */
  lemma EntryIsScanned(lines: seq<Line>, r: Rec)
    requires r.id != NO_ID
    ensures var after := Scan(lines + AsLines([r]));
            && (r.id in after <==> !r.deleted && (r.preSent == Some(true) || r.pre == Some(true)))
            && (r.id in after ==>
                  && after[r.id].(pre := None, preSent := None) == r.(pre := None, preSent := None)
                  && (r.pre.Some? && r.preSent == None ==> after[r.id].preSent == r.pre && after[r.id].pre == None)
                  && (r.preSent.Some? || r.pre == None ==> after[r.id] == r))
            && SameBut(Scan(lines), after, r.id)
  {
    AsLinesOne(r);
    ScanAppendRec(lines, r);
  }

  // ---- Drafts ----

  /** Exactly the drafts with all required fields, of the user's, from one of three sources and in one of
      three states get their line. */
  lemma DraftIsTakenExactly(s: Store, d: Draft)
    ensures Create(s, d).lines != s.lines <==>
            && d.id != None && d.content != None && d.createdAt != None
            && d.role == Some(User)
            && (d.source == Some(Web) || d.source == Some(Task) || d.source == Some(PlanContinue))
            && (d.status == Some(Queued) || d.status == Some(Scheduled) || d.status == Some(Cancelled))
    ensures Create(s, d).lines == s.lines ==> Create(s, d) == s
  {
    if ValidDraft(d) {
      assert |Create(s, d).lines| == |s.lines| + 1;
    }
  }

  /** The entry says what the draft says, and that it waits. */
  predicate SaysDraft(r: Rec, d: Draft) {
    && d.id == Some(r.id) && !r.deleted && r.preSent == Some(true) && r.pre == None && r.queued && !r.replace
    && r.kind == Message && r.num == None && r.dispatchSeq == d.dispatchSeq
    && d.role == Some(r.body.role) && d.content == Some(r.body.content) && d.source == Some(r.body.source)
    && d.status == Some(r.body.status) && r.body.metadata == d.metadata && d.createdAt == Some(r.body.createdAt)
    && r.body.scheduledAt == d.scheduledAt && r.body.deliveredAt == None
  }

  lemma DraftSays(d: Draft)
    requires ValidDraft(d)
    ensures SaysDraft(DraftRec(d), d) && Normalise(DraftRec(d)) == DraftRec(d) && Live(DraftRec(d))
  {
  }

  /** A live entry put in the index and written to the file: nothing else changes in either. */
  lemma PutIsLocal(index: Dict<Id, Rec>, lines: seq<Line>, x: Rec, r: Rec)
    requires r.id != NO_ID && r.id == x.id && Live(r)
    ensures var after := Scan(lines + AsLines([r]));
            && r.id in after && after[r.id] == Normalise(r)
            && x.id in index.Put(x.id, x).vals && index.Put(x.id, x).vals[x.id] == x
            && SameBut(index.vals, index.Put(x.id, x).vals, x.id) && SameBut(Scan(lines), after, x.id)
  {
    AsLinesOne(r);
    ScanAppendRec(lines, r);
  }

  /** A created entry is read back as the draft. */
  lemma CreatedIsReadBack(s: Store, d: Draft)
    requires ValidDraft(d) && d.id.value != NO_ID
    ensures var t, id := Create(s, d), d.id.value;
            && id in Scan(t.lines) && SaysDraft(Scan(t.lines)[id], d)
            && id in t.index.vals && SaysDraft(t.index.vals[id], d)
            && t.ready && t.db == s.db
            && SameBut(Pending(s), t.index.vals, id) && SameBut(Scan(s.lines), Scan(t.lines), id)
  {
    DraftSays(d);
    PutIsLocal(Load(s).index, s.lines, DraftRec(d), DraftRec(d));
  }

  // ---- Patches ----

  /** The entry with the patched fields new, and everything else as it was. */
  predicate SaysPatched(r: Rec, was: Rec, p: Patch) {
    && r.id == was.id && r.deleted == was.deleted && r.preSent == Some(true) && r.pre == None && r.queued
    && r.kind == was.kind && r.num == was.num && r.dispatchSeq == was.dispatchSeq
    && r.body.role == was.body.role && r.body.source == was.body.source
    && r.body.createdAt == was.body.createdAt && r.body.deliveredAt == was.body.deliveredAt
    && (if p.content == None then r.body.content == was.body.content else p.content == Some(r.body.content))
    && (if p.scheduledAt == None then r.body.scheduledAt == was.body.scheduledAt else p.scheduledAt == Some(r.body.scheduledAt))
    && (if p.metadata == None then r.body.metadata == was.body.metadata else p.metadata == Some(r.body.metadata))
    && (if p.status == None then r.body.status == was.body.status else p.status == Some(r.body.status))
  }

  lemma MergedSays(was: Rec, p: Patch)
    ensures SaysPatched(Merged(was, p), was, p) && Merged(was, p).replace && Normalise(Merged(was, p)) == Merged(was, p)
    ensures SaysPatched(Bare(Merged(was, p)), was, p) && !Bare(Merged(was, p)).replace
    ensures !was.deleted ==> Live(Merged(was, p))
  {
  }

  /** An updated entry is read back with the patch, from the file with a replace mark and in the index
      without one. */
  lemma UpdatedIsReadBack(s: Store, id: Id, p: Patch)
    requires Base(s)
    ensures id in Pending(s) ==>
              var t, was := Update(s, id, p), Pending(s)[id];
              && id in Scan(t.lines) && SaysPatched(Scan(t.lines)[id], was, p) && Scan(t.lines)[id].replace
              && id in t.index.vals && SaysPatched(t.index.vals[id], was, p) && !t.index.vals[id].replace
              && t.ready && t.db == s.db
              && SameBut(Pending(s), t.index.vals, id) && SameBut(Scan(s.lines), Scan(t.lines), id)
    ensures id !in Pending(s) ==> Update(s, id, p) == Load(s)
  {
    OpenBase(s, true);
    if id in Pending(s) {
      MergedSays(Pending(s)[id], p);
      var m := Merged(Pending(s)[id], p);
      PutIsLocal(Load(s).index, s.lines, Bare(m), m);
    }
  }

  /** Cancelling is the update of the status alone, for entries queued or scheduled. */
  lemma CancelledIsReadBack(s: Store, id: Id)
    requires Base(s)
    ensures id in Pending(s) && (Pending(s)[id].body.status == Queued || Pending(s)[id].body.status == Scheduled) ==>
              var t, was := Cancel(s, id), Pending(s)[id];
              && id in Scan(t.lines) && SaysPatched(Scan(t.lines)[id], was, Patch(None, None, None, Some(Cancelled)))
              && id in t.index.vals && SaysPatched(t.index.vals[id], was, Patch(None, None, None, Some(Cancelled)))
    ensures !(id in Pending(s) && (Pending(s)[id].body.status == Queued || Pending(s)[id].body.status == Scheduled)) ==>
              Cancel(s, id) == Load(s)
  {
    UpdatedIsReadBack(s, id, CANCEL);
  }

  // ---- Rows and their lines ----

  /** The line shows the row under number `n`. */
  predicate SaysRow(r: Rec, m: Msg, n: nat) {
    && r.id == m.id && !r.deleted && r.preSent == None && r.pre == None && !r.queued
    && r.kind == Message && r.num == Some(n) && r.dispatchSeq == None
    && r.body.role == m.body.role && r.body.content == m.body.content && r.body.source == m.body.source
    && r.body.status == m.body.status && r.body.metadata == m.body.metadata
    && r.body.createdAt == m.body.createdAt && r.body.deliveredAt == m.body.deliveredAt && r.body.scheduledAt == None
  }

  lemma LastLineIsSeen(lines: seq<Line>, r: Rec)
    requires r.id != NO_ID
    ensures r.id in Seen(lines + AsLines([r])) && Seen(lines + AsLines([r]))[r.id] == r
  {
    AsLinesOne(r);
    SeenVals(lines, Obj(r));
  }

  /** A promotion: the row has the entry's fields, is sent and not delivered, and its numbers are the least
      ones above all others, those reserved by entries included; a reader finds the row. */
  lemma PromotedIsReadBack(s: Store, e: Rec)
    requires e.id != NO_ID && e.id !in s.db
    ensures var t := Promote(s, e, true);
            && e.id in t.db && t.db == s.db[e.id := t.db[e.id]]
            && t.db[e.id].id == e.id && t.db[e.id].body.role == User && t.db[e.id].body.status == Sent
            && t.db[e.id].body.content == e.body.content && t.db[e.id].body.source == e.body.source
            && t.db[e.id].body.metadata == e.body.metadata && t.db[e.id].body.createdAt == e.body.createdAt
            && t.db[e.id].body.deliveredAt == None && t.db[e.id].body.scheduledAt == None
            && t.db[e.id].displaySeq.Some? && t.db[e.id].dispatchSeq.Some?
            && e.id !in t.index.vals && e.id !in Scan(t.lines)
            && e.id in Seen(t.lines) && SaysRow(Seen(t.lines)[e.id], t.db[e.id], t.db[e.id].displaySeq.value)
  {
    PromoteUnfolds(s, e);
    AppendTwo(Committed(s, e), Tomb(e.id), SentRec(s, e));
    LastLineIsSeen(Append(Committed(s, e), [Tomb(e.id)]).lines, SentRec(s, e));
  }

  ghost predicate Taken(s: Store, n: nat) {
    || (exists id :: id in s.db && s.db[id].dispatchSeq == Some(n))
    || (exists id :: id in Pending(s) && Pending(s)[id].dispatchSeq == Some(n))
  }

  lemma TakenIs(s: Store, n: nat)
    ensures Taken(s, n) <==> n in DispatchSeqs(s.db) + ReservedSeqs(Pending(s))
  {
  }

  /** The least positive number above those of rows and those that entries reserve. */
  ghost predicate NextFree(s: Store, n: nat) {
    && n > 0 && (n > 1 ==> Taken(s, n - 1))
    && forall k: nat {:trigger Taken(s, k)} :: Taken(s, k) ==> k < n
  }

  lemma NextDispatchIsFree(s: Store)
    ensures NextFree(s, NextDispatch(s))
  {
    forall k: nat | Taken(s, k) ensures k < NextDispatch(s) { TakenIs(s, k); }
    TakenIs(s, NextDispatch(s) - 1);
  }

  lemma OneIsNext(s: Store, m: nat, n: nat)
    requires NextFree(s, m) && NextFree(s, n)
    ensures m == n
  {
    assert m > 1 ==> Taken(s, m - 1);
  }

  lemma PromotedNumber(s: Store, e: Rec)
    requires e.id !in s.db
    ensures e.id in Promote(s, e, true).db && Promote(s, e, true).db[e.id].dispatchSeq == Some(NextDispatch(Load(s)))
  {
    PromoteUnfolds(s, e);
  }

  /** The dispatch number of a promotion. */
  lemma DispatchNumberIsNext(s: Store, e: Rec, n: nat)
    requires e.id !in s.db
    ensures e.id in Promote(s, e, true).db
    ensures Promote(s, e, true).db[e.id].dispatchSeq == Some(n) <==> NextFree(Load(s), n)
  {
    PromotedNumber(s, e);
    NextDispatchIsFree(Load(s));
    if NextFree(Load(s), n) { OneIsNext(Load(s), NextDispatch(Load(s)), n); }
  }

  lemma NumberedRecIs(msgs: seq<Msg>, next: nat, i: nat)
    requires i < |msgs|
    ensures |NumberedRecs(msgs, next)| == |msgs| && NumberedRecs(msgs, next)[i].id == msgs[i].id
    ensures SaysRow(NumberedRecs(msgs, next)[i], msgs[i], next + i) && !NumberedRecs(msgs, next)[i].replace
  {
  }

  lemma FlushedLineIsSeen(lines: seq<Line>, msgs: seq<Msg>, next: nat, i: nat)
    requires i < |msgs| && DistinctIds(NumberedRecs(msgs, next))
    ensures var seen := Seen(lines + AsLines(NumberedRecs(msgs, next)));
            msgs[i].id in seen && SaysRow(seen[msgs[i].id], msgs[i], next + i) && !seen[msgs[i].id].replace
  {
    NumberedRecIs(msgs, next, i);
    SeenAppend(lines, AsLines(NumberedRecs(msgs, next)));
    SeenInBlock(NumberedRecs(msgs, next), i);
  }

  /** After a flush that succeeds a reader finds each newly numbered row as it is. */
  lemma FlushedIsReadBack(s: Store, order: seq<Id>, id: Id)
    requires DbKeyed(s.db) && Covers(order, s.db) && id in s.db
    requires s.db[id].displaySeq.None? && (s.db[id].body.role == User ==> s.db[id].body.deliveredAt.Some?)
    ensures var t := Flush(s, order, Flushed);
            && HasNumber(t.db, id) && id in Seen(t.lines)
            && SaysRow(Seen(t.lines)[id], s.db[id], t.db[id].displaySeq.value) && !Seen(t.lines)[id].replace
  {
    var msgs, next := Undisplayed(s.db, order), NextDisplay(s.db);
    UndisplayedIsBatch(s.db, order);
    FlushedIs(s, order);
    NumberAllFacts(s.db, msgs, next);
    var i :| 0 <= i < |msgs| && msgs[i] == s.db[id];
    assert NumberAll(s.db, msgs, next)[msgs[i].id] == msgs[i].(displaySeq := Some(next + i));
    NumberedRecsDistinct(s.db, msgs, next);
    FlushedLineIsSeen(s.lines, msgs, next, i);
  }

  /** A flush that fails commits nothing: with the commit refused all its lines are in the file, and with the
      write cut short as many of them as were written. */
  lemma FailedFlushIs(s: Store, order: seq<Id>, k: nat)
    ensures var whole := Flush(s, order, Flushed).lines;
            && s.lines <= whole
            && Flush(s, order, CommitFailed) == s.(lines := whole)
            && Flush(s, order, WriteFailed(k)) == s.(lines := whole[..Min(|s.lines| + k, |whole|)])
  {
    var recs := NumberedRecs(Undisplayed(s.db, order), NextDisplay(s.db));
    FlushedIs(s, order);
    assert (s.lines + AsLines(recs))[..|s.lines| + Min(k, |recs|)] == s.lines + AsLines(recs[..Min(k, |recs|)]);
    assert s.lines[..|s.lines|] == s.lines;
  }

  /** An update of a numbered message is read back as the row now is, with a replace mark. */
  lemma RewrittenIsReadBack(s: Store, id: Id, order: seq<Id>)
    requires DbKeyed(s.db) && HasNumber(s.db, id)
    ensures var t := UpdateLast(s, id, order, Flushed);
            && t.db == s.db && id in Seen(t.lines)
            && SaysRow(Seen(t.lines)[id], s.db[id], s.db[id].displaySeq.value) && Seen(t.lines)[id].replace
  {
    LastLineIsSeen(s.lines, Serialize(s.db[id], s.db[id].displaySeq.value, true));
  }

  /** An update of a message without a number numbers it with all others that wait for one, and it is read
      back under its number; an undelivered message of the user's stays without. */
  lemma UnnumberedIsFlushed(s: Store, id: Id, order: seq<Id>)
    requires DbKeyed(s.db) && Covers(order, s.db) && id in s.db && s.db[id].displaySeq.None?
    ensures var t := UpdateLast(s, id, order, Flushed);
            && (forall x :: x in s.db ==>
                  (x in t.db && (t.db[x].displaySeq.None? <==>
                     s.db[x].displaySeq.None? && s.db[x].body.role == User && s.db[x].body.deliveredAt.None?)))
            && (HasNumber(t.db, id) ==>
                  id in Seen(t.lines) && SaysRow(Seen(t.lines)[id], s.db[id], t.db[id].displaySeq.value))
  {
    var msgs := Undisplayed(s.db, order);
    UndisplayedIsBatch(s.db, order);
    UndisplayedSound(s.db, order);
    FlushedIs(s, order);
    BatchLeavesRest(s.db, msgs, NextDisplay(s.db));
    if s.db[id].body.role == User ==> s.db[id].body.deliveredAt.Some? { FlushedIsReadBack(s, order, id); }
  }

  // ---- Rows that other components write ----

  /** A message arrives as it is; delivery and growth change its text and times, and no other row. */
  lemma RowsOfOthers(s: Store, m: Msg, id: Id, body: Body)
    ensures Arrive(s, m).db.Keys == s.db.Keys + {m.id} && Arrive(s, m).db[m.id] == m
    ensures forall x :: x in s.db && x != m.id ==> Arrive(s, m).db[x] == s.db[x]
    ensures Amend(s, id, body).db.Keys == s.db.Keys
    ensures id in s.db ==> Amend(s, id, body).db[id] == Msg(s.db[id].id, body, s.db[id].displaySeq, s.db[id].dispatchSeq)
    ensures forall x :: x in s.db && x != id ==> Amend(s, id, body).db[x] == s.db[x]
    ensures Arrive(s, m).lines == s.lines == Amend(s, id, body).lines
    ensures Arrive(s, m).index == s.index == Amend(s, id, body).index
  {
  }

  // ---- Tombstones and the retry card ----

  /** A discarded draft is gone from the index, and readers find it deleted. */
  lemma DiscardedIsReadBack(s: Store, id: Id)
    requires Base(s) && id in Pending(s) && Pending(s)[id].body.status == Cancelled
    ensures var t := Tombstone(s, id);
            && id !in t.index.vals && id !in Scan(t.lines) && id in Seen(t.lines) && Seen(t.lines)[id].deleted
  {
    OpenBase(s, true);
    LastLineIsSeen(s.lines, Tomb(id));
  }

  /** The retry card is the first line, numbered 0, with the attempts; it is put there unless the file begins
      with one, there are no attempts, or this is the first of them. */
  lemma MarkerIsReadBack(s: Store, metadata: string, attempts: nat, current: int, now: nat)
    ensures var t := WriteMarker(s, metadata, attempts, current, now);
            if attempts > 0 && current >= 1 && !(s.lines != [] && s.lines[0].Obj? && s.lines[0].rec.kind == RetryMarker)
            then |t.lines| == |s.lines| + 1 && t.lines[1..] == s.lines && t.lines[0].Obj?
                 && var r := t.lines[0].rec;
                    && r.id == RETRY_ID && r.kind == RetryMarker && r.num == Some(0) && !r.deleted
                    && r.preSent == None && r.pre == None && !r.queued && !r.replace
                    && r.body.role == System && r.body.content == "" && r.body.metadata == Some(metadata)
                    && r.body.createdAt == Some(now) && r.body.scheduledAt == None && r.body.deliveredAt == None
            else t == s
  {
  }
}
