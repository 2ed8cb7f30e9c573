/**
 A rebuild that runs to completion: what the new file is, in which order messages are
 numbered, what survives, and why doing it twice changes nothing.
 */
module DisplayRebuild {
  import opened Collections
  import opened DisplayLog
  import opened DisplayState
  import opened DisplayIndex
  import opened DisplayNumbering

  /** Every step succeeds. */
  ghost predicate Complete(s: Store, end: RebuildEnd) {
    end.readOk && end.resetOk && end.truncateOk && end.flush == Flushed && end.preWritten >= |ScanDict(s.lines).keys|
  }

  /** The rows a rebuild numbers, in file order. */
  function Displayed(s: Store, order: seq<Id>): seq<Msg> {
    Undisplayed(Unnumbered(s.db), order)
  }

  lemma FirstNumber(db: map<Id, Msg>)
    ensures NextDisplay(Unnumbered(db)) == 1
    ensures Dense(Unnumbered(db), [])
  {
    assert Dense(Unnumbered(db), []);
    DenseMax(Unnumbered(db), []);
  }

  /** The rebuilt file is the numbered messages followed by the preserved entries. */
  lemma RebuiltFile(s: Store, order: seq<Id>, end: RebuildEnd)
    requires Complete(s, end)
    ensures var t := Rebuild(s, order, end);
            && t.lines == AsLines(NumberedRecs(Displayed(s, order), 1)) + AsLines(ScanDict(s.lines).Values())
            && t.db == NumberAll(Unnumbered(s.db), Displayed(s, order), 1)
            && t.index == ScanDict(s.lines) && t.ready
  {
    FirstNumber(s.db);
    var kept := ScanDict(s.lines);
    var recs := NumberedRecs(Displayed(s, order), 1);
    assert kept.Values()[..Min(end.preWritten, |kept.keys|)] == kept.Values();
    assert [] + AsLines(recs) == AsLines(recs);
    if Displayed(s, order) == [] {
      assert AsLines(recs) == [];
    }
  }

  lemma RebuiltInOrder(s: Store, order: seq<Id>, end: RebuildEnd, i: nat, j: nat)
    requires DbKeyed(s.db) && Covers(order, s.db) && Complete(s, end) && ShownFirst(s.db, order, i, j)
    ensures var t := Rebuild(s, order, end);
            && HasNumber(t.db, order[i]) && HasNumber(t.db, order[j])
            && t.db[order[i]].displaySeq.value < t.db[order[j]].displaySeq.value
  {
    RebuiltLines(s, order, end);
    FlushNumbersInOrder(Emptied(s, true), order, i, j);
  }

  lemma RebuiltRows(s: Store, order: seq<Id>, end: RebuildEnd)
    requires DbKeyed(s.db) && Covers(order, s.db) && Complete(s, end)
    ensures var t := Rebuild(s, order, end);
            && Dense(t.db, Ids(Displayed(s, order))) && t.db.Keys == s.db.Keys
            && forall id :: id in s.db ==>
                 && t.db[id] == s.db[id].(displaySeq := t.db[id].displaySeq)
                 && (t.db[id].displaySeq.Some? <==> (s.db[id].body.role == User ==> s.db[id].body.deliveredAt.Some?))
  {
    FirstNumber(s.db);
    RebuiltLines(s, order, end);
    FlushCompletes(Emptied(s, true), order, []);
    EmptyConcat(Ids(Displayed(s, order)));
  }

  /** Which messages are numbered, and in which order: all but undelivered user messages, as 1..n, by
      the time of delivery or else of creation; at equal times as the query lists them. */
  lemma RebuildNumbersInOrder(s: Store, order: seq<Id>, end: RebuildEnd)
    requires Inv(s) && Covers(order, s.db) && Complete(s, end)
    ensures var t := Rebuild(s, order, end);
            && Dense(t.db, Ids(Displayed(s, order)))
            && t.db.Keys == s.db.Keys
            && (forall id :: id in s.db ==> t.db[id] == s.db[id].(displaySeq := t.db[id].displaySeq))
            && (forall id :: id in s.db ==>
                  (t.db[id].displaySeq.Some? <==> (s.db[id].body.role == User ==> s.db[id].body.deliveredAt.Some?)))
            && (forall i: nat, j: nat {:trigger ShownFirst(s.db, order, i, j)} :: ShownFirst(s.db, order, i, j) ==>
                  && HasNumber(t.db, order[i]) && HasNumber(t.db, order[j])
                  && t.db[order[i]].displaySeq.value < t.db[order[j]].displaySeq.value)
  {
    var t := Rebuild(s, order, end);
    RebuiltRows(s, order, end);
    forall i: nat, j: nat | ShownFirst(s.db, order, i, j)
      ensures HasNumber(t.db, order[i]) && HasNumber(t.db, order[j])
      ensures t.db[order[i]].displaySeq.value < t.db[order[j]].displaySeq.value
    {
      RebuiltInOrder(s, order, end, i, j);
    }
  }

  /** Exactly the surviving pre-sent entries come through, and the index holds them. */
  lemma RebuildKeepsPreSent(s: Store, order: seq<Id>, end: RebuildEnd)
    requires Inv(s) && Complete(s, end)
    ensures Scan(Rebuild(s, order, end).lines) == Scan(s.lines)
    ensures Rebuild(s, order, end).index.vals == Scan(s.lines)
  {
    RebuiltFile(s, order, end);
    RebuildScan(s, order, end);
    AllKeys(ScanDict(s.lines));
    assert Min(end.preWritten, |ScanDict(s.lines).keys|) == |ScanDict(s.lines).keys|;
  }

  // ---- Idempotence ----

  lemma RenumberedRows(db: map<Id, Msg>, msgs: seq<Msg>)
    requires Batch(Unnumbered(db), msgs)
    ensures Unnumbered(NumberAll(Unnumbered(db), msgs, 1)) == Unnumbered(db)
  {
    var base := Unnumbered(db);
    NumberAllFacts(base, msgs, 1);
    forall id | id in base ensures NumberAll(base, msgs, 1)[id].(displaySeq := None) == base[id] {
      if id in Ids(msgs) {
        var i :| 0 <= i < |msgs| && msgs[i].id == id;
        assert NumberAll(base, msgs, 1)[msgs[i].id] == msgs[i].(displaySeq := Some(1 + i));
      }
    }
  }

  lemma NumberedRecsDead(msgs: seq<Msg>, next: nat)
    ensures forall i :: 0 <= i < |msgs| ==> !Live(NumberedRecs(msgs, next)[i])
  {
  }

  /** Scanning numbered lines followed by the values of a scanned dictionary gives that
      dictionary back, in the same order. */
  lemma ScanOfRebuilt(recs: seq<Rec>, d: Dict<Id, Rec>)
    requires Scanned(d) && DistinctIds(recs)
    requires forall i :: 0 <= i < |recs| ==> !Live(recs[i]) && recs[i].id !in d.vals
    ensures ScanDict(AsLines(recs) + AsLines(d.Values())).keys == d.keys
  {
    var pre := d.Values();
    var head := AsLines(recs);
    assert pre[..|d.keys|] == pre;
    ValuesDistinct(d, |d.keys|);
    assert d.keys[..|d.keys|] == d.keys;
    SeenBlock(recs);
    forall i | 0 <= i < |pre| ensures pre[i].id !in Seen(head) {
      assert IdsOf(pre)[i] == d.keys[i];
      assert d.keys[i] in d.vals;
    }
    SeenBlockOrder(head, pre);
    SeenAppend(head, AsLines(pre));
    SeenBlock(pre);
    var seen := SeenDict(head + AsLines(pre));
    var headKeys := SeenDict(head).keys;
    assert seen.keys == headKeys + d.keys;
    HeadIsDead(recs);
    forall k | k in d.keys ensures k in seen.vals && Live(seen.vals[k]) {
      var i :| 0 <= i < |d.keys| && d.keys[i] == k;
      assert IdsOf(pre)[i] == pre[i].id == k && pre[i] == d.vals[k];
      assert pre[i].id in Seen(AsLines(pre));
    }
    forall k | k in headKeys ensures k in seen.vals && !Live(seen.vals[k]) {
      assert k in Seen(head);
      assert forall i :: 0 <= i < |pre| ==> pre[i].id != k;
      assert k !in Seen(AsLines(pre));
    }
    KeepLiveAllLive(headKeys, d.keys, seen.vals);
  }

  lemma HeadIsDead(recs: seq<Rec>)
    requires DistinctIds(recs)
    requires forall i :: 0 <= i < |recs| ==> !Live(recs[i])
    ensures forall k :: k in Seen(AsLines(recs)) ==> !Live(Seen(AsLines(recs))[k])
  {
    SeenBlock(recs);
    forall k | k in Seen(AsLines(recs)) ensures !Live(Seen(AsLines(recs))[k]) {
      var i :| 0 <= i < |recs| && recs[i].id == k;
      assert Seen(AsLines(recs))[recs[i].id] == recs[i];
    }
  }

  /** A rebuilt table offers the same messages in the same order. */
  lemma SameMessagesAgain(s: Store, order: seq<Id>, end: RebuildEnd)
    requires Inv(s) && Covers(order, s.db) && Complete(s, end)
    ensures Displayed(Rebuild(s, order, end), order) == Displayed(s, order)
  {
    RebuiltFile(s, order, end);
    UndisplayedIsBatch(Unnumbered(s.db), order);
    RenumberedRows(s.db, Displayed(s, order));
  }

  lemma NumberedRecsApart(s: Store, order: seq<Id>)
    requires Inv(s) && Covers(order, s.db)
    ensures var recs := NumberedRecs(Displayed(s, order), 1);
            DistinctIds(recs)
            && forall i :: 0 <= i < |recs| ==> !Live(recs[i]) && recs[i].id !in ScanDict(s.lines).vals
  {
    var msgs := Displayed(s, order);
    var recs := NumberedRecs(msgs, 1);
    UndisplayedIsBatch(Unnumbered(s.db), order);
    UndisplayedSound(Unnumbered(s.db), order);
    NumberedRecsDead(msgs, 1);
    NumberedRecsDistinct(Unnumbered(s.db), msgs, 1);
    forall i | 0 <= i < |recs| ensures recs[i].id !in ScanDict(s.lines).vals {
      assert recs[i].id == msgs[i].id && msgs[i].id in s.db;
    }
  }

  /** A rebuilt file holds the same entries in the same order. */
  lemma SameEntriesAgain(s: Store, order: seq<Id>, end: RebuildEnd)
    requires Inv(s) && Covers(order, s.db) && Complete(s, end)
    ensures ScanDict(Rebuild(s, order, end).lines) == ScanDict(s.lines)
  {
    RebuiltFile(s, order, end);
    ScanKeyed(s.lines);
    NumberedRecsApart(s, order);
    ScanOfRebuilt(NumberedRecs(Displayed(s, order), 1), ScanDict(s.lines));
    RebuildKeepsPreSent(s, order, end);
  }

  /** A second rebuild under the same query order changes neither file, table nor index. */
  lemma RebuildIsIdempotent(s: Store, order: seq<Id>, end: RebuildEnd)
    requires Inv(s) && Covers(order, s.db) && Complete(s, end)
    ensures var t := Rebuild(s, order, end);
            Complete(t, end) && Rebuild(t, order, end) == t
  {
    var t := Rebuild(s, order, end);
    SameMessagesAgain(s, order, end);
    SameEntriesAgain(s, order, end);
    RebuiltFile(s, order, end);
    UndisplayedIsBatch(Unnumbered(s.db), order);
    RenumberedRows(s.db, Displayed(s, order));
    RebuiltFile(t, order, end);
  }

  /** The retry card has no row and is not pre-sent, so a rebuild silently removes it. */
  lemma RebuildDropsRetryMarker(s: Store, order: seq<Id>, end: RebuildEnd)
    requires Inv(s) && Covers(order, s.db) && Complete(s, end)
    requires RETRY_ID !in s.db && RETRY_ID !in Scan(s.lines)
    ensures RETRY_ID !in Seen(Rebuild(s, order, end).lines)
  {
    RebuiltFile(s, order, end);
    var kept := ScanDict(s.lines);
    var recs := NumberedRecs(Displayed(s, order), 1);
    SeenAppend(AsLines(recs), AsLines(kept.Values()));
    NumberedIdsAreRows(Unnumbered(s.db), order);
    ScanKeyed(s.lines);
    ScanOfValues(kept, |kept.keys|);
    AllKeys(kept);
    assert kept.Values()[..|kept.keys|] == kept.Values();
  }

  lemma NumberedIdsAreRows(db: map<Id, Msg>, order: seq<Id>)
    requires DbKeyed(db) && Covers(order, db)
    ensures forall id :: id in Seen(AsLines(NumberedRecs(Undisplayed(db, order), 1))) ==> id in db
  {
    var msgs := Undisplayed(db, order);
    UndisplayedIsBatch(db, order);
    NumberedRecsDistinct(db, msgs, 1);
    SeenBlock(NumberedRecs(msgs, 1));
  }
}
