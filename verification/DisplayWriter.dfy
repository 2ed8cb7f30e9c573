/**
 The display writer itself: one agent's file, index and rows as mutable state. Each
 method is tied to the state function of the same operation, so that the results about
 runs of those functions are results about these methods.
 */
module DisplayWriter {
  import opened Collections
  import opened DisplayLog
  import opened DisplayState
  import opened DisplayIndex
  import opened DisplayRuns

  datatype Outcome = Ok | KeyError | ValueError | OSError

  /** The last-occurrence-wins reader shared by the index scan and the chat-history tool. */
  method ReadLines(lines: seq<Line>) returns (seen: Dict<Id, Rec>)
    ensures seen == SeenDict(lines)
  {
    seen := EmptyDict();
    for i := 0 to |lines|
      invariant seen == SeenDict(lines[..i])
    {
      assert lines[..i + 1] == lines[..i] + [lines[i]];
      SeenSnoc(lines[..i], lines[i]);
      if lines[i].Obj? && lines[i].rec.id != NO_ID {
        seen := seen.Put(lines[i].rec.id, lines[i].rec);
      }
    }
    assert lines[..|lines|] == lines;
  }

  /** The chat-history tool: how many entries there are, and the last `maxTurns` of them;
      a limit of zero keeps them all, as a slice from minus zero does. */
  method ReadFromDisplay(lines: seq<Line>, maxTurns: nat) returns (total: nat, entries: seq<Rec>)
    ensures total == |SeenDict(lines).keys|
    ensures |entries| == if maxTurns == 0 || total <= maxTurns then total else maxTurns
    ensures entries == SeenDict(lines).Values()[total - |entries|..]
  {
    var seen := ReadLines(lines);
    entries := seen.Values();
    total := |entries|;
    if maxTurns != 0 && total > maxTurns {
      entries := entries[total - maxTurns..];
    }
  }

  /** That tool keeps tombstones: a discarded draft still counts as a message of the session. */
  lemma DiscardedDraftStillCounts(s: Store, id: Id)
    requires IndexInv(s) && id in Pending(s) && Pending(s)[id].body.status == Cancelled
    ensures id !in Pending(Tombstone(s, id)) && id in SeenDict(Tombstone(s, id).lines).keys
  {
    LoadKeepsInv(s);
    PendingIsLive(s, id);
    AsLinesOne(Tomb(id));
    SeenVals(s.lines, Obj(Tomb(id)));
    assert id in Seen(Tombstone(s, id).lines);
  }

  class DisplayWriter {
    var lines: seq<Line>
    var index: Dict<Id, Rec>
    var ready: bool
    var db: map<Id, Msg>

    ghost function State(): Store
      reads this
    {
      Store(lines, index, ready, db)
    }

    constructor (lines: seq<Line>, db: map<Id, Msg>)
      ensures State() == Store(lines, EmptyDict(), false, db)
    {
      this.lines, this.index, this.ready, this.db := lines, EmptyDict(), false, db;
    }

    // ---- Index ----

    /** A file that cannot be read counts as an empty one. */
    method ScanFileIntoIndex(readOk: bool) returns (loaded: Dict<Id, Rec>)
      ensures loaded == Preserved(lines, readOk)
    {
      if !readOk { return EmptyDict(); }
      var seen := ReadLines(lines);
      loaded := EmptyDict();
      for i := 0 to |seen.keys|
        invariant forall k :: k in seen.keys[..i] ==> k in seen.vals
        invariant loaded == KeepLive(seen.keys[..i], seen.vals)
      {
        var mid := seen.keys[i];
        assert mid in seen.vals;
        assert seen.keys[..i + 1] == seen.keys[..i] + [mid];
        KeepLiveSnoc(seen.keys[..i], mid, seen.vals);
        var obj := seen.vals[mid];
        if !obj.deleted && (obj.preSent == Some(true) || obj.pre == Some(true)) {
          loaded := loaded.Put(mid, Normalise(obj));
        }
      }
      assert seen.keys[..|seen.keys|] == seen.keys;
    }

    /** `readOk` says, here and below, whether a first touch can read the file. */
    method EnsureIndexLoaded(readOk: bool)
      modifies `index, `ready
      ensures State() == Open(old(State()), readOk)
    {
      if !ready {
        index := ScanFileIntoIndex(readOk);
        ready := true;
      }
    }

    /** Appends the lines in order; `w` says how far the system lets the write get. */
    method WriteLocked(recs: seq<Rec>, w: Write) returns (o: Outcome)
      modifies `lines
      ensures State() == Append(old(State()), recs[..Reached(w, |recs|)])
      ensures o == Ending(w)
    {
      var i := 0;
      ghost var before := lines;
      while i < Reached(w, |recs|)
        invariant 0 <= i <= Reached(w, |recs|)
        invariant lines == before + AsLines(recs[..i])
      {
        AsLinesSnoc(recs[..i + 1]);
        assert recs[..i + 1][..i] == recs[..i];
        ConcatAssoc(before, AsLines(recs[..i]), [Obj(recs[i])]);
        lines := lines + [Obj(recs[i])];
        i := i + 1;
      }
      o := Ending(w);
    }

    function Ending(w: Write): Outcome {
      if w.Written? then Ok else OSError
    }

    // ---- Pre-sent operations ----

    /** An error of the write leaves the index alone, whatever reached the file. */
    method PreSentCreate(d: Draft, readOk: bool, w: Write) returns (o: Outcome)
      modifies this
      ensures State() == if ValidDraft(d) then CreateEnding(Open(old(State()), readOk), d, w) else old(State())
      ensures o == if ValidDraft(d) then Ending(w) else ValueError
    {
      if !ValidDraft(d) { return ValueError; }
      EnsureIndexLoaded(readOk);
      var full := DraftRec(d);
      CutAppend(old(State()), State().(index := index.Put(full.id, full)), [full], w);
      o := WriteLocked([full], w);
      if o == OSError { return; }
      index := index.Put(full.id, full);
    }

    method PreSentUpdate(id: Id, p: Patch, readOk: bool, w: Write) returns (o: Outcome)
      modifies this
      ensures State() == UpdateEnding(Open(old(State()), readOk), id, p, w)
      ensures var pending := Pending(Open(old(State()), readOk));
              o == if id in pending && Marked(pending[id]) then Ending(w) else KeyError
    {
      EnsureIndexLoaded(readOk);
      NoLine(old(State()), State(), w);
      if id !in index.vals || !Marked(index.vals[id]) { return KeyError; }
      var merged := Merged(index.vals[id], p);
      index := index.Put(id, Bare(merged));
      CutAppend(old(State()), State(), [merged], w);
      o := WriteLocked([merged], w);
    }

    method PreSentCancel(id: Id, readOk: bool, w: Write) returns (o: Outcome)
      modifies this
      ensures State() == CancelEnding(Open(old(State()), readOk), id, w)
      ensures var s := Open(old(State()), readOk);
              o == if id !in Pending(s) then KeyError
                   else if !Cancellable(s, id) then ValueError
                   else if Marked(Pending(s)[id]) then Ending(w)
                   else KeyError
    {
      EnsureIndexLoaded(readOk);
      NoLine(old(State()), State(), w);
      if id !in index.vals { return KeyError; }
      if index.vals[id].body.status != Queued && index.vals[id].body.status != Scheduled { return ValueError; }
      o := PreSentUpdate(id, CANCEL, readOk, w);
    }

    method PreSentTombstone(id: Id, readOk: bool, w: Write) returns (o: Outcome)
      modifies this
      ensures State() == TombstoneEnding(Open(old(State()), readOk), id, w)
      ensures var s := Open(old(State()), readOk);
              o == if id !in Pending(s) then KeyError
                   else if Pending(s)[id].body.status != Cancelled then ValueError
                   else Ending(w)
    {
      EnsureIndexLoaded(readOk);
      NoLine(old(State()), State(), w);
      if id !in index.vals { return KeyError; }
      if index.vals[id].body.status != Cancelled { return ValueError; }
      index := index.Pop(id);
      CutAppend(old(State()), State(), [Tomb(id)], w);
      o := WriteLocked([Tomb(id)], w);
    }

    method PreSentList(readOk: bool) returns (entries: seq<Rec>)
      requires index.WF()
      modifies `index, `ready
      ensures State() == Open(old(State()), readOk) && index.WF() && entries == index.Values()
    {
      EnsureIndexLoaded(readOk);
      entries := index.Values();
    }

    /** A sent line for another id, or one that still carries a queue marker, is refused. */
    method PreSentPromoteToSent(id: Id, sent: Rec, readOk: bool, w: Write) returns (o: Outcome)
      modifies this
      ensures o == if sent.id != id || sent.queued || Marked(sent) then ValueError else Ending(w)
      ensures State() == if o == ValueError then old(State())
                         else Cut(old(State()), PromoteToSent(Open(old(State()), readOk), id, sent), w)
    {
      if sent.id != id || sent.queued || Marked(sent) { return ValueError; }
      EnsureIndexLoaded(readOk);
      index := index.Pop(id);
      CutAppend(old(State()), State(), [Tomb(id), sent], w);
      o := WriteLocked([Tomb(id), sent], w);
    }

    /** One listed entry: cancelled first unless it is already; refusals and failed writes are swallowed. */
    method FailEntry(id: Id, listed: Rec, cancel: Write, tomb: Write)
      requires ready && id in index.vals && index.vals[id] == listed
      modifies this
      ensures State() == FailOne(old(State()), id, FailEnd(cancel, tomb))
    {
      NoLine(State(), State(), cancel);
      if listed.body.status != Cancelled {
        var _ := PreSentCancel(id, true, cancel);
      }
      var _ := PreSentTombstone(id, true, tomb);
    }

    /** The entries from the i-th on are still as they were listed. */
    ghost predicate StillListed(s: Store, ids: seq<Id>, entries: seq<Rec>, i: nat) {
      |ids| == |entries| && s.ready
      && forall j :: i <= j < |ids| ==> ids[j] in s.index.vals && s.index.vals[ids[j]] == entries[j]
    }

    lemma FailOneElsewhere(s: Store, id: Id, end: FailEnd)
      requires s.ready
      ensures FailOne(s, id, end).ready
      ensures forall x :: x != id && x in s.index.vals ==>
                x in FailOne(s, id, end).index.vals && FailOne(s, id, end).index.vals[x] == s.index.vals[x]
    {
      if end.FailEnd? {
        DroppedElsewhere(s, id, end.cancel);
        DroppedElsewhere(CancelEnding(s, id, end.cancel), id, end.tomb);
      }
    }

    lemma DroppedElsewhere(s: Store, id: Id, w: Write)
      requires s.ready
      ensures var c := CancelEnding(s, id, w);
              c.ready && forall x :: x != id && x in s.index.vals ==> x in c.index.vals && c.index.vals[x] == s.index.vals[x]
      ensures var t := TombstoneEnding(s, id, w);
              t.ready && forall x :: x != id && x in s.index.vals ==> x in t.index.vals && t.index.vals[x] == s.index.vals[x]
    {
    }

    lemma FailManyNext(s: Store, ids: seq<Id>, ends: seq<FailEnd>, i: nat)
      requires i < |ids|
      ensures FailMany(s, ids[..i + 1], ends) == FailOne(FailMany(s, ids[..i], ends), ids[i], EndAt(ends, i))
    {
      assert ids[..i + 1][..i] == ids[..i];
    }

    lemma FailOneKeepsRest(s: Store, ids: seq<Id>, entries: seq<Rec>, i: nat, end: FailEnd)
      requires StillListed(s, ids, entries, i) && i < |ids| && NoDup(ids)
      ensures StillListed(FailOne(s, ids[i], end), ids, entries, i + 1)
    {
      FailOneElsewhere(s, ids[i], end);
    }

    /** `ends` gives how the writes for each entry end; where the process dies, that entry and
        the ones after it are not reached. */
    method FailAllPreSent(readOk: bool, ends: seq<FailEnd>)
      requires index.WF()
      modifies this
      ensures State() == FailAll(Open(old(State()), readOk), ends)
    {
      var entries := PreSentList(readOk);
      ghost var start := State();
      var ids := index.keys;
      var i := 0;
      while i < |ids|
        invariant 0 <= i <= |ids| && NoDup(ids)
        invariant State() == FailMany(start, ids[..i], ends)
        invariant StillListed(State(), ids, entries, i)
      {
        FailManyNext(start, ids, ends, i);
        FailOneKeepsRest(State(), ids, entries, i, EndAt(ends, i));
        match EndAt(ends, i) {
          case NotReached =>
          case FailEnd(cancel, tomb) => FailEntry(ids[i], entries[i], cancel, tomb);
        }
        i := i + 1;
      }
      assert ids[..i] == ids;
    }

    // ---- Queries ----

    method QueryMax(values: set<nat>) returns (m: nat)
      ensures m == MaxOf(values)
    {
      m := 0;
      var rest := values;
      while rest != {}
        invariant rest <= values
        invariant forall x :: x in values - rest ==> x <= m
        invariant m == 0 || m in values - rest
        decreases rest
      {
        var x :| x in rest;
        assert values - (rest - {x}) == (values - rest) + {x};
        if x > m { m := x; }
        rest := rest - {x};
      }
      assert values - rest == values;
      MaxIsUnique(values, m);
    }

    lemma MaxIsUnique(values: set<nat>, m: nat)
      requires forall x :: x in values ==> x <= m
      requires m == 0 || m in values
      ensures m == MaxOf(values)
    {
    }

    method NextDispatchSeq(readOk: bool) returns (n: nat)
      modifies `index, `ready
      ensures State() == Open(old(State()), readOk) && n == NextDispatch(State())
    {
      EnsureIndexLoaded(readOk);
      var dbMax := QueryMax(DispatchSeqs(db));
      var preMax := QueryMax(ReservedSeqs(index.vals));
      n := (if dbMax > preMax then dbMax else preMax) + 1;
      MaxOfUnion(DispatchSeqs(db), ReservedSeqs(index.vals));
    }

    lemma MaxOfUnion(a: set<nat>, b: set<nat>)
      ensures MaxOf(a + b) == if MaxOf(a) > MaxOf(b) then MaxOf(a) else MaxOf(b)
    {
    }

    // ---- Promotion ----

    /** The row is committed; the pre-sent entry goes, and the sent line takes its place. */
    method StorePromoted(msg: Msg, w: Write)
      requires ready && msg.displaySeq.Some?
      modifies this
      ensures State() == Cut(old(State()), PromoteToSent(old(State()).(db := old(State()).db[msg.id := msg]), msg.id,
                                                         Serialize(msg, msg.displaySeq.value, false)), w)
    {
      db := db[msg.id := msg];
      var _ := PreSentPromoteToSent(msg.id, Serialize(msg, msg.displaySeq.value, false), true, w);
    }

    method NextDisplaySeq() returns (n: nat)
      ensures n == NextDisplay(db)
    {
      n := QueryMax(DisplaySeqs(db));
      n := n + 1;
    }

    /** The row to insert, with the next display and dispatch numbers. */
    method RowFor(e: Rec, readOk: bool) returns (msg: Msg)
      modifies `index, `ready
      ensures State() == Open(old(State()), readOk) && msg == PromotedMsg(State(), e)
    {
      var displaySeq := NextDisplaySeq();
      var dispatchSeq := NextDispatchSeq(readOk);
      msg := SentRow(e, displaySeq, dispatchSeq);
      SentRowIsPromoted(State(), e, displaySeq, dispatchSeq);
    }

    function SentRow(e: Rec, displaySeq: nat, dispatchSeq: nat): Msg {
      Msg(e.id, Body(User, e.body.content, e.body.source, Sent, e.body.metadata, e.body.createdAt, None, None),
          Some(displaySeq), Some(dispatchSeq))
    }

    lemma SentRowIsPromoted(s: Store, e: Rec, displaySeq: nat, dispatchSeq: nat)
      requires displaySeq == NextDisplay(s.db) && dispatchSeq == NextDispatch(s)
      ensures SentRow(e, displaySeq, dispatchSeq) == PromotedMsg(s, e)
    {
    }

    method PromotePreSentToSent(e: Rec, readOk: bool, commitOk: bool, w: Write)
      modifies this
      ensures State() == PromoteEnding(Open(old(State()), readOk), e, commitOk, w)
    {
      var msg := RowFor(e, readOk);
      NoLine(old(State()), State(), w);
      if !commitOk || e.id in db { return; }
      PromoteUnfolds(old(State()), e);
      StorePromoted(msg, w);
    }

    method UnscheduledQueued(listed: seq<Rec>) returns (entries: seq<Rec>)
      ensures entries == FilterRecs(listed)
    {
      entries := [];
      for i := 0 to |listed|
        invariant entries == FilterRecs(listed[..i])
      {
        assert listed[..i + 1][..i] == listed[..i];
        if listed[i].body.status == Queued && listed[i].body.scheduledAt == None {
          entries := entries + [listed[i]];
        }
      }
      assert listed[..|listed|] == listed;
    }

    /** `typed` is the text that went into the pane. */
    method DispatchPendingMessage(readOk: bool, paneReady: bool, sendOk: bool, commitOk: bool, w: Write)
        returns (typed: Option<string>)
      requires index.WF()
      modifies this
      ensures Open(old(State()), readOk).index.WF()
      ensures var s := Open(old(State()), readOk);
              && State() == DispatchEnding(s, paneReady, sendOk, commitOk, w)
              && typed == if paneReady && sendOk && Queue(s) != [] then Some(Queue(s)[0].body.content) else None
    {
      var listed := PreSentList(readOk);
      ghost var s := State();
      var entries := UnscheduledQueued(listed);
      entries := SortByKey(entries, CreatedKey);
      if entries == [] || !paneReady || !sendOk {
        DispatchIdle(s, paneReady, sendOk, commitOk, w);
        return None;
      }
      DispatchPromotes(s, commitOk, w);
      typed := Some(entries[0].body.content);
      PromotePreSentToSent(entries[0], true, commitOk, w);
    }

    // ---- Flush ----

    method QueryUndisplayed(order: seq<Id>) returns (rows: seq<Msg>)
      ensures rows == EligibleRows(db, order)
    {
      rows := [];
      for i := 0 to |order|
        invariant rows == EligibleRows(db, order[..i])
      {
        assert order[..i + 1][..i] == order[..i];
        if order[i] in db && Eligible(db[order[i]]) {
          rows := rows + [db[order[i]]];
        }
      }
      assert order[..|order|] == order;
    }

    /** Gives the messages their numbers, in the session and in the lines to write. */
    method NumberMessages(msgs: seq<Msg>, first: nat) returns (session: map<Id, Msg>, out: seq<Rec>)
      ensures session == NumberAll(db, msgs, first) && out == NumberedRecs(msgs, first)
    {
      session, out := db, [];
      var nextSeq := first;
      for i := 0 to |msgs|
        invariant nextSeq == first + i
        invariant session == NumberAll(db, msgs[..i], first)
        invariant out == NumberedRecs(msgs[..i], first)
      {
        assert msgs[..i + 1][..i] == msgs[..i];
        session := session[msgs[i].id := msgs[i].(displaySeq := Some(nextSeq))];
        out := out + [Serialize(msgs[i], nextSeq, false)];
        nextSeq := nextSeq + 1;
      }
      assert msgs[..|msgs|] == msgs;
    }

    method FlushAgent(order: seq<Id>, end: FlushEnd)
      modifies this
      ensures State() == Flush(old(State()), order, end)
    {
      var undisplayed := QueryUndisplayed(order);
      undisplayed := SortByKey(undisplayed, SortKey);
      if undisplayed == [] { return; }
      var maxSeq := QueryMax(DisplaySeqs(db));
      var session, out := NumberMessages(undisplayed, maxSeq + 1);
      match end {
        case WriteFailed(k) => var _ := WriteLocked(out, CutShort(k));
        case CommitFailed => var _ := WriteLocked(out, Written);
        case Flushed =>
          var _ := WriteLocked(out, Written);
          db := session;
      }
    }

    method UpdateLastMessage(id: Id, order: seq<Id>, end: FlushEnd)
      modifies this
      ensures State() == UpdateLast(old(State()), id, order, end)
    {
      if id !in db { return; }
      if db[id].displaySeq.None? {
        FlushAgent(order, end);
      } else if !(end.WriteFailed? && end.written == 0) {
        var _ := WriteLocked([Serialize(db[id], db[id].displaySeq.value, true)], Written);
      }
    }

    // ---- Whole-file operations ----

    method WriteRetryMarker(metadata: string, attempts: nat, current: int, now: nat)
      modifies `lines
      ensures State() == WriteMarker(old(State()), metadata, attempts, current, now)
    {
      if attempts == 0 || current < 1 { return; }
      if lines != [] && lines[0].Obj? && lines[0].rec.kind == RetryMarker { return; }
      lines := [Obj(MarkerRec(metadata, now))] + lines;
    }

    method RebuildAgent(order: seq<Id>, end: RebuildEnd)
      modifies this
      ensures State() == Rebuild(old(State()), order, end)
    {
      var preserved := ScanFileIntoIndex(end.readOk);
      if !end.resetOk { return; }
      db := Unnumbered(db);
      if end.truncateOk { lines := []; }
      FlushAgent(order, end.flush);
      var pre := preserved.Values();
      var _ := WriteLocked(pre, CutShort(end.preWritten));
      index, ready := preserved, true;
    }

    method DeleteAgent(unlinkOk: bool)
      modifies this
      ensures State() == Delete(old(State()), unlinkOk)
    {
      if unlinkOk { lines := []; }
      index, ready := EmptyDict(), false;
    }
  }
}
