/**
 One agent's display state and what each operation of the display writer and of the
 promotion path does to it: the file, the in-memory pre-sent index (with its
 "loaded" flag), and the agent's rows in the messages table.
 */
module DisplayState {
  import opened Collections
  import opened DisplayLog

  /** A row of the messages table. */
  datatype Msg = Msg(id: Id, body: Body, displaySeq: Option<nat>, dispatchSeq: Option<nat>)

  datatype Store = Store(lines: seq<Line>, index: Dict<Id, Rec>, ready: bool, db: map<Id, Msg>)

  // ---- Loading ----

  function Load(s: Store): Store {
    if s.ready then s else s.(index := ScanDict(s.lines), ready := true)
  }

  /** Loading when the file may be unreadable: an error while reading counts as an empty file. */
  function Open(s: Store, readOk: bool): Store {
    if readOk || s.ready then Load(s) else s.(index := EmptyDict(), ready := true)
  }

  /** The pre-sent entries the next operation will see. */
  function Pending(s: Store): map<Id, Rec> {
    Load(s).index.vals
  }

  function Append(s: Store, recs: seq<Rec>): Store {
    s.(lines := s.lines + AsLines(recs))
  }

  function Min(a: nat, b: nat): nat {
    if a < b then a else b
  }

  /** How a write to the file ends: whole, or with an error or the death of the process after
      this many whole lines. */
  datatype Write = Written | CutShort(lines: nat)

  /** How many of `n` lines reach the file. */
  function Reached(w: Write, n: nat): nat {
    if w.Written? then n else Min(w.lines, n)
  }

  /** An operation whose lines reached the file only as far as the write went. */
  function Cut(before: Store, after: Store, w: Write): Store {
    if w.Written? then after
    else after.(lines := after.lines[..Min(|before.lines| + w.lines, |after.lines|)])
  }

  lemma CutAppend(s: Store, t: Store, recs: seq<Rec>, w: Write)
    requires t.lines == s.lines
    ensures Cut(s, Append(t, recs), w) == Append(t, recs[..Reached(w, |recs|)])
  {
    assert recs[..|recs|] == recs;
    var all, k := s.lines + AsLines(recs), Reached(w, |recs|);
    assert all[..|s.lines| + k] == s.lines + AsLines(recs[..k]);
    assert all[..|all|] == all;
  }

  // ---- Pre-sent operations ----

  /** A caller's entry; an absent required field is `None`. */
  datatype Draft = Draft(id: Option<Id>, role: Option<Role>, content: Option<string>,
                         source: Option<Source>, status: Option<Status>,
                         createdAt: Option<Option<nat>>, scheduledAt: Option<nat>,
                         metadata: Option<string>, dispatchSeq: Option<nat>)

  predicate ValidDraft(d: Draft) {
    && d.id.Some? && d.role.Some? && d.content.Some? && d.source.Some? && d.status.Some? && d.createdAt.Some?
    && d.role.value == User
    && d.source.value in {Web, Task, PlanContinue}
    && d.status.value in {Queued, Scheduled, Cancelled}
  }

  function DraftRec(d: Draft): Rec
    requires ValidDraft(d)
  {
    Rec(d.id.value, false, Some(true), None, true, false, Message, None, d.dispatchSeq,
        Body(User, d.content.value, d.source.value, d.status.value, d.metadata,
             d.createdAt.value, d.scheduledAt, None))
  }

  function Create(s: Store, d: Draft): Store {
    if !ValidDraft(d) then s
    else
      var r := DraftRec(d);
      var l := Append(Load(s), [r]);
      l.(index := l.index.Put(r.id, r))
  }

  /** The line goes to the file first; an error there keeps the entry out of the index. */
  function CreateEnding(s: Store, d: Draft, w: Write): Store {
    if w.Written? || !ValidDraft(d) then Create(s, d) else Cut(s, Create(s, d), w).(index := Load(s).index)
  }

  datatype Patch = Patch(content: Option<string>, scheduledAt: Option<Option<nat>>,
                         metadata: Option<Option<string>>, status: Option<Status>)

  function Or<T>(o: Option<T>, default: T): T {
    if o.Some? then o.value else default
  }

  /** The patched entry as it goes to the file, with the `_replace` flag. */
  function Merged(r: Rec, p: Patch): Rec {
    r.(pre := None, preSent := Some(true), queued := true, replace := true,
       body := r.body.(content := Or(p.content, r.body.content),
                       scheduledAt := Or(p.scheduledAt, r.body.scheduledAt),
                       metadata := Or(p.metadata, r.body.metadata),
                       status := Or(p.status, r.body.status)))
  }

  predicate Marked(r: Rec) {
    r.preSent == Some(true) || r.pre == Some(true)
  }

  function Update(s: Store, id: Id, p: Patch): Store {
    var l := Load(s);
    if id !in l.index.vals || !Marked(l.index.vals[id]) then l
    else
      var m := Merged(l.index.vals[id], p);
      Append(l.(index := l.index.Put(id, Bare(m))), [m])
  }

  /** The other operations change the index first. */
  function UpdateEnding(s: Store, id: Id, p: Patch, w: Write): Store {
    Cut(s, Update(s, id, p), w)
  }

  const CANCEL: Patch := Patch(None, None, None, Some(Cancelled))

  predicate Cancellable(s: Store, id: Id) {
    id in Pending(s) && Pending(s)[id].body.status in {Queued, Scheduled}
  }

  function Cancel(s: Store, id: Id): Store {
    if Cancellable(s, id) then Update(s, id, CANCEL) else Load(s)
  }

  function CancelEnding(s: Store, id: Id, w: Write): Store {
    Cut(s, Cancel(s, id), w)
  }

  const NO_BODY := Body(System, "", OtherSource(""), OtherStatus(""), None, None, None, None)

  function Tomb(id: Id): Rec {
    Rec(id, true, None, None, false, false, Message, None, None, NO_BODY)
  }

  function Tombstone(s: Store, id: Id): Store {
    var l := Load(s);
    if id !in l.index.vals || l.index.vals[id].body.status != Cancelled then l
    else Append(l.(index := l.index.Pop(id)), [Tomb(id)])
  }

  function TombstoneEnding(s: Store, id: Id, w: Write): Store {
    Cut(s, Tombstone(s, id), w)
  }

  /** One entry of a shutdown: the ends of its two writes, or the process died before it. */
  datatype FailEnd = FailEnd(cancel: Write, tomb: Write) | NotReached

  function FailOne(s: Store, id: Id, end: FailEnd): Store {
    match end
    case NotReached => s
    case FailEnd(cancel, tomb) => TombstoneEnding(CancelEnding(s, id, cancel), id, tomb)
  }

  function EndAt(ends: seq<FailEnd>, i: nat): FailEnd {
    if i < |ends| then ends[i] else FailEnd(Written, Written)
  }

  /** Shutdown: soft-cancel and tombstone every listed entry, skipping those that refuse and
      carrying on after a failed write. */
  function FailMany(s: Store, ids: seq<Id>, ends: seq<FailEnd>): Store {
    if ids == [] then s
    else FailOne(FailMany(s, ids[..|ids| - 1], ends), ids[|ids| - 1], EndAt(ends, |ids| - 1))
  }

  function FailAll(s: Store, ends: seq<FailEnd>): Store {
    FailMany(Load(s), Load(s).index.keys, ends)
  }

  // ---- Numbering ----

  ghost function MaxOf(s: set<nat>): (m: nat)
    ensures forall x :: x in s ==> x <= m
    ensures s == {} ==> m == 0
    ensures s != {} ==> m in s
  {
    if s == {} then 0
    else
      var x :| x in s;
      var m := MaxOf(s - {x});
      assert forall y :: y in s ==> y == x || y in s - {x};
      if x > m then x else m
  }

  function DisplaySeqs(db: map<Id, Msg>): set<nat> {
    set id | id in db && db[id].displaySeq.Some? :: db[id].displaySeq.value
  }

  function DispatchSeqs(db: map<Id, Msg>): set<nat> {
    set id | id in db && db[id].dispatchSeq.Some? :: db[id].dispatchSeq.value
  }

  function ReservedSeqs(pending: map<Id, Rec>): set<nat> {
    set id | id in pending && pending[id].dispatchSeq.Some? :: pending[id].dispatchSeq.value
  }

  ghost function NextDisplay(db: map<Id, Msg>): nat {
    MaxOf(DisplaySeqs(db)) + 1
  }

  ghost function NextDispatch(s: Store): nat {
    MaxOf(DispatchSeqs(s.db) + ReservedSeqs(Pending(s))) + 1
  }

  /** A delivered-partition line: numbered, unmarked, without scheduling fields. */
  function Serialize(m: Msg, n: nat, replace: bool): Rec {
    Rec(m.id, false, None, None, false, replace, Message, Some(n), None, m.body.(scheduledAt := None))
  }

  // ---- Promotion ----

  ghost function PromotedMsg(s: Store, e: Rec): Msg {
    Msg(e.id, Body(User, e.body.content, e.body.source, Sent, e.body.metadata, e.body.createdAt, None, None),
        Some(NextDisplay(s.db)), Some(NextDispatch(s)))
  }

  /** Evict `id` from the index, then append its tombstone and its sent line in one write. */
  function PromoteToSent(s: Store, id: Id, sent: Rec): Store {
    var l := Load(s);
    Append(l.(index := l.index.Pop(id)), [Tomb(id), sent])
  }

  /** Insert the row, commit, then write the file. The insert violates the primary key
      when the row exists. */
  ghost function Promote(s: Store, e: Rec, commitOk: bool): Store {
    var l := Load(s);
    if !commitOk || e.id in l.db then l
    else
      var m := PromotedMsg(l, e);
      PromoteToSent(l.(db := l.db[e.id := m]), e.id, Serialize(m, m.displaySeq.value, false))
  }

  /** The row is committed whatever becomes of the two lines. */
  ghost function PromoteEnding(s: Store, e: Rec, commitOk: bool, w: Write): Store {
    Cut(s, Promote(s, e, commitOk), w)
  }

  predicate Dispatchable(r: Rec) {
    r.body.status == Queued && r.body.scheduledAt == None
  }

  function CreatedKey(r: Rec): int {
    if r.body.createdAt.Some? then r.body.createdAt.value else -1
  }

  function FilterRecs(rs: seq<Rec>): seq<Rec> {
    if rs == [] then []
    else FilterRecs(rs[..|rs| - 1]) + (if Dispatchable(rs[|rs| - 1]) then [rs[|rs| - 1]] else [])
  }

  function Queue(s: Store): seq<Rec>
    requires Load(s).index.WF()
  {
    SortByKey(FilterRecs(Load(s).index.Values()), CreatedKey)
  }

  /** The first queued entry goes to the pane and, if the send succeeds, is promoted.
      `paneReady` stands for the checks on agent and pane, `sendOk` for the tmux send. */
  ghost function Dispatch(s: Store, paneReady: bool, sendOk: bool, commitOk: bool): Store
    requires Load(s).index.WF()
  {
    var q := Queue(s);
    if q == [] || !paneReady || !sendOk then Load(s) else Promote(Load(s), q[0], commitOk)
  }

  ghost function DispatchEnding(s: Store, paneReady: bool, sendOk: bool, commitOk: bool, w: Write): Store
    requires Load(s).index.WF()
  {
    Cut(s, Dispatch(s, paneReady, sendOk, commitOk), w)
  }

  // ---- Flush ----

  const MAX_TS: nat := 253370764800

  predicate Eligible(m: Msg) {
    m.displaySeq.None? && !(m.body.role == User && m.body.deliveredAt.None?)
  }

  function SortKey(m: Msg): int {
    if m.body.deliveredAt.Some? then m.body.deliveredAt.value
    else if m.body.createdAt.Some? then m.body.createdAt.value
    else MAX_TS
  }

  /** Rows come back in the query's order, which is the caller's `order`. */
  function EligibleRows(db: map<Id, Msg>, order: seq<Id>): seq<Msg> {
    if order == [] then []
    else
      var last := order[|order| - 1];
      EligibleRows(db, order[..|order| - 1])
      + (if last in db && Eligible(db[last]) then [db[last]] else [])
  }

  function Undisplayed(db: map<Id, Msg>, order: seq<Id>): seq<Msg> {
    SortByKey(EligibleRows(db, order), SortKey)
  }

  function NumberedRecs(msgs: seq<Msg>, next: nat): seq<Rec> {
    seq(|msgs|, i requires 0 <= i < |msgs| => Serialize(msgs[i], next + i, false))
  }

  function NumberAll(db: map<Id, Msg>, msgs: seq<Msg>, next: nat): map<Id, Msg> {
    if msgs == [] then db
    else
      var n := |msgs| - 1;
      NumberAll(db, msgs[..n], next)[msgs[n].id := msgs[n].(displaySeq := Some(next + n))]
  }

  /** How a flush ends: everything written and committed, the write cut short after
      `written` whole lines, or the commit refused after a complete write. */
  datatype FlushEnd = Flushed | WriteFailed(written: nat) | CommitFailed

  ghost function Flush(s: Store, order: seq<Id>, end: FlushEnd): Store {
    var msgs := Undisplayed(s.db, order);
    var next := NextDisplay(s.db);
    var recs := NumberedRecs(msgs, next);
    if msgs == [] then s
    else match end
      case WriteFailed(k) => Append(s, recs[..Min(k, |recs|)])
      case CommitFailed => Append(s, recs)
      case Flushed => Append(s, recs).(db := NumberAll(s.db, msgs, next))
  }

  ghost function UpdateLast(s: Store, id: Id, order: seq<Id>, end: FlushEnd): Store {
    if id !in s.db then s
    else if s.db[id].displaySeq.None? then Flush(s, order, end)
    else if end.WriteFailed? && end.written == 0 then s
    else Append(s, [Serialize(s.db[id], s.db[id].displaySeq.value, true)])
  }

  // ---- Whole-file operations ----

  function MarkerRec(metadata: string, now: nat): Rec {
    Rec(RETRY_ID, false, None, None, false, false, RetryMarker, Some(0), None,
        Body(System, "", OtherSource("system"), OtherStatus("COMPLETED"), Some(metadata), Some(now), None, None))
  }

  /** The marker goes in front unless it is already there or there is nothing to show. */
  function WriteMarker(s: Store, metadata: string, attempts: nat, current: int, now: nat): Store {
    if attempts == 0 || current < 1 then s
    else if s.lines != [] && s.lines[0].Obj? && s.lines[0].rec.kind == RetryMarker then s
    else s.(lines := [Obj(MarkerRec(metadata, now))] + s.lines)
  }

  /** How a rebuild's own steps end; `preWritten` counts the preserved lines that reached the file. */
  datatype RebuildEnd = RebuildEnd(readOk: bool, resetOk: bool, truncateOk: bool, flush: FlushEnd, preWritten: nat)

  /** The entries a rebuild preserves: nothing when the old file cannot be read. */
  function Preserved(lines: seq<Line>, readOk: bool): (d: Dict<Id, Rec>)
    ensures d.WF()
  {
    if readOk then ScanDict(lines) else EmptyDict()
  }

  function Unnumbered(db: map<Id, Msg>): map<Id, Msg> {
    map id | id in db :: db[id].(displaySeq := None)
  }

  /** Numbers reset in the table, file truncated if the system allows it. */
  function Emptied(s: Store, truncateOk: bool): Store {
    s.(db := Unnumbered(s.db), lines := if truncateOk then [] else s.lines)
  }

  ghost function Rebuild(s: Store, order: seq<Id>, end: RebuildEnd): Store {
    var kept := Preserved(s.lines, end.readOk);
    if !end.resetOk then s
    else
      var flushed := Flush(Emptied(s, end.truncateOk), order, end.flush);
      var pre := kept.Values();
      Append(flushed, pre[..Min(end.preWritten, |pre|)]).(index := kept, ready := true)
  }

  function Delete(s: Store, unlinkOk: bool): Store {
    s.(lines := if unlinkOk then [] else s.lines, index := EmptyDict(), ready := false)
  }

  /** A process restart forgets the index. */
  function Restart(s: Store): Store {
    s.(index := EmptyDict(), ready := false)
  }

  // ---- Rows written by other components ----

  function Arrive(s: Store, m: Msg): Store {
    s.(db := s.db[m.id := m])
  }

  /** Delivery, completion or streaming growth of an existing row. */
  function Amend(s: Store, id: Id, body: Body): Store {
    if id in s.db then s.(db := s.db[id := s.db[id].(body := body)]) else s
  }
}
