/**
 Pre-sent operations as they really run: one step under the index lock, another under
 the file lock, with other threads in between. `create` writes the file first; the
 others change the index first; `cancel` re-enters `update` after its own check.
 */
module DisplayInterleaving {
  import opened Collections
  import opened DisplayLog
  import opened DisplayState
  import opened DisplayIndex

  type Thread = nat

  /** An operation between its steps; `stamp` is the place of its index change among all of them. */
  datatype Flight =
    | CreateWritten(r: Rec)                                 // line in the file, index entry still to come
    | AppendPending(id: Id, recs: seq<Rec>, stamp: nat)     // index changed, lines still to come
    | CancelChecked(id: Id)                                 // status checked, update still to come

  datatype Conc = Conc(lines: seq<Line>, index: map<Id, Rec>, ready: bool, flying: map<Thread, Flight>, clock: nat)

  datatype Turn =
    | LoadIndex
    | BeginCreate(t: Thread, d: Draft)
    | EndCreate(t: Thread)
    | BeginUpdate(t: Thread, id: Id, p: Patch)
    | BeginCancel(t: Thread, id: Id)
    | CancelUpdates(t: Thread)
    | BeginTombstone(t: Thread, id: Id)
    | BeginPromote(t: Thread, id: Id, sent: Rec)
    | EndAppend(t: Thread)
    | LoseAppend(t: Thread)                       // the write fails
    | OtherLines(recs: seq<Rec>)                  // flush, update_last: lines about rows of the table
    | Prepend(r: Rec)                             // the retry marker

  /** The step can be taken: its thread is at that point, and the check made under the lock passes. */
  ghost predicate Enabled(c: Conc, turn: Turn) {
    match turn
    case LoadIndex => true
    case BeginCreate(t, d) => c.ready && t !in c.flying && ValidDraft(d) && d.id.value != NO_ID
    case EndCreate(t) => t in c.flying && c.flying[t].CreateWritten?
    case BeginUpdate(t, id, _) => c.ready && t !in c.flying && id in c.index && Marked(c.index[id])
    case BeginCancel(t, id) => c.ready && t !in c.flying && id in c.index && c.index[id].body.status in {Queued, Scheduled}
    case CancelUpdates(t) => t in c.flying && c.flying[t].CancelChecked?
    case BeginTombstone(t, id) => c.ready && t !in c.flying && id in c.index && c.index[id].body.status == Cancelled
    case BeginPromote(t, id, sent) => c.ready && t !in c.flying && id != NO_ID && sent.id == id && !Marked(sent)
    case EndAppend(t) => t in c.flying && c.flying[t].AppendPending?
    case LoseAppend(t) => t in c.flying && c.flying[t].AppendPending?
    case OtherLines(recs) => forall i :: 0 <= i < |recs| ==> recs[i].id != NO_ID && !Live(recs[i])
    case Prepend(r) => !Live(r)
  }

  /** The index becomes `index`; the lines for it are still to come. */
  function TakeOff(c: Conc, t: Thread, index: map<Id, Rec>, id: Id, recs: seq<Rec>): Conc {
    c.(index := index, flying := c.flying[t := AppendPending(id, recs, c.clock)], clock := c.clock + 1)
  }

  function Updated(c: Conc, t: Thread, id: Id, p: Patch): Conc
    requires id in c.index
  {
    var m := Merged(c.index[id], p);
    TakeOff(c, t, c.index[id := Bare(m)], id, [m])
  }

  ghost function Take(c: Conc, turn: Turn): Conc
    requires Enabled(c, turn)
  {
    match turn
    case LoadIndex => if c.ready then c else c.(index := Scan(c.lines), ready := true)
    case BeginCreate(t, d) =>
      c.(lines := c.lines + AsLines([DraftRec(d)]), flying := c.flying[t := CreateWritten(DraftRec(d))])
    case EndCreate(t) => c.(index := c.index[c.flying[t].r.id := c.flying[t].r], flying := c.flying - {t})
    case BeginUpdate(t, id, p) => Updated(c, t, id, p)
    case BeginCancel(t, id) => c.(flying := c.flying[t := CancelChecked(id)])
    case CancelUpdates(t) =>
      var id := c.flying[t].id;
      if id in c.index && Marked(c.index[id]) then Updated(c, t, id, CANCEL) else c.(flying := c.flying - {t})
    case BeginTombstone(t, id) => TakeOff(c, t, c.index - {id}, id, [Tomb(id)])
    case BeginPromote(t, id, sent) => TakeOff(c, t, c.index - {id}, id, [Tomb(id), sent])
    case EndAppend(t) => c.(lines := c.lines + AsLines(c.flying[t].recs), flying := c.flying - {t})
    case LoseAppend(t) => c.(flying := c.flying - {t})
    case OtherLines(recs) => c.(lines := c.lines + AsLines(recs))
    case Prepend(r) => c.(lines := [Obj(r)] + c.lines)
  }

  // ---- Half steps make whole operations ----

  /** File and index as a state of the sequential model has them, loaded. */
  ghost predicate Shows(c: Conc, s: Store) {
    s.ready && c.ready && c.lines == s.lines && c.index == s.index.vals
  }

  /** With nothing in between, the two halves of a create are the create. */
  lemma CreateInTwo(c: Conc, s: Store, t: Thread, d: Draft)
    requires Shows(c, s) && Enabled(c, BeginCreate(t, d))
    ensures var m := Take(c, BeginCreate(t, d));
            Enabled(m, EndCreate(t)) && Shows(Take(m, EndCreate(t)), Create(s, d)) && Take(m, EndCreate(t)).flying == c.flying
  {
    assert c.flying[t := CreateWritten(DraftRec(d))] - {t} == c.flying;
  }

  lemma UpdateInTwo(c: Conc, s: Store, t: Thread, id: Id, p: Patch)
    requires Shows(c, s) && Enabled(c, BeginUpdate(t, id, p))
    ensures var m := Take(c, BeginUpdate(t, id, p));
            Enabled(m, EndAppend(t)) && Shows(Take(m, EndAppend(t)), Update(s, id, p)) && Take(m, EndAppend(t)).flying == c.flying
  {
    LandsAlone(c, t, id, [Merged(c.index[id], p)]);
  }

  lemma LandsAlone(c: Conc, t: Thread, id: Id, recs: seq<Rec>)
    requires t !in c.flying
    ensures c.flying[t := AppendPending(id, recs, c.clock)] - {t} == c.flying
  {
  }

  /** Cancelling has a step more: the check of the status. */
  lemma CancelInThree(c: Conc, s: Store, t: Thread, id: Id)
    requires Shows(c, s) && Enabled(c, BeginCancel(t, id)) && Marked(c.index[id])
    ensures var m := Take(c, BeginCancel(t, id));
            && Enabled(m, CancelUpdates(t))
            && var n := Take(m, CancelUpdates(t));
               Enabled(n, EndAppend(t)) && Shows(Take(n, EndAppend(t)), Cancel(s, id)) && Take(n, EndAppend(t)).flying == c.flying
  {
    var m := Take(c, BeginCancel(t, id));
    assert m.flying[t := AppendPending(id, [Merged(c.index[id], CANCEL)], c.clock)] - {t} == c.flying;
  }

  lemma TombstoneInTwo(c: Conc, s: Store, t: Thread, id: Id)
    requires Shows(c, s) && Enabled(c, BeginTombstone(t, id))
    ensures var m := Take(c, BeginTombstone(t, id));
            Enabled(m, EndAppend(t)) && Shows(Take(m, EndAppend(t)), Tombstone(s, id)) && Take(m, EndAppend(t)).flying == c.flying
  {
    LandsAlone(c, t, id, [Tomb(id)]);
  }

  lemma PromoteInTwo(c: Conc, s: Store, t: Thread, id: Id, sent: Rec)
    requires Shows(c, s) && Enabled(c, BeginPromote(t, id, sent))
    ensures var m := Take(c, BeginPromote(t, id, sent));
            && Enabled(m, EndAppend(t)) && Shows(Take(m, EndAppend(t)), PromoteToSent(s, id, sent))
            && Take(m, EndAppend(t)).flying == c.flying
  {
    LandsAlone(c, t, id, [Tomb(id), sent]);
  }

  /** A thread can begin exactly where the sequential operation would do something. */
  lemma BeginsExactly(c: Conc, s: Store, t: Thread, id: Id, d: Draft)
    requires Shows(c, s) && t !in c.flying
    ensures Enabled(c, BeginCreate(t, d)) <==> Create(s, d).lines != s.lines && d.id != Some(NO_ID)
    ensures Enabled(c, BeginTombstone(t, id)) <==> Tombstone(s, id).lines != s.lines
    ensures Enabled(c, BeginCancel(t, id)) <==> Cancellable(s, id)
  {
    if ValidDraft(d) { assert |Create(s, d).lines| == |s.lines| + 1; }
    if Enabled(c, BeginTombstone(t, id)) { assert |Tombstone(s, id).lines| == |s.lines| + 1; }
  }

  // ---- The order of the lines ----

  /** Flight `t` is between the file line and the index change of entry `id`, or the other way round. */
  ghost predicate Touches(c: Conc, t: Thread, id: Id) {
    t in c.flying
    && match c.flying[t]
       case CreateWritten(r) => r.id == id
       case AppendPending(x, _, _) => x == id
       case CancelChecked(_) => false
  }

  ghost predicate Busy(c: Conc, id: Id) {
    exists t :: Touches(c, t, id)
  }

  ghost predicate Creating(c: Conc, t: Thread, id: Id) {
    Touches(c, t, id) && c.flying[t].CreateWritten?
  }

  ghost predicate Appending(c: Conc, t: Thread, id: Id) {
    Touches(c, t, id) && c.flying[t].AppendPending?
  }

  /** No later change of entry `id` in the index still has its lines to write. */
  ghost predicate Newest(c: Conc, t: Thread, id: Id)
    requires Appending(c, t, id)
  {
    forall u {:trigger Appending(c, u, id)} :: Appending(c, u, id) ==> c.flying[u].stamp <= c.flying[t].stamp
  }

  ghost predicate Alone(c: Conc, t: Thread, id: Id) {
    forall u {:trigger Touches(c, u, id)} :: Touches(c, u, id) ==> u == t
  }

  ghost predicate NoneCreating(c: Conc, id: Id) {
    forall t {:trigger Creating(c, t, id)} :: !Creating(c, t, id)
  }

  /** The lines about an entry reach the file in the order of its index changes, as far as that
      matters: the line of the newest change is not written while an older one is still to
      come, nor lost; and a create, which writes first, has the entry to itself. */
  ghost predicate Orderly(c: Conc, turn: Turn)
    requires Enabled(c, turn)
  {
    match turn
    case BeginCreate(_, d) => !Busy(c, d.id.value)
    case BeginUpdate(_, id, _) => NoneCreating(c, id)
    case CancelUpdates(t) => NoneCreating(c, c.flying[t].id)
    case BeginTombstone(_, id) => NoneCreating(c, id)
    case BeginPromote(_, id, _) => NoneCreating(c, id)
    case EndAppend(t) => Touches(c, t, c.flying[t].id) && Newest(c, t, c.flying[t].id) ==> Alone(c, t, c.flying[t].id)
    case LoseAppend(t) => Touches(c, t, c.flying[t].id) && !Newest(c, t, c.flying[t].id)
    case OtherLines(recs) => forall i :: 0 <= i < |recs| ==> !Busy(c, recs[i].id) && recs[i].id !in Scan(c.lines)
    case _ => true
  }

  // ---- The invariant ----

  /** The lines to come say what the index says. */
  ghost predicate Matches(index: map<Id, Rec>, id: Id, recs: seq<Rec>)
    requires recs != []
  {
    var last := recs[|recs| - 1];
    if Live(last) then id in index && Bare(index[id]) == Bare(Normalise(last)) else id !in index
  }

  ghost predicate WellFormed(f: Flight) {
    f.AppendPending? ==> f.id != NO_ID && f.recs != [] && forall i :: 0 <= i < |f.recs| ==> f.recs[i].id == f.id
  }

  /** What holds at one entry: a create has it to itself and its line is in the file; the newest
      of the index changes whose lines are still to come is what the index shows; and with
      nothing in flight, index and file agree. */
  ghost predicate EntryOk(c: Conc, id: Id) {
    && (forall t {:trigger Creating(c, t, id)} :: Creating(c, t, id) ==>
          Alone(c, t, id) && id in Scan(c.lines) && Scan(c.lines)[id] == c.flying[t].r)
    && (forall t {:trigger Appending(c, t, id)} :: Appending(c, t, id) && WellFormed(c.flying[t]) && Newest(c, t, id) ==>
          Matches(c.index, id, c.flying[t].recs))
    && (!Busy(c, id) ==> AgreeAt(c.index, Scan(c.lines), id))
  }

  ghost predicate Stamped(c: Conc) {
    && (forall t :: t in c.flying ==> WellFormed(c.flying[t]))
    && (forall t :: t in c.flying && c.flying[t].AppendPending? ==> c.flying[t].stamp < c.clock)
  }

  ghost predicate IndexOk(index: map<Id, Rec>) {
    forall id :: id in index ==> id != NO_ID && index[id].id == id && !index[id].deleted
  }

  ghost predicate ConcInv(c: Conc) {
    && Stamped(c) && IndexOk(c.index)
    && (c.flying != map[] ==> c.ready)
    && (c.ready ==> forall id :: EntryOk(c, id))
  }

  // ---- Steps ----

  /** Lines about one id leave every other id's replay alone; their last line decides that id's. */
  lemma {:induction false} ScanSameId(lines: seq<Line>, recs: seq<Rec>, id: Id)
    requires id != NO_ID && forall i :: 0 <= i < |recs| ==> recs[i].id == id
    ensures forall x :: x != id ==> (x in Scan(lines) <==> x in Scan(lines + AsLines(recs)))
    ensures forall x :: x != id && x in Scan(lines) ==> Scan(lines + AsLines(recs))[x] == Scan(lines)[x]
    ensures recs != [] ==> (id in Scan(lines + AsLines(recs)) <==> Live(recs[|recs| - 1]))
    ensures recs != [] && Live(recs[|recs| - 1]) ==> Scan(lines + AsLines(recs))[id] == Normalise(recs[|recs| - 1])
  {
    if recs == [] {
      assert lines + AsLines(recs) == lines;
    } else {
      var init, r := recs[..|recs| - 1], recs[|recs| - 1];
      ScanSameId(lines, init, id);
      AsLinesSnoc(recs);
      ConcatAssoc(lines, AsLines(init), [Obj(r)]);
      ScanAppendRec(lines + AsLines(init), r);
    }
  }

  /** Entry `x` looks the same before and after: in the index, in the file and to the flights. */
  ghost predicate SameFor(c: Conc, d: Conc, x: Id) {
    && (x in c.index <==> x in d.index) && (x in c.index ==> d.index[x] == c.index[x])
    && (x in Scan(c.lines) <==> x in Scan(d.lines)) && (x in Scan(c.lines) ==> Scan(d.lines)[x] == Scan(c.lines)[x])
    && (forall t {:trigger Touches(c, t, x)} {:trigger Touches(d, t, x)} ::
          (Touches(c, t, x) <==> Touches(d, t, x)) && (Touches(c, t, x) ==> d.flying[t] == c.flying[t]))
  }

  lemma SameForKeepsOk(c: Conc, d: Conc, x: Id)
    requires EntryOk(c, x) && SameFor(c, d, x)
    ensures EntryOk(d, x)
  {
    forall t | Creating(d, t, x)
      ensures Alone(d, t, x) && x in Scan(d.lines) && Scan(d.lines)[x] == d.flying[t].r
    {
      assert Touches(d, t, x) && Creating(c, t, x);
    }
    forall t | Appending(d, t, x) && WellFormed(d.flying[t]) && Newest(d, t, x)
      ensures Matches(d.index, x, d.flying[t].recs)
    {
      assert Touches(d, t, x) && Appending(c, t, x);
      forall u | Appending(c, u, x) ensures c.flying[u].stamp <= c.flying[t].stamp {
        assert Touches(c, u, x) && Appending(d, u, x);
      }
    }
    if !Busy(d, x) {
      forall t ensures !Touches(c, t, x) {
        assert !Touches(d, t, x);
      }
    }
  }

  /** A step that works at one entry keeps the invariant if it does so there. */
  lemma LocalStep(c: Conc, d: Conc, id: Id)
    requires ConcInv(c) && c.ready && d.ready && Stamped(d) && IndexOk(d.index) && EntryOk(d, id)
    requires forall x {:trigger SameFor(c, d, x)} :: x != id ==> SameFor(c, d, x)
    ensures ConcInv(d)
  {
    forall x ensures EntryOk(d, x) {
      if x != id {
        assert EntryOk(c, x) && SameFor(c, d, x);
        SameForKeepsOk(c, d, x);
      }
    }
  }

  lemma BeginCreateOk(c: Conc, t: Thread, d: Draft)
    requires ConcInv(c) && Enabled(c, BeginCreate(t, d)) && !Busy(c, d.id.value)
    ensures ConcInv(Take(c, BeginCreate(t, d)))
  {
    var r := DraftRec(d);
    var e := Take(c, BeginCreate(t, d));
    ScanSameId(c.lines, [r], r.id);
    assert Creating(e, t, r.id);
    forall u | Touches(e, u, r.id) ensures u == t {
      if u != t { assert Touches(c, u, r.id); }
    }
    LocalStep(c, e, r.id);
  }

  lemma ScannedEntry(lines: seq<Line>, id: Id)
    requires id in Scan(lines)
    ensures id != NO_ID && Scan(lines)[id].id == id && !Scan(lines)[id].deleted
  {
    ScanKeyed(lines);
  }

  lemma CreateEnds(c: Conc, e: Conc, t: Thread, r: Rec)
    requires EntryOk(c, r.id) && Creating(c, t, r.id) && c.flying[t].r == r
    requires e.flying == c.flying - {t} && e.lines == c.lines && e.index == c.index[r.id := r]
    ensures EntryOk(e, r.id)
  {
    assert Scan(c.lines)[r.id] == r;
    forall u ensures !Touches(e, u, r.id) {
      if Touches(e, u, r.id) { assert Touches(c, u, r.id); }
    }
  }

  lemma EndCreateOk(c: Conc, t: Thread)
    requires ConcInv(c) && Enabled(c, EndCreate(t))
    ensures ConcInv(Take(c, EndCreate(t)))
  {
    var r := c.flying[t].r;
    var e := Take(c, EndCreate(t));
    assert EntryOk(c, r.id) && Creating(c, t, r.id);
    CreateEnds(c, e, t, r);
    ScannedEntry(c.lines, r.id);
    LocalStep(c, e, r.id);
  }

  /** An index change by a thread that was idle or had only checked. */
  lemma TakeOffOk(c: Conc, t: Thread, index: map<Id, Rec>, id: Id, recs: seq<Rec>)
    requires ConcInv(c) && c.ready && NoneCreating(c, id)
    requires t in c.flying ==> c.flying[t].CancelChecked?
    requires IndexOk(index) && index - {id} == c.index - {id}
    requires WellFormed(AppendPending(id, recs, c.clock)) && Matches(index, id, recs)
    ensures ConcInv(TakeOff(c, t, index, id, recs))
  {
    var e := TakeOff(c, t, index, id, recs);
    assert Appending(e, t, id);
    forall u | Creating(e, u, id) ensures false {
      assert Creating(c, u, id);
    }
    forall u | Appending(e, u, id) && Newest(e, u, id) ensures u == t {
      assert e.flying[t].stamp <= e.flying[u].stamp;
    }
    forall x | x != id ensures SameFor(c, e, x) {
      SameIndex(c.index, index, id, x);
    }
    LocalStep(c, e, id);
  }

  lemma SameIndex(a: map<Id, Rec>, b: map<Id, Rec>, id: Id, x: Id)
    requires b - {id} == a - {id} && x != id
    ensures (x in a <==> x in b) && (x in a ==> b[x] == a[x])
  {
    assert x in a <==> x in a - {id};
    assert x in b <==> x in b - {id};
    assert x in a ==> (a - {id})[x] == a[x];
    assert x in b ==> (b - {id})[x] == b[x];
  }

  lemma UpdatedOk(c: Conc, t: Thread, id: Id, p: Patch)
    requires ConcInv(c) && c.ready && id in c.index && Marked(c.index[id]) && NoneCreating(c, id)
    requires t in c.flying ==> c.flying[t].CancelChecked?
    ensures ConcInv(Updated(c, t, id, p))
  {
    var m := Merged(c.index[id], p);
    assert c.index[id := Bare(m)] - {id} == c.index - {id};
    TakeOffOk(c, t, c.index[id := Bare(m)], id, [m]);
  }

  /** Tombstone and promote: out of the index now, dead lines later. */
  lemma RemovedOk(c: Conc, t: Thread, id: Id, recs: seq<Rec>)
    requires ConcInv(c) && c.ready && t !in c.flying && NoneCreating(c, id) && id != NO_ID
    requires recs != [] && forall i :: 0 <= i < |recs| ==> recs[i].id == id && !Live(recs[i])
    ensures ConcInv(TakeOff(c, t, c.index - {id}, id, recs))
  {
    assert (c.index - {id}) - {id} == c.index - {id};
    TakeOffOk(c, t, c.index - {id}, id, recs);
  }

  /** A thread that is in no entry's way comes or goes. */
  lemma CheckedOk(c: Conc, d: Conc)
    requires ConcInv(c) && c.ready && d.ready && Stamped(d)
    requires d.index == c.index && d.lines == c.lines
    requires forall t, x {:trigger Touches(d, t, x)} ::
               (Touches(c, t, x) <==> Touches(d, t, x)) && (Touches(c, t, x) ==> d.flying[t] == c.flying[t])
    ensures ConcInv(d)
  {
    forall x ensures EntryOk(d, x) {
      assert EntryOk(c, x);
      SameForKeepsOk(c, d, x);
    }
  }

  lemma CancelUpdatesOk(c: Conc, t: Thread)
    requires ConcInv(c) && Enabled(c, CancelUpdates(t)) && NoneCreating(c, c.flying[t].id)
    ensures ConcInv(Take(c, CancelUpdates(t)))
  {
    var id := c.flying[t].id;
    if id in c.index && Marked(c.index[id]) {
      UpdatedOk(c, t, id, CANCEL);
    } else {
      CheckedOk(c, Take(c, CancelUpdates(t)));
    }
  }

  /** An append that ends, its lines written or lost, while a newer one is still to come. */
  lemma OlderEnds(c: Conc, d: Conc, t: Thread, id: Id)
    requires ConcInv(c) && Appending(c, t, id) && !Newest(c, t, id)
    requires d.flying == c.flying - {t} && d.index == c.index
    ensures EntryOk(d, id)
  {
    var v :| Appending(c, v, id) && c.flying[v].stamp > c.flying[t].stamp;
    assert EntryOk(c, id) && Touches(c, v, id) && Touches(d, v, id) && Appending(d, v, id);
    forall u | Creating(d, u, id) ensures false {
      assert Creating(c, u, id) && Touches(c, t, id);
    }
    forall u | Appending(d, u, id) && WellFormed(d.flying[u]) && Newest(d, u, id)
      ensures Matches(d.index, id, d.flying[u].recs)
    {
      assert Appending(c, u, id);
      forall w | Appending(c, w, id) ensures c.flying[w].stamp <= c.flying[u].stamp {
        if w != t { assert Appending(d, w, id); }
      }
    }
  }

  lemma NewestLands(c: Conc, d: Conc, t: Thread, id: Id)
    requires ConcInv(c) && Appending(c, t, id) && Newest(c, t, id) && Alone(c, t, id)
    requires d.flying == c.flying - {t} && d.index == c.index && d.lines == c.lines + AsLines(c.flying[t].recs)
    ensures EntryOk(d, id)
  {
    assert EntryOk(c, id);
    ScanSameId(c.lines, c.flying[t].recs, id);
    forall u ensures !Touches(d, u, id) {
      if Touches(d, u, id) { assert Touches(c, u, id); }
    }
  }

  lemma EndAppendOk(c: Conc, t: Thread)
    requires ConcInv(c) && Enabled(c, EndAppend(t)) && Orderly(c, EndAppend(t))
    ensures ConcInv(Take(c, EndAppend(t)))
  {
    var id, recs := c.flying[t].id, c.flying[t].recs;
    var e := Take(c, EndAppend(t));
    ScanSameId(c.lines, recs, id);
    if Newest(c, t, id) {
      NewestLands(c, e, t, id);
    } else {
      OlderEnds(c, e, t, id);
    }
    LocalStep(c, e, id);
  }

  lemma LoseAppendOk(c: Conc, t: Thread)
    requires ConcInv(c) && Enabled(c, LoseAppend(t)) && Orderly(c, LoseAppend(t))
    ensures ConcInv(Take(c, LoseAppend(t)))
  {
    var id := c.flying[t].id;
    OlderEnds(c, Take(c, LoseAppend(t)), t, id);
    LocalStep(c, Take(c, LoseAppend(t)), id);
  }

  lemma SameReplay(c: Conc, d: Conc)
    requires ConcInv(c) && d.index == c.index && d.flying == c.flying && d.ready == c.ready && d.clock == c.clock
    requires Scan(d.lines) == Scan(c.lines)
    ensures ConcInv(d)
  {
    if c.ready {
      forall x ensures EntryOk(d, x) {
        assert EntryOk(c, x);
        SameForKeepsOk(c, d, x);
      }
    }
  }

  lemma LoadIndexOk(c: Conc)
    requires ConcInv(c)
    ensures ConcInv(Take(c, LoadIndex))
  {
    if !c.ready {
      var d := Take(c, LoadIndex);
      ScanKeyed(c.lines);
      forall id ensures EntryOk(d, id) {
        assert forall t :: !Touches(d, t, id);
      }
    }
  }

  lemma TurnKeepsInv(c: Conc, turn: Turn)
    requires ConcInv(c) && Enabled(c, turn) && Orderly(c, turn)
    ensures ConcInv(Take(c, turn))
  {
    match turn
    case LoadIndex => LoadIndexOk(c);
    case BeginCreate(t, d) => BeginCreateOk(c, t, d);
    case EndCreate(t) => EndCreateOk(c, t);
    case BeginUpdate(t, id, p) => UpdatedOk(c, t, id, p);
    case BeginCancel(t, id) => CheckedOk(c, Take(c, turn));
    case CancelUpdates(t) => CancelUpdatesOk(c, t);
    case BeginTombstone(t, id) => RemovedOk(c, t, id, [Tomb(id)]);
    case BeginPromote(t, id, sent) => RemovedOk(c, t, id, [Tomb(id), sent]);
    case EndAppend(t) => EndAppendOk(c, t);
    case LoseAppend(t) => LoseAppendOk(c, t);
    case OtherLines(recs) =>
      ScanAppendDead(c.lines, recs);
      SameReplay(c, Take(c, turn));
    case Prepend(r) =>
      ScanPrepend(r, c.lines);
      SameReplay(c, Take(c, turn));
  }

  /** A schedule: consecutive states of enabled steps, the lines of each entry in order. */
  ghost predicate Schedule(trace: seq<Conc>, turns: seq<Turn>) {
    && |trace| == |turns| + 1
    && forall i :: 0 <= i < |turns| ==>
         Enabled(trace[i], turns[i]) && Orderly(trace[i], turns[i]) && trace[i + 1] == Take(trace[i], turns[i])
  }

  /** Main result: under every schedule from a cold start on any file, the loaded index agrees
      with a replay of the file at every id that no operation is in the middle of changing;
      so when nothing is in flight the two are equal. */
  lemma {:induction false} QuiescentIndexIsReplay(trace: seq<Conc>, turns: seq<Turn>)
    requires Schedule(trace, turns)
    requires trace[0].flying == map[] && !trace[0].ready && trace[0].index == map[]
    ensures forall i, id :: 0 <= i < |trace| && trace[i].ready && !Busy(trace[i], id) ==>
              AgreeAt(trace[i].index, Scan(trace[i].lines), id)
    ensures forall i :: 0 <= i < |trace| && trace[i].ready && trace[i].flying == map[] ==>
              SameBare(trace[i].index, Scan(trace[i].lines))
  {
    var i := 0;
    while i < |turns|
      invariant 0 <= i <= |turns|
      invariant forall j :: 0 <= j <= i ==> ConcInv(trace[j])
    {
      TurnKeepsInv(trace[i], turns[i]);
      i := i + 1;
    }
    forall i, id | 0 <= i < |trace| && trace[i].ready && !Busy(trace[i], id)
      ensures AgreeAt(trace[i].index, Scan(trace[i].lines), id)
    {
      assert ConcInv(trace[i]) && EntryOk(trace[i], id);
    }
    forall i | 0 <= i < |trace| && trace[i].ready && trace[i].flying == map[]
      ensures SameBare(trace[i].index, Scan(trace[i].lines))
    {
      forall id ensures AgreeAt(trace[i].index, Scan(trace[i].lines), id) {
        assert !Busy(trace[i], id);
      }
      AgreeIsSame(trace[i].index, Scan(trace[i].lines));
    }
  }

  // ---- The order is needed ----

  /** Whatever happened before, when the last append in flight at an entry lands, index and file
      agree there exactly if its lines say what the index says. */
  lemma LastToLandDecides(c: Conc, t: Thread, id: Id)
    requires Appending(c, t, id) && Alone(c, t, id) && WellFormed(c.flying[t])
    ensures var d := Take(c, EndAppend(t));
            !Busy(d, id) && (AgreeAt(d.index, Scan(d.lines), id) <==> Matches(c.index, id, c.flying[t].recs))
  {
    var d := Take(c, EndAppend(t));
    ScanSameId(c.lines, c.flying[t].recs, id);
    forall u ensures !Touches(d, u, id) {
      if Touches(d, u, id) { assert Touches(c, u, id); }
    }
  }

  function SetText(text: string): Patch {
    Patch(Some(text), None, None, None)
  }

  /** The schedule: two threads update one entry, and the second one's line gets ahead. */
  function Overtaking(id: Id, x: string, y: string): seq<Turn> {
    [BeginUpdate(1, id, SetText(x)), BeginUpdate(2, id, SetText(y)), EndAppend(2), EndAppend(1)]
  }

  function OvertakingState(r: Rec, x: string, y: string, i: nat): Conc
    requires i <= 4
  {
    var m1 := Merged(r, SetText(x));
    var m2 := Merged(Bare(m1), SetText(y));
    var f1, f2 := AppendPending(r.id, [m1], 0), AppendPending(r.id, [m2], 1);
    var l0 := AsLines([r]);
    if i == 0 then Conc(l0, map[r.id := r], true, map[], 0)
    else if i == 1 then Conc(l0, map[r.id := Bare(m1)], true, map[1 := f1], 1)
    else if i == 2 then Conc(l0, map[r.id := Bare(m2)], true, map[1 := f1, 2 := f2], 2)
    else if i == 3 then Conc(l0 + AsLines([m2]), map[r.id := Bare(m2)], true, map[1 := f1], 2)
    else Conc((l0 + AsLines([m2])) + AsLines([m1]), map[r.id := Bare(m2)], true, map[], 2)
  }

  lemma OvertakingStep(r: Rec, x: string, y: string, i: nat)
    requires Live(r) && i < 4
    ensures Enabled(OvertakingState(r, x, y, i), Overtaking(r.id, x, y)[i])
    ensures Take(OvertakingState(r, x, y, i), Overtaking(r.id, x, y)[i]) == OvertakingState(r, x, y, i + 1)
  {
    var c, d := OvertakingState(r, x, y, i), OvertakingState(r, x, y, i + 1);
    var turn := Overtaking(r.id, x, y)[i];
    assert Take(c, turn).flying == d.flying;
    assert Take(c, turn).index == d.index;
  }

  /** So without the order the result fails: every step of this schedule is enabled, it starts in
      agreement, and it ends with nothing in flight, the index holding the second text and
      the file the first. */
  lemma OvertakingUpdatesDisagree(r: Rec, x: string, y: string)
    requires r.id != NO_ID && Live(r) && Normalise(r) == r && x != y
    ensures forall i :: 0 <= i < 4 ==>
              Enabled(OvertakingState(r, x, y, i), Overtaking(r.id, x, y)[i])
              && Take(OvertakingState(r, x, y, i), Overtaking(r.id, x, y)[i]) == OvertakingState(r, x, y, i + 1)
    ensures SameBare(OvertakingState(r, x, y, 0).index, Scan(OvertakingState(r, x, y, 0).lines))
    ensures var c := OvertakingState(r, x, y, 4);
            c.flying == map[] && r.id in c.index && c.index[r.id].body.content == y
            && r.id in Scan(c.lines) && Scan(c.lines)[r.id].body.content == x
  {
    forall i: nat | i < 4
      ensures Enabled(OvertakingState(r, x, y, i), Overtaking(r.id, x, y)[i])
      ensures Take(OvertakingState(r, x, y, i), Overtaking(r.id, x, y)[i]) == OvertakingState(r, x, y, i + 1)
    {
      OvertakingStep(r, x, y, i);
    }
    OvertakingStarts(r, x, y);
    OvertakingEnds(r, x, y);
  }

  lemma OvertakingStarts(r: Rec, x: string, y: string)
    requires r.id != NO_ID && Live(r) && Normalise(r) == r
    ensures SameBare(OvertakingState(r, x, y, 0).index, Scan(OvertakingState(r, x, y, 0).lines))
  {
    AsLinesOne(r);
    ScanOne(r);
  }

  lemma OvertakingEnds(r: Rec, x: string, y: string)
    requires r.id != NO_ID && Live(r)
    ensures var c := OvertakingState(r, x, y, 4);
            r.id in Scan(c.lines) && Scan(c.lines)[r.id].body.content == x
  {
    var m1 := Merged(r, SetText(x));
    var m2 := Merged(Bare(m1), SetText(y));
    ScanSameId(AsLines([r]) + AsLines([m2]), [m1], r.id);
  }
}
