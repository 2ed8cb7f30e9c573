/**
 The rows a sweep writes for the sessions an agent owns: insert what is missing, refresh
 what grew, skip the rest, all in one transaction.
 */
module SessionRows {
  import opened Collections
  import opened SessionOwnership

  datatype Row = Row(agent: Id, parent: Option<Id>, isSub: bool, parentUuid: Option<Id>,
                     started: Option<int>, usage: Usage, ended: Option<int>)

  type Rows = map<Id, Row>

  datatype Counts = Counts(inserted: nat, updated: nat, skipped: nat)

  predicate EndsLater(f: Found, row: Row) {
    f.ended.Some? && (row.ended.None? || f.ended.value > row.ended.value)
  }

  predicate NeedsUpdate(row: Row, f: Found) {
    f.usage != row.usage || EndsLater(f, row)
  }

  /** Token counts and turns are taken over; the end only ever moves forward. */
  function Refreshed(row: Row, f: Found): Row {
    row.(usage := f.usage, ended := if EndsLater(f, row) then f.ended else row.ended)
  }

  function NewRow(f: Found, agent: Id, isSub: bool, parent: Option<Id>): Row {
    Row(agent, parent, isSub, f.parentUuid, f.started, f.usage, f.ended)
  }

  /** The file kept for a session id: the last one found. */
  function FileOf(all: seq<Found>, sid: Id): Option<Found> {
    if all == [] then None
    else if all[|all| - 1].sid == sid then Some(all[|all| - 1])
    else FileOf(all[..|all| - 1], sid)
  }

  lemma {:induction false} FileOfExists(all: seq<Found>, sid: Id)
    ensures FileOf(all, sid).Some? <==> sid in Sids(all)
    ensures FileOf(all, sid).Some? ==> FileOf(all, sid).value in all && FileOf(all, sid).value.sid == sid
  {
    if all != [] {
      var init := all[..|all| - 1];
      FileOfExists(init, sid);
      assert sid in Sids(all) <==> sid in Sids(init) || all[|all| - 1].sid == sid by { SidsSplit(all, sid); }
    }
  }

  lemma SidsSplit(all: seq<Found>, sid: Id)
    requires all != []
    ensures sid in Sids(all) <==> sid in Sids(all[..|all| - 1]) || all[|all| - 1].sid == sid
  {
    var init := all[..|all| - 1];
    if sid in Sids(all) {
      var i :| 0 <= i < |all| && all[i].sid == sid;
      assert i < |init| ==> init[i].sid == sid;
    }
    if sid in Sids(init) {
      var i :| 0 <= i < |init| && init[i].sid == sid;
      assert all[i].sid == sid;
    }
  }

  method LastFiles(all: seq<Found>) returns (files: map<Id, Found>)
    ensures files.Keys == Sids(all)
    ensures forall sid :: sid in files ==> FileOf(all, sid) == Some(files[sid])
  {
    files := map[];
    for i := 0 to |all|
      invariant forall sid :: sid in files <==> FileOf(all[..i], sid).Some?
      invariant forall sid :: sid in files ==> FileOf(all[..i], sid) == Some(files[sid])
    {
      assert all[..i + 1][..i] == all[..i];
      files := files[all[i].sid := all[i]];
    }
    assert all[..|all|] == all;
    forall sid ensures sid in files <==> sid in Sids(all) { FileOfExists(all, sid); }
  }

  // ---- The write list ----

  /** What the sweep wants stored: a sub-session knows its parent. */
  datatype Write = Write(file: Found, parent: Option<Id>)

  /** The transaction so far. `twice`: some row was inserted a second time. */
  datatype Writing = Writing(rows: Rows, counts: Counts, twice: bool)

  /** `existing` is what the sweep read at its start; a session missing there is inserted. */
  function WriteOne(existing: Rows, agent: Id, w: Write, t: Writing): Writing
    requires existing.Keys <= t.rows.Keys
  {
    var f, c := w.file, t.counts;
    if f.sid !in existing then
      Writing(t.rows[f.sid := NewRow(f, agent, w.parent.Some?, w.parent)], c.(inserted := c.inserted + 1),
              t.twice || f.sid in t.rows)
    else if NeedsUpdate(t.rows[f.sid], f) then
      Writing(t.rows[f.sid := Refreshed(t.rows[f.sid], f)], c.(updated := c.updated + 1), t.twice)
    else t.(counts := c.(skipped := c.skipped + 1))
  }

  function WriteAll(existing: Rows, agent: Id, ws: seq<Write>): (t: Writing)
    ensures existing.Keys <= t.rows.Keys
  {
    if ws == [] then Writing(existing, Counts(0, 0, 0), false)
    else WriteOne(existing, agent, ws[|ws| - 1], WriteAll(existing, agent, ws[..|ws| - 1]))
  }

  /** One file per session. */
  ghost predicate OneFileEach(ws: seq<Write>) {
    forall i, j :: 0 <= i < j < |ws| ==> ws[i].file.sid == ws[j].file.sid ==> ws[i].file == ws[j].file
  }

  predicate Fresh(rows: Rows, w: Write) {
    w.file.sid in rows && !NeedsUpdate(rows[w.file.sid], w.file)
  }

  lemma RefreshedNeedsNothing(row: Row, f: Found)
    ensures !NeedsUpdate(Refreshed(row, f), f)
  {
  }

  lemma WriteOneMakesFresh(existing: Rows, agent: Id, w: Write, t: Writing)
    requires existing.Keys <= t.rows.Keys
    ensures Fresh(WriteOne(existing, agent, w, t).rows, w)
  {
    if w.file.sid in existing {
      RefreshedNeedsNothing(t.rows[w.file.sid], w.file);
    }
  }

  lemma {:induction false} AllWrittenAreFresh(existing: Rows, agent: Id, ws: seq<Write>)
    requires OneFileEach(ws)
    ensures forall i :: 0 <= i < |ws| ==> Fresh(WriteAll(existing, agent, ws).rows, ws[i])
  {
    if ws != [] {
      var init, last := ws[..|ws| - 1], ws[|ws| - 1];
      AllWrittenAreFresh(existing, agent, init);
      WriteOneMakesFresh(existing, agent, last, WriteAll(existing, agent, init));
      forall i | 0 <= i < |ws| - 1 ensures Fresh(WriteAll(existing, agent, ws).rows, ws[i]) {
        assert init[i] == ws[i];
      }
    }
  }

  lemma {:induction false} FreshIsNoop(rows: Rows, agent: Id, ws: seq<Write>)
    requires forall i :: 0 <= i < |ws| ==> Fresh(rows, ws[i])
    ensures WriteAll(rows, agent, ws) == Writing(rows, Counts(0, 0, |ws|), false)
  {
    if ws != [] {
      FreshIsNoop(rows, agent, ws[..|ws| - 1]);
    }
  }

  ghost predicate HasFile(ws: seq<Write>, f: Found) {
    exists j :: 0 <= j < |ws| && ws[j].file == f
  }

  /** The second list holds no other sessions than the first, in whatever order. */
  ghost predicate SameFiles(a: seq<Write>, b: seq<Write>) {
    forall i :: 0 <= i < |b| ==> HasFile(a, b[i].file)
  }

  /** Main result for repetition: writing the same sessions again inserts nothing, updates
      nothing, skips every one, and leaves the rows as they are. */
  lemma SecondSweepIsNoop(rows: Rows, agent: Id, ws: seq<Write>, again: seq<Write>)
    requires OneFileEach(ws) && SameFiles(ws, again)
    ensures WriteAll(WriteAll(rows, agent, ws).rows, agent, again)
            == Writing(WriteAll(rows, agent, ws).rows, Counts(0, 0, |again|), false)
  {
    var rows1 := WriteAll(rows, agent, ws).rows;
    AllWrittenAreFresh(rows, agent, ws);
    forall i | 0 <= i < |again| ensures Fresh(rows1, again[i]) {
      assert HasFile(ws, again[i].file);
      var j :| 0 <= j < |ws| && ws[j].file == again[i].file;
      assert Fresh(rows1, ws[j]);
    }
    FreshIsNoop(rows1, agent, again);
  }

  // ---- What the rows are afterwards ----

  /** The last write for a session. */
  function LastWrite(ws: seq<Write>, sid: Id): Option<Write> {
    if ws == [] then None
    else if ws[|ws| - 1].file.sid == sid then Some(ws[|ws| - 1])
    else LastWrite(ws[..|ws| - 1], sid)
  }

  lemma RefreshTwice(row: Row, f: Found)
    ensures Refreshed(Refreshed(row, f), f) == Refreshed(row, f)
    ensures !NeedsUpdate(row, f) ==> Refreshed(row, f) == row
  {
  }

  /** Sessions not in the list keep their row; the others are inserted as last written, or are
      the row read at the start, refreshed. */
  lemma {:induction false} RowsAfter(existing: Rows, agent: Id, ws: seq<Write>, sid: Id)
    requires OneFileEach(ws)
    ensures var rows := WriteAll(existing, agent, ws).rows;
            && (sid in rows <==> sid in existing || LastWrite(ws, sid).Some?)
            && (LastWrite(ws, sid).None? && sid in existing ==> rows[sid] == existing[sid])
            && (LastWrite(ws, sid).Some? ==>
                  var w := LastWrite(ws, sid).value;
                  rows[sid] == if sid in existing then Refreshed(existing[sid], w.file)
                               else NewRow(w.file, agent, w.parent.Some?, w.parent))
  {
    if ws != [] {
      var init, last := ws[..|ws| - 1], ws[|ws| - 1];
      RowsAfter(existing, agent, init, sid);
      if last.file.sid == sid && sid in existing {
        LastWriteIn(init, sid);
        RefreshTwice(existing[sid], last.file);
      }
    }
  }

  lemma {:induction false} LastWriteIn(ws: seq<Write>, sid: Id)
    ensures LastWrite(ws, sid).Some? <==> exists i :: 0 <= i < |ws| && ws[i].file.sid == sid
    ensures LastWrite(ws, sid).Some? ==> exists i :: 0 <= i < |ws| && ws[i] == LastWrite(ws, sid).value
    ensures LastWrite(ws, sid).Some? ==> LastWrite(ws, sid).value.file.sid == sid
  {
    if ws != [] {
      var init := ws[..|ws| - 1];
      LastWriteIn(init, sid);
      assert forall i :: 0 <= i < |init| ==> init[i] == ws[i];
    }
  }

  ghost predicate NewTwice(existing: Rows, ws: seq<Write>) {
    exists i, j :: 0 <= i < j < |ws| && ws[i].file.sid == ws[j].file.sid && ws[i].file.sid !in existing
  }

  /** The transaction fails exactly when a session without a row is on the list twice. */
  lemma {:induction false} TwiceExactly(existing: Rows, agent: Id, ws: seq<Write>)
    ensures WriteAll(existing, agent, ws).twice <==> NewTwice(existing, ws)
  {
    if ws != [] {
      var init, last := ws[..|ws| - 1], ws[|ws| - 1];
      TwiceExactly(existing, agent, init);
      InRowsExactly(existing, agent, init, last.file.sid);
      assert forall i :: 0 <= i < |init| ==> init[i] == ws[i];
    }
  }

  lemma {:induction false} InRowsExactly(existing: Rows, agent: Id, ws: seq<Write>, sid: Id)
    ensures sid in WriteAll(existing, agent, ws).rows
            <==> sid in existing || exists i :: 0 <= i < |ws| && ws[i].file.sid == sid
  {
    if ws != [] {
      var init := ws[..|ws| - 1];
      InRowsExactly(existing, agent, init, sid);
      assert forall i :: 0 <= i < |init| ==> init[i] == ws[i];
    }
  }

  // ---- The sweep ----

  ghost predicate HasSession(ws: seq<Write>, sid: Id) {
    exists i :: 0 <= i < |ws| && ws[i].file.sid == sid
  }

  ghost predicate Distinct(ws: seq<Write>) {
    forall i, j :: 0 <= i < j < |ws| ==> ws[i].file.sid != ws[j].file.sid
  }

  ghost predicate RightWrite(w: Write, all: seq<Found>, parents: map<Id, Id>) {
    && FileOf(all, w.file.sid) == Some(w.file)
    && w.parent == if w.file.sid in parents then Some(parents[w.file.sid]) else None
  }

  /** Every session of the set once, each with its file and, for sub-sessions, its parent. */
  ghost predicate Lists(ws: seq<Write>, sids: set<Id>, all: seq<Found>, parents: map<Id, Id>) {
    && Distinct(ws)
    && (forall sid :: sid in sids <==> HasSession(ws, sid))
    && (forall i :: 0 <= i < |ws| ==> RightWrite(ws[i], all, parents))
  }

  method ListSessions(sids: set<Id>, all: seq<Found>, files: map<Id, Found>, parents: map<Id, Id>)
    returns (ws: seq<Write>)
    requires sids <= files.Keys
    requires forall sid :: sid in files ==> FileOf(all, sid) == Some(files[sid]) && files[sid].sid == sid
    ensures Lists(ws, sids, all, parents)
  {
    ws := [];
    var rest := sids;
    ghost var done: set<Id> := {};
    while rest != {}
      invariant rest <= sids && done == sids - rest
      invariant Lists(ws, done, all, parents)
      decreases |rest|
    {
      var sid :| sid in rest;
      var w := Write(files[sid], if sid in parents then Some(parents[sid]) else None);
      ListsOneMore(ws, w, done, all, parents);
      ws := ws + [w];
      rest, done := rest - {sid}, done + {sid};
    }
    assert done == sids;
  }

  lemma HasOneMore(ws: seq<Write>, w: Write, sid: Id)
    ensures HasSession(ws + [w], sid) <==> HasSession(ws, sid) || sid == w.file.sid
  {
    var more := ws + [w];
    assert more[|ws|] == w && forall i :: 0 <= i < |ws| ==> more[i] == ws[i];
  }

  lemma DistinctOneMore(ws: seq<Write>, w: Write)
    requires Distinct(ws) && !HasSession(ws, w.file.sid)
    ensures Distinct(ws + [w])
  {
  }

  lemma ListsOneMore(ws: seq<Write>, w: Write, done: set<Id>, all: seq<Found>, parents: map<Id, Id>)
    requires Lists(ws, done, all, parents) && w.file.sid !in done && RightWrite(w, all, parents)
    ensures Lists(ws + [w], done + {w.file.sid}, all, parents)
  {
    DistinctOneMore(ws, w);
    forall sid ensures sid in done + {w.file.sid} <==> HasSession(ws + [w], sid) {
      HasOneMore(ws, w, sid);
    }
  }

  lemma ListsHaveOneFileEach(a: seq<Write>, b: seq<Write>, x: set<Id>, y: set<Id>, all: seq<Found>,
                             p: map<Id, Id>, q: map<Id, Id>)
    requires Lists(a, x, all, p) && Lists(b, y, all, q)
    ensures OneFileEach(a + b)
    ensures forall i :: 0 <= i < |a + b| ==> FileOf(all, (a + b)[i].file.sid) == Some((a + b)[i].file)
  {
  }

  lemma DistinctParts(a: seq<Write>, b: seq<Write>)
    requires Distinct(a) && Distinct(b)
    ensures forall i, j :: 0 <= i < j < |a| ==> (a + b)[i].file.sid != (a + b)[j].file.sid
    ensures forall i, j :: |a| <= i < j < |a + b| ==> (a + b)[i].file.sid != (a + b)[j].file.sid
  {
  }

  lemma SharedIsTwice(existing: Rows, a: seq<Write>, b: seq<Write>, sid: Id)
    requires HasSession(a, sid) && HasSession(b, sid) && sid !in existing
    ensures NewTwice(existing, a + b)
  {
    var i :| 0 <= i < |a| && a[i].file.sid == sid;
    var j :| 0 <= j < |b| && b[j].file.sid == sid;
    assert (a + b)[i].file.sid == (a + b)[|a| + j].file.sid == sid;
  }

  lemma OverlapIsTwice(existing: Rows, a: seq<Write>, b: seq<Write>, x: set<Id>, y: set<Id>, all: seq<Found>,
                       p: map<Id, Id>, q: map<Id, Id>)
    requires Lists(a, x, all, p) && Lists(b, y, all, q)
    ensures NewTwice(existing, a + b) <==> exists sid :: sid in x && sid in y && sid !in existing
  {
    if sid :| sid in x && sid in y && sid !in existing {
      SharedIsTwice(existing, a, b, sid);
    }
    if NewTwice(existing, a + b) {
      var i, j :| 0 <= i < j < |a + b| && (a + b)[i].file.sid == (a + b)[j].file.sid && (a + b)[i].file.sid !in existing;
      DistinctParts(a, b);
      assert (a + b)[i] == a[i] && (a + b)[j] == b[j - |a|];
      assert HasSession(a, a[i].file.sid) && HasSession(b, b[j - |a|].file.sid);
    }
  }

  class SessionTable {
    var rows: Rows

    constructor ()
      ensures rows == map[]
    {
      rows := map[];
    }

    /** One agent's sweep. `dbOk` stands for everything else that can make a commit fail. A
        session without a row that is both top-level and path-linked is inserted twice, and
        the transaction is rolled back. */
    method Reconcile(agent: Id, all: seq<Found>, dbOk: bool)
      returns (committed: bool, counts: Counts, ghost ws: seq<Write>, ghost tops: set<Id>, ghost parents: map<Id, Id>)
      modifies this
      ensures LeastClosed(all, agent, tops + parents.Keys) && tops == Tops(all, agent)
      ensures exists a, b :: ws == a + b && Lists(a, tops, all, map[]) && Lists(b, parents.Keys, all, parents)
      ensures committed <==> dbOk && forall sid :: sid in tops && sid in PathSubs(all, tops) ==> sid in old(rows)
      ensures rows == if committed then WriteAll(old(rows), agent, ws).rows else old(rows)
      ensures counts == WriteAll(old(rows), agent, ws).counts
    {
      var t, subs, p;
      t, subs, p := OwnedSessions(all, agent);
      OwnedIsFound(all, agent, t + subs);
      tops, parents := t, p;
      var files := LastFiles(all);
      forall sid | sid in files ensures files[sid].sid == sid { FileOfExists(all, sid); }
      var a := ListSessions(t, all, files, map[]);
      var b := ListSessions(subs, all, files, p);
      var list := a + b;
      var w := Store(rows, agent, list);
      ws, counts, committed := list, w.counts, dbOk && !w.twice;
      TwiceExactly(rows, agent, list);
      OverlapIsTwice(rows, a, b, t, subs, all, map[], p);
      SameOverlap(t, subs, PathSubs(all, t));
      if committed { rows := w.rows; }
    }
  }

  lemma SameOverlap(tops: set<Id>, subs: set<Id>, paths: set<Id>)
    requires tops * subs == tops * paths
    ensures forall sid :: sid in tops ==> (sid in subs <==> sid in paths)
  {
    forall sid | sid in tops ensures sid in subs <==> sid in paths {
      assert sid in tops * subs <==> sid in tops * paths;
    }
  }

  method Store(existing: Rows, agent: Id, ws: seq<Write>) returns (t: Writing)
    ensures t == WriteAll(existing, agent, ws)
  {
    var rows: Rows := existing;
    var inserted, updated, skipped, twice := 0, 0, 0, false;
    for i := 0 to |ws|
      invariant Writing(rows, Counts(inserted, updated, skipped), twice) == WriteAll(existing, agent, ws[..i])
    {
      assert ws[..i + 1][..i] == ws[..i];
      var f, parent := ws[i].file, ws[i].parent;
      if f.sid !in existing {
        twice := twice || f.sid in rows;
        rows, inserted := rows[f.sid := NewRow(f, agent, parent.Some?, parent)], inserted + 1;
      } else if NeedsUpdate(rows[f.sid], f) {
        var row := rows[f.sid].(usage := f.usage);
        if EndsLater(f, row) { row := row.(ended := f.ended); }
        rows, updated := rows[f.sid := row], updated + 1;
      } else {
        skipped := skipped + 1;
      }
    }
    assert ws[..|ws|] == ws;
    t := Writing(rows, Counts(inserted, updated, skipped), twice);
  }

  lemma OwnedIsFound(all: seq<Found>, agent: Id, owned: set<Id>)
    requires LeastClosed(all, agent, owned)
    ensures owned <= Sids(all)
  {
    forall sid | sid in owned ensures sid in Sids(all) {
      LeastIsSupported(all, agent, owned, sid);
      if sid in Seeds(all, agent) {
        assert sid in Sids(all);
      } else {
        NoParentWithoutLink(all, sid, 0);
      }
    }
  }

  lemma FileIsListed(ws: seq<Write>, f: Found, sids: set<Id>, all: seq<Found>, p: map<Id, Id>)
    requires Lists(ws, sids, all, p) && f.sid in sids && FileOf(all, f.sid) == Some(f)
    ensures HasFile(ws, f)
  {
    assert HasSession(ws, f.sid);
    var i :| 0 <= i < |ws| && ws[i].file.sid == f.sid;
    assert RightWrite(ws[i], all, p);
  }

  lemma ListedInEither(a: seq<Write>, b: seq<Write>, f: Found)
    requires HasFile(a, f) || HasFile(b, f)
    ensures HasFile(a + b, f)
  {
    if HasFile(a, f) {
      var i :| 0 <= i < |a| && a[i].file == f;
      assert (a + b)[i].file == f;
    } else {
      var i :| 0 <= i < |b| && b[i].file == f;
      assert (a + b)[|a| + i].file == f;
    }
  }

  /** Two sweeps of one agent over the same files: whatever order the second goes in, it inserts
      and updates nothing and skips every owned session. */
  lemma SecondReconcileIsNoop(rows: Rows, agent: Id, all: seq<Found>, tops: set<Id>, p: map<Id, Id>, q: map<Id, Id>,
                              a: seq<Write>, b: seq<Write>, a2: seq<Write>, b2: seq<Write>)
    requires LeastClosed(all, agent, tops + p.Keys) && LeastClosed(all, agent, tops + q.Keys)
    requires Lists(a, tops, all, map[]) && Lists(b, p.Keys, all, p)
    requires Lists(a2, tops, all, map[]) && Lists(b2, q.Keys, all, q)
    ensures WriteAll(WriteAll(rows, agent, a + b).rows, agent, a2 + b2)
            == Writing(WriteAll(rows, agent, a + b).rows, Counts(0, 0, |a2 + b2|), false)
  {
    ListsHaveOneFileEach(a, b, tops, p.Keys, all, map[], p);
    ListsHaveOneFileEach(a2, b2, tops, q.Keys, all, map[], q);
    assert tops + p.Keys == tops + q.Keys;
    forall i | 0 <= i < |a2 + b2| ensures HasFile(a + b, (a2 + b2)[i].file) {
      var w := (a2 + b2)[i];
      assert w == if i < |a2| then a2[i] else b2[i - |a2|];
      assert HasSession(a2, w.file.sid) || HasSession(b2, w.file.sid);
      assert w.file.sid in tops + p.Keys;
      if w.file.sid in tops {
        FileIsListed(a, w.file, tops, all, map[]);
      } else {
        FileIsListed(b, w.file, p.Keys, all, p);
      }
      ListedInEither(a, b, w.file);
    }
    SecondSweepIsNoop(rows, agent, a + b, a2 + b2);
  }

  // ---- Many sweeps ----

  /** Rows never leave, never change hands or place, and never end earlier. */
  ghost predicate KeptRow(row: Row, row': Row) {
    && row'.agent == row.agent && row'.parent == row.parent && row'.isSub == row.isSub
    && row'.parentUuid == row.parentUuid && row'.started == row.started
    && (row.ended.Some? ==> row'.ended.Some? && row'.ended.value >= row.ended.value)
  }

  ghost predicate KeptRows(rows: Rows, rows': Rows) {
    forall sid :: sid in rows ==> sid in rows' && KeptRow(rows[sid], rows'[sid])
  }

  lemma {:induction false} WritingKeepsRows(existing: Rows, agent: Id, ws: seq<Write>)
    ensures KeptRows(existing, WriteAll(existing, agent, ws).rows)
  {
    if ws != [] {
      WritingKeepsRows(existing, agent, ws[..|ws| - 1]);
    }
  }

  /** A sweep of some agent over some files, or one that was rolled back. */
  datatype Sweep = Sweep(agent: Id, ws: seq<Write>, committed: bool)

  function Run(rows: Rows, sweeps: seq<Sweep>): Rows {
    if sweeps == [] then rows
    else
      var before, s := Run(rows, sweeps[..|sweeps| - 1]), sweeps[|sweeps| - 1];
      if s.committed then WriteAll(before, s.agent, s.ws).rows else before
  }

  /** Main result for runs: over any number of sweeps, of any agents over any files, committed or
      rolled back, rows stay, keep their owner and parent, and their end never decreases. */
  lemma {:induction false} RowsOnlyGrow(rows: Rows, sweeps: seq<Sweep>)
    ensures KeptRows(rows, Run(rows, sweeps))
  {
    if sweeps != [] {
      var before, s := Run(rows, sweeps[..|sweeps| - 1]), sweeps[|sweeps| - 1];
      RowsOnlyGrow(rows, sweeps[..|sweeps| - 1]);
      WritingKeepsRows(before, s.agent, s.ws);
    }
  }

  // ---- What a row says ----

  /** Of several files of one session the last one counts. */
  lemma {:induction false} FileOfIsLast(all: seq<Found>, sid: Id, k: nat)
    requires k < |all| && all[k].sid == sid && forall j :: k < j < |all| ==> all[j].sid != sid
    ensures FileOf(all, sid) == Some(all[k])
  {
    if k < |all| - 1 {
      FileOfIsLast(all[..|all| - 1], sid, k);
    }
  }

  lemma {:induction false} LastWriteIs(ws: seq<Write>, k: nat)
    requires k < |ws| && forall j :: k < j < |ws| ==> ws[j].file.sid != ws[k].file.sid
    ensures LastWrite(ws, ws[k].file.sid) == Some(ws[k])
  {
    if k < |ws| - 1 {
      LastWriteIs(ws[..|ws| - 1], k);
    }
  }

  /** A session without a row gets one that says whose it is, under which parent if it has one, where it
      branched off, when it began and ended, and what it used. */
  lemma InsertedRow(existing: Rows, agent: Id, ws: seq<Write>, k: nat)
    requires OneFileEach(ws) && k < |ws| && forall j :: k < j < |ws| ==> ws[j].file.sid != ws[k].file.sid
    requires ws[k].file.sid !in existing
    ensures var rows, f := WriteAll(existing, agent, ws).rows, ws[k].file;
            && f.sid in rows
            && rows[f.sid].agent == agent && rows[f.sid].parent == ws[k].parent
            && (rows[f.sid].isSub <==> ws[k].parent != None)
            && rows[f.sid].parentUuid == f.parentUuid && rows[f.sid].started == f.started
            && rows[f.sid].usage == f.usage && rows[f.sid].ended == f.ended
  {
    RowsAfter(existing, agent, ws, ws[k].file.sid);
    LastWriteIs(ws, k);
  }

  /** A session with a row keeps it but for what it used, which is the file's, and its end, which is the
      later one of the two. */
  lemma RefreshedRow(existing: Rows, agent: Id, ws: seq<Write>, k: nat)
    requires OneFileEach(ws) && k < |ws| && forall j :: k < j < |ws| ==> ws[j].file.sid != ws[k].file.sid
    requires ws[k].file.sid in existing
    ensures var rows, f := WriteAll(existing, agent, ws).rows, ws[k].file;
            var row := existing[f.sid];
            && f.sid in rows
            && rows[f.sid] == row.(usage := f.usage, ended := rows[f.sid].ended)
            && (f.ended == None ==> rows[f.sid].ended == row.ended)
            && (row.ended == None ==> rows[f.sid].ended == f.ended)
            && (f.ended.Some? && row.ended.Some? ==>
                  rows[f.sid].ended == if row.ended.value < f.ended.value then f.ended else row.ended)
  {
    RowsAfter(existing, agent, ws, ws[k].file.sid);
    LastWriteIs(ws, k);
  }
}
