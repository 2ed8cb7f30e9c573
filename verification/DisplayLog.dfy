/**
 The per-agent display file and what a reader makes of it.

 A display file is a sequence of lines. A reader keeps, for every id, the last line
 that carries it; the pre-sent partition is what survives of that view once
 tombstones and delivered messages are dropped.
 */
module DisplayLog {
  import opened Collections

  /** Message ids, compared only for equality; the two the code singles out are the empty
      id, which readers skip, and the id of the retry card. */
  type Id = nat
  const NO_ID: Id := 0
  const RETRY_ID: Id := 1

  datatype Role = User | Agent | System
  datatype Source = Web | Task | PlanContinue | OtherSource(name: string)
  datatype Status = Queued | Scheduled | Cancelled | Sent | OtherStatus(name: string)
  datatype Kind = Message | RetryMarker

  /** The fields an entry carries besides its markers. Times are ranks in chronological order. */
  datatype Body = Body(role: Role, content: string, source: Source, status: Status,
                       metadata: Option<string>, createdAt: Option<nat>,
                       scheduledAt: Option<nat>, deliveredAt: Option<nat>)

  /** One JSON object of the file. `preSent` and the legacy `pre` may be absent, false or true. */
  datatype Rec = Rec(id: Id, deleted: bool, preSent: Option<bool>, pre: Option<bool>,
                     queued: bool, replace: bool, kind: Kind,
                     num: Option<nat>, dispatchSeq: Option<nat>, body: Body)

  /** `Junk` is a blank or malformed line. */
  datatype Line = Junk | Obj(rec: Rec)

  predicate Live(r: Rec) {
    !r.deleted && (r.preSent == Some(true) || r.pre == Some(true))
  }

  /** A legacy `_pre` marker is renamed when it is the only one present. */
  function Normalise(r: Rec): Rec {
    if r.pre.Some? && r.preSent.None? then r.(preSent := r.pre, pre := None) else r
  }

  /** An entry without its `_replace` flag. */
  function Bare(r: Rec): Rec {
    r.(replace := false)
  }

  ghost predicate SameBare(a: map<Id, Rec>, b: map<Id, Rec>) {
    a.Keys == b.Keys && forall id :: id in a ==> Bare(a[id]) == Bare(b[id])
  }

  // ---- Last occurrence wins ----

  function Note(d: Dict<Id, Rec>, line: Line): Dict<Id, Rec> {
    match line
    case Junk => d
    case Obj(r) => if r.id == NO_ID then d else d.Put(r.id, r)
  }

  /** The reader's dictionary after all lines: first occurrence fixes the place, last one the value. */
  function SeenDict(lines: seq<Line>): (d: Dict<Id, Rec>)
    ensures d.WF()
  {
    if lines == [] then EmptyDict()
    else
      var d := SeenDict(lines[..|lines| - 1]);
      NoteKeepsWF(d, lines[|lines| - 1]);
      Note(d, lines[|lines| - 1])
  }

  lemma NoteKeepsWF(d: Dict<Id, Rec>, line: Line)
    requires d.WF()
    ensures Note(d, line).WF()
  {
    if line.Obj? {
      d.PutKeepsWF(line.rec.id, line.rec);
    }
  }

  lemma {:induction false} SeenKeyed(lines: seq<Line>)
    ensures forall id :: id in Seen(lines) ==> id != NO_ID && Seen(lines)[id].id == id
  {
    if lines != [] {
      SeenKeyed(lines[..|lines| - 1]);
      var before := Seen(lines[..|lines| - 1]);
      NoteIsUnion(SeenDict(lines[..|lines| - 1]), lines[|lines| - 1]);
      forall id | id in Seen(lines) ensures id != NO_ID && Seen(lines)[id].id == id {
        assert id in before || id in Fresh(lines[|lines| - 1]);
      }
    }
  }

  function Seen(lines: seq<Line>): map<Id, Rec> {
    SeenDict(lines).vals
  }

  /** The second loop of the scan: live entries in the reader's order, normalised. */
  function KeepLive(keys: seq<Id>, vals: map<Id, Rec>): (d: Dict<Id, Rec>)
    requires forall k :: k in keys ==> k in vals
    ensures d.WF()
    ensures forall id :: id in d.vals <==> id in keys && Live(vals[id])
    ensures forall id :: id in d.vals ==> d.vals[id] == Normalise(vals[id])
  {
    if keys == [] then EmptyDict()
    else
      var k := keys[|keys| - 1];
      var d := KeepLive(keys[..|keys| - 1], vals);
      assert forall id :: id in keys <==> id in keys[..|keys| - 1] || id == k;
      d.PutKeepsWF(k, Normalise(vals[k]));
      if Live(vals[k]) then d.Put(k, Normalise(vals[k])) else d
  }

  /** What `_scan_file_into_index` returns, as an insertion-ordered dictionary. */
  function ScanDict(lines: seq<Line>): (d: Dict<Id, Rec>)
    ensures d.WF()
    ensures d.vals == Scan(lines)
  {
    var seen := SeenDict(lines);
    var d := KeepLive(seen.keys, seen.vals);
    assert d.vals.Keys == Scan(lines).Keys;
    d
  }

  /** The same as a map: the live part of the last-occurrence view. */
  function Scan(lines: seq<Line>): map<Id, Rec> {
    map id | id in Seen(lines) && Live(Seen(lines)[id]) :: Normalise(Seen(lines)[id])
  }

  /** Replay is compositional: later lines override earlier ones id by id. */
  lemma {:induction false} SeenAppend(a: seq<Line>, b: seq<Line>)
    ensures Seen(a + b) == Seen(a) + Seen(b)
  {
    if b == [] {
      assert a + b == a;
    } else {
      var b', last := b[..|b| - 1], b[|b| - 1];
      SeenAppend(a, b');
      SplitLast(b);
      ConcatAssoc(a, b', [last]);
      SeenVals(b', last);
      SeenVals(a + b', last);
      UnionAssoc(Seen(a), Seen(b'), Fresh(last));
    }
  }

  lemma SeenVals(lines: seq<Line>, line: Line)
    ensures Seen(lines + [line]) == Seen(lines) + Fresh(line)
  {
    SeenSnoc(lines, line);
    NoteIsUnion(SeenDict(lines), line);
  }

  lemma SeenSnoc(lines: seq<Line>, line: Line)
    ensures SeenDict(lines + [line]) == Note(SeenDict(lines), line)
  {
    assert (lines + [line])[..|lines|] == lines;
  }

  function Fresh(line: Line): map<Id, Rec> {
    match line
    case Junk => map[]
    case Obj(r) => if r.id == NO_ID then map[] else map[r.id := r]
  }

  lemma NoteIsUnion(d: Dict<Id, Rec>, line: Line)
    ensures Note(d, line).vals == d.vals + Fresh(line)
  {
  }

  lemma SeenOne(line: Line)
    ensures Seen([line]) == Fresh(line)
  {
    SeenSnoc([], line);
    assert [] + [line] == [line];
    NoteIsUnion(SeenDict([]), line);
  }

  /** An entry's fate is decided by the suffix as soon as the suffix mentions it. */
  lemma ScanAppend(a: seq<Line>, b: seq<Line>)
    ensures Scan(a + b) == (Scan(a) - Seen(b).Keys) + Scan(b)
  {
    SeenAppend(a, b);
  }

  lemma ScanAppendRec(lines: seq<Line>, r: Rec)
    requires r.id != NO_ID
    ensures Scan(lines + [Obj(r)])
            == if Live(r) then Scan(lines)[r.id := Normalise(r)] else Scan(lines) - {r.id}
  {
    ScanAppend(lines, [Obj(r)]);
    ScanOne(r);
    SeenOne(Obj(r));
    MapPlusSingleton(Scan(lines), r.id, Normalise(r));
  }

  lemma ScanOne(r: Rec)
    requires r.id != NO_ID
    ensures Scan([Obj(r)]) == if Live(r) then map[r.id := Normalise(r)] else map[]
  {
    SeenOne(Obj(r));
  }

  lemma MapPlusSingleton<V>(m: map<Id, V>, k: Id, v: V)
    ensures (m - {k}) + map[k := v] == m[k := v]
    ensures (m - {k}) + map[] == m - {k}
  {
  }

  /** Prepending a line that is not pre-sent never changes the replay. */
  lemma ScanPrepend(r: Rec, lines: seq<Line>)
    requires !Live(r)
    ensures Scan([Obj(r)] + lines) == Scan(lines)
  {
    SeenAppend([Obj(r)], lines);
    SeenOne(Obj(r));
  }

  // ---- Replaying a block of lines with distinct ids ----

  function IdsOf(recs: seq<Rec>): seq<Id> {
    seq(|recs|, i requires 0 <= i < |recs| => recs[i].id)
  }

  function AsLines(recs: seq<Rec>): seq<Line> {
    seq(|recs|, i requires 0 <= i < |recs| => Obj(recs[i]))
  }

  ghost predicate DistinctIds(recs: seq<Rec>) {
    && (forall i :: 0 <= i < |recs| ==> recs[i].id != NO_ID)
    && (forall i, j :: 0 <= i < j < |recs| ==> recs[i].id != recs[j].id)
  }

  lemma AsLinesSnoc(recs: seq<Rec>)
    requires recs != []
    ensures AsLines(recs) == AsLines(recs[..|recs| - 1]) + [Obj(recs[|recs| - 1])]
    ensures IdsOf(recs) == IdsOf(recs[..|recs| - 1]) + [recs[|recs| - 1].id]
  {
  }

  lemma SeenBlockStep(recs: seq<Rec>)
    requires recs != [] && recs[|recs| - 1].id != NO_ID
    ensures var init, r := recs[..|recs| - 1], recs[|recs| - 1];
            Seen(AsLines(recs)) == Seen(AsLines(init))[r.id := r]
  {
    var init, r := recs[..|recs| - 1], recs[|recs| - 1];
    AsLinesSnoc(recs);
    SeenSnoc(AsLines(init), Obj(r));
    NoteIsUnion(SeenDict(AsLines(init)), Obj(r));
    assert Seen(AsLines(recs)) == Seen(AsLines(init)) + map[r.id := r];
  }

  lemma {:induction false} SeenInBlock(recs: seq<Rec>, i: nat)
    requires DistinctIds(recs) && i < |recs|
    ensures recs[i].id in Seen(AsLines(recs)) && Seen(AsLines(recs))[recs[i].id] == recs[i]
  {
    SeenBlockStep(recs);
    if i < |recs| - 1 {
      var init := recs[..|recs| - 1];
      SeenInBlock(init, i);
      assert init[i] == recs[i] && recs[i].id != recs[|recs| - 1].id;
    }
  }

  ghost predicate Mentions(recs: seq<Rec>, id: Id) {
    exists i :: 0 <= i < |recs| && recs[i].id == id
  }

  lemma {:induction false} OnlyBlockSeen(recs: seq<Rec>, id: Id)
    requires DistinctIds(recs) && id in Seen(AsLines(recs))
    ensures Mentions(recs, id)
  {
    if recs == [] {
    } else {
      var init := recs[..|recs| - 1];
      SeenBlockStep(recs);
      if id == recs[|recs| - 1].id {
      } else {
        OnlyBlockSeen(init, id);
        var i :| 0 <= i < |init| && init[i].id == id;
        assert recs[i].id == id;
      }
    }
  }

  /** A block of entries with distinct ids is read back entry by entry. */
  lemma SeenBlock(recs: seq<Rec>)
    requires DistinctIds(recs)
    ensures forall i :: 0 <= i < |recs| ==> recs[i].id in Seen(AsLines(recs)) && Seen(AsLines(recs))[recs[i].id] == recs[i]
    ensures forall id :: id in Seen(AsLines(recs)) ==> exists i :: 0 <= i < |recs| && recs[i].id == id
  {
    forall i: nat | i < |recs|
      ensures recs[i].id in Seen(AsLines(recs)) && Seen(AsLines(recs))[recs[i].id] == recs[i]
    {
      SeenInBlock(recs, i);
    }
    forall id | id in Seen(AsLines(recs)) ensures exists i :: 0 <= i < |recs| && recs[i].id == id {
      OnlyBlockSeen(recs, id);
    }
  }

  /** Appended after lines that mention none of its ids, it extends the reader's order. */
  lemma {:induction false} SeenBlockOrder(lines: seq<Line>, recs: seq<Rec>)
    requires DistinctIds(recs)
    requires forall i :: 0 <= i < |recs| ==> recs[i].id !in Seen(lines)
    ensures SeenDict(lines + AsLines(recs)).keys == SeenDict(lines).keys + IdsOf(recs)
  {
    if recs == [] {
      assert lines + AsLines(recs) == lines;
    } else {
      var init, r := recs[..|recs| - 1], recs[|recs| - 1];
      SeenBlockOrder(lines, init);
      AsLinesSnoc(recs);
      SplitLast(recs);
      ConcatAssoc(lines, AsLines(init), [Obj(r)]);
      SeenSnoc(lines + AsLines(init), Obj(r));
      SeenBlockFresh(lines, init, r);
    }
  }

  lemma SeenBlockFresh(lines: seq<Line>, init: seq<Rec>, r: Rec)
    requires DistinctIds(init + [r])
    requires r.id !in Seen(lines)
    ensures r.id !in Seen(lines + AsLines(init))
  {
    SeenAppend(lines, AsLines(init));
    assert forall i :: 0 <= i < |init| ==> (init + [r])[i] == init[i];
    assert (init + [r])[|init|] == r;
    SeenBlock(init);
  }

  ghost predicate AllDead(keys: seq<Id>, vals: map<Id, Rec>) {
    forall k :: k in keys ==> k in vals && !Live(vals[k])
  }

  ghost predicate AllLive(keys: seq<Id>, vals: map<Id, Rec>) {
    forall k :: k in keys ==> k in vals && Live(vals[k])
  }

  lemma LastOfTwo(a: seq<Id>, b: seq<Id>, vals: map<Id, Rec>)
    requires b != [] && NoDup(a + b) && AllDead(a, vals) && AllLive(b, vals)
    ensures var b', k := b[..|b| - 1], b[|b| - 1];
            && a + b == (a + b') + [k] && NoDup(a + b') && k !in a + b' && AllLive(b', vals)
            && k in vals && Live(vals[k])
            && forall x :: x in (a + b') + [k] ==> x in vals
  {
    var b', k := b[..|b| - 1], b[|b| - 1];
    assert a + b == (a + b') + [k];
    NoDupSnoc(a + b', k);
    assert forall x :: x in b' ==> x in b;
    assert k in b;
  }

  /** Selecting live keys distributes over concatenation of distinct key lists. */
  lemma {:induction false} KeepLiveAllLive(keys: seq<Id>, live: seq<Id>, vals: map<Id, Rec>)
    requires NoDup(keys + live) && AllDead(keys, vals) && AllLive(live, vals)
    ensures forall k :: k in keys + live ==> k in vals
    ensures KeepLive(keys + live, vals).keys == live
    decreases |live|
  {
    if live == [] {
      assert keys + live == keys;
      KeepLiveNone(keys, vals);
    } else {
      var live', k := live[..|live| - 1], live[|live| - 1];
      LastOfTwo(keys, live, vals);
      KeepLiveAllLive(keys, live', vals);
      KeepLiveSnoc(keys + live', k, vals);
      KeptKeys(keys + live', live', k, vals);
      SplitLast(live);
    }
  }

  lemma {:induction false} KeptAreAmong(keys: seq<Id>, vals: map<Id, Rec>)
    requires forall x :: x in keys ==> x in vals
    ensures forall x :: x in KeepLive(keys, vals).vals ==> x in keys
  {
    if keys != [] {
      KeptAreAmong(keys[..|keys| - 1], vals);
    }
  }

  lemma KeptKeys(before: seq<Id>, live: seq<Id>, k: Id, vals: map<Id, Rec>)
    requires forall x :: x in before + [k] ==> x in vals
    requires forall x :: x in before ==> x in vals
    requires KeepLive(before, vals).keys == live && k !in before
    ensures k in vals
    ensures KeepLive(before, vals).Put(k, Normalise(vals[k])).keys == live + [k]
  {
    assert k == (before + [k])[|before|];
    KeptAreAmong(before, vals);
  }

  lemma NoDupSnoc<T>(s: seq<T>, x: T)
    ensures NoDup(s + [x]) <==> NoDup(s) && x !in s
  {
    var t := s + [x];
    assert t[|s|] == x;
    assert forall i :: 0 <= i < |s| ==> t[i] == s[i];
  }

  lemma {:induction false} KeepLiveNone(keys: seq<Id>, vals: map<Id, Rec>)
    requires forall k :: k in keys ==> k in vals && !Live(vals[k])
    ensures KeepLive(keys, vals) == EmptyDict()
  {
    if keys != [] {
      KeepLiveNone(keys[..|keys| - 1], vals);
    }
  }

  lemma KeepLiveSnoc(keys: seq<Id>, k: Id, vals: map<Id, Rec>)
    requires forall x :: x in keys + [k] ==> x in vals
    ensures forall x :: x in keys ==> x in keys + [k]
    ensures k in vals
    ensures KeepLive(keys + [k], vals)
            == if Live(vals[k]) then KeepLive(keys, vals).Put(k, Normalise(vals[k])) else KeepLive(keys, vals)
  {
    assert k == (keys + [k])[|keys|];
    assert (keys + [k])[..|keys|] == keys;
  }
}
