/**
 What is typed into the agent's pane: when the text of a message can be typed again, and
 when never, whatever the steps that follow and however they end.
 */
module DisplayTyping {
  import opened Collections
  import opened DisplayLog
  import opened DisplayState
  import opened DisplayIndex
  import opened DisplayRuns
  import opened DisplayFaults

  /** The entry whose text the step types: a dispatch types the head's, and whoever promotes an
      entry directly has typed it before. */
  ghost function Typed(s: Store, op: Op): Option<Id>
    requires Load(s).index.WF()
  {
    match op
    case OpPromote(e, _, _) => Some(e.id)
    case OpDispatch(pane, send, _, _) => if pane && send && Queue(s) != [] then Some(Queue(s)[0].id) else None
    case OpCrash(o) => Typed(s, o)
    case _ => None
  }

  ghost predicate Types(s: Store, op: Op, id: Id) {
    s.index.WF() && Typed(s, op) == Some(id)
  }

  lemma TypedIsPending(s: Store, op: Op, id: Id)
    requires Base(s) && Names(s, op)
    ensures Types(s, op, id) ==> id in Pending(s) && id != NO_ID
    decreases op
  {
    OpenBase(s, true);
    HeadOf(s);
    if op.OpCrash? {
      TypedIsPending(s, op.op, id);
    }
  }

  // ---- One typing ----

  /** The step commits the typed message's row. */
  predicate CommitsRow(s: Store, op: Op, id: Id) {
    match op
    case OpPromote(_, ok, _) => ok && id !in s.db
    case OpDispatch(_, _, ok, _) => ok && id !in s.db
    case OpCrash(o) => CommitsRow(s, o, id)
    case _ => false
  }

  /** Not even the tombstone reaches the file. */
  predicate TombLost(op: Op) {
    match op
    case OpPromote(_, _, w) => Lost(w)
    case OpDispatch(_, _, _, w) => Lost(w)
    case OpCrash(o) => TombLost(o)
    case _ => false
  }

  /** After the step the message waits nowhere: its row is committed and its tombstone written; or the
      file did not show it waiting, and the index forgets it, by the promotion or by the crash. */
  ghost predicate Leaves(s: Store, op: Op, id: Id) {
    if CommitsRow(s, op, id) then !TombLost(op) || id !in Scan(s.lines)
    else op.OpCrash? && id !in Scan(s.lines)
  }

  lemma TombstonedIsGone(lines: seq<Line>, id: Id)
    requires id != NO_ID
    ensures id !in Scan(lines + AsLines([Tomb(id)]))
  {
    AsLinesOne(Tomb(id));
    ScanAppendRec(lines, Tomb(id));
  }

  lemma PromotionLeaves(s: Store, e: Rec, commitOk: bool, w: Write)
    requires Base(s)
    ensures e.id in Pending(s) ==>
              var t := PromoteEnding(s, e, commitOk, w);
              && (e.id in Scan(t.lines) <==> e.id in Scan(s.lines) && !(Commits(s, e, commitOk) && !Lost(w)))
              && (e.id in t.index.vals <==> !Commits(s, e, commitOk))
              && (e.id in t.db <==> e.id in s.db || commitOk)
  {
    OpenBase(s, true);
    if e.id in Pending(s) {
      PromoteEnds(s, e, commitOk, w);
      TombstonedIsGone(s.lines, e.id);
      LineBringsNone(s.lines + AsLines([Tomb(e.id)]), SentRec(s, e), e.id);
    }
  }

  /** Exactly when a message whose text was typed waits nowhere any more. */
  lemma TypedLeavesExactly(s: Store, op: Op, id: Id)
    requires Base(s) && Names(s, op)
    ensures Types(s, op, id) ==>
              && (Away(Step(s, op), id) <==> Leaves(s, op, id))
              && (id in Scan(Step(s, op).lines) <==> id in Scan(s.lines) && !(CommitsRow(s, op, id) && !TombLost(op)))
              && (CommitsRow(s, op, id) ==> id in Step(s, op).db)
    decreases op
  {
    if Types(s, op, id) {
      TypedIsPending(s, op, id);
      match op
      case OpPromote(e, ok, w) => PromotionLeaves(s, e, ok, w);
      case OpDispatch(pane, send, ok, w) =>
        OpenBase(s, true);
        DispatchEnds(s, pane, send, ok, w);
        PromotionLeaves(Load(s), Queue(s)[0], ok, w);
      case OpCrash(o) => TypedLeavesExactly(s, o, id);
      case _ =>
    }
  }

  // ---- Whatever follows ----

  ghost predicate OthersCreated(ops: seq<Op>, id: Id) {
    forall i {:trigger CreatesOther(ops[i], id)} :: 0 <= i < |ops| ==> CreatesOther(ops[i], id)
  }

  /** Some run from here types the message's text. */
  ghost predicate Returns(s: Store, id: Id) {
    exists trace, ops :: Run(trace, ops) && trace[0] == s && OthersCreated(ops, id) && SomeTypes(trace, ops, id)
  }

  ghost predicate SomeTypes(trace: seq<Store>, ops: seq<Op>, id: Id)
    requires |trace| == |ops| + 1
  {
    exists i {:trigger Types(trace[i], ops[i], id)} :: 0 <= i < |ops| && Types(trace[i], ops[i], id)
  }

  lemma {:induction false} AwayForever(trace: seq<Store>, ops: seq<Op>, id: Id, i: nat)
    requires Run(trace, ops) && OthersCreated(ops, id) && i <= |ops|
    requires Base(trace[0]) && Away(trace[0], id)
    ensures Base(trace[i]) && Away(trace[i], id)
    ensures trace[0].db.Keys <= trace[i].db.Keys
  {
    if i > 0 {
      AwayForever(trace, ops, id, i - 1);
      assert FollowsAt(trace, ops, i - 1) && CreatesOther(ops[i - 1], id);
      CreatesNonEmpty(ops[i - 1], id);
      StepBase(trace[i - 1], ops[i - 1]);
      StepStaysAway(trace[i - 1], ops[i - 1], id);
    }
  }

  lemma AwayIsNotTyped(s: Store, op: Op, id: Id)
    requires Base(s) && Names(s, op) && Away(s, id)
    ensures !Types(s, op, id)
  {
    TypedIsPending(s, op, id);
    OpenStaysAway(s, true, id);
  }

  lemma NeverTypedAgain(trace: seq<Store>, ops: seq<Op>, id: Id)
    requires Run(trace, ops) && OthersCreated(ops, id) && Base(trace[0]) && Away(trace[0], id)
    ensures forall i {:trigger Types(trace[i], ops[i], id)} :: 0 <= i < |ops| ==> !Types(trace[i], ops[i], id)
  {
    forall i: nat | i < |ops| ensures !Types(trace[i], ops[i], id) {
      AwayForever(trace, ops, id, i);
      assert FollowsAt(trace, ops, i);
      AwayIsNotTyped(trace[i], ops[i], id);
    }
  }

  lemma TwoStates(s: Store, op: Op)
    requires s.index.WF() && Names(s, op)
    ensures Run([s, Step(s, op)], [op])
  {
    assert FollowsAt([s, Step(s, op)], [op], 0);
  }

  lemma ThreeStates(s: Store, a: Op, b: Op)
    requires s.index.WF() && Names(s, a)
    requires Step(s, a).index.WF() && Names(Step(s, a), b)
    ensures Run([s, Step(s, a), Step(Step(s, a), b)], [a, b])
  {
    var trace := [s, Step(s, a), Step(Step(s, a), b)];
    assert FollowsAt(trace, [a, b], 0) && FollowsAt(trace, [a, b], 1);
  }

  lemma ByRun(trace: seq<Store>, ops: seq<Op>, id: Id, i: nat)
    requires Run(trace, ops) && OthersCreated(ops, id) && i < |ops| && Types(trace[i], ops[i], id)
    ensures Returns(trace[0], id)
  {
    assert SomeTypes(trace, ops, id);
  }

  /** Promoting it once more types it. */
  lemma PendingReturns(s: Store, id: Id)
    requires Base(s)
    ensures id in Pending(s) ==> Returns(s, id)
  {
    if id in Pending(s) {
      OpenBase(s, true);
      var op := OpPromote(Pending(s)[id], false, Written);
      TwoStates(s, op);
      ByRun([s, Step(s, op)], [op], id, 0);
    }
  }

  lemma RestartBase(s: Store)
    requires Base(s)
    ensures Base(Restart(s)) && Pending(Restart(s)) == Scan(s.lines)
  {
    NoEntries();
  }

  /** So it does after a restart, when only the file shows it waiting. */
  lemma OnFileReturns(s: Store, id: Id)
    requires Base(s)
    ensures id in Scan(s.lines) ==> Returns(s, id)
  {
    if id in Scan(s.lines) {
      ScanKeyed(s.lines);
      RestartBase(s);
      var op := OpPromote(Scan(s.lines)[id], false, Written);
      ThreeStates(s, OpRestart, op);
      ByRun([s, Restart(s), Step(Restart(s), op)], [OpRestart, op], id, 1);
    }
  }

  /** A message's text can be typed in some run from here exactly when it waits in file or index. */
  lemma ReturnsExactly(s: Store, id: Id)
    requires Base(s)
    ensures Returns(s, id) <==> !Away(s, id)
  {
    if Away(s, id) {
      forall trace, ops | Run(trace, ops) && trace[0] == s && OthersCreated(ops, id) ensures !SomeTypes(trace, ops, id) {
        NeverTypedAgain(trace, ops, id);
      }
    } else {
      OnFileReturns(s, id);
      PendingReturns(s, id);
    }
  }

  lemma BaseAt(trace: seq<Store>, ops: seq<Op>, id: Id, i: nat)
    requires Run(trace, ops) && OthersCreated(ops, id) && i <= |ops| && Base(trace[0])
    ensures Base(trace[i])
  {
    forall j | 0 <= j < i ensures NonEmptyIds(ops[j]) {
      assert CreatesOther(ops[j], id);
      CreatesNonEmpty(ops[j], id);
    }
    RunBase(trace, ops, i);
  }

  /** Main result: over every run, however its steps end, after the text of a message was typed some
      continuation types it again exactly when the step did not make it leave. */
  lemma TypedOnceExactly(trace: seq<Store>, ops: seq<Op>, i: nat, id: Id)
    requires Run(trace, ops) && OthersCreated(ops, id) && Base(trace[0])
    requires i < |ops| && Types(trace[i], ops[i], id)
    ensures Returns(trace[i + 1], id) <==> !Leaves(trace[i], ops[i], id)
    ensures Leaves(trace[i], ops[i], id) ==>
              forall j {:trigger Types(trace[j], ops[j], id)} :: i < j < |ops| ==> !Types(trace[j], ops[j], id)
  {
    BaseAt(trace, ops, id, i);
    BaseAt(trace, ops, id, i + 1);
    assert FollowsAt(trace, ops, i);
    TypedLeavesExactly(trace[i], ops[i], id);
    ReturnsExactly(trace[i + 1], id);
    if Leaves(trace[i], ops[i], id) {
      SentOnceForAll(trace, ops, i + 1, id);
    }
  }

  lemma RunTail(trace: seq<Store>, ops: seq<Op>, id: Id, i: nat)
    requires Run(trace, ops) && OthersCreated(ops, id) && i <= |ops|
    ensures Run(trace[i..], ops[i..]) && OthersCreated(ops[i..], id)
  {
    forall j: nat | j < |ops[i..]| ensures FollowsAt(trace[i..], ops[i..], j) {
      assert FollowsAt(trace, ops, i + j);
    }
    forall j | 0 <= j < |ops[i..]| ensures CreatesOther(ops[i..][j], id) {
      assert CreatesOther(ops[i + j], id);
    }
  }

  /** A message that waits nowhere stays out of file and index in every run, keeps its row if it has
      one, and is never typed again. */
  lemma SentOnceForAll(trace: seq<Store>, ops: seq<Op>, i: nat, id: Id)
    requires Run(trace, ops) && OthersCreated(ops, id) && Base(trace[0])
    requires i <= |ops| && Away(trace[i], id)
    ensures forall j :: i <= j <= |ops| ==> Away(trace[j], id) && (id in trace[i].db ==> id in trace[j].db)
    ensures forall j {:trigger Types(trace[j], ops[j], id)} :: i <= j < |ops| ==> !Types(trace[j], ops[j], id)
  {
    BaseAt(trace, ops, id, i);
    RunTail(trace, ops, id, i);
    forall j | i <= j <= |ops| ensures Away(trace[j], id) && (id in trace[i].db ==> id in trace[j].db) {
      AwayForever(trace[i..], ops[i..], id, j - i);
      assert trace[i..][j - i] == trace[j];
    }
    NeverTypedAgain(trace[i..], ops[i..], id);
    forall j | i <= j < |ops| ensures !Types(trace[j], ops[j], id) {
      assert !Types(trace[i..][j - i], ops[i..][j - i], id);
    }
  }

  /** Main result: a message whose promotion is committed, and that the file showed waiting, has its row
      from then on; and it comes back in some continuation exactly when its tombstone is lost. */
  lemma PromotedComesBackExactly(trace: seq<Store>, ops: seq<Op>, i: nat, id: Id)
    requires Run(trace, ops) && OthersCreated(ops, id) && Base(trace[0])
    requires i < |ops| && Types(trace[i], ops[i], id)
    requires CommitsRow(trace[i], ops[i], id) && id in Scan(trace[i].lines)
    ensures id in trace[i + 1].db
    ensures Returns(trace[i + 1], id) <==> TombLost(ops[i])
  {
    BaseAt(trace, ops, id, i);
    assert FollowsAt(trace, ops, i);
    TypedLeavesExactly(trace[i], ops[i], id);
    TypedOnceExactly(trace, ops, i, id);
  }

  lemma LoadedQueue(s: Store)
    requires Base(s)
    ensures Load(s).index.WF() && Load(Load(s)) == Load(s) && Queue(Load(s)) == Queue(s)
  {
    OpenBase(s, true);
  }

  /** A dispatch whose commit is refused, by the database or because the message has its row already,
      leaves everything as it was, so the next one types the same text once more. */
  lemma RefusedIsTypedAgain(s: Store, commitOk: bool, w: Write, commitOk': bool, w': Write)
    requires Base(s)
    ensures Load(s).index.WF()
    ensures Queue(s) != [] && (commitOk ==> Queue(s)[0].id in s.db) ==>
              && DispatchEnding(s, true, true, commitOk, w) == Load(s)
              && Types(Load(s), OpDispatch(true, true, commitOk', w'), Queue(s)[0].id)
  {
    LoadedQueue(s);
    DispatchEnds(s, true, true, commitOk, w);
    if Queue(s) != [] { PromoteEnds(Load(s), Queue(s)[0], commitOk, w); }
  }
}
