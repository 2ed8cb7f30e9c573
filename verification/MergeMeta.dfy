/**
 Merging re-parsed card metadata over what the database holds, so that an answer given
 in the web UI survives until the transcript catches up.
 */
module MergeMeta {
  import opened Collections
  import opened InteractiveItems

  datatype Meta = Meta(items: seq<Item>, other: string)

  /** The stored column: empty, not valid JSON, or metadata. */
  datatype Stored = Empty | Garbled | Parsed(meta: Meta)

  /** The last item with a given non-empty id: what a dictionary keyed by id retains. */
  function LastWith(items: seq<Item>, id: string): (r: Option<Item>)
    ensures r.Some? ==> r.value.toolUseId == id
  {
    if items == [] || id == "" then None
    else if items[|items| - 1].toolUseId == id then Some(items[|items| - 1])
    else LastWith(items[..|items| - 1], id)
  }

  function Carried<K, V>(kept: map<K, V>, own: map<K, V>): map<K, V> {
    if kept != map[] then kept else own
  }

  /** One re-parsed item against the stored item with the same id. */
  function MergeItem(item: Item, db: Item): Item {
    var auto := item.(autoApproved := item.autoApproved || db.autoApproved);
    if item.answer.None? && db.answer.None? then auto
    else auto.(answer := if item.answer.Some? then item.answer else db.answer,
               selectedIndex := if db.selectedIndex.Some? then db.selectedIndex else item.selectedIndex,
               selected := Carried(db.selected, item.selected))
  }

  function MergeOne(item: Item, db: seq<Item>): Item {
    match LastWith(db, item.toolUseId)
    case None => item
    case Some(d) => MergeItem(item, d)
  }

  function MergeItems(items: seq<Item>, db: seq<Item>): seq<Item> {
    seq(|items|, i requires 0 <= i < |items| => MergeOne(items[i], db))
  }

  function Merge(db: Stored, parsed: Option<Meta>): Stored {
    if parsed.None? then db
    else if !db.Parsed? then Parsed(parsed.value)
    else Parsed(parsed.value.(items := MergeItems(parsed.value.items, db.meta.items)))
  }

  // ---- The loop ----

  /** The merge as the code runs it: index the stored items by id, then walk the copy. */
  method MergeInteractiveMeta(db: Stored, parsed: Option<Meta>) returns (merged: Stored)
    ensures merged == Merge(db, parsed)
  {
    if parsed.None? { return db; }
    if !db.Parsed? { return Parsed(parsed.value); }
    var dbItems: map<string, Item> := map[];
    var stored := db.meta.items;
    for i := 0 to |stored|
      invariant forall id :: id in dbItems <==> LastWith(stored[..i], id).Some?
      invariant forall id :: id in dbItems ==> LastWith(stored[..i], id) == Some(dbItems[id])
    {
      assert stored[..i + 1][..i] == stored[..i];
      if stored[i].toolUseId != "" {
        dbItems := dbItems[stored[i].toolUseId := stored[i]];
      }
    }
    assert stored[..|stored|] == stored;
    if dbItems == map[] {
      NothingStored(parsed.value.items, stored);
      return Parsed(parsed.value);
    }
    var items := parsed.value.items;
    var i := 0;
    while i < |items|
      invariant 0 <= i <= |items| == |parsed.value.items|
      invariant forall j :: 0 <= j < i ==> items[j] == MergeOne(parsed.value.items[j], stored)
      invariant forall j :: i <= j < |items| ==> items[j] == parsed.value.items[j]
    {
      if items[i].toolUseId in dbItems {
        items := items[i := MergeItem(items[i], dbItems[items[i].toolUseId])];
      }
      i := i + 1;
    }
    assert items == MergeItems(parsed.value.items, stored);
    merged := Parsed(parsed.value.(items := items));
  }

  lemma NothingStored(items: seq<Item>, stored: seq<Item>)
    requires forall id :: LastWith(stored, id).None?
    ensures MergeItems(items, stored) == items
  {
  }

  // ---- Idempotence ----

  ghost predicate DistinctToolIds(items: seq<Item>) {
    forall i, j :: 0 <= i < j < |items| && items[i].toolUseId == items[j].toolUseId ==> items[i].toolUseId == ""
  }

  lemma {:induction false} LastOfDistinct(items: seq<Item>, i: nat)
    requires DistinctToolIds(items) && i < |items| && items[i].toolUseId != ""
    ensures LastWith(items, items[i].toolUseId) == Some(items[i])
  {
    if i < |items| - 1 {
      LastOfDistinct(items[..|items| - 1], i);
    }
  }

  lemma MergeItemTwice(item: Item, d: Item)
    ensures MergeItem(item, MergeItem(item, d)) == MergeItem(item, d)
    ensures MergeItem(item, item) == item
    ensures MergeItem(item, d).toolUseId == item.toolUseId
  {
  }

  /** Merging the same parse again changes nothing. */
  lemma MergeIsIdempotent(db: Stored, parsed: Option<Meta>)
    requires parsed.Some? ==> DistinctToolIds(parsed.value.items)
    ensures Merge(Merge(db, parsed), parsed) == Merge(db, parsed)
  {
    if parsed.Some? {
      var items := parsed.value.items;
      var once := Merge(db, parsed).meta.items;
      forall i | 0 <= i < |items| ensures MergeOne(items[i], once) == once[i] && once[i].toolUseId == items[i].toolUseId {
        StepTwice(db, items, once, i);
      }
      assert MergeItems(items, once) == once;
    }
  }

  lemma StepTwice(db: Stored, items: seq<Item>, once: seq<Item>, i: nat)
    requires DistinctToolIds(items) && i < |items|
    requires once == if db.Parsed? then MergeItems(items, db.meta.items) else items
    ensures MergeOne(items[i], once) == once[i] && once[i].toolUseId == items[i].toolUseId
  {
    forall j | 0 <= j < |items| ensures once[j].toolUseId == items[j].toolUseId {
      MergeItemTwice(items[j], if db.Parsed? && LastWith(db.meta.items, items[j].toolUseId).Some?
                               then LastWith(db.meta.items, items[j].toolUseId).value else items[j]);
    }
    if items[i].toolUseId != "" {
      LastOfDistinct(once, i);
    }
    MergeItemTwice(items[i], if db.Parsed? && LastWith(db.meta.items, items[i].toolUseId).Some?
                             then LastWith(db.meta.items, items[i].toolUseId).value else items[i]);
  }

  /** The later card of an id holds something that a merge brings to the earlier one. */
  predicate Adds(later: Item, earlier: Item) {
    || (later.autoApproved && !earlier.autoApproved)
    || (later.answer.Some? && earlier.answer.None?)
    || ((later.answer.Some? || earlier.answer.Some?)
        && (|| (later.selectedIndex.Some? && later.selectedIndex != earlier.selectedIndex)
            || (later.selected != map[] && later.selected != earlier.selected)))
  }

  lemma MergeAddsExactly(item: Item, d: Item)
    ensures MergeItem(item, d) == item <==> !Adds(d, item)
  {
  }

  /** Card `i` lacks nothing that the last card of its id holds. */
  predicate NothingToAdd(items: seq<Item>, i: nat)
    requires i < |items|
  {
    var last := LastWith(items, items[i].toolUseId);
    last.Some? ==> !Adds(last.value, items[i])
  }

  /** Cards that repeat an id share what is stored. Once such a parse has been stored, merging it again
      changes nothing exactly when no card lacks what the last one of its id holds. */
  lemma MergeAgainExactly(parsed: Meta)
    ensures Merge(Merge(Empty, Some(parsed)), Some(parsed)) == Merge(Empty, Some(parsed))
            <==> forall i :: 0 <= i < |parsed.items| ==> NothingToAdd(parsed.items, i)
  {
    var items := parsed.items;
    forall i | 0 <= i < |items| ensures MergeOne(items[i], items) == items[i] <==> NothingToAdd(items, i) {
      var last := LastWith(items, items[i].toolUseId);
      if last.Some? { MergeAddsExactly(items[i], last.value); }
    }
    if MergeItems(items, items) == items {
      assert forall i :: 0 <= i < |items| ==> MergeItems(items, items)[i] == items[i];
    }
  }

  // ---- Which answer stands ----

  datatype MetaOp =
    | WebAnswer(i: nat, text: string, selectedIndex: Option<nat>, selected: map<nat, nat>)
    | Reparse(parsed: Meta)

  function ApplyOp(db: Meta, op: MetaOp): Meta {
    match op
    case WebAnswer(i, text, index, sel) =>
      if i < |db.items|
      then db.(items := db.items[i := db.items[i].(answer := Some(text), selectedIndex := index, selected := sel)])
      else db
    case Reparse(parsed) => Merge(Parsed(db), Some(parsed)).meta
  }

  function ApplyAll(db: Meta, ops: seq<MetaOp>): Meta {
    if ops == [] then db else ApplyOp(ApplyAll(db, ops[..|ops| - 1]), ops[|ops| - 1])
  }

  function AnswerOf(items: seq<Item>, id: string): Option<string> {
    match LastWith(items, id)
    case None => None
    case Some(item) => item.answer
  }

  /** Card `i` is the last one of this id. */
  predicate IsLast(items: seq<Item>, i: nat, id: string) {
    i < |items| && id != "" && items[i].toolUseId == id && LastWith(items[i + 1..], id).None?
  }

  lemma {:induction false} LastWithUpdated(items: seq<Item>, i: nat, x: Item, id: string)
    requires i < |items| && x.toolUseId == items[i].toolUseId
    ensures LastWith(items[i := x], id) == if IsLast(items, i, id) then Some(x) else LastWith(items, id)
    decreases |items|
  {
    var n := |items| - 1;
    if i == n {
      assert items[n + 1..] == [] && items[i := x][..n] == items[..n];
    } else {
      assert items[i := x][..n] == items[..n][i := x];
      LastWithUpdated(items[..n], i, x, id);
      assert items[i + 1..][..|items[i + 1..]| - 1] == items[..n][i + 1..];
    }
  }

  lemma {:induction false} LastWithMerged(items: seq<Item>, db: seq<Item>, id: string)
    ensures LastWith(MergeItems(items, db), id)
            == match LastWith(items, id) case None => None case Some(item) => Some(MergeOne(item, db))
  {
    if items != [] {
      var n := |items| - 1;
      LastWithMerged(items[..n], db, id);
      assert MergeItems(items, db)[..n] == MergeItems(items[..n], db);
    }
  }

  /** The answer an operation brings to the last card of the id: the user's own, or the transcript's. */
  function Brings(db: Meta, op: MetaOp, id: string): Option<string> {
    match op
    case WebAnswer(i, text, _, _) => if IsLast(db.items, i, id) then Some(text) else None
    case Reparse(parsed) => AnswerOf(parsed.items, id)
  }

  lemma OneOpAnswers(db: Meta, op: MetaOp, id: string)
    requires LastWith(db.items, id).Some?
    requires op.Reparse? ==> LastWith(op.parsed.items, id).Some?
    ensures LastWith(ApplyOp(db, op).items, id).Some?
    ensures AnswerOf(ApplyOp(db, op).items, id)
            == if Brings(db, op, id).Some? then Brings(db, op, id) else AnswerOf(db.items, id)
  {
    match op {
      case WebAnswer(i, text, index, sel) =>
        if i < |db.items| {
          LastWithUpdated(db.items, i, db.items[i].(answer := Some(text), selectedIndex := index, selected := sel), id);
        }
      case Reparse(parsed) => LastWithMerged(parsed.items, db.items, id);
    }
  }

  /** The last answer that any of the operations brought, or the one before them all. */
  function Latest(db: Meta, ops: seq<MetaOp>, id: string): Option<string> {
    if ops == [] then AnswerOf(db.items, id)
    else
      var init, last := ops[..|ops| - 1], ops[|ops| - 1];
      var brought := Brings(ApplyAll(db, init), last, id);
      if brought.Some? then brought else Latest(db, init, id)
  }

  /** Main result: however web answers and re-parses alternate, as long as each re-parse still contains
      the card, its stored answer is the last one anybody brought: a re-parse replaces it only
      by an answer of the transcript's own. So an answer, once there, is never forgotten. */
  lemma {:induction false} LatestAnswerStands(db: Meta, ops: seq<MetaOp>, id: string)
    requires LastWith(db.items, id).Some?
    requires forall i :: 0 <= i < |ops| && ops[i].Reparse? ==> LastWith(ops[i].parsed.items, id).Some?
    ensures LastWith(ApplyAll(db, ops).items, id).Some?
    ensures AnswerOf(ApplyAll(db, ops).items, id) == Latest(db, ops, id)
    ensures AnswerOf(db.items, id).Some? ==> AnswerOf(ApplyAll(db, ops).items, id).Some?
  {
    if ops != [] {
      var n := |ops| - 1;
      LatestAnswerStands(db, ops[..n], id);
      OneOpAnswers(ApplyAll(db, ops[..n]), ops[n], id);
    }
  }

  /** What an answered card holds of a selection: the option of a single question, or those of several. */
  predicate KeepsSelection(before: Item, after: Item) {
    && (before.selectedIndex.Some? ==> after.selectedIndex == before.selectedIndex)
    && (before.selected != map[] ==> after.selected == before.selected)
  }

  /** The selections the user made are not the transcript's to change: while the card has an answer,
      re-parses leave both kinds as they are. */
  lemma {:induction false} SelectionSurvivesReparses(db: Meta, ops: seq<MetaOp>, id: string)
    requires AnswerOf(db.items, id).Some?
    requires forall i :: 0 <= i < |ops| ==> ops[i].Reparse? && LastWith(ops[i].parsed.items, id).Some?
    ensures AnswerOf(ApplyAll(db, ops).items, id).Some?
    ensures KeepsSelection(LastWith(db.items, id).value, LastWith(ApplyAll(db, ops).items, id).value)
  {
    if ops != [] {
      var n := |ops| - 1;
      SelectionSurvivesReparses(db, ops[..n], id);
      LastWithMerged(ops[n].parsed.items, ApplyAll(db, ops[..n]).items, id);
    }
  }

  /** Without a parse the stored column stays; with nothing readable stored the parse is taken; otherwise
      the result is the parse, with answers, selections and approvals filled in. */
  lemma MergeIsTheParse(db: Stored, p: Meta)
    ensures Merge(db, None) == db
    ensures db == Empty || db == Garbled ==> Merge(db, Some(p)) == Parsed(p)
    ensures Merge(db, Some(p)).Parsed? && Merge(db, Some(p)).meta.other == p.other
    ensures var items := Merge(db, Some(p)).meta.items;
            && |items| == |p.items|
            && forall i :: 0 <= i < |items| ==>
                 items[i].(autoApproved := p.items[i].autoApproved, answer := p.items[i].answer,
                           selectedIndex := p.items[i].selectedIndex, selected := p.items[i].selected) == p.items[i]
  {
  }
}
