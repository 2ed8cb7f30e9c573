/**
 What one step of the parser does to its turns and cards, as a relation that composes:
 turns only grow, and every card is accounted for.
 */
module ParserSteps {
  import opened Collections
  import opened Strings
  import opened InteractiveItems
  import opened Transcript
  import opened SessionParser

  // ---- The document, independently of the parser ----

  /** What the main agent said and called, and what the user and the system said, in order. */
  datatype DocItem =
    | Prose(text: string, uuid: Option<string>, time: Option<string>)
    | Call(tool: Tool, id: string, time: Option<string>)
    | Card(call: ItemKind, id: string)
    | Heard(turn: Turn)

  /** A block of an entry with this id and time. */
  function ItemOf(b: AgentBlock, uuid: Option<string>, time: Option<string>): seq<DocItem> {
    match b
    case AgentText(text) => if ShownText(text) then [Prose(text, uuid, time)] else []
    case OtherAgentBlock => []
    case ToolUse(tool, id, _, _, _) =>
      if Interactive(tool) then [Card(KindOf(tool), id)] else if tool.SearchTool? then [] else [Call(tool, id, time)]
  }

  function ItemsOf(bs: seq<AgentBlock>, uuid: Option<string>, time: Option<string>): seq<DocItem> {
    if bs == [] then [] else ItemsOf(bs[..|bs| - 1], uuid, time) + ItemOf(bs[|bs| - 1], uuid, time)
  }

  function HeardItems(turn: Option<Turn>): seq<DocItem> {
    if turn.Some? then [Heard(turn.value)] else []
  }

  /** Results are not said by anybody. */
  function UserItems(isMeta: bool, content: UserContent, uuid: Option<string>, time: Option<string>): seq<DocItem> {
    if isMeta then []
    else match content
      case NoContent => []
      case Text(text) => HeardItems(UserTurnOf(text, uuid, time))
      case BlockList(bs) =>
        if HasToolResult(bs) then [] else HeardItems(UserTurnOf(Strip(Join(UserTexts(bs), "\n")), uuid, time))
  }

  function SystemItems(subtype: Subtype, text: string, uuid: Option<string>, time: Option<string>): seq<DocItem> {
    if subtype.TurnDuration? then [] else HeardItems(SystemTurnOf(subtype, text, uuid, time))
  }

  function LineItems(line: Line): seq<DocItem> {
    if line.Unparsed? then []
    else
      var e := line.entry;
      match e.body
      case UserBody(isMeta, content) => UserItems(isMeta, content, e.uuid, e.timestamp)
      case AgentBody(subagent, synthetic, rateLimited, bs) =>
        if subagent || synthetic then []
        else if rateLimited then [Heard(SystemTurn(RateLimitText(bs), RateLimit, Own(e.uuid), e.timestamp))]
        else ItemsOf(bs, e.uuid, e.timestamp)
      case SystemBody(subtype, text) => SystemItems(subtype, text, e.uuid, e.timestamp)
      case OtherBody(_) => []
  }

  function Document(lines: seq<Line>): seq<DocItem> {
    if lines == [] then [] else Document(lines[..|lines| - 1]) + LineItems(lines[|lines| - 1])
  }

  // ---- Cards ----

  datatype Key = Key(call: ItemKind, id: string)

  function CardKeys(cards: seq<Item>): (ks: seq<Key>)
    ensures |ks| == |cards|
  {
    seq(|cards|, i requires 0 <= i < |cards| => Key(cards[i].kind, cards[i].toolUseId))
  }

  function KeysIn(items: seq<DocItem>): seq<Key> {
    if items == [] then []
    else KeysIn(items[..|items| - 1])
         + (if items[|items| - 1].Card? then [Key(items[|items| - 1].call, items[|items| - 1].id)] else [])
  }

  /** The numbers of the cards shown so far, turn by turn. */
  function Numbers(turns: seq<Turn>): seq<nat> {
    if turns == [] then []
    else Numbers(turns[..|turns| - 1]) + (if turns[|turns| - 1].CardTurn? then turns[|turns| - 1].cards else [])
  }

  function RejectedKeys(turns: seq<Turn>): seq<Key> {
    if turns == [] then []
    else RejectedKeys(turns[..|turns| - 1])
         + (if turns[|turns| - 1].RejectedTurn?
            then [Key(turns[|turns| - 1].call, turns[|turns| - 1].toolUseId)] else [])
  }

  /** Strictly increasing, so nothing occurs twice, and below `n`. */
  ghost predicate Increasing(ns: seq<nat>, n: nat) {
    && (forall i, j :: 0 <= i < j < |ns| ==> ns[i] < ns[j])
    && (forall i :: 0 <= i < |ns| ==> ns[i] < n)
  }

  function KeysAt(ns: seq<nat>, ks: seq<Key>): (r: seq<Key>)
    requires forall i :: 0 <= i < |ns| ==> ns[i] < |ks|
    ensures |r| == |ns|
  {
    seq(|ns|, i requires 0 <= i < |ns| => ks[ns[i]])
  }

  /** Each card is shown or waiting, in order and at most once, or was rejected. */
  ghost predicate Accounted(shown: seq<nat>, rejected: seq<Key>, ks: seq<Key>) {
    Increasing(shown, |ks|) && multiset(KeysAt(shown, ks)) + multiset(rejected) == multiset(ks)
  }

  ghost predicate Balanced(st: State) {
    Accounted(Numbers(st.turns) + st.pending, RejectedKeys(st.turns), CardKeys(st.cards))
  }

  // ---- The step relation ----

  /** Turns only grow, each interactive call brings its card, and the accounts stay balanced. */
  ghost predicate Step(s: State, t: State, items: seq<DocItem>) {
    && s.turns <= t.turns
    && CardKeys(t.cards) == CardKeys(s.cards) + KeysIn(items)
    && (Balanced(s) ==> Balanced(t))
  }

  lemma {:induction false} KeysInConcat(a: seq<DocItem>, b: seq<DocItem>)
    ensures KeysIn(a + b) == KeysIn(a) + KeysIn(b)
  {
    if b == [] {
      assert a + b == a;
    } else {
      KeysInConcat(a, b[..|b| - 1]);
      assert (a + b)[..|a + b| - 1] == a + b[..|b| - 1];
    }
  }

  lemma TurnAdded(turns: seq<Turn>, t: Turn)
    ensures Numbers(turns + [t]) == Numbers(turns) + (if t.CardTurn? then t.cards else [])
    ensures RejectedKeys(turns + [t])
            == RejectedKeys(turns) + (if t.RejectedTurn? then [Key(t.call, t.toolUseId)] else [])
  {
    assert (turns + [t])[..|turns|] == turns;
  }

  lemma Then(s: State, t: State, u: State, a: seq<DocItem>, b: seq<DocItem>)
    requires Step(s, t, a) && Step(t, u, b)
    ensures Step(s, u, a + b)
  {
    KeysInConcat(a, b);
    ConcatAssoc(CardKeys(s.cards), KeysIn(a), KeysIn(b));
  }

  /** A step that reads nothing may come first or last. */
  lemma QuietThen(s: State, t: State, u: State, b: seq<DocItem>)
    requires Step(s, t, []) && Step(t, u, b)
    ensures Step(s, u, b)
  {
    Then(s, t, u, [], b);
    EmptyConcat(b);
  }

  lemma ThenQuiet(s: State, t: State, u: State, a: seq<DocItem>)
    requires Step(s, t, a) && Step(t, u, [])
    ensures Step(s, u, a)
  {
    Then(s, t, u, a, []);
    assert a + [] == a;
  }

  // ---- The primitive steps ----

  lemma SameKeys(s: State, t: State)
    requires CardKeys(s.cards) == CardKeys(t.cards)
    ensures CardKeys(t.cards) == CardKeys(s.cards) + KeysIn([])
  {
  }

  /** Nothing about turns and cards changes. */
  lemma StandStill(s: State, t: State)
    requires t.turns == s.turns && CardKeys(t.cards) == CardKeys(s.cards) && t.pending == s.pending
    ensures Step(s, t, [])
  {
    SameKeys(s, t);
  }

  lemma PlainTurnKeepsBalance(st: State, turn: Turn)
    requires !turn.CardTurn? && !turn.RejectedTurn? && Balanced(st)
    ensures Balanced(st.(turns := st.turns + [turn]))
  {
    TurnAdded(st.turns, turn);
    assert Numbers(st.turns) + [] == Numbers(st.turns);
    assert RejectedKeys(st.turns) + [] == RejectedKeys(st.turns);
  }

  /** A turn that is neither cards nor a rejected call. */
  lemma AddTurnStep(st: State, turn: Turn)
    requires !turn.CardTurn? && !turn.RejectedTurn?
    ensures Step(st, st.(turns := st.turns + [turn]), [])
  {
    SameKeys(st, st.(turns := st.turns + [turn]));
    if Balanced(st) { PlainTurnKeepsBalance(st, turn); }
  }

  lemma FlushTextFrame(st: State)
    ensures var s := FlushText(st);
            s.parts == [] && s.cards == st.cards && s.pending == st.pending && s.byId == st.byId
  {
  }

  lemma FlushTextStep(st: State)
    ensures Step(st, FlushText(st), [])
  {
    var turn := TextTurn(Render(st.parts), st.textUuid, st.textTime);
    AddTurnStep(st, turn);
    StandStill(st, st);
    StandStill(st.(turns := st.turns + [turn]), st.(turns := st.turns + [turn], parts := [], textUuid := None, textTime := None));
    StandStill(st, st.(parts := [], textUuid := None, textTime := None));
    if st.parts != [] && Render(st.parts) != "" {
      ThenQuiet(st, st.(turns := st.turns + [turn]), FlushText(st), []);
    }
  }

  lemma ShowCardsStep(st: State)
    ensures Step(st, st.(turns := st.turns + [CardTurn(st.pending)], pending := []), [])
  {
    var t := st.(turns := st.turns + [CardTurn(st.pending)], pending := []);
    TurnAdded(st.turns, CardTurn(st.pending));
    assert RejectedKeys(st.turns) + [] == RejectedKeys(st.turns);
    assert Numbers(t.turns) + t.pending == Numbers(st.turns) + st.pending;
    SameKeys(st, t);
  }

  lemma FlushAllStep(st: State)
    ensures Step(st, FlushAll(st), [])
  {
    var s := FlushText(st);
    FlushTextStep(st);
    if s.pending != [] {
      ShowCardsStep(s);
      QuietThen(st, s, FlushAll(st), []);
    }
  }

  lemma SingleItem(item: DocItem)
    ensures KeysIn([item]) == if item.Card? then [Key(item.call, item.id)] else []
  {
    assert [item][..0] == [];
  }

  /** What is not a card adds no key. */
  lemma Read(s: State, t: State, item: DocItem)
    requires Step(s, t, []) && !item.Card?
    ensures Step(s, t, [item])
  {
    SingleItem(item);
  }

  // ---- Cards come, are answered, are rejected ----

  lemma KeysAtAppend(shown: seq<nat>, ks: seq<Key>, k: Key)
    requires Increasing(shown, |ks|)
    ensures KeysAt(shown + [|ks|], ks + [k]) == KeysAt(shown, ks) + [k]
  {
  }

  lemma CardAccounted(shown: seq<nat>, rejected: seq<Key>, ks: seq<Key>, k: Key)
    requires Accounted(shown, rejected, ks)
    ensures Accounted(shown + [|ks|], rejected, ks + [k])
  {
    KeysAtAppend(shown, ks, k);
  }

  lemma AddCardStep(st: State, card: Item)
    ensures Step(st, st.(cards := st.cards + [card], pending := st.pending + [|st.cards|],
                         byId := st.byId[card.toolUseId := |st.cards|]),
                 [Card(card.kind, card.toolUseId)])
  {
    var t := st.(cards := st.cards + [card], pending := st.pending + [|st.cards|],
                 byId := st.byId[card.toolUseId := |st.cards|]);
    var item := Card(card.kind, card.toolUseId);
    var k := Key(item.call, item.id);
    SingleItem(item);
    assert CardKeys(t.cards) == CardKeys(st.cards) + [k];
    ConcatAssoc(Numbers(st.turns), st.pending, [|st.cards|]);
    if Balanced(st) {
      CardAccounted(Numbers(st.turns) + st.pending, RejectedKeys(st.turns), CardKeys(st.cards), k);
    }
  }

  lemma KeysAtRemove(shown: seq<nat>, ks: seq<Key>, i: nat)
    requires Increasing(shown, |ks|) && i < |shown|
    ensures Increasing(shown[..i] + shown[i + 1..], |ks|)
    ensures KeysAt(shown[..i] + shown[i + 1..], ks) == KeysAt(shown, ks)[..i] + KeysAt(shown, ks)[i + 1..]
  {
  }

  lemma RemoveFromBag<T>(s: seq<T>, i: nat)
    requires i < |s|
    ensures multiset(s[..i] + s[i + 1..]) + multiset{s[i]} == multiset(s)
  {
    assert s == s[..i] + [s[i]] + s[i + 1..];
  }

  lemma RejectAccounted(shown: seq<nat>, rejected: seq<Key>, ks: seq<Key>, i: nat)
    requires Accounted(shown, rejected, ks) && i < |shown|
    ensures Accounted(shown[..i] + shown[i + 1..], rejected + [ks[shown[i]]], ks)
  {
    KeysAtRemove(shown, ks, i);
    RemoveFromBag(KeysAt(shown, ks), i);
  }

  lemma RemoveAfter<T>(a: seq<T>, b: seq<T>, i: nat)
    requires i < |b|
    ensures a + (b[..i] + b[i + 1..]) == (a + b)[..|a| + i] + (a + b)[|a| + i + 1..]
    ensures (a + b)[|a| + i] == b[i]
  {
  }

  lemma RejectWaiting(shown: seq<nat>, pending: seq<nat>, rejected: seq<Key>, ks: seq<Key>, i: nat)
    requires i < |pending| && pending[i] < |ks|
    requires Accounted(shown + pending, rejected, ks)
    ensures Accounted(shown + (pending[..i] + pending[i + 1..]), rejected + [ks[pending[i]]], ks)
  {
    RemoveAfter(shown, pending, i);
    RejectAccounted(shown + pending, rejected, ks, |shown| + i);
  }

  lemma RejectKeepsBalance(turns: seq<Turn>, pending: seq<nat>, ks: seq<Key>, i: nat, turn: Turn)
    requires i < |pending| && pending[i] < |ks|
    requires turn.RejectedTurn? && ks[pending[i]] == Key(turn.call, turn.toolUseId)
    requires Accounted(Numbers(turns) + pending, RejectedKeys(turns), ks)
    ensures Accounted(Numbers(turns + [turn]) + (pending[..i] + pending[i + 1..]), RejectedKeys(turns + [turn]), ks)
  {
    TurnAdded(turns, turn);
    assert Numbers(turns) + [] == Numbers(turns);
    RejectWaiting(Numbers(turns), pending, RejectedKeys(turns), ks, i);
  }

  /** A waiting card becomes a rejected tool turn. */
  lemma RejectCardStep(st: State, i: nat, time: Option<string>)
    requires i < |st.pending| && st.pending[i] < |st.cards|
    ensures var c := st.cards[st.pending[i]];
            Step(st, st.(pending := st.pending[..i] + st.pending[i + 1..],
                         turns := st.turns + [RejectedTurn(c.kind, c.toolUseId, time)]), [])
  {
    var c := st.cards[st.pending[i]];
    var turn := RejectedTurn(c.kind, c.toolUseId, time);
    SameKeys(st, st);
    if Balanced(st) {
      RejectKeepsBalance(st.turns, st.pending, CardKeys(st.cards), i, turn);
    }
  }

  lemma AnswerCardStep(st: State, n: nat, card: Item)
    requires n < |st.cards| && card.kind == st.cards[n].kind && card.toolUseId == st.cards[n].toolUseId
    ensures Step(st, st.(cards := st.cards[n := card]), [])
  {
    assert CardKeys(st.cards[n := card]) == CardKeys(st.cards);
    StandStill(st, st.(cards := st.cards[n := card]));
  }

  // ---- The parser's own steps ----

  lemma FeedBlockStep(st: State, b: AgentBlock, uuid: Option<string>, time: Option<string>)
    ensures Step(st, FeedBlock(st, b, uuid, time), ItemOf(b, uuid, time))
  {
    StandStill(st, st);
    match b
    case AgentText(text) =>
      StandStill(st, AddText(st, text, uuid, time));
      Read(st, AddText(st, text, uuid, time), Prose(text, uuid, time));
    case OtherAgentBlock =>
    case ToolUse(tool, id, _, _, _) =>
      var s := FlushText(st);
      FlushTextStep(st);
      if Interactive(tool) {
        AddCardStep(s, NewCard(b));
        QuietThen(st, s, FeedBlock(st, b, uuid, time), ItemOf(b, uuid, time));
      } else if !tool.SearchTool? {
        AddTurnStep(s, ToolTurn(tool, id, time));
        Read(s, FeedBlock(st, b, uuid, time), Call(tool, id, time));
        QuietThen(st, s, FeedBlock(st, b, uuid, time), ItemOf(b, uuid, time));
      }
  }

  lemma {:induction false} FeedBlocksStep(st: State, bs: seq<AgentBlock>, uuid: Option<string>, time: Option<string>)
    ensures Step(st, FeedBlocks(st, bs, uuid, time), ItemsOf(bs, uuid, time))
  {
    if bs == [] {
      StandStill(st, st);
    } else {
      var s := FeedBlocks(st, bs[..|bs| - 1], uuid, time);
      FeedBlocksStep(st, bs[..|bs| - 1], uuid, time);
      FeedBlockStep(s, bs[|bs| - 1], uuid, time);
      Then(st, s, FeedBlocks(st, bs, uuid, time), ItemsOf(bs[..|bs| - 1], uuid, time), ItemOf(bs[|bs| - 1], uuid, time));
    }
  }

  lemma RejectStep(st: State, id: string, time: Option<string>)
    requires Sound(st) && id in st.byId
    ensures Step(st, Reject(st, id, time), [])
  {
    var f := st.(byId := st.byId - {id});
    StandStill(st, f);
    match FirstEqual(st.cards, st.pending, st.cards[st.byId[id]])
    case None =>
    case Some(i) =>
      var s := FlushText(f);
      FlushTextStep(f);
      FlushTextFrame(f);
      RejectCardStep(s, i, time);
      RejectFlushesFirst(st, id, time, i);
      QuietThen(st, f, s, []);
      QuietThen(st, s, Reject(st, id, time), []);
  }

  /** Taking the card out and flushing the text commute. */
  lemma RejectFlushesFirst(st: State, id: string, time: Option<string>, i: nat)
    requires Sound(st) && id in st.byId && FirstEqual(st.cards, st.pending, st.cards[st.byId[id]]) == Some(i)
    ensures var s := FlushText(st.(byId := st.byId - {id}));
            Reject(st, id, time)
            == s.(pending := s.pending[..i] + s.pending[i + 1..],
                  turns := s.turns + [RejectedTurn(st.cards[st.byId[id]].kind, id, time)])
  {
  }

  lemma AnswerStep(st: State, id: string, answer: string)
    requires Sound(st) && id in st.byId
    ensures Step(st, Answer(st, id, answer), [])
  {
    var n := st.byId[id];
    var card := DeriveSelected(st.cards[n].(answer := Some(answer)));
    DeriveOnlyFills(st.cards[n].(answer := Some(answer)));
    AnswerCardStep(st, n, card);
    FlushAllStep(st.(cards := st.cards[n := card]));
    QuietThen(st, st.(cards := st.cards[n := card]), Answer(st, id, answer), []);
  }

  lemma FeedResultStep(st: State, b: UserBlock, time: Option<string>)
    requires Sound(st)
    ensures Step(st, FeedResult(st, b, time), [])
  {
    StandStill(st, st);
    if b.ToolResult? && b.toolUseId in st.byId {
      RejectStep(st, b.toolUseId, time);
      AnswerStep(st, b.toolUseId, ResultOf(b.result));
    }
  }

  lemma {:induction false} FeedResultsStep(st: State, bs: seq<UserBlock>, time: Option<string>)
    requires Sound(st)
    ensures Step(st, FeedResults(st, bs, time), [])
  {
    if bs == [] {
      StandStill(st, st);
    } else {
      var s, b := FeedResults(st, bs[..|bs| - 1], time), bs[|bs| - 1];
      FeedResultsStep(st, bs[..|bs| - 1], time);
      FeedResultStep(s, b, time);
      QuietThen(st, s, FeedResults(st, bs, time), []);
    }
  }

  lemma FlushThenSay(st: State, turn: Turn)
    requires turn.UserTurn? || turn.SystemTurn?
    ensures Step(st, FlushAll(st).(turns := FlushAll(st).turns + [turn]), [Heard(turn)])
  {
    var s := FlushAll(st);
    FlushAllStep(st);
    AddTurnStep(s, turn);
    Read(s, s.(turns := s.turns + [turn]), Heard(turn));
    QuietThen(st, s, s.(turns := s.turns + [turn]), [Heard(turn)]);
  }

  lemma EmitStep(st: State, turn: Option<Turn>)
    requires turn.Some? ==> turn.value.UserTurn? || turn.value.SystemTurn?
    ensures Step(st, Emit(st, turn), HeardItems(turn))
  {
    if turn.None? {
      StandStill(st, st);
    } else {
      FlushThenSay(st, turn.value);
    }
  }

  lemma TurnForKind(kind: UserTextKind, content: string, uuid: Option<string>, time: Option<string>)
    ensures var t := TurnFor(kind, content, uuid, time);
            t.Some? ==> t.value.UserTurn? || t.value.SystemTurn?
  {
  }

  lemma UserTurnKind(content: string, uuid: Option<string>, time: Option<string>)
    ensures var t := UserTurnOf(content, uuid, time);
            t.Some? ==> t.value.UserTurn? || t.value.SystemTurn?
  {
    TurnForKind(Classify(Strip(content)), content, uuid, time);
  }

  lemma FeedUserStep(st: State, isMeta: bool, content: UserContent, uuid: Option<string>, time: Option<string>)
    requires Sound(st)
    ensures Step(st, FeedUser(st, isMeta, content, uuid, time), UserItems(isMeta, content, uuid, time))
  {
    if isMeta || content.NoContent? {
      StandStill(st, st);
    } else if content.Text? {
      UserTurnKind(content.text, uuid, time);
      EmitStep(st, UserTurnOf(content.text, uuid, time));
    } else if HasToolResult(content.blocks) {
      FeedResultsStep(st, content.blocks, time);
    } else {
      var text := Strip(Join(UserTexts(content.blocks), "\n"));
      UserTurnKind(text, uuid, time);
      EmitStep(st, UserTurnOf(text, uuid, time));
    }
  }

  lemma FeedSystemStep(st: State, subtype: Subtype, text: string, uuid: Option<string>, time: Option<string>)
    ensures Step(st, FeedSystem(st, subtype, text, uuid, time), SystemItems(subtype, text, uuid, time))
  {
    if subtype.TurnDuration? {
      StandStill(st, st);
    } else {
      FlushAllStep(st);
      var turn := SystemTurnOf(subtype, text, uuid, time);
      if turn.Some? {
        FlushThenSay(st, turn.value);
      }
    }
  }

  lemma FeedStep(st: State, line: Line)
    requires Sound(st)
    ensures Step(st, Feed(st, line), LineItems(line))
  {
    StandStill(st, st);
    if line.Parsed? {
      var e := line.entry;
      match e.body
      case UserBody(isMeta, content) => FeedUserStep(st, isMeta, content, e.uuid, e.timestamp);
      case AgentBody(subagent, synthetic, rateLimited, bs) =>
        EmitStep(st, Some(SystemTurn(RateLimitText(bs), RateLimit, Own(e.uuid), e.timestamp)));
        FeedBlocksStep(st, bs, e.uuid, e.timestamp);
      case SystemBody(subtype, text) => FeedSystemStep(st, subtype, text, e.uuid, e.timestamp);
      case OtherBody(_) =>
    }
  }

  /** Whole runs, from any state the parser can be in. */
  lemma {:induction false} FeedAllStep(st: State, lines: seq<Line>)
    requires Sound(st)
    ensures Step(st, FeedAll(st, lines), Document(lines))
  {
    if lines == [] {
      StandStill(st, st);
    } else {
      var s, line := FeedAll(st, lines[..|lines| - 1]), lines[|lines| - 1];
      FeedAllStep(st, lines[..|lines| - 1]);
      FeedStep(s, line);
      Then(st, s, FeedAll(st, lines), Document(lines[..|lines| - 1]), LineItems(line));
    }
  }
}
