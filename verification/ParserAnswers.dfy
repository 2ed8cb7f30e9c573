/**
 What becomes of a card: the results for its id that arrive while the parser's table points
 to it are applied to it one after the other, and nothing else ever changes it.
 */
module ParserAnswers {
  import opened Collections
  import opened Strings
  import opened InteractiveItems
  import opened Transcript
  import opened SessionParser
  import opened ParserSteps

  // ---- What happens, in the order of the document ----

  datatype Event =
    | Worded(text: string, uuid: Option<string>, time: Option<string>)  // the agent says something
    | Opened(card: Item)                                               // an interactive call
    | Acted(tool: Tool, id: string, time: Option<string>)              // any other call
    | Came(result: UserBlock)                                          // a tool result
    | Uttered(turn: Option<Turn>)                                      // the user or the system, perhaps without a turn

  function BlockEvents(b: AgentBlock, uuid: Option<string>, time: Option<string>): seq<Event> {
    match b
    case AgentText(text) => if ShownText(text) then [Worded(text, uuid, time)] else []
    case OtherAgentBlock => []
    case ToolUse(tool, id, _, _, _) =>
      if Interactive(tool) then [Opened(NewCard(b))] else [Acted(tool, id, time)]
  }

  function BlocksEvents(bs: seq<AgentBlock>, uuid: Option<string>, time: Option<string>): seq<Event> {
    if bs == [] then []
    else BlocksEvents(bs[..|bs| - 1], uuid, time) + BlockEvents(bs[|bs| - 1], uuid, time)
  }

  function ResultEvents(bs: seq<UserBlock>): seq<Event> {
    if bs == [] then []
    else ResultEvents(bs[..|bs| - 1]) + (if bs[|bs| - 1].ToolResult? then [Came(bs[|bs| - 1])] else [])
  }

  function TurnEvents(turn: Option<Turn>): seq<Event> {
    if turn.Some? then [Uttered(turn)] else []
  }

  function UserEvents(isMeta: bool, content: UserContent, uuid: Option<string>, time: Option<string>): seq<Event> {
    if isMeta then []
    else match content
      case NoContent => []
      case Text(text) => TurnEvents(UserTurnOf(text, uuid, time))
      case BlockList(bs) =>
        if HasToolResult(bs) then ResultEvents(bs)
        else TurnEvents(UserTurnOf(Strip(Join(UserTexts(bs), "\n")), uuid, time))
  }

  function LineEvents(line: Line): seq<Event> {
    if line.Unparsed? then []
    else
      var e := line.entry;
      match e.body
      case UserBody(isMeta, content) => UserEvents(isMeta, content, e.uuid, e.timestamp)
      case AgentBody(subagent, synthetic, rateLimited, bs) =>
        if subagent || synthetic then []
        else if rateLimited then [Uttered(Some(SystemTurn(RateLimitText(bs), RateLimit, Own(e.uuid), e.timestamp)))]
        else BlocksEvents(bs, e.uuid, e.timestamp)
      case SystemBody(subtype, text) =>
        if subtype.TurnDuration? then [] else [Uttered(SystemTurnOf(subtype, text, e.uuid, e.timestamp))]
      case OtherBody(_) => []
  }

  function Events(lines: seq<Line>): seq<Event> {
    if lines == [] then [] else Events(lines[..|lines| - 1]) + LineEvents(lines[|lines| - 1])
  }

  // ---- The life of one card ----

  /** A result that is a validation error: the call never reached the user. */
  predicate Refusal(b: UserBlock)
    requires b.ToolResult?
  {
    RejectedByValidation(b.isError, ResultOf(b.result))
  }

  /** The results that reach a card of this id, from the time it is the last one of the id: up to a
      refusal, or to the next call of the same id. */
  function Reaching(evs: seq<Event>, id: string): (bs: seq<UserBlock>)
    ensures forall i :: 0 <= i < |bs| ==> bs[i].ToolResult? && bs[i].toolUseId == id && !Refusal(bs[i])
  {
    if evs == [] then []
    else match evs[0]
      case Opened(card) => if card.toolUseId == id then [] else Reaching(evs[1..], id)
      case Came(b) =>
        if !b.ToolResult? || b.toolUseId != id then Reaching(evs[1..], id)
        else if Refusal(b) then []
        else [b] + Reaching(evs[1..], id)
      case _ => Reaching(evs[1..], id)
  }

  /** None of these events takes the id away from the card that has it. */
  predicate StaysOpen(evs: seq<Event>, id: string) {
    forall i :: 0 <= i < |evs| ==> !Takes(evs[i], id)
  }

  predicate Takes(e: Event, id: string) {
    match e
    case Opened(card) => card.toolUseId == id
    case Came(b) => b.ToolResult? && b.toolUseId == id && Refusal(b)
    case _ => false
  }

  /** The answer is set and the selection derived from it. */
  function Answered(card: Item, b: UserBlock): Item
    requires b.ToolResult?
  {
    DeriveSelected(card.(answer := Some(ResultOf(b.result))))
  }

  function Apply(card: Item, bs: seq<UserBlock>): Item
    requires forall i :: 0 <= i < |bs| ==> bs[i].ToolResult?
  {
    if bs == [] then card else Answered(Apply(card, bs[..|bs| - 1]), bs[|bs| - 1])
  }

  lemma AnsweredKeeps(card: Item, b: UserBlock)
    requires b.ToolResult?
    ensures Answered(card, b).toolUseId == card.toolUseId && Answered(card, b).kind == card.kind
    ensures Answered(card, b).answer == Some(ResultOf(b.result))
  {
    DeriveOnlyFills(card.(answer := Some(ResultOf(b.result))));
  }

  lemma {:induction false} ApplyFirst(card: Item, b: UserBlock, bs: seq<UserBlock>)
    requires b.ToolResult? && forall i :: 0 <= i < |bs| ==> bs[i].ToolResult?
    ensures forall i :: 0 <= i < |[b] + bs| ==> ([b] + bs)[i].ToolResult?
    ensures Apply(card, [b] + bs) == Apply(Answered(card, b), bs)
  {
    var all := [b] + bs;
    if bs == [] {
      assert all == [b] && all[..0] == [];
    } else {
      ApplyFirst(card, b, bs[..|bs| - 1]);
      assert all[..|all| - 1] == [b] + bs[..|bs| - 1];
    }
  }

  // ---- The parser's cards, its table and the cards not shown yet ----

  datatype Desk = Desk(cards: seq<Item>, table: map<string, nat>, waiting: seq<nat>)

  ghost predicate Consistent(d: Desk) {
    && (forall id :: id in d.table ==> d.table[id] < |d.cards| && d.cards[d.table[id]].toolUseId == id)
    && (forall i :: 0 <= i < |d.waiting| ==> d.waiting[i] < |d.cards|)
  }

  /** The result concerns a card of the table. */
  predicate Concerns(d: Desk, b: UserBlock) {
    b.ToolResult? && b.toolUseId in d.table
  }

  /** Where the card a result is for waits, if it does. */
  function Place(d: Desk, b: UserBlock): Option<nat>
    requires Consistent(d) && Concerns(d, b)
  {
    FirstEqual(d.cards, d.waiting, d.cards[d.table[b.toolUseId]])
  }

  function Handle(d: Desk, e: Event): Desk
    requires Consistent(d)
  {
    match e
    case Worded(_, _, _) => d
    case Acted(_, _, _) => d
    case Uttered(_) => d.(waiting := [])
    case Opened(card) => Desk(d.cards + [card], d.table[card.toolUseId := |d.cards|], d.waiting + [|d.cards|])
    case Came(b) =>
      if !Concerns(d, b) then d
      else if Refusal(b) then
        d.(table := d.table - {b.toolUseId},
           waiting := if Place(d, b).Some? then d.waiting[..Place(d, b).value] + d.waiting[Place(d, b).value + 1..]
                      else d.waiting)
      else
        var n := d.table[b.toolUseId];
        d.(cards := d.cards[n := Answered(d.cards[n], b)], waiting := [])
  }

  lemma HandleKeepsConsistent(d: Desk, e: Event)
    requires Consistent(d)
    ensures Consistent(Handle(d, e))
  {
    if e.Came? && Concerns(d, e.result) {
      AnsweredKeeps(d.cards[d.table[e.result.toolUseId]], e.result);
    }
  }

  function HandleAll(d: Desk, evs: seq<Event>): (r: Desk)
    requires Consistent(d)
    ensures Consistent(r)
    decreases |evs|
  {
    if evs == [] then d
    else
      HandleKeepsConsistent(d, evs[0]);
      HandleAll(Handle(d, evs[0]), evs[1..])
  }

  lemma {:induction false} HandleSplit(d: Desk, a: seq<Event>, b: seq<Event>)
    requires Consistent(d)
    ensures HandleAll(d, a + b) == HandleAll(HandleAll(d, a), b)
    decreases |a|
  {
    if a == [] {
      assert a + b == b;
    } else {
      HandleKeepsConsistent(d, a[0]);
      HandleSplit(Handle(d, a[0]), a[1..], b);
      assert (a + b)[1..] == a[1..] + b && (a + b)[0] == a[0];
    }
  }

  lemma HandleOne(d: Desk, e: Event)
    requires Consistent(d)
    ensures HandleAll(d, [e]) == Handle(d, e)
  {
    HandleKeepsConsistent(d, e);
    assert [e][1..] == [];
  }

  function DeskOf(st: State): Desk {
    Desk(st.cards, st.byId, st.pending)
  }

  lemma FlushLeavesDesk(st: State)
    ensures DeskOf(FlushText(st)) == DeskOf(st) && DeskOf(FlushAll(st)) == DeskOf(st).(waiting := [])
  {
  }

  lemma BlockDesk(st: State, b: AgentBlock, uuid: Option<string>, time: Option<string>)
    requires Sound(st)
    ensures DeskOf(FeedBlock(st, b, uuid, time)) == HandleAll(DeskOf(st), BlockEvents(b, uuid, time))
  {
    FlushLeavesDesk(st);
    if BlockEvents(b, uuid, time) != [] {
      HandleOne(DeskOf(st), BlockEvents(b, uuid, time)[0]);
    }
  }

  lemma {:induction false} BlocksDesk(st: State, bs: seq<AgentBlock>, uuid: Option<string>, time: Option<string>)
    requires Sound(st)
    ensures DeskOf(FeedBlocks(st, bs, uuid, time)) == HandleAll(DeskOf(st), BlocksEvents(bs, uuid, time))
  {
    if bs != [] {
      var s := FeedBlocks(st, bs[..|bs| - 1], uuid, time);
      FeedBlocksKeepsSound(st, bs[..|bs| - 1], uuid, time);
      BlocksDesk(st, bs[..|bs| - 1], uuid, time);
      BlockDesk(s, bs[|bs| - 1], uuid, time);
      HandleSplit(DeskOf(st), BlocksEvents(bs[..|bs| - 1], uuid, time), BlockEvents(bs[|bs| - 1], uuid, time));
    }
  }

  lemma ResultDesk(st: State, b: UserBlock, time: Option<string>)
    requires Sound(st) && b.ToolResult?
    ensures DeskOf(FeedResult(st, b, time)) == Handle(DeskOf(st), Came(b))
  {
    if b.toolUseId in st.byId {
      if Refusal(b) {
        RefusalDesk(st, b, time);
      } else {
        AnswerDesk(st, b.toolUseId, ResultOf(b.result));
      }
    }
  }

  lemma RefusalDesk(st: State, b: UserBlock, time: Option<string>)
    requires Sound(st) && Concerns(DeskOf(st), b) && Refusal(b)
    ensures DeskOf(Reject(st, b.toolUseId, time)) == Handle(DeskOf(st), Came(b))
  {
    match FirstEqual(st.cards, st.pending, st.cards[st.byId[b.toolUseId]])
    case None =>
    case Some(i) => FlushLeavesDesk(st.(byId := st.byId - {b.toolUseId}, pending := st.pending[..i] + st.pending[i + 1..]));
  }

  lemma AnswerDesk(st: State, id: string, answer: string)
    requires Sound(st) && id in st.byId
    ensures DeskOf(Answer(st, id, answer))
            == Desk(st.cards[st.byId[id] := DeriveSelected(st.cards[st.byId[id]].(answer := Some(answer)))], st.byId, [])
  {
    var n := st.byId[id];
    FlushLeavesDesk(st.(cards := st.cards[n := DeriveSelected(st.cards[n].(answer := Some(answer)))]));
  }

  lemma {:induction false} ResultsDesk(st: State, bs: seq<UserBlock>, time: Option<string>)
    requires Sound(st)
    ensures DeskOf(FeedResults(st, bs, time)) == HandleAll(DeskOf(st), ResultEvents(bs))
  {
    if bs != [] {
      var init, b := bs[..|bs| - 1], bs[|bs| - 1];
      var s := FeedResults(st, init, time);
      ResultsDesk(st, init, time);
      HandleSplit(DeskOf(st), ResultEvents(init), if b.ToolResult? then [Came(b)] else []);
      if b.ToolResult? {
        ResultDesk(s, b, time);
        HandleOne(DeskOf(s), Came(b));
      }
    }
  }

  lemma EmitDesk(st: State, turn: Option<Turn>)
    requires Sound(st)
    ensures DeskOf(Emit(st, turn)) == HandleAll(DeskOf(st), TurnEvents(turn))
  {
    FlushLeavesDesk(st);
    HandleOne(DeskOf(st), Uttered(turn));
  }

  lemma UserDesk(st: State, isMeta: bool, content: UserContent, uuid: Option<string>, time: Option<string>)
    requires Sound(st)
    ensures DeskOf(FeedUser(st, isMeta, content, uuid, time)) == HandleAll(DeskOf(st), UserEvents(isMeta, content, uuid, time))
  {
    if content.Text? {
      EmitDesk(st, UserTurnOf(content.text, uuid, time));
    } else if content.BlockList? {
      ResultsDesk(st, content.blocks, time);
      EmitDesk(st, UserTurnOf(Strip(Join(UserTexts(content.blocks), "\n")), uuid, time));
    }
  }

  lemma SystemDesk(st: State, subtype: Subtype, text: string, uuid: Option<string>, time: Option<string>)
    requires Sound(st) && !subtype.TurnDuration?
    ensures DeskOf(FeedSystem(st, subtype, text, uuid, time))
            == HandleAll(DeskOf(st), [Uttered(SystemTurnOf(subtype, text, uuid, time))])
  {
    FlushLeavesDesk(st);
    HandleOne(DeskOf(st), Uttered(SystemTurnOf(subtype, text, uuid, time)));
  }

  lemma LineDesk(st: State, line: Line)
    requires Sound(st)
    ensures DeskOf(Feed(st, line)) == HandleAll(DeskOf(st), LineEvents(line))
  {
    if line.Parsed? {
      var e := line.entry;
      match e.body
      case UserBody(isMeta, content) => UserDesk(st, isMeta, content, e.uuid, e.timestamp);
      case AgentBody(_, _, _, bs) =>
        BlocksDesk(st, bs, e.uuid, e.timestamp);
        EmitDesk(st, Some(SystemTurn(RateLimitText(bs), RateLimit, Own(e.uuid), e.timestamp)));
      case SystemBody(subtype, text) =>
        if !subtype.TurnDuration? { SystemDesk(st, subtype, text, e.uuid, e.timestamp); }
      case OtherBody(_) =>
    }
  }

  /** The parser's cards and table are those of the events alone. */
  lemma {:induction false} ParserDesk(st: State, lines: seq<Line>)
    requires Sound(st)
    ensures DeskOf(FeedAll(st, lines)) == HandleAll(DeskOf(st), Events(lines))
  {
    if lines != [] {
      var init, line := lines[..|lines| - 1], lines[|lines| - 1];
      ParserDesk(st, init);
      LineDesk(FeedAll(st, init), line);
      HandleSplit(DeskOf(st), Events(init), LineEvents(line));
    }
  }

  // ---- One card through all events ----

  ghost predicate Points(d: Desk, n: nat) {
    n < |d.cards| && d.cards[n].toolUseId in d.table && d.table[d.cards[n].toolUseId] == n
  }

  lemma HandleCard(d: Desk, e: Event, n: nat)
    requires Consistent(d) && n < |d.cards|
    ensures var d', id := Handle(d, e), d.cards[n].toolUseId;
            && n < |d'.cards| && d'.cards[n].toolUseId == id
            && d'.cards[n] == (if e.Came? && e.result.ToolResult? && e.result.toolUseId == id && Points(d, n) && !Refusal(e.result)
                               then Answered(d.cards[n], e.result) else d.cards[n])
            && (Points(d', n) <==> Points(d, n) && !Takes(e, id))
  {
    if e.Came? && Concerns(d, e.result) {
      AnsweredKeeps(d.cards[d.table[e.result.toolUseId]], e.result);
    }
  }

  lemma StaysOpenFirst(evs: seq<Event>, id: string)
    requires evs != []
    ensures StaysOpen(evs, id) <==> !Takes(evs[0], id) && StaysOpen(evs[1..], id)
  {
    assert forall i :: 1 <= i < |evs| ==> evs[i] == evs[1..][i - 1];
  }

  /** Whatever happens, a card ends as the results that reach it make it. */
  lemma {:induction false} CardThrough(d: Desk, evs: seq<Event>, n: nat)
    requires Consistent(d) && n < |d.cards|
    ensures var r, id := HandleAll(d, evs), d.cards[n].toolUseId;
            && n < |r.cards|
            && r.cards[n] == Apply(d.cards[n], if Points(d, n) then Reaching(evs, id) else [])
            && (Points(r, n) <==> Points(d, n) && StaysOpen(evs, id))
    decreases |evs|
  {
    if evs != [] {
      var id, e, d' := d.cards[n].toolUseId, evs[0], Handle(d, evs[0]);
      HandleKeepsConsistent(d, e);
      HandleCard(d, e, n);
      CardThrough(d', evs[1..], n);
      StaysOpenFirst(evs, id);
      if Points(d, n) && e.Came? && e.result.ToolResult? && e.result.toolUseId == id && !Refusal(e.result) {
        ApplyFirst(d.cards[n], e.result, Reaching(evs[1..], id));
      }
    }
  }

  // ---- Whole documents ----

  const CLEAR := Desk([], map[], [])

  function DeskAfter(lines: seq<Line>): Desk {
    HandleAll(CLEAR, Events(lines))
  }

  lemma ParsedDesk(lines: seq<Line>)
    ensures Parse(lines).cards == DeskAfter(lines).cards
  {
    ParserDesk(START, lines);
    FlushLeavesDesk(FeedAll(START, lines));
  }

  /** The card is the last of its id and has not been refused. */
  ghost predicate Answerable(lines: seq<Line>, n: nat) {
    Points(DeskAfter(lines), n)
  }

  ghost predicate FreshCard(e: Event) {
    e.Opened? ==> e.card.answer == None && e.card.selectedIndex == None && e.card.selected == map[]
  }

  ghost predicate AllFresh(evs: seq<Event>) {
    forall i :: 0 <= i < |evs| ==> FreshCard(evs[i])
  }

  lemma {:induction false} BlocksOpenFresh(bs: seq<AgentBlock>, uuid: Option<string>, time: Option<string>)
    ensures AllFresh(BlocksEvents(bs, uuid, time))
  {
    if bs != [] {
      BlocksOpenFresh(bs[..|bs| - 1], uuid, time);
    }
  }

  lemma {:induction false} ResultsOpenNothing(bs: seq<UserBlock>)
    ensures AllFresh(ResultEvents(bs))
  {
    if bs != [] {
      ResultsOpenNothing(bs[..|bs| - 1]);
    }
  }

  lemma LineOpensFresh(line: Line)
    ensures AllFresh(LineEvents(line))
  {
    if line.Parsed? {
      var e := line.entry;
      match e.body
      case UserBody(_, content) => if content.BlockList? { ResultsOpenNothing(content.blocks); }
      case AgentBody(_, _, _, bs) => BlocksOpenFresh(bs, e.uuid, e.timestamp);
      case _ =>
    }
  }

  lemma {:induction false} CardsOpenFresh(lines: seq<Line>)
    ensures AllFresh(Events(lines))
  {
    if lines != [] {
      CardsOpenFresh(lines[..|lines| - 1]);
      LineOpensFresh(lines[|lines| - 1]);
    }
  }

  /** Of the results that reach a card the last one is its answer. */
  lemma LastResultAnswers(card: Item, bs: seq<UserBlock>)
    requires forall i :: 0 <= i < |bs| ==> bs[i].ToolResult?
    ensures Apply(card, bs).answer == if bs == [] then card.answer else Some(ResultOf(bs[|bs| - 1].result))
  {
    if bs != [] {
      AnsweredKeeps(Apply(card, bs[..|bs| - 1]), bs[|bs| - 1]);
    }
  }

  /** A selection once made stays, whatever answers follow. */
  lemma {:induction false} FirstSelectionStays(card: Item, bs: seq<UserBlock>)
    requires forall i :: 0 <= i < |bs| ==> bs[i].ToolResult?
    ensures card.selectedIndex.Some? ==> Apply(card, bs).selectedIndex == card.selectedIndex
    ensures forall q :: q in card.selected ==> q in Apply(card, bs).selected && Apply(card, bs).selected[q] == card.selected[q]
  {
    if bs != [] {
      var before := Apply(card, bs[..|bs| - 1]);
      FirstSelectionStays(card, bs[..|bs| - 1]);
      DeriveOnlyFills(before.(answer := Some(ResultOf(bs[|bs| - 1].result))));
    }
  }

  lemma SplitEvents(evs: seq<Event>, i: nat)
    requires i < |evs|
    ensures evs == (evs[..i] + [evs[i]]) + evs[i + 1..]
  {
  }

  lemma OpenedHere(d: Desk, e: Event)
    requires Consistent(d) && e.Opened?
    ensures Consistent(Handle(d, e)) && |Handle(d, e).cards| == |d.cards| + 1
    ensures Handle(d, e).cards[|d.cards|] == e.card && Points(Handle(d, e), |d.cards|)
  {
  }

  /** Main result for answers: a card is its call with the results that reach it applied in order, for
      every document. Its answer is that of the last of them, and it can still be answered exactly
      when neither a refusal nor another call of its id has come. */
  lemma CardIsItsResults(lines: seq<Line>, i: nat)
    requires i < |Events(lines)| && Events(lines)[i].Opened?
    ensures var evs := Events(lines);
            var n, card := |HandleAll(CLEAR, evs[..i]).cards|, evs[i].card;
            var reaching := Reaching(evs[i + 1..], card.toolUseId);
            && n < |Parse(lines).cards|
            && Parse(lines).cards[n] == Apply(card, reaching)
            && Parse(lines).cards[n].answer == (if reaching == [] then None else Some(ResultOf(reaching[|reaching| - 1].result)))
            && (Answerable(lines, n) <==> StaysOpen(evs[i + 1..], card.toolUseId))
  {
    var evs := Events(lines);
    var before, card := HandleAll(CLEAR, evs[..i]), evs[i].card;
    ParsedDesk(lines);
    SplitEvents(evs, i);
    HandleSplit(CLEAR, evs[..i] + [evs[i]], evs[i + 1..]);
    HandleSplit(CLEAR, evs[..i], [evs[i]]);
    HandleOne(before, evs[i]);
    OpenedHere(before, evs[i]);
    CardThrough(Handle(before, evs[i]), evs[i + 1..], |before.cards|);
    CardsOpenFresh(lines);
    assert FreshCard(evs[i]);
    LastResultAnswers(card, Reaching(evs[i + 1..], card.toolUseId));
  }

  lemma {:induction false} EventsConcat(a: seq<Line>, b: seq<Line>)
    ensures Events(a + b) == Events(a) + Events(b)
  {
    if b == [] {
      assert a + b == a;
    } else {
      EventsConcat(a, b[..|b| - 1]);
      assert (a + b)[..|a + b| - 1] == a + b[..|b| - 1];
      ConcatAssoc(Events(a), Events(b[..|b| - 1]), LineEvents(b[|b| - 1]));
    }
  }

  /** The results appended in `b` that reach card `n` of `a`. */
  ghost function Further(a: seq<Line>, b: seq<Line>, n: nat): (bs: seq<UserBlock>)
    requires n < |DeskAfter(a).cards|
    ensures forall i :: 0 <= i < |bs| ==> bs[i].ToolResult?
  {
    if Answerable(a, n) then Reaching(Events(b), DeskAfter(a).cards[n].toolUseId) else []
  }

  /** Appending to the file changes a card exactly by the further results that reach it. */
  lemma CardAfterMore(a: seq<Line>, b: seq<Line>, n: nat)
    requires n < |Parse(a).cards|
    ensures n < |DeskAfter(a).cards| && n < |Parse(a + b).cards|
    ensures Parse(a + b).cards[n] == Apply(Parse(a).cards[n], Further(a, b, n))
    ensures Parse(a + b).cards[n].answer
            == (if Further(a, b, n) == [] then Parse(a).cards[n].answer
                else Some(ResultOf(Further(a, b, n)[|Further(a, b, n)| - 1].result)))
  {
    ParsedDesk(a);
    ParsedDesk(a + b);
    EventsConcat(a, b);
    HandleSplit(CLEAR, Events(a), Events(b));
    CardThrough(DeskAfter(a), Events(b), n);
    LastResultAnswers(Parse(a).cards[n], Further(a, b, n));
  }
}
