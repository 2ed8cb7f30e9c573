/**
 What the turns say: the document is cut into runs of texts and single items where the
 parser closes a text, and the turns show run after run, item after item.
 */
module ParserSpeech {
  import opened Collections
  import opened Strings
  import opened InteractiveItems
  import opened Transcript
  import opened SessionParser
  import opened ParserSteps
  import opened ParserAnswers

  datatype Group = Texts(items: seq<DocItem>) | Single(item: DocItem)

  /** What a turn shows: a text under an id and a time, or one item of the document as it is. */
  datatype Utterance = Said(text: string, uuid: Option<string>, time: Option<string>) | Told(item: DocItem)

  function TextOf(item: DocItem): string {
    if item.Prose? then item.text else ""
  }

  function TextsIn(items: seq<DocItem>): (r: seq<string>)
    ensures |r| == |items|
  {
    seq(|items|, i requires 0 <= i < |items| => TextOf(items[i]))
  }

  /** The first id, and the first time, that any of the texts carries. */
  function FirstUuid(items: seq<DocItem>): Option<string> {
    if items == [] then None
    else
      var before, last := FirstUuid(items[..|items| - 1]), items[|items| - 1];
      if before.None? && last.Prose? && Truthy(last.uuid) then last.uuid else before
  }

  function FirstTime(items: seq<DocItem>): Option<string> {
    if items == [] then None
    else
      var before, last := FirstTime(items[..|items| - 1]), items[|items| - 1];
      if before.None? && last.Prose? && Truthy(last.time) then last.time else before
  }

  function Contents(g: Group): seq<DocItem> {
    match g
    case Texts(items) => items
    case Single(item) => [item]
  }

  function Flatten(gs: seq<Group>): seq<DocItem> {
    if gs == [] then [] else Flatten(gs[..|gs| - 1]) + Contents(gs[|gs| - 1])
  }

  /** A run of texts is one utterance; one that is nothing but old exit markers is none. */
  function RenderGroup(g: Group): seq<Utterance> {
    match g
    case Texts(items) =>
      if Render(TextsIn(items)) != "" then [Said(Render(TextsIn(items)), FirstUuid(items), FirstTime(items))] else []
    case Single(item) => [Told(item)]
  }

  function Rendered(gs: seq<Group>): seq<Utterance> {
    if gs == [] then [] else Rendered(gs[..|gs| - 1]) + RenderGroup(gs[|gs| - 1])
  }

  /** What the turns show, cards and rejected calls aside. */
  function Spoken(turns: seq<Turn>): seq<Utterance> {
    if turns == [] then []
    else Spoken(turns[..|turns| - 1]) + SpokenBy(turns[|turns| - 1])
  }

  function SpokenBy(t: Turn): seq<Utterance> {
    match t
    case TextTurn(text, uuid, time) => [Said(text, uuid, time)]
    case ToolTurn(tool, id, time) => [Told(Call(tool, id, time))]
    case UserTurn(_, _, _, _) => [Told(Heard(t))]
    case SystemTurn(_, _, _, _) => [Told(Heard(t))]
    case RejectedTurn(_, _, _) => []
    case CardTurn(_) => []
  }

  /** The document without its cards. */
  function Spoke(items: seq<DocItem>): seq<DocItem> {
    if items == [] then []
    else Spoke(items[..|items| - 1]) + (if items[|items| - 1].Card? then [] else [items[|items| - 1]])
  }

  ghost predicate AllProse(items: seq<DocItem>) {
    forall i :: 0 <= i < |items| ==> items[i].Prose?
  }

  ghost predicate Proper(g: Group) {
    match g
    case Texts(items) => items != [] && AllProse(items)
    case Single(item) => item.Call? || item.Heard?
  }

  ghost predicate ProperGroups(gs: seq<Group>) {
    forall i :: 0 <= i < |gs| ==> Proper(gs[i])
  }

  /** The texts collected but not yet shown, with the id and the time they will get. */
  ghost predicate Open(st: State, items: seq<DocItem>) {
    && AllProse(items) && TextsIn(items) == st.parts
    && FirstUuid(items) == st.textUuid && FirstTime(items) == st.textTime
  }

  // ---- The cuts ----

  /** A text is closed by any call, by what the user or the system says, by a result that answers a
      card, and by one that refuses a card not shown yet. */
  predicate Cuts(d: Desk, e: Event)
    requires Consistent(d)
  {
    match e
    case Worded(_, _, _) => false
    case Opened(_) => true
    case Acted(_, _, _) => true
    case Uttered(_) => true
    case Came(b) => Concerns(d, b) && (Refusal(b) ==> Place(d, b).Some?)
  }

  /** What the event shows as a turn of its own. */
  function Alone(e: Event): Option<DocItem> {
    match e
    case Acted(tool, id, time) => if tool.SearchTool? then None else Some(Call(tool, id, time))
    case Uttered(turn) => if turn.Some? then Some(Heard(turn.value)) else None
    case _ => None
  }

  /** The groups so far, and the texts since the last cut. */
  datatype Page = Page(groups: seq<Group>, open: seq<DocItem>)

  const BLANK := Page([], [])

  function Close(p: Page): Page {
    if p.open == [] then p else Page(p.groups + [Texts(p.open)], [])
  }

  function Append(p: Page, item: Option<DocItem>): Page {
    if item.Some? then p.(groups := p.groups + [Single(item.value)]) else p
  }

  function Write(d: Desk, p: Page, e: Event): Page
    requires Consistent(d)
  {
    match e
    case Worded(text, uuid, time) => p.(open := p.open + [Prose(text, uuid, time)])
    case _ => Append(if Cuts(d, e) then Close(p) else p, Alone(e))
  }

  function WriteAll(d: Desk, p: Page, evs: seq<Event>): Page
    requires Consistent(d)
    decreases |evs|
  {
    if evs == [] then p
    else
      HandleKeepsConsistent(d, evs[0]);
      WriteAll(Handle(d, evs[0]), Write(d, p, evs[0]), evs[1..])
  }

  /** The document cut into runs and single items. */
  function Runs(lines: seq<Line>): seq<Group> {
    Close(WriteAll(CLEAR, BLANK, Events(lines))).groups
  }

  lemma {:induction false} WriteSplit(d: Desk, p: Page, a: seq<Event>, b: seq<Event>)
    requires Consistent(d)
    ensures WriteAll(d, p, a + b) == WriteAll(HandleAll(d, a), WriteAll(d, p, a), b)
    decreases |a|
  {
    if a == [] {
      assert a + b == b;
    } else {
      HandleKeepsConsistent(d, a[0]);
      WriteSplit(Handle(d, a[0]), Write(d, p, a[0]), a[1..], b);
      assert (a + b)[1..] == a[1..] + b && (a + b)[0] == a[0];
    }
  }

  lemma WriteOne(d: Desk, p: Page, e: Event)
    requires Consistent(d)
    ensures WriteAll(d, p, [e]) == Write(d, p, e)
  {
    HandleKeepsConsistent(d, e);
    assert [e][1..] == [];
  }

  // ---- Concatenation ----

  lemma {:induction false} SpokeConcat(a: seq<DocItem>, b: seq<DocItem>)
    ensures Spoke(a + b) == Spoke(a) + Spoke(b)
  {
    if b == [] {
      assert a + b == a;
    } else {
      SpokeConcat(a, b[..|b| - 1]);
      assert (a + b)[..|a + b| - 1] == a + b[..|b| - 1];
    }
  }

  lemma GroupAdded(gs: seq<Group>, g: Group)
    ensures Flatten(gs + [g]) == Flatten(gs) + Contents(g)
    ensures Rendered(gs + [g]) == Rendered(gs) + RenderGroup(g)
  {
    assert (gs + [g])[..|gs|] == gs;
  }

  lemma TurnSpeaks(turns: seq<Turn>, t: Turn)
    ensures Spoken(turns + [t]) == Spoken(turns) + SpokenBy(t)
  {
    assert (turns + [t])[..|turns|] == turns;
  }

  // ---- The parser writes the page ----

  /** The turns show the page's groups; the parts collected are its open texts. */
  ghost predicate Reads(st: State, p: Page) {
    Open(st, p.open) && Spoken(st.turns) == Rendered(p.groups)
  }

  lemma FlushTextReads(st: State, p: Page)
    requires Reads(st, p)
    ensures Reads(FlushText(st), Close(p))
  {
    if st.parts != [] {
      GroupAdded(p.groups, Texts(p.open));
      TurnSpeaks(st.turns, TextTurn(Render(st.parts), st.textUuid, st.textTime));
      assert Rendered(p.groups) + [] == Rendered(p.groups);
    }
  }

  /** A turn that says nothing, or exactly one item. */
  lemma TurnReads(st: State, p: Page, t: Turn, item: Option<DocItem>, st': State)
    requires Reads(st, p) && p.open == [] && st'.turns == st.turns + [t] && st'.parts == st.parts
    requires st'.textUuid == st.textUuid && st'.textTime == st.textTime
    requires SpokenBy(t) == if item.Some? then [Told(item.value)] else []
    ensures Reads(st', Append(p, item))
  {
    TurnSpeaks(st.turns, t);
    if item.Some? {
      GroupAdded(p.groups, Single(item.value));
    } else {
      assert Spoken(st.turns) + [] == Spoken(st.turns);
    }
  }

  lemma FlushAllReads(st: State, p: Page)
    requires Reads(st, p)
    ensures Reads(FlushAll(st), Close(p))
  {
    var s := FlushText(st);
    FlushTextReads(st, p);
    if s.pending != [] {
      TurnReads(s, Close(p), CardTurn(s.pending), None, FlushAll(st));
    }
  }

  lemma OpenGrows(st: State, open: seq<DocItem>, text: string, uuid: Option<string>, time: Option<string>)
    requires Open(st, open)
    ensures Open(AddText(st, text, uuid, time), open + [Prose(text, uuid, time)])
  {
    var after := open + [Prose(text, uuid, time)];
    assert after[..|open|] == open;
    assert TextsIn(after) == TextsIn(open) + [text];
  }

  lemma ClosingWrites(d: Desk, p: Page, e: Event)
    requires Consistent(d) && !e.Worded?
    ensures Write(d, p, e) == Append(if Cuts(d, e) then Close(p) else p, Alone(e))
    ensures Append(p, None) == p
  {
  }

  lemma ToolFeeds(st: State, b: AgentBlock, uuid: Option<string>, time: Option<string>)
    requires b.ToolUse? && !Interactive(b.tool)
    ensures var s := FlushText(st);
            FeedBlock(st, b, uuid, time)
            == if b.tool.SearchTool? then s else s.(turns := s.turns + [ToolTurn(b.tool, b.id, time)])
  {
  }

  lemma ToolReads(st: State, b: AgentBlock, uuid: Option<string>, time: Option<string>, p: Page)
    requires Sound(st) && Reads(st, p) && b.ToolUse? && !Interactive(b.tool)
    ensures Reads(FeedBlock(st, b, uuid, time), Write(DeskOf(st), p, Acted(b.tool, b.id, time)))
  {
    var s, turn := FlushText(st), ToolTurn(b.tool, b.id, time);
    FlushTextReads(st, p);
    FlushTextFrame(st);
    ToolFeeds(st, b, uuid, time);
    ClosingWrites(DeskOf(st), p, Acted(b.tool, b.id, time));
    ClosingWrites(DeskOf(st), Close(p), Acted(b.tool, b.id, time));
    TurnReads(s, Close(p), turn, Some(Call(b.tool, b.id, time)), s.(turns := s.turns + [turn]));
  }

  lemma BlockReads(st: State, b: AgentBlock, uuid: Option<string>, time: Option<string>, p: Page)
    requires Sound(st) && Reads(st, p)
    ensures Reads(FeedBlock(st, b, uuid, time), WriteAll(DeskOf(st), p, BlockEvents(b, uuid, time)))
  {
    match b
    case AgentText(text) =>
      if ShownText(text) {
        OpenGrows(st, p.open, text, uuid, time);
        WriteOne(DeskOf(st), p, Worded(text, uuid, time));
      }
    case OtherAgentBlock =>
    case ToolUse(tool, id, _, _, _) =>
      if Interactive(tool) {
        FlushTextReads(st, p);
        WriteOne(DeskOf(st), p, Opened(NewCard(b)));
      } else {
        ToolReads(st, b, uuid, time, p);
        WriteOne(DeskOf(st), p, Acted(tool, id, time));
      }
  }

  lemma {:induction false} BlocksRead(st: State, bs: seq<AgentBlock>, uuid: Option<string>, time: Option<string>, p: Page)
    requires Sound(st) && Reads(st, p)
    ensures Reads(FeedBlocks(st, bs, uuid, time), WriteAll(DeskOf(st), p, BlocksEvents(bs, uuid, time)))
  {
    if bs != [] {
      var init, b := bs[..|bs| - 1], bs[|bs| - 1];
      var s := FeedBlocks(st, init, uuid, time);
      FeedBlocksKeepsSound(st, init, uuid, time);
      BlocksRead(st, init, uuid, time, p);
      BlocksDesk(st, init, uuid, time);
      BlockReads(s, b, uuid, time, WriteAll(DeskOf(st), p, BlocksEvents(init, uuid, time)));
      WriteSplit(DeskOf(st), p, BlocksEvents(init, uuid, time), BlockEvents(b, uuid, time));
    }
  }

  /** A refused card that waits: the text is closed, and the rejected turn says nothing. */
  lemma RefusedReads(g: State, turn: Turn, p: Page)
    requires Reads(g, p) && turn.RejectedTurn?
    ensures var t := FlushText(g); Reads(t.(turns := t.turns + [turn]), Close(p))
  {
    var t := FlushText(g);
    FlushTextReads(g, p);
    TurnReads(t, Close(p), turn, None, t.(turns := t.turns + [turn]));
  }

  lemma RejectIs(st: State, id: string, time: Option<string>)
    requires Sound(st) && id in st.byId
    ensures var card, f := st.cards[st.byId[id]], st.(byId := st.byId - {id});
            var place := FirstEqual(st.cards, st.pending, card);
            && (place.None? ==> Reject(st, id, time) == f)
            && (place.Some? ==>
                  var t := FlushText(f.(pending := st.pending[..place.value] + st.pending[place.value + 1..]));
                  Reject(st, id, time) == t.(turns := t.turns + [RejectedTurn(card.kind, id, time)]))
  {
  }

  lemma SameReads(st: State, st': State, p: Page)
    requires Reads(st, p) && st'.turns == st.turns && st'.parts == st.parts
    requires st'.textUuid == st.textUuid && st'.textTime == st.textTime
    ensures Reads(st', p)
  {
  }

  lemma RefusalReads(st: State, b: UserBlock, time: Option<string>, p: Page)
    requires Sound(st) && Reads(st, p) && Concerns(DeskOf(st), b) && Refusal(b)
    ensures Reads(Reject(st, b.toolUseId, time), if Place(DeskOf(st), b).Some? then Close(p) else p)
  {
    var card := st.cards[st.byId[b.toolUseId]];
    var f := st.(byId := st.byId - {b.toolUseId});
    RejectIs(st, b.toolUseId, time);
    match FirstEqual(st.cards, st.pending, card)
    case None => SameReads(st, f, p);
    case Some(i) =>
      var g := f.(pending := st.pending[..i] + st.pending[i + 1..]);
      SameReads(st, g, p);
      RefusedReads(g, RejectedTurn(card.kind, b.toolUseId, time), p);
  }

  lemma AnswerReads(st: State, id: string, answer: string, p: Page)
    requires Sound(st) && Reads(st, p) && id in st.byId
    ensures Reads(Answer(st, id, answer), Close(p))
  {
    var n := st.byId[id];
    FlushAllReads(st.(cards := st.cards[n := DeriveSelected(st.cards[n].(answer := Some(answer)))]), p);
  }

  lemma ResultReads(st: State, b: UserBlock, time: Option<string>, p: Page)
    requires Sound(st) && Reads(st, p) && b.ToolResult?
    ensures Reads(FeedResult(st, b, time), Write(DeskOf(st), p, Came(b)))
  {
    ClosingWrites(DeskOf(st), p, Came(b));
    ClosingWrites(DeskOf(st), Close(p), Came(b));
    if b.toolUseId in st.byId {
      if Refusal(b) {
        RefusalReads(st, b, time, p);
      } else {
        AnswerReads(st, b.toolUseId, ResultOf(b.result), p);
      }
    }
  }

  lemma {:induction false} ResultsRead(st: State, bs: seq<UserBlock>, time: Option<string>, p: Page)
    requires Sound(st) && Reads(st, p)
    ensures Reads(FeedResults(st, bs, time), WriteAll(DeskOf(st), p, ResultEvents(bs)))
  {
    if bs != [] {
      var init, b := bs[..|bs| - 1], bs[|bs| - 1];
      var s := FeedResults(st, init, time);
      ResultsRead(st, init, time, p);
      ResultsDesk(st, init, time);
      var q := WriteAll(DeskOf(st), p, ResultEvents(init));
      WriteSplit(DeskOf(st), p, ResultEvents(init), if b.ToolResult? then [Came(b)] else []);
      if b.ToolResult? {
        ResultReads(s, b, time, q);
        WriteOne(DeskOf(s), q, Came(b));
      }
    }
  }

  lemma UtteredWrites(d: Desk, p: Page, turn: Turn)
    requires Consistent(d)
    ensures Write(d, p, Uttered(Some(turn))) == Append(Close(p), Some(Heard(turn))) && Close(p).open == []
  {
  }

  lemma SayReads(st: State, turn: Turn, p: Page)
    requires Sound(st) && Reads(st, p) && (turn.UserTurn? || turn.SystemTurn?)
    ensures Reads(FlushAll(st).(turns := FlushAll(st).turns + [turn]), Write(DeskOf(st), p, Uttered(Some(turn))))
  {
    FlushAllReads(st, p);
    UtteredWrites(DeskOf(st), p, turn);
    HeardReads(FlushAll(st), turn, Close(p));
  }

  lemma HeardSpeaks(turn: Turn)
    requires turn.UserTurn? || turn.SystemTurn?
    ensures SpokenBy(turn) == [Told(Heard(turn))]
  {
  }

  lemma HeardReads(s: State, turn: Turn, p: Page)
    requires Reads(s, p) && p.open == [] && (turn.UserTurn? || turn.SystemTurn?)
    ensures Reads(s.(turns := s.turns + [turn]), Append(p, Some(Heard(turn))))
  {
    HeardSpeaks(turn);
    TurnReads(s, p, turn, Some(Heard(turn)), s.(turns := s.turns + [turn]));
  }

  lemma EmitReads(st: State, turn: Option<Turn>, p: Page)
    requires Sound(st) && Reads(st, p) && (turn.Some? ==> turn.value.UserTurn? || turn.value.SystemTurn?)
    ensures Reads(Emit(st, turn), WriteAll(DeskOf(st), p, TurnEvents(turn)))
  {
    if turn.Some? {
      SayReads(st, turn.value, p);
      WriteOne(DeskOf(st), p, Uttered(turn));
    }
  }

  lemma UserReads(st: State, isMeta: bool, content: UserContent, uuid: Option<string>, time: Option<string>, p: Page)
    requires Sound(st) && Reads(st, p)
    ensures Reads(FeedUser(st, isMeta, content, uuid, time), WriteAll(DeskOf(st), p, UserEvents(isMeta, content, uuid, time)))
  {
    if content.Text? {
      UserTurnKind(content.text, uuid, time);
      EmitReads(st, UserTurnOf(content.text, uuid, time), p);
    } else if content.BlockList? {
      var text := Strip(Join(UserTexts(content.blocks), "\n"));
      ResultsRead(st, content.blocks, time, p);
      UserTurnKind(text, uuid, time);
      EmitReads(st, UserTurnOf(text, uuid, time), p);
    }
  }

  lemma SystemFeeds(st: State, subtype: Subtype, text: string, uuid: Option<string>, time: Option<string>)
    requires !subtype.TurnDuration?
    ensures var s, turn := FlushAll(st), SystemTurnOf(subtype, text, uuid, time);
            FeedSystem(st, subtype, text, uuid, time) == if turn.Some? then s.(turns := s.turns + [turn.value]) else s
  {
  }

  lemma SystemReads(st: State, subtype: Subtype, text: string, uuid: Option<string>, time: Option<string>, p: Page)
    requires Sound(st) && Reads(st, p) && !subtype.TurnDuration?
    ensures Reads(FeedSystem(st, subtype, text, uuid, time),
                  WriteAll(DeskOf(st), p, [Uttered(SystemTurnOf(subtype, text, uuid, time))]))
  {
    var turn := SystemTurnOf(subtype, text, uuid, time);
    FlushAllReads(st, p);
    SystemFeeds(st, subtype, text, uuid, time);
    WriteOne(DeskOf(st), p, Uttered(turn));
    if turn.Some? { SayReads(st, turn.value, p); }
  }

  lemma AgentReads(st: State, rateLimited: bool, bs: seq<AgentBlock>, uuid: Option<string>, time: Option<string>, p: Page)
    requires Sound(st) && Reads(st, p)
    ensures var limit := Some(SystemTurn(RateLimitText(bs), RateLimit, Own(uuid), time));
            if rateLimited then Reads(Emit(st, limit), WriteAll(DeskOf(st), p, [Uttered(limit)]))
            else Reads(FeedBlocks(st, bs, uuid, time), WriteAll(DeskOf(st), p, BlocksEvents(bs, uuid, time)))
  {
    if rateLimited {
      EmitReads(st, Some(SystemTurn(RateLimitText(bs), RateLimit, Own(uuid), time)), p);
    } else {
      BlocksRead(st, bs, uuid, time, p);
    }
  }

  lemma UserLineReads(st: State, e: Entry, p: Page)
    requires Sound(st) && Reads(st, p) && e.body.UserBody?
    ensures Reads(Feed(st, Parsed(e)), WriteAll(DeskOf(st), p, LineEvents(Parsed(e))))
  {
    UserReads(st, e.body.isMeta, e.body.content, e.uuid, e.timestamp, p);
  }

  lemma AgentLineReads(st: State, e: Entry, p: Page)
    requires Sound(st) && Reads(st, p) && e.body.AgentBody?
    ensures Reads(Feed(st, Parsed(e)), WriteAll(DeskOf(st), p, LineEvents(Parsed(e))))
  {
    AgentReads(st, e.body.rateLimited, e.body.blocks, e.uuid, e.timestamp, p);
  }

  lemma SystemLineReads(st: State, e: Entry, p: Page)
    requires Sound(st) && Reads(st, p) && e.body.SystemBody?
    ensures Reads(Feed(st, Parsed(e)), WriteAll(DeskOf(st), p, LineEvents(Parsed(e))))
  {
    if !e.body.subtype.TurnDuration? { SystemReads(st, e.body.subtype, e.body.text, e.uuid, e.timestamp, p); }
  }

  lemma LineReads(st: State, line: Line, p: Page)
    requires Sound(st) && Reads(st, p)
    ensures Reads(Feed(st, line), WriteAll(DeskOf(st), p, LineEvents(line)))
  {
    if line.Parsed? {
      match line.entry.body
      case UserBody(_, _) => UserLineReads(st, line.entry, p);
      case AgentBody(_, _, _, _) => AgentLineReads(st, line.entry, p);
      case SystemBody(_, _) => SystemLineReads(st, line.entry, p);
      case OtherBody(_) =>
    }
  }

  lemma {:induction false} ParserReads(st: State, lines: seq<Line>, p: Page)
    requires Sound(st) && Reads(st, p)
    ensures Reads(FeedAll(st, lines), WriteAll(DeskOf(st), p, Events(lines)))
  {
    if lines != [] {
      var init, line := lines[..|lines| - 1], lines[|lines| - 1];
      ParserReads(st, init, p);
      ParserDesk(st, init);
      LineReads(FeedAll(st, init), line, WriteAll(DeskOf(st), p, Events(init)));
      WriteSplit(DeskOf(st), p, Events(init), LineEvents(line));
    }
  }

  /** Before repeated user turns are left out, the turns show the document run by run. */
  lemma TurnsShowRuns(lines: seq<Line>)
    ensures Spoken(FlushAll(FeedAll(START, lines)).turns) == Rendered(Runs(lines))
  {
    ParserReads(START, lines, BLANK);
    FlushAllReads(FeedAll(START, lines), WriteAll(CLEAR, BLANK, Events(lines)));
  }

  // ---- The runs are the document ----

  /** What the event says, as an item of the document. */
  function Says(e: Event): seq<DocItem> {
    match e
    case Worded(text, uuid, time) => [Prose(text, uuid, time)]
    case _ => if Alone(e).Some? then [Alone(e).value] else []
  }

  function AllSays(evs: seq<Event>): seq<DocItem> {
    if evs == [] then [] else AllSays(evs[..|evs| - 1]) + Says(evs[|evs| - 1])
  }

  lemma {:induction false} SaysConcat(a: seq<Event>, b: seq<Event>)
    ensures AllSays(a + b) == AllSays(a) + AllSays(b)
  {
    if b == [] {
      assert a + b == a;
    } else {
      SaysConcat(a, b[..|b| - 1]);
      assert (a + b)[..|a + b| - 1] == a + b[..|b| - 1];
      ConcatAssoc(AllSays(a), AllSays(b[..|b| - 1]), Says(b[|b| - 1]));
    }
  }

  lemma SaysOne(e: Event)
    ensures AllSays([e]) == Says(e)
  {
    assert [e][..0] == [];
  }

  function Written(p: Page): seq<DocItem> {
    Flatten(p.groups) + p.open
  }

  ghost predicate ProperPage(p: Page) {
    ProperGroups(p.groups) && AllProse(p.open)
  }

  lemma CloseKeepsWritten(p: Page)
    requires ProperPage(p)
    ensures Written(Close(p)) == Written(p) && ProperPage(Close(p))
  {
    GroupAdded(p.groups, Texts(p.open));
    assert Written(Close(p)) == Flatten(Close(p).groups) + Close(p).open;
  }

  lemma AppendAdds(p: Page, item: Option<DocItem>)
    requires ProperPage(p) && p.open == [] && (item.Some? ==> item.value.Call? || item.value.Heard?)
    ensures Written(Append(p, item)) == Written(p) + (if item.Some? then [item.value] else [])
    ensures ProperPage(Append(p, item))
  {
    if item.Some? {
      GroupAdded(p.groups, Single(item.value));
    }
  }

  lemma WordAdds(p: Page, item: DocItem)
    requires ProperPage(p) && item.Prose?
    ensures Written(p.(open := p.open + [item])) == Written(p) + [item] && ProperPage(p.(open := p.open + [item]))
  {
    ConcatAssoc(Flatten(p.groups), p.open, [item]);
  }

  lemma WriteAdds(d: Desk, p: Page, e: Event)
    requires Consistent(d) && ProperPage(p)
    ensures Written(Write(d, p, e)) == Written(p) + Says(e) && ProperPage(Write(d, p, e))
  {
    if e.Worded? {
      WordAdds(p, Prose(e.text, e.uuid, e.time));
    } else {
      ClosingWrites(d, p, e);
      CloseKeepsWritten(p);
      if Cuts(d, e) { AppendAdds(Close(p), Alone(e)); }
    }
  }

  lemma {:induction false} WriteAllAdds(d: Desk, p: Page, evs: seq<Event>)
    requires Consistent(d) && ProperPage(p)
    ensures Written(WriteAll(d, p, evs)) == Written(p) + AllSays(evs) && ProperPage(WriteAll(d, p, evs))
    decreases |evs|
  {
    if evs != [] {
      HandleKeepsConsistent(d, evs[0]);
      WriteAdds(d, p, evs[0]);
      WriteAllAdds(Handle(d, evs[0]), Write(d, p, evs[0]), evs[1..]);
      assert evs == [evs[0]] + evs[1..];
      SaysConcat([evs[0]], evs[1..]);
      SaysOne(evs[0]);
      ConcatAssoc(Written(p), Says(evs[0]), AllSays(evs[1..]));
    }
  }

  lemma BlockSays(b: AgentBlock, uuid: Option<string>, time: Option<string>)
    ensures AllSays(BlockEvents(b, uuid, time)) == Spoke(ItemOf(b, uuid, time))
  {
    if BlockEvents(b, uuid, time) != [] { SaysOne(BlockEvents(b, uuid, time)[0]); }
    if ItemOf(b, uuid, time) != [] { SpokeOne(ItemOf(b, uuid, time)[0]); }
  }

  lemma SpokeOne(item: DocItem)
    ensures Spoke([item]) == if item.Card? then [] else [item]
  {
    assert [item][..0] == [];
  }

  lemma {:induction false} BlocksSay(bs: seq<AgentBlock>, uuid: Option<string>, time: Option<string>)
    ensures AllSays(BlocksEvents(bs, uuid, time)) == Spoke(ItemsOf(bs, uuid, time))
  {
    if bs != [] {
      var init, b := bs[..|bs| - 1], bs[|bs| - 1];
      BlocksSay(init, uuid, time);
      BlockSays(b, uuid, time);
      SaysConcat(BlocksEvents(init, uuid, time), BlockEvents(b, uuid, time));
      SpokeConcat(ItemsOf(init, uuid, time), ItemOf(b, uuid, time));
    }
  }

  lemma {:induction false} ResultsSayNothing(bs: seq<UserBlock>)
    ensures AllSays(ResultEvents(bs)) == []
  {
    if bs != [] {
      ResultsSayNothing(bs[..|bs| - 1]);
      SaysConcat(ResultEvents(bs[..|bs| - 1]), if bs[|bs| - 1].ToolResult? then [Came(bs[|bs| - 1])] else []);
      SaysOne(Came(bs[|bs| - 1]));
    }
  }

  lemma UtteredSays(turn: Option<Turn>)
    ensures AllSays([Uttered(turn)]) == Spoke(HeardItems(turn))
    ensures AllSays(TurnEvents(turn)) == Spoke(HeardItems(turn))
  {
    SaysOne(Uttered(turn));
    if turn.Some? { SpokeOne(Heard(turn.value)); }
  }

  lemma LineSays(line: Line)
    ensures AllSays(LineEvents(line)) == Spoke(LineItems(line))
  {
    if line.Parsed? {
      var e := line.entry;
      match e.body
      case UserBody(_, content) => UserSays(content, e.uuid, e.timestamp);
      case AgentBody(_, _, _, bs) =>
        BlocksSay(bs, e.uuid, e.timestamp);
        UtteredSays(Some(SystemTurn(RateLimitText(bs), RateLimit, Own(e.uuid), e.timestamp)));
      case SystemBody(subtype, text) => UtteredSays(SystemTurnOf(subtype, text, e.uuid, e.timestamp));
      case OtherBody(_) =>
    }
  }

  lemma UserSays(content: UserContent, uuid: Option<string>, time: Option<string>)
    ensures forall isMeta :: AllSays(UserEvents(isMeta, content, uuid, time)) == Spoke(UserItems(isMeta, content, uuid, time))
  {
    if content.Text? {
      UtteredSays(UserTurnOf(content.text, uuid, time));
    } else if content.BlockList? {
      ResultsSayNothing(content.blocks);
      UtteredSays(UserTurnOf(Strip(Join(UserTexts(content.blocks), "\n")), uuid, time));
    }
  }

  lemma {:induction false} EventsSay(lines: seq<Line>)
    ensures AllSays(Events(lines)) == Spoke(Document(lines))
  {
    if lines != [] {
      var init, line := lines[..|lines| - 1], lines[|lines| - 1];
      EventsSay(init);
      LineSays(line);
      SaysConcat(Events(init), LineEvents(line));
      SpokeConcat(Document(init), LineItems(line));
    }
  }

  /** The runs are the document without its cards, nothing missing, nothing twice, in order. */
  lemma RunsAreTheDocument(lines: seq<Line>)
    ensures Flatten(Runs(lines)) == Spoke(Document(lines)) && ProperGroups(Runs(lines))
  {
    var p := WriteAll(CLEAR, BLANK, Events(lines));
    WriteAllAdds(CLEAR, BLANK, Events(lines));
    CloseKeepsWritten(p);
    EventsSay(lines);
    EmptyConcat(AllSays(Events(lines)));
    assert Written(Close(p)) == Flatten(Close(p).groups) + [] == Flatten(Close(p).groups);
  }
}
