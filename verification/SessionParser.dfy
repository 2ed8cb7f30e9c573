/**
 The session parser: one pass over the lines, four accumulators and two flush routines.
 Cards live in a store and are named by their number there, so that a card already
 emitted in a turn and the parser's own table refer to the same, still changing, card.
 */
module SessionParser {
  import opened Collections
  import opened Strings
  import opened InteractiveItems
  import opened AgentPreamble
  import opened Transcript

  datatype SystemKind = Interrupt | RateLimit | StopHook | Notice

  /** Turn ids: the entry's own, or one derived from the text. */
  datatype TurnId = Own(uuid: Option<string>) | HashOf(text: string)

  datatype Turn =
    | TextTurn(text: string, uuid: Option<string>, timestamp: Option<string>)
    | ToolTurn(tool: Tool, toolUseId: string, timestamp: Option<string>)
    | RejectedTurn(call: ItemKind, toolUseId: string, timestamp: Option<string>)
    | CardTurn(cards: seq<nat>)
    | UserTurn(text: string, slash: bool, uuid: Option<string>, timestamp: Option<string>)
    | SystemTurn(text: string, kind: SystemKind, id: TurnId, timestamp: Option<string>)

  datatype State = State(turns: seq<Turn>, parts: seq<string>, textUuid: Option<string>, textTime: Option<string>,
                         cards: seq<Item>, pending: seq<nat>, byId: map<string, nat>)

  const START := State([], [], None, None, [], [], map[])

  ghost predicate Sound(st: State) {
    && (forall id :: id in st.byId ==> st.byId[id] < |st.cards| && st.cards[st.byId[id]].toolUseId == id)
    && (forall i :: 0 <= i < |st.pending| ==> st.pending[i] < |st.cards|)
  }

  // ---- Text ----

  function Stripped(parts: seq<string>): seq<string> {
    if parts == [] then []
    else Stripped(parts[..|parts| - 1]) + (if Strip(parts[|parts| - 1]) != "" then [Strip(parts[|parts| - 1])] else [])
  }

  const SUCCESS := "EXIT_SUCCESS"
  const FAILURE := "EXIT_FAILURE"

  /** Removes a final success marker, with the newline before it. */
  function DropSuccess(text: string): string {
    var t := RStrip(text);
    if !EndsWith(t, SUCCESS) then text
    else
      var n := |t| - |SUCCESS|;
      Strip(if n > 0 && t[n - 1] == '\n' then t[..n - 1] else t[..n])
  }

  /** Start of the last line. */
  function LastLine(text: string): (i: nat)
    ensures i <= |text|
  {
    if text == "" then 0
    else if text[|text| - 1] == '\n' then |text|
    else LastLine(text[..|text| - 1])
  }

  /** Removes a failure marker on the last line and what follows it, with the newline before it. */
  function DropFailure(text: string): string {
    var i := FindFrom(text, FAILURE, LastLine(text));
    if i < 0 then text
    else Strip(if i > 0 && text[i - 1] == '\n' then text[..i - 1] else text[..i])
  }

  function Render(parts: seq<string>): string {
    DropFailure(DropSuccess(Join(Stripped(parts), "\n\n")))
  }

  function FlushText(st: State): State {
    if st.parts == [] then st
    else
      var text := Render(st.parts);
      st.(turns := if text != "" then st.turns + [TextTurn(text, st.textUuid, st.textTime)] else st.turns,
          parts := [], textUuid := None, textTime := None)
  }

  function FlushAll(st: State): State {
    var s := FlushText(st);
    if s.pending == [] then s else s.(turns := s.turns + [CardTurn(s.pending)], pending := [])
  }

  // ---- Assistant entries ----

  predicate Digits(s: string) {
    s != "" && forall i :: 0 <= i < |s| ==> '0' <= s[i] <= '9'
  }

  /** `d` digits, an x, digits, then the literal. */
  predicate SizeThen(s: string, i: nat, after: string) {
    exists x, e :: i < x < e <= |s| && s[x] == 'x' && Digits(s[i..x]) && Digits(s[x + 1..e]) && At(s, after, e)
  }

  /** Image notes the CLI writes for itself. */
  predicate IsImageMetadata(text: string) {
    var s := Strip(text);
    var head, mid := "[Image: original ", ", displayed at ";
    StartsWith(s, head) && SizeThen(s, |head|, mid)
    && var m := FindFrom(s, mid, |head|);
       m >= 0 && SizeThen(s, m + |mid|, ".")
  }

  predicate ShownText(text: string) {
    Strip(text) != "" && !IsImageMetadata(text)
  }

  function AddText(st: State, text: string, uuid: Option<string>, time: Option<string>): State {
    st.(parts := st.parts + [text],
        textUuid := if st.textUuid.None? && Truthy(uuid) then uuid else st.textUuid,
        textTime := if st.textTime.None? && Truthy(time) then time else st.textTime)
  }

  predicate Interactive(t: Tool) {
    t.AskTool? || t.PlanTool?
  }

  function KindOf(t: Tool): ItemKind {
    if t.AskTool? then AskUserQuestion else ExitPlanMode
  }

  function NewCard(b: AgentBlock): Item
    requires b.ToolUse?
  {
    Item(KindOf(b.tool), b.id, if b.tool.AskTool? then b.questions else [], if b.tool.AskTool? then "" else b.plan,
         b.details, false, None, None, map[])
  }

  function FeedBlock(st: State, b: AgentBlock, uuid: Option<string>, time: Option<string>): State {
    match b
    case AgentText(text) => if ShownText(text) then AddText(st, text, uuid, time) else st
    case OtherAgentBlock => st
    case ToolUse(tool, id, _, _, _) =>
      var s := FlushText(st);
      if Interactive(tool) then
        var n := |s.cards|;
        s.(cards := s.cards + [NewCard(b)], pending := s.pending + [n], byId := s.byId[id := n])
      else if tool.SearchTool? then s
      else s.(turns := s.turns + [ToolTurn(tool, id, time)])
  }

  function FeedBlocks(st: State, bs: seq<AgentBlock>, uuid: Option<string>, time: Option<string>): State {
    if bs == [] then st
    else FeedBlock(FeedBlocks(st, bs[..|bs| - 1], uuid, time), bs[|bs| - 1], uuid, time)
  }

  function TextsOf(bs: seq<AgentBlock>): seq<string> {
    if bs == [] then []
    else TextsOf(bs[..|bs| - 1]) + (if bs[|bs| - 1].AgentText? then [bs[|bs| - 1].text] else [])
  }

  function RateLimitText(bs: seq<AgentBlock>): string {
    var text := Join(Stripped(TextsOf(bs)), " ");
    if text == "" then "Rate limit reached" else text
  }

  // ---- Tool results ----

  function ResultOf(r: ResultText): string {
    match r
    case Whole(text) => text
    case Pieces(texts) => Strip(Join(texts, " "))
  }

  /** Cards are compared by value when one is looked for among the pending ones. */
  function FirstEqual(cards: seq<Item>, pending: seq<nat>, item: Item): (r: Option<nat>)
    requires forall i :: 0 <= i < |pending| ==> pending[i] < |cards|
    ensures r.Some? ==> r.value < |pending| && cards[pending[r.value]] == item
                        && forall i :: 0 <= i < r.value ==> cards[pending[i]] != item
    ensures r.None? ==> forall i :: 0 <= i < |pending| ==> cards[pending[i]] != item
  {
    if pending == [] then None
    else if cards[pending[0]] == item then Some(0)
    else match FirstEqual(cards, pending[1..], item)
      case None => None
      case Some(i) => Some(i + 1)
  }

  predicate RejectedByValidation(isError: bool, answer: string) {
    isError && Contains(answer, "InputValidationError")
  }

  /** A call that never reached the user leaves the table, and the pending cards if it is there. */
  function Reject(st: State, id: string, time: Option<string>): State
    requires Sound(st) && id in st.byId
  {
    var item := st.cards[st.byId[id]];
    var s := st.(byId := st.byId - {id});
    match FirstEqual(st.cards, st.pending, item)
    case None => s
    case Some(i) =>
      var t := FlushText(s.(pending := s.pending[..i] + s.pending[i + 1..]));
      t.(turns := t.turns + [RejectedTurn(item.kind, id, time)])
  }

  function Answer(st: State, id: string, answer: string): State
    requires Sound(st) && id in st.byId
  {
    var n := st.byId[id];
    FlushAll(st.(cards := st.cards[n := DeriveSelected(st.cards[n].(answer := Some(answer)))]))
  }

  function FeedResult(st: State, b: UserBlock, time: Option<string>): State
    requires Sound(st)
  {
    if !b.ToolResult? || b.toolUseId !in st.byId then st
    else if RejectedByValidation(b.isError, ResultOf(b.result)) then Reject(st, b.toolUseId, time)
    else Answer(st, b.toolUseId, ResultOf(b.result))
  }

  lemma FlushKeepsSound(st: State)
    requires Sound(st)
    ensures Sound(FlushText(st)) && Sound(FlushAll(st))
  {
  }

  lemma RejectKeepsSound(st: State, id: string, time: Option<string>)
    requires Sound(st) && id in st.byId
    ensures Sound(Reject(st, id, time))
  {
  }

  lemma AnswerKeepsSound(st: State, id: string, answer: string)
    requires Sound(st) && id in st.byId
    ensures Sound(Answer(st, id, answer))
  {
    DeriveOnlyFills(st.cards[st.byId[id]].(answer := Some(answer)));
  }

  lemma FeedResultKeepsSound(st: State, b: UserBlock, time: Option<string>)
    requires Sound(st)
    ensures Sound(FeedResult(st, b, time))
  {
    if b.ToolResult? && b.toolUseId in st.byId {
      RejectKeepsSound(st, b.toolUseId, time);
      AnswerKeepsSound(st, b.toolUseId, ResultOf(b.result));
    }
  }

  function FeedResults(st: State, bs: seq<UserBlock>, time: Option<string>): (r: State)
    requires Sound(st)
    ensures Sound(r)
  {
    if bs == [] then st
    else
      var s := FeedResults(st, bs[..|bs| - 1], time);
      FeedResultKeepsSound(s, bs[|bs| - 1], time);
      FeedResult(s, bs[|bs| - 1], time)
  }

  // ---- User entries ----

  /** The text between a tag and its closing tag, if both occur in order. */
  function Tagged(s: string, open: string, close: string): Option<string> {
    var i := Find(s, open);
    if i < 0 then None
    else
      var j := FindFrom(s, close, i + |open|);
      if j < 0 then None else Some(s[i + |open|..j])
  }

  predicate CommandEcho(s: string) {
    StartsWith(s, "<command-name>") || StartsWith(s, "<command-message>")
  }

  /** The command line behind a slash-command echo; both tags must be there. */
  function CommandLine(s: string): Option<string> {
    var name := Tagged(s, "<command-name>", "</command-name>");
    var message := Tagged(s, "<command-message>", "</command-message>");
    var args := Tagged(s, "<command-args>", "</command-args>");
    if name.None? || message.None? then None
    else Some(RStrip(Strip(name.value) + " " + (if args.Some? then Strip(args.value) else "")))
  }

  predicate Injected(s: string) {
    || StartsWith(s, "<local-command-caveat>") || StartsWith(s, "<local-command-stdout>")
    || StartsWith(s, "<system-reminder>") || StartsWith(s, "<task-notification>")
  }

  predicate IsInterrupt(s: string) {
    StartsWith(s, "[") && EndsWith(s, "]") && Contains(Lower(s), "interrupt")
  }

  predicate IsCompactSummary(s: string) {
    StartsWith(s, "This session is being " + "continued from a previous conversation")
  }

  datatype UserTextKind = Blank | SlashCommand(line: Option<string>) | Injection | InterruptMark | CompactSummary | Plain

  /** Tested in this order, on the stripped text. */
  function Classify(s: string): UserTextKind {
    if s == "" then Blank
    else if CommandEcho(s) then SlashCommand(CommandLine(s))
    else if Injected(s) then Injection
    else if IsInterrupt(s) then InterruptMark
    else if IsCompactSummary(s) then CompactSummary
    else Plain
  }

  function WithoutBrackets(s: string): string {
    if |s| >= 2 then s[1..|s| - 1] else ""
  }

  function TurnFor(kind: UserTextKind, content: string, uuid: Option<string>, time: Option<string>): Option<Turn> {
    match kind
    case Blank => None
    case SlashCommand(line) => if line.Some? then Some(UserTurn(line.value, true, uuid, time)) else None
    case Injection => None
    case InterruptMark => Some(SystemTurn(WithoutBrackets(Strip(content)), Interrupt, Own(uuid), time))
    case CompactSummary => Some(SystemTurn(content, Notice, HashOf(content), time))
    case Plain => Some(UserTurn(StripAgentPreamble(Strip(content)), false, uuid, time))
  }

  /** The turn a user text becomes, if any. */
  function UserTurnOf(content: string, uuid: Option<string>, time: Option<string>): Option<Turn> {
    TurnFor(Classify(Strip(content)), content, uuid, time)
  }

  function Emit(st: State, turn: Option<Turn>): State {
    match turn
    case None => st
    case Some(t) => var s := FlushAll(st); s.(turns := s.turns + [t])
  }

  function UserTexts(bs: seq<UserBlock>): seq<string> {
    if bs == [] then []
    else UserTexts(bs[..|bs| - 1]) + (if bs[|bs| - 1].UserText? then [bs[|bs| - 1].text] else [])
  }

  predicate HasToolResult(bs: seq<UserBlock>) {
    exists i :: 0 <= i < |bs| && bs[i].ToolResult?
  }

  function FeedUser(st: State, isMeta: bool, content: UserContent, uuid: Option<string>, time: Option<string>): State
    requires Sound(st)
  {
    if isMeta then st
    else match content
      case NoContent => st
      case Text(text) => Emit(st, UserTurnOf(text, uuid, time))
      case BlockList(bs) =>
        if HasToolResult(bs) then FeedResults(st, bs, time)
        else Emit(st, UserTurnOf(Strip(Join(UserTexts(bs), "\n")), uuid, time))
  }

  // ---- Lines ----

  /** The subtype with spaces for underscores; `name` is spelled that way already. */
  function SubtypeLabel(subtype: Subtype): string {
    match subtype
    case NoSubtype => ""
    case TurnDuration => "turn duration"
    case StopHookSummary => "stop hook summary"
    case OtherSubtype(name) => name
  }

  function SystemTurnOf(subtype: Subtype, text: string, uuid: Option<string>, time: Option<string>): Option<Turn> {
    if subtype.NoSubtype? && text == "" then None
    else
      var shown := if text != "" then text else SubtypeLabel(subtype);
      Some(SystemTurn(shown, if subtype.StopHookSummary? then StopHook else Notice,
                      if Truthy(uuid) then Own(uuid) else HashOf(shown), time))
  }

  /** Everything but a duration note closes what was open, even when it adds no turn of its own. */
  function FeedSystem(st: State, subtype: Subtype, text: string, uuid: Option<string>, time: Option<string>): State {
    if subtype.TurnDuration? then st
    else
      var s := FlushAll(st);
      match SystemTurnOf(subtype, text, uuid, time)
      case None => s
      case Some(t) => s.(turns := s.turns + [t])
  }

  function Feed(st: State, line: Line): (r: State)
    requires Sound(st)
  {
    match line
    case Unparsed(_) => st
    case Parsed(e) =>
      match e.body
      case UserBody(isMeta, content) => FeedUser(st, isMeta, content, e.uuid, e.timestamp)
      case AgentBody(subagent, synthetic, rateLimited, bs) =>
        if subagent || synthetic then st
        else if rateLimited then Emit(st, Some(SystemTurn(RateLimitText(bs), RateLimit, Own(e.uuid), e.timestamp)))
        else FeedBlocks(st, bs, e.uuid, e.timestamp)
      case SystemBody(subtype, text) => FeedSystem(st, subtype, text, e.uuid, e.timestamp)
      case OtherBody(_) => st
  }

  lemma FeedBlockKeepsSound(st: State, b: AgentBlock, uuid: Option<string>, time: Option<string>)
    requires Sound(st)
    ensures Sound(FeedBlock(st, b, uuid, time))
  {
  }

  lemma {:induction false} FeedBlocksKeepsSound(st: State, bs: seq<AgentBlock>, uuid: Option<string>, time: Option<string>)
    requires Sound(st)
    ensures Sound(FeedBlocks(st, bs, uuid, time))
  {
    if bs != [] {
      FeedBlocksKeepsSound(st, bs[..|bs| - 1], uuid, time);
      FeedBlockKeepsSound(FeedBlocks(st, bs[..|bs| - 1], uuid, time), bs[|bs| - 1], uuid, time);
    }
  }

  lemma EmitKeepsSound(st: State, turn: Option<Turn>)
    requires Sound(st)
    ensures Sound(Emit(st, turn))
  {
  }

  lemma FeedUserKeepsSound(st: State, isMeta: bool, content: UserContent, uuid: Option<string>, time: Option<string>)
    requires Sound(st)
    ensures Sound(FeedUser(st, isMeta, content, uuid, time))
  {
    if content.Text? {
      EmitKeepsSound(st, UserTurnOf(content.text, uuid, time));
    } else if content.BlockList? {
      EmitKeepsSound(st, UserTurnOf(Strip(Join(UserTexts(content.blocks), "\n")), uuid, time));
    }
  }

  lemma FeedSystemKeepsSound(st: State, subtype: Subtype, text: string, uuid: Option<string>, time: Option<string>)
    requires Sound(st)
    ensures Sound(FeedSystem(st, subtype, text, uuid, time))
  {
    FlushKeepsSound(st);
  }

  lemma FeedKeepsSound(st: State, line: Line)
    requires Sound(st)
    ensures Sound(Feed(st, line))
  {
    if line.Parsed? {
      var e := line.entry;
      match e.body
      case UserBody(isMeta, content) => FeedUserKeepsSound(st, isMeta, content, e.uuid, e.timestamp);
      case AgentBody(_, _, _, bs) =>
        EmitKeepsSound(st, Some(SystemTurn(RateLimitText(bs), RateLimit, Own(e.uuid), e.timestamp)));
        FeedBlocksKeepsSound(st, bs, e.uuid, e.timestamp);
      case SystemBody(subtype, text) => FeedSystemKeepsSound(st, subtype, text, e.uuid, e.timestamp);
      case OtherBody(_) =>
    }
  }

  function FeedAll(st: State, lines: seq<Line>): (r: State)
    requires Sound(st)
    ensures Sound(r)
  {
    if lines == [] then st
    else
      var s := FeedAll(st, lines[..|lines| - 1]);
      FeedKeepsSound(s, lines[|lines| - 1]);
      Feed(s, lines[|lines| - 1])
  }

  // ---- The result ----

  function UserUuids(turns: seq<Turn>): set<string> {
    set i | 0 <= i < |turns| && turns[i].UserTurn? && Truthy(turns[i].uuid) :: turns[i].uuid.value
  }

  lemma UuidAdded(turns: seq<Turn>, t: Turn)
    ensures UserUuids(turns + [t])
            == UserUuids(turns) + (if t.UserTurn? && Truthy(t.uuid) then {t.uuid.value} else {})
  {
    var all := turns + [t];
    assert all[|turns|] == t;
    forall x | x in UserUuids(turns) ensures x in UserUuids(all) {
      var i :| 0 <= i < |turns| && turns[i].UserTurn? && Truthy(turns[i].uuid) && turns[i].uuid.value == x;
      assert all[i] == turns[i];
    }
  }

  predicate Repeats(seen: set<string>, t: Turn) {
    t.UserTurn? && Truthy(t.uuid) && t.uuid.value in seen
  }

  /** Later user turns with an id already seen are dropped. */
  function Dedup(turns: seq<Turn>): seq<Turn> {
    if turns == [] then []
    else
      var init, last := turns[..|turns| - 1], turns[|turns| - 1];
      Dedup(init) + if Repeats(UserUuids(init), last) then [] else [last]
  }

  datatype Result = Result(turns: seq<Turn>, cards: seq<Item>)

  function Parse(lines: seq<Line>): Result {
    var s := FlushAll(FeedAll(START, lines));
    Result(Dedup(s.turns), s.cards)
  }

  /** What has been emitted once all lines are read, before the final flush. */
  function Settled(lines: seq<Line>): seq<Turn> {
    Dedup(FeedAll(START, lines).turns)
  }
}
