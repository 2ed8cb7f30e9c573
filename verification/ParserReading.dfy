/**
 What each kind of entry becomes, in the entry's own words: which user texts are turns and
 which are not, what system notes and rate limits show, and what a card takes from its call.
 */
module ParserReading {
  import opened Collections
  import opened Strings
  import opened TextSearch
  import opened InteractiveItems
  import opened AgentPreamble
  import opened Transcript
  import opened SessionParser
  import opened ParserSteps
  import opened ParserTheorems

  /** Reading the line closes what was open and adds this turn, which is what the document says there. */
  ghost predicate ReadsAs(line: Line, turn: Turn) {
    && LineItems(line) == [Heard(turn)]
    && forall st: State :: Sound(st) ==> Feed(st, line) == FlushAll(st).(turns := FlushAll(st).turns + [turn])
  }

  /** Reading the line changes nothing. */
  ghost predicate ReadsAsNothing(line: Line) {
    LineItems(line) == [] && forall st: State :: Sound(st) ==> Feed(st, line) == st
  }

  // ---- Texts of a list of blocks ----

  lemma {:induction false} UserTextsConcat(a: seq<UserBlock>, b: seq<UserBlock>)
    ensures UserTexts(a + b) == UserTexts(a) + UserTexts(b)
  {
    if b == [] {
      assert a + b == a;
    } else {
      UserTextsConcat(a, b[..|b| - 1]);
      assert (a + b)[..|a + b| - 1] == a + b[..|b| - 1];
    }
  }

  lemma UserTextsOne(b: UserBlock)
    ensures UserTexts([b]) == if b.UserText? then [b.text] else []
  {
    assert [b][..0] == [];
  }

  lemma Around<T>(s: seq<T>, k: nat)
    requires k < |s|
    ensures s == (s[..k] + [s[k]]) + s[k + 1..]
  {
  }

  /** Every text block counts with its text and no other block does. */
  lemma UserTextsByBlock(bs: seq<UserBlock>, k: nat)
    requires k < |bs|
    ensures UserTexts(bs) == UserTexts(bs[..k]) + (if bs[k].UserText? then [bs[k].text] else []) + UserTexts(bs[k + 1..])
  {
    Around(bs, k);
    UserTextsConcat(bs[..k] + [bs[k]], bs[k + 1..]);
    UserTextsConcat(bs[..k], [bs[k]]);
    UserTextsOne(bs[k]);
  }

  lemma {:induction false} TextsConcat(a: seq<AgentBlock>, b: seq<AgentBlock>)
    ensures TextsOf(a + b) == TextsOf(a) + TextsOf(b)
  {
    if b == [] {
      assert a + b == a;
    } else {
      TextsConcat(a, b[..|b| - 1]);
      assert (a + b)[..|a + b| - 1] == a + b[..|b| - 1];
    }
  }

  lemma {:induction false} StrippedConcat(a: seq<string>, b: seq<string>)
    ensures Stripped(a + b) == Stripped(a) + Stripped(b)
  {
    if b == [] {
      assert a + b == a;
    } else {
      StrippedConcat(a, b[..|b| - 1]);
      assert (a + b)[..|a + b| - 1] == a + b[..|b| - 1];
    }
  }

  lemma TextsOne(b: AgentBlock)
    ensures TextsOf([b]) == if b.AgentText? then [b.text] else []
  {
    assert [b][..0] == [];
  }

  lemma StrippedOne(part: string)
    ensures Stripped([part]) == if Strip(part) == "" then [] else [Strip(part)]
  {
    assert [part][..0] == [];
  }

  /** So do the agent's texts, each stripped, unless it is blank. */
  lemma AgentTextsByBlock(bs: seq<AgentBlock>, k: nat)
    requires k < |bs|
    ensures Stripped(TextsOf(bs))
            == Stripped(TextsOf(bs[..k])) + (if bs[k].AgentText? && Strip(bs[k].text) != "" then [Strip(bs[k].text)] else [])
               + Stripped(TextsOf(bs[k + 1..]))
  {
    Around(bs, k);
    TextsConcat(bs[..k] + [bs[k]], bs[k + 1..]);
    TextsConcat(bs[..k], [bs[k]]);
    TextsOne(bs[k]);
    StrippedConcat(TextsOf(bs[..k]) + TextsOf([bs[k]]), TextsOf(bs[k + 1..]));
    StrippedConcat(TextsOf(bs[..k]), TextsOf([bs[k]]));
    if bs[k].AgentText? { StrippedOne(bs[k].text); }
  }

  // ---- What the user says ----

  /** What a user entry says: its text, or the texts of its blocks where it holds no result. */
  predicate Speaks(content: UserContent, text: string) {
    match content
    case NoContent => false
    case Text(t) => text == t
    case BlockList(bs) => (forall i :: 0 <= i < |bs| ==> !bs[i].ToolResult?) && text == Strip(Join(UserTexts(bs), "\n"))
  }

  /** One of the six tags that the CLI puts in front of what no user typed. */
  predicate TagFirst(s: string) {
    || StartsWith(s, "<command-name>") || StartsWith(s, "<command-message>")
    || StartsWith(s, "<local-command-caveat>") || StartsWith(s, "<local-command-stdout>")
    || StartsWith(s, "<system-reminder>") || StartsWith(s, "<task-notification>")
  }

  /** In brackets, with the word in any case. */
  predicate Bracketed(s: string) {
    s != "" && s[0] == '[' && s[|s| - 1] == ']' && Contains(Lower(s), "interrupt")
  }

  predicate Continues(s: string) {
    StartsWith(s, "This session is being " + "continued from a previous conversation")
  }

  lemma FirstChar(s: string, p: string, c: char)
    requires p != "" && p[0] == c && StartsWith(s, p)
    ensures s != "" && s[0] == c
  {
  }

  lemma Brackets(s: string, open: string, close: string)
    requires open == "[" && close == "]" && s != ""
    ensures StartsWith(s, open) <==> s[0] == '['
    ensures EndsWith(s, close) <==> s[|s| - 1] == ']'
  {
    assert s[..1] == [s[0]] && s[|s| - 1..] == [s[|s| - 1]];
  }

  lemma InterruptIs(s: string)
    ensures IsInterrupt(s) <==> Bracketed(s)
  {
    if s != "" { Brackets(s, "[", "]"); }
  }

  lemma TagsBeginWithAngle(s: string)
    ensures TagFirst(s) ==> s != "" && s[0] == '<'
    ensures Continues(s) ==> s != "" && s[0] == 'T'
  {
    if Continues(s) { FirstChar(s, "This session is being " + "continued from a previous conversation", 'T'); }
  }

  lemma OrdinaryIsPlain(s: string)
    requires s != "" && !TagFirst(s) && !Bracketed(s) && !Continues(s)
    ensures Classify(s) == Plain
  {
    InterruptIs(s);
  }

  lemma BracketedIsInterrupt(s: string)
    requires Bracketed(s)
    ensures Classify(s) == InterruptMark
  {
    InterruptIs(s);
    TagsBeginWithAngle(s);
  }

  lemma ContinuingIsSummary(s: string)
    requires Continues(s)
    ensures Classify(s) == CompactSummary
  {
    InterruptIs(s);
    TagsBeginWithAngle(s);
  }

  lemma EmittedTurn(line: Line, content: UserContent, text: string, turn: Turn)
    requires line.Parsed? && line.entry.body == UserBody(false, content) && Speaks(content, text)
    requires UserTurnOf(text, line.entry.uuid, line.entry.timestamp) == Some(turn)
    ensures ReadsAs(line, turn)
  {
  }

  lemma EmittedNothing(line: Line, content: UserContent, text: string)
    requires line.Parsed? && line.entry.body == UserBody(false, content) && Speaks(content, text)
    requires UserTurnOf(text, line.entry.uuid, line.entry.timestamp) == None
    ensures ReadsAsNothing(line)
  {
  }

  lemma PlainIsRead(line: Line, content: UserContent, text: string)
    requires line.Parsed? && line.entry.body == UserBody(false, content) && Speaks(content, text)
    requires Classify(Strip(text)) == Plain
    ensures ReadsAs(line, UserTurn(StripAgentPreamble(Strip(text)), false, line.entry.uuid, line.entry.timestamp))
  {
    EmittedTurn(line, content, text, UserTurn(StripAgentPreamble(Strip(text)), false, line.entry.uuid, line.entry.timestamp));
  }

  /** An ordinary message: exactly one turn of the user's, with the text stripped and unwrapped. */
  lemma OrdinaryTextIsRead(e: Entry, text: string)
    requires e.body.UserBody? && !e.body.isMeta && Speaks(e.body.content, text)
    requires Strip(text) != "" && !TagFirst(Strip(text)) && !Bracketed(Strip(text)) && !Continues(Strip(text))
    ensures ReadsAs(Parsed(e), UserTurn(StripAgentPreamble(Strip(text)), false, e.uuid, e.timestamp))
  {
    OrdinaryIsPlain(Strip(text));
    PlainIsRead(Parsed(e), e.body.content, text);
  }

  lemma InnerText(s: string, inner: string)
    requires s == "[" + inner + "]"
    ensures s != "" && s[0] == '[' && s[|s| - 1] == ']' && WithoutBrackets(s) == inner
  {
  }

  lemma MarkIsRead(line: Line, content: UserContent, text: string, inner: string)
    requires line.Parsed? && line.entry.body == UserBody(false, content) && Speaks(content, text)
    requires Classify(Strip(text)) == InterruptMark && WithoutBrackets(Strip(text)) == inner
    ensures ReadsAs(line, SystemTurn(inner, Interrupt, Own(line.entry.uuid), line.entry.timestamp))
  {
    EmittedTurn(line, content, text, SystemTurn(inner, Interrupt, Own(line.entry.uuid), line.entry.timestamp));
  }

  /** The interrupt marker: a system turn with what the brackets hold. */
  lemma InterruptIsRead(e: Entry, text: string, inner: string)
    requires e.body.UserBody? && !e.body.isMeta && Speaks(e.body.content, text)
    requires Strip(text) == "[" + inner + "]" && Contains(Lower(Strip(text)), "interrupt")
    ensures ReadsAs(Parsed(e), SystemTurn(inner, Interrupt, Own(e.uuid), e.timestamp))
  {
    InnerText(Strip(text), inner);
    BracketedIsInterrupt(Strip(text));
    MarkIsRead(Parsed(e), e.body.content, text, inner);
  }

  /** The summary of a compacted session: a system turn with the whole text, known by the text. */
  lemma SummaryIsRead(e: Entry, text: string)
    requires e.body.UserBody? && !e.body.isMeta && Speaks(e.body.content, text) && Continues(Strip(text))
    ensures ReadsAs(Parsed(e), SystemTurn(text, Notice, HashOf(text), e.timestamp))
  {
    ContinuingIsSummary(Strip(text));
    EmittedTurn(Parsed(e), e.body.content, text, SystemTurn(text, Notice, HashOf(text), e.timestamp));
  }

  lemma SecondChar(s: string, p: string, c: char)
    requires |p| > 1 && p[1] == c && StartsWith(s, p)
    ensures |s| > 1 && s[1] == c
  {
  }

  lemma CommandsBeginWithC(s: string)
    ensures CommandEcho(s) ==> |s| > 1 && s[1] == 'c'
  {
    if StartsWith(s, "<command-name>") { SecondChar(s, "<command-name>", 'c'); }
    if StartsWith(s, "<command-message>") { SecondChar(s, "<command-message>", 'c'); }
  }

  lemma InjectionsDoNot(s: string)
    ensures Injected(s) ==> |s| > 1 && s[1] != 'c'
  {
    if StartsWith(s, "<local-command-caveat>") { SecondChar(s, "<local-command-caveat>", 'l'); }
    if StartsWith(s, "<local-command-stdout>") { SecondChar(s, "<local-command-stdout>", 'l'); }
    if StartsWith(s, "<system-reminder>") { SecondChar(s, "<system-reminder>", 's'); }
    if StartsWith(s, "<task-notification>") { SecondChar(s, "<task-notification>", 't'); }
  }

  lemma InjectedIs(s: string)
    requires || StartsWith(s, "<local-command-caveat>") || StartsWith(s, "<local-command-stdout>")
             || StartsWith(s, "<system-reminder>") || StartsWith(s, "<task-notification>")
    ensures Classify(s) == Injection
  {
    assert Injected(s);
    InjectionsDoNot(s);
    CommandsBeginWithC(s);
  }

  lemma NothingIsRead(e: Entry, text: string)
    requires e.body.UserBody? && !e.body.isMeta && Speaks(e.body.content, text)
    requires Classify(Strip(text)) == Blank || Classify(Strip(text)) == Injection
    ensures ReadsAsNothing(Parsed(e))
  {
    EmittedNothing(Parsed(e), e.body.content, text);
  }

  /** Blank texts, texts the CLI injects, hidden entries and entries without text are no turns. */
  lemma InjectedIsNotRead(e: Entry, text: string)
    requires e.body.UserBody? && Speaks(e.body.content, text)
    requires e.body.isMeta || Strip(text) == ""
             || StartsWith(Strip(text), "<local-command-caveat>") || StartsWith(Strip(text), "<local-command-stdout>")
             || StartsWith(Strip(text), "<system-reminder>") || StartsWith(Strip(text), "<task-notification>")
    ensures ReadsAsNothing(Parsed(e))
  {
    if e.body.isMeta {
      HiddenIsNotRead(e);
    } else {
      if Strip(text) != "" { InjectedIs(Strip(text)); }
      NothingIsRead(e, text);
    }
  }

  lemma HiddenIsNotRead(e: Entry)
    requires e.body.UserBody? && (e.body.isMeta || e.body.content.NoContent?)
    ensures ReadsAsNothing(Parsed(e))
  {
  }

  // ---- Slash commands ----

  ghost predicate EnclosesAt(s: string, open: string, inner: string, close: string, i: nat) {
    && At(s, open, i) && (forall j :: 0 <= j < i ==> !At(s, open, j))
    && i + |open| + |inner| <= |s| && s[i + |open|..i + |open| + |inner|] == inner
    && At(s, close, i + |open| + |inner|)
    && (forall j :: i + |open| <= j < i + |open| + |inner| ==> !At(s, close, j))
  }

  /** `inner` stands between the first `open` and the first `close` after it. */
  ghost predicate Encloses(s: string, open: string, inner: string, close: string) {
    exists i: nat :: EnclosesAt(s, open, inner, close, i)
  }

  lemma EnclosedIsTagged(s: string, open: string, inner: string, close: string, i: nat)
    requires EnclosesAt(s, open, inner, close, i)
    ensures Tagged(s, open, close) == Some(inner)
  {
    FoundAt(s, open, 0, i);
    FoundAt(s, close, i + |open|, i + |open| + |inner|);
  }

  lemma TaggedIsEnclosed(s: string, open: string, inner: string, close: string)
    requires Tagged(s, open, close) == Some(inner)
    ensures EnclosesAt(s, open, inner, close, Find(s, open))
  {
  }

  lemma TaggedIs(s: string, open: string, inner: string, close: string)
    ensures Encloses(s, open, inner, close) <==> Tagged(s, open, close) == Some(inner)
  {
    if Encloses(s, open, inner, close) {
      var i: nat :| EnclosesAt(s, open, inner, close, i);
      EnclosedIsTagged(s, open, inner, close, i);
    }
    if Tagged(s, open, close) == Some(inner) { TaggedIsEnclosed(s, open, inner, close); }
  }

  lemma {:induction false} TrimmedIsStripped(s: string)
    ensures Trimmed(Strip(s))
  {
    LStripTrims(s);
    RStripTrims(LStrip(s));
  }

  lemma CommandWithArguments(name: string, args: string)
    requires Strip(args) != ""
    ensures RStrip(Strip(name) + " " + Strip(args)) == Strip(name) + " " + Strip(args)
  {
    TrimmedIsStripped(args);
  }

  lemma CommandAlone(name: string)
    ensures RStrip(Strip(name) + " " + "") == Strip(name)
  {
    var s := Strip(name) + " " + "";
    TrimmedIsStripped(name);
    assert s[|s| - 1] == ' ' && s[..|s| - 1] == Strip(name);
  }

  ghost predicate Without(s: string, open: string, close: string) {
    forall inner :: !Encloses(s, open, inner, close)
  }

  lemma UntaggedIs(s: string, open: string, close: string)
    ensures Without(s, open, close) <==> Tagged(s, open, close) == None
  {
    if Tagged(s, open, close).Some? {
      TaggedIs(s, open, Tagged(s, open, close).value, close);
    } else {
      forall inner ensures !Encloses(s, open, inner, close) { TaggedIs(s, open, inner, close); }
    }
  }

  /** The echo of a slash command with both tags: the command, and its arguments if there are any, as the
      user typed them. */
  lemma CommandIsRead(e: Entry, text: string, name: string, message: string)
    requires e.body.UserBody? && !e.body.isMeta && Speaks(e.body.content, text)
    requires StartsWith(Strip(text), "<command-name>") || StartsWith(Strip(text), "<command-message>")
    requires Encloses(Strip(text), "<command-name>", name, "</command-name>")
    requires Encloses(Strip(text), "<command-message>", message, "</command-message>")
    ensures forall args :: Encloses(Strip(text), "<command-args>", args, "</command-args>") && Strip(args) != "" ==>
              ReadsAs(Parsed(e), UserTurn(Strip(name) + " " + Strip(args), true, e.uuid, e.timestamp))
    ensures forall args :: Encloses(Strip(text), "<command-args>", args, "</command-args>") && Strip(args) == "" ==>
              ReadsAs(Parsed(e), UserTurn(Strip(name), true, e.uuid, e.timestamp))
    ensures Without(Strip(text), "<command-args>", "</command-args>") ==>
              ReadsAs(Parsed(e), UserTurn(Strip(name), true, e.uuid, e.timestamp))
  {
    var s := Strip(text);
    TaggedIs(s, "<command-name>", name, "</command-name>");
    TaggedIs(s, "<command-message>", message, "</command-message>");
    UntaggedIs(s, "<command-args>", "</command-args>");
    CommandAlone(name);
    var args := Tagged(s, "<command-args>", "</command-args>");
    forall a | Encloses(s, "<command-args>", a, "</command-args>") ensures args == Some(a) {
      TaggedIs(s, "<command-args>", a, "</command-args>");
    }
    if args.Some? && Strip(args.value) != "" { CommandWithArguments(name, args.value); }
    var shown := if args.Some? && Strip(args.value) != "" then Strip(name) + " " + Strip(args.value) else Strip(name);
    EmittedTurn(Parsed(e), e.body.content, text, UserTurn(shown, true, e.uuid, e.timestamp));
  }

  /** With one of the two tags missing it is dropped. */
  lemma BrokenCommandIsNotRead(e: Entry, text: string)
    requires e.body.UserBody? && !e.body.isMeta && Speaks(e.body.content, text)
    requires StartsWith(Strip(text), "<command-name>") || StartsWith(Strip(text), "<command-message>")
    requires || Without(Strip(text), "<command-name>", "</command-name>")
             || Without(Strip(text), "<command-message>", "</command-message>")
    ensures ReadsAsNothing(Parsed(e))
  {
    UntaggedIs(Strip(text), "<command-name>", "</command-name>");
    UntaggedIs(Strip(text), "<command-message>", "</command-message>");
    EmittedNothing(Parsed(e), e.body.content, text);
  }

  // ---- What the system says ----

  /** A note of the system's: its text, or else what kind of note it is; a stop hook's is marked. */
  lemma NoteIsRead(e: Entry, shown: string)
    requires e.body.SystemBody? && e.body.subtype != TurnDuration && shown != ""
    requires e.body.text == shown || (e.body.text == "" && e.body.subtype == StopHookSummary && shown == "stop hook summary")
             || (e.body.text == "" && e.body.subtype == OtherSubtype(shown))
    ensures ReadsAs(Parsed(e), SystemTurn(shown, if e.body.subtype == StopHookSummary then StopHook else Notice,
                                          if e.uuid == None || e.uuid == Some("") then HashOf(shown) else Own(e.uuid),
                                          e.timestamp))
  {
  }

  /** A note without text or kind shows nothing but closes what was open; one of a turn's duration does not
      even that. */
  lemma SilentNote(e: Entry, st: State)
    requires e.body.SystemBody? && Sound(st)
    ensures LineItems(Parsed(e)) == [] <== e.body.subtype == TurnDuration || (e.body.subtype == NoSubtype && e.body.text == "")
    ensures e.body.subtype == TurnDuration ==> Feed(st, Parsed(e)) == st
    ensures e.body.subtype == NoSubtype && e.body.text == "" ==> Feed(st, Parsed(e)) == FlushAll(st)
  {
  }

  // ---- Rate limits ----

  lemma LimitIsRead(e: Entry, shown: string)
    requires e.body.AgentBody? && !e.body.subagent && !e.body.synthetic && e.body.rateLimited
    requires shown == RateLimitText(e.body.blocks)
    ensures ReadsAs(Parsed(e), SystemTurn(shown, RateLimit, Own(e.uuid), e.timestamp))
  {
  }

  /** A rate limit shows the texts of its blocks that are not blank, or a standing phrase. */
  lemma RateLimitIsRead(e: Entry)
    requires e.body.AgentBody? && !e.body.subagent && !e.body.synthetic && e.body.rateLimited
    ensures var texts := Stripped(TextsOf(e.body.blocks));
            ReadsAs(Parsed(e), SystemTurn(if texts == [] then "Rate limit reached" else Join(texts, " "),
                                          RateLimit, Own(e.uuid), e.timestamp))
  {
    StrippedIsNonBlank(TextsOf(e.body.blocks));
    JoinedIsNonBlank(Stripped(TextsOf(e.body.blocks)));
    LimitIsRead(e, RateLimitText(e.body.blocks));
  }

  lemma {:induction false} StrippedIsNonBlank(parts: seq<string>)
    ensures forall i :: 0 <= i < |Stripped(parts)| ==> Stripped(parts)[i] != ""
  {
    if parts != [] {
      StrippedIsNonBlank(parts[..|parts| - 1]);
    }
  }

  lemma JoinedIsNonBlank(parts: seq<string>)
    requires forall i :: 0 <= i < |parts| ==> parts[i] != ""
    ensures parts != [] ==> Join(parts, " ") != ""
  {
  }

  /** Entries of subagents and the CLI's own synthetic replies are not read. */
  lemma AsideIsNotRead(e: Entry)
    requires (e.body.AgentBody? && (e.body.subagent || e.body.synthetic)) || e.body.OtherBody?
    ensures ReadsAsNothing(Parsed(e))
  {
  }

  // ---- Nothing read is lost ----

  lemma {:induction false} DedupKeepsUuids(turns: seq<Turn>)
    ensures UserUuids(Dedup(turns)) == UserUuids(turns)
  {
    if turns != [] {
      var init, last := turns[..|turns| - 1], turns[|turns| - 1];
      DedupKeepsUuids(init);
      SplitLast(turns);
      UuidAdded(init, last);
      DedupKeepsLast(init, last);
      UuidAdded(Dedup(init), last);
      assert Dedup(init) + [] == Dedup(init);
    }
  }

  lemma ReadLast(st: State, line: Line, turn: Turn)
    requires Sound(st) && ReadsAs(line, turn)
    ensures Dedup(Feed(st, line).turns) == Dedup(FlushAll(st).turns) + [turn]
            || (turn.UserTurn? && Truthy(turn.uuid) && turn.uuid.value in UserUuids(Dedup(Feed(st, line).turns)))
  {
    var before := FlushAll(st).turns;
    DedupKeepsLast(before, turn);
    DedupKeepsUuids(before);
    if Repeats(UserUuids(before), turn) { assert Dedup(before) + [] == Dedup(before); }
  }

  lemma UuidsGrow(a: seq<Turn>, b: seq<Turn>)
    requires a <= b
    ensures UserUuids(a) <= UserUuids(b)
  {
    forall x | x in UserUuids(a) ensures x in UserUuids(b) {
      var i :| 0 <= i < |a| && a[i].UserTurn? && Truthy(a[i].uuid) && a[i].uuid.value == x;
      assert b[i] == a[i];
    }
  }

  lemma ReadUpTo(lines: seq<Line>, i: nat)
    requires i < |lines|
    ensures FeedAll(START, lines[..i + 1]) == Feed(FeedAll(START, lines[..i]), lines[i])
    ensures Dedup(FeedAll(START, lines[..i + 1]).turns) <= Parse(lines).turns
  {
    assert lines[..i + 1][..i] == lines[..i] && lines == lines[..i + 1] + lines[i + 1..];
    ParseInTwo(lines[..i + 1], lines[i + 1..]);
    RestGrows(FeedAll(START, lines[..i + 1]), lines[i + 1..]);
  }

  ghost predicate IdIsThere(turns: seq<Turn>, id: string) {
    exists k {:trigger turns[k]} :: 0 <= k < |turns| && turns[k].UserTurn? && turns[k].uuid == Some(id)
  }

  lemma UuidIsThere(turns: seq<Turn>, id: string)
    requires id in UserUuids(turns)
    ensures IdIsThere(turns, id)
  {
  }

  lemma LastOfPrefix(a: seq<Turn>, turn: Turn, b: seq<Turn>)
    requires a + [turn] <= b
    ensures turn in b
  {
    assert (a + [turn])[|a|] == turn && b[|a|] == turn;
  }

  /** Main result for what is said: the turn that a line is read as is among the turns of the whole file,
      wherever the line stands, unless it is the user's and another turn of the user's has its id. */
  lemma ReadIsShown(lines: seq<Line>, i: nat, turn: Turn)
    requires i < |lines| && ReadsAs(lines[i], turn)
    ensures turn in Parse(lines).turns
            || (turn.UserTurn? && turn.uuid.Some? && turn.uuid.value != "" && IdIsThere(Parse(lines).turns, turn.uuid.value))
  {
    var st := FeedAll(START, lines[..i]);
    ReadUpTo(lines, i);
    ReadLast(st, lines[i], turn);
    var settled := Dedup(Feed(st, lines[i]).turns);
    if settled == Dedup(FlushAll(st).turns) + [turn] {
      LastOfPrefix(Dedup(FlushAll(st).turns), turn, Parse(lines).turns);
    } else {
      UuidsGrow(settled, Parse(lines).turns);
      UuidIsThere(Parse(lines).turns, turn.uuid.value);
    }
  }
}
