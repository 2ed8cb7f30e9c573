/**
 What each block of an agent's entry becomes, what a result does to its card, and what is
 left of texts with the markers of older agents.
 */
module ParserBlocks {
  import opened Collections
  import opened Strings
  import opened TextSearch
  import opened InteractiveItems
  import opened AgentPreamble
  import opened Transcript
  import opened SessionParser
  import opened ParserSteps
  import opened ParserTheorems

  // ---- Calls ----

  /** The card says what the call asks, and is not answered yet. */
  predicate AsksFor(card: Item, b: AgentBlock)
    requires b.ToolUse?
  {
    && card.toolUseId == b.id && card.details == b.details && !card.autoApproved
    && card.answer == None && card.selectedIndex == None && card.selected == map[]
    && (b.tool == AskTool ==> card.kind == AskUserQuestion && card.questions == b.questions && card.plan == "")
    && (b.tool == PlanTool ==> card.kind == ExitPlanMode && card.questions == [] && card.plan == b.plan)
  }

  /** A question and a plan become a new card, waiting under the call's id; the text before them is closed. */
  lemma InteractiveCallIsRead(st: State, b: AgentBlock, uuid: Option<string>, time: Option<string>)
    requires b.ToolUse? && (b.tool == AskTool || b.tool == PlanTool)
    ensures var t, n := FeedBlock(st, b, uuid, time), |st.cards|;
            && |t.cards| == n + 1 && t.cards[..n] == st.cards && AsksFor(t.cards[n], b)
            && t.pending == st.pending + [n] && t.byId == st.byId[b.id := n]
            && t.turns == FlushText(st).turns && t.parts == []
            && ItemOf(b, uuid, time) == [Card(if b.tool == AskTool then AskUserQuestion else ExitPlanMode, b.id)]
  {
  }

  /** Any other call is a turn of its own, but for the one tool that is not shown. */
  lemma CallIsRead(st: State, b: AgentBlock, uuid: Option<string>, time: Option<string>)
    requires b.ToolUse? && b.tool != AskTool && b.tool != PlanTool
    ensures b.tool != SearchTool ==>
              && FeedBlock(st, b, uuid, time) == FlushText(st).(turns := FlushText(st).turns + [ToolTurn(b.tool, b.id, time)])
              && ItemOf(b, uuid, time) == [Call(b.tool, b.id, time)]
    ensures b.tool == SearchTool ==> FeedBlock(st, b, uuid, time) == FlushText(st) && ItemOf(b, uuid, time) == []
  {
  }

  // ---- Texts ----

  /** Two sizes in digits between the literals, and whatever follows. */
  ghost predicate Sizes(s: string, head: string, a: string, b: string, mid: string, c: string, d: string, rest: string) {
    && Digits(a) && Digits(b) && Digits(c) && Digits(d)
    && s == head + a + "x" + b + mid + c + "x" + d + "." + rest
  }

  ghost predicate HasSizes(s: string, head: string, mid: string) {
    exists a, b, c, d, rest :: Sizes(s, head, a, b, mid, c, d, rest)
  }

  /** The note the CLI writes about an image. */
  ghost predicate ImageNote(s: string) {
    HasSizes(s, "[Image: original ", ", displayed at ")
  }

  /** `a`, an x and `b` from `i` on, and then the literal. */
  ghost predicate Sized(s: string, i: nat, a: string, b: string, after: string) {
    && Digits(a) && Digits(b) && i + |a| + 1 + |b| <= |s|
    && s[i..i + |a|] == a && s[i + |a|] == 'x' && s[i + |a| + 1..i + |a| + 1 + |b|] == b
    && At(s, after, i + |a| + 1 + |b|)
  }

  lemma SizedGives(s: string, i: nat, a: string, b: string, after: string)
    requires Sized(s, i, a, b, after)
    ensures SizeThen(s, i, after)
  {
    var x, e := i + |a|, i + |a| + 1 + |b|;
    assert s[i..x] == a && s[x + 1..e] == b;
  }

  lemma SizeThenGives(s: string, i: nat, after: string) returns (a: string, b: string)
    requires SizeThen(s, i, after)
    ensures Sized(s, i, a, b, after)
  {
    var x, e :| i < x < e <= |s| && s[x] == 'x' && Digits(s[i..x]) && Digits(s[x + 1..e]) && At(s, after, e);
    a, b := s[i..x], s[x + 1..e];
  }

  /** Neither digits nor the x are a comma, so the first size ends where the literal is first found. */
  lemma SizeEndsAtComma(s: string, i: nat, a: string, b: string, after: string)
    requires Sized(s, i, a, b, after) && after != "" && after[0] == ','
    ensures FindFrom(s, after, i) == i + |a| + 1 + |b|
  {
    var e := i + |a| + 1 + |b|;
    forall j | i <= j < e ensures !At(s, after, j) {
      NoComma(s, i, a, b, after, j);
      OtherFirstChar(s, after, j);
    }
    FoundAt(s, after, i, e);
  }

  lemma NoComma(s: string, i: nat, a: string, b: string, after: string, j: nat)
    requires Sized(s, i, a, b, after) && i <= j < i + |a| + 1 + |b|
    ensures s[j] != ','
  {
    if j < i + |a| {
      assert s[j] == s[i..i + |a|][j - i];
    } else if j > i + |a| {
      assert s[j] == s[i + |a| + 1..i + |a| + 1 + |b|][j - i - |a| - 1];
    }
  }

  lemma NoteIsSized(s: string, head: string, a: string, b: string, mid: string, c: string, d: string, dot: string, rest: string)
    requires s == head + a + "x" + b + mid + c + "x" + d + dot + rest
    requires Digits(a) && Digits(b) && Digits(c) && Digits(d)
    ensures StartsWith(s, head) && Sized(s, |head|, a, b, mid)
    ensures Sized(s, |head| + |a| + 1 + |b| + |mid|, c, d, dot)
  {
    var k := |head| + |a| + 1 + |b| + |mid|;
    assert s[..|head|] == head && s[|head|..|head| + |a|] == a && s[|head| + |a| + 1..|head| + |a| + 1 + |b|] == b;
    assert s[|head| + |a| + 1 + |b|..k] == mid;
    assert s[k..k + |c|] == c && s[k + |c| + 1..k + |c| + 1 + |d|] == d;
    assert s[k + |c| + 1 + |d|..k + |c| + 1 + |d| + |dot|] == dot;
  }

  lemma SizedIsNote(s: string, head: string, a: string, b: string, mid: string, c: string, d: string, dot: string)
    requires StartsWith(s, head) && Sized(s, |head|, a, b, mid)
    requires Sized(s, |head| + |a| + 1 + |b| + |mid|, c, d, dot)
    ensures exists rest :: s == head + a + "x" + b + mid + c + "x" + d + dot + rest
  {
    var m := |head| + |a| + 1 + |b|;
    var k := m + |mid|;
    var e := k + |c| + 1 + |d|;
    assert s[..m] == head + a + "x" + b;
    assert s[..k] == s[..m] + mid;
    assert s[..e] == s[..k] + c + "x" + d;
    assert s == s[..e] + dot + s[e + |dot|..];
  }

  /** What the expression looks for. */
  predicate Looked(s: string, head: string, mid: string) {
    StartsWith(s, head) && SizeThen(s, |head|, mid)
    && var m := FindFrom(s, mid, |head|);
       m >= 0 && SizeThen(s, m + |mid|, ".")
  }

  lemma {:induction false} SizedIsLooked(s: string, head: string, a: string, b: string, mid: string, c: string, d: string, m: nat)
    requires StartsWith(s, head) && Sized(s, |head|, a, b, mid) && m == |head| + |a| + 1 + |b|
    requires Sized(s, m + |mid|, c, d, ".") && mid != "" && mid[0] == ','
    ensures Looked(s, head, mid)
  {
    SizeEndsAtComma(s, |head|, a, b, mid);
    SizedGives(s, |head|, a, b, mid);
    SizedGives(s, m + |mid|, c, d, ".");
  }

  lemma SizesAreFound(s: string, head: string, a: string, b: string, mid: string, c: string, d: string, rest: string)
    requires Sizes(s, head, a, b, mid, c, d, rest) && mid != "" && mid[0] == ','
    ensures Looked(s, head, mid)
  {
    NoteIsSized(s, head, a, b, mid, c, d, ".", rest);
    SizedIsLooked(s, head, a, b, mid, c, d, |head| + |a| + 1 + |b|);
  }

  lemma {:induction false} FoundAreSizes(s: string, head: string, mid: string, m: nat)
    requires StartsWith(s, head) && SizeThen(s, |head|, mid) && mid != "" && mid[0] == ','
    requires FindFrom(s, mid, |head|) == m && SizeThen(s, m + |mid|, ".")
    ensures HasSizes(s, head, mid)
  {
    var a, b := SizeThenGives(s, |head|, mid);
    SecondSize(s, head, a, b, mid, m);
  }

  lemma {:induction false} SecondSize(s: string, head: string, a: string, b: string, mid: string, m: nat)
    requires StartsWith(s, head) && Sized(s, |head|, a, b, mid) && mid != "" && mid[0] == ','
    requires FindFrom(s, mid, |head|) == m && SizeThen(s, m + |mid|, ".")
    ensures HasSizes(s, head, mid)
  {
    SizeEndsAtComma(s, |head|, a, b, mid);
    var c, d := SizeThenGives(s, m + |mid|, ".");
    SizedHasSizes(s, head, a, b, mid, c, d);
  }

  lemma SizedHasSizes(s: string, head: string, a: string, b: string, mid: string, c: string, d: string)
    requires StartsWith(s, head) && Sized(s, |head|, a, b, mid)
    requires Sized(s, |head| + |a| + 1 + |b| + |mid|, c, d, ".")
    ensures HasSizes(s, head, mid)
  {
    SizedIsNote(s, head, a, b, mid, c, d, ".");
    var rest :| s == head + a + "x" + b + mid + c + "x" + d + "." + rest;
    assert Sizes(s, head, a, b, mid, c, d, rest);
  }

  lemma LookedIs(s: string, head: string, mid: string)
    requires mid != "" && mid[0] == ','
    ensures Looked(s, head, mid) <==> HasSizes(s, head, mid)
  {
    if HasSizes(s, head, mid) {
      var a, b, c, d, rest :| Sizes(s, head, a, b, mid, c, d, rest);
      SizesAreFound(s, head, a, b, mid, c, d, rest);
    }
    if Looked(s, head, mid) { FoundAreSizes(s, head, mid, FindFrom(s, mid, |head|)); }
  }

  lemma NoteIsMetadata(text: string)
    ensures IsImageMetadata(text) <==> ImageNote(Strip(text))
  {
    LookedIs(Strip(text), "[Image: original ", ", displayed at ");
  }

  /** The agent's text is shown unless it is blank or such a note. */
  lemma TextIsRead(st: State, text: string, uuid: Option<string>, time: Option<string>)
    ensures var silent := Strip(text) == "" || ImageNote(Strip(text));
            && (silent ==> FeedBlock(st, AgentText(text), uuid, time) == st && ItemOf(AgentText(text), uuid, time) == [])
            && (!silent ==> FeedBlock(st, AgentText(text), uuid, time).parts == st.parts + [text]
                            && FeedBlock(st, AgentText(text), uuid, time).turns == st.turns
                            && ItemOf(AgentText(text), uuid, time) == [Prose(text, uuid, time)])
  {
    NoteIsMetadata(text);
  }

  // ---- Results ----

  /** What a result says: its text, or its texts joined by blanks and stripped. */
  predicate ResultSays(b: UserBlock, text: string)
    requires b.ToolResult?
  {
    match b.result
    case Whole(t) => text == t
    case Pieces(texts) => text == Strip(Join(texts, " "))
  }

  /** A result for a card of the table is its answer, whatever it says, unless it is an error that names a
      failed validation; the card stays in the table, other cards are left alone, and all cards
      waiting are shown. */
  lemma ResultIsAnswer(st: State, b: UserBlock, text: string, time: Option<string>)
    requires Sound(st) && b.ToolResult? && b.toolUseId in st.byId && ResultSays(b, text)
    requires !b.isError || !Contains(text, "InputValidationError")
    ensures var t, n := FeedResult(st, b, time), st.byId[b.toolUseId];
            && |t.cards| == |st.cards| && t.byId == st.byId && t.pending == [] && t.parts == []
            && t.cards[n] == DeriveSelected(st.cards[n].(answer := Some(text))) && t.cards[n].answer == Some(text)
            && forall k :: 0 <= k < |st.cards| && k != n ==> t.cards[k] == st.cards[k]
  {
    AnsweredCardIs(st, b.toolUseId, text);
    DeriveOnlyFills(st.cards[st.byId[b.toolUseId]].(answer := Some(text)));
  }

  lemma AnsweredCardIs(st: State, id: string, text: string)
    requires Sound(st) && id in st.byId
    ensures var t, n := Answer(st, id, text), st.byId[id];
            && t.cards == st.cards[n := DeriveSelected(st.cards[n].(answer := Some(text)))]
            && t.byId == st.byId && t.pending == [] && t.parts == []
  {
  }

  /** Such an error takes the card out of the table and changes no card. */
  lemma ResultIsRefusal(st: State, b: UserBlock, text: string, time: Option<string>)
    requires Sound(st) && b.ToolResult? && b.toolUseId in st.byId && ResultSays(b, text)
    requires b.isError && Contains(text, "InputValidationError")
    ensures var t := FeedResult(st, b, time);
            t.cards == st.cards && t.byId == st.byId - {b.toolUseId}
  {
    RejectedIs(st, b.toolUseId, time);
  }

  lemma RejectedIs(st: State, id: string, time: Option<string>)
    requires Sound(st) && id in st.byId
    ensures Reject(st, id, time).cards == st.cards && Reject(st, id, time).byId == st.byId - {id}
  {
  }

  /** A result for no card of the table is passed over. */
  lemma StrayResult(st: State, b: UserBlock, time: Option<string>)
    requires Sound(st) && (!b.ToolResult? || b.toolUseId !in st.byId)
    ensures FeedResult(st, b, time) == st
  {
  }

  lemma {:induction false} StrayResults(st: State, bs: seq<UserBlock>, time: Option<string>)
    requires Sound(st) && forall i :: 0 <= i < |bs| ==> !bs[i].ToolResult? || bs[i].toolUseId !in st.byId
    ensures FeedResults(st, bs, time) == st
  {
    if bs != [] {
      StrayResults(st, bs[..|bs| - 1], time);
      StrayResult(st, bs[|bs| - 1], time);
    }
  }

  /** What stands beside a result is not read as said by the user: where no result is for a card, the whole
      entry changes nothing. */
  lemma TextBesideResult(st: State, e: Entry, bs: seq<UserBlock>, k: nat)
    requires Sound(st) && e.body == UserBody(false, BlockList(bs)) && k < |bs| && bs[k].ToolResult?
    requires forall i :: 0 <= i < |bs| && bs[i].ToolResult? ==> bs[i].toolUseId !in st.byId
    ensures Feed(st, Parsed(e)) == st
  {
    StrayResults(st, bs, e.timestamp);
  }

  // ---- Old markers ----

  lemma OnePart(part: string)
    requires part != "" && Trimmed(part)
    ensures Render([part]) == DropFailure(DropSuccess(part))
  {
    StripTrimmed(part);
    assert [part][..0] == [];
    assert Stripped([part]) == [part];
  }

  lemma SuccessDropped(s: string, t: string, mark: string)
    requires s == t + ("\n" + mark) && mark == SUCCESS && Trimmed(t)
    ensures DropSuccess(s) == t
  {
    var n := |s| - |mark|;
    assert s[|s| - 1] == 'S' && s[n - 1] == '\n' && s[..n - 1] == t && s[n..] == mark;
    StripTrimmed(t);
  }

  /** A text that ends in the success marker is shown without it. */
  lemma SuccessIsNotShown(t: string)
    requires t != "" && Trimmed(t) && Unmarked(t)
    ensures Render([t + ("\n" + "EXIT_SUCCESS")]) == t
  {
    var s := t + ("\n" + "EXIT_SUCCESS");
    assert s[0] == t[0] && s[|s| - 1] == 'S';
    OnePart(s);
    SuccessDropped(s, t, "EXIT_SUCCESS");
    NothingDropped(t);
    FailureStays(t);
  }

  lemma FailureStays(t: string)
    requires Unmarked(t)
    ensures DropFailure(t) == t
  {
    assert forall i :: 0 <= i <= |t| ==> !At(t, FAILURE, i);
  }

  lemma {:induction false} LastLineStarts(t: string, line: string)
    requires HasNo(line, '\n')
    ensures LastLine(t + "\n" + line) == |t| + 1
  {
    var s := t + "\n" + line;
    if line == "" {
      assert s[|s| - 1] == '\n';
    } else {
      assert s[|s| - 1] == line[|line| - 1];
      assert s[..|s| - 1] == t + "\n" + line[..|line| - 1];
      LastLineStarts(t, line[..|line| - 1]);
    }
  }

  lemma FailureDropped(s: string, t: string, line: string)
    requires s == t + "\n" + line && HasNo(line, '\n') && StartsWith(line, FAILURE) && Trimmed(t)
    ensures DropFailure(s) == t
  {
    LastLineStarts(t, line);
    assert s[|t| + 1..|t| + 1 + |FAILURE|] == line[..|FAILURE|];
    FoundAt(s, FAILURE, |t| + 1, |t| + 1);
    assert s[|t|] == '\n' && s[..|t|] == t;
    StripTrimmed(t);
  }

  lemma NoSuccessAtEnd(s: string)
    requires Trimmed(s) && !EndsWith(s, SUCCESS)
    ensures DropSuccess(s) == s
  {
    assert RStrip(s) == s;
  }

  /** A last line that begins with the failure marker is not shown. */
  lemma FailureIsNotShown(t: string, reason: string)
    requires t != "" && Trimmed(t) && HasNo(reason, '\n')
    requires var s := t + "\n" + ("EXIT_FAILURE" + reason); Trimmed(s) && !EndsWith(s, SUCCESS)
    ensures Render([t + "\n" + ("EXIT_FAILURE" + reason)]) == t
  {
    var line := "EXIT_FAILURE" + reason;
    var s := t + "\n" + line;
    OnePart(s);
    NoSuccessAtEnd(s);
    NoBreak(line, "EXIT_FAILURE", reason);
    FailureDropped(s, t, line);
  }

  lemma NoBreak(line: string, mark: string, reason: string)
    requires line == mark + reason && mark == FAILURE && HasNo(reason, '\n')
    ensures HasNo(line, '\n') && StartsWith(line, FAILURE)
  {
    assert line[..|mark|] == mark;
  }
}
