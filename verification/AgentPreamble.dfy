/**
 Removing the project wrapper from a user message found in a transcript, with the
 optional blocks that older versions of the wrapper contained.
 */
module AgentPreamble {
  import opened Collections
  import opened Strings
  import opened TextSearch
  import opened TaskPrompts
  import opened PromptUnwrap

  const MARKER := "<!-- xylocopa-prompt"
  const OLD_MARKER := "<!-- agenthive-prompt"
  const PAST_INSIGHTS := "Relevant past insights"
  const HISTORY := "## Recent conversation context"

  /** End of the line that contains position `i`, past its newline, or -1. */
  function LineEnd(s: string, i: nat): int {
    var nl := FindFrom(s, "\n", i);
    if nl < 0 then -1 else nl + 1
  }

  /** The optional marker comment on the first line. */
  function MarkerEnd(s: string): nat {
    var n := if StartsWith(s, MARKER) then |MARKER| else if StartsWith(s, OLD_MARKER) then |OLD_MARKER| else 0;
    if n == 0 then 0
    else
      var close := FindFrom(s, ">", n);
      if close >= n + 2 && At(s, "--", close - 2) && At(s, "\n", close + 1) then close + 2 else 0
  }

  /** `p`, a name, `q`, another name, `c`: each name has at least one character. */
  function TwoNames(s: string, i: nat, p: string, q: string, c: string): Option<nat> {
    if !At(s, p, i) then None
    else
      var a := FindFrom(s, q, i + |p| + 1);
      if a < 0 then None
      else
        var b := FindFrom(s, c, a + |q| + 1);
        if b < 0 then None else Some(b + |c|)
  }

  /** Project line, path line and conventions line. */
  function WrapperEnd(s: string, i: nat): Option<nat> {
    TwoNames(s, i, PROJECT, PATH, CONVENTIONS)
  }

  /** An optional line with a given beginning. */
  function OptionalLine(s: string, i: nat, start: string): nat {
    if At(s, start, i) && LineEnd(s, i + |start|) >= 0 then LineEnd(s, i + |start|) else i
  }

  function BulletsEnd(s: string, i: nat): (r: nat)
    ensures r >= i
    decreases |s| - i
  {
    if At(s, "  - ", i) && LineEnd(s, i + 4) >= 0 then BulletsEnd(s, LineEnd(s, i + 4)) else i
  }

  /** The optional legacy insights block: a heading line, bullets, perhaps a blank line. */
  function PastInsightsEnd(s: string, i: nat): nat {
    if !At(s, PAST_INSIGHTS, i) || LineEnd(s, i + |PAST_INSIGHTS|) < 0 then i
    else
      var j := BulletsEnd(s, LineEnd(s, i + |PAST_INSIGHTS|));
      if At(s, "\n", j) then j + 1 else j
  }

  /** The optional history block, up to its first blank line. */
  function HistoryEnd(s: string, i: nat): nat {
    if !At(s, HISTORY, i) || LineEnd(s, i + |HISTORY|) < 0 then i
    else
      var k := LineEnd(s, i + |HISTORY|);
      if At(s, "\n", k) then k + 1
      else if FindFrom(s, "\n\n", k) >= 0 then FindFrom(s, "\n\n", k) + 2
      else i
  }

  function PreambleEnd(s: string): Option<nat> {
    match WrapperEnd(s, MarkerEnd(s))
    case None => None
    case Some(e) => Some(HistoryEnd(s, PastInsightsEnd(s, OptionalLine(s, e, MEMORY))))
  }

  function StripPreamble(s: string): string {
    match PreambleEnd(s)
    case None => s
    case Some(e) => if e <= |s| then s[e..] else ""
  }

  /** The closing line sits at the very end, or before one last newline. */
  function ClosingAt(s: string): (p: Option<nat>)
    ensures p.Some? ==> At(s, CLOSING, p.value)
  {
    if EndsWith(s, CLOSING) then Some(|s| - |CLOSING|)
    else if s != "" && s[|s| - 1] == '\n' && EndsWith(s[..|s| - 1], CLOSING) then
      var p := |s| - 1 - |CLOSING|;
      assert s[p..p + |CLOSING|] == s[..|s| - 1][p..];
      Some(p)
    else None
  }

  /** Everything from the insights block, if there is one, to the closing line. */
  function StripPostamble(s: string): string {
    match ClosingAt(s)
    case None => s
    case Some(p) =>
      var i := Find(s, INSIGHTS);
      var cut := if 0 <= i && i + |INSIGHTS| <= p then i else p;
      s[..cut] + s[p + |CLOSING|..]
  }

  function StripAgentPreamble(content: string): string {
    var text := StripPostamble(StripPreamble(content));
    if text != content then Strip(text) else content
  }

  // ---- Round trip ----

  /** A one-line text followed by something that starts a new line is skipped by a search for it. */
  lemma AfterOneLine(pre: string, a: string, d: string, rest: string, i: nat)
    requires HasNo(a, '\n') && d != "" && d[0] == '\n' && |pre| <= i <= |pre| + |a|
    ensures FindFrom(pre + (a + (d + rest)), d, i) == |pre| + |a|
  {
    var s := pre + (a + (d + rest));
    assert (d + rest)[..|d|] == d;
    AtInRight(a, d + rest, d, 0);
    AtInRight(pre, a + (d + rest), d, |a|);
    forall j | i <= j < |pre| + |a| ensures !At(s, d, j) {
      OneLineChar(pre, a, d + rest, j);
      OtherFirstChar(s, d, j);
    }
    FoundAt(s, d, i, |pre| + |a|);
  }

  lemma OtherFirstChar(s: string, d: string, j: nat)
    requires j < |s| && d != "" && s[j] != d[0]
    ensures !At(s, d, j)
  {
    if j + |d| <= |s| {
      assert s[j..j + |d|][0] == s[j];
    }
  }

  lemma OneLineChar(pre: string, a: string, rest: string, j: nat)
    requires HasNo(a, '\n') && |pre| <= j < |pre| + |a|
    ensures (pre + (a + rest))[j] != '\n'
  {
    assert (pre + (a + rest))[j] == a[j - |pre|];
  }

  /** A prompt as seen from its front. */
  function FrontOf(name: string, path: string, rest: string): string {
    PROJECT + (name + (PATH + (path + (CONVENTIONS + rest))))
  }

  lemma SearchOnce(s: string, p: string, name: string, q: string, rest: string)
    requires s == p + (name + (q + rest))
    requires q != "" && q[0] == '\n' && name != "" && HasNo(name, '\n')
    ensures At(s, p, 0)
    ensures FindFrom(s, q, |p| + 1) == |p| + |name|
  {
    AfterOneLine(p, name, q, rest, |p| + 1);
    assert s[..|p|] == p;
  }

  lemma SearchOnceMore(s: string, front: string, path: string, c: string, rest: string, n: nat)
    requires s == front + (path + (c + rest)) && n == |front|
    requires c != "" && c[0] == '\n' && path != "" && HasNo(path, '\n')
    ensures FindFrom(s, c, n + 1) == n + |path|
    ensures n + |path| + |c| <= |s| && s[n + |path| + |c|..] == rest
  {
    AfterOneLine(front, path, c, rest, n + 1);
    FrontGlue(front, path, c, rest);
  }

  lemma HeadThree(s: string, a: string, b: string, c: string, d: string)
    requires s == a + (b + (c + d))
    ensures s == (a + b + c) + d
  {
  }

  /** Two one-line names between three literals, found one after the other. */
  lemma TwoNamesFound(s: string, p: string, name: string, q: string, path: string, c: string, rest: string) returns (e: nat)
    requires s == p + (name + (q + (path + (c + rest))))
    requires q != "" && q[0] == '\n' && c != "" && c[0] == '\n'
    requires name != "" && HasNo(name, '\n') && path != "" && HasNo(path, '\n')
    ensures TwoNames(s, 0, p, q, c) == Some(e) && e <= |s| && s[e..] == rest
  {
    SearchOnce(s, p, name, q, path + (c + rest));
    HeadThree(s, p, name, q, path + (c + rest));
    e := SecondName(s, p + name + q, path, p, q, c, rest, |p| + |name|);
  }

  lemma SecondName(s: string, front: string, path: string, p: string, q: string, c: string, rest: string, a: nat)
    returns (e: nat)
    requires s == front + (path + (c + rest)) && |front| == a + |q|
    requires c != "" && c[0] == '\n' && path != "" && HasNo(path, '\n')
    requires At(s, p, 0) && FindFrom(s, q, |p| + 1) == a
    ensures TwoNames(s, 0, p, q, c) == Some(e) && e <= |s| && s[e..] == rest
  {
    var n := a + |q|;
    SearchOnceMore(s, front, path, c, rest, n);
    TwoNamesAre(s, p, q, c, a, n + |path|);
    e := n + |path| + |c|;
  }

  lemma TwoNamesAre(s: string, p: string, q: string, c: string, a: nat, b: nat)
    requires At(s, p, 0) && FindFrom(s, q, |p| + 1) == a
    requires FindFrom(s, c, a + |q| + 1) == b
    ensures TwoNames(s, 0, p, q, c) == Some(b + |c|)
  {
  }

  lemma WrapperIsFound(s: string, name: string, path: string, rest: string) returns (e: nat)
    requires s == FrontOf(name, path, rest)
    requires name != "" && HasNo(name, '\n') && path != "" && HasNo(path, '\n')
    ensures MarkerEnd(s) == 0 && WrapperEnd(s, 0) == Some(e) && e <= |s| && s[e..] == rest
  {
    NewlineLiterals();
    NoMarker(s);
    e := TwoNamesFound(s, PROJECT, name, PATH, path, CONVENTIONS, rest);
  }

  lemma NewlineLiterals()
    ensures PATH != "" && PATH[0] == '\n'
    ensures CONVENTIONS != "" && CONVENTIONS[0] == '\n'
    ensures HasNo(MEMORY_REST, '\n')
  {
    HasNoConcat(" (.claude/memory/, MEMORY.md) or ", "modify CLAUDE.md.", '\n');
  }

  lemma NoMarker(s: string)
    requires StartsWith(s, PROJECT)
    ensures MarkerEnd(s) == 0
  {
    assert s[0] == 'Y' && MARKER[0] == '<' && OLD_MARKER[0] == '<';
  }

  lemma FrontGlue(a: string, b: string, c: string, d: string)
    ensures a + (b + (c + d)) == (a + b + c) + d
    ensures (a + (b + (c + d)))[|a| + |b| + |c|..] == d
  {
  }

  /** After the wrapper come the memory line and a blank line; no legacy block follows. */
  lemma MemoryLineIsSkipped(s: string, e: nat, body: string)
    requires e <= |s| && s[e..] == MEMORY + (MEMORY_REST + ("\n" + ("\n" + body)))
    ensures var m := OptionalLine(s, e, MEMORY);
            && m <= |s| && s[m..] == "\n" + body
            && PastInsightsEnd(s, m) == m && HistoryEnd(s, m) == m
  {
    var pre := s[..e];
    assert s == pre + (MEMORY + (MEMORY_REST + ("\n" + ("\n" + body))));
    NewlineLiterals();
    OptionalLineIs(s, pre, MEMORY, MEMORY_REST, "\n" + body);
    var m := OptionalLine(s, e, MEMORY);
    NothingLegacy(s, m);
  }

  lemma OptionalLineIs(s: string, pre: string, start: string, line: string, rest: string)
    requires s == pre + (start + (line + ("\n" + rest))) && HasNo(line, '\n')
    ensures OptionalLine(s, |pre|, start) == |pre| + |start| + |line| + 1 <= |s|
    ensures s[|pre| + |start| + |line| + 1..] == rest
  {
    AtInRight(pre, start + (line + ("\n" + rest)), start, 0);
    assert (start + (line + ("\n" + rest)))[..|start|] == start;
    HeadSplit(s, pre, start, line + ("\n" + rest));
    AfterOneLine(pre + start, line, "\n", rest, |pre + start|);
    FrontGlue(pre + start, line, "\n", rest);
  }

  lemma NothingLegacy(s: string, m: nat)
    requires m < |s| && s[m] == '\n'
    ensures PastInsightsEnd(s, m) == m && HistoryEnd(s, m) == m
  {
    if At(s, PAST_INSIGHTS, m) { CharsAt(s, PAST_INSIGHTS, m, 0); }
    if At(s, HISTORY, m) { CharsAt(s, HISTORY, m, 0); }
  }

  lemma PreambleIsStripped(s: string, name: string, path: string, body: string)
    requires s == FrontOf(name, path, MEMORY + (MEMORY_REST + ("\n" + ("\n" + body))))
    requires name != "" && HasNo(name, '\n') && path != "" && HasNo(path, '\n')
    ensures StripPreamble(s) == "\n" + body
  {
    var e := WrapperIsFound(s, name, path, MEMORY + (MEMORY_REST + ("\n" + ("\n" + body))));
    MemoryLineIsSkipped(s, e, body);
  }

  // ---- The postamble ----

  /** The insights heading: newlines at 0, 1 and 5, and something else right after the last. */
  ghost predicate RuledHeading(d: string) {
    && |d| > 6 && d[0] == '\n' && d[1] == '\n' && d[5] == '\n' && d[6] != '\n'
    && forall k :: 0 <= k < |d| && d[k] == '\n' ==> k in {0, 1, 5}
  }

  lemma RuledHeadingDoesNotStraddle(a: string, b: string, d: string, i: nat)
    requires RuledHeading(d) && a != "" && a[|a| - 1] != '\n'
    requires |b| > 1 && b[0] == '\n' && b[1] == '\n'
    requires i < |a| && At(a + b, d, i)
    ensures i + |d| <= |a|
  {
    var k := |a| - i;
    if k < |d| {
      CharsAt(a + b, d, i, k);
      CharsAt(a + b, d, i, k - 1);
      if k + 1 < |d| { CharsAt(a + b, d, i, k + 1); }
    }
  }

  lemma InsightsIsRuled()
    ensures RuledHeading(INSIGHTS)
    ensures |CLOSING| > 1 && CLOSING[0] == '\n' && CLOSING[1] == '\n' && CLOSING[|CLOSING| - 1] != '\n'
    ensures |INSIGHTS| > 1 && INSIGHTS[0] == '\n' && INSIGHTS[1] == '\n'
  {
  }

  /** Where the cut falls in a message followed by its postamble. */
  lemma CutAfterMessage(text: string, a: string, b: string, d: string, p: nat)
    requires text == a + b && RuledHeading(d) && a != "" && a[|a| - 1] != '\n'
    requires |b| > 1 && b[0] == '\n' && b[1] == '\n'
    requires |a| <= p && (p == |a| || (At(b, d, 0) && |a| + |d| <= p))
    ensures var i := Find(text, d);
            var cut := if 0 <= i && i + |d| <= p then i else p;
            cut <= |a| && (cut == |a| <==> !Contains(a, d))
  {
    var i := Find(text, d);
    AtInRight(a, b, d, 0);
    if 0 <= i < |a| {
      RuledHeadingDoesNotStraddle(a, b, d, i);
      AtInLeft(a, b, d, i);
      assert At(a, d, i);
    }
    if Contains(a, d) {
      AtInLeft(a, b, d, Find(a, d));
    }
  }

  lemma PromptFront(name: string, path: string, message: string, insights: seq<string>)
    ensures AgentPrompt(name, path, message, insights)
            == FrontOf(name, path, MEMORY + (MEMORY_REST + ("\n" + ("\n" + (message + (InsightsBlock(insights) + CLOSING))))))
  {
    assert "\n" + "\n" == "\n\n";
    FrontIs(PROJECT, name, PATH, path, CONVENTIONS, MEMORY, MEMORY_REST, "\n", message, InsightsBlock(insights), CLOSING);
  }

  lemma FrontIs(a: string, b: string, c: string, d: string, e: string, f: string, g: string, n: string,
                m: string, i: string, z: string)
    ensures a + b + c + d + e + f + g + (n + n) + m + i + z
            == a + (b + (c + (d + (e + (f + (g + (n + (n + (m + (i + z))))))))))
  {
    var l := a + b + c + d + e + f + g + (n + n) + m + i + z;
    assert l == a + b + c + d + e + f + g + n + n + m + i + z;
    var t1 := f + (g + (n + (n + (m + (i + z)))));
    assert t1 == f + g + n + n + m + i + z;
    assert a + (b + (c + (d + (e + t1)))) == a + b + c + d + e + t1;
    assert a + b + c + d + e + (f + g + n + n + m + i + z) == a + b + c + d + e + f + g + n + n + m + i + z;
  }

  lemma TextEndsWithClosing(a: string, i: string, z: string)
    requires z != "" && z[|z| - 1] != '\n'
    ensures EndsWith(a + (i + z), z) && |a + (i + z)| - |z| == |a| + |i|
  {
    assert a + (i + z) == (a + i) + z;
  }

  /** Removing the postamble of a message and trimming. */
  lemma PostambleIsStripped(message: string, insights: seq<string>)
    requires message != "" && Trimmed(message)
    ensures var text := ("\n" + message) + (InsightsBlock(insights) + CLOSING);
            && |StripPostamble(text)| <= |text|
            && (Strip(StripPostamble(text)) == message <==> !Contains(message, INSIGHTS))
  {
    var a, i := "\n" + message, InsightsBlock(insights);
    var text := a + (i + CLOSING);
    var p := |a| + |i|;
    InsightsIsRuled();
    TextEndsWithClosing(a, i, CLOSING);
    BlockBegins(insights);
    assert IsSpace('\n');
    CutAfterMessage(text, a, i + CLOSING, INSIGHTS, p);
    var f := Find(text, INSIGHTS);
    var cut := if 0 <= f && f + |INSIGHTS| <= p then f else p;
    PostambleCutIs(text, p, cut);
    CutInMessage(message, i + CLOSING, cut);
    ContainsAfterNewline(message, INSIGHTS);
  }

  lemma PostambleCutIs(text: string, p: nat, cut: nat)
    requires EndsWith(text, CLOSING) && p == |text| - |CLOSING|
    requires cut == if 0 <= Find(text, INSIGHTS) && Find(text, INSIGHTS) + |INSIGHTS| <= p then Find(text, INSIGHTS) else p
    ensures cut <= |text| && StripPostamble(text) == text[..cut]
  {
    assert text[p + |CLOSING|..] == "";
  }

  lemma BlockBegins(insights: seq<string>)
    ensures var b := InsightsBlock(insights) + CLOSING;
            && |b| > 1 && b[0] == '\n' && b[1] == '\n'
            && (insights != [] ==> At(b, INSIGHTS, 0) && |INSIGHTS| <= |InsightsBlock(insights)|)
            && (insights == [] ==> InsightsBlock(insights) == "")
  {
    InsightsIsRuled();
    if insights != [] {
      var rest := INSIGHTS_REST + Join(Indented(insights), "\n");
      BlockGlue(INSIGHTS, INSIGHTS_REST, Join(Indented(insights), "\n"), CLOSING);
    }
  }

  lemma BlockGlue(a: string, b: string, c: string, d: string)
    ensures At((a + b + c) + d, a, 0)
    ensures |a| > 1 ==> ((a + b + c) + d)[0] == a[0] && ((a + b + c) + d)[1] == a[1]
  {
    assert ((a + b + c) + d)[..|a|] == a;
  }

  lemma CutInMessage(message: string, b: string, cut: nat)
    requires message != "" && Trimmed(message) && IsSpace('\n')
    requires cut <= 1 + |message|
    ensures cut <= |("\n" + message) + b|
    ensures Strip((("\n" + message) + b)[..cut]) == message <==> cut == 1 + |message|
  {
    var text := ("\n" + message) + b;
    if cut == 0 {
      assert text[..cut] == "";
    } else {
      assert text[..cut] == "\n" + message[..cut - 1];
      StripNewline(message[..cut - 1]);
      StripShrinks(message[..cut - 1]);
      assert message[..|message|] == message;
      StripTrimmed(message);
    }
  }

  lemma StripNewline(s: string)
    requires IsSpace('\n')
    ensures Strip("\n" + s) == Strip(s)
  {
    assert ("\n" + s)[1..] == s;
  }

  lemma ContainsAfterNewline(message: string, d: string)
    requires message != "" && message[0] != '\n' && |d| > 1 && d[1] == '\n'
    ensures Contains("\n" + message, d) <==> Contains(message, d)
  {
    var a := "\n" + message;
    if Contains(a, d) {
      var i := Find(a, d);
      if i == 0 {
        CharsAt(a, d, 0, 1);
      } else {
        AtInRight("\n", message, d, i - 1);
      }
    }
    if Contains(message, d) {
      AtInRight("\n", message, d, Find(message, d));
      assert At(a, d, 1 + Find(message, d));
    }
  }

  /** Wrapping and unwrapping: a trimmed message comes back exactly when it does not itself
      contain the heading of an insights block, whether or not insights were sent along. */
  lemma WrapperRoundTrip(name: string, path: string, message: string, insights: seq<string>)
    requires name != "" && HasNo(name, '\n') && path != "" && HasNo(path, '\n')
    requires message != "" && Trimmed(message)
    ensures StripAgentPreamble(AgentPrompt(name, path, message, insights)) == message <==> !Contains(message, INSIGHTS)
  {
    var s := AgentPrompt(name, path, message, insights);
    var body := message + (InsightsBlock(insights) + CLOSING);
    PromptFront(name, path, message, insights);
    PreambleIsStripped(s, name, path, body);
    HeadSplit("\n" + body, "\n", message, InsightsBlock(insights) + CLOSING);
    PostambleIsStripped(message, insights);
    assert |StripPreamble(s)| < |s|;
  }
}
