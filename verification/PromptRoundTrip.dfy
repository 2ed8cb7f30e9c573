/**
 What is sent to the agent and what is read back from its transcript: unwrapping the
 wrapped prompt returns the user's text, in first attempts and in retries.
 */
module PromptRoundTrip {
  import opened Collections
  import opened Strings
  import opened TextSearch
  import opened TaskPrompts
  import opened PromptUnwrap

  predicate AllFree(parts: seq<string>, p: string) {
    forall i :: 0 <= i < |parts| ==> Free(parts[i], p)
  }

  lemma JoinFree(parts: seq<string>, p: string)
    requires Watched(p) && AllFree(parts, p)
    ensures Free(Join(parts, "\n"), p)
  {
    WatchedIsALine(p);
    ContainsJoin(parts, p);
    assert forall i :: 0 <= i < |parts| ==> Free(parts[i], p);
  }

  lemma HeadingsAreFree(p: string)
    requires Watched(p)
    ensures Free("\n## Before You Start", p) && Free("\n## Guidelines", p)
    ensures Free("\n## Instructions for This Attempt", p)
  {
    InnocentIsFree("\n## Before You Start", p);
    InnocentIsFree("\n## Guidelines", p);
    InnocentIsFree("\n## Instructions for This Attempt", p);
  }

  lemma FreeConcat(a: seq<string>, b: seq<string>, p: string)
    requires AllFree(a, p) && AllFree(b, p)
    ensures AllFree(a + b, p)
  {
  }

  lemma ThreeFree(a: string, b: string, c: string, p: string)
    requires Free(a, p) && Free(b, p) && Free(c, p)
    ensures AllFree([a, b, c], p)
  {
  }

  lemma FrontFree(p: string)
    requires Watched(p)
    ensures AllFree(["\n## Before You Start", EXPLORE, ASK], p)
  {
    HeadingsAreFree(p);
    AdviceLinesHaveNoHash();
    NoHashIsFree(EXPLORE, p);
    NoHashIsFree(ASK, p);
    ThreeFree("\n## Before You Start", EXPLORE, ASK, p);
  }

  lemma InsightsFree(insights: seq<string>, p: string)
    requires Watched(p) && AllFree(insights, p)
    ensures AllFree([READ], p) && AllFree([REVIEW, Join(Bullets(insights), "\n")], p)
  {
    AdviceLinesHaveNoHash();
    ReadLineHasNoHash();
    NoHashIsFree(REVIEW, p);
    NoHashIsFree(READ, p);
    InBullets(insights, p);
  }

  lemma EndFree(p: string)
    requires Watched(p)
    ensures AllFree(["\n## Guidelines", DISCUSS, COMMIT, NO_PROGRESS, SUMMARY], p)
  {
    HeadingsAreFree(p);
    GuidelinesHaveNoHash();
    NoHashIsFree(DISCUSS, p);
    NoHashIsFree(COMMIT, p);
    NoHashIsFree(NO_PROGRESS, p);
    NoHashIsFree(SUMMARY, p);
    ThreeFree("\n## Guidelines", DISCUSS, COMMIT, p);
    ThreeFree("\n## Guidelines", NO_PROGRESS, SUMMARY, p);
    EndParts("\n## Guidelines", DISCUSS, COMMIT, NO_PROGRESS, SUMMARY, p);
  }

  lemma EndParts(a: string, b: string, c: string, d: string, e: string, p: string)
    requires AllFree([a, b, c], p) && AllFree([a, d, e], p)
    ensures AllFree([a, b, c, d, e], p)
  {
    assert [a, b, c][1] == b && [a, b, c][2] == c && [a, d, e][0] == a && [a, d, e][1] == d && [a, d, e][2] == e;
  }

  lemma TailFree(insights: seq<string>, p: string)
    requires Watched(p) && AllFree(insights, p)
    ensures AllFree(TailParts(insights), p)
  {
    var front := ["\n## Before You Start", EXPLORE, ASK];
    var middle := if insights == [] then [READ] else [REVIEW, Join(Bullets(insights), "\n")];
    FrontFree(p);
    InsightsFree(insights, p);
    EndFree(p);
    FreeConcat(front, middle, p);
    FreeConcat(front + middle, ["\n## Guidelines", DISCUSS, COMMIT, NO_PROGRESS, SUMMARY], p);
  }

  lemma TitleLineFree(title: string, p: string)
    requires Watched(p) && Free(title, p)
    ensures Free(TASK + title, p)
  {
    AfterPlainPrefix(TASK, title, p);
  }

  lemma NewlineFree(s: string, p: string)
    requires Watched(p) && Free(s, p)
    ensures Free("\n" + s, p)
  {
    AfterPlainPrefix("\n", s, p);
  }

  lemma FirstPromptFree(t: Task, insights: seq<string>, p: string)
    requires Watched(p) && !IsRetry(t) && Free(t.title, p) && Free(t.description, p) && AllFree(insights, p)
    ensures Free(TaskPrompt(t, insights), p)
  {
    TitleLineFree(t.title, p);
    NewlineFree(t.description, p);
    TailFree(insights, p);
    var parts := HeadParts(t) + TailParts(insights);
    assert AllFree(HeadParts(t), p);
    JoinFree(parts, p);
  }

  /** Text that lacks either watched heading cannot be read as a retry. */
  lemma FreeIsNotReadable(s: string, p: string)
    requires Watched(p) && Free(s, p)
    ensures !ReadableAsRetry(s)
  {
    if LooksLikeRetry(s) {
      HeadOccurs(s, FOCUS);
    }
  }

  lemma HeadOccurs(s: string, p: string)
    requires Contains(Head(s, WINDOW), p)
    ensures Contains(s, p)
  {
    var h := Head(s, WINDOW);
    assert s == h + s[|h|..];
    AtInLeft(h, s[|h|..], p, Find(h, p));
    assert At(s, p, Find(h, p));
  }

  /** First attempts, in terms of what the user typed: where one of the watched headings does not
      occur, the description comes back exactly when it contains neither section heading. */
  lemma FirstAttemptRoundTrip(t: Task, insights: seq<string>, p: string)
    requires !IsRetry(t) && t.title != "" && HasNo(t.title, '\n')
    requires t.description != "" && Trimmed(t.description)
    requires Watched(p) && Free(t.title, p) && Free(t.description, p) && AllFree(insights, p)
    ensures StripTaskPrompt(TaskPrompt(t, insights)) == t.description <==> !HasSection(t.description)
  {
    FirstPromptFree(t, insights, p);
    FreeIsNotReadable(TaskPrompt(t, insights), p);
    FirstAttemptUnwraps(t, insights);
  }

  /** A task without a title, which the schema allows, is not unwrapped at all. */
  lemma UntitledIsNotUnwrapped(t: Task, insights: seq<string>, p: string)
    requires !IsRetry(t) && t.title == "" && t.description != ""
    requires Watched(p) && Free(t.description, p) && AllFree(insights, p)
    ensures StripTaskPrompt(TaskPrompt(t, insights)) == TaskPrompt(t, insights)
  {
    NoHashIsFree("", p);
    FirstPromptFree(t, insights, p);
    FreeIsNotReadable(TaskPrompt(t, insights), p);
    FirstShape(t, insights);
    var rest := t.description + (BEFORE + "\n" + AfterBefore(insights));
    var s := TASK + t.title + "\n\n" + rest;
    assert s[|TASK|..|TASK| + 1] == "\n";
    FoundAt(s, "\n", |TASK|, |TASK|);
  }

  // ---- Retries ----

  /** Everything before the blank line that precedes the original-task section. */
  function PrefaceParts(t: Task): seq<string>
    requires IsRetry(t)
  {
    [TASK + t.title] + FocusParts(t) + TriedParts(t)
  }

  function AfterInstructions(t: Task, insights: seq<string>): string {
    " for This Attempt\n" + Advice(t.attempt) + "\n" + Join(TailParts(insights), "\n")
  }

  function Restored(desc: string, rest: string): string {
    desc + (INSTRUCTIONS + rest)
  }

  lemma RetryShape(t: Task, insights: seq<string>)
    requires IsRetry(t) && t.description != ""
    ensures TaskPrompt(t, insights)
            == (Join(PrefaceParts(t), "\n") + "\n\n") + (ORIGINAL + BACKGROUND + "\n"
               + Restored(t.description, AfterInstructions(t, insights)))
  {
    var last := ["\n## Instructions for This Attempt", Advice(t.attempt)];
    var original := OriginalParts(t);
    assert HeadParts(t) == (PrefaceParts(t) + original) + last;
    JoinConcat(HeadParts(t), TailParts(insights), "\n");
    JoinConcat(PrefaceParts(t) + original, last, "\n");
    JoinConcat(PrefaceParts(t), original, "\n");
    JoinTwo("\n" + ORIGINAL + BACKGROUND, t.description, "\n");
    JoinTwo("\n## Instructions for This Attempt", Advice(t.attempt), "\n");
    RetryGlue(Join(PrefaceParts(t), "\n"), t.description, Advice(t.attempt), Join(TailParts(insights), "\n"));
  }

  lemma RetryGlue(preface: string, desc: string, advice: string, tail: string)
    ensures (preface + "\n" + (("\n" + ORIGINAL + BACKGROUND) + "\n" + desc))
            + "\n" + ("\n## Instructions for This Attempt" + "\n" + advice) + "\n" + tail
            == (preface + "\n\n") + (ORIGINAL + BACKGROUND + "\n"
               + Restored(desc, " for This Attempt\n" + advice + "\n" + tail))
  {
    assert "\n" + "\n## Instructions for This Attempt" == INSTRUCTIONS + " for This Attempt";
    assert " for This Attempt" + "\n" == " for This Attempt\n";
    assert "\n" + "\n" == "\n\n";
    Glue(preface, "\n", ORIGINAL + BACKGROUND, desc, "\n## Instructions for This Attempt",
         INSTRUCTIONS, " for This Attempt", advice, tail);
  }

  lemma Glue(p: string, n: string, o: string, d: string, x: string, i: string, f: string, a: string, t: string)
    requires n + x == i + f
    ensures (p + n + ((n + o) + n + d)) + n + (x + n + a) + n + t
            == (p + (n + n)) + (o + n + (d + (i + ((f + n) + a + n + t))))
  {
    var l := (p + n + ((n + o) + n + d)) + n + (x + n + a) + n + t;
    var m := p + n + n + o + n + d + (n + x) + n + a + n + t;
    assert l == m;
    var r := (p + (n + n)) + (o + n + (d + (i + ((f + n) + a + n + t))));
    assert r == p + n + n + o + n + d + (i + f) + n + a + n + t;
  }

  lemma PrefaceFree(t: Task, p: string)
    requires IsRetry(t) && Watched(p) && Free(t.title, p) && Free(t.retryContext, p) && Free(t.agentSummary, p)
    requires p == FOCUS ==> t.retryContext == ""
    ensures AllFree(PrefaceParts(t), p)
  {
    TitleLineFree(t.title, p);
    FocusFree(t, p);
    TriedFree(t, p);
    FreeConcat([TASK + t.title], FocusParts(t), p);
    FreeConcat([TASK + t.title] + FocusParts(t), TriedParts(t), p);
  }

  lemma FocusFree(t: Task, p: string)
    requires Watched(p) && Free(t.retryContext, p) && (p == FOCUS ==> t.retryContext == "")
    ensures AllFree(FocusParts(t), p)
  {
    ReadLineHasNoHash();
    NoHashIsFree(FEEDBACK, p);
    if p == ORIGINAL {
      HeadingLineFree("\n" + FOCUS + " (attempt #", Decimal(t.attempt) + ")", p);
      assert "\n" + FOCUS + " (attempt #" + Decimal(t.attempt) + ")" == "\n" + FOCUS + " (attempt #" + (Decimal(t.attempt) + ")");
    }
  }

  lemma TriedFree(t: Task, p: string)
    requires IsRetry(t) && Watched(p) && Free(t.agentSummary, p)
    ensures AllFree(TriedParts(t), p)
  {
    var line := "\n" + TRIED + " (attempt #" + Decimal(t.attempt - 1) + ")";
    HeadingLineFree("\n" + TRIED + " (attempt #", Decimal(t.attempt - 1) + ")", p);
    assert line == "\n" + TRIED + " (attempt #" + (Decimal(t.attempt - 1) + ")");
    assert TriedParts(t) == [] || TriedParts(t) == [line, t.agentSummary];
    assert AllFree([line, t.agentSummary], p);
  }

  /** The beginning of a heading line: two hashes together, then a blank and the heading's letter; one more
      hash at the end, for the number to follow. */
  ghost predicate HeadingStart(a: string, c: char) {
    && |a| > 5 && a[1] == '#' && a[2] == '#' && a[4] == c
    && forall k :: 0 <= k < |a| && a[k] == '#' ==> k == 1 || k == 2 || k == |a| - 1
  }

  lemma TriedStart(a: string)
    requires a == "\n" + TRIED + " (attempt #"
    ensures HeadingStart(a, 'W')
  {
  }

  lemma FocusStart(a: string)
    requires a == "\n" + FOCUS + " (attempt #"
    ensures HeadingStart(a, 'Y')
  {
  }

  lemma StartedLineIsFree(a: string, b: string, c: char, p: string)
    requires Watched(p) && HeadingStart(a, c) && HasNo(b, '#') && c != Initial(p)
    ensures Free(a + b, p)
  {
    var line := a + b;
    forall i | 0 <= i && i + 3 < |line| && line[i] == '#' && line[i + 1] == '#' ensures line[i + 3] != Initial(p) {
      assert i + 1 < |a|;
      assert i == 1;
    }
    InnocentIsFree(line, p);
  }

  /** A heading line with a number is not the other heading. */
  lemma HeadingLineFree(a: string, b: string, p: string)
    requires Watched(p) && HasNo(b, '#')
    requires a == "\n" + TRIED + " (attempt #" || (a == "\n" + FOCUS + " (attempt #" && p == ORIGINAL)
    ensures Free(a + b, p)
  {
    if a == "\n" + TRIED + " (attempt #" {
      TriedStart(a);
      StartedLineIsFree(a, b, 'W', p);
    } else {
      FocusStart(a);
      StartedLineIsFree(a, b, 'Y', p);
    }
  }

  /** Reading from `b` up to the next `d` and trimming gives `desc` exactly when `desc` holds no `d`. */
  ghost predicate Recovers(s: string, b: nat, d: string, desc: string) {
    && b <= FindFrom(s, d, b) <= |s|
    && (Strip(s[b..FindFrom(s, d, b)]) == desc <==> !Contains(desc, d))
  }

  /** The heading is found after the preface, its line ends there, and then comes the description. */
  lemma RetryBodyIsDescription(q: string, desc: string, rest: string)
    requires Free(q, ORIGINAL) && desc != "" && Trimmed(desc)
    ensures var s := (q + "\n\n") + (ORIGINAL + BACKGROUND + "\n" + Restored(desc, rest));
            RetryBody(s).Some? && (Strip(RetryBody(s).value) == desc <==> !Contains(desc, INSTRUCTIONS))
  {
    WatchedIsALine(ORIGINAL);
    HeadingsAreHeadings();
    assert HasNo(BACKGROUND, '\n') && IsSpace('\n');
    var body := Restored(desc, rest);
    var line := BACKGROUND + "\n" + body;
    var s := (q + "\n\n") + (ORIGINAL + BACKGROUND + "\n" + body);
    HeadingGlue(ORIGINAL, BACKGROUND, "\n", body);
    LineFound(q, ORIGINAL, line);
    var h := |q| + 2;
    HeadSplit(s, q + "\n\n", ORIGINAL, line);
    var pre := q + "\n\n" + ORIGINAL;
    NewlineFound(pre, BACKGROUND, body, h + |ORIGINAL|);
    HeadSplit(s, pre, BACKGROUND + "\n", body);
    RecoversAt(s, pre + (BACKGROUND + "\n"), INSTRUCTIONS, desc, rest, h + |ORIGINAL| + |BACKGROUND| + 1);
    RetryBodyAt(s, h, h + |ORIGINAL| + |BACKGROUND|, desc);
  }

  lemma RetryBodyAt(s: string, h: nat, nl: nat, desc: string)
    requires Find(s, ORIGINAL) == h && FindFrom(s, "\n", h + |ORIGINAL|) == nl
    requires Recovers(s, nl + 1, INSTRUCTIONS, desc)
    ensures RetryBody(s).Some? && (Strip(RetryBody(s).value) == desc <==> !Contains(desc, INSTRUCTIONS))
  {
    var e := FindFrom(s, INSTRUCTIONS, nl + 1);
    SliceBetween(s, ORIGINAL, INSTRUCTIONS, h, nl, e);
  }

  lemma SliceBetween(s: string, heading: string, stop: string, h: nat, nl: nat, e: nat)
    requires Find(s, heading) == h && FindFrom(s, "\n", h + |heading|) == nl
    requires nl + 1 <= e <= |s| && FindFrom(s, stop, nl + 1) == e
    ensures LinesBetween(s, heading, stop) == Some(s[nl + 1..e])
  {
  }

  lemma HeadingGlue(h: string, g: string, n: string, body: string)
    ensures h + g + n + body == h + (g + n + body)
  {
  }

  lemma RecoversAt(s: string, head: string, d: string, desc: string, rest: string, b: nat)
    requires s == head + (desc + (d + rest)) && |head| == b
    requires Heading(d) && desc != "" && Trimmed(desc) && IsSpace('\n')
    ensures Recovers(s, b, d, desc)
  {
    CutAtHeading(s, head, desc, d, rest);
  }

  lemma CutAtHeading(s: string, head: string, desc: string, d: string, rest: string)
    requires s == head + (desc + (d + rest))
    requires Heading(d) && desc != "" && Trimmed(desc) && IsSpace('\n')
    ensures Recovers(s, |head|, d, desc)
  {
    HeadingFound(head, desc, d, rest);
    CutAt(s, head, desc, d, rest, FindFrom(s, d, |head|));
  }

  lemma CutAt(s: string, head: string, desc: string, d: string, rest: string, e: int)
    requires s == head + (desc + (d + rest)) && Trimmed(desc)
    requires |head| <= e <= |head| + |desc|
    requires e == |head| + |desc| <==> !Contains(desc, d)
    ensures Strip(s[|head|..e]) == desc <==> !Contains(desc, d)
  {
    Prefix(head, desc, d + rest, e - |head|);
    OnlyAllStripsToAll(desc, e - |head|);
  }

  // ---- Which of the two forms the unwrapper sees ----

  lemma {:induction false} JoinHead(parts: seq<string>, sep: string)
    requires parts != []
    ensures parts[0] <= Join(parts, sep)
  {
    if |parts| > 1 {
      JoinHead(parts[..|parts| - 1], sep);
    }
  }

  /** The parts after the first, when the next one starts a new paragraph. */
  lemma SecondLineOf(parts: seq<string>) returns (x: string)
    requires |parts| > 1 && |parts[1]| > 6 && parts[1][0] == '\n'
    ensures Join(parts, "\n") == parts[0] + "\n\n" + x
    ensures parts[1][1..] <= x
  {
    var rest := parts[1..];
    assert parts == [parts[0]] + rest;
    JoinCons(parts[0], rest, "\n");
    JoinHead(rest, "\n");
    var j := Join(rest, "\n");
    x := j[1..];
    assert j == "\n" + x;
    TwoNewlines(parts[0], x);
  }

  lemma RetrySecondLine(t: Task, insights: seq<string>) returns (x: string)
    requires IsRetry(t) && t.description != ""
    ensures TaskPrompt(t, insights) == TASK + t.title + "\n\n" + x
    ensures FirstSection(t) <= x
  {
    SecondPart(t, insights);
    x := SecondLineOf(HeadParts(t) + TailParts(insights));
  }

  lemma TwoNewlines(a: string, x: string)
    ensures a + "\n" + ("\n" + x) == a + "\n\n" + x
  {
  }

  lemma SecondPart(t: Task, insights: seq<string>)
    requires IsRetry(t) && t.description != ""
    ensures var parts := HeadParts(t) + TailParts(insights);
            |parts| > 1 && parts[0] == TASK + t.title && |parts[1]| > 6 && parts[1][0] == '\n'
            && FirstSection(t) <= parts[1][1..]
  {
    FirstOfThree(TASK + t.title, FocusParts(t), TriedParts(t), OriginalParts(t),
                 ["\n## Instructions for This Attempt", Advice(t.attempt)], TailParts(insights));
    SectionLines(t);
  }

  lemma FirstOfThree(title: string, a: seq<string>, b: seq<string>, c: seq<string>, d: seq<string>, e: seq<string>)
    requires c != []
    ensures var parts := ([title] + a + b + c + d) + e;
            |parts| > 1 && parts[0] == title
            && parts[1] == if a != [] then a[0] else if b != [] then b[0] else c[0]
  {
  }

  /** The part begins a paragraph with this heading. */
  predicate SectionLine(part: string, h: string) {
    |part| > 6 && part[0] == '\n' && h <= part[1..]
  }

  lemma SectionLines(t: Task)
    requires IsRetry(t)
    ensures FocusParts(t) != [] ==> SectionLine(FocusParts(t)[0], FOCUS)
    ensures TriedParts(t) != [] ==> SectionLine(TriedParts(t)[0], TRIED)
    ensures OriginalParts(t) != [] ==> SectionLine(OriginalParts(t)[0], ORIGINAL)
  {
    IsSectionLine(FOCUS, " (attempt #" + Decimal(t.attempt) + ")");
    IsSectionLine(TRIED, " (attempt #" + Decimal(t.attempt - 1) + ")");
    IsSectionLine(ORIGINAL, BACKGROUND);
    LineOf("\n", FOCUS, " (attempt #", Decimal(t.attempt), ")");
    LineOf("\n", TRIED, " (attempt #", Decimal(t.attempt - 1), ")");
  }

  lemma LineOf(a: string, b: string, c: string, d: string, e: string)
    ensures a + b + c + d + e == a + b + (c + d + e)
  {
  }

  lemma IsSectionLine(h: string, rest: string)
    requires SectionName(h)
    ensures SectionLine("\n" + h + rest, h)
  {
    assert ("\n" + h + rest)[1..] == h + rest;
    assert |h| > 6;
  }

  /** The window always suffices: with feedback present, the focus heading lies within the first
      500 characters for every title of up to 477, and titles are limited to 300. */
  lemma FocusInWindow(title: string, x: string)
    requires |title| <= 477 && FOCUS <= x
    ensures LooksLikeRetry(TASK + title + "\n\n" + x)
  {
    var pre := TASK + title + "\n\n";
    var s := pre + x;
    var h := Head(s, WINDOW);
    assert |pre| + |FOCUS| <= |h|;
    assert h[|pre|..|pre| + |FOCUS|] == FOCUS;
    assert At(h, FOCUS, |pre|);
  }

  lemma {:induction false} RStripKeeps(y: string, k: nat)
    requires k < |y| && !IsSpace(y[k])
    ensures k < |RStrip(y)| && RStrip(y) <= y
  {
    if IsSpace(y[|y| - 1]) {
      RStripKeeps(y[..|y| - 1], k);
    }
  }

  /** Read as a first attempt, a retry yields its first section heading instead of the description. */
  lemma ReadAsFirstAttempt(title: string, x: string, h: string)
    requires title != "" && HasNo(title, '\n') && SectionName(h) && h <= x
    ensures var body := TaskBody(TASK + title + "\n\n" + x);
            body.Some? ==> StartsWith(Strip(body.value), h)
  {
    var pre := TASK + title + "\n\n";
    BodyOfTitled(title, x);
    NoSectionInHeading(pre, x, h);
    var d := FindSection(pre + x, |pre|);
    if d >= 0 {
      SliceOfHeading(pre, x, h, d);
      StripOfHeading((pre + x)[|pre|..d], h);
    }
  }

  predicate SectionName(h: string) {
    h == FOCUS || h == TRIED || h == ORIGINAL
  }

  lemma SectionNameIsPlain(h: string)
    requires SectionName(h)
    ensures HasNo(h, '\n') && |h| > 4 && h[0] == '#' && !IsSpace(h[0]) && !IsSpace(h[|h| - 1])
  {
    assert FOCUS[|FOCUS| - 1] == 's' && TRIED[|TRIED| - 1] == 'd' && ORIGINAL[|ORIGINAL| - 1] == 'k';
  }

  lemma SliceOfHeading(pre: string, x: string, h: string, d: nat)
    requires h <= x && |pre| + |h| <= d <= |pre + x|
    ensures h <= (pre + x)[|pre|..d]
  {
  }

  lemma NoSectionInHeading(pre: string, x: string, h: string)
    requires SectionName(h) && h <= x
    ensures FindSection(pre + x, |pre|) >= 0 ==> FindSection(pre + x, |pre|) >= |pre| + |h|
  {
    var d := FindSection(pre + x, |pre|);
    SectionNameIsPlain(h);
    if d >= 0 {
      SectionStartsWithNewline(pre + x, d);
      assert forall k :: 0 <= k < |h| ==> (pre + x)[|pre| + k] == h[k];
    }
  }

  lemma SectionStartsWithNewline(s: string, d: nat)
    requires SectionAt(s, d)
    ensures d < |s| && s[d] == '\n'
  {
    if At(s, BEFORE, d) { CharsAt(s, BEFORE, d, 0); } else { CharsAt(s, GUIDELINES, d, 0); }
  }

  lemma StripOfHeading(y: string, h: string)
    requires SectionName(h) && h <= y
    ensures StartsWith(Strip(y), h)
  {
    SectionNameIsPlain(h);
    assert y[0] == h[0];
    assert LStrip(y) == y;
    RStripKeeps(y, |h| - 1);
    assert RStrip(y)[..|h|] == h;
  }

  /** The retry reading of a retry prompt. */
  lemma ReadAsRetry(t: Task, insights: seq<string>)
    requires IsRetry(t) && t.description != "" && Trimmed(t.description)
    requires Free(t.title, ORIGINAL) && Free(t.retryContext, ORIGINAL) && Free(t.agentSummary, ORIGINAL)
    ensures var s := TaskPrompt(t, insights);
            && RetryBody(s).Some? && |s| > |t.description|
            && (Strip(RetryBody(s).value) == t.description <==> !Contains(t.description, INSTRUCTIONS))
  {
    PrefaceFree(t, ORIGINAL);
    JoinFree(PrefaceParts(t), ORIGINAL);
    RetryShape(t, insights);
    RetryBodyIsDescription(Join(PrefaceParts(t), "\n"), t.description, AfterInstructions(t, insights));
  }

  /** The section a retry begins with. */
  function FirstSection(t: Task): string
    requires IsRetry(t)
  {
    if t.retryContext != "" then FOCUS else if TriedParts(t) != [] then TRIED else ORIGINAL
  }

  /** Text that repeats with the period of `h`. */
  ghost predicate RepeatsAfter(h: string, desc: string) {
    forall j: nat :: j < |desc| ==> RepeatsAt(h, desc, j)
  }

  predicate RepeatsAt(h: string, desc: string, j: nat)
    requires j < |desc|
  {
    desc[j] == if j < |h| then h[j] else desc[j - |h|]
  }

  /** Its only newline is its last character. */
  predicate HeadingLine(h: string) {
    |h| > 1 && !IsSpace(h[0]) && !IsSpace(h[1]) && forall j :: 0 <= j < |h| - 1 ==> h[j] != '\n'
  }

  lemma {:induction false} NoBlankLine(h: string, desc: string, i: nat)
    requires HeadingLine(h) && IsSpace('\n') && RepeatsAfter(h, desc) && i + 1 < |desc|
    ensures !(desc[i] == '\n' && desc[i + 1] == '\n')
    decreases i
  {
    assert RepeatsAt(h, desc, 0) && RepeatsAt(h, desc, i) && RepeatsAt(h, desc, i + 1);
    if i >= |h| {
      NoBlankLine(h, desc, i - |h|);
    }
  }

  /** A heading line put before part of a text that breaks off at an empty line is never that text. */
  lemma NoSelfSimilarText(h: string, desc: string, k: nat)
    requires HeadingLine(h) && IsSpace('\n')
    requires k + 1 < |desc| && desc[k] == '\n' && desc[k + 1] == '\n'
    ensures !(desc <= h + desc[..k])
  {
    if desc <= h + desc[..k] {
      var y := h + desc[..k];
      assert forall j :: 0 <= j < |desc| ==> desc[j] == y[j];
      assert forall j: nat :: j < |desc| ==> RepeatsAt(h, desc, j);
      NoBlankLine(h, desc, k);
    }
  }

  lemma StripKeepsPrefix(y: string, k: nat)
    requires k < |y| && !IsSpace(y[0]) && !IsSpace(y[k])
    ensures Strip(y) <= y && k < |Strip(y)|
  {
    assert LStrip(y) == y;
    RStripKeeps(y, k);
  }

  /** An empty line in what follows the title comes after the heading line, and not at the end of the text. */
  lemma BreakIsLater(h: string, desc: string, rest: string, n: nat)
    requires HeadingLine(h) && desc != "" && Trimmed(desc) && IsSpace('\n')
    requires var x := h + (desc + rest); n + 1 < |x| && x[n] == x[n + 1] == '\n'
    ensures n >= |h|
    ensures n < |h| + |desc| ==> n + 1 < |h| + |desc| && desc[n - |h|] == '\n' && desc[n - |h| + 1] == '\n'
  {
    var x := h + (desc + rest);
    assert forall j :: 0 <= j < |h| ==> x[j] == h[j];
    assert forall j :: 0 <= j < |desc| ==> x[|h| + j] == desc[j];
    assert x[|h|] == desc[0] && x[|h| + (|desc| - 1)] == desc[|desc| - 1];
  }

  /** Where the original task stands first, its heading is read along with it. */
  lemma HeadingIsReadAlong(h: string, desc: string, rest: string, n: nat)
    requires HeadingLine(h) && desc != "" && Trimmed(desc) && IsSpace('\n')
    requires var x := h + (desc + rest); n + 1 < |x| && x[n] == x[n + 1] == '\n'
    ensures Strip((h + (desc + rest))[..n]) != desc
  {
    var x := h + (desc + rest);
    BreakIsLater(h, desc, rest, n);
    if n < |h| + |desc| {
      NoSelfSimilarText(h, desc, n - |h|);
      assert x[..n] == h + desc[..n - |h|];
      StripKeepsPrefix(x[..n], 1);
    } else {
      assert x[..n][|h| + (|desc| - 1)] == desc[|desc| - 1];
      StripKeepsPrefix(x[..n], |h| + |desc| - 1);
    }
  }

  lemma SectionIsBlankLine(s: string, d: nat)
    requires SectionAt(s, d)
    ensures d + 1 < |s| && s[d] == '\n' && s[d + 1] == '\n'
  {
    if At(s, BEFORE, d) {
      CharsAt(s, BEFORE, d, 0);
      CharsAt(s, BEFORE, d, 1);
    } else {
      CharsAt(s, GUIDELINES, d, 0);
      CharsAt(s, GUIDELINES, d, 1);
    }
  }

  lemma OriginalLine()
    ensures HeadingLine(ORIGINAL + BACKGROUND + "\n") && IsSpace('\n')
  {
    WatchedIsALine(ORIGINAL);
    assert HasNo(BACKGROUND, '\n');
  }

  lemma Behind(pre: string, x: string, n: nat)
    requires n + 1 < |x|
    ensures (pre + x)[|pre| + n] == x[n] && (pre + x)[|pre| + n + 1] == x[n + 1]
    ensures (pre + x)[|pre|..|pre| + n] == x[..n]
  {
  }

  lemma CutIsNotDescription(pre: string, h: string, desc: string, rest: string, d: nat)
    requires desc != "" && Trimmed(desc) && HeadingLine(h) && IsSpace('\n')
    requires |pre| <= d && SectionAt(pre + (h + (desc + rest)), d)
    ensures d <= |pre + (h + (desc + rest))| && Strip((pre + (h + (desc + rest)))[|pre|..d]) != desc
  {
    var x := h + (desc + rest);
    SectionIsBlankLine(pre + x, d);
    Behind(pre, x, d - |pre|);
    HeadingIsReadAlong(h, desc, rest, d - |pre|);
  }

  lemma ReadFromOriginal(title: string, h: string, desc: string, rest: string)
    requires title != "" && HasNo(title, '\n') && desc != "" && Trimmed(desc) && HeadingLine(h) && IsSpace('\n')
    ensures var body := TaskBody(TASK + title + "\n\n" + (h + (desc + rest)));
            body.Some? ==> Strip(body.value) != desc
  {
    var pre, x := TASK + title + "\n\n", h + (desc + rest);
    BodyOfTitled(title, x);
    var d := FindSection(pre + x, |pre|);
    if d >= 0 {
      CutIsNotDescription(pre, h, desc, rest, d);
    }
  }

  lemma OriginalFirst(t: Task, insights: seq<string>)
    requires IsRetry(t) && FirstSection(t) == ORIGINAL && t.description != ""
    ensures TaskPrompt(t, insights)
            == TASK + t.title + "\n\n" + ((ORIGINAL + BACKGROUND + "\n") + Restored(t.description, AfterInstructions(t, insights)))
  {
    RetryShape(t, insights);
    assert PrefaceParts(t) == [TASK + t.title];
    HeadingGlue(ORIGINAL, BACKGROUND, "\n", Restored(t.description, AfterInstructions(t, insights)));
  }

  /** What the first form makes of a retry is not its description, unless the description itself begins
      like the feedback's or the summary's section that stands first in the prompt. */
  lemma NotReadAsFirstAttempt(t: Task, insights: seq<string>)
    requires IsRetry(t) && t.title != "" && HasNo(t.title, '\n') && t.description != "" && Trimmed(t.description)
    requires FirstSection(t) != ORIGINAL ==> !StartsWith(t.description, FirstSection(t))
    ensures StartsWith(TaskPrompt(t, insights), "# Task:")
    ensures var body := TaskBody(TaskPrompt(t, insights)); body.Some? ==> Strip(body.value) != t.description
  {
    var x := RetrySecondLine(t, insights);
    TitledStartsWithTask(t.title, x);
    if FirstSection(t) == ORIGINAL {
      OriginalFirst(t, insights);
      OriginalLine();
      ReadFromOriginal(t.title, ORIGINAL + BACKGROUND + "\n", t.description, INSTRUCTIONS + AfterInstructions(t, insights));
    } else {
      ReadAsFirstAttempt(t.title, x, FirstSection(t));
    }
  }

  /** Retries: the description comes back exactly when the prompt is recognised as a retry, with that one
      exception. */
  lemma RetryRoundTrip(t: Task, insights: seq<string>)
    requires IsRetry(t) && t.title != "" && HasNo(t.title, '\n')
    requires t.description != "" && Trimmed(t.description)
    requires FirstSection(t) != ORIGINAL ==> !StartsWith(t.description, FirstSection(t))
    requires Free(t.title, ORIGINAL) && Free(t.retryContext, ORIGINAL) && Free(t.agentSummary, ORIGINAL)
    requires !Contains(t.description, INSTRUCTIONS)
    ensures StripTaskPrompt(TaskPrompt(t, insights)) == t.description <==> LooksLikeRetry(TaskPrompt(t, insights))
  {
    ReadAsRetry(t, insights);
    NotReadAsFirstAttempt(t, insights);
  }

  lemma TitledStartsWithTask(title: string, x: string)
    ensures StartsWith(TASK + title + "\n\n" + x, "# Task:")
  {
  }

  /** With feedback and a title within the limit it always is, so only an instructions heading
      inside the description can get in the way. */
  lemma RetryWithFeedbackUnwraps(t: Task, insights: seq<string>)
    requires IsRetry(t) && |t.title| <= 477 && t.retryContext != ""
    requires t.description != "" && Trimmed(t.description)
    requires Free(t.title, ORIGINAL) && Free(t.retryContext, ORIGINAL) && Free(t.agentSummary, ORIGINAL)
    ensures StripTaskPrompt(TaskPrompt(t, insights)) == t.description <==> !Contains(t.description, INSTRUCTIONS)
  {
    ReadAsRetry(t, insights);
    var x := RetrySecondLine(t, insights);
    FocusInWindow(t.title, x);
    TitledStartsWithTask(t.title, x);
  }

  // ---- A retry without feedback ----

  lemma OneHashIsFree(a: string, b: string)
    requires a != "" && HasNo(a[..|a| - 1], '#') && b != "" && HasNo(b, '#')
    ensures Free(a + b, FOCUS)
  {
    var line := a + b;
    forall i | 0 <= i && i + 3 < |line| ensures !(line[i] == '#' && line[i + 1] == '#') {
      assert i < |a| - 1 ==> line[i] == a[..|a| - 1][i];
    }
    InnocentIsFree(line, FOCUS);
  }

  lemma AdviceFree(n: nat)
    ensures Free(Advice(n), FOCUS)
  {
    AdviceTextHasNoHash();
    var a, b := "This is attempt #", ". " + GOAL + BACKGROUND_ONLY + NO_REPEATS;
    AdviceGlue(a, Decimal(n), ". ", GOAL, BACKGROUND_ONLY, NO_REPEATS);
    HasNoConcat(Decimal(n), b, '#');
    OneHashIsFree(a, Decimal(n) + b);
  }

  lemma AdviceGlue(a: string, d: string, p: string, x: string, y: string, z: string)
    ensures a + d + p + x + y + z == a + (d + (p + x + y + z))
  {
    assert a + d + p + x + y + z == a + (d + (p + x + y + z));
  }

  lemma OriginalFree(t: Task)
    requires Free(t.description, FOCUS)
    ensures AllFree(OriginalParts(t), FOCUS)
  {
    var line := "\n" + ORIGINAL + BACKGROUND;
    assert HasNo(BACKGROUND, '#');
    forall i | 0 <= i && i + 3 < |line| && line[i] == '#' && line[i + 1] == '#' ensures line[i + 3] != 'Y' {
      assert i == 1;
    }
    InnocentIsFree(line, FOCUS);
    assert OriginalParts(t) == [] || OriginalParts(t) == [line, t.description];
    assert AllFree([line, t.description], FOCUS);
  }

  /** All that is sent before the insights. */
  function FrontParts(t: Task): seq<string> {
    HeadParts(t) + ["\n## Before You Start", EXPLORE, ASK]
  }

  lemma FrontPartsFree(t: Task)
    requires IsRetry(t) && t.retryContext == ""
    requires Free(t.title, FOCUS) && Free(t.agentSummary, FOCUS) && Free(t.description, FOCUS)
    ensures AllFree(FrontParts(t), FOCUS)
  {
    var last := ["\n## Instructions for This Attempt", Advice(t.attempt)];
    NoHashIsFree("", FOCUS);
    PrefaceFree(t, FOCUS);
    OriginalFree(t);
    HeadingsAreFree(FOCUS);
    AdviceFree(t.attempt);
    assert AllFree(last, FOCUS);
    FrontFree(FOCUS);
    FreeConcat(PrefaceParts(t), OriginalParts(t), FOCUS);
    FreeConcat(PrefaceParts(t) + OriginalParts(t), last, FOCUS);
    assert HeadParts(t) == PrefaceParts(t) + OriginalParts(t) + last;
    FreeConcat(HeadParts(t), ["\n## Before You Start", EXPLORE, ASK], FOCUS);
  }

  /** The front alone fills the window. */
  lemma FrontIsLong(t: Task)
    requires IsRetry(t)
    ensures |Join(FrontParts(t), "\n")| >= WINDOW
  {
    var front := ["\n## Before You Start", EXPLORE, ASK];
    var last := ["\n## Instructions for This Attempt", Advice(t.attempt)];
    var first := PrefaceParts(t) + OriginalParts(t);
    assert HeadParts(t) == first + last;
    JoinConcat(HeadParts(t), front, "\n");
    JoinConcat(first, last, "\n");
    JoinHead(first, "\n");
    assert first[0] == TASK + t.title;
    JoinTwo("\n## Instructions for This Attempt", Advice(t.attempt), "\n");
    JoinCons("\n## Before You Start", [EXPLORE, ASK], "\n");
    JoinTwo(EXPLORE, ASK, "\n");
    assert front == ["\n## Before You Start"] + [EXPLORE, ASK];
    AdviceIsLong(t.attempt);
  }

  lemma FrontThenRest(t: Task, insights: seq<string>) returns (rest: string)
    ensures TaskPrompt(t, insights) == Join(FrontParts(t), "\n") + rest
  {
    var middle := if insights == [] then [READ] else [REVIEW, Join(Bullets(insights), "\n")];
    var end := ["\n## Guidelines", DISCUSS, COMMIT, NO_PROGRESS, SUMMARY];
    var front := ["\n## Before You Start", EXPLORE, ASK];
    assert HeadParts(t) + (front + middle + end) == (HeadParts(t) + front) + (middle + end);
    JoinConcat(FrontParts(t), middle + end, "\n");
    rest := "\n" + Join(middle + end, "\n");
    JoinAssoc(Join(FrontParts(t), "\n"), "\n", Join(middle + end, "\n"));
  }

  lemma JoinAssoc(a: string, b: string, c: string)
    ensures a + b + c == a + (b + c)
  {
  }

  lemma WindowWithin(a: string, b: string)
    requires |a| >= WINDOW && Free(a, FOCUS)
    ensures !LooksLikeRetry(a + b)
  {
    var h := Head(a + b, WINDOW);
    assert h == a[..WINDOW] && a == h + a[WINDOW..];
    if Contains(h, FOCUS) {
      AtInLeft(h, a[WINDOW..], FOCUS, Find(h, FOCUS));
    }
  }

  /** A retry without feedback has no focus heading, so it is not recognised as a retry unless the
      user's or the agent's text brings one. */
  lemma UnfocusedIsNotRecognised(t: Task, insights: seq<string>)
    requires IsRetry(t) && t.retryContext == ""
    requires Free(t.title, FOCUS) && Free(t.agentSummary, FOCUS) && Free(t.description, FOCUS)
    ensures !LooksLikeRetry(TaskPrompt(t, insights))
  {
    FrontPartsFree(t);
    JoinFree(FrontParts(t), FOCUS);
    FrontIsLong(t);
    var rest := FrontThenRest(t, insights);
    WindowWithin(Join(FrontParts(t), "\n"), rest);
  }

  /** And the description is then not what comes back, with the same exception. */
  lemma UnfocusedRetryIsLost(t: Task, insights: seq<string>)
    requires IsRetry(t) && t.retryContext == "" && t.title != "" && HasNo(t.title, '\n')
    requires t.description != "" && Trimmed(t.description)
    requires FirstSection(t) != ORIGINAL ==> !StartsWith(t.description, FirstSection(t))
    requires Free(t.title, FOCUS) && Free(t.agentSummary, FOCUS) && Free(t.description, FOCUS)
    ensures StripTaskPrompt(TaskPrompt(t, insights)) != t.description
  {
    UnfocusedIsNotRecognised(t, insights);
    NotReadAsFirstAttempt(t, insights);
    LongerThanDescription(t, insights);
  }

  lemma LongerThanDescription(t: Task, insights: seq<string>)
    requires IsRetry(t) && t.description != ""
    ensures |TaskPrompt(t, insights)| > |t.description|
  {
    RetryShape(t, insights);
  }

  /** The exception is real: a description that begins like the summary's section, after a summary that
      brings a section heading of its own, comes back although the retry is not recognised. */
  lemma HeadingDescriptionComesBack(t: Task, insights: seq<string>, a: string)
    requires t.attempt == 2 && t.retryContext == "" && t.title != "" && HasNo(t.title, '\n') && Free(t.title, FOCUS)
    requires a != "" && Trimmed(a) && Free(a, FOCUS)
    requires t.description == TRIED + " (attempt #1)\n" + a && !HasSection(t.description)
    requires t.agentSummary == a + BEFORE
    requires Free(t.agentSummary, FOCUS) && Free(t.description, FOCUS)
    ensures !LooksLikeRetry(TaskPrompt(t, insights)) && StripTaskPrompt(TaskPrompt(t, insights)) == t.description
  {
    UnfocusedIsNotRecognised(t, insights);
    var rest := SummaryIsCut(t, insights, a);
    FirstAttemptOf(TaskPrompt(t, insights), t.title, t.description, rest);
  }

  lemma SecondAttemptParts(t: Task, insights: seq<string>, line: string, others: seq<string>)
    requires t.attempt == 2 && t.retryContext == "" && t.agentSummary != "" && t.agentSummary != GENERATING
    requires line == "\n" + TRIED + " (attempt #1)"
    requires others == OriginalParts(t) + ["\n## Instructions for This Attempt", Advice(t.attempt)] + TailParts(insights)
    ensures HeadParts(t) + TailParts(insights) == [TASK + t.title] + ([line] + ([t.agentSummary] + others))
  {
    assert Decimal(1) == "1";
    assert " (attempt #" + "1" + ")" == " (attempt #1)";
    LineOf("\n", TRIED, " (attempt #", "1", ")");
    assert TriedParts(t) == [line, t.agentSummary] && FocusParts(t) == [];
  }

  lemma FourLines(a: string, b: string, c: string, others: seq<string>)
    requires others != []
    ensures Join([a] + ([b] + ([c] + others)), "\n") == a + "\n" + (b + "\n" + (c + "\n" + Join(others, "\n")))
  {
    JoinCons(a, [b] + ([c] + others), "\n");
    JoinCons(b, [c] + others, "\n");
    JoinCons(c, others, "\n");
  }

  lemma SummaryIsCut(t: Task, insights: seq<string>, a: string) returns (rest: string)
    requires t.attempt == 2 && t.retryContext == "" && a != "" && Trimmed(a)
    requires t.description == TRIED + " (attempt #1)\n" + a && t.agentSummary == a + BEFORE
    ensures TaskPrompt(t, insights) == TASK + t.title + "\n\n" + (t.description + (BEFORE + "\n" + rest))
    ensures Trimmed(t.description)
  {
    var line := "\n" + TRIED + " (attempt #1)";
    var others := OriginalParts(t) + ["\n## Instructions for This Attempt", Advice(t.attempt)] + TailParts(insights);
    BeforeIsNotGenerating(a);
    SecondAttemptParts(t, insights, line, others);
    FourLines(TASK + t.title, line, t.agentSummary, others);
    rest := Join(others, "\n");
    SummaryGlue(TASK + t.title, TRIED + " (attempt #1)", a, rest);
    DescriptionGlue(a);
  }

  lemma DescriptionGlue(a: string)
    requires a != "" && Trimmed(a)
    ensures (TRIED + " (attempt #1)") + "\n" + a == TRIED + " (attempt #1)\n" + a
    ensures "\n" + TRIED + " (attempt #1)" == "\n" + (TRIED + " (attempt #1)")
    ensures Trimmed(TRIED + " (attempt #1)\n" + a)
  {
    var d := TRIED + " (attempt #1)\n" + a;
    assert " (attempt #1)" + "\n" == " (attempt #1)\n";
    assert d[|d| - 1] == a[|a| - 1] && d[0] == '#';
  }

  lemma BeforeIsNotGenerating(a: string)
    ensures a + BEFORE != GENERATING && a + BEFORE != ""
  {
    assert (a + BEFORE)[|a + BEFORE| - 1] == BEFORE[|BEFORE| - 1] == 't';
    assert GENERATING[|GENERATING| - 1] == ':';
  }

  lemma SummaryGlue(title: string, heading: string, a: string, rest: string)
    ensures title + "\n" + (("\n" + heading) + "\n" + ((a + BEFORE) + "\n" + rest))
            == title + "\n\n" + ((heading + "\n" + a) + (BEFORE + "\n" + rest))
  {
    assert "\n" + "\n" == "\n\n";
    GlueFour(title, "\n", heading, a, BEFORE, rest);
  }

  lemma GlueFour(t: string, n: string, h: string, a: string, b: string, r: string)
    ensures t + n + ((n + h) + n + ((a + b) + n + r)) == t + (n + n) + ((h + n + a) + (b + n + r))
  {
    assert t + n + ((n + h) + n + ((a + b) + n + r)) == t + n + n + h + n + a + b + n + r;
    assert t + (n + n) + ((h + n + a) + (b + n + r)) == t + n + n + h + n + a + b + n + r;
  }
}
