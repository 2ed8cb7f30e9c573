/**
 The prompts as the agent reads them, section by section.
 */
module PromptText {
  import opened Collections
  import opened Strings
  import opened TaskPrompts

  /** A line after what stands before it. */
  function L(text: string): string {
    "\n" + text
  }

  function FocusText(t: Task): string {
    if t.retryContext == "" then ""
    else L("\n" + "## Your Focus" + " (attempt #" + Decimal(t.attempt) + ")") + L(FEEDBACK) + L(t.retryContext)
  }

  /** A summary that is still being written is none. */
  function TriedText(t: Task): string
    requires t.attempt > 1
  {
    if t.agentSummary == "" || t.agentSummary == ":::generating:::" then ""
    else L("\n" + "## What Was Tried" + " (attempt #" + Decimal(t.attempt - 1) + ")") + L(t.agentSummary)
  }

  function OriginalText(t: Task): string {
    if t.description == "" then "" else L("\n" + "## Original Task" + " (Background Context)") + L(t.description)
  }

  function AdviceText(n: nat): string {
    L("\n## Instructions for This Attempt")
    + L("This is attempt #" + Decimal(n) + ". " + GOAL + BACKGROUND_ONLY + NO_REPEATS)
  }

  /** What every task is told. */
  function ClosingText(insights: seq<string>): string {
    L("\n## Before You Start") + L(EXPLORE) + L(ASK)
    + (if insights == [] then L(READ) else L(REVIEW) + L(Join(Bullets(insights), "\n")))
    + (L("\n## Guidelines") + L(DISCUSS) + L(COMMIT) + L(NO_PROGRESS) + L(SUMMARY))
  }

  // ---- Parts as lines ----

  /** The parts, each on a line of its own. */
  function Following(parts: seq<string>): string {
    if parts == [] then "" else L(Join(parts, "\n"))
  }

  lemma Regroup(n: string, x: string, y: string)
    ensures n + (x + n + y) == (n + x) + (n + y)
  {
    assert x + n + y == x + (n + y);
  }

  lemma FollowingConcat(a: seq<string>, b: seq<string>)
    ensures Following(a + b) == Following(a) + Following(b)
  {
    if a == [] {
      assert a + b == b && "" + Following(b) == Following(b);
    } else if b == [] {
      assert a + b == a && Following(a) + "" == Following(a);
    } else {
      JoinConcat(a, b, "\n");
      Regroup("\n", Join(a, "\n"), Join(b, "\n"));
    }
  }

  lemma FirstThen(x: string, rest: seq<string>)
    ensures Join([x] + rest, "\n") == x + Following(rest)
  {
    if rest == [] {
      assert [x] + rest == [x] && x + "" == x;
    } else {
      JoinCons(x, rest, "\n");
      assert x + "\n" + Join(rest, "\n") == x + ("\n" + Join(rest, "\n"));
    }
  }

  lemma FollowingOne(a: string)
    ensures Following([a]) == L(a)
  {
  }

  lemma FollowingTwo(a: string, b: string)
    ensures Following([a, b]) == L(a) + L(b)
  {
    assert [a] + [b] == [a, b];
    FollowingConcat([a], [b]);
  }

  lemma FollowingThree(a: string, b: string, c: string)
    ensures Following([a, b, c]) == L(a) + L(b) + L(c)
  {
    assert [a, b] + [c] == [a, b, c];
    FollowingConcat([a, b], [c]);
    FollowingTwo(a, b);
  }

  lemma FollowingFive(a: string, b: string, c: string, d: string, e: string)
    ensures Following([a, b, c, d, e]) == L(a) + L(b) + L(c) + L(d) + L(e)
  {
    assert [a, b, c] + [d] == [a, b, c, d] && [a, b, c, d] + [e] == [a, b, c, d, e];
    FollowingConcat([a, b, c], [d]);
    FollowingConcat([a, b, c, d], [e]);
    FollowingThree(a, b, c);
  }

  // ---- The sections ----

  lemma FocusReads(t: Task)
    ensures Following(FocusParts(t)) == FocusText(t)
  {
    FollowingThree("\n" + FOCUS + " (attempt #" + Decimal(t.attempt) + ")", FEEDBACK, t.retryContext);
  }

  lemma TriedReads(t: Task)
    requires IsRetry(t)
    ensures Following(TriedParts(t)) == TriedText(t)
  {
    FollowingTwo("\n" + TRIED + " (attempt #" + Decimal(t.attempt - 1) + ")", t.agentSummary);
  }

  lemma OriginalReads(t: Task)
    ensures Following(OriginalParts(t)) == OriginalText(t)
  {
    FollowingTwo("\n" + ORIGINAL + BACKGROUND, t.description);
  }

  lemma AdviceReads(n: nat)
    ensures Following(["\n## Instructions for This Attempt", Advice(n)]) == AdviceText(n)
  {
    FollowingTwo("\n## Instructions for This Attempt", Advice(n));
  }

  lemma ClosingReads(insights: seq<string>)
    ensures Following(TailParts(insights)) == ClosingText(insights)
  {
    var before, after := ["\n## Before You Start", EXPLORE, ASK], ["\n## Guidelines", DISCUSS, COMMIT, NO_PROGRESS, SUMMARY];
    var middle := if insights == [] then [READ] else [REVIEW, Join(Bullets(insights), "\n")];
    FollowingConcat(before + middle, after);
    FollowingConcat(before, middle);
    FollowingThree("\n## Before You Start", EXPLORE, ASK);
    FollowingOne(READ);
    FollowingTwo(REVIEW, Join(Bullets(insights), "\n"));
    FollowingFive("\n## Guidelines", DISCUSS, COMMIT, NO_PROGRESS, SUMMARY);
  }

  lemma FourFollow(a: seq<string>, b: seq<string>, c: seq<string>, d: seq<string>)
    ensures Following(a + b + c + d) == Following(a) + Following(b) + Following(c) + Following(d)
  {
    FollowingConcat(a + b + c, d);
    FollowingConcat(a + b, c);
    FollowingConcat(a, b);
  }

  lemma HeadThenTail(x: string, rest: seq<string>, tail: seq<string>)
    ensures Join(([x] + rest) + tail, "\n") == x + (Following(rest) + Following(tail))
  {
    assert ([x] + rest) + tail == [x] + (rest + tail);
    FirstThen(x, rest + tail);
    FollowingConcat(rest, tail);
  }

  lemma RetryHeadIs(t: Task)
    requires IsRetry(t)
    ensures HeadParts(t)
            == [TASK + t.title]
               + (FocusParts(t) + TriedParts(t) + OriginalParts(t) + ["\n## Instructions for This Attempt", Advice(t.attempt)])
  {
  }

  /** The prompt of a first attempt: the title, the description if there is one, and what every task is told. */
  lemma FirstPromptReads(t: Task, insights: seq<string>)
    requires t.attempt <= 1
    ensures TaskPrompt(t, insights)
            == "# Task: " + t.title + ((if t.description == "" then "" else L("\n" + t.description)) + ClosingText(insights))
  {
    var rest := if t.description == "" then [] else ["\n" + t.description];
    HeadThenTail(TASK + t.title, rest, TailParts(insights));
    FollowingOne("\n" + t.description);
    ClosingReads(insights);
  }

  /** The prompt of a retry: the title, then what to attend to, what was tried and the original task, each
      only if there is one, then the advice and what every task is told. */
  lemma RetryPromptReads(t: Task, insights: seq<string>)
    requires t.attempt > 1
    ensures TaskPrompt(t, insights)
            == "# Task: " + t.title
               + ((FocusText(t) + TriedText(t) + OriginalText(t) + AdviceText(t.attempt)) + ClosingText(insights))
  {
    var last := ["\n## Instructions for This Attempt", Advice(t.attempt)];
    RetryHeadIs(t);
    HeadThenTail(TASK + t.title, FocusParts(t) + TriedParts(t) + OriginalParts(t) + last, TailParts(insights));
    FourFollow(FocusParts(t), TriedParts(t), OriginalParts(t), last);
    FocusReads(t);
    TriedReads(t);
    OriginalReads(t);
    AdviceReads(t.attempt);
    ClosingReads(insights);
  }

  // ---- The wrapper ----

  /** The project wrapper sets each insight on a line of its own, indented, after a fixed heading. */
  lemma InsightIsIndented(insights: seq<string>, last: string)
    ensures insights == [] ==> InsightsBlock(insights + [last]) == INSIGHTS + INSIGHTS_REST + ("  - " + last)
    ensures insights != [] ==> InsightsBlock(insights + [last]) == InsightsBlock(insights) + L("  - " + last)
  {
    var lines := Indented(insights);
    assert Indented(insights + [last]) == lines + ["  - " + last];
    if insights == [] {
      assert lines + ["  - " + last] == ["  - " + last];
    } else {
      JoinConcat(lines, ["  - " + last], "\n");
      OneMoreLine(INSIGHTS + INSIGHTS_REST, Join(lines, "\n"), "\n", "  - " + last);
    }
  }

  lemma OneMoreLine(a: string, b: string, n: string, c: string)
    ensures a + (b + n + c) == (a + b) + (n + c)
  {
  }
}
