/**
 Recovering the user's text from a prompt: the project wrapper's regular expressions and
 those for task prompts, each as the searches it performs.
 */
module PromptUnwrap {
  import opened Collections
  import opened Strings
  import opened TextSearch
  import opened TaskPrompts

  // ---- Task prompts ----

  predicate IsWord(c: char) {
    'a' <= c <= 'z' || 'A' <= c <= 'Z' || '0' <= c <= '9' || c == '_'
  }

  /** A word boundary right after position `i - 1`, which holds a letter. */
  predicate BoundaryAt(s: string, i: nat) {
    i >= |s| || !IsWord(s[i])
  }

  /** One of the headings that end a first-attempt description. */
  predicate SectionAt(s: string, i: nat) {
    || (At(s, BEFORE, i) && BoundaryAt(s, i + |BEFORE|))
    || (At(s, GUIDELINES, i) && BoundaryAt(s, i + |GUIDELINES|))
  }

  /** A heading that runs on into a letter, a digit or an underscore is none. */
  lemma RunningOn(a: string, h: string, c: char, rest: string)
    requires h == "\n\n## Before You Start" || h == "\n\n## Guidelines"
    ensures SectionAt(a + (h + ([c] + rest)), |a|)
            <==> !('a' <= c <= 'z') && !('A' <= c <= 'Z') && !('0' <= c <= '9') && c != '_'
  {
    var s := a + (h + ([c] + rest));
    HeadingStands(s, a, h, c, rest);
    OnlyOneHeading(s, |a|);
  }

  lemma HeadingStands(s: string, a: string, h: string, c: char, rest: string)
    requires s == a + (h + ([c] + rest))
    ensures At(s, h, |a|) && |a| + |h| < |s| && s[|a| + |h|] == c
  {
    assert s[|a|..|a| + |h|] == h;
  }

  lemma OnlyOneHeading(s: string, i: nat)
    ensures !At(s, BEFORE, i) || !At(s, GUIDELINES, i)
  {
    if At(s, BEFORE, i) && At(s, GUIDELINES, i) {
      CharsAt(s, BEFORE, i, 5);
      CharsAt(s, GUIDELINES, i, 5);
    }
  }

  function FindSection(s: string, i: nat): (r: int)
    ensures r == -1 || (i <= r <= |s| && SectionAt(s, r))
    ensures r == -1 ==> forall j :: i <= j <= |s| ==> !SectionAt(s, j)
    ensures r >= 0 ==> forall j :: i <= j < r ==> !SectionAt(s, j)
    decreases |s| - i
  {
    if i > |s| then -1
    else if SectionAt(s, i) then i
    else FindSection(s, i + 1)
  }

  /** Title line, blank line, then everything up to the first section. */
  function TaskBody(s: string): Option<string> {
    var e := FindFrom(s, "\n", |TASK|);
    if !StartsWith(s, TASK) || e <= |TASK| || !At(s, "\n\n", e) then None
    else
      var d := FindSection(s, e + 2);
      if d < 0 then None else Some(s[e + 2..d])
  }

  /** The lines after the first heading, up to the stop or the end. */
  function LinesBetween(s: string, heading: string, stop: string): Option<string> {
    var h := Find(s, heading);
    if h < 0 then None
    else
      var nl := FindFrom(s, "\n", h + |heading|);
      if nl < 0 then None
      else
        var d := FindFrom(s, stop, nl + 1);
        Some(if d < 0 then s[nl + 1..] else s[nl + 1..d])
  }

  /** What follows the original-task heading, up to the instructions. */
  function RetryBody(s: string): Option<string> {
    LinesBetween(s, ORIGINAL, INSTRUCTIONS)
  }

  const WINDOW: nat := 500

  function Head(s: string, n: nat): string {
    if |s| <= n then s else s[..n]
  }

  predicate LooksLikeRetry(s: string) {
    Contains(Head(s, WINDOW), FOCUS)
  }

  function StripTaskPrompt(content: string): string {
    if !StartsWith(content, "# Task:") then content
    else if LooksLikeRetry(content) && RetryBody(content).Some? then Strip(RetryBody(content).value)
    else match TaskBody(content)
      case Some(body) => Strip(body)
      case None => content
  }

  // ---- First attempts ----

  function AfterBefore(insights: seq<string>): string {
    Join(TailParts(insights)[1..], "\n")
  }

  lemma TailShape(insights: seq<string>)
    ensures Join(TailParts(insights), "\n") == "\n## Before You Start\n" + AfterBefore(insights)
  {
    var tail := TailParts(insights);
    assert tail == [tail[0]] + tail[1..];
    JoinCons(tail[0], tail[1..], "\n");
  }

  /** Title and description, then a tail that begins with its own heading line. */
  lemma ShapeOf(title: string, desc: string, tail: seq<string>, heading: string, rest: string)
    requires tail != [] && Join(tail, "\n") == heading + rest
    ensures Join([title, "\n" + desc] + tail, "\n") == title + "\n\n" + (desc + ("\n" + heading + rest))
  {
    JoinConcat([title, "\n" + desc], tail, "\n");
    JoinTwo(title, "\n" + desc, "\n");
  }

  lemma FirstShape(t: Task, insights: seq<string>)
    requires !IsRetry(t) && t.description != ""
    ensures TaskPrompt(t, insights)
            == TASK + t.title + "\n\n" + (t.description + (BEFORE + "\n" + AfterBefore(insights)))
  {
    TailShape(insights);
    ShapeOf(TASK + t.title, t.description, TailParts(insights), "\n## Before You Start\n", AfterBefore(insights));
    assert HeadParts(t) == [TASK + t.title, "\n" + t.description];
    BeforeLine(AfterBefore(insights));
  }

  lemma BeforeLine(rest: string)
    ensures "\n" + "\n## Before You Start\n" + rest == BEFORE + "\n" + rest
  {
    assert "\n" + "\n## Before You Start\n" == BEFORE + "\n";
  }

  /** Title line and blank line are skipped; what is left is searched for a section. */
  lemma BodyOfTitled(title: string, rest: string)
    requires title != "" && HasNo(title, '\n')
    ensures var s := TASK + title + "\n\n" + rest;
            var b := |TASK| + |title| + 2;
            TaskBody(s) == if FindSection(s, b) < 0 then None else Some(s[b..FindSection(s, b)])
  {
    var s := TASK + title + "\n\n" + rest;
    var e := |TASK| + |title|;
    assert s[..|TASK|] == TASK;
    assert s[e..e + 1] == "\n" && s[e..e + 2] == "\n\n";
    forall j | |TASK| <= j < e ensures !At(s, "\n", j) {
      assert s[j] == title[j - |TASK|];
      assert s[j..j + 1][0] == s[j];
    }
    FoundAt(s, "\n", |TASK|, e);
  }

  lemma HeadingsAreHeadings()
    ensures Heading(BEFORE) && Heading(GUIDELINES) && Heading(INSTRUCTIONS)
  {
  }

  /** Searching a trimmed description that a section follows: a section inside it is found
      first, otherwise the one right after it. */
  lemma SectionAfter(desc: string, rest: string, i: nat)
    requires desc != "" && Trimmed(desc) && i < |desc|
    ensures SectionAt(desc + (BEFORE + "\n" + rest), i) <==> SectionAt(desc, i)
  {
    var tail := BEFORE + "\n" + rest;
    var s := desc + tail;
    HeadingsAreHeadings();
    assert IsSpace('\n');
    if At(s, BEFORE, i) { HeadingDoesNotStraddle(desc, tail, BEFORE, i); }
    if At(s, GUIDELINES, i) { HeadingDoesNotStraddle(desc, tail, GUIDELINES, i); }
    if i + |BEFORE| <= |desc| {
      AtInLeft(desc, tail, BEFORE, i);
      assert BoundaryAt(s, i + |BEFORE|) <==> BoundaryAt(desc, i + |BEFORE|) by {
        if i + |BEFORE| == |desc| { assert s[|desc|] == '\n'; }
      }
    }
    if i + |GUIDELINES| <= |desc| {
      AtInLeft(desc, tail, GUIDELINES, i);
      assert BoundaryAt(s, i + |GUIDELINES|) <==> BoundaryAt(desc, i + |GUIDELINES|) by {
        if i + |GUIDELINES| == |desc| { assert s[|desc|] == '\n'; }
      }
    }
  }

  ghost predicate HasSection(desc: string) {
    exists i: nat :: i < |desc| && SectionAt(desc, i)
  }

  lemma {:induction false} StripShrinks(s: string)
    ensures |Strip(s)| <= |s|
  {
    LStripShrinks(s);
    RStripTrims(LStrip(s));
  }

  lemma {:induction false} LStripShrinks(s: string)
    ensures |LStrip(s)| <= |s|
  {
    if s != "" && IsSpace(s[0]) {
      LStripShrinks(s[1..]);
    }
  }

  lemma SectionShift(pre: string, rest: string, i: nat)
    ensures SectionAt(pre + rest, |pre| + i) <==> SectionAt(rest, i)
  {
    AtInRight(pre, rest, BEFORE, i);
    AtInRight(pre, rest, GUIDELINES, i);
  }

  lemma SectionAtEnd(desc: string, rest: string)
    ensures SectionAt(desc + (BEFORE + "\n" + rest), |desc|)
  {
    var tail := BEFORE + "\n" + rest;
    assert tail[..|BEFORE|] == BEFORE;
    AtInRight(desc, tail, BEFORE, 0);
    assert (desc + tail)[|desc| + |BEFORE|] == tail[|BEFORE|] == '\n';
  }

  lemma SectionsOfDescription(pre: string, desc: string, rest: string)
    requires desc != "" && Trimmed(desc)
    ensures forall i: nat :: i < |desc| ==>
              (SectionAt(pre + (desc + (BEFORE + "\n" + rest)), |pre| + i) <==> SectionAt(desc, i))
    ensures SectionAt(pre + (desc + (BEFORE + "\n" + rest)), |pre| + |desc|)
  {
    var tail := desc + (BEFORE + "\n" + rest);
    forall i: nat | i < |desc| ensures SectionAt(pre + tail, |pre| + i) <==> SectionAt(desc, i) {
      SectionShift(pre, tail, i);
      SectionAfter(desc, rest, i);
    }
    SectionShift(pre, tail, |desc|);
    SectionAtEnd(desc, rest);
  }

  /** Where the first section is found, when sections correspond to those of a description. */
  lemma FindAmong(s: string, p: nat, desc: string)
    requires p + |desc| <= |s|
    requires forall i: nat :: i < |desc| ==> (SectionAt(s, p + i) <==> SectionAt(desc, i))
    requires SectionAt(s, p + |desc|)
    ensures p <= FindSection(s, p) <= p + |desc|
    ensures FindSection(s, p) == p + |desc| <==> !HasSection(desc)
  {
    var d := FindSection(s, p);
    if d < p + |desc| {
      var i: nat := d - p;
      assert SectionAt(s, p + i);
      assert SectionAt(desc, i);
    }
    if HasSection(desc) {
      var i: nat :| i < |desc| && SectionAt(desc, i);
      assert SectionAt(s, p + i);
    }
  }

  /** The prompt is read as a retry only if the focus heading is in the window and the original-task
      heading somewhere. */
  predicate ReadableAsRetry(s: string) {
    LooksLikeRetry(s) && Contains(s, ORIGINAL)
  }

  /** Otherwise only the first form can match. */
  lemma ReadAsFirstAttempt(pre: string, rest: string)
    requires TASK <= pre && !ReadableAsRetry(pre + rest)
    ensures StripTaskPrompt(pre + rest)
            == if TaskBody(pre + rest).Some? then Strip(TaskBody(pre + rest).value) else pre + rest
  {
    assert (pre + rest)[..|TASK|] == TASK;
    assert StartsWith(pre + rest, "# Task:");
  }

  /** First attempts that cannot be read as a retry: unwrapping gives back the description exactly
      when the description contains none of the section headings. */
  lemma FirstAttemptUnwraps(t: Task, insights: seq<string>)
    requires !IsRetry(t) && t.title != "" && HasNo(t.title, '\n')
    requires t.description != "" && Trimmed(t.description)
    requires !ReadableAsRetry(TaskPrompt(t, insights))
    ensures StripTaskPrompt(TaskPrompt(t, insights)) == t.description <==> !HasSection(t.description)
  {
    FirstShape(t, insights);
    FirstAttemptOf(TaskPrompt(t, insights), t.title, t.description, AfterBefore(insights));
  }

  lemma FirstAttemptOf(s: string, title: string, desc: string, rest: string)
    requires s == TASK + title + "\n\n" + (desc + (BEFORE + "\n" + rest)) && !ReadableAsRetry(s)
    requires title != "" && HasNo(title, '\n') && desc != "" && Trimmed(desc)
    ensures StripTaskPrompt(s) == desc <==> !HasSection(desc)
  {
    var tail := desc + (BEFORE + "\n" + rest);
    BodyOfTitled(title, tail);
    DescriptionIsCut(TASK + title + "\n\n", desc, rest);
    ReadAsFirstAttempt(TASK + title + "\n\n", tail);
  }

  /** A prefix of a trimmed text strips to the text only when it is all of it. */
  lemma OnlyAllStripsToAll(desc: string, k: nat)
    requires Trimmed(desc) && k <= |desc|
    ensures Strip(desc[..k]) == desc <==> k == |desc|
  {
    StripShrinks(desc[..k]);
    StripTrimmed(desc);
    assert desc[..|desc|] == desc;
  }

  lemma CutAmong(s: string, p: nat, desc: string, d: int)
    requires Trimmed(desc) && p + |desc| <= |s| && p <= d <= p + |desc|
    requires s[p..d] == desc[..d - p]
    ensures Strip(s[p..d]) == desc <==> d == p + |desc|
  {
    OnlyAllStripsToAll(desc, d - p);
  }

  lemma DescriptionIsCut(pre: string, desc: string, rest: string)
    requires desc != "" && Trimmed(desc)
    ensures var s := pre + (desc + (BEFORE + "\n" + rest));
            var d := FindSection(s, |pre|);
            |pre| <= d <= |s| && (Strip(s[|pre|..d]) == desc <==> !HasSection(desc))
  {
    SectionsOfDescription(pre, desc, rest);
    DescriptionIsCutBefore(pre, desc, BEFORE + "\n" + rest);
  }

  lemma DescriptionIsCutBefore(pre: string, desc: string, tail: string)
    requires desc != "" && Trimmed(desc)
    requires forall i: nat :: i < |desc| ==> (SectionAt(pre + (desc + tail), |pre| + i) <==> SectionAt(desc, i))
    requires SectionAt(pre + (desc + tail), |pre| + |desc|)
    ensures var s := pre + (desc + tail);
            var d := FindSection(s, |pre|);
            |pre| <= d <= |s| && (Strip(s[|pre|..d]) == desc <==> !HasSection(desc))
  {
    var s := pre + (desc + tail);
    FindAmong(s, |pre|, desc);
    var d := FindSection(s, |pre|);
    CutIsPrefix(pre, desc, tail, d - |pre|);
    CutAmong(s, |pre|, desc, d);
  }

  lemma CutIsPrefix(pre: string, desc: string, rest: string, k: nat)
    requires k <= |desc|
    ensures (pre + (desc + rest))[|pre|..|pre| + k] == desc[..k]
    ensures desc[..|desc|] == desc
  {
  }

  // ---- Headings in a prompt assembled from parts ----

  lemma {:induction false} ContainsJoin(parts: seq<string>, p: string)
    requires HasNo(p, '\n') && p != ""
    ensures Contains(Join(parts, "\n"), p) <==> exists i :: 0 <= i < |parts| && Contains(parts[i], p)
  {
    var n := |parts| - 1;
    if parts == [] {
    } else if n == 0 {
    } else {
      ContainsJoin(parts[..n], p);
      ContainsLine(Join(parts[..n], "\n"), parts[n], p);
      assert forall i :: 0 <= i < n ==> parts[..n][i] == parts[i];
    }
  }

  /** The two headings by which a retry is recognised and read. */
  predicate Watched(p: string) {
    p == ORIGINAL || p == FOCUS
  }

  /** What tells them from other headings: the letter after the hash signs and the space. */
  function Initial(p: string): char
    requires Watched(p)
  {
    if p == ORIGINAL then 'O' else 'Y'
  }

  lemma WatchedIsALine(p: string)
    requires Watched(p)
    ensures HasNo(p, '\n') && |p| > 3 && p[0] == '#' && p[1] == '#' && p[2] == ' ' && p[3] == Initial(p)
  {
  }

  /** No hash signs in the line are followed by what a watched heading needs. */
  ghost predicate Innocent(line: string, c: char) {
    forall i :: 0 <= i && i + 3 < |line| ==> !(line[i] == '#' && line[i + 1] == '#' && line[i + 3] == c)
  }

  predicate Free(s: string, p: string) {
    !Contains(s, p)
  }

  lemma InnocentIsFree(line: string, p: string)
    requires Watched(p) && Innocent(line, Initial(p))
    ensures Free(line, p)
  {
    WatchedIsALine(p);
    if Contains(line, p) {
      var i := Find(line, p);
      CharsAt(line, p, i, 0);
      CharsAt(line, p, i, 1);
      CharsAt(line, p, i, 3);
    }
  }

  lemma TwoChunks(a: string, b: string, ch: char)
    requires HasNo(a, ch) && HasNo(b, ch)
    ensures HasNo(a + b, ch)
  {
  }

  lemma ThreeChunks(a: string, b: string, c: string, ch: char)
    requires HasNo(a, ch) && HasNo(b, ch) && HasNo(c, ch)
    ensures HasNo(a + b + c, ch)
  {
  }

  lemma FourChunks(a: string, b: string, c: string, d: string, ch: char)
    requires HasNo(a, ch) && HasNo(b, ch) && HasNo(c, ch) && HasNo(d, ch)
    ensures HasNo(a + b + c + d, ch)
  {
  }

  lemma AdviceLinesHaveNoHash()
    ensures HasNo(EXPLORE, '#') && HasNo(ASK, '#') && HasNo(REVIEW, '#')
  {
    FourChunks("- **Explore first** — read relevant ", "files, trace the full code flow, ",
               "understand the architecture before ", "writing any code", '#');
    FourChunks("- **Ask questions** if anything is ", "unclear or ambiguous — don't assume, ",
               "ask early. The user is here to ", "help clarify.", '#');
    ThreeChunks("- Review these relevant past ", "insights and lessons (avoid ", "repeating past mistakes):", '#');
  }

  lemma ReadLineHasNoHash()
    ensures HasNo(READ, '#') && HasNo(FEEDBACK, '#')
  {
    FourChunks("- Read PROGRESS.md in the project ", "root (if it exists), focusing on ",
               "entries relevant to this task — ", "avoid repeating past ", '#');
    FourChunks("The user reviewed the previous ", "attempt and provided this feedback. ",
               "This is your PRIMARY objective ", "— address these points:", '#');
    assert HasNo("mistakes", '#');
  }

  lemma AdviceTextHasNoHash()
    ensures HasNo(". " + GOAL + BACKGROUND_ONLY + NO_REPEATS, '#')
  {
    FourChunks("Your primary goal is the ", "user feedback above — that ", "describes what still needs ", "to be done. ", '#');
    TwoChunks("The original task description ", "is background context only. ", '#');
    TwoChunks("Do not repeat the same ", "approaches that failed.", '#');
    FourChunks(". ", GOAL, BACKGROUND_ONLY, NO_REPEATS, '#');
  }

  lemma AdviceIsLong(n: nat)
    ensures |EXPLORE| >= 110 && |ASK| >= 110 && |Advice(n)| >= 200
  {
  }

  lemma GuidelinesHaveNoHash()
    ensures HasNo(DISCUSS, '#') && HasNo(COMMIT, '#') && HasNo(NO_PROGRESS, '#') && HasNo(SUMMARY, '#')
  {
    FourChunks("- Discuss your approach with the ", "user before making large changes ",
               "— share what you found and ", "your plan", '#');
    TwoChunks("- Commit all changes with ", "descriptive messages", '#');
    ThreeChunks("- Do NOT write to or modify ", "PROGRESS.md — progress tracking ", "is managed separately", '#');
    TwoChunks("- Leave a summary of what was done ", "as your final message", '#');
  }

  // ---- Where a watched heading can come from ----

  lemma NoHashIsFree(line: string, p: string)
    requires Watched(p) && HasNo(line, '#')
    ensures Free(line, p)
  {
    WatchedIsALine(p);
    NotContained(line, p, 0);
  }

  lemma {:induction false} InBullets(insights: seq<string>, p: string)
    requires Watched(p)
    ensures Free(Join(Bullets(insights), "\n"), p) <==> forall i :: 0 <= i < |insights| ==> Free(insights[i], p)
  {
    WatchedIsALine(p);
    ContainsJoin(Bullets(insights), p);
    forall i | 0 <= i < |insights| ensures Free(Bullets(insights)[i], p) <==> Free(insights[i], p) {
      AfterPlainPrefix("- ", insights[i], p);
    }
    if forall i :: 0 <= i < |insights| ==> Free(insights[i], p) {
      assert forall i :: 0 <= i < |insights| ==> Free(Bullets(insights)[i], p);
    }
    if Free(Join(Bullets(insights), "\n"), p) {
      forall i | 0 <= i < |insights| ensures Free(insights[i], p) {
        assert Free(Bullets(insights)[i], p);
      }
    }
  }

  ghost predicate PlainPrefix(prefix: string) {
    forall i :: 0 <= i < |prefix| ==> prefix[i] != '#' || (i + 1 < |prefix| && prefix[i + 1] != '#')
  }

  lemma StartsBehindPrefix(prefix: string, s: string, p: string, i: nat)
    requires PlainPrefix(prefix) && |p| >= 2 && p[0] == '#' && p[1] == '#'
    requires At(prefix + s, p, i)
    ensures i >= |prefix|
  {
    CharsAt(prefix + s, p, i, 0);
    CharsAt(prefix + s, p, i, 1);
    assert forall k :: 0 <= k < |prefix| ==> (prefix + s)[k] == prefix[k];
  }

  lemma BehindPrefix(prefix: string, s: string, p: string)
    requires PlainPrefix(prefix) && |p| >= 2 && p[0] == '#' && p[1] == '#'
    ensures Contains(prefix + s, p) <==> Contains(s, p)
  {
    if Contains(prefix + s, p) {
      var i := Find(prefix + s, p);
      StartsBehindPrefix(prefix, s, p, i);
      AtInRight(prefix, s, p, i - |prefix|);
    }
    if Contains(s, p) {
      AtInRight(prefix, s, p, Find(s, p));
      assert At(prefix + s, p, |prefix| + Find(s, p));
    }
  }

  /** A prefix without hash signs can neither hold nor begin the heading. */
  lemma AfterPlainPrefix(prefix: string, s: string, p: string)
    requires Watched(p) && PlainPrefix(prefix)
    ensures Free(prefix + s, p) <==> Free(s, p)
  {
    WatchedIsALine(p);
    BehindPrefix(prefix, s, p);
  }
}
