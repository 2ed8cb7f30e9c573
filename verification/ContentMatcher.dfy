/**
 Deciding which stored message a transcript entry echoes, and the end-to-end result:
 a dispatched task is matched to the message that started it.
 */
module ContentMatcher {
  import opened Collections
  import opened Strings
  import opened TextSearch
  import opened TaskPrompts
  import opened PromptUnwrap
  import opened PromptRoundTrip
  import opened AgentPreamble

  // ---- Whitespace normalisation ----

  function Lines(s: string): seq<string>
    decreases |s|
  {
    var nl := Find(s, "\n");
    if nl < 0 then [s] else [s[..nl]] + Lines(s[nl + 1..])
  }

  predicate Blank(c: char) {
    c == ' ' || c == '\t'
  }

  /** Runs of spaces and tabs become one space. */
  function CollapseBlanks(s: string): string {
    if s == "" then ""
    else if Blank(s[0]) then (if |s| > 1 && Blank(s[1]) then "" else " ") + CollapseBlanks(s[1..])
    else [s[0]] + CollapseBlanks(s[1..])
  }

  /** Runs of three or more newlines become two. */
  function CollapseNewlines(s: string): string {
    if s == "" then ""
    else if |s| > 2 && s[0] == '\n' && s[1] == '\n' && s[2] == '\n' then CollapseNewlines(s[1..])
    else [s[0]] + CollapseNewlines(s[1..])
  }

  function NormalLines(lines: seq<string>): seq<string> {
    seq(|lines|, i requires 0 <= i < |lines| => Strip(CollapseBlanks(lines[i])))
  }

  function Normalize(s: string): string {
    if s == "" then "" else CollapseNewlines(Strip(Join(NormalLines(Lines(s)), "\n")))
  }

  // ---- Matching ----

  datatype Method = Exact | TaskStripped | Normalized | TaskNormalized | DescriptionContained | NoMatch

  /** First non-empty candidate that passes the test. */
  function FirstWhere(candidates: seq<string>, test: string -> bool, i: nat): (r: Option<nat>)
    ensures r.Some? ==> i <= r.value < |candidates| && candidates[r.value] != "" && test(candidates[r.value])
                        && forall j :: i <= j < r.value ==> candidates[j] == "" || !test(candidates[j])
    ensures r.None? ==> forall j :: i <= j < |candidates| ==> candidates[j] == "" || !test(candidates[j])
    decreases |candidates| - i
  {
    if i >= |candidates| then None
    else if candidates[i] != "" && test(candidates[i]) then Some(i)
    else FirstWhere(candidates, test, i + 1)
  }

  /** One comparison with all candidates, the contents of the stored messages, oldest first; `text` is the
      content without a task's wrapper. */
  function Search(how: Method, content: string, text: string, candidates: seq<string>): Option<nat> {
    var norm, short := Normalize(content), Normalize(text);
    match how
    case Exact => FirstWhere(candidates, c => c == content, 0)
    case TaskStripped => if text != content then FirstWhere(candidates, c => c == text, 0) else None
    case Normalized => FirstWhere(candidates, c => Normalize(c) == norm, 0)
    case TaskNormalized => if text != content then FirstWhere(candidates, c => Normalize(c) == short, 0) else None
    case DescriptionContained =>
      if text != content && |text| > 20 then FirstWhere(candidates, c => Contains(Normalize(c), short), 0) else None
    case NoMatch => None
  }

  /** The comparisons are tried in this order; the first that finds a candidate decides. */
  const ORDER: seq<Method> := [Exact, TaskStripped, Normalized, TaskNormalized, DescriptionContained]

  function TryInOrder(order: seq<Method>, content: string, text: string, candidates: seq<string>): (Option<nat>, Method) {
    if order == [] then (None, NoMatch)
    else
      var found := Search(order[0], content, text, candidates);
      if found.Some? then (found, order[0]) else TryInOrder(order[1..], content, text, candidates)
  }

  function Match(content: string, candidates: seq<string>): (Option<nat>, Method) {
    if candidates == [] || content == "" then (None, NoMatch)
    else TryInOrder(ORDER, content, StripTaskPrompt(content), candidates)
  }

  lemma SecondTry(order: seq<Method>, content: string, text: string, candidates: seq<string>, k: nat)
    requires |order| > 1 && Search(order[0], content, text, candidates) == None
    ensures Search(order[1], content, text, candidates) == Some(k) ==>
              TryInOrder(order, content, text, candidates) == (Some(k), order[1])
  {
    assert order[1..][0] == order[1];
  }

  /** When no candidate is the whole text, the earliest candidate equal to the unwrapped text wins. */
  lemma UnwrappedTextWins(content: string, text: string, candidates: seq<string>, k: nat)
    requires text != content && text != "" && content != ""
    requires forall i :: 0 <= i < |candidates| ==> candidates[i] != content
    requires k < |candidates| && candidates[k] == text
    requires forall i :: 0 <= i < k ==> candidates[i] != text
    ensures StripTaskPrompt(content) == text ==> Match(content, candidates) == (Some(k), TaskStripped)
  {
    var exact, byTask := FirstWhere(candidates, c => c == content, 0), FirstWhere(candidates, c => c == text, 0);
    assert exact.None? && Search(Exact, content, text, candidates) == exact;
    assert byTask == Some(k) && Search(TaskStripped, content, text, candidates) == byTask;
    SecondTry(ORDER, content, text, candidates, k);
  }

  // ---- End to end ----

  lemma {:induction false} JoinTail(parts: seq<string>, sep: string)
    requires parts != [] && parts[|parts| - 1] != ""
    ensures Join(parts, sep) != ""
    ensures Join(parts, sep)[|Join(parts, sep)| - 1] == parts[|parts| - 1][|parts[|parts| - 1]| - 1]
  {
  }

  lemma SummaryEnds()
    ensures SUMMARY != "" && SUMMARY[|SUMMARY| - 1] == 'e'
  {
  }

  /** A task prompt begins with its title mark and ends with its last guideline. */
  lemma TaskPromptIsTrimmed(t: Task, insights: seq<string>)
    ensures TaskPrompt(t, insights) != "" && Trimmed(TaskPrompt(t, insights))
  {
    var parts := HeadParts(t) + TailParts(insights);
    JoinHead(parts, "\n");
    FirstPart(t, insights);
    SummaryEnds();
    JoinTail(parts, "\n");
    EndsAreVisible();
  }

  lemma EndsAreVisible()
    ensures !IsSpace('#') && !IsSpace('e') && TASK[0] == '#'
  {
  }

  lemma FirstPart(t: Task, insights: seq<string>)
    ensures var parts := HeadParts(t) + TailParts(insights);
            parts != [] && parts[0] == TASK + t.title && parts[|parts| - 1] == SUMMARY
  {
    var tail := TailParts(insights);
    assert tail[|tail| - 1] == SUMMARY;
    assert HeadParts(t)[0] == TASK + t.title;
  }

  /** What the importer sees of a dispatched task: the wrapper's text, stripped. */
  function Echo(name: string, path: string, t: Task, insights: seq<string>): string {
    StripAgentPreamble(AgentPrompt(name, path, TaskPrompt(t, insights), []))
  }

  /** The condition under which unwrapping gives the description back: for a first attempt no
      section heading in it; for a retry with feedback no instructions heading. */
  ghost predicate Recoverable(t: Task) {
    if IsRetry(t) then !Contains(t.description, INSTRUCTIONS) else !HasSection(t.description)
  }

  /** A task as the dispatcher gets it: a one-line title within the limit, a trimmed description,
      feedback if it is a retry; no original-task heading in the texts before a retry's, and in
      a first attempt at most one of the two headings that mark a retry. */
  ghost predicate Plain(t: Task, insights: seq<string>) {
    && t.title != "" && HasNo(t.title, '\n') && |t.title| <= 300
    && t.description != "" && Trimmed(t.description)
    && if IsRetry(t) then
         t.retryContext != "" && Free(t.title, ORIGINAL) && Free(t.retryContext, ORIGINAL) && Free(t.agentSummary, ORIGINAL)
       else Without(t, insights, ORIGINAL) || Without(t, insights, FOCUS)
  }

  predicate Without(t: Task, insights: seq<string>, heading: string) {
    Free(t.title, heading) && Free(t.description, heading) && AllFree(insights, heading)
  }

  lemma TaskPromptUnwraps(t: Task, insights: seq<string>)
    requires Plain(t, insights)
    ensures StripTaskPrompt(TaskPrompt(t, insights)) == t.description <==> Recoverable(t)
  {
    if IsRetry(t) {
      RetryWithFeedbackUnwraps(t, insights);
    } else {
      FirstAttemptRoundTrip(t, insights, if Without(t, insights, ORIGINAL) then ORIGINAL else FOCUS);
    }
  }

  lemma PromptIsLonger(t: Task, insights: seq<string>)
    requires t.description != ""
    ensures |TaskPrompt(t, insights)| > |t.description|
  {
    if IsRetry(t) {
      RetryShape(t, insights);
    } else {
      FirstShape(t, insights);
    }
  }

  /** Main result for prompts: a plain task whose prompt holds no insights heading is echoed by the
      transcript as its own prompt, which unwraps to the description exactly when that is
      recoverable; and then, unless some message equals the whole prompt, the oldest message
      with that description is the one that is matched. */
  lemma DispatchedTaskIsMatched(name: string, path: string, t: Task, insights: seq<string>, candidates: seq<string>, k: nat)
    requires name != "" && HasNo(name, '\n') && path != "" && HasNo(path, '\n')
    requires Plain(t, insights) && !Contains(TaskPrompt(t, insights), INSIGHTS)
    ensures Echo(name, path, t, insights) == TaskPrompt(t, insights)
    ensures StripTaskPrompt(Echo(name, path, t, insights)) == t.description <==> Recoverable(t)
    ensures (&& Recoverable(t)
             && (forall i :: 0 <= i < |candidates| ==> candidates[i] != TaskPrompt(t, insights))
             && k < |candidates| && candidates[k] == t.description
             && forall i :: 0 <= i < k ==> candidates[i] != t.description)
            ==> Match(Echo(name, path, t, insights), candidates) == (Some(k), TaskStripped)
  {
    var prompt := TaskPrompt(t, insights);
    TaskPromptIsTrimmed(t, insights);
    WrapperRoundTrip(name, path, prompt, []);
    TaskPromptUnwraps(t, insights);
    PromptIsLonger(t, insights);
    if && Recoverable(t)
       && (forall i :: 0 <= i < |candidates| ==> candidates[i] != prompt)
       && k < |candidates| && candidates[k] == t.description
       && forall i :: 0 <= i < k ==> candidates[i] != t.description {
      UnwrappedTextWins(prompt, t.description, candidates, k);
    }
  }
}
