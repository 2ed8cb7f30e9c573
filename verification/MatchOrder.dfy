/**
 Which candidate is matched and by which comparison; and what the comparison of normalised
 texts leaves out of account.
 */
module MatchOrder {
  import opened Collections
  import opened Strings
  import opened TextSearch
  import opened TaskPrompts
  import opened PromptUnwrap
  import opened ContentMatcher

  /** The candidate passes the comparison with the content, or with its text without a task's wrapper. */
  predicate Fits(how: Method, content: string, text: string, candidate: string) {
    candidate != ""
    && match how
       case Exact => candidate == content
       case TaskStripped => text != content && candidate == text
       case Normalized => Normalize(candidate) == Normalize(content)
       case TaskNormalized => text != content && Normalize(candidate) == Normalize(text)
       case DescriptionContained => text != content && |text| > 20 && Contains(Normalize(candidate), Normalize(text))
       case NoMatch => false
  }

  ghost predicate NoneFits(how: Method, content: string, text: string, candidates: seq<string>) {
    forall i :: 0 <= i < |candidates| ==> !Fits(how, content, text, candidates[i])
  }

  lemma FirstFits(how: Method, content: string, text: string, candidates: seq<string>, test: string -> bool)
    requires forall c :: c != "" ==> (test(c) <==> Fits(how, content, text, c))
    ensures Finds(how, content, text, candidates, FirstWhere(candidates, test, 0))
  {
  }

  /** The oldest candidate that fits, if there is one. */
  ghost predicate Finds(how: Method, content: string, text: string, candidates: seq<string>, r: Option<nat>) {
    && (r.Some? ==> r.value < |candidates| && Fits(how, content, text, candidates[r.value])
                    && forall i :: 0 <= i < r.value ==> !Fits(how, content, text, candidates[i]))
    && (r.None? ==> NoneFits(how, content, text, candidates))
  }

  lemma SearchFinds(how: Method, content: string, text: string, candidates: seq<string>)
    ensures Finds(how, content, text, candidates, Search(how, content, text, candidates))
  {
    var norm, short := Normalize(content), Normalize(text);
    match how
    case Exact => FirstFits(how, content, text, candidates, c => c == content);
    case TaskStripped => if text != content { FirstFits(how, content, text, candidates, c => c == text); }
    case Normalized => FirstFits(how, content, text, candidates, c => Normalize(c) == norm);
    case TaskNormalized => if text != content { FirstFits(how, content, text, candidates, c => Normalize(c) == short); }
    case DescriptionContained =>
      if text != content && |text| > 20 { FirstFits(how, content, text, candidates, c => Contains(Normalize(c), short)); }
    case NoMatch =>
  }

  /** The `n`-th comparison of the list finds the candidate, and by those before it none fits. */
  ghost predicate DecidedBy(order: seq<Method>, n: nat, content: string, text: string, candidates: seq<string>,
                            found: Option<nat>, how: Method) {
    && n < |order| && how == order[n] && Finds(how, content, text, candidates, found)
    && forall m :: 0 <= m < n ==> NoneFits(order[m], content, text, candidates)
  }

  lemma {:induction false} TryIsBest(order: seq<Method>, content: string, text: string, candidates: seq<string>)
    ensures var (found, how) := TryInOrder(order, content, text, candidates);
            && (found.Some? ==> exists n: nat :: DecidedBy(order, n, content, text, candidates, found, how))
            && (found.None? ==> how == NoMatch && forall m :: 0 <= m < |order| ==> NoneFits(order[m], content, text, candidates))
  {
    if order != [] {
      var (found, how) := TryInOrder(order, content, text, candidates);
      SearchFinds(order[0], content, text, candidates);
      if Search(order[0], content, text, candidates).Some? {
        assert DecidedBy(order, 0, content, text, candidates, found, how);
      } else {
        TryIsBest(order[1..], content, text, candidates);
        if found.Some? {
          var n: nat :| DecidedBy(order[1..], n, content, text, candidates, found, how);
          OneLater(order, n, content, text, candidates, found, how);
        } else {
          forall m | 0 <= m < |order| ensures NoneFits(order[m], content, text, candidates) {
            if m > 0 { assert order[m] == order[1..][m - 1]; }
          }
        }
      }
    }
  }

  lemma OneLater(order: seq<Method>, n: nat, content: string, text: string, candidates: seq<string>,
                 found: Option<nat>, how: Method)
    requires order != [] && NoneFits(order[0], content, text, candidates)
    requires DecidedBy(order[1..], n, content, text, candidates, found, how)
    ensures DecidedBy(order, n + 1, content, text, candidates, found, how)
  {
    forall m | 0 <= m < n + 1 ensures NoneFits(order[m], content, text, candidates) {
      if m > 0 { assert order[m] == order[1..][m - 1]; }
    }
  }

  /** A message is matched by the first comparison that any candidate passes, and with the oldest one that
      passes it; an empty message is never matched. */
  lemma MatchIsBest(content: string, candidates: seq<string>, order: seq<Method>)
    requires order == [Exact, TaskStripped, Normalized, TaskNormalized, DescriptionContained]
    ensures var (found, how) := Match(content, candidates);
            var text := StripTaskPrompt(content);
            && (content == "" || candidates == [] ==> found == None && how == NoMatch)
            && (found.Some? ==> exists n: nat :: DecidedBy(order, n, content, text, candidates, found, how))
            && (found.None? && content != "" ==>
                  how == NoMatch && forall m :: 0 <= m < |order| ==> NoneFits(order[m], content, text, candidates))
  {
    TryIsBest(order, content, StripTaskPrompt(content), candidates);
  }

  // ---- What normalising leaves out of account ----

  lemma {:induction false} LinesSplit(a: string, b: string)
    requires HasNo(a, '\n')
    ensures Lines(a + "\n" + b) == [a] + Lines(b) && Lines(a) == [a]
  {
    var s := a + "\n" + b;
    assert s[|a|..|a| + 1] == "\n";
    forall j | 0 <= j < |a| ensures !At(s, "\n", j) {
      assert s[j] == a[j] && s[j..j + 1][0] == s[j];
    }
    FoundAt(s, "\n", 0, |a|);
    assert s[..|a|] == a && s[|a| + 1..] == b;
    NotContained(a, "\n", 0);
  }

  predicate AllBlank(s: string) {
    forall i :: 0 <= i < |s| ==> s[i] == ' ' || s[i] == '\t'
  }

  /** A run of spaces and tabs counts as one space. */
  lemma {:induction false} RunIsOneSpace(run: string, b: string)
    requires run != "" && AllBlank(run) && (b != "" ==> b[0] != ' ' && b[0] != '\t')
    ensures CollapseBlanks(run + b) == " " + CollapseBlanks(b)
    decreases |run|
  {
    var s := run + b;
    assert s[1..] == run[1..] + b;
    if |run| > 1 {
      assert s[1] == run[1];
      RunIsOneSpace(run[1..], b);
    } else {
      assert run[1..] == "";
      assert s[1..] == b;
    }
  }

  lemma {:induction false} BlankRunsAreEqual(a: string, run: string, run': string, b: string)
    requires run != "" && AllBlank(run) && run' != "" && AllBlank(run')
    requires b != "" ==> b[0] != ' ' && b[0] != '\t'
    requires a != "" ==> a[|a| - 1] != ' ' && a[|a| - 1] != '\t'
    ensures CollapseBlanks(a + (run + b)) == CollapseBlanks(a + (run' + b))
    decreases |a|
  {
    var s, s' := a + (run + b), a + (run' + b);
    if a == "" {
      assert s == run + b && s' == run' + b;
      RunIsOneSpace(run, b);
      RunIsOneSpace(run', b);
    } else {
      assert s[1..] == a[1..] + (run + b) && s'[1..] == a[1..] + (run' + b) && s[0] == s'[0] == a[0];
      if |a| > 1 { assert s[1] == s'[1] == a[1]; }
      BlankRunsAreEqual(a[1..], run, run', b);
    }
  }

  /** So which spaces and tabs stand between two words of a line, and how many, is of no account. */
  lemma SpacingDoesNotMatter(a: string, run: string, run': string, b: string, rest: string)
    requires run != "" && AllBlank(run) && run' != "" && AllBlank(run')
    requires a != "" && a[|a| - 1] != ' ' && a[|a| - 1] != '\t' && b != "" && b[0] != ' ' && b[0] != '\t'
    requires HasNo(a, '\n') && HasNo(b, '\n')
    ensures Normalize(a + (run + b)) == Normalize(a + (run' + b))
    ensures Normalize(a + (run + b) + "\n" + rest) == Normalize(a + (run' + b) + "\n" + rest)
  {
    BlankRunsAreEqual(a, run, run', b);
    LinesSplit(a + (run + b), rest);
    LinesSplit(a + (run' + b), rest);
    SameLines([a + (run + b)], [a + (run' + b)], Lines(rest));
    SameLines([a + (run + b)], [a + (run' + b)], []);
    assert [a + (run + b)] + [] == [a + (run + b)] && [a + (run' + b)] + [] == [a + (run' + b)];
  }

  lemma SameLines(x: seq<string>, y: seq<string>, rest: seq<string>)
    requires |x| == |y| == 1 && Strip(CollapseBlanks(x[0])) == Strip(CollapseBlanks(y[0]))
    ensures NormalLines(x + rest) == NormalLines(y + rest)
  {
  }

  lemma {:induction false} StripEndsInSpace(s: string)
    ensures Strip(s + " ") == Strip(s)
  {
    LStripThen(s);
  }

  lemma {:induction false} LStripThen(s: string)
    ensures Strip(s + " ") == Strip(s)
  {
    if s == "" {
      assert (s + " ")[1..] == "";
    } else if IsSpace(s[0]) {
      assert (s + " ")[1..] == s[1..] + " ";
      LStripThen(s[1..]);
    } else {
      assert (s + " ")[..|s|] == s;
    }
  }

  /** Nor do spaces and tabs at the end of a line matter. */
  lemma TrailingBlanksDoNotMatter(a: string, run: string, rest: string)
    requires AllBlank(run) && HasNo(a, '\n') && a != "" && a[|a| - 1] != ' ' && a[|a| - 1] != '\t'
    ensures Normalize(a + run + "\n" + rest) == Normalize(a + "\n" + rest)
  {
    LinesSplit(a + run, rest);
    LinesSplit(a, rest);
    CollapseAtEnd(a, run);
    SameLines([a + run], [a], Lines(rest));
  }

  lemma {:induction false} CollapseAtEnd(a: string, run: string)
    requires AllBlank(run) && (a != "" ==> a[|a| - 1] != ' ' && a[|a| - 1] != '\t')
    ensures Strip(CollapseBlanks(a + run)) == Strip(CollapseBlanks(a))
  {
    if run == "" {
      assert a + run == a;
    } else {
      CollapsedRun(a, run);
      StripEndsInSpace(CollapseBlanks(a));
    }
  }

  /** What the first character of a text becomes. */
  function Lead(s: string): string
    requires s != ""
  {
    if Blank(s[0]) then (if |s| > 1 && Blank(s[1]) then "" else " ") else [s[0]]
  }

  lemma SameLead(s: string, a: string)
    requires a != "" && a <= s && (|a| == 1 ==> !Blank(a[0]))
    ensures Lead(s) == Lead(a)
    ensures CollapseBlanks(s) == Lead(s) + CollapseBlanks(s[1..]) && CollapseBlanks(a) == Lead(a) + CollapseBlanks(a[1..])
  {
  }

  lemma {:induction false} CollapsedRun(a: string, run: string)
    requires run != "" && AllBlank(run) && (a != "" ==> a[|a| - 1] != ' ' && a[|a| - 1] != '\t')
    ensures CollapseBlanks(a + run) == CollapseBlanks(a) + " "
    decreases |a|
  {
    if a == "" {
      assert a + run == run + "";
      RunIsOneSpace(run, "");
    } else {
      assert (a + run)[1..] == a[1..] + run;
      SameLead(a + run, a);
      CollapsedRun(a[1..], run);
      ConcatAssoc(Lead(a), CollapseBlanks(a[1..]), " ");
    }
  }

  /** Three or more newlines in a row count as two. */
  lemma {:induction false} NewlinesAreTwo(n: string, b: string)
    requires |n| >= 2 && (forall i :: 0 <= i < |n| ==> n[i] == '\n') && (b != "" ==> b[0] != '\n')
    ensures CollapseNewlines(n + b) == "\n\n" + CollapseNewlines(b)
    decreases |n|
  {
    var s := n + b;
    assert s[1..] == n[1..] + b;
    if |n| > 2 {
      assert s[2] == '\n';
      NewlinesAreTwo(n[1..], b);
    } else {
      assert s[1..][1..] == b && s[1..][0] == '\n';
    }
  }
}
