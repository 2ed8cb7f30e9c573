/**
 Interactive cards: the questions an agent asks, and the answers attached to them.
 */
module InteractiveItems {
  import opened Collections
  import opened Strings
  import opened PositionalMatching

  datatype ItemKind = AskUserQuestion | ExitPlanMode | PermissionPrompt

  /** A question and the labels of its options. */
  datatype Question = Question(text: string, options: seq<string>)

  /** `toolUseId` is empty when absent; `details` is what else the call carries (headers and
      descriptions of options, or a plan's allowed prompts), of account only when cards are
      compared; `selected` maps question numbers to option numbers. */
  datatype Item = Item(kind: ItemKind, toolUseId: string, questions: seq<Question>, plan: string, details: string,
                       autoApproved: bool, answer: Option<string>,
                       selectedIndex: Option<nat>, selected: map<nat, nat>)

  // ---- Labels quoted in an answer ----

  /** Every `="label"` in the text, left to right: the label is non-empty and ends at the next quote. */
  function QuotedLabels(s: string): seq<string>
    decreases |s|
  {
    if |s| < 2 then []
    else if s[0] == '=' && s[1] == '"' then
      var close := FindFrom(s, "\"", 2);
      if close > 2 then [s[2..close]] + QuotedLabels(s[close + 1..]) else QuotedLabels(s[1..])
    else QuotedLabels(s[1..])
  }

  function OptionLists(questions: seq<Question>): seq<seq<string>> {
    seq(|questions|, i requires 0 <= i < |questions| => questions[i].options)
  }

  predicate Dismissed(answer: string) {
    || StartsWith(answer, "The user doesn't want to proceed")
    || StartsWith(answer, "User declined")
    || StartsWith(answer, "Tool use rejected")
  }

  function DeriveAsk(item: Item): Item
    requires item.answer.Some?
  {
    var labels := QuotedLabels(item.answer.value);
    if item.questions == [] || labels == [] then item
    else
      var sel := MatchUpTo(OptionLists(item.questions), labels, item.selected, |item.questions|).selected;
      item.(selected := sel,
            selectedIndex := if item.selectedIndex.None? && 0 in sel then Some(sel[0]) else item.selectedIndex)
  }

  function LabelIgnoringCase(options: seq<string>, text: string, i: nat): Option<nat>
    decreases |options| - i
  {
    if i >= |options| then None
    else if Lower(options[i]) == text then Some(i)
    else LabelIgnoringCase(options, text, i + 1)
  }

  /** `a` is the stripped, lower-case answer. */
  function PermissionChoice(questions: seq<Question>, a: string): Option<nat> {
    var exact := if questions == [] then None else LabelIgnoringCase(questions[0].options, a, 0);
    if exact.Some? then exact
    else if StartsWith(a, "yes") && Contains(a, "always") then Some(1)
    else if StartsWith(a, "yes") then Some(0)
    else if StartsWith(a, "no") then Some(2)
    else None
  }

  function PlanChoice(a: string): Option<nat> {
    if StartsWith(a, "the user doesn't want to proceed") || StartsWith(a, "user declined")
       || StartsWith(a, "tool use rejected") then None
    else if a == "yes, bypass permissions" then Some(0)
    else if a == "yes, manual approval" then Some(1)
    else if a == "give feedback" then Some(2)
    else if Contains(a, "bypass") && !Contains(a, "manual") then Some(0)
    else if Contains(a, "manual") then Some(1)
    else if Contains(a, "feedback") || Contains(a, "type here") then Some(2)
    else None
  }

  /** A selection made before is kept. */
  function Choose(item: Item, choice: Option<nat>): Item {
    if item.selectedIndex.Some? then item else item.(selectedIndex := choice)
  }

  function DerivePermission(item: Item): Item
    requires item.answer.Some?
  {
    Choose(item, PermissionChoice(item.questions, Strip(Lower(item.answer.value))))
  }

  function DerivePlan(item: Item): Item
    requires item.answer.Some?
  {
    Choose(item, PlanChoice(Strip(Lower(item.answer.value))))
  }

  function DeriveSelected(item: Item): Item {
    if item.answer.None? || item.answer.value == "" || Dismissed(item.answer.value) then item
    else match item.kind
      case AskUserQuestion => DeriveAsk(item)
      case PermissionPrompt => DerivePermission(item)
      case ExitPlanMode => DerivePlan(item)
  }

  // ---- Answers as the web UI writes them ----

  /** One line per question: the quoted question, an equals sign, the quoted label. */
  function AnswerPart(question: string, name: string): string {
    "\"" + question + "\"=\"" + name + "\""
  }

  function AnswerText(questions: seq<string>, labels: seq<string>): string
    requires |questions| == |labels|
  {
    if questions == [] then ""
    else if |questions| == 1 then AnswerPart(questions[0], labels[0])
    else AnswerPart(questions[0], labels[0]) + "\n" + AnswerText(questions[1..], labels[1..])
  }

  /** The question as the answer quotes it. */
  function Quoted(question: string): string {
    "\"" + question + "\""
  }

  predicate EndsInEquals(s: string) {
    s != "" && s[|s| - 1] == '='
  }

  /** Read on its own the quoted question yields no label, and its closing quote starts none.
      Quotation marks inside are harmless as such. */
  predicate PlainQuestion(q: string) {
    QuotedLabels(Quoted(q)) == [] && !EndsInEquals(q)
  }

  predicate PlainLabel(l: string) {
    l != "" && '"' !in l
  }

  predicate LabelBegins(s: string) {
    |s| >= 2 && s[0] == '=' && s[1] == '"'
  }

  // ---- Reading an answer piece by piece ----

  lemma SkipOne(s: string)
    requires s != "" && (LabelBegins(s) ==> FindFrom(s, "\"", 2) <= 2)
    ensures QuotedLabels(s) == QuotedLabels(s[1..])
  {
  }

  lemma TakeOne(s: string, close: nat)
    requires LabelBegins(s) && FindFrom(s, "\"", 2) == close > 2
    ensures close < |s| && QuotedLabels(s) == [s[2..close]] + QuotedLabels(s[close + 1..])
  {
  }

  ghost predicate QuotesAt(s: string, name: string, i: nat) {
    At(s, "=\"" + name + "\"", i)
  }

  lemma QuotedAtFront(s: string, name: string)
    requires PlainLabel(name) && QuotesAt(s, name, 0)
    ensures LabelBegins(s) && FindFrom(s, "\"", 2) == 2 + |name|
  {
    var p := "=\"" + name + "\"";
    assert s[0..|p|] == p;
    assert s[0] == p[0] && s[1] == p[1] && s[2 + |name|] == p[2 + |name|];
    forall j | 2 <= j < 2 + |name| ensures !At(s, "\"", j) {
      assert s[j] == p[j] == name[j - 2];
    }
    FoundAt(s, "\"", 2, 2 + |name|);
  }

  lemma FrontIsQuoted(s: string)
    requires LabelBegins(s) && FindFrom(s, "\"", 2) > 2
    ensures var close := FindFrom(s, "\"", 2); close < |s| && PlainLabel(s[2..close]) && QuotesAt(s, s[2..close], 0)
  {
    var close := FindFrom(s, "\"", 2);
    NoQuoteBefore(s, close);
    FrontIs(s, close, "\"");
  }

  lemma NoQuoteBefore(s: string, close: nat)
    requires 2 <= close <= |s| && forall j :: 2 <= j < close ==> !At(s, "\"", j)
    ensures '"' !in s[2..close]
  {
    forall j | 2 <= j < close ensures s[j] != '"' {
      assert !At(s, "\"", j) && s[j..j + 1] == [s[j]];
    }
  }

  lemma FrontIs(s: string, close: nat, quote: string)
    requires LabelBegins(s) && close > 2 && quote == "\"" && At(s, quote, close)
    ensures QuotesAt(s, s[2..close], 0)
  {
    var p := ("=" + quote) + s[2..close] + quote;
    assert s[close..close + 1] == quote;
    assert s[0..|p|] == p;
    assert "=" + quote == "=\"";
  }

  lemma QuotedLater(s: string, name: string, k: nat, i: nat)
    requires k <= |s|
    ensures QuotesAt(s[k..], name, i) <==> QuotesAt(s, name, k + i)
  {
    var p := "=\"" + name + "\"";
    assert k + i + |p| <= |s| ==> s[k..][i..i + |p|] == s[k + i..k + i + |p|];
  }

  /** What is read as a label is one: not empty, without a quote, and between an equals sign with a quote
      and a quote. */
  lemma {:induction false} LabelsAreQuoted(s: string, k: nat)
    requires k < |QuotedLabels(s)|
    ensures PlainLabel(QuotedLabels(s)[k])
    ensures exists i: nat :: QuotesAt(s, QuotedLabels(s)[k], i)
    decreases |s|
  {
    var close := FindFrom(s, "\"", 2);
    if LabelBegins(s) && close > 2 {
      FrontIsQuoted(s);
      TakeOne(s, close);
      if k > 0 {
        LabelsAreQuoted(s[close + 1..], k - 1);
        var i: nat :| QuotesAt(s[close + 1..], QuotedLabels(s)[k], i);
        QuotedLater(s, QuotedLabels(s)[k], close + 1, i);
      }
    } else {
      SkipOne(s);
      LabelsAreQuoted(s[1..], k);
      var i: nat :| QuotesAt(s[1..], QuotedLabels(s)[k], i);
      QuotedLater(s, QuotedLabels(s)[k], 1, i);
    }
  }

  /** And where such a label stands, some label is read. */
  lemma {:induction false} QuotedIsRead(s: string, name: string, i: nat)
    requires PlainLabel(name) && QuotesAt(s, name, i)
    ensures QuotedLabels(s) != []
    decreases |s|
  {
    if LabelBegins(s) && FindFrom(s, "\"", 2) > 2 {
      TakeOne(s, FindFrom(s, "\"", 2));
    } else {
      if i == 0 { QuotedAtFront(s, name); }
      SkipOne(s);
      QuotedLater(s, name, 1, i - 1);
      QuotedIsRead(s[1..], name, i - 1);
    }
  }

  /** The quote that closes a label is the first one, whatever comes after it. */
  lemma ClosesAtQuote(a: string, rest: string)
    requires |a| >= 2
    ensures 2 <= FindFrom(a + "\"", "\"", 2) <= |a|
    ensures FindFrom((a + "\"") + rest, "\"", 2) == FindFrom(a + "\"", "\"", 2)
  {
    var s := a + "\"";
    assert At(s, "\"", |a|);
    var close := FindFrom(s, "\"", 2);
    forall j | 2 <= j < close ensures !At(s + rest, "\"", j) {
      assert s[j..j + 1] == (s + rest)[j..j + 1];
      assert !At(s, "\"", j);
    }
    assert s[close..close + 1] == (s + rest)[close..close + 1];
    FoundAt(s + rest, "\"", 2, close);
  }

  /** What is left of a text that began with `a` and a quote. */
  lemma RestOf(a: string, rest: string, k: nat)
    requires k <= |a|
    ensures ((a + "\"") + rest)[k..] == (a[k..] + "\"") + rest
    ensures (a + "\"")[k..] == a[k..] + "\""
    ensures ((a + "\"") + rest)[|a| + 1..] == rest && (a + "\"")[|a| + 1..] == ""
    ensures k >= 2 ==> ((a + "\"") + rest)[2..k] == (a + "\"")[2..k]
  {
  }

  /** A quote ends whatever label is open, so a text can be read in two parts there, unless an
      equals sign stands right before it. */
  lemma {:induction false} ReadUpToQuote(a: string, rest: string)
    requires !EndsInEquals(a)
    ensures QuotedLabels((a + "\"") + rest) == QuotedLabels(a + "\"") + QuotedLabels(rest)
    decreases |a|
  {
    var s, t := (a + "\"") + rest, a + "\"";
    if a == "" {
      RestOf(a, rest, 0);
      SkipOne(s);
      SkipOne(t);
    } else {
      if |a| >= 2 { ClosesAtQuote(a, rest); }
      var close := FindFrom(t, "\"", 2);
      if LabelBegins(t) && close > 2 {
        RestOf(a, rest, close);
        TakeOne(s, close);
        TakeOne(t, close);
        if close < |a| {
          RestOf(a, rest, close + 1);
          ReadUpToQuote(a[close + 1..], rest);
        }
      } else {
        RestOf(a, rest, 1);
        SkipOne(s);
        SkipOne(t);
        ReadUpToQuote(a[1..], rest);
      }
    }
  }

  lemma TakeLabel(name: string, rest: string)
    requires PlainLabel(name)
    ensures QuotedLabels("=\"" + name + "\"" + rest) == [name] + QuotedLabels(rest)
  {
    var s := "=\"" + name + "\"" + rest;
    assert s[0] == '=' && s[1] == '"' && s[2 + |name|] == '"';
    forall j | 2 <= j < 2 + |name| ensures !At(s, "\"", j) {
      assert s[j] == name[j - 2];
    }
    FoundAt(s, "\"", 2, 2 + |name|);
    assert s[2..2 + |name|] == name;
    assert s[3 + |name|..] == rest;
  }

  /** A part is read as the labels inside its question, then its own. */
  lemma PartGivesLabel(question: string, name: string, rest: string)
    requires !EndsInEquals(question) && PlainLabel(name)
    ensures QuotedLabels(AnswerPart(question, name) + rest)
            == QuotedLabels(Quoted(question)) + ([name] + QuotedLabels(rest))
  {
    var tail := "=\"" + name + "\"" + rest;
    assert AnswerPart(question, name) + rest == (("\"" + question) + "\"") + tail;
    ReadUpToQuote("\"" + question, tail);
    TakeLabel(name, rest);
  }

  /** Everything read in an answer, part by part. */
  function AllRead(questions: seq<string>, labels: seq<string>): seq<string>
    requires |questions| == |labels|
  {
    if questions == [] then []
    else QuotedLabels(Quoted(questions[0])) + ([labels[0]] + AllRead(questions[1..], labels[1..]))
  }

  lemma {:induction false} AnswerTextReads(questions: seq<string>, labels: seq<string>)
    requires |questions| == |labels|
    requires forall i :: 0 <= i < |questions| ==> !EndsInEquals(questions[i]) && PlainLabel(labels[i])
    ensures QuotedLabels(AnswerText(questions, labels)) == AllRead(questions, labels)
  {
    if questions == [] {
    } else if |questions| == 1 {
      PartGivesLabel(questions[0], labels[0], "");
      assert AnswerPart(questions[0], labels[0]) + "" == AnswerPart(questions[0], labels[0]);
      assert AllRead(questions[1..], labels[1..]) == [] == QuotedLabels("");
    } else {
      var rest := AnswerText(questions[1..], labels[1..]);
      AnswerTextReads(questions[1..], labels[1..]);
      PartGivesLabel(questions[0], labels[0], "\n" + rest);
      SkipOne("\n" + rest);
      assert ("\n" + rest)[1..] == rest;
      assert AnswerText(questions, labels) == AnswerPart(questions[0], labels[0]) + ("\n" + rest);
    }
  }

  lemma {:induction false} AllReadIsLabels(questions: seq<string>, labels: seq<string>)
    requires |questions| == |labels|
    ensures |AllRead(questions, labels)| >= |labels|
    ensures AllRead(questions, labels) == labels
            <==> forall i :: 0 <= i < |questions| ==> QuotedLabels(Quoted(questions[i])) == []
  {
    if questions != [] {
      var inner, rest := QuotedLabels(Quoted(questions[0])), AllRead(questions[1..], labels[1..]);
      AllReadIsLabels(questions[1..], labels[1..]);
      assert labels == [labels[0]] + labels[1..];
      if AllRead(questions, labels) == labels {
        assert |inner| + (1 + |rest|) == |labels|;
        assert inner == [];
        assert rest == labels[1..] by { assert AllRead(questions, labels) == [labels[0]] + rest; }
        forall i | 0 <= i < |questions| ensures QuotedLabels(Quoted(questions[i])) == [] {
          assert i > 0 ==> questions[i] == questions[1..][i - 1];
        }
      }
    }
  }

  /** The labels come back out of the text, in order, exactly when reading the quoted questions
      themselves yields none. */
  lemma AnswerTextRoundTrip(questions: seq<string>, labels: seq<string>)
    requires |questions| == |labels|
    requires forall i :: 0 <= i < |questions| ==> !EndsInEquals(questions[i]) && PlainLabel(labels[i])
    ensures QuotedLabels(AnswerText(questions, labels)) == labels
            <==> forall i :: 0 <= i < |questions| ==> PlainQuestion(questions[i])
  {
    AnswerTextReads(questions, labels);
    AllReadIsLabels(questions, labels);
  }

  lemma {:induction false} NothingAfterLastQuote(name: string)
    requires '"' !in name
    ensures QuotedLabels(name + "\"") == []
  {
    if name != "" {
      var s := name + "\"";
      assert s[1..] == name[1..] + "\"";
      NothingAfterLastQuote(name[1..]);
      assert |name| > 1 ==> s[1] == name[1] != '"';
    }
  }

  lemma SingleLabel(name: string)
    requires PlainLabel(name)
    ensures QuotedLabels("=\"" + name + "\"") == [name]
  {
    TakeLabel(name, "");
    assert "=\"" + name + "\"" + "" == "=\"" + name + "\"";
  }

  lemma EqualsIsTaken(name: string)
    requires PlainLabel(name)
    ensures QuotedLabels(("=" + "\"") + ("=\"" + name + "\"")) == ["="]
    ensures QuotedLabels("=" + "\"") == []
  {
    assert ("=" + "\"") + ("=\"" + name + "\"") == "=\"" + "=" + "\"" + (name + "\"");
    TakeLabel("=", name + "\"");
    NothingAfterLastQuote(name);
    NothingAfterLastQuote("=");
  }

  /** An equals sign right before the closing quote: that quote then starts a label of its own. */
  lemma {:induction false} EqualsBeforeQuote(a: string, name: string)
    requires EndsInEquals(a) && PlainLabel(name)
    ensures var r := QuotedLabels((a + "\"") + ("=\"" + name + "\""));
            && (r == ["="] || |r| >= 2)
            && (r == ["="] <==> QuotedLabels(a + "\"") == [])
    decreases |a|
  {
    var rest := "=\"" + name + "\"";
    var s, t := (a + "\"") + rest, a + "\"";
    if |a| == 1 {
      assert a == "=";
      EqualsIsTaken(name);
    } else {
      ClosesAtQuote(a, rest);
      var close := FindFrom(t, "\"", 2);
      if LabelBegins(t) && close > 2 {
        RestOf(a, rest, close);
        TakeOne(s, close);
        TakeOne(t, close);
        SingleLabel(name);
        if close < |a| {
          assert t[close] == '"';
          assert close != |a| - 1;
          RestOf(a, rest, close + 1);
          EqualsBeforeQuote(a[close + 1..], name);
        }
      } else {
        RestOf(a, rest, 1);
        SkipOne(s);
        SkipOne(t);
        EqualsBeforeQuote(a[1..], name);
      }
    }
  }

  /** When a single label comes back: the quoted question yields none itself, and if it ends in an
      equals sign the label is one too, because that is then what is read. */
  lemma LabelComesBackExactly(question: string, name: string)
    requires PlainLabel(name)
    ensures QuotedLabels(AnswerPart(question, name)) == [name]
            <==> QuotedLabels(Quoted(question)) == [] && (EndsInEquals(question) ==> name == "=")
  {
    var a, tail := "\"" + question, "=\"" + name + "\"";
    assert AnswerPart(question, name) == (a + "\"") + tail;
    SingleLabel(name);
    if EndsInEquals(question) {
      EqualsBeforeQuote(a, name);
    } else {
      ReadUpToQuote(a, tail);
    }
  }

  function QuestionTexts(questions: seq<Question>): seq<string> {
    seq(|questions|, i requires 0 <= i < |questions| => questions[i].text)
  }

  /** Of the questions that were open every one gets the option chosen for it, the others keep
      theirs; the single selected index is the first question's, if there was none before. */
  ghost predicate Chosen(item: Item, d: Item, labels: seq<string>)
    requires |labels| == |item.questions| > 0
  {
    && d.questions == item.questions
    && InPosition(OptionLists(item.questions), labels, item.selected, d.selected, |labels|)
    && d.selectedIndex == if item.selectedIndex.Some? then item.selectedIndex else Some(d.selected[0])
  }

  lemma AskChooses(item: Item, labels: seq<string>, text: string)
    requires item.answer == Some(text) && |labels| == |item.questions| > 0 && QuotedLabels(text) == labels
    requires Aligned(OptionLists(item.questions), labels)
    requires NoSpill(OptionLists(item.questions), labels, item.selected, |labels|)
    ensures Chosen(item, DeriveAsk(item), labels)
  {
    AlignedLabelsMatch(OptionLists(item.questions), labels, item.selected, |labels|);
    assert 0 in DeriveAsk(item).selected;
  }

  /** The first spill: an open question and the earliest preset one whose label it offers. */
  lemma {:induction false} FirstSpill<T>(questions: seq<seq<T>>, labels: seq<T>, preset: map<nat, nat>, n: nat)
      returns (p: nat, q: nat)
    requires n <= |questions| && n <= |labels| && !NoSpill(questions, labels, preset, n)
    ensures p < q < n && p in preset && q !in preset && labels[p] in questions[q]
    ensures NoSpill(questions, labels, preset, q)
    ensures forall r :: 0 <= r < p && r in preset ==> labels[r] !in questions[q]
  {
    if NoSpill(questions, labels, preset, n - 1) {
      q := n - 1;
      var k :| 0 <= k < q && k in preset && labels[k] in questions[q];
      p := 0;
      while !(p in preset && labels[p] in questions[q])
        invariant 0 <= p <= k
        invariant forall r :: 0 <= r < p && r in preset ==> labels[r] !in questions[q]
        decreases k - p
      {
        p := p + 1;
      }
    } else {
      p, q := FirstSpill(questions, labels, preset, n - 1);
    }
  }

  lemma SpillIsWrong<T>(questions: seq<seq<T>>, labels: seq<T>, preset: map<nat, nat>) returns (q: nat)
    requires Aligned(questions, labels) && |labels| == |questions| && NoDup(labels)
    requires !NoSpill(questions, labels, preset, |labels|)
    ensures q < |labels| && q !in preset
    ensures var sel := MatchUpTo(questions, labels, preset, |questions|).selected;
            q in sel && Some(sel[q]) != OptionIndex(questions[q], labels[q])
  {
    var p;
    p, q := FirstSpill(questions, labels, preset, |labels|);
    SpilledLabelIsTaken(questions, labels, preset, p, q);
    SelectedStays(questions, labels, preset, q + 1, |questions|, q);
    assert labels[p] != labels[q];
  }

  lemma AskMischooses(item: Item, labels: seq<string>, text: string)
    requires item.answer == Some(text) && |labels| == |item.questions| > 0 && QuotedLabels(text) == labels
    requires Aligned(OptionLists(item.questions), labels) && NoDup(labels)
    requires !NoSpill(OptionLists(item.questions), labels, item.selected, |labels|)
    ensures !Chosen(item, DeriveAsk(item), labels)
  {
    var q := SpillIsWrong(OptionLists(item.questions), labels, item.selected);
    assert OptionLists(item.questions)[q] == item.questions[q].options;
  }

  /** Main result for answers: choose one option per question, write the answer the way the web UI
      does, derive the selection from the text, and the chosen options come back, provided no
      open question offers the label of an earlier one that was selected before; and if the
      labels are all different, only then. */
  lemma DeriveRecoversChoice(item: Item, labels: seq<string>)
    requires item.kind == AskUserQuestion && |labels| == |item.questions| > 0
    requires forall i :: 0 <= i < |labels| ==> PlainQuestion(item.questions[i].text) && PlainLabel(labels[i])
    requires Aligned(OptionLists(item.questions), labels)
    ensures var d := DeriveSelected(item.(answer := Some(AnswerText(QuestionTexts(item.questions), labels))));
            var apart := NoSpill(OptionLists(item.questions), labels, item.selected, |labels|);
            (apart ==> Chosen(item, d, labels)) && (NoDup(labels) && Chosen(item, d, labels) ==> apart)
  {
    var text := AnswerText(QuestionTexts(item.questions), labels);
    AnswerIsRead(item, labels);
    var answered := item.(answer := Some(text));
    if NoSpill(OptionLists(item.questions), labels, item.selected, |labels|) {
      AskChooses(answered, labels, text);
    } else if NoDup(labels) {
      AskMischooses(answered, labels, text);
    }
  }

  lemma AnswerIsRead(item: Item, labels: seq<string>)
    requires item.kind == AskUserQuestion && |labels| == |item.questions| > 0
    requires forall i :: 0 <= i < |labels| ==> PlainQuestion(item.questions[i].text) && PlainLabel(labels[i])
    ensures var text := AnswerText(QuestionTexts(item.questions), labels);
            QuotedLabels(text) == labels && DeriveSelected(item.(answer := Some(text))) == DeriveAsk(item.(answer := Some(text)))
  {
    AnswerTextRoundTrip(QuestionTexts(item.questions), labels);
    StartsWithQuote(QuestionTexts(item.questions), labels);
    NotDismissed(AnswerText(QuestionTexts(item.questions), labels));
  }

  lemma OneLabelMatches(options: seq<seq<string>>, name: string)
    requires |options| == 2 && name in options[0]
    ensures MatchUpTo(options, [name], map[], 2).selected == map[0 := OptionIndex(options[0], name).value]
  {
    var m0 := MatchUpTo(options, [name], map[], 0);
    var m1 := MatchUpTo(options, [name], map[], 1);
    assert FirstUsable([name], {}, options[0], 0) == Some(0);
    assert m1 == MatchOne(m0, [name], 0, options[0]);
    assert m1.used == {0};
    assert FirstUsable([name], m1.used, options[1], 0) == FirstUsable([name], m1.used, options[1], 1) == None;
    assert MatchUpTo(options, [name], map[], 2) == MatchOne(m1, [name], 1, options[1]);
  }

  /** A card that meets the condition's other side: two questions that share an option, first
      answered for one of them alone, then for both with different labels. The second
      question comes out with the first one's label. */
  lemma PartlyAnsweredCardMisreads(item: Item, x: string, y: string)
    requires item.kind == AskUserQuestion && item.selected == map[] && |item.questions| == 2
    requires PlainQuestion(item.questions[0].text) && PlainQuestion(item.questions[1].text)
    requires PlainLabel(x) && PlainLabel(y) && x != y
    requires x in item.questions[0].options && x in item.questions[1].options && y in item.questions[1].options
    ensures var texts := QuestionTexts(item.questions);
            var once := DeriveSelected(item.(answer := Some(AnswerText([texts[0]], [x]))));
            var twice := DeriveSelected(once.(answer := Some(AnswerText(texts, [x, y]))));
            && 0 in once.selected && 1 !in once.selected && 1 in twice.selected
            && Some(twice.selected[1]) == OptionIndex(item.questions[1].options, x)
            && Some(twice.selected[1]) != OptionIndex(item.questions[1].options, y)
  {
    var texts, options := QuestionTexts(item.questions), OptionLists(item.questions);
    AnswerTextRoundTrip([texts[0]], [x]);
    StartsWithQuote([texts[0]], [x]);
    NotDismissed(AnswerText([texts[0]], [x]));
    OneLabelMatches(options, x);
    var once := DeriveSelected(item.(answer := Some(AnswerText([texts[0]], [x]))));
    assert once.selected == map[0 := OptionIndex(options[0], x).value];
    SecondAnswerSpills(once, x, y);
  }

  lemma SecondAnswerSpills(once: Item, x: string, y: string)
    requires once.kind == AskUserQuestion && |once.questions| == 2
    requires PlainQuestion(once.questions[0].text) && PlainQuestion(once.questions[1].text)
    requires PlainLabel(x) && PlainLabel(y) && x != y
    requires x in once.questions[0].options && x in once.questions[1].options && y in once.questions[1].options
    requires 0 in once.selected && 1 !in once.selected
    ensures var twice := DeriveSelected(once.(answer := Some(AnswerText(QuestionTexts(once.questions), [x, y]))));
            && 1 in twice.selected
            && Some(twice.selected[1]) == OptionIndex(once.questions[1].options, x)
            && Some(twice.selected[1]) != OptionIndex(once.questions[1].options, y)
  {
    var texts, options := QuestionTexts(once.questions), OptionLists(once.questions);
    AnswerTextRoundTrip(texts, [x, y]);
    StartsWithQuote(texts, [x, y]);
    NotDismissed(AnswerText(texts, [x, y]));
    SpilledLabelIsTaken(options, [x, y], once.selected, 0, 1);
  }

  lemma StartsWithQuote(questions: seq<string>, labels: seq<string>)
    requires |questions| == |labels| > 0
    ensures AnswerText(questions, labels) != "" && AnswerText(questions, labels)[0] == '"'
  {
  }

  lemma NotDismissed(text: string)
    requires text != "" && text[0] == '"'
    ensures !Dismissed(text)
  {
  }

  // ---- Deriving never disturbs what is there ----

  /** `b` is `a` with selections possibly filled in. */
  ghost predicate FilledFrom(a: Item, b: Item) {
    && b == a.(selectedIndex := b.selectedIndex, selected := b.selected)
    && (a.selectedIndex.Some? ==> b.selectedIndex == a.selectedIndex)
    && (forall q :: q in a.selected ==> q in b.selected && b.selected[q] == a.selected[q])
  }

  lemma AskOnlyFills(item: Item)
    requires item.answer.Some?
    ensures FilledFrom(item, DeriveAsk(item))
  {
    MatchingIsSound(OptionLists(item.questions), QuotedLabels(item.answer.value), item.selected, |item.questions|);
  }

  lemma ChoiceOnlyFills(item: Item, choice: Option<nat>)
    ensures FilledFrom(item, Choose(item, choice))
    ensures Choose(item, choice).selected == item.selected
  {
  }

  lemma DeriveOnlyFills(item: Item)
    ensures FilledFrom(item, DeriveSelected(item))
  {
    if item.answer.Some? {
      AskOnlyFills(item);
      var a := Strip(Lower(item.answer.value));
      ChoiceOnlyFills(item, PermissionChoice(item.questions, a));
      ChoiceOnlyFills(item, PlanChoice(a));
    }
  }

  /** New selections are in range and were quoted in the answer. */
  lemma DerivedSelectionsAreQuoted(item: Item, q: nat)
    requires q in DeriveSelected(item).selected && q !in item.selected
    ensures item.answer.Some? && item.kind == AskUserQuestion && q < |item.questions|
    ensures DeriveSelected(item).selected[q] < |item.questions[q].options|
    ensures item.questions[q].options[DeriveSelected(item).selected[q]] in QuotedLabels(item.answer.value)
  {
    if item.answer.Some? {
      var a := Strip(Lower(item.answer.value));
      ChoiceOnlyFills(item, PermissionChoice(item.questions, a));
      ChoiceOnlyFills(item, PlanChoice(a));
    }
    DeriveOnlyFills(item);
    var labels := QuotedLabels(item.answer.value);
    MatchingIsSound(OptionLists(item.questions), labels, item.selected, |item.questions|);
    var m := MatchUpTo(OptionLists(item.questions), labels, item.selected, |item.questions|);
    assert q in m.taken;
  }
}
