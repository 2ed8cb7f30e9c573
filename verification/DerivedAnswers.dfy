/**
 Which option the answer to a plan or to a permission prompt selects, in the words of the answer.
 */
module DerivedAnswers {
  import opened Collections
  import opened Strings
  import opened TextSearch
  import opened InteractiveItems

  // ---- Texts in any case, with blanks around ----

  predicate Blank(s: string) {
    forall i :: 0 <= i < |s| ==> IsSpace(s[i])
  }

  lemma LowerConcat(a: string, b: string)
    ensures Lower(a + b) == Lower(a) + Lower(b)
  {
  }

  lemma LowerBlank(s: string)
    requires Blank(s)
    ensures Blank(Lower(s))
  {
  }

  lemma {:induction false} LStripBlank(s: string, t: string)
    requires Blank(s)
    ensures LStrip(s + t) == LStrip(t)
  {
    if s == "" {
      assert s + t == t;
    } else {
      assert (s + t)[1..] == s[1..] + t;
      LStripBlank(s[1..], t);
    }
  }

  lemma {:induction false} RStripBlank(s: string, t: string)
    requires Blank(t)
    ensures RStrip(s + t) == RStrip(s)
  {
    if t == "" {
      assert s + t == s;
    } else {
      assert (s + t)[..|s + t| - 1] == s + t[..|t| - 1];
      RStripBlank(s, t[..|t| - 1]);
    }
  }

  lemma StripBlanks(pre: string, s: string, post: string)
    requires Blank(pre) && Blank(post) && s != "" && Trimmed(s)
    ensures Strip(pre + s + post) == s
  {
    assert pre + s + post == pre + (s + post);
    LStripBlank(pre, s + post);
    assert LStrip(s + post) == s + post;
    RStripBlank(s, post);
  }

  lemma LowerStripped(pre: string, s: string, post: string)
    requires Blank(pre) && Blank(post) && Lower(s) != "" && Trimmed(Lower(s))
    ensures Strip(Lower(pre + s + post)) == Lower(s)
  {
    LowerConcat(pre + s, post);
    LowerConcat(pre, s);
    LowerBlank(pre);
    LowerBlank(post);
    StripBlanks(Lower(pre), Lower(s), Lower(post));
  }

  /** A text that begins with a letter begins the same in lower case. */
  lemma LowerKeepsStart(s: string, p: string)
    requires StartsWith(s, p) && p != "" && !IsSpace(LowerChar(p[0]))
    ensures StartsWith(Strip(Lower(s)), RStrip(Lower(p)))
  {
    var low := Lower(s);
    assert low[0] == LowerChar(p[0]) && LStrip(low) == low;
    assert low[..|p|] == Lower(p);
    RStripKeepsStart(low, Lower(p));
  }

  lemma {:induction false} RStripKeepsStart(s: string, p: string)
    requires StartsWith(s, p)
    ensures StartsWith(RStrip(s), RStrip(p))
  {
    if s == p {
    } else if IsSpace(s[|s| - 1]) {
      RStripKeepsStart(s[..|s| - 1], p);
    } else {
      RStripTrims(p);
    }
  }

  // ---- Plans ----

  /** The answer refuses: in any case, one of three openings. */
  predicate Refuses(text: string) {
    || StartsWith(Strip(Lower(text)), "the user doesn't want to proceed")
    || StartsWith(Strip(Lower(text)), "user declined")
    || StartsWith(Strip(Lower(text)), "tool use rejected")
  }

  predicate Names(text: string, word: string) {
    Contains(Strip(Lower(text)), word)
  }

  lemma LowerIs(s: string, t: string)
    requires |s| == |t| && forall i :: 0 <= i < |s| ==> LowerChar(s[i]) == t[i]
    ensures Lower(s) == t
  {
  }

  lemma OpeningRefuses(text: string, p: string, low: string)
    requires StartsWith(text, p) && Lower(p) == low && p != "" && Trimmed(low)
    ensures StartsWith(Strip(Lower(text)), low)
  {
    LowerKeepsStart(text, p);
    RStripTrimmed(low);
  }

  lemma RStripTrimmed(s: string)
    requires Trimmed(s)
    ensures RStrip(s) == s
  {
  }

  lemma FirstLower(p: string, low: string)
    requires p == "The user doesn't want to proceed" && low == "the user doesn't want to proceed"
    ensures p != "" && Lower(p) == low && Trimmed(low)
  {
    LowerIs(p, low);
  }

  lemma SecondLower(p: string, low: string)
    requires p == "User declined" && low == "user declined"
    ensures p != "" && Lower(p) == low && Trimmed(low)
  {
    LowerIs(p, low);
  }

  lemma ThirdLower(p: string, low: string)
    requires p == "Tool use rejected" && low == "tool use rejected"
    ensures p != "" && Lower(p) == low && Trimmed(low)
  {
    LowerIs(p, low);
  }

  lemma FirstOpening(text: string, p: string, low: string)
    requires p == "The user doesn't want to proceed" && low == "the user doesn't want to proceed"
    ensures StartsWith(text, p) ==> StartsWith(Strip(Lower(text)), low)
  {
    FirstLower(p, low);
    if StartsWith(text, p) { OpeningRefuses(text, p, low); }
  }

  lemma SecondOpening(text: string, p: string, low: string)
    requires p == "User declined" && low == "user declined"
    ensures StartsWith(text, p) ==> StartsWith(Strip(Lower(text)), low)
  {
    SecondLower(p, low);
    if StartsWith(text, p) { OpeningRefuses(text, p, low); }
  }

  lemma ThirdOpening(text: string, p: string, low: string)
    requires p == "Tool use rejected" && low == "tool use rejected"
    ensures StartsWith(text, p) ==> StartsWith(Strip(Lower(text)), low)
  {
    ThirdLower(p, low);
    if StartsWith(text, p) { OpeningRefuses(text, p, low); }
  }

  lemma DismissedRefuses(text: string)
    ensures Dismissed(text) ==> Refuses(text)
  {
    FirstOpening(text, "The user doesn't want to proceed", "the user doesn't want to proceed");
    SecondOpening(text, "User declined", "user declined");
    ThirdOpening(text, "Tool use rejected", "tool use rejected");
  }

  lemma WordAt(a: string, w: string, b: string)
    ensures Contains(a + w + b, w)
  {
    assert (a + w + b)[|a|..|a| + |w|] == w;
    assert At(a + w + b, w, |a|);
  }

  lemma BypassLabel(s: string)
    requires s == "yes, bypass permissions"
    ensures Contains(s, "bypass") && !Contains(s, "manual")
    ensures Trimmed(s) && s != "" && s[0] == 'y'
  {
    assert s == "yes, " + "bypass" + " permissions";
    WordAt("yes, ", "bypass", " permissions");
    NotContained(s, "manual", 5);
  }

  lemma ManualLabel(s: string)
    requires s == "yes, manual approval"
    ensures Contains(s, "manual")
    ensures Trimmed(s) && s != "" && s[0] == 'y'
  {
    assert s == "yes, " + "manual" + " approval";
    WordAt("yes, ", "manual", " approval");
  }

  lemma FeedbackWord(s: string)
    requires s == "give feedback"
    ensures Contains(s, "feedback")
  {
    assert s == "give " + "feedback" + "";
    WordAt("give ", "feedback", "");
  }

  lemma FeedbackLetters(s: string)
    requires s == "give feedback"
    ensures HasNo(s, 'y') && HasNo(s, 'm') && Trimmed(s) && s != "" && s[0] == 'g'
  {
  }

  lemma FeedbackLabel(s: string)
    requires s == "give feedback"
    ensures Contains(s, "feedback") && !Contains(s, "bypass") && !Contains(s, "manual")
    ensures Trimmed(s) && s != "" && s[0] == 'g'
  {
    FeedbackWord(s);
    FeedbackLetters(s);
    NotContained(s, "bypass", 1);
    NotContained(s, "manual", 0);
  }

  lemma LabelWords(a: string)
    ensures a == "yes, bypass permissions" ==> Contains(a, "bypass") && !Contains(a, "manual")
    ensures a == "yes, manual approval" ==> Contains(a, "manual")
    ensures a == "give feedback" ==> Contains(a, "feedback") && !Contains(a, "bypass") && !Contains(a, "manual")
    ensures a == "yes, bypass permissions" || a == "yes, manual approval" || a == "give feedback" ==>
              a != "" && Trimmed(a) && (a[0] == 'y' || a[0] == 'g')
  {
    if a == "yes, bypass permissions" { BypassLabel(a); }
    if a == "yes, manual approval" { ManualLabel(a); }
    if a == "give feedback" { FeedbackLabel(a); }
  }

  lemma ChoiceByWords(a: string)
    requires !StartsWith(a, "the user doesn't want to proceed") && !StartsWith(a, "user declined")
             && !StartsWith(a, "tool use rejected")
    ensures PlanChoice(a)
            == if Contains(a, "bypass") && !Contains(a, "manual") then Some(0)
               else if Contains(a, "manual") then Some(1)
               else if Contains(a, "feedback") || Contains(a, "type here") then Some(2)
               else None
  {
    LabelWords(a);
  }

  lemma LabelIsNoRefusal(a: string)
    requires a != "" && (a[0] == 'y' || a[0] == 'g')
    ensures !StartsWith(a, "the user doesn't want to proceed") && !StartsWith(a, "user declined")
            && !StartsWith(a, "tool use rejected")
  {
  }

  /** The answer to a plan selects by what it names, in any case: "bypass" without "manual" the first option,
      "manual" the second, "feedback" or "type here" alone the third. A refusal and anything else
      select nothing, and a selection already made stays. */
  lemma PlanAnswerSelects(card: Item, text: string)
    requires card.kind == ExitPlanMode && card.answer == Some(text)
    ensures card.selectedIndex.Some? ==> DeriveSelected(card) == card
    ensures card.selectedIndex.None? ==>
              DeriveSelected(card).selectedIndex
              == if Refuses(text) then None
                 else if Names(text, "bypass") && !Names(text, "manual") then Some(0)
                 else if Names(text, "manual") then Some(1)
                 else if Names(text, "feedback") || Names(text, "type here") then Some(2)
                 else None
    ensures DeriveSelected(card) == card.(selectedIndex := DeriveSelected(card).selectedIndex)
  {
    DismissedRefuses(text);
    if text == "" {
      NoneNamed();
    } else if !Refuses(text) {
      ChoiceByWords(Strip(Lower(text)));
    }
  }

  lemma NoneNamed()
    ensures !Names("", "bypass") && !Names("", "manual") && !Names("", "feedback") && !Names("", "type here")
  {
    assert Strip(Lower("")) == "";
  }

  /** Any of the three labels, in any case and with blanks around, selects its option. */
  lemma PlanLabelSelects(card: Item, pre: string, name: string, post: string)
    requires card.kind == ExitPlanMode && card.answer == Some(pre + name + post) && card.selectedIndex.None?
    requires Blank(pre) && Blank(post)
    ensures Lower(name) == "yes, bypass permissions" ==> DeriveSelected(card).selectedIndex == Some(0)
    ensures Lower(name) == "yes, manual approval" ==> DeriveSelected(card).selectedIndex == Some(1)
    ensures Lower(name) == "give feedback" ==> DeriveSelected(card).selectedIndex == Some(2)
  {
    LabelWords(Lower(name));
    if Lower(name) == "yes, bypass permissions" || Lower(name) == "yes, manual approval" || Lower(name) == "give feedback" {
      LabelIsNoRefusal(Lower(name));
      LowerStripped(pre, name, post);
      PlanAnswerSelects(card, pre + name + post);
    }
  }

  // ---- Labels ----

  // ---- Permission prompts ----

  ghost predicate FirstLabel(options: seq<string>, a: string, i: nat) {
    i < |options| && Lower(options[i]) == a && forall j :: 0 <= j < i ==> Lower(options[j]) != a
  }

  lemma {:induction false} LabelFound(options: seq<string>, a: string, i: nat, k: nat)
    requires FirstLabel(options, a, k) && i <= k
    ensures LabelIgnoringCase(options, a, i) == Some(k)
    decreases k - i
  {
    if i < k { LabelFound(options, a, i + 1, k); }
  }

  lemma {:induction false} LabelMissing(options: seq<string>, a: string, i: nat)
    requires forall j :: 0 <= j < |options| ==> Lower(options[j]) != a
    ensures LabelIgnoringCase(options, a, i) == None
    decreases |options| - i
  {
    if i < |options| { LabelMissing(options, a, i + 1); }
  }

  predicate Offers(card: Item, a: string) {
    card.questions != [] && exists i :: 0 <= i < |card.questions[0].options| && Lower(card.questions[0].options[i]) == a
  }

  /** The answer to a permission prompt selects the first option whose label it is, in any case; or else by
      its beginning: "yes" with "always" the second, "yes" the first, "no" the third. */
  lemma PermissionAnswerSelects(card: Item, text: string)
    requires card.kind == PermissionPrompt && card.answer == Some(text) && text != "" && !Dismissed(text)
    ensures card.selectedIndex.Some? ==> DeriveSelected(card) == card
    ensures card.selectedIndex.None? ==>
              var a := Strip(Lower(text));
              && (forall i: nat :: card.questions != [] && FirstLabel(card.questions[0].options, a, i) ==>
                    DeriveSelected(card).selectedIndex == Some(i))
              && (!Offers(card, a) ==>
                    DeriveSelected(card).selectedIndex
                    == if StartsWith(a, "yes") then Some(if Contains(a, "always") then 1 else 0)
                       else if StartsWith(a, "no") then Some(2)
                       else None)
    ensures DeriveSelected(card) == card.(selectedIndex := DeriveSelected(card).selectedIndex)
  {
    var a := Strip(Lower(text));
    if card.questions != [] {
      forall i: nat | FirstLabel(card.questions[0].options, a, i)
        ensures LabelIgnoringCase(card.questions[0].options, a, 0) == Some(i)
      {
        LabelFound(card.questions[0].options, a, 0, i);
      }
      if !Offers(card, a) { LabelMissing(card.questions[0].options, a, 0); }
    }
  }

  /** An option's own label selects it, where labels differ even in lower case. */
  lemma PermissionLabelSelects(card: Item, pre: string, i: nat, post: string)
    requires card.kind == PermissionPrompt && card.selectedIndex.None? && card.questions != []
    requires i < |card.questions[0].options| && Blank(pre) && Blank(post)
    requires Lower(card.questions[0].options[i]) != "" && Trimmed(Lower(card.questions[0].options[i]))
    requires forall j :: 0 <= j < i ==> Lower(card.questions[0].options[j]) != Lower(card.questions[0].options[i])
    requires card.answer == Some(pre + card.questions[0].options[i] + post) && !Dismissed(card.answer.value)
    ensures DeriveSelected(card).selectedIndex == Some(i)
  {
    var name := card.questions[0].options[i];
    LowerStripped(pre, name, post);
    PermissionAnswerSelects(card, pre + name + post);
    assert FirstLabel(card.questions[0].options, Lower(name), i);
  }

  /** A dismissed card and one without an answer select nothing new, whatever they ask. */
  lemma DismissedSelectsNothing(card: Item)
    ensures card.answer == None || card.answer == Some("") || StartsWith(card.answer.value, "The user doesn't want to proceed")
            || StartsWith(card.answer.value, "User declined") || StartsWith(card.answer.value, "Tool use rejected") ==>
              DeriveSelected(card) == card
  {
  }
}
