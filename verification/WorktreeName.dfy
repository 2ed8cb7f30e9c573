/**
 Worktree names: any text becomes a kebab-case name of at most 64 characters without
 adjacent equal words. The text is taken already in lower case.
 */
module WorktreeName {
  import opened Strings

  const MAX_LEN := 64
  const FALLBACK := "task"

  predicate NameChar(c: char) {
    'a' <= c <= 'z' || '0' <= c <= '9'
  }

  // ---- The stages ----

  /** Everything but letters, digits and hyphens becomes a hyphen. */
  function Clean(s: string): (r: string)
    ensures |r| == |s|
    ensures forall i :: 0 <= i < |s| ==> r[i] == if NameChar(s[i]) then s[i] else '-'
  {
    seq(|s|, i requires 0 <= i < |s| => if NameChar(s[i]) then s[i] else '-')
  }

  /** Runs of hyphens become one. */
  function Collapse(s: string): string {
    if |s| < 2 then s
    else if s[0] == '-' && s[1] == '-' then Collapse(s[1..])
    else [s[0]] + Collapse(s[1..])
  }

  function StripLeft(s: string): string {
    if s != "" && s[0] == '-' then StripLeft(s[1..]) else s
  }

  function StripRight(s: string): string {
    if s != "" && s[|s| - 1] == '-' then StripRight(s[..|s| - 1]) else s
  }

  function StripDashes(s: string): string {
    StripRight(StripLeft(s))
  }

  /** The pieces between hyphens; there is always at least one, possibly empty. */
  function Split(s: string): (r: seq<string>)
    ensures |r| > 0
  {
    if s == "" then [""]
    else
      var init := Split(s[..|s| - 1]);
      if s[|s| - 1] == '-' then init + [""]
      else init[..|init| - 1] + [init[|init| - 1] + [s[|s| - 1]]]
  }

  /** Non-empty pieces, without those equal to the one kept before. */
  function KeepTokens(pieces: seq<string>): seq<string> {
    if pieces == [] then []
    else
      var init, last := KeepTokens(pieces[..|pieces| - 1]), pieces[|pieces| - 1];
      if last != "" && (init == [] || init[|init| - 1] != last) then init + [last] else init
  }

  /** Position of the last hyphen, or -1. */
  function LastDash(s: string): (r: int)
    ensures -1 <= r < |s|
    ensures r >= 0 ==> s[r] == '-'
    ensures forall i :: r < i < |s| ==> s[i] != '-'
  {
    if s == "" then -1
    else if s[|s| - 1] == '-' then |s| - 1
    else LastDash(s[..|s| - 1])
  }

  function Cap(name: string): string {
    if |name| <= MAX_LEN then name
    else
      var head := name[..MAX_LEN];
      StripDashes(if LastDash(head) >= 0 then head[..LastDash(head)] else head)
  }

  function Sanitize(text: string): string {
    var name := StripDashes(Collapse(Clean(text)));
    if name == "" then FALLBACK
    else
      var capped := Cap(Join(KeepTokens(Split(name)), "-"));
      if capped == "" then FALLBACK else capped
  }

  method SanitizeWorktreeName(text: string) returns (name: string)
    ensures name == Sanitize(text)
  {
    name := StripDashes(Collapse(Clean(text)));
    if name == "" { return FALLBACK; }
    var pieces := Split(name);
    var tokens: seq<string> := [];
    for i := 0 to |pieces|
      invariant tokens == KeepTokens(pieces[..i])
    {
      assert pieces[..i + 1][..i] == pieces[..i];
      if pieces[i] != "" && (tokens == [] || tokens[|tokens| - 1] != pieces[i]) {
        tokens := tokens + [pieces[i]];
      }
    }
    assert pieces[..|pieces|] == pieces;
    name := Join(tokens, "-");
    if |name| > MAX_LEN {
      var head := name[..MAX_LEN];
      var cut := LastDash(head);
      name := StripDashes(if cut >= 0 then head[..cut] else head);
    }
    if name == "" { name := FALLBACK; }
  }

  // ---- Good names ----

  ghost predicate Word(t: string) {
    t != "" && forall i :: 0 <= i < |t| ==> NameChar(t[i])
  }

  /** At least one word, and no two neighbours equal. */
  ghost predicate GoodTokens(ts: seq<string>) {
    && ts != []
    && (forall i :: 0 <= i < |ts| ==> Word(ts[i]))
    && (forall i :: 0 < i < |ts| ==> ts[i] != ts[i - 1])
  }

  function Name(ts: seq<string>): string {
    Join(ts, "-")
  }

  /** What the CLI accepts, and reads well. */
  ghost predicate GoodName(s: string) {
    |s| <= MAX_LEN && exists ts :: GoodTokens(ts) && s == Name(ts)
  }

  /** The same, letter by letter. */
  ghost predicate WellSpelled(s: string) {
    && s != ""
    && (forall i :: 0 <= i < |s| ==> NameChar(s[i]) || s[i] == '-')
    && s[0] != '-' && s[|s| - 1] != '-'
    && (forall i :: 0 < i < |s| ==> s[i] != '-' || s[i - 1] != '-')
  }

  lemma GoodPrefix(ts: seq<string>, k: nat)
    requires GoodTokens(ts) && 0 < k <= |ts|
    ensures GoodTokens(ts[..k])
  {
  }

  lemma {:induction false} GoodIsWellSpelled(ts: seq<string>)
    requires GoodTokens(ts)
    ensures WellSpelled(Name(ts))
  {
    if |ts| > 1 {
      GoodPrefix(ts, |ts| - 1);
      GoodIsWellSpelled(ts[..|ts| - 1]);
      WellSpelledAppend(Name(ts[..|ts| - 1]), ts[|ts| - 1]);
    }
  }

  lemma WellSpelledAppend(s: string, w: string)
    requires WellSpelled(s) && Word(w)
    ensures WellSpelled(s + "-" + w)
  {
    var r := s + "-" + w;
    forall i | 0 < i < |r| ensures r[i] != '-' || r[i - 1] != '-' {
      if i > |s| { assert r[i] == w[i - |s| - 1]; }
    }
  }

  // ---- Splitting what was joined ----

  lemma {:induction false} SplitWord(s: string, w: string)
    requires Word(w)
    ensures Split(s + "-" + w) == Split(s) + [w]
    decreases |w|
  {
    var r := s + "-" + w;
    assert r[..|r| - 1] == s + "-" + w[..|w| - 1];
    if |w| == 1 {
      assert (s + "-")[..|s|] == s;
      assert Split(s + "-") == Split(s) + [""];
      assert s + "-" + w[..0] == s + "-";
      assert Split(r) == Split(s) + ["" + [w[0]]];
      assert "" + [w[0]] == w;
    } else {
      SplitWord(s, w[..|w| - 1]);
      assert (Split(s) + [w[..|w| - 1]])[..|Split(s)|] == Split(s);
      assert w[..|w| - 1] + [w[|w| - 1]] == w;
    }
  }

  lemma {:induction false} SplitOneWord(w: string)
    requires forall i :: 0 <= i < |w| ==> w[i] != '-'
    ensures Split(w) == [w]
  {
    if w != "" {
      SplitOneWord(w[..|w| - 1]);
      assert w[..|w| - 1] + [w[|w| - 1]] == w;
    }
  }

  lemma {:induction false} SplitName(ts: seq<string>)
    requires GoodTokens(ts)
    ensures Split(Name(ts)) == ts
  {
    var init, last := ts[..|ts| - 1], ts[|ts| - 1];
    assert ts == init + [last];
    if |ts| == 1 {
      SplitOneWord(last);
    } else {
      GoodPrefix(ts, |ts| - 1);
      SplitName(init);
      SplitWord(Name(init), last);
    }
  }

  lemma {:induction false} GoodTokensKept(ts: seq<string>)
    requires ts == [] || GoodTokens(ts)
    ensures KeepTokens(ts) == ts
  {
    if ts != [] {
      if |ts| > 1 { GoodPrefix(ts, |ts| - 1); }
      GoodTokensKept(ts[..|ts| - 1]);
    }
  }

  // ---- The stages leave a good name alone ----

  lemma {:induction false} CollapseNothing(s: string)
    requires forall i :: 0 < i < |s| ==> s[i] != '-' || s[i - 1] != '-'
    ensures Collapse(s) == s
  {
    if |s| >= 2 {
      assert s[1] != '-' || s[0] != '-';
      CollapseNothing(s[1..]);
    }
  }

  lemma CleanNothing(s: string)
    requires forall i :: 0 <= i < |s| ==> NameChar(s[i]) || s[i] == '-'
    ensures Clean(s) == s
  {
  }

  lemma WellSpelledNeedsNoStrip(s: string)
    requires WellSpelled(s)
    ensures StripDashes(s) == s
  {
  }

  lemma KeptStageByStage(s: string)
    requires s != "" && |s| <= MAX_LEN
    ensures Clean(s) == s && Collapse(s) == s && StripDashes(s) == s && Join(KeepTokens(Split(s)), "-") == s
            ==> Sanitize(s) == s
  {
  }

  /** Main result: a good name comes out as it went in. */
  lemma GoodNameIsKept(s: string)
    requires GoodName(s)
    ensures Sanitize(s) == s
  {
    var ts :| GoodTokens(ts) && s == Name(ts);
    GoodIsWellSpelled(ts);
    CleanNothing(s);
    CollapseNothing(s);
    WellSpelledNeedsNoStrip(s);
    SplitName(ts);
    GoodTokensKept(ts);
    KeptStageByStage(s);
  }

  // ---- What comes out is a good name ----

  lemma {:induction false} CollapseKeepsChars(s: string)
    requires forall i :: 0 <= i < |s| ==> NameChar(s[i]) || s[i] == '-'
    ensures forall i :: 0 <= i < |Collapse(s)| ==> NameChar(Collapse(s)[i]) || Collapse(s)[i] == '-'
  {
    if |s| >= 2 {
      CollapseKeepsChars(s[1..]);
    }
  }

  lemma {:induction false} StripLeftKeepsChars(s: string)
    requires forall i :: 0 <= i < |s| ==> NameChar(s[i]) || s[i] == '-'
    ensures forall i :: 0 <= i < |StripLeft(s)| ==> NameChar(StripLeft(s)[i]) || StripLeft(s)[i] == '-'
    ensures StripLeft(s) != "" ==> StripLeft(s)[0] != '-'
  {
    if s != "" && s[0] == '-' {
      StripLeftKeepsChars(s[1..]);
    }
  }

  lemma {:induction false} StripRightIsPrefix(s: string)
    ensures StripRight(s) <= s
    ensures s != "" && s[0] != '-' ==> StripRight(s) != ""
  {
    if s != "" && s[|s| - 1] == '-' {
      StripRightIsPrefix(s[..|s| - 1]);
    }
  }

  lemma {:induction false} PiecesAreWords(s: string)
    requires forall i :: 0 <= i < |s| ==> NameChar(s[i]) || s[i] == '-'
    ensures forall k :: 0 <= k < |Split(s)| ==> Split(s)[k] != "" ==> Word(Split(s)[k])
    ensures s != "" && s[0] != '-' ==> Split(s)[0] != ""
  {
    if s != "" {
      PiecesAreWords(s[..|s| - 1]);
    }
  }

  lemma {:induction false} KeptAreGood(pieces: seq<string>)
    requires forall k :: 0 <= k < |pieces| ==> pieces[k] != "" ==> Word(pieces[k])
    ensures KeepTokens(pieces) != [] ==> GoodTokens(KeepTokens(pieces))
    ensures pieces != [] && pieces[0] != "" ==> KeepTokens(pieces) != []
  {
    if pieces != [] {
      KeptAreGood(pieces[..|pieces| - 1]);
    }
  }

  /** A prefix that ends where a hyphen stands is made of whole words. */
  lemma {:induction false} CutAtDash(ts: seq<string>, n: nat) returns (k: nat)
    requires GoodTokens(ts) && n < |Name(ts)| && Name(ts)[n] == '-'
    ensures 0 < k < |ts| && Name(ts)[..n] == Name(ts[..k])
  {
    if |ts| == 1 {
      assert false;
    } else {
      var init, last := ts[..|ts| - 1], ts[|ts| - 1];
      var a := Name(init);
      assert Name(ts) == a + "-" + last;
      GoodPrefix(ts, |ts| - 1);
      assert forall j :: |a| < j < |Name(ts)| ==> Name(ts)[j] == last[j - |a| - 1];
      if n == |a| {
        k := |ts| - 1;
        assert Name(ts)[..n] == a;
      } else {
        assert Name(ts)[n] == a[n];
        k := CutAtDash(init, n);
        assert Name(ts)[..n] == a[..n];
        assert init[..k] == ts[..k];
      }
    }
  }

  lemma FirstWordLong(ts: seq<string>, n: nat)
    requires GoodTokens(ts) && 0 < n <= |Name(ts)|
    requires forall i :: 0 <= i < n ==> Name(ts)[i] != '-'
    ensures GoodTokens([Name(ts)[..n]]) && Name([Name(ts)[..n]]) == Name(ts)[..n]
  {
    GoodIsWellSpelled(ts);
  }

  lemma CapIsGood(ts: seq<string>)
    requires GoodTokens(ts)
    ensures GoodName(Cap(Name(ts)))
  {
    var name := Name(ts);
    if |name| > MAX_LEN {
      var head := name[..MAX_LEN];
      var n := LastDash(head);
      if n >= 0 {
        var k := CutAtDash(ts, n);
        GoodPrefix(ts, k);
        GoodIsWellSpelled(ts[..k]);
        WellSpelledNeedsNoStrip(Name(ts[..k]));
        assert head[..n] == Name(ts[..k]);
      } else {
        FirstWordLong(ts, MAX_LEN);
        GoodIsWellSpelled([head]);
        WellSpelledNeedsNoStrip(head);
      }
    }
  }

  lemma FallbackIsGood()
    ensures GoodName(FALLBACK)
  {
    var ts := [FALLBACK];
    assert GoodTokens(ts) && FALLBACK == Name(ts);
  }

  lemma NameNotEmpty(s: string)
    requires GoodName(s)
    ensures s != "" && WellSpelled(s)
  {
    var ts :| GoodTokens(ts) && s == Name(ts);
    GoodIsWellSpelled(ts);
  }

  /** The words of a text, in order. */
  function WordsOf(text: string): seq<string> {
    KeepTokens(Split(StripDashes(Collapse(Clean(text)))))
  }

  lemma WordsAreGood(text: string)
    requires StripDashes(Collapse(Clean(text))) != ""
    ensures GoodTokens(WordsOf(text))
  {
    var s := Collapse(Clean(text));
    CollapseKeepsChars(Clean(text));
    StripLeftKeepsChars(s);
    StripRightIsPrefix(StripLeft(s));
    PiecesAreWords(StripDashes(s));
    KeptAreGood(Split(StripDashes(s)));
  }

  /** Main result: whatever the text, the name is good. */
  lemma SanitizedIsGood(text: string)
    ensures GoodName(Sanitize(text)) && WellSpelled(Sanitize(text)) && |Sanitize(text)| <= 64
  {
    if StripDashes(Collapse(Clean(text))) == "" {
      FallbackIsGood();
    } else {
      WordsAreGood(text);
      CapIsGood(WordsOf(text));
      NameNotEmpty(Cap(Name(WordsOf(text))));
    }
    NameNotEmpty(Sanitize(text));
  }

  /** Main result: sanitizing a sanitized name changes nothing. */
  lemma SanitizeIsIdempotent(text: string)
    ensures Sanitize(Sanitize(text)) == Sanitize(text)
  {
    SanitizedIsGood(text);
    GoodNameIsKept(Sanitize(text));
  }

  // ---- Which words survive ----

  lemma {:induction false} NameGrows(ts: seq<string>, k: nat)
    requires GoodTokens(ts) && 0 < k < |ts|
    ensures |Name(ts[..k])| < |Name(ts)| && Name(ts)[|Name(ts[..k])|] == '-'
  {
    var init := ts[..|ts| - 1];
    assert Name(ts) == Name(init) + "-" + ts[|ts| - 1];
    if k < |init| {
      GoodPrefix(ts, |init|);
      NameGrows(init, k);
      assert init[..k] == ts[..k];
      assert Name(ts)[|Name(ts[..k])|] == Name(init)[|Name(ts[..k])|];
    }
  }

  lemma OneWordName(ts: seq<string>)
    requires GoodTokens(ts)
    ensures |ts| == 1 ==> Name(ts) == ts[0]
  {
  }

  lemma NamesInOrder(ts: seq<string>, j: nat, k: nat)
    requires GoodTokens(ts) && 0 < j < k <= |ts|
    ensures |Name(ts[..j])| < |Name(ts[..k])|
  {
    GoodPrefix(ts, k);
    NameGrows(ts[..k], j);
    assert ts[..k][..j] == ts[..j];
  }

  /** The cut keeps the longest run of leading words that leaves room for the hyphen after it;
      only a first word that fills the whole width is cut itself. */
  lemma CapKeepsWholeWords(ts: seq<string>)
    requires GoodTokens(ts) && |Name(ts)| > MAX_LEN && |ts[0]| < MAX_LEN
    ensures exists k :: 0 < k < |ts| && Cap(Name(ts)) == Name(ts[..k]) && |Name(ts[..k])| < MAX_LEN
                        && forall j :: k < j <= |ts| ==> |Name(ts[..j])| >= MAX_LEN
  {
    var name := Name(ts);
    var head := name[..MAX_LEN];
    var n := LastDash(head);
    assert ts[..1] == [ts[0]];
    OneWordName(ts);
    NameGrows(ts, 1);
    assert head[|ts[0]|] == '-';
    var k := CutAtDash(ts, n);
    GoodPrefix(ts, k);
    GoodIsWellSpelled(ts[..k]);
    WellSpelledNeedsNoStrip(Name(ts[..k]));
    assert head[..n] == Name(ts[..k]);
    assert forall i :: n < i < MAX_LEN ==> name[i] == head[i] != '-';
    forall j | k < j <= |ts| ensures |Name(ts[..j])| >= MAX_LEN {
      NamesInOrder(ts, k, j);
      if j < |ts| { NameGrows(ts, j); }
      assert ts[..|ts|] == ts;
    }
  }

  /** Main result on content: the words of the text are its name, as long as they fit. */
  lemma ShortTextKeepsItsWords(text: string)
    requires StripDashes(Collapse(Clean(text))) != "" && |Name(WordsOf(text))| <= MAX_LEN
    ensures Sanitize(text) == Name(WordsOf(text))
  {
    WordsAreGood(text);
    GoodIsWellSpelled(WordsOf(text));
  }

  // ---- Examples every reader would expect ----

  ghost predicate LettersAndDigits(s: string) {
    forall i :: 0 <= i < |s| ==> 'a' <= s[i] <= 'z' || '0' <= s[i] <= '9'
  }

  /** A word of at most 64 lower-case letters and digits is its own name. */
  lemma WordIsItsName(text: string)
    requires text != "" && LettersAndDigits(text) && |text| <= 64
    ensures Sanitize(text) == text
  {
    assert GoodTokens([text]);
    OneWordName([text]);
    GoodNameIsKept(text);
  }

  /** A text without any is called "task". */
  lemma NothingIsTask(text: string)
    requires forall i :: 0 <= i < |text| ==> !('a' <= text[i] <= 'z' || '0' <= text[i] <= '9')
    ensures Sanitize(text) == "task"
  {
    AllDashes(Clean(text));
  }

  lemma {:induction false} AllDashes(s: string)
    requires forall i :: 0 <= i < |s| ==> s[i] == '-'
    ensures StripDashes(Collapse(s)) == ""
  {
    if |s| >= 2 {
      AllDashes(s[1..]);
    } else {
      assert Collapse(s) == s;
      assert s != "" ==> s[1..] == "";
      assert StripLeft(s) == "";
    }
  }
}
