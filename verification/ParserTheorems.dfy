/**
 What callers of the parser rely on: re-reading a longer file does not disturb what was
 settled, no card is lost or shown twice, and no text or tool call is lost or reordered.
 */
module ParserTheorems {
  import opened Collections
  import opened Strings
  import opened InteractiveItems
  import opened Transcript
  import opened SessionParser
  import opened ParserSteps
  import opened ParserAnswers
  import opened ParserSpeech

  // ---- Reading in two pieces ----

  lemma {:induction false} FeedAllSplit(st: State, a: seq<Line>, b: seq<Line>)
    requires Sound(st)
    ensures FeedAll(st, a + b) == FeedAll(FeedAll(st, a), b)
  {
    if b == [] {
      assert a + b == a;
    } else {
      FeedAllSplit(st, a, b[..|b| - 1]);
      assert (a + b)[..|a + b| - 1] == a + b[..|b| - 1];
    }
  }

  lemma {:induction false} DedupIsMonotone(a: seq<Turn>, b: seq<Turn>)
    requires a <= b
    ensures Dedup(a) <= Dedup(b)
  {
    if |a| < |b| {
      DedupIsMonotone(a, b[..|b| - 1]);
    } else {
      assert a == b;
    }
  }

  lemma DedupKeepsLast(turns: seq<Turn>, t: Turn)
    ensures Dedup(turns + [t]) == Dedup(turns) + (if Repeats(UserUuids(turns), t) then [] else [t])
  {
    assert (turns + [t])[..|turns|] == turns;
  }

  // ---- Repeated user turns, as the reader of the turns sees them ----

  predicate UserUtterance(u: Utterance) {
    u.Told? && u.item.Heard? && u.item.turn.UserTurn? && Truthy(u.item.turn.uuid)
  }

  function SaidUuids(us: seq<Utterance>): set<string> {
    set i | 0 <= i < |us| && UserUtterance(us[i]) :: us[i].item.turn.uuid.value
  }

  predicate SaidBefore(us: seq<Utterance>, u: Utterance) {
    UserUtterance(u) && u.item.turn.uuid.value in SaidUuids(us)
  }

  /** Without what a user entry repeats. */
  function Distinct(us: seq<Utterance>): seq<Utterance> {
    if us == [] then []
    else
      var init, last := us[..|us| - 1], us[|us| - 1];
      Distinct(init) + if SaidBefore(init, last) then [] else [last]
  }

  lemma DistinctAdded(us: seq<Utterance>, u: Utterance)
    ensures Distinct(us + [u]) == Distinct(us) + (if SaidBefore(us, u) then [] else [u])
    ensures SaidUuids(us + [u]) == SaidUuids(us) + (if UserUtterance(u) then {u.item.turn.uuid.value} else {})
  {
    var all := us + [u];
    assert all[..|us|] == us && all[|us|] == u;
    forall x | x in SaidUuids(us) ensures x in SaidUuids(all) {
      var i :| 0 <= i < |us| && UserUtterance(us[i]) && us[i].item.turn.uuid.value == x;
      assert all[i] == us[i];
    }
  }

  lemma {:induction false} SameUuids(turns: seq<Turn>)
    ensures SaidUuids(Spoken(turns)) == UserUuids(turns)
  {
    if turns != [] {
      var init, last := turns[..|turns| - 1], turns[|turns| - 1];
      SameUuids(init);
      SplitLast(turns);
      UuidAdded(init, last);
      if SpokenBy(last) == [] {
        assert Spoken(init) + [] == Spoken(init);
      } else {
        DistinctAdded(Spoken(init), SpokenBy(last)[0]);
      }
    }
  }

  lemma RepeatsAgree(init: seq<Turn>, last: Turn)
    requires SpokenBy(last) != []
    ensures |SpokenBy(last)| == 1
    ensures SaidBefore(Spoken(init), SpokenBy(last)[0]) == Repeats(UserUuids(init), last)
  {
    SameUuids(init);
  }

  lemma SilentTurn(init: seq<Turn>, last: Turn)
    requires SpokenBy(last) == [] && Spoken(Dedup(init)) == Distinct(Spoken(init))
    ensures Spoken(Dedup(init + [last])) == Distinct(Spoken(init + [last]))
  {
    DedupKeepsLast(init, last);
    TurnSpeaks(init, last);
    TurnSpeaks(Dedup(init), last);
    assert Spoken(init) + [] == Spoken(init);
    assert Spoken(Dedup(init)) + [] == Spoken(Dedup(init));
  }

  lemma RepeatedTurn(init: seq<Turn>, last: Turn)
    requires SpokenBy(last) != [] && Repeats(UserUuids(init), last)
    ensures Dedup(init + [last]) == Dedup(init) && Distinct(Spoken(init + [last])) == Distinct(Spoken(init))
  {
    RepeatsAgree(init, last);
    DedupKeepsLast(init, last);
    TurnSpeaks(init, last);
    DistinctAdded(Spoken(init), SpokenBy(last)[0]);
  }

  lemma NewTurn(init: seq<Turn>, last: Turn)
    requires SpokenBy(last) != [] && !Repeats(UserUuids(init), last)
    ensures Spoken(Dedup(init + [last])) == Spoken(Dedup(init)) + SpokenBy(last)
    ensures Distinct(Spoken(init + [last])) == Distinct(Spoken(init)) + SpokenBy(last)
  {
    RepeatsAgree(init, last);
    DedupKeepsLast(init, last);
    TurnSpeaks(init, last);
    DistinctAdded(Spoken(init), SpokenBy(last)[0]);
    TurnSpeaks(Dedup(init), last);
  }

  lemma SpeakingTurn(init: seq<Turn>, last: Turn)
    requires SpokenBy(last) != [] && Spoken(Dedup(init)) == Distinct(Spoken(init))
    ensures Spoken(Dedup(init + [last])) == Distinct(Spoken(init + [last]))
  {
    if Repeats(UserUuids(init), last) {
      RepeatedTurn(init, last);
    } else {
      NewTurn(init, last);
    }
  }

  lemma {:induction false} DedupSpeech(turns: seq<Turn>)
    ensures Spoken(Dedup(turns)) == Distinct(Spoken(turns))
  {
    if turns != [] {
      var init, last := turns[..|turns| - 1], turns[|turns| - 1];
      DedupSpeech(init);
      SplitLast(turns);
      if SpokenBy(last) == [] {
        SilentTurn(init, last);
      } else {
        SpeakingTurn(init, last);
      }
    }
  }

  lemma {:induction false} DedupKeepsCards(turns: seq<Turn>)
    ensures Numbers(Dedup(turns)) == Numbers(turns)
    ensures RejectedKeys(Dedup(turns)) == RejectedKeys(turns)
  {
    if turns != [] {
      var init, last := turns[..|turns| - 1], turns[|turns| - 1];
      DedupKeepsCards(init);
      TurnAdded(Dedup(init), last);
      assert last.UserTurn? ==> Numbers(turns) == Numbers(init) + [] == Numbers(init);
      assert last.UserTurn? ==> RejectedKeys(turns) == RejectedKeys(init) + [] == RejectedKeys(init);
      assert Dedup(init) + [] == Dedup(init);
    }
  }

  /** What the final flush can add: one open text, one group of cards still waiting. */
  ghost predicate OpenTail(tail: seq<Turn>) {
    && |tail| <= 2
    && (forall i :: 0 <= i < |tail| ==> tail[i].TextTurn? || tail[i].CardTurn?)
    && (|tail| == 2 ==> tail[0].TextTurn? && tail[1].CardTurn?)
  }

  lemma TextTail(st: State) returns (tail: seq<Turn>)
    ensures FlushText(st).turns == st.turns + tail && Dedup(FlushText(st).turns) == Dedup(st.turns) + tail
    ensures |tail| <= 1 && (tail != [] ==> tail[0].TextTurn?)
  {
    var t := TextTurn(Render(st.parts), st.textUuid, st.textTime);
    DedupKeepsLast(st.turns, t);
    if st.parts != [] && Render(st.parts) != "" {
      tail := [t];
    } else {
      tail := [];
      assert st.turns + [] == st.turns && Dedup(st.turns) + [] == Dedup(st.turns);
    }
  }

  lemma CardTail(s: State) returns (tail: seq<Turn>)
    ensures (if s.pending == [] then s.turns else s.turns + [CardTurn(s.pending)]) == s.turns + tail
    ensures Dedup(s.turns + tail) == Dedup(s.turns) + tail
    ensures |tail| <= 1 && (tail != [] ==> tail[0].CardTurn?)
  {
    DedupKeepsLast(s.turns, CardTurn(s.pending));
    if s.pending == [] {
      tail := [];
      assert s.turns + [] == s.turns && Dedup(s.turns) + [] == Dedup(s.turns);
    } else {
      tail := [CardTurn(s.pending)];
    }
  }

  lemma FlushAllTurns(st: State)
    ensures var s := FlushText(st);
            && FlushAll(st).turns == (if s.pending == [] then s.turns else s.turns + [CardTurn(s.pending)])
            && FlushAll(st).cards == st.cards
  {
    FlushTextFrame(st);
  }

  lemma JoinTails(base: seq<Turn>, text: seq<Turn>, shown: seq<Turn>, mid: seq<Turn>, whole: seq<Turn>)
    requires mid == base + text && whole == mid + shown
    ensures whole == base + (text + shown)
  {
  }

  lemma TailIsOpen(text: seq<Turn>, shown: seq<Turn>)
    requires |text| <= 1 && (text != [] ==> text[0].TextTurn?)
    requires |shown| <= 1 && (shown != [] ==> shown[0].CardTurn?)
    ensures OpenTail(text + shown)
  {
  }

  lemma FlushTail(st: State) returns (tail: seq<Turn>)
    ensures FlushAll(st).turns == st.turns + tail && OpenTail(tail) && FlushAll(st).cards == st.cards
    ensures Dedup(FlushAll(st).turns) == Dedup(st.turns) + tail
  {
    var s := FlushText(st);
    var text := TextTail(st);
    var shown := CardTail(s);
    tail := text + shown;
    FlushAllTurns(st);
    JoinTails(st.turns, text, shown, s.turns, FlushAll(st).turns);
    JoinTails(Dedup(st.turns), text, shown, Dedup(s.turns), Dedup(FlushAll(st).turns));
    TailIsOpen(text, shown);
  }

  lemma RestGrows(s: State, b: seq<Line>)
    requires Sound(s)
    ensures Dedup(s.turns) <= Dedup(FlushAll(FeedAll(s, b)).turns)
  {
    var t := FeedAll(s, b);
    FeedAllStep(s, b);
    FlushAllStep(t);
    DedupIsMonotone(s.turns, FlushAll(t).turns);
  }

  lemma ParseInTwo(a: seq<Line>, b: seq<Line>)
    ensures var t := FlushAll(FeedAll(FeedAll(START, a), b));
            Parse(a + b).turns == Dedup(t.turns) && Parse(a + b).cards == t.cards
    ensures Parse(a).cards == FeedAll(START, a).cards
  {
    FeedAllSplit(START, a, b);
  }

  /** Card `n` of the first part is what the appended results that reach it make of it. */
  ghost predicate CardFollows(a: seq<Line>, b: seq<Line>, n: nat)
    requires n < |Parse(a).cards|
  {
    && n < |DeskAfter(a).cards| && n < |Parse(a + b).cards|
    && Parse(a + b).cards[n] == Apply(Parse(a).cards[n], Further(a, b, n))
  }

  /** Main result for streaming: whatever is appended to the file, the turns settled by the first
      part stay where they are, and its cards change only by the appended results that reach
      them, so that a card none reaches stays as it is. */
  lemma SettledTurnsAreStable(a: seq<Line>, b: seq<Line>)
    ensures Settled(a) <= Parse(a + b).turns
    ensures forall n :: 0 <= n < |Parse(a).cards| ==> CardFollows(a, b, n)
  {
    ParseInTwo(a, b);
    RestGrows(FeedAll(START, a), b);
    forall n: nat | n < |Parse(a).cards| ensures CardFollows(a, b, n) {
      CardAfterMore(a, b, n);
    }
  }

  /** What is not settled is at most one open text and one group of unanswered cards. */
  lemma OnlyTheTailIsOpen(a: seq<Line>)
    ensures Settled(a) <= Parse(a).turns
    ensures OpenTail(Parse(a).turns[|Settled(a)|..])
  {
    var tail := FlushTail(FeedAll(START, a));
    assert Parse(a).turns == Settled(a) + tail;
    assert Parse(a).turns[|Settled(a)|..] == tail;
  }

  // ---- Cards ----

  lemma StartIsBalanced()
    ensures Balanced(START)
  {
  }

  /** Main result for cards: the cards are exactly the interactive calls of the document, in
      order; the card turns show them in that order, none twice, and those not shown are
      exactly the rejected ones. Nothing is asked of the tool-use ids. */
  lemma CardsAreConserved(lines: seq<Line>)
    ensures var r := Parse(lines);
            && CardKeys(r.cards) == KeysIn(Document(lines))
            && Accounted(Numbers(r.turns), RejectedKeys(r.turns), CardKeys(r.cards))
  {
    var s := FeedAll(START, lines);
    FeedAllStep(START, lines);
    StartIsBalanced();
    EmptyConcat(KeysIn(Document(lines)));
    FlushAllStep(s);
    DedupKeepsCards(FlushAll(s).turns);
    var t := FlushAll(s);
    assert Numbers(t.turns) + t.pending == Numbers(t.turns);
  }

  lemma OncePerBag<T>(a: seq<T>, b: seq<T>, whole: seq<T>, k: T)
    requires multiset(a) + multiset(b) == multiset(whole) && NoDup(whole) && k in whole
    ensures (k in a) != (k in b)
    ensures multiset(a)[k] + multiset(b)[k] == 1
  {
    NoDupIsMultiplicityOne(whole);
    assert k in multiset(whole);
    assert k in a <==> k in multiset(a);
    assert k in b <==> k in multiset(b);
  }

  function ShownKeys(r: Result): seq<Key>
    requires forall i :: 0 <= i < |Numbers(r.turns)| ==> Numbers(r.turns)[i] < |r.cards|
  {
    KeysAt(Numbers(r.turns), CardKeys(r.cards))
  }

  /** With distinct ids each interactive call ends in exactly one card or exactly one rejected turn. */
  lemma EachCallOnce(lines: seq<Line>, k: Key)
    requires NoDup(KeysIn(Document(lines))) && k in KeysIn(Document(lines))
    ensures forall i :: 0 <= i < |Numbers(Parse(lines).turns)| ==> Numbers(Parse(lines).turns)[i] < |Parse(lines).cards|
    ensures var shown, rejected := ShownKeys(Parse(lines)), RejectedKeys(Parse(lines).turns);
            (k in shown) != (k in rejected) && multiset(shown)[k] + multiset(rejected)[k] == 1
  {
    CardsAreConserved(lines);
    OncePerBag(ShownKeys(Parse(lines)), RejectedKeys(Parse(lines).turns), KeysIn(Document(lines)), k);
  }

  // ---- Everything said, in order ----

  /** Main result for the conversation: cut into runs of texts and single items where the parser closes a
      text, the document is exactly what the turns show, run after run and item after item, a
      user entry that repeats an earlier one left out. */
  lemma SpeechIsConserved(lines: seq<Line>)
    ensures Spoken(Parse(lines).turns) == Distinct(Rendered(Runs(lines)))
    ensures Flatten(Runs(lines)) == Spoke(Document(lines)) && ProperGroups(Runs(lines))
  {
    TurnsShowRuns(lines);
    DedupSpeech(FlushAll(FeedAll(START, lines)).turns);
    RunsAreTheDocument(lines);
  }

  // ---- Texts without the old markers ----

  ghost predicate Free(s: string, m: string) {
    forall i :: 0 <= i <= |s| ==> !At(s, m, i)
  }

  lemma {:induction false} LStripIsFree(s: string, m: string)
    requires Free(s, m)
    ensures Free(LStrip(s), m)
  {
    if s != "" && IsSpace(s[0]) {
      forall i | 0 <= i <= |s[1..]| ensures !At(s[1..], m, i) {
        if i + |m| <= |s[1..]| {
          assert s[1..][i..i + |m|] == s[i + 1..i + 1 + |m|];
          assert !At(s, m, i + 1);
        }
      }
      LStripIsFree(s[1..], m);
    }
  }

  lemma PrefixIsFree(s: string, t: string, m: string)
    requires Free(s, m) && t <= s
    ensures Free(t, m)
  {
    forall i | 0 <= i <= |t| ensures !At(t, m, i) {
      if i + |m| <= |t| {
        assert t[i..i + |m|] == s[i..i + |m|];
        assert !At(s, m, i);
      }
    }
  }

  lemma StripIsFree(s: string, m: string)
    requires Free(s, m)
    ensures Free(Strip(s), m)
  {
    LStripIsFree(s, m);
    RStripTrims(LStrip(s));
    PrefixIsFree(LStrip(s), Strip(s), m);
  }

  /** A marker without newlines cannot straddle a separator. */
  lemma GlueIsFree(a: string, b: string, m: string)
    requires Free(a, m) && Free(b, m) && m != "" && '\n' !in m
    ensures Free(a + "\n\n" + b, m)
  {
    var s := a + "\n\n" + b;
    forall i | 0 <= i <= |s| ensures !At(s, m, i) {
      if i + |m| <= |s| {
        if i + |m| <= |a| {
          assert s[i..i + |m|] == a[i..i + |m|];
          assert !At(a, m, i);
        } else if i >= |a| + 2 {
          assert s[i..i + |m|] == b[i - |a| - 2..i - |a| - 2 + |m|];
          assert !At(b, m, i - |a| - 2);
        } else {
          StraddlesNewline(s, a, i, m);
        }
      }
    }
  }

  lemma StraddlesNewline(s: string, a: string, i: nat, m: string)
    requires |a| + 2 <= |s| && s[|a|] == '\n' && s[|a| + 1] == '\n' && m != "" && '\n' !in m
    requires i + |m| <= |s| && |a| < i + |m| && i < |a| + 2
    ensures !At(s, m, i)
  {
    var k := if i <= |a| then |a| - i else 0;
    assert s[i..i + |m|][k] == s[i + k] == '\n';
  }

  lemma {:induction false} JoinIsFree(parts: seq<string>, m: string)
    requires m != "" && '\n' !in m
    requires forall i :: 0 <= i < |parts| ==> Free(parts[i], m)
    ensures Free(Join(parts, "\n\n"), m)
  {
    if |parts| > 1 {
      JoinIsFree(parts[..|parts| - 1], m);
      GlueIsFree(Join(parts[..|parts| - 1], "\n\n"), parts[|parts| - 1], m);
    }
  }

  /** All parts stripped. */
  function Trims(parts: seq<string>): (r: seq<string>)
    ensures |r| == |parts|
  {
    seq(|parts|, i requires 0 <= i < |parts| => Strip(parts[i]))
  }

  lemma {:induction false} StrippedIsTrims(parts: seq<string>)
    requires forall i :: 0 <= i < |parts| ==> Strip(parts[i]) != ""
    ensures Stripped(parts) == Trims(parts)
  {
    if parts != [] {
      StrippedIsTrims(parts[..|parts| - 1]);
    }
  }

  ghost predicate Unmarked(s: string) {
    Free(s, SUCCESS) && Free(s, FAILURE)
  }

  lemma NothingDropped(text: string)
    requires Unmarked(text)
    ensures DropFailure(DropSuccess(text)) == text
  {
    RStripTrims(text);
    PrefixIsFree(text, RStrip(text), SUCCESS);
    var t := RStrip(text);
    if |SUCCESS| <= |t| {
      assert !At(t, SUCCESS, |t| - |SUCCESS|);
    }
  }

  lemma {:induction false} JoinNonEmpty(parts: seq<string>)
    requires parts != [] && forall i :: 0 <= i < |parts| ==> parts[i] != ""
    ensures Join(parts, "\n\n") != ""
  {
  }

  /** A run of unmarked texts is shown whole: all its texts, stripped, a blank line between. */
  lemma UnmarkedRunIsWhole(parts: seq<string>)
    requires parts != [] && forall i :: 0 <= i < |parts| ==> Strip(parts[i]) != "" && Unmarked(parts[i])
    ensures Render(parts) == Join(Trims(parts), "\n\n") != ""
  {
    StrippedIsTrims(parts);
    forall i | 0 <= i < |parts| ensures Unmarked(Trims(parts)[i]) {
      StripIsFree(parts[i], SUCCESS);
      StripIsFree(parts[i], FAILURE);
    }
    JoinIsFree(Trims(parts), SUCCESS);
    JoinIsFree(Trims(parts), FAILURE);
    NothingDropped(Join(Trims(parts), "\n\n"));
    JoinNonEmpty(Trims(parts));
  }

  /** A run with all its texts in full; an item as it is. */
  function InFull(g: Group): Utterance {
    match g
    case Texts(items) => Said(Join(Trims(TextsIn(items)), "\n\n"), FirstUuid(items), FirstTime(items))
    case Single(item) => Told(item)
  }

  function AllInFull(gs: seq<Group>): seq<Utterance> {
    if gs == [] then [] else AllInFull(gs[..|gs| - 1]) + [InFull(gs[|gs| - 1])]
  }

  ghost predicate UnmarkedItems(items: seq<DocItem>) {
    forall i :: 0 <= i < |items| ==> items[i].Prose? ==> Unmarked(items[i].text)
  }

  /** Blank texts never become part of the document. */
  ghost predicate NonBlank(items: seq<DocItem>) {
    forall i :: 0 <= i < |items| ==> items[i].Prose? ==> Strip(items[i].text) != ""
  }

  lemma {:induction false} ItemsNonBlank(bs: seq<AgentBlock>, uuid: Option<string>, time: Option<string>)
    ensures NonBlank(ItemsOf(bs, uuid, time))
  {
    if bs != [] {
      ItemsNonBlank(bs[..|bs| - 1], uuid, time);
    }
  }

  lemma LineNonBlank(line: Line)
    ensures NonBlank(LineItems(line))
  {
    if line.Parsed? && line.entry.body.AgentBody? {
      ItemsNonBlank(line.entry.body.blocks, line.entry.uuid, line.entry.timestamp);
    }
  }

  lemma {:induction false} DocumentNonBlank(lines: seq<Line>)
    ensures NonBlank(Document(lines))
  {
    if lines != [] {
      DocumentNonBlank(lines[..|lines| - 1]);
      LineNonBlank(lines[|lines| - 1]);
    }
  }

  lemma {:induction false} SpokeNonBlank(items: seq<DocItem>)
    requires NonBlank(items)
    ensures NonBlank(Spoke(items))
  {
    if items != [] {
      SpokeNonBlank(items[..|items| - 1]);
    }
  }

  lemma UnmarkedGroupShows(g: Group)
    requires Proper(g) && UnmarkedItems(Contents(g)) && NonBlank(Contents(g))
    ensures RenderGroup(g) == [InFull(g)]
  {
    if g.Texts? {
      forall i | 0 <= i < |g.items| ensures Unmarked(TextsIn(g.items)[i]) && Strip(TextsIn(g.items)[i]) != "" {
        assert Contents(g)[i].Prose?;
      }
      UnmarkedRunIsWhole(TextsIn(g.items));
    }
  }

  lemma {:induction false} UnmarkedGroupsShow(gs: seq<Group>)
    requires ProperGroups(gs) && UnmarkedItems(Flatten(gs)) && NonBlank(Flatten(gs))
    ensures Rendered(gs) == AllInFull(gs)
  {
    if gs != [] {
      var init, last := gs[..|gs| - 1], gs[|gs| - 1];
      UnmarkedSplit(Flatten(init), Contents(last));
      UnmarkedGroupsShow(init);
      UnmarkedGroupShows(last);
    }
  }

  lemma UnmarkedSplit(a: seq<DocItem>, b: seq<DocItem>)
    requires UnmarkedItems(a + b) && NonBlank(a + b)
    ensures UnmarkedItems(a) && UnmarkedItems(b) && NonBlank(a) && NonBlank(b)
  {
    forall i | 0 <= i < |a| ensures a[i].Prose? ==> Unmarked(a[i].text) && Strip(a[i].text) != "" {
      assert (a + b)[i] == a[i];
    }
    forall i | 0 <= i < |b| ensures b[i].Prose? ==> Unmarked(b[i].text) && Strip(b[i].text) != "" {
      assert (a + b)[|a| + i] == b[i];
    }
  }

  /** Without the old markers no run vanishes: before repeated user turns are left out there is one
      turn per run and one per item, and each text turn is its run's texts in full. */
  lemma UnmarkedSpeechIsWhole(lines: seq<Line>)
    requires UnmarkedItems(Spoke(Document(lines)))
    ensures Spoken(Parse(lines).turns) == Distinct(AllInFull(Runs(lines)))
  {
    SpeechIsConserved(lines);
    DocumentNonBlank(lines);
    SpokeNonBlank(Document(lines));
    UnmarkedGroupsShow(Runs(lines));
  }
}
