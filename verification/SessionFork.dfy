/**
 Forking a session: cut the transcript at an entry, walk back to a place it can be resumed
 from, give it a new session id, and close it with an interrupt marker.
 */
module SessionFork {
  import opened Collections
  import opened Strings
  import opened Transcript
  import opened SessionParser
  import opened ParserSteps
  import opened ParserTheorems

  const INTERRUPT_TEXT := "[Request interrupted by user]"
  const SHOWN_TEXT := "Request interrupted by user"

  // ---- Where to cut ----

  predicate IsTarget(line: Line, target: string) {
    line.Parsed? && line.entry.uuid == Some(target)
  }

  method FindUuidIndex(lines: seq<Line>, target: string) returns (i: int)
    ensures -1 <= i < |lines|
    ensures i >= 0 ==> IsTarget(lines[i], target) && forall j :: 0 <= j < i ==> !IsTarget(lines[j], target)
    ensures i == -1 ==> forall j :: 0 <= j < |lines| ==> !IsTarget(lines[j], target)
  {
    i := 0;
    while i < |lines|
      invariant 0 <= i <= |lines|
      invariant forall j :: 0 <= j < i ==> !IsTarget(lines[j], target)
    {
      if IsTarget(lines[i], target) { return; }
      i := i + 1;
    }
    i := -1;
  }

  predicate Conversational(line: Line) {
    line.Parsed? && !line.entry.body.OtherBody?
  }

  predicate Dangling(line: Line) {
    line.Parsed? && line.entry.body.AgentBody? && line.entry.body.blocks != []
    && line.entry.body.blocks[|line.entry.body.blocks| - 1].ToolUse?
  }

  /** A conversational entry that does not end in a tool call still waiting for its result. */
  predicate Resumable(line: Line) {
    Conversational(line) && !Dangling(line)
  }

  /** In the entry's own terms: what the user or the system says can be resumed from, and so can what the
      assistant says unless its last block is a call. */
  lemma ResumableIs(line: Line)
    ensures Resumable(line) <==>
              && line.Parsed?
              && match line.entry.body
                 case UserBody(_, _) => true
                 case SystemBody(_, _) => true
                 case AgentBody(_, _, _, blocks) => blocks == [] || !blocks[|blocks| - 1].ToolUse?
                 case OtherBody(_) => false
  {
  }

  /** `k` lines are kept: the longest prefix that ends in a resumable entry, or none. */
  ghost predicate LongestResumable(lines: seq<Line>, k: nat) {
    && k <= |lines|
    && (k > 0 ==> Resumable(lines[k - 1]))
    && forall j :: k <= j < |lines| ==> !Resumable(lines[j])
  }

  method TrimDanglingTail(lines: seq<Line>) returns (kept: seq<Line>)
    ensures kept <= lines && LongestResumable(lines, |kept|)
  {
    var j := |lines|;
    while j > 0
      invariant 0 <= j <= |lines|
      invariant forall i :: j <= i < |lines| ==> !Resumable(lines[i])
    {
      j := j - 1;
      if Resumable(lines[j]) { return lines[..j + 1]; }
    }
    return [];
  }

  // ---- What the cut leaves unanswered ----

  function CallsOf(bs: seq<AgentBlock>): set<string> {
    set i | 0 <= i < |bs| && bs[i].ToolUse? :: bs[i].id
  }

  function ResultsOf(bs: seq<UserBlock>): set<string> {
    set i | 0 <= i < |bs| && bs[i].ToolResult? :: bs[i].toolUseId
  }

  function CallsOn(line: Line): set<string> {
    if line.Parsed? && line.entry.body.AgentBody? then CallsOf(line.entry.body.blocks) else {}
  }

  function ResultsOn(line: Line): set<string> {
    if line.Parsed? && line.entry.body.UserBody? && line.entry.body.content.BlockList?
    then ResultsOf(line.entry.body.content.blocks) else {}
  }

  /** The tool calls of these lines, and the calls they hold results for. */
  function CallIds(lines: seq<Line>): set<string> {
    set i, id | 0 <= i < |lines| && id in CallsOn(lines[i]) :: id
  }

  function AnsweredIds(lines: seq<Line>): set<string> {
    set i, id | 0 <= i < |lines| && id in ResultsOn(lines[i]) :: id
  }

  predicate AgentSpeaks(line: Line) {
    line.Parsed? && line.entry.body.AgentBody?
  }

  /** Between a call and its result stand the other entries of its run and then other results. */
  ghost predicate RunThenResults(lines: seq<Line>, i: int, j: int)
    requires 0 <= i && j <= |lines|
  {
    && (forall p :: i < p < j && Conversational(lines[p]) ==> AgentSpeaks(lines[p]) || ResultsOn(lines[p]) != {})
    && (forall p, q :: i < p < q < j && ResultsOn(lines[p]) != {} ==> !AgentSpeaks(lines[q]))
  }

  ghost predicate Answers(lines: seq<Line>, i: int, j: int, id: string) {
    0 <= i < |lines| && 0 <= j < |lines| && id in CallsOn(lines[i]) && id in ResultsOn(lines[j])
  }

  /** The results of a run of assistant entries follow it directly, each call has at most one, and there
      are none without a call. */
  ghost predicate Tidy(lines: seq<Line>) {
    && (forall i, j, id {:trigger Answers(lines, i, j, id)} :: Answers(lines, i, j, id) ==> i < j && RunThenResults(lines, i, j))
    && (forall j, id {:trigger id in ResultsOn(lines[j])} :: 0 <= j < |lines| && id in ResultsOn(lines[j]) ==>
          exists i :: Answers(lines, i, j, id))
    && (forall j, j', id {:trigger id in ResultsOn(lines[j]), id in ResultsOn(lines[j'])} ::
          0 <= j < |lines| && 0 <= j' < |lines| && id in ResultsOn(lines[j]) && id in ResultsOn(lines[j']) ==> j == j')
  }

  /** The kept part ends in the middle of a run that has made a call. */
  ghost predicate CutInRun(lines: seq<Line>, k: nat)
    requires k <= |lines|
  {
    exists i {:trigger CallsOn(lines[i])} :: 0 <= i < k && CallsOn(lines[i]) != {} && RunFrom(lines, i, k)
  }

  /** Nothing but assistant entries is said between `i` and `k`. */
  ghost predicate RunFrom(lines: seq<Line>, i: int, k: int)
    requires 0 <= i && k <= |lines|
  {
    forall p :: i < p < k && Conversational(lines[p]) ==> AgentSpeaks(lines[p])
  }

  /** The first conversational entry at or after `k`. */
  ghost predicate NextSaid(lines: seq<Line>, k: nat, q: int) {
    k <= q < |lines| && Conversational(lines[q]) && forall p :: k <= p < q ==> !Conversational(lines[p])
  }

  /** The conversational entry right after the cut holds a result for a call that was kept. */
  ghost predicate CutBeforeResult(lines: seq<Line>, k: nat)
    requires k <= |lines|
  {
    exists q, id :: NextSaid(lines, k, q) && id in ResultsOn(lines[q]) && id in CallIds(lines[..k])
  }

  lemma KeptCall(lines: seq<Line>, k: nat, id: string)
    requires k <= |lines|
    ensures id in CallIds(lines[..k]) <==> exists i :: 0 <= i < k && id in CallsOn(lines[i])
    ensures id in AnsweredIds(lines[..k]) <==> exists j :: 0 <= j < k && id in ResultsOn(lines[j])
  {
    if id in CallIds(lines[..k]) {
      var i :| 0 <= i < k && id in CallsOn(lines[..k][i]);
      assert id in CallsOn(lines[i]);
    }
    if i :| 0 <= i < k && id in CallsOn(lines[i]) {
      assert id in CallsOn(lines[..k][i]);
    }
    if id in AnsweredIds(lines[..k]) {
      var j :| 0 <= j < k && id in ResultsOn(lines[..k][j]);
      assert id in ResultsOn(lines[j]);
    }
    if j :| 0 <= j < k && id in ResultsOn(lines[j]) {
      assert id in ResultsOn(lines[..k][j]);
    }
  }

  lemma WholeFile(lines: seq<Line>, id: string)
    ensures id in AnsweredIds(lines) ==> exists j :: 0 <= j < |lines| && id in ResultsOn(lines[j])
  {
  }

  lemma FirstSaid(lines: seq<Line>, k: nat, j: int) returns (q: int)
    requires k <= j < |lines| && Conversational(lines[j])
    ensures NextSaid(lines, k, q) && q <= j
  {
    q := k;
    while !Conversational(lines[q])
      invariant k <= q <= j && forall p :: k <= p < q ==> !Conversational(lines[p])
      decreases j - q
    {
      q := q + 1;
    }
  }

  /** A call kept without its result is in a run that was cut, or the next entry is one of the results
      that were to follow. */
  lemma OpenCallShows(lines: seq<Line>, k: nat, i: int, j: int, id: string)
    requires Tidy(lines) && Answers(lines, i, j, id) && i < k <= j
    ensures CutInRun(lines, k) || CutBeforeResult(lines, k)
  {
    assert RunThenResults(lines, i, j);
    var q := FirstSaid(lines, k, j);
    if q == j {
      KeptCall(lines, k, id);
      assert NextSaid(lines, k, q) && id in ResultsOn(lines[q]);
    } else if AgentSpeaks(lines[q]) {
      assert RunFrom(lines, i, k);
      assert CallsOn(lines[i]) != {};
    } else {
      var other :| other in ResultsOn(lines[q]);
      var c :| Answers(lines, c, q, other);
      CallIsConversational(lines[c]);
      KeptCall(lines, k, other);
      assert NextSaid(lines, k, q) && other in ResultsOn(lines[q]);
    }
  }

  lemma CallIsConversational(line: Line)
    ensures CallsOn(line) != {} ==> Conversational(line) && AgentSpeaks(line) && ResultsOn(line) == {}
    ensures ResultsOn(line) != {} ==> Conversational(line) && !AgentSpeaks(line)
  {
  }

  lemma CutRunIsOpen(lines: seq<Line>, k: nat)
    requires Tidy(lines) && k <= |lines| && CutInRun(lines, k)
    ensures exists id :: id in CallIds(lines[..k]) && id !in AnsweredIds(lines[..k])
  {
    var i :| 0 <= i < k && CallsOn(lines[i]) != {} && RunFrom(lines, i, k);
    var id :| id in CallsOn(lines[i]);
    KeptCall(lines, k, id);
    if id in AnsweredIds(lines[..k]) {
      var j :| 0 <= j < k && id in ResultsOn(lines[j]);
      assert Answers(lines, i, j, id);
      CallIsConversational(lines[j]);
      assert false;
    }
  }

  lemma ResultOnce(lines: seq<Line>, j: int, j': int, id: string)
    requires Tidy(lines) && 0 <= j < |lines| && 0 <= j' < |lines|
    ensures id in ResultsOn(lines[j]) && id in ResultsOn(lines[j']) ==> j == j'
  {
  }

  lemma CutResultIsOpen(lines: seq<Line>, k: nat)
    requires Tidy(lines) && k <= |lines| && CutBeforeResult(lines, k)
    ensures exists id :: id in CallIds(lines[..k]) && id !in AnsweredIds(lines[..k])
  {
    var q, id :| NextSaid(lines, k, q) && id in ResultsOn(lines[q]) && id in CallIds(lines[..k]);
    KeptCall(lines, k, id);
    if id in AnsweredIds(lines[..k]) {
      var j :| 0 <= j < k && id in ResultsOn(lines[j]);
      ResultOnce(lines, j, q, id);
    }
  }

  /** Where results follow their calls directly, a kept part of which every call has a result in the file
      holds them all exactly when it does not end inside a run that has made a call, and the
      entry after it holds no result for a call of its. */
  lemma CutIsAnsweredExactly(lines: seq<Line>, k: nat)
    requires Tidy(lines) && k <= |lines| && CallIds(lines[..k]) <= AnsweredIds(lines)
    ensures CallIds(lines[..k]) <= AnsweredIds(lines[..k]) <==> !CutInRun(lines, k) && !CutBeforeResult(lines, k)
  {
    if CutInRun(lines, k) { CutRunIsOpen(lines, k); }
    if CutBeforeResult(lines, k) { CutResultIsOpen(lines, k); }
    if id :| id in CallIds(lines[..k]) && id !in AnsweredIds(lines[..k]) {
      KeptCall(lines, k, id);
      WholeFile(lines, id);
      var i :| 0 <= i < k && id in CallsOn(lines[i]);
      var j :| 0 <= j < |lines| && id in ResultsOn(lines[j]);
      assert Answers(lines, i, j, id);
      OpenCallShows(lines, k, i, j, id);
    }
  }

  /** From its first call on, every entry of a run ends in a call. */
  ghost predicate CallsComeLast(lines: seq<Line>) {
    forall i, p {:trigger RunFrom(lines, i, p)} ::
      0 <= i <= p < |lines| && CallsOn(lines[i]) != {} && RunFrom(lines, i, p) && AgentSpeaks(lines[p]) ==> Dangling(lines[p])
  }

  lemma TrimmedLeavesRuns(lines: seq<Line>, n: nat, k: nat)
    requires n <= |lines| && LongestResumable(lines[..n], k) && CallsComeLast(lines)
    ensures !CutInRun(lines, k)
  {
    if CutInRun(lines, k) {
      var i :| 0 <= i < k && CallsOn(lines[i]) != {} && RunFrom(lines, i, k);
      CallIsConversational(lines[i]);
      assert Resumable(lines[..n][k - 1]);
      assert RunFrom(lines, i, k - 1);
    }
  }

  /** Main result: what trimming keeps holds a result for each of its calls exactly when the conversational
      entry right after the cut holds no result for one of them. */
  lemma TrimmedIsAnsweredExactly(lines: seq<Line>, n: nat, k: nat)
    requires n <= |lines| && LongestResumable(lines[..n], k)
    requires Tidy(lines) && CallsComeLast(lines) && CallIds(lines[..k]) <= AnsweredIds(lines)
    ensures CallIds(lines[..k]) <= AnsweredIds(lines[..k]) <==> !CutBeforeResult(lines, k)
  {
    TrimmedLeavesRuns(lines, n, k);
    CutIsAnsweredExactly(lines, k);
  }

  /** A call, a text and a second call in one run, and then the two results. */
  ghost predicate TextInRun(lines: seq<Line>, a: string, b: string) {
    && |lines| == 5 && a != b
    && CallsOn(lines[0]) == {a} && CallsOn(lines[2]) == {b}
    && AgentSpeaks(lines[1]) && Resumable(lines[1]) && CallsOn(lines[1]) == {}
    && ResultsOn(lines[3]) == {a} && ResultsOn(lines[4]) == {b}
  }

  lemma TextInRunLines(lines: seq<Line>, a: string, b: string)
    requires TextInRun(lines, a, b)
    ensures forall i :: 0 <= i < 3 ==> AgentSpeaks(lines[i]) && ResultsOn(lines[i]) == {}
    ensures forall j :: 3 <= j < 5 ==> Conversational(lines[j]) && !AgentSpeaks(lines[j]) && CallsOn(lines[j]) == {}
  {
    forall i | 0 <= i < 5
      ensures i < 3 ==> AgentSpeaks(lines[i]) && ResultsOn(lines[i]) == {}
      ensures i >= 3 ==> Conversational(lines[i]) && !AgentSpeaks(lines[i]) && CallsOn(lines[i]) == {}
    {
      CallIsConversational(lines[i]);
    }
  }

  lemma TextInRunAnswers(lines: seq<Line>, a: string, b: string, i: int, j: int, id: string)
    requires TextInRun(lines, a, b)
    ensures Answers(lines, i, j, id) <==> (i, j, id) in {(0, 3, a), (2, 4, b)}
  {
    TextInRunLines(lines, a, b);
  }

  lemma TextInRunIsTidy(lines: seq<Line>, a: string, b: string)
    requires TextInRun(lines, a, b)
    ensures Tidy(lines)
  {
    TextInRunLines(lines, a, b);
    TextInRunAnswers(lines, a, b, 0, 3, a);
    TextInRunAnswers(lines, a, b, 2, 4, b);
    forall i, j, id | Answers(lines, i, j, id) ensures i < j && RunThenResults(lines, i, j) {
      TextInRunAnswers(lines, a, b, i, j, id);
    }
    forall j, id | 0 <= j < 5 && id in ResultsOn(lines[j]) ensures (j, id) in {(3, a), (4, b)} {
    }
  }

  /** Why runs must end in their calls: a text between two calls is kept as resumable, and the entry after
      the cut, the second call, shows nothing of the first one, which stays open. */
  lemma TextInRunStaysOpen(lines: seq<Line>, a: string, b: string)
    requires TextInRun(lines, a, b)
    ensures Tidy(lines) && LongestResumable(lines[..2], 2) && !CutBeforeResult(lines, 2)
    ensures a in CallIds(lines[..2]) && a !in AnsweredIds(lines[..2])
  {
    TextInRunIsTidy(lines, a, b);
    TextInRunLines(lines, a, b);
    KeptCall(lines, 2, a);
    assert Conversational(lines[2]);
  }

  /** Calls made one entry at a time: the entry ends in its call, and the next one said holds its results. */
  ghost predicate OneAtATime(lines: seq<Line>) {
    forall i {:trigger CallsOn(lines[i])} :: 0 <= i < |lines| && CallsOn(lines[i]) != {} ==>
      && Dangling(lines[i])
      && (forall q :: NextSaid(lines, i + 1, q) ==> CallsOn(lines[i]) <= ResultsOn(lines[q]))
  }

  lemma SingleCallIsAnswered(lines: seq<Line>, i: int, k: nat, id: string)
    requires OneAtATime(lines) && 0 <= i < k <= |lines| && Resumable(lines[k - 1]) && id in CallsOn(lines[i])
    ensures exists q :: 0 <= q < k && id in ResultsOn(lines[q])
  {
    assert CallsOn(lines[i]) != {};
    var q := FirstSaid(lines, i + 1, k - 1);
    assert id in ResultsOn(lines[q]);
  }

  /** Then trimming always leaves a file in which every call has its result, wherever the target is. */
  lemma SingleCallsStayAnswered(lines: seq<Line>, n: nat, k: nat)
    requires n <= |lines| && LongestResumable(lines[..n], k) && OneAtATime(lines)
    ensures CallIds(lines[..k]) <= AnsweredIds(lines[..k])
  {
    forall id | id in CallIds(lines[..k]) ensures id in AnsweredIds(lines[..k]) {
      KeptCall(lines, k, id);
      var i :| 0 <= i < k && id in CallsOn(lines[i]);
      assert Resumable(lines[..n][k - 1]);
      SingleCallIsAnswered(lines, i, k, id);
    }
  }

  /** Trimming looks at the last block of the last entry only. Two calls made side by side, of which one
      has its result, are kept as resumable though the other call is left without. */
  lemma SideBySideCallsStayOpen(call: Line, result: Line, answered: string, other: string)
    requires CallsOn(call) == {answered, other} && answered != other
    requires Conversational(result) && ResultsOn(result) == {answered} && !Dangling(result)
    requires ResultsOn(call) == {}
    ensures LongestResumable([call, result], 2)
    ensures other in CallIds([call, result]) && other !in AnsweredIds([call, result])
  {
    assert [call, result][0] == call && [call, result][1] == result;
  }

  lemma NoneIsLonger(lines: seq<Line>, a: nat, b: nat)
    requires LongestResumable(lines, a) && LongestResumable(lines, b)
    ensures b <= a
  {
    if b > 0 {
      assert Resumable(lines[b - 1]);
    }
  }

  // ---- The new session id ----

  function WithSession(line: Line, sid: string): Line {
    match line
    case Unparsed(_) => line
    case Parsed(e) =>
      Parsed(e.(sessionId := if e.sessionId.Some? then Some(sid) else None,
                sessionIdSnake := if e.sessionIdSnake.Some? then Some(sid) else None))
  }

  function WithSessions(lines: seq<Line>, sid: string): (r: seq<Line>)
    ensures |r| == |lines|
  {
    seq(|lines|, i requires 0 <= i < |lines| => WithSession(lines[i], sid))
  }

  /** The line belongs to the new session wherever it named one, and is otherwise as it was. */
  predicate Readdressed(line: Line, out: Line, sid: string) {
    match line
    case Unparsed(_) => out == line
    case Parsed(e) =>
      && out.Parsed?
      && (e.sessionId != None ==> out.entry.sessionId == Some(sid))
      && (e.sessionId == None ==> out.entry.sessionId == None)
      && (e.sessionIdSnake != None ==> out.entry.sessionIdSnake == Some(sid))
      && (e.sessionIdSnake == None ==> out.entry.sessionIdSnake == None)
      && out.entry.uuid == e.uuid && out.entry.parentUuid == e.parentUuid && out.entry.timestamp == e.timestamp
      && out.entry.fields == e.fields && out.entry.body == e.body
  }

  ghost predicate AllReaddressed(lines: seq<Line>, out: seq<Line>, sid: string) {
    |out| == |lines| && forall i :: 0 <= i < |lines| ==> Readdressed(lines[i], out[i], sid)
  }

  method RewriteSessionId(lines: seq<Line>, sid: string) returns (out: seq<Line>)
    ensures AllReaddressed(lines, out, sid)
    ensures out == WithSessions(lines, sid)
  {
    out := [];
    for i := 0 to |lines|
      invariant out == WithSessions(lines[..i], sid)
    {
      assert lines[..i + 1][..i] == lines[..i];
      var line := lines[i];
      if line.Parsed? {
        var e := line.entry;
        if e.sessionId.Some? { e := e.(sessionId := Some(sid)); }
        if e.sessionIdSnake.Some? { e := e.(sessionIdSnake := Some(sid)); }
        line := Parsed(e);
      }
      out := out + [line];
    }
    assert lines[..|lines|] == lines;
  }

  // ---- The closing marker ----

  function LastUuid(lines: seq<Line>): Option<string> {
    if lines == [] then None
    else
      var last := lines[|lines| - 1];
      if last.Parsed? && Truthy(last.entry.uuid) then last.entry.uuid else LastUuid(lines[..|lines| - 1])
  }

  function LastField(lines: seq<Line>, f: Field): Option<string> {
    if lines == [] then None
    else
      var last := lines[|lines| - 1];
      if last.Parsed? && f in last.entry.fields then Some(last.entry.fields[f]) else LastField(lines[..|lines| - 1], f)
  }

  const ALL_FIELDS: set<Field> := {Cwd, GitBranch, Version, UserType, Entrypoint}

  function LastFields(lines: seq<Line>): map<Field, string> {
    map f | f in ALL_FIELDS && LastField(lines, f).Some? :: LastField(lines, f).value
  }

  function InterruptLine(parent: Option<string>, inherited: map<Field, string>, sid: string, uuid: string,
                         time: string): Line
  {
    Parsed(Entry(Some(uuid), parent, Some(time), Some(sid), None, inherited,
                 UserBody(false, BlockList([UserText(INTERRUPT_TEXT)]))))
  }

  lemma {:induction false} FromTheBack(lines: seq<Line>, i: nat, f: Field)
    requires i <= |lines|
    ensures LastUuid(lines) == if LastUuid(lines[i..]).Some? then LastUuid(lines[i..]) else LastUuid(lines[..i])
    ensures LastField(lines, f)
            == if LastField(lines[i..], f).Some? then LastField(lines[i..], f) else LastField(lines[..i], f)
    decreases |lines| - i, 1
  {
    if i == |lines| {
      assert lines[..i] == lines;
    } else {
      var init := lines[..|lines| - 1];
      assert lines[i..][..|lines[i..]| - 1] == init[i..];
      assert init[..i] == lines[..i];
      FromTheBackInit(lines, init, i, f);
    }
  }

  lemma FromTheBackInit(lines: seq<Line>, init: seq<Line>, i: nat, f: Field)
    requires i < |lines| && init == lines[..|lines| - 1]
    requires lines[i..][..|lines[i..]| - 1] == init[i..] && init[..i] == lines[..i]
    ensures LastUuid(lines) == if LastUuid(lines[i..]).Some? then LastUuid(lines[i..]) else LastUuid(lines[..i])
    ensures LastField(lines, f)
            == if LastField(lines[i..], f).Some? then LastField(lines[i..], f) else LastField(lines[..i], f)
    decreases |lines| - i, 0
  {
    FromTheBack(init, i, f);
  }

  /** One more line in front: it counts only for what the lines after it lack. */
  lemma InFront(lines: seq<Line>, i: nat, f: Field)
    requires i < |lines|
    ensures LastUuid(lines[i..])
            == if LastUuid(lines[i + 1..]).Some? then LastUuid(lines[i + 1..])
               else if lines[i].Parsed? && Truthy(lines[i].entry.uuid) then lines[i].entry.uuid else None
    ensures LastField(lines[i..], f)
            == if LastField(lines[i + 1..], f).Some? then LastField(lines[i + 1..], f)
               else if lines[i].Parsed? && f in lines[i].entry.fields then Some(lines[i].entry.fields[f]) else None
  {
    FromTheBack(lines[i..], 1, f);
    assert lines[i..][1..] == lines[i + 1..];
    assert lines[i..][..1] == [lines[i]];
    assert [lines[i]][..0] == [];
  }

  lemma EveryField(f: Field)
    ensures f in ALL_FIELDS
  {
    match f
    case Cwd =>
    case GitBranch =>
    case Version =>
    case UserType =>
    case Entrypoint =>
  }

  lemma FiveIsAll(keys: set<Field>)
    requires |keys| == 5
    ensures forall f: Field :: f in keys
  {
    forall f: Field ensures f in ALL_FIELDS { EveryField(f); }
    assert keys <= ALL_FIELDS && |ALL_FIELDS| == 5;
    assert |ALL_FIELDS - keys| == 0;
    forall f: Field ensures f in keys {
      EveryField(f);
      assert f !in ALL_FIELDS - keys;
    }
  }

  method InheritFrom(inherited: map<Field, string>, e: Entry) returns (r: map<Field, string>)
    ensures forall f :: f in r <==> f in inherited || f in e.fields
    ensures forall f :: f in r ==> r[f] == if f in inherited then inherited[f] else e.fields[f]
  {
    r := inherited;
    var order := [Cwd, GitBranch, Version, UserType, Entrypoint];
    for k := 0 to 5
      invariant forall f :: f in r <==> f in inherited || (f in e.fields && f in order[..k])
      invariant forall f :: f in r ==> r[f] == if f in inherited then inherited[f] else e.fields[f]
    {
      assert order[..k + 1] == order[..k] + [order[k]];
      if order[k] !in r && order[k] in e.fields {
        r := r[order[k] := e.fields[order[k]]];
      }
    }
    assert order[..5] == order;
    forall f: Field ensures f in order {
      EveryField(f);
      assert order[0] == Cwd && order[1] == GitBranch && order[2] == Version && order[3] == UserType
             && order[4] == Entrypoint;
    }
  }

  ghost predicate FieldsOf(inherited: map<Field, string>, lines: seq<Line>) {
    forall f: Field :: (f in inherited <==> LastField(lines, f).Some?)
                       && (f in inherited ==> LastField(lines, f) == Some(inherited[f]))
  }

  lemma FieldsAreLast(inherited: map<Field, string>, lines: seq<Line>)
    requires FieldsOf(inherited, lines)
    ensures inherited == LastFields(lines)
  {
    forall f: Field ensures f in ALL_FIELDS { EveryField(f); }
    assert forall f :: f in inherited <==> f in LastFields(lines);
  }

  lemma NothingMissing(inherited: map<Field, string>, lines: seq<Line>, i: nat)
    requires i <= |lines| && FieldsOf(inherited, lines[i..])
    requires |inherited| == 5 || i == 0
    ensures FieldsOf(inherited, lines)
  {
    if i == 0 {
      assert lines[0..] == lines;
    } else {
      assert |inherited.Keys| == 5;
      FiveIsAll(inherited.Keys);
      forall f: Field
        ensures f in inherited && LastField(lines, f) == Some(inherited[f])
      {
        assert f in inherited.Keys;
        FromTheBack(lines, i, f);
      }
    }
  }

  /** Reads the kept lines from the end, and stops once there is nothing left to find. */
  method MakeInterruptLine(kept: seq<Line>, sid: string, uuid: string, time: string) returns (line: Line)
    ensures line == InterruptLine(LastUuid(kept), LastFields(kept), sid, uuid, time)
  {
    var parent: Option<string> := None;
    var inherited: map<Field, string> := map[];
    var i := |kept|;
    assert kept[i..] == [];
    while i > 0
      invariant 0 <= i <= |kept|
      invariant parent == LastUuid(kept[i..]) && (parent.Some? ==> Truthy(parent))
      invariant FieldsOf(inherited, kept[i..])
    {
      i := i - 1;
      forall f: Field ensures LastField(kept[i..], f)
            == if LastField(kept[i + 1..], f).Some? then LastField(kept[i + 1..], f)
               else if kept[i].Parsed? && f in kept[i].entry.fields then Some(kept[i].entry.fields[f]) else None
      {
        InFront(kept, i, f);
      }
      InFront(kept, i, Cwd);
      if kept[i].Unparsed? { continue; }
      var e := kept[i].entry;
      if parent.None? && Truthy(e.uuid) { parent := e.uuid; }
      inherited := InheritFrom(inherited, e);
      if Truthy(parent) && |inherited| == 5 { break; }
    }
    FromTheBack(kept, i, Cwd);
    if i == 0 { assert kept[0..] == kept; }
    NothingMissing(inherited, kept, i);
    FieldsAreLast(inherited, kept);
    line := InterruptLine(parent, inherited, sid, uuid, time);
  }

  // ---- Forking ----

  /** The first entry with the target's id, if any. */
  ghost predicate FirstTarget(lines: seq<Line>, target: string, i: nat) {
    i < |lines| && IsTarget(lines[i], target) && forall j :: 0 <= j < i ==> !IsTarget(lines[j], target)
  }

  /** `k` is what a fork keeps: the longest resumable prefix up to the target, with or without it. */
  ghost predicate Keeps(lines: seq<Line>, target: string, inclusive: bool, k: nat) {
    exists i: nat :: FirstTarget(lines, target, i) && KeepsUpTo(lines, i, inclusive, k)
  }

  ghost predicate KeepsUpTo(lines: seq<Line>, i: nat, inclusive: bool, k: nat)
    requires i < |lines|
  {
    0 < k && LongestResumable(if inclusive then lines[..i + 1] else lines[..i], k)
  }

  function Forked(kept: seq<Line>, sid: string, uuid: string, time: string): seq<Line> {
    var out := WithSessions(kept, sid);
    out + [InterruptLine(LastUuid(out), LastFields(out), sid, uuid, time)]
  }

  predicate WithoutId(line: Line) {
    line.Parsed? ==> line.entry.uuid == None || line.entry.uuid == Some("")
  }

  /** `parent` is the id of the last line that has one that is not empty. */
  ghost predicate LastId(lines: seq<Line>, parent: Option<string>) {
    if parent == None then forall i :: 0 <= i < |lines| ==> WithoutId(lines[i])
    else
      exists i {:trigger lines[i]} :: 0 <= i < |lines| && lines[i].Parsed? && !WithoutId(lines[i]) && lines[i].entry.uuid == parent
        && forall j :: i < j < |lines| ==> WithoutId(lines[j])
  }

  /** `value` is what the last line that carries the field says. */
  ghost predicate LastValue(lines: seq<Line>, f: Field, value: Option<string>) {
    if value == None then forall i :: 0 <= i < |lines| && lines[i].Parsed? ==> f !in lines[i].entry.fields
    else
      exists i {:trigger lines[i]} :: 0 <= i < |lines| && lines[i].Parsed? && f in lines[i].entry.fields
        && Some(lines[i].entry.fields[f]) == value
        && forall j :: i < j < |lines| && lines[j].Parsed? ==> f !in lines[j].entry.fields
  }

  /** A user's entry with the interrupt text, of the new session, that continues the kept lines. */
  ghost predicate ClosesFork(line: Line, kept: seq<Line>, sid: string, uuid: string, time: string) {
    && line.Parsed? && line.entry.body == UserBody(false, BlockList([UserText("[Request interrupted by user]")]))
    && line.entry.uuid == Some(uuid) && line.entry.timestamp == Some(time)
    && line.entry.sessionId == Some(sid) && line.entry.sessionIdSnake == None
    && LastId(kept, line.entry.parentUuid)
    && forall f: Field :: LastValue(kept, f, if f in line.entry.fields then Some(line.entry.fields[f]) else None)
  }

  ghost predicate IsFork(out: seq<Line>, kept: seq<Line>, sid: string, uuid: string, time: string) {
    && |out| == |kept| + 1
    && (forall i :: 0 <= i < |kept| ==> Readdressed(kept[i], out[i], sid))
    && ClosesFork(out[|kept|], kept, sid, uuid, time)
  }

  lemma LastIdGrows(lines: seq<Line>, line: Line, parent: Option<string>)
    requires LastId(lines, parent) && WithoutId(line)
    ensures LastId(lines + [line], parent)
  {
    var all := lines + [line];
    assert all[|lines|] == line;
    if parent != None {
      var i :| 0 <= i < |lines| && lines[i].Parsed? && !WithoutId(lines[i]) && lines[i].entry.uuid == parent
               && forall j :: i < j < |lines| ==> WithoutId(lines[j]);
      assert all[i] == lines[i];
      forall j | i < j < |all| ensures WithoutId(all[j]) {
        assert j < |lines| ==> all[j] == lines[j];
      }
    }
  }

  lemma {:induction false} LastIdIs(lines: seq<Line>)
    ensures LastId(lines, LastUuid(lines))
  {
    if lines != [] {
      var init, last := lines[..|lines| - 1], lines[|lines| - 1];
      LastIdIs(init);
      if WithoutId(last) {
        LastIdGrows(init, last, LastUuid(init));
        SplitLast(lines);
      } else {
        assert lines[|lines| - 1] == last;
      }
    }
  }

  lemma {:induction false} LastValueIs(lines: seq<Line>, f: Field)
    ensures LastValue(lines, f, LastField(lines, f))
  {
    if lines != [] {
      var n := |lines| - 1;
      LastValueIs(lines[..n], f);
      if !(lines[n].Parsed? && f in lines[n].entry.fields) && LastField(lines[..n], f) != None {
        var i :| 0 <= i < n && lines[..n][i].Parsed? && f in lines[..n][i].entry.fields
                 && Some(lines[..n][i].entry.fields[f]) == LastField(lines, f)
                 && forall j :: i < j < n && lines[..n][j].Parsed? ==> f !in lines[..n][j].entry.fields;
        assert lines[i] == lines[..n][i];
        forall j | i < j < |lines| && lines[j].Parsed? ensures f !in lines[j].entry.fields {
          if j < n { assert lines[..n][j] == lines[j]; }
        }
      } else if LastField(lines, f) == None {
        forall i | 0 <= i < |lines| && lines[i].Parsed? ensures f !in lines[i].entry.fields {
          if i < n { assert lines[..n][i] == lines[i]; }
        }
      }
    }
  }

  lemma TailIgnoresSession(lines: seq<Line>, sid: string)
    ensures LastUuid(WithSessions(lines, sid)) == LastUuid(lines)
    ensures LastFields(WithSessions(lines, sid)) == LastFields(lines)
  {
    forall f ensures LastField(WithSessions(lines, sid), f) == LastField(lines, f) {
      FieldIgnoresSession(lines, sid, f);
    }
    UuidIgnoresSession(lines, sid);
  }

  lemma {:induction false} UuidIgnoresSession(lines: seq<Line>, sid: string)
    ensures LastUuid(WithSessions(lines, sid)) == LastUuid(lines)
  {
    if lines != [] {
      UuidIgnoresSession(lines[..|lines| - 1], sid);
      assert WithSessions(lines, sid)[..|lines| - 1] == WithSessions(lines[..|lines| - 1], sid);
    }
  }

  lemma {:induction false} FieldIgnoresSession(lines: seq<Line>, sid: string, f: Field)
    ensures LastField(WithSessions(lines, sid), f) == LastField(lines, f)
  {
    if lines != [] {
      FieldIgnoresSession(lines[..|lines| - 1], sid, f);
      assert WithSessions(lines, sid)[..|lines| - 1] == WithSessions(lines[..|lines| - 1], sid);
    }
  }

  /** The fork is the kept lines in the new session, otherwise unchanged, and one marker that continues them. */
  lemma ForkBelongsToNewSession(kept: seq<Line>, sid: string, uuid: string, time: string)
    ensures IsFork(Forked(kept, sid, uuid, time), kept, sid, uuid, time)
  {
    TailIgnoresSession(kept, sid);
    LastIdIs(kept);
    var marker := Forked(kept, sid, uuid, time)[|kept|];
    forall f: Field ensures LastValue(kept, f, if f in marker.entry.fields then Some(marker.entry.fields[f]) else None) {
      EveryField(f);
      LastValueIs(kept, f);
    }
  }

  method ForkSessionLines(lines: seq<Line>, target: string, inclusive: bool, sid: string, uuid: string, time: string)
    returns (r: Option<seq<Line>>)
    ensures r.Some? ==> exists k: nat :: k <= |lines| && Keeps(lines, target, inclusive, k)
                                    && r.value == Forked(lines[..k], sid, uuid, time)
                                    && IsFork(r.value, lines[..k], sid, uuid, time)
    ensures r.None? <==> !exists k: nat :: Keeps(lines, target, inclusive, k)
  {
    var idx := FindUuidIndex(lines, target);
    if idx < 0 {
      forall k: nat ensures !Keeps(lines, target, inclusive, k) {}
      return None;
    }
    var cut := if inclusive then lines[..idx + 1] else lines[..idx];
    var kept := TrimDanglingTail(cut);
    assert FirstTarget(lines, target, idx);
    assert |kept| > 0 ==> Conversational(kept[|kept| - 1]);
    if !exists i :: 0 <= i < |kept| && Conversational(kept[i]) {
      forall k: nat ensures !Keeps(lines, target, inclusive, k) {
        forall i: nat | FirstTarget(lines, target, i) ensures !KeepsUpTo(lines, i, inclusive, k) {
          assert i == idx;
          if LongestResumable(cut, k) { NoneIsLonger(cut, |kept|, k); }
        }
      }
      return None;
    }
    assert KeepsUpTo(lines, idx, inclusive, |kept|);
    assert Keeps(lines, target, inclusive, |kept|);
    assert kept == lines[..|kept|];
    var out := RewriteSessionId(kept, sid);
    var marker := MakeInterruptLine(out, sid, uuid, time);
    r := Some(out + [marker]);
    assert r.value == Forked(lines[..|kept|], sid, uuid, time);
    ForkBelongsToNewSession(lines[..|kept|], sid, uuid, time);
  }

  /** New ids and the marker make and answer no call. */
  lemma SameOnFork(kept: seq<Line>, sid: string, uuid: string, time: string, i: nat)
    requires i <= |kept|
    ensures var out := Forked(kept, sid, uuid, time);
            if i < |kept| then CallsOn(out[i]) == CallsOn(kept[i]) && ResultsOn(out[i]) == ResultsOn(kept[i])
            else CallsOn(out[i]) == {} && ResultsOn(out[i]) == {}
  {
  }

  lemma ForkKeepsCalls(kept: seq<Line>, sid: string, uuid: string, time: string)
    ensures CallIds(Forked(kept, sid, uuid, time)) == CallIds(kept)
    ensures AnsweredIds(Forked(kept, sid, uuid, time)) == AnsweredIds(kept)
  {
    var out := Forked(kept, sid, uuid, time);
    forall i: nat | i <= |kept|
      ensures if i < |kept| then CallsOn(out[i]) == CallsOn(kept[i]) && ResultsOn(out[i]) == ResultsOn(kept[i])
              else CallsOn(out[i]) == {} && ResultsOn(out[i]) == {}
    {
      SameOnFork(kept, sid, uuid, time, i);
    }
    forall id | id in CallIds(kept) ensures id in CallIds(out) {
      var i :| 0 <= i < |kept| && id in CallsOn(kept[i]);
      assert id in CallsOn(out[i]);
    }
    forall id | id in AnsweredIds(kept) ensures id in AnsweredIds(out) {
      var i :| 0 <= i < |kept| && id in ResultsOn(kept[i]);
      assert id in ResultsOn(out[i]);
    }
  }

  /** So a fork can be resumed, with every call answered, exactly when the entry after its cut holds no
      result for one of its calls. */
  lemma ForkIsAnsweredExactly(lines: seq<Line>, target: string, inclusive: bool, k: nat, sid: string, uuid: string, time: string)
    requires k <= |lines| && Keeps(lines, target, inclusive, k)
    requires Tidy(lines) && CallsComeLast(lines) && CallIds(lines[..k]) <= AnsweredIds(lines)
    ensures var out := Forked(lines[..k], sid, uuid, time);
            CallIds(out) <= AnsweredIds(out) <==> !CutBeforeResult(lines, k)
  {
    var i: nat :| FirstTarget(lines, target, i) && KeepsUpTo(lines, i, inclusive, k);
    TrimmedIsAnsweredExactly(lines, if inclusive then i + 1 else i, k);
    ForkKeepsCalls(lines[..k], sid, uuid, time);
  }

  // ---- Forking and parsing ----

  /** The parser does not look at session ids. */
  lemma FeedIgnoresSession(st: State, line: Line, sid: string)
    requires Sound(st)
    ensures Feed(st, WithSession(line, sid)) == Feed(st, line)
  {
  }

  lemma {:induction false} FeedAllIgnoresSession(st: State, lines: seq<Line>, sid: string)
    requires Sound(st)
    ensures FeedAll(st, WithSessions(lines, sid)) == FeedAll(st, lines)
  {
    if lines != [] {
      var init := lines[..|lines| - 1];
      FeedAllIgnoresSession(st, init, sid);
      assert WithSessions(lines, sid)[..|lines| - 1] == WithSessions(init, sid);
      FeedIgnoresSession(FeedAll(st, init), lines[|lines| - 1], sid);
    }
  }

  lemma StartsElsewhere(s: string)
    requires s != "" && s[0] == '['
    ensures !CommandEcho(s) && !Injected(s)
  {
  }

  lemma LowerKeepsWord(s: string, w: string, i: nat)
    requires At(s, w, i) && forall k :: 0 <= k < |w| ==> LowerChar(w[k]) == w[k]
    ensures At(Lower(s), w, i)
  {
    var low := Lower(s);
    forall k | 0 <= k < |w| ensures low[i..i + |w|][k] == w[k] {
      assert s[i..i + |w|][k] == s[i + k];
    }
    assert low[i..i + |w|] == w;
  }

  lemma BracketedWordInterrupts(s: string, w: string, i: nat)
    requires s != "" && s[0] == '[' && s[|s| - 1] == ']'
    requires w == "interrupt" && At(s, w, i)
    ensures IsInterrupt(s)
  {
    LowerKeepsWord(s, w, i);
  }

  lemma MarkedTextIs(s: string, shown: string, w: string)
    requires s == "[" + shown + "]" && w == "interrupt" && At(s, w, 9)
    ensures Strip(s) == s && Classify(s) == InterruptMark && WithoutBrackets(s) == shown
  {
    StripTrimmed(s);
    StartsElsewhere(s);
    BracketedWordInterrupts(s, w, 9);
  }

  lemma InMiddle(a: string, w: string, b: string)
    ensures At(a + w + b, w, |a|)
  {
    assert (a + w + b)[|a|..|a| + |w|] == w;
  }

  lemma MarkerIsInterrupt(s: string)
    requires s == INTERRUPT_TEXT
    ensures Strip(s) == s && Classify(s) == InterruptMark && WithoutBrackets(s) == SHOWN_TEXT
  {
    var shown, w := SHOWN_TEXT, "interrupt";
    assert s == "[" + shown + "]";
    assert s == "[Request " + w + "ed by user]";
    InMiddle("[Request ", w, "ed by user]");
    MarkedTextIs(s, shown, w);
  }

  lemma MarkedBlocks(s: string, uuid: Option<string>, time: Option<string>)
    requires Strip(s) == s && Classify(s) == InterruptMark
    ensures UserTurnOf(Strip(Join(UserTexts([UserText(s)]), "\n")), uuid, time)
            == Some(SystemTurn(WithoutBrackets(s), Interrupt, Own(uuid), time))
  {
    var bs := [UserText(s)];
    assert bs[..0] == [];
    assert UserTexts(bs) == [s];
  }

  lemma MarkerTurn(s: string, uuid: Option<string>, time: Option<string>)
    requires s == INTERRUPT_TEXT
    ensures UserTurnOf(Strip(Join(UserTexts([UserText(s)]), "\n")), uuid, time)
            == Some(SystemTurn(SHOWN_TEXT, Interrupt, Own(uuid), time))
  {
    MarkerIsInterrupt(s);
    MarkedBlocks(s, uuid, time);
  }

  lemma FeedMarker(st: State, parent: Option<string>, inherited: map<Field, string>, sid: string, uuid: string, time: string)
    requires Sound(st)
    ensures Feed(st, InterruptLine(parent, inherited, sid, uuid, time))
            == Emit(st, Some(SystemTurn(SHOWN_TEXT, Interrupt, Own(Some(uuid)), Some(time))))
  {
    MarkerTurn(INTERRUPT_TEXT, Some(uuid), Some(time));
    assert !HasToolResult([UserText(INTERRUPT_TEXT)]);
  }

  /** Emitting a turn leaves nothing open. */
  lemma EmitSettles(st: State, turn: Turn)
    ensures FlushAll(Emit(st, Some(turn))) == Emit(st, Some(turn))
  {
  }

  /** Main result for forks: parsing the forked file gives exactly what parsing the kept lines
      gives, and then one interrupt turn. */
  lemma ForkCommutesWithParsing(kept: seq<Line>, sid: string, uuid: string, time: string)
    ensures var r := Parse(Forked(kept, sid, uuid, time));
            && r.turns == Parse(kept).turns + [SystemTurn(SHOWN_TEXT, Interrupt, Own(Some(uuid)), Some(time))]
            && r.cards == Parse(kept).cards
  {
    var out := WithSessions(kept, sid);
    var marker := InterruptLine(LastUuid(out), LastFields(out), sid, uuid, time);
    var turn := SystemTurn(SHOWN_TEXT, Interrupt, Own(Some(uuid)), Some(time));
    var st := FeedAll(START, kept);
    FeedAllIgnoresSession(START, kept, sid);
    assert (out + [marker])[..|out|] == out;
    FeedMarker(st, LastUuid(out), LastFields(out), sid, uuid, time);
    EmitSettles(st, turn);
    DedupKeepsLast(FlushAll(st).turns, turn);
  }

  /** What was settled where the fork was cut is history both share. */
  lemma ForkSharesHistory(lines: seq<Line>, k: nat, sid: string, uuid: string, time: string)
    requires k <= |lines|
    ensures Settled(lines[..k]) <= Parse(lines).turns
    ensures Settled(lines[..k]) <= Parse(Forked(lines[..k], sid, uuid, time)).turns
  {
    assert lines == lines[..k] + lines[k..];
    SettledTurnsAreStable(lines[..k], lines[k..]);
    OnlyTheTailIsOpen(lines[..k]);
    ForkCommutesWithParsing(lines[..k], sid, uuid, time);
  }
}
