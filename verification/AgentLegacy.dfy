/**
 What unwrapping does beyond the wrapper of today: text without one stays as it is, and the
 marker line, the insights and the history that older wrappers carried go with them.
 */
module AgentLegacy {
  import opened Collections
  import opened Strings
  import opened TextSearch
  import opened TaskPrompts
  import opened AgentPreamble

  // ---- Text that is not wrapped ----

  /** A text without the opening line, a marker or the closing line is returned as it is, blanks included. */
  lemma UnwrappedIsKept(s: string)
    requires !StartsWith(s, PROJECT) && !StartsWith(s, MARKER) && !StartsWith(s, OLD_MARKER)
    requires !EndsWith(s, CLOSING) && (s != "" && s[|s| - 1] == '\n' ==> !EndsWith(s[..|s| - 1], CLOSING))
    ensures StripAgentPreamble(s) == s
  {
    NoWrapper(s, PROJECT, PATH, CONVENTIONS);
    FrontStays(s);
    BackStays(s);
  }

  lemma FrontStays(s: string)
    requires !StartsWith(s, MARKER) && !StartsWith(s, OLD_MARKER) && TwoNames(s, 0, PROJECT, PATH, CONVENTIONS) == None
    ensures StripPreamble(s) == s
  {
  }

  lemma BackStays(s: string)
    requires !EndsWith(s, CLOSING) && (s != "" && s[|s| - 1] == '\n' ==> !EndsWith(s[..|s| - 1], CLOSING))
    ensures StripPostamble(s) == s
  {
  }

  lemma NoWrapper(s: string, p: string, q: string, c: string)
    requires !StartsWith(s, p)
    ensures TwoNames(s, 0, p, q, c) == None
  {
    assert s[..|s|] == s;
  }

  lemma NotWithin(t: string, rest: string, p: string)
    requires !Contains(t, p)
    ensures Find(t + rest, p) < 0 || Find(t + rest, p) + |p| > |t|
  {
    var i := Find(t + rest, p);
    if i >= 0 && i + |p| <= |t| {
      assert (t + rest)[i..i + |p|] == t[i..i + |p|];
      assert At(t, p, i);
    }
  }

  lemma CutAtClosing(s: string, t: string, end: string, i: string, c: string)
    requires s == t + (c + end) && c == CLOSING && i == INSIGHTS && !Contains(t, i) && ClosingAt(s) == Some(|t|)
    ensures StripPostamble(s) == t + end
  {
    NotWithin(t, c + end, i);
    assert s[|t| + |c|..] == end && s[..|t|] == t;
  }

  lemma ClosesBeforeNewline(s: string, t: string, c: string)
    requires s == t + (c + "\n") && c != "" && c[|c| - 1] != '\n'
    ensures !EndsWith(s, c) && s != "" && s[|s| - 1] == '\n' && EndsWith(s[..|s| - 1], c) && |s| - 1 - |c| == |t|
  {
    assert s[..|s| - 1] == t + c;
  }

  /** The closing line goes from the end of the text, and from before one last newline, which stays. */
  lemma ClosingIsCut(t: string)
    requires !Contains(t, INSIGHTS)
    ensures StripPostamble(t + (CLOSING + "")) == t + ""
    ensures StripPostamble(t + (CLOSING + "\n")) == t + "\n"
  {
    assert t + (CLOSING + "") == t + CLOSING && EndsWith(t + CLOSING, CLOSING);
    CutAtClosing(t + (CLOSING + ""), t, "", INSIGHTS, CLOSING);
    assert CLOSING[|CLOSING| - 1] == 'n';
    ClosesBeforeNewline(t + (CLOSING + "\n"), t, CLOSING);
    CutAtClosing(t + (CLOSING + "\n"), t, "\n", INSIGHTS, CLOSING);
  }

  // ---- The marker line ----

  lemma MarkerLineEnds(m: string, attrs: string, rest: string, n: nat)
    requires n == |m| && HasNo(attrs, '>') && HasNo(m, '>')
    ensures var s := m + (attrs + ("-->\n" + rest));
            var close := FindFrom(s, ">", n);
            close == n + |attrs| + 2 && At(s, "--", close - 2) && At(s, "\n", close + 1)
  {
    var s := m + (attrs + ("-->\n" + rest));
    var close := n + |attrs| + 2;
    assert s[close] == '>' && s[close - 2] == '-' && s[close - 1] == '-' && s[close + 1] == '\n';
    assert s[close..close + 1] == ">" && s[close - 2..close] == "--" && s[close + 1..close + 2] == "\n";
    forall j | n <= j < close ensures !At(s, ">", j) {
      assert s[j] != '>';
      OtherFirstChar(s, ">", j);
    }
    FoundAt(s, ">", n, close);
  }

  lemma MarkersAreOpen(m: string)
    requires m == MARKER || m == OLD_MARKER
    ensures HasNo(m, '>') && m != "" && m[0] == '<'
  {
  }

  lemma MarkerIsSkipped(m: string, attrs: string, rest: string)
    requires (m == MARKER || m == OLD_MARKER) && HasNo(attrs, '>')
    ensures MarkerEnd(m + (attrs + ("-->\n" + rest))) == |m + (attrs + "-->\n")|
  {
    var s := m + (attrs + ("-->\n" + rest));
    MarkersAreOpen(m);
    MarkerLineEnds(m, attrs, rest, |m|);
    assert s[..|m|] == m;
    WhichMarker(s, m);
  }

  lemma WhichMarker(s: string, m: string)
    requires (m == MARKER || m == OLD_MARKER) && StartsWith(s, m)
    ensures if m == MARKER then StartsWith(s, MARKER) else !StartsWith(s, MARKER) && StartsWith(s, OLD_MARKER)
  {
    if m == OLD_MARKER {
      assert MARKER[5] == 'x' && OLD_MARKER[5] == 'a';
      assert s[5] == 'a';
    }
  }

  // ---- The blocks ----

  /** A line of the insights block and its newline. */
  function BulletLines(insights: seq<string>): string {
    if insights == [] then "" else "  - " + (insights[0] + ("\n" + BulletLines(insights[1..])))
  }

  lemma NotThere(pre: string, rest: string, p: string)
    ensures At(pre + rest, p, |pre|) <==> StartsWith(rest, p)
  {
    AtInRight(pre, rest, p, 0);
    assert |p| <= |rest| ==> rest[0..|p|] == rest[..|p|];
  }

  lemma {:induction false} BulletsAreSkipped(s: string, pre: string, insights: seq<string>, rest: string)
    requires s == pre + (BulletLines(insights) + rest)
    requires (forall i :: 0 <= i < |insights| ==> HasNo(insights[i], '\n')) && !StartsWith(rest, "  - ")
    ensures BulletsEnd(s, |pre|) == |pre| + |BulletLines(insights)|
    decreases |insights|
  {
    if insights == [] {
      assert BulletLines(insights) + rest == rest;
      NotThere(pre, rest, "  - ");
    } else {
      var line := "  - " + insights[0] + "\n";
      assert BulletLines(insights) == line + BulletLines(insights[1..]);
      assert s == (pre + line) + (BulletLines(insights[1..]) + rest);
      BulletLineEnds(s, pre, insights[0], BulletLines(insights[1..]) + rest);
      BulletsAreSkipped(s, pre + line, insights[1..], rest);
    }
  }

  lemma BulletLineEnds(s: string, pre: string, text: string, rest: string)
    requires s == (pre + ("  - " + text + "\n")) + rest && HasNo(text, '\n')
    ensures At(s, "  - ", |pre|) && LineEnd(s, |pre| + 4) == |pre| + |text| + 5
  {
    assert s == (pre + "  - ") + (text + ("\n" + rest));
    assert s[|pre|..|pre| + 4] == "  - ";
    AfterOneLine(pre + "  - ", text, "\n", rest, |pre + "  - "|);
  }

  lemma HeadLine(s: string, pre: string, start: string, head: string, tail: string) returns (front: string)
    requires s == pre + (start + (head + ("\n" + tail))) && HasNo(head, '\n')
    ensures front == pre + start + head + "\n" && s == front + tail
    ensures At(s, start, |pre|) && LineEnd(s, |pre| + |start|) == |front|
  {
    front := pre + start + head + "\n";
    assert s == (pre + start) + (head + ("\n" + tail));
    assert s[|pre|..|pre| + |start|] == start;
    AfterOneLine(pre + start, head, "\n", tail, |pre + start|);
  }

  lemma InsightsEndAt(s: string, i: nat, k: nat, j: nat)
    requires At(s, PAST_INSIGHTS, i) && LineEnd(s, i + |PAST_INSIGHTS|) == k && BulletsEnd(s, k) == j
    ensures PastInsightsEnd(s, i) == if At(s, "\n", j) then j + 1 else j
  {
  }

  lemma HistoryEndsAt(s: string, i: nat, k: nat, e: nat)
    requires At(s, HISTORY, i) && LineEnd(s, i + |HISTORY|) == k && !At(s, "\n", k) && FindFrom(s, "\n\n", k) == e
    ensures HistoryEnd(s, i) == e + 2
  {
  }

  /** Past one newline, if there is one. */
  function PastGap(s: string): string {
    if s != "" && s[0] == '\n' then s[1..] else s
  }

  lemma GapIs(s: string, front: string, tail: string)
    requires s == front + tail
    ensures var e := if At(s, "\n", |front|) then |front| + 1 else |front|;
            e <= |s| && s[e..] == PastGap(tail)
  {
    if tail != "" && tail[0] == '\n' {
      assert s[|front|] == '\n';
      assert s[|front|..|front| + 1] == "\n";
    } else if tail != "" {
      assert s[|front|] == tail[0];
      OtherFirstChar(s, "\n", |front|);
    }
  }

  lemma {:induction false} BulletsThenGap(s: string, front: string, insights: seq<string>, tail: string)
    requires s == front + (BulletLines(insights) + tail)
    requires (forall i :: 0 <= i < |insights| ==> HasNo(insights[i], '\n')) && !StartsWith(tail, "  - ")
    ensures var j := |front| + |BulletLines(insights)|;
            var e := if At(s, "\n", j) then j + 1 else j;
            BulletsEnd(s, |front|) == j && e <= |s| && s[e..] == PastGap(tail)
  {
    BulletsAreSkipped(s, front, insights, tail);
    ConcatAssoc(front, BulletLines(insights), tail);
    GapIs(s, front + BulletLines(insights), tail);
  }

  /** The insights block: its heading line, its bullets, and one blank line if there is one. */
  lemma {:induction false} InsightsAreSkipped(s: string, pre: string, head: string, insights: seq<string>, tail: string)
    requires s == pre + (PAST_INSIGHTS + (head + ("\n" + (BulletLines(insights) + tail))))
    requires HasNo(head, '\n') && (forall i :: 0 <= i < |insights| ==> HasNo(insights[i], '\n')) && !StartsWith(tail, "  - ")
    ensures PastInsightsEnd(s, |pre|) <= |s| && s[PastInsightsEnd(s, |pre|)..] == PastGap(tail)
  {
    var front := HeadLine(s, pre, PAST_INSIGHTS, head, BulletLines(insights) + tail);
    BulletsThenGap(s, front, insights, tail);
    InsightsEndAt(s, |pre|, |front|, |front| + |BulletLines(insights)|);
  }

  /** The history block, up to its first blank line. */
  lemma HistoryIsSkipped(s: string, pre: string, head: string, lines: string, rest: string)
    requires s == pre + (HISTORY + (head + ("\n" + (lines + ("\n\n" + rest)))))
    requires HasNo(head, '\n') && lines != "" && lines[0] != '\n' && lines[|lines| - 1] != '\n' && !Contains(lines, "\n\n")
    ensures HistoryEnd(s, |pre|) <= |s| && s[HistoryEnd(s, |pre|)..] == rest
  {
    var front := HeadLine(s, pre, HISTORY, head, lines + ("\n\n" + rest));
    assert s[|front|] == lines[0];
    OtherFirstChar(s, "\n", |front|);
    BlankLineFound(s, front, lines, rest);
    HistoryEndsAt(s, |pre|, |front|, |front| + |lines|);
  }

  lemma BlankLineFound(s: string, front: string, lines: string, rest: string)
    requires s == front + (lines + ("\n\n" + rest))
    requires lines != "" && lines[|lines| - 1] != '\n' && !Contains(lines, "\n\n")
    ensures FindFrom(s, "\n\n", |front|) == |front| + |lines|
    ensures s[|front| + |lines| + 2..] == rest
  {
    var e := |front| + |lines|;
    assert s[e..e + 2] == "\n\n";
    forall j | |front| <= j < e ensures !At(s, "\n\n", j) {
      NoBlankLineAt(s, front, lines, rest, j - |front|);
    }
    FoundAt(s, "\n\n", |front|, e);
  }

  lemma NoBlankLineAt(s: string, front: string, lines: string, rest: string, j: nat)
    requires s == front + (lines + ("\n\n" + rest)) && j < |lines|
    requires lines[|lines| - 1] != '\n' && !Contains(lines, "\n\n")
    ensures !At(s, "\n\n", |front| + j)
  {
    if j + 2 <= |lines| {
      AtInRight(front, lines + ("\n\n" + rest), "\n\n", j);
      AtInLeft(lines, "\n\n" + rest, "\n\n", j);
    } else {
      assert s[|front| + j] == lines[j];
      OtherFirstChar(s, "\n\n", |front| + j);
    }
  }

  lemma SplitAt(s: string, i: nat)
    requires i <= |s|
    ensures s == s[..i] + s[i..]
  {
  }

  /** A wrapper with a memory line, insights and history in front of the message: all of it goes. */
  lemma {:induction false} LegacyPromptIsStripped(name: string, path: string, head: string, insights: seq<string>, tail: string,
                                                  about: string, lines: string, body: string, s: string)
    requires name != "" && HasNo(name, '\n') && path != "" && HasNo(path, '\n')
    requires HasNo(head, '\n') && (forall i :: 0 <= i < |insights| ==> HasNo(insights[i], '\n')) && !StartsWith(tail, "  - ")
    requires PastGap(tail) == HISTORY + (about + ("\n" + (lines + ("\n\n" + body)))) && HasNo(about, '\n')
    requires lines != "" && lines[0] != '\n' && lines[|lines| - 1] != '\n' && !Contains(lines, "\n\n")
    requires s == FrontOf(name, path, MEMORY + (MEMORY_REST + ("\n" + (PAST_INSIGHTS
                          + (head + ("\n" + (BulletLines(insights) + tail)))))))
    ensures StripPreamble(s) == body
  {
    var block := PAST_INSIGHTS + (head + ("\n" + (BulletLines(insights) + tail)));
    var e := WrapperIsFound(s, name, path, MEMORY + (MEMORY_REST + ("\n" + block)));
    SplitAt(s, e);
    NewlineLiterals();
    OptionalLineIs(s, s[..e], MEMORY, MEMORY_REST, block);
    var m := OptionalLine(s, e, MEMORY);
    SplitAt(s, m);
    InsightsAreSkipped(s, s[..m], head, insights, tail);
    var p := PastInsightsEnd(s, m);
    SplitAt(s, p);
    HistoryIsSkipped(s, s[..p], about, lines, body);
  }
}
