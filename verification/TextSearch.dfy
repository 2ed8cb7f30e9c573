/**
 Facts about searching in concatenated text: where a delimiter can and cannot occur.
 */
module TextSearch {
  import opened Strings

  ghost predicate HasNo(s: string, c: char) {
    forall j :: 0 <= j < |s| ==> s[j] != c
  }

  lemma HasNoConcat(a: string, b: string, c: char)
    requires HasNo(a, c) && HasNo(b, c)
    ensures HasNo(a + b, c)
  {
  }

  lemma HeadSplit(s: string, a: string, b: string, c: string)
    requires s == a + (b + c)
    ensures s == (a + b) + c
  {
  }

  lemma AtInLeft(a: string, b: string, p: string, i: nat)
    requires i + |p| <= |a|
    ensures At(a + b, p, i) <==> At(a, p, i)
  {
    assert (a + b)[i..i + |p|] == a[i..i + |p|];
  }

  lemma AtInRight(a: string, b: string, p: string, i: nat)
    ensures At(a + b, p, |a| + i) <==> At(b, p, i)
  {
    if i + |p| <= |b| {
      assert (a + b)[|a| + i..|a| + i + |p|] == b[i..i + |p|];
    }
  }

  lemma CharsAt(s: string, p: string, i: nat, k: nat)
    requires At(s, p, i) && k < |p|
    ensures i + k < |s| && s[i + k] == p[k]
  {
    assert s[i..i + |p|][k] == s[i + k];
  }

  /** A pattern without newlines lies on one side of a newline. */
  lemma OnOneSide(a: string, b: string, p: string, i: nat)
    requires HasNo(p, '\n') && At(a + "\n" + b, p, i)
    ensures i + |p| <= |a| || i > |a| || p == ""
  {
    if i <= |a| < i + |p| {
      CharsAt(a + "\n" + b, p, i, |a| - i);
    }
  }

  lemma ContainsLine(a: string, b: string, p: string)
    requires HasNo(p, '\n') && p != ""
    ensures Contains(a + "\n" + b, p) <==> Contains(a, p) || Contains(b, p)
  {
    var s := a + "\n" + b;
    assert s == (a + "\n") + b && s == a + ("\n" + b);
    if Contains(s, p) {
      var i := Find(s, p);
      OnOneSide(a, b, p, i);
      if i + |p| <= |a| {
        AtInLeft(a, "\n" + b, p, i);
      } else {
        AtInRight(a + "\n", b, p, i - |a| - 1);
      }
    }
    if Contains(a, p) {
      AtInLeft(a, "\n" + b, p, Find(a, p));
      assert At(s, p, Find(a, p));
    }
    if Contains(b, p) {
      AtInRight(a + "\n", b, p, Find(b, p));
      assert At(s, p, |a| + 1 + Find(b, p));
    }
  }

  lemma NotContained(s: string, p: string, k: nat)
    requires k < |p| && HasNo(s, p[k])
    ensures !Contains(s, p)
  {
    if Contains(s, p) {
      CharsAt(s, p, Find(s, p), k);
    }
  }

  /** A section heading that starts a paragraph: two newlines, then a line. */
  ghost predicate Heading(d: string) {
    |d| > 2 && d[0] == '\n' && d[1] == '\n' && forall k :: 2 <= k < |d| ==> d[k] != '\n'
  }

  /** Such a heading cannot begin inside trimmed text and end beyond it when a blank line follows. */
  lemma HeadingDoesNotStraddle(a: string, b: string, d: string, i: nat)
    requires Heading(d)
    requires a != "" && a[|a| - 1] != '\n'
    requires |b| > 0 && b[0] == '\n'
    requires i < |a| && At(a + b, d, i)
    ensures i + |d| <= |a|
  {
    if |a| < i + |d| {
      CharsAt(a + b, d, i, |a| - i);
      CharsAt(a + b, d, i, |a| - 1 - i);
    }
  }

  /** A line pattern that does not occur before a blank line is found right after it. */
  lemma LineFound(q: string, p: string, rest: string)
    requires HasNo(p, '\n') && p != "" && !Contains(q, p)
    ensures Find((q + "\n\n") + (p + rest), p) == |q| + 2
  {
    var s := (q + "\n\n") + (p + rest);
    AtInRight(q + "\n\n", p + rest, p, 0);
    assert (p + rest)[..|p|] == p;
    forall j | 0 <= j < |q| + 2 ensures !At(s, p, j) {
      if At(s, p, j) {
        NotAcross(q, p, rest, j);
        InLeftPart(q, p, rest, j);
      }
    }
    FoundAt(s, p, 0, |q| + 2);
  }

  lemma InLeftPart(q: string, p: string, rest: string, j: nat)
    requires j + |p| <= |q| && At((q + "\n\n") + (p + rest), p, j)
    ensures Contains(q, p)
  {
    assert (q + "\n\n") + (p + rest) == q + ("\n\n" + (p + rest));
    AtInLeft(q, "\n\n" + (p + rest), p, j);
    assert At(q, p, j);
  }

  lemma NotAcross(q: string, p: string, rest: string, j: nat)
    requires HasNo(p, '\n') && p != "" && j < |q| + 2
    requires At((q + "\n\n") + (p + rest), p, j)
    ensures j + |p| <= |q|
  {
    var s := (q + "\n\n") + (p + rest);
    assert s[|q|] == '\n' && s[|q| + 1] == '\n';
    if |q| < j + |p| {
      CharsAt(s, p, j, if j <= |q| then |q| - j else 0);
    }
  }

  /** The end of a line. */
  lemma NewlineFound(pre: string, a: string, rest: string, i: nat)
    requires HasNo(a, '\n') && |pre| <= i <= |pre| + |a|
    ensures FindFrom(pre + (a + "\n" + rest), "\n", i) == |pre| + |a|
  {
    var s := pre + (a + "\n" + rest);
    assert s[|pre| + |a|..|pre| + |a| + 1] == "\n";
    forall j | i <= j < |pre| + |a| ensures !At(s, "\n", j) {
      assert s[j..j + 1][0] == s[j] == a[j - |pre|];
    }
    FoundAt(s, "\n", i, |pre| + |a|);
  }

  lemma Prefix(pre: string, a: string, rest: string, k: nat)
    requires k <= |a|
    ensures (pre + (a + rest))[|pre|..|pre| + k] == a[..k]
    ensures a[..|a|] == a
  {
  }

  /** A paragraph heading after trimmed text is found there, or inside the text if it occurs there. */
  lemma HeadingFound(pre: string, a: string, d: string, rest: string)
    requires Heading(d) && a != "" && a[|a| - 1] != '\n'
    ensures |pre| <= FindFrom(pre + (a + (d + rest)), d, |pre|) <= |pre| + |a|
    ensures FindFrom(pre + (a + (d + rest)), d, |pre|) == |pre| + |a| <==> !Contains(a, d)
  {
    var tail := d + rest;
    var s := pre + (a + tail);
    assert tail[..|d|] == d;
    AtInRight(a, tail, d, 0);
    AtInRight(pre, a + tail, d, |a|);
    var r := FindFrom(s, d, |pre|);
    if r < |pre| + |a| {
      HeadingInside(pre, a, d, rest, r - |pre|);
    }
    if Contains(a, d) {
      var i := Find(a, d);
      AtInLeft(a, tail, d, i);
      AtInRight(pre, a + tail, d, i);
      assert At(s, d, |pre| + i);
    }
  }

  lemma HeadingInside(pre: string, a: string, d: string, rest: string, i: nat)
    requires Heading(d) && a != "" && a[|a| - 1] != '\n' && i < |a|
    requires At(pre + (a + (d + rest)), d, |pre| + i)
    ensures Contains(a, d)
  {
    AtInRight(pre, a + (d + rest), d, i);
    HeadingDoesNotStraddle(a, d + rest, d, i);
    AtInLeft(a, d + rest, d, i);
    assert At(a, d, i);
  }
}
