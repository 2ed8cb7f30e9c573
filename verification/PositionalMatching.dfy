/**
 Matching quoted labels to questions by position: each question, in order, takes the
 first label that is still free and is one of its options.
 */
module PositionalMatching {
  import opened Collections

  function OptionIndex<T(==)>(options: seq<T>, name: T): (r: Option<nat>)
    ensures r.Some? ==> r.value < |options| && options[r.value] == name
                        && forall i :: 0 <= i < r.value ==> options[i] != name
    ensures r.None? <==> name !in options
  {
    if options == [] then None
    else if options[0] == name then Some(0)
    else match OptionIndex(options[1..], name)
      case None => None
      case Some(i) => Some(i + 1)
  }

  /** The first label from `mi` on that is still free and is one of the options. */
  function FirstUsable<T(==)>(labels: seq<T>, used: set<nat>, options: seq<T>, mi: nat): (r: Option<nat>)
    ensures r.Some? ==> mi <= r.value < |labels| && r.value !in used && labels[r.value] in options
    ensures r.Some? ==> forall j :: mi <= j < r.value ==> j in used || labels[j] !in options
    ensures r.None? ==> forall j :: mi <= j < |labels| ==> j in used || labels[j] !in options
    decreases |labels| - mi
  {
    if mi >= |labels| then None
    else if mi !in used && labels[mi] in options then Some(mi)
    else FirstUsable(labels, used, options, mi + 1)
  }

  /** `selected` maps question to option; `used` holds the consumed labels, and `taken` says
      which question consumed which. */
  datatype Matching = Matching(selected: map<nat, nat>, taken: map<nat, nat>, used: set<nat>)

  function MatchOne<T(==)>(m: Matching, labels: seq<T>, qi: nat, options: seq<T>): Matching {
    if qi in m.selected then m
    else match FirstUsable(labels, m.used, options, 0)
      case None => m
      case Some(mi) =>
        Matching(m.selected[qi := OptionIndex(options, labels[mi]).value], m.taken[qi := mi], m.used + {mi})
  }

  /** Questions 0..n-1, over the answers in `preset`. */
  function MatchUpTo<T(==)>(questions: seq<seq<T>>, labels: seq<T>, preset: map<nat, nat>, n: nat): Matching
    requires n <= |questions|
  {
    if n == 0 then Matching(preset, map[], {})
    else MatchOne(MatchUpTo(questions, labels, preset, n - 1), labels, n - 1, questions[n - 1])
  }

  // ---- What the matching guarantees ----

  ghost predicate NothingTwice(m: Matching) {
    && (forall q :: q in m.taken ==> m.taken[q] in m.used)
    && (forall p, q :: p in m.taken && q in m.taken && p != q ==> m.taken[p] != m.taken[q])
  }

  ghost predicate KeepsPreset(preset: map<nat, nat>, m: Matching) {
    && (forall q :: q in preset ==> q in m.selected && m.selected[q] == preset[q] && q !in m.taken)
    && (forall q :: q in m.selected <==> q in preset || q in m.taken)
  }

  ghost predicate PicksItsLabel<T>(questions: seq<seq<T>>, labels: seq<T>, m: Matching, n: nat) {
    forall q :: q in m.taken ==>
      && q < n <= |questions| && m.taken[q] < |labels|
      && q in m.selected && m.selected[q] < |questions[q]|
      && questions[q][m.selected[q]] == labels[m.taken[q]]
  }

  ghost predicate SoundUpTo<T>(questions: seq<seq<T>>, labels: seq<T>, preset: map<nat, nat>, m: Matching, n: nat) {
    NothingTwice(m) && KeepsPreset(preset, m) && PicksItsLabel(questions, labels, m, n)
  }

  lemma MatchOneSound<T>(questions: seq<seq<T>>, labels: seq<T>, preset: map<nat, nat>, m: Matching, n: nat)
    requires 0 < n <= |questions| && SoundUpTo(questions, labels, preset, m, n - 1)
    ensures SoundUpTo(questions, labels, preset, MatchOne(m, labels, n - 1, questions[n - 1]), n)
  {
  }

  /** Nothing is consumed twice, presets stay, and each selection is its label's option, in range. */
  lemma {:induction false} MatchingIsSound<T>(questions: seq<seq<T>>, labels: seq<T>, preset: map<nat, nat>, n: nat)
    requires n <= |questions|
    ensures SoundUpTo(questions, labels, preset, MatchUpTo(questions, labels, preset, n), n)
  {
    if n > 0 {
      MatchingIsSound(questions, labels, preset, n - 1);
      MatchOneSound(questions, labels, preset, MatchUpTo(questions, labels, preset, n - 1), n);
    }
  }

  /** A question is left open only when every label that fits it has been consumed. */
  lemma {:induction false} OpenOnlyWithoutLabel<T>(questions: seq<seq<T>>, labels: seq<T>, preset: map<nat, nat>,
                                                   n: nat, q: nat, mi: nat)
    requires n <= |questions| && q < n && mi < |labels| && labels[mi] in questions[q]
    requires q !in MatchUpTo(questions, labels, preset, n).selected
    ensures mi in MatchUpTo(questions, labels, preset, n).used
  {
    if q < n - 1 {
      OpenOnlyWithoutLabel(questions, labels, preset, n - 1, q, mi);
    }
  }

  /** The i-th label is one of question i's options, for every question. */
  ghost predicate Aligned<T>(questions: seq<seq<T>>, labels: seq<T>) {
    |questions| <= |labels| && forall i :: 0 <= i < |questions| ==> labels[i] in questions[i]
  }

  /** Every open question has consumed its own label. */
  ghost predicate OwnLabels(preset: map<nat, nat>, m: Matching, n: nat) {
    forall q :: 0 <= q < n && q !in preset ==> q in m.taken && m.taken[q] == q
  }

  /** No open question offers the label that an earlier preset question leaves over. */
  ghost predicate NoSpill<T>(questions: seq<seq<T>>, labels: seq<T>, preset: map<nat, nat>, n: nat)
    requires n <= |questions| && n <= |labels|
  {
    forall p, q :: 0 <= p < q < n && p in preset && q !in preset ==> labels[p] !in questions[q]
  }

  ghost predicate UsedIsTaken(m: Matching) {
    forall x :: x in m.used <==> exists q :: q in m.taken && m.taken[q] == x
  }

  lemma {:induction false} UsedLabelsAreTaken<T>(questions: seq<seq<T>>, labels: seq<T>, preset: map<nat, nat>, n: nat)
    requires n <= |questions|
    ensures UsedIsTaken(MatchUpTo(questions, labels, preset, n))
  {
    if n == 0 {
      NothingTaken(preset);
    } else {
      UsedLabelsAreTaken(questions, labels, preset, n - 1);
      NextIsOpen(questions, labels, preset, n - 1);
      OneMoreTaken(MatchUpTo(questions, labels, preset, n - 1), labels, n - 1, questions[n - 1]);
    }
  }

  lemma NothingTaken(preset: map<nat, nat>)
    ensures UsedIsTaken(Matching(preset, map[], {}))
  {
  }

  lemma OneMoreTaken<T>(m: Matching, labels: seq<T>, qi: nat, options: seq<T>)
    requires UsedIsTaken(m) && qi !in m.taken
    ensures UsedIsTaken(MatchOne(m, labels, qi, options))
  {
    var m' := MatchOne(m, labels, qi, options);
    forall x | x in m'.used ensures exists q :: q in m'.taken && m'.taken[q] == x {
      if x in m.used {
        var q :| q in m.taken && m.taken[q] == x;
        assert q in m'.taken && m'.taken[q] == x;
      } else {
        assert qi in m'.taken && m'.taken[qi] == x;
      }
    }
    forall x | exists q :: q in m'.taken && m'.taken[q] == x ensures x in m'.used {
      var q :| q in m'.taken && m'.taken[q] == x;
      assert q in m.taken && m.taken[q] == x ==> x in m.used;
    }
  }

  /** As long as that goes on, the consumed labels are those of the open questions so far. */
  lemma OwnLabelsUsed<T>(questions: seq<seq<T>>, labels: seq<T>, preset: map<nat, nat>, n: nat)
    requires n <= |questions| && OwnLabels(preset, MatchUpTo(questions, labels, preset, n), n)
    ensures forall x :: x in MatchUpTo(questions, labels, preset, n).used <==> 0 <= x < n && x !in preset
  {
    UsedLabelsAreTaken(questions, labels, preset, n);
    MatchingIsSound(questions, labels, preset, n);
    var m := MatchUpTo(questions, labels, preset, n);
    forall x | 0 <= x < n && x !in preset ensures x in m.used {
      assert x in m.taken && m.taken[x] == x;
    }
    forall x | x in m.used ensures 0 <= x < n && x !in preset {
      var q :| q in m.taken && m.taken[q] == x;
    }
  }

  ghost predicate NoneSpillsTo<T>(questions: seq<seq<T>>, labels: seq<T>, preset: map<nat, nat>, q: nat)
    requires q < |questions| && q < |labels|
  {
    forall p :: 0 <= p < q && p in preset ==> labels[p] !in questions[q]
  }

  lemma OneMoreUnspilled<T>(questions: seq<seq<T>>, labels: seq<T>, preset: map<nat, nat>, n: nat)
    requires n < |questions| && n < |labels|
    ensures NoSpill(questions, labels, preset, n + 1)
            <==> NoSpill(questions, labels, preset, n) && (n !in preset ==> NoneSpillsTo(questions, labels, preset, n))
  {
  }

  /** The first label that fits the next question: its own, unless an earlier preset one fits. */
  lemma NextLabel<T>(questions: seq<seq<T>>, labels: seq<T>, preset: map<nat, nat>, n: nat, used: set<nat>)
    requires Aligned(questions, labels) && n < |questions|
    requires forall x :: x in used <==> 0 <= x < n && x !in preset
    ensures FirstUsable(labels, used, questions[n], 0) == Some(n) <==> NoneSpillsTo(questions, labels, preset, n)
  {
    assert labels[n] in questions[n] && n !in used;
  }

  lemma OneMoreOwn<T>(preset: map<nat, nat>, m: Matching, labels: seq<T>, n: nat, options: seq<T>)
    requires n !in m.taken && (n in m.selected <==> n in preset)
    ensures OwnLabels(preset, MatchOne(m, labels, n, options), n + 1) <==>
            OwnLabels(preset, m, n) && (n !in preset ==> FirstUsable(labels, m.used, options, 0) == Some(n))
  {
    var m' := MatchOne(m, labels, n, options);
    assert forall q :: q != n ==> (q in m'.taken <==> q in m.taken) && (q in m.taken ==> m'.taken[q] == m.taken[q]);
    if OwnLabels(preset, m', n + 1) {
      assert n !in preset ==> n in m'.taken && m'.taken[n] == n;
    }
  }

  lemma NextIsOpen<T>(questions: seq<seq<T>>, labels: seq<T>, preset: map<nat, nat>, n: nat)
    requires n < |questions|
    ensures var m := MatchUpTo(questions, labels, preset, n);
            n !in m.taken && (n in m.selected <==> n in preset)
  {
    MatchingIsSound(questions, labels, preset, n);
  }

  /** Main result: aligned labels are matched in position exactly when no open question offers the
      label that an earlier preset question leaves over. */
  lemma {:induction false} AlignedLabelsMatchExactly<T>(questions: seq<seq<T>>, labels: seq<T>, preset: map<nat, nat>, n: nat)
    requires Aligned(questions, labels) && n <= |questions|
    ensures OwnLabels(preset, MatchUpTo(questions, labels, preset, n), n) <==> NoSpill(questions, labels, preset, n)
  {
    if n > 0 {
      AlignedLabelsMatchExactly(questions, labels, preset, n - 1);
      NextIsOpen(questions, labels, preset, n - 1);
      OneMoreOwn(preset, MatchUpTo(questions, labels, preset, n - 1), labels, n - 1, questions[n - 1]);
      OneMoreUnspilled(questions, labels, preset, n - 1);
      if NoSpill(questions, labels, preset, n - 1) {
        OwnLabelsUsed(questions, labels, preset, n - 1);
        NextLabel(questions, labels, preset, n - 1, MatchUpTo(questions, labels, preset, n - 1).used);
      }
    }
  }

  /** Preset questions keep their option; every other gets the one its own label names. */
  ghost predicate InPosition<T>(questions: seq<seq<T>>, labels: seq<T>, preset: map<nat, nat>, sel: map<nat, nat>, n: nat)
    requires n <= |questions| && n <= |labels|
  {
    forall q :: 0 <= q < n ==>
      q in sel && if q in preset then sel[q] == preset[q] else Some(sel[q]) == OptionIndex(questions[q], labels[q])
  }

  ghost predicate PicksByLabel<T>(questions: seq<seq<T>>, labels: seq<T>, m: Matching, n: nat) {
    forall q :: q in m.taken ==>
      && q < n <= |questions| && m.taken[q] < |labels| && q in m.selected
      && Some(m.selected[q]) == OptionIndex(questions[q], labels[m.taken[q]])
  }

  lemma {:induction false} PicksAreByLabel<T>(questions: seq<seq<T>>, labels: seq<T>, preset: map<nat, nat>, n: nat)
    requires n <= |questions|
    ensures PicksByLabel(questions, labels, MatchUpTo(questions, labels, preset, n), n)
  {
    if n > 0 {
      PicksAreByLabel(questions, labels, preset, n - 1);
    }
  }

  /** So every open question gets the option its own label names. */
  lemma AlignedLabelsMatch<T>(questions: seq<seq<T>>, labels: seq<T>, preset: map<nat, nat>, n: nat)
    requires Aligned(questions, labels) && n <= |questions| && NoSpill(questions, labels, preset, n)
    ensures InPosition(questions, labels, preset, MatchUpTo(questions, labels, preset, n).selected, n)
  {
    var m := MatchUpTo(questions, labels, preset, n);
    AlignedLabelsMatchExactly(questions, labels, preset, n);
    PicksAreByLabel(questions, labels, preset, n);
    MatchingIsSound(questions, labels, preset, n);
    forall q | 0 <= q < n && q !in preset ensures q in m.selected && Some(m.selected[q]) == OptionIndex(questions[q], labels[q]) {
      assert q in m.taken && m.taken[q] == q;
    }
  }

  /** Otherwise the first open question that offers such a label gets the option of the earliest one. */
  lemma SpilledLabelIsTaken<T>(questions: seq<seq<T>>, labels: seq<T>, preset: map<nat, nat>, p: nat, q: nat)
    requires Aligned(questions, labels) && p < q < |questions| && q !in preset && NoSpill(questions, labels, preset, q)
    requires p in preset && labels[p] in questions[q]
    requires forall r :: 0 <= r < p && r in preset ==> labels[r] !in questions[q]
    ensures var m := MatchUpTo(questions, labels, preset, q + 1);
            q in m.selected && Some(m.selected[q]) == OptionIndex(questions[q], labels[p])
  {
    AlignedLabelsMatchExactly(questions, labels, preset, q);
    OwnLabelsUsed(questions, labels, preset, q);
    MatchingIsSound(questions, labels, preset, q);
    var m := MatchUpTo(questions, labels, preset, q);
    assert FirstUsable(labels, m.used, questions[q], 0) == Some(p);
  }

  /** What a question has got it keeps. */
  lemma {:induction false} SelectedStays<T>(questions: seq<seq<T>>, labels: seq<T>, preset: map<nat, nat>, n: nat, k: nat, q: nat)
    requires n <= k <= |questions| && q in MatchUpTo(questions, labels, preset, n).selected
    ensures q in MatchUpTo(questions, labels, preset, k).selected
    ensures MatchUpTo(questions, labels, preset, k).selected[q] == MatchUpTo(questions, labels, preset, n).selected[q]
  {
    if n < k {
      SelectedStays(questions, labels, preset, n, k - 1, q);
    }
  }

  // ---- The loops ----

  /** The matching as the code runs it. */
  method MatchAnswers<T(==)>(questions: seq<seq<T>>, labels: seq<T>, preset: map<nat, nat>) returns (sel: map<nat, nat>)
    ensures sel == MatchUpTo(questions, labels, preset, |questions|).selected
  {
    sel := preset;
    var used: set<nat> := {};
    for qi := 0 to |questions|
      invariant sel == MatchUpTo(questions, labels, preset, qi).selected
      invariant used == MatchUpTo(questions, labels, preset, qi).used
    {
      ghost var m := MatchUpTo(questions, labels, preset, qi);
      var options := questions[qi];
      if qi !in sel {
        var mi := 0;
        while mi < |labels| && qi !in sel
          invariant 0 <= mi <= |labels|
          invariant qi !in sel ==>
                      sel == m.selected && used == m.used
                      && FirstUsable(labels, used, options, 0) == FirstUsable(labels, used, options, mi)
          invariant qi in sel ==>
                      sel == MatchOne(m, labels, qi, options).selected && used == MatchOne(m, labels, qi, options).used
        {
          if mi !in used {
            var oi := FindOption(options, labels[mi]);
            if oi < |options| {
              sel, used := sel[qi := oi], used + {mi};
            }
          }
          mi := mi + 1;
        }
      }
    }
  }

  method FindOption<T(==)>(options: seq<T>, name: T) returns (oi: nat)
    ensures oi <= |options|
    ensures oi < |options| <==> name in options
    ensures oi < |options| ==> OptionIndex(options, name) == Some(oi)
  {
    oi := 0;
    while oi < |options| && options[oi] != name
      invariant 0 <= oi <= |options|
      invariant forall j :: 0 <= j < oi ==> options[j] != name
    {
      oi := oi + 1;
    }
  }
}
