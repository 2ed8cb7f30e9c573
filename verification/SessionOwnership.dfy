/**
 Which discovered session files belong to an agent: its own top-level sessions, the
 subagent files under them, and every session whose parent link leads to one of those.
 Ids are naturals; 0 is the empty string.
 */
module SessionOwnership {
  import opened Collections

  type Id = nat

  const NO_ID: Id := 0

  datatype Usage = Usage(input: nat, output: nat, cacheCreation: nat, creation5m: nat, creation1h: nat,
                         cacheRead: nat, turns: nat)

  /** One session file. `uuids` are its entries' ids, `parentUuid` the id its first entry
      points back to, `parentSid` the directory a subagent file lies in, `owner` what the
      sidecar file names. */
  datatype Found = Found(sid: Id, uuids: seq<Id>, parentUuid: Option<Id>, isSubagent: bool, parentSid: Id,
                         owner: Option<Id>, usage: Usage, started: Option<int>, ended: Option<int>)

  // ---- Parent links ----

  predicate Answers(cand: Found, f: Found) {
    f.parentUuid.Some? && cand.sid != NO_ID && cand.sid != f.sid && f.parentUuid.value in cand.uuids
  }

  /** The first candidate, from the i-th on, holding the entry the session points back to. */
  function LinkFrom(f: Found, all: seq<Found>, i: nat): (r: Option<Id>)
    decreases |all| - i
  {
    if i >= |all| then None
    else if Answers(all[i], f) then Some(all[i].sid)
    else LinkFrom(f, all, i + 1)
  }

  function Link(f: Found, all: seq<Found>): Option<Id> {
    LinkFrom(f, all, 0)
  }

  lemma {:induction false} LinkFromIsFirst(f: Found, all: seq<Found>, i: nat)
    ensures LinkFrom(f, all, i).None? <==> forall j :: i <= j < |all| ==> !Answers(all[j], f)
    ensures LinkFrom(f, all, i).Some? ==>
              exists j :: i <= j < |all| && Answers(all[j], f) && LinkFrom(f, all, i) == Some(all[j].sid)
                          && forall k :: i <= k < j ==> !Answers(all[k], f)
    decreases |all| - i
  {
    if i < |all| && !Answers(all[i], f) {
      LinkFromIsFirst(f, all, i + 1);
      if LinkFrom(f, all, i + 1).Some? {
        var j :| i + 1 <= j < |all| && Answers(all[j], f) && LinkFrom(f, all, i + 1) == Some(all[j].sid)
                 && forall k :: i + 1 <= k < j ==> !Answers(all[k], f);
        assert forall k :: i <= k < j ==> !Answers(all[k], f);
      }
    }
  }

  /** Reads every candidate entry by entry and stops at the first match. */
  method LinkSubToParent(f: Found, all: seq<Found>) returns (r: Option<Id>)
    ensures r == Link(f, all)
  {
    if f.parentUuid.None? {
      LinkFromIsFirst(f, all, 0);
      return None;
    }
    for i := 0 to |all|
      invariant Link(f, all) == LinkFrom(f, all, i)
    {
      var cand := all[i];
      if cand.sid == NO_ID || cand.sid == f.sid { continue; }
      for j := 0 to |cand.uuids|
        invariant f.parentUuid.value !in cand.uuids[..j]
      {
        if cand.uuids[j] == f.parentUuid.value { return Some(cand.sid); }
      }
      assert cand.uuids[..|cand.uuids|] == cand.uuids;
    }
    return None;
  }

  // ---- Ownership, as a least set ----

  predicate TopOf(f: Found, agent: Id) {
    !f.isSubagent && f.parentUuid.None? && f.owner == Some(agent)
  }

  function Tops(all: seq<Found>, agent: Id): set<Id> {
    set i | 0 <= i < |all| && TopOf(all[i], agent) :: all[i].sid
  }

  predicate UnderTop(f: Found, tops: set<Id>) {
    f.isSubagent && f.parentSid != NO_ID && f.parentSid in tops
  }

  function PathSubs(all: seq<Found>, tops: set<Id>): set<Id> {
    set i | 0 <= i < |all| && UnderTop(all[i], tops) :: all[i].sid
  }

  function Seeds(all: seq<Found>, agent: Id): set<Id> {
    Tops(all, agent) + PathSubs(all, Tops(all, agent))
  }

  predicate Linkable(f: Found) {
    !f.isSubagent && f.parentUuid.Some?
  }

  /** The parent of a session: what its first linkable file says. */
  function ParentFrom(all: seq<Found>, sid: Id, i: nat): Option<Id>
    decreases |all| - i
  {
    if i >= |all| then None
    else if Linkable(all[i]) && all[i].sid == sid then Link(all[i], all)
    else ParentFrom(all, sid, i + 1)
  }

  function ParentOf(all: seq<Found>, sid: Id): Option<Id> {
    ParentFrom(all, sid, 0)
  }

  ghost predicate HasParentIn(all: seq<Found>, sid: Id, owned: set<Id>) {
    ParentOf(all, sid).Some? && ParentOf(all, sid).value != NO_ID && ParentOf(all, sid).value in owned
  }

  /** The agent's sessions and everything linked to them, by whatever route. */
  ghost predicate ClosedOver(all: seq<Found>, agent: Id, owned: set<Id>) {
    Seeds(all, agent) <= owned && forall sid :: HasParentIn(all, sid, owned) ==> sid in owned
  }

  ghost predicate LeastClosed(all: seq<Found>, agent: Id, owned: set<Id>) {
    ClosedOver(all, agent, owned) && forall other: set<Id> :: ClosedOver(all, agent, other) ==> owned <= other
  }

  /** A finite chain of parent links from an owned top-level session to `sid`. */
  ghost predicate Chain(path: seq<Id>, sid: Id, tops: set<Id>, parents: map<Id, Id>, owned: set<Id>) {
    && |path| > 0 && path[0] in tops && path[|path| - 1] == sid
    && (forall i :: 0 <= i < |path| ==> path[i] in owned)
    && (forall i :: 0 < i < |path| ==> path[i] in parents && parents[path[i]] == path[i - 1])
  }

  ghost predicate Chained(sid: Id, tops: set<Id>, parents: map<Id, Id>, owned: set<Id>) {
    exists path :: Chain(path, sid, tops, parents, owned)
  }

  // ---- The memo ----

  lemma {:induction false} ParentFromFirst(all: seq<Found>, sid: Id, i: nat, j: nat)
    requires i <= j < |all| && Linkable(all[j]) && all[j].sid == sid
    requires forall k :: i <= k < j ==> !(Linkable(all[k]) && all[k].sid == sid)
    ensures ParentFrom(all, sid, i) == Link(all[j], all)
    decreases j - i
  {
    if i < j {
      ParentFromFirst(all, sid, i + 1, j);
    }
  }

  lemma {:induction false} NoParentWithoutLink(all: seq<Found>, sid: Id, i: nat)
    requires ParentFrom(all, sid, i).Some?
    ensures exists j :: i <= j < |all| && Linkable(all[j]) && all[j].sid == sid
    decreases |all| - i
  {
    if !(Linkable(all[i]) && all[i].sid == sid) {
      NoParentWithoutLink(all, sid, i + 1);
    }
  }

  ghost predicate MemoAgrees(memo: map<Id, Option<Id>>, all: seq<Found>) {
    forall sid :: sid in memo ==> memo[sid] == ParentOf(all, sid)
  }

  /** Every linkable session before `i` that is not owned yet has been looked up. */
  ghost predicate LookedUp(memo: map<Id, Option<Id>>, all: seq<Found>, owned: set<Id>, i: nat) {
    forall k :: 0 <= k < i && k < |all| && Linkable(all[k]) && all[k].sid !in owned ==> all[k].sid in memo
  }

  method ResolveParent(all: seq<Found>, i: nat, memo: map<Id, Option<Id>>, ghost owned: set<Id>)
    returns (r: Option<Id>, memo': map<Id, Option<Id>>)
    requires i < |all| && Linkable(all[i]) && all[i].sid !in owned
    requires MemoAgrees(memo, all) && LookedUp(memo, all, owned, i)
    ensures r == ParentOf(all, all[i].sid)
    ensures MemoAgrees(memo', all) && LookedUp(memo', all, owned, i + 1)
    ensures memo.Keys <= memo'.Keys
  {
    var sid := all[i].sid;
    if sid in memo { return memo[sid], memo; }
    r := LinkSubToParent(all[i], all);
    ParentFromFirst(all, sid, 0, i);
    memo' := memo[sid := r];
  }

  // ---- The sweep's ownership passes ----

  function Sids(all: seq<Found>): set<Id> {
    set i | 0 <= i < |all| :: all[i].sid
  }

  method OwnedTops(all: seq<Found>, agent: Id) returns (tops: set<Id>)
    ensures tops == Tops(all, agent)
  {
    tops := {};
    for i := 0 to |all|
      invariant tops == set k | 0 <= k < i && TopOf(all[k], agent) :: all[k].sid
    {
      if all[i].isSubagent { continue; }
      if all[i].parentUuid.None? && all[i].owner == Some(agent) {
        tops := tops + {all[i].sid};
      }
    }
  }

  method OwnedByPath(all: seq<Found>, tops: set<Id>) returns (subs: set<Id>, parents: map<Id, Id>)
    ensures subs == PathSubs(all, tops) && parents.Keys == subs
    ensures forall sid :: sid in parents ==> parents[sid] in tops
  {
    subs, parents := {}, map[];
    for i := 0 to |all|
      invariant subs == (set k | 0 <= k < i && UnderTop(all[k], tops) :: all[k].sid) && parents.Keys == subs
      invariant forall sid :: sid in parents ==> parents[sid] in tops
    {
      if UnderTop(all[i], tops) {
        subs, parents := subs + {all[i].sid}, parents[all[i].sid := all[i].parentSid];
      }
    }
  }

  /** What the two direct passes leave: everything found so far hangs on an owned top. */
  lemma SeedsAreChained(tops: set<Id>, subs: set<Id>, parents: map<Id, Id>)
    requires parents.Keys == subs && forall sid :: sid in parents ==> parents[sid] in tops
    ensures AllChained(tops, parents, tops + subs)
  {
    forall sid | sid in tops + subs ensures Chained(sid, tops, parents, tops + subs) {
      if sid in tops {
        assert Chain([sid], sid, tops, parents, tops + subs);
      } else {
        assert Chain([parents[sid], sid], sid, tops, parents, tops + subs);
      }
    }
  }

  lemma OldChain(s: Id, sid: Id, p: Id, tops: set<Id>, parents: map<Id, Id>, owned: set<Id>)
    requires sid !in owned && Chained(s, tops, parents, owned)
    ensures Chained(s, tops, parents[sid := p], owned + {sid})
  {
    var path :| Chain(path, s, tops, parents, owned);
    assert Chain(path, s, tops, parents[sid := p], owned + {sid});
  }

  lemma NewChain(sid: Id, p: Id, tops: set<Id>, parents: map<Id, Id>, owned: set<Id>)
    requires sid in owned && sid in parents && parents[sid] == p && Chained(p, tops, parents, owned)
    ensures Chained(sid, tops, parents, owned)
  {
    var path :| Chain(path, p, tops, parents, owned);
    assert Chain(path + [sid], sid, tops, parents, owned);
  }

  ghost predicate AllChained(tops: set<Id>, parents: map<Id, Id>, owned: set<Id>) {
    forall sid {:trigger Chained(sid, tops, parents, owned)} :: sid in owned ==> Chained(sid, tops, parents, owned)
  }

  lemma LinkKeepsChains(sid: Id, p: Id, tops: set<Id>, parents: map<Id, Id>, owned: set<Id>)
    requires sid !in owned && p in owned && AllChained(tops, parents, owned)
    ensures AllChained(tops, parents[sid := p], owned + {sid})
  {
    forall s | s in owned ensures Chained(s, tops, parents[sid := p], owned + {sid}) {
      OldChain(s, sid, p, tops, parents, owned);
    }
    NewChain(sid, p, tops, parents[sid := p], owned + {sid});
  }

  ghost predicate BelowAll(all: seq<Found>, agent: Id, owned: set<Id>) {
    forall other: set<Id> :: ClosedOver(all, agent, other) ==> owned <= other
  }

  lemma LinkStaysBelow(all: seq<Found>, agent: Id, owned: set<Id>, sid: Id)
    requires BelowAll(all, agent, owned) && HasParentIn(all, sid, owned)
    ensures BelowAll(all, agent, owned + {sid})
  {
    forall other: set<Id> | ClosedOver(all, agent, other) ensures owned + {sid} <= other {
      assert HasParentIn(all, sid, other);
    }
  }

  ghost predicate Stuck(all: seq<Found>, owned: set<Id>, i: nat) {
    forall k :: 0 <= k < i && k < |all| && Linkable(all[k]) && all[k].sid !in owned ==>
                  !HasParentIn(all, all[k].sid, owned)
  }

  lemma StuckIsClosed(all: seq<Found>, agent: Id, owned: set<Id>)
    requires Seeds(all, agent) <= owned && Stuck(all, owned, |all|)
    ensures ClosedOver(all, agent, owned)
  {
    forall sid | HasParentIn(all, sid, owned) ensures sid in owned {
      NoParentWithoutLink(all, sid, 0);
      var k :| 0 <= k < |all| && Linkable(all[k]) && all[k].sid == sid;
    }
  }

  /** What holds all along: nothing is missing of the seeds, nothing is there without reason. */
  ghost predicate Progress(all: seq<Found>, agent: Id, tops: set<Id>, parents: map<Id, Id>, owned: set<Id>) {
    && Seeds(all, agent) <= owned <= Sids(all)
    && AllChained(tops, parents, owned)
    && BelowAll(all, agent, owned)
  }

  lemma SeedsAreProgress(all: seq<Found>, agent: Id, tops: set<Id>, subs: set<Id>, parents: map<Id, Id>)
    requires tops == Tops(all, agent) && subs == PathSubs(all, tops)
    requires parents.Keys == subs && forall sid :: sid in parents ==> parents[sid] in tops
    ensures Progress(all, agent, tops, parents, tops + subs)
  {
    SeedsAreChained(tops, subs, parents);
  }

  lemma LinkIsProgress(all: seq<Found>, agent: Id, tops: set<Id>, parents: map<Id, Id>, owned: set<Id>, i: nat)
    requires Progress(all, agent, tops, parents, owned) && i < |all|
    requires all[i].sid !in owned && HasParentIn(all, all[i].sid, owned)
    ensures var sid := all[i].sid;
            Progress(all, agent, tops, parents[sid := ParentOf(all, sid).value], owned + {sid})
  {
    LinkStaysBelow(all, agent, owned, all[i].sid);
    LinkKeepsChains(all[i].sid, ParentOf(all, all[i].sid).value, tops, parents, owned);
  }

  /** One pass over all files; `grew` tells whether it added anything. */
  method OnePass(all: seq<Found>, ghost agent: Id, ghost tops: set<Id>, owned0: set<Id>, parents0: map<Id, Id>,
                 memo0: map<Id, Option<Id>>)
    returns (owned: set<Id>, parents: map<Id, Id>, memo: map<Id, Option<Id>>, grew: bool)
    requires Progress(all, agent, tops, parents0, owned0) && MemoAgrees(memo0, all)
    ensures Progress(all, agent, tops, parents, owned) && MemoAgrees(memo, all)
    ensures owned0 <= owned && (grew <==> owned != owned0)
    ensures parents.Keys == parents0.Keys + (owned - owned0)
    ensures !grew ==> Stuck(all, owned, |all|)
  {
    owned, parents, memo, grew := owned0, parents0, memo0, false;
    for i := 0 to |all|
      invariant Progress(all, agent, tops, parents, owned) && MemoAgrees(memo, all)
      invariant LookedUp(memo, all, owned, i)
      invariant owned0 <= owned && (grew <==> owned != owned0)
      invariant parents.Keys == parents0.Keys + (owned - owned0)
      invariant !grew ==> Stuck(all, owned, i)
    {
      var f := all[i];
      if f.sid in owned || f.isSubagent || f.parentUuid.None? { continue; }
      var p;
      p, memo := ResolveParent(all, i, memo, owned);
      if p.Some? && p.value != NO_ID && p.value in owned {
        LinkIsProgress(all, agent, tops, parents, owned, i);
        parents, owned, grew := parents[f.sid := p.value], owned + {f.sid}, true;
      }
    }
  }

  /** Main result for ownership: the loop ends, and what it returns is the least set that holds
      the agent's sessions and is closed under parent links; every member is reached from an
      owned top-level session by finitely many of the recorded links. */
  method OwnedSessions(all: seq<Found>, agent: Id) returns (tops: set<Id>, subs: set<Id>, parents: map<Id, Id>)
    ensures tops == Tops(all, agent) && parents.Keys == subs
    ensures LeastClosed(all, agent, tops + subs)
    ensures AllChained(tops, parents, tops + subs)
    ensures tops * subs == tops * PathSubs(all, tops)
  {
    tops := OwnedTops(all, agent);
    subs, parents := OwnedByPath(all, tops);
    SeedsAreProgress(all, agent, tops, subs, parents);
    var owned := tops + subs;
    var memo: map<Id, Option<Id>> := map[];
    var changed := true;
    while changed
      invariant owned == tops + subs && parents.Keys == subs
      invariant tops * subs == tops * PathSubs(all, tops)
      invariant Progress(all, agent, tops, parents, owned) && MemoAgrees(memo, all)
      invariant !changed ==> Stuck(all, owned, |all|)
      decreases |Sids(all) - owned|, changed
    {
      var before := owned;
      owned, parents, memo, changed := OnePass(all, agent, tops, owned, parents, memo);
      GrownParts(tops, subs, before, owned);
      subs := subs + (owned - before);
      if changed { PassesEnd(all, agent, tops, parents, before, owned); }
    }
    StuckIsLeast(all, agent, tops, parents, owned);
  }

  lemma StuckIsLeast(all: seq<Found>, agent: Id, tops: set<Id>, parents: map<Id, Id>, owned: set<Id>)
    requires Progress(all, agent, tops, parents, owned) && Stuck(all, owned, |all|)
    ensures LeastClosed(all, agent, owned) && AllChained(tops, parents, owned)
  {
    StuckIsClosed(all, agent, owned);
  }

  lemma GrownParts(tops: set<Id>, subs: set<Id>, before: set<Id>, owned: set<Id>)
    requires before == tops + subs && before <= owned
    ensures owned == tops + (subs + (owned - before))
    ensures tops * (subs + (owned - before)) == tops * subs
  {
  }

  lemma PassesEnd(all: seq<Found>, agent: Id, tops: set<Id>, parents: map<Id, Id>, before: set<Id>, owned: set<Id>)
    requires Progress(all, agent, tops, parents, owned) && before <= owned && before != owned
    ensures |Sids(all) - owned| < |Sids(all) - before|
  {
    Shrinks(Sids(all), before, owned);
  }

  lemma Shrinks(whole: set<Id>, small: set<Id>, large: set<Id>)
    requires small < large <= whole
    ensures |whole - large| < |whole - small|
  {
    assert whole - large < whole - small;
    var rest := (whole - small) - (whole - large);
    var x :| x in large && x !in small;
    assert x in rest;
    assert whole - small == (whole - large) + rest;
  }

  // ---- Two agents ----

  lemma {:induction false} LeastIsSupported(all: seq<Found>, agent: Id, owned: set<Id>, sid: Id)
    requires LeastClosed(all, agent, owned)
    ensures sid in owned ==> sid in Seeds(all, agent) || HasParentIn(all, sid, owned)
  {
    var other := set s | s in owned && (s in Seeds(all, agent) || HasParentIn(all, s, owned));
    forall s | HasParentIn(all, s, other) ensures s in other {
      assert HasParentIn(all, s, owned);
    }
    assert ClosedOver(all, agent, other);
  }

  /** From the first session to the last, each is the parent of the next. */
  ghost predicate Descent(all: seq<Found>, path: seq<Id>) {
    path != [] && forall i {:trigger path[i + 1]} :: 0 <= i < |path| - 1 ==> HasParentIn(all, path[i + 1], {path[i]})
  }

  /** The session is one the agent owns directly, or hangs on one by finitely many parent links. */
  ghost predicate HangsOnSeed(all: seq<Found>, agent: Id, sid: Id) {
    exists path :: Descent(all, path) && path[0] in Seeds(all, agent) && path[|path| - 1] == sid
  }

  lemma SeedHangs(all: seq<Found>, agent: Id, sid: Id)
    requires sid in Seeds(all, agent)
    ensures HangsOnSeed(all, agent, sid)
  {
    assert Descent(all, [sid]) && [sid][0] == sid;
  }

  lemma ChildHangs(all: seq<Found>, agent: Id, sid: Id, p: Id)
    requires HangsOnSeed(all, agent, p) && HasParentIn(all, sid, {p})
    ensures HangsOnSeed(all, agent, sid)
  {
    var path :| Descent(all, path) && path[0] in Seeds(all, agent) && path[|path| - 1] == p;
    var longer := path + [sid];
    forall i {:trigger longer[i + 1]} | 0 <= i < |longer| - 1 ensures HasParentIn(all, longer[i + 1], {longer[i]}) {
      if i < |path| - 1 { assert longer[i + 1] == path[i + 1]; }
    }
    assert Descent(all, longer) && longer[0] == path[0] && longer[|longer| - 1] == sid;
  }

  lemma {:induction false} DescentStaysOwned(all: seq<Found>, agent: Id, owned: set<Id>, path: seq<Id>)
    requires ClosedOver(all, agent, owned) && Descent(all, path) && path[0] in owned
    ensures path[|path| - 1] in owned
  {
    var i := 0;
    while i < |path| - 1
      invariant 0 <= i < |path| && path[i] in owned
    {
      assert HasParentIn(all, path[i + 1], {path[i]});
      assert HasParentIn(all, path[i + 1], owned);
      i := i + 1;
    }
  }

  /** The owned sessions are exactly the ones that hang on a seed. */
  lemma OwnedIsHanging(all: seq<Found>, agent: Id, owned: set<Id>)
    requires LeastClosed(all, agent, owned)
    ensures forall sid :: sid in owned <==> HangsOnSeed(all, agent, sid)
  {
    forall sid | HangsOnSeed(all, agent, sid) ensures sid in owned {
      var path :| Descent(all, path) && path[0] in Seeds(all, agent) && path[|path| - 1] == sid;
      DescentStaysOwned(all, agent, owned, path);
    }
    var hanging := set sid | sid in owned && HangsOnSeed(all, agent, sid);
    forall sid | sid in Seeds(all, agent) ensures sid in hanging {
      SeedHangs(all, agent, sid);
    }
    forall sid | HasParentIn(all, sid, hanging) ensures sid in hanging {
      var p := ParentOf(all, sid).value;
      assert HasParentIn(all, sid, owned) && HasParentIn(all, sid, {p});
      ChildHangs(all, agent, sid, p);
    }
    assert ClosedOver(all, agent, hanging);
  }

  /** No session that one agent owns directly hangs on one of the other's. */
  ghost predicate SeedsApart(all: seq<Found>, a: Id, b: Id) {
    && (forall sid :: sid in Seeds(all, a) ==> !HangsOnSeed(all, b, sid))
    && (forall sid :: sid in Seeds(all, b) ==> !HangsOnSeed(all, a, sid))
  }

  /** Two agents over the same files share a session exactly when a session one of them owns
      directly (by its sidecar or by its directory) hangs on one of the other's. */
  lemma AgentsShareOnlyThroughSeeds(all: seq<Found>, a: Id, b: Id, ownedA: set<Id>, ownedB: set<Id>)
    requires LeastClosed(all, a, ownedA) && LeastClosed(all, b, ownedB)
    ensures ownedA !! ownedB <==> SeedsApart(all, a, b)
  {
    OwnedIsHanging(all, a, ownedA);
    OwnedIsHanging(all, b, ownedB);
    if SeedsApart(all, a, b) {
      var rest := ownedA - ownedB;
      forall sid | HasParentIn(all, sid, rest) ensures sid in rest {
        assert HasParentIn(all, sid, ownedA);
        assert !HasParentIn(all, sid, ownedB);
        LeastIsSupported(all, b, ownedB, sid);
      }
      assert ClosedOver(all, a, rest);
    }
  }

  ghost predicate DistinctSids(all: seq<Found>) {
    forall i, j :: 0 <= i < j < |all| ==> all[i].sid != all[j].sid
  }

  lemma OnlyFile(all: seq<Found>, i: nat)
    requires DistinctSids(all) && i < |all|
    ensures forall j :: 0 <= j < |all| && all[j].sid == all[i].sid ==> j == i
  {
  }

  lemma TopsApart(all: seq<Found>, a: Id, b: Id)
    requires DistinctSids(all) && a != b
    ensures Tops(all, a) !! Tops(all, b)
  {
    forall sid | sid in Tops(all, a) ensures sid !in Tops(all, b) {
      var i :| 0 <= i < |all| && TopOf(all[i], a) && all[i].sid == sid;
      OnlyFile(all, i);
    }
  }

  lemma {:induction false} NoParentIfNotLinkable(all: seq<Found>, sid: Id, i: nat)
    requires forall j :: i <= j < |all| && all[j].sid == sid ==> !Linkable(all[j])
    ensures ParentFrom(all, sid, i).None?
    decreases |all| - i
  {
    if i < |all| {
      NoParentIfNotLinkable(all, sid, i + 1);
    }
  }

  /** With one file per session id, a directly owned session belongs to no other agent. */
  lemma SeedBelongsToOne(all: seq<Found>, a: Id, b: Id, ownedB: set<Id>, sid: Id)
    requires DistinctSids(all) && a != b && LeastClosed(all, b, ownedB)
    requires sid in Seeds(all, a)
    ensures sid !in ownedB
  {
    TopsApart(all, a, b);
    var i :| 0 <= i < |all| && all[i].sid == sid && (TopOf(all[i], a) || UnderTop(all[i], Tops(all, a)));
    OnlyFile(all, i);
    assert sid !in Seeds(all, b);
    NoParentIfNotLinkable(all, sid, 0);
    LeastIsSupported(all, b, ownedB, sid);
  }

  /** Main result for two agents: with one file per session id no session is claimed twice. */
  lemma NoSessionIsClaimedTwice(all: seq<Found>, a: Id, b: Id, ownedA: set<Id>, ownedB: set<Id>)
    requires DistinctSids(all) && a != b
    requires LeastClosed(all, a, ownedA) && LeastClosed(all, b, ownedB)
    ensures ownedA !! ownedB
  {
    OwnedIsHanging(all, a, ownedA);
    OwnedIsHanging(all, b, ownedB);
    forall sid | sid in Seeds(all, a) ensures !HangsOnSeed(all, b, sid) { SeedBelongsToOne(all, a, b, ownedB, sid); }
    forall sid | sid in Seeds(all, b) ensures !HangsOnSeed(all, a, sid) { SeedBelongsToOne(all, b, a, ownedA, sid); }
    AgentsShareOnlyThroughSeeds(all, a, b, ownedA, ownedB);
  }

  const IDLE := Usage(0, 0, 0, 0, 0, 0, 0)

  /** The same session id found in two directories with different sidecars goes to both agents. */
  lemma SameIdInTwoPlacesIsClaimedTwice()
    ensures var all := [Found(1, [], None, false, NO_ID, Some(7), IDLE, None, None),
                        Found(1, [], None, false, NO_ID, Some(8), IDLE, None, None)];
            LeastClosed(all, 7, {1}) && LeastClosed(all, 8, {1})
  {
    var f := Found(1, [], None, false, NO_ID, Some(7), IDLE, None, None);
    var g := Found(1, [], None, false, NO_ID, Some(8), IDLE, None, None);
    OnlyTop([f, g], 7, 0);
    OnlyTop([f, g], 8, 1);
  }

  lemma OnlyTop(all: seq<Found>, agent: Id, i: nat)
    requires i < |all| && TopOf(all[i], agent)
    requires forall k :: 0 <= k < |all| ==> all[k].sid == all[i].sid && !all[k].isSubagent && !Linkable(all[k])
    ensures LeastClosed(all, agent, {all[i].sid})
  {
    assert Tops(all, agent) == {all[i].sid};
    forall sid ensures ParentOf(all, sid).None? {
      if ParentOf(all, sid).Some? { NoParentWithoutLink(all, sid, 0); }
    }
  }

  // ---- The memo and the link ----

  /** One parent id per session: files with the same session id point back to the same entry. */
  ghost predicate OneParent(all: seq<Found>) {
    forall i, j :: 0 <= i < |all| && 0 <= j < |all| ==>
      Linkable(all[i]) && Linkable(all[j]) && all[i].sid == all[j].sid ==> all[i].parentUuid == all[j].parentUuid
  }

  lemma {:induction false} LinkDependsOnIds(f: Found, g: Found, all: seq<Found>, i: nat)
    requires f.sid == g.sid && f.parentUuid == g.parentUuid
    ensures LinkFrom(f, all, i) == LinkFrom(g, all, i)
    decreases |all| - i
  {
    if i < |all| {
      LinkDependsOnIds(f, g, all, i + 1);
    }
  }

  lemma FirstLinkable(all: seq<Found>, sid: Id, i: nat) returns (j: nat)
    requires i < |all| && Linkable(all[i]) && all[i].sid == sid
    ensures j <= i && Linkable(all[j]) && all[j].sid == sid && ParentOf(all, sid) == Link(all[j], all)
  {
    j := 0;
    while !(Linkable(all[j]) && all[j].sid == sid)
      invariant j <= i
      invariant forall k :: 0 <= k < j ==> !(Linkable(all[k]) && all[k].sid == sid)
      decreases i - j
    {
      j := j + 1;
    }
    ParentFromFirst(all, sid, 0, j);
  }

  ghost predicate LinksAgree(all: seq<Found>) {
    forall i, j :: 0 <= i < |all| && 0 <= j < |all| ==>
      Linkable(all[i]) && Linkable(all[j]) && all[i].sid == all[j].sid ==> Link(all[i], all) == Link(all[j], all)
  }

  ghost predicate MemoIsEveryLink(all: seq<Found>) {
    forall i :: 0 <= i < |all| ==> Linkable(all[i]) ==> ParentOf(all, all[i].sid) == Link(all[i], all)
  }

  /** The remembered parent is every file's parent exactly when files of one session agree. */
  lemma MemoIsTheLink(all: seq<Found>)
    ensures MemoIsEveryLink(all) <==> LinksAgree(all)
    ensures OneParent(all) ==> LinksAgree(all)
  {
    if LinksAgree(all) {
      forall i: nat | i < |all| && Linkable(all[i]) ensures ParentOf(all, all[i].sid) == Link(all[i], all) {
        var j := FirstLinkable(all, all[i].sid, i);
      }
    }
    if OneParent(all) {
      forall i: nat, j: nat | i < |all| && j < |all| && Linkable(all[i]) && Linkable(all[j]) && all[i].sid == all[j].sid
        ensures Link(all[i], all) == Link(all[j], all)
      {
        LinkDependsOnIds(all[i], all[j], all, 0);
      }
    }
  }

  /** Otherwise a second file's link can be missed: the first one's answer, here none, is kept. */
  lemma SecondParentIsMissed()
    ensures var all := [Found(1, [10], None, false, NO_ID, Some(7), IDLE, None, None),
                        Found(2, [], Some(99), false, NO_ID, None, IDLE, None, None),
                        Found(2, [], Some(10), false, NO_ID, None, IDLE, None, None)];
            Link(all[2], all) == Some(1) && ParentOf(all, 2) == None && LeastClosed(all, 7, {1})
  {
    var all := [Found(1, [10], None, false, NO_ID, Some(7), IDLE, None, None),
                Found(2, [], Some(99), false, NO_ID, None, IDLE, None, None),
                Found(2, [], Some(10), false, NO_ID, None, IDLE, None, None)];
    LinkFromIsFirst(all[1], all, 0);
    ParentFromFirst(all, 2, 0, 1);
    assert Answers(all[0], all[2]);
    assert Tops(all, 7) == {1} by { assert TopOf(all[0], 7); }
    forall sid | ParentOf(all, sid).Some? ensures sid == 2 {
      NoParentWithoutLink(all, sid, 0);
    }
  }

  // ---- Links and seeds in the files' own fields ----

  /** A session is linked to the first file of another session, one with an id, that holds the entry it
      points back to. */
  lemma LinkIs(f: Found, all: seq<Found>, k: nat)
    requires k < |all| && f.parentUuid.Some?
    requires all[k].sid != NO_ID && all[k].sid != f.sid && f.parentUuid.value in all[k].uuids
    requires forall j :: 0 <= j < k ==> all[j].sid == NO_ID || all[j].sid == f.sid || f.parentUuid.value !in all[j].uuids
    ensures Link(f, all) == Some(all[k].sid)
  {
    LinkFromIsFirst(f, all, 0);
  }

  /** It is linked to nothing exactly when there is no such file. */
  lemma NoLinkIs(f: Found, all: seq<Found>)
    ensures Link(f, all) == None <==>
            f.parentUuid == None
            || forall j :: 0 <= j < |all| ==> all[j].sid == NO_ID || all[j].sid == f.sid || f.parentUuid.value !in all[j].uuids
  {
    LinkFromIsFirst(f, all, 0);
  }

  /** What an agent owns directly: sessions that are no sub-agents', point back to nothing and carry its
      mark; and the sub-agents' sessions in the directory of one of them. */
  lemma SeedsAre(all: seq<Found>, agent: Id, sid: Id)
    ensures sid in Tops(all, agent) <==>
            exists i :: 0 <= i < |all| && all[i].sid == sid && !all[i].isSubagent && all[i].parentUuid == None
                        && all[i].owner == Some(agent)
    ensures sid in Seeds(all, agent) <==>
            || sid in Tops(all, agent)
            || exists i :: 0 <= i < |all| && all[i].sid == sid && all[i].isSubagent && all[i].parentSid != NO_ID
                           && all[i].parentSid in Tops(all, agent)
  {
  }
}
