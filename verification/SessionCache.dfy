/**
 The incremental copy of a session file: the source is appended to by another program at
 any moment, and every write of the copy may fail or be cut short.
 */
module SessionCache {
  import opened Collections

  newtype Byte = x: int | 0 <= x < 256

  type Bytes = seq<Byte>

  /** `Lost` remembers what a deleted source last held. */
  datatype Source = Present(content: Bytes) | Lost(content: Bytes)

  /** The cached copy and the temporary file beside it. */
  datatype Files = Files(source: Source, cached: Option<Bytes>, tmp: Option<Bytes>)

  /** How a call can go: through, stopped with an error after `k` bytes, stopped at the rename,
      or the whole process gone after `k` bytes. */
  datatype Fault = NoFault | WriteFails(k: nat) | RenameFails | Killed(k: nat)

  function Taken(b: Bytes, k: nat): Bytes {
    if k < |b| then b[..k] else b
  }

  function CachedSize(f: Files): nat {
    if f.cached.Some? then |f.cached.value| else 0
  }

  predicate HasGrown(f: Files) {
    f.source.Present? && |f.source.content| > CachedSize(f)
  }

  /** First copy: written beside the target, then renamed over it. */
  function FullCopy(f: Files, fault: Fault): Files {
    var b := f.source.content;
    match fault
    case NoFault => f.(cached := Some(b), tmp := None)
    case WriteFails(_) => f.(tmp := None)
    case RenameFails => f.(tmp := None)
    case Killed(k) => f.(tmp := Some(Taken(b, k)))
  }

  /** Later copies: only the bytes past the cached ones are appended. */
  function AppendNew(f: Files, fault: Fault): Files
    requires f.cached.Some? && |f.cached.value| <= |f.source.content|
  {
    var old', new' := f.cached.value, f.source.content[|f.cached.value|..];
    match fault
    case NoFault => f.(cached := Some(old' + new'))
    case RenameFails => f.(cached := Some(old' + new'))
    case WriteFails(k) => f.(cached := Some(old' + Taken(new', k)), tmp := None)
    case Killed(k) => f.(cached := Some(old' + Taken(new', k)))
  }

  /** One call; `more` is what the source gains between the size check and the read. */
  function CacheOnce(f: Files, more: Bytes, fault: Fault): Files {
    if !f.source.Present? then f
    else
      var g := f.(source := Present(f.source.content + more));
      if !HasGrown(f) then g
      else if CachedSize(f) == 0 then FullCopy(g, fault)
      else AppendNew(g, fault)
  }

  /** What a call reports: whether it wrote the file. */
  predicate Reports(f: Files, fault: Fault) {
    HasGrown(f) && (fault.NoFault? || (fault.RenameFails? && CachedSize(f) > 0))
  }

  /** Restoring overwrites the source in place; there is no rename that could fail. */
  function RestoreOnce(f: Files, fault: Fault): Files {
    if f.cached.None? then f
    else match fault
      case NoFault => f.(source := Present(f.cached.value))
      case RenameFails => f.(source := Present(f.cached.value))
      case WriteFails(k) => f.(source := Present(Taken(f.cached.value, k)))
      case Killed(k) => f.(source := Present(Taken(f.cached.value, k)))
  }

  class CachedSession {
    var source: Source
    var cached: Option<Bytes>
    var tmp: Option<Bytes>

    function State(): Files
      reads this
    {
      Files(source, cached, tmp)
    }

    constructor (content: Bytes)
      ensures State() == Files(Present(content), None, None)
    {
      source, cached, tmp := Present(content), None, None;
    }

    method CacheSession(more: Bytes, fault: Fault) returns (wrote: bool)
      modifies this
      ensures State() == CacheOnce(old(State()), more, fault)
      ensures wrote == Reports(old(State()), fault)
    {
      if source.Lost? { return false; }
      var srcSize := |source.content|;
      var dstSize := if cached.Some? then |cached.value| else 0;
      source := Present(source.content + more);
      if srcSize <= dstSize { return false; }
      wrote := false;
      if dstSize == 0 {
        match fault
        case WriteFails(k) =>
          tmp := Some(Taken(source.content, k));
          tmp := None;
        case RenameFails =>
          tmp := Some(source.content);
          tmp := None;
        case Killed(k) =>
          tmp := Some(Taken(source.content, k));
        case NoFault =>
          tmp := Some(source.content);
          cached, tmp := tmp, None;
          wrote := true;
      } else {
        var newBytes := source.content[dstSize..];
        match fault
        case WriteFails(k) =>
          cached := Some(cached.value + Taken(newBytes, k));
          tmp := None;
        case Killed(k) =>
          cached := Some(cached.value + Taken(newBytes, k));
        case _ =>
          cached := Some(cached.value + newBytes);
          wrote := true;
      }
    }

    /** Copies the cached file back over whatever is at the source. */
    method RestoreSession(fault: Fault) returns (restored: bool)
      modifies this`source
      ensures State() == RestoreOnce(old(State()), fault)
      ensures restored <==> cached.Some? && (fault.NoFault? || fault.RenameFails?)
    {
      if cached.None? { return false; }
      match fault
      case WriteFails(k) =>
        source := Present(Taken(cached.value, k));
        restored := false;
      case Killed(k) =>
        source := Present(Taken(cached.value, k));
        restored := false;
      case _ =>
        source := Present(cached.value);
        restored := true;
    }
  }

  // ---- The copy is always a prefix ----

  /** The cached bytes are a prefix of the source, or of what the source was when it was lost. */
  ghost predicate CopyIsPrefix(f: Files) {
    f.cached.Some? ==> f.cached.value <= f.source.content
  }

  /** What can happen to the files; a repair cuts the source back to its first `n` bytes. */
  datatype Event = Grow(more: Bytes) | Cache(more: Bytes, fault: Fault) | Lose | Restore(fault: Fault) | Cut(n: nat)

  function After(f: Files, e: Event): Files {
    match e
    case Grow(more) => if f.source.Present? then f.(source := Present(f.source.content + more)) else f
    case Cache(more, fault) => CacheOnce(f, more, fault)
    case Lose => f.(source := Lost(f.source.content))
    case Restore(fault) => RestoreOnce(f, fault)
    case Cut(n) => if f.source.Present? then f.(source := Present(Taken(f.source.content, n))) else f
  }

  function Run(f: Files, events: seq<Event>): Files {
    if events == [] then f else After(Run(f, events[..|events| - 1]), events[|events| - 1])
  }

  /** The event leaves the source no shorter than the copy: a restore gets through, a repair cuts
      nothing that is cached. */
  predicate KeepsCached(f: Files, e: Event) {
    match e
    case Restore(fault) =>
      f.cached.Some? && (fault.WriteFails? || fault.Killed?) ==> fault.k >= |f.cached.value|
    case Cut(n) => f.source.Present? && f.cached.Some? ==> n >= |f.cached.value|
    case _ => true
  }

  lemma AppendedIsPrefix(a: Bytes, b: Bytes, k: nat)
    requires a <= b
    ensures a + Taken(b[|a|..], k) <= b
  {
  }

  lemma CacheKeepsPrefix(f: Files, more: Bytes, fault: Fault)
    requires CopyIsPrefix(f)
    ensures CopyIsPrefix(CacheOnce(f, more, fault))
  {
    if f.source.Present? && f.cached.Some? {
      var b := f.source.content + more;
      assert f.cached.value <= b;
      AppendedIsPrefix(f.cached.value, b, if fault.NoFault? || fault.RenameFails? then |b| else fault.k);
    }
  }

  /** One event keeps the copy a prefix exactly when it leaves the source no shorter than the copy. */
  lemma EventKeepsPrefixExactly(f: Files, e: Event)
    requires CopyIsPrefix(f)
    ensures CopyIsPrefix(After(f, e)) <==> KeepsCached(f, e)
  {
    if e.Cache? { CacheKeepsPrefix(f, e.more, e.fault); }
  }

  /** In the first `n` events of the run. */
  predicate AllKeepCached(f: Files, events: seq<Event>, n: nat)
    requires n <= |events|
  {
    forall i: nat :: i < n ==> KeepsCached(Run(f, events[..i]), events[i])
  }

  lemma RunNext(f: Files, events: seq<Event>, i: nat)
    requires i < |events|
    ensures Run(f, events[..i + 1]) == After(Run(f, events[..i]), events[i])
  {
    assert events[..i + 1][..i] == events[..i];
  }

  lemma {:induction false} PrefixUpTo(f: Files, events: seq<Event>, n: nat)
    requires CopyIsPrefix(f) && n <= |events| && AllKeepCached(f, events, n)
    ensures CopyIsPrefix(Run(f, events[..n]))
  {
    if n > 0 {
      PrefixUpTo(f, events, n - 1);
      RunNext(f, events, n - 1);
      EventKeepsPrefixExactly(Run(f, events[..n - 1]), events[n - 1]);
    }
  }

  /** Main result: whatever grows, fails, is lost, restored or cut back, in any order, the copy is a
      prefix in every state of the run exactly when no restore stops early and no repair cuts
      cached bytes. */
  lemma CopyStaysPrefix(f: Files, events: seq<Event>)
    requires CopyIsPrefix(f)
    ensures (forall i: nat :: i <= |events| ==> CopyIsPrefix(Run(f, events[..i]))) <==> AllKeepCached(f, events, |events|)
    ensures AllKeepCached(f, events, |events|) ==> CopyIsPrefix(Run(f, events))
  {
    assert events[..|events|] == events;
    if AllKeepCached(f, events, |events|) {
      forall i: nat | i <= |events| ensures CopyIsPrefix(Run(f, events[..i])) {
        PrefixUpTo(f, events, i);
      }
    }
    if forall i: nat :: i <= |events| ==> CopyIsPrefix(Run(f, events[..i])) {
      forall i: nat | i < |events| ensures KeepsCached(Run(f, events[..i]), events[i]) {
        RunNext(f, events, i);
        assert CopyIsPrefix(Run(f, events[..i])) && CopyIsPrefix(Run(f, events[..i + 1]));
        EventKeepsPrefixExactly(Run(f, events[..i]), events[i]);
      }
    }
  }

  lemma PrefixCompletes(a: Bytes, b: Bytes)
    requires a <= b
    ensures a + b[|a|..] == b
  {
  }

  lemma FullPrefix(a: Bytes, b: Bytes)
    requires a <= b && |b| <= |a|
    ensures a == b
  {
  }

  lemma OneCatchesUp(g: Files, more: Bytes)
    requires CopyIsPrefix(g) && g.source.Present? && g.source.content != []
    ensures var h := CacheOnce(g, more, NoFault);
            && h.source == Present(g.source.content + more)
            && h.cached == Some(if HasGrown(g) then g.source.content + more else g.source.content)
  {
    if g.cached.Some? {
      if HasGrown(g) {
        PrefixCompletes(g.cached.value, g.source.content + more);
      } else {
        FullPrefix(g.cached.value, g.source.content);
      }
    }
  }

  /** After any run, one call that goes through leaves the copy equal to everything the source
      held when it was read, or, if nothing was new at the size check, to what it held then. */
  lemma NextSuccessCatchesUp(f: Files, events: seq<Event>, more: Bytes)
    requires CopyIsPrefix(f)
    ensures var g := Run(f, events);
            var h := CacheOnce(g, more, NoFault);
            AllKeepCached(f, events, |events|) && g.source.Present? && g.source.content != [] ==>
              && h.source == Present(g.source.content + more)
              && h.cached == Some(if HasGrown(g) then g.source.content + more else g.source.content)
  {
    var g := Run(f, events);
    if AllKeepCached(f, events, |events|) && g.source.Present? && g.source.content != [] {
      CopyStaysPrefix(f, events);
      OneCatchesUp(g, more);
    }
  }

  /** After any run, restoring brings back a prefix of what was lost, and losing nothing after
      the last successful call means getting everything back. */
  lemma RestoreGivesPrefix(f: Files, events: seq<Event>, fault: Fault)
    requires CopyIsPrefix(f)
    ensures AllKeepCached(f, events, |events|) && Run(f, events).cached.Some? ==>
              After(Run(f, events), Restore(fault)).source.content <= Run(f, events).source.content
  {
    CopyStaysPrefix(f, events);
  }

  lemma RestoreAfterSuccessIsComplete(f: Files, events: seq<Event>)
    requires CopyIsPrefix(f)
    ensures var g := Run(f, events);
            AllKeepCached(f, events, |events|) && g.source.Present? && g.source.content != [] ==>
              After(After(CacheOnce(g, [], NoFault), Lose), Restore(NoFault)).source == Present(g.source.content)
  {
    NextSuccessCatchesUp(f, events, []);
    assert Run(f, events).source.content + [] == Run(f, events).source.content;
  }

  /** Nothing is ever lost from the copy: it only grows. */
  lemma CopyOnlyGrows(f: Files, e: Event)
    requires f.cached.Some? && CopyIsPrefix(f)
    ensures After(f, e).cached.Some? && f.cached.value <= After(f, e).cached.value
  {
    if e.Cache? && f.source.Present? {
      assert f.cached.value == [] ==> f.cached.value <= After(f, e).cached.value;
    }
  }

  // ---- Repair, and why the source may only be appended to ----

  /** A line of the file as the repair reads it. */
  datatype RepairLine = Blank | Broken | Valid(text: nat)

  /** Drops lines from the end until one parses. */
  method RepairLines(lines: seq<RepairLine>) returns (kept: seq<RepairLine>, removed: bool)
    ensures kept <= lines && (removed <==> kept != lines)
    ensures kept != [] ==> kept[|kept| - 1].Valid?
    ensures forall i :: |kept| <= i < |lines| ==> !lines[i].Valid?
  {
    kept := lines;
    while kept != []
      invariant kept <= lines
      invariant forall i :: |kept| <= i < |lines| ==> !lines[i].Valid?
      decreases |kept|
    {
      if kept[|kept| - 1].Valid? { break; }
      kept := kept[..|kept| - 1];
    }
    removed := |kept| != |lines|;
  }

  /** Once the source has been cut back and has grown past the copy again, the next call makes the
      copy a prefix exactly if the source grew back to what was cached; otherwise the copy mixes
      old bytes with new ones. */
  lemma RegrownSourceExactly(f: Files, more: Bytes)
    requires f.cached.Some? && f.cached.value != [] && HasGrown(f)
    ensures var g := CacheOnce(f, more, NoFault);
            && g.cached.value == f.cached.value + (f.source.content + more)[|f.cached.value|..]
            && |g.cached.value| == |g.source.content|
            && (CopyIsPrefix(g) <==> f.cached.value <= f.source.content)
  {
    var copy, b := f.cached.value, f.source.content + more;
    var new' := b[|copy|..];
    assert b[..|copy|] == f.source.content[..|copy|];
    assert (copy + new')[..|copy|] == copy;
    if copy <= f.source.content {
      assert copy + new' == b;
    }
    if copy + new' <= b {
      assert copy == b[..|copy|];
    }
  }

  /** A run that does so: cut inside what is cached, regrown, cached again. */
  lemma CutAndRegrown(f: Files, n: nat, grown: Bytes)
    requires f.source.Present? && f.cached == Some(f.source.content) && n < |f.source.content|
    requires n + |grown| > |f.source.content|
    ensures CopyIsPrefix(f) && !CopyIsPrefix(After(f, Cut(n)))
    ensures CopyIsPrefix(After(After(After(f, Cut(n)), Grow(grown)), Cache([], NoFault)))
            <==> f.source.content[n..] <= grown
  {
    var b := f.source.content;
    var cut := After(f, Cut(n));
    var g := After(cut, Grow(grown));
    RegrownSourceExactly(g, []);
    assert b == b[..n] + b[n..];
    if b[n..] <= grown {
      assert b <= b[..n] + grown;
    }
    if b <= b[..n] + grown {
      assert b[n..] == (b[..n] + grown)[n..|b|] == grown[..|b| - n];
    }
  }

  // ---- One call, case by case ----

  /** A call that finds nothing new copies nothing and reports so. */
  lemma NothingNewIsNoop(f: Files, more: Bytes, fault: Fault)
    requires f.source.Present?
    requires |f.source.content| <= if f.cached.Some? then |f.cached.value| else 0
    ensures CacheOnce(f, more, fault) == f.(source := Present(f.source.content + more)) && !Reports(f, fault)
  {
  }

  /** The first copy is there whole or not at all; a temporary file is left only by a process that died. */
  lemma FirstCopyIsAtomic(f: Files, more: Bytes, fault: Fault)
    requires f.source.Present? && f.cached == None && f.source.content != []
    ensures var g := CacheOnce(f, more, fault);
            && g.cached == (if fault == NoFault then Some(f.source.content + more) else None)
            && (g.tmp == None <==> !fault.Killed?)
            && (Reports(f, fault) <==> fault == NoFault)
  {
  }

  /** Later calls append what is new, as far as the write gets. */
  lemma LaterCallsAppend(f: Files, more: Bytes, fault: Fault)
    requires f.source.Present? && f.cached.Some? && 0 < |f.cached.value| < |f.source.content|
    ensures var g, added := CacheOnce(f, more, fault), (f.source.content + more)[|f.cached.value|..];
            && g.cached.Some? && g.source == Present(f.source.content + more)
            && (fault.NoFault? || fault.RenameFails? ==> g.cached.value == f.cached.value + added)
            && (fault.WriteFails? || fault.Killed? ==>
                  g.cached.value == f.cached.value + (if fault.k < |added| then added[..fault.k] else added))
            && (Reports(f, fault) <==> fault.NoFault? || fault.RenameFails?)
  {
  }

  /** A restore overwrites the source with the copy, as far as the write gets. */
  lemma RestoreOverwrites(f: Files, fault: Fault)
    ensures f.cached == None ==> RestoreOnce(f, fault) == f
    ensures f.cached.Some? ==>
              && RestoreOnce(f, fault).source.Present? && RestoreOnce(f, fault) == f.(source := RestoreOnce(f, fault).source)
              && (fault.NoFault? || fault.RenameFails? ==> RestoreOnce(f, fault).source.content == f.cached.value)
              && (fault.WriteFails? || fault.Killed? ==>
                    RestoreOnce(f, fault).source.content
                    == if fault.k < |f.cached.value| then f.cached.value[..fault.k] else f.cached.value)
  {
  }
}
