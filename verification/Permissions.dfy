/**
 Tool permissions: a hook waits for the user's decision on its request. Requests are
 objects shared by the pending table and the waiters; here they are numbered, and the table
 and the waiters hold numbers. Each method up to the next `await` is one atomic step.
 */
module Permissions {
  import opened Collections

  type Id = nat
  type Tool = nat

  datatype Decision = Allow | Deny

  datatype Verdict = Verdict(decision: Decision, reason: Option<string>, input: Option<string>)

  /** `verdict` is what was last written; the event is set from the first writing on. */
  datatype Request = Request(id: Id, agent: Id, tool: Tool, event: bool, decision: Option<Decision>,
                             reason: Option<string>, input: Option<string>)

  datatype Manager = Manager(requests: seq<Request>, pending: map<Id, nat>, always: map<Id, set<Tool>>)

  const STOPPED := "Agent stopped"
  const NOT_FOUND := "Request not found"

  /** Table entries name a request with their own id. */
  ghost predicate Valid(m: Manager) {
    forall id :: id in m.pending ==> m.pending[id] < |m.requests| && m.requests[m.pending[id]].id == id
  }

  predicate IsPending(m: Manager, r: nat)
    requires r < |m.requests|
  {
    m.requests[r].id in m.pending && m.pending[m.requests[r].id] == r
  }

  function VerdictOf(q: Request): Verdict {
    Verdict(if q.decision.Some? then q.decision.value else Deny, q.reason, q.input)
  }

  // ---- The manager's steps ----

  function Create(m: Manager, id: Id, agent: Id, tool: Tool): Manager {
    m.(requests := m.requests + [Request(id, agent, tool, false, None, None, None)],
       pending := m.pending[id := |m.requests|])
  }

  function Decided(q: Request, v: Verdict): Request {
    q.(decision := Some(v.decision), reason := v.reason, input := v.input, event := true)
  }

  function Respond(m: Manager, id: Id, v: Verdict): Manager
    requires Valid(m)
  {
    if id !in m.pending then m
    else m.(requests := m.requests[m.pending[id] := Decided(m.requests[m.pending[id]], v)])
  }

  /** Stopping denies, and leaves an input written before in place. */
  function Stopped(q: Request): Request {
    q.(decision := Some(Deny), reason := Some(STOPPED), event := true)
  }

  predicate Clears(m: Manager, agent: Id, r: nat)
    requires r < |m.requests|
  {
    IsPending(m, r) && m.requests[r].agent == agent
  }

  function ClearAgent(m: Manager, agent: Id): Manager
    requires Valid(m)
  {
    Manager(seq(|m.requests|, r requires 0 <= r < |m.requests| =>
                  if Clears(m, agent, r) then Stopped(m.requests[r]) else m.requests[r]),
            map id | id in m.pending && m.requests[m.pending[id]].agent != agent :: m.pending[id],
            m.always - {agent})
  }

  function Rules(m: Manager, agent: Id): set<Tool> {
    if agent in m.always then m.always[agent] else {}
  }

  function AlwaysAllow(m: Manager, agent: Id, tool: Tool): Manager {
    m.(always := m.always[agent := Rules(m, agent) + {tool}])
  }

  /** A waiter sleeps on a request, or has returned, or was given up by its caller. */
  datatype Waiter = Asleep(id: Id, r: nat) | Returned(found: Option<nat>, verdict: Verdict) | GivenUp

  /** What waiting for `id` begins with. */
  function WaiterFor(m: Manager, id: Id): Waiter {
    if id in m.pending then Asleep(id, m.pending[id]) else Returned(None, Verdict(Deny, Some(NOT_FOUND), None))
  }

  /** What a woken waiter does: whatever is under its id leaves the table. */
  function Wake(m: Manager, id: Id): Manager {
    m.(pending := m.pending - {id})
  }

  class PermissionManager {
    var requests: seq<Request>
    var pending: map<Id, nat>
    var always: map<Id, set<Tool>>

    function State(): Manager
      reads this
    {
      Manager(requests, pending, always)
    }

    constructor ()
      ensures State() == Manager([], map[], map[]) && Valid(State())
    {
      requests, pending, always := [], map[], map[];
    }

    method AddAlwaysAllow(agent: Id, tool: Tool)
      modifies this`always
      ensures State() == AlwaysAllow(old(State()), agent, tool)
    {
      if agent !in always { always := always[agent := {}]; }
      always := always[agent := always[agent] + {tool}];
    }

    method CheckAlwaysAllow(agent: Id, tool: Tool) returns (ok: bool)
      ensures ok <==> tool in Rules(State(), agent)
    {
      ok := agent in always && tool in always[agent];
    }

    /** `id` is the random token drawn for the request. */
    method CreateRequest(id: Id, agent: Id, tool: Tool) returns (r: nat)
      requires Valid(State())
      modifies this`requests, this`pending
      ensures State() == Create(old(State()), id, agent, tool) && r == |old(requests)|
      ensures Valid(State())
    {
      r := |requests|;
      requests := requests + [Request(id, agent, tool, false, None, None, None)];
      pending := pending[id := r];
    }

    /** The first half of waiting: sleep on the request, or return at once when there is none. */
    method StartWaiting(id: Id) returns (w: Waiter)
      requires Valid(State())
      ensures w == WaiterFor(State(), id)
    {
      if id !in pending { return Returned(None, Verdict(Deny, Some(NOT_FOUND), None)); }
      w := Asleep(id, pending[id]);
    }

    /** The second half, once the event is set. */
    method FinishWaiting(id: Id, r: nat) returns (v: Verdict)
      requires Valid(State()) && r < |requests| && requests[r].event
      modifies this`pending
      ensures State() == Wake(old(State()), id) && Valid(State())
      ensures v == VerdictOf(requests[r])
    {
      pending := pending - {id};
      v := VerdictOf(requests[r]);
    }

    method RespondTo(id: Id, v: Verdict) returns (found: bool)
      requires Valid(State())
      modifies this`requests
      ensures State() == Respond(old(State()), id, v) && Valid(State())
      ensures found <==> id in pending
    {
      if id !in pending { return false; }
      var r := pending[id];
      requests := requests[r := Decided(requests[r], v)];
      return true;
    }

    /** Denies and drops the agent's pending requests one by one. */
    method StopAgent(agent: Id)
      requires Valid(State())
      modifies this
      ensures State() == ClearAgent(old(State()), agent) && Valid(State())
    {
      ghost var m := State();
      always := always - {agent};
      var rest := set id | id in pending && requests[pending[id]].agent == agent;
      while rest != {}
        invariant Halfway(m, State(), agent, rest)
        decreases |rest|
      {
        var id :| id in rest;
        var r := pending[id];
        StopOne(m, State(), agent, rest, id);
        pending := pending - {id};
        requests := requests[r := Stopped(requests[r])];
        rest := rest - {id};
      }
      HalfwayEnds(m, State(), agent);
    }
  }

  /** Everything of the agent's is stopped and dropped, except what is in `rest`. */
  ghost predicate Halfway(m: Manager, n: Manager, agent: Id, rest: set<Id>) {
    && Valid(m) && n.always == m.always - {agent} && |n.requests| == |m.requests|
    && (forall id :: id in rest ==> id in m.pending && m.requests[m.pending[id]].agent == agent)
    && (forall id :: id in n.pending <==> id in m.pending && (m.requests[m.pending[id]].agent != agent || id in rest))
    && (forall id :: id in n.pending ==> n.pending[id] == m.pending[id])
    && (forall r :: 0 <= r < |m.requests| ==>
          n.requests[r] == if Clears(m, agent, r) && m.requests[r].id !in rest then Stopped(m.requests[r])
                           else m.requests[r])
  }

  lemma StopOne(m: Manager, n: Manager, agent: Id, rest: set<Id>, id: Id)
    requires Halfway(m, n, agent, rest) && id in rest
    ensures id in n.pending && n.pending[id] < |n.requests|
    ensures Halfway(m, n.(pending := n.pending - {id},
                          requests := n.requests[n.pending[id] := Stopped(n.requests[n.pending[id]])]),
                    agent, rest - {id})
  {
    var r := m.pending[id];
    assert Clears(m, agent, r) && m.requests[r].id == id;
    forall q: nat | q < |m.requests| && q != r && Clears(m, agent, q) ensures m.requests[q].id != id {}
  }

  lemma HalfwayEnds(m: Manager, n: Manager, agent: Id)
    requires Halfway(m, n, agent, {})
    ensures n == ClearAgent(m, agent) && Valid(n)
  {
    assert n.requests == ClearAgent(m, agent).requests;
    assert n.pending == ClearAgent(m, agent).pending;
  }

  // ---- Clearing an agent ----

  /** Nothing of the agent's stays pending or allowed, and nobody else notices. */
  lemma ClearTouchesOnlyTheAgent(m: Manager, agent: Id)
    requires Valid(m)
    ensures var n := ClearAgent(m, agent);
            && Valid(n) && agent !in n.always
            && (forall id :: id in n.pending ==> n.requests[n.pending[id]].agent != agent)
            && (forall id :: id in m.pending && m.requests[m.pending[id]].agent != agent ==>
                  id in n.pending && n.pending[id] == m.pending[id])
            && (forall r :: 0 <= r < |m.requests| && m.requests[r].agent != agent ==> n.requests[r] == m.requests[r])
            && (forall r :: 0 <= r < |m.requests| && Clears(m, agent, r) ==>
                  n.requests[r].event && n.requests[r].decision == Some(Deny))
            && (forall a :: a != agent && a in m.always ==> a in n.always && n.always[a] == m.always[a])
  {
  }

  // ---- Interleavings ----

  /** `history` keeps, per request, everything written to it, in order. */
  datatype System = System(m: Manager, waiters: seq<Waiter>, history: seq<seq<Verdict>>)

  datatype Step =
    | DoCreate(id: Id, agent: Id, tool: Tool)
    | DoWait(id: Id)
    | DoWake(w: nat)
    | DoGiveUp(w: nat)
    | DoRespond(id: Id, verdict: Verdict)
    | DoClear(agent: Id)
    | DoAllow(agent: Id, tool: Tool)

  const EMPTY := System(Manager([], map[], map[]), [], [])

  ghost predicate WellFormed(s: System) {
    && Valid(s.m) && |s.history| == |s.m.requests|
    && forall w :: 0 <= w < |s.waiters| && s.waiters[w].Asleep? ==>
         s.waiters[w].r < |s.m.requests| && s.m.requests[s.waiters[w].r].id == s.waiters[w].id
  }

  predicate UsedId(m: Manager, id: Id) {
    exists r :: 0 <= r < |m.requests| && m.requests[r].id == id
  }

  /** A waiter wakes only when its event is set. */
  ghost predicate Enabled(s: System, step: Step)
    requires WellFormed(s)
  {
    match step
    case DoWake(w) => w < |s.waiters| && s.waiters[w].Asleep? && s.m.requests[s.waiters[w].r].event
    case DoGiveUp(w) => w < |s.waiters| && s.waiters[w].Asleep?
    case _ => true
  }

  function StoppedHistory(s: System, agent: Id): seq<seq<Verdict>>
    requires WellFormed(s)
  {
    seq(|s.history|, r requires 0 <= r < |s.history| =>
          if Clears(s.m, agent, r) then s.history[r] + [VerdictOf(Stopped(s.m.requests[r]))] else s.history[r])
  }

  ghost function Take(s: System, step: Step): System
    requires WellFormed(s) && Enabled(s, step)
  {
    match step
    case DoCreate(id, agent, tool) => s.(m := Create(s.m, id, agent, tool), history := s.history + [[]])
    case DoWait(id) => s.(waiters := s.waiters + [WaiterFor(s.m, id)])
    case DoWake(w) =>
      s.(m := Wake(s.m, s.waiters[w].id),
         waiters := s.waiters[w := Returned(Some(s.waiters[w].r), VerdictOf(s.m.requests[s.waiters[w].r]))])
    case DoGiveUp(w) => s.(waiters := s.waiters[w := GivenUp])
    case DoRespond(id, v) =>
      s.(m := Respond(s.m, id, v),
         history := if id in s.m.pending
                    then s.history[s.m.pending[id] := s.history[s.m.pending[id]] + [v]] else s.history)
    case DoClear(agent) => s.(m := ClearAgent(s.m, agent), history := StoppedHistory(s, agent))
    case DoAllow(agent, tool) => s.(m := AlwaysAllow(s.m, agent, tool))
  }

  /** No lost wake-up: a sleeping waiter's request can still be answered, or has been. */
  ghost predicate NotLost(s: System, w: nat)
    requires WellFormed(s) && w < |s.waiters| && s.waiters[w].Asleep?
  {
    IsPending(s.m, s.waiters[w].r) || s.m.requests[s.waiters[w].r].event
  }

  /** What the request holds is the last thing written to it; its event is set once there is one. */
  ghost predicate Recorded(q: Request, h: seq<Verdict>) {
    && (q.event <==> h != [])
    && (h == [] ==> q.decision.None? && q.reason.None? && q.input.None?)
    && (h != [] ==> q.decision.Some? && VerdictOf(q) == h[|h| - 1])
  }

  ghost predicate NoneLost(s: System)
    requires WellFormed(s)
  {
    forall w :: 0 <= w < |s.waiters| && s.waiters[w].Asleep? ==> NotLost(s, w)
  }

  ghost predicate AllRecorded(s: System)
    requires WellFormed(s)
  {
    forall r :: 0 <= r < |s.history| ==> Recorded(s.m.requests[r], s.history[r])
  }

  ghost predicate Inv(s: System) {
    WellFormed(s) && NoneLost(s) && AllRecorded(s)
  }

  /** Waiter `w` sleeps under `id` and its request has no answer yet. */
  ghost predicate Unanswered(s: System, w: nat, id: Id)
    requires WellFormed(s)
  {
    w < |s.waiters| && s.waiters[w].Asleep? && s.waiters[w].id == id && !s.m.requests[s.waiters[w].r].event
  }

  ghost predicate AwaitedUnanswered(s: System, id: Id)
    requires WellFormed(s)
  {
    exists w :: Unanswered(s, w, id)
  }

  /** Ids are drawn at random. What matters is that nobody waits without an answer under the id that
      is drawn, nor under the id that a woken waiter takes out of the table. */
  ghost predicate Guarded(s: System, step: Step)
    requires WellFormed(s) && Enabled(s, step)
  {
    match step
    case DoCreate(id, _, _) => !AwaitedUnanswered(s, id)
    case DoWake(w) => !AwaitedUnanswered(s, s.waiters[w].id)
    case _ => true
  }

  // ---- Which steps lose nobody ----

  lemma CreateLosesExactly(s: System, id: Id, agent: Id, tool: Tool)
    requires WellFormed(s) && NoneLost(s)
    ensures WellFormed(Take(s, DoCreate(id, agent, tool)))
    ensures NoneLost(Take(s, DoCreate(id, agent, tool))) <==> !AwaitedUnanswered(s, id)
  {
    var t := Take(s, DoCreate(id, agent, tool));
    if w :| Unanswered(s, w, id) {
      assert !NotLost(t, w);
    } else {
      forall w | 0 <= w < |t.waiters| && t.waiters[w].Asleep? ensures NotLost(t, w) {
        assert NotLost(s, w) && !Unanswered(s, w, id);
      }
    }
  }

  lemma WakeLosesExactly(s: System, w: nat)
    requires WellFormed(s) && NoneLost(s) && Enabled(s, DoWake(w))
    ensures WellFormed(Take(s, DoWake(w)))
    ensures NoneLost(Take(s, DoWake(w))) <==> !AwaitedUnanswered(s, s.waiters[w].id)
  {
    var t := Take(s, DoWake(w));
    if v :| Unanswered(s, v, s.waiters[w].id) {
      assert v != w && !NotLost(t, v);
    } else {
      forall v | 0 <= v < |t.waiters| && t.waiters[v].Asleep? ensures NotLost(t, v) {
        assert NotLost(s, v) && !Unanswered(s, v, s.waiters[w].id);
      }
    }
  }

  lemma OthersLoseNobody(s: System, step: Step)
    requires WellFormed(s) && Enabled(s, step) && NoneLost(s) && !step.DoCreate? && !step.DoWake?
    ensures WellFormed(Take(s, step)) && NoneLost(Take(s, step))
  {
    var t := Take(s, step);
    forall w | 0 <= w < |t.waiters| && t.waiters[w].Asleep? ensures NotLost(t, w) {
      if w < |s.waiters| { assert NotLost(s, w); }
    }
  }

  /** From a state in which nobody is lost, a step loses nobody exactly when it is guarded. */
  lemma StepLosesExactly(s: System, step: Step)
    requires WellFormed(s) && Enabled(s, step) && NoneLost(s)
    ensures WellFormed(Take(s, step))
    ensures NoneLost(Take(s, step)) <==> Guarded(s, step)
  {
    match step
    case DoCreate(id, agent, tool) => CreateLosesExactly(s, id, agent, tool);
    case DoWake(w) => WakeLosesExactly(s, w);
    case _ => OthersLoseNobody(s, step);
  }

  lemma StepRecords(s: System, step: Step)
    requires WellFormed(s) && Enabled(s, step) && AllRecorded(s)
    ensures WellFormed(Take(s, step)) && AllRecorded(Take(s, step))
  {
    var t := Take(s, step);
    forall r | 0 <= r < |t.history| ensures Recorded(t.m.requests[r], t.history[r]) {
      assert r < |s.history| ==> Recorded(s.m.requests[r], s.history[r]);
    }
  }

  ghost predicate Leads(s: System, step: Step, t: System) {
    WellFormed(s) && Enabled(s, step) && t == Take(s, step)
  }

  ghost predicate Interleaving(states: seq<System>, steps: seq<Step>) {
    && |states| == |steps| + 1 && states[0] == EMPTY
    && forall i :: 0 <= i < |steps| ==> Leads(states[i], steps[i], states[i + 1])
  }

  lemma {:induction false} AlwaysRecorded(states: seq<System>, steps: seq<Step>, i: nat)
    requires Interleaving(states, steps) && i < |states|
    ensures WellFormed(states[i]) && AllRecorded(states[i])
  {
    if i > 0 {
      AlwaysRecorded(states, steps, i - 1);
      assert Leads(states[i - 1], steps[i - 1], states[i]);
      StepRecords(states[i - 1], steps[i - 1]);
    }
  }

  ghost predicate GuardedStep(s: System, step: Step) {
    WellFormed(s) && Enabled(s, step) && Guarded(s, step)
  }

  lemma {:induction false} LosesNobodyUpTo(states: seq<System>, steps: seq<Step>, n: nat)
    requires Interleaving(states, steps) && n <= |steps|
    requires forall j :: 0 <= j < n ==> GuardedStep(states[j], steps[j])
    ensures Inv(states[n])
  {
    AlwaysRecorded(states, steps, n);
    if n > 0 {
      LosesNobodyUpTo(states, steps, n - 1);
      assert Leads(states[n - 1], steps[n - 1], states[n]);
      assert GuardedStep(states[n - 1], steps[n - 1]);
      StepLosesExactly(states[n - 1], steps[n - 1]);
    }
  }

  /** Main result: in every interleaving of creating, waiting, waking, giving up, answering, allowing
      and stopping, every request holds what was last written to it, and no sleeping waiter is
      ever lost exactly when every step is guarded. */
  lemma {:induction false} NoLostWakeup(states: seq<System>, steps: seq<Step>)
    requires Interleaving(states, steps)
    ensures forall i :: 0 <= i < |states| ==> WellFormed(states[i]) && AllRecorded(states[i])
    ensures (forall i :: 0 <= i < |states| ==> Inv(states[i]))
            <==> (forall i :: 0 <= i < |steps| ==> GuardedStep(states[i], steps[i]))
  {
    forall i | 0 <= i < |states| ensures WellFormed(states[i]) && AllRecorded(states[i]) {
      AlwaysRecorded(states, steps, i);
    }
    if forall i :: 0 <= i < |steps| ==> GuardedStep(states[i], steps[i]) {
      forall i | 0 <= i < |states| ensures Inv(states[i]) {
        LosesNobodyUpTo(states, steps, i);
      }
    }
    if forall i :: 0 <= i < |states| ==> Inv(states[i]) {
      forall i | 0 <= i < |steps| ensures GuardedStep(states[i], steps[i]) {
        assert Leads(states[i], steps[i], states[i + 1]) && Inv(states[i]) && Inv(states[i + 1]);
        StepLosesExactly(states[i], steps[i]);
      }
    }
  }

  ghost predicate DistinctIds(m: Manager) {
    forall q, r :: 0 <= q < r < |m.requests| ==> m.requests[q].id != m.requests[r].id
  }

  /** Where all ids are different and the one drawn is new, every step is guarded. */
  lemma NewIdsAreGuarded(s: System, step: Step)
    requires WellFormed(s) && Enabled(s, step) && DistinctIds(s.m)
    requires step.DoCreate? ==> !UsedId(s.m, step.id)
    ensures Guarded(s, step) && DistinctIds(Take(s, step).m)
  {
    forall id, w: nat | Unanswered(s, w, id) ensures UsedId(s.m, id) {
      assert s.m.requests[s.waiters[w].r].id == id;
    }
  }

  /** A sleeper can always be released: answer its id, if it is not released already. */
  lemma AnsweringReleases(s: System, w: nat, v: Verdict)
    requires Inv(s) && w < |s.waiters| && s.waiters[w].Asleep?
    ensures Inv(Take(s, DoRespond(s.waiters[w].id, v)))
    ensures Enabled(Take(s, DoRespond(s.waiters[w].id, v)), DoWake(w))
  {
    StepLosesExactly(s, DoRespond(s.waiters[w].id, v));
    StepRecords(s, DoRespond(s.waiters[w].id, v));
    assert NotLost(s, w);
  }

  /** So does stopping the request's agent. */
  lemma StoppingReleases(s: System, w: nat)
    requires Inv(s) && w < |s.waiters| && s.waiters[w].Asleep?
    ensures Inv(Take(s, DoClear(s.m.requests[s.waiters[w].r].agent)))
    ensures Enabled(Take(s, DoClear(s.m.requests[s.waiters[w].r].agent)), DoWake(w))
  {
    StepLosesExactly(s, DoClear(s.m.requests[s.waiters[w].r].agent));
    StepRecords(s, DoClear(s.m.requests[s.waiters[w].r].agent));
    assert NotLost(s, w);
  }

  /** A woken waiter returns the last thing written to the very request it found. */
  lemma WakeReturnsLastWritten(s: System, w: nat)
    requires Inv(s) && Enabled(s, DoWake(w))
    ensures var r, h := s.waiters[w].r, s.history[s.waiters[w].r];
            h != [] && Take(s, DoWake(w)).waiters[w] == Returned(Some(r), h[|h| - 1])
  {
    assert Recorded(s.m.requests[s.waiters[w].r], s.history[s.waiters[w].r]);
  }

  // ---- An id drawn again ----

  lemma AnsweredButAsleep(v: Verdict) returns (s1: System, s2: System, s3: System)
    ensures Leads(EMPTY, DoCreate(1, 7, 0), s1) && Leads(s1, DoWait(1), s2) && Leads(s2, DoRespond(1, v), s3)
    ensures WellFormed(s3) && s3.waiters == [Asleep(1, 0)]
    ensures |s3.m.requests| == 1 && s3.m.requests[0].id == 1 && s3.m.requests[0].event
  {
    s1 := Take(EMPTY, DoCreate(1, 7, 0));
    s2 := Take(s1, DoWait(1));
    s3 := Take(s2, DoRespond(1, v));
  }

  lemma SecondIsOvertaken(s3: System) returns (s4: System, s5: System, s6: System)
    requires WellFormed(s3) && s3.waiters == [Asleep(1, 0)]
    requires |s3.m.requests| == 1 && s3.m.requests[0].id == 1 && s3.m.requests[0].event
    ensures Leads(s3, DoCreate(1, 7, 0), s4) && Leads(s4, DoWait(1), s5) && Leads(s5, DoWake(0), s6)
    ensures Enabled(s5, DoWake(0)) && Unanswered(s5, 1, 1)
    ensures WellFormed(s6) && |s6.waiters| == 2 && s6.waiters[1] == Asleep(1, 1) && !NotLost(s6, 1)
  {
    s4 := Take(s3, DoCreate(1, 7, 0));
    s5 := Take(s4, DoWait(1));
    s6 := Take(s5, DoWake(0));
  }

  /** Request 0 is answered but its waiter still sleeps; its id is drawn again; the waiter wakes
      and takes the new request out of the table. */
  lemma RepeatedIdLosesWaiter(v: Verdict) returns (states: seq<System>, steps: seq<Step>)
    ensures Interleaving(states, steps) && |states| == 7 && !GuardedStep(states[5], steps[5])
    ensures WellFormed(states[6]) && |states[6].waiters| == 2 && states[6].waiters[1] == Asleep(1, 1)
    ensures !NotLost(states[6], 1)
  {
    var s1, s2, s3 := AnsweredButAsleep(v);
    var s4, s5, s6 := SecondIsOvertaken(s3);
    steps := [DoCreate(1, 7, 0), DoWait(1), DoRespond(1, v), DoCreate(1, 7, 0), DoWait(1), DoWake(0)];
    states := [EMPTY, s1, s2, s3, s4, s5, s6];
    assert states[5] == s5 && steps[5] == DoWake(0);
  }

  /** And a waiter lost once sleeps on through every later step, whoever answers or stops what. */
  lemma LostStaysLost(s: System, step: Step, w: nat)
    requires WellFormed(s) && Enabled(s, step)
    requires w < |s.waiters| && s.waiters[w].Asleep? && !NotLost(s, w)
    requires step != DoGiveUp(w)
    ensures var t := Take(s, step);
            w < |t.waiters| && t.waiters[w] == s.waiters[w] && WellFormed(t) && !NotLost(t, w)
  {
    var t := Take(s, step);
    assert step.DoClear? ==> !Clears(s.m, step.agent, s.waiters[w].r);
  }

  // ---- Standing permissions ----

  /** After the step, is the tool allowed for the agent without asking? */
  predicate AllowedAfter(step: Step, before: bool, agent: Id, tool: Tool) {
    match step
    case DoAllow(a, t) => before || (a == agent && t == tool)
    case DoClear(a) => before && a != agent
    case _ => before
  }

  ghost predicate Permitted(steps: seq<Step>, n: nat, agent: Id, tool: Tool)
    requires n <= |steps|
  {
    exists j :: 0 <= j < n && steps[j] == DoAllow(agent, tool)
                && forall k :: j < k < n ==> steps[k] != DoClear(agent)
  }

  lemma PermittedStep(steps: seq<Step>, n: nat, agent: Id, tool: Tool)
    requires 0 < n <= |steps|
    ensures Permitted(steps, n, agent, tool)
            <==> AllowedAfter(steps[n - 1], Permitted(steps, n - 1, agent, tool), agent, tool)
  {
    if Permitted(steps, n, agent, tool) {
      var j :| 0 <= j < n && steps[j] == DoAllow(agent, tool) && forall k :: j < k < n ==> steps[k] != DoClear(agent);
      assert j < n - 1 ==> Permitted(steps, n - 1, agent, tool);
    }
    if Permitted(steps, n - 1, agent, tool) && steps[n - 1] != DoClear(agent) {
      var j :| 0 <= j < n - 1 && steps[j] == DoAllow(agent, tool) && forall k :: j < k < n - 1 ==> steps[k] != DoClear(agent);
      assert Permitted(steps, n, agent, tool);
    }
  }

  /** In every interleaving, a tool is allowed without asking exactly when it was once allowed for the
      agent and the agent has not been stopped since. */
  lemma {:induction false} AllowedUntilStopped(states: seq<System>, steps: seq<Step>, n: nat, agent: Id, tool: Tool)
    requires Interleaving(states, steps) && n <= |steps|
    ensures tool in Rules(states[n].m, agent) <==> Permitted(steps, n, agent, tool)
  {
    if n > 0 {
      AllowedUntilStopped(states, steps, n - 1, agent, tool);
      PermittedStep(steps, n, agent, tool);
      assert Leads(states[n - 1], steps[n - 1], states[n]);
    }
  }

  // ---- What requests and waiters hold ----

  /** A new request says who asks for which tool and holds no answer yet. */
  lemma NewRequest(m: Manager, id: Id, agent: Id, tool: Tool)
    ensures var n, r := Create(m, id, agent, tool), |m.requests|;
            && |n.requests| == r + 1 && n.requests[..r] == m.requests && n.always == m.always
            && n.requests[r].id == id && n.requests[r].agent == agent && n.requests[r].tool == tool
            && !n.requests[r].event && n.requests[r].decision == None
            && n.requests[r].reason == None && n.requests[r].input == None
            && n.pending == m.pending[id := r]
  {
  }

  /** An answer reaches the request under the id, with all it says, and no other. */
  lemma AnsweredRequest(m: Manager, id: Id, v: Verdict)
    requires Valid(m)
    ensures id !in m.pending ==> Respond(m, id, v) == m
    ensures id in m.pending ==>
              var n, r := Respond(m, id, v), m.pending[id];
              && n == m.(requests := n.requests) && |n.requests| == |m.requests|
              && n.requests[r].event && n.requests[r].decision == Some(v.decision)
              && n.requests[r].reason == v.reason && n.requests[r].input == v.input
              && n.requests[r].id == id && n.requests[r].agent == m.requests[r].agent && n.requests[r].tool == m.requests[r].tool
              && forall q :: 0 <= q < |m.requests| && q != r ==> n.requests[q] == m.requests[q]
  {
  }

  /** Stopping an agent denies its pending requests, says why, and leaves the rest of them as it was. */
  lemma StoppedRequest(m: Manager, agent: Id, id: Id)
    requires Valid(m) && id in m.pending && m.requests[m.pending[id]].agent == agent
    ensures var q, q' := m.requests[m.pending[id]], ClearAgent(m, agent).requests[m.pending[id]];
            && q'.event && q'.decision == Some(Deny) && q'.reason == Some("Agent stopped") && q'.input == q.input
            && q'.id == q.id && q'.agent == q.agent && q'.tool == q.tool
            && id !in ClearAgent(m, agent).pending
  {
  }

  /** Waiting for an id that is not pending is denied at once; a request without a decision counts as denied. */
  lemma UnknownIsDenied(m: Manager, id: Id, q: Request)
    ensures id !in m.pending ==> WaiterFor(m, id) == Returned(None, Verdict(Deny, Some("Request not found"), None))
    ensures id in m.pending ==> WaiterFor(m, id) == Asleep(id, m.pending[id])
    ensures VerdictOf(q).reason == q.reason && VerdictOf(q).input == q.input
    ensures VerdictOf(q).decision == Allow <==> q.decision == Some(Allow)
  {
  }
}
