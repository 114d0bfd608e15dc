/**
 When a schedule can miss a startable node. A source that only satisfies a join, and precedes none of
 the sources that start it, can be held back until they have all looked: the join is never started.
 */
module EngineConverse {
  import opened Workflow
  import opened Engine
  import opened EngineTyping
  import opened EngineSchedule
  import opened EngineLineage
  import opened EngineWakeups
  import opened EngineOrder
  import opened EngineProgress

  // ---------- What comes after a node ----------

  /** The startable nodes that `x` precedes, `x` among them. */
  ghost function After(g: Graph, o: Oracle, x: string): set<string> {
    set y | y in Startable(g, o) && Precedes(g, o, x, y)
  }

  lemma PrecedesItself(g: Graph, o: Oracle, x: string)
    ensures Precedes(g, o, x, x)
  {
    assert FeedPath(g, o, [x]);
  }

  /** The start node precedes every startable node. */
  lemma {:induction false} StartPrecedes(g: Graph, o: Oracle, rank: string -> nat, y: string)
    requires Ranks(g, rank) && y in Startable(g, o)
    ensures Precedes(g, o, g.start, y)
    decreases rank(g.start) - rank(y)
  {
    StartableRanks(g, o, rank, y);
    if y == g.start {
      PrecedesItself(g, o, y);
    } else {
      var e := StartableBy(g, o, y);
      StartableRanks(g, o, rank, e.source);
      StartPrecedes(g, o, rank, e.source);
      var p :| FeedPath(g, o, p) && p[0] == g.start && p[|p| - 1] == e.source;
      FeedPathExtends(g, o, p, y);
      assert (p + [y])[0] == g.start;
    }
  }

  lemma FeedPathIsWalk(g: Graph, o: Oracle, p: seq<string>)
    requires FeedPath(g, o, p)
    ensures IsWalk(g, p)
  {
    forall k | 0 <= k < |p| - 1
      ensures Connected(g, p[k], p[k + 1])
    {
      assert Feeds(g, o, p[k], p[k + 1]);
    }
  }

  /** A node that lies on every path to another precedes it. */
  lemma OnEveryPathPrecedes(g: Graph, o: Oracle, rank: string -> nat, x: string, y: string)
    requires Ranks(g, rank) && y in Startable(g, o)
    requires forall p :: IsPath(g, p) && p[|p| - 1] == y ==> x in p
    ensures Precedes(g, o, x, y)
  {
    StartPrecedes(g, o, rank, y);
    var p :| FeedPath(g, o, p) && p[0] == g.start && p[|p| - 1] == y;
    FeedPathIsWalk(g, o, p);
    assert IsPath(g, p);
    var i :| 0 <= i < |p| && p[i] == x;
    var q := p[i..];
    forall k | 0 <= k < |q| - 1
      ensures Feeds(g, o, q[k], q[k + 1])
    {
      assert Feeds(g, o, p[i + k], p[i + k + 1]);
    }
    assert FeedPath(g, o, q) && q[0] == x;
  }

  lemma NothingPrecedesStart(g: Graph, o: Oracle, rank: string -> nat, x: string)
    requires Ranks(g, rank) && Precedes(g, o, x, g.start)
    ensures x == g.start
  {
    var p :| FeedPath(g, o, p) && p[0] == x && p[|p| - 1] == g.start;
    if |p| > 1 {
      assert Feeds(g, o, p[|p| - 2], p[|p| - 1]);
      StartableRanks(g, o, rank, p[|p| - 2]);
    }
  }

  lemma AfterIsFrozenOnward(g: Graph, o: Oracle, rank: string -> nat, x: string)
    requires Ranks(g, rank) && x != g.start
    ensures FrozenOnward(g, o, After(g, o, x))
  {
    if Precedes(g, o, x, g.start) { NothingPrecedesStart(g, o, rank, x); }
    forall y, z | y in After(g, o, x) && Feeds(g, o, y, z)
      ensures z in After(g, o, x)
    {
      var p :| FeedPath(g, o, p) && p[0] == x && p[|p| - 1] == y;
      FeedPathExtends(g, o, p, z);
      assert (p + [z])[0] == x;
    }
  }

  // ---------- Nodes held back have not run ----------

  lemma SparedNext(g: Graph, frozen: set<string>, s: State, step: Step, s': State)
    requires Typed(g, s) && Next(g, s, step, s') && Spares(frozen, s, step)
    ensures |s.sh.insts| <= |s'.sh.insts|
    ensures forall i :: |s.sh.insts| <= i < |s'.sh.insts| ==> s'.sh.insts[i].node !in frozen
  {
    StepKeeps(g, s, step, s');
  }

  lemma {:induction false} SparedHaveNotRun(g: Graph, frozen: set<string>, states: seq<State>, steps: seq<Step>, n: nat)
    requires IsRun(g, states, steps) && n < |states| && SparesAll(frozen, states, steps, 0, n)
    ensures forall i :: 0 <= i < |states[n].sh.insts| ==> states[n].sh.insts[i].node !in frozen
  {
    if n > 0 {
      SparedHaveNotRun(g, frozen, states, steps, n - 1);
      TypedRun(g, states, steps, n - 1);
      StepKeeps(g, states[n - 1], steps[n - 1], states[n]);
      SparedNext(g, frozen, states[n - 1], steps[n - 1], states[n]);
    }
  }

  // ---------- From a stalled state on only frozen nodes run ----------

  predicate HasInstance(pc: Pc) {
    pc.Registered? || pc.Located? || pc.Running? || pc.Ended? || pc.Scanning? || pc.Joining?
  }

  ghost predicate PcConfined(pc: Pc, frozen: set<string>, k: nat) {
    (forall r :: r in Requests(pc) ==> r.node in frozen) && (HasInstance(pc) ==> pc.i >= k)
  }

  /** The instances registered after the first `k`, and all that threads still do, are of frozen nodes. */
  ghost predicate Confined(sh: Shared, frozen: set<string>, k: nat) {
    && k <= |sh.insts|
    && (forall i :: k <= i < |sh.insts| ==> sh.insts[i].node in frozen)
    && forall t :: 0 <= t < |sh.tasks| ==> PcConfined(sh.tasks[t], frozen, k)
  }

  lemma NewRequestIsFed(g: Graph, o: Oracle, sh: Shared, pc: Pc, r: Request)
    requires ContextInRange(sh) && PcTyped(g, sh, pc) && Obeys(o, sh)
    requires FromScan(g, sh, pc, r) || FromJoin(g, sh, pc, r)
    requires sh.insts[pc.i].node in Startable(g, o) && r.node in Startable(g, o)
    ensures Feeds(g, o, sh.insts[pc.i].node, r.node)
  {
    assert pc.edges[0] in pc.edges;
  }

  lemma MovedInstanceConfined(g: Graph, sh: Shared, t: nat, step: Step, frozen: set<string>, k: nat)
    requires TaskEnabled(g, sh, t, step) && PcTyped(g, sh, sh.tasks[t]) && k <= |sh.insts|
    requires PcConfined(sh.tasks[t], frozen, k)
    ensures HasInstance(MovedPc(g, sh, t, step)) ==> MovedPc(g, sh, t, step).i >= k
  {
    if !step.Register? && !sh.tasks[t].Submitting? && !sh.tasks[t].Appending? {
      MovedStaysAtNode(g, sh, t, step);
    }
  }

  lemma MovedRequestConfined(g: Graph, o: Oracle, s: State, step: Step, frozen: set<string>, k: nat, r: Request)
    requires Typed(g, s) && !IsMainStep(step) && Enabled(g, s, step) && Obeys(o, s.sh)
    requires frozen <= Startable(g, o) && FrozenOnward(g, o, frozen) && Confined(s.sh, frozen, k)
    requires r in Requests(MovedPc(g, s.sh, step.t, step)) && r.node in Startable(g, o)
    ensures r.node in frozen
  {
    var pc := s.sh.tasks[step.t];
    assert PcTyped(g, s.sh, pc) && PcConfined(pc, frozen, k);
    NewRequests(g, s.sh, step.t, step, r);
    if FromScan(g, s.sh, pc, r) || FromJoin(g, s.sh, pc, r) {
      NewRequestIsFed(g, o, s.sh, pc, r);
    }
  }

  lemma MovedConfined(g: Graph, o: Oracle, s: State, step: Step, frozen: set<string>, k: nat)
    requires Typed(g, s) && !IsMainStep(step) && Enabled(g, s, step) && Obeys(o, s.sh)
    requires frozen <= Startable(g, o) && FrozenOnward(g, o, frozen) && Confined(s.sh, frozen, k)
    requires forall r :: r in Requests(MovedPc(g, s.sh, step.t, step)) ==> r.node in Startable(g, o)
    ensures PcConfined(MovedPc(g, s.sh, step.t, step), frozen, k)
  {
    assert PcTyped(g, s.sh, s.sh.tasks[step.t]) && PcConfined(s.sh.tasks[step.t], frozen, k);
    MovedInstanceConfined(g, s.sh, step.t, step, frozen, k);
    forall r | r in Requests(MovedPc(g, s.sh, step.t, step))
      ensures r.node in frozen
    {
      MovedRequestConfined(g, o, s, step, frozen, k, r);
    }
  }

  /** Threads that do not move, and the thread that is spawned, do what the others were to do. */
  lemma OthersConfined(g: Graph, s: State, step: Step, s': State, frozen: set<string>, k: nat, t: nat)
    requires Typed(g, s) && Next(g, s, step, s') && Confined(s.sh, frozen, k)
    requires t < |s'.sh.tasks| && (IsMainStep(step) || t != step.t)
    ensures PcConfined(s'.sh.tasks[t], frozen, k)
  {
    if IsMainStep(step) {
      MainStepKeeps(g, s, step);
      assert PcConfined(s.sh.tasks[t], frozen, k);
    } else if t < |s.sh.tasks| {
      assert PcConfined(s.sh.tasks[t], frozen, k);
    } else {
      assert PcConfined(s.sh.tasks[step.t], frozen, k);
      assert s.sh.tasks[step.t].todo[0] in Requests(s.sh.tasks[step.t]);
    }
  }

  lemma InstancesConfined(g: Graph, s: State, step: Step, s': State, frozen: set<string>, k: nat)
    requires Typed(g, s) && Next(g, s, step, s') && Confined(s.sh, frozen, k)
    ensures k <= |s'.sh.insts| && forall i :: k <= i < |s'.sh.insts| ==> s'.sh.insts[i].node in frozen
  {
    StepKeeps(g, s, step, s');
    if step.Register? {
      assert PcConfined(s.sh.tasks[step.t], frozen, k);
      assert s.sh.tasks[step.t].req in Requests(s.sh.tasks[step.t]);
    }
  }

  lemma ConfinedNext(g: Graph, o: Oracle, s: State, step: Step, s': State, frozen: set<string>, k: nat)
    requires Typed(g, s) && Next(g, s, step, s') && Obeys(o, s.sh) && Within(g, o, s'.sh, Startable(g, o))
    requires frozen <= Startable(g, o) && FrozenOnward(g, o, frozen) && Confined(s.sh, frozen, k)
    ensures Confined(s'.sh, frozen, k)
  {
    InstancesConfined(g, s, step, s', frozen, k);
    forall t | 0 <= t < |s'.sh.tasks|
      ensures PcConfined(s'.sh.tasks[t], frozen, k)
    {
      if !IsMainStep(step) && t == step.t {
        assert PcWithin(g, o, s'.sh.tasks[step.t], Startable(g, o));
        MovedConfined(g, o, s, step, frozen, k);
      } else {
        OthersConfined(g, s, step, s', frozen, k, t);
      }
    }
  }

  lemma ConfinedOn(g: Graph, o: Oracle, states: seq<State>, steps: seq<Step>, n: nat, frozen: set<string>, k: nat)
    requires IsRun(g, states, steps) && n < |steps| && Obeys(o, states[n + 1].sh)
    requires frozen <= Startable(g, o) && FrozenOnward(g, o, frozen) && Confined(states[n].sh, frozen, k)
    ensures Confined(states[n + 1].sh, frozen, k)
  {
    StartableIsLeastClosed(g, o);
    TypedRun(g, states, steps, n);
    ObeyedBefore(g, o, states, steps, n);
    WithinRun(g, o, states, steps, n + 1, Startable(g, o));
    ConfinedNext(g, o, states[n], steps[n], states[n + 1], frozen, k);
  }

  lemma {:induction false} StalledThenConfined(g: Graph, o: Oracle, states: seq<State>, steps: seq<Step>, a: nat,
                                               n: nat,
                                               frozen: set<string>)
    requires IsRun(g, states, steps) && a <= n < |states| && Obeys(o, states[n].sh)
    requires frozen <= Startable(g, o) && FrozenOnward(g, o, frozen) && Stalled(states[a], frozen)
    ensures Confined(states[n].sh, frozen, |states[a].sh.insts|)
  {
    if a < n {
      ObeyedBefore(g, o, states, steps, n - 1);
      StalledThenConfined(g, o, states, steps, a, n - 1, frozen);
      ConfinedOn(g, o, states, steps, n - 1, frozen, |states[a].sh.insts|);
    }
  }

  // ---------- A join that is never started ----------

  /** The thread that moves has found all sources of the join done. */
  ghost predicate Joined(g: Graph, s: State, step: Step, id: string)
    requires ContextInRange(s.sh)
  {
    && !IsMainStep(step) && Enabled(g, s, step)
    && exists r: Request :: r.node == id && FromJoin(g, s.sh, s.sh.tasks[step.t], r)
  }

  lemma StartedWasKnown(g: Graph, s: State, step: Step, s': State, node: string)
    requires Typed(g, s) && Next(g, s, step, s') && Started(s'.sh, node)
    ensures Known(s.sh, node)
  {
    StepKeeps(g, s, step, s');
    var i :| 0 <= i < |s'.sh.insts| && s'.sh.insts[i].node == node;
    if i < |s.sh.insts| {
      assert s.sh.insts[i].node == node;
    } else {
      assert s.sh.tasks[step.t].req in Requests(s.sh.tasks[step.t]);
      assert Requested(s.sh.tasks[step.t], node);
    }
  }

  lemma RequestedWasKnown(g: Graph, s: State, step: Step, s': State, t: nat, node: string)
    requires Typed(g, s) && Next(g, s, step, s') && t < |s'.sh.tasks| && Requested(s'.sh.tasks[t], node)
    requires IsMainStep(step) || t != step.t
    ensures Known(s.sh, node)
  {
    if IsMainStep(step) {
      MainStepKeeps(g, s, step);
      assert Requested(s.sh.tasks[t], node);
    } else if t < |s.sh.tasks| {
      assert Requested(s.sh.tasks[t], node);
    } else {
      var r :| r in Requests(s'.sh.tasks[t]) && r.node == node;
      assert r in Requests(s.sh.tasks[step.t]);
      assert Requested(s.sh.tasks[step.t], node);
    }
  }

  /** A join becomes known only by a thread that has found all its sources done. */
  lemma KnownByJoin(g: Graph, s: State, step: Step, s': State, id: string)
    requires Typed(g, s) && Next(g, s, step, s') && !IsOr(g, id) && Known(s'.sh, id)
    ensures Known(s.sh, id) || Joined(g, s, step, id)
  {
    if Started(s'.sh, id) {
      StartedWasKnown(g, s, step, s', id);
    } else {
      var t :| 0 <= t < |s'.sh.tasks| && Requested(s'.sh.tasks[t], id);
      if IsMainStep(step) || t != step.t {
        RequestedWasKnown(g, s, step, s', t, id);
      } else {
        var r :| r in Requests(s'.sh.tasks[t]) && r.node == id;
        NewRequests(g, s.sh, t, step, r);
        assert r in Requests(s.sh.tasks[t]) ==> Requested(s.sh.tasks[t], id);
      }
    }
  }

  lemma JoinedSourceStarted(g: Graph, s: State, step: Step, id: string, e: Edge)
    requires Typed(g, s) && JoinsSeen(g, s.sh) && Joined(g, s, step, id) && e in EdgesInto(g.edges, id)
    ensures Started(s.sh, e.source)
  {
    SourcesHaveRun(g, s.sh, s.sh.tasks[step.t], e);
  }

  lemma JoinedByConfined(g: Graph, o: Oracle, s: State, step: Step, id: string, frozen: set<string>, k: nat)
    returns (a: string)
    requires Typed(g, s) && Joined(g, s, step, id) && Obeys(o, s.sh) && Confined(s.sh, frozen, k)
    ensures a in Starters(g, o, id) && a in frozen
  {
    var pc := s.sh.tasks[step.t];
    assert PcTyped(g, s.sh, pc) && PcConfined(pc, frozen, k);
    var e := pc.edges[0];
    assert e in pc.edges;
    a := e.source;
  }

  /** While one of its sources has not run, nothing makes a join known. */
  lemma UnknownWhileHeld(g: Graph, s: State, step: Step, s': State, id: string, e: Edge)
    requires Typed(g, s) && JoinsSeen(g, s.sh) && Next(g, s, step, s') && !IsOr(g, id) && e in EdgesInto(g.edges, id)
    requires Known(s'.sh, id)
    ensures Known(s.sh, id) || Started(s.sh, e.source)
  {
    KnownByJoin(g, s, step, s', id);
    if Joined(g, s, step, id) {
      JoinedSourceStarted(g, s, step, id, e);
    }
  }

  /** Nor does anything while only nodes run that do not start it. */
  lemma UnknownWhileConfined(g: Graph, o: Oracle, s: State, step: Step, s': State, id: string, frozen: set<string>,
                             k: nat)
    requires Typed(g, s) && Next(g, s, step, s') && Obeys(o, s.sh) && Confined(s.sh, frozen, k) && !IsOr(g, id)
    requires Known(s'.sh, id)
    ensures Known(s.sh, id) || exists a :: a in Starters(g, o, id) && a in frozen
  {
    KnownByJoin(g, s, step, s', id);
    if Joined(g, s, step, id) {
      var a := JoinedByConfined(g, o, s, step, id, frozen, k);
    }
  }

  lemma {:induction false} UnknownWhileHeldRun(g: Graph, frozen: set<string>, states: seq<State>, steps: seq<Step>,
                                               n: nat,
                                               id: string, e: Edge)
    requires IsRun(g, states, steps) && n < |states| && SparesAll(frozen, states, steps, 0, n)
    requires !IsOr(g, id) && id != g.start && e in EdgesInto(g.edges, id) && e.source in frozen
    ensures !Known(states[n].sh, id)
  {
    if n == 0 {
      assert Requests(states[0].sh.tasks[0]) == [Request(g.start, [])];
    } else {
      UnknownWhileHeldRun(g, frozen, states, steps, n - 1, id, e);
      SparedHaveNotRun(g, frozen, states, steps, n - 1);
      TypedRun(g, states, steps, n - 1);
      JoinsSeenRun(g, states, steps, n - 1);
      if Known(states[n].sh, id) { UnknownWhileHeld(g, states[n - 1], steps[n - 1], states[n], id, e); }
    }
  }

  lemma {:induction false} UnknownWhileConfinedRun(g: Graph, o: Oracle, frozen: set<string>, states: seq<State>,
                                                   steps: seq<Step>,
                                                   a: nat, n: nat, id: string)
    requires IsRun(g, states, steps) && a <= n < |states| && Obeys(o, states[n].sh)
    requires frozen <= Startable(g, o) && FrozenOnward(g, o, frozen) && Stalled(states[a], frozen)
    requires !IsOr(g, id) && !Known(states[a].sh, id) && Starters(g, o, id) !! frozen
    ensures !Known(states[n].sh, id)
  {
    if a < n {
      ObeyedBefore(g, o, states, steps, n - 1);
      UnknownWhileConfinedRun(g, o, frozen, states, steps, a, n - 1, id);
      StalledThenConfined(g, o, states, steps, a, n - 1, frozen);
      UnknownWhileConfinedOn(g, o, frozen, states, steps, n - 1, |states[a].sh.insts|, id);
    }
  }

  lemma UnknownWhileConfinedOn(g: Graph, o: Oracle, frozen: set<string>, states: seq<State>, steps: seq<Step>,
                               n: nat, k: nat, id: string)
    requires IsRun(g, states, steps) && n < |steps| && Obeys(o, states[n].sh) && Confined(states[n].sh, frozen, k)
    requires !IsOr(g, id) && !Known(states[n].sh, id) && Starters(g, o, id) !! frozen
    ensures !Known(states[n + 1].sh, id)
  {
    TypedRun(g, states, steps, n);
    if Known(states[n + 1].sh, id) {
      UnknownWhileConfined(g, o, states[n], steps[n], states[n + 1], id, frozen, k);
    }
  }

  // ---------- Schedules that hold nodes back ----------

  ghost predicate FinishedRun(g: Graph, o: Oracle, states: seq<State>, steps: seq<Step>) {
    IsRun(g, states, steps) && Obeys(o, states[|steps|].sh) && Quiescent(states[|steps|])
  }

  /** A finished run that first does all it can without the frozen nodes; that part ends at state `a`. */
  lemma RunHoldingBack(g: Graph, o: Oracle, rank: string -> nat, frozen: set<string>)
    returns (states: seq<State>, steps: seq<Step>, a: nat)
    requires Ranks(g, rank)
    ensures FinishedRun(g, o, states, steps) && a <= |steps|
    ensures Stalled(states[a], frozen) && SparesAll(frozen, states, steps, 0, a)
  {
    var states0, steps0 := RunDown(g, o, rank, frozen, [InitState(g)], []);
    a := |steps0|;
    states, steps := RunDown(g, o, rank, {}, states0, steps0);
    SparesInPrefix(frozen, states0, steps0, states, steps);
    assert states[a] == states0[a];
  }

  lemma SparesInPrefix(frozen: set<string>, states: seq<State>, steps: seq<Step>, states': seq<State>,
                       steps': seq<Step>)
    requires |steps| <= |states| && |steps'| <= |states'| && states <= states' && steps <= steps'
    requires SparesAll(frozen, states, steps, 0, |steps|)
    ensures SparesAll(frozen, states', steps', 0, |steps|)
  {
    forall m | 0 <= m < |steps|
      ensures Spares(frozen, states'[m], steps'[m])
    {
      assert Spares(frozen, states[m], steps[m]);
    }
  }

  lemma JoinIsStartable(g: Graph, o: Oracle, id: string) returns (e: Edge)
    requires StartableJoin(g, o, id)
    ensures id in Startable(g, o) && e in EdgesInto(g.edges, id) && Fires(e, o(e.source)) && e.source in Startable(g, o)
  {
    StartableIsLeastClosed(g, o);
    e :| e in EdgesInto(g.edges, id) && Fires(e, o(e.source));
    assert MayStart(g, o, Startable(g, o), e);
  }

  lemma JoinIsNotStart(g: Graph, o: Oracle, rank: string -> nat, id: string)
    requires Ranks(g, rank) && StartableJoin(g, o, id)
    ensures id != g.start
  {
    var e := JoinIsStartable(g, o, id);
    StartableRanks(g, o, rank, e.source);
  }

  /** A source that does not start the join and precedes none that does: a schedule misses the join. */
  lemma UnorderedJoinCanBeMissed(g: Graph, o: Oracle, rank: string -> nat, id: string, e: Edge)
    returns (states: seq<State>, steps: seq<Step>)
    requires Ranks(g, rank) && StartableJoin(g, o, id)
    requires e in EdgesInto(g.edges, id) && !OrderedSource(g, o, id, e)
    ensures FinishedRun(g, o, states, steps)
    ensures id in Startable(g, o) && id !in Executed(states[|steps|])
  {
    var frozen := After(g, o, e.source);
    UnorderedSourceIsNotStart(g, o, rank, id, e);
    AfterIsFrozenOnward(g, o, rank, e.source);
    StartersAreNotAfter(g, o, id, e);
    JoinIsNotStart(g, o, rank, id);
    PrecedesItself(g, o, e.source);
    var e' := JoinIsStartable(g, o, id);
    var a;
    states, steps, a := RunHoldingBack(g, o, rank, frozen);
    UnknownWhileHeldRun(g, frozen, states, steps, a, id, e);
    UnknownWhileConfinedRun(g, o, frozen, states, steps, a, |steps|, id);
  }

  lemma UnorderedSourceIsNotStart(g: Graph, o: Oracle, rank: string -> nat, id: string, e: Edge)
    requires Ranks(g, rank) && StartableJoin(g, o, id) && !OrderedSource(g, o, id, e)
    ensures e.source != g.start
  {
    var e' := JoinIsStartable(g, o, id);
    StartPrecedes(g, o, rank, e'.source);
  }

  lemma StartersAreNotAfter(g: Graph, o: Oracle, id: string, e: Edge)
    requires !OrderedSource(g, o, id, e)
    ensures Starters(g, o, id) !! After(g, o, e.source)
  {
  }

  // ---------- A schedule that does start the join ----------

  /** A source that starts the join and precedes none of those that do not. */
  ghost predicate FreeStarter(g: Graph, o: Oracle, id: string, a: string) {
    && a in Starters(g, o, id)
    && forall e :: e in EdgesInto(g.edges, id) && !Fires(e, o(e.source)) ==> !Precedes(g, o, a, e.source)
  }

  /** What the starter precedes is held back, so every other source ends before it runs. */
  lemma HeldBackFollows(g: Graph, o: Oracle, states: seq<State>, steps: seq<Step>, a: nat, n: nat, frozen: set<string>,
                        x: string, y: string)
    requires IsRun(g, states, steps) && a <= n < |states| && Obeys(o, states[n].sh)
    requires frozen <= Startable(g, o) && FrozenOnward(g, o, frozen)
    requires Stalled(states[a], frozen) && SparesAll(frozen, states, steps, 0, a)
    requires x !in frozen && y in frozen && Started(states[n].sh, y)
    ensures FollowedBy(states, steps, n, x, y)
  {
    var k := |states[a].sh.insts|;
    StalledThenConfined(g, o, states, steps, a, n, frozen);
    SparedHaveNotRun(g, frozen, states, steps, a);
    RunKeeps(g, states, steps, a, n);
    var i' :| 0 <= i' < |states[n].sh.insts| && states[n].sh.insts[i'].node == y;
    assert k <= i';
    TypedRun(g, states, steps, a);
    forall m: nat, i: nat | m < n && EndsAt(states, steps, m, i) && i < |states[m].sh.insts|
        && states[m].sh.insts[i].node == x
      ensures StartedSince(states[n].sh, y, |states[m].sh.insts|)
    {
      EndedSince(g, states, steps, m, n, i);
      assert i < k;
      EndedEarlier(g, states, steps, a, m, frozen, i);
      RunKeeps(g, states, steps, m, a);
    }
  }

  /** What was registered by a stalled state had ended by then. */
  lemma EndedEarlier(g: Graph, states: seq<State>, steps: seq<Step>, a: nat, m: nat, frozen: set<string>, i: nat)
    requires IsRun(g, states, steps) && a < |states| && Stalled(states[a], frozen) && EndsAt(states, steps, m, i)
    requires i < |states[a].sh.insts|
    ensures m < a
  {
    TypedRun(g, states, steps, a);
    StalledHasEnded(g, states[a], frozen, i);
    EndsOnce(g, states, steps, m, i);
    if a <= m { RunKeeps(g, states, steps, a, m); }
  }

  /** The sources of the join, which rank higher, have run. */
  lemma SourcesRun(g: Graph, o: Oracle, rank: string -> nat, states: seq<State>, steps: seq<Step>, n: nat, id: string)
    requires Ranks(g, rank) && IsRun(g, states, steps) && n < |states| && Obeys(o, states[n].sh) && Quiescent(states[n])
    requires StartableJoin(g, o, id) && OrderedFrom(g, o, rank, {}, rank(id) + 1)
    ensures SourcesSatisfy(g, o, states[n].sh, id)
  {
    var e' := JoinIsStartable(g, o, id);
    JoinIsNotStart(g, o, rank, id);
    forall e | e in EdgesInto(g.edges, id)
      ensures Started(states[n].sh, e.source) && Ready(e, o(e.source))
    {
      NothingFrozen(g, o);
      JoinSource(g, o, rank, {}, id, e);
      EveryStartableRuns(g, o, rank, states, steps, n, {}, e.source);
    }
  }

  lemma NothingFrozen(g: Graph, o: Oracle)
    ensures FrozenOnward(g, o, {})
  {
  }

  lemma FreeStarterIsNotStart(g: Graph, o: Oracle, rank: string -> nat, id: string, a: string, e: Edge)
    requires Ranks(g, rank) && StartableJoin(g, o, id) && FreeStarter(g, o, id, a)
    requires e in EdgesInto(g.edges, id) && !Fires(e, o(e.source))
    ensures a != g.start
  {
    StartPrecedes(g, o, rank, e.source);
  }

  /** If the joins above it are ordered, some schedule starts a join that has a free starter. */
  lemma FreeStarterCanStart(g: Graph, o: Oracle, rank: string -> nat, id: string, a: string, e: Edge)
    returns (states: seq<State>, steps: seq<Step>)
    requires Ranks(g, rank) && StartableJoin(g, o, id) && OrderedFrom(g, o, rank, {}, rank(id) + 1)
    requires FreeStarter(g, o, id, a) && e in EdgesInto(g.edges, id) && !Fires(e, o(e.source))
    ensures FinishedRun(g, o, states, steps) && id in Executed(states[|steps|])
  {
    var frozen := After(g, o, a);
    FreeStarterIsNotStart(g, o, rank, id, a, e);
    AfterIsFrozenOnward(g, o, rank, a);
    PrecedesItself(g, o, a);
    var held;
    states, steps, held := RunHoldingBack(g, o, rank, frozen);
    SourcesRun(g, o, rank, states, steps, |steps|, id);
    forall e' | e' in EdgesInto(g.edges, id)
      ensures SourceFollowed(states, steps, |steps|, e'.source, Starters(g, o, id))
    {
      if !Fires(e', o(e'.source)) {
        HeldBackFollows(g, o, states, steps, held, |steps|, frozen, e'.source, a);
      }
    }
    JoinFollows(g, o, states, steps, |steps|, {}, id);
  }

  /** Of an unordered join with a free starter, below joins that are ordered: one finished run has executed
      it and another has not. */
  lemma ScheduleMatters(g: Graph, o: Oracle, rank: string -> nat, id: string, a: string)
    requires Ranks(g, rank) && StartableJoin(g, o, id) && !OrderedJoin(g, o, id)
    requires OrderedFrom(g, o, rank, {}, rank(id) + 1) && FreeStarter(g, o, id, a)
    ensures exists states, steps, states', steps' ::
              && FinishedRun(g, o, states, steps) && id in Executed(states[|steps|])
              && FinishedRun(g, o, states', steps') && id !in Executed(states'[|steps'|])
  {
    var e :| e in EdgesInto(g.edges, id) && !Fires(e, o(e.source)) && !OrderedSource(g, o, id, e);
    var states, steps := FreeStarterCanStart(g, o, rank, id, a, e);
    var states', steps' := UnorderedJoinCanBeMissed(g, o, rank, id, e);
  }
}
