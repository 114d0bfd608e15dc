/**
 What a run executes, seen from above: every run stays inside the least fixed point of the
 firing rule, a satisfied join never fails its context lookup, and nothing found startable is forgotten.
 */
module EngineSchedule {
  import opened Workflow
  import opened Engine
  import opened EngineTyping

  /** Nodes the thread has found startable and not started yet. */
  function Requests(pc: Pc): seq<Request> {
    match pc
    case Queued(req) => [req]
    case Scanning(_, _, next) => next
    case Joining(_, _, next, _, _, _, _) => next
    case Submitting(todo, _) => todo
    case _ => []
  }

  ghost predicate Requested(pc: Pc, node: string) {
    exists r :: r in Requests(pc) && r.node == node
  }

  /** An instance of the node was registered after the first `k` instances. */
  ghost predicate StartedSince(sh: Shared, node: string, k: nat) {
    exists i :: k <= i < |sh.insts| && sh.insts[i].node == node
  }

  ghost predicate Started(sh: Shared, node: string) {
    StartedSince(sh, node, 0)
  }

  /** The node has been executed since, or some thread is bound to execute it. */
  ghost predicate KnownSince(sh: Shared, node: string, k: nat) {
    || StartedSince(sh, node, k)
    || exists t :: 0 <= t < |sh.tasks| && Requested(sh.tasks[t], node)
  }

  ghost predicate Known(sh: Shared, node: string) {
    KnownSince(sh, node, 0)
  }

  // ---------- A join that is found satisfied never fails its context lookup ----------

  /** The node is in the context and an instance of it has ended. */
  ghost predicate HasRun(sh: Shared, node: string)
    requires ContextInRange(sh)
  {
    && InContext(sh, node)
    && exists i :: 0 <= i < |sh.insts| && sh.insts[i].node == node && sh.insts[i].outcome.Some?
  }

  lemma HasRunKept(sh: Shared, sh': Shared, node: string)
    requires ContextInRange(sh) && HasRun(sh, node) && ContextKept(sh, sh') && InstancesKept(sh, sh')
    ensures HasRun(sh', node)
  {
    InContextKept(sh, sh', node);
    var i :| 0 <= i < |sh.insts| && sh.insts[i].node == node && sh.insts[i].outcome.Some?;
    assert sh'.insts[i].node == node && sh'.insts[i].outcome.Some?;
  }

  /** While a join looks satisfied, the sources found so far have run. */
  ghost predicate JoinSeen(g: Graph, sh: Shared, pc: Pc)
    requires ContextInRange(sh)
  {
    pc.Joining? && pc.ok && pc.edges != [] ==>
      var ins := EdgesInto(g.edges, pc.edges[0].target);
      forall m :: 0 <= m < |ins| && (m < pc.k || (m == pc.k && pc.found)) ==> HasRun(sh, ins[m].source)
  }

  ghost predicate JoinsSeen(g: Graph, sh: Shared) {
    && ContextInRange(sh)
    && forall t :: 0 <= t < |sh.tasks| ==> JoinSeen(g, sh, sh.tasks[t])
  }

  lemma JoinSeenKept(g: Graph, sh: Shared, sh': Shared, pc: Pc)
    requires ContextInRange(sh) && ContextKept(sh, sh') && InstancesKept(sh, sh') && JoinSeen(g, sh, pc)
    ensures JoinSeen(g, sh', pc)
  {
    if pc.Joining? && pc.ok && pc.edges != [] {
      var ins := EdgesInto(g.edges, pc.edges[0].target);
      forall m | 0 <= m < |ins| && (m < pc.k || (m == pc.k && pc.found))
        ensures HasRun(sh', ins[m].source)
      {
        HasRunKept(sh, sh', ins[m].source);
      }
    }
  }

  lemma ReadSeen(g: Graph, sh: Shared, pc: Pc)
    requires ContextInRange(sh) && JoinSeen(g, sh, pc)
    requires pc.Joining? && pc.edges != [] && pc.k < |EdgesInto(g.edges, pc.edges[0].target)|
    ensures JoinSeen(g, sh, ReadPc(g, sh, pc))
  {
  }

  lemma MovedSeen(g: Graph, sh: Shared, t: nat, step: Step)
    requires TaskEnabled(g, sh, t, step) && JoinSeen(g, sh, sh.tasks[t])
    ensures JoinSeen(g, sh, MovedPc(g, sh, t, step))
  {
    if step.ReadEntry? {
      ReadSeen(g, sh, sh.tasks[t]);
    }
  }

  lemma JoinsSeenNext(g: Graph, s: State, step: Step, s': State)
    requires Typed(g, s) && JoinsSeen(g, s.sh) && Next(g, s, step, s')
    ensures JoinsSeen(g, s'.sh)
  {
    if IsMainStep(step) { MainStepKeeps(g, s, step); } else { TaskStepKeeps(g, s, step); }
    forall t | 0 <= t < |s'.sh.tasks|
      ensures JoinSeen(g, s'.sh, s'.sh.tasks[t])
    {
      if !IsMainStep(step) && t == step.t {
        MovedSeen(g, s.sh, t, step);
        JoinSeenKept(g, s.sh, s'.sh, s'.sh.tasks[t]);
      } else if t < |s.sh.tasks| {
        JoinSeenKept(g, s.sh, s'.sh, s.sh.tasks[t]);
      }
    }
  }

  lemma {:induction false} JoinsSeenRun(g: Graph, states: seq<State>, steps: seq<Step>, n: nat)
    requires IsRun(g, states, steps) && n < |states|
    ensures JoinsSeen(g, states[n].sh)
  {
    if n > 0 {
      JoinsSeenRun(g, states, steps, n - 1);
      TypedRun(g, states, steps, n - 1);
      JoinsSeenNext(g, states[n - 1], steps[n - 1], states[n]);
    }
  }

  /** Once all operands have been read true, every source has run. */
  lemma SourcesHaveRun(g: Graph, sh: Shared, pc: Pc, e: Edge)
    requires ContextInRange(sh) && JoinSeen(g, sh, pc) && pc.Joining? && pc.ok && pc.edges != []
    requires pc.k == |EdgesInto(g.edges, pc.edges[0].target)| && e in EdgesInto(g.edges, pc.edges[0].target)
    ensures HasRun(sh, e.source) && FindNode(sh, e.source, 0).Some?
  {
    var ins := EdgesInto(g.edges, pc.edges[0].target);
    var m :| 0 <= m < |ins| && ins[m] == e;
    assert HasRun(sh, ins[m].source);
  }

  /** `[...][0]` in `get_next_node_list` never raises. */
  lemma JoinLookupSucceeds(g: Graph, s: State, step: Step)
    requires Typed(g, s) && JoinsSeen(g, s.sh) && step.FinishJoin? && Enabled(g, s, step)
    ensures var pc := s.sh.tasks[step.t];
            pc.ok ==> JoinAncestors(g, s.sh, pc.i, pc.edges[0].target).Some?
  {
    var pc := s.sh.tasks[step.t];
    var ins := EdgesInto(g.edges, pc.edges[0].target);
    if pc.ok && |ins| > 1 {
      assert JoinSeen(g, s.sh, pc);
      var e :| e in ins && e.source == FirstSource(g, pc.edges[0].target);
      SourcesHaveRun(g, s.sh, pc, e);
    }
  }

  // ---------- Nothing known is forgotten ----------

  lemma RequestKept(g: Graph, s: State, step: Step, r: Request)
    requires Typed(g, s) && JoinsSeen(g, s.sh) && !IsMainStep(step) && Enabled(g, s, step)
    requires r in Requests(s.sh.tasks[step.t]) && !step.Register?
    ensures || r in Requests(MovedPc(g, s.sh, step.t, step))
            || Spawned(s.sh.tasks[step.t], step) == [Queued(r)]
  {
    var pc := s.sh.tasks[step.t];
    match step {
      case FinishJoin(_) => JoinLookupSucceeds(g, s, step);
      case FinishScan(_, order) => ReorderKeepsRequests(pc, order);
      case Submit(_) => assert r == pc.todo[0] || r in pc.todo[1..];
      case _ =>
    }
  }

  lemma RequestedSurvives(g: Graph, s: State, step: Step, node: string)
    requires Typed(g, s) && JoinsSeen(g, s.sh) && !IsMainStep(step) && Enabled(g, s, step)
    requires Requested(s.sh.tasks[step.t], node)
    ensures KnownSince(TaskStep(g, s.sh, step.t, step), node, |s.sh.insts|)
  {
    var sh := s.sh;
    var sh' := TaskStep(g, sh, step.t, step);
    var r :| r in Requests(sh.tasks[step.t]) && r.node == node;
    if step.Register? {
      assert sh'.insts[|sh.insts|].node == node;
    } else {
      RequestKept(g, s, step, r);
      if r in Requests(MovedPc(g, sh, step.t, step)) {
        assert Requested(sh'.tasks[step.t], node);
      } else {
        assert r in Requests(sh'.tasks[|sh.tasks|]);
        assert Requested(sh'.tasks[|sh.tasks|], node);
      }
    }
  }

  lemma KnownSurvives(g: Graph, s: State, step: Step, s': State, node: string, k: nat)
    requires Typed(g, s) && JoinsSeen(g, s.sh) && Next(g, s, step, s') && KnownSince(s.sh, node, k) && k <= |s.sh.insts|
    ensures KnownSince(s'.sh, node, k)
  {
    if IsMainStep(step) { MainStepKeeps(g, s, step); } else { TaskStepKeeps(g, s, step); }
    if StartedSince(s.sh, node, k) {
      var i :| k <= i < |s.sh.insts| && s.sh.insts[i].node == node;
      assert s'.sh.insts[i].node == node;
    } else {
      var t :| 0 <= t < |s.sh.tasks| && Requested(s.sh.tasks[t], node);
      if !IsMainStep(step) && t == step.t {
        RequestedSurvives(g, s, step, node);
      } else {
        assert s'.sh.tasks[t] == s.sh.tasks[t];
      }
    }
  }

  // ---------- Soundness: a run stays inside every closed set ----------

  /** Whenever a node was executed, and however often, it ended as `o` says. */
  ghost predicate Obeys(o: Oracle, sh: Shared) {
    forall i :: 0 <= i < |sh.insts| && sh.insts[i].outcome.Some? ==> sh.insts[i].outcome.value == o(sh.insts[i].node)
  }

  lemma ObeyedBefore(g: Graph, o: Oracle, states: seq<State>, steps: seq<Step>, n: nat)
    requires IsRun(g, states, steps) && n < |steps| && Obeys(o, states[n + 1].sh)
    ensures Obeys(o, states[n].sh)
  {
    TypedRun(g, states, steps, n);
    StepKeeps(g, states[n], steps[n], states[n + 1]);
  }

  ghost predicate PcWithin(g: Graph, o: Oracle, pc: Pc, nodes: set<string>) {
    && (forall r :: r in Requests(pc) ==> r.node in nodes)
    && (pc.Joining? && pc.ok && pc.edges != [] ==>
          var ins := EdgesInto(g.edges, pc.edges[0].target);
          forall m :: 0 <= m < |ins| && (m < pc.k || (m == pc.k && pc.found)) ==>
            ins[m].source in nodes && Ready(ins[m], o(ins[m].source)))
  }

  ghost predicate Within(g: Graph, o: Oracle, sh: Shared, nodes: set<string>) {
    && (forall i :: 0 <= i < |sh.insts| ==> sh.insts[i].node in nodes)
    && (forall t :: 0 <= t < |sh.tasks| ==> PcWithin(g, o, sh.tasks[t], nodes))
  }

  lemma ScanWithin(g: Graph, o: Oracle, sh: Shared, pc: Pc, nodes: set<string>)
    requires ContextInRange(sh) && PcTyped(g, sh, pc) && pc.Scanning? && pc.edges != [] && Obeys(o, sh)
    requires Closed(g, o, nodes) && sh.insts[pc.i].node in nodes && PcWithin(g, o, pc, nodes)
    ensures PcWithin(g, o, ScanPc(g, sh, pc), nodes)
  {
    var e := pc.edges[0];
    assert e in pc.edges;
    if Fires(e, o(e.source)) && IsOr(g, e.target) {
      assert MayStart(g, o, nodes, e);
    }
  }

  /** A satisfied join may start its target. */
  lemma JoinMayStart(g: Graph, o: Oracle, sh: Shared, pc: Pc, nodes: set<string>)
    requires ContextInRange(sh) && PcTyped(g, sh, pc) && pc.Joining? && pc.ok
    requires pc.k == |EdgesInto(g.edges, pc.edges[0].target)|
    requires Closed(g, o, nodes) && sh.insts[pc.i].node in nodes && PcWithin(g, o, pc, nodes) && Obeys(o, sh)
    ensures pc.edges[0].target in nodes
  {
    var e := pc.edges[0];
    assert e in pc.edges;
    var ins := EdgesInto(g.edges, e.target);
    forall e' | e' in ins
      ensures e'.source in nodes && Ready(e', o(e'.source))
    {
      var m :| 0 <= m < |ins| && ins[m] == e';
    }
    assert MayStart(g, o, nodes, e);
  }

  lemma FinishJoinWithin(g: Graph, o: Oracle, sh: Shared, pc: Pc, nodes: set<string>)
    requires ContextInRange(sh) && PcTyped(g, sh, pc) && pc.Joining?
    requires PcWithin(g, o, pc, nodes) && (pc.ok ==> pc.edges[0].target in nodes)
    ensures PcWithin(g, o, FinishJoinPc(g, sh, pc), nodes)
  {
    forall r | r in Requests(FinishJoinPc(g, sh, pc))
      ensures r.node in nodes
    {
      assert r in Requests(pc) || (pc.ok && r.node == pc.edges[0].target);
    }
  }

  lemma ReorderKeepsRequests(pc: Pc, order: seq<Request>)
    requires pc.Scanning? && multiset(order) == multiset(pc.next)
    ensures forall r :: r in order <==> r in pc.next
  {
    forall r
      ensures r in order <==> r in pc.next
    {
      assert r in order <==> r in multiset(order);
      assert r in pc.next <==> r in multiset(pc.next);
    }
  }

  lemma FinishScanWithin(g: Graph, o: Oracle, pc: Pc, order: seq<Request>, nodes: set<string>)
    requires pc.Scanning? && multiset(order) == multiset(pc.next) && PcWithin(g, o, pc, nodes)
    ensures PcWithin(g, o, FinishScanPc(pc, order), nodes)
  {
    ReorderKeepsRequests(pc, order);
  }

  lemma ReadWithin(g: Graph, o: Oracle, sh: Shared, pc: Pc, nodes: set<string>)
    requires ContextInRange(sh) && PcTyped(g, sh, pc) && pc.Joining? && PcWithin(g, o, pc, nodes)
    requires Obeys(o, sh) && forall i :: 0 <= i < |sh.insts| ==> sh.insts[i].node in nodes
    requires pc.k < |EdgesInto(g.edges, pc.edges[0].target)|
    ensures PcWithin(g, o, ReadPc(g, sh, pc), nodes)
  {
    var e := CheckedEdge(g, pc);
    if pc.j < |sh.context| && EntryDone(sh, e, pc.j) {
      assert e.source in nodes && Ready(e, o(e.source));
    }
  }

  lemma MovedPcWithin(g: Graph, o: Oracle, s: State, step: Step, nodes: set<string>)
    requires Typed(g, s) && Closed(g, o, nodes) && Within(g, o, s.sh, nodes) && Obeys(o, s.sh)
    requires !IsMainStep(step) && Enabled(g, s, step)
    ensures PcWithin(g, o, MovedPc(g, s.sh, step.t, step), nodes)
  {
    var pc := s.sh.tasks[step.t];
    assert PcTyped(g, s.sh, pc) && PcWithin(g, o, pc, nodes);
    if step.ScanEdge? {
      ScanWithin(g, o, s.sh, pc, nodes);
    } else if step.FinishJoin? {
      if pc.ok { JoinMayStart(g, o, s.sh, pc, nodes); }
      FinishJoinWithin(g, o, s.sh, pc, nodes);
    } else if step.FinishScan? {
      FinishScanWithin(g, o, pc, step.order, nodes);
    } else if step.ReadEntry? {
      ReadWithin(g, o, s.sh, pc, nodes);
    } else {
      QuietWithin(g, o, s.sh, step.t, step, nodes);
    }
  }

  /** The other steps build no requests. */
  lemma QuietWithin(g: Graph, o: Oracle, sh: Shared, t: nat, step: Step, nodes: set<string>)
    requires TaskEnabled(g, sh, t, step) && PcWithin(g, o, sh.tasks[t], nodes)
    requires !step.ScanEdge? && !step.FinishJoin? && !step.FinishScan? && !step.ReadEntry?
    ensures PcWithin(g, o, MovedPc(g, sh, t, step), nodes)
  {
  }

  lemma WithinTaskStep(g: Graph, o: Oracle, s: State, step: Step, nodes: set<string>)
    requires Typed(g, s) && Closed(g, o, nodes) && Within(g, o, s.sh, nodes) && Obeys(o, s.sh)
    requires !IsMainStep(step) && Enabled(g, s, step)
    ensures Within(g, o, TaskStep(g, s.sh, step.t, step), nodes)
  {
    var sh' := TaskStep(g, s.sh, step.t, step);
    MovedPcWithin(g, o, s, step, nodes);
    TaskStepKeeps(g, s, step);
    var pc := s.sh.tasks[step.t];
    assert PcWithin(g, o, pc, nodes);
    forall t | 0 <= t < |sh'.tasks| && t != step.t
      ensures PcWithin(g, o, sh'.tasks[t], nodes)
    {
      if t < |s.sh.tasks| {
        assert PcWithin(g, o, s.sh.tasks[t], nodes);
      } else {
        assert pc.todo[0] in Requests(pc);
      }
    }
    assert step.Register? ==> pc.req in Requests(pc);
  }

  lemma WithinNext(g: Graph, o: Oracle, s: State, step: Step, s': State, nodes: set<string>)
    requires Typed(g, s) && Closed(g, o, nodes) && Within(g, o, s.sh, nodes) && Obeys(o, s.sh) && Next(g, s, step, s')
    ensures Within(g, o, s'.sh, nodes)
  {
    if IsMainStep(step) {
      MainStepKeeps(g, s, step);
      assert forall t :: 0 <= t < |s.sh.tasks| ==> PcWithin(g, o, s.sh.tasks[t], nodes);
    } else {
      WithinTaskStep(g, o, s, step, nodes);
    }
  }

  lemma {:induction false} WithinRun(g: Graph, o: Oracle, states: seq<State>, steps: seq<Step>, n: nat,
                                     nodes: set<string>)
    requires IsRun(g, states, steps) && n < |states| && Obeys(o, states[n].sh) && Closed(g, o, nodes)
    ensures Within(g, o, states[n].sh, nodes)
  {
    if n > 0 {
      ObeyedBefore(g, o, states, steps, n - 1);
      WithinRun(g, o, states, steps, n - 1, nodes);
      TypedRun(g, states, steps, n - 1);
      WithinNext(g, o, states[n - 1], steps[n - 1], states[n], nodes);
    }
  }
}
