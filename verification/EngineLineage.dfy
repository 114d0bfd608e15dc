/**
 Where node instances come from and how they are identified: the ancestor list is a path of
 nodes already executed, so an acyclic workflow makes finitely many executions; a join gets one
 runtime id whichever parent fires it; and the context holds one entry per runtime id exactly
 when `append_node` is not raced.
 */
module EngineLineage {
  import opened Wrappers
  import opened Workflow
  import opened Engine
  import opened EngineTyping
  import opened EngineSchedule

  // ---------- Causality ----------

  /** `up + [node]` is a path from the start node through nodes that have run. */
  ghost predicate Descends(g: Graph, sh: Shared, up: seq<string>, node: string)
    requires ContextInRange(sh)
  {
    && IsPath(g, up + [node])
    && forall id :: id in up ==> HasRun(sh, id)
  }

  ghost predicate Causal(g: Graph, sh: Shared)
    requires ContextInRange(sh)
  {
    && (forall i :: 0 <= i < |sh.insts| ==> Descends(g, sh, sh.insts[i].up, sh.insts[i].node))
    && (forall t, r :: 0 <= t < |sh.tasks| && r in Requests(sh.tasks[t]) ==> Descends(g, sh, r.up, r.node))
  }

  lemma DescendsKept(g: Graph, sh: Shared, sh': Shared, up: seq<string>, node: string)
    requires ContextInRange(sh) && Descends(g, sh, up, node) && ContextKept(sh, sh') && InstancesKept(sh, sh')
    ensures Descends(g, sh', up, node)
  {
    forall id | id in up ensures HasRun(sh', id) { HasRunKept(sh, sh', id); }
  }

  /** The ancestors handed to a successor are those of a node that has run, extended by that node. */
  lemma SuccessorDescends(g: Graph, sh: Shared, up: seq<string>, e: Edge)
    requires ContextInRange(sh) && e in g.edges
    requires Descends(g, sh, up, e.source) && HasRun(sh, e.source)
    ensures Descends(g, sh, up + [e.source], e.target)
  {
    assert Connected(g, e.source, e.target);
    WalkExtends(g, up + [e.source], e.target);
  }

  lemma JoinSuccessorDescends(g: Graph, sh: Shared, pc: Pc)
    requires ContextInRange(sh) && PcTyped(g, sh, pc) && JoinSeen(g, sh, pc) && Causal(g, sh)
    requires pc.Joining? && pc.ok && pc.k == |EdgesInto(g.edges, pc.edges[0].target)|
    requires HasRun(sh, sh.insts[pc.i].node)
    ensures var up := JoinAncestors(g, sh, pc.i, pc.edges[0].target);
            up.Some? ==> Descends(g, sh, up.value, pc.edges[0].target)
  {
    assert pc.edges[0] in pc.edges;
    var target := pc.edges[0].target;
    var ins := EdgesInto(g.edges, target);
    if |ins| > 1 {
      var e :| e in ins && e.source == FirstSource(g, target);
      SourcesHaveRun(g, sh, pc, e);
      var j := FindNode(sh, e.source, 0).value;
      SuccessorDescends(g, sh, sh.insts[sh.context[j]].up, e);
    } else {
      SuccessorDescends(g, sh, sh.insts[pc.i].up, pc.edges[0]);
    }
  }

  lemma OwnerHasRun(g: Graph, s: State, t: nat)
    requires Typed(g, s) && t < |s.sh.tasks| && (s.sh.tasks[t].Scanning? || s.sh.tasks[t].Joining?)
    ensures s.sh.tasks[t].i < |s.sh.insts| && HasRun(s.sh, s.sh.insts[s.sh.tasks[t].i].node)
  {
    assert PcTyped(g, s.sh, s.sh.tasks[t]);
  }

  /** The successor that an OR target adds. */
  ghost predicate FromScan(g: Graph, sh: Shared, pc: Pc, r: Request) {
    && pc.Scanning? && pc.edges != [] && HasEnded(sh, pc.i) && IsOr(g, pc.edges[0].target)
    && Fires(pc.edges[0], sh.insts[pc.i].outcome.value)
    && r == Request(pc.edges[0].target, sh.insts[pc.i].up + [sh.insts[pc.i].node])
  }

  /** The successor that a satisfied AND target adds. */
  ghost predicate FromJoin(g: Graph, sh: Shared, pc: Pc, r: Request)
    requires ContextInRange(sh)
  {
    && pc.Joining? && pc.ok && pc.edges != [] && pc.i < |sh.insts| && pc.k == |EdgesInto(g.edges, pc.edges[0].target)|
    && JoinAncestors(g, sh, pc.i, pc.edges[0].target) == Some(r.up) && r.node == pc.edges[0].target
  }

  lemma ReorderedRequests(pc: Pc, order: seq<Request>, r: Request)
    requires pc.Scanning? && multiset(order) == multiset(pc.next) && r in Requests(FinishScanPc(pc, order))
    ensures r in pc.next
  {
    ReorderKeepsRequests(pc, order);
  }

  /** A step adds no request but these. */
  lemma NewRequests(g: Graph, sh: Shared, t: nat, step: Step, r: Request)
    requires TaskEnabled(g, sh, t, step) && r in Requests(MovedPc(g, sh, t, step))
    ensures r in Requests(sh.tasks[t]) || FromScan(g, sh, sh.tasks[t], r) || FromJoin(g, sh, sh.tasks[t], r)
  {
    if step.FinishScan? {
      ReorderedRequests(sh.tasks[t], step.order, r);
    }
  }

  /** A new successor that does not join several sources descends from the instance whose thread found it. */
  lemma SuccessorAncestors(g: Graph, sh: Shared, t: nat, step: Step, r: Request)
    requires TaskEnabled(g, sh, t, step) && r in Requests(MovedPc(g, sh, t, step)) && r !in Requests(sh.tasks[t])
    requires PcTyped(g, sh, sh.tasks[t])
    requires (r.node in g.nodes && g.nodes[r.node] == Or) || |EdgesInto(g.edges, r.node)| == 1
    ensures (sh.tasks[t].Scanning? || sh.tasks[t].Joining?) && sh.tasks[t].i < |sh.insts|
    ensures r.up == sh.insts[sh.tasks[t].i].up + [sh.insts[sh.tasks[t].i].node]
  {
    NewRequests(g, sh, t, step, r);
  }

  lemma MovedRequestsDescend(g: Graph, s: State, step: Step, r: Request)
    requires Typed(g, s) && JoinsSeen(g, s.sh) && Causal(g, s.sh) && !IsMainStep(step) && Enabled(g, s, step)
    requires r in Requests(MovedPc(g, s.sh, step.t, step))
    ensures Descends(g, s.sh, r.up, r.node)
  {
    var sh, pc := s.sh, s.sh.tasks[step.t];
    NewRequests(g, sh, step.t, step, r);
    assert PcTyped(g, sh, pc) && JoinSeen(g, sh, pc);
    if FromScan(g, sh, pc, r) {
      assert pc.edges[0] in pc.edges;
      OwnerHasRun(g, s, step.t);
      SuccessorDescends(g, sh, sh.insts[pc.i].up, pc.edges[0]);
    } else if FromJoin(g, sh, pc, r) {
      OwnerHasRun(g, s, step.t);
      JoinSuccessorDescends(g, sh, pc);
    }
  }

  lemma CausalNext(g: Graph, s: State, step: Step, s': State)
    requires Typed(g, s) && JoinsSeen(g, s.sh) && Causal(g, s.sh) && Next(g, s, step, s')
    ensures ContextInRange(s'.sh) && Causal(g, s'.sh)
  {
    if IsMainStep(step) { MainStepKeeps(g, s, step); } else { TaskStepKeeps(g, s, step); }
    forall t, r | 0 <= t < |s'.sh.tasks| && r in Requests(s'.sh.tasks[t])
      ensures Descends(g, s'.sh, r.up, r.node)
    {
      if !IsMainStep(step) && t == step.t {
        MovedRequestsDescend(g, s, step, r);
      } else if t == |s.sh.tasks| {
        assert r in Requests(s.sh.tasks[step.t]);
      } else {
        assert r in Requests(s.sh.tasks[t]);
      }
      DescendsKept(g, s.sh, s'.sh, r.up, r.node);
    }
    forall i | 0 <= i < |s'.sh.insts|
      ensures Descends(g, s'.sh, s'.sh.insts[i].up, s'.sh.insts[i].node)
    {
      InstanceDescends(g, s, step, s', i);
    }
  }

  lemma InstanceDescends(g: Graph, s: State, step: Step, s': State, i: nat)
    requires Typed(g, s) && Causal(g, s.sh) && Next(g, s, step, s') && i < |s'.sh.insts|
    ensures ContextInRange(s'.sh) && Descends(g, s'.sh, s'.sh.insts[i].up, s'.sh.insts[i].node)
  {
    StepKeeps(g, s, step, s');
    if i < |s.sh.insts| {
      DescendsKept(g, s.sh, s'.sh, s.sh.insts[i].up, s.sh.insts[i].node);
    } else {
      var r := s.sh.tasks[step.t].req;
      assert r in Requests(s.sh.tasks[step.t]);
      DescendsKept(g, s.sh, s'.sh, r.up, r.node);
    }
  }

  lemma CausalInit(g: Graph)
    ensures Causal(g, InitState(g).sh)
  {
    assert IsPath(g, [] + [g.start]);
  }

  /** In every reachable state, failures included, the ancestors of an instance and the instance itself
      form a path of real edges from the start node, through nodes that have already run. */
  lemma {:induction false} AncestorsArePath(g: Graph, states: seq<State>, steps: seq<Step>, n: nat)
    requires IsRun(g, states, steps) && n < |states|
    ensures ContextInRange(states[n].sh) && Causal(g, states[n].sh)
  {
    if n == 0 {
      CausalInit(g);
    } else {
      AncestorsArePath(g, states, steps, n - 1);
      CausalOn(g, states, steps, n - 1);
    }
  }

  lemma CausalOn(g: Graph, states: seq<State>, steps: seq<Step>, n: nat)
    requires IsRun(g, states, steps) && n < |steps| && ContextInRange(states[n].sh) && Causal(g, states[n].sh)
    ensures ContextInRange(states[n + 1].sh) && Causal(g, states[n + 1].sh)
  {
    TypedRun(g, states, steps, n);
    JoinsSeenRun(g, states, steps, n);
    CausalNext(g, states[n], steps[n], states[n + 1]);
  }

  // ---------- The recursion of a thread ----------

  /** The nodes that thread `t` registers in the first `n` steps, one for each level of its recursion. */
  ghost function Trail(states: seq<State>, steps: seq<Step>, t: nat, n: nat): seq<string>
    requires n <= |steps| <= |states|
  {
    if n == 0 then []
    else Trail(states, steps, t, n - 1) + Registers(states[n - 1].sh, t, steps[n - 1])
  }

  function Registers(sh: Shared, t: nat, step: Step): seq<string> {
    if step == Register(t) && t < |sh.tasks| && sh.tasks[t].Queued? then [sh.tasks[t].req.node] else []
  }

  /** The trail is a walk; the node it stands at is the one the thread runs, and the next lie one edge further. */
  ghost predicate TrailFits(g: Graph, sh: Shared, t: nat, trail: seq<string>) {
    && IsWalk(g, trail)
    && if t >= |sh.tasks| then trail == [] else PcFits(g, sh, sh.tasks[t], trail)
  }

  ghost predicate PcFits(g: Graph, sh: Shared, pc: Pc, trail: seq<string>) {
    match pc
    case Queued(req) => trail != [] ==> Connected(g, trail[|trail| - 1], req.node)
    case Submitting(_, _) => true
    case Appending(_) => true
    case Finished => true
    case _ =>
      && pc.i < |sh.insts| && trail != [] && trail[|trail| - 1] == sh.insts[pc.i].node
      && forall r :: r in Requests(pc) ==> Connected(g, trail[|trail| - 1], r.node)
  }

  lemma MovedFits(g: Graph, s: State, step: Step, trail: seq<string>)
    requires Typed(g, s) && !IsMainStep(step) && Enabled(g, s, step) && PcFits(g, s.sh, s.sh.tasks[step.t], trail)
    ensures PcFits(g, TaskStep(g, s.sh, step.t, step), MovedPc(g, s.sh, step.t, step),
                   trail + Registers(s.sh, step.t, step))
  {
    var pc, pc' := s.sh.tasks[step.t], MovedPc(g, s.sh, step.t, step);
    assert PcTyped(g, s.sh, pc);
    TaskStepKeeps(g, s, step);
    assert trail + [] == trail;
    if !step.Register? && !pc.Submitting? && !pc.Appending? {
      forall r | r in Requests(pc')
        ensures Connected(g, trail[|trail| - 1], r.node)
      {
        MovedRequestIsConnected(g, s, step, trail, r);
      }
      MovedStaysAtNode(g, s.sh, step.t, step);
    }
  }

  /** A thread that goes on with its instance, or finishes scanning, or submits. */
  lemma MovedStaysAtNode(g: Graph, sh: Shared, t: nat, step: Step)
    requires TaskEnabled(g, sh, t, step) && PcTyped(g, sh, sh.tasks[t])
    requires !step.Register? && !sh.tasks[t].Submitting? && !sh.tasks[t].Appending?
    ensures var pc, pc' := sh.tasks[t], MovedPc(g, sh, t, step);
            pc'.Finished? || pc'.Queued? || pc'.Submitting?
            || (!pc'.Appending? && !pc.Queued? && !pc.Finished? && pc'.i == pc.i)
    ensures MovedPc(g, sh, t, step).Queued? ==>
              Requests(MovedPc(g, sh, t, step)) == [MovedPc(g, sh, t, step).req]
  {
  }

  lemma MovedRequestIsConnected(g: Graph, s: State, step: Step, trail: seq<string>, r: Request)
    requires Typed(g, s) && !IsMainStep(step) && Enabled(g, s, step) && PcFits(g, s.sh, s.sh.tasks[step.t], trail)
    requires var pc := s.sh.tasks[step.t]; !step.Register? && !pc.Submitting? && !pc.Appending?
    requires r in Requests(MovedPc(g, s.sh, step.t, step))
    ensures trail != [] && Connected(g, trail[|trail| - 1], r.node)
  {
    var pc := s.sh.tasks[step.t];
    assert PcTyped(g, s.sh, pc);
    NewRequests(g, s.sh, step.t, step, r);
    if FromScan(g, s.sh, pc, r) || FromJoin(g, s.sh, pc, r) {
      assert pc.edges[0] in pc.edges;
    }
  }

  lemma TrailMoves(g: Graph, s: State, step: Step, trail: seq<string>)
    requires Typed(g, s) && !IsMainStep(step) && Enabled(g, s, step) && TrailFits(g, s.sh, step.t, trail)
    ensures TrailFits(g, TaskStep(g, s.sh, step.t, step), step.t, trail + Registers(s.sh, step.t, step))
  {
    MovedFits(g, s, step, trail);
    RegistersWalk(g, s.sh, step.t, step, trail);
    assert TaskStep(g, s.sh, step.t, step).tasks[step.t] == MovedPc(g, s.sh, step.t, step);
  }

  lemma RegistersWalk(g: Graph, sh: Shared, t: nat, step: Step, trail: seq<string>)
    requires TrailFits(g, sh, t, trail)
    ensures IsWalk(g, trail + Registers(sh, t, step))
  {
    if Registers(sh, t, step) == [] {
      assert trail + [] == trail;
    } else {
      WalkExtends(g, trail, sh.tasks[t].req.node);
    }
  }

  lemma PcFitsKept(g: Graph, sh: Shared, sh': Shared, pc: Pc, trail: seq<string>)
    requires InstancesKept(sh, sh') && PcFits(g, sh, pc, trail)
    ensures PcFits(g, sh', pc, trail)
  {
  }

  lemma TrailStays(g: Graph, s: State, step: Step, s': State, t: nat, trail: seq<string>)
    requires Typed(g, s) && Next(g, s, step, s') && TrailFits(g, s.sh, t, trail) && (IsMainStep(step) || t != step.t)
    ensures TrailFits(g, s'.sh, t, trail)
  {
    StepKeeps(g, s, step, s');
    if IsMainStep(step) { MainStepKeeps(g, s, step); }
    if t < |s.sh.tasks| {
      PcFitsKept(g, s.sh, s'.sh, s.sh.tasks[t], trail);
    }
  }

  lemma TrailFitsNext(g: Graph, s: State, step: Step, s': State, t: nat, trail: seq<string>)
    requires Typed(g, s) && Next(g, s, step, s') && TrailFits(g, s.sh, t, trail)
    ensures TrailFits(g, s'.sh, t, trail + Registers(s.sh, t, step))
  {
    if !IsMainStep(step) && t == step.t {
      TrailMoves(g, s, step, trail);
    } else {
      TrailStays(g, s, step, s', t, trail);
      assert trail + [] == trail;
    }
  }

  ghost predicate FitsAt(g: Graph, states: seq<State>, steps: seq<Step>, t: nat, n: nat)
    requires n <= |steps| < |states|
  {
    TrailFits(g, states[n].sh, t, Trail(states, steps, t, n))
  }

  lemma FitsFirst(g: Graph, states: seq<State>, steps: seq<Step>, t: nat)
    requires IsRun(g, states, steps)
    ensures FitsAt(g, states, steps, t, 0)
  {
  }

  lemma FitsNext(g: Graph, states: seq<State>, steps: seq<Step>, t: nat, n: nat)
    requires IsRun(g, states, steps) && 0 < n <= |steps| && FitsAt(g, states, steps, t, n - 1)
    ensures FitsAt(g, states, steps, t, n)
  {
    var trail := Trail(states, steps, t, n - 1);
    var longer := trail + Registers(states[n - 1].sh, t, steps[n - 1]);
    TypedRun(g, states, steps, n - 1);
    StepOfRun(g, states, steps, n);
    TrailFitsNext(g, states[n - 1], steps[n - 1], states[n], t, trail);
    TrailGrows(states, steps, t, n, longer);
  }

  lemma StepOfRun(g: Graph, states: seq<State>, steps: seq<Step>, n: nat)
    requires IsRun(g, states, steps) && 0 < n <= |steps|
    ensures Next(g, states[n - 1], steps[n - 1], states[n])
  {
    assert Next(g, states[n - 1], steps[n - 1], states[n - 1 + 1]);
  }

  lemma TrailGrows(states: seq<State>, steps: seq<Step>, t: nat, n: nat, longer: seq<string>)
    requires 0 < n <= |steps| <= |states|
    requires longer == Trail(states, steps, t, n - 1) + Registers(states[n - 1].sh, t, steps[n - 1])
    ensures Trail(states, steps, t, n) == longer
  {
  }

  lemma {:induction false} FitsAlways(g: Graph, states: seq<State>, steps: seq<Step>, t: nat, n: nat)
    requires IsRun(g, states, steps) && n <= |steps|
    ensures FitsAt(g, states, steps, t, n)
  {
    if n == 0 {
      FitsFirst(g, states, steps, t);
    } else {
      FitsAlways(g, states, steps, t, n - 1);
      FitsNext(g, states, steps, t, n);
    }
  }

  lemma TrailFitsRun(g: Graph, states: seq<State>, steps: seq<Step>, t: nat, n: nat)
    requires IsRun(g, states, steps) && n <= |steps|
    ensures TrailFits(g, states[n].sh, t, Trail(states, steps, t, n))
  {
    FitsAlways(g, states, steps, t, n);
  }

  // ---------- Join identity ----------

  /** The ancestors of a join are those of the first context entry of its first source. */
  ghost predicate JoinNamed(g: Graph, sh: Shared, up: seq<string>, node: string)
    requires ContextInRange(sh)
  {
    IsJoin(g, node) && node != g.start ==>
      var slot := FindNode(sh, FirstSource(g, node), 0);
      slot.Some? && multiset(up) == multiset(sh.insts[sh.context[slot.value]].up) + multiset{FirstSource(g, node)}
  }

  ghost predicate JoinsNamed(g: Graph, sh: Shared)
    requires ContextInRange(sh)
  {
    && (forall i :: 0 <= i < |sh.insts| ==> JoinNamed(g, sh, sh.insts[i].up, sh.insts[i].node))
    && (forall t, r :: 0 <= t < |sh.tasks| && r in Requests(sh.tasks[t]) ==> JoinNamed(g, sh, r.up, r.node))
  }

  /** The first context entry of a node keeps its place and its runtime id. */
  lemma FirstEntryKept(sh: Shared, sh': Shared, node: string)
    requires ContextInRange(sh) && ContextKept(sh, sh') && FindNode(sh, node, 0).Some?
    ensures FindNode(sh', node, 0) == FindNode(sh, node, 0)
    ensures var j := FindNode(sh, node, 0).value;
            multiset(sh'.insts[sh'.context[j]].up) == multiset(sh.insts[sh.context[j]].up)
  {
    var j := FindNode(sh, node, 0).value;
    assert forall m :: 0 <= m <= j ==> InstanceId(sh', sh'.context[m]) == InstanceId(sh, sh.context[m]);
  }

  lemma JoinNamedKept(g: Graph, sh: Shared, sh': Shared, up: seq<string>, node: string)
    requires ContextInRange(sh) && JoinNamed(g, sh, up, node) && ContextKept(sh, sh')
    ensures JoinNamed(g, sh', up, node)
  {
    if IsJoin(g, node) && node != g.start {
      FirstEntryKept(sh, sh', FirstSource(g, node));
    }
  }

  lemma MovedRequestsNamed(g: Graph, s: State, step: Step, r: Request)
    requires Typed(g, s) && JoinsNamed(g, s.sh) && !IsMainStep(step) && Enabled(g, s, step)
    requires r in Requests(MovedPc(g, s.sh, step.t, step))
    ensures JoinNamed(g, s.sh, r.up, r.node)
  {
    var sh, pc := s.sh, s.sh.tasks[step.t];
    NewRequests(g, sh, step.t, step, r);
    if FromJoin(g, sh, pc, r) {
      JoinRequestNamed(g, sh, pc, r);
    }
  }

  lemma JoinRequestNamed(g: Graph, sh: Shared, pc: Pc, r: Request)
    requires ContextInRange(sh) && FromJoin(g, sh, pc, r)
    ensures JoinNamed(g, sh, r.up, r.node)
  {
  }

  lemma JoinsNamedNext(g: Graph, s: State, step: Step, s': State)
    requires Typed(g, s) && JoinsSeen(g, s.sh) && JoinsNamed(g, s.sh) && Next(g, s, step, s')
    ensures ContextInRange(s'.sh) && JoinsNamed(g, s'.sh)
  {
    if IsMainStep(step) { MainStepKeeps(g, s, step); } else { TaskStepKeeps(g, s, step); }
    forall t, r | 0 <= t < |s'.sh.tasks| && r in Requests(s'.sh.tasks[t])
      ensures JoinNamed(g, s'.sh, r.up, r.node)
    {
      if !IsMainStep(step) && t == step.t {
        MovedRequestsNamed(g, s, step, r);
      } else if t == |s.sh.tasks| {
        assert r in Requests(s.sh.tasks[step.t]);
      } else {
        assert r in Requests(s.sh.tasks[t]);
      }
      JoinNamedKept(g, s.sh, s'.sh, r.up, r.node);
    }
    forall i | 0 <= i < |s'.sh.insts|
      ensures JoinNamed(g, s'.sh, s'.sh.insts[i].up, s'.sh.insts[i].node)
    {
      if i < |s.sh.insts| {
        JoinNamedKept(g, s.sh, s'.sh, s.sh.insts[i].up, s.sh.insts[i].node);
      } else {
        var r := s.sh.tasks[step.t].req;
        assert r in Requests(s.sh.tasks[step.t]);
        JoinNamedKept(g, s.sh, s'.sh, r.up, r.node);
      }
    }
  }

  lemma {:induction false} JoinsNamedRun(g: Graph, states: seq<State>, steps: seq<Step>, n: nat)
    requires IsRun(g, states, steps) && n < |states|
    ensures ContextInRange(states[n].sh) && JoinsNamed(g, states[n].sh)
  {
    if n > 0 {
      JoinsNamedRun(g, states, steps, n - 1);
      TypedRun(g, states, steps, n - 1);
      JoinsSeenRun(g, states, steps, n - 1);
      JoinsNamedNext(g, states[n - 1], steps[n - 1], states[n]);
    }
  }

  // ---------- One context entry per runtime id ----------

  ghost predicate UniqueContext(sh: Shared) {
    && ContextInRange(sh)
    && forall j, k :: 0 <= j < k < |sh.context| ==> InstanceId(sh, sh.context[j]) != InstanceId(sh, sh.context[k])
  }

  /** The loop of `append_node` found no entry to replace, but there is one when the append happens. */
  ghost predicate StalePut(s: State, step: Step) {
    && step.Put? && step.t < |s.sh.tasks| && ContextInRange(s.sh)
    && var pc := s.sh.tasks[step.t];
       && pc.Located? && pc.slot.None? && pc.i < |s.sh.insts|
       && exists j :: 0 <= j < |s.sh.context| && InstanceId(s.sh, s.sh.context[j]) == InstanceId(s.sh, pc.i)
  }

  /** Entries that keep their runtime ids stay distinct. */
  lemma UniqueWhenKept(sh: Shared, sh': Shared)
    requires ContextKept(sh, sh') && |sh'.context| == |sh.context|
    ensures UniqueContext(sh') <==> UniqueContext(sh)
  {
    assert forall j :: 0 <= j < |sh.context| ==> InstanceId(sh', sh'.context[j]) == InstanceId(sh, sh.context[j]);
  }

  /** One more entry keeps the rest distinct iff its runtime id is new. */
  lemma UniqueWhenAppended(sh: Shared, sh': Shared, i: nat)
    requires ContextKept(sh, sh') && sh'.context == sh.context + [i] && i < |sh.insts| <= |sh'.insts|
    requires InstanceId(sh', i) == InstanceId(sh, i)
    ensures UniqueContext(sh') <==>
            UniqueContext(sh)
            && forall j :: 0 <= j < |sh.context| ==> InstanceId(sh, sh.context[j]) != InstanceId(sh, i)
  {
    assert forall j :: 0 <= j < |sh.context| ==>
        sh'.context[j] == sh.context[j] && InstanceId(sh', sh'.context[j]) == InstanceId(sh, sh.context[j]);
    assert sh'.context[|sh.context|] == i;
  }

  lemma UniqueContextNext(g: Graph, s: State, step: Step, s': State)
    requires Typed(g, s) && Next(g, s, step, s')
    ensures UniqueContext(s'.sh) <==> UniqueContext(s.sh) && !StalePut(s, step)
  {
    if IsMainStep(step) {
      MainStepKeeps(g, s, step);
      UniqueWhenKept(s.sh, s'.sh);
    } else {
      TaskStepKeeps(g, s, step);
      if step.Put? && s.sh.tasks[step.t].slot.None? {
        UniqueWhenAppended(s.sh, s'.sh, s.sh.tasks[step.t].i);
      } else {
        UniqueWhenKept(s.sh, s'.sh);
      }
    }
  }

  /** None of the first `n` steps was a stale append. */
  ghost predicate NoStalePuts(states: seq<State>, steps: seq<Step>, n: nat)
    requires n <= |steps| && n <= |states|
  {
    forall m :: 0 <= m < n ==> !StalePut(states[m], steps[m])
  }

  lemma NoStalePutsOn(states: seq<State>, steps: seq<Step>, n: nat)
    requires n < |steps| && n < |states|
    ensures NoStalePuts(states, steps, n + 1) <==> NoStalePuts(states, steps, n) && !StalePut(states[n], steps[n])
  {
  }

  /** `node_context` holds no two entries with one runtime id if and only if no append was stale. */
  lemma {:induction false} ContextUniqueIff(g: Graph, states: seq<State>, steps: seq<Step>, n: nat)
    requires IsRun(g, states, steps) && n < |states|
    ensures UniqueContext(states[n].sh) <==> NoStalePuts(states, steps, n)
  {
    if n == 0 {
      assert states[0].sh.context == [];
    } else {
      ContextUniqueIff(g, states, steps, n - 1);
      UniqueContextOn(g, states, steps, n - 1);
      NoStalePutsOn(states, steps, n - 1);
    }
  }

  lemma UniqueContextOn(g: Graph, states: seq<State>, steps: seq<Step>, n: nat)
    requires IsRun(g, states, steps) && n < |steps|
    ensures UniqueContext(states[n + 1].sh) <==> UniqueContext(states[n].sh) && !StalePut(states[n], steps[n])
  {
    TypedRun(g, states, steps, n);
    UniqueContextNext(g, states[n], steps[n], states[n + 1]);
  }
}
