/**
 When a node is executed, in terms of the graph's anchors and what the executions of its sources left behind:
 what every run needs for it, what makes every finished run do it, and forms that hold a join back.
 */
module EngineFiring {
  import opened Workflow
  import opened Engine
  import opened EngineTyping
  import opened EngineSchedule
  import opened EngineLineage
  import opened EngineWakeups

  // ---------- What has been earned ----------

  ghost predicate SourceSelected(sh: Shared, e: Edge) {
    exists i :: 0 <= i < |sh.insts| && sh.insts[i].node == e.source && sh.insts[i].outcome.Some?
                && Fires(e, sh.insts[i].outcome.value)
  }

  ghost predicate SourceSatisfied(sh: Shared, e: Edge) {
    exists i :: 0 <= i < |sh.insts| && sh.insts[i].node == e.source && sh.insts[i].outcome.Some?
                && Ready(e, sh.insts[i].outcome.value)
  }

  /** The start node, or a node that an execution selected and whose sources, at a join, all satisfy it. */
  ghost predicate Earned(g: Graph, sh: Shared, node: string) {
    node == g.start
    || ((exists e :: e in g.edges && e.target == node && SourceSelected(sh, e))
        && (IsOr(g, node) || forall e :: e in EdgesInto(g.edges, node) ==> SourceSatisfied(sh, e)))
  }

  ghost predicate CheckEarned(g: Graph, sh: Shared, pc: Pc) {
    pc.Joining? && pc.ok && pc.edges != [] ==>
      var ins := EdgesInto(g.edges, pc.edges[0].target);
      forall m :: 0 <= m < |ins| && (m < pc.k || (m == pc.k && pc.found)) ==> SourceSatisfied(sh, ins[m])
  }

  ghost predicate PcEarned(g: Graph, sh: Shared, pc: Pc) {
    (forall r :: r in Requests(pc) ==> Earned(g, sh, r.node)) && CheckEarned(g, sh, pc)
  }

  ghost predicate AllEarned(g: Graph, sh: Shared) {
    && (forall i :: 0 <= i < |sh.insts| ==> Earned(g, sh, sh.insts[i].node))
    && (forall t :: 0 <= t < |sh.tasks| ==> PcEarned(g, sh, sh.tasks[t]))
  }

  lemma SelectedKept(sh: Shared, sh': Shared, e: Edge)
    requires InstancesKept(sh, sh')
    ensures SourceSelected(sh, e) ==> SourceSelected(sh', e)
    ensures SourceSatisfied(sh, e) ==> SourceSatisfied(sh', e)
  {
    if SourceSelected(sh, e) {
      var i :| 0 <= i < |sh.insts| && sh.insts[i].node == e.source && sh.insts[i].outcome.Some?
               && Fires(e, sh.insts[i].outcome.value);
      assert sh'.insts[i].node == e.source && sh'.insts[i].outcome == sh.insts[i].outcome;
    }
    if SourceSatisfied(sh, e) {
      var i :| 0 <= i < |sh.insts| && sh.insts[i].node == e.source && sh.insts[i].outcome.Some?
               && Ready(e, sh.insts[i].outcome.value);
      assert sh'.insts[i].node == e.source && sh'.insts[i].outcome == sh.insts[i].outcome;
    }
  }

  lemma EarnedKept(g: Graph, sh: Shared, sh': Shared, node: string)
    requires InstancesKept(sh, sh') && Earned(g, sh, node)
    ensures Earned(g, sh', node)
  {
    forall e ensures SourceSelected(sh, e) ==> SourceSelected(sh', e) { SelectedKept(sh, sh', e); }
    forall e ensures SourceSatisfied(sh, e) ==> SourceSatisfied(sh', e) { SelectedKept(sh, sh', e); }
  }

  lemma PcEarnedKept(g: Graph, sh: Shared, sh': Shared, pc: Pc)
    requires InstancesKept(sh, sh') && PcEarned(g, sh, pc)
    ensures PcEarned(g, sh', pc)
  {
    forall r | r in Requests(pc) ensures Earned(g, sh', r.node) { EarnedKept(g, sh, sh', r.node); }
    forall e ensures SourceSatisfied(sh, e) ==> SourceSatisfied(sh', e) { SelectedKept(sh, sh', e); }
  }

  /** The owner of an edge that has been selected is its source. */
  lemma OwnerSelected(g: Graph, sh: Shared, pc: Pc)
    requires ContextInRange(sh) && PcTyped(g, sh, pc) && (pc.Scanning? || pc.Joining?) && pc.edges != []
    requires Fires(pc.edges[0], sh.insts[pc.i].outcome.value)
    ensures pc.edges[0] in g.edges && SourceSelected(sh, pc.edges[0])
  {
    assert pc.edges[0] in pc.edges;
  }

  lemma NewRequestEarned(g: Graph, sh: Shared, pc: Pc, r: Request)
    requires ContextInRange(sh) && PcTyped(g, sh, pc) && PcEarned(g, sh, pc)
    requires FromScan(g, sh, pc, r) || FromJoin(g, sh, pc, r)
    ensures Earned(g, sh, r.node)
  {
    OwnerSelected(g, sh, pc);
    if FromJoin(g, sh, pc, r) {
      var ins := EdgesInto(g.edges, r.node);
      forall e | e in ins
        ensures SourceSatisfied(sh, e)
      {
        var m :| 0 <= m < |ins| && ins[m] == e;
      }
    }
  }

  lemma ReadEarned(g: Graph, sh: Shared, pc: Pc)
    requires ContextInRange(sh) && pc.Joining? && pc.edges != [] && CheckEarned(g, sh, pc)
    requires pc.k < |EdgesInto(g.edges, pc.edges[0].target)|
    ensures CheckEarned(g, sh, ReadPc(g, sh, pc))
  {
    var e := CheckedEdge(g, pc);
    if pc.j < |sh.context| && EntryDone(sh, e, pc.j) {
      assert SourceSatisfied(sh, e);
    }
  }

  lemma MovedEarned(g: Graph, s: State, step: Step)
    requires Typed(g, s) && AllEarned(g, s.sh) && !IsMainStep(step) && Enabled(g, s, step)
    ensures PcEarned(g, s.sh, MovedPc(g, s.sh, step.t, step))
  {
    var pc := s.sh.tasks[step.t];
    var pc' := MovedPc(g, s.sh, step.t, step);
    assert PcTyped(g, s.sh, pc) && PcEarned(g, s.sh, pc);
    forall r | r in Requests(pc')
      ensures Earned(g, s.sh, r.node)
    {
      NewRequests(g, s.sh, step.t, step, r);
      if r !in Requests(pc) { NewRequestEarned(g, s.sh, pc, r); }
    }
    if step.ReadEntry? { ReadEarned(g, s.sh, pc); }
  }

  lemma EarnedTaskStep(g: Graph, s: State, step: Step)
    requires Typed(g, s) && AllEarned(g, s.sh) && !IsMainStep(step) && Enabled(g, s, step)
    ensures AllEarned(g, TaskStep(g, s.sh, step.t, step))
  {
    var sh' := TaskStep(g, s.sh, step.t, step);
    var pc := s.sh.tasks[step.t];
    TaskStepKeeps(g, s, step);
    MovedEarned(g, s, step);
    assert PcEarned(g, s.sh, pc);
    forall t | 0 <= t < |sh'.tasks|
      ensures PcEarned(g, sh', sh'.tasks[t])
    {
      if t == |s.sh.tasks| { assert pc.todo[0] in Requests(pc); }
      PcEarnedKept(g, s.sh, sh', sh'.tasks[t]);
    }
    forall i | 0 <= i < |sh'.insts|
      ensures Earned(g, sh', sh'.insts[i].node)
    {
      if i == |s.sh.insts| { assert pc.req in Requests(pc); }
      EarnedKept(g, s.sh, sh', sh'.insts[i].node);
    }
  }

  lemma EarnedNext(g: Graph, s: State, step: Step, s': State)
    requires Typed(g, s) && AllEarned(g, s.sh) && Next(g, s, step, s')
    ensures AllEarned(g, s'.sh)
  {
    if IsMainStep(step) {
      MainStepKeeps(g, s, step);
      forall t | 0 <= t < |s'.sh.tasks|
        ensures PcEarned(g, s'.sh, s'.sh.tasks[t])
      {
        PcEarnedKept(g, s.sh, s'.sh, s.sh.tasks[t]);
      }
      forall i | 0 <= i < |s'.sh.insts|
        ensures Earned(g, s'.sh, s'.sh.insts[i].node)
      {
        EarnedKept(g, s.sh, s'.sh, s.sh.insts[i].node);
      }
    } else {
      EarnedTaskStep(g, s, step);
    }
  }

  lemma {:induction false} AllEarnedRun(g: Graph, states: seq<State>, steps: seq<Step>, n: nat)
    requires IsRun(g, states, steps) && n < |states|
    ensures AllEarned(g, states[n].sh)
  {
    if n > 0 {
      AllEarnedRun(g, states, steps, n - 1);
      TypedRun(g, states, steps, n - 1);
      EarnedNext(g, states[n - 1], steps[n - 1], states[n]);
    }
  }

  lemma KnownIsEarned(g: Graph, sh: Shared, node: string)
    requires AllEarned(g, sh) && Known(sh, node)
    ensures Earned(g, sh, node)
  {
    if Started(sh, node) {
      var i :| 0 <= i < |sh.insts| && sh.insts[i].node == node;
    } else {
      var t :| 0 <= t < |sh.tasks| && Requested(sh.tasks[t], node);
      assert PcEarned(g, sh, sh.tasks[t]);
    }
  }

  // ---------- What a node needs ----------

  /** The node's last execution or request came of a result: without a branch by the plain anchor of one of its
      sources, with a branch by the anchor of that branch. */
  lemma NeedsAnchor(g: Graph, states: seq<State>, steps: seq<Step>, n: nat, node: string) returns (e: Edge, i: nat)
    requires IsRun(g, states, steps) && n < |states| && node != g.start && Known(states[n].sh, node)
    ensures e in g.edges && e.target == node
    ensures i < |states[n].sh.insts| && states[n].sh.insts[i].node == e.source && states[n].sh.insts[i].outcome.Some?
    ensures var verdict := states[n].sh.insts[i].outcome.value.verdict;
            (verdict == Plain && e.anchor == e.source + "_right")
            || (verdict.Branch? && e.anchor == e.source + "_" + verdict.id + "_right")
  {
    AllEarnedRun(g, states, steps, n);
    KnownIsEarned(g, states[n].sh, node);
    e :| e in g.edges && e.target == node && SourceSelected(states[n].sh, e);
    i :| 0 <= i < |states[n].sh.insts| && states[n].sh.insts[i].node == e.source
         && states[n].sh.insts[i].outcome.Some? && Fires(e, states[n].sh.insts[i].outcome.value);
  }

  /** An AND node, join or not, has been requested or executed only if along each of its in-edges some execution of
      the source has ended: on the branch of the edge, or without a branch and without a form still open. */
  lemma NeedsAllSources(g: Graph, states: seq<State>, steps: seq<Step>, n: nat, e: Edge) returns (i: nat)
    requires IsRun(g, states, steps) && n < |states| && e in g.edges && e.target != g.start
    requires e.target in g.nodes ==> g.nodes[e.target] == And
    requires Known(states[n].sh, e.target)
    ensures i < |states[n].sh.insts| && states[n].sh.insts[i].node == e.source && states[n].sh.insts[i].outcome.Some?
    ensures var o := states[n].sh.insts[i].outcome.value;
            if o.contextBranch == "" then !o.formPending else e.anchor == e.source + "_" + o.contextBranch + "_right"
  {
    AllEarnedRun(g, states, steps, n);
    KnownIsEarned(g, states[n].sh, e.target);
    assert e in EdgesInto(g.edges, e.target);
    assert SourceSatisfied(states[n].sh, e);
    i :| 0 <= i < |states[n].sh.insts| && states[n].sh.insts[i].node == e.source
         && states[n].sh.insts[i].outcome.Some? && Ready(e, states[n].sh.insts[i].outcome.value);
  }

  /** While all that a source of an AND node left behind is a form that waits to be filled in, the node is neither
      requested nor executed, on any workflow and in any schedule. */
  lemma OpenFormHoldsBack(g: Graph, states: seq<State>, steps: seq<Step>, n: nat, e: Edge)
    requires IsRun(g, states, steps) && n < |states| && e in g.edges && e.target != g.start
    requires e.target in g.nodes ==> g.nodes[e.target] == And
    requires forall i :: 0 <= i < |states[n].sh.insts| && states[n].sh.insts[i].node == e.source
                         && states[n].sh.insts[i].outcome.Some? ==>
               var o := states[n].sh.insts[i].outcome.value; o == Outcome(o.verdict, "", true)
    ensures !Known(states[n].sh, e.target) && e.target !in Executed(states[n])
  {
    if Known(states[n].sh, e.target) {
      var i := NeedsAllSources(g, states, steps, n, e);
    }
  }

  /** So does a source all of whose executions took another branch. */
  lemma OtherBranchHoldsBack(g: Graph, states: seq<State>, steps: seq<Step>, n: nat, e: Edge)
    requires IsRun(g, states, steps) && n < |states| && e in g.edges && e.target != g.start
    requires e.target in g.nodes ==> g.nodes[e.target] == And
    requires forall i :: 0 <= i < |states[n].sh.insts| && states[n].sh.insts[i].node == e.source
                         && states[n].sh.insts[i].outcome.Some? ==>
               var o := states[n].sh.insts[i].outcome.value;
               o.contextBranch != "" && e.anchor != e.source + "_" + o.contextBranch + "_right"
    ensures !Known(states[n].sh, e.target) && e.target !in Executed(states[n])
  {
    if Known(states[n].sh, e.target) {
      var i := NeedsAllSources(g, states, steps, n, e);
    }
  }

  // ---------- What makes a node run ----------

  /** The execution ended with a result that selects the edge by its anchor. */
  predicate Reaches(e: Edge, inst: Instance) {
    && inst.node == e.source && inst.outcome.Some?
    && match inst.outcome.value.verdict
       case Plain => e.anchor == e.source + "_right"
       case Branch(id) => e.anchor == e.source + "_" + id + "_right"
       case Stop => false
  }

  lemma QuiescentKnownIsExecuted(s: State, node: string)
    requires Quiescent(s) && Known(s.sh, node)
    ensures node in Executed(s)
  {
    forall t | 0 <= t < |s.sh.tasks|
      ensures !Requested(s.sh.tasks[t], node)
    {
      assert s.sh.tasks[t].Finished?;
    }
    var i :| 0 <= i < |s.sh.insts| && s.sh.insts[i].node == node;
  }

  lemma QuiescentIsUnwatched(g: Graph, s: State, e: Edge)
    requires ContextInRange(s.sh) && Quiescent(s)
    ensures !Watched(g, s.sh, e)
  {
    forall t | 0 <= t < |s.sh.tasks|
      ensures !Watches(g, s.sh, s.sh.tasks[t], e)
    {
      assert s.sh.tasks[t].Finished?;
    }
  }

  /** A finished run has executed every OR node that some execution selected by its anchor. */
  lemma SelectedOrNodesRun(g: Graph, states: seq<State>, steps: seq<Step>, e: Edge, i: nat)
    requires IsRun(g, states, steps) && Quiescent(states[|steps|]) && e in g.edges
    requires e.target in g.nodes && g.nodes[e.target] == Or
    requires i < |states[|steps|].sh.insts| && Reaches(e, states[|steps|].sh.insts[i])
    ensures e.target in Executed(states[|steps|])
  {
    var s := states[|steps|];
    OrServedRun(g, states, steps, |steps|, e);
    assert MaySelect(s.sh.insts[i], e);
    QuiescentIsUnwatched(g, s, e);
    QuiescentKnownIsExecuted(s, e.target);
  }

  /** All executions of the in-edge's source have ended, selected the edge by its anchor and left no other branch
      and no open form; and there is one. */
  ghost predicate AllReach(sh: Shared, e: Edge) {
    && (exists i :: 0 <= i < |sh.insts| && sh.insts[i].node == e.source)
    && forall i :: 0 <= i < |sh.insts| && sh.insts[i].node == e.source ==>
         && Reaches(e, sh.insts[i])
         && (sh.insts[i].outcome.value.contextBranch == "" ==> !sh.insts[i].outcome.value.formPending)
         && (sh.insts[i].outcome.value.contextBranch != "" ==>
               e.anchor == e.source + "_" + sh.insts[i].outcome.value.contextBranch + "_right")
  }

  /** A finished run has executed every AND node whose sources have all been executed, each time selecting it. */
  lemma SelectedAndNodesRun(g: Graph, states: seq<State>, steps: seq<Step>, e: Edge)
    requires IsRun(g, states, steps) && Quiescent(states[|steps|]) && e in g.edges
    requires e.target in g.nodes ==> g.nodes[e.target] == And
    requires forall e' :: e' in g.edges && e'.target == e.target ==> AllReach(states[|steps|].sh, e')
    ensures e.target in Executed(states[|steps|])
  {
    var s := states[|steps|];
    AndServedRun(g, states, steps, |steps|, e.target);
    assert e in EdgesInto(g.edges, e.target);
    forall e' | e' in EdgesInto(g.edges, e.target)
      ensures SourceSelects(s.sh, e') && !Watched(g, s.sh, e')
    {
      ReachSelects(s.sh, e');
      QuiescentIsUnwatched(g, s, e');
    }
    QuiescentKnownIsExecuted(s, e.target);
  }

  lemma ReachSelects(sh: Shared, e: Edge)
    requires AllReach(sh, e)
    ensures SourceSelects(sh, e)
  {
  }

  /** Every execution of the in-edge's source had ended by then, on the branch of the edge, or without a branch and
      without a form still open; and there is one. */
  ghost predicate SatisfiedBy(past: Shared, sh: Shared, e: Edge) {
    && (exists i :: 0 <= i < |sh.insts| && sh.insts[i].node == e.source)
    && forall i :: 0 <= i < |sh.insts| && sh.insts[i].node == e.source ==>
         && i < |past.insts| && past.insts[i].outcome.Some? && sh.insts[i].outcome == past.insts[i].outcome
         && var o := past.insts[i].outcome.value;
            if o.contextBranch == "" then !o.formPending else e.anchor == e.source + "_" + o.contextBranch + "_right"
  }

  lemma SatisfiedIsSettled(past: Shared, sh: Shared, e: Edge)
    requires SatisfiedBy(past, sh, e)
    ensures Settled(past, sh, e)
  {
  }

  /** A finished run has executed every AND node whose sources satisfy it and are done with the end of one execution
      that selects it, whatever the others selected. */
  lemma LastSourceStarts(g: Graph, states: seq<State>, steps: seq<Step>, m: nat, i: nat, e: Edge)
    requires IsRun(g, states, steps) && Quiescent(states[|steps|]) && m < |steps| && EndsAt(states, steps, m, i)
    requires e in g.edges && i < |states[|steps|].sh.insts| && Reaches(e, states[|steps|].sh.insts[i])
    requires e.target in g.nodes ==> g.nodes[e.target] == And
    requires forall e' :: e' in g.edges && e'.target == e.target ==>
               SatisfiedBy(states[m + 1].sh, states[|steps|].sh, e')
    ensures e.target in Executed(states[|steps|])
  {
    var s := states[|steps|];
    forall e' | e' in EdgesInto(g.edges, e.target)
      ensures Settled(states[m + 1].sh, s.sh, e')
    {
      SatisfiedIsSettled(states[m + 1].sh, s.sh, e');
    }
    SettledSourcesServe(g, states, steps, m, |steps|, i, e);
    ServedIsWatched(g, s, steps[m].t, i, e, |states[m].sh.insts|);
    QuiescentIsUnwatched(g, s, e);
    QuiescentKnownIsExecuted(s, e.target);
  }
}
