/**
 No wake-up is lost, although threads check joins without a lock, entry by entry, while others
 replace entries: of the sources that start a join, the instance that ends last finds the join satisfied.
 */
module EngineWakeups {
  import opened Workflow
  import opened Engine
  import opened EngineTyping
  import opened EngineSchedule

  // ---------- When instances end ----------

  lemma {:induction false} RunKeeps(g: Graph, states: seq<State>, steps: seq<Step>, a: nat, b: nat)
    requires IsRun(g, states, steps) && a <= b < |states|
    ensures InstancesKept(states[a].sh, states[b].sh) && ContextKept(states[a].sh, states[b].sh)
  {
    TypedRun(g, states, steps, b);
    if a < b {
      RunKeeps(g, states, steps, a, b - 1);
      TypedRun(g, states, steps, b - 1);
      StepKeeps(g, states[b - 1], steps[b - 1], states[b]);
    }
  }

  /** Step `m` ends instance `i`. */
  ghost predicate EndsAt(states: seq<State>, steps: seq<Step>, m: nat, i: nat) {
    && m < |steps| && m < |states| && steps[m].End?
    && steps[m].t < |states[m].sh.tasks| && states[m].sh.tasks[steps[m].t] == Running(i)
  }

  lemma EndedByStep(g: Graph, s: State, step: Step, s': State, i: nat)
    requires Typed(g, s) && Next(g, s, step, s')
    requires HasEnded(s'.sh, i) && !HasEnded(s.sh, i)
    ensures step.End? && step.t < |s.sh.tasks| && s.sh.tasks[step.t] == Running(i)
  {
    if IsMainStep(step) {
      MainStepKeeps(g, s, step);
    } else {
      assert PcTyped(g, s.sh, s.sh.tasks[step.t]);
    }
  }

  lemma EndsOnce(g: Graph, states: seq<State>, steps: seq<Step>, m: nat, i: nat)
    requires IsRun(g, states, steps) && EndsAt(states, steps, m, i)
    ensures i < |states[m].sh.insts| && !HasEnded(states[m].sh, i) && HasEnded(states[m + 1].sh, i)
    ensures |states[m + 1].sh.insts| == |states[m].sh.insts|
  {
    TypedRun(g, states, steps, m);
    assert PcTyped(g, states[m].sh, Running(i));
    assert Next(g, states[m], steps[m], states[m + 1]);
  }

  /** An instance that has ended by state `n` ended at one step before. */
  lemma {:induction false} EndOf(g: Graph, states: seq<State>, steps: seq<Step>, n: nat, i: nat) returns (m: nat)
    requires IsRun(g, states, steps) && n < |states| && HasEnded(states[n].sh, i)
    ensures m < n && EndsAt(states, steps, m, i)
  {
    if HasEnded(states[n - 1].sh, i) {
      m := EndOf(g, states, steps, n - 1, i);
    } else {
      TypedRun(g, states, steps, n - 1);
      EndedByStep(g, states[n - 1], steps[n - 1], states[n], i);
      m := n - 1;
    }
  }

  ghost predicate AllEnded(sh: Shared, nodes: set<string>) {
    forall i :: 0 <= i < |sh.insts| && sh.insts[i].node in nodes ==> sh.insts[i].outcome.Some?
  }

  /** Every instance of these nodes in `sh'` had ended in `sh` already. */
  ghost predicate AllEndedBy(sh: Shared, sh': Shared, nodes: set<string>) {
    forall i :: 0 <= i < |sh'.insts| && sh'.insts[i].node in nodes ==> HasEnded(sh, i)
  }

  /** A step after which these nodes have all ended ends one of them, or they had all ended before. */
  lemma EndsNowOrBefore(g: Graph, s: State, step: Step, s': State, nodes: set<string>) returns (now: bool, i: nat)
    requires Typed(g, s) && Next(g, s, step, s') && AllEnded(s'.sh, nodes)
    ensures now ==> step.End? && step.t < |s.sh.tasks| && s.sh.tasks[step.t] == Running(i)
                    && i < |s'.sh.insts| && s'.sh.insts[i].node in nodes
    ensures !now ==> AllEndedBy(s.sh, s'.sh, nodes)
  {
    now := exists i: nat :: i < |s'.sh.insts| && s'.sh.insts[i].node in nodes && !HasEnded(s.sh, i);
    i := 0;
    if now {
      i :| i < |s'.sh.insts| && s'.sh.insts[i].node in nodes && !HasEnded(s.sh, i);
      EndedByStep(g, s, step, s', i);
    }
  }

  lemma EndedBefore(sh: Shared, sh': Shared, nodes: set<string>)
    requires InstancesKept(sh, sh') && AllEndedBy(sh, sh', nodes)
    ensures AllEnded(sh, nodes)
    ensures forall node :: node in nodes && Started(sh', node) ==> Started(sh, node)
  {
    forall i | 0 <= i < |sh.insts| && sh.insts[i].node in nodes
      ensures sh.insts[i].outcome.Some?
    {
      assert sh'.insts[i].node in nodes;
      assert HasEnded(sh, i);
    }
  }

  lemma AllEndedByBefore(sh: Shared, mid: Shared, sh': Shared, nodes: set<string>)
    requires InstancesKept(mid, sh') && AllEndedBy(sh, mid, nodes) && AllEndedBy(mid, sh', nodes)
    ensures AllEndedBy(sh, sh', nodes)
  {
    forall i | 0 <= i < |sh'.insts| && sh'.insts[i].node in nodes
      ensures HasEnded(sh, i)
    {
      assert HasEnded(mid, i) && mid.insts[i].node in nodes;
    }
  }

  ghost predicate SomeStarted(sh: Shared, nodes: set<string>) {
    exists node :: node in nodes && Started(sh, node)
  }

  lemma NothingStarted(g: Graph, states: seq<State>, steps: seq<Step>, nodes: set<string>)
    requires IsRun(g, states, steps)
    ensures !SomeStarted(states[0].sh, nodes)
  {
    assert states[0].sh.insts == [];
  }

  /** Of the instances of these nodes, the one that ends last. */
  lemma {:induction false} LastEnd(g: Graph, states: seq<State>, steps: seq<Step>, n: nat, nodes: set<string>)
    returns (m: nat, i: nat)
    requires IsRun(g, states, steps) && n < |states| && AllEnded(states[n].sh, nodes)
    requires SomeStarted(states[n].sh, nodes)
    ensures m < n && EndsAt(states, steps, m, i)
    ensures i < |states[n].sh.insts| && states[n].sh.insts[i].node in nodes
    ensures AllEndedBy(states[m + 1].sh, states[n].sh, nodes)
  {
    if n == 0 { NothingStarted(g, states, steps, nodes); }
    var now;
    now, i := EndsNowOn(g, states, steps, n - 1, nodes);
    if now {
      m := n - 1;
    } else {
      m, i := LastEnd(g, states, steps, n - 1, nodes);
      AllEndedByBefore(states[m + 1].sh, states[n - 1].sh, states[n].sh, nodes);
    }
  }

  lemma EndsNowOn(g: Graph, states: seq<State>, steps: seq<Step>, n: nat, nodes: set<string>)
    returns (now: bool, i: nat)
    requires IsRun(g, states, steps) && n < |steps|
    requires AllEnded(states[n + 1].sh, nodes) && SomeStarted(states[n + 1].sh, nodes)
    ensures InstancesKept(states[n].sh, states[n + 1].sh)
    ensures now ==> EndsAt(states, steps, n, i)
    ensures now ==> i < |states[n + 1].sh.insts| && states[n + 1].sh.insts[i].node in nodes
    ensures now ==> AllEndedBy(states[n + 1].sh, states[n + 1].sh, nodes)
    ensures !now ==> AllEndedBy(states[n].sh, states[n + 1].sh, nodes)
    ensures !now ==> AllEnded(states[n].sh, nodes) && SomeStarted(states[n].sh, nodes)
  {
    TypedRun(g, states, steps, n);
    StepKeeps(g, states[n], steps[n], states[n + 1]);
    now, i := EndsNowOrBefore(g, states[n], steps[n], states[n + 1], nodes);
    if !now {
      EndedBefore(states[n].sh, states[n + 1].sh, nodes);
    }
  }

  // ---------- A thread acts on each out-edge its node selects ----------

  /** An entry of the node stands at slot `j` of the context or after it. */
  ghost predicate SourceAhead(sh: Shared, node: string, j: nat)
    requires ContextInRange(sh)
  {
    exists q :: j <= q < |sh.context| && sh.insts[sh.context[q]].node == node
  }

  /** The thread has ended instance `i` and is still to act on out-edge `e`; if it is
      checking the join, nothing it has read spoils it. */
  ghost predicate Acting(g: Graph, sh: Shared, pc: Pc, i: nat, e: Edge)
    requires ContextInRange(sh)
  {
    match pc
    case Ended(i') => i' == i
    case Scanning(i', edges, _) => i' == i && e in edges
    case Joining(i', edges, _, k, j, found, ok) =>
      i' == i && edges != [] && (e in edges[1..] || (e == edges[0] && ok && CheckOpen(g, sh, e.target, k, j, found)))
    case _ => false
  }

  ghost predicate CheckOpen(g: Graph, sh: Shared, target: string, k: nat, j: nat, found: bool)
    requires ContextInRange(sh)
  {
    var ins := EdgesInto(g.edges, target);
    k < |ins| ==> found || SourceAhead(sh, ins[k].source, j)
  }

  /** Every source of the join has run, all its instances have ended, and each satisfies the join. */
  ghost predicate SourcesReady(g: Graph, sh: Shared, target: string)
    requires ContextInRange(sh)
  {
    forall e :: e in EdgesInto(g.edges, target) ==> SourceReady(sh, e)
  }

  ghost predicate SourceReady(sh: Shared, e: Edge)
    requires ContextInRange(sh)
  {
    && InContext(sh, e.source)
    && forall i :: 0 <= i < |sh.insts| && sh.insts[i].node == e.source ==>
         sh.insts[i].outcome.Some? && Ready(e, sh.insts[i].outcome.value)
  }

  lemma SourceAheadKept(sh: Shared, sh': Shared, node: string, j: nat)
    requires ContextInRange(sh) && ContextKept(sh, sh') && SourceAhead(sh, node, j)
    ensures SourceAhead(sh', node, j)
  {
    var q :| j <= q < |sh.context| && sh.insts[sh.context[q]].node == node;
    assert InstanceId(sh', sh'.context[q]) == InstanceId(sh, sh.context[q]);
  }

  lemma ActingKept(g: Graph, sh: Shared, sh': Shared, pc: Pc, i: nat, e: Edge)
    requires ContextInRange(sh) && ContextKept(sh, sh') && Acting(g, sh, pc, i, e)
    ensures Acting(g, sh', pc, i, e)
  {
    if pc.Joining? && e !in pc.edges[1..] && pc.k < |EdgesInto(g.edges, e.target)| && !pc.found {
      SourceAheadKept(sh, sh', CheckedEdge(g, pc).source, pc.j);
    }
  }

  lemma CheckOpens(g: Graph, sh: Shared, target: string, k: nat)
    requires ContextInRange(sh) && SourcesReady(g, sh, target)
    ensures CheckOpen(g, sh, target, k, 0, false)
  {
    var ins := EdgesInto(g.edges, target);
    if k < |ins| {
      assert ins[k] in ins;
      assert SourceReady(sh, ins[k]);
    }
  }

  /** Reading on, entry by entry, the check stays open while all instances of the sources have ended. */
  lemma ReadActs(g: Graph, sh: Shared, pc: Pc, i: nat, e: Edge)
    requires ContextInRange(sh) && PcTyped(g, sh, pc) && Acting(g, sh, pc, i, e)
    requires pc.Joining? && pc.k < |EdgesInto(g.edges, pc.edges[0].target)|
    requires e == pc.edges[0] ==> SourcesReady(g, sh, e.target)
    ensures Acting(g, sh, ReadPc(g, sh, pc), i, e)
  {
    if e !in pc.edges[1..] {
      var e' := CheckedEdge(g, pc);
      assert e' in EdgesInto(g.edges, e.target);
      assert SourceReady(sh, e');
      CheckOpens(g, sh, e.target, pc.k + 1);
      if pc.j < |sh.context| && !pc.found && !EntryDone(sh, e', pc.j) {
        var q :| pc.j <= q < |sh.context| && sh.insts[sh.context[q]].node == e'.source;
        assert q != pc.j;
      }
    }
  }

  lemma ScanActs(g: Graph, sh: Shared, pc: Pc, i: nat, e: Edge)
    requires ContextInRange(sh) && PcTyped(g, sh, pc) && Acting(g, sh, pc, i, e)
    requires pc.Scanning? && pc.edges != [] && Fires(e, sh.insts[i].outcome.value)
    requires IsOr(g, e.target) || SourcesReady(g, sh, e.target)
    ensures var pc' := ScanPc(g, sh, pc); Acting(g, sh, pc', i, e) || Requested(pc', e.target)
  {
    if e == pc.edges[0] {
      if IsOr(g, e.target) {
        var pc' := ScanPc(g, sh, pc);
        assert pc'.next[|pc.next|] in Requests(pc');
      } else {
        CheckOpens(g, sh, e.target, 0);
      }
    }
  }

  lemma FinishJoinActs(g: Graph, s: State, step: Step, i: nat, e: Edge)
    requires Typed(g, s) && JoinsSeen(g, s.sh) && step.FinishJoin? && Enabled(g, s, step)
    requires Acting(g, s.sh, s.sh.tasks[step.t], i, e)
    ensures var pc' := FinishJoinPc(g, s.sh, s.sh.tasks[step.t]); Acting(g, s.sh, pc', i, e) || Requested(pc', e.target)
  {
    var pc := s.sh.tasks[step.t];
    var pc' := FinishJoinPc(g, s.sh, pc);
    JoinLookupSucceeds(g, s, step);
    if e !in pc.edges[1..] {
      assert pc'.next[|pc.next|] in Requests(pc');
    }
  }

  lemma MovedActs(g: Graph, s: State, step: Step, i: nat, e: Edge)
    requires Typed(g, s) && JoinsSeen(g, s.sh) && !IsMainStep(step) && Enabled(g, s, step)
    requires HasEnded(s.sh, i) && e in g.edges && e.source == s.sh.insts[i].node
    requires Fires(e, s.sh.insts[i].outcome.value)
    requires IsOr(g, e.target) || SourcesReady(g, s.sh, e.target)
    requires Acting(g, s.sh, s.sh.tasks[step.t], i, e)
    ensures var pc' := MovedPc(g, s.sh, step.t, step); Acting(g, s.sh, pc', i, e) || Requested(pc', e.target)
  {
    var pc := s.sh.tasks[step.t];
    assert PcTyped(g, s.sh, pc);
    if step.ScanEdge? {
      ScanActs(g, s.sh, pc, i, e);
    } else if step.ReadEntry? {
      ReadActs(g, s.sh, pc, i, e);
    } else if step.FinishJoin? {
      FinishJoinActs(g, s, step, i, e);
    } else if step.Decide? {
      assert e in EdgesFrom(g.edges, s.sh.insts[i].node);
    }
  }

  /** The thread goes on acting on the edge, or makes its target known. */
  lemma ActingNext(g: Graph, s: State, step: Step, s': State, t: nat, i: nat, e: Edge)
    requires Typed(g, s) && JoinsSeen(g, s.sh) && Next(g, s, step, s') && t < |s.sh.tasks|
    requires HasEnded(s.sh, i) && e in g.edges && e.source == s.sh.insts[i].node
    requires Fires(e, s.sh.insts[i].outcome.value)
    requires IsOr(g, e.target) || SourcesReady(g, s.sh, e.target)
    requires Acting(g, s.sh, s.sh.tasks[t], i, e)
    ensures t < |s'.sh.tasks| && ContextInRange(s'.sh)
    ensures Acting(g, s'.sh, s'.sh.tasks[t], i, e) || Requested(s'.sh.tasks[t], e.target)
  {
    StepKeeps(g, s, step, s');
    if !IsMainStep(step) && t == step.t {
      MovedActs(g, s, step, i, e);
      if !Requested(s'.sh.tasks[t], e.target) {
        ActingKept(g, s.sh, s'.sh, s'.sh.tasks[t], i, e);
      }
    } else {
      ActingKept(g, s.sh, s'.sh, s.sh.tasks[t], i, e);
    }
  }

  /** What the thread that ended `i` at step `m` has made of out-edge `e` by state `s`. */
  ghost predicate Served(g: Graph, s: State, t: nat, i: nat, e: Edge, k: nat)
    requires ContextInRange(s.sh)
  {
    KnownSince(s.sh, e.target, k) || (t < |s.sh.tasks| && Acting(g, s.sh, s.sh.tasks[t], i, e))
  }

  /** From step `m` to state `n` every source of the join has ended and satisfies it. */
  ghost predicate ReadyThroughout(g: Graph, states: seq<State>, m: nat, n: nat, target: string)
    requires n <= |states|
  {
    forall n' :: m < n' < n ==> ContextInRange(states[n'].sh) && SourcesReady(g, states[n'].sh, target)
  }

  /** The instance that has ended selects the edge, and if the edge enters a join, its sources are ready. */
  ghost predicate Selects(g: Graph, sh: Shared, i: nat, e: Edge) {
    HasEnded(sh, i) && e in g.edges && e.source == sh.insts[i].node && Fires(e, sh.insts[i].outcome.value)
  }

  lemma ServedNext(g: Graph, s: State, step: Step, s': State, t: nat, i: nat, e: Edge, k: nat)
    requires Typed(g, s) && JoinsSeen(g, s.sh) && Next(g, s, step, s') && Selects(g, s.sh, i, e) && k <= |s.sh.insts|
    requires IsOr(g, e.target) || SourcesReady(g, s.sh, e.target)
    requires Served(g, s, t, i, e, k)
    ensures ContextInRange(s'.sh) && Served(g, s', t, i, e, k)
  {
    StepKeeps(g, s, step, s');
    if KnownSince(s.sh, e.target, k) {
      KnownSurvives(g, s, step, s', e.target, k);
    } else {
      ActingNext(g, s, step, s', t, i, e);
    }
  }

  lemma ServedOn(g: Graph, states: seq<State>, steps: seq<Step>, n: nat, t: nat, i: nat, e: Edge, k: nat)
    requires IsRun(g, states, steps) && n < |steps| && Selects(g, states[n].sh, i, e) && k <= |states[n].sh.insts|
    requires ContextInRange(states[n].sh) && (IsOr(g, e.target) || SourcesReady(g, states[n].sh, e.target))
    requires Served(g, states[n], t, i, e, k)
    ensures ContextInRange(states[n + 1].sh) && Served(g, states[n + 1], t, i, e, k)
  {
    TypedRun(g, states, steps, n);
    JoinsSeenRun(g, states, steps, n);
    ServedNext(g, states[n], steps[n], states[n + 1], t, i, e, k);
  }

  lemma ServedAtEnd(g: Graph, states: seq<State>, steps: seq<Step>, m: nat, i: nat, e: Edge, k: nat)
    requires IsRun(g, states, steps) && EndsAt(states, steps, m, i)
    ensures ContextInRange(states[m + 1].sh) && Served(g, states[m + 1], steps[m].t, i, e, k)
  {
    TypedRun(g, states, steps, m + 1);
    assert Next(g, states[m], steps[m], states[m + 1]);
  }

  /** From its end on, an instance's thread acts on each edge it selects until the target is known. */
  lemma {:induction false} EndedInstanceServes(g: Graph, states: seq<State>, steps: seq<Step>, m: nat, n: nat,
                                               i: nat, e: Edge)
    requires IsRun(g, states, steps) && m < n < |states| && EndsAt(states, steps, m, i)
    requires Selects(g, states[m + 1].sh, i, e)
    requires IsOr(g, e.target) || ReadyThroughout(g, states, m, n, e.target)
    ensures ContextInRange(states[n].sh) && Served(g, states[n], steps[m].t, i, e, |states[m].sh.insts|)
  {
    if n == m + 1 {
      ServedAtEnd(g, states, steps, m, i, e, |states[m].sh.insts|);
    } else {
      EndedInstanceServes(g, states, steps, m, n - 1, i, e);
      RunKeeps(g, states, steps, m, n - 1);
      RunKeeps(g, states, steps, m + 1, n - 1);
      ServedOn(g, states, steps, n - 1, steps[m].t, i, e, |states[m].sh.insts|);
    }
  }

  // ---------- The sources of a join, once they have all ended ----------

  /** Every instance of the in-edge's source that there is in `sh'` had ended in `sh`, and satisfies the join. */
  ghost predicate Settled(sh: Shared, sh': Shared, e: Edge) {
    && Started(sh', e.source)
    && forall i :: 0 <= i < |sh'.insts| && sh'.insts[i].node == e.source ==>
         HasEnded(sh, i) && HasEnded(sh', i) && Ready(e, sh'.insts[i].outcome.value)
  }

  ghost predicate SourcesSettled(g: Graph, sh: Shared, sh': Shared, target: string) {
    forall e :: e in EdgesInto(g.edges, target) ==> Settled(sh, sh', e)
  }

  lemma SettledIsReady(g: Graph, s: State, sh: Shared, sh': Shared, e: Edge)
    requires Typed(g, s) && InstancesKept(sh, s.sh) && InstancesKept(s.sh, sh') && Settled(sh, sh', e)
    ensures SourceReady(s.sh, e)
  {
    var i :| 0 <= i < |sh'.insts| && sh'.insts[i].node == e.source;
    assert HasEnded(s.sh, i) && s.sh.insts[i].node == e.source;
    assert OwnedAt(s.sh, i);
    forall i | 0 <= i < |s.sh.insts| && s.sh.insts[i].node == e.source
      ensures s.sh.insts[i].outcome.Some? && Ready(e, s.sh.insts[i].outcome.value)
    {
      assert sh'.insts[i].node == e.source && HasEnded(sh, i);
    }
  }

  lemma SettledIsReadyThroughout(g: Graph, states: seq<State>, steps: seq<Step>, m: nat, n: nat, target: string)
    requires IsRun(g, states, steps) && m < n < |states|
    requires SourcesSettled(g, states[m + 1].sh, states[n].sh, target)
    ensures ReadyThroughout(g, states, m, n, target)
  {
    forall n' | m < n' < n
      ensures ContextInRange(states[n'].sh) && SourcesReady(g, states[n'].sh, target)
    {
      TypedRun(g, states, steps, n');
      RunKeeps(g, states, steps, m + 1, n');
      RunKeeps(g, states, steps, n', n);
      forall e | e in EdgesInto(g.edges, target)
        ensures SourceReady(states[n'].sh, e)
      {
        SettledIsReady(g, states[n'], states[m + 1].sh, states[n].sh, e);
      }
    }
  }

  /** Once the sources of a join have settled, the instance that ended last serves the join. */
  lemma SettledSourcesServe(g: Graph, states: seq<State>, steps: seq<Step>, m: nat, n: nat, i: nat, e: Edge)
    requires IsRun(g, states, steps) && m < n < |states| && EndsAt(states, steps, m, i)
    requires Selects(g, states[n].sh, i, e)
    requires SourcesSettled(g, states[m + 1].sh, states[n].sh, e.target)
    ensures ContextInRange(states[n].sh) && Served(g, states[n], steps[m].t, i, e, |states[m].sh.insts|)
  {
    SettledIsReadyThroughout(g, states, steps, m, n, e.target);
    SelectsSinceEnd(g, states, steps, m, n, i, e);
    EndedInstanceServes(g, states, steps, m, n, i, e);
  }

  lemma SelectsSinceEnd(g: Graph, states: seq<State>, steps: seq<Step>, m: nat, n: nat, i: nat, e: Edge)
    requires IsRun(g, states, steps) && m < n < |states| && EndsAt(states, steps, m, i)
    requires Selects(g, states[n].sh, i, e)
    ensures Selects(g, states[m + 1].sh, i, e)
  {
    EndsOnce(g, states, steps, m, i);
    RunKeeps(g, states, steps, m + 1, n);
  }

  // ---------- In every state: a startable successor is known, or a thread will still look at it ----------

  /** The thread runs an instance of the edge's source and has yet to act on the edge. */
  ghost predicate Watches(g: Graph, sh: Shared, pc: Pc, e: Edge)
    requires ContextInRange(sh)
  {
    || (exists i :: 0 <= i < |sh.insts| && sh.insts[i].node == e.source && Holds(pc, i))
    || (exists i :: 0 <= i < |sh.insts| && sh.insts[i].node == e.source && Acting(g, sh, pc, i, e))
  }

  ghost predicate Watched(g: Graph, sh: Shared, e: Edge)
    requires ContextInRange(sh)
  {
    exists t :: 0 <= t < |sh.tasks| && Watches(g, sh, sh.tasks[t], e)
  }

  /** The instance starts the edge's target if it has ended, and may do so otherwise. */
  predicate MaySelect(inst: Instance, e: Edge) {
    inst.node == e.source && (inst.outcome.Some? ==> Fires(e, inst.outcome.value))
  }

  ghost predicate OrServed(g: Graph, sh: Shared, e: Edge)
    requires ContextInRange(sh)
  {
    e in g.edges && IsOr(g, e.target) && (exists i :: 0 <= i < |sh.insts| && MaySelect(sh.insts[i], e))
    ==> Known(sh, e.target) || Watched(g, sh, e)
  }

  /** Every source of the join has started, and each of its instances that has ended selects
      the join and satisfies it. */
  ghost predicate AllSelect(g: Graph, sh: Shared, target: string) {
    && EdgesInto(g.edges, target) != []
    && forall e :: e in EdgesInto(g.edges, target) ==> SourceSelects(sh, e)
  }

  ghost predicate SourceSelects(sh: Shared, e: Edge) {
    && Started(sh, e.source)
    && forall i :: 0 <= i < |sh.insts| && sh.insts[i].node == e.source && sh.insts[i].outcome.Some? ==>
         Fires(e, sh.insts[i].outcome.value) && Ready(e, sh.insts[i].outcome.value)
  }

  ghost predicate SomeWatched(g: Graph, sh: Shared, target: string)
    requires ContextInRange(sh)
  {
    exists e :: e in EdgesInto(g.edges, target) && Watched(g, sh, e)
  }

  ghost predicate AndServed(g: Graph, sh: Shared, target: string)
    requires ContextInRange(sh)
  {
    !IsOr(g, target) && AllSelect(g, sh, target) ==> Known(sh, target) || SomeWatched(g, sh, target)
  }

  ghost predicate WakeInv(g: Graph, s: State) {
    && JoinsSeen(g, s.sh)
    && Known(s.sh, g.start)
    && (forall e :: OrServed(g, s.sh, e))
    && (forall target :: AndServed(g, s.sh, target))
  }

  /** The thread of an instance that has not ended watches all its edges. */
  lemma UnendedIsWatched(g: Graph, s: State, i: nat, e: Edge)
    requires Typed(g, s) && i < |s.sh.insts| && s.sh.insts[i].node == e.source && s.sh.insts[i].outcome.None?
    ensures Watched(g, s.sh, e)
  {
    assert OwnedAt(s.sh, i);
    var t :| 0 <= t < |s.sh.tasks| && Holds(s.sh.tasks[t], i);
    assert Watches(g, s.sh, s.sh.tasks[t], e);
  }

  /** What is served for an instance of the edge's source is known or watched. */
  lemma ServedIsWatched(g: Graph, s: State, t: nat, i: nat, e: Edge, k: nat)
    requires ContextInRange(s.sh) && Served(g, s, t, i, e, k) && i < |s.sh.insts| && s.sh.insts[i].node == e.source
    ensures Known(s.sh, e.target) || Watched(g, s.sh, e)
  {
    if !KnownSince(s.sh, e.target, k) {
      assert Watches(g, s.sh, s.sh.tasks[t], e);
    }
  }

  lemma OrServedRun(g: Graph, states: seq<State>, steps: seq<Step>, n: nat, e: Edge)
    requires IsRun(g, states, steps) && n < |states|
    ensures ContextInRange(states[n].sh) && OrServed(g, states[n].sh, e)
  {
    TypedRun(g, states, steps, n);
    var sh := states[n].sh;
    if i: nat :| e in g.edges && IsOr(g, e.target) && i < |sh.insts| && MaySelect(sh.insts[i], e) {
      if sh.insts[i].outcome.None? {
        UnendedIsWatched(g, states[n], i, e);
      } else {
        var m := EndOf(g, states, steps, n, i);
        SelectsSinceEnd(g, states, steps, m, n, i, e);
        EndedInstanceServes(g, states, steps, m, n, i, e);
        ServedIsWatched(g, states[n], steps[m].t, i, e, |states[m].sh.insts|);
      }
    }
  }

  function SourcesOf(g: Graph, target: string): set<string> {
    set e | e in EdgesInto(g.edges, target) :: e.source
  }

  lemma AndServedRun(g: Graph, states: seq<State>, steps: seq<Step>, n: nat, target: string)
    requires IsRun(g, states, steps) && n < |states|
    ensures ContextInRange(states[n].sh) && AndServed(g, states[n].sh, target)
  {
    TypedRun(g, states, steps, n);
    var sh := states[n].sh;
    if !IsOr(g, target) && AllSelect(g, sh, target) {
      if i: nat :| i < |sh.insts| && sh.insts[i].node in SourcesOf(g, target) && sh.insts[i].outcome.None? {
        var e :| e in EdgesInto(g.edges, target) && e.source == sh.insts[i].node;
        UnendedIsWatched(g, states[n], i, e);
      } else {
        EndedSourcesServe(g, states, steps, n, target);
      }
    }
  }

  lemma EndedSourcesSettle(g: Graph, sh: Shared, sh': Shared, target: string)
    requires AllSelect(g, sh', target) && InstancesKept(sh, sh') && AllEndedBy(sh, sh', SourcesOf(g, target))
    ensures SourcesSettled(g, sh, sh', target)
  {
    forall e | e in EdgesInto(g.edges, target)
      ensures Settled(sh, sh', e)
    {
      assert SourceSelects(sh', e) && e.source in SourcesOf(g, target);
    }
  }

  lemma SomeSourceStarted(g: Graph, sh: Shared, target: string)
    requires AllSelect(g, sh, target)
    ensures SomeStarted(sh, SourcesOf(g, target))
  {
    var e := EdgesInto(g.edges, target)[0];
    assert e in EdgesInto(g.edges, target);
    assert SourceSelects(sh, e) && e.source in SourcesOf(g, target);
  }

  lemma SelectedBy(g: Graph, sh: Shared, target: string, i: nat) returns (e: Edge)
    requires AllSelect(g, sh, target) && HasEnded(sh, i) && sh.insts[i].node in SourcesOf(g, target)
    ensures e in EdgesInto(g.edges, target) && Selects(g, sh, i, e)
  {
    e :| e in EdgesInto(g.edges, target) && e.source == sh.insts[i].node;
    assert SourceSelects(sh, e);
  }

  lemma EndedSourcesServe(g: Graph, states: seq<State>, steps: seq<Step>, n: nat, target: string)
    requires IsRun(g, states, steps) && n < |states| && AllSelect(g, states[n].sh, target)
    requires ContextInRange(states[n].sh)
    requires AllEnded(states[n].sh, SourcesOf(g, target))
    ensures Known(states[n].sh, target) || SomeWatched(g, states[n].sh, target)
  {
    SomeSourceStarted(g, states[n].sh, target);
    var m, i := LastEnd(g, states, steps, n, SourcesOf(g, target));
    RunKeeps(g, states, steps, m + 1, n);
    EndedSourcesSettle(g, states[m + 1].sh, states[n].sh, target);
    var e := SelectedBy(g, states[n].sh, target, i);
    SettledSourcesServe(g, states, steps, m, n, i, e);
    ServedIsWatched(g, states[n], steps[m].t, i, e, |states[m].sh.insts|);
  }

  lemma {:induction false} StartIsKnown(g: Graph, states: seq<State>, steps: seq<Step>, n: nat)
    requires IsRun(g, states, steps) && n < |states|
    ensures Known(states[n].sh, g.start)
  {
    if n == 0 {
      assert Request(g.start, []) in Requests(states[0].sh.tasks[0]);
    } else {
      StartIsKnown(g, states, steps, n - 1);
      KnownOn(g, states, steps, n - 1, g.start, 0);
    }
  }

  lemma KnownOn(g: Graph, states: seq<State>, steps: seq<Step>, n: nat, node: string, k: nat)
    requires IsRun(g, states, steps) && n < |steps| && KnownSince(states[n].sh, node, k) && k <= |states[n].sh.insts|
    ensures KnownSince(states[n + 1].sh, node, k)
  {
    TypedRun(g, states, steps, n);
    JoinsSeenRun(g, states, steps, n);
    KnownSurvives(g, states[n], steps[n], states[n + 1], node, k);
  }

  lemma WakeInvRun(g: Graph, states: seq<State>, steps: seq<Step>, n: nat)
    requires IsRun(g, states, steps) && n < |states|
    ensures WakeInv(g, states[n])
  {
    JoinsSeenRun(g, states, steps, n);
    StartIsKnown(g, states, steps, n);
    forall e ensures OrServed(g, states[n].sh, e) { OrServedRun(g, states, steps, n, e); }
    forall target ensures AndServed(g, states[n].sh, target) { AndServedRun(g, states, steps, n, target); }
  }
}
