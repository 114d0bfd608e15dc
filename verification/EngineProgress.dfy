/**
 No thread is ever stuck, and on an acyclic workflow threads cannot go on for ever: from any
 state, with any nodes held back, a run can be continued until no other thread has a step to take.
 */
module EngineProgress {
  import opened Workflow
  import opened Engine
  import opened EngineTyping
  import opened EngineSchedule
  import opened EngineCost
  import opened EngineOrder

  // ---------- Every unfinished thread can step ----------

  /** What the thread does next; a node ends as `o` says. */
  function NextStep(g: Graph, o: Oracle, sh: Shared, t: nat): Step
    requires t < |sh.tasks| && !sh.tasks[t].Finished?
  {
    match sh.tasks[t]
    case Queued(_) => Register(t)
    case Registered(_) => Locate(t)
    case Located(_, _) => Put(t)
    case Running(i) => End(t, if i < |sh.insts| then o(sh.insts[i].node) else Outcome(Stop, "", false))
    case Ended(_) => Decide(t)
    case Scanning(_, edges, next) => if edges == [] then FinishScan(t, next) else ScanEdge(t)
    case Joining(_, edges, _, k, _, _, _) =>
      if edges != [] && k < |EdgesInto(g.edges, edges[0].target)| then ReadEntry(t) else FinishJoin(t)
    case Submitting(_, _) => Submit(t)
    case Appending(_) => AppendFuture(t)
  }

  lemma UnfinishedCanStep(g: Graph, o: Oracle, s: State, t: nat)
    requires Typed(g, s) && t < |s.sh.tasks| && !s.sh.tasks[t].Finished?
    ensures var step := NextStep(g, o, s.sh, t);
            !IsMainStep(step) && step.t == t && Enabled(g, s, step) && !step.Emit? && !step.Answer?
  {
    assert PcTyped(g, s.sh, s.sh.tasks[t]);
  }

  // ---------- How many steps are left until the next node is registered ----------

  function Sum(f: Pc -> nat, tasks: seq<Pc>): nat {
    if tasks == [] then 0 else f(tasks[0]) + Sum(f, tasks[1..])
  }

  lemma {:induction false} SumConcat(f: Pc -> nat, a: seq<Pc>, b: seq<Pc>)
    ensures Sum(f, a + b) == Sum(f, a) + Sum(f, b)
  {
    if a == [] {
      assert a + b == b;
    } else {
      assert (a + b)[1..] == a[1..] + b;
      SumConcat(f, a[1..], b);
    }
  }

  lemma {:induction false} SumUpdate(f: Pc -> nat, tasks: seq<Pc>, t: nat, pc: Pc)
    requires t < |tasks|
    ensures Sum(f, tasks[t := pc]) + f(tasks[t]) == Sum(f, tasks) + f(pc)
  {
    if t == 0 {
      assert tasks[0 := pc][1..] == tasks[1..];
    } else {
      assert tasks[t := pc][1..] == tasks[1..][t - 1 := pc];
      SumUpdate(f, tasks[1..], t - 1, pc);
    }
  }

  lemma {:induction false} SumAgrees(f: Pc -> nat, f': Pc -> nat, tasks: seq<Pc>)
    requires forall pc :: pc in tasks ==> f(pc) == f'(pc)
    ensures Sum(f, tasks) == Sum(f', tasks)
  {
    if tasks != [] {
      SumAgrees(f, f', tasks[1..]);
    }
  }

  /** The accesses it takes to look for `n` sources in a context of `w` entries. */
  function WalkCost(n: nat, w: nat): nat {
    if n == 0 then 0 else w + 1 + WalkCost(n - 1, w)
  }

  function EdgeCost(g: Graph, w: nat, edges: seq<Edge>): nat {
    if edges == [] then 0
    else WalkCost(|EdgesInto(g.edges, edges[0].target)|, w) + 5 + EdgeCost(g, w, edges[1..])
  }

  /** The cost of the node's out-edges. */
  function OutCost(g: Graph, sh: Shared, i: nat, w: nat): nat {
    if i < |sh.insts| then EdgeCost(g, w, EdgesFrom(g.edges, sh.insts[i].node)) else 0
  }

  function CheckCost(n: nat, k: nat, j: nat, w: nat): nat {
    if k < n && j <= w then WalkCost(n - k, w) - j else 0
  }

  function StepsLeft(g: Graph, sh: Shared, w: nat, pc: Pc): nat {
    match pc
    case Queued(_) => 0
    case Registered(i) => OutCost(g, sh, i, w) + 7
    case Located(i, _) => OutCost(g, sh, i, w) + 6
    case Running(i) => OutCost(g, sh, i, w) + 5
    case Ended(i) => OutCost(g, sh, i, w) + 4
    case Scanning(_, edges, next) => EdgeCost(g, w, edges) + 3 * |next| + 3
    case Joining(_, edges, next, k, j, _, _) =>
      if edges == [] then 0
      else EdgeCost(g, w, edges[1..]) + CheckCost(|EdgesInto(g.edges, edges[0].target)|, k, j, w) + 4 + 3 * |next| + 3
    case Submitting(todo, futs) => 2 * |todo| + |futs| + 2
    case Appending(futs) => |futs| + 1
    case Finished => 0
  }

  /** The thread is still to enter its instance in the context. */
  function ToEnter(pc: Pc): nat {
    if pc.Registered? || pc.Located? then 1 else 0
  }

  function AllToEnter(sh: Shared): nat {
    Sum(ToEnter, sh.tasks)
  }

  function AllStepsLeft(g: Graph, sh: Shared): nat {
    Sum(pc => StepsLeft(g, sh, |sh.context|, pc), sh.tasks)
  }

  lemma ReadCost(n: nat, k: nat, j: nat, w: nat)
    requires k < n && j <= w
    ensures j < w ==> CheckCost(n, k, j + 1, w) < CheckCost(n, k, j, w)
    ensures CheckCost(n, k + 1, 0, w) < CheckCost(n, k, j, w)
  {
    assert WalkCost(n - k, w) == w + 1 + WalkCost(n - k - 1, w);
  }

  lemma HeadCost(g: Graph, sh: Shared, t: nat, step: Step)
    requires TaskEnabled(g, sh, t, step) && PcTyped(g, sh, sh.tasks[t])
    requires step.Locate? || step.End? || step.Decide?
    ensures StepsLeft(g, sh, |sh.context|, MovedPc(g, sh, t, step)) < StepsLeft(g, sh, |sh.context|, sh.tasks[t])
    ensures ToEnter(MovedPc(g, sh, t, step)) == ToEnter(sh.tasks[t])
  {
    var pc, pc' := sh.tasks[t], MovedPc(g, sh, t, step);
    if step.Locate? {
      assert pc'.Located? && pc'.i == pc.i;
    } else if step.End? {
      assert pc' == Ended(pc.i);
    } else {
      assert pc' == Finished || pc' == Scanning(pc.i, EdgesFrom(g.edges, sh.insts[pc.i].node), []);
    }
  }

  lemma ScanCost(g: Graph, sh: Shared, pc: Pc, w: nat)
    requires pc.Scanning? && pc.edges != [] && HasEnded(sh, pc.i)
    ensures StepsLeft(g, sh, w, ScanPc(g, sh, pc)) < StepsLeft(g, sh, w, pc)
  {
  }

  lemma JoinCost(g: Graph, sh: Shared, pc: Pc, w: nat)
    requires ContextInRange(sh) && pc.Joining? && pc.edges != [] && pc.i < |sh.insts|
    ensures StepsLeft(g, sh, w, FinishJoinPc(g, sh, pc)) < StepsLeft(g, sh, w, pc)
  {
  }

  lemma FinishScanCost(g: Graph, sh: Shared, pc: Pc, order: seq<Request>, w: nat)
    requires pc.Scanning? && multiset(order) == multiset(pc.next)
    ensures StepsLeft(g, sh, w, FinishScanPc(pc, order)) < StepsLeft(g, sh, w, pc)
  {
    assert |multiset(order)| == |multiset(pc.next)|;
  }

  lemma TailCost(g: Graph, sh: Shared, t: nat, step: Step)
    requires TaskEnabled(g, sh, t, step) && PcTyped(g, sh, sh.tasks[t])
    requires var pc := sh.tasks[t]; pc.Scanning? || pc.Joining? || pc.Submitting? || pc.Appending?
    ensures StepsLeft(g, sh, |sh.context|, MovedPc(g, sh, t, step)) < StepsLeft(g, sh, |sh.context|, sh.tasks[t])
    ensures ToEnter(MovedPc(g, sh, t, step)) == ToEnter(sh.tasks[t])
  {
    var pc := sh.tasks[t];
    match step {
      case ScanEdge(_) => ScanCost(g, sh, pc, |sh.context|);
      case ReadEntry(_) => ReadCost(|EdgesInto(g.edges, pc.edges[0].target)|, pc.k, pc.j, |sh.context|);
      case FinishJoin(_) => JoinCost(g, sh, pc, |sh.context|);
      case FinishScan(_, order) => FinishScanCost(g, sh, pc, order, |sh.context|);
      case _ =>
    }
  }

  lemma MovedCost(g: Graph, sh: Shared, t: nat, step: Step)
    requires TaskEnabled(g, sh, t, step) && PcTyped(g, sh, sh.tasks[t])
    requires !step.Register? && !step.Put? && !step.Emit? && !step.Answer?
    ensures StepsLeft(g, sh, |sh.context|, MovedPc(g, sh, t, step)) < StepsLeft(g, sh, |sh.context|, sh.tasks[t])
    ensures ToEnter(MovedPc(g, sh, t, step)) == ToEnter(sh.tasks[t])
  {
    var pc := sh.tasks[t];
    if pc.Scanning? || pc.Joining? || pc.Submitting? || pc.Appending? {
      TailCost(g, sh, t, step);
    } else {
      HeadCost(g, sh, t, step);
    }
  }

  lemma StepsLeftKept(g: Graph, sh: Shared, sh': Shared, w: nat, pc: Pc)
    requires InstancesKept(sh, sh') && |sh'.insts| == |sh.insts|
    ensures StepsLeft(g, sh', w, pc) == StepsLeft(g, sh, w, pc)
  {
  }

  ghost predicate CostsLess(g: Graph, sh: Shared, sh': Shared) {
    || |sh'.insts| > |sh.insts|
    || (|sh'.insts| == |sh.insts| && AllToEnter(sh') < AllToEnter(sh))
    || (|sh'.insts| == |sh.insts| && AllToEnter(sh') == AllToEnter(sh) && AllStepsLeft(g, sh') < AllStepsLeft(g, sh))
  }

  lemma PutCostsLess(g: Graph, s: State, step: Step)
    requires Typed(g, s) && step.Put? && Enabled(g, s, step)
    ensures CostsLess(g, s.sh, TaskStep(g, s.sh, step.t, step))
  {
    var pc' := MovedPc(g, s.sh, step.t, step);
    SumUpdate(ToEnter, s.sh.tasks, step.t, pc');
    assert s.sh.tasks[step.t := pc'] + [] == s.sh.tasks[step.t := pc'];
  }

  lemma SpawnedCostNothing(f: Pc -> nat, tasks: seq<Pc>, spawned: seq<Pc>)
    requires |spawned| <= 1 && forall pc :: pc in spawned ==> f(pc) == 0
    ensures Sum(f, tasks + spawned) == Sum(f, tasks)
  {
    SumConcat(f, tasks, spawned);
    if spawned != [] {
      assert spawned[0] in spawned && spawned[1..] == [];
    }
  }

  lemma MoveCostsLess(g: Graph, s: State, step: Step)
    requires Typed(g, s) && !IsMainStep(step) && Enabled(g, s, step)
    requires !step.Register? && !step.Put? && !step.Emit? && !step.Answer?
    ensures CostsLess(g, s.sh, TaskStep(g, s.sh, step.t, step))
  {
    var sh, t := s.sh, step.t;
    var sh', pc' := TaskStep(g, sh, t, step), MovedPc(g, sh, t, step);
    var f, f' := pc => StepsLeft(g, sh, |sh.context|, pc), pc => StepsLeft(g, sh', |sh'.context|, pc);
    assert PcTyped(g, sh, sh.tasks[t]);
    TaskStepKeeps(g, s, step);
    MovedCost(g, sh, t, step);
    SumUpdate(ToEnter, sh.tasks, t, pc');
    SpawnedCostNothing(ToEnter, sh.tasks[t := pc'], Spawned(sh.tasks[t], step));
    SumUpdate(f, sh.tasks, t, pc');
    SpawnedCostNothing(f, sh.tasks[t := pc'], Spawned(sh.tasks[t], step));
    forall pc
      ensures f'(pc) == f(pc)
    {
      StepsLeftKept(g, sh, sh', |sh.context|, pc);
    }
    SumAgrees(f', f, sh'.tasks);
  }

  // ---------- Running down ----------

  lemma Extend(g: Graph, states: seq<State>, steps: seq<Step>, step: Step)
    returns (states': seq<State>, steps': seq<Step>)
    requires IsRun(g, states, steps) && Enabled(g, states[|steps|], step)
    ensures IsRun(g, states', steps') && states <= states' && steps' == steps + [step]
    ensures states'[|steps'|] == Apply(g, states[|steps|], step)
  {
    states', steps' := states + [Apply(g, states[|steps|], step)], steps + [step];
    forall n | 0 <= n < |steps'|
      ensures Next(g, states'[n], steps'[n], states'[n + 1])
    {
      if n < |steps| {
        assert Next(g, states[n], steps[n], states[n + 1]);
      }
    }
  }

  /** The step does not run a frozen node. */
  predicate Spares(frozen: set<string>, s: State, step: Step) {
    step.Register? && step.t < |s.sh.tasks| && s.sh.tasks[step.t].Queued? ==> s.sh.tasks[step.t].req.node !in frozen
  }

  /** No frozen node is run from state `a` to state `b`. */
  ghost predicate SparesAll(frozen: set<string>, states: seq<State>, steps: seq<Step>, a: nat, b: nat)
    requires b <= |steps| <= |states|
  {
    forall m :: a <= m < b ==> Spares(frozen, states[m], steps[m])
  }

  lemma NextStepCostsLess(g: Graph, o: Oracle, s: State, t: nat)
    requires Typed(g, s) && t < |s.sh.tasks| && !s.sh.tasks[t].Finished? && Obeys(o, s.sh)
    requires Enabled(g, s, NextStep(g, o, s.sh, t))
    ensures var sh' := TaskStep(g, s.sh, t, NextStep(g, o, s.sh, t)); CostsLess(g, s.sh, sh') && Obeys(o, sh')
  {
    var step := NextStep(g, o, s.sh, t);
    UnfinishedCanStep(g, o, s, t);
    TaskStepKeeps(g, s, step);
    if step.Put? {
      PutCostsLess(g, s, step);
    } else if !step.Register? {
      MoveCostsLess(g, s, step);
    }
  }

  /** One more step of a thread that is not about to run a frozen node. */
  lemma OneMoreStep(g: Graph, o: Oracle, frozen: set<string>, states: seq<State>, steps: seq<Step>)
    returns (states': seq<State>, steps': seq<Step>)
    requires IsRun(g, states, steps) && Obeys(o, states[|steps|].sh) && !Stalled(states[|steps|], frozen)
    ensures IsRun(g, states', steps') && states <= states' && |steps'| == |steps| + 1 && steps <= steps'
    ensures Obeys(o, states'[|steps'|].sh) && Spares(frozen, states[|steps|], steps'[|steps|])
    ensures CostsLess(g, states[|steps|].sh, states'[|steps'|].sh)
  {
    var s := states[|steps|];
    TypedRun(g, states, steps, |steps|);
    var t :| 0 <= t < |s.sh.tasks| && !s.sh.tasks[t].Finished?
             && !(s.sh.tasks[t].Queued? && s.sh.tasks[t].req.node in frozen);
    UnfinishedCanStep(g, o, s, t);
    states', steps' := Extend(g, states, steps, NextStep(g, o, s.sh, t));
    NextStepCostsLess(g, o, s, t);
  }

  lemma SparesLonger(frozen: set<string>, states: seq<State>, steps: seq<Step>, states': seq<State>,
                     steps': seq<Step>, a: nat)
    requires a < |steps| < |states| && states <= states' && steps <= steps' && |steps'| <= |states'|
    requires Spares(frozen, states[a], steps[a]) && SparesAll(frozen, states', steps', a + 1, |steps'|)
    ensures SparesAll(frozen, states', steps', a, |steps'|)
  {
    assert states'[a] == states[a] && steps'[a] == steps[a];
  }

  lemma InstancesAreBounded(g: Graph, rank: string -> nat, states: seq<State>, steps: seq<Step>)
    requires Ranks(g, rank) && IsRun(g, states, steps)
    ensures |states[|steps|].sh.insts| <= Walks(g, rank, g.start)
  {
    ExecutionsAreBounded(g, rank, states, steps, |steps|);
  }

  /** A run of an acyclic workflow can be continued until every thread is done or about to run a frozen node. */
  lemma {:induction false} RunDown(g: Graph, o: Oracle, rank: string -> nat, frozen: set<string>, states: seq<State>,
                                   steps: seq<Step>)
    returns (states': seq<State>, steps': seq<Step>)
    requires Ranks(g, rank) && IsRun(g, states, steps) && Obeys(o, states[|steps|].sh)
    ensures IsRun(g, states', steps') && states <= states' && steps <= steps'
    ensures Obeys(o, states'[|steps'|].sh) && Stalled(states'[|steps'|], frozen)
    ensures SparesAll(frozen, states', steps', |steps|, |steps'|)
    decreases Walks(g, rank, g.start) - |states[|steps|].sh.insts|,
              AllToEnter(states[|steps|].sh), AllStepsLeft(g, states[|steps|].sh)
  {
    if Stalled(states[|steps|], frozen) {
      states', steps' := states, steps;
    } else {
      var states1, steps1 := OneMoreStep(g, o, frozen, states, steps);
      InstancesAreBounded(g, rank, states1, steps1);
      states', steps' := RunDown(g, o, rank, frozen, states1, steps1);
      SparesLonger(frozen, states1, steps1, states', steps', |steps|);
    }
  }
}
