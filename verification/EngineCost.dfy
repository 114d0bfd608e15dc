/**
 How often nodes run. Joins may fire more than once and OR nodes once per incoming path,
 so the bound is the number of walks from the start node; on an acyclic workflow it is finite
 and no interleaving exceeds it.
 */
module EngineCost {
  import opened Workflow
  import opened Engine
  import opened EngineTyping
  import opened EngineSchedule

  /** The number of walks that begin at `node`. */
  ghost function Walks(g: Graph, rank: string -> nat, node: string): nat
    requires Ranks(g, rank)
    decreases rank(node), 1, 0
  {
    1 + EdgeWalks(g, rank, node, EdgesFrom(g.edges, node))
  }

  /** The walks that leave `node` by one of `edges`. */
  ghost function EdgeWalks(g: Graph, rank: string -> nat, node: string, edges: seq<Edge>): nat
    requires Ranks(g, rank)
    requires forall e :: e in edges ==> e in g.edges && e.source == node
    decreases rank(node), 0, |edges|
  {
    if edges == [] then 0
    else
      assert edges[0] in edges;
      Walks(g, rank, edges[0].target) + EdgeWalks(g, rank, node, edges[1..])
  }

  ghost function RequestWalks(g: Graph, rank: string -> nat, reqs: seq<Request>): nat
    requires Ranks(g, rank)
  {
    if reqs == [] then 0 else Walks(g, rank, reqs[0].node) + RequestWalks(g, rank, reqs[1..])
  }

  lemma {:induction false} RequestWalksConcat(g: Graph, rank: string -> nat, a: seq<Request>, b: seq<Request>)
    requires Ranks(g, rank)
    ensures RequestWalks(g, rank, a + b) == RequestWalks(g, rank, a) + RequestWalks(g, rank, b)
  {
    if a == [] {
      assert a + b == b;
    } else {
      RequestWalksConcat(g, rank, a[1..], b);
      assert (a + b)[1..] == a[1..] + b;
    }
  }

  function Drop<T>(s: seq<T>, k: nat): seq<T>
    requires k < |s|
  {
    s[..k] + s[k + 1..]
  }

  lemma DropCounts<T>(s: seq<T>, k: nat)
    requires k < |s|
    ensures multiset(Drop(s, k)) == multiset(s) - multiset{s[k]}
  {
    assert s == s[..k] + [s[k]] + s[k + 1..];
  }

  lemma DropWalks(g: Graph, rank: string -> nat, s: seq<Request>, k: nat)
    requires Ranks(g, rank) && k < |s|
    ensures RequestWalks(g, rank, s) == RequestWalks(g, rank, [s[k]]) + RequestWalks(g, rank, Drop(s, k))
  {
    assert s == s[..k] + ([s[k]] + s[k + 1..]);
    RequestWalksConcat(g, rank, s[..k], [s[k]] + s[k + 1..]);
    RequestWalksConcat(g, rank, [s[k]], s[k + 1..]);
    RequestWalksConcat(g, rank, s[..k], s[k + 1..]);
  }

  lemma {:induction false} RequestWalksReorder(g: Graph, rank: string -> nat, a: seq<Request>, b: seq<Request>)
    requires Ranks(g, rank) && multiset(a) == multiset(b)
    ensures RequestWalks(g, rank, a) == RequestWalks(g, rank, b)
  {
    if a == [] {
      assert |multiset(b)| == 0;
      assert b == [];
    } else {
      assert a[0] in multiset(b);
      var k :| 0 <= k < |b| && b[k] == a[0];
      DropCounts(a, 0);
      DropCounts(b, k);
      RequestWalksReorder(g, rank, Drop(a, 0), Drop(b, k));
      DropWalks(g, rank, a, 0);
      DropWalks(g, rank, b, k);
    }
  }

  /** The walks a thread may still start. */
  ghost function Budget(g: Graph, rank: string -> nat, sh: Shared, pc: Pc): nat
    requires Ranks(g, rank) && ContextInRange(sh) && PcTyped(g, sh, pc)
  {
    RequestWalks(g, rank, Requests(pc)) +
    match pc
    case Registered(i) => Walks(g, rank, sh.insts[i].node) - 1
    case Located(i, _) => Walks(g, rank, sh.insts[i].node) - 1
    case Running(i) => Walks(g, rank, sh.insts[i].node) - 1
    case Ended(i) => Walks(g, rank, sh.insts[i].node) - 1
    case Scanning(i, edges, _) => EdgeWalks(g, rank, sh.insts[i].node, edges)
    case Joining(i, edges, _, _, _, _, _) => EdgeWalks(g, rank, sh.insts[i].node, edges)
    case _ => 0
  }

  ghost function TotalBudget(g: Graph, rank: string -> nat, sh: Shared, k: nat): nat
    requires Ranks(g, rank) && ContextInRange(sh) && AllPcsTyped(g, sh) && k <= |sh.tasks|
  {
    if k == 0 then 0 else TotalBudget(g, rank, sh, k - 1) + Budget(g, rank, sh, sh.tasks[k - 1])
  }

  /** What a step takes from a thread's budget: one execution, or the request of a spawned thread. */
  ghost function Spent(g: Graph, rank: string -> nat, pc: Pc, step: Step): nat
    requires Ranks(g, rank)
  {
    RequestWalks(g, rank, SpawnedRequests(pc, step)) + (if step.Register? then 1 else 0)
  }

  lemma RegisterBudget(g: Graph, rank: string -> nat, sh: Shared, sh': Shared, pc: Pc)
    requires Ranks(g, rank) && ContextInRange(sh) && ContextInRange(sh') && pc.Queued?
    requires |sh'.insts| == |sh.insts| + 1 && sh'.insts[|sh.insts|].node == pc.req.node
    requires PcTyped(g, sh', Registered(|sh.insts|))
    ensures Budget(g, rank, sh', Registered(|sh.insts|)) + 1 == Budget(g, rank, sh, pc)
  {
    assert RequestWalks(g, rank, [pc.req]) == Walks(g, rank, pc.req.node);
  }

  ghost predicate BudgetMoves(g: Graph, rank: string -> nat, s: State, step: Step, sh': Shared, t: nat)
    requires Ranks(g, rank) && Typed(g, s) && !IsMainStep(step) && Enabled(g, s, step) && t < |s.sh.tasks|
    requires ContextInRange(sh') && t < |sh'.tasks| && PcTyped(g, sh', sh'.tasks[t])
  {
    Budget(g, rank, sh', sh'.tasks[t]) + (if t == step.t then Spent(g, rank, s.sh.tasks[t], step) else 0)
    <= Budget(g, rank, s.sh, s.sh.tasks[t])
  }

  /** A step moves budget from a thread to itself, to a thread it spawns, or to one execution. */
  lemma MovedBudget(g: Graph, rank: string -> nat, s: State, step: Step, sh': Shared)
    requires Ranks(g, rank) && Typed(g, s) && !IsMainStep(step) && Enabled(g, s, step)
    requires sh' == TaskStep(g, s.sh, step.t, step)
    requires ContextInRange(sh') && PcTyped(g, sh', sh'.tasks[step.t])
    ensures BudgetMoves(g, rank, s, step, sh', step.t)
  {
    var sh, pc := s.sh, s.sh.tasks[step.t];
    assert PcTyped(g, sh, pc);
    if pc.Queued? {
      RegisterBudget(g, rank, sh, sh', pc);
    } else if pc.Registered? || pc.Located? || pc.Running? || pc.Ended? {
      TaskStepKeeps(g, s, step);
      HeadMoves(g, sh, step.t, step);
      HeadBudget(g, rank, sh, sh', pc, sh'.tasks[step.t]);
    } else {
      TailMoves(g, rank, s, step, sh');
    }
  }

  lemma HeadMoves(g: Graph, sh: Shared, t: nat, step: Step)
    requires TaskEnabled(g, sh, t, step) && PcTyped(g, sh, sh.tasks[t])
    requires var pc := sh.tasks[t]; pc.Registered? || pc.Located? || pc.Running? || pc.Ended?
    ensures var pc, pc' := sh.tasks[t], MovedPc(g, sh, t, step);
            || pc'.Finished?
            || ((pc'.Located? || pc'.Running? || pc'.Ended?) && pc'.i == pc.i)
            || pc' == Scanning(pc.i, EdgesFrom(g.edges, sh.insts[pc.i].node), [])
  {
  }

  lemma TailMoves(g: Graph, rank: string -> nat, s: State, step: Step, sh': Shared)
    requires Ranks(g, rank) && Typed(g, s) && !IsMainStep(step) && Enabled(g, s, step)
    requires sh' == TaskStep(g, s.sh, step.t, step)
    requires ContextInRange(sh') && PcTyped(g, sh', sh'.tasks[step.t])
    requires var pc := s.sh.tasks[step.t]; pc.Scanning? || pc.Joining? || pc.Submitting? || pc.Appending?
    ensures BudgetMoves(g, rank, s, step, sh', step.t)
  {
    var sh, pc, pc' := s.sh, s.sh.tasks[step.t], MovedPc(g, s.sh, step.t, step);
    assert PcTyped(g, sh, pc);
    MovedTailTyped(g, sh, step.t, step);
    TailMoveOf(g, sh, step.t, step);
    TailBudget(g, rank, sh, pc, pc', step);
    OtherBudget(g, rank, sh, sh', pc');
  }

  /** From registration to the verdict a thread keeps the walks that leave its node. */
  lemma HeadBudget(g: Graph, rank: string -> nat, sh: Shared, sh': Shared, pc: Pc, pc': Pc)
    requires Ranks(g, rank) && ContextInRange(sh) && ContextInRange(sh') && InstancesKept(sh, sh')
    requires PcTyped(g, sh, pc) && PcTyped(g, sh', pc')
    requires pc.Registered? || pc.Located? || pc.Running? || pc.Ended?
    requires || pc'.Finished?
             || ((pc'.Located? || pc'.Running? || pc'.Ended?) && pc'.i == pc.i)
             || pc' == Scanning(pc.i, EdgesFrom(g.edges, sh.insts[pc.i].node), [])
    ensures Budget(g, rank, sh', pc') <= Budget(g, rank, sh, pc)
  {
  }

  /** What a thread does after its node has run. */
  ghost predicate TailMove(g: Graph, sh: Shared, pc: Pc, pc': Pc, step: Step)
    requires ContextInRange(sh)
  {
    match step
    case ScanEdge(_) => pc.Scanning? && pc.edges != [] && HasEnded(sh, pc.i) && pc' == ScanPc(g, sh, pc)
    case ReadEntry(_) => pc.Joining? && pc'.Joining? && pc'.i == pc.i && pc'.edges == pc.edges && pc'.next == pc.next
    case FinishJoin(_) => pc.Joining? && pc.edges != [] && pc.i < |sh.insts| && pc' == FinishJoinPc(g, sh, pc)
    case FinishScan(_, order) => pc.Scanning? && multiset(order) == multiset(pc.next) && pc' == FinishScanPc(pc, order)
    case Submit(_) =>
      pc.Submitting? && if pc.todo == [] then pc'.Appending? else pc'.Submitting? && pc'.todo == pc.todo[1..]
    case AppendFuture(_) => pc.Appending? && (pc'.Finished? || pc'.Appending?)
    case _ => false
  }

  lemma TailMoveOf(g: Graph, sh: Shared, t: nat, step: Step)
    requires TaskEnabled(g, sh, t, step) && PcTyped(g, sh, sh.tasks[t])
    requires var pc := sh.tasks[t]; pc.Scanning? || pc.Joining? || pc.Submitting? || pc.Appending?
    ensures TailMove(g, sh, sh.tasks[t], MovedPc(g, sh, t, step), step)
  {
  }

  /** The part of a thread's life after its node has run. */
  lemma TailBudget(g: Graph, rank: string -> nat, sh: Shared, pc: Pc, pc': Pc, step: Step)
    requires Ranks(g, rank) && ContextInRange(sh) && PcTyped(g, sh, pc) && PcTyped(g, sh, pc')
    requires TailMove(g, sh, pc, pc', step)
    ensures Budget(g, rank, sh, pc') + Spent(g, rank, pc, step) <= Budget(g, rank, sh, pc)
  {
    match step {
      case ScanEdge(_) => ScanBudget(g, rank, sh, pc);
      case FinishJoin(_) => JoinBudget(g, rank, sh, pc);
      case FinishScan(_, order) =>
        RequestWalksReorder(g, rank, order, pc.next);
        assert |pc.next| == 1 ==> pc.next == [pc.next[0]];
      case Submit(_) =>
        assert pc.todo != [] ==> RequestWalks(g, rank, [pc.todo[0]]) == Walks(g, rank, pc.todo[0].node);
      case _ =>
    }
  }

  function SpawnedRequests(pc: Pc, step: Step): seq<Request> {
    if step.Submit? && pc.Submitting? && pc.todo != [] then [pc.todo[0]] else []
  }

  lemma ScanBudget(g: Graph, rank: string -> nat, sh: Shared, pc: Pc)
    requires Ranks(g, rank) && ContextInRange(sh) && PcTyped(g, sh, pc) && pc.Scanning? && pc.edges != []
    requires PcTyped(g, sh, ScanPc(g, sh, pc))
    ensures Budget(g, rank, sh, ScanPc(g, sh, pc)) <= Budget(g, rank, sh, pc)
  {
    var e, inst := pc.edges[0], sh.insts[pc.i];
    var r := Request(e.target, inst.up + [inst.node]);
    assert RequestWalks(g, rank, [r]) == Walks(g, rank, e.target);
    RequestWalksConcat(g, rank, pc.next, [r]);
  }

  lemma JoinBudget(g: Graph, rank: string -> nat, sh: Shared, pc: Pc)
    requires Ranks(g, rank) && ContextInRange(sh) && PcTyped(g, sh, pc) && pc.Joining?
    requires PcTyped(g, sh, FinishJoinPc(g, sh, pc))
    ensures Budget(g, rank, sh, FinishJoinPc(g, sh, pc)) <= Budget(g, rank, sh, pc)
  {
    var up := JoinAncestors(g, sh, pc.i, pc.edges[0].target);
    if pc.ok && up.Some? {
      var r := Request(pc.edges[0].target, up.value);
      assert RequestWalks(g, rank, [r]) == Walks(g, rank, pc.edges[0].target);
      RequestWalksConcat(g, rank, pc.next, [r]);
    }
  }

  lemma OtherBudget(g: Graph, rank: string -> nat, sh: Shared, sh': Shared, pc: Pc)
    requires Ranks(g, rank) && ContextInRange(sh) && ContextInRange(sh') && InstancesKept(sh, sh')
    requires PcTyped(g, sh, pc) && PcTyped(g, sh', pc)
    ensures Budget(g, rank, sh', pc) == Budget(g, rank, sh, pc)
  {
  }

  lemma ThreadBudgetMoves(g: Graph, rank: string -> nat, s: State, step: Step, t: nat)
    requires Ranks(g, rank) && Typed(g, s) && !IsMainStep(step) && Enabled(g, s, step) && t < |s.sh.tasks|
    requires Typed(g, Apply(g, s, step))
    ensures BudgetMoves(g, rank, s, step, Apply(g, s, step).sh, t)
  {
    var sh' := Apply(g, s, step).sh;
    if t == step.t {
      MovedBudget(g, rank, s, step, sh');
    } else {
      TaskStepKeeps(g, s, step);
      OtherPcTyped(g, s, step, t);
      OtherBudget(g, rank, s.sh, sh', s.sh.tasks[t]);
    }
  }

  /** If every thread's budget covers what it keeps and spends, so does the total. */
  lemma {:induction false} SumBudgets(g: Graph, rank: string -> nat, sh: Shared, sh': Shared, t: nat, spent: nat,
                                      k: nat)
    requires Ranks(g, rank) && ContextInRange(sh) && AllPcsTyped(g, sh) && ContextInRange(sh') && AllPcsTyped(g, sh')
    requires k <= |sh.tasks| && k <= |sh'.tasks|
    requires forall j :: 0 <= j < k ==> Budget(g, rank, sh', sh'.tasks[j]) + (if j == t then spent else 0)
                                        <= Budget(g, rank, sh, sh.tasks[j])
    ensures TotalBudget(g, rank, sh', k) + (if t < k then spent else 0) <= TotalBudget(g, rank, sh, k)
  {
    if k > 0 {
      SumBudgets(g, rank, sh, sh', t, spent, k - 1);
    }
  }

  lemma MainStepBudget(g: Graph, rank: string -> nat, s: State, step: Step)
    requires Ranks(g, rank) && Typed(g, s) && IsMainStep(step) && Enabled(g, s, step)
    requires Typed(g, Apply(g, s, step))
    ensures var sh', k := Apply(g, s, step).sh, |s.sh.tasks|;
            && sh'.tasks == s.sh.tasks && |sh'.insts| == |s.sh.insts|
            && TotalBudget(g, rank, sh', k) <= TotalBudget(g, rank, s.sh, k)
  {
    var sh' := Apply(g, s, step).sh;
    MainStepKeeps(g, s, step);
    forall j | 0 <= j < |s.sh.tasks|
      ensures Budget(g, rank, sh', sh'.tasks[j]) <= Budget(g, rank, s.sh, s.sh.tasks[j])
    {
      OtherBudget(g, rank, s.sh, sh', s.sh.tasks[j]);
    }
    SumBudgets(g, rank, s.sh, sh', 0, 0, |s.sh.tasks|);
  }

  lemma TaskStepBudget(g: Graph, rank: string -> nat, s: State, step: Step)
    requires Ranks(g, rank) && Typed(g, s) && !IsMainStep(step) && Enabled(g, s, step)
    requires Typed(g, Apply(g, s, step))
    ensures var sh', k := Apply(g, s, step).sh, |s.sh.tasks|;
            && k <= |sh'.tasks|
            && TotalBudget(g, rank, sh', k) + Spent(g, rank, s.sh.tasks[step.t], step) <= TotalBudget(g, rank, s.sh, k)
  {
    var sh', spent := Apply(g, s, step).sh, Spent(g, rank, s.sh.tasks[step.t], step);
    forall j | 0 <= j < |s.sh.tasks|
      ensures Budget(g, rank, sh', sh'.tasks[j]) + (if j == step.t then spent else 0)
              <= Budget(g, rank, s.sh, s.sh.tasks[j])
    {
      ThreadBudgetMoves(g, rank, s, step, j);
    }
    SumBudgets(g, rank, s.sh, sh', step.t, spent, |s.sh.tasks|);
  }

  ghost predicate WithinBudget(g: Graph, rank: string -> nat, s: State)
    requires Ranks(g, rank) && Typed(g, s)
  {
    |s.sh.insts| + TotalBudget(g, rank, s.sh, |s.sh.tasks|) <= Walks(g, rank, g.start)
  }

  lemma WithinBudgetNext(g: Graph, rank: string -> nat, s: State, step: Step, s': State)
    requires Ranks(g, rank) && Typed(g, s) && WithinBudget(g, rank, s) && Next(g, s, step, s')
    ensures Typed(g, s') && WithinBudget(g, rank, s')
  {
    TypedNext(g, s, step, s');
    if IsMainStep(step) {
      MainStepBudget(g, rank, s, step);
    } else {
      TaskStepBudget(g, rank, s, step);
      SpawnedBudget(g, rank, s, step);
    }
  }

  /** A spawned thread starts with the budget its parent spent on it. */
  lemma SpawnedBudget(g: Graph, rank: string -> nat, s: State, step: Step)
    requires Ranks(g, rank) && Typed(g, s) && !IsMainStep(step) && Enabled(g, s, step)
    requires Typed(g, Apply(g, s, step))
    ensures var sh', k := Apply(g, s, step).sh, |s.sh.tasks|;
            && k <= |sh'.tasks|
            && TotalBudget(g, rank, sh', |sh'.tasks|) + |sh'.insts|
               == TotalBudget(g, rank, sh', k) + |s.sh.insts| + Spent(g, rank, s.sh.tasks[step.t], step)
  {
    var sh', k := Apply(g, s, step).sh, |s.sh.tasks|;
    var spawned := SpawnedRequests(s.sh.tasks[step.t], step);
    if spawned != [] {
      assert sh'.tasks[k] == Queued(spawned[0]) && |sh'.tasks| == k + 1;
      assert Requests(sh'.tasks[k]) == spawned;
      assert Budget(g, rank, sh', sh'.tasks[k]) == RequestWalks(g, rank, spawned);
    } else {
      assert |sh'.tasks| == k;
    }
  }

  /** On an acyclic workflow every run makes at most as many node executions as there are
      walks from the start node, whatever fails, joins twice or interleaves. */
  lemma {:induction false} ExecutionsAreBounded(g: Graph, rank: string -> nat,
                                                states: seq<State>, steps: seq<Step>, n: nat)
    requires Ranks(g, rank) && IsRun(g, states, steps) && n < |states|
    ensures Typed(g, states[n]) && WithinBudget(g, rank, states[n])
    ensures |states[n].sh.insts| <= Walks(g, rank, g.start)
  {
    if n == 0 {
      TypedInit(g);
      var sh := states[0].sh;
      assert TotalBudget(g, rank, sh, 1) == TotalBudget(g, rank, sh, 0) + Budget(g, rank, sh, sh.tasks[0]);
      assert RequestWalks(g, rank, [Request(g.start, [])]) == Walks(g, rank, g.start);
    } else {
      ExecutionsAreBounded(g, rank, states, steps, n - 1);
      WithinBudgetNext(g, rank, states[n - 1], steps[n - 1], states[n]);
    }
  }
}
