/**
 The shape every reachable state has: what each program counter may assume about the
 instance it holds, and who owns the instances that have not ended. The other invariants rest on it.
 */
module EngineTyping {
  import opened Workflow
  import opened Engine

  ghost predicate InContext(sh: Shared, node: string)
    requires ContextInRange(sh)
  {
    exists j :: 0 <= j < |sh.context| && sh.insts[sh.context[j]].node == node
  }

  /** The thread holds instance `i`, whose chunk it has not ended. */
  predicate Holds(pc: Pc, i: nat) {
    (pc.Registered? || pc.Located? || pc.Running?) && pc.i == i
  }

  ghost predicate PcTyped(g: Graph, sh: Shared, pc: Pc)
    requires ContextInRange(sh)
  {
    match pc
    case Queued(_) => true
    case Registered(i) => i < |sh.insts| && sh.insts[i].outcome.None?
    case Located(i, slot) =>
      && i < |sh.insts| && sh.insts[i].outcome.None?
      && (slot.Some? ==> slot.value < |sh.context| && InstanceId(sh, sh.context[slot.value]) == InstanceId(sh, i))
    case Running(i) => i < |sh.insts| && sh.insts[i].outcome.None? && InContext(sh, sh.insts[i].node)
    case Ended(i) => HasEnded(sh, i)
    case Scanning(i, edges, _) =>
      && HasEnded(sh, i)
      && forall e :: e in edges ==> e in g.edges && e.source == sh.insts[i].node
    case Joining(i, edges, _, k, j, _, _) =>
      && HasEnded(sh, i)
      && (forall e :: e in edges ==> e in g.edges && e.source == sh.insts[i].node)
      && edges != [] && k <= |EdgesInto(g.edges, edges[0].target)| && j <= |sh.context|
      && Fires(edges[0], sh.insts[i].outcome.value) && !IsOr(g, edges[0].target)
    case Submitting(_, _) => true
    case Appending(_) => true
    case Finished => true
  }

  ghost predicate AllPcsTyped(g: Graph, sh: Shared)
    requires ContextInRange(sh)
  {
    forall t :: 0 <= t < |sh.tasks| ==> PcTyped(g, sh, sh.tasks[t])
  }

  ghost predicate SoleHolders(sh: Shared) {
    forall t, t', i :: 0 <= t < |sh.tasks| && 0 <= t' < |sh.tasks| && Holds(sh.tasks[t], i) && Holds(sh.tasks[t'], i)
                       ==> t == t'
  }

  /** The instance has ended and left an entry of its node in the context, or a thread holds it. */
  ghost predicate OwnedAt(sh: Shared, i: nat)
    requires ContextInRange(sh) && i < |sh.insts|
  {
    if sh.insts[i].outcome.Some? then InContext(sh, sh.insts[i].node)
    else exists t :: 0 <= t < |sh.tasks| && Holds(sh.tasks[t], i)
  }

  ghost predicate Owned(sh: Shared)
    requires ContextInRange(sh)
  {
    forall i {:trigger sh.insts[i]} :: 0 <= i < |sh.insts| ==> OwnedAt(sh, i)
  }

  ghost predicate Typed(g: Graph, s: State) {
    && ContextInRange(s.sh)
    && ReaderInRange(s)
    && AllPcsTyped(g, s.sh)
    && SoleHolders(s.sh)
    && Owned(s.sh)
  }

  /** `sh'` has the instances of `sh`, perhaps more, which differ at most by their chunks and their end. */
  ghost predicate InstancesKept(sh: Shared, sh': Shared) {
    && |sh.insts| <= |sh'.insts|
    && forall i :: 0 <= i < |sh.insts| ==>
         && sh'.insts[i].node == sh.insts[i].node
         && sh'.insts[i].up == sh.insts[i].up
         && (sh.insts[i].outcome.Some? ==> sh'.insts[i].outcome == sh.insts[i].outcome)
  }

  /** The slots of `node_context` are only ever refilled with an instance of the same runtime id. */
  ghost predicate ContextKept(sh: Shared, sh': Shared) {
    && ContextInRange(sh) && ContextInRange(sh')
    && |sh.context| <= |sh'.context|
    && forall j :: 0 <= j < |sh.context| ==> InstanceId(sh', sh'.context[j]) == InstanceId(sh, sh.context[j])
  }

  lemma InstancesAfterKeeps(g: Graph, sh: Shared, t: nat, step: Step)
    requires TaskEnabled(g, sh, t, step) && PcTyped(g, sh, sh.tasks[t])
    ensures var insts := InstancesAfter(g, sh, t, step);
            && |sh.insts| <= |insts|
            && forall i :: 0 <= i < |sh.insts| ==>
                 && insts[i].node == sh.insts[i].node && insts[i].up == sh.insts[i].up
                 && (sh.insts[i].outcome.Some? ==> insts[i].outcome == sh.insts[i].outcome)
  {
  }

  lemma TaskStepKeeps(g: Graph, s: State, step: Step)
    requires Typed(g, s) && !IsMainStep(step) && Enabled(g, s, step)
    ensures var sh' := TaskStep(g, s.sh, step.t, step);
            InstancesKept(s.sh, sh') && ContextKept(s.sh, sh')
  {
    assert PcTyped(g, s.sh, s.sh.tasks[step.t]);
    InstancesAfterKeeps(g, s.sh, step.t, step);
  }

  lemma MainStepKeeps(g: Graph, s: State, step: Step)
    requires Typed(g, s) && IsMainStep(step) && Enabled(g, s, step)
    ensures var s' := MainStep(s, step);
            && InstancesKept(s.sh, s'.sh) && ContextKept(s.sh, s'.sh)
            && s'.sh.tasks == s.sh.tasks && s'.sh.context == s.sh.context && |s'.sh.insts| == |s.sh.insts|
            && forall i :: 0 <= i < |s.sh.insts| ==>
                 (s'.sh.insts[i].outcome == s.sh.insts[i].outcome && Emitted(s'.sh.insts[i]) == Emitted(s.sh.insts[i]))
  {
  }

  lemma StepKeeps(g: Graph, s: State, step: Step, s': State)
    requires Typed(g, s) && Next(g, s, step, s')
    ensures InstancesKept(s.sh, s'.sh) && ContextKept(s.sh, s'.sh)
  {
    if IsMainStep(step) { MainStepKeeps(g, s, step); } else { TaskStepKeeps(g, s, step); }
  }

  lemma InContextKept(sh: Shared, sh': Shared, node: string)
    requires ContextInRange(sh) && InContext(sh, node) && ContextKept(sh, sh')
    ensures InContext(sh', node)
  {
    var j :| 0 <= j < |sh.context| && sh.insts[sh.context[j]].node == node;
    assert InstanceId(sh', sh'.context[j]) == InstanceId(sh, sh.context[j]);
  }

  lemma ScannedPcTyped(g: Graph, sh: Shared, pc: Pc)
    requires ContextInRange(sh) && PcTyped(g, sh, pc)
    requires pc.Scanning? && pc.edges != []
    ensures PcTyped(g, sh, ScanPc(g, sh, pc))
  {
    assert pc.edges[0] in pc.edges;
    assert forall e :: e in pc.edges[1..] ==> e in pc.edges;
  }

  lemma JoinedPcTyped(g: Graph, sh: Shared, pc: Pc)
    requires ContextInRange(sh) && PcTyped(g, sh, pc)
    requires pc.Joining?
    ensures PcTyped(g, sh, FinishJoinPc(g, sh, pc))
  {
    assert forall e :: e in pc.edges[1..] ==> e in pc.edges;
  }

  lemma PutPcTyped(g: Graph, sh: Shared, pc: Pc, sh': Shared)
    requires ContextInRange(sh) && PcTyped(g, sh, pc) && pc.Located?
    requires sh'.insts == sh.insts && ContextInRange(sh')
    requires sh'.context == if pc.slot.Some? then sh.context[pc.slot.value := pc.i] else sh.context + [pc.i]
    ensures PcTyped(g, sh', Running(pc.i))
  {
    var j := if pc.slot.Some? then pc.slot.value else |sh.context|;
    assert sh'.context[j] == pc.i;
  }

  /** Up to its verdict, a thread that moved is typed in the new state. */
  lemma MovedHeadTyped(g: Graph, s: State, step: Step)
    requires Typed(g, s) && !IsMainStep(step) && Enabled(g, s, step)
    requires var pc := s.sh.tasks[step.t]; pc.Queued? || pc.Registered? || pc.Located? || pc.Running? || pc.Ended?
    ensures var sh' := TaskStep(g, s.sh, step.t, step);
            ContextInRange(sh') && PcTyped(g, sh', sh'.tasks[step.t])
  {
    var sh, t := s.sh, step.t;
    var sh' := TaskStep(g, sh, t, step);
    TaskStepKeeps(g, s, step);
    var pc, pc' := sh.tasks[t], sh'.tasks[t];
    assert PcTyped(g, sh, pc);
    match pc {
      case Queued(_) => assert pc' == Registered(|sh.insts|);
      case Registered(_) => assert pc' == Located(pc.i, FindSlot(sh, InstanceId(sh, pc.i), 0));
      case Located(_, _) => PutPcTyped(g, sh, pc, sh');
      case Running(_) => InContextKept(sh, sh', sh.insts[pc.i].node);
      case Ended(_) => assert pc' == Finished || pc' == Scanning(pc.i, EdgesFrom(g.edges, sh.insts[pc.i].node), []);
      case _ =>
    }
  }

  /** After its verdict a thread only reads instances. */
  lemma MovedTailTyped(g: Graph, sh: Shared, t: nat, step: Step)
    requires TaskEnabled(g, sh, t, step) && PcTyped(g, sh, sh.tasks[t])
    requires var pc := sh.tasks[t]; pc.Scanning? || pc.Joining? || pc.Submitting? || pc.Appending?
    ensures PcTyped(g, sh, MovedPc(g, sh, t, step))
    ensures InstancesAfter(g, sh, t, step) == sh.insts && ContextAfter(g, sh, t, step) == sh.context
  {
    var pc := sh.tasks[t];
    if step.ScanEdge? {
      ScannedPcTyped(g, sh, pc);
    } else if step.FinishJoin? {
      JoinedPcTyped(g, sh, pc);
    }
  }

  /** The thread that moved is typed in the new state. */
  lemma MovedPcTyped(g: Graph, s: State, step: Step)
    requires Typed(g, s) && !IsMainStep(step) && Enabled(g, s, step)
    ensures var sh' := TaskStep(g, s.sh, step.t, step);
            ContextInRange(sh') && PcTyped(g, sh', sh'.tasks[step.t])
  {
    var pc := s.sh.tasks[step.t];
    assert PcTyped(g, s.sh, pc);
    if pc.Queued? || pc.Registered? || pc.Located? || pc.Running? || pc.Ended? {
      MovedHeadTyped(g, s, step);
    } else {
      MovedTailTyped(g, s.sh, step.t, step);
      assert TaskStep(g, s.sh, step.t, step).tasks[step.t] == MovedPc(g, s.sh, step.t, step);
    }
  }

  /** A thread that did not move is still typed. */
  lemma OtherPcTyped(g: Graph, s: State, step: Step, t: nat)
    requires Typed(g, s) && !IsMainStep(step) && Enabled(g, s, step)
    requires t < |s.sh.tasks| && t != step.t
    ensures var sh' := TaskStep(g, s.sh, step.t, step);
            ContextInRange(sh') && PcTyped(g, sh', s.sh.tasks[t]) && sh'.tasks[t] == s.sh.tasks[t]
  {
    var sh := s.sh;
    var sh' := TaskStep(g, sh, step.t, step);
    TaskStepKeeps(g, s, step);
    var pc := sh.tasks[t];
    assert PcTyped(g, sh, pc);
    if step.End? && (pc.Registered? || pc.Located? || pc.Running?) {
      assert Holds(sh.tasks[step.t], sh.tasks[step.t].i);
      assert Holds(pc, pc.i);
      assert pc.i != sh.tasks[step.t].i;
    }
    if pc.Running? {
      InContextKept(sh, sh', sh.insts[pc.i].node);
    }
  }

  /** A thread lets go of its instance only by ending it. */
  lemma MoverHolds(g: Graph, sh: Shared, t: nat, step: Step, i: nat)
    requires TaskEnabled(g, sh, t, step) && Holds(sh.tasks[t], i) && i < |sh.insts|
    ensures Holds(MovedPc(g, sh, t, step), i) || (step.End? && InstancesAfter(g, sh, t, step)[i].outcome.Some?)
  {
  }

  lemma MoverIsInContext(g: Graph, s: State, step: Step)
    requires Typed(g, s) && step.End? && Enabled(g, s, step)
    ensures InContext(s.sh, s.sh.insts[s.sh.tasks[step.t].i].node)
  {
    assert PcTyped(g, s.sh, s.sh.tasks[step.t]);
  }

  lemma OwnedStep(g: Graph, s: State, step: Step, i: nat)
    requires Typed(g, s) && !IsMainStep(step) && Enabled(g, s, step)
    ensures var sh' := TaskStep(g, s.sh, step.t, step);
            ContextInRange(sh') && (i < |sh'.insts| ==> OwnedAt(sh', i))
  {
    var sh := s.sh;
    var sh' := TaskStep(g, sh, step.t, step);
    TaskStepKeeps(g, s, step);
    if i == |sh.insts| {
      assert i < |sh'.insts| ==> Holds(sh'.tasks[step.t], i);
    } else if i < |sh.insts| {
      assert OwnedAt(sh, i);
      if sh.insts[i].outcome.Some? {
        InContextKept(sh, sh', sh.insts[i].node);
      } else {
        var t :| 0 <= t < |sh.tasks| && Holds(sh.tasks[t], i);
        if t == step.t {
          MoverHolds(g, sh, t, step, i);
        }
        if step.End? && sh.tasks[step.t].i == i {
          MoverIsInContext(g, s, step);
          InContextKept(sh, sh', sh.insts[i].node);
        } else {
          assert Holds(sh'.tasks[t], i);
        }
      }
    }
  }

  lemma SoleHoldersStep(g: Graph, s: State, step: Step)
    requires Typed(g, s) && !IsMainStep(step) && Enabled(g, s, step)
    ensures SoleHolders(TaskStep(g, s.sh, step.t, step))
  {
    var sh := s.sh;
    var sh' := TaskStep(g, sh, step.t, step);
    assert PcTyped(g, sh, sh.tasks[step.t]);
    forall t, t', i | 0 <= t < |sh'.tasks| && 0 <= t' < |sh'.tasks| && Holds(sh'.tasks[t], i) && Holds(sh'.tasks[t'], i)
      ensures t == t'
    {
      HolderBefore(g, s, step, t, i);
      HolderBefore(g, s, step, t', i);
    }
  }

  lemma HolderBefore(g: Graph, s: State, step: Step, t: nat, i: nat)
    requires Typed(g, s) && !IsMainStep(step) && Enabled(g, s, step)
    requires var sh' := TaskStep(g, s.sh, step.t, step); t < |sh'.tasks| && Holds(sh'.tasks[t], i)
    ensures if i < |s.sh.insts| then t < |s.sh.tasks| && Holds(s.sh.tasks[t], i) else t == step.t
  {
    assert PcTyped(g, s.sh, s.sh.tasks[step.t]);
    if t < |s.sh.tasks| && t != step.t {
      assert PcTyped(g, s.sh, s.sh.tasks[t]);
    }
  }

  lemma TypedInit(g: Graph)
    ensures Typed(g, InitState(g))
  {
  }

  lemma TypedMainStep(g: Graph, s: State, step: Step)
    requires Typed(g, s) && IsMainStep(step) && Enabled(g, s, step)
    ensures Typed(g, MainStep(s, step))
  {
    var s' := MainStep(s, step);
    MainStepKeeps(g, s, step);
    forall t | 0 <= t < |s'.sh.tasks|
      ensures PcTyped(g, s'.sh, s'.sh.tasks[t])
    {
      assert PcTyped(g, s.sh, s.sh.tasks[t]);
      assert s'.sh.tasks[t].Running? ==> InContext(s.sh, s.sh.insts[s'.sh.tasks[t].i].node);
    }
    forall i | 0 <= i < |s'.sh.insts|
      ensures OwnedAt(s'.sh, i)
    {
      assert OwnedAt(s.sh, i);
      if s.sh.insts[i].outcome.Some? {
        InContextKept(s.sh, s'.sh, s.sh.insts[i].node);
      } else {
        var t :| 0 <= t < |s.sh.tasks| && Holds(s.sh.tasks[t], i);
        assert Holds(s'.sh.tasks[t], i);
      }
    }
  }

  lemma TypedTaskStep(g: Graph, s: State, step: Step)
    requires Typed(g, s) && !IsMainStep(step) && Enabled(g, s, step)
    ensures Typed(g, Apply(g, s, step))
  {
    var sh' := TaskStep(g, s.sh, step.t, step);
    TaskStepKeeps(g, s, step);
    forall t | 0 <= t < |sh'.tasks|
      ensures PcTyped(g, sh', sh'.tasks[t])
    {
      if t == step.t { MovedPcTyped(g, s, step); }
      else if t < |s.sh.tasks| { OtherPcTyped(g, s, step, t); }
    }
    forall i | 0 <= i < |sh'.insts|
      ensures OwnedAt(sh', i)
    {
      OwnedStep(g, s, step, i);
    }
    SoleHoldersStep(g, s, step);
  }

  lemma TypedNext(g: Graph, s: State, step: Step, s': State)
    requires Typed(g, s) && Next(g, s, step, s')
    ensures Typed(g, s')
  {
    if IsMainStep(step) {
      TypedMainStep(g, s, step);
    } else {
      TypedTaskStep(g, s, step);
    }
  }

  lemma {:induction false} TypedRun(g: Graph, states: seq<State>, steps: seq<Step>, n: nat)
    requires IsRun(g, states, steps) && n < |states|
    ensures Typed(g, states[n])
  {
    if n == 0 {
      TypedInit(g);
    } else {
      TypedRun(g, states, steps, n - 1);
      TypedNext(g, states[n - 1], steps[n - 1], states[n]);
    }
  }
}
