/** What the invariants give over whole runs. */
module EngineResults {
  import opened Workflow
  import opened Engine
  import opened EngineTyping
  import opened EngineSchedule
  import opened EngineLineage
  import opened EngineWakeups
  import opened EngineOrder
  import opened EngineConverse

  // ---------- Which nodes a run executes ----------

  /** At every moment of every run, only startable nodes have been executed. */
  lemma ExecutedIsStartable(g: Graph, o: Oracle, states: seq<State>, steps: seq<Step>, n: nat)
    requires IsRun(g, states, steps) && n < |states| && Obeys(o, states[n].sh)
    ensures Executed(states[n]) <= Startable(g, o)
  {
    StartableIsLeastClosed(g, o);
    WithinRun(g, o, states, steps, n, Startable(g, o));
  }

  lemma StartedIsExecuted(s: State, node: string)
    ensures Started(s.sh, node) <==> node in Executed(s)
  {
  }

  /** On an acyclic workflow whose joins are ordered, every schedule executes every startable node. */
  lemma OrderedJoinsExecuteAll(g: Graph, o: Oracle, rank: string -> nat, states: seq<State>, steps: seq<Step>)
    requires Ranks(g, rank) && OrderedJoins(g, o) && FinishedRun(g, o, states, steps)
    ensures Executed(states[|steps|]) == Startable(g, o)
  {
    ExecutedIsStartable(g, o, states, steps, |steps|);
    NothingFrozen(g, o);
    forall y | y in Startable(g, o)
      ensures y in Executed(states[|steps|])
    {
      EveryStartableRuns(g, o, rank, states, steps, |steps|, {}, y);
      StartedIsExecuted(states[|steps|], y);
    }
  }

  ghost predicate EveryScheduleExecutesAll(g: Graph, o: Oracle) {
    forall states, steps :: FinishedRun(g, o, states, steps) ==> Executed(states[|steps|]) == Startable(g, o)
  }

  /** On an acyclic workflow every schedule executes exactly the least fixed point of the firing rule
      if and only if its joins are ordered. */
  lemma EveryScheduleExecutesAllIff(g: Graph, o: Oracle, rank: string -> nat)
    requires Ranks(g, rank)
    ensures EveryScheduleExecutesAll(g, o) <==> OrderedJoins(g, o)
  {
    if OrderedJoins(g, o) {
      forall states, steps | FinishedRun(g, o, states, steps)
        ensures Executed(states[|steps|]) == Startable(g, o)
      {
        OrderedJoinsExecuteAll(g, o, rank, states, steps);
      }
    } else {
      var id, e :| StartableJoin(g, o, id) && e in EdgesInto(g.edges, id) && !OrderedSource(g, o, id, e);
      var states, steps := UnorderedJoinCanBeMissed(g, o, rank, id, e);
      assert Executed(states[|steps|]) != Startable(g, o);
    }
  }

  /** With uniform joins every finished run executes the least fixed point, on cyclic workflows too. */
  lemma UniformJoinsExecuteAll(g: Graph, o: Oracle, states: seq<State>, steps: seq<Step>)
    requires UniformJoins(g, o) && FinishedRun(g, o, states, steps)
    ensures Executed(states[|steps|]) == Startable(g, o)
  {
    var s := states[|steps|];
    ExecutedIsStartable(g, o, states, steps, |steps|);
    StartIsKnown(g, states, steps, |steps|);
    StalledKnownIsStarted(s, {}, g.start, 0);
    StartedIsExecuted(s, g.start);
    forall e | MayStart(g, o, Executed(s), e)
      ensures e.target in Executed(s)
    {
      MayStartGrows(g, o, Executed(s), Startable(g, o), e);
      if IsOr(g, e.target) {
        OrFollows(g, o, states, steps, |steps|, {}, e);
        FollowedByStarts(g, states, steps, |steps|, {}, e.source, e.target);
      } else {
        assert e in EdgesInto(g.edges, e.target);
        assert StartableJoin(g, o, e.target) && e.source in Starters(g, o, e.target);
        JoinFollows(g, o, states, steps, |steps|, {}, e.target);
      }
      StartedIsExecuted(s, e.target);
    }
    StartableIsLeastClosed(g, o);
  }

  // ---------- Schedule independence ----------

  /** Two schedules of an acyclic workflow with ordered joins execute the same nodes. */
  lemma ScheduleIndependence(g: Graph, o: Oracle, rank: string -> nat,
                             states: seq<State>, steps: seq<Step>, states': seq<State>, steps': seq<Step>)
    requires Ranks(g, rank) && OrderedJoins(g, o)
    requires FinishedRun(g, o, states, steps) && FinishedRun(g, o, states', steps')
    ensures Executed(states[|steps|]) == Executed(states'[|steps'|])
  {
    OrderedJoinsExecuteAll(g, o, rank, states, steps);
    OrderedJoinsExecuteAll(g, o, rank, states', steps');
  }

  /** Without failures and interrupts, and with plain anchors on nodes without branches, all schedules agree,
      cycles or not. */
  lemma PlainWorkflowsAreIndependent(g: Graph, o: Oracle,
                                     states: seq<State>, steps: seq<Step>, states': seq<State>, steps': seq<Step>)
    requires PlainWorkflow(g, o) && FinishedRun(g, o, states, steps) && FinishedRun(g, o, states', steps')
    ensures Executed(states[|steps|]) == Executed(states'[|steps'|])
  {
    PlainWorkflowsAreUniform(g, o);
    UniformJoinsExecuteAll(g, o, states, steps);
    UniformJoinsExecuteAll(g, o, states', steps');
  }

  ghost predicate SchedulesAgree(g: Graph, o: Oracle) {
    forall states, steps, states', steps' :: FinishedRun(g, o, states, steps) && FinishedRun(g, o, states', steps')
      ==> Executed(states[|steps|]) == Executed(states'[|steps'|])
  }

  ghost predicate Unordered(g: Graph, o: Oracle, id: string) {
    StartableJoin(g, o, id) && !OrderedJoin(g, o, id)
  }

  lemma HigherUnordered(g: Graph, o: Oracle, rank: string -> nat, r: nat) returns (id: string)
    requires Ranks(g, rank) && !OrderedFrom(g, o, rank, {}, r)
    ensures Unordered(g, o, id) && r <= rank(id) <= rank(g.start)
  {
    id :| StartableJoin(g, o, id) && rank(id) >= r && !OrderedJoin(g, o, id);
    var e := JoinIsStartable(g, o, id);
    StartableRanks(g, o, rank, id);
  }

  /** An unordered join with only ordered ones above it. */
  lemma {:induction false} TopUnordered(g: Graph, o: Oracle, rank: string -> nat, id: string) returns (top: string)
    requires Ranks(g, rank) && Unordered(g, o, id)
    ensures Unordered(g, o, top) && OrderedFrom(g, o, rank, {}, rank(top) + 1)
    decreases rank(g.start) - rank(id)
  {
    if OrderedFrom(g, o, rank, {}, rank(id) + 1) {
      top := id;
    } else {
      var higher := HigherUnordered(g, o, rank, rank(id) + 1);
      top := TopUnordered(g, o, rank, higher);
    }
  }

  /** If every unordered join has a starter that precedes none of its other sources, schedules agree
      if and only if no join is unordered. */
  lemma SchedulesAgreeIff(g: Graph, o: Oracle, rank: string -> nat)
    requires Ranks(g, rank)
    requires forall id :: Unordered(g, o, id) ==> exists a :: FreeStarter(g, o, id, a)
    ensures SchedulesAgree(g, o) <==> OrderedJoins(g, o)
  {
    if OrderedJoins(g, o) {
      forall states, steps, states', steps' | FinishedRun(g, o, states, steps) && FinishedRun(g, o, states', steps')
        ensures Executed(states[|steps|]) == Executed(states'[|steps'|])
      {
        ScheduleIndependence(g, o, rank, states, steps, states', steps');
      }
    } else {
      var id :| StartableJoin(g, o, id) && !OrderedJoin(g, o, id);
      assert Unordered(g, o, id);
      var top := TopUnordered(g, o, rank, id);
      var a :| FreeStarter(g, o, top, a);
      ScheduleMatters(g, o, rank, top, a);
    }
  }

  // ---------- Acyclic workflows ----------

  /** No ancestor list is as long as the workflow has nodes. */
  lemma AncestryIsBounded(g: Graph, rank: string -> nat, states: seq<State>, steps: seq<Step>, n: nat, i: nat)
    requires WellFormed(g) && Ranks(g, rank)
    requires IsRun(g, states, steps) && n < |states| && i < |states[n].sh.insts|
    ensures |states[n].sh.insts[i].up| < |g.nodes|
  {
    AncestorsArePath(g, states, steps, n);
    assert Descends(g, states[n].sh, states[n].sh.insts[i].up, states[n].sh.insts[i].node);
    WalkIsBounded(g, rank, states[n].sh.insts[i].up + [states[n].sh.insts[i].node]);
  }

  /** No thread's recursion is deeper than the workflow has nodes, joins, failures and races included. */
  lemma RecursionIsBounded(g: Graph, rank: string -> nat, states: seq<State>, steps: seq<Step>, t: nat, n: nat)
    requires WellFormed(g) && Ranks(g, rank) && IsRun(g, states, steps) && n <= |steps|
    ensures IsWalk(g, Trail(states, steps, t, n))
    ensures |Trail(states, steps, t, n)| <= |g.nodes|
  {
    TrailFitsRun(g, states, steps, t, n);
    WalkIsBounded(g, rank, Trail(states, steps, t, n));
  }

  // ---------- Joins and context ----------

  /** Whichever parents fire an AND join with several sources, and whenever, its instances share one runtime id. */
  lemma JoinIdentityIsConfluent(g: Graph, states: seq<State>, steps: seq<Step>, n: nat, i: nat, i': nat)
    requires IsRun(g, states, steps) && n < |states|
    requires i < |states[n].sh.insts| && i' < |states[n].sh.insts|
    requires states[n].sh.insts[i].node == states[n].sh.insts[i'].node
    requires IsJoin(g, states[n].sh.insts[i].node) && states[n].sh.insts[i].node != g.start
    ensures InstanceId(states[n].sh, i) == InstanceId(states[n].sh, i')
  {
    var sh := states[n].sh;
    JoinsNamedRun(g, states, steps, n);
    assert JoinNamed(g, sh, sh.insts[i].up, sh.insts[i].node);
    assert JoinNamed(g, sh, sh.insts[i'].up, sh.insts[i'].node);
  }

  /** Taken as one access, `append_node` is never stale. */
  lemma AtomicAppendsKeepContextUnique(g: Graph, states: seq<State>, steps: seq<Step>, n: nat)
    requires IsRun(g, states, steps) && n < |states|
    requires forall m :: 0 <= m < n && steps[m].Put? ==> m > 0 && steps[m - 1] == Locate(steps[m].t)
    ensures UniqueContext(states[n].sh)
  {
    forall m | 0 <= m < n
      ensures !StalePut(states[m], steps[m])
    {
      if steps[m].Put? {
        TypedRun(g, states, steps, m - 1);
        assert Next(g, states[m - 1], steps[m - 1], states[m]);
        var before, after := states[m - 1].sh, states[m].sh;
        assert after.insts == before.insts && after.context == before.context;
      }
    }
    ContextUniqueIff(g, states, steps, n);
  }
}
