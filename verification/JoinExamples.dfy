/**
 Two shapes of workflow with a join that one source starts and another only satisfies, for any node ids:
 where the sources run side by side the schedule decides, where one comes before the other it does not.
 */
module JoinExamples {
  import opened Workflow
  import opened Engine
  import opened EngineTyping
  import opened EngineWakeups
  import opened EngineFiring
  import opened EngineOrder
  import opened EngineConverse
  import opened EngineResults

  datatype Ids = Ids(s: string, a: string, b: string, j: string)

  predicate Distinct(n: Ids) {
    n.s != n.a && n.s != n.b && n.s != n.j && n.a != n.b && n.a != n.j && n.b != n.j
  }

  function AllAnd(n: Ids): map<string, Condition> {
    map[n.s := And, n.a := And, n.b := And, n.j := And]
  }

  function RankIn(n: Ids): string -> nat {
    id => if id == n.s then 3 else if id == n.b then 2 else if id == n.a then 1 else 0
  }

  function PlainEdge(source: string, target: string): Edge {
    Edge(source, target, source + "_right")
  }

  function Succeeds(): Outcome {
    Outcome(Plain, "", false)
  }

  // ---------- The sources run side by side ----------

  /** `a` and `b` follow the start node and lead to `j`. */
  function Fork(n: Ids): Graph {
    Graph(n.s, AllAnd(n), [PlainEdge(n.s, n.a), PlainEdge(n.s, n.b), PlainEdge(n.a, n.j), PlainEdge(n.b, n.j)])
  }

  function OneFails(b: string): Oracle {
    id => if id == b then Outcome(Stop, "", false) else Succeeds()
  }

  predicate IsForkEdge(n: Ids, e: Edge) {
    e == PlainEdge(n.s, n.a) || e == PlainEdge(n.s, n.b) || e == PlainEdge(n.a, n.j) || e == PlainEdge(n.b, n.j)
  }

  lemma ForkEdges(n: Ids)
    ensures forall e :: e in Fork(n).edges <==> IsForkEdge(n, e)
  {
  }

  lemma ForkIsRanked(n: Ids)
    requires Distinct(n)
    ensures Ranks(Fork(n), RankIn(n))
  {
    forall e | e in Fork(n).edges
      ensures RankIn(n)(e.target) < RankIn(n)(e.source)
    {
      ForkEdges(n);
    }
  }

  /** An AND node all of whose in-edges come from one successful source. */
  lemma FedByOne(g: Graph, o: Oracle, e: Edge)
    requires e in g.edges && e.source in Startable(g, o) && Fires(e, o(e.source)) && !IsOr(g, e.target)
    requires forall e' :: e' in g.edges && e'.target == e.target ==> e' == e && Ready(e, o(e.source))
    ensures e.target in Startable(g, o)
  {
    StartableIsLeastClosed(g, o);
    assert MayStart(g, o, Startable(g, o), e);
  }

  lemma ForkSourcesAreStartable(n: Ids)
    requires Distinct(n)
    ensures n.a in Startable(Fork(n), OneFails(n.b)) && n.b in Startable(Fork(n), OneFails(n.b))
  {
    StartableIsLeastClosed(Fork(n), OneFails(n.b));
    ForkEdges(n);
    FedByOne(Fork(n), OneFails(n.b), PlainEdge(n.s, n.a));
    FedByOne(Fork(n), OneFails(n.b), PlainEdge(n.s, n.b));
  }

  lemma ForkJoinIsStartable(n: Ids)
    requires Distinct(n)
    ensures StartableJoin(Fork(n), OneFails(n.b), n.j) && Starters(Fork(n), OneFails(n.b), n.j) == {n.a}
  {
    ForkSourcesAreStartable(n);
    ForkIntoJoin(n);
    TwoSources(Fork(n), OneFails(n.b), PlainEdge(n.a, n.j), PlainEdge(n.b, n.j));
  }

  /** An AND node with two startable sources, one of which starts it while the other only satisfies it. */
  lemma TwoSources(g: Graph, o: Oracle, e: Edge, e': Edge)
    requires !IsOr(g, e.target) && e.source in Startable(g, o) && e'.source in Startable(g, o)
    requires forall e'' :: e'' in EdgesInto(g.edges, e.target) <==> e'' == e || e'' == e'
    requires Fires(e, o(e.source)) && Ready(e, o(e.source)) && !Fires(e', o(e'.source)) && Ready(e', o(e'.source))
    ensures StartableJoin(g, o, e.target) && Starters(g, o, e.target) == {e.source}
  {
    assert e in EdgesInto(g.edges, e.target);
    assert e.source in Starters(g, o, e.target);
  }

  /** The in-edges of the join: one starts it, the other only satisfies it. */
  lemma ForkIntoJoin(n: Ids)
    requires Distinct(n)
    ensures forall e :: e in EdgesInto(Fork(n).edges, n.j) <==> e == PlainEdge(n.a, n.j) || e == PlainEdge(n.b, n.j)
    ensures Fires(PlainEdge(n.a, n.j), OneFails(n.b)(n.a)) && Ready(PlainEdge(n.a, n.j), OneFails(n.b)(n.a))
    ensures !Fires(PlainEdge(n.b, n.j), OneFails(n.b)(n.b)) && Ready(PlainEdge(n.b, n.j), OneFails(n.b)(n.b))
  {
    ForkEdges(n);
    assert PlainEdge(n.a, n.j) in Fork(n).edges && PlainEdge(n.b, n.j) in Fork(n).edges;
  }

  lemma ForkFeeds(n: Ids, x: string, y: string)
    requires Distinct(n) && x != n.s && Feeds(Fork(n), OneFails(n.b), x, y)
    ensures x != n.j && y == n.j
  {
    var e :| e in Fork(n).edges && e.source == x && e.target == y;
    ForkEdges(n);
  }

  /** Neither source precedes the other. */
  lemma SideBySide(n: Ids, x: string, y: string)
    requires Distinct(n) && ((x == n.a && y == n.b) || (x == n.b && y == n.a))
    ensures !Precedes(Fork(n), OneFails(n.b), x, y)
  {
    forall p | FeedPath(Fork(n), OneFails(n.b), p) && p[0] == x && |p| > 1
      ensures p[|p| - 1] == n.j
    {
      assert Feeds(Fork(n), OneFails(n.b), p[0], p[1]);
      ForkFeeds(n, p[0], p[1]);
      if |p| > 2 {
        assert Feeds(Fork(n), OneFails(n.b), p[1], p[2]);
        ForkFeeds(n, p[1], p[2]);
      }
    }
  }

  lemma NoJoinAbove(n: Ids)
    requires Distinct(n)
    ensures OrderedFrom(Fork(n), OneFails(n.b), RankIn(n), {}, RankIn(n)(n.j) + 1)
  {
    var g, o := Fork(n), OneFails(n.b);
    forall id, e | RankIn(n)(id) >= 1 && e in EdgesInto(g.edges, id)
      ensures Fires(e, o(e.source))
    {
      ForkEdges(n);
    }
  }

  lemma ForkIsUnordered(n: Ids)
    requires Distinct(n)
    ensures StartableJoin(Fork(n), OneFails(n.b), n.j) && !OrderedJoin(Fork(n), OneFails(n.b), n.j)
  {
    ForkJoinIsStartable(n);
    ForkIntoJoin(n);
    SideBySide(n, n.b, n.a);
    assert !OrderedSource(Fork(n), OneFails(n.b), n.j, PlainEdge(n.b, n.j));
  }

  lemma ForkHasFreeStarter(n: Ids)
    requires Distinct(n)
    ensures FreeStarter(Fork(n), OneFails(n.b), n.j, n.a)
  {
    ForkJoinIsStartable(n);
    ForkIntoJoin(n);
    SideBySide(n, n.a, n.b);
  }

  /** If `b` fails, whether `j` runs depends on the schedule. */
  lemma ForkDependsOnSchedule(n: Ids)
    requires Distinct(n)
    ensures !SchedulesAgree(Fork(n), OneFails(n.b))
  {
    ForkIsRanked(n);
    ForkIsUnordered(n);
    ForkHasFreeStarter(n);
    NoJoinAbove(n);
    ScheduleMatters(Fork(n), OneFails(n.b), RankIn(n), n.j, n.a);
  }

  // ---------- One source comes before the other ----------

  function ExceptionEdge(source: string, target: string): Edge {
    Edge(source, target, BranchAnchor(source, "exception"))
  }

  /** `b` leads to `a`, and to `j` only when it raises; `a` leads to `j`. */
  function Guarded(n: Ids): Graph {
    Graph(n.s, AllAnd(n), [PlainEdge(n.s, n.b), PlainEdge(n.b, n.a), PlainEdge(n.a, n.j), ExceptionEdge(n.b, n.j)])
  }

  function AllSucceed(): Oracle {
    id => Succeeds()
  }

  predicate IsGuardedEdge(n: Ids, e: Edge) {
    e == PlainEdge(n.s, n.b) || e == PlainEdge(n.b, n.a) || e == PlainEdge(n.a, n.j) || e == ExceptionEdge(n.b, n.j)
  }

  lemma GuardedEdges(n: Ids)
    ensures forall e :: e in Guarded(n).edges <==> IsGuardedEdge(n, e)
  {
  }

  lemma ExceptionDoesNotFire(n: Ids)
    ensures !Fires(ExceptionEdge(n.b, n.j), Succeeds())
  {
    assert |BranchAnchor(n.b, "exception")| == |n.b| + 1 + 9 + 6;
    assert |n.b + "_right"| == |n.b| + 6;
  }

  lemma GuardedSourcesAreStartable(n: Ids)
    requires Distinct(n)
    ensures n.b in Startable(Guarded(n), AllSucceed()) && n.a in Startable(Guarded(n), AllSucceed())
  {
    StartableIsLeastClosed(Guarded(n), AllSucceed());
    GuardedEdges(n);
    FedByOne(Guarded(n), AllSucceed(), PlainEdge(n.s, n.b));
    FedByOne(Guarded(n), AllSucceed(), PlainEdge(n.b, n.a));
  }

  lemma GuardPrecedes(n: Ids)
    requires Distinct(n)
    ensures Precedes(Guarded(n), AllSucceed(), n.b, n.a)
  {
    GuardedSourcesAreStartable(n);
    GuardedEdges(n);
    assert Feeds(Guarded(n), AllSucceed(), n.b, n.a);
    PrecedesItself(Guarded(n), AllSucceed(), n.b);
    assert FeedPath(Guarded(n), AllSucceed(), [n.b]);
    FeedPathExtends(Guarded(n), AllSucceed(), [n.b], n.a);
    assert ([n.b] + [n.a])[0] == n.b;
  }

  lemma GuardedJoinIsStartable(n: Ids)
    requires Distinct(n)
    ensures StartableJoin(Guarded(n), AllSucceed(), n.j)
  {
    GuardedSourcesAreStartable(n);
    GuardedEdges(n);
    assert PlainEdge(n.a, n.j) in Guarded(n).edges;
    assert Fires(PlainEdge(n.a, n.j), AllSucceed()(n.a));
  }

  /** Only the exception edge does not start its target. */
  lemma OnlyExceptionIsIdle(n: Ids, e: Edge)
    requires e in Guarded(n).edges && !Fires(e, Succeeds())
    ensures e == ExceptionEdge(n.b, n.j)
  {
    GuardedEdges(n);
  }

  lemma ExceptionIsOrdered(n: Ids)
    requires Distinct(n)
    ensures OrderedSource(Guarded(n), AllSucceed(), n.j, ExceptionEdge(n.b, n.j))
  {
    GuardPrecedes(n);
    GuardedEdges(n);
    assert PlainEdge(n.a, n.j) in Guarded(n).edges;
    assert PlainEdge(n.a, n.j) in EdgesInto(Guarded(n).edges, n.j);
  }

  lemma GuardedIsNotUniform(n: Ids)
    requires Distinct(n)
    ensures !UniformJoins(Guarded(n), AllSucceed())
  {
    GuardedJoinIsStartable(n);
    ExceptionDoesNotFire(n);
    GuardedEdges(n);
    assert ExceptionEdge(n.b, n.j) in Guarded(n).edges;
    assert ExceptionEdge(n.b, n.j) in EdgesInto(Guarded(n).edges, n.j);
  }

  /** `b` satisfies the join without starting it, but precedes `a`: every schedule runs every startable node. */
  lemma GuardedIsOrdered(n: Ids)
    requires Distinct(n)
    ensures OrderedJoins(Guarded(n), AllSucceed()) && !UniformJoins(Guarded(n), AllSucceed())
  {
    GuardedIsNotUniform(n);
    forall id, e | e in EdgesInto(Guarded(n).edges, id) && !Fires(e, AllSucceed()(e.source))
      ensures OrderedSource(Guarded(n), AllSucceed(), id, e)
    {
      OnlyExceptionIsIdle(n, e);
      ExceptionIsOrdered(n);
    }
  }

  // ---------- A form in front of the join ----------

  /** If `b` is a form that nobody fills in, `j` does not run, whatever the schedule. */
  lemma OpenFormMissesJoin(n: Ids, states: seq<State>, steps: seq<Step>, k: nat)
    requires Distinct(n) && IsRun(Fork(n), states, steps) && k < |states|
    requires forall i :: 0 <= i < |states[k].sh.insts| && states[k].sh.insts[i].node == n.b
                         && states[k].sh.insts[i].outcome.Some? ==>
               states[k].sh.insts[i].outcome.value == Outcome(Stop, "", true)
    ensures n.j !in Executed(states[k])
  {
    ForkEdges(n);
    OpenFormHoldsBack(Fork(n), states, steps, k, PlainEdge(n.b, n.j));
  }

  ghost predicate EachSucceeds(s: State) {
    forall i :: 0 <= i < |s.sh.insts| && s.sh.insts[i].outcome.Some? ==>
      s.sh.insts[i].outcome.value == Outcome(Plain, "", false)
  }

  lemma SucceededSourceReaches(g: Graph, states: seq<State>, steps: seq<Step>, e: Edge)
    requires IsRun(g, states, steps) && Quiescent(states[|steps|]) && EachSucceeds(states[|steps|])
    requires e.anchor == e.source + "_right" && e.source in Executed(states[|steps|])
    ensures AllReach(states[|steps|].sh, e)
  {
    var s := states[|steps|];
    TypedRun(g, states, steps, |steps|);
    forall i | 0 <= i < |s.sh.insts|
      ensures s.sh.insts[i].outcome.Some?
    {
      StalledHasEnded(g, s, {}, i);
    }
  }

  lemma NextOfFork(n: Ids, states: seq<State>, steps: seq<Step>, e: Edge)
    requires Distinct(n) && IsRun(Fork(n), states, steps)
    requires Quiescent(states[|steps|]) && EachSucceeds(states[|steps|])
    requires e in Fork(n).edges
    requires forall e' :: e' in Fork(n).edges && e'.target == e.target ==> e'.source in Executed(states[|steps|])
    ensures e.target in Executed(states[|steps|])
  {
    ForkEdges(n);
    forall e' | e' in Fork(n).edges && e'.target == e.target
      ensures AllReach(states[|steps|].sh, e')
    {
      SucceededSourceReaches(Fork(n), states, steps, e');
    }
    SelectedAndNodesRun(Fork(n), states, steps, e);
  }

  /** If it is filled in and every node succeeds, every finished run executes `j`. */
  lemma FilledFormRunsJoin(n: Ids, states: seq<State>, steps: seq<Step>)
    requires Distinct(n) && IsRun(Fork(n), states, steps)
    requires Quiescent(states[|steps|]) && EachSucceeds(states[|steps|])
    ensures n.j in Executed(states[|steps|])
  {
    StartIsKnown(Fork(n), states, steps, |steps|);
    QuiescentKnownIsExecuted(states[|steps|], n.s);
    ForkEdges(n);
    NextOfFork(n, states, steps, PlainEdge(n.s, n.a));
    NextOfFork(n, states, steps, PlainEdge(n.s, n.b));
    NextOfFork(n, states, steps, PlainEdge(n.a, n.j));
  }
}
