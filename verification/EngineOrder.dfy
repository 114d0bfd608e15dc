/**
 When every schedule executes every startable node. On an acyclic workflow, once no thread can
 move, each execution of a node has been followed by one of every node it feeds; so a join whose
 other sources precede one that starts it is never missed.
 */
module EngineOrder {
  import opened Workflow
  import opened Engine
  import opened EngineTyping
  import opened EngineSchedule
  import opened EngineWakeups

  /** All threads are done, but for those about to run a frozen node. */
  ghost predicate Stalled(s: State, frozen: set<string>) {
    forall t :: 0 <= t < |s.sh.tasks| ==>
      s.sh.tasks[t].Finished? || (s.sh.tasks[t].Queued? && s.sh.tasks[t].req.node in frozen)
  }

  lemma StalledHasEnded(g: Graph, s: State, frozen: set<string>, i: nat)
    requires Typed(g, s) && Stalled(s, frozen) && i < |s.sh.insts|
    ensures s.sh.insts[i].outcome.Some?
  {
    assert OwnedAt(s.sh, i);
  }

  lemma StalledIsStarted(g: Graph, s: State, frozen: set<string>, t: nat, i: nat, e: Edge, k: nat)
    requires ContextInRange(s.sh) && Stalled(s, frozen) && e.target !in frozen && Served(g, s, t, i, e, k)
    ensures StartedSince(s.sh, e.target, k)
  {
  }

  lemma StalledKnownIsStarted(s: State, frozen: set<string>, node: string, k: nat)
    requires Stalled(s, frozen) && node !in frozen && KnownSince(s.sh, node, k)
    ensures StartedSince(s.sh, node, k)
  {
  }

  /** Each execution of `x` that has ended has been followed by one of `y`. */
  ghost predicate FollowedBy(states: seq<State>, steps: seq<Step>, n: nat, x: string, y: string)
    requires n < |states|
  {
    forall m: nat, i: nat {:trigger EndsAt(states, steps, m, i)} ::
      m < n && EndsAt(states, steps, m, i) && i < |states[m].sh.insts| && states[m].sh.insts[i].node == x
      ==> StartedSince(states[n].sh, y, |states[m].sh.insts|)
  }

  /** Facts about step `m`, which ends instance `i`, seen from state `n`. */
  lemma EndedSince(g: Graph, states: seq<State>, steps: seq<Step>, m: nat, n: nat, i: nat)
    requires IsRun(g, states, steps) && m < n < |states| && EndsAt(states, steps, m, i)
    ensures i < |states[m].sh.insts| <= |states[n].sh.insts| && states[m].sh.insts[i].node == states[n].sh.insts[i].node
    ensures HasEnded(states[n].sh, i)
  {
    EndsOnce(g, states, steps, m, i);
    RunKeeps(g, states, steps, m, n);
    RunKeeps(g, states, steps, m + 1, n);
  }

  /** In a stalled state the instance ended, and after everything registered before it. */
  lemma StalledEndOf(g: Graph, states: seq<State>, steps: seq<Step>, n: nat, frozen: set<string>, i: nat)
    returns (m: nat)
    requires IsRun(g, states, steps) && n < |states| && Stalled(states[n], frozen) && i < |states[n].sh.insts|
    ensures m < n && EndsAt(states, steps, m, i) && i < |states[m].sh.insts|
    ensures states[m].sh.insts[i].node == states[n].sh.insts[i].node
  {
    TypedRun(g, states, steps, n);
    StalledHasEnded(g, states[n], frozen, i);
    m := EndOf(g, states, steps, n, i);
    EndedSince(g, states, steps, m, n, i);
  }

  lemma FollowedByTransitive(g: Graph, states: seq<State>, steps: seq<Step>, n: nat, frozen: set<string>,
                             x: string, y: string, z: string)
    requires IsRun(g, states, steps) && n < |states| && Stalled(states[n], frozen)
    requires FollowedBy(states, steps, n, x, y) && FollowedBy(states, steps, n, y, z)
    ensures FollowedBy(states, steps, n, x, z)
  {
    forall m: nat, i: nat | m < n && EndsAt(states, steps, m, i) && i < |states[m].sh.insts|
        && states[m].sh.insts[i].node == x
      ensures StartedSince(states[n].sh, z, |states[m].sh.insts|)
    {
      var i' :| |states[m].sh.insts| <= i' < |states[n].sh.insts| && states[n].sh.insts[i'].node == y;
      var m' := StalledEndOf(g, states, steps, n, frozen, i');
      assert StartedSince(states[n].sh, z, |states[m'].sh.insts|);
    }
  }

  lemma FollowedByStarts(g: Graph, states: seq<State>, steps: seq<Step>, n: nat, frozen: set<string>, x: string,
                         y: string)
    requires IsRun(g, states, steps) && n < |states| && Stalled(states[n], frozen)
    requires Started(states[n].sh, x) && FollowedBy(states, steps, n, x, y)
    ensures Started(states[n].sh, y)
  {
    var i :| 0 <= i < |states[n].sh.insts| && states[n].sh.insts[i].node == x;
    var m := StalledEndOf(g, states, steps, n, frozen, i);
    assert StartedSince(states[n].sh, y, |states[m].sh.insts|);
  }

  /** A node that starts an OR node is followed by it. */
  lemma OrFollows(g: Graph, o: Oracle, states: seq<State>, steps: seq<Step>, n: nat, frozen: set<string>, e: Edge)
    requires IsRun(g, states, steps) && n < |states| && Stalled(states[n], frozen) && Obeys(o, states[n].sh)
    requires e in g.edges && IsOr(g, e.target) && Fires(e, o(e.source)) && e.target !in frozen
    ensures FollowedBy(states, steps, n, e.source, e.target)
  {
    forall m: nat, i: nat
      | m < n && EndsAt(states, steps, m, i) && i < |states[m].sh.insts| && states[m].sh.insts[i].node == e.source
      ensures StartedSince(states[n].sh, e.target, |states[m].sh.insts|)
    {
      EndedSince(g, states, steps, m, n, i);
      SelectsSinceEnd(g, states, steps, m, n, i, e);
      EndedInstanceServes(g, states, steps, m, n, i, e);
      StalledIsStarted(g, states[n], frozen, steps[m].t, i, e, |states[m].sh.insts|);
    }
  }

  // ---------- Joins ----------

  /** The sources that start the join when they satisfy it. */
  ghost function Starters(g: Graph, o: Oracle, id: string): set<string> {
    set e | e in EdgesInto(g.edges, id) && Fires(e, o(e.source)) :: e.source
  }

  /** Each source is a starter or followed by one. */
  ghost predicate SourcesFollowed(g: Graph, o: Oracle, states: seq<State>, steps: seq<Step>, n: nat, id: string)
    requires n < |states|
  {
    forall e :: e in EdgesInto(g.edges, id) ==> SourceFollowed(states, steps, n, e.source, Starters(g, o, id))
  }

  ghost predicate SourceFollowed(states: seq<State>, steps: seq<Step>, n: nat, x: string, starters: set<string>)
    requires n < |states|
  {
    x in starters || exists a :: a in starters && FollowedBy(states, steps, n, x, a)
  }

  /** If all starters had ended after step `m`, so had every source that is followed by one. */
  lemma FollowedHasEnded(g: Graph, states: seq<State>, steps: seq<Step>, m: nat, n: nat, frozen: set<string>,
                         starters: set<string>, x: string, i: nat)
    requires IsRun(g, states, steps) && m < n < |states| && Stalled(states[n], frozen)
    requires |states[m].sh.insts| == |states[m + 1].sh.insts|
    requires AllEndedBy(states[m + 1].sh, states[n].sh, starters)
    requires SourceFollowed(states, steps, n, x, starters) && i < |states[n].sh.insts|
    requires states[n].sh.insts[i].node == x
    ensures HasEnded(states[m + 1].sh, i)
  {
    if x !in starters {
      var a :| a in starters && FollowedBy(states, steps, n, x, a);
      var m' := StalledEndOf(g, states, steps, n, frozen, i);
      var i' :| |states[m'].sh.insts| <= i' < |states[n].sh.insts| && states[n].sh.insts[i'].node == a;
      assert i' < |states[m + 1].sh.insts|;
      if m < m' {
        RunKeeps(g, states, steps, m + 1, m');
        assert false;
      }
      EndedSince(g, states, steps, m', m + 1, i);
    }
  }

  ghost predicate SourcesSatisfy(g: Graph, o: Oracle, sh: Shared, id: string) {
    forall e :: e in EdgesInto(g.edges, id) ==> Started(sh, e.source) && Ready(e, o(e.source))
  }

  lemma FollowedSourcesSettle(g: Graph, o: Oracle, states: seq<State>, steps: seq<Step>, m: nat, n: nat,
                              frozen: set<string>,
                              id: string)
    requires IsRun(g, states, steps) && m < n < |states| && Stalled(states[n], frozen) && Obeys(o, states[n].sh)
    requires |states[m].sh.insts| == |states[m + 1].sh.insts|
    requires AllEndedBy(states[m + 1].sh, states[n].sh, Starters(g, o, id))
    requires SourcesSatisfy(g, o, states[n].sh, id) && SourcesFollowed(g, o, states, steps, n, id)
    ensures SourcesSettled(g, states[m + 1].sh, states[n].sh, id)
  {
    forall e | e in EdgesInto(g.edges, id)
      ensures Settled(states[m + 1].sh, states[n].sh, e)
    {
      assert SourceFollowed(states, steps, n, e.source, Starters(g, o, id));
      forall i | 0 <= i < |states[n].sh.insts| && states[n].sh.insts[i].node == e.source
        ensures HasEnded(states[m + 1].sh, i) && HasEnded(states[n].sh, i)
        ensures Ready(e, states[n].sh.insts[i].outcome.value)
      {
        FollowedHasEnded(g, states, steps, m, n, frozen, Starters(g, o, id), e.source, i);
        RunKeeps(g, states, steps, m + 1, n);
      }
    }
  }

  /** The instance that ends last among the starters of a join. */
  lemma LastStarter(g: Graph, o: Oracle, states: seq<State>, steps: seq<Step>, n: nat, frozen: set<string>, id: string)
    returns (m: nat, i: nat, e: Edge)
    requires IsRun(g, states, steps) && n < |states| && Stalled(states[n], frozen) && Obeys(o, states[n].sh)
    requires SourcesSatisfy(g, o, states[n].sh, id) && Starters(g, o, id) != {}
    ensures m < n && EndsAt(states, steps, m, i) && e in EdgesInto(g.edges, id) && Selects(g, states[n].sh, i, e)
    ensures AllEndedBy(states[m + 1].sh, states[n].sh, Starters(g, o, id))
    ensures |states[m].sh.insts| == |states[m + 1].sh.insts|
  {
    TypedRun(g, states, steps, n);
    AllHaveEnded(g, states[n], frozen, Starters(g, o, id));
    StartersStarted(g, o, states[n].sh, id);
    m, i := LastEnd(g, states, steps, n, Starters(g, o, id));
    EndsOnce(g, states, steps, m, i);
    e := StarterSelects(g, o, states[n].sh, id, i);
  }

  lemma AllHaveEnded(g: Graph, s: State, frozen: set<string>, nodes: set<string>)
    requires Typed(g, s) && Stalled(s, frozen)
    ensures AllEnded(s.sh, nodes)
    ensures forall i :: 0 <= i < |s.sh.insts| ==> s.sh.insts[i].outcome.Some?
  {
    forall i | 0 <= i < |s.sh.insts|
      ensures s.sh.insts[i].outcome.Some?
    {
      StalledHasEnded(g, s, frozen, i);
    }
  }

  lemma StartersStarted(g: Graph, o: Oracle, sh: Shared, id: string)
    requires SourcesSatisfy(g, o, sh, id) && Starters(g, o, id) != {}
    ensures SomeStarted(sh, Starters(g, o, id))
  {
    var a :| a in Starters(g, o, id);
    var e :| e in EdgesInto(g.edges, id) && Fires(e, o(e.source)) && e.source == a;
    assert Started(sh, a);
  }

  lemma StarterSelects(g: Graph, o: Oracle, sh: Shared, id: string, i: nat) returns (e: Edge)
    requires Obeys(o, sh) && HasEnded(sh, i) && sh.insts[i].node in Starters(g, o, id)
    ensures e in EdgesInto(g.edges, id) && Selects(g, sh, i, e)
  {
    e :| e in EdgesInto(g.edges, id) && Fires(e, o(e.source)) && e.source == sh.insts[i].node;
  }

  /** A join whose sources have all run and satisfy it, each a starter or followed by one, follows every source. */
  lemma JoinFollows(g: Graph, o: Oracle, states: seq<State>, steps: seq<Step>, n: nat, frozen: set<string>, id: string)
    requires IsRun(g, states, steps) && n < |states| && Stalled(states[n], frozen) && Obeys(o, states[n].sh)
    requires id !in frozen && SourcesSatisfy(g, o, states[n].sh, id) && Starters(g, o, id) != {}
    requires SourcesFollowed(g, o, states, steps, n, id)
    ensures Started(states[n].sh, id)
    ensures forall e :: e in EdgesInto(g.edges, id) ==> FollowedBy(states, steps, n, e.source, id)
  {
    var m, i, e := LastStarter(g, o, states, steps, n, frozen, id);
    FollowedSourcesSettle(g, o, states, steps, m, n, frozen, id);
    SettledSourcesServe(g, states, steps, m, n, i, e);
    StalledIsStarted(g, states[n], frozen, steps[m].t, i, e, |states[m].sh.insts|);
    forall e | e in EdgesInto(g.edges, id)
      ensures FollowedBy(states, steps, n, e.source, id)
    {
      SettledIsFollowed(g, states, steps, m, n, id, e);
    }
  }

  lemma SettledIsFollowed(g: Graph, states: seq<State>, steps: seq<Step>, m: nat, n: nat, id: string, e: Edge)
    requires IsRun(g, states, steps) && m < n < |states| && m < |steps|
    requires StartedSince(states[n].sh, id, |states[m].sh.insts|)
    requires Settled(states[m + 1].sh, states[n].sh, e)
    ensures FollowedBy(states, steps, n, e.source, id)
  {
    forall m': nat, i: nat
      | m' < n && EndsAt(states, steps, m', i) && i < |states[m'].sh.insts| && states[m'].sh.insts[i].node == e.source
      ensures StartedSince(states[n].sh, id, |states[m'].sh.insts|)
    {
      EndedSince(g, states, steps, m', n, i);
      EndsOnce(g, states, steps, m', i);
      if m < m' {
        RunKeeps(g, states, steps, m + 1, m');
        assert false;
      }
      RunKeeps(g, states, steps, m', m);
    }
  }

  // ---------- Every startable node runs ----------

  /** What a frozen node feeds is frozen. */
  ghost predicate FrozenOnward(g: Graph, o: Oracle, frozen: set<string>) {
    g.start !in frozen && forall x, y :: x in frozen && Feeds(g, o, x, y) ==> y in frozen
  }

  /** The node has run, and each execution of a node that feeds it has been followed by one of it. */
  ghost predicate Runs(g: Graph, o: Oracle, states: seq<State>, steps: seq<Step>, n: nat, y: string)
    requires n < |states|
  {
    Started(states[n].sh, y) && forall x :: Feeds(g, o, x, y) ==> FollowedBy(states, steps, n, x, y)
  }

  ghost predicate RunsAbove(g: Graph, o: Oracle, rank: string -> nat, states: seq<State>, steps: seq<Step>, n: nat,
                            frozen: set<string>, r: nat)
    requires n < |states|
  {
    forall z :: z in Startable(g, o) - frozen && rank(z) > r ==> Runs(g, o, states, steps, n, z)
  }

  /** The joins that may start and rank at least `r` are ordered. */
  ghost predicate OrderedFrom(g: Graph, o: Oracle, rank: string -> nat, frozen: set<string>, r: nat) {
    forall id :: StartableJoin(g, o, id) && id !in frozen && rank(id) >= r ==> OrderedJoin(g, o, id)
  }

  lemma StartableRanks(g: Graph, o: Oracle, rank: string -> nat, y: string)
    requires Ranks(g, rank) && y in Startable(g, o)
    ensures rank(y) <= rank(g.start)
  {
    StartableIsLeastClosed(g, o);
    var below := set id | id in Startable(g, o) && rank(id) <= rank(g.start);
    forall e | MayStart(g, o, below, e)
      ensures e.target in below
    {
      MayStartGrows(g, o, below, Startable(g, o), e);
    }
    assert Closed(g, o, below);
  }

  lemma {:induction false} PathFollows(g: Graph, o: Oracle, states: seq<State>, steps: seq<Step>, n: nat,
                                       frozen: set<string>,
                                       p: seq<string>)
    requires IsRun(g, states, steps) && n < |states| && Stalled(states[n], frozen)
    requires FeedPath(g, o, p) && |p| > 1 && forall k :: 0 < k < |p| ==> Runs(g, o, states, steps, n, p[k])
    ensures FollowedBy(states, steps, n, p[0], p[|p| - 1])
  {
    assert Feeds(g, o, p[0], p[1]) && Runs(g, o, states, steps, n, p[1]);
    if |p| > 2 {
      var q := p[1..];
      forall k | 0 <= k < |q| - 1
        ensures Feeds(g, o, q[k], q[k + 1])
      {
        assert Feeds(g, o, p[k + 1], p[k + 2]);
      }
      PathFollows(g, o, states, steps, n, frozen, q);
      FollowedByTransitive(g, states, steps, n, frozen, p[0], p[1], p[|p| - 1]);
    }
  }

  /** Before a node that is not frozen come only nodes that are not, and rank higher. */
  lemma {:induction false} PathAbove(g: Graph, o: Oracle, rank: string -> nat, frozen: set<string>, p: seq<string>,
                                     k: nat)
    requires Ranks(g, rank) && FrozenOnward(g, o, frozen) && FeedPath(g, o, p) && k < |p|
    requires p[|p| - 1] !in frozen && p[|p| - 1] in Startable(g, o)
    ensures p[k] in Startable(g, o) - frozen && rank(p[k]) >= rank(p[|p| - 1])
    decreases |p| - k
  {
    if k < |p| - 1 {
      PathAbove(g, o, rank, frozen, p, k + 1);
      assert Feeds(g, o, p[k], p[k + 1]);
    }
  }

  lemma PrecedingIsFollowed(g: Graph, o: Oracle, rank: string -> nat, states: seq<State>, steps: seq<Step>, n: nat,
                            frozen: set<string>, r: nat, x: string, y: string)
    requires Ranks(g, rank) && IsRun(g, states, steps) && n < |states| && Stalled(states[n], frozen)
    requires FrozenOnward(g, o, frozen) && RunsAbove(g, o, rank, states, steps, n, frozen, r)
    requires Precedes(g, o, x, y) && x != y && y in Startable(g, o) - frozen && rank(y) > r
    ensures FollowedBy(states, steps, n, x, y)
  {
    var p :| FeedPath(g, o, p) && p[0] == x && p[|p| - 1] == y;
    forall k | 0 < k < |p|
      ensures Runs(g, o, states, steps, n, p[k])
    {
      PathAbove(g, o, rank, frozen, p, k);
    }
    PathFollows(g, o, states, steps, n, frozen, p);
  }

  lemma OrRuns(g: Graph, o: Oracle, rank: string -> nat, states: seq<State>, steps: seq<Step>, n: nat,
               frozen: set<string>, e: Edge)
    requires Ranks(g, rank) && IsRun(g, states, steps) && n < |states| && Stalled(states[n], frozen)
    requires Obeys(o, states[n].sh)
    requires FrozenOnward(g, o, frozen) && RunsAbove(g, o, rank, states, steps, n, frozen, rank(e.target))
    requires MayStart(g, o, Startable(g, o), e) && e.target in Startable(g, o) - frozen && IsOr(g, e.target)
    ensures Runs(g, o, states, steps, n, e.target)
  {
    forall x | Feeds(g, o, x, e.target)
      ensures FollowedBy(states, steps, n, x, e.target)
    {
      var e' :| e' in g.edges && e'.source == x && e'.target == e.target && Fires(e', o(x));
      OrFollows(g, o, states, steps, n, frozen, e');
    }
    assert Feeds(g, o, e.source, e.target);
    assert Runs(g, o, states, steps, n, e.source);
    FollowedByStarts(g, states, steps, n, frozen, e.source, e.target);
  }

  /** The sources of a startable join are startable, feed it, and rank higher. */
  lemma JoinSource(g: Graph, o: Oracle, rank: string -> nat, frozen: set<string>, id: string, e: Edge)
    requires Ranks(g, rank) && FrozenOnward(g, o, frozen) && id in Startable(g, o) - frozen
    requires StartableJoin(g, o, id) && e in EdgesInto(g.edges, id)
    ensures e.source in Startable(g, o) - frozen && Feeds(g, o, e.source, id) && rank(e.source) > rank(id)
    ensures Ready(e, o(e.source))
  {
    assert Feeds(g, o, e.source, id);
  }

  lemma JoinSourceFollowed(g: Graph, o: Oracle, rank: string -> nat, states: seq<State>, steps: seq<Step>, n: nat,
                           frozen: set<string>, id: string, e: Edge)
    requires Ranks(g, rank) && IsRun(g, states, steps) && n < |states| && Stalled(states[n], frozen)
    requires FrozenOnward(g, o, frozen) && RunsAbove(g, o, rank, states, steps, n, frozen, rank(id))
    requires StartableJoin(g, o, id) && OrderedJoin(g, o, id) && id in Startable(g, o) - frozen
    requires e in EdgesInto(g.edges, id)
    ensures SourceFollowed(states, steps, n, e.source, Starters(g, o, id))
  {
    if e.source !in Starters(g, o, id) {
      assert OrderedSource(g, o, id, e);
      var e' :| e' in EdgesInto(g.edges, id) && Fires(e', o(e'.source)) && Precedes(g, o, e.source, e'.source);
      assert e'.source in Starters(g, o, id);
      JoinSource(g, o, rank, frozen, id, e');
      PrecedingIsFollowed(g, o, rank, states, steps, n, frozen, rank(id), e.source, e'.source);
    }
  }

  lemma JoinRuns(g: Graph, o: Oracle, rank: string -> nat, states: seq<State>, steps: seq<Step>, n: nat,
                 frozen: set<string>, id: string)
    requires Ranks(g, rank) && IsRun(g, states, steps) && n < |states| && Stalled(states[n], frozen)
    requires Obeys(o, states[n].sh)
    requires FrozenOnward(g, o, frozen) && RunsAbove(g, o, rank, states, steps, n, frozen, rank(id))
    requires StartableJoin(g, o, id) && OrderedJoin(g, o, id) && id in Startable(g, o) - frozen
    ensures Runs(g, o, states, steps, n, id)
  {
    forall e | e in EdgesInto(g.edges, id)
      ensures Started(states[n].sh, e.source) && Ready(e, o(e.source))
      ensures SourceFollowed(states, steps, n, e.source, Starters(g, o, id))
    {
      JoinSource(g, o, rank, frozen, id, e);
      assert Runs(g, o, states, steps, n, e.source);
      JoinSourceFollowed(g, o, rank, states, steps, n, frozen, id, e);
    }
    StarterExists(g, o, id);
    JoinFollows(g, o, states, steps, n, frozen, id);
    forall x | Feeds(g, o, x, id)
      ensures FollowedBy(states, steps, n, x, id)
    {
      var e :| e in g.edges && e.source == x && e.target == id;
      assert e in EdgesInto(g.edges, id);
    }
  }

  lemma StarterExists(g: Graph, o: Oracle, id: string)
    requires StartableJoin(g, o, id)
    ensures Starters(g, o, id) != {}
  {
    var e :| e in EdgesInto(g.edges, id) && Fires(e, o(e.source));
    assert e.source in Starters(g, o, id);
  }

  lemma StartRuns(g: Graph, o: Oracle, rank: string -> nat, states: seq<State>, steps: seq<Step>, n: nat,
                  frozen: set<string>)
    requires Ranks(g, rank) && IsRun(g, states, steps) && n < |states| && Stalled(states[n], frozen)
    requires g.start !in frozen
    ensures Runs(g, o, states, steps, n, g.start)
  {
    StartIsKnown(g, states, steps, n);
    StalledKnownIsStarted(states[n], frozen, g.start, 0);
    forall x
      ensures !Feeds(g, o, x, g.start)
    {
      if Feeds(g, o, x, g.start) { StartableRanks(g, o, rank, x); }
    }
  }

  /** On an acyclic workflow whose joins from here on up are ordered, a stalled run has executed every
      startable node that is not frozen. */
  lemma {:induction false} EveryStartableRuns(g: Graph, o: Oracle, rank: string -> nat, states: seq<State>,
                                              steps: seq<Step>,
                                              n: nat, frozen: set<string>, y: string)
    requires Ranks(g, rank) && IsRun(g, states, steps) && n < |states| && Stalled(states[n], frozen)
    requires Obeys(o, states[n].sh)
    requires FrozenOnward(g, o, frozen) && OrderedFrom(g, o, rank, frozen, rank(y)) && y in Startable(g, o) - frozen
    ensures Runs(g, o, states, steps, n, y)
    decreases rank(g.start) - rank(y)
  {
    if y == g.start {
      StartRuns(g, o, rank, states, steps, n, frozen);
    } else {
      forall z | z in Startable(g, o) - frozen && rank(z) > rank(y)
        ensures Runs(g, o, states, steps, n, z)
      {
        StartableRanks(g, o, rank, z);
        EveryStartableRuns(g, o, rank, states, steps, n, frozen, z);
      }
      var e := StartableBy(g, o, y);
      if IsOr(g, y) {
        OrRuns(g, o, rank, states, steps, n, frozen, e);
      } else {
        assert e in EdgesInto(g.edges, y);
        assert StartableJoin(g, o, y);
        JoinRuns(g, o, rank, states, steps, n, frozen, y);
      }
    }
  }
}
