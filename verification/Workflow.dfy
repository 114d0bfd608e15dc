/**
 The static side of a workflow run: the graph, what one execution of a node leaves
 behind, and the rule by which a finished node lets a successor start.
 */
module Workflow {
  datatype Condition = And | Or

  datatype Edge = Edge(source: string, target: string, anchor: string)

  /** `nodes` maps a node id to the join condition of that node. */
  datatype Graph = Graph(start: string, nodes: map<string, Condition>, edges: seq<Edge>)

  ghost predicate WellFormed(g: Graph) {
    && g.start in g.nodes
    && forall e :: e in g.edges ==> e.source in g.nodes && e.target in g.nodes
  }

  /** What `run_chain` hands to `get_next_node_list`. */
  datatype Verdict =
    | Stop               // None, or a result that interrupts: no successor starts
    | Plain              // a result without `branch_id`
    | Branch(id: string) // a result with `branch_id`

  /** The traces an execution leaves: its verdict, the `branch_id` in its context
      ("" when absent) and whether it is a form node still waiting for its form. */
  datatype Outcome = Outcome(verdict: Verdict, contextBranch: string, formPending: bool)

  type Oracle = string -> Outcome

  function BranchAnchor(source: string, branch: string): string {
    source + "_" + branch + "_right"
  }

  /** The finished source selects this out-edge. */
  predicate Fires(e: Edge, o: Outcome) {
    match o.verdict
    case Stop => false
    case Plain => e.anchor == e.source + "_right"
    case Branch(id) => e.anchor == BranchAnchor(e.source, id)
  }

  /** An ended source satisfies this in-edge of an AND join. */
  predicate Ready(e: Edge, o: Outcome) {
    if o.contextBranch != "" then e.anchor == BranchAnchor(e.source, o.contextBranch) else !o.formPending
  }

  function EdgesFrom(edges: seq<Edge>, id: string): (r: seq<Edge>)
    ensures forall e :: e in r <==> e in edges && e.source == id
  {
    if edges == [] then []
    else (if edges[0].source == id then [edges[0]] else []) + EdgesFrom(edges[1..], id)
  }

  function EdgesInto(edges: seq<Edge>, id: string): (r: seq<Edge>)
    ensures forall e :: e in r <==> e in edges && e.target == id
  {
    if edges == [] then []
    else (if edges[0].target == id then [edges[0]] else []) + EdgesInto(edges[1..], id)
  }

  predicate IsOr(g: Graph, id: string) {
    id in g.nodes && g.nodes[id] == Or
  }

  predicate IsJoin(g: Graph, id: string) {
    !IsOr(g, id) && |EdgesInto(g.edges, id)| > 1
  }

  // ---------- The firing rule ----------

  ghost predicate JoinReady(g: Graph, o: Oracle, s: set<string>, id: string) {
    forall e :: e in EdgesInto(g.edges, id) ==> e.source in s && Ready(e, o(e.source))
  }

  ghost predicate MayStart(g: Graph, o: Oracle, s: set<string>, e: Edge) {
    && e in g.edges
    && e.source in s
    && Fires(e, o(e.source))
    && (IsOr(g, e.target) || JoinReady(g, o, s, e.target))
  }

  /** `s` holds the start node and every node the firing rule lets start from `s`. */
  ghost predicate Closed(g: Graph, o: Oracle, s: set<string>) {
    && g.start in s
    && forall e :: MayStart(g, o, s, e) ==> e.target in s
  }

  /** The least fixed point of the firing rule. */
  ghost predicate LeastClosed(g: Graph, o: Oracle, s: set<string>) {
    && Closed(g, o, s)
    && forall other :: Closed(g, o, other) ==> s <= other
  }

  lemma MayStartGrows(g: Graph, o: Oracle, s: set<string>, s': set<string>, e: Edge)
    requires s <= s' && MayStart(g, o, s, e)
    ensures MayStart(g, o, s', e)
  {
  }

  /** Every node that some run could execute. */
  ghost function Startable(g: Graph, o: Oracle): set<string> {
    var named := {g.start} + set e | e in g.edges :: e.target;
    set id | id in named && forall s: set<string> :: Closed(g, o, s) ==> id in s
  }

  lemma StartableIsLeastClosed(g: Graph, o: Oracle)
    ensures LeastClosed(g, o, Startable(g, o))
  {
    forall e | MayStart(g, o, Startable(g, o), e)
      ensures e.target in Startable(g, o)
    {
      forall s: set<string> | Closed(g, o, s)
        ensures e.target in s
      {
        MayStartGrows(g, o, Startable(g, o), s, e);
      }
    }
  }

  /** A startable node is the start node or some startable node may start it. */
  lemma StartableBy(g: Graph, o: Oracle, id: string) returns (e: Edge)
    requires id in Startable(g, o) && id != g.start
    ensures MayStart(g, o, Startable(g, o), e) && e.target == id
  {
    StartableIsLeastClosed(g, o);
    var rest := Startable(g, o) - {id};
    if forall e :: MayStart(g, o, Startable(g, o), e) ==> e.target != id {
      forall e | MayStart(g, o, rest, e)
        ensures e.target in rest
      {
        MayStartGrows(g, o, rest, Startable(g, o), e);
      }
      assert Closed(g, o, rest);
      assert false;
    }
    e :| MayStart(g, o, Startable(g, o), e) && e.target == id;
  }

  // ---------- Joins whose firing depends on no schedule ----------

  /** An AND node that the firing rule may start. */
  ghost predicate StartableJoin(g: Graph, o: Oracle, id: string) {
    && !IsOr(g, id) && JoinReady(g, o, Startable(g, o), id)
    && exists e :: e in EdgesInto(g.edges, id) && Fires(e, o(e.source))
  }

  /** Every source of a join that may start is one that starts it. */
  ghost predicate UniformJoins(g: Graph, o: Oracle) {
    forall id, e :: StartableJoin(g, o, id) && e in EdgesInto(g.edges, id) ==> Fires(e, o(e.source))
  }

  /** No failure and no interrupt; a node without branches has only the plain anchor, and one
      with branches keeps the branch it took in its context. */
  ghost predicate PlainWorkflow(g: Graph, o: Oracle) {
    forall e :: e in g.edges ==>
      match o(e.source).verdict
      case Stop => false
      case Plain => e.anchor == e.source + "_right"
      case Branch(id) => id != "" && o(e.source).contextBranch == id
  }

  lemma PlainWorkflowsAreUniform(g: Graph, o: Oracle)
    requires PlainWorkflow(g, o)
    ensures UniformJoins(g, o)
  {
  }

  /** Each execution of `x` calls for a later one of `y`: it starts the OR node `y`,
      or the AND node `y` waits for it. */
  ghost predicate Feeds(g: Graph, o: Oracle, x: string, y: string) {
    && x in Startable(g, o) && y in Startable(g, o)
    && exists e :: e in g.edges && e.source == x && e.target == y && (IsOr(g, y) ==> Fires(e, o(x)))
  }

  ghost predicate FeedPath(g: Graph, o: Oracle, p: seq<string>) {
    && p != []
    && forall k :: 0 <= k < |p| - 1 ==> Feeds(g, o, p[k], p[k + 1])
  }

  ghost predicate Precedes(g: Graph, o: Oracle, x: string, y: string) {
    exists p :: FeedPath(g, o, p) && p[0] == x && p[|p| - 1] == y
  }

  /** A source that only satisfies the join (it failed, or took another branch) precedes one that starts it. */
  ghost predicate OrderedSource(g: Graph, o: Oracle, id: string, e: Edge) {
    exists e' :: e' in EdgesInto(g.edges, id) && Fires(e', o(e'.source)) && Precedes(g, o, e.source, e'.source)
  }

  ghost predicate OrderedJoin(g: Graph, o: Oracle, id: string) {
    forall e :: e in EdgesInto(g.edges, id) && !Fires(e, o(e.source)) ==> OrderedSource(g, o, id, e)
  }

  ghost predicate OrderedJoins(g: Graph, o: Oracle) {
    forall id :: StartableJoin(g, o, id) ==> OrderedJoin(g, o, id)
  }

  lemma FeedPathExtends(g: Graph, o: Oracle, p: seq<string>, y: string)
    requires FeedPath(g, o, p) && Feeds(g, o, p[|p| - 1], y)
    ensures FeedPath(g, o, p + [y])
  {
    var q := p + [y];
    forall k | 0 <= k < |q| - 1
      ensures Feeds(g, o, q[k], q[k + 1])
    {
      if k < |p| - 1 {
        assert Feeds(g, o, p[k], p[k + 1]);
      }
    }
  }

  // ---------- Paths ----------

  ghost predicate Connected(g: Graph, from: string, to: string) {
    exists e :: e in g.edges && e.source == from && e.target == to
  }

  ghost predicate IsWalk(g: Graph, p: seq<string>) {
    forall k :: 0 <= k < |p| - 1 ==> Connected(g, p[k], p[k + 1])
  }

  /** A walk along edges that begins at the start node. */
  ghost predicate IsPath(g: Graph, p: seq<string>) {
    p != [] && p[0] == g.start && IsWalk(g, p)
  }

  lemma WalkExtends(g: Graph, p: seq<string>, node: string)
    requires IsWalk(g, p) && (p != [] ==> Connected(g, p[|p| - 1], node))
    ensures IsWalk(g, p + [node])
  {
    var q := p + [node];
    forall k | 0 <= k < |q| - 1
      ensures Connected(g, q[k], q[k + 1])
    {
      if k < |p| - 1 {
        assert Connected(g, p[k], p[k + 1]);
      }
    }
  }

  /** A ranking that every edge lowers: the graph has no cycle. */
  ghost predicate Ranks(g: Graph, rank: string -> nat) {
    forall e :: e in g.edges ==> rank(e.target) < rank(e.source)
  }

  lemma {:induction false} RankFallsAlongWalk(g: Graph, rank: string -> nat, p: seq<string>, j: nat, k: nat)
    requires Ranks(g, rank) && IsWalk(g, p) && j < k < |p|
    ensures rank(p[k]) < rank(p[j])
  {
    assert Connected(g, p[k - 1], p[k]);
    if j < k - 1 {
      RankFallsAlongWalk(g, rank, p, j, k - 1);
    }
  }

  lemma {:induction false} DistinctFitsIn(p: seq<string>, all: set<string>)
    requires forall j, k :: 0 <= j < k < |p| ==> p[j] != p[k]
    requires forall j :: 0 <= j < |p| ==> p[j] in all
    ensures |p| <= |all|
  {
    if p != [] {
      var last := p[|p| - 1];
      DistinctFitsIn(p[..|p| - 1], all - {last});
    }
  }

  /** On an acyclic workflow no walk visits more nodes than there are. */
  lemma WalkIsBounded(g: Graph, rank: string -> nat, p: seq<string>)
    requires WellFormed(g) && Ranks(g, rank) && IsWalk(g, p)
    ensures |p| <= |g.nodes|
  {
    forall j, k | 0 <= j < k < |p| ensures p[j] != p[k] { RankFallsAlongWalk(g, rank, p, j, k); }
    if |p| > 1 {
      forall j | 0 <= j < |p|
        ensures p[j] in g.nodes.Keys
      {
        if j > 0 { assert Connected(g, p[j - 1], p[j]); } else { assert Connected(g, p[0], p[1]); }
      }
      DistinctFitsIn(p, g.nodes.Keys);
    } else {
      assert g.start in g.nodes.Keys;
    }
  }

  // ---------- The representative source of a join ----------

  predicate StringLess(a: string, b: string) {
    if b == [] then false
    else if a == [] then true
    else a[0] < b[0] || (a[0] == b[0] && StringLess(a[1..], b[1..]))
  }

  /** The first place at which the texts differ decides; a text comes after its beginnings. */
  ghost predicate ComesBefore(a: string, b: string) {
    exists k :: 0 <= k <= |a| && k < |b| && a[..k] == b[..k] && (k == |a| || a[k] < b[k])
  }

  lemma {:induction false} StringLessMeans(a: string, b: string)
    ensures StringLess(a, b) <==> ComesBefore(a, b)
  {
    assert a[..0] == b[..0];
    if a != [] && b != [] {
      StringLessMeans(a[1..], b[1..]);
      if a[0] == b[0] && ComesBefore(a[1..], b[1..]) {
        var k :| 0 <= k <= |a[1..]| && k < |b[1..]| && a[1..][..k] == b[1..][..k]
                 && (k == |a[1..]| || a[1..][k] < b[1..][k]);
        assert a[..k + 1] == [a[0]] + a[1..][..k] && b[..k + 1] == [b[0]] + b[1..][..k];
      }
      if ComesBefore(a, b) {
        var k :| 0 <= k <= |a| && k < |b| && a[..k] == b[..k] && (k == |a| || a[k] < b[k]);
        if k > 0 {
          assert a[0] == a[..k][0] == b[..k][0] == b[0];
          assert a[1..][..k - 1] == a[..k][1..] && b[1..][..k - 1] == b[..k][1..];
        }
      }
    }
  }

  lemma {:induction false} StringLessIsTotal(a: string, b: string)
    ensures a == b || StringLess(a, b) || StringLess(b, a)
  {
    if a != [] && b != [] {
      StringLessIsTotal(a[1..], b[1..]);
      assert a == [a[0]] + a[1..] && b == [b[0]] + b[1..];
    }
  }

  lemma {:induction false} StringLessIsTransitive(a: string, b: string, c: string)
    requires StringLess(a, b) && StringLess(b, c)
    ensures StringLess(a, c)
  {
    if a != [] && a[0] == b[0] == c[0] {
      StringLessIsTransitive(a[1..], b[1..], c[1..]);
    }
  }

  lemma LeastOfMore(first: string, rest: string, edges: seq<Edge>)
    requires first == rest || StringLess(first, rest)
    requires forall e :: e in edges ==> e.source == rest || StringLess(rest, e.source)
    ensures forall e :: e in edges ==> e.source == first || StringLess(first, e.source)
  {
    forall e | e in edges && StringLess(first, rest) && StringLess(rest, e.source)
      ensures StringLess(first, e.source)
    {
      StringLessIsTransitive(first, rest, e.source);
    }
  }

  function LeastSource(edges: seq<Edge>): (r: string)
    requires edges != []
    ensures exists e :: e in edges && e.source == r
  {
    if |edges| == 1 then assert edges[0] in edges; edges[0].source
    else
      var rest := LeastSource(edges[1..]);
      if StringLess(rest, edges[0].source) then rest else assert edges[0] in edges; edges[0].source
  }

  lemma {:induction false} LeastSourceIsLeast(edges: seq<Edge>)
    requires edges != []
    ensures forall e :: e in edges ==> e.source == LeastSource(edges) || StringLess(LeastSource(edges), e.source)
  {
    if |edges| > 1 {
      var first, rest := edges[0].source, LeastSource(edges[1..]);
      assert edges == [edges[0]] + edges[1..];
      LeastSourceIsLeast(edges[1..]);
      StringLessIsTotal(first, rest);
      if !StringLess(rest, first) { LeastOfMore(first, rest, edges[1..]); }
    }
  }

  /** The first of the sources when they are sorted by id. */
  function FirstSource(g: Graph, id: string): (r: string)
    requires EdgesInto(g.edges, id) != []
    ensures exists e :: e in EdgesInto(g.edges, id) && e.source == r
  {
    LeastSource(EdgesInto(g.edges, id))
  }

  /** Whatever the order of the edges, no source comes before it. */
  lemma FirstSourceComesFirst(g: Graph, id: string, e: Edge)
    requires e in g.edges && e.target == id
    ensures e.source == FirstSource(g, id) || ComesBefore(FirstSource(g, id), e.source)
  {
    assert e in EdgesInto(g.edges, id);
    LeastSourceIsLeast(EdgesInto(g.edges, id));
    StringLessMeans(FirstSource(g, id), e.source);
  }
}
