/** Workflows as trees of nodes, the ids they refer to, and what importing a workflow does to those ids. */
module WorkflowTree {
  import opened Wrappers

  /** Ids are texts; the empty text stands for a missing id. */
  type Id = string

  /** The kinds of node that refer to something, with what they refer to. `S` is what a search node holds. */
  datatype Node<S> =
    | ToolLib(toolLibId: Id)
    | ToolWorkflowLib(toolLibId: Id)
    | AiChat(mcpToolIds: seq<Id>, toolIds: seq<Id>, skillToolIds: seq<Id>, modelId: Id)
    | Mcp(mcpToolId: Id)
    | ModelUser(modelId: Id)
    | Search(search: S)
    | Application(applicationId: Id)
    | Loop(loopBody: seq<Node<S>>)
    | Plain

  type Workflow<S> = seq<Node<S>>

  function One(id: Id): seq<Id> {
    if id == "" then [] else [id]
  }

  // ---------- Collecting tool ids ----------

  function NodeToolIds<S>(node: Node<S>): seq<Id>
    decreases node
  {
    match node
    case ToolLib(id) => One(id)
    case ToolWorkflowLib(id) => One(id)
    case AiChat(mcp, tools, skills, _) => mcp + tools + skills
    case Mcp(id) => One(id)
    case Loop(body) => ToolIds(body)
    case _ => []
  }

  function ToolIds<S>(w: Workflow<S>): seq<Id>
    decreases w
  {
    if w == [] then [] else ToolIds(w[..|w| - 1]) + NodeToolIds(w[|w| - 1])
  }

  method GetToolIdList<S>(workflow: Workflow<S>) returns (result: seq<Id>)
    ensures result == ToolIds(workflow)
    decreases workflow
  {
    result := [];
    var i := 0;
    while i < |workflow|
      invariant 0 <= i <= |workflow|
      invariant result == ToolIds(workflow[..i])
    {
      assert workflow[..i + 1][..i] == workflow[..i];
      var node := workflow[i];
      match node {
        case ToolLib(id) => if id != "" { result := result + [id]; }
        case Loop(body) =>
          var r := GetToolIdList(body);
          result := result + r;
        case ToolWorkflowLib(id) => if id != "" { result := result + [id]; }
        case AiChat(mcp, tools, skills, _) => result := result + (mcp + tools + skills);
        case Mcp(id) => if id != "" { result := result + [id]; }
        case _ =>
      }
      i := i + 1;
    }
    assert workflow[..i] == workflow;
  }

  lemma ToolIdsSnoc<S>(init: Workflow<S>, node: Node<S>)
    ensures ToolIds(init + [node]) == ToolIds(init) + NodeToolIds(node)
  {
    assert (init + [node])[..|init|] == init;
  }

  lemma Regroup<T>(a: seq<T>, b: seq<T>, c: seq<T>)
    ensures (a + b) + c == a + (b + c)
  {
  }

  lemma {:induction false} ToolIdsConcat<S>(a: Workflow<S>, b: Workflow<S>)
    ensures ToolIds(a + b) == ToolIds(a) + ToolIds(b)
  {
    if b == [] {
      assert a + b == a;
    } else {
      var init, last := b[..|b| - 1], b[|b| - 1];
      assert b == init + [last];
      ToolIdsConcat(a, init);
      ToolIdsOneMore(a, init, last);
    }
  }

  lemma ToolIdsOneMore<S>(a: Workflow<S>, init: Workflow<S>, last: Node<S>)
    requires ToolIds(a + init) == ToolIds(a) + ToolIds(init)
    ensures ToolIds(a + (init + [last])) == ToolIds(a) + ToolIds(init + [last])
  {
    ToolIdsSnoc(a + init, last);
    ToolIdsSnoc(init, last);
    Regroup(a, init, [last]);
    Regroup(ToolIds(a), ToolIds(init), NodeToolIds(last));
  }

  // ---------- Renaming on import ----------

  function Get(m: map<Id, Id>, id: Id): Id {
    if id in m then m[id] else id
  }

  function Renamed(m: map<Id, Id>, ids: seq<Id>): seq<Id> {
    seq(|ids|, i requires 0 <= i < |ids| => Get(m, ids[i]))
  }

  /** A rename never invents an id for a missing one and never loses one. */
  predicate Sane(m: map<Id, Id>) {
    "" !in m && forall id :: id in m ==> m[id] != ""
  }

  predicate Fixes(m: map<Id, Id>, ids: seq<Id>) {
    forall i :: 0 <= i < |ids| ==> Get(m, ids[i]) == ids[i]
  }

  /** A search node's ids, as far as renaming is concerned. */
  type Stored = Node<seq<Id>>

  function HandNode(node: Stored, m: map<Id, Id>): Stored {
    match node
    case ToolLib(id) => ToolLib(Get(m, id))
    case Search(_) => Search([])
    case AiChat(mcp, tools, skills, model) => AiChat(Renamed(m, mcp), Renamed(m, tools), Renamed(m, skills), model)
    case Mcp(id) => Mcp(Get(m, id))
    case ToolWorkflowLib(id) => ToolWorkflowLib(Get(m, id))
    case _ => node
  }

  function HandAll(nodes: seq<Stored>, m: map<Id, Id>): seq<Stored> {
    seq(|nodes|, i requires 0 <= i < |nodes| => HandNode(nodes[i], m))
  }

  /** The node itself and, for a loop, the nodes directly in its body. */
  function ResetNode(node: Stored, m: map<Id, Id>): Stored {
    match node
    case Loop(body) => Loop(HandAll(body, m))
    case _ => HandNode(node, m)
  }

  function Reset(nodes: seq<Stored>, m: map<Id, Id>): seq<Stored> {
    seq(|nodes|, i requires 0 <= i < |nodes| => ResetNode(nodes[i], m))
  }

  lemma HandAllSnoc(init: seq<Stored>, last: Stored, m: map<Id, Id>)
    ensures HandAll(init + [last], m) == HandAll(init, m) + [HandNode(last, m)]
  {
  }

  lemma ResetSnoc(init: seq<Stored>, last: Stored, m: map<Id, Id>)
    ensures Reset(init + [last], m) == Reset(init, m) + [ResetNode(last, m)]
  {
  }

  method ResetWorkflow(workflow: seq<Stored>, m: map<Id, Id>) returns (nodes: seq<Stored>)
    ensures nodes == Reset(workflow, m)
  {
    nodes := workflow;
    var i := 0;
    while i < |nodes|
      invariant 0 <= i <= |nodes| == |workflow|
      invariant forall k :: 0 <= k < |nodes| ==> nodes[k] == if k < i then ResetNode(workflow[k], m) else workflow[k]
    {
      nodes := nodes[i := HandNode(nodes[i], m)];
      if nodes[i].Loop? {
        var body := nodes[i].loopBody;
        var j := 0;
        while j < |body|
          invariant 0 <= j <= |body| == |workflow[i].loopBody|
          invariant forall k :: 0 <= k < |body| ==>
                                  body[k] == (if k < j then HandNode(workflow[i].loopBody[k], m)
                                              else workflow[i].loopBody[k])
        {
          body := body[j := HandNode(body[j], m)];
          j := j + 1;
        }
        assert body == HandAll(workflow[i].loopBody, m);
        nodes := nodes[i := Loop(body)];
      }
      i := i + 1;
    }
  }

  function LoopBody<S>(node: Node<S>): seq<Node<S>> {
    if node.Loop? then node.loopBody else []
  }

  /** The nodes directly in the bodies of these nodes. */
  function Inner<S>(nodes: seq<Node<S>>): seq<Node<S>> {
    if nodes == [] then [] else Inner(nodes[..|nodes| - 1]) + LoopBody(nodes[|nodes| - 1])
  }

  /** The nodes two loops deep, which `reset_workflow` never visits. */
  function Deep<S>(nodes: seq<Node<S>>): seq<Node<S>> {
    if nodes == [] then [] else Deep(nodes[..|nodes| - 1]) + Inner(LoopBody(nodes[|nodes| - 1]))
  }

  lemma ConcatEqual<T>(a: seq<T>, b: seq<T>, a': seq<T>, b': seq<T>)
    requires |a| == |a'|
    ensures a + b == a' + b' <==> a == a' && b == b'
  {
    assert (a + b)[..|a|] == a && (a' + b')[..|a'|] == a';
    assert (a + b)[|a|..] == b && (a' + b')[|a'|..] == b';
  }

  lemma RenamedConcat(m: map<Id, Id>, a: seq<Id>, b: seq<Id>)
    ensures Renamed(m, a + b) == Renamed(m, a) + Renamed(m, b)
    ensures Fixes(m, a + b) <==> Fixes(m, a) && Fixes(m, b)
  {
    forall i | 0 <= i < |b|
      ensures (a + b)[|a| + i] == b[i]
    {
    }
    if Fixes(m, a + b) {
      forall i | 0 <= i < |a|
        ensures Get(m, a[i]) == a[i]
      {
        assert (a + b)[i] == a[i];
      }
    }
  }

  lemma FixesIffUnchanged(m: map<Id, Id>, ids: seq<Id>)
    ensures Fixes(m, ids) <==> ids == Renamed(m, ids)
  {
    if ids == Renamed(m, ids) {
      forall i | 0 <= i < |ids|
        ensures Get(m, ids[i]) == ids[i]
      {
        assert Renamed(m, ids)[i] == Get(m, ids[i]);
      }
    }
  }

  lemma HandNodeRenames(node: Stored, m: map<Id, Id>)
    requires Sane(m)
    ensures NodeToolIds(HandNode(node, m)) == if node.Loop? then NodeToolIds(node) else Renamed(m, NodeToolIds(node))
  {
    match node {
      case AiChat(mcp, tools, skills, _) =>
        RenamedConcat(m, mcp, tools);
        RenamedConcat(m, mcp + tools, skills);
      case _ =>
    }
  }

  /** `now` is `before` renamed if and only if the rename leaves `fixed` alone. */
  predicate RenamedIff(m: map<Id, Id>, now: seq<Id>, before: seq<Id>, fixed: seq<Id>) {
    |now| == |before| && (now == Renamed(m, before) <==> Fixes(m, fixed))
  }

  lemma RenamesPiecewise(m: map<Id, Id>, a: seq<Id>, b: seq<Id>, c: seq<Id>, d: seq<Id>, x: seq<Id>, y: seq<Id>)
    requires RenamedIff(m, a, c, x) && RenamedIff(m, b, d, y)
    ensures RenamedIff(m, a + b, c + d, x + y)
  {
    RenamedConcat(m, c, d);
    ConcatEqual(a, b, Renamed(m, c), Renamed(m, d));
    RenamedConcat(m, x, y);
  }

  lemma HandNodeRenamesIff(node: Stored, m: map<Id, Id>)
    requires Sane(m)
    ensures RenamedIff(m, NodeToolIds(HandNode(node, m)), NodeToolIds(node), ToolIds(LoopBody(node)))
  {
    HandNodeRenames(node, m);
    FixesIffUnchanged(m, ToolIds(LoopBody(node)));
  }

  lemma {:induction false} HandAllRenames(nodes: seq<Stored>, m: map<Id, Id>)
    requires Sane(m)
    ensures RenamedIff(m, ToolIds(HandAll(nodes, m)), ToolIds(nodes), ToolIds(Inner(nodes)))
  {
    if nodes == [] {
      assert HandAll(nodes, m) == [] && Inner(nodes) == [];
    } else {
      var init, last := nodes[..|nodes| - 1], nodes[|nodes| - 1];
      HandAllRenames(init, m);
      HandNodeRenamesIff(last, m);
      HandAllSnoc(init, last, m);
      assert nodes == init + [last];
      ToolIdsSnoc(HandAll(init, m), HandNode(last, m));
      ToolIdsConcat(Inner(init), LoopBody(last));
      RenamesPiecewise(m, ToolIds(HandAll(init, m)), NodeToolIds(HandNode(last, m)), ToolIds(init), NodeToolIds(last),
                       ToolIds(Inner(init)), ToolIds(LoopBody(last)));
    }
  }

  lemma ResetNodeRenamesIff(node: Stored, m: map<Id, Id>)
    requires Sane(m)
    ensures RenamedIff(m, NodeToolIds(ResetNode(node, m)), NodeToolIds(node), ToolIds(Inner(LoopBody(node))))
  {
    if node.Loop? {
      HandAllRenames(node.loopBody, m);
    } else {
      HandNodeRenames(node, m);
    }
  }

  lemma {:induction false} ResetRenamed(nodes: seq<Stored>, m: map<Id, Id>)
    requires Sane(m)
    ensures RenamedIff(m, ToolIds(Reset(nodes, m)), ToolIds(nodes), ToolIds(Deep(nodes)))
  {
    if nodes == [] {
      assert Reset(nodes, m) == [] && Deep(nodes) == [];
    } else {
      var init, last := nodes[..|nodes| - 1], nodes[|nodes| - 1];
      ResetRenamed(init, m);
      ResetNodeRenamesIff(last, m);
      ResetSnoc(init, last, m);
      assert nodes == init + [last];
      ToolIdsSnoc(Reset(init, m), ResetNode(last, m));
      ToolIdsConcat(Deep(init), Inner(LoopBody(last)));
      RenamesPiecewise(m, ToolIds(Reset(init, m)), NodeToolIds(ResetNode(last, m)), ToolIds(init), NodeToolIds(last),
                       ToolIds(Deep(init)), ToolIds(Inner(LoopBody(last))));
    }
  }

  /** Each id of `now` is that of `before`, exchanged if the import exchanges it. */
  predicate Exchanged(m: map<Id, Id>, now: seq<Id>, before: seq<Id>) {
    && |now| == |before|
    && forall i :: 0 <= i < |before| ==> now[i] == if before[i] in m then m[before[i]] else before[i]
  }

  /** Importing renames what the workflow refers to, in order, if and only if
      every tool id two loops deep is one the import leaves alone. */
  lemma ResetRenamesIff(nodes: seq<Stored>, m: map<Id, Id>)
    requires Sane(m)
    ensures Exchanged(m, ToolIds(Reset(nodes, m)), ToolIds(nodes))
            <==> forall id :: id in ToolIds(Deep(nodes)) && id in m ==> m[id] == id
  {
    ResetRenamed(nodes, m);
    var now, before := ToolIds(Reset(nodes, m)), ToolIds(nodes);
    assert now == Renamed(m, before) <==> Exchanged(m, now, before) by {
      if Exchanged(m, now, before) {
        assert forall i :: 0 <= i < |now| ==> now[i] == Renamed(m, before)[i];
      }
    }
  }

  // ---------- Resources ----------

  datatype Kind = Tool | Model | Knowledge | App

  /** What a workflow refers to, as one row of the resource mapping table. */
  datatype Resource = Resource(kind: Kind, id: Id)

  function KindName(kind: Kind): string {
    match kind
    case Tool => "TOOL"
    case Model => "MODEL"
    case Knowledge => "KNOWLEDGE"
    case App => "APPLICATION"
  }

  /** The key under which a resource is stored once. */
  function KeyOf(r: Resource): string {
    KindName(r.kind) + r.id
  }

  /** No two resources share a key, because no type name is the beginning of another. */
  lemma KeysAreInjective(r: Resource, s: Resource)
    ensures KeyOf(r) == KeyOf(s) <==> r == s
  {
    if KeyOf(r) == KeyOf(s) {
      assert KindName(r.kind)[0] == KeyOf(r)[0] == KeyOf(s)[0] == KindName(s.kind)[0];
      var n := |KindName(r.kind)|;
      assert r.id == KeyOf(r)[n..] && s.id == KeyOf(s)[n..];
    }
  }

  function Resources(kind: Kind, ids: seq<Id>): seq<Resource> {
    if ids == [] then []
    else
      var last := ids[|ids| - 1];
      Resources(kind, ids[..|ids| - 1]) + if last == "" then [] else [Resource(kind, last)]
  }

  /** What the node handler says about one node, loops aside. */
  function Handled(node: Stored): seq<Resource> {
    match node
    case ToolLib(id) => Resources(Tool, [id])
    case ToolWorkflowLib(id) => Resources(Tool, [id])
    case Mcp(id) => Resources(Tool, [id])
    case AiChat(mcp, tools, skills, model) => Resources(Tool, mcp + tools + skills) + Resources(Model, [model])
    case ModelUser(id) => Resources(Model, [id])
    case Search(ids) => Resources(Knowledge, ids)
    case Application(id) => Resources(App, [id])
    case Loop(_) => []
    case Plain => []
  }

  /** The node itself refers to the thing. */
  predicate Names(node: Stored, r: Resource) {
    && r.id != ""
    && match r.kind
       case Tool =>
         || node == ToolLib(r.id) || node == ToolWorkflowLib(r.id) || node == Mcp(r.id)
         || (node.AiChat? && (r.id in node.mcpToolIds || r.id in node.toolIds || r.id in node.skillToolIds))
       case Model => node == ModelUser(r.id) || (node.AiChat? && node.modelId == r.id)
       case Knowledge => node.Search? && r.id in node.search
       case App => node == Application(r.id)
  }

  lemma {:induction false} ResourcesMembers(kind: Kind, ids: seq<Id>, r: Resource)
    ensures r in Resources(kind, ids) <==> r.kind == kind && r.id in ids && r.id != ""
  {
    if ids != [] {
      var init, last := ids[..|ids| - 1], ids[|ids| - 1];
      assert ids == init + [last];
      ResourcesMembers(kind, init, r);
    }
  }

  lemma OneMember(kind: Kind, id: Id, r: Resource)
    ensures r in Resources(kind, [id]) <==> r == Resource(kind, id) && id != ""
  {
    ResourcesMembers(kind, [id], r);
  }

  lemma ChatNames(node: Stored, r: Resource)
    requires node.AiChat?
    ensures r in Handled(node) <==> Names(node, r)
  {
    ResourcesMembers(Tool, node.mcpToolIds + node.toolIds + node.skillToolIds, r);
    OneMember(Model, node.modelId, r);
  }

  lemma SingleNames(node: Stored, r: Resource)
    requires IsSingle(node)
    ensures r in Handled(node) <==> Names(node, r)
  {
    OneMember(Single(node).kind, Single(node).id, r);
    assert Handled(node) == Resources(Single(node).kind, [Single(node).id]);
  }

  /** What the handler makes of a node is what the node refers to. */
  lemma HandledNames(node: Stored, r: Resource)
    ensures r in Handled(node) <==> Names(node, r)
  {
    if IsSingle(node) {
      SingleNames(node, r);
    } else if node.AiChat? {
      ChatNames(node, r);
    } else if node.Search? {
      ResourcesMembers(Knowledge, node.search, r);
    }
  }

  /** Every reference of a workflow, repeats included, depth first. */
  function References(w: seq<Stored>): seq<Resource>
    decreases w
  {
    if w == [] then [] else References(w[..|w| - 1]) + NodeReferences(w[|w| - 1])
  }

  function NodeReferences(node: Stored): seq<Resource>
    decreases node
  {
    if node.Loop? then References(node.loopBody) else Handled(node)
  }

  lemma {:induction false} ReferencesOfNodes(w: seq<Stored>, r: Resource)
    ensures r in References(w) <==> SomeRefers(w, r)
  {
    if w != [] {
      var init, last := w[..|w| - 1], w[|w| - 1];
      ReferencesOfNodes(init, r);
      assert References(w) == References(init) + NodeReferences(last);
      ReferredBySome(init, last, r);
      assert init + [last] == w;
    }
  }

  ghost predicate SomeRefers(w: seq<Stored>, r: Resource) {
    exists i :: 0 <= i < |w| && r in NodeReferences(w[i])
  }

  lemma ReferredBySome(init: seq<Stored>, last: Stored, r: Resource)
    ensures SomeRefers(init + [last], r) <==> SomeRefers(init, r) || r in NodeReferences(last)
  {
    var w := init + [last];
    assert w[|init|] == last;
    if SomeRefers(init, r) {
      var i :| 0 <= i < |init| && r in NodeReferences(init[i]);
      assert r in NodeReferences(w[i]);
    }
  }

  /** The node at this position: an index into the workflow, then into the loop body found there, and so on. */
  function NodeAt<S>(w: Workflow<S>, at: seq<nat>): Option<Node<S>>
    decreases |at|
  {
    if at == [] || at[0] >= |w| then None
    else if |at| == 1 then Some(w[at[0]])
    else if w[at[0]].Loop? then NodeAt(w[at[0]].loopBody, at[1..])
    else None
  }

  ghost predicate ReferredAt(w: seq<Stored>, at: seq<nat>, node: Stored, r: Resource) {
    NodeAt(w, at) == Some(node) && Names(node, r)
  }

  /** What a workflow refers to is exactly what the nodes at any loop depth refer to themselves. */
  lemma ReferencesAtAnyDepth(w: seq<Stored>, r: Resource)
    ensures r in References(w) <==> exists at, node :: ReferredAt(w, at, node, r)
  {
    if r in References(w) {
      var at, node := ReferencedBy(w, r);
    }
    if at, node :| ReferredAt(w, at, node, r) {
      StandingIsReferenced(w, at, node, r);
    }
  }

  lemma {:induction false} ReferencedBy(w: seq<Stored>, r: Resource) returns (at: seq<nat>, node: Stored)
    requires r in References(w)
    ensures ReferredAt(w, at, node, r)
    decreases w
  {
    ReferencesOfNodes(w, r);
    var i :| 0 <= i < |w| && r in NodeReferences(w[i]);
    if w[i].Loop? {
      var inner;
      inner, node := ReferencedBy(w[i].loopBody, r);
      at := [i] + inner;
      assert at[1..] == inner;
    } else {
      at, node := [i], w[i];
      HandledNames(node, r);
    }
  }

  lemma {:induction false} StandingIsReferenced(w: seq<Stored>, at: seq<nat>, node: Stored, r: Resource)
    requires ReferredAt(w, at, node, r)
    ensures r in References(w)
    decreases |at|
  {
    if |at| > 1 {
      StandingIsReferenced(w[at[0]].loopBody, at[1..], node, r);
    } else {
      HandledNames(node, r);
    }
    assert r in NodeReferences(w[at[0]]);
    ReferencesOfNodes(w, r);
  }

  /** The first appearance of each element. */
  function Firsts(s: seq<Resource>): seq<Resource> {
    if s == [] then []
    else
      var r, last := Firsts(s[..|s| - 1]), s[|s| - 1];
      if last in r then r else r + [last]
  }

  lemma {:induction false} FirstsAreOnce(s: seq<Resource>)
    ensures forall x :: x in Firsts(s) <==> x in s
    ensures forall i, j :: 0 <= i < j < |Firsts(s)| ==> Firsts(s)[i] != Firsts(s)[j]
  {
    if s != [] {
      FirstsAreOnce(s[..|s| - 1]);
      assert s == s[..|s| - 1] + [s[|s| - 1]];
    }
  }

  /** `x` stands in `s` with no `y` before it. */
  ghost predicate ComesFirst(s: seq<Resource>, x: Resource, y: Resource) {
    exists p :: 0 <= p < |s| && s[p] == x && y !in s[..p + 1]
  }

  lemma ComesFirstKept(init: seq<Resource>, last: Resource, x: Resource, y: Resource)
    requires ComesFirst(init, x, y)
    ensures ComesFirst(init + [last], x, y)
  {
    var p :| 0 <= p < |init| && init[p] == x && y !in init[..p + 1];
    assert (init + [last])[..p + 1] == init[..p + 1] && (init + [last])[p] == x;
  }

  lemma NewComesLast(init: seq<Resource>, last: Resource, x: Resource)
    requires x in init && last !in init
    ensures ComesFirst(init + [last], x, last)
  {
    var p :| 0 <= p < |init| && init[p] == x;
    assert (init + [last])[..p + 1] == init[..p + 1] && (init + [last])[p] == x;
  }

  /** They stand in the order in which they first appear. */
  lemma {:induction false} FirstsInOrder(s: seq<Resource>, i: nat, j: nat)
    requires i < j < |Firsts(s)|
    ensures ComesFirst(s, Firsts(s)[i], Firsts(s)[j])
  {
    var init, last := s[..|s| - 1], s[|s| - 1];
    assert s == init + [last];
    FirstsAreOnce(init);
    if j < |Firsts(init)| {
      FirstsInOrder(init, i, j);
      ComesFirstKept(init, last, Firsts(init)[i], Firsts(init)[j]);
    } else {
      assert Firsts(init)[i] in Firsts(init);
      NewComesLast(init, last, Firsts(init)[i]);
    }
  }

  lemma {:induction false} FirstsOfFirsts(a: seq<Resource>, b: seq<Resource>)
    ensures Firsts(a + Firsts(b)) == Firsts(a + b)
  {
    if b != [] {
      var init, last := b[..|b| - 1], b[|b| - 1];
      FirstsOfFirsts(a, init);
      FirstsAreOnce(init);
      FirstsAreOnce(a + init);
      FirstsAreOnce(a + Firsts(init));
      assert (a + b)[..|a + b| - 1] == a + init;
      if last in Firsts(init) {
        assert last in a + init;
      } else {
        assert Firsts(b) == Firsts(init) + [last];
        assert (a + Firsts(b))[..|a + Firsts(b)| - 1] == a + Firsts(init);
        assert last in a + Firsts(init) <==> last in a + init;
      }
    }
  }

  /** Python's `list({key(r): r for r in response}.values())`. */
  method Unique(response: seq<Resource>) returns (result: seq<Resource>)
    ensures result == Firsts(response)
  {
    var order: seq<string> := [];
    var items: map<string, Resource> := map[];
    var i := 0;
    while i < |response|
      invariant 0 <= i <= |response|
      invariant |order| == |Firsts(response[..i])|
      invariant forall k :: 0 <= k < |order| ==>
                              order[k] == KeyOf(Firsts(response[..i])[k]) && order[k] in items
                              && items[order[k]] == Firsts(response[..i])[k]
      invariant forall k :: k in items ==> k in order
    {
      var item := response[i];
      assert response[..i + 1][..i] == response[..i];
      forall k | 0 <= k < |order|
        ensures order[k] == KeyOf(item) <==> Firsts(response[..i])[k] == item
      {
        KeysAreInjective(item, Firsts(response[..i])[k]);
      }
      if KeyOf(item) !in items {
        assert item !in Firsts(response[..i]);
        order := order + [KeyOf(item)];
      } else {
        assert KeyOf(item) in order;
      }
      items := items[KeyOf(item) := item];
      i := i + 1;
    }
    assert response[..i] == response;
    result := seq(|order|, k requires 0 <= k < |order| && order[k] in items => items[order[k]]);
  }

  predicate Collected(response: seq<Resource>, w: seq<Stored>) {
    Firsts(response) == Firsts(References(w))
  }

  /** What one round of the loop over the nodes adds. */
  lemma AddsNode(response: seq<Resource>, w: seq<Stored>, node: Stored)
    requires Collected(response, w)
    ensures node.Loop? ==> Collected(response + Handled(node) + Firsts(References(node.loopBody)), w + [node])
    ensures !node.Loop? ==> Collected(response + Handled(node), w + [node])
  {
    assert (w + [node])[..|w|] == w;
    FirstsOfBoth(response, References(w), NodeReferences(node));
    if node.Loop? {
      assert response + Handled(node) == response;
      FirstsOfFirsts(response, References(node.loopBody));
    }
  }

  method GetWorkflowResource(workflow: seq<Stored>) returns (result: seq<Resource>)
    ensures result == Firsts(References(workflow))
    decreases workflow
  {
    var response: seq<Resource> := [];
    var i := 0;
    while i < |workflow|
      invariant 0 <= i <= |workflow|
      invariant Collected(response, workflow[..i])
    {
      assert workflow[..i + 1] == workflow[..i] + [workflow[i]];
      var node := workflow[i];
      AddsNode(response, workflow[..i], node);
      var rs := Handled(node);
      response := response + rs;
      if node.Loop? {
        var r := GetWorkflowResource(node.loopBody);
        response := response + r;
      }
      i := i + 1;
    }
    assert workflow[..i] == workflow;
    result := Unique(response);
  }

  /** Only the first appearances on the left matter. */
  lemma {:induction false} FirstsOfBoth(a: seq<Resource>, a': seq<Resource>, b: seq<Resource>)
    requires Firsts(a) == Firsts(a')
    ensures Firsts(a + b) == Firsts(a' + b)
  {
    if b == [] {
      assert a + b == a && a' + b == a';
    } else {
      FirstsOfBoth(a, a', b[..|b| - 1]);
      assert (a + b)[..|a + b| - 1] == a + b[..|b| - 1];
      assert (a' + b)[..|a' + b| - 1] == a' + b[..|b| - 1];
    }
  }

  // ---------- The two collectors agree ----------

  function IdsOf(kind: Kind, rs: seq<Resource>): seq<Id> {
    if rs == [] then []
    else
      var last := rs[|rs| - 1];
      IdsOf(kind, rs[..|rs| - 1]) + if last.kind == kind then [last.id] else []
  }

  function Present(ids: seq<Id>): seq<Id> {
    if ids == [] then [] else Present(ids[..|ids| - 1]) + One(ids[|ids| - 1])
  }

  lemma {:induction false} IdsOfConcat(kind: Kind, a: seq<Resource>, b: seq<Resource>)
    ensures IdsOf(kind, a + b) == IdsOf(kind, a) + IdsOf(kind, b)
  {
    if b == [] {
      assert a + b == a;
    } else {
      assert (a + b)[..|a + b| - 1] == a + b[..|b| - 1];
      IdsOfConcat(kind, a, b[..|b| - 1]);
    }
  }

  lemma {:induction false} PresentConcat(a: seq<Id>, b: seq<Id>)
    ensures Present(a + b) == Present(a) + Present(b)
  {
    if b == [] {
      assert a + b == a;
    } else {
      assert (a + b)[..|a + b| - 1] == a + b[..|b| - 1];
      PresentConcat(a, b[..|b| - 1]);
    }
  }

  lemma {:induction false} IdsOfResources(kind: Kind, k: Kind, ids: seq<Id>)
    ensures IdsOf(kind, Resources(k, ids)) == if kind == k then Present(ids) else []
  {
    if ids != [] {
      var init, last := ids[..|ids| - 1], ids[|ids| - 1];
      IdsOfResources(kind, k, init);
      IdsOfConcat(kind, Resources(k, init), if last == "" then [] else [Resource(k, last)]);
    }
  }

  /** A node that refers to one thing. */
  lemma OneResource(kind: Kind, k: Kind, id: Id)
    ensures IdsOf(kind, Resources(k, [id])) == if kind == k then One(id) else []
  {
    IdsOfResources(kind, k, [id]);
    assert Present([id]) == Present([]) + One(id);
  }

  lemma PresentOne(id: Id)
    ensures Present(One(id)) == One(id)
  {
    if id != "" { assert Present([id]) == Present([]) + One(id); }
  }

  predicate IsSingle(node: Stored) {
    node.ToolLib? || node.ToolWorkflowLib? || node.Mcp? || node.ModelUser? || node.Application?
  }

  /** The one thing that such a node may refer to. */
  function Single(node: Stored): Resource
    requires IsSingle(node)
  {
    match node
    case ToolLib(id) => Resource(Tool, id)
    case ToolWorkflowLib(id) => Resource(Tool, id)
    case Mcp(id) => Resource(Tool, id)
    case ModelUser(id) => Resource(Model, id)
    case Application(id) => Resource(App, id)
  }

  lemma SingleIds(kind: Kind, node: Stored)
    requires IsSingle(node)
    ensures IdsOf(kind, Handled(node)) == if kind == Single(node).kind then One(Single(node).id) else []
  {
    OneResource(kind, Single(node).kind, Single(node).id);
    assert Handled(node) == Resources(Single(node).kind, [Single(node).id]);
  }

  lemma SearchIds(kind: Kind, node: Stored)
    requires node.Search?
    ensures IdsOf(kind, Handled(node)) == if kind == Knowledge then Present(node.search) else []
  {
    IdsOfResources(kind, Knowledge, node.search);
  }

  lemma ChatIds(kind: Kind, node: Stored)
    requires node.AiChat?
    ensures IdsOf(kind, Handled(node))
            == if kind == Tool then Present(node.mcpToolIds + node.toolIds + node.skillToolIds)
               else if kind == Model then One(node.modelId) else []
  {
    var tools := node.mcpToolIds + node.toolIds + node.skillToolIds;
    IdsOfResources(kind, Tool, tools);
    OneResource(kind, Model, node.modelId);
    IdsOfConcat(kind, Resources(Tool, tools), Resources(Model, [node.modelId]));
  }

  lemma SingleTools(node: Stored)
    requires IsSingle(node)
    ensures Present(NodeToolIds(node)) == if Single(node).kind == Tool then One(Single(node).id) else []
  {
    PresentOne(Single(node).id);
  }

  lemma HandledTools(node: Stored)
    requires !node.Loop?
    ensures IdsOf(Tool, Handled(node)) == Present(NodeToolIds(node))
  {
    if IsSingle(node) {
      SingleIds(Tool, node);
      SingleTools(node);
    } else if node.AiChat? {
      ChatIds(Tool, node);
    } else if node.Search? {
      SearchIds(Tool, node);
    }
  }

  lemma HandledKnowledge(node: Stored)
    requires !node.Loop?
    ensures IdsOf(Knowledge, Handled(node)) == if node.Search? then Present(node.search) else []
  {
    if IsSingle(node) {
      SingleIds(Knowledge, node);
    } else if node.AiChat? {
      ChatIds(Knowledge, node);
    } else if node.Search? {
      SearchIds(Knowledge, node);
    }
  }

  /** At any depth, the tool ids collected for an export are the tools of the resource mapping, in the same order. */
  lemma {:induction false} ToolIdsAreToolReferences(w: seq<Stored>)
    ensures IdsOf(Tool, References(w)) == Present(ToolIds(w))
    decreases w
  {
    if w != [] {
      var init, last := w[..|w| - 1], w[|w| - 1];
      ToolIdsAreToolReferences(init);
      NodeToolsAreReferences(last);
      IdsOfConcat(Tool, References(init), NodeReferences(last));
      PresentConcat(ToolIds(init), NodeToolIds(last));
    }
  }

  lemma {:induction false} NodeToolsAreReferences(node: Stored)
    ensures IdsOf(Tool, NodeReferences(node)) == Present(NodeToolIds(node))
    decreases node
  {
    if node.Loop? {
      ToolIdsAreToolReferences(node.loopBody);
    } else {
      HandledTools(node);
    }
  }

  function KnowledgeIds(w: seq<Stored>): seq<Id> {
    IdsOf(Knowledge, References(w))
  }

  lemma KnowledgeIdsOfLast(init: seq<Stored>, node: Stored)
    ensures KnowledgeIds(init + [node]) == KnowledgeIds(init) + IdsOf(Knowledge, NodeReferences(node))
  {
    assert (init + [node])[..|init|] == init;
    IdsOfConcat(Knowledge, References(init), NodeReferences(node));
  }

  lemma {:induction false} KnowledgeIdsConcat(a: seq<Stored>, b: seq<Stored>)
    ensures KnowledgeIds(a + b) == KnowledgeIds(a) + KnowledgeIds(b)
  {
    if b == [] {
      assert a + b == a;
    } else {
      var init, last := b[..|b| - 1], b[|b| - 1];
      assert a + b == (a + init) + [last] && b == init + [last];
      KnowledgeIdsConcat(a, init);
      KnowledgeIdsOfLast(a + init, last);
      KnowledgeIdsOfLast(init, last);
    }
  }

  lemma HandNodeForgets(node: Stored, m: map<Id, Id>)
    ensures IdsOf(Knowledge, NodeReferences(HandNode(node, m)))
            == KnowledgeIds(LoopBody(node))
  {
    if !node.Loop? {
      HandledKnowledge(HandNode(node, m));
    }
  }

  lemma KnowledgePiecewise(init: seq<Stored>, node: Stored, a: seq<Stored>, b: seq<Stored>)
    requires KnowledgeIds(init) == KnowledgeIds(a) && IdsOf(Knowledge, NodeReferences(node)) == KnowledgeIds(b)
    ensures KnowledgeIds(init + [node]) == KnowledgeIds(a + b)
  {
    KnowledgeIdsOfLast(init, node);
    KnowledgeIdsConcat(a, b);
  }

  lemma {:induction false} HandAllForgets(nodes: seq<Stored>, m: map<Id, Id>)
    ensures KnowledgeIds(HandAll(nodes, m)) == KnowledgeIds(Inner(nodes))
  {
    if nodes == [] {
      assert HandAll(nodes, m) == [] && Inner(nodes) == [];
    } else {
      var init, last := nodes[..|nodes| - 1], nodes[|nodes| - 1];
      assert nodes == init + [last];
      HandAllForgets(init, m);
      HandAllForgetsSnoc(init, last, m);
    }
  }

  lemma HandAllForgetsSnoc(init: seq<Stored>, last: Stored, m: map<Id, Id>)
    requires KnowledgeIds(HandAll(init, m)) == KnowledgeIds(Inner(init))
    ensures KnowledgeIds(HandAll(init + [last], m)) == KnowledgeIds(Inner(init + [last]))
  {
    HandNodeForgets(last, m);
    HandAllSnoc(init, last, m);
    KnowledgePiecewise(HandAll(init, m), HandNode(last, m), Inner(init), LoopBody(last));
    assert (init + [last])[..|init|] == init;
  }

  lemma ResetNodeForgets(node: Stored, m: map<Id, Id>)
    ensures IdsOf(Knowledge, NodeReferences(ResetNode(node, m))) == KnowledgeIds(Inner(LoopBody(node)))
  {
    if node.Loop? {
      HandAllForgets(node.loopBody, m);
    } else {
      HandNodeForgets(node, m);
    }
  }

  ghost predicate Forgets(nodes: seq<Stored>, m: map<Id, Id>) {
    KnowledgeIds(Reset(nodes, m)) == KnowledgeIds(Deep(nodes))
  }

  lemma ForgetsNothing(m: map<Id, Id>)
    ensures Forgets([], m)
  {
  }

  lemma ForgetsOneMore(init: seq<Stored>, last: Stored, m: map<Id, Id>)
    requires Forgets(init, m)
    ensures Forgets(init + [last], m)
  {
    ResetNodeForgets(last, m);
    ResetSnoc(init, last, m);
    KnowledgePiecewise(Reset(init, m), ResetNode(last, m), Deep(init), Inner(LoopBody(last)));
    assert (init + [last])[..|init|] == init;
  }

  lemma {:induction false} ForgetsAll(nodes: seq<Stored>, m: map<Id, Id>)
    ensures Forgets(nodes, m)
  {
    if nodes == [] {
      ForgetsNothing(m);
    } else {
      var init, last := nodes[..|nodes| - 1], nodes[|nodes| - 1];
      assert nodes == init + [last];
      ForgetsAll(init, m);
      ForgetsOneMore(init, last, m);
    }
  }

  /** An imported workflow keeps exactly the knowledge ids two loops deep. */
  lemma ResetForgetsKnowledge(nodes: seq<Stored>, m: map<Id, Id>)
    ensures KnowledgeIds(Reset(nodes, m)) == KnowledgeIds(Deep(nodes))
  {
    ForgetsAll(nodes, m);
  }

  // ---------- Which ids are collected ----------

  /** The node itself uses the tool. */
  predicate Uses<S>(node: Node<S>, id: Id) {
    match node
    case ToolLib(toolId) => toolId == id && id != ""
    case ToolWorkflowLib(toolId) => toolId == id && id != ""
    case Mcp(toolId) => toolId == id && id != ""
    case AiChat(mcp, tools, skills, _) => id in mcp || id in tools || id in skills
    case _ => false
  }

  ghost predicate UsedAt<S>(w: Workflow<S>, at: seq<nat>, id: Id) {
    NodeAt(w, at).Some? && Uses(NodeAt(w, at).value, id)
  }

  ghost predicate UsedUnder<S>(node: Node<S>, rest: seq<nat>, id: Id) {
    if rest == [] then Uses(node, id) else node.Loop? && UsedAt(node.loopBody, rest, id)
  }

  lemma UsedFirst<S>(w: Workflow<S>, at: seq<nat>, id: Id)
    ensures UsedAt(w, at, id) <==> at != [] && at[0] < |w| && UsedUnder(w[at[0]], at[1..], id)
  {
  }

  /** A tool id is collected if and only if a node at some loop depth uses it. */
  lemma {:induction false} CollectedAtAnyDepth<S>(w: Workflow<S>, id: Id)
    ensures id in ToolIds(w) <==> exists at :: UsedAt(w, at, id)
    decreases w
  {
    if w != [] {
      var n := |w| - 1;
      var init := w[..n];
      CollectedAtAnyDepth(init, id);
      CollectedUnder(w[n], id);
      if at :| UsedAt(init, at, id) {
        UsedFirst(init, at, id);
        UsedFirst(w, at, id);
      }
      if rest :| UsedUnder(w[n], rest, id) {
        assert ([n] + rest)[1..] == rest;
        UsedFirst(w, [n] + rest, id);
      }
      if at :| UsedAt(w, at, id) {
        UsedFirst(w, at, id);
        UsedFirst(init, at, id);
      }
    }
  }

  lemma {:induction false} CollectedUnder<S>(node: Node<S>, id: Id)
    ensures id in NodeToolIds(node) <==> exists rest :: UsedUnder(node, rest, id)
    decreases node
  {
    if node.Loop? {
      CollectedAtAnyDepth(node.loopBody, id);
      if at :| UsedAt(node.loopBody, at, id) {
        assert at != [] && UsedUnder(node, at, id);
      }
      if rest :| UsedUnder(node, rest, id) {
        assert rest != [] && UsedAt(node.loopBody, rest, id);
      }
    } else {
      assert UsedUnder(node, [], id) <==> Uses(node, id);
    }
  }

  // ---------- What an import leaves alone ----------

  predicate SameKind(a: Stored, b: Stored) {
    match a
    case ToolLib(_) => b.ToolLib?
    case ToolWorkflowLib(_) => b.ToolWorkflowLib?
    case AiChat(_, _, _, _) => b.AiChat?
    case Mcp(_) => b.Mcp?
    case ModelUser(_) => b.ModelUser?
    case Search(_) => b.Search?
    case Application(_) => b.Application?
    case Loop(_) => b.Loop?
    case Plain => b.Plain?
  }

  /** At every position there stands a node of the same kind as before, and two loops deep the same node. */
  lemma ResetKeepsShape(nodes: seq<Stored>, m: map<Id, Id>, at: seq<nat>)
    ensures var now, before := NodeAt(Reset(nodes, m), at), NodeAt(nodes, at);
            if before.None? then now.None?
            else now.Some? && SameKind(before.value, now.value) && (|at| > 2 ==> now == before)
  {
    if at != [] && at[0] < |nodes| && |at| > 1 && nodes[at[0]].Loop? {
      HandAllKeepsShape(nodes[at[0]].loopBody, m, at[1..]);
    }
  }

  lemma HandAllKeepsShape(nodes: seq<Stored>, m: map<Id, Id>, at: seq<nat>)
    ensures var now, before := NodeAt(HandAll(nodes, m), at), NodeAt(nodes, at);
            if before.None? then now.None?
            else now.Some? && SameKind(before.value, now.value) && (|at| > 1 ==> now == before)
  {
  }

  lemma HandNodeKeeps(kind: Kind, node: Stored, m: map<Id, Id>)
    requires kind == Model || kind == App
    ensures IdsOf(kind, NodeReferences(HandNode(node, m))) == IdsOf(kind, NodeReferences(node))
  {
    var handed := HandNode(node, m);
    if IsSingle(node) {
      SingleIds(kind, node);
      SingleIds(kind, handed);
    } else if node.AiChat? {
      ChatIds(kind, node);
      ChatIds(kind, handed);
    } else if node.Search? {
      SearchIds(kind, node);
      SearchIds(kind, handed);
    }
  }

  lemma {:induction false} KeptPointwise(kind: Kind, a: seq<Stored>, b: seq<Stored>)
    requires |a| == |b|
    requires forall i :: 0 <= i < |a| ==> IdsOf(kind, NodeReferences(a[i])) == IdsOf(kind, NodeReferences(b[i]))
    ensures IdsOf(kind, References(a)) == IdsOf(kind, References(b))
  {
    if a != [] {
      var n := |a| - 1;
      KeptPointwise(kind, a[..n], b[..n]);
      IdsOfConcat(kind, References(a[..n]), NodeReferences(a[n]));
      IdsOfConcat(kind, References(b[..n]), NodeReferences(b[n]));
    }
  }

  lemma HandAllKeeps(kind: Kind, nodes: seq<Stored>, m: map<Id, Id>)
    requires kind == Model || kind == App
    ensures IdsOf(kind, References(HandAll(nodes, m))) == IdsOf(kind, References(nodes))
  {
    forall i | 0 <= i < |nodes|
      ensures IdsOf(kind, NodeReferences(HandAll(nodes, m)[i])) == IdsOf(kind, NodeReferences(nodes[i]))
    {
      HandNodeKeeps(kind, nodes[i], m);
    }
    KeptPointwise(kind, HandAll(nodes, m), nodes);
  }

  /** An import leaves the models and the applications that the workflow refers to alone, in order. */
  lemma ResetKeepsModelsAndApps(kind: Kind, nodes: seq<Stored>, m: map<Id, Id>)
    requires kind == Model || kind == App
    ensures IdsOf(kind, References(Reset(nodes, m))) == IdsOf(kind, References(nodes))
  {
    forall i | 0 <= i < |nodes|
      ensures IdsOf(kind, NodeReferences(Reset(nodes, m)[i])) == IdsOf(kind, NodeReferences(nodes[i]))
    {
      if nodes[i].Loop? { HandAllKeeps(kind, nodes[i].loopBody, m); } else { HandNodeKeeps(kind, nodes[i], m); }
    }
    KeptPointwise(kind, Reset(nodes, m), nodes);
  }
}
