/**
 The sequential state of a run that outlives it: the executed nodes in order, the details stored
 for them when a form interrupts the run, and the context rebuilt from those details on resume.
 */
module WorkflowState {
  import opened Wrappers
  import opened Workflow
  import opened Engine

  datatype Node = Node(id: string, up: seq<string>)

  function IdOf(n: Node): RuntimeId {
    RuntimeIdOf(n.up, n.id)
  }

  datatype Details = Details(index: nat, nodeId: string, up: seq<string>, runtimeId: RuntimeId)

  type Store = map<RuntimeId, Details>

  function Ids(context: seq<Node>): seq<RuntimeId> {
    seq(|context|, i requires 0 <= i < |context| => IdOf(context[i]))
  }

  ghost predicate DistinctIds(context: seq<Node>) {
    forall j, k :: 0 <= j < k < |context| ==> IdOf(context[j]) != IdOf(context[k])
  }

  ghost predicate HasId(context: seq<Node>, id: RuntimeId) {
    exists k :: 0 <= k < |context| && IdOf(context[k]) == id
  }

  predicate Records(d: Details, n: Node, k: nat) {
    d.index == k && d.nodeId == n.id && d.runtimeId == IdOf(n) == RuntimeIdOf(d.up, d.nodeId)
  }

  /** The store describes exactly these nodes, and each index is the node's position. */
  ghost predicate Describes(store: Store, context: seq<Node>) {
    && (forall k :: 0 <= k < |context| ==> IdOf(context[k]) in store && Records(store[IdOf(context[k])], context[k], k))
    && (forall id :: id in store ==> HasId(context, id))
  }

  ghost predicate DescribesPrefix(store: Store, context: seq<Node>) {
    exists k :: 0 <= k <= |context| && Describes(store, context[..k])
  }

  /** The details in the order `sorted` gives them: each once, indexes ascending. */
  ghost predicate SortedListing(listing: seq<Details>, store: Store) {
    && (forall id :: id in store ==> store[id] in listing)
    && (forall k :: 0 <= k < |listing| ==> listing[k].runtimeId in store && store[listing[k].runtimeId] == listing[k])
    && (forall j, k :: 0 <= j < k < |listing| ==> listing[j].runtimeId != listing[k].runtimeId)
    && (forall j, k :: 0 <= j < k < |listing| ==> listing[j].index <= listing[k].index)
  }

  /** What `append_node` makes of the context: the entry with the same runtime id is replaced in place. */
  function Appended(context: seq<Node>, n: Node): seq<Node> {
    if context == [] then [n]
    else if IdOf(context[0]) == IdOf(n) then [n] + context[1..]
    else [context[0]] + Appended(context[1..], n)
  }

  lemma {:induction false} AppendedAt(context: seq<Node>, n: Node, k: nat)
    requires k <= |context| && (forall j :: 0 <= j < k ==> IdOf(context[j]) != IdOf(n))
    requires k < |context| ==> IdOf(context[k]) == IdOf(n)
    ensures Appended(context, n) == if k < |context| then context[k := n] else context + [n]
  {
    if k == 0 {
      if context != [] { assert [n] + context[1..] == context[0 := n]; }
    } else {
      var first, rest := context[0], context[1..];
      assert context == [first] + rest;
      AppendedAt(rest, n, k - 1);
      assert [first] + (rest + [n]) == context + [n];
      if k < |context| { assert [first] + rest[k - 1 := n] == context[k := n]; }
    }
  }

  // ---------- What a run keeps, stores and restores ----------

  /** The executed nodes; the details of the interrupted run; the node the run was resumed at. */
  datatype Run = Run(context: seq<Node>, record: Option<Store>, start: Option<RuntimeId>)

  /** The node keeps the details it had when the run was interrupted. */
  predicate IsRestored(r: Run, n: Node) {
    r.record.Some? && r.start.Some? && IdOf(n) in r.record.value && IdOf(n) != r.start.value
  }

  function DetailsOf(r: Run, n: Node, k: nat): Details {
    if IsRestored(r, n) then r.record.value[IdOf(n)] else Details(k, n.id, n.up, IdOf(n))
  }

  /** The ancestor list that is stored for the node. */
  function StoredUp(r: Run, n: Node): seq<string> {
    if IsRestored(r, n) then r.record.value[IdOf(n)].up else n.up
  }

  /** The details of the first `k` nodes. */
  function StoreOf(r: Run, k: nat): Store
    requires k <= |r.context|
  {
    if k == 0 then map[] else StoreOf(r, k - 1)[IdOf(r.context[k - 1]) := DetailsOf(r, r.context[k - 1], k - 1)]
  }

  lemma {:induction false} StoreOfAt(r: Run, k: nat, j: nat)
    requires DistinctIds(r.context) && j < k <= |r.context|
    ensures IdOf(r.context[j]) in StoreOf(r, k) && StoreOf(r, k)[IdOf(r.context[j])] == DetailsOf(r, r.context[j], j)
  {
    if j < k - 1 {
      StoreOfAt(r, k - 1, j);
    }
  }

  /** Each node's details are stored under its id: those of the record if it is restored, else its own. */
  lemma StoreHoldsDetails(r: Run)
    requires DistinctIds(r.context)
    ensures forall k :: 0 <= k < |r.context| ==> IdOf(r.context[k]) in StoreOf(r, |r.context|)
    ensures forall k :: 0 <= k < |r.context| ==>
              StoreOf(r, |r.context|)[IdOf(r.context[k])] == DetailsOf(r, r.context[k], k)
  {
    forall k | 0 <= k < |r.context|
      ensures IdOf(r.context[k]) in StoreOf(r, |r.context|)
              && StoreOf(r, |r.context|)[IdOf(r.context[k])] == DetailsOf(r, r.context[k], k)
    {
      StoreOfAt(r, |r.context|, k);
    }
  }

  function Restored(r: Run): seq<Node> {
    seq(|r.context|, k requires 0 <= k < |r.context| => Node(r.context[k].id, StoredUp(r, r.context[k])))
  }

  lemma LoadedIsRestored(r: Run, details: Store, loaded: seq<Node>)
    requires |loaded| == |r.context|
    requires forall k :: 0 <= k < |r.context| ==> IdOf(r.context[k]) in details
    requires forall k :: 0 <= k < |r.context| ==> details[IdOf(r.context[k])] == DetailsOf(r, r.context[k], k)
    requires forall k :: 0 <= k < |r.context| ==>
               loaded[k].id == r.context[k].id && loaded[k].up == details[IdOf(r.context[k])].up
    ensures loaded == Restored(r)
  {
    forall k | 0 <= k < |r.context|
      ensures loaded[k] == Restored(r)[k]
    {
      assert details[IdOf(r.context[k])] == DetailsOf(r, r.context[k], k);
    }
  }

  /** The rebuilt run has a start node only if the details hold one by that id. */
  function Resume(r: Run, startNodeId: RuntimeId): Run {
    var store := StoreOf(r, |r.context|);
    Run(Restored(r), Some(store), if startNodeId in store then Some(startNodeId) else None)
  }

  class WorkflowManage {
    var nodeContext: seq<Node>
    var record: Option<Store>          // `chat_record.details` of the interrupted run
    var startNode: Option<RuntimeId>   // the node the run resumes at, if its details were found

    /** Runtime ids are distinct, and the stored details sit at the positions they recorded. */
    ghost predicate Valid()
      reads this
    {
      && DistinctIds(nodeContext)
      && (record.Some? ==> DescribesPrefix(record.value, nodeContext))
    }

    function State(): Run
      reads this
    {
      Run(nodeContext, record, startNode)
    }

    constructor ()
      ensures Valid() && State() == NewRun
    {
      nodeContext, record, startNode := [], None, None;
    }

    method AppendNode(n: Node)
      requires Valid()
      modifies this`nodeContext
      ensures nodeContext == Appended(old(nodeContext), n)
      ensures Valid()
      ensures Ids(old(nodeContext)) <= Ids(nodeContext)
    {
      var index := 0;
      while index < |nodeContext|
        invariant 0 <= index <= |nodeContext|
        invariant nodeContext == old(nodeContext)
        invariant forall j :: 0 <= j < index ==> IdOf(nodeContext[j]) != IdOf(n)
      {
        if IdOf(nodeContext[index]) == IdOf(n) {
          AppendedAt(nodeContext, n, index);
          nodeContext := nodeContext[index := n];
          ReplacedStaysValid(old(nodeContext), n, index, record);
          return;
        }
        index := index + 1;
      }
      AppendedAt(nodeContext, n, index);
      nodeContext := nodeContext + [n];
      if record.Some? {
        ghost var k :| 0 <= k <= |old(nodeContext)| && Describes(record.value, old(nodeContext)[..k]);
        assert nodeContext[..k] == old(nodeContext)[..k];
      }
    }

    /** The details of the run, in which nodes restored from the record keep the details they had. */
    method GetRuntimeDetails() returns (result: Store)
      requires Valid()
      ensures result == StoreOf(State(), |nodeContext|) && Describes(result, nodeContext)
      ensures forall k :: 0 <= k < |nodeContext| ==>
                result[IdOf(nodeContext[k])] == DetailsOf(State(), nodeContext[k], k)
    {
      result := map[];
      var index := 0;
      while index < |nodeContext|
        invariant 0 <= index <= |nodeContext|
        invariant result == StoreOf(State(), index) && Describes(result, nodeContext[..index])
      {
        var node := nodeContext[index];
        var id := IdOf(node);
        var d := Details(index, node.id, node.up, id);
        if record.Some? && startNode.Some? && id in record.value && id != startNode.value {
          d := record.value[id];
        }
        StoresOneMore(State(), index);
        result := result[id := d];
        index := index + 1;
      }
      assert nodeContext[..index] == nodeContext;
      StoreHoldsDetails(State());
    }

    /** Rebuilds the context from stored details, taken in the order of their indexes. */
    method LoadNode(details: Store, startNodeId: RuntimeId, ghost context: seq<Node>)
      requires DistinctIds(context) && Describes(details, context)
      modifies this
      ensures Valid() && record == Some(details)
      ensures startNode == if startNodeId in details then Some(startNodeId) else None
      ensures Ids(nodeContext) == Ids(context)
      ensures |nodeContext| == |context| && forall k :: 0 <= k < |context| ==>
                (nodeContext[k].id == context[k].id && nodeContext[k].up == details[IdOf(context[k])].up)
    {
      StoredUnderTheirIds(details, context);
      var listing := SortedByIndex(details);
      ListingIsContextOrder(details, context, listing);
      var loaded := NodesOf(listing);
      LoadedDescribed(details, context, loaded);
      WholeIsPrefix(details, loaded);
      record, startNode, nodeContext := Some(details), None, loaded;
      if startNodeId in details {
        startNode := Some(startNodeId);
      }
    }

    /** One interruption: the details are stored, and a later request rebuilds the run from them. */
    method StoreAndLoad(startNodeId: RuntimeId)
      requires Valid()
      modifies this
      ensures Valid() && State() == Resume(old(State()), startNodeId)
      ensures Ids(nodeContext) == Ids(old(nodeContext))
    {
      ghost var before := State();
      var details := GetRuntimeDetails();
      LoadNode(details, startNodeId, nodeContext);
      LoadedIsRestored(before, details, nodeContext);
    }

    /** However often the run is interrupted, stored and resumed between nodes, it is what the moves make of it:
        its nodes stand in the order of the uninterrupted run, and every stored index is the node's position. */
    method Replay(moves: seq<Move>) returns (details: Store)
      requires Valid()
      modifies this
      ensures Valid() && State() == RunAfter(old(State()), moves)
      ensures Ids(nodeContext) == IdsAfter(Ids(old(nodeContext)), moves)
      ensures Describes(details, nodeContext) && details == StoreOf(State(), |nodeContext|)
    {
      for k := 0 to |moves|
        invariant Valid() && State() == RunAfter(old(State()), moves[..k])
        invariant Ids(nodeContext) == IdsAfter(Ids(old(nodeContext)), moves[..k])
      {
        assert moves[..k + 1][..k] == moves[..k];
        match moves[k] {
          case Ran(n) =>
            AppendedIds(nodeContext, n);
            AppendNode(n);
          case Resumed(startNodeId) => StoreAndLoad(startNodeId);
        }
      }
      assert moves[..|moves|] == moves;
      details := GetRuntimeDetails();
    }
  }

  datatype Move = Ran(n: Node) | Resumed(startNodeId: RuntimeId)

  /** The runtime ids of an uninterrupted run, each where it first appeared. */
  function IdsAfter(ids: seq<RuntimeId>, moves: seq<Move>): seq<RuntimeId> {
    if moves == [] then ids
    else
      var before, last := IdsAfter(ids, moves[..|moves| - 1]), moves[|moves| - 1];
      if last.Ran? then IdsWith(before, IdOf(last.n)) else before
  }

  function RunAfter(r: Run, moves: seq<Move>): Run {
    if moves == [] then r
    else
      var before, last := RunAfter(r, moves[..|moves| - 1]), moves[|moves| - 1];
      match last
      case Ran(n) => before.(context := Appended(before.context, n))
      case Resumed(startNodeId) => Resume(before, startNodeId)
  }

  /** The context of the run without its interruptions. */
  function Uninterrupted(context: seq<Node>, moves: seq<Move>): seq<Node> {
    if moves == [] then context
    else
      var before, last := Uninterrupted(context, moves[..|moves| - 1]), moves[|moves| - 1];
      if last.Ran? then Appended(before, last.n) else before
  }

  // ---------- When the ancestor lists survive ----------

  /** One interruption gives back every node if and only if the record's ancestor lists are still the nodes'. */
  lemma RestoredIsContextIff(r: Run)
    ensures Restored(r) == r.context
            <==> forall k :: 0 <= k < |r.context| && IsRestored(r, r.context[k]) ==>
                   r.record.value[IdOf(r.context[k])].up == r.context[k].up
  {
    if forall k :: 0 <= k < |r.context| && IsRestored(r, r.context[k]) ==>
         r.record.value[IdOf(r.context[k])].up == r.context[k].up {
      assert forall k :: 0 <= k < |r.context| ==> Restored(r)[k] == r.context[k];
    } else {
      var k :| 0 <= k < |r.context| && IsRestored(r, r.context[k])
               && r.record.value[IdOf(r.context[k])].up != r.context[k].up;
      assert Restored(r)[k] != r.context[k];
    }
  }

  const NewRun := Run([], None, None)

  /** The ancestor list of the last node with this runtime id that ran. */
  function LastUp(moves: seq<Move>, id: RuntimeId): Option<seq<string>> {
    if moves == [] then None
    else
      var last := moves[|moves| - 1];
      if last.Ran? && IdOf(last.n) == id then Some(last.n.up) else LastUp(moves[..|moves| - 1], id)
  }

  /** After these moves the run goes on from the interruption at `p`. */
  predicate ResumedAt(moves: seq<Move>, p: nat) {
    p < |moves| && moves[p].Resumed? && forall q :: p < q < |moves| ==> moves[q].Ran?
  }

  /** Since the last interruption, if any, no node that was stored at it has come back with its ancestors in another
      order, to stay; the node resumed at does not count, and nothing does if that node was not stored. */
  ghost predicate OrderKept(moves: seq<Move>) {
    forall p: nat, id :: ResumedAt(moves, p) && LastUp(moves[..p], moves[p].startNodeId).Some?
                    && id != moves[p].startNodeId && LastUp(moves[..p], id).Some?
                    ==> LastUp(moves, id) == LastUp(moves[..p], id)
  }

  /** Every interruption comes while the order is kept. */
  ghost predicate KeepsOrder(moves: seq<Move>) {
    forall k :: 0 <= k < |moves| && moves[k].Resumed? ==> OrderKept(moves[..k])
  }

  /** The run has the nodes it would have without its interruptions. */
  ghost predicate InStep(moves: seq<Move>) {
    RunAfter(NewRun, moves).context == Uninterrupted([], moves)
  }

  /** It has them at every moment. */
  ghost predicate LeavesNoTrace(moves: seq<Move>) {
    forall k :: 0 <= k <= |moves| ==> InStep(moves[..k])
  }

  function UpIn(context: seq<Node>, id: RuntimeId): Option<seq<string>> {
    if context == [] then None else if IdOf(context[0]) == id then Some(context[0].up) else UpIn(context[1..], id)
  }

  lemma {:induction false} UpInAppended(context: seq<Node>, n: Node, id: RuntimeId)
    ensures UpIn(Appended(context, n), id) == if id == IdOf(n) then Some(n.up) else UpIn(context, id)
  {
    if context != [] {
      UpInAppended(context[1..], n, id);
      assert ([n] + context[1..])[1..] == context[1..];
      assert ([context[0]] + Appended(context[1..], n))[1..] == Appended(context[1..], n);
    }
  }

  lemma {:induction false} UninterruptedUps(moves: seq<Move>, id: RuntimeId)
    ensures UpIn(Uninterrupted([], moves), id) == LastUp(moves, id)
  {
    if moves != [] {
      var init, last := moves[..|moves| - 1], moves[|moves| - 1];
      UninterruptedUps(init, id);
      if last.Ran? { UpInAppended(Uninterrupted([], init), last.n, id); }
    }
  }

  /** Where runtime ids are distinct, the list under an id is that of the node with the id. */
  lemma {:induction false} UpInAt(context: seq<Node>, k: nat)
    requires DistinctIds(context) && k < |context|
    ensures UpIn(context, IdOf(context[k])) == Some(context[k].up)
  {
    if k > 0 {
      assert IdOf(context[0]) != IdOf(context[k]);
      UpInAt(context[1..], k - 1);
    }
  }

  lemma {:induction false} UpInSome(context: seq<Node>, id: RuntimeId) returns (k: nat)
    requires UpIn(context, id).Some?
    ensures k < |context| && IdOf(context[k]) == id
  {
    if IdOf(context[0]) == id {
      k := 0;
    } else {
      k := UpInSome(context[1..], id);
      k := k + 1;
    }
  }

  lemma {:induction false} LastUpStays(moves: seq<Move>, p: nat, id: RuntimeId)
    requires p <= |moves| && LastUp(moves[..p], id).Some?
    ensures LastUp(moves, id).Some?
  {
    if p == |moves| {
      assert moves[..p] == moves;
    } else {
      assert moves[..|moves| - 1][..p] == moves[..p];
      LastUpStays(moves[..|moves| - 1], p, id);
    }
  }

  /** The record holds what had run by the interruption at `p`, and the start node is one of them or none. */
  ghost predicate Remembers(r: Run, moves: seq<Move>, p: nat)
    requires ResumedAt(moves, p)
  {
    && r.record.Some?
    && r.start == (if LastUp(moves[..p], moves[p].startNodeId).Some? then Some(moves[p].startNodeId) else None)
    && forall id :: (if id in r.record.value then Some(r.record.value[id].up) else None) == LastUp(moves[..p], id)
  }

  ghost predicate Tracks(r: Run, moves: seq<Move>) {
    && r.context == Uninterrupted([], moves) && DistinctIds(r.context)
    && (forall p: nat :: ResumedAt(moves, p) ==> Remembers(r, moves, p))
    && (r.record.Some? ==> exists p: nat :: ResumedAt(moves, p))
  }

  lemma AppendedDistinct(context: seq<Node>, n: Node)
    requires DistinctIds(context)
    ensures DistinctIds(Appended(context, n))
  {
    AppendedIds(context, n);
    var after := Appended(context, n);
    forall j, k | 0 <= j < k < |after|
      ensures IdOf(after[j]) != IdOf(after[k])
    {
      assert Ids(after)[j] == IdOf(after[j]) && Ids(after)[k] == IdOf(after[k]);
      assert IdOf(n) !in Ids(context) && k == |context| ==> Ids(context)[j] != IdOf(n);
    }
  }

  lemma TracksRan(r: Run, moves: seq<Move>, n: Node)
    requires Tracks(r, moves)
    ensures Tracks(r.(context := Appended(r.context, n)), moves + [Ran(n)])
  {
    var after := moves + [Ran(n)];
    assert after[..|moves|] == moves;
    AppendedDistinct(r.context, n);
    forall p: nat
      ensures ResumedAt(after, p) <==> ResumedAt(moves, p)
    {
      assert p < |moves| ==> after[p] == moves[p];
      assert ResumedAt(moves, p) ==> forall q :: p < q < |after| ==> after[q].Ran?;
      assert ResumedAt(after, p) ==> forall q :: p < q < |moves| ==> moves[q] == after[q];
    }
    forall p: nat | ResumedAt(after, p)
      ensures Remembers(r.(context := Appended(r.context, n)), after, p)
    {
      assert after[..p] == moves[..p] && ResumedAt(moves, p);
    }
    if r.record.Some? {
      var p: nat :| ResumedAt(moves, p);
      assert ResumedAt(after, p);
    }
  }

  lemma {:induction false} StoreOfKeys(r: Run, k: nat, id: RuntimeId)
    requires k <= |r.context|
    ensures id in StoreOf(r, k) <==> exists j :: 0 <= j < k && IdOf(r.context[j]) == id
  {
    if k > 0 {
      StoreOfKeys(r, k - 1, id);
    }
  }

  /** What is stored when nothing restored has changed is what had run. */
  lemma StoredUps(r: Run, id: RuntimeId)
    requires DistinctIds(r.context) && Restored(r) == r.context
    ensures var store := StoreOf(r, |r.context|);
            (if id in store then Some(store[id].up) else None) == UpIn(r.context, id)
  {
    StoreOfKeys(r, |r.context|, id);
    if id in StoreOf(r, |r.context|) {
      var j :| 0 <= j < |r.context| && IdOf(r.context[j]) == id;
      StoreOfAt(r, |r.context|, j);
      UpInAt(r.context, j);
      assert Restored(r)[j].up == StoredUp(r, r.context[j]);
    } else if UpIn(r.context, id).Some? {
      var k := UpInSome(r.context, id);
    }
  }

  lemma TracksResumed(r: Run, moves: seq<Move>, startNodeId: RuntimeId)
    requires Tracks(r, moves) && Resume(r, startNodeId).context == r.context
    ensures Tracks(Resume(r, startNodeId), moves + [Resumed(startNodeId)])
  {
    var after := moves + [Resumed(startNodeId)];
    assert after[..|moves|] == moves && after[|moves|] == Resumed(startNodeId);
    assert ResumedAt(after, |moves|);
    forall p: nat
      ensures ResumedAt(after, p) <==> p == |moves|
    {
      assert after[|moves|].Resumed?;
    }
    forall id
      ensures var store := StoreOf(r, |r.context|);
              (if id in store then Some(store[id].up) else None) == LastUp(moves, id)
    {
      StoredUps(r, id);
      UninterruptedUps(moves, id);
    }
  }

  /** While the run is tracked, one more interruption leaves no trace if and only if the order is kept. */
  lemma ResumeKeepsIff(r: Run, moves: seq<Move>)
    requires Tracks(r, moves)
    ensures Restored(r) == r.context <==> OrderKept(moves)
  {
    RestoredIsContextIff(r);
    if Restored(r) == r.context {
      forall p: nat, id | ResumedAt(moves, p) && LastUp(moves[..p], moves[p].startNodeId).Some?
                     && id != moves[p].startNodeId && LastUp(moves[..p], id).Some?
        ensures LastUp(moves, id) == LastUp(moves[..p], id)
      {
        assert Remembers(r, moves, p);
        LastUpStays(moves, p, id);
        UninterruptedUps(moves, id);
        var k := UpInSome(r.context, id);
        UpInAt(r.context, k);
        assert IsRestored(r, r.context[k]);
      }
    }
    if OrderKept(moves) {
      forall k | 0 <= k < |r.context| && IsRestored(r, r.context[k])
        ensures r.record.value[IdOf(r.context[k])].up == r.context[k].up
      {
        var p: nat :| ResumedAt(moves, p);
        assert Remembers(r, moves, p);
        UpInAt(r.context, k);
        UninterruptedUps(moves, IdOf(r.context[k]));
      }
    }
  }

  lemma PrefixesKept(moves: seq<Move>, m: Move)
    ensures (moves + [m])[..|moves| + 1] == moves + [m] && (moves + [m])[|moves|] == m
    ensures forall k :: 0 <= k <= |moves| ==> (moves + [m])[..k] == moves[..k]
    ensures forall k :: 0 <= k < |moves| ==> (moves + [m])[k] == moves[k]
  {
  }

  lemma LongerTrace(moves: seq<Move>, m: Move)
    ensures LeavesNoTrace(moves + [m]) <==> LeavesNoTrace(moves) && InStep(moves + [m])
  {
    var after := moves + [m];
    PrefixesKept(moves, m);
    if LeavesNoTrace(after) {
      forall k | 0 <= k <= |moves|
        ensures InStep(moves[..k])
      {
        assert InStep(after[..k]);
      }
      assert InStep(after[..|after|]);
    }
  }

  lemma LongerOrder(moves: seq<Move>, m: Move)
    ensures KeepsOrder(moves + [m]) <==> KeepsOrder(moves) && (m.Resumed? ==> OrderKept(moves))
  {
    var after := moves + [m];
    PrefixesKept(moves, m);
    if KeepsOrder(after) {
      forall k | 0 <= k < |moves| && moves[k].Resumed?
        ensures OrderKept(moves[..k])
      {
        assert after[k].Resumed? && after[..k] == moves[..k];
      }
      assert m.Resumed? ==> OrderKept(after[..|moves|]);
    }
  }

  /** However often a run is interrupted, it has at every moment the nodes of the uninterrupted run, ancestor lists
      included, if and only if every interruption comes while the order is kept. */
  lemma {:induction false} LeavesNoTraceIff(moves: seq<Move>)
    ensures LeavesNoTrace(moves) <==> KeepsOrder(moves)
    ensures LeavesNoTrace(moves) ==> Tracks(RunAfter(NewRun, moves), moves)
  {
    if moves != [] {
      var init, last := moves[..|moves| - 1], moves[|moves| - 1];
      assert moves == init + [last];
      LeavesNoTraceIff(init);
      LongerTrace(init, last);
      LongerOrder(init, last);
      if LeavesNoTrace(init) {
        TraceOfOneMore(RunAfter(NewRun, init), init, last);
      }
    }
  }

  lemma TraceOfOneMore(r: Run, init: seq<Move>, last: Move)
    requires Tracks(r, init) && r == RunAfter(NewRun, init)
    ensures var r' := RunAfter(NewRun, init + [last]);
            && (r'.context == Uninterrupted([], init + [last]) <==> (last.Resumed? ==> OrderKept(init)))
            && (r'.context == Uninterrupted([], init + [last]) ==> Tracks(r', init + [last]))
  {
    var after := init + [last];
    assert after[..|init|] == init && after[|init|] == last;
    match last {
      case Ran(n) => TracksRan(r, init, n);
      case Resumed(startNodeId) =>
        ResumeKeepsIff(r, init);
        if OrderKept(init) { TracksResumed(r, init, startNodeId); }
    }
  }

  // ---------- A workflow with a cycle, where they do not ----------

  /** `a` and `b` follow the start node and lead to each other, and both to `c`. */
  function TwoWays(s: string, a: string, b: string, c: string): Graph {
    Graph(s, map[s := Or, a := Or, b := Or, c := Or],
          [Edge(s, a, s + "_right"), Edge(s, b, s + "_right"), Edge(a, b, a + "_right"), Edge(b, a, b + "_right"),
           Edge(a, c, a + "_right"), Edge(b, c, b + "_right")])
  }

  lemma BothWays(s: string, a: string, b: string, c: string)
    ensures var g := TwoWays(s, a, b, c);
            && OnWalk(g, Node(s, [])) && OnWalk(g, Node(a, [s])) && OnWalk(g, Node(b, [s, a]))
            && OnWalk(g, Node(c, [s, a, b])) && OnWalk(g, Node(b, [s])) && OnWalk(g, Node(a, [s, b]))
            && OnWalk(g, Node(c, [s, b, a]))
  {
    var g := TwoWays(s, a, b, c);
    assert Connected(g, s, a) by { assert g.edges[0] in g.edges; }
    assert Connected(g, s, b) by { assert g.edges[1] in g.edges; }
    assert Connected(g, a, b) by { assert g.edges[2] in g.edges; }
    assert Connected(g, b, a) by { assert g.edges[3] in g.edges; }
    assert Connected(g, a, c) by { assert g.edges[4] in g.edges; }
    assert Connected(g, b, c) by { assert g.edges[5] in g.edges; }
    WalkPrefixes(g, s, a, b, c);
    WalkPrefixes(g, s, b, a, c);
  }

  lemma WalkPrefixes(g: Graph, s: string, a: string, b: string, c: string)
    requires g.start == s && Connected(g, s, a) && Connected(g, a, b) && Connected(g, b, c)
    ensures OnWalk(g, Node(s, [])) && OnWalk(g, Node(a, [s])) && OnWalk(g, Node(b, [s, a]))
    ensures OnWalk(g, Node(c, [s, a, b]))
  {
    assert [] + [s] == [s] && [s] + [a] == [s, a] && [s, a] + [b] == [s, a, b] && [s, a, b] + [c] == [s, a, b, c];
  }

  lemma LastUpAt(moves: seq<Move>, k: nat, id: RuntimeId)
    requires k < |moves| && moves[k].Ran? && IdOf(moves[k].n) == id
    requires forall q :: k < q < |moves| && moves[q].Ran? ==> IdOf(moves[q].n) != id
    ensures LastUp(moves, id) == Some(moves[k].n.up)
  {
    if k < |moves| - 1 {
      LastUpAt(moves[..|moves| - 1], k, id);
    }
  }

  lemma KeptSoFar(before: seq<Move>, start: RuntimeId, after: seq<Move>)
    requires KeepsOrder(before) && OrderKept(before) && forall q :: 0 <= q < |after| ==> after[q].Ran?
    ensures KeepsOrder(before + [Resumed(start)] + after)
    ensures ResumedAt(before + [Resumed(start)] + after, |before|)
    ensures (before + [Resumed(start)] + after)[..|before|] == before
  {
    var moves := before + [Resumed(start)] + after;
    assert moves[..|before|] == before;
    assert forall k :: |before| < k < |moves| ==> moves[k] == after[k - |before| - 1];
    forall k | 0 <= k < |moves| && moves[k].Resumed?
      ensures OrderKept(moves[..k])
    {
      if k < |before| {
        assert moves[k] == before[k] && moves[..k] == before[..k];
      }
    }
  }

  /** What one interruption makes of a tracked run: a stored node other than the resumed one goes back to the ancestor
      list it had when the run was interrupted before. */
  lemma StoredListReturns(r: Run, moves: seq<Move>, p: nat, id: RuntimeId)
    requires Tracks(r, moves) && ResumedAt(moves, p) && LastUp(moves[..p], moves[p].startNodeId).Some?
    requires LastUp(moves[..p], id).Some? && id != moves[p].startNodeId
    ensures Node(id.node, LastUp(moves[..p], id).value) in Restored(r)
  {
    LastUpStays(moves, p, id);
    UninterruptedUps(moves, id);
    var k := UpInSome(r.context, id);
    assert Remembers(r, moves, p);
    assert Restored(r)[k] == Node(id.node, LastUp(moves[..p], id).value);
  }

  /** A node that comes back with its ancestors in another order has the older list again after the next
      interruption; the uninterrupted run has the newer one. */
  lemma ListGoesBack(before: seq<Move>, start: RuntimeId, after: seq<Move>, next: RuntimeId, id: RuntimeId)
    requires KeepsOrder(before) && OrderKept(before) && forall q :: 0 <= q < |after| ==> after[q].Ran?
    requires LastUp(before, start).Some? && LastUp(before, id).Some? && id != start
    ensures var moves := before + [Resumed(start)] + after;
            && LastUp(moves, id).Some?
            && Node(id.node, LastUp(before, id).value) in RunAfter(NewRun, moves + [Resumed(next)]).context
            && Node(id.node, LastUp(moves, id).value) in Uninterrupted([], moves + [Resumed(next)])
  {
    var moves := before + [Resumed(start)] + after;
    KeptSoFar(before, start, after);
    LeavesNoTraceIff(moves);
    StoredListReturns(RunAfter(NewRun, moves), moves, |before|, id);
    assert (moves + [Resumed(next)])[..|moves|] == moves;
    LastUpStays(moves, |before|, id);
    UninterruptedUps(moves, id);
    UpInMember(Uninterrupted([], moves), id);
  }

  lemma {:induction false} UpInMember(context: seq<Node>, id: RuntimeId)
    requires UpIn(context, id).Some?
    ensures Node(id.node, UpIn(context, id).value) in context
  {
    if IdOf(context[0]) == id {
      assert context[0] == Node(id.node, context[0].up);
    } else {
      UpInMember(context[1..], id);
    }
  }

  /** The first interruption of a run comes after `c1`, and `c2`, its double in another order, runs before the next. */
  lemma ComesBackOtherwise(before: seq<Move>, start: Node, after: seq<Move>, c1: Node, c2: Node, next: RuntimeId)
    requires (forall q :: 0 <= q < |before| ==> before[q].Ran?) && (forall q :: 0 <= q < |after| ==> after[q].Ran?)
    requires |before| > 1 && before[0] == Ran(start) && before[|before| - 1] == Ran(c1)
    requires |after| > 0 && after[|after| - 1] == Ran(c2)
    requires IdOf(c1) == IdOf(c2) && c1 != c2
    requires forall q :: 0 < q < |before| ==> IdOf(before[q].n) != IdOf(start)
    ensures var moves := before + [Resumed(IdOf(start))] + after + [Resumed(next)];
            && c1 in RunAfter(NewRun, moves).context
            && c2 in Uninterrupted([], moves) && c1 !in Uninterrupted([], moves)
  {
    var moves := before + [Resumed(IdOf(start))] + after;
    LastUpAt(before, 0, IdOf(start));
    LastUpAt(before, |before| - 1, IdOf(c1));
    ListGoesBack(before, IdOf(start), after, next, IdOf(c1));
    LastUpAt(moves, |moves| - 1, IdOf(c2));
    assert Node(IdOf(c1).node, c1.up) == c1 && Node(IdOf(c2).node, c2.up) == c2;
    if c1 in Uninterrupted([], moves + [Resumed(next)]) {
      OnceOnly(moves + [Resumed(next)], c1, c2);
    }
  }

  /** The run goes from `s` by `a` and `b` to `c`, is interrupted, goes on from `s` by `b` and `a` to `c`, and is
      interrupted again: now `c` has its first ancestor list, where the uninterrupted run has the second. */
  lemma OrderIsLost(s: string, a: string, b: string, c: string, next: RuntimeId)
    requires s != a && s != b && s != c && a != b
    ensures var g, first, c1, c2 := TwoWays(s, a, b, c), Node(s, []), Node(c, [s, a, b]), Node(c, [s, b, a]);
            var before := [Ran(first), Ran(Node(a, [s])), Ran(Node(b, [s, a])), Ran(c1)];
            var after := [Ran(first), Ran(Node(b, [s])), Ran(Node(a, [s, b])), Ran(c2)];
            var moves := before + [Resumed(IdOf(first))] + after + [Resumed(next)];
            && (forall k :: 0 <= k < |before| ==> OnWalk(g, before[k].n))
            && (forall k :: 0 <= k < |after| ==> OnWalk(g, after[k].n))
            && c1 in RunAfter(NewRun, moves).context
            && c2 in Uninterrupted([], moves) && c1 !in Uninterrupted([], moves)
  {
    var first, c1, c2 := Node(s, []), Node(c, [s, a, b]), Node(c, [s, b, a]);
    var before := [Ran(first), Ran(Node(a, [s])), Ran(Node(b, [s, a])), Ran(c1)];
    var after := [Ran(first), Ran(Node(b, [s])), Ran(Node(a, [s, b])), Ran(c2)];
    BothWays(s, a, b, c);
    SameIdOtherOrder(s, a, b, c);
    ComesBackOtherwise(before, first, after, c1, c2, next);
  }

  /** The uninterrupted run has one node with a runtime id. */
  lemma {:induction false} OnceOnly(moves: seq<Move>, n: Node, m: Node)
    requires n in Uninterrupted([], moves) && m in Uninterrupted([], moves) && IdOf(n) == IdOf(m)
    ensures n == m
  {
    UninterruptedDistinct(moves);
  }

  lemma {:induction false} UninterruptedDistinct(moves: seq<Move>)
    ensures DistinctIds(Uninterrupted([], moves))
  {
    if moves != [] {
      var init, last := moves[..|moves| - 1], moves[|moves| - 1];
      UninterruptedDistinct(init);
      if last.Ran? { AppendedDistinct(Uninterrupted([], init), last.n); }
    }
  }

  lemma SameIdOtherOrder(s: string, a: string, b: string, c: string)
    requires a != b
    ensures IdOf(Node(c, [s, a, b])) == IdOf(Node(c, [s, b, a])) && [s, a, b] != [s, b, a]
  {
    assert multiset([s, a, b]) == multiset{s, a, b} == multiset([s, b, a]);
    assert [s, a, b][1] != [s, b, a][1];
  }

  // ---------- Where runtime ids settle the order ----------

  /** The runtime id settles the order of the ancestors, in the context and in the record. */
  ghost predicate Named(name: RuntimeId -> seq<string>, r: Run) {
    && (forall n :: n in r.context ==> n.up == name(IdOf(n)))
    && (r.record.Some? ==> forall id :: id in r.record.value ==> r.record.value[id].up == name(id))
  }

  ghost predicate MovesNamed(name: RuntimeId -> seq<string>, moves: seq<Move>) {
    forall k :: 0 <= k < |moves| && moves[k].Ran? ==> moves[k].n.up == name(IdOf(moves[k].n))
  }

  lemma {:induction false} AppendedNamed(name: RuntimeId -> seq<string>, context: seq<Node>, n: Node)
    requires (forall m :: m in context ==> m.up == name(IdOf(m))) && n.up == name(IdOf(n))
    ensures forall m :: m in Appended(context, n) ==> m.up == name(IdOf(m))
  {
    if context != [] {
      AppendedNamed(name, context[1..], n);
    }
  }

  lemma {:induction false} StoreNamed(name: RuntimeId -> seq<string>, r: Run, k: nat)
    requires Named(name, r) && k <= |r.context|
    ensures forall id :: id in StoreOf(r, k) ==> StoreOf(r, k)[id].up == name(id)
  {
    if k > 0 {
      StoreNamed(name, r, k - 1);
      assert r.context[k - 1] in r.context;
    }
  }

  lemma ResumeNamed(name: RuntimeId -> seq<string>, r: Run, startNodeId: RuntimeId)
    requires Named(name, r)
    ensures Resume(r, startNodeId).context == r.context && Named(name, Resume(r, startNodeId))
  {
    forall k | 0 <= k < |r.context| && IsRestored(r, r.context[k])
      ensures r.record.value[IdOf(r.context[k])].up == r.context[k].up
    {
      assert r.context[k] in r.context;
    }
    RestoredIsContextIff(r);
    StoreNamed(name, r, |r.context|);
  }

  /** If runtime ids settle ancestor lists, interruptions leave no trace in the nodes. */
  lemma {:induction false} NamedRunsAreUninterrupted(name: RuntimeId -> seq<string>, r: Run, moves: seq<Move>)
    requires Named(name, r) && MovesNamed(name, moves)
    ensures RunAfter(r, moves).context == Uninterrupted(r.context, moves) && Named(name, RunAfter(r, moves))
  {
    if moves != [] {
      var init, last := moves[..|moves| - 1], moves[|moves| - 1];
      NamedRunsAreUninterrupted(name, r, init);
      var before := RunAfter(r, init);
      match last {
        case Ran(n) => AppendedNamed(name, before.context, n);
        case Resumed(startNodeId) => ResumeNamed(name, before, startNodeId);
      }
    }
  }

  ghost predicate Falling(rank: string -> nat, a: seq<string>) {
    forall j, k :: 0 <= j < k < |a| ==> rank(a[k]) < rank(a[j])
  }

  /** The last element ranks lowest. */
  lemma LastIsLowest(rank: string -> nat, a: seq<string>, x: string)
    requires Falling(rank, a) && x in a
    ensures rank(a[|a| - 1]) <= rank(x) && (rank(a[|a| - 1]) == rank(x) ==> x == a[|a| - 1])
  {
    var j :| 0 <= j < |a| && a[j] == x;
  }

  lemma SameLast(rank: string -> nat, a: seq<string>, b: seq<string>)
    requires multiset(a) == multiset(b) && a != [] && b != [] && Falling(rank, a) && Falling(rank, b)
    ensures a[|a| - 1] == b[|b| - 1]
  {
    var x, y := a[|a| - 1], b[|b| - 1];
    assert x in multiset(a) && y in multiset(b);
    LastIsLowest(rank, a, y);
    LastIsLowest(rank, b, x);
  }

  lemma LastTaken(a: seq<string>)
    requires a != []
    ensures multiset(a[..|a| - 1]) == multiset(a) - multiset{a[|a| - 1]}
  {
    var init, last := a[..|a| - 1], a[|a| - 1];
    assert a == init + [last];
    assert multiset(init + [last]) == multiset(init) + multiset{last};
  }

  /** Two lists that a ranking puts in falling order hold the same elements only if they are the same. */
  lemma {:induction false} FallingListsAreEqual(rank: string -> nat, a: seq<string>, b: seq<string>)
    requires multiset(a) == multiset(b) && Falling(rank, a) && Falling(rank, b)
    ensures a == b
  {
    assert |a| == |multiset(a)| && |b| == |multiset(b)|;
    if a != [] {
      var n := |a| - 1;
      LastTaken(a);
      LastTaken(b);
      SameLast(rank, a, b);
      var init := a[..n];
      FallingListsAreEqual(rank, init, b[..n]);
      assert a == init + [a[n]];
      assert b == init + [a[n]];
    }
  }

  /** The node and its ancestors lie on a walk of the workflow. */
  ghost predicate OnWalk(g: Graph, n: Node) {
    IsWalk(g, n.up + [n.id])
  }

  /** On an acyclic workflow the runtime id settles the order of the ancestors. */
  lemma AncestorsAreDetermined(g: Graph, rank: string -> nat, n: Node, m: Node)
    requires Ranks(g, rank) && OnWalk(g, n) && OnWalk(g, m) && IdOf(n) == IdOf(m)
    ensures n == m
  {
    UpFalls(g, rank, n);
    UpFalls(g, rank, m);
    FallingListsAreEqual(rank, n.up, m.up);
  }

  lemma UpFalls(g: Graph, rank: string -> nat, n: Node)
    requires Ranks(g, rank) && OnWalk(g, n)
    ensures Falling(rank, n.up)
  {
    forall j, k | 0 <= j < k < |n.up|
      ensures rank(n.up[k]) < rank(n.up[j])
    {
      RankFallsAlongWalk(g, rank, n.up + [n.id], j, k);
    }
  }

  ghost function WalkNamed(g: Graph, id: RuntimeId): seq<string> {
    if n: Node :| OnWalk(g, n) && IdOf(n) == id then n.up else []
  }

  /** On an acyclic workflow, however often it is interrupted, a run has the nodes it would have had uninterrupted,
      with the same ancestor lists, in the same order. */
  lemma AcyclicRunsAreUninterrupted(g: Graph, rank: string -> nat, moves: seq<Move>)
    requires Ranks(g, rank) && forall k :: 0 <= k < |moves| && moves[k].Ran? ==> OnWalk(g, moves[k].n)
    ensures RunAfter(NewRun, moves).context == Uninterrupted([], moves)
  {
    var name := (id: RuntimeId) => WalkNamed(g, id);
    forall k | 0 <= k < |moves| && moves[k].Ran?
      ensures moves[k].n.up == name(IdOf(moves[k].n))
    {
      WalkIsNamed(g, rank, moves[k].n);
    }
    NamedRunsAreUninterrupted(name, NewRun, moves);
  }

  lemma WalkIsNamed(g: Graph, rank: string -> nat, n: Node)
    requires Ranks(g, rank) && OnWalk(g, n)
    ensures WalkNamed(g, IdOf(n)) == n.up
  {
    var id := IdOf(n);
    var m: Node :| OnWalk(g, m) && IdOf(m) == id && WalkNamed(g, id) == m.up;
    AncestorsAreDetermined(g, rank, n, m);
  }

  lemma IdsCons(first: Node, rest: seq<Node>)
    ensures Ids([first] + rest) == [IdOf(first)] + Ids(rest)
  {
  }

  function IdsWith(ids: seq<RuntimeId>, id: RuntimeId): seq<RuntimeId> {
    if id in ids then ids else ids + [id]
  }

  lemma IdsWithCons(first: RuntimeId, rest: seq<RuntimeId>, id: RuntimeId)
    requires first != id
    ensures IdsWith([first] + rest, id) == [first] + IdsWith(rest, id)
  {
    assert id in [first] + rest <==> id in rest;
    assert [first] + (rest + [id]) == ([first] + rest) + [id];
  }

  lemma {:induction false} AppendedIds(context: seq<Node>, n: Node)
    ensures Ids(Appended(context, n)) == IdsWith(Ids(context), IdOf(n))
    decreases |context|
  {
    if context == [] {
      assert Ids([n]) == [IdOf(n)];
    } else {
      var first, rest := context[0], context[1..];
      assert context == [first] + rest;
      IdsCons(first, rest);
      if IdOf(first) == IdOf(n) {
        assert IdOf(n) in [IdOf(first)] + Ids(rest);
        IdsCons(n, rest);
      } else {
        AppendedIds(rest, n);
        IdsCons(first, Appended(rest, n));
        IdsWithCons(IdOf(first), Ids(rest), IdOf(n));
      }
    }
  }

  lemma StoredUnderTheirIds(store: Store, context: seq<Node>)
    requires Describes(store, context)
    ensures forall id :: id in store ==> store[id].runtimeId == id
  {
    forall id | id in store
      ensures store[id].runtimeId == id
    {
      assert HasId(context, id);
      var k :| 0 <= k < |context| && IdOf(context[k]) == id;
      assert Records(store[id], context[k], k);
    }
  }

  /** The details listed so far are those outside `left`, none later in index than any left. */
  ghost predicate ListedUpTo(listing: seq<Details>, details: Store, left: set<RuntimeId>) {
    && (forall id :: id in details && id !in left ==> details[id] in listing)
    && (forall k :: 0 <= k < |listing| ==>
          listing[k].runtimeId in details && listing[k].runtimeId !in left
          && details[listing[k].runtimeId] == listing[k])
    && (forall j, k :: 0 <= j < k < |listing| ==>
          listing[j].runtimeId != listing[k].runtimeId && listing[j].index <= listing[k].index)
    && (forall k, id :: 0 <= k < |listing| && id in left && id in details ==> listing[k].index <= details[id].index)
  }

  lemma ListedOneMore(listing: seq<Details>, details: Store, left: set<RuntimeId>, id: RuntimeId)
    requires ListedUpTo(listing, details, left) && id in left && id in details && details[id].runtimeId == id
    requires forall other :: other in left && other in details ==> details[id].index <= details[other].index
    ensures ListedUpTo(listing + [details[id]], details, left - {id})
  {
    var longer := listing + [details[id]];
    forall other | other in details && other !in left - {id}
      ensures details[other] in longer
    {
      assert longer[|listing|] == details[id];
    }
  }

  /** `sorted(details.values(), key=lambda d: d.get('index'))`. */
  method SortedByIndex(details: Store) returns (listing: seq<Details>)
    requires forall id :: id in details ==> details[id].runtimeId == id
    ensures SortedListing(listing, details)
  {
    listing := [];
    var left := details.Keys;
    while left != {}
      invariant left <= details.Keys && ListedUpTo(listing, details, left)
      decreases |left|
    {
      var id := LeastIndex(details, left);
      ListedOneMore(listing, details, left, id);
      listing := listing + [details[id]];
      left := left - {id};
    }
  }

  method LeastIndex(details: Store, ids: set<RuntimeId>) returns (least: RuntimeId)
    requires ids != {} && ids <= details.Keys
    ensures least in ids && forall id :: id in ids ==> details[least].index <= details[id].index
  {
    least :| least in ids;
    var left := ids - {least};
    while left != {}
      invariant left <= ids && least in ids
      invariant forall id :: id in ids - left ==> details[least].index <= details[id].index
      decreases |left|
    {
      var id :| id in left;
      if details[id].index < details[least].index {
        least := id;
      }
      left := left - {id};
    }
  }

  /** `load_node`'s loop over the sorted details. */
  method NodesOf(listing: seq<Details>) returns (nodes: seq<Node>)
    ensures |nodes| == |listing|
    ensures forall k :: 0 <= k < |listing| ==> nodes[k] == Node(listing[k].nodeId, listing[k].up)
  {
    nodes := [];
    for k := 0 to |listing|
      invariant |nodes| == k && forall j :: 0 <= j < k ==> nodes[j] == Node(listing[j].nodeId, listing[j].up)
    {
      nodes := nodes + [Node(listing[k].nodeId, listing[k].up)];
    }
  }

  lemma ReplacedStaysValid(context: seq<Node>, n: Node, k: nat, record: Option<Store>)
    requires DistinctIds(context) && k < |context| && IdOf(context[k]) == IdOf(n)
    requires record.Some? ==> DescribesPrefix(record.value, context)
    ensures DistinctIds(context[k := n]) && Ids(context[k := n]) == Ids(context)
    ensures record.Some? ==> DescribesPrefix(record.value, context[k := n])
  {
    var context' := context[k := n];
    assert forall j :: 0 <= j < |context| ==> IdOf(context'[j]) == IdOf(context[j]);
    if record.Some? {
      var m :| 0 <= m <= |context| && Describes(record.value, context[..m]);
      DescribesSameIds(record.value, context[..m], context'[..m]);
    }
  }

  lemma DescribesSameIds(store: Store, context: seq<Node>, context': seq<Node>)
    requires Describes(store, context) && |context'| == |context|
    requires forall j :: 0 <= j < |context| ==> IdOf(context'[j]) == IdOf(context[j])
    ensures Describes(store, context')
  {
    assert forall j :: 0 <= j < |context| ==> context'[j].id == IdOf(context'[j]).node;
    forall id | id in store
      ensures HasId(context', id)
    {
      var j :| 0 <= j < |context| && IdOf(context[j]) == id;
      assert IdOf(context'[j]) == id;
    }
  }

  lemma WholeIsPrefix(store: Store, context: seq<Node>)
    requires Describes(store, context)
    ensures DescribesPrefix(store, context)
  {
    assert context[..|context|] == context;
  }

  lemma LoadedDescribed(details: Store, context: seq<Node>, loaded: seq<Node>)
    requires DistinctIds(context) && Describes(details, context) && |loaded| == |context|
    requires forall k :: 0 <= k < |context| ==>
               var d := details[IdOf(context[k])]; loaded[k] == Node(d.nodeId, d.up)
    ensures Ids(loaded) == Ids(context) && DistinctIds(loaded) && Describes(details, loaded)
    ensures forall k :: 0 <= k < |context| ==>
              loaded[k].id == context[k].id && loaded[k].up == details[IdOf(context[k])].up
  {
    assert forall k :: 0 <= k < |context| ==> IdOf(loaded[k]) == IdOf(context[k]) && loaded[k].id == context[k].id;
  }

  lemma RecordedAtItsPosition(store: Store, context: seq<Node>, index: nat)
    requires DistinctIds(context) && index < |context| && IdOf(context[index]) in store
    requires DescribesPrefix(store, context)
    ensures Records(store[IdOf(context[index])], context[index], index)
  {
    var k :| 0 <= k <= |context| && Describes(store, context[..k]);
    var id := IdOf(context[index]);
    var j :| 0 <= j < k && IdOf(context[..k][j]) == id;
    assert IdOf(context[j]) == id;
  }

  lemma DescribesOneMore(store: Store, d: Details, context: seq<Node>, index: nat)
    requires DistinctIds(context) && index < |context| && Describes(store, context[..index])
    requires Records(d, context[index], index)
    ensures Describes(store[IdOf(context[index]) := d], context[..index + 1])
  {
    var store' := store[IdOf(context[index]) := d];
    var a, b := context[..index], context[..index + 1];
    forall k | 0 <= k < |b|
      ensures IdOf(b[k]) in store' && Records(store'[IdOf(b[k])], b[k], k)
    {
      assert k < index ==> b[k] == a[k] && IdOf(context[k]) != IdOf(context[index]);
    }
    forall id | id in store'
      ensures HasId(b, id)
    {
      if id == d.runtimeId {
        assert IdOf(b[index]) == id;
      } else {
        var j :| 0 <= j < |a| && IdOf(a[j]) == id;
        assert b[j] == a[j];
      }
    }
  }

  /** The next node's details keep the store a description of the nodes so far. */
  lemma StoresOneMore(r: Run, index: nat)
    requires DistinctIds(r.context) && index < |r.context| && Describes(StoreOf(r, index), r.context[..index])
    requires r.record.Some? ==> DescribesPrefix(r.record.value, r.context)
    ensures Describes(StoreOf(r, index + 1), r.context[..index + 1])
  {
    if IsRestored(r, r.context[index]) {
      RecordedAtItsPosition(r.record.value, r.context, index);
    }
    DescribesOneMore(StoreOf(r, index), DetailsOf(r, r.context[index], index), r.context, index);
  }

  lemma {:induction false} AscendingFillsRange(xs: seq<nat>, k: nat)
    requires forall i, j :: 0 <= i < j < |xs| ==> xs[i] < xs[j]
    requires forall i :: 0 <= i < |xs| ==> xs[i] < |xs|
    requires k < |xs|
    ensures xs[k] == k
  {
    AscendingAtLeast(xs, k);
    AscendingAtMost(xs, k);
  }

  lemma {:induction false} AscendingAtLeast(xs: seq<nat>, k: nat)
    requires forall i, j :: 0 <= i < j < |xs| ==> xs[i] < xs[j]
    requires k < |xs|
    ensures xs[k] >= k
  {
    if k > 0 { AscendingAtLeast(xs, k - 1); }
  }

  lemma {:induction false} AscendingAtMost(xs: seq<nat>, k: nat)
    requires forall i, j :: 0 <= i < j < |xs| ==> xs[i] < xs[j]
    requires forall i :: 0 <= i < |xs| ==> xs[i] < |xs|
    requires k < |xs|
    ensures xs[k] <= k
    decreases |xs| - k
  {
    if k < |xs| - 1 { AscendingAtMost(xs, k + 1); }
  }

  lemma ListedAtItsIndex(store: Store, context: seq<Node>, listing: seq<Details>, k: nat)
    requires Describes(store, context) && SortedListing(listing, store) && k < |listing|
    ensures listing[k].index < |context| && listing[k] == store[IdOf(context[listing[k].index])]
  {
    assert HasId(context, listing[k].runtimeId);
    var j :| 0 <= j < |context| && IdOf(context[j]) == listing[k].runtimeId;
    assert Records(listing[k], context[j], j);
  }

  lemma IndexesAscend(store: Store, context: seq<Node>, listing: seq<Details>, i: nat, j: nat)
    requires Describes(store, context) && SortedListing(listing, store) && i < j < |listing|
    ensures listing[i].index < listing[j].index
  {
    ListedAtItsIndex(store, context, listing, i);
    ListedAtItsIndex(store, context, listing, j);
    assert listing[i].runtimeId != listing[j].runtimeId;
  }

  /** Sorting the stored details by index, whatever order the store keeps them in, gives context order. */
  lemma ListingIsContextOrder(store: Store, context: seq<Node>, listing: seq<Details>)
    requires DistinctIds(context) && Describes(store, context) && SortedListing(listing, store)
    ensures |listing| == |context|
    ensures forall k :: 0 <= k < |context| ==> listing[k] == store[IdOf(context[k])]
  {
    ListingCount(store, context, listing);
    var indexes := seq(|listing|, k requires 0 <= k < |listing| => listing[k].index);
    forall i, j | 0 <= i < j < |indexes|
      ensures indexes[i] < indexes[j]
    {
      IndexesAscend(store, context, listing, i, j);
    }
    forall k | 0 <= k < |indexes|
      ensures indexes[k] < |context|
    {
      ListedAtItsIndex(store, context, listing, k);
    }
    forall k | 0 <= k < |context|
      ensures listing[k] == store[IdOf(context[k])]
    {
      AscendingFillsRange(indexes, k);
      assert indexes[k] == listing[k].index;
      ListedAtItsIndex(store, context, listing, k);
    }
  }

  function Listed(listing: seq<Details>): seq<RuntimeId> {
    seq(|listing|, k requires 0 <= k < |listing| => listing[k].runtimeId)
  }

  lemma ListsTheStore(store: Store, context: seq<Node>, listing: seq<Details>, id: RuntimeId)
    requires Describes(store, context) && SortedListing(listing, store)
    ensures id in Listed(listing) <==> id in store
  {
    if id in store {
      var k :| 0 <= k < |listing| && listing[k] == store[id];
      assert HasId(context, id);
      var j :| 0 <= j < |context| && IdOf(context[j]) == id;
      assert Records(store[id], context[j], j);
      assert Listed(listing)[k] == id;
    }
  }

  lemma DescribesIds(store: Store, context: seq<Node>, id: RuntimeId)
    requires Describes(store, context)
    ensures id in Ids(context) <==> id in store
  {
    if id in Ids(context) {
      var j :| 0 <= j < |context| && Ids(context)[j] == id;
      assert IdOf(context[j]) in store;
    }
    if id in store {
      assert HasId(context, id);
      var j :| 0 <= j < |context| && IdOf(context[j]) == id;
      assert Ids(context)[j] == id;
    }
  }

  lemma ListingCount(store: Store, context: seq<Node>, listing: seq<Details>)
    requires DistinctIds(context) && Describes(store, context) && SortedListing(listing, store)
    ensures |listing| == |context|
  {
    forall id
      ensures id in Listed(listing) <==> id in Ids(context)
    {
      ListsTheStore(store, context, listing, id);
      DescribesIds(store, context, id);
    }
    SameElementsSameLength(Listed(listing), Ids(context));
  }

  lemma {:induction false} SameElementsSameLength<T>(a: seq<T>, b: seq<T>)
    requires forall i, j :: 0 <= i < j < |a| ==> a[i] != a[j]
    requires forall i, j :: 0 <= i < j < |b| ==> b[i] != b[j]
    requires forall x :: x in a <==> x in b
    ensures |a| == |b|
  {
    DistinctSize(a);
    DistinctSize(b);
    assert (set x | x in a) == (set x | x in b);
  }

  lemma {:induction false} DistinctSize<T>(a: seq<T>)
    requires forall i, j :: 0 <= i < j < |a| ==> a[i] != a[j]
    ensures |set x | x in a| == |a|
  {
    if a != [] {
      var rest := a[..|a| - 1];
      DistinctSize(rest);
      assert (set x | x in a) == (set x | x in rest) + {a[|a| - 1]};
    }
  }
}
