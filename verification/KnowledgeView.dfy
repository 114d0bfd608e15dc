/**
 A user who sees only some of the knowledge bases opens a workflow, edits it and saves it.
 What that user cannot see must survive.
 */
module KnowledgeView {
  import opened Wrappers
  import opened WorkflowTree

  /** The part of a search node's data that viewing and saving overwrite. */
  class SearchData {
    var knowledgeIds: seq<Id>
    var allKnowledgeIds: seq<Id>
    var knowledgeList: seq<Id>

    constructor (ids: seq<Id>)
      ensures knowledgeIds == ids && allKnowledgeIds == [] && knowledgeList == []
    {
      knowledgeIds, allKnowledgeIds, knowledgeList := ids, [], [];
    }
  }

  // ---------- The search nodes of a workflow ----------

  function NodeSearches<S>(node: Node<S>): seq<S>
    decreases node
  {
    match node
    case Search(data) => [data]
    case Loop(body) => SearchNodes(body)
    case _ => []
  }

  function SearchNodes<S>(w: Workflow<S>): seq<S>
    decreases w
  {
    if w == [] then [] else SearchNodes(w[..|w| - 1]) + NodeSearches(w[|w| - 1])
  }

  lemma {:induction false} SearchesAllocated(w: Workflow<SearchData>)
    ensures forall i :: 0 <= i < |SearchNodes(w)| ==> allocated(SearchNodes(w)[i])
    decreases w
  {
    if w != [] {
      SearchesAllocated(w[..|w| - 1]);
      var last := w[|w| - 1];
      match last {
        case Search(data) => assert allocated(data);
        case Loop(body) =>
          SearchesAllocated(body);
          var n := |SearchNodes(w[..|w| - 1])|;
          forall i | n <= i < |SearchNodes(w)|
            ensures allocated(SearchNodes(w)[i])
          {
            assert SearchNodes(w)[i] == SearchNodes(body)[i - n];
          }
        case _ =>
      }
    }
  }

  // ---------- Where they stand ----------

  /** One position comes before another, read from the left. */
  ghost predicate Before(a: seq<nat>, b: seq<nat>) {
    exists k :: 0 <= k < |a| && k < |b| && a[..k] == b[..k] && a[k] < b[k]
  }

  /** What the search node at this position holds, if one stands there. */
  function SearchAt<S>(w: Workflow<S>, at: seq<nat>): Option<S> {
    var node := NodeAt(w, at);
    if node.Some? && node.value.Search? then Some(node.value.search) else None
  }

  ghost predicate Ascending(ats: seq<seq<nat>>) {
    forall j, k :: 0 <= j < k < |ats| ==> Before(ats[j], ats[k])
  }

  /** `found` is what the search nodes hold, at every loop depth, one by one in the order of their positions `ats`. */
  ghost predicate ListsSearches<S>(w: Workflow<S>, ats: seq<seq<nat>>, found: seq<S>) {
    && |ats| == |found| && Ascending(ats)
    && (forall k :: 0 <= k < |ats| ==> SearchAt(w, ats[k]) == Some(found[k]))
    && (forall at :: SearchAt(w, at).Some? ==> at in ats)
  }

  ghost function Under(i: nat, ats: seq<seq<nat>>): seq<seq<nat>> {
    seq(|ats|, k requires 0 <= k < |ats| => [i] + ats[k])
  }

  ghost function NodePositions<S>(i: nat, node: Node<S>): seq<seq<nat>>
    decreases node
  {
    match node
    case Search(_) => [[i]]
    case Loop(body) => Under(i, Positions(body))
    case _ => []
  }

  /** The positions of the search nodes. */
  ghost function Positions<S>(w: Workflow<S>): seq<seq<nat>>
    decreases w
  {
    if w == [] then [] else Positions(w[..|w| - 1]) + NodePositions(|w| - 1, w[|w| - 1])
  }

  /** The positions of search nodes that begin with index `i`. */
  ghost predicate NodeLists<S>(i: nat, node: Node<S>, ats: seq<seq<nat>>, found: seq<S>) {
    && |ats| == |found| && Ascending(ats)
    && (forall k :: 0 <= k < |ats| ==>
          ats[k] != [] && ats[k][0] == i && SearchUnder(node, ats[k][1..]) == Some(found[k]))
    && (forall rest :: SearchUnder(node, rest).Some? ==> [i] + rest in ats)
  }

  function SearchUnder<S>(node: Node<S>, rest: seq<nat>): Option<S> {
    if rest != [] then (if node.Loop? then SearchAt(node.loopBody, rest) else None)
    else if node.Search? then Some(node.search) else None
  }

  lemma SearchAtFirst<S>(w: Workflow<S>, at: seq<nat>)
    ensures SearchAt(w, at) == if at != [] && at[0] < |w| then SearchUnder(w[at[0]], at[1..]) else None
  {
  }

  lemma UnderAscends(i: nat, ats: seq<seq<nat>>)
    requires Ascending(ats)
    ensures Ascending(Under(i, ats))
  {
    forall j, k | 0 <= j < k < |ats|
      ensures Before(Under(i, ats)[j], Under(i, ats)[k])
    {
      var d :| 0 <= d < |ats[j]| && d < |ats[k]| && ats[j][..d] == ats[k][..d] && ats[j][d] < ats[k][d];
      var a, b := [i] + ats[j], [i] + ats[k];
      assert a[..d + 1] == [i] + ats[j][..d] && b[..d + 1] == [i] + ats[k][..d];
      assert a[d + 1] < b[d + 1];
    }
  }

  lemma LoopLists<S>(i: nat, body: Workflow<S>, ats: seq<seq<nat>>, found: seq<S>)
    requires ListsSearches(body, ats, found)
    ensures NodeLists(i, Loop(body), Under(i, ats), found)
  {
    UnderAscends(i, ats);
    forall k | 0 <= k < |ats|
      ensures SearchUnder(Loop(body), Under(i, ats)[k][1..]) == Some(found[k])
    {
      assert ([i] + ats[k])[1..] == ats[k] && SearchAt(body, ats[k]) == Some(found[k]);
      assert ats[k] != [];
    }
    forall rest | SearchUnder(Loop(body), rest).Some?
      ensures [i] + rest in Under(i, ats)
    {
      var k :| 0 <= k < |ats| && ats[k] == rest;
      assert Under(i, ats)[k] == [i] + rest;
    }
  }

  lemma {:induction false} PositionsList<S>(w: Workflow<S>)
    ensures ListsSearches(w, Positions(w), SearchNodes(w))
    decreases w
  {
    if w != [] {
      var n := |w| - 1;
      PositionsList(w[..n]);
      NodePositionsList(n, w[n]);
      OneNodeMore(w[..n], w[n], Positions(w[..n]), SearchNodes(w[..n]), NodePositions(n, w[n]), NodeSearches(w[n]));
      assert w == w[..n] + [w[n]];
    }
  }

  lemma {:induction false} NodePositionsList<S>(i: nat, node: Node<S>)
    ensures NodeLists(i, node, NodePositions(i, node), NodeSearches(node))
    decreases node
  {
    match node {
      case Search(data) =>
        assert [i][1..] == [] && [i] + [] == [i];
      case Loop(body) =>
        PositionsList(body);
        LoopLists(i, body, Positions(body), SearchNodes(body));
      case _ =>
    }
  }

  lemma OneNodeMore<S>(init: Workflow<S>, node: Node<S>, ats: seq<seq<nat>>, found: seq<S>, ats': seq<seq<nat>>,
                       found': seq<S>)
    requires ListsSearches(init, ats, found) && NodeLists(|init|, node, ats', found')
    ensures ListsSearches(init + [node], ats + ats', found + found')
  {
    var w := init + [node];
    forall at
      ensures SearchAt(w, at) == if at != [] && at[0] == |init| then SearchUnder(node, at[1..]) else SearchAt(init, at)
    {
      SearchAtFirst(w, at);
      SearchAtFirst(init, at);
    }
    forall at | SearchAt(w, at).Some?
      ensures at in ats + ats'
    {
      if at != [] && at[0] == |init| { assert [|init|] + at[1..] == at; }
    }
    forall k | 0 <= k < |ats + ats'|
      ensures SearchAt(w, (ats + ats')[k]) == Some((found + found')[k])
    {
      if k < |ats| { SearchAtFirst(init, ats[k]); }
    }
    ConcatAscends(init, ats, found, ats');
  }

  lemma ConcatAscends<S>(init: Workflow<S>, ats: seq<seq<nat>>, found: seq<S>, ats': seq<seq<nat>>)
    requires ListsSearches(init, ats, found) && Ascending(ats')
    requires forall k :: 0 <= k < |ats'| ==> ats'[k] != [] && ats'[k][0] == |init|
    ensures Ascending(ats + ats')
  {
    forall j, k | 0 <= j < k < |ats + ats'|
      ensures Before((ats + ats')[j], (ats + ats')[k])
    {
      if k < |ats| {
        assert Before(ats[j], ats[k]);
      } else if j >= |ats| {
        assert Before(ats'[j - |ats|], ats'[k - |ats|]);
      } else {
        SearchAtFirst(init, ats[j]);
        assert ats[j][..0] == ats'[k - |ats|][..0];
      }
    }
  }

  /** Every search node at every loop depth, each once, in the order of their positions. */
  method GetSearchNode<S>(workflow: Workflow<S>) returns (response: seq<S>)
    ensures response == SearchNodes(workflow)
    ensures exists ats :: ListsSearches(workflow, ats, response)
    decreases workflow
  {
    PositionsList(workflow);
    response := [];
    var i := 0;
    while i < |workflow|
      invariant 0 <= i <= |workflow|
      invariant response == SearchNodes(workflow[..i])
    {
      assert workflow[..i + 1][..i] == workflow[..i];
      var node := workflow[i];
      if node.Search? {
        response := response + [node.search];
      }
      if node.Loop? {
        var r := GetSearchNode(node.loopBody);
        response := response + r;
      }
      i := i + 1;
    }
    assert workflow[..i] == workflow;
  }

  // ---------- Viewing and saving ----------

  function Visible(ids: seq<Id>, available: set<Id>): seq<Id> {
    if ids == [] then []
    else
      var last := ids[|ids| - 1];
      Visible(ids[..|ids| - 1], available) + if last in available then [last] else []
  }

  /** The ids that the given list does not show. */
  function Others(ids: seq<Id>, shown: seq<Id>): seq<Id> {
    if ids == [] then []
    else
      var last := ids[|ids| - 1];
      Others(ids[..|ids| - 1], shown) + if last in shown then [] else [last]
  }

  function Saved(all: seq<Id>, shown: seq<Id>, edited: seq<Id>): seq<Id> {
    Others(all, shown) + edited
  }

  predicate Distinct<S(==)>(s: seq<S>) {
    forall i, j :: 0 <= i < j < |s| ==> s[i] != s[j]
  }

  /** No two search nodes share their data. */
  ghost predicate StandsOnce<S>(w: Workflow<S>) {
    forall at, at' :: SearchAt(w, at).Some? && SearchAt(w, at) == SearchAt(w, at') ==> at == at'
  }

  lemma StandingOnceIsDistinct<S>(w: Workflow<S>)
    requires StandsOnce(w)
    ensures Distinct(SearchNodes(w))
  {
    PositionsList(w);
    var ats, found := Positions(w), SearchNodes(w);
    forall j, k | 0 <= j < k < |found|
      ensures found[j] != found[k]
    {
      assert SearchAt(w, ats[j]) == Some(found[j]) && SearchAt(w, ats[k]) == Some(found[k]);
      assert Before(ats[j], ats[k]);
    }
  }

  lemma StandingIsFound<S>(w: Workflow<S>)
    ensures forall at :: SearchAt(w, at).Some? ==> SearchAt(w, at).value in SearchNodes(w)
  {
    PositionsList(w);
    var ats, found := Positions(w), SearchNodes(w);
    forall at | SearchAt(w, at).Some?
      ensures SearchAt(w, at).value in found
    {
      var k :| 0 <= k < |ats| && ats[k] == at;
      assert SearchAt(w, ats[k]) == Some(found[k]);
    }
  }

  method UpdateKnowledgeNode(workflow: Workflow<SearchData>, available: set<Id>)
    requires StandsOnce(workflow)
    modifies SearchNodes(workflow)
    ensures forall at :: SearchAt(workflow, at).Some? ==>
                           var d, ids := SearchAt(workflow, at).value, old(SearchAt(workflow, at).value.knowledgeIds);
                           d.allKnowledgeIds == ids && d.knowledgeIds == d.knowledgeList == Visible(ids, available)
  {
    ghost var searches := SearchNodes(workflow);
    SearchesAllocated(workflow);
    StandingOnceIsDistinct(workflow);
    StandingIsFound(workflow);
    var nodes := GetSearchNode(workflow);
    var i := 0;
    while i < |nodes|
      invariant 0 <= i <= |nodes| && nodes == searches
      invariant forall k :: 0 <= k < i ==>
                              && nodes[k].allKnowledgeIds == old(searches[k].knowledgeIds)
                              && nodes[k].knowledgeIds == nodes[k].knowledgeList
                                 == Visible(old(searches[k].knowledgeIds), available)
      invariant forall k :: i <= k < |nodes| ==> nodes[k].knowledgeIds == old(searches[k].knowledgeIds)
    {
      var data := nodes[i];
      var shown := Available(data.knowledgeIds, available);
      data.allKnowledgeIds := data.knowledgeIds;
      data.knowledgeIds := shown;
      data.knowledgeList := shown;
      i := i + 1;
    }
  }

  method Available(ids: seq<Id>, available: set<Id>) returns (shown: seq<Id>)
    ensures shown == Visible(ids, available)
  {
    shown := [];
    for i := 0 to |ids|
      invariant shown == Visible(ids[..i], available)
    {
      assert ids[..i + 1][..i] == ids[..i];
      if ids[i] in available {
        shown := shown + [ids[i]];
      }
    }
    assert ids[..|ids|] == ids;
  }

  method UpdateWorkFlowModel(workflow: Workflow<SearchData>)
    requires StandsOnce(workflow)
    modifies SearchNodes(workflow)
    ensures forall at :: SearchAt(workflow, at).Some? ==>
                           var d := SearchAt(workflow, at).value;
                           && d.allKnowledgeIds == old(SearchAt(workflow, at).value.allKnowledgeIds)
                           && d.knowledgeList == old(SearchAt(workflow, at).value.knowledgeList)
                           && d.knowledgeIds == Saved(d.allKnowledgeIds, d.knowledgeList,
                                                      old(SearchAt(workflow, at).value.knowledgeIds))
  {
    ghost var searches := SearchNodes(workflow);
    SearchesAllocated(workflow);
    StandingOnceIsDistinct(workflow);
    StandingIsFound(workflow);
    var nodes := GetSearchNode(workflow);
    var i := 0;
    while i < |nodes|
      invariant 0 <= i <= |nodes| && nodes == searches
      invariant forall k :: 0 <= k < |nodes| ==>
                              && nodes[k].allKnowledgeIds == old(searches[k].allKnowledgeIds)
                              && nodes[k].knowledgeList == old(searches[k].knowledgeList)
                              && (k >= i ==> nodes[k].knowledgeIds == old(searches[k].knowledgeIds))
                              && (k < i ==> nodes[k].knowledgeIds
                                            == Saved(old(searches[k].allKnowledgeIds), old(searches[k].knowledgeList),
                                                     old(searches[k].knowledgeIds)))
    {
      var data := nodes[i];
      var other := NotShown(data.allKnowledgeIds, data.knowledgeList);
      data.knowledgeIds := other + data.knowledgeIds;
      i := i + 1;
    }
  }

  method NotShown(all: seq<Id>, shown: seq<Id>) returns (other: seq<Id>)
    ensures other == Others(all, shown)
  {
    other := [];
    for i := 0 to |all|
      invariant other == Others(all[..i], shown)
    {
      assert all[..i + 1][..i] == all[..i];
      if all[i] !in shown {
        other := other + [all[i]];
      }
    }
    assert all[..|all|] == all;
  }

  // ---------- What the user cannot see survives ----------

  function Invisible(ids: seq<Id>, available: set<Id>): seq<Id> {
    if ids == [] then []
    else
      var last := ids[|ids| - 1];
      Invisible(ids[..|ids| - 1], available) + if last in available then [] else [last]
  }

  lemma {:induction false} VisibleMembers(ids: seq<Id>, available: set<Id>, id: Id)
    ensures id in Visible(ids, available) <==> id in ids && id in available
  {
    if ids != [] {
      var init, last := ids[..|ids| - 1], ids[|ids| - 1];
      VisibleMembers(init, available, id);
      assert ids == init + [last];
    }
  }

  /** Taking out what is shown treats visible and invisible ids alike. */
  lemma {:induction false} OthersSplit(ids: seq<Id>, shown: seq<Id>, available: set<Id>)
    ensures Visible(Others(ids, shown), available) == Others(Visible(ids, available), shown)
    ensures Invisible(Others(ids, shown), available) == Others(Invisible(ids, available), shown)
  {
    if ids != [] {
      var init, last := ids[..|ids| - 1], ids[|ids| - 1];
      OthersSplit(init, shown, available);
      SplitConcat(Others(init, shown), if last in shown then [] else [last], available);
      OthersConcat(Visible(init, available), if last in available then [last] else [], shown);
      OthersConcat(Invisible(init, available), if last in available then [] else [last], shown);
      assert [last][..0] == [];
    }
  }

  lemma {:induction false} OthersConcat(a: seq<Id>, b: seq<Id>, shown: seq<Id>)
    ensures Others(a + b, shown) == Others(a, shown) + Others(b, shown)
  {
    if b == [] {
      assert a + b == a;
    } else {
      assert (a + b)[..|a + b| - 1] == a + b[..|b| - 1];
      OthersConcat(a, b[..|b| - 1], shown);
    }
  }

  /** Nothing is taken out if and only if nothing is shown. */
  lemma {:induction false} OthersIsAllIff(ids: seq<Id>, shown: seq<Id>)
    ensures |Others(ids, shown)| <= |ids|
    ensures Others(ids, shown) == ids <==> forall id :: id in ids ==> id !in shown
  {
    if ids != [] {
      var init, last := ids[..|ids| - 1], ids[|ids| - 1];
      assert ids == init + [last];
      OthersIsAllIff(init, shown);
    }
  }

  /** Nothing is left if and only if everything is shown. */
  lemma {:induction false} OthersIsNoneIff(ids: seq<Id>, shown: seq<Id>)
    ensures Others(ids, shown) == [] <==> forall id :: id in ids ==> id in shown
  {
    if ids != [] {
      var init, last := ids[..|ids| - 1], ids[|ids| - 1];
      assert ids == init + [last];
      OthersIsNoneIff(init, shown);
    }
  }

  lemma {:induction false} SplitConcat(a: seq<Id>, b: seq<Id>, available: set<Id>)
    ensures Visible(a + b, available) == Visible(a, available) + Visible(b, available)
    ensures Invisible(a + b, available) == Invisible(a, available) + Invisible(b, available)
  {
    if b == [] {
      assert a + b == a;
    } else {
      assert (a + b)[..|a + b| - 1] == a + b[..|b| - 1];
      SplitConcat(a, b[..|b| - 1], available);
    }
  }

  lemma {:induction false} InvisibleMembers(ids: seq<Id>, available: set<Id>, id: Id)
    ensures id in Invisible(ids, available) <==> id in ids && id !in available
  {
    if ids != [] {
      var init, last := ids[..|ids| - 1], ids[|ids| - 1];
      InvisibleMembers(init, available, id);
      assert ids == init + [last];
    }
  }

  lemma {:induction false} AllVisible(ids: seq<Id>, available: set<Id>)
    requires forall id :: id in ids ==> id in available
    ensures Visible(ids, available) == ids && Invisible(ids, available) == []
  {
    if ids != [] {
      var init, last := ids[..|ids| - 1], ids[|ids| - 1];
      assert ids == init + [last];
      AllVisible(init, available);
    }
  }

  /** Whatever list of shown ids and whatever edit the form brings back: of the ids the user sees, those not
      listed stay and those entered come; of the ids out of sight, likewise. */
  lemma SavedParts(ids: seq<Id>, available: set<Id>, shown: seq<Id>, edited: seq<Id>)
    ensures var saved := Saved(ids, shown, edited);
            && Visible(saved, available) == Others(Visible(ids, available), shown) + Visible(edited, available)
            && Invisible(saved, available) == Others(Invisible(ids, available), shown) + Invisible(edited, available)
  {
    SplitConcat(Others(ids, shown), edited, available);
    OthersSplit(ids, shown, available);
  }

  /** Every id out of the user's sight is saved, in order and before any that is entered,
      if and only if the form lists none of them as shown. */
  lemma HiddenIdsStayIff(ids: seq<Id>, available: set<Id>, shown: seq<Id>, edited: seq<Id>)
    ensures Invisible(Saved(ids, shown, edited), available) == Invisible(ids, available) + Invisible(edited, available)
            <==> forall id :: id in ids && id !in available ==> id !in shown
  {
    var hidden := Invisible(ids, available);
    SavedParts(ids, available, shown, edited);
    OthersIsAllIff(hidden, shown);
    SameWithTail(Others(hidden, shown), hidden, Invisible(edited, available));
    forall id
      ensures id in hidden <==> id in ids && id !in available
    {
      InvisibleMembers(ids, available, id);
    }
  }

  lemma SameWithTail(a: seq<Id>, b: seq<Id>, tail: seq<Id>)
    ensures a + tail == b + tail <==> a == b
  {
    if a + tail == b + tail {
      assert |a| == |b| && a == (a + tail)[..|a|] && b == (b + tail)[..|b|];
    }
  }

  /** When the form lists what the user was shown, saving keeps what is out of sight and replaces what was
      in sight by the edit, whatever the edit holds. */
  lemma ViewEditSave(ids: seq<Id>, available: set<Id>, edited: seq<Id>)
    ensures var saved := Saved(ids, Visible(ids, available), edited);
            && Invisible(saved, available) == Invisible(ids, available) + Invisible(edited, available)
            && Visible(saved, available) == Visible(edited, available)
  {
    var shown := Visible(ids, available);
    forall id
      ensures id in shown <==> id in ids && id in available
    {
      VisibleMembers(ids, available, id);
    }
    HiddenIdsStayIff(ids, available, shown, edited);
    SavedParts(ids, available, shown, edited);
    OthersIsNoneIff(shown, shown);
  }

  lemma {:induction false} SplitIsPermutation(ids: seq<Id>, available: set<Id>)
    ensures multiset(Invisible(ids, available)) + multiset(Visible(ids, available)) == multiset(ids)
  {
    if ids != [] {
      var init, last := ids[..|ids| - 1], ids[|ids| - 1];
      SplitIsPermutation(init, available);
      assert ids == init + [last];
      assert multiset(ids) == multiset(init) + multiset{last};
      if last in available {
        assert multiset(Visible(ids, available)) == multiset(Visible(init, available)) + multiset{last};
        assert multiset(Invisible(ids, available)) == multiset(Invisible(init, available));
      } else {
        assert multiset(Invisible(ids, available)) == multiset(Invisible(init, available)) + multiset{last};
        assert multiset(Visible(ids, available)) == multiset(Visible(init, available));
      }
    }
  }

  lemma {:induction false} OthersWhenShown(ids: seq<Id>, shown: seq<Id>, available: set<Id>)
    requires forall id :: id in ids ==> (id in shown <==> id in available)
    ensures Others(ids, shown) == Invisible(ids, available)
  {
    if ids != [] {
      var init, last := ids[..|ids| - 1], ids[|ids| - 1];
      assert ids == init + [last];
      OthersWhenShown(init, shown, available);
    }
  }

  /** With no edit the saved ids are the original ones, repeats included, in another order. */
  lemma ViewSaveIsPermutation(ids: seq<Id>, available: set<Id>)
    ensures multiset(Saved(ids, Visible(ids, available), Visible(ids, available))) == multiset(ids)
  {
    forall id | id in ids
      ensures id in Visible(ids, available) <==> id in available
    {
      VisibleMembers(ids, available, id);
    }
    OthersWhenShown(ids, Visible(ids, available), available);
    SplitIsPermutation(ids, available);
  }

  /** An id the user took out is gone if and only if the saved form still lists it among those shown. */
  lemma {:induction false} RemovedIsGoneIff(all: seq<Id>, shown: seq<Id>, edited: seq<Id>, id: Id)
    requires id in all && id !in edited
    ensures id !in Saved(all, shown, edited) <==> id in shown
  {
    var init, last := all[..|all| - 1], all[|all| - 1];
    assert all == init + [last];
    if id in init {
      RemovedIsGoneIff(init, shown, edited, id);
      assert id in Others(all, shown) <==> id in Others(init, shown) || (id == last && last !in shown);
    } else {
      OthersWithin(init, shown, id);
    }
  }

  lemma {:induction false} OthersWithin(all: seq<Id>, shown: seq<Id>, id: Id)
    requires id !in all
    ensures id !in Others(all, shown)
  {
    if all != [] {
      assert all == all[..|all| - 1] + [all[|all| - 1]];
      OthersWithin(all[..|all| - 1], shown, id);
    }
  }

  // ---------- The round trip of a whole workflow ----------

  /** What a search node's form brings back: the ids entered and the knowledge bases listed as shown. */
  datatype Form = Form(ids: seq<Id>, list: seq<Id>)

  /** The user fills in the forms of some search nodes. */
  method Edit(edits: map<SearchData, Form>)
    modifies edits.Keys
    ensures forall d :: d in edits ==>
                          d.knowledgeIds == edits[d].ids && d.knowledgeList == edits[d].list
                          && d.allKnowledgeIds == old(d.allKnowledgeIds)
  {
    var left := edits.Keys;
    while left != {}
      invariant left <= edits.Keys
      invariant forall d :: d in edits ==>
                              && (d !in left ==> d.knowledgeIds == edits[d].ids && d.knowledgeList == edits[d].list)
                              && d.allKnowledgeIds == old(d.allKnowledgeIds)
      decreases |left|
    {
      var d :| d in left;
      d.knowledgeIds := edits[d].ids;
      d.knowledgeList := edits[d].list;
      left := left - {d};
    }
  }

  /** The form of a node that the user leaves alone. */
  function Untouched(ids: seq<Id>, available: set<Id>): Form {
    Form(Visible(ids, available), Visible(ids, available))
  }

  ghost predicate SavedAs(ids: seq<Id>, available: set<Id>, form: Form, saved: seq<Id>) {
    && Visible(saved, available) == Others(Visible(ids, available), form.list) + Visible(form.ids, available)
    && Invisible(saved, available) == Others(Invisible(ids, available), form.list) + Invisible(form.ids, available)
    && ((forall id :: id in form.list ==> id in available)
        ==> Invisible(saved, available) == Invisible(ids, available) + Invisible(form.ids, available))
    && (form == Untouched(ids, available) ==> multiset(saved) == multiset(ids))
  }

  /** Opened, edited and saved: in every search node at any depth, whatever the form brings back, the ids in sight are
      those not listed and those entered; the ids out of sight stay in order unless the form lists them;
      and a node left alone keeps all its ids. */
  method OpenEditSave(workflow: Workflow<SearchData>, available: set<Id>, edits: map<SearchData, Form>)
    requires StandsOnce(workflow)
    requires forall d :: d in edits ==> d in SearchNodes(workflow)
    modifies SearchNodes(workflow)
    ensures forall at :: SearchAt(workflow, at).Some? ==>
                           var d, ids := SearchAt(workflow, at).value, old(SearchAt(workflow, at).value.knowledgeIds);
                           SavedAs(ids, available, if d in edits then edits[d] else Untouched(ids, available),
                                   d.knowledgeIds)
  {
    SearchesAllocated(workflow);
    UpdateKnowledgeNode(workflow, available);
    Edit(edits);
    label edited:
    forall at | SearchAt(workflow, at).Some?
      ensures var d, ids := SearchAt(workflow, at).value, old(SearchAt(workflow, at).value.knowledgeIds);
              var form := if d in edits then edits[d] else Untouched(ids, available);
              && d.allKnowledgeIds == ids && d.knowledgeList == form.list && d.knowledgeIds == form.ids
              && SavedAs(ids, available, form, Saved(ids, form.list, form.ids))
    {
      var d, ids := SearchAt(workflow, at).value, old(SearchAt(workflow, at).value.knowledgeIds);
      SavedNode(ids, available, if d in edits then edits[d] else Untouched(ids, available));
    }
    UpdateWorkFlowModel(workflow);
    forall at | SearchAt(workflow, at).Some?
      ensures var d, ids := SearchAt(workflow, at).value, old(SearchAt(workflow, at).value.knowledgeIds);
              SavedAs(ids, available, if d in edits then edits[d] else Untouched(ids, available), d.knowledgeIds)
    {
      var d := SearchAt(workflow, at).value;
      assert d.knowledgeIds == Saved(old@edited(SearchAt(workflow, at).value.allKnowledgeIds),
                                     old@edited(SearchAt(workflow, at).value.knowledgeList),
                                     old@edited(SearchAt(workflow, at).value.knowledgeIds));
    }
  }

  lemma SavedNode(ids: seq<Id>, available: set<Id>, form: Form)
    ensures SavedAs(ids, available, form, Saved(ids, form.list, form.ids))
  {
    SavedParts(ids, available, form.list, form.ids);
    HiddenIdsStayIff(ids, available, form.list, form.ids);
    ViewSaveIsPermutation(ids, available);
  }
}
