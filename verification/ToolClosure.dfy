/**
 The tools a workflow needs, through the workflows of the tools it uses. Tools may use each other in
 circles. The order in which the database returns rows is left open.
 */
module ToolClosure {
  import opened Wrappers
  import opened WorkflowTree

  /** A row of the tool table; a workflow tool comes with its own workflow. */
  datatype ToolRow = ToolRow(shared: bool, workflow: Option<seq<Stored>>)

  type Tools = map<Id, ToolRow>

  predicate Local(tools: Tools, id: Id) {
    id in tools && !tools[id].shared
  }

  /** A tool of the workspace that has a workflow of its own. */
  predicate Walkable(tools: Tools, id: Id) {
    Local(tools, id) && tools[id].workflow.Some?
  }

  function Body(tools: Tools, id: Id): seq<Stored>
    requires Walkable(tools, id)
  {
    tools[id].workflow.value
  }

  /** Every workflow tool that `w` uses is in `response`. */
  predicate Covers(tools: Tools, w: seq<Stored>, response: seq<Id>) {
    forall id :: id in ToolIds(w) && Walkable(tools, id) ==> id in response
  }

  /** `path` leads from a use in `w` through workflow tools to its last tool, and no tool on it is a shared one. */
  predicate IsPath(tools: Tools, w: seq<Stored>, path: seq<Id>)
    decreases |path|
  {
    && path != [] && path[0] in ToolIds(w) && path[0] in tools && !tools[path[0]].shared
    && (|path| > 1 ==> tools[path[0]].workflow.Some? && IsPath(tools, tools[path[0]].workflow.value, path[1..]))
  }

  ghost predicate Reachable(tools: Tools, w: seq<Stored>, id: Id) {
    exists path :: IsPath(tools, w, path) && path[|path| - 1] == id
  }

  lemma ReachableDirectly(tools: Tools, w: seq<Stored>, id: Id)
    requires id in ToolIds(w) && Local(tools, id)
    ensures Reachable(tools, w, id)
  {
    assert IsPath(tools, w, [id]) && [id][|[id]| - 1] == id;
  }

  lemma ReachableThrough(tools: Tools, w: seq<Stored>, tool: Id, id: Id)
    requires tool in ToolIds(w) && Walkable(tools, tool) && Reachable(tools, Body(tools, tool), id)
    ensures Reachable(tools, w, id)
  {
    var path :| IsPath(tools, Body(tools, tool), path) && path[|path| - 1] == id;
    var longer := [tool] + path;
    assert longer[1..] == path;
    assert IsPath(tools, w, longer) && longer[|longer| - 1] == id;
  }

  /** The ids already in `response` aside, every workflow tool in it has its own uses covered. */
  predicate Followed(tools: Tools, given: seq<Id>, response: seq<Id>) {
    forall id :: id in response && id !in given && Walkable(tools, id) ==> Covers(tools, Body(tools, id), response)
  }

  // ---------- Which level lists which tools ----------

  /** A level lists its tools only if it uses a workflow tool that is not listed yet. */
  predicate Opens(tools: Tools, w: seq<Stored>, response: seq<Id>) {
    !Covers(tools, w, response)
  }

  /** The walk of the workflow tool at position `p` lists its tools. */
  predicate OpensAt(tools: Tools, response: seq<Id>, p: nat) {
    p < |response| && Walkable(tools, response[p]) && Opens(tools, Body(tools, response[p]), response[..p + 1])
  }

  /** The tool is used on the level where the walk began, or on one entered at some position from `from` on,
      and that level lists its tools. */
  ghost predicate ListedBy(tools: Tools, w: seq<Stored>, given: seq<Id>, response: seq<Id>, id: Id) {
    || (id in ToolIds(w) && Opens(tools, w, given))
    || exists p :: |given| <= p < |response| && OpensAt(tools, response, p) && id in ToolIds(Body(tools, response[p]))
  }

  /** Each tool that was added is listed by a level entered before, and a level that lists its tools leaves
      none out. */
  ghost predicate Levels(tools: Tools, w: seq<Stored>, given: seq<Id>, response: seq<Id>) {
    && given <= response
    && (forall q :: |given| <= q < |response| ==> ListedBy(tools, w, given, response[..q], response[q]))
    && (forall id :: Local(tools, id) && ListedBy(tools, w, given, response, id) ==> id in response)
  }

  /** So far: the tools in `done` of the beginning level have been pushed, and what their walks opened is listed. */
  ghost predicate LevelsSoFar(tools: Tools, w: seq<Stored>, given: seq<Id>, response: seq<Id>) {
    && given <= response
    && (forall q :: |given| <= q < |response| ==> ListedBy(tools, w, given, response[..q], response[q]))
    && (forall p :: |given| <= p < |response| && OpensAt(tools, response, p) ==>
          AllListed(tools, response[p], response))
  }

  ghost predicate AllListed(tools: Tools, tool: Id, response: seq<Id>)
    requires Walkable(tools, tool)
  {
    forall id :: id in ToolIds(Body(tools, tool)) && Local(tools, id) ==> id in response
  }

  lemma OpensAtKept(tools: Tools, before: seq<Id>, response: seq<Id>, p: nat)
    requires before <= response && p < |before|
    ensures OpensAt(tools, response, p) <==> OpensAt(tools, before, p)
  {
    assert response[..p + 1] == before[..p + 1];
  }

  lemma ListedByKept(tools: Tools, w: seq<Stored>, given: seq<Id>, before: seq<Id>, response: seq<Id>, id: Id)
    requires before <= response && ListedBy(tools, w, given, before, id)
    ensures ListedBy(tools, w, given, response, id)
  {
    if !(id in ToolIds(w) && Opens(tools, w, given)) {
      var p :| |given| <= p < |before| && OpensAt(tools, before, p) && id in ToolIds(Body(tools, before[p]));
      OpensAtKept(tools, before, response, p);
    }
  }

  /** A tool listed by the nested walk is listed by the whole. */
  lemma ListedByNested(tools: Tools, w: seq<Stored>, given: seq<Id>, before: seq<Id>, tool: Id, response: seq<Id>,
                       id: Id)
    requires given <= before && before + [tool] <= response && Walkable(tools, tool)
    requires ListedBy(tools, Body(tools, tool), before + [tool], response, id)
    ensures ListedBy(tools, w, given, response, id)
  {
    if id in ToolIds(Body(tools, tool)) && Opens(tools, Body(tools, tool), before + [tool]) {
      assert response[..|before| + 1] == before + [tool];
      assert OpensAt(tools, response, |before|);
    }
  }

  /** A plain tool pushed. */
  lemma PushedLevels(tools: Tools, w: seq<Stored>, given: seq<Id>, before: seq<Id>, tool: Id)
    requires LevelsSoFar(tools, w, given, before) && tool in ToolIds(w) && Opens(tools, w, given)
    requires !Walkable(tools, tool)
    ensures LevelsSoFar(tools, w, given, before + [tool])
  {
    var response := before + [tool];
    forall q | |given| <= q < |response|
      ensures ListedBy(tools, w, given, response[..q], response[q])
    {
      if q < |before| { assert response[..q] == before[..q] && response[q] == before[q]; }
    }
    forall p | |given| <= p < |response| && OpensAt(tools, response, p)
      ensures AllListed(tools, response[p], response)
    {
      OpensAtKept(tools, before, response, p);
    }
  }

  /** A workflow tool pushed and walked. */
  lemma WalkedLevels(tools: Tools, w: seq<Stored>, given: seq<Id>, before: seq<Id>, tool: Id, response: seq<Id>)
    requires LevelsSoFar(tools, w, given, before) && tool in ToolIds(w) && Opens(tools, w, given)
    requires Walkable(tools, tool)
    requires Levels(tools, Body(tools, tool), before + [tool], response)
    ensures LevelsSoFar(tools, w, given, response)
  {
    var pushed := before + [tool];
    forall q | |given| <= q < |response|
      ensures ListedBy(tools, w, given, response[..q], response[q])
    {
      if q < |before| {
        assert response[..q] == before[..q] && response[q] == before[q];
      } else if q > |before| {
        ListedByNested(tools, w, given, before, tool, response[..q], response[q]);
      }
    }
    forall p | |given| <= p < |response| && OpensAt(tools, response, p)
      ensures AllListed(tools, response[p], response)
    {
      OpenedIsListed(tools, w, given, before, tool, response, p);
    }
  }

  lemma OpenedIsListed(tools: Tools, w: seq<Stored>, given: seq<Id>, before: seq<Id>, tool: Id, response: seq<Id>,
                       p: nat)
    requires LevelsSoFar(tools, w, given, before) && Walkable(tools, tool)
    requires Levels(tools, Body(tools, tool), before + [tool], response)
    requires |given| <= p < |response| && OpensAt(tools, response, p)
    ensures AllListed(tools, response[p], response)
  {
    var pushed := before + [tool];
    PrefixMembers(pushed, response);
    if p < |before| {
      OpensAtKept(tools, before, response, p);
      assert AllListed(tools, before[p], before);
      PrefixMembers(before, response);
    } else {
      assert p == |before| ==> response[..p + 1] == pushed && response[p] == tool;
      forall id | id in ToolIds(Body(tools, response[p])) && Local(tools, id)
        ensures id in response
      {
        assert ListedBy(tools, Body(tools, tool), pushed, response, id);
      }
    }
  }

  lemma FinishedLevels(tools: Tools, w: seq<Stored>, given: seq<Id>, response: seq<Id>)
    requires LevelsSoFar(tools, w, given, response)
    requires Opens(tools, w, given) ==> forall id :: id in ToolIds(w) && Local(tools, id) ==> id in response
    ensures Levels(tools, w, given, response)
  {
    forall id | Local(tools, id) && ListedBy(tools, w, given, response, id)
      ensures id in response
    {
      if !(id in ToolIds(w) && Opens(tools, w, given)) {
        var p :| |given| <= p < |response| && OpensAt(tools, response, p) && id in ToolIds(Body(tools, response[p]));
        assert AllListed(tools, response[p], response);
      }
    }
  }

  ghost predicate Sound(tools: Tools, w: seq<Stored>, given: seq<Id>, response: seq<Id>) {
    given <= response && forall id :: id in response[|given|..] ==> Reachable(tools, w, id)
  }

  lemma PrefixMembers(a: seq<Id>, b: seq<Id>)
    requires a <= b
    ensures forall id :: id in a ==> id in b
  {
    forall id | id in a
      ensures id in b
    {
      var k :| 0 <= k < |a| && a[k] == id;
      assert b[k] == id;
    }
  }

  function Open(tools: Tools, response: seq<Id>): set<Id> {
    set id | id in tools && id !in response
  }

  // ---------- The row orders ----------

  /** Each member of `s` once, in some order. */
  ghost predicate OrderOf(order: seq<Id>, s: set<Id>) {
    (forall id :: id in order <==> id in s) && forall j, k :: 0 <= j < k < |order| ==> order[j] != order[k]
  }

  /** The tools of a level that are not listed yet. */
  ghost function Rows(tools: Tools, w: seq<Stored>, given: seq<Id>): set<Id> {
    set id | id in ToolIds(w) && id !in given && Local(tools, id)
  }

  /** An order in which the database may return them. */
  ghost predicate RowsOf(tools: Tools, w: seq<Stored>, given: seq<Id>, order: seq<Id>) {
    OrderOf(order, Rows(tools, w, given))
  }

  /** The level may come to `response` if the rows come in the right order, here and below. */
  ghost predicate MayWalk(tools: Tools, w: seq<Stored>, given: seq<Id>, response: seq<Id>)
    decreases Open(tools, given), 1, 0
  {
    if Covers(tools, w, given) then response == given
    else exists order :: RowsOf(tools, w, given, order) && MayFollow(tools, given, order, response)
  }

  /** The rows in `order`, each followed to the end before the next. */
  ghost predicate MayFollow(tools: Tools, given: seq<Id>, order: seq<Id>, response: seq<Id>)
    decreases Open(tools, given), 0, |order|
  {
    if order == [] then response == given
    else
      var tool := order[|order| - 1];
      && tool in tools && tool !in given
      && exists before :: MayFollow(tools, given, order[..|order| - 1], before) && given <= before
                          && if Walkable(tools, tool) then
                               OpenShrinks(tools, given, before, tool);
                               MayWalk(tools, Body(tools, tool), before + [tool], response)
                             else response == before + [tool]
  }

  lemma OneMoreRow(order: seq<Id>, tool: Id, s: set<Id>)
    requires OrderOf(order, s) && tool !in s
    ensures OrderOf(order + [tool], s + {tool})
  {
    assert forall k :: 0 <= k < |order| ==> order[k] in order;
  }

  lemma RowTaken(order: seq<Id>, tool: Id, all: set<Id>, left: set<Id>)
    requires tool in left && left <= all && OrderOf(order, all - left)
    ensures OrderOf(order + [tool], all - (left - {tool}))
  {
    OneMoreRow(order, tool, all - left);
    assert all - left + {tool} == all - (left - {tool});
  }

  lemma FollowedOneMore(tools: Tools, given: seq<Id>, order: seq<Id>, tool: Id, before: seq<Id>, response: seq<Id>)
    requires MayFollow(tools, given, order, before) && tool in tools && tool !in given && given <= before
    requires if Walkable(tools, tool) then MayWalk(tools, Body(tools, tool), before + [tool], response)
             else response == before + [tool]
    ensures MayFollow(tools, given, order + [tool], response)
  {
    assert (order + [tool])[..|order|] == order;
  }

  /** One level at a time, depth first; a level that uses no new workflow tool adds nothing at all. */
  method GetChildToolIdList(tools: Tools, workflow: seq<Stored>, given: seq<Id>) returns (response: seq<Id>)
    ensures Sound(tools, workflow, given, response)
    ensures Followed(tools, given, response) && Covers(tools, workflow, response)
    ensures response == given <==> Covers(tools, workflow, given)
    ensures Levels(tools, workflow, given, response) && MayWalk(tools, workflow, given, response)
    decreases Open(tools, given)
  {
    var found := GetToolIdList(workflow);
    var unseen := set id | id in found && id !in given;
    response := given;
    var toolList := set id | id in unseen && Local(tools, id);
    var workflowTools := set id | id in toolList && tools[id].workflow.Some?;
    assert toolList == Rows(tools, workflow, given);
    assert workflowTools == set id | id in toolList && Walkable(tools, id);
    if unseen != {} && workflowTools != {} {
      var id :| id in workflowTools;
      assert Walkable(tools, id);
      ghost var order;
      response, order := FollowAll(tools, workflow, given, toolList);
      LevelFollowed(tools, workflow, given, order, response);
    } else {
      assert forall id :: id in toolList && Walkable(tools, id) ==> id in workflowTools;
      LevelClosed(tools, workflow, given);
    }
  }

  /** A level without a new workflow tool. */
  lemma LevelClosed(tools: Tools, w: seq<Stored>, given: seq<Id>)
    requires forall id :: id in Rows(tools, w, given) ==> !Walkable(tools, id)
    ensures Covers(tools, w, given) && Levels(tools, w, given, given) && MayWalk(tools, w, given, given)
  {
    forall id | id in ToolIds(w) && Walkable(tools, id)
      ensures id in given
    {
      assert id in given || id in Rows(tools, w, given);
    }
    FinishedLevels(tools, w, given, given);
  }

  /** A level with one, when all its rows have been followed. */
  lemma LevelFollowed(tools: Tools, w: seq<Stored>, given: seq<Id>, order: seq<Id>, response: seq<Id>)
    requires SoFar(tools, w, given, order, response) && RowsOf(tools, w, given, order) && Opens(tools, w, given)
    ensures Covers(tools, w, response) && response != given
    ensures Levels(tools, w, given, response) && MayWalk(tools, w, given, response)
  {
    PrefixMembers(given, response);
    forall id | id in ToolIds(w) && Local(tools, id)
      ensures id in response
    {
      assert id in given || id in Rows(tools, w, given);
    }
    var id :| id in ToolIds(w) && Walkable(tools, id) && id !in given;
    assert id in Rows(tools, w, given);
    FinishedLevels(tools, w, given, response);
  }

  /** What holds when the rows in `order` have been followed. */
  ghost predicate SoFar(tools: Tools, w: seq<Stored>, given: seq<Id>, order: seq<Id>, response: seq<Id>) {
    && Sound(tools, w, given, response) && Followed(tools, given, response)
    && LevelsSoFar(tools, w, given, response) && MayFollow(tools, given, order, response)
    && (forall id :: id in order ==> id in response)
    && (order != [] ==> |response| > |given|)
  }

  lemma PushedSoFar(tools: Tools, w: seq<Stored>, given: seq<Id>, order: seq<Id>, before: seq<Id>, tool: Id)
    requires SoFar(tools, w, given, order, before) && Opens(tools, w, given)
    requires tool in ToolIds(w) && tool !in given && Local(tools, tool) && !Walkable(tools, tool)
    ensures SoFar(tools, w, given, order + [tool], before + [tool])
  {
    PushedLevels(tools, w, given, before, tool);
    PrefixMembers(given, before);
    FollowedOneMore(tools, given, order, tool, before, before + [tool]);
    ReachableDirectly(tools, w, tool);
    assert (before + [tool])[|given|..] == before[|given|..] + [tool];
  }

  lemma WalkedSoFar(tools: Tools, w: seq<Stored>, given: seq<Id>, order: seq<Id>, before: seq<Id>, tool: Id,
                    response: seq<Id>)
    requires SoFar(tools, w, given, order, before) && Opens(tools, w, given)
    requires tool in ToolIds(w) && tool !in given && Walkable(tools, tool)
    requires Sound(tools, Body(tools, tool), before + [tool], response)
    requires Followed(tools, before + [tool], response) && Covers(tools, Body(tools, tool), response)
    requires Levels(tools, Body(tools, tool), before + [tool], response)
    requires MayWalk(tools, Body(tools, tool), before + [tool], response)
    ensures SoFar(tools, w, given, order + [tool], response)
  {
    Walked(tools, w, given, before, tool, response);
    WalkedLevels(tools, w, given, before, tool, response);
    PrefixMembers(given, before);
    FollowedOneMore(tools, given, order, tool, before, response);
    PrefixMembers(before + [tool], response);
  }

  method FollowAll(tools: Tools, workflow: seq<Stored>, given: seq<Id>, toolList: set<Id>)
    returns (response: seq<Id>, ghost order: seq<Id>)
    requires forall id :: id in toolList ==> id in ToolIds(workflow) && id !in given && Local(tools, id)
    requires Opens(tools, workflow, given)
    ensures SoFar(tools, workflow, given, order, response) && OrderOf(order, toolList)
    decreases Open(tools, given), 0
  {
    response, order := given, [];
    var left := toolList;
    while left != {}
      invariant left <= toolList && OrderOf(order, toolList - left)
      invariant SoFar(tools, workflow, given, order, response)
      decreases |left|
    {
      var tool :| tool in left;
      RowTaken(order, tool, toolList, left);
      left := left - {tool};
      ghost var before := response;
      response := response + [tool];
      if tools[tool].workflow.Some? {
        OpenShrinks(tools, given, before, tool);
        response := GetChildToolIdList(tools, Body(tools, tool), response);
        WalkedSoFar(tools, workflow, given, order, before, tool, response);
      } else {
        PushedSoFar(tools, workflow, given, order, before, tool);
      }
      order := order + [tool];
    }
    assert toolList - left == toolList;
  }

  lemma OpenShrinks(tools: Tools, given: seq<Id>, before: seq<Id>, tool: Id)
    requires given <= before && tool in tools && tool !in given
    ensures Open(tools, before + [tool]) < Open(tools, given)
  {
    PrefixMembers(given, before);
    assert tool in before + [tool] && tool in Open(tools, given);
  }

  /** A workflow tool pushed and then walked keeps what the loop promises. */
  lemma Walked(tools: Tools, w: seq<Stored>, given: seq<Id>, before: seq<Id>, tool: Id, response: seq<Id>)
    requires Sound(tools, w, given, before) && Followed(tools, given, before)
    requires tool in ToolIds(w) && Walkable(tools, tool)
    requires Sound(tools, Body(tools, tool), before + [tool], response)
    requires Followed(tools, before + [tool], response) && Covers(tools, Body(tools, tool), response)
    ensures Sound(tools, w, given, response) && Followed(tools, given, response)
  {
    var pushed := before + [tool];
    ReachableDirectly(tools, w, tool);
    forall id | id in response[|given|..]
      ensures Reachable(tools, w, id)
    {
      var k :| |given| <= k < |response| && response[k] == id;
      if k < |before| {
        assert before[|given|..][k - |given|] == id;
      } else if k > |before| {
        assert response[|pushed|..][k - |pushed|] == id;
        ReachableThrough(tools, w, tool, id);
      }
    }
    PrefixMembers(before, response);
  }

  /** Cycles or not: the workflow tools listed are exactly those reachable through workflow tools,
      and every tool listed is reachable. */
  method Closure(tools: Tools, workflow: seq<Stored>) returns (response: seq<Id>)
    ensures forall id :: id in response ==> Reachable(tools, workflow, id) && id in tools && !tools[id].shared
    ensures forall id :: id in tools && tools[id].workflow.Some? ==>
                           (id in response <==> Reachable(tools, workflow, id))
    ensures response == [] <==> Covers(tools, workflow, [])
    ensures forall id :: Local(tools, id) ==> (id in response <==> ListedBy(tools, workflow, [], response, id))
    ensures Levels(tools, workflow, [], response) && MayWalk(tools, workflow, [], response)
  {
    var none: seq<Id> := [];
    response := GetChildToolIdList(tools, workflow, none);
    assert response[|none|..] == response;
    EachIsListed(tools, workflow, response);
    ReachableIsLocal(tools, workflow);
    ReachableIsCovered(tools, workflow, response);
  }

  lemma EachIsListed(tools: Tools, w: seq<Stored>, response: seq<Id>)
    requires Levels(tools, w, [], response)
    ensures forall id :: id in response ==> ListedBy(tools, w, [], response, id)
  {
    var none: seq<Id> := [];
    forall id | id in response
      ensures ListedBy(tools, w, [], response, id)
    {
      var q :| 0 <= q < |response| && response[q] == id;
      ListedByKept(tools, w, none, response[..q], response, response[q]);
    }
  }

  lemma ReachableIsLocal(tools: Tools, w: seq<Stored>)
    ensures forall id :: Reachable(tools, w, id) ==> Local(tools, id)
  {
    forall id | Reachable(tools, w, id)
      ensures Local(tools, id)
    {
      var path :| IsPath(tools, w, path) && path[|path| - 1] == id;
      PathEndsLocal(tools, w, path);
    }
  }

  lemma ReachableIsCovered(tools: Tools, w: seq<Stored>, response: seq<Id>)
    requires Covers(tools, w, response) && Followed(tools, [], response)
    ensures forall id :: Walkable(tools, id) && Reachable(tools, w, id) ==> id in response
  {
    forall id | Walkable(tools, id) && Reachable(tools, w, id)
      ensures id in response
    {
      var path :| IsPath(tools, w, path) && path[|path| - 1] == id;
      PathIsCovered(tools, w, path, response);
    }
  }

  lemma {:induction false} PathEndsLocal(tools: Tools, w: seq<Stored>, path: seq<Id>)
    requires IsPath(tools, w, path)
    ensures Local(tools, path[|path| - 1])
    decreases |path|
  {
    if |path| > 1 {
      PathEndsLocal(tools, Body(tools, path[0]), path[1..]);
    }
  }

  lemma {:induction false} PathIsCovered(tools: Tools, w: seq<Stored>, path: seq<Id>, response: seq<Id>)
    requires IsPath(tools, w, path) && Walkable(tools, path[|path| - 1])
    requires Covers(tools, w, response) && Followed(tools, [], response)
    ensures path[|path| - 1] in response
    decreases |path|
  {
    if |path| > 1 {
      assert path[0] in response;
      PathIsCovered(tools, Body(tools, path[0]), path[1..], response);
    }
  }

  // ---------- Plain tools that are always listed ----------

  /** The walk of this tool listed the tools on its level. */
  ghost predicate OpenedIn(tools: Tools, response: seq<Id>, tool: Id) {
    exists p :: 0 <= p < |response| && response[p] == tool && OpensAt(tools, response, p)
  }

  lemma {:induction false} PathExtends(tools: Tools, w: seq<Stored>, path: seq<Id>, id: Id)
    requires IsPath(tools, w, path) && Walkable(tools, path[|path| - 1])
    requires id in ToolIds(Body(tools, path[|path| - 1])) && Local(tools, id)
    ensures IsPath(tools, w, path + [id])
    decreases |path|
  {
    assert (path + [id])[1..] == path[1..] + [id];
    if |path| > 1 {
      PathExtends(tools, Body(tools, path[0]), path[1..], id);
    } else {
      assert path[1..] + [id] == [id];
    }
  }

  lemma LastSplit(path: seq<Id>, id: Id)
    requires path != []
    ensures (path + [id])[..|path|] == path == path[..|path| - 1] + [path[|path| - 1]]
  {
  }

  /** A listed tool is at the end of a path all of whose levels have listed their tools. */
  lemma {:induction false} OpenedPath(tools: Tools, w: seq<Stored>, response: seq<Id>, q: nat) returns (path: seq<Id>)
    requires Levels(tools, w, [], response) && q < |response| && forall id :: id in response ==> Local(tools, id)
    ensures IsPath(tools, w, path) && path[|path| - 1] == response[q]
    ensures forall tool :: tool in path[..|path| - 1] ==> OpenedIn(tools, response, tool)
  {
    var before, id := response[..q], response[q];
    assert ListedBy(tools, w, [], before, id) && id in response;
    if id in ToolIds(w) && Opens(tools, w, []) {
      path := [id];
    } else {
      var p :| 0 <= p < |before| && OpensAt(tools, before, p) && id in ToolIds(Body(tools, before[p]));
      OpensAtKept(tools, before, response, p);
      var shorter := OpenedPath(tools, w, response, p);
      assert response[p] == before[p] && response[q] in response;
      PathExtends(tools, w, shorter, id);
      path := shorter + [id];
      LastSplit(shorter, id);
      forall tool | tool in path[..|path| - 1]
        ensures OpenedIn(tools, response, tool)
      {
        assert tool in shorter[..|shorter| - 1] || tool == response[p];
      }
    }
  }

  /** Every tool on a level is listed, whatever the order of the rows, if some workflow tool is reachable, but only
      through that level. */
  lemma AlwaysListed(tools: Tools, w: seq<Stored>, response: seq<Id>, tool: Id, beyond: Id, id: Id)
    requires Levels(tools, w, [], response) && forall other :: other in response ==> Local(tools, other)
    requires forall other :: Walkable(tools, other) ==> (other in response <==> Reachable(tools, w, other))
    requires Walkable(tools, tool) && id in ToolIds(Body(tools, tool)) && Local(tools, id)
    requires Walkable(tools, beyond) && Reachable(tools, w, beyond)
    requires forall path :: IsPath(tools, w, path) && path[|path| - 1] == beyond ==> tool in path[..|path| - 1]
    ensures id in response
  {
    var q :| 0 <= q < |response| && response[q] == beyond;
    var path := OpenedPath(tools, w, response, q);
    assert OpenedIn(tools, response, tool);
    assert ListedBy(tools, w, [], response, id);
  }

  // ---------- Where the order of the rows decides ----------

  /** The workflow uses two workflow tools; the first uses the second and a plain tool, the second uses none. */
  ghost predicate TwoTools(tools: Tools, w: seq<Stored>, first: Id, second: Id, plain: Id) {
    && ToolIds(w) == [first, second] && Walkable(tools, first) && Walkable(tools, second)
    && ToolIds(Body(tools, first)) == [second, plain] && ToolIds(Body(tools, second)) == []
    && Local(tools, plain) && !Walkable(tools, plain) && first != second
  }

  /** One order of the rows lists the plain tool, the other does not. */
  lemma RowOrderDecides(tools: Tools, w: seq<Stored>, first: Id, second: Id, plain: Id)
    requires TwoTools(tools, w, first, second, plain)
    ensures MayWalk(tools, w, [], [first, second, plain, second]) && MayWalk(tools, w, [], [second, first])
    ensures plain in [first, second, plain, second] && plain !in [second, first]
  {
    assert plain != first && plain != second;
    ListsPlain(tools, w, first, second, plain);
    OmitsPlain(tools, w, first, second, plain);
  }

  lemma ListsPlain(tools: Tools, w: seq<Stored>, first: Id, second: Id, plain: Id)
    requires TwoTools(tools, w, first, second, plain)
    ensures MayWalk(tools, w, [], [first, second, plain, second])
  {
    NestedListsPlain(tools, w, first, second, plain);
    NothingRow(tools, []);
    assert [] + [first] == [first] && [first] + [second] == [first, second];
    FollowedOneMore(tools, [], [], first, [], [first, second, plain]);
    assert [first, second, plain] + [second] == [first, second, plain, second];
    FollowedOneMore(tools, [], [first], second, [first, second, plain], [first, second, plain, second]);
    assert first in ToolIds(w);
    assert RowsOf(tools, w, [], [first, second]);
  }

  lemma NothingRow(tools: Tools, given: seq<Id>)
    ensures MayFollow(tools, given, [], given)
  {
  }

  /** The walk of the first tool, if it comes first. */
  lemma NestedListsPlain(tools: Tools, w: seq<Stored>, first: Id, second: Id, plain: Id)
    requires TwoTools(tools, w, first, second, plain)
    ensures MayWalk(tools, Body(tools, first), [first], [first, second, plain])
  {
    NothingRow(tools, [first]);
    assert [first] + [second] == [first, second] && [first, second] + [plain] == [first, second, plain];
    FollowedOneMore(tools, [first], [], second, [first], [first, second]);
    FollowedOneMore(tools, [first], [second], plain, [first, second], [first, second, plain]);
    assert [] + [second] == [second] && [second] + [plain] == [second, plain];
    assert second in ToolIds(Body(tools, first)) && second !in [first];
    assert RowsOf(tools, Body(tools, first), [first], [second, plain]);
  }

  lemma OmitsPlain(tools: Tools, w: seq<Stored>, first: Id, second: Id, plain: Id)
    requires TwoTools(tools, w, first, second, plain)
    ensures MayWalk(tools, w, [], [second, first])
  {
    NothingRow(tools, []);
    assert [] + [second] == [second] && [second] + [first] == [second, first];
    FollowedOneMore(tools, [], [], second, [], [second]);
    FollowedOneMore(tools, [], [second], first, [second], [second, first]);
    assert first in ToolIds(w);
    assert RowsOf(tools, w, [], [second, first]);
  }

  // ---------- Plain tools that get lost ----------

  predicate UsesWorkflowTool(tools: Tools, w: seq<Stored>) {
    exists id :: id in ToolIds(w) && Walkable(tools, id)
  }

  /** A tool used only on levels that use no workflow tool is never listed, though it is reachable. */
  lemma ToolsBesideNoWorkflowToolAreLost(tools: Tools, workflow: seq<Stored>, response: seq<Id>, id: Id)
    requires id in ToolIds(workflow) ==> !UsesWorkflowTool(tools, workflow)
    requires forall tool :: Walkable(tools, tool) && id in ToolIds(Body(tools, tool)) ==>
               !UsesWorkflowTool(tools, Body(tools, tool))
    ensures !ListedBy(tools, workflow, [], response, id)
  {
    forall p | 0 <= p < |response| && OpensAt(tools, response, p)
      ensures id !in ToolIds(Body(tools, response[p]))
    {
      assert UsesWorkflowTool(tools, Body(tools, response[p]));
    }
  }

  ghost predicate LoneTool(tools: Tools, workflow: seq<Stored>, tool: Id, plain: Id) {
    && ToolIds(workflow) == [tool] && Walkable(tools, tool) && ToolIds(Body(tools, tool)) == [plain]
    && Local(tools, plain) && !Walkable(tools, plain)
  }

  lemma ReachableFromLone(tools: Tools, workflow: seq<Stored>, tool: Id, plain: Id, path: seq<Id>)
    requires LoneTool(tools, workflow, tool, plain) && IsPath(tools, workflow, path)
    ensures path == [tool] || path == [tool, plain]
  {
    assert path[0] == tool;
    if |path| > 1 {
      assert IsPath(tools, Body(tools, tool), path[1..]);
      assert path[1..][0] == plain;
      assert |path[1..]| == 1;
    }
  }

  lemma PlainIsNotListed(tools: Tools, workflow: seq<Stored>, tool: Id, plain: Id, response: seq<Id>)
    requires LoneTool(tools, workflow, tool, plain)
    requires forall id :: id in response ==> Reachable(tools, workflow, id)
    ensures !ListedBy(tools, workflow, [], response, plain)
  {
    forall p | 0 <= p < |response|
      ensures !OpensAt(tools, response, p)
    {
      assert response[p] in response;
      var path :| IsPath(tools, workflow, path) && path[|path| - 1] == response[p];
      ReachableFromLone(tools, workflow, tool, plain, path);
    }
  }

  /** A workflow that uses one workflow tool, whose own workflow uses one plain tool: whatever `Closure`
      gives, it lists the first and not the second, which is reachable too. */
  lemma LoneToolIsLost(tools: Tools, workflow: seq<Stored>, tool: Id, plain: Id, response: seq<Id>)
    requires LoneTool(tools, workflow, tool, plain)
    requires forall id :: id in response ==> Reachable(tools, workflow, id) && Local(tools, id)
    requires forall id :: Local(tools, id) ==> (id in response <==> ListedBy(tools, workflow, [], response, id))
    ensures tool in response && plain !in response && Reachable(tools, workflow, plain)
  {
    assert tool in ToolIds(workflow) && plain in ToolIds(Body(tools, tool));
    assert Opens(tools, workflow, []);
    PlainIsNotListed(tools, workflow, tool, plain, response);
    ReachableDirectly(tools, Body(tools, tool), plain);
    ReachableThrough(tools, workflow, tool, plain);
  }
}
