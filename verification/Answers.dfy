/** How the answers of the executed nodes are grouped for display. */
module Answers {
  datatype ViewType = ManyView | SingleView

  datatype Answer = Answer(content: string, view: ViewType)

  type Group = seq<Answer>

  function Shown(answers: seq<Answer>): seq<Answer> {
    if answers == [] then []
    else Shown(answers[..|answers| - 1])
         + (if |answers[|answers| - 1].content| > 0 then [answers[|answers| - 1]] else [])
  }

  /** `shown` are the answers at the places `at`: all that have content, in order. */
  ghost predicate Nonempty(answers: seq<Answer>, at: seq<nat>, shown: seq<Answer>) {
    && |at| == |shown| && (forall j, k :: 0 <= j < k < |at| ==> at[j] < at[k])
    && (forall k :: 0 <= k < |at| ==> at[k] < |answers| && answers[at[k]] == shown[k] && shown[k].content != "")
    && (forall i :: 0 <= i < |answers| && answers[i].content != "" ==> i in at)
  }

  lemma {:induction false} ShownAreNonempty(answers: seq<Answer>) returns (at: seq<nat>)
    ensures Nonempty(answers, at, Shown(answers))
  {
    if answers == [] {
      at := [];
    } else {
      var n := |answers| - 1;
      at := ShownAreNonempty(answers[..n]);
      assert forall i :: 0 <= i < n ==> answers[..n][i] == answers[i];
      if answers[n].content != "" {
        at := at + [n];
      }
    }
  }

  function Flatten(groups: seq<Group>): seq<Answer> {
    if groups == [] then [] else groups[0] + Flatten(groups[1..])
  }

  predicate IsMany(g: Group) {
    g != [] && forall a :: a in g ==> a.view == ManyView
  }

  predicate IsSingle(g: Group) {
    |g| == 1 && g[0].view == SingleView
  }

  /** A single-view answer is a group of its own; the others form maximal runs. */
  predicate Grouped(groups: seq<Group>) {
    && (forall k :: 0 <= k < |groups| ==> IsMany(groups[k]) || IsSingle(groups[k]))
    && (forall k :: 0 <= k < |groups| - 1 ==> IsSingle(groups[k]) || IsSingle(groups[k + 1]))
  }

  lemma Regroup(a: Group, b: seq<Answer>, c: seq<Answer>)
    ensures a + (b + c) == (a + b) + c
  {
  }

  lemma {:induction false} FlattenConcat(a: seq<Group>, b: seq<Group>)
    ensures Flatten(a + b) == Flatten(a) + Flatten(b)
  {
    if a == [] {
      assert a + b == b;
    } else {
      FlattenConcat(a[1..], b);
      assert (a + b)[0] == a[0] && (a + b)[1..] == a[1..] + b;
      Regroup(a[0], Flatten(a[1..]), Flatten(b));
    }
  }

  lemma FlattenNewGroup(groups: seq<Group>, a: Answer)
    ensures Flatten(groups + [[a]]) == Flatten(groups) + [a]
  {
    FlattenConcat(groups, [[a]]);
    assert Flatten([[a]]) == [a] + Flatten([]);
  }

  lemma FlattenGrownGroup(groups: seq<Group>, a: Answer)
    requires groups != []
    ensures Flatten(groups[|groups| - 1 := groups[|groups| - 1] + [a]]) == Flatten(groups) + [a]
  {
    var n := |groups| - 1;
    var init, last := groups[..n], groups[n];
    assert groups == init + [last] && groups[n := last + [a]] == init + [last + [a]];
    FlattenConcat(init, [last]);
    FlattenConcat(init, [last + [a]]);
    assert Flatten([last]) == last + Flatten([]) && Flatten([last + [a]]) == last + [a] + Flatten([]);
  }

  method GetAnswerTextList(answers: seq<Answer>) returns (result: seq<Group>)
    ensures Shown(answers) == [] ==> result == [[]]
    ensures Shown(answers) != [] ==> Flatten(result) == Shown(answers) && Grouped(result)
  {
    result := [];
    var upNode: seq<Answer> := [];
    for index := 0 to |answers|
      invariant Flatten(result) == Shown(answers[..index]) && Grouped(result)
      invariant if upNode == [] then result == []
                else |upNode| == 1 && result != []
                     && (if upNode[0].view == ManyView then IsMany(result[|result| - 1])
                         else IsSingle(result[|result| - 1]))
    {
      var current := answers[index];
      assert answers[..index + 1][..index] == answers[..index];
      if |current.content| > 0 {
        if upNode == [] || current.view == SingleView || (current.view == ManyView && upNode[0].view == SingleView) {
          FlattenNewGroup(result, current);
          result := result + [[current]];
        } else {
          FlattenGrownGroup(result, current);
          var last := |result| - 1;
          result := result[last := result[last] + [current]];
        }
        upNode := [current];
      }
    }
    assert answers[..|answers|] == answers;
    if |result| == 0 {
      return [[]];
    }
    assert Flatten(result) != [];
  }

  // ---------- The grouping is the only one ----------

  function LeadingMany(answers: seq<Answer>): (r: nat)
    ensures r <= |answers|
  {
    if answers == [] || answers[0].view == SingleView then 0 else 1 + LeadingMany(answers[1..])
  }

  lemma {:induction false} RunThenRest(run: seq<Answer>, rest: seq<Answer>)
    requires forall a :: a in run ==> a.view == ManyView
    requires rest == [] || rest[0].view == SingleView
    ensures LeadingMany(run + rest) == |run|
  {
    if run == [] {
      assert run + rest == rest;
    } else {
      assert (run + rest)[1..] == run[1..] + rest;
      assert run[0] in run;
      RunThenRest(run[1..], rest);
    }
  }

  /** The first group is fixed by the answers. */
  lemma FirstGroup(groups: seq<Group>)
    requires Grouped(groups) && groups != []
    ensures Flatten(groups) != []
    ensures var all := Flatten(groups);
            groups[0] == all[..if all[0].view == SingleView then 1 else LeadingMany(all)]
  {
    var rest := Flatten(groups[1..]);
    assert groups[0][0] in groups[0];
    if IsMany(groups[0]) {
      if |groups| > 1 {
        assert IsSingle(groups[0 + 1]);
        assert groups[1..][0] == groups[1] && rest[0] == groups[1][0];
      }
      RunThenRest(groups[0], rest);
    }
  }

  /** Two groupings of the same answers are equal, so the two properties determine the result. */
  lemma {:induction false} GroupingIsUnique(a: seq<Group>, b: seq<Group>)
    requires Grouped(a) && Grouped(b) && Flatten(a) == Flatten(b)
    ensures a == b
  {
    if a != [] {
      FirstGroup(a);
    }
    if b != [] {
      FirstGroup(b);
    }
    if a != [] && b != [] {
      assert a[0] == b[0];
      assert Flatten(a[1..]) == Flatten(a)[|a[0]|..] == Flatten(b[1..]);
      TailGrouped(a);
      TailGrouped(b);
      GroupingIsUnique(a[1..], b[1..]);
      assert a == [a[0]] + a[1..] && b == [b[0]] + b[1..];
    }
  }

  lemma TailGrouped(groups: seq<Group>)
    requires Grouped(groups) && groups != []
    ensures Grouped(groups[1..])
  {
    var rest := groups[1..];
    forall k | 0 <= k < |rest| - 1
      ensures IsSingle(rest[k]) || IsSingle(rest[k + 1])
    {
      assert IsSingle(groups[k + 1]) || IsSingle(groups[k + 1 + 1]);
    }
  }
}
