/**
 Image layers whose whiteouts and entries come in any order. A member takes effect when its turn comes,
 so a whiteout also removes what an earlier member of the same layer has added.
 */
module LayerOrder {
  import opened Wrappers
  import opened Layers

  /** The action leaves something at `p`. */
  predicate Enters(a: Action, p: Path) {
    (a.Write? && a.path == p) || Leads(a, p)
  }

  predicate Entered(actions: seq<Action>, p: Path) {
    exists j :: 0 <= j < |actions| && Enters(actions[j], p)
  }

  /** Whiteouts and entries in any order; the entries form a tree without repeats. */
  predicate TidyMix(actions: seq<Action>) {
    && (forall i :: 0 <= i < |actions| ==> IsWhiteout(actions[i]) || IsEntry(actions[i]))
    && (forall i, j :: 0 <= i < j < |actions| && IsEntry(actions[i]) && IsEntry(actions[j]) ==>
          actions[i].path != actions[j].path)
    && (forall i, j :: 0 <= i < |actions| && 0 <= j < |actions| && i != j && actions[i].Write? && IsEntry(actions[j])
          ==> !Holds(actions[i].path, actions[j].path))
  }

  /** A whiteout hides `p` after an entry has left something there, and no later one does so again. */
  predicate LostAt(actions: seq<Action>, p: Path) {
    exists i :: 0 <= i < |actions| && Hides(actions[i], p) && Entered(actions[..i], p) && !Entered(actions[i + 1..], p)
  }

  lemma EnteredByMore(init: seq<Action>, a: Action, p: Path)
    ensures Entered(init + [a], p) <==> Entered(init, p) || Enters(a, p)
  {
    if Enters(a, p) { assert Enters((init + [a])[|init|], p); }
    if Entered(init, p) {
      var j :| 0 <= j < |init| && Enters(init[j], p);
      assert Enters((init + [a])[j], p);
    }
  }

  lemma LostByMore(init: seq<Action>, a: Action, p: Path)
    ensures LostAt(init + [a], p) <==> !Enters(a, p) && (LostAt(init, p) || (Hides(a, p) && Entered(init, p)))
  {
    var actions := init + [a];
    forall i | 0 <= i < |init|
      ensures actions[i] == init[i] && actions[..i] == init[..i]
      ensures Entered(actions[i + 1..], p) <==> Entered(init[i + 1..], p) || Enters(a, p)
    {
      assert actions[i + 1..] == init[i + 1..] + [a];
      EnteredByMore(init[i + 1..], a, p);
    }
    assert actions[..|init|] == init && actions[|init|] == a && actions[|init| + 1..] == [];
    if Hides(a, p) && Entered(init, p) {
      assert !Enters(a, p);
      assert Hides(actions[|init|], p);
    }
  }

  lemma LostIsEntered(actions: seq<Action>, p: Path)
    requires LostAt(actions, p)
    ensures Entered(actions, p)
  {
    var i :| 0 <= i < |actions| && Hides(actions[i], p) && Entered(actions[..i], p);
    var j :| 0 <= j < i && Enters(actions[..i][j], p);
    assert Enters(actions[j], p);
  }

  lemma EnteredIff(actions: seq<Action>, p: Path)
    ensures Entered(actions, p) <==> Written(actions, p) || Led(actions, p)
  {
  }

  /** What one action that succeeds leaves at `p`, given what was there. */
  function After(x: Option<Entry>, a: Action, p: Path): Option<Entry> {
    if Hides(a, p) then None
    else if a.Write? && a.path == p then Some(File(a.content))
    else if Replaces(a, p) then None
    else if Leads(a, p) then Some(Dir)
    else x
  }

  lemma DoAt(t: Tree, a: Action, p: Path)
    requires IsTree(t) && (IsWhiteout(a) || IsEntry(a)) && Do(t, a).Some?
    ensures At(Do(t, a).value, p) == After(At(t, p), a, p)
  {
    if IsWhiteout(a) {
      WhiteoutAt(t, a, p);
    } else if a.Make? {
      MakeAt(t, a, p);
    } else {
      WriteAt(t, a, p);
    }
  }

  lemma TidyMixFront(init: seq<Action>, a: Action)
    requires TidyMix(init + [a])
    ensures TidyMix(init) && (IsWhiteout(a) || IsEntry(a))
    ensures IsEntry(a) ==> forall i :: 0 <= i < |init| && IsEntry(init[i]) ==>
                             && init[i].path != a.path
                             && (init[i].Write? ==> !Holds(init[i].path, a.path))
                             && (a.Write? ==> !Holds(a.path, init[i].path))
  {
    var actions := init + [a];
    assert actions[|init|] == a && forall i :: 0 <= i < |init| ==> actions[i] == init[i];
  }

  lemma EntersUpwards(a: Action, p: Path)
    requires Enters(a, p)
    ensures IsEntry(a) && Holds(p, a.path)
  {
  }

  /** What a file replaces, no other entry enters. */
  lemma ReplacedIsNotEntered(init: seq<Action>, a: Action, p: Path)
    requires TidyMix(init + [a]) && Replaces(a, p)
    ensures !Entered(init, p)
  {
    TidyMixFront(init, a);
    if j :| 0 <= j < |init| && Enters(init[j], p) {
      EntersUpwards(init[j], p);
      HoldsTrans(a.path, p, init[j].path);
    }
  }

  lemma LedIsNotWritten(init: seq<Action>, a: Action, p: Path)
    requires TidyMix(init + [a]) && Enters(a, p)
    ensures !Written(init, p)
  {
    TidyMixFront(init, a);
    EntersUpwards(a, p);
  }

  ghost predicate InStepAt(t: Tree, actions: seq<Action>, p: Path, x: Option<Entry>) {
    if LostAt(actions, p) then x == None else LayeredAt(t, actions, actions, p, x)
  }

  lemma OneMoreAt(t: Tree, init: seq<Action>, a: Action, p: Path, x: Option<Entry>)
    requires TidyMix(init + [a]) && InStepAt(t, init, p, x)
    ensures InStepAt(t, init + [a], p, After(x, a, p))
  {
    var actions := init + [a];
    assert actions[|init|] == a && forall i :: 0 <= i < |init| ==> actions[i] == init[i];
    TidyMixFront(init, a);
    LostByMore(init, a, p);
    LedByMore(init, a, p);
    HiddenByMore(init, a, p);
    EnteredByMore(init, a, p);
    EnteredIff(init, p);
    if LostAt(init, p) { LostIsEntered(init, p); }
    if Enters(a, p) {
      EnteringAt(t, init, a, p, x);
    } else if Replaces(a, p) {
      ReplacedIsNotEntered(init, a, p);
    }
  }

  lemma EnteringAt(t: Tree, init: seq<Action>, a: Action, p: Path, x: Option<Entry>)
    requires TidyMix(init + [a]) && Enters(a, p)
    ensures LayeredAt(t, init + [a], init + [a], p, After(x, a, p))
  {
    var actions := init + [a];
    assert actions[|init|] == a && forall i :: 0 <= i < |init| ==> actions[i] == init[i];
    LedByMore(init, a, p);
    LedIsNotWritten(init, a, p);
    EntersUpwards(a, p);
  }

  /** If all members succeed, a place is as the overlay has it, or its entry has been lost and nothing is there. */
  lemma {:induction false} OverlaidOrLost(t: Tree, actions: seq<Action>, p: Path)
    requires IsTree(t) && TidyMix(actions) && Run(t, actions).Some?
    ensures InStepAt(t, actions, p, At(Run(t, actions).value, p))
  {
    if actions != [] {
      var init, a := actions[..|actions| - 1], actions[|actions| - 1];
      assert actions == init + [a];
      TidyMixFront(init, a);
      OverlaidOrLost(t, init, p);
      RunKeepsTree(t, init);
      DoAt(Run(t, init).value, a, p);
      OneMoreAt(t, init, a, p, At(Run(t, init).value, p));
    }
  }

  /** A lost place is on the way to a lost entry. */
  lemma LostEntry(actions: seq<Action>, p: Path) returns (j: nat)
    requires LostAt(actions, p)
    ensures j < |actions| && IsEntry(actions[j]) && LostAt(actions, actions[j].path)
  {
    var i :| 0 <= i < |actions| && Hides(actions[i], p) && Entered(actions[..i], p) && !Entered(actions[i + 1..], p);
    j :| 0 <= j < i && Enters(actions[..i][j], p);
    var q := actions[j].path;
    EntersUpwards(actions[j], p);
    var rest := actions[i + 1..];
    if Entered(rest, q) {
      var k :| 0 <= k < |rest| && Enters(rest[k], q);
      EntersAbove(rest[k], p, q);
    }
    assert Enters(actions[..i][j], q);
    HidesBelow(actions[i], p, q);
  }

  lemma EntersAbove(a: Action, p: Path, q: Path)
    requires Enters(a, q) && Holds(p, q)
    ensures Enters(a, p)
  {
    if p != q && a.Write? && a.path == q {
      assert Holds(p, Parent(q));
    }
  }

  lemma HidesBelow(a: Action, p: Path, q: Path)
    requires Hides(a, p) && Holds(p, q)
    ensures Hides(a, q)
  {
  }

  /** A layer all of whose members succeed, in whatever order, is the overlay if and only if no entry is hidden by a
      later whiteout without a still later entry at or below its place. */
  lemma MixIsOverlayIff(t: Tree, members: seq<Member>, actions: seq<Action>)
    requires IsTree(t) && ActionsOf(members) == actions && TidyMix(actions) && Run(t, actions).Some?
    ensures var u := Run(t, ActionsOf(members)).value;
            (forall p :: LayeredAt(t, actions, actions, p, At(u, p)))
            <==> forall j :: 0 <= j < |actions| && IsEntry(actions[j]) ==> !LostAt(actions, actions[j].path)
  {
    var u := Run(t, actions).value;
    forall p
      ensures LayeredAt(t, actions, actions, p, At(u, p)) <==> !LostAt(actions, p)
    {
      OverlaidOrLost(t, actions, p);
      if LostAt(actions, p) {
        LostIsEntered(actions, p);
        EnteredIff(actions, p);
      }
    }
    if exists p: Path :: LostAt(actions, p) {
      var p: Path :| LostAt(actions, p);
      var j := LostEntry(actions, p);
    }
  }
}
