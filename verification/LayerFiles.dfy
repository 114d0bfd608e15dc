/** The file tree that layers are applied to, changed in place. */
module LayerFiles {
  import opened Wrappers
  import opened Tokens
  import opened Layers

  class RootFs {
    var tree: Tree

    constructor ()
      ensures tree == map[[] := Dir] && IsTree(tree)
    {
      tree := map[[] := Dir];
    }

    method RemovePath(p: Path)
      requires IsTree(tree)
      modifies this
      ensures tree == Without(old(tree), p) && IsTree(tree)
    {
      WithoutKeepsTree(tree, p);
      forall q | q in tree && Holds(p, q) && q != p
        ensures p in tree && tree[p].Dir?
      {
        AncestorsAreDirs(tree, q, p);
      }
      if p in tree && tree[p].File? {
        tree := tree - {p};
      } else if p in tree {
        tree := map q | q in tree && !Holds(p, q) :: tree[q];
      }
    }

    /** Removes every child of a directory in turn. */
    method RemoveChildren(d: Path)
      requires IsTree(tree)
      modifies this
      ensures tree == Emptied(old(tree), d) && IsTree(tree)
    {
      var children := set q | q in tree && q != [] && Parent(q) == d;
      ghost var all, done: set<Path> := children, {};
      ghost var before := tree;
      OneLess(before, {}, d);
      while children != {}
        invariant done + children == all && IsTree(tree) && tree == WithoutAll(before, done)
        decreases |children|
      {
        var child :| child in children;
        OneLess(before, done, child);
        RemovePath(child);
        children, done := children - {child}, done + {child};
      }
      assert done == all;
      EmptiedByChildren(before, d, all);
    }

    method MakeDirs(p: Path) returns (ok: bool)
      modifies this
      ensures Mkdirs(old(tree), p) == if ok then Some(tree) else None
      ensures !ok ==> tree == old(tree)
      decreases |p|
    {
      if p in tree {
        return tree[p].Dir?;
      }
      if p == [] {
        tree := tree[p := Dir];
        return true;
      }
      ok := MakeDirs(Parent(p));
      if ok {
        tree := tree[p := Dir];
      }
    }

    method ApplyMember(member: Member) returns (ok: bool)
      requires IsTree(tree)
      modifies this
      ensures ok ==> Do(old(tree), ActionOf(member)) == Some(tree)
      ensures !ok ==> Do(old(tree), ActionOf(member)) == None
      ensures IsTree(tree)
    {
      if Do(tree, ActionOf(member)).Some? { DoKeepsTree(tree, ActionOf(member)); }
      if member.name == "" {
        return true;
      }
      var path := Clean(Pieces(member.name, '/'));
      if ".." in path {
        return true;
      }
      var basename, parent := Base(path), Parent(path);
      if basename == OPAQUE {
        if parent in tree {
          if tree[parent].File? {
            return false;
          }
          RemoveChildren(parent);
        }
        return true;
      }
      if WHITEOUT <= basename {
        RemovePath(Sibling(parent, basename[|WHITEOUT|..]));
        return true;
      }
      ok := AddEntry(path, member.kind);
    }

    method AddEntry(path: Path, kind: Kind) returns (ok: bool)
      requires IsTree(tree)
      modifies this
      ensures var done := Do(old(tree), EntryAction(path, kind)); if ok then done == Some(tree) else done == None
      ensures IsTree(tree)
    {
      if Mkdirs(tree, Parent(path)).Some? { MkdirsKeepsTree(tree, Parent(path)); }
      ok := MakeDirs(Parent(path));
      if !ok {
        return;
      }
      match kind {
        case Directory =>
          if Mkdirs(tree, path).Some? { MkdirsKeepsTree(tree, path); }
          ok := MakeDirs(path);
        case Regular(content) =>
          WriteKeepsTree(tree, path, content);
          RemovePath(path);
          tree := tree[path := File(content)];
        case Special =>
      }
    }

    /** Applies the members in order and stops at the first that fails. */
    method ApplyLayer(archive: seq<Member>) returns (ok: bool)
      requires IsTree(tree)
      modifies this
      ensures var done := Run(old(tree), ActionsOf(archive)); if ok then done == Some(tree) else done == None
      ensures IsTree(tree)
    {
      ghost var before := tree;
      assert archive[..0] == [] && ActionsOf([]) == [];
      for i := 0 to |archive|
        invariant Applied(before, archive[..i], tree)
      {
        AppliedNext(before, archive, i, tree);
        ok := ApplyMember(archive[i]);
        if !ok {
          return;
        }
      }
      assert archive[..|archive|] == archive;
      ok := true;
    }
  }

  /** The members, applied to `t`, give `u`. */
  ghost predicate Applied(t: Tree, members: seq<Member>, u: Tree) {
    IsTree(u) && Run(t, ActionsOf(members)) == Some(u)
  }

  lemma AppliedNext(t: Tree, archive: seq<Member>, i: nat, u: Tree)
    requires i < |archive| && Applied(t, archive[..i], u)
    ensures Run(t, ActionsOf(archive[..i + 1])) == Do(u, ActionOf(archive[i]))
    ensures Do(u, ActionOf(archive[i])).None? ==> Run(t, ActionsOf(archive)).None?
  {
    var actions := ActionsOf(archive);
    assert ActionsOf(archive[..i]) == actions[..i] && ActionsOf(archive[..i + 1]) == actions[..i + 1];
    RunNext(t, actions, i);
    if Do(u, ActionOf(archive[i])).None? {
      StaysFailed(t, actions, i + 1);
    }
  }

  ghost predicate UnderSome(roots: set<Path>, q: Path) {
    exists c :: c in roots && Holds(c, q)
  }

  ghost function WithoutAll(t: Tree, roots: set<Path>): Tree {
    map q | q in t && !UnderSome(roots, q) :: t[q]
  }

  lemma OneLess(t: Tree, roots: set<Path>, c: Path)
    ensures WithoutAll(t, {}) == t
    ensures Without(WithoutAll(t, roots), c) == WithoutAll(t, roots + {c})
  {
    forall q
      ensures UnderSome(roots + {c}, q) <==> UnderSome(roots, q) || Holds(c, q)
    {
      if UnderSome(roots, q) {
        var r :| r in roots && Holds(r, q);
        assert r in roots + {c};
      }
      assert c in roots + {c};
    }
  }

  lemma EmptiedByChildren(t: Tree, d: Path, children: set<Path>)
    requires IsTree(t) && forall c :: c in children <==> c in t && c != [] && Parent(c) == d
    ensures WithoutAll(t, children) == Emptied(t, d)
  {
    forall q | q in t
      ensures UnderSome(children, q) <==> Holds(d, q) && q != d
    {
      BelowAChild(t, d, q, children);
    }
  }

  function EntryAction(path: Path, kind: Kind): Action {
    match kind
    case Directory => Make(path)
    case Regular(content) => Write(path, content)
    case Special => Parents(path)
  }

  lemma RunNext(t: Tree, actions: seq<Action>, i: nat)
    requires i < |actions|
    ensures var before := Run(t, actions[..i]);
            Run(t, actions[..i + 1]) == if before.None? then None else Do(before.value, actions[i])
  {
    assert actions[..i + 1][..i] == actions[..i];
  }

  lemma {:induction false} StaysFailed(t: Tree, actions: seq<Action>, n: nat)
    requires n <= |actions| && Run(t, actions[..n]).None?
    ensures Run(t, actions).None?
    decreases |actions|
  {
    if n < |actions| {
      assert actions[..|actions| - 1][..n] == actions[..n];
      StaysFailed(t, actions[..|actions| - 1], n);
    } else {
      assert actions[..n] == actions;
    }
  }

  /** Whatever is strictly below a directory is at or below one of its children. */
  lemma BelowAChild(t: Tree, d: Path, q: Path, children: set<Path>)
    requires IsTree(t) && q in t
    requires forall c :: c in children <==> c in t && c != [] && Parent(c) == d
    ensures (exists c :: c in children && Holds(c, q)) <==> Holds(d, q) && q != d
  {
    if Holds(d, q) && q != d {
      var c := q[..|d| + 1];
      assert Parent(c) == d && Holds(c, q);
      if c != q { AncestorsAreDirs(t, q, c); }
      assert c in children;
    }
    forall c | c in children && Holds(c, q)
      ensures Holds(d, q) && q != d
    {
      assert c[..|c| - 1] == d;
    }
  }
}
