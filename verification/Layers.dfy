/**
 Applying an image layer to a file tree, member by member, against what the layer means as a whole:
 the lower tree without what is whited out or replaced, overlaid with the layer's own entries.
 */
module Layers {
  import opened Wrappers
  import opened Tokens

  /** The components of a path below the root; the root is `[]`. */
  type Path = seq<string>

  datatype Entry = Dir | File(content: string)

  type Tree = map<Path, Entry>

  datatype Kind = Directory | Regular(content: string) | Special

  datatype Member = Member(name: string, kind: Kind)

  // ---------- What a member asks for ----------

  datatype Action =
    | Skip
    | Opaque(dir: Path)
    | Whiteout(target: Path)
    | Make(path: Path)
    | Write(path: Path, content: string)
    | Parents(path: Path)

  function Clean(parts: seq<string>): Path {
    if parts == [] then []
    else
      var last := parts[|parts| - 1];
      Clean(parts[..|parts| - 1]) + if last == "" || last == "." then [] else [last]
  }

  function Parent(p: Path): Path {
    if p == [] then [] else p[..|p| - 1]
  }

  function Base(p: Path): string {
    if p == [] then "" else p[|p| - 1]
  }

  /** A whiteout names a sibling; the odd names are read as the file system reads them. What lies above the
      root is not part of the tree: removing the root's parent takes the whole tree. */
  function Sibling(parent: Path, name: string): Path {
    if name == "" || name == "." then parent else if name == ".." then Parent(parent) else parent + [name]
  }

  const WHITEOUT := ".wh."
  const OPAQUE := ".wh..wh..opq"

  function ActionOf(m: Member): Action {
    var path := Clean(Pieces(m.name, '/'));
    if m.name == "" || ".." in path then Skip
    else if Base(path) == OPAQUE then Opaque(Parent(path))
    else if WHITEOUT <= Base(path) then Whiteout(Sibling(Parent(path), Base(path)[|WHITEOUT|..]))
    else match m.kind
      case Directory => Make(path)
      case Regular(content) => Write(path, content)
      case Special => Parents(path)
  }

  function ActionsOf(members: seq<Member>): seq<Action> {
    seq(|members|, i requires 0 <= i < |members| => ActionOf(members[i]))
  }

  // ---------- What an action does ----------

  /** `q` is `p` or below it. */
  predicate Holds(p: Path, q: Path) {
    p <= q
  }

  /** `remove_path`: a file, or a directory with everything below it. */
  function Without(t: Tree, p: Path): Tree {
    map q | q in t && !Holds(p, q) :: t[q]
  }

  function Emptied(t: Tree, d: Path): Tree {
    map q | q in t && !(Holds(d, q) && q != d) :: t[q]
  }

  /** `mkdir(parents=True, exist_ok=True)`; a file in the way is an error. */
  function Mkdirs(t: Tree, p: Path): Option<Tree>
    decreases |p|
  {
    if p in t then (if t[p].Dir? then Some(t) else None)
    else if p == [] then Some(t[p := Dir])
    else
      var up := Mkdirs(t, Parent(p));
      if up.None? then None else Some(up.value[p := Dir])
  }

  function Do(t: Tree, a: Action): Option<Tree> {
    match a
    case Skip => Some(t)
    case Opaque(d) => if d !in t then Some(t) else if t[d].Dir? then Some(Emptied(t, d)) else None
    case Whiteout(p) => Some(Without(t, p))
    case Make(p) =>
      var up := Mkdirs(t, Parent(p));
      if up.None? then None else Mkdirs(up.value, p)
    case Write(p, content) =>
      var up := Mkdirs(t, Parent(p));
      if up.None? then None else Some(Without(up.value, p)[p := File(content)])
    case Parents(p) => Mkdirs(t, Parent(p))
  }

  /** The tree after the actions in order, or nothing as soon as one fails. */
  function Run(t: Tree, actions: seq<Action>): Option<Tree> {
    if actions == [] then Some(t)
    else
      var before := Run(t, actions[..|actions| - 1]);
      if before.None? then None else Do(before.value, actions[|actions| - 1])
  }

  // ---------- The tree stays a tree ----------

  predicate IsTree(t: Tree) {
    forall p :: p in t && p != [] ==> Parent(p) in t && t[Parent(p)].Dir?
  }

  lemma {:induction false} AncestorsAreDirs(t: Tree, p: Path, q: Path)
    requires IsTree(t) && p in t && Holds(q, p) && q != p
    ensures q in t && t[q].Dir?
    decreases |p|
  {
    if q != Parent(p) {
      assert Holds(q, Parent(p));
      AncestorsAreDirs(t, Parent(p), q);
    }
  }

  function At(t: Tree, p: Path): Option<Entry> {
    if p in t then Some(t[p]) else None
  }

  /** No file stands at `p` or above it. */
  ghost predicate Clear(t: Tree, p: Path) {
    forall q :: Holds(q, p) && q in t ==> t[q].Dir?
  }

  lemma UpTo(q: Path, p: Path)
    requires p != []
    ensures Holds(q, p) <==> q == p || Holds(q, Parent(p))
  {
  }

  lemma ClearAbove(t: Tree, p: Path)
    requires p != []
    ensures Clear(t, p) <==> Clear(t, Parent(p)) && (p in t ==> t[p].Dir?)
  {
    forall q
      ensures Holds(q, p) <==> q == p || Holds(q, Parent(p))
    {
      UpTo(q, p);
    }
  }

  lemma ClearWhereDir(t: Tree, p: Path)
    requires IsTree(t) && p in t
    ensures Clear(t, p) <==> t[p].Dir?
  {
    forall q | Holds(q, p) && q != p
      ensures q in t && t[q].Dir?
    {
      AncestorsAreDirs(t, p, q);
    }
    assert Holds(p, p);
  }

  /** `mkdir` fails iff a file is in the way. */
  lemma {:induction false} MkdirsFailsIff(t: Tree, p: Path)
    requires IsTree(t)
    ensures Mkdirs(t, p).Some? <==> Clear(t, p)
    decreases |p|
  {
    if p in t {
      ClearWhereDir(t, p);
    } else if p != [] {
      MkdirsFailsIff(t, Parent(p));
      ClearAbove(t, p);
    }
  }

  /** `mkdir` adds the missing directories and nothing else. */
  lemma {:induction false} MkdirsAdds(t: Tree, p: Path, q: Path)
    requires IsTree(t) && Mkdirs(t, p).Some?
    ensures At(Mkdirs(t, p).value, q) == if Holds(q, p) then Some(Dir) else At(t, q)
    decreases |p|
  {
    if p in t {
      if Holds(q, p) && q != p { AncestorsAreDirs(t, p, q); }
    } else if p != [] {
      MkdirsAdds(t, Parent(p), q);
      UpTo(q, p);
    }
  }

  lemma {:induction false} MkdirsKeepsTree(t: Tree, p: Path)
    requires IsTree(t) && Mkdirs(t, p).Some?
    ensures IsTree(Mkdirs(t, p).value) && At(Mkdirs(t, p).value, p) == Some(Dir)
    decreases |p|
  {
    if p !in t && p != [] {
      MkdirsKeepsTree(t, Parent(p));
    }
  }

  /** Every action that succeeds leaves every entry under a directory. */
  lemma DoKeepsTree(t: Tree, a: Action)
    requires IsTree(t) && Do(t, a).Some?
    ensures IsTree(Do(t, a).value)
  {
    match a {
      case Make(p) =>
        MkdirsKeepsTree(t, Parent(p));
        MkdirsKeepsTree(Mkdirs(t, Parent(p)).value, p);
      case Write(p, content) =>
        MkdirsKeepsTree(t, Parent(p));
        WriteKeepsTree(Mkdirs(t, Parent(p)).value, p, content);
      case Parents(p) => MkdirsKeepsTree(t, Parent(p));
      case Whiteout(p) => WithoutKeepsTree(t, p);
      case _ =>
    }
  }

  lemma WriteKeepsTree(t: Tree, p: Path, content: string)
    requires IsTree(t) && At(t, Parent(p)) == Some(Dir)
    ensures IsTree(Without(t, p)[p := File(content)])
  {
    WithoutKeepsTree(t, p);
    assert p != [] ==> !Holds(p, Parent(p));
  }

  lemma WithoutKeepsTree(t: Tree, p: Path)
    requires IsTree(t)
    ensures IsTree(Without(t, p))
  {
    forall q | q in t && q != [] && Holds(p, Parent(q))
      ensures Holds(p, q)
    {
      assert Parent(q) <= q;
    }
  }

  lemma {:induction false} RunKeepsTree(t: Tree, actions: seq<Action>)
    requires IsTree(t) && Run(t, actions).Some?
    ensures IsTree(Run(t, actions).value)
  {
    if actions != [] {
      var init := actions[..|actions| - 1];
      RunKeepsTree(t, init);
      DoKeepsTree(Run(t, init).value, actions[|actions| - 1]);
    }
  }

  lemma {:induction false} RunConcat(t: Tree, a: seq<Action>, b: seq<Action>)
    ensures Run(t, a + b) == if Run(t, a).None? then None else Run(Run(t, a).value, b)
  {
    if b == [] {
      assert a + b == a;
    } else {
      assert (a + b)[..|a + b| - 1] == a + b[..|b| - 1];
      RunConcat(t, a, b[..|b| - 1]);
    }
  }

  // ---------- The whiteouts as a whole ----------

  predicate Hides(a: Action, p: Path) {
    || (a.Whiteout? && Holds(a.target, p))
    || (a.Opaque? && Holds(a.dir, p) && p != a.dir)
  }

  predicate Hidden(whiteouts: seq<Action>, p: Path) {
    exists i :: 0 <= i < |whiteouts| && Hides(whiteouts[i], p)
  }

  predicate IsWhiteout(a: Action) {
    a.Whiteout? || a.Opaque?
  }

  /** An opaque whiteout of a file that no earlier whiteout removed. */
  predicate Misplaced(t: Tree, whiteouts: seq<Action>, i: nat)
    requires i < |whiteouts|
  {
    var a := whiteouts[i];
    a.Opaque? && a.dir in t && t[a.dir].File? && !Hidden(whiteouts[..i], a.dir)
  }

  lemma WhiteoutAt(t: Tree, a: Action, p: Path)
    requires IsTree(t) && IsWhiteout(a) && Do(t, a).Some?
    ensures At(Do(t, a).value, p) == if Hides(a, p) then None else At(t, p)
  {
    if a.Opaque? && a.dir !in t && p in t && Hides(a, p) {
      AncestorsAreDirs(t, p, a.dir);
    }
  }

  ghost predicate CutOut(t: Tree, whiteouts: seq<Action>, u: Tree) {
    forall p :: At(u, p) == if Hidden(whiteouts, p) then None else At(t, p)
  }

  lemma HiddenByMore(init: seq<Action>, a: Action, p: Path)
    ensures Hidden(init + [a], p) <==> Hidden(init, p) || Hides(a, p)
  {
    if Hides(a, p) { assert Hides((init + [a])[|init|], p); }
    if Hidden(init, p) {
      var i :| 0 <= i < |init| && Hides(init[i], p);
      assert Hides((init + [a])[i], p);
    }
  }

  lemma MisplacedFails(t: Tree, whiteouts: seq<Action>, n: nat, u: Tree)
    requires n < |whiteouts| && IsWhiteout(whiteouts[n]) && CutOut(t, whiteouts[..n], u)
    ensures Do(u, whiteouts[n]).None? <==> Misplaced(t, whiteouts, n)
  {
    var a := whiteouts[n];
    if a.Opaque? {
      assert At(u, a.dir) == if Hidden(whiteouts[..n], a.dir) then None else At(t, a.dir);
    }
  }

  lemma {:induction false} WhiteoutsCutOut(t: Tree, whiteouts: seq<Action>)
    requires IsTree(t) && forall a :: a in whiteouts ==> IsWhiteout(a)
    ensures Run(t, whiteouts).Some? ==> CutOut(t, whiteouts, Run(t, whiteouts).value)
    ensures Run(t, whiteouts).None? <==> exists i :: 0 <= i < |whiteouts| && Misplaced(t, whiteouts, i)
  {
    if whiteouts != [] {
      var n := |whiteouts| - 1;
      var init, a := whiteouts[..n], whiteouts[n];
      WhiteoutsCutOut(t, init);
      assert whiteouts == init + [a];
      forall i | 0 <= i < n
        ensures Misplaced(t, init, i) <==> Misplaced(t, whiteouts, i)
      {
        assert init[..i] == whiteouts[..i];
      }
      if Run(t, init).Some? {
        var u := Run(t, init).value;
        RunKeepsTree(t, init);
        MisplacedFails(t, whiteouts, n, u);
        if Do(u, a).Some? {
          forall p
            ensures At(Do(u, a).value, p) == if Hidden(whiteouts, p) then None else At(t, p)
          {
            WhiteoutAt(u, a, p);
            HiddenByMore(init, a, p);
          }
        }
      }
    }
  }

  // ---------- The entries as a whole ----------

  predicate IsEntry(a: Action) {
    a.Make? || a.Write?
  }

  /** The directory an entry needs, itself included. */
  function Needs(a: Action): Path
    requires IsEntry(a)
  {
    if a.Make? then a.path else Parent(a.path)
  }

  /** The entries form a tree without repeats: nothing stands below a file. */
  predicate Tidy(e: seq<Action>) {
    && (forall i :: 0 <= i < |e| ==> IsEntry(e[i]))
    && (forall i, j :: 0 <= i < j < |e| ==> e[i].path != e[j].path)
    && (forall i, j :: 0 <= i < |e| && 0 <= j < |e| && i != j && e[i].Write? ==> !Holds(e[i].path, e[j].path))
  }

  predicate Written(e: seq<Action>, p: Path) {
    exists i :: 0 <= i < |e| && e[i].Write? && e[i].path == p
  }

  predicate Leads(a: Action, p: Path) {
    IsEntry(a) && Holds(p, Needs(a))
  }

  predicate Led(e: seq<Action>, p: Path) {
    exists i :: 0 <= i < |e| && Leads(e[i], p)
  }

  predicate Replaces(a: Action, p: Path) {
    a.Write? && Holds(a.path, p)
  }

  predicate Replaced(e: seq<Action>, p: Path) {
    exists i :: 0 <= i < |e| && Replaces(e[i], p)
  }

  /** What the overlay holds at `p`: the layer's file, a directory on the way to an entry,
      nothing where a file of the layer replaces what was below, or else what was there. */
  predicate OverlaidAt(t: Tree, e: seq<Action>, p: Path, x: Option<Entry>) {
    && (forall i :: 0 <= i < |e| && e[i].Write? && e[i].path == p ==> x == Some(File(e[i].content)))
    && (!Written(e, p) ==> x == if Led(e, p) then Some(Dir) else if Replaced(e, p) then None else At(t, p))
  }

  ghost predicate Overlaid(t: Tree, e: seq<Action>, u: Tree) {
    forall p :: OverlaidAt(t, e, p, At(u, p))
  }

  ghost predicate Unobstructed(t: Tree, e: seq<Action>)
    requires Tidy(e)
  {
    forall i :: 0 <= i < |e| ==> Clear(t, Needs(e[i]))
  }

  lemma EntryRuns(t: Tree, a: Action)
    requires IsTree(t) && IsEntry(a)
    ensures Do(t, a).Some? <==> Clear(t, Needs(a))
  {
    if a.Make? {
      MkdirsFailsIff(t, Parent(a.path));
      MkdirsFailsIff(t, a.path);
      if Mkdirs(t, Parent(a.path)).Some? {
        ParentFirst(t, a.path);
      } else if a.path != [] {
        ClearAbove(t, a.path);
      }
    } else {
      MkdirsFailsIff(t, Parent(a.path));
    }
  }

  /** Making the parent first changes nothing about making the directory. */
  lemma ParentFirst(t: Tree, p: Path)
    requires IsTree(t) && Mkdirs(t, Parent(p)).Some?
    ensures Mkdirs(Mkdirs(t, Parent(p)).value, p).Some? <==> Clear(t, p)
    ensures Clear(t, p) ==>
              forall q :: At(Mkdirs(Mkdirs(t, Parent(p)).value, p).value, q)
                          == if Holds(q, p) then Some(Dir) else At(t, q)
  {
    var up := Mkdirs(t, Parent(p)).value;
    MkdirsKeepsTree(t, Parent(p));
    MkdirsFailsIff(up, p);
    forall q
      ensures At(up, q) == if Holds(q, Parent(p)) then Some(Dir) else At(t, q)
    {
      MkdirsAdds(t, Parent(p), q);
    }
    MkdirsFailsIff(t, Parent(p));
    if p != [] {
      ClearAbove(t, p);
      ClearAbove(up, p);
      assert At(up, p) == At(t, p);
      assert Clear(up, Parent(p));
    }
    if Clear(t, p) {
      forall q
        ensures At(Mkdirs(up, p).value, q) == if Holds(q, p) then Some(Dir) else At(t, q)
      {
        MkdirsAdds(up, p, q);
        if p != [] { UpTo(q, p); }
      }
    }
  }

  lemma MakeAt(t: Tree, a: Action, p: Path)
    requires IsTree(t) && a.Make? && Do(t, a).Some?
    ensures At(Do(t, a).value, p) == if Leads(a, p) then Some(Dir) else At(t, p)
  {
    ParentFirst(t, a.path);
  }

  lemma WriteAt(t: Tree, a: Action, p: Path)
    requires IsTree(t) && a.Write? && Do(t, a).Some?
    ensures At(Do(t, a).value, p) == if p == a.path then Some(File(a.content))
                                     else if Replaces(a, p) then None
                                     else if Leads(a, p) then Some(Dir) else At(t, p)
  {
    MkdirsAdds(t, Parent(a.path), p);
  }

  lemma LedByMore(init: seq<Action>, a: Action, p: Path)
    ensures Led(init + [a], p) <==> Led(init, p) || Leads(a, p)
    ensures Replaced(init + [a], p) <==> Replaced(init, p) || Replaces(a, p)
    ensures Written(init + [a], p) <==> Written(init, p) || (a.Write? && a.path == p)
  {
    var e := init + [a];
    assert e[|init|] == a && forall i :: 0 <= i < |init| ==> e[i] == init[i];
  }

  lemma TidyFront(init: seq<Action>, a: Action)
    requires Tidy(init + [a])
    ensures Tidy(init) && IsEntry(a)
    ensures forall i :: 0 <= i < |init| ==>
                          && init[i].path != a.path
                          && (init[i].Write? ==> !Holds(init[i].path, a.path))
                          && (a.Write? ==> !Holds(a.path, init[i].path))
  {
    var e := init + [a];
    assert e[|init|] == a && forall i :: 0 <= i < |init| ==> e[i] == init[i];
  }

  lemma HoldsTrans(p: Path, q: Path, r: Path)
    requires Holds(p, q) && Holds(q, r)
    ensures Holds(p, r)
  {
  }

  /** At and above a new entry, the overlay so far has a file exactly where the lower tree had one. */
  lemma NeedsSameFiles(t: Tree, init: seq<Action>, a: Action, u: Tree, q: Path)
    requires Tidy(init + [a]) && Overlaid(t, init, u) && IsEntry(a) && Holds(q, Needs(a))
    requires Tidy(init) && Unobstructed(t, init)
    ensures (q in u ==> u[q].Dir?) <==> (q in t ==> t[q].Dir?)
  {
    TidyFront(init, a);
    assert Holds(q, a.path);
    assert !Written(init, q);
    forall i | 0 <= i < |init|
      ensures !Replaces(init[i], q)
    {
      if Replaces(init[i], q) {
        HoldsTrans(init[i].path, q, a.path);
      }
    }
    assert OverlaidAt(t, init, q, At(u, q));
    if Led(init, q) {
      var i :| 0 <= i < |init| && Leads(init[i], q);
      assert Clear(t, Needs(init[i]));
    }
  }

  lemma SameClear(t: Tree, init: seq<Action>, a: Action, u: Tree)
    requires Tidy(init + [a]) && Overlaid(t, init, u) && Tidy(init) && Unobstructed(t, init) && IsEntry(a)
    ensures Clear(u, Needs(a)) <==> Clear(t, Needs(a))
  {
    forall q | Holds(q, Needs(a))
      ensures (q in u ==> u[q].Dir?) <==> (q in t ==> t[q].Dir?)
    {
      NeedsSameFiles(t, init, a, u, q);
    }
  }

  lemma OverlayMake(t: Tree, init: seq<Action>, a: Action, u: Tree, p: Path)
    requires Tidy(init + [a]) && a.Make? && Overlaid(t, init, u)
    ensures OverlaidAt(t, init + [a], p, if Leads(a, p) then Some(Dir) else At(u, p))
  {
    var e := init + [a];
    TidyFront(init, a);
    LedByMore(init, a, p);
    assert OverlaidAt(t, init, p, At(u, p));
    forall i | 0 <= i < |e| && e[i].Write? && e[i].path == p
      ensures !Leads(a, p) && e[i] == init[i]
    {
    }
  }

  lemma LeadsUpwards(a: Action, p: Path)
    ensures Leads(a, p) ==> Holds(p, a.path)
  {
  }

  lemma OverlayWrite(t: Tree, init: seq<Action>, a: Action, u: Tree, p: Path)
    requires Tidy(init + [a]) && a.Write? && Overlaid(t, init, u)
    ensures OverlaidAt(t, init + [a], p, if p == a.path then Some(File(a.content))
                                         else if Replaces(a, p) then None
                                         else if Leads(a, p) then Some(Dir) else At(u, p))
  {
    var e := init + [a];
    TidyFront(init, a);
    LedByMore(init, a, p);
    assert OverlaidAt(t, init, p, At(u, p));
    if p == a.path {
      assert forall i :: 0 <= i < |init| ==> e[i].path != p;
    } else {
      forall i | 0 <= i < |e| && e[i].Write? && e[i].path == p
        ensures !Replaces(a, p) && !Leads(a, p) && e[i] == init[i]
      {
        LeadsUpwards(a, p);
      }
      if Replaces(a, p) && Led(init, p) {
        var i :| 0 <= i < |init| && Leads(init[i], p);
        assert Holds(Needs(init[i]), init[i].path);
        HoldsTrans(p, Needs(init[i]), init[i].path);
        HoldsTrans(a.path, p, init[i].path);
        assert false;
      }
      assert !(Replaces(a, p) && Leads(a, p));
    }
  }

  /** Adding entries in order gives their overlay, and fails iff a file stands where one needs a directory. */
  lemma {:induction false} EntriesOverlay(t: Tree, e: seq<Action>)
    requires IsTree(t) && Tidy(e)
    ensures Run(t, e).Some? <==> Unobstructed(t, e)
    ensures Run(t, e).Some? ==> Overlaid(t, e, Run(t, e).value)
  {
    if e != [] {
      var n := |e| - 1;
      var init, a := e[..n], e[n];
      assert e == init + [a];
      TidyFront(init, a);
      EntriesOverlay(t, init);
      assert Unobstructed(t, e) <==> Unobstructed(t, init) && Clear(t, Needs(a));
      if Run(t, init).Some? {
        var u := Run(t, init).value;
        RunKeepsTree(t, init);
        SameClear(t, init, a, u);
        EntryRuns(u, a);
        if Do(u, a).Some? {
          EntryOverlays(t, init, a, u);
        }
      }
    }
  }

  lemma EntryOverlays(t: Tree, init: seq<Action>, a: Action, u: Tree)
    requires Tidy(init + [a]) && Overlaid(t, init, u) && IsTree(u) && IsEntry(a) && Do(u, a).Some?
    ensures Overlaid(t, init + [a], Do(u, a).value)
  {
    forall p
      ensures OverlaidAt(t, init + [a], p, At(Do(u, a).value, p))
    {
      if a.Make? {
        MakeAt(u, a, p);
        OverlayMake(t, init, a, u, p);
      } else {
        WriteAt(u, a, p);
        OverlayWrite(t, init, a, u, p);
      }
    }
  }

  // ---------- The layer as a whole ----------

  /** What the layer leaves at `p`, read off the lower tree and the layer alone. */
  predicate LayeredAt(t: Tree, whiteouts: seq<Action>, e: seq<Action>, p: Path, x: Option<Entry>) {
    && (forall i :: 0 <= i < |e| && e[i].Write? && e[i].path == p ==> x == Some(File(e[i].content)))
    && (!Written(e, p) ==> x == if Led(e, p) then Some(Dir)
                                else if Replaced(e, p) || Hidden(whiteouts, p) then None
                                else At(t, p))
  }

  /** A file that no whiteout removes stands where an entry needs a directory. */
  predicate Obstructs(t: Tree, whiteouts: seq<Action>, a: Action, q: Path) {
    Leads(a, q) && q in t && t[q].File? && !Hidden(whiteouts, q)
  }

  /** A layer of whiteouts followed by a tree of entries is the overlay of the entries on the lower tree
      without what is whited out; it fails exactly where a file is treated as a directory. */
  lemma LayerIsOverlay(t: Tree, members: seq<Member>, whiteouts: seq<Action>, e: seq<Action>)
    requires IsTree(t) && ActionsOf(members) == whiteouts + e
    requires (forall a :: a in whiteouts ==> IsWhiteout(a)) && Tidy(e)
    ensures var after := Run(t, ActionsOf(members));
            && (after.None? <==> (exists i :: 0 <= i < |whiteouts| && Misplaced(t, whiteouts, i))
                                 || (exists i, q :: 0 <= i < |e| && Obstructs(t, whiteouts, e[i], q)))
            && (after.Some? ==> IsTree(after.value) && forall p :: LayeredAt(t, whiteouts, e, p, At(after.value, p)))
  {
    RunConcat(t, whiteouts, e);
    WhiteoutsCutOut(t, whiteouts);
    if Run(t, whiteouts).Some? {
      var u := Run(t, whiteouts).value;
      RunKeepsTree(t, whiteouts);
      EntriesOverlay(u, e);
      ObstructedIff(t, whiteouts, e, u);
      if Run(u, e).Some? {
        RunKeepsTree(u, e);
        forall p
          ensures LayeredAt(t, whiteouts, e, p, At(Run(u, e).value, p))
        {
          assert OverlaidAt(u, e, p, At(Run(u, e).value, p));
          assert At(u, p) == if Hidden(whiteouts, p) then None else At(t, p);
        }
      }
    }
  }

  lemma ObstructedIff(t: Tree, whiteouts: seq<Action>, e: seq<Action>, u: Tree)
    requires Tidy(e) && CutOut(t, whiteouts, u)
    ensures !Unobstructed(u, e) <==> exists i, q :: 0 <= i < |e| && Obstructs(t, whiteouts, e[i], q)
  {
    forall i, q | 0 <= i < |e|
      ensures Obstructs(t, whiteouts, e[i], q) <==> Holds(q, Needs(e[i])) && q in u && u[q].File?
    {
      assert At(u, q) == if Hidden(whiteouts, q) then None else At(t, q);
    }
  }
}
