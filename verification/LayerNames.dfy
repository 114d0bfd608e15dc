/**
 Image layers by the names of their members: what a layer leaves, read off the texts in the archive. A whiteout of
 `n` is a member named `.wh.n` beside it; a member named `.wh..wh..opq` empties its directory.
 */
module LayerNames {
  import opened Wrappers
  import opened Tokens
  import opened Layers

  // ---------- Names ----------

  predicate PlainName(c: string) {
    c != "" && c != "." && c != ".." && '/' !in c
  }

  predicate PlainPath(p: Path) {
    forall k :: 0 <= k < |p| ==> PlainName(p[k])
  }

  /** The name of an entry of a directory. */
  function InDir(p: Path, c: string): string
    decreases |p|, 1
  {
    if p == [] then c else Text(p) + "/" + c
  }

  function Text(p: Path): string
    decreases |p|, 0
  {
    if p == [] then "" else InDir(p[..|p| - 1], p[|p| - 1])
  }

  lemma OnePiece(c: string)
    requires '/' !in c
    ensures Pieces(c, '/') == [c]
  {
  }

  lemma {:induction false} TextIsCut(p: Path)
    requires PlainPath(p) && p != []
    ensures Pieces(Text(p), '/') == p
  {
    var init, last := p[..|p| - 1], p[|p| - 1];
    assert p == init + [last];
    OnePiece(last);
    if init == [] {
      assert p == [last];
    } else {
      TextIsCut(init);
      PiecesConcat(Text(init), last, '/');
    }
  }

  lemma InDirIsCut(p: Path, c: string)
    requires PlainPath(p) && '/' !in c
    ensures Pieces(InDir(p, c), '/') == p + [c]
  {
    OnePiece(c);
    if p == [] {
      assert p + [c] == [c];
    } else {
      TextIsCut(p);
      PiecesConcat(Text(p), c, '/');
    }
  }

  lemma {:induction false} PlainIsClean(p: Path)
    requires PlainPath(p)
    ensures Clean(p) == p
  {
    if p != [] {
      PlainIsClean(p[..|p| - 1]);
      assert p == p[..|p| - 1] + [p[|p| - 1]];
    }
  }

  /** A name is read as the path it is the text of. */
  lemma NameIsRead(p: Path, c: string)
    requires PlainPath(p) && PlainName(c)
    ensures Clean(Pieces(InDir(p, c), '/')) == p + [c] && InDir(p, c) != ""
    ensures Parent(p + [c]) == p && Base(p + [c]) == c && ".." !in p + [c]
  {
    InDirIsCut(p, c);
    PlainIsClean(p + [c]);
  }

  // ---------- One member ----------

  lemma OneMember(t: Tree, m: Member)
    ensures Run(t, ActionsOf([m])) == Do(t, ActionOf(m))
  {
    var actions := ActionsOf([m]);
    assert actions == [ActionOf(m)] && actions[..0] == [];
    assert Run(t, actions[..0]) == Some(t);
  }

  lemma MarkedIsPlain(n: string)
    requires '/' !in n
    ensures PlainName(".wh." + n) && ".wh." <= ".wh." + n && (".wh." + n)[4..] == n
  {
    assert (".wh." + n)[1] == 'w';
  }

  lemma MarkIsOne(n: string)
    requires n != ".wh..opq"
    ensures ".wh." + n != OPAQUE
  {
    assert (".wh." + n)[4..] == n && OPAQUE[4..] == ".wh..opq";
  }

  /** How a member is read whose path has been found. */
  lemma BaseIsRead(m: Member, p: Path, base: string)
    requires m.name != "" && Clean(Pieces(m.name, '/')) == p + [base] && ".." !in p + [base]
    requires Parent(p + [base]) == p && Base(p + [base]) == base && base != OPAQUE && WHITEOUT <= base
    ensures ActionOf(m) == Whiteout(Sibling(p, base[4..]))
  {
  }

  lemma WhiteoutIsRead(p: Path, n: string, kind: Kind)
    requires PlainPath(p) && '/' !in n && n != ".wh..opq"
    ensures ActionOf(Member(InDir(p, ".wh." + n), kind)) == Whiteout(Sibling(p, n))
  {
    var base := ".wh." + n;
    MarkedIsPlain(n);
    MarkIsOne(n);
    NameIsRead(p, base);
    BaseIsRead(Member(InDir(p, base), kind), p, base);
  }

  lemma WithoutMeans(t: Tree, p: Path)
    ensures Without(t, p) == map q | q in t && !(p <= q) :: t[q]
  {
  }

  lemma EmptiedMeans(t: Tree, p: Path)
    requires IsTree(t)
    ensures Emptied(t, p) == map q | q in t && !(p <= q && q != p) :: t[q]
    ensures p !in t ==> Emptied(t, p) == t
  {
    if p !in t {
      forall q | q in t
        ensures !(p <= q && q != p)
      {
        if p <= q && q != p { AncestorsAreDirs(t, q, p); }
      }
    }
  }

  /** A whiteout takes away the entry it names and what is below it, and nothing else. */
  lemma WhiteoutRemoves(t: Tree, p: Path, n: string, kind: Kind)
    requires PlainPath(p) && PlainName(n) && n != ".wh..opq"
    ensures Run(t, ActionsOf([Member(InDir(p, ".wh." + n), kind)]))
            == Some(map q | q in t && !(p + [n] <= q) :: t[q])
  {
    WithoutMeans(t, p + [n]);
    WhiteoutIsRead(p, n, kind);
    OneMember(t, Member(InDir(p, ".wh." + n), kind));
  }

  /** Whiteouts without a proper name: of nothing or `.`, which is the directory itself, and of its parent. */
  lemma OddWhiteoutsRemove(t: Tree, p: Path, n: string, kind: Kind)
    requires PlainPath(p) && (n == "" || n == "." || n == "..")
    ensures var gone := if n == ".." && p != [] then p[..|p| - 1] else p;
            Run(t, ActionsOf([Member(InDir(p, ".wh." + n), kind)])) == Some(map q | q in t && !(gone <= q) :: t[q])
  {
    WithoutMeans(t, if n == ".." && p != [] then p[..|p| - 1] else p);
    WhiteoutIsRead(p, n, kind);
    OneMember(t, Member(InDir(p, ".wh." + n), kind));
  }

  lemma OpaqueIsRead(p: Path, kind: Kind)
    requires PlainPath(p)
    ensures ActionOf(Member(InDir(p, ".wh..wh..opq"), kind)) == Opaque(p)
  {
    NameIsRead(p, ".wh..wh..opq");
  }

  /** An opaque whiteout empties its directory and keeps it; it fails on a file. */
  lemma OpaqueEmpties(t: Tree, p: Path, kind: Kind)
    requires IsTree(t) && PlainPath(p)
    ensures Run(t, ActionsOf([Member(InDir(p, ".wh..wh..opq"), kind)]))
            == if p in t && t[p].File? then None else Some(map q | q in t && !(p <= q && q != p) :: t[q])
  {
    OpaqueIsRead(p, kind);
    OneMember(t, Member(InDir(p, ".wh..wh..opq"), kind));
    EmptiedMeans(t, p);
  }

  lemma {:induction false} CleanMembers(parts: seq<string>, c: string)
    requires c != "" && c != "."
    ensures c in Clean(parts) <==> c in parts
  {
    if parts != [] {
      CleanMembers(parts[..|parts| - 1], c);
      assert parts == parts[..|parts| - 1] + [parts[|parts| - 1]];
    }
  }

  /** A name with `..` among its components, between slashes or at an end, changes nothing. */
  lemma UpwardNameIsSkipped(t: Tree, before: Option<string>, after: Option<string>, kind: Kind)
    ensures var name := (if before.Some? then before.value + "/" else "") + ".."
                        + (if after.Some? then "/" + after.value else "");
            Run(t, ActionsOf([Member(name, kind)])) == Some(t)
  {
    var name := (if before.Some? then before.value + "/" else "") + ".."
                + (if after.Some? then "/" + after.value else "");
    var front := (if before.Some? then before.value + "/" else "") + "..";
    assert ".." in Pieces(front, '/') by {
      OnePiece("..");
      if before.Some? { PiecesConcat(before.value, "..", '/'); } else { assert front == ".."; }
    }
    assert ".." in Pieces(name, '/') by {
      if after.Some? {
        assert name == front + "/" + after.value;
        PiecesConcat(front, after.value, '/');
      } else {
        assert name == front;
      }
    }
    CleanMembers(Pieces(name, '/'), "..");
    OneMember(t, Member(name, kind));
  }

  // ---------- Dots and slashes ----------

  lemma {:induction false} CleanConcat(a: seq<string>, b: seq<string>)
    ensures Clean(a + b) == Clean(a) + Clean(b)
  {
    if b == [] {
      assert a + b == a;
    } else {
      var init, last := b[..|b| - 1], b[|b| - 1];
      assert (a + b)[..|a + b| - 1] == a + init;
      CleanConcat(a, init);
      var end := if last == "" || last == "." then [] else [last];
      assert (Clean(a) + Clean(init)) + end == Clean(a) + (Clean(init) + end);
    }
  }

  function Read(name: string): Path {
    Clean(Pieces(name, '/'))
  }

  lemma CleanJoined(a: string, b: string)
    ensures Read(a + "/" + b) == Read(a) + Read(b)
  {
    PiecesConcat(a, b, '/');
    CleanConcat(Pieces(a, '/'), Pieces(b, '/'));
  }

  lemma NothingIsClean()
    ensures Read("") == [] && Read(".") == []
  {
    OnePiece("");
    OnePiece(".");
    assert [""][..0] == [] && ["."][..0] == [];
  }

  lemma SameReading(t: Tree, name: string, name': string, kind: Kind)
    requires name != "" && name' != "" && Read(name) == Read(name')
    ensures Run(t, ActionsOf([Member(name, kind)])) == Run(t, ActionsOf([Member(name', kind)]))
  {
    SameAction(name, name', kind);
    OneMember(t, Member(name, kind));
    OneMember(t, Member(name', kind));
  }

  lemma SameAction(name: string, name': string, kind: Kind)
    requires name != "" && name' != "" && Read(name) == Read(name')
    ensures ActionOf(Member(name, kind)) == ActionOf(Member(name', kind))
  {
  }

  /** Slashes and dots before a name and after it make no difference. */
  lemma EndsDoNotMatter(t: Tree, name: string, kind: Kind)
    requires name != ""
    ensures var done := Run(t, ActionsOf([Member(name, kind)]));
            && Run(t, ActionsOf([Member("./" + name, kind)])) == done
            && Run(t, ActionsOf([Member("/" + name, kind)])) == done
            && Run(t, ActionsOf([Member(name + "/", kind)])) == done
  {
    DotFirst(name);
    SlashFirst(name);
    SlashLast(name);
    SameReading(t, name, "./" + name, kind);
    SameReading(t, name, "/" + name, kind);
    SameReading(t, name, name + "/", kind);
  }

  lemma DotFirst(name: string)
    ensures Read("./" + name) == Read(name)
  {
    NothingIsClean();
    CleanJoined(".", name);
    assert "." + "/" == "./";
  }

  lemma SlashFirst(name: string)
    ensures Read("/" + name) == Read(name)
  {
    NothingIsClean();
    CleanJoined("", name);
    assert "" + "/" == "/";
  }

  lemma SlashLast(name: string)
    ensures Read(name + "/") == Read(name)
  {
    NothingIsClean();
    CleanJoined(name, "");
    assert name + "/" + "" == name + "/";
  }

  lemma SlashTwice(a: string, b: string)
    ensures Read(a + "//" + b) == Read(a + "/" + b)
  {
    SlashFirst(b);
    CleanJoined(a, b);
    CleanJoined(a, "/" + b);
    assert a + "/" + ("/" + b) == a + "//" + b;
  }

  lemma DotBetween(a: string, b: string)
    ensures Read(a + "/./" + b) == Read(a + "/" + b)
  {
    DotFirst(b);
    CleanJoined(a, b);
    CleanJoined(a, "./" + b);
    assert a + "/" + ("./" + b) == a + "/./" + b;
  }

  /** Nor do repeated ones between two components. */
  lemma RepeatsDoNotMatter(t: Tree, a: string, b: string, kind: Kind)
    ensures var done := Run(t, ActionsOf([Member(a + "/" + b, kind)]));
            && Run(t, ActionsOf([Member(a + "//" + b, kind)])) == done
            && Run(t, ActionsOf([Member(a + "/./" + b, kind)])) == done
  {
    SlashTwice(a, b);
    DotBetween(a, b);
    SameReading(t, a + "/" + b, a + "//" + b, kind);
    SameReading(t, a + "/" + b, a + "/./" + b, kind);
  }

  // ---------- A whole layer ----------

  datatype Item =
    | Hide(dir: Path, name: string)
    | Empty(dir: Path)
    | Folder(dir: Path, name: string)
    | Put(dir: Path, name: string, content: string)

  /** What the archive holds for an item. */
  predicate Stands(m: Member, item: Item) {
    match item
    case Hide(dir, name) => m.name == InDir(dir, ".wh." + name)
    case Empty(dir) => m.name == InDir(dir, ".wh..wh..opq")
    case Folder(dir, name) => m == Member(InDir(dir, name), Directory)
    case Put(dir, name, content) => m == Member(InDir(dir, name), Regular(content))
  }

  /** Its path has plain names; a whiteout does not hide the mark of an empty directory, and no entry looks like
      a whiteout. */
  predicate Proper(item: Item) {
    && PlainPath(item.dir)
    && match item
       case Hide(_, name) => PlainName(name) && name != ".wh..opq"
       case Empty(_) => true
       case Folder(_, name) => PlainName(name) && !(".wh." <= name)
       case Put(_, name, _) => PlainName(name) && !(".wh." <= name)
  }

  function Place(item: Item): Path {
    if item.Empty? then item.dir else item.dir + [item.name]
  }

  /** The paths below what is whited out. */
  predicate HidesPath(item: Item, p: Path) {
    || (item.Hide? && item.dir + [item.name] <= p)
    || (item.Empty? && item.dir <= p && item.dir != p)
  }

  /** The directories that an entry needs. */
  predicate NeedsDir(item: Item, p: Path) {
    || (item.Folder? && p <= item.dir + [item.name])
    || (item.Put? && p <= item.dir)
  }

  predicate IsWhite(item: Item) {
    item.Hide? || item.Empty?
  }

  /** The entries are a tree of files and directories, none twice. */
  predicate TreeOfEntries(entries: seq<Item>) {
    && (forall i :: 0 <= i < |entries| ==> !IsWhite(entries[i]) && Proper(entries[i]))
    && (forall i, j :: 0 <= i < j < |entries| ==> Place(entries[i]) != Place(entries[j]))
    && (forall i, j :: 0 <= i < |entries| && 0 <= j < |entries| && i != j && entries[i].Put? ==>
          !(Place(entries[i]) <= Place(entries[j])))
  }

  predicate LayerOf(members: seq<Member>, hidden: seq<Item>, entries: seq<Item>) {
    && |members| == |hidden| + |entries|
    && (forall i :: 0 <= i < |hidden| ==> Stands(members[i], hidden[i]) && IsWhite(hidden[i]) && Proper(hidden[i]))
    && (forall i :: 0 <= i < |entries| ==> Stands(members[|hidden| + i], entries[i]))
    && TreeOfEntries(entries)
  }

  /** What the layer leaves at `p`: its file; a directory on the way to an entry; nothing below one of its files or
      where it is whited out; or else what was there. */
  predicate LeftAt(t: Tree, hidden: seq<Item>, entries: seq<Item>, p: Path, x: Option<Entry>) {
    && (forall i :: 0 <= i < |entries| && entries[i].Put? && Place(entries[i]) == p ==>
          x == Some(File(entries[i].content)))
    && (!(exists i :: 0 <= i < |entries| && entries[i].Put? && Place(entries[i]) == p) ==>
          x == if exists i :: 0 <= i < |entries| && NeedsDir(entries[i], p) then Some(Dir)
               else if exists i :: 0 <= i < |entries| && entries[i].Put? && Place(entries[i]) <= p then None
               else if exists i :: 0 <= i < |hidden| && HidesPath(hidden[i], p) then None
               else if p in t then Some(t[p]) else None)
  }

  function ItemAction(item: Item): Action {
    match item
    case Hide(dir, name) => Whiteout(dir + [name])
    case Empty(dir) => Opaque(dir)
    case Folder(dir, name) => Make(dir + [name])
    case Put(dir, name, content) => Write(dir + [name], content)
  }

  function ItemActions(items: seq<Item>): seq<Action> {
    seq(|items|, i requires 0 <= i < |items| => ItemAction(items[i]))
  }

  lemma ItemIsRead(m: Member, item: Item)
    requires Proper(item) && Stands(m, item)
    ensures ActionOf(m) == ItemAction(item)
  {
    match item {
      case Hide(dir, name) => WhiteoutIsRead(dir, name, m.kind);
      case Empty(dir) => OpaqueIsRead(dir, m.kind);
      case Folder(dir, name) => NameIsRead(dir, name);
      case Put(dir, name, _) => NameIsRead(dir, name);
    }
  }

  lemma LayerIsRead(members: seq<Member>, hidden: seq<Item>, entries: seq<Item>)
    requires LayerOf(members, hidden, entries)
    ensures ActionsOf(members) == ItemActions(hidden) + ItemActions(entries)
  {
    forall k | 0 <= k < |members|
      ensures ActionOf(members[k]) == (ItemActions(hidden) + ItemActions(entries))[k]
    {
      if k < |hidden| {
        ItemIsRead(members[k], hidden[k]);
      } else {
        var i := k - |hidden|;
        assert Stands(members[|hidden| + i], entries[i]);
        ItemIsRead(members[k], entries[i]);
      }
    }
  }

  lemma EntriesAreTidy(entries: seq<Item>)
    requires TreeOfEntries(entries)
    ensures Tidy(ItemActions(entries))
  {
    var e := ItemActions(entries);
    forall i | 0 <= i < |e|
      ensures IsEntry(e[i]) && e[i].path == Place(entries[i]) && (e[i].Write? <==> entries[i].Put?)
    {
      assert !IsWhite(entries[i]);
    }
  }

  lemma SameHidden(hidden: seq<Item>, p: Path)
    ensures Hidden(ItemActions(hidden), p) <==> exists i :: 0 <= i < |hidden| && HidesPath(hidden[i], p)
  {
    var w := ItemActions(hidden);
    assert forall i :: 0 <= i < |hidden| ==> (Hides(w[i], p) <==> HidesPath(hidden[i], p));
  }

  lemma ParentOfPlace(item: Item)
    requires item.Put?
    ensures Parent(Place(item)) == item.dir
  {
  }

  lemma SameNeeds(entries: seq<Item>, p: Path)
    ensures forall i :: 0 <= i < |entries| ==> (Leads(ItemActions(entries)[i], p) <==> NeedsDir(entries[i], p))
    ensures Led(ItemActions(entries), p) <==> exists i :: 0 <= i < |entries| && NeedsDir(entries[i], p)
  {
    var e := ItemActions(entries);
    forall i | 0 <= i < |entries|
      ensures Leads(e[i], p) <==> NeedsDir(entries[i], p)
    {
      if entries[i].Put? { ParentOfPlace(entries[i]); }
    }
  }

  lemma SameFiles(entries: seq<Item>, p: Path)
    ensures Written(ItemActions(entries), p)
            <==> exists i :: 0 <= i < |entries| && entries[i].Put? && Place(entries[i]) == p
    ensures Replaced(ItemActions(entries), p)
            <==> exists i :: 0 <= i < |entries| && entries[i].Put? && Place(entries[i]) <= p
  {
    var e := ItemActions(entries);
    assert forall i :: 0 <= i < |entries| ==>
                         (e[i].Write? <==> entries[i].Put?) && (e[i].Write? ==> e[i].path == Place(entries[i]));
    if Replaced(e, p) {
      var i :| 0 <= i < |e| && Replaces(e[i], p);
      assert entries[i].Put?;
    }
    if i :| 0 <= i < |entries| && entries[i].Put? && Place(entries[i]) <= p {
      assert Replaces(e[i], p);
    }
  }

  lemma LeftIsLayered(t: Tree, hidden: seq<Item>, entries: seq<Item>, p: Path, x: Option<Entry>)
    requires LayeredAt(t, ItemActions(hidden), ItemActions(entries), p, x)
    ensures LeftAt(t, hidden, entries, p, x)
  {
    var e := ItemActions(entries);
    SameHidden(hidden, p);
    SameNeeds(entries, p);
    SameFiles(entries, p);
    forall i | 0 <= i < |entries| && entries[i].Put? && Place(entries[i]) == p
      ensures x == Some(File(entries[i].content))
    {
      assert e[i].Write? && e[i].path == p;
    }
  }

  /** The layer, read off the names of its members: what it leaves at every path, and the two ways in which it fails:
      an opaque whiteout of a file that no earlier whiteout hides, or an entry below such a file. */
  lemma LayerByNames(t: Tree, members: seq<Member>, hidden: seq<Item>, entries: seq<Item>)
    requires IsTree(t) && LayerOf(members, hidden, entries)
    ensures var after := Run(t, ActionsOf(members));
            && (after.Some? ==> forall p :: LeftAt(t, hidden, entries, p, At(after.value, p)))
            && (after.None? <==> (exists i :: 0 <= i < |hidden| && OpaqueOfFile(t, hidden, i))
                                 || (exists i, q :: 0 <= i < |entries| && BelowFile(t, hidden, entries[i], q)))
  {
    LayerIsRead(members, hidden, entries);
    EntriesAreTidy(entries);
    var w, e := ItemActions(hidden), ItemActions(entries);
    forall a | a in w
      ensures IsWhiteout(a)
    {
      var i :| 0 <= i < |w| && w[i] == a;
      assert IsWhite(hidden[i]);
    }
    LayerIsOverlay(t, members, w, e);
    if Run(t, ActionsOf(members)).Some? {
      forall p
        ensures LeftAt(t, hidden, entries, p, At(Run(t, ActionsOf(members)).value, p))
      {
        LeftIsLayered(t, hidden, entries, p, At(Run(t, ActionsOf(members)).value, p));
      }
    }
    forall i | 0 <= i < |hidden|
      ensures Misplaced(t, w, i) <==> OpaqueOfFile(t, hidden, i)
    {
      SameOpaque(t, hidden, i);
    }
    forall i, q | 0 <= i < |entries|
      ensures Obstructs(t, w, e[i], q) <==> BelowFile(t, hidden, entries[i], q)
    {
      SameNeeds(entries, q);
      SameHidden(hidden, q);
    }
  }

  predicate OpaqueOfFile(t: Tree, hidden: seq<Item>, i: nat)
    requires i < |hidden|
  {
    && hidden[i].Empty? && hidden[i].dir in t && t[hidden[i].dir].File?
    && forall j :: 0 <= j < i ==> !HidesPath(hidden[j], hidden[i].dir)
  }

  predicate BelowFile(t: Tree, hidden: seq<Item>, item: Item, q: Path) {
    && NeedsDir(item, q) && q in t && t[q].File?
    && forall j :: 0 <= j < |hidden| ==> !HidesPath(hidden[j], q)
  }

  lemma SameOpaque(t: Tree, hidden: seq<Item>, i: nat)
    requires i < |hidden|
    ensures Misplaced(t, ItemActions(hidden), i) <==> OpaqueOfFile(t, hidden, i)
  {
    if hidden[i].Empty? {
      assert ItemActions(hidden)[..i] == ItemActions(hidden[..i]);
      SameHidden(hidden[..i], hidden[i].dir);
    }
  }
}
