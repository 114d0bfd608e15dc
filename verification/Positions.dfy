/**
 Where the paragraphs of a document stand: a table of position numbers that prepending a batch
 and appending one paragraph keep equal to a sequence.
 */
module Positions {
  type Id = string

  type Table = map<Id, int>

  predicate Distinct(s: seq<Id>) {
    forall i, j :: 0 <= i < j < |s| ==> s[i] != s[j]
  }

  /** `s` is one answer to reading the table in position order; equal positions may come either way. */
  ghost predicate Listing(t: Table, s: seq<Id>) {
    && Distinct(s)
    && (forall p :: p in t <==> p in s)
    && (forall i, j :: 0 <= i < j < |s| ==> t[s[i]] <= t[s[j]])
  }

  /** The table stands for `s`: positions are pairwise distinct and reading them in order gives `s`. */
  ghost predicate Represents(t: Table, s: seq<Id>) {
    && Listing(t, s)
    && (forall i, j :: 0 <= i < j < |s| ==> t[s[i]] != t[s[j]])
  }

  /** Positions `first`, `first + 1`, and so on, along `s`. */
  function Numbered(s: seq<Id>, first: int): Table {
    if s == [] then map[] else Numbered(s[..|s| - 1], first)[s[|s| - 1] := first + |s| - 1]
  }

  /** The largest position, or zero if there is none. */
  ghost predicate IsMax(t: Table, m: int) {
    if t == map[] then m == 0
    else (exists p :: p in t && t[p] == m) && forall p :: p in t ==> t[p] <= m
  }

  class Document {
    var positions: Table

    constructor ()
      ensures positions == map[]
    {
      positions := map[];
    }

    /** Renumbers the existing paragraphs after the new ones, then numbers the new ones from 1. */
    method PrependParagraphs(existing: seq<Id>, paragraphs: seq<Id>)
      requires Listing(positions, existing) && Distinct(existing + paragraphs)
      modifies this
      ensures positions == Numbered(paragraphs + existing, 1)
    {
      var n := |paragraphs|;
      var i := 0;
      while i < |existing|
        invariant 0 <= i <= |existing|
        invariant forall p :: p in positions <==> p in existing
        invariant forall k :: 0 <= k < i ==> positions[existing[k]] == n + k + 1
      {
        positions := positions[existing[i] := n + i + 1];
        i := i + 1;
      }
      i := 0;
      while i < |paragraphs|
        invariant 0 <= i <= |paragraphs|
        invariant forall p :: p in positions <==> p in existing || p in paragraphs[..i]
        invariant forall k :: 0 <= k < |existing| ==> positions[existing[k]] == n + k + 1
        invariant forall k :: 0 <= k < i ==> positions[paragraphs[k]] == k + 1
      {
        positions := positions[paragraphs[i] := i + 1];
        assert paragraphs[..i + 1] == paragraphs[..i] + [paragraphs[i]];
        assert forall k :: 0 <= k < |existing| ==> (existing + paragraphs)[k] == existing[k];
        assert (existing + paragraphs)[|existing| + i] == paragraphs[i];
        assert forall k :: 0 <= k < |paragraphs| ==> (existing + paragraphs)[|existing| + k] == paragraphs[k];
        i := i + 1;
      }
      assert paragraphs[..i] == paragraphs;
      DistinctSwaps(existing, paragraphs);
      NumberedIs(paragraphs + existing, 1, positions);
    }

    /** The new paragraph goes one past the largest position. */
    method Append(paragraph: Id)
      requires paragraph !in positions
      modifies this
      ensures exists m :: IsMax(old(positions), m) && positions == old(positions)[paragraph := m + 1]
    {
      var max := MaxPosition(positions);
      positions := positions[paragraph := max + 1];
    }
  }

  method MaxPosition(t: Table) returns (max: int)
    ensures IsMax(t, max)
  {
    var left := t.Keys;
    if left == {} {
      return 0;
    }
    var first :| first in left;
    max := t[first];
    left := left - {first};
    while left != {}
      invariant left <= t.Keys
      invariant exists p :: p in t && t[p] == max
      invariant forall p :: p in t && p !in left ==> t[p] <= max
      decreases |left|
    {
      var p :| p in left;
      if t[p] > max {
        max := t[p];
      }
      left := left - {p};
    }
    assert first in t;
  }

  lemma DistinctSwaps(a: seq<Id>, b: seq<Id>)
    requires Distinct(a + b)
    ensures Distinct(b + a)
  {
    forall i, j | 0 <= i < j < |b + a|
      ensures (b + a)[i] != (b + a)[j]
    {
      var i' := if i < |b| then |a| + i else i - |b|;
      var j' := if j < |b| then |a| + j else j - |b|;
      assert (a + b)[i'] == (b + a)[i] && (a + b)[j'] == (b + a)[j];
    }
  }

  lemma {:induction false} NumberedAt(s: seq<Id>, first: int)
    requires Distinct(s)
    ensures forall p :: p in Numbered(s, first) <==> p in s
    ensures forall k :: 0 <= k < |s| ==> s[k] in Numbered(s, first) && Numbered(s, first)[s[k]] == first + k
  {
    if s != [] {
      var n := |s| - 1;
      NumberedAt(s[..n], first);
      assert s == s[..n] + [s[n]];
    }
  }

  lemma NumberedIs(s: seq<Id>, first: int, t: Table)
    requires Distinct(s) && (forall p :: p in t <==> p in s)
    requires forall k :: 0 <= k < |s| ==> t[s[k]] == first + k
    ensures t == Numbered(s, first)
  {
    NumberedAt(s, first);
    forall p | p in t
      ensures t[p] == Numbered(s, first)[p]
    {
      var k :| 0 <= k < |s| && s[k] == p;
    }
  }

  // ---------- What the operations mean ----------

  /** Whatever the table was, even with positions in common, a prepend leaves 1 to n + m with the new ones in front. */
  lemma PrependMeans(existing: seq<Id>, paragraphs: seq<Id>)
    requires Distinct(existing + paragraphs)
    ensures Represents(Numbered(paragraphs + existing, 1), paragraphs + existing)
    ensures forall k :: 0 <= k < |paragraphs + existing| ==>
                          Numbered(paragraphs + existing, 1)[(paragraphs + existing)[k]] == k + 1
  {
    DistinctSwaps(existing, paragraphs);
    NumberedAt(paragraphs + existing, 1);
  }

  /** An append leaves the order of the rest and comes last. */
  lemma AppendMeans(t: Table, s: seq<Id>, p: Id, m: int)
    requires Represents(t, s) && p !in t && IsMax(t, m)
    ensures Represents(t[p := m + 1], s + [p])
  {
    var u := t[p := m + 1];
    assert forall i :: 0 <= i < |s| ==> (s + [p])[i] == s[i] && s[i] in t;
    assert (s + [p])[|s|] == p;
    assert s != [] ==> s[0] in t;
  }

  lemma LastIsLargest(t: Table, s: seq<Id>, p: Id)
    requires Listing(t, s) && p in t
    ensures s != [] && t[p] <= t[s[|s| - 1]]
    ensures Represents(t, s) ==> p == s[|s| - 1] || t[p] < t[s[|s| - 1]]
  {
    var k :| 0 <= k < |s| && s[k] == p;
    assert k < |s| - 1 ==> t[s[k]] <= t[s[|s| - 1]];
  }

  lemma WithoutLast(t: Table, s: seq<Id>)
    requires Listing(t, s) && s != []
    ensures Listing(t - {s[|s| - 1]}, s[..|s| - 1])
    ensures Represents(t, s) ==> Represents(t - {s[|s| - 1]}, s[..|s| - 1])
  {
    var n := |s| - 1;
    assert s == s[..n] + [s[n]];
    forall p
      ensures p in t - {s[n]} <==> p in s[..n]
    {
      if p in s[..n] {
        var k :| 0 <= k < n && s[..n][k] == p;
        assert s[k] != s[n];
      }
    }
  }

  lemma EmptyListing(t: Table, s: seq<Id>)
    requires Listing(t, s)
    ensures s == [] <==> t == map[]
  {
    if s != [] { assert s[0] in s; }
  }

  lemma SameLast(t: Table, s: seq<Id>, s': seq<Id>)
    requires Represents(t, s) && Listing(t, s')
    ensures s == [] <==> s' == []
    ensures s != [] ==> s[|s| - 1] == s'[|s'| - 1]
  {
    EmptyListing(t, s);
    EmptyListing(t, s');
    if s != [] {
      assert s[|s| - 1] in s;
      LastIsLargest(t, s', s[|s| - 1]);
      assert s'[|s'| - 1] in s';
      LastIsLargest(t, s, s'[|s'| - 1]);
    }
  }

  lemma FrontAndLast(s: seq<Id>, s': seq<Id>)
    requires s != [] && s' != [] && s[|s| - 1] == s'[|s'| - 1] && s[..|s| - 1] == s'[..|s'| - 1]
    ensures s == s'
  {
    assert s == s[..|s| - 1] + [s[|s| - 1]] && s' == s'[..|s'| - 1] + [s'[|s'| - 1]];
  }

  /** A table stands for at most one sequence. */
  lemma {:induction false} RepresentsOne(t: Table, s: seq<Id>, s': seq<Id>)
    requires Represents(t, s) && Listing(t, s')
    ensures s == s'
    decreases |s|
  {
    SameLast(t, s, s');
    if s != [] {
      WithoutLast(t, s);
      WithoutLast(t, s');
      RepresentsOne(t - {s[|s| - 1]}, s[..|s| - 1], s'[..|s'| - 1]);
      FrontAndLast(s, s');
    }
  }

  // ---------- Runs ----------

  datatype Op = Prepend(paragraphs: seq<Id>) | Append(paragraph: Id)

  ghost predicate Stepped(t: Table, op: Op, u: Table) {
    match op
    case Prepend(paragraphs) =>
      exists existing :: Listing(t, existing) && Distinct(existing + paragraphs)
                         && u == Numbered(paragraphs + existing, 1)
    case Append(p) =>
      p !in t && exists m :: IsMax(t, m) && u == t[p := m + 1]
  }

  ghost predicate IsRun(tables: seq<Table>, ops: seq<Op>) {
    |tables| == |ops| + 1 && forall i :: 0 <= i < |ops| ==> Stepped(tables[i], ops[i], tables[i + 1])
  }

  function Played(s: seq<Id>, ops: seq<Op>): seq<Id> {
    if ops == [] then s
    else
      var before := Played(s, ops[..|ops| - 1]);
      match ops[|ops| - 1]
      case Prepend(paragraphs) => paragraphs + before
      case Append(p) => before + [p]
  }

  /** Over any run of prepends and appends from distinct positions, the table stands for the played sequence. */
  lemma {:induction false} RunsRefineSequences(tables: seq<Table>, ops: seq<Op>, s: seq<Id>)
    requires IsRun(tables, ops) && Represents(tables[0], s)
    ensures Represents(tables[|ops|], Played(s, ops))
    decreases |ops|
  {
    if ops != [] {
      var n := |ops| - 1;
      RunsRefineSequences(tables[..n + 1], ops[..n], s);
      assert Stepped(tables[n], ops[n], tables[n + 1]);
      match ops[n] {
        case Prepend(paragraphs) =>
          var existing :| Listing(tables[n], existing) && Distinct(existing + paragraphs)
                          && tables[n + 1] == Numbered(paragraphs + existing, 1);
          RepresentsOne(tables[n], Played(s, ops[..n]), existing);
          PrependMeans(existing, paragraphs);
        case Append(p) =>
          var m :| IsMax(tables[n], m) && tables[n + 1] == tables[n][p := m + 1];
          AppendMeans(tables[n], Played(s, ops[..n]), p, m);
      }
    }
  }
}
