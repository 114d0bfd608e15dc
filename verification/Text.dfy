/** Python's `str.find` and `str.replace(r, "")`. */
module Text {
  predicate OccursAt(s: string, t: string, i: nat) {
    i + |t| <= |s| && s[i..i + |t|] == t
  }

  function FindFrom(s: string, t: string, i: nat): (r: int)
    requires i <= |s|
    ensures r == -1 || (i <= r && r + |t| <= |s|)
    decreases |s| - i
  {
    if OccursAt(s, t, i) then i else if i == |s| then -1 else FindFrom(s, t, i + 1)
  }

  /** The first index at which `t` occurs in `s`, or -1. */
  function Find(s: string, t: string): (r: int)
    ensures r == -1 || (0 <= r && r + |t| <= |s|)
  {
    FindFrom(s, t, 0)
  }

  lemma {:induction false} FindFromIsFirst(s: string, t: string, i: nat)
    requires i <= |s|
    ensures var r := FindFrom(s, t, i);
            && (r >= 0 ==> OccursAt(s, t, r) && forall j :: i <= j < r ==> !OccursAt(s, t, j))
            && (r == -1 ==> forall j :: i <= j <= |s| ==> !OccursAt(s, t, j))
    decreases |s| - i
  {
    if !OccursAt(s, t, i) && i < |s| {
      FindFromIsFirst(s, t, i + 1);
    }
  }

  lemma FindIsFirst(s: string, t: string)
    ensures Find(s, t) >= 0 ==> OccursAt(s, t, Find(s, t)) && forall j :: 0 <= j < Find(s, t) ==> !OccursAt(s, t, j)
    ensures Find(s, t) == -1 ==> forall j :: 0 <= j <= |s| ==> !OccursAt(s, t, j)
  {
    FindFromIsFirst(s, t, 0);
  }

  /** The first occurrence is what `Find` gives. */
  lemma FirstIsFound(s: string, t: string, i: nat)
    requires OccursAt(s, t, i) && forall j :: 0 <= j < i ==> !OccursAt(s, t, j)
    ensures Find(s, t) == i
  {
    FindIsFirst(s, t);
  }

  /** `s` without any occurrence of `r`, scanned from the left. */
  function Remove(s: string, r: string): string
    requires r != []
  {
    if |s| < |r| then s
    else if s[..|r|] == r then Remove(s[|r|..], r)
    else [s[0]] + Remove(s[1..], r)
  }

  lemma Assoc(a: string, b: string, c: string)
    ensures (a + b) + c == a + (b + c)
  {
  }

  lemma Singleton(s: string)
    ensures |s| == 1 ==> s == [s[0]]
  {
  }

  /** A prefix that lacks the first character of `t` only shifts the first occurrence of `t`. */
  lemma FindAfter(a: string, b: string, t: string)
    requires t != [] && t[0] !in a
    ensures Find(a + b, t) == if Find(b, t) == -1 then -1 else |a| + Find(b, t)
  {
    var f, g := Find(a + b, t), Find(b, t);
    FindIsFirst(a + b, t);
    FindIsFirst(b, t);
    if g >= 0 { OccursInSuffix(a, b, t, g); }
    if f >= 0 {
      assert (a + b)[f..f + |t|][0] == (a + b)[f];
      assert f >= |a|;
      OccursInSuffix(a, b, t, f - |a|);
    }
  }

  lemma OccursInSuffix(a: string, b: string, t: string, j: nat)
    ensures OccursAt(a + b, t, |a| + j) <==> OccursAt(b, t, j)
  {
    if j + |t| <= |b| {
      assert (a + b)[|a| + j..|a| + j + |t|] == b[j..j + |t|];
    }
  }

  lemma OccursInPrefix(s: string, s': string, t: string, i: nat)
    requires s <= s' && i + |t| <= |s|
    ensures OccursAt(s', t, i) <==> OccursAt(s, t, i)
  {
    assert s'[i..i + |t|] == s[i..i + |t|];
  }

  /** What is found in a prefix is found in the whole, at the same place. */
  lemma FindInPrefix(s: string, s': string, t: string)
    requires s <= s' && Find(s, t) >= 0
    ensures Find(s', t) == Find(s, t)
  {
    var i := Find(s, t);
    FindIsFirst(s, t);
    OccursInPrefix(s, s', t, i);
    forall j | 0 <= j < i
      ensures !OccursAt(s', t, j)
    {
      if j + |t| <= |s| { OccursInPrefix(s, s', t, j); }
    }
    FirstIsFound(s', t, i);
  }

  lemma FindChar(s: string, c: char)
    ensures Find(s, [c]) == -1 <==> c !in s
    ensures Find(s, [c]) >= 0 ==> Find(s, [c]) < |s| && s[Find(s, [c])] == c && c !in s[..Find(s, [c])]
    ensures forall j :: 0 <= j < Find(s, [c]) ==> s[j] != c
  {
    FindIsFirst(s, [c]);
    forall j | 0 <= j < |s|
      ensures OccursAt(s, [c], j) <==> s[j] == c
    {
      assert s[j..j + 1] == [s[j]];
    }
  }

  lemma {:induction false} RemoveAbsent(s: string, r: string, c: char)
    requires c in r && c !in s
    ensures Remove(s, r) == s
  {
    if |s| >= |r| {
      var k :| 0 <= k < |r| && r[k] == c;
      assert s[..|r|][k] == s[k];
      RemoveAbsent(s[1..], r, c);
    }
  }

  lemma {:induction false} RemoveCharGone(s: string, c: char)
    ensures c !in Remove(s, [c])
  {
    if s != [] {
      assert s[..1] == [s[0]];
      RemoveCharGone(s[1..], c);
    }
  }

  lemma {:induction false} RemoveCharConcat(a: string, b: string, c: char)
    ensures Remove(a + b, [c]) == Remove(a, [c]) + Remove(b, [c])
  {
    if a == [] {
      assert a + b == b;
    } else {
      assert a[..1] == [a[0]] && (a + b)[..1] == [a[0]] && (a + b)[1..] == a[1..] + b;
      RemoveCharConcat(a[1..], b, c);
    }
  }

  lemma {:induction false} RemoveCharShorter(s: string, c: char)
    ensures |Remove(s, [c])| <= |s|
    ensures c in s ==> |Remove(s, [c])| < |s|
    ensures c !in s ==> Remove(s, [c]) == s
  {
    if s != [] {
      assert s[..1] == [s[0]];
      RemoveCharShorter(s[1..], c);
    }
  }
}
