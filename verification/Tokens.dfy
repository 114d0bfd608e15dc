/** Rule lists as C code reads them: pieces between separators, taken one at a time. */
module Tokens {
  import opened Wrappers
  import opened Text

  /** The pieces between the separators, empty ones included. */
  function Pieces(s: string, sep: char): (r: seq<string>)
    ensures r != []
    decreases |s|
  {
    if sep !in s then [s]
    else
      FindChar(s, sep);
      var i := Find(s, [sep]);
      [s[..i]] + Pieces(s[i + 1..], sep)
  }

  /** The first piece ends at the first separator. */
  lemma FirstPiece(s: string, i: nat, sep: char)
    requires i < |s| && s[i] == sep && sep !in s[..i]
    ensures Pieces(s, sep) == [s[..i]] + Pieces(s[i + 1..], sep)
  {
    FindChar(s, sep);
    assert forall k :: 0 <= k < i ==> s[k] == s[..i][k];
    assert Find(s, [sep]) == i;
  }

  lemma Regroup(first: string, rest: seq<string>, more: seq<string>)
    ensures [first] + (rest + more) == ([first] + rest) + more
  {
  }

  lemma PiecesOfLongerText(a: string, b: string, sep: char, i: nat, rest: seq<string>)
    requires i < |a| && a[i] == sep && sep !in a[..i]
    requires Pieces(a[i + 1..] + [sep] + b, sep) == rest
    ensures Pieces(a + [sep] + b, sep) == [a[..i]] + rest
  {
    var t := a + [sep] + b;
    assert t[..i] == a[..i] && t[i] == sep && t[i + 1..] == a[i + 1..] + [sep] + b;
    FirstPiece(t, i, sep);
  }

  lemma NoSeparator(a: string, b: string, sep: char)
    requires sep !in a
    ensures Pieces(a + [sep] + b, sep) == [a] + Pieces(b, sep)
  {
    var t := a + [sep] + b;
    assert t[..|a|] == a && t[|a| + 1..] == b;
    FirstPiece(t, |a|, sep);
  }

  lemma {:induction false} PiecesConcat(a: string, b: string, sep: char)
    ensures Pieces(a + [sep] + b, sep) == Pieces(a, sep) + Pieces(b, sep)
    decreases |a|
  {
    FindChar(a, sep);
    var i := Find(a, [sep]);
    if i == -1 {
      NoSeparator(a, b, sep);
    } else {
      PiecesConcat(a[i + 1..], b, sep);
      PiecesOfLongerText(a, b, sep, i, Pieces(a[i + 1..], sep) + Pieces(b, sep));
      FirstPiece(a, i, sep);
      Regroup(a[..i], Pieces(a[i + 1..], sep), Pieces(b, sep));
    }
  }

  function Trim(s: string): string {
    if s != "" && s[0] in " \t" then Trim(s[1..]) else s
  }

  function NonEmpty(pieces: seq<string>): seq<string> {
    if pieces == [] then []
    else (if pieces[0] == "" then [] else [pieces[0]]) + NonEmpty(pieces[1..])
  }

  lemma {:induction false} NonEmptyMembers(pieces: seq<string>, p: string)
    ensures p in NonEmpty(pieces) <==> p in pieces && p != ""
  {
    if pieces != [] {
      NonEmptyMembers(pieces[1..], p);
      assert pieces == [pieces[0]] + pieces[1..];
    }
  }

  /** The tokens of a text: its pieces, but for the empty ones. */
  function Tokens(s: string, sep: char): seq<string> {
    NonEmpty(Pieces(s, sep))
  }

  lemma TokensAfterPiece(s: string, i: nat, sep: char)
    requires i < |s| && s[i] == sep && sep !in s[..i]
    ensures Tokens(s, sep) == (if i == 0 then [] else [s[..i]]) + Tokens(s[i + 1..], sep)
  {
    FirstPiece(s, i, sep);
    assert ([s[..i]] + Pieces(s[i + 1..], sep))[1..] == Pieces(s[i + 1..], sep);
  }

  /** What `strtok` hands out next, and what is left for the calls after: the tokens, one after the other. */
  method StrTok(list: string, sep: char) returns (token: Option<string>, rest: string)
    ensures |rest| <= |list| && (token.Some? ==> token.value != "" && |rest| < |list|)
    ensures Tokens(list, sep) == if token.Some? then [token.value] + Tokens(rest, sep) else []
  {
    rest := list;
    while rest != "" && rest[0] == sep
      invariant |rest| <= |list|
      invariant Tokens(list, sep) == Tokens(rest, sep)
      decreases |rest|
    {
      TokensAfterPiece(rest, 0, sep);
      rest := rest[1..];
    }
    if rest == "" {
      return None, "";
    }
    var i := 0;
    while i < |rest| && rest[i] != sep
      invariant 0 <= i <= |rest| && sep !in rest[..i]
      invariant i == 0 ==> rest[0] != sep
    {
      i := i + 1;
    }
    if i == |rest| {
      assert rest[..i] == rest;
      assert Pieces("", sep) == [""] && Pieces(rest, sep) == [rest];
      assert NonEmpty([rest]) == [rest] && NonEmpty([""]) == [];
      return Some(rest), "";
    }
    TokensAfterPiece(rest, i, sep);
    token, rest := Some(rest[..i]), rest[i + 1..];
  }

  lemma TokenMembers(list: string, sep: char, token: Option<string>, rest: string)
    requires Tokens(list, sep) == if token.Some? then [token.value] + Tokens(rest, sep) else []
    ensures forall p :: p != "" ==>
                          (p in Pieces(list, sep) <==> (token.Some? && (p == token.value || p in Pieces(rest, sep))))
  {
    forall p | p != ""
      ensures p in Pieces(list, sep) <==> (token.Some? && (p == token.value || p in Pieces(rest, sep)))
    {
      NonEmptyMembers(Pieces(list, sep), p);
      NonEmptyMembers(Pieces(rest, sep), p);
    }
  }

  /** C's `while (*token == ' ' || *token == '\t') token++`. */
  method SkipBlanks(token: string) returns (s: string)
    ensures s == Trim(token)
  {
    s := token;
    while s != "" && s[0] in " \t"
      invariant Trim(s) == Trim(token)
      decreases |s|
    {
      s := s[1..];
    }
  }
}
