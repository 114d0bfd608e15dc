/** The sandbox's address and path rules: bit tests on addresses, and lists of rules read token by token. */
module Cidr {
  import opened Wrappers
  import opened Text
  import opened Tokens
  import opened Words

  type In6 = s: seq<bv8> | |s| == 16 witness seq(16, _ => 0)

  /** `inet_pton`: an IPv4 address as the little-endian word that `s_addr` holds, an IPv6 address as its bytes. */
  datatype Net = Net(v4: string -> Option<bv32>, v6: string -> Option<In6>)

  // ---------- IPv4 ----------

  lemma SmallNumber(i: bv32)
    ensures i < 32 <==> i as int < 32
    ensures i <= 32 <==> i as int <= 32
  {
  }

  /** Two addresses agree on their first `prefix` bits. */
  ghost predicate Agree4(a: bv32, b: bv32, prefix: nat)
    requires prefix <= 32
  {
    forall i: bv32 :: i < 32 && i as int < prefix ==> FromFront(a, i) == FromFront(b, i)
  }

  /** A length as a word. */
  function Word(prefix: nat): (x: bv32)
    requires prefix <= 32
    ensures x as int == prefix
  {
    if prefix == 0 then 0
    else
      var y := Word(prefix - 1);
      SmallNumber(y);
      y + 1
  }

  lemma WordFits(prefix: nat)
    requires prefix <= 32
    ensures prefix as bv32 <= 32 && (prefix as bv32) as int == prefix
  {
    var x := Word(prefix);
    SmallNumber(x);
    ThereAndBack(x);
  }

  lemma ThereAndBack(x: bv32)
    ensures (x as int) as bv32 == x
  {
  }

  lemma SmallerWord(i: bv32, j: bv32)
    requires i <= 32 && j <= 32
    ensures i < j <==> i as int < j as int
  {
  }

  lemma AgreeInHostOrder(a: bv32, b: bv32, prefix: nat)
    requires prefix <= 32
    ensures prefix as bv32 <= 32
    ensures Agree4(a, b, prefix) <==> AgreeHost(Htonl(a), Htonl(b), prefix as bv32)
  {
    WordFits(prefix);
    forall i: bv32 | i < 32
      ensures i as int < prefix <==> i < prefix as bv32
      ensures Same(Htonl(a), Htonl(b), Front4(i)) <==> FromFront(a, i) == FromFront(b, i)
    {
      SmallerWord(i, prefix as bv32);
      SwappedBit(a, b, i);
    }
  }

  /** The mask test on network-order words holds iff the first `prefix` bits agree. */
  lemma MaskTestIsExact(a: bv32, b: bv32, prefix: nat)
    requires prefix <= 32
    ensures prefix as bv32 <= 32
    ensures Same(a, b, Htonl(Mask4(prefix as bv32))) <==> Agree4(a, b, prefix)
  {
    AgreeInHostOrder(a, b, prefix);
    SwapsAgree(a, b, Mask4(prefix as bv32));
    HostMaskTest(Htonl(a), Htonl(b), prefix as bv32);
  }

  /** A full-length prefix names one address. */
  lemma FullPrefix4(a: bv32, b: bv32)
    ensures Agree4(a, b, 32) <==> a == b
  {
    AgreeInHostOrder(a, b, 32);
    HostMaskTest(Htonl(a), Htonl(b), 32);
    AllBitsSame(Htonl(a), Htonl(b));
    HtonlInjective(a, b);
  }

  // ---------- IPv6 ----------

  /** The `j`-th bit of a byte, counted from its front. */
  function Front8(j: nat): bv8
    requires j < 8
  {
    if j == 0 then 0x80 else if j == 1 then 0x40 else if j == 2 then 0x20 else if j == 3 then 0x10
    else if j == 4 then 0x08 else if j == 5 then 0x04 else if j == 6 then 0x02 else 0x01
  }

  /** Two addresses agree on their first `prefix` bits. */
  ghost predicate Agree6(a: In6, b: In6, prefix: nat)
    requires prefix <= 128
  {
    forall i :: 0 <= i < prefix ==> SameByte(a[i / 8], b[i / 8], Front8(i % 8))
  }

  function Mask8(rem: nat): bv8
    requires 0 < rem < 8
  {
    0xFF << (8 - rem)
  }

  function Head8(n: nat): bv8
    requires n <= 8
  {
    if n == 0 then 0 else Head8(n - 1) | Front8(n - 1)
  }

  lemma MaskIsHead(rem: nat)
    requires 0 < rem < 8
    ensures Mask8(rem) == Head8(rem)
  {
    assert Head8(1) == 0x80 && Head8(2) == 0xC0 && Head8(3) == 0xE0 && Head8(4) == 0xF0;
    assert Head8(5) == 0xF8 && Head8(6) == 0xFC && Head8(7) == 0xFE;
    if rem == 1 {
    } else if rem == 2 {
    } else if rem == 3 {
    } else if rem == 4 {
    } else if rem == 5 {
    } else if rem == 6 {
    }
  }

  predicate SameByte(x: bv8, y: bv8, mask: bv8) {
    x & mask == y & mask
  }

  lemma ByteAbsorb(x: bv8, m: bv8, h: bv8)
    ensures (x & (m | h)) & m == x & m
  {
  }

  lemma ByteDistribute(x: bv8, m: bv8, h: bv8)
    ensures x & (m | h) == (x & m) | (x & h)
  {
  }

  lemma ByteOrCommutes(m: bv8, h: bv8)
    ensures m | h == h | m
  {
  }

  lemma SameBytePart(x: bv8, y: bv8, m: bv8, h: bv8)
    requires SameByte(x, y, m | h)
    ensures SameByte(x, y, m)
  {
    ByteAbsorb(x, m, h);
    ByteAbsorb(y, m, h);
  }

  lemma SameByteUnion(x: bv8, y: bv8, m: bv8, h: bv8)
    requires SameByte(x, y, m) && SameByte(x, y, h)
    ensures SameByte(x, y, m | h)
  {
    ByteDistribute(x, m, h);
    ByteDistribute(y, m, h);
  }

  lemma ByteUnion(x: bv8, y: bv8, m: bv8, h: bv8, u: bv8)
    requires u == m | h
    ensures SameByte(x, y, u) <==> SameByte(x, y, m) && SameByte(x, y, h)
  {
    if SameByte(x, y, u) {
      SameBytePart(x, y, m, h);
      ByteOrCommutes(m, h);
      SameBytePart(x, y, h, m);
    }
    if SameByte(x, y, m) && SameByte(x, y, h) {
      SameByteUnion(x, y, m, h);
    }
  }

  ghost predicate AgreeByte(x: bv8, y: bv8, n: nat)
    requires n <= 8
  {
    forall j :: 0 <= j < n ==> SameByte(x, y, Front8(j))
  }

  lemma {:induction false} HeadTest(x: bv8, y: bv8, n: nat)
    requires n <= 8
    ensures SameByte(x, y, Head8(n)) <==> AgreeByte(x, y, n)
  {
    if n > 0 {
      HeadTest(x, y, n - 1);
      ByteUnion(x, y, Head8(n - 1), Front8(n - 1), Head8(n));
    }
  }

  lemma ByteMaskTest(x: bv8, y: bv8, rem: nat)
    requires 0 < rem < 8
    ensures SameByte(x, y, Mask8(rem)) <==> AgreeByte(x, y, rem)
  {
    HeadTest(x, y, rem);
    MaskIsHead(rem);
  }

  lemma WholeByte(x: bv8, y: bv8)
    ensures AgreeByte(x, y, 8) <==> x == y
  {
    HeadTest(x, y, 8);
    Head8Whole();
    WholeSame(x, y);
  }

  lemma Head8Whole()
    ensures Head8(8) == 0xFF
  {
    assert Head8(4) == 0xF0;
  }

  lemma WholeMask(x: bv8)
    ensures x & 0xFF == x
  {
  }

  lemma WholeSame(x: bv8, y: bv8)
    ensures SameByte(x, y, 0xFF) <==> x == y
  {
    WholeMask(x);
    WholeMask(y);
  }

  /** Agreement up to a byte boundary and then on part of the next byte. */
  lemma AgreeSplits(a: In6, b: In6, full: nat, rem: nat)
    requires 8 * full + rem <= 128 && rem <= 8 && (rem > 0 ==> full < 16)
    ensures Agree6(a, b, 8 * full + rem) <==> Agree6(a, b, 8 * full) && (rem > 0 ==> AgreeByte(a[full], b[full], rem))
  {
    if Agree6(a, b, 8 * full + rem) && rem > 0 {
      forall j | 0 <= j < rem
        ensures SameByte(a[full], b[full], Front8(j))
      {
        var i := 8 * full + j;
        assert SameByte(a[i / 8], b[i / 8], Front8(i % 8));
      }
    }
  }

  lemma {:induction false} FullBytes(a: In6, b: In6, full: nat)
    requires full <= 16
    ensures a[..full] == b[..full] <==> Agree6(a, b, 8 * full)
  {
    if full > 0 {
      var n := full - 1;
      FullBytes(a, b, n);
      AgreeSplits(a, b, n, 8);
      WholeByte(a[n], b[n]);
      assert a[..full] == a[..n] + [a[n]] && b[..full] == b[..n] + [b[n]];
    }
  }

  /** The C test: the full bytes, then the masked remainder. */
  predicate BytesTest(a: In6, b: In6, prefix: nat)
    requires prefix <= 128
  {
    var full, rem := prefix / 8, prefix % 8;
    a[..full] == b[..full] && (rem > 0 ==> SameByte(a[full], b[full], Mask8(rem)))
  }

  /** Comparing the full bytes and then the masked remainder holds iff the first `prefix` bits agree. */
  lemma BytesTestIsExact(a: In6, b: In6, prefix: nat)
    requires prefix <= 128
    ensures BytesTest(a, b, prefix) <==> Agree6(a, b, prefix)
  {
    var full, rem := prefix / 8, prefix % 8;
    FullBytes(a, b, full);
    AgreeSplits(a, b, full, rem);
    if rem > 0 {
      ByteMaskTest(a[full], b[full], rem);
    }
  }

  lemma FullPrefix6(a: In6, b: In6)
    ensures Agree6(a, b, 128) <==> a == b
  {
    FullBytes(a, b, 16);
  }

  // ---------- Rules ----------

  /** A network and a prefix length, a C `int`; a negative length stands for a single address. */
  datatype Rule = Rule(name: string, prefix: int)

  predicate IsDigit(c: char) {
    '0' <= c <= '9'
  }

  function Digits(s: string, n: int): int {
    if s != "" && IsDigit(s[0]) then Digits(s[1..], 10 * n + (s[0] as int - '0' as int)) else n
  }

  /** A number as a 32-bit `int`, which wraps around. */
  function Wrapped(n: int): int {
    (n + 0x8000_0000) % 0x1_0000_0000 - 0x8000_0000
  }

  /** C's `isspace`. */
  predicate IsSpace(c: char) {
    c in " \t\n\r\U{0B}\U{0C}"
  }

  /** C's `atoi`: leading whitespace, a sign, then digits as far as they go. */
  function Atoi(s: string): int
    decreases |s|
  {
    if s != "" && IsSpace(s[0]) then Atoi(s[1..])
    else if s != "" && s[0] == '-' then Wrapped(-Digits(s[1..], 0))
    else if s != "" && s[0] == '+' then Wrapped(Digits(s[1..], 0))
    else Wrapped(Digits(s, 0))
  }

  function Parse(token: string): Rule {
    var slash := Find(token, "/");
    if slash == -1 then Rule(token, -1) else Rule(token[..slash], Atoi(token[slash + 1..]))
  }

  ghost predicate Covers4(ip: bv32, network: bv32, prefix: int) {
    if prefix < 0 then ip == network else prefix <= 32 && Agree4(ip, network, prefix)
  }

  ghost predicate Covers6(ip: In6, network: In6, prefix: int) {
    if prefix < 0 then ip == network else prefix <= 128 && Agree6(ip, network, prefix)
  }

  /** A rule covers an address of its own family only. */
  ghost predicate Covers(net: Net, ip: string, rule: Rule) {
    || (net.v4(ip).Some? && net.v4(rule.name).Some? && Covers4(net.v4(ip).value, net.v4(rule.name).value, rule.prefix))
    || (net.v6(ip).Some? && net.v6(rule.name).Some? && Covers6(net.v6(ip).value, net.v6(rule.name).value, rule.prefix))
  }

  ghost predicate Matches(net: Net, ip: string, piece: string) {
    Trim(piece) != "" && Covers(net, ip, Parse(Trim(piece)))
  }

  ghost predicate Blocked(net: Net, ip: string, rules: string) {
    exists piece :: piece in Pieces(rules, ',') && Matches(net, ip, piece)
  }

  /** An address is blocked iff some rule of the list covers it. */
  method MatchBannedIp(net: Net, ip: string, rules: string) returns (blocked: bool)
    ensures blocked <==> Blocked(net, ip, rules)
  {
    var ip4, ip6 := net.v4(ip), net.v6(ip);
    if ip4.None? && ip6.None? {
      return false;
    }
    blocked := false;
    var token, rest := StrTok(rules, ',');
    TokenMembers(rules, ',', token, rest);
    while token.Some?
      invariant !blocked
      invariant token.Some? ==> token.value != ""
      invariant forall piece :: piece != "" && Matches(net, ip, piece) ==>
                                  (piece in Pieces(rules, ',')
                                   <==> (token.Some? && (piece == token.value || piece in Pieces(rest, ','))))
      decreases token.Some?, |rest|
    {
      var hit := CheckToken(net, ip, token.value);
      if hit {
        blocked := true;
        break;
      }
      ghost var before := rest;
      token, rest := StrTok(rest, ',');
      TokenMembers(before, ',', token, rest);
    }
  }

  method ParseRule(token: string) returns (rule: Rule)
    ensures rule == Parse(token)
  {
    var slash := Find(token, "/");
    if slash == -1 {
      return Rule(token, -1);
    }
    var prefix := Atoi(token[slash + 1..]);
    return Rule(token[..slash], prefix);
  }

  method CheckToken(net: Net, ip: string, piece: string) returns (hit: bool)
    ensures hit <==> Matches(net, ip, piece)
  {
    var token := SkipBlanks(piece);
    if token == "" {
      return false;
    }
    var rule := ParseRule(token);
    hit := CheckRule(net, ip, rule);
  }

  method CheckRule(net: Net, ip: string, rule: Rule) returns (hit: bool)
    ensures hit <==> Covers(net, ip, rule)
  {
    var ip4, ip6 := net.v4(ip), net.v6(ip);
    if ip4.Some? {
      var net4 := net.v4(rule.name);
      if net4.Some? {
        hit := Check4(ip4.value, net4.value, rule.prefix);
        if hit {
          return;
        }
      }
    }
    if ip6.Some? {
      var net6 := net.v6(rule.name);
      if net6.Some? {
        hit := Check6(ip6.value, net6.value, rule.prefix);
        return;
      }
    }
    return false;
  }

  method NetworkMask(prefix: nat) returns (mask: bv32)
    requires prefix <= 32
    ensures prefix as bv32 <= 32 && mask == Htonl(Mask4(prefix as bv32))
  {
    WordFits(prefix);
    var length := prefix as bv32;
    if length == 0 {
      HtonlZero();
      return 0;
    }
    return Htonl(0xFFFF_FFFF << (32 - length));
  }

  lemma HtonlZero()
    ensures Htonl(0) == 0
  {
  }

  method Check4(ip4: bv32, net4: bv32, prefix: int) returns (hit: bool)
    ensures hit <==> Covers4(ip4, net4, prefix)
  {
    if prefix < 0 {
      return ip4 == net4;
    }
    if prefix > 32 {
      return false;
    }
    var mask := NetworkMask(prefix);
    MaskTestIsExact(ip4, net4, prefix);
    return Same(ip4, net4, mask);
  }

  method Check6(ip6: In6, net6: In6, prefix: int) returns (hit: bool)
    ensures hit <==> Covers6(ip6, net6, prefix)
  {
    if prefix < 0 {
      return ip6 == net6;
    }
    if prefix <= 128 {
      hit := CheckBytes(ip6, net6, prefix);
      return;
    }
    return false;
  }

  method CheckBytes(ip6: In6, net6: In6, prefix: nat) returns (hit: bool)
    requires prefix <= 128
    ensures hit <==> Agree6(ip6, net6, prefix)
  {
    BytesTestIsExact(ip6, net6, prefix);
    var full, rem := prefix / 8, prefix % 8;
    if full != 0 && ip6[..full] != net6[..full] {
      return false;
    }
    if rem != 0 {
      var mask := Mask8(rem);
      if !SameByte(ip6[full], net6[full], mask) {
        return false;
      }
    }
    return true;
  }

  // ---------- What the rules mean together ----------

  lemma Shorter4(a: bv32, b: bv32, longer: int, shorter: nat)
    requires Covers4(a, b, longer)
    requires (shorter <= longer <= 32 || (longer < 0 && shorter <= 32))
    ensures Covers4(a, b, shorter)
  {
  }

  lemma Shorter6(a: In6, b: In6, longer: int, shorter: nat)
    requires Covers6(a, b, longer)
    requires (shorter <= longer <= 128 || (longer < 0 && shorter <= 128))
    ensures Covers6(a, b, shorter)
  {
  }

  /** A shorter length of the same network, or instead of a single address any length of its family. */
  predicate Shortens(net: Net, longer: Rule, shorter: Rule) {
    && shorter.name == longer.name && shorter.prefix >= 0
    && if longer.prefix < 0 then shorter.prefix <= 32 || (shorter.prefix <= 128 && net.v4(longer.name).None?)
       else shorter.prefix <= longer.prefix
  }

  lemma ShorterCovers(net: Net, ip: string, longer: Rule, shorter: Rule)
    requires Covers(net, ip, longer) && Shortens(net, longer, shorter)
    ensures Covers(net, ip, shorter)
  {
    var a4, b4, a6, b6 := net.v4(ip), net.v4(longer.name), net.v6(ip), net.v6(longer.name);
    if a4.Some? && b4.Some? && Covers4(a4.value, b4.value, longer.prefix) {
      Shorter4(a4.value, b4.value, longer.prefix, shorter.prefix);
    } else {
      Shorter6(a6.value, b6.value, longer.prefix, shorter.prefix);
    }
  }

  /** Piece by piece the same text, or a rule with its length shortened. */
  predicate ShortensList(net: Net, rules: string, rules': string) {
    var before, after := Pieces(rules, ','), Pieces(rules', ',');
    && |before| == |after|
    && forall i :: 0 <= i < |before| ==>
         before[i] == after[i] || (Trim(after[i]) != "" && Shortens(net, Parse(Trim(before[i])), Parse(Trim(after[i]))))
  }

  /** Shortening lengths in a rule list never unblocks an address. */
  lemma ShorterNeverUnblocks(net: Net, ip: string, rules: string, rules': string)
    requires ShortensList(net, rules, rules') && Blocked(net, ip, rules)
    ensures Blocked(net, ip, rules')
  {
    var before, after := Pieces(rules, ','), Pieces(rules', ',');
    var piece :| piece in before && Matches(net, ip, piece);
    var i :| 0 <= i < |before| && before[i] == piece;
    assert after[i] in after;
    if before[i] != after[i] {
      ShorterCovers(net, ip, Parse(Trim(before[i])), Parse(Trim(after[i])));
    }
    assert Matches(net, ip, after[i]);
  }

  /** Writing one rule list after another blocks what either blocks: the order of rules never matters. */
  lemma ListsBlockTogether(net: Net, ip: string, a: string, b: string)
    ensures Blocked(net, ip, a + "," + b) <==> Blocked(net, ip, a) || Blocked(net, ip, b)
    ensures Blocked(net, ip, a + "," + b) <==> Blocked(net, ip, b + "," + a)
  {
    PiecesConcat(a, b, ',');
    PiecesConcat(b, a, ',');
  }

  // ---------- Paths ----------

  /** The boundary test of `is_allow_dl`: the rule itself or something below it. */
  predicate Below(file: string, rule: string) {
    rule <= file && (|file| == |rule| || file[|rule|] == '/')
  }

  lemma PrefixOfPieces(x: string, p: seq<string>, y: string, q: seq<string>)
    ensures [x] + p <= [y] + q <==> x == y && p <= q
  {
    if [x] + p <= [y] + q {
      assert ([x] + p)[0] == ([y] + q)[0];
      assert ([x] + p)[1..] == p && ([y] + q)[1..] == q;
      assert ([y] + q)[..1 + |p|][1..] == q[..|p|];
    }
  }

  /** A rule of one component is the first component of the file. */
  lemma OneComponent(file: string, rule: string)
    requires '/' !in rule
    ensures Below(file, rule) <==> Pieces(rule, '/') <= Pieces(file, '/')
  {
    FindChar(file, '/');
    var j := Find(file, "/");
    if j == -1 {
      PrefixOfPieces(rule, [], file, []);
      assert [rule] + [] == [rule] && [file] + [] == [file];
      assert rule <= file && |rule| < |file| ==> file[|rule|] in file;
    } else {
      FirstPiece(file, j, '/');
      PrefixOfPieces(rule, [], file[..j], Pieces(file[j + 1..], '/'));
      assert [rule] + [] == [rule];
      if Below(file, rule) {
        assert forall k :: 0 <= k < j ==> file[k] != '/';
        assert forall k :: 0 <= k < |rule| ==> rule[k] == file[k];
        assert |rule| == j;
      }
    }
  }

  /** Both start with the same component. */
  lemma SameFirstComponent(file: string, rule: string, i: nat)
    requires i < |rule| && i < |file| && rule[i] == '/' && file[i] == '/' && rule[..i] == file[..i]
    ensures Below(file, rule) <==> Below(file[i + 1..], rule[i + 1..])
  {
    if Below(file[i + 1..], rule[i + 1..]) {
      assert rule == rule[..i] + [rule[i]] + rule[i + 1..];
      assert file == file[..i] + [file[i]] + file[i + 1..];
    }
    if Below(file, rule) {
      assert file[i + 1..][..|rule| - i - 1] == file[..|rule|][i + 1..];
    }
  }

  lemma CharOfPrefix(rule: string, file: string, i: nat)
    requires i < |rule|
    ensures rule <= file ==> i < |file| && file[i] == rule[i] && file[..i] == rule[..i]
  {
    if rule <= file {
      assert file[..|rule|][i] == file[i] && file[..i] == file[..|rule|][..i];
    }
  }

  lemma MoreComponents(file: string, rule: string, i: nat)
    requires '/' !in file && i < |rule| && rule[i] == '/' && '/' !in rule[..i]
    ensures !Below(file, rule) && !(Pieces(rule, '/') <= Pieces(file, '/'))
  {
    FirstPiece(rule, i, '/');
    CharOfPrefix(rule, file, i);
  }

  /** A rule that is a prefix of the file has the same first component. */
  lemma SameFirstSlash(file: string, rule: string, i: nat, j: nat)
    requires i < |rule| && rule[i] == '/' && '/' !in rule[..i]
    requires j < |file| && file[j] == '/' && '/' !in file[..j] && rule <= file
    ensures i == j && rule[..i] == file[..j]
  {
    CharOfPrefix(rule, file, i);
    assert forall k :: 0 <= k < i ==> file[k] == rule[..i][k];
    assert forall k :: 0 <= k < j ==> file[k] == file[..j][k];
  }

  /** With different first components nothing is below. */
  lemma OtherFirstComponent(file: string, rule: string, i: nat, j: nat)
    requires i < |rule| && rule[i] == '/' && '/' !in rule[..i]
    requires j < |file| && file[j] == '/' && '/' !in file[..j] && rule[..i] != file[..j]
    ensures !Below(file, rule) && !(Pieces(rule, '/') <= Pieces(file, '/'))
  {
    FirstPiece(rule, i, '/');
    FirstPiece(file, j, '/');
    PrefixOfPieces(rule[..i], Pieces(rule[i + 1..], '/'), file[..j], Pieces(file[j + 1..], '/'));
    if rule <= file {
      SameFirstSlash(file, rule, i, j);
    }
  }

  lemma EqualFirstComponent(file: string, rule: string, i: nat)
    requires i < |rule| && i < |file| && rule[i] == '/' && file[i] == '/' && rule[..i] == file[..i] && '/' !in rule[..i]
    requires Below(file[i + 1..], rule[i + 1..]) <==> Pieces(rule[i + 1..], '/') <= Pieces(file[i + 1..], '/')
    ensures Below(file, rule) <==> Pieces(rule, '/') <= Pieces(file, '/')
  {
    FirstPiece(rule, i, '/');
    FirstPiece(file, i, '/');
    PrefixOfPieces(rule[..i], Pieces(rule[i + 1..], '/'), file[..i], Pieces(file[i + 1..], '/'));
    SameFirstComponent(file, rule, i);
  }

  /** It compares whole path components, so a sibling with a longer name is never below. */
  lemma {:induction false} BelowComparesComponents(file: string, rule: string)
    ensures Below(file, rule) <==> Pieces(rule, '/') <= Pieces(file, '/')
    decreases |rule|
  {
    FindChar(rule, '/');
    FindChar(file, '/');
    var i, j := Find(rule, "/"), Find(file, "/");
    if i == -1 {
      OneComponent(file, rule);
    } else if j == -1 {
      MoreComponents(file, rule, i);
    } else if rule[..i] != file[..j] {
      OtherFirstComponent(file, rule, i, j);
    } else {
      assert i == |rule[..i]| == |file[..j]| == j;
      BelowComparesComponents(file[i + 1..], rule[i + 1..]);
      EqualFirstComponent(file, rule, i);
    }
  }

  /** `realpath`: the canonical path, if the path exists. */
  type RealPath = string -> Option<string>

  predicate Permits(realpath: RealPath, file: string, piece: string) {
    Trim(piece) != "" && realpath(Trim(piece)).Some? && Below(file, realpath(Trim(piece)).value)
  }

  /** A listed root permits the root alone: in a canonical path no slash follows the first. */
  lemma RootPermitsItself(realpath: RealPath, file: string, piece: string)
    requires Trim(piece) != "" && realpath(Trim(piece)) == Some("/") && (|file| > 1 ==> file[1] != '/')
    ensures Permits(realpath, file, piece) <==> file == "/"
  {
    if Below(file, "/") && |file| == 1 {
      assert file == file[..1] == "/";
    }
  }

  /** A file given by path may be loaded iff its canonical path is a listed one or below a listed one. */
  method IsAllowDl(realpath: RealPath, filename: string, paths: string) returns (allowed: bool)
    ensures allowed <==>
            (filename == ""
             || (paths != "" && '/' !in filename)
             || (paths != "" && realpath(filename).Some?
                 && exists piece :: piece in Pieces(paths, ',') && Permits(realpath, realpath(filename).value, piece)))
  {
    if filename == "" {
      return true;
    }
    if paths == "" {
      return false;
    }
    if '/' !in filename {
      return true;
    }
    var file := realpath(filename);
    if file.None? {
      return false;
    }
    allowed := false;
    var token, rest := StrTok(paths, ',');
    TokenMembers(paths, ',', token, rest);
    while token.Some?
      invariant !allowed
      invariant token.Some? ==> token.value != ""
      invariant forall piece :: piece != "" && Permits(realpath, file.value, piece) ==>
                                  (piece in Pieces(paths, ',')
                                   <==> (token.Some? && (piece == token.value || piece in Pieces(rest, ','))))
      decreases token.Some?, |rest|
    {
      var path := SkipBlanks(token.value);
      if path != "" {
        var rule := realpath(path);
        if rule.Some? && Below(file.value, rule.value) {
          assert Permits(realpath, file.value, token.value);
          allowed := true;
          break;
        }
      }
      ghost var before := rest;
      token, rest := StrTok(rest, ',');
      TokenMembers(before, ',', token, rest);
    }
  }
}
