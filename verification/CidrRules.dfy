/**
 Address rules from their text: a name, a slash and a length in decimal, read as C reads it, against the bits of
 the addresses.
 */
module CidrRules {
  import opened Wrappers
  import opened Text
  import opened Tokens
  import opened Words
  import opened Cidr

  // ---------- Numbers ----------

  function Numeral(d: nat): (c: char)
    requires d < 10
    ensures '0' <= c <= '9' && c as int - '0' as int == d
  {
    "0123456789"[d]
  }

  /** A number in decimal. */
  function Decimal(n: nat): string {
    if n < 10 then [Numeral(n)] else Decimal(n / 10) + [Numeral(n % 10)]
  }

  lemma {:induction false} DigitsAppend(s: string, t: string, n: int)
    requires forall k :: 0 <= k < |s| ==> '0' <= s[k] <= '9'
    ensures Digits(s + t, n) == Digits(t, Digits(s, n))
  {
    if s == "" {
      assert s + t == t;
    } else {
      assert (s + t)[1..] == s[1..] + t;
      DigitsAppend(s[1..], t, 10 * n + (s[0] as int - '0' as int));
    }
  }

  lemma {:induction false} DecimalIsRead(n: nat)
    ensures Decimal(n) != "" && forall k :: 0 <= k < |Decimal(n)| ==> '0' <= Decimal(n)[k] <= '9'
    ensures Digits(Decimal(n), 0) == n
  {
    if n < 10 {
      OneDigit(Numeral(n), 0);
    } else {
      DecimalIsRead(n / 10);
      DigitsAppend(Decimal(n / 10), [Numeral(n % 10)], 0);
      OneDigit(Numeral(n % 10), n / 10);
    }
  }

  lemma OneDigit(c: char, n: int)
    requires '0' <= c <= '9'
    ensures Digits([c], n) == 10 * n + (c as int - '0' as int)
  {
    assert [c][1..] == "";
  }

  lemma NumberIsRead(n: nat, tail: string)
    requires tail == "" || !('0' <= tail[0] <= '9')
    ensures Digits(Decimal(n) + tail, 0) == n
  {
    DecimalIsRead(n);
    DigitsAppend(Decimal(n), tail, 0);
  }

  predicate Spaces(s: string) {
    forall k :: 0 <= k < |s| ==> s[k] in " \t\n\r\U{0B}\U{0C}"
  }

  lemma {:induction false} SpacesAreSkipped(spaces: string, text: string)
    requires Spaces(spaces)
    ensures Atoi(spaces + text) == Atoi(text)
  {
    if spaces == "" {
      assert spaces + text == text;
    } else {
      assert (spaces + text)[1..] == spaces[1..] + text;
      SpacesAreSkipped(spaces[1..], text);
    }
  }

  /** A length as a rule may write it: blanks, a sign, the number, and what follows it. */
  datatype Length = Length(spaces: string, sign: string, number: nat, tail: string)

  predicate WellWritten(l: Length) {
    && Spaces(l.spaces) && l.sign in ["", "+", "-"]
    && (l.tail == "" || !('0' <= l.tail[0] <= '9')) && ',' !in l.tail
  }

  function Written(l: Length): string {
    l.spaces + (l.sign + (Decimal(l.number) + l.tail))
  }

  function Value(l: Length): int {
    Wrapped(if l.sign == "-" then -(l.number as int) else l.number)
  }

  /** A number that an `int` holds. */
  predicate Fits(l: Length) {
    l.number < 0x8000_0000
  }

  lemma LengthIsRead(l: Length)
    requires WellWritten(l)
    ensures Atoi(Written(l)) == Value(l)
  {
    var number := Decimal(l.number) + l.tail;
    NumberIsRead(l.number, l.tail);
    StartsWithDigit(l.number, l.tail);
    SignIsRead(l.sign, number);
    SpacesAreSkipped(l.spaces, l.sign + number);
  }

  lemma StartsWithDigit(n: nat, tail: string)
    ensures Decimal(n) + tail != "" && '0' <= (Decimal(n) + tail)[0] <= '9'
  {
    DecimalIsRead(n);
    assert (Decimal(n) + tail)[0] == Decimal(n)[0];
  }

  lemma SignIsRead(sign: string, number: string)
    requires sign in ["", "+", "-"] && number != "" && '0' <= number[0] <= '9'
    ensures Atoi(sign + number) == Wrapped(if sign == "-" then -Digits(number, 0) else Digits(number, 0))
  {
    if sign == "" {
      assert sign + number == number;
    } else {
      assert (sign + number)[0] == sign[0] && (sign + number)[1..] == number;
    }
  }

  // ---------- One rule ----------

  /** The name of a network, as it stands in a rule. */
  predicate PlainName(name: string) {
    name != "" && name[0] != ' ' && name[0] != '\t' && '/' !in name && ',' !in name
  }

  predicate Blanks(s: string) {
    forall k :: 0 <= k < |s| ==> s[k] == ' ' || s[k] == '\t'
  }

  lemma {:induction false} BlanksAreTrimmed(blanks: string, token: string)
    requires Blanks(blanks) && token != "" && token[0] != ' ' && token[0] != '\t'
    ensures Trim(blanks + token) == token
  {
    if blanks == "" {
      assert blanks + token == token;
    } else {
      assert (blanks + token)[1..] == blanks[1..] + token;
      BlanksAreTrimmed(blanks[1..], token);
    }
  }

  /** A list of one rule blocks what the rule covers. */
  lemma OneRule(net: Net, ip: string, blanks: string, token: string)
    requires Blanks(blanks) && token != "" && token[0] != ' ' && token[0] != '\t' && ',' !in token
    ensures Blocked(net, ip, blanks + token) <==> Covers(net, ip, Parse(token))
  {
    var list := blanks + token;
    assert ',' !in list;
    assert Pieces(list, ',') == [list];
    BlanksAreTrimmed(blanks, token);
    assert Blocked(net, ip, list) ==> Matches(net, ip, list);
    assert list in Pieces(list, ',');
  }

  lemma SlashSplits(name: string, text: string)
    requires '/' !in name
    ensures Parse(name + "/" + text) == Rule(name, Atoi(text))
  {
    var token := name + "/" + text;
    FindChar(token, '/');
    assert token[|name|] == '/';
    assert forall k :: 0 <= k < |name| ==> token[k] == name[k];
    assert token[..|name|] == name && token[|name| + 1..] == text;
  }

  lemma {:induction false} NoCommaInNumber(n: nat)
    ensures ',' !in Decimal(n)
  {
    DecimalIsRead(n);
  }

  /** The rule, after any blanks, reads as its name and the value of its length. */
  lemma RuleIsRead(net: Net, ip: string, blanks: string, name: string, l: Length)
    requires Blanks(blanks) && PlainName(name) && WellWritten(l)
    ensures Blocked(net, ip, blanks + (name + "/" + Written(l))) <==> Covers(net, ip, Rule(name, Value(l)))
  {
    var token := name + "/" + Written(l);
    NoCommaInNumber(l.number);
    assert ',' !in Written(l) && ',' !in token;
    assert token[0] == name[0];
    OneRule(net, ip, blanks, token);
    SlashSplits(name, Written(l));
    LengthIsRead(l);
  }

  /** The address and the network are of one family only. */
  predicate BothV4(net: Net, ip: string, name: string) {
    net.v4(ip).Some? && net.v4(name).Some? && (net.v6(ip).None? || net.v6(name).None?)
  }

  predicate BothV6(net: Net, ip: string, name: string) {
    net.v6(ip).Some? && net.v6(name).Some? && (net.v4(ip).None? || net.v4(name).None?)
  }

  /** A rule with a length in decimal blocks an IPv4 address if and only if the length is at most 32 and the
      first so many bits are those of the network. */
  lemma LengthBlocks4(net: Net, ip: string, blanks: string, name: string, l: Length)
    requires Blanks(blanks) && PlainName(name) && WellWritten(l) && Fits(l) && (l.sign == "-" ==> l.number == 0)
    requires BothV4(net, ip, name)
    ensures Blocked(net, ip, blanks + (name + "/" + (l.spaces + (l.sign + (Decimal(l.number) + l.tail)))))
            <==> l.number <= 32 && Agree4(net.v4(ip).value, net.v4(name).value, l.number)
  {
    RuleIsRead(net, ip, blanks, name, l);
  }

  /** The same for IPv6 and 128 bits. */
  lemma LengthBlocks6(net: Net, ip: string, blanks: string, name: string, l: Length)
    requires Blanks(blanks) && PlainName(name) && WellWritten(l) && Fits(l) && (l.sign == "-" ==> l.number == 0)
    requires BothV6(net, ip, name)
    ensures Blocked(net, ip, blanks + (name + "/" + (l.spaces + (l.sign + (Decimal(l.number) + l.tail)))))
            <==> l.number <= 128 && Agree6(net.v6(ip).value, net.v6(name).value, l.number)
  {
    RuleIsRead(net, ip, blanks, name, l);
  }

  /** A slash that no number follows covers every address of the family. */
  lemma SlashWithoutDigits(net: Net, ip: string, blanks: string, name: string, spaces: string, sign: string,
                           tail: string)
    requires Blanks(blanks) && PlainName(name) && BothOfOneFamily(net, ip, name)
    requires Spaces(spaces) && sign in ["", "+", "-"] && ',' !in tail
    requires tail != "" ==> !('0' <= tail[0] <= '9')
    requires tail != "" && sign == "" ==> tail[0] !in "+- \t\n\r\U{0B}\U{0C}"
    ensures Blocked(net, ip, blanks + (name + "/" + (spaces + (sign + tail))))
  {
    var text := spaces + (sign + tail);
    var token := name + "/" + text;
    assert token[0] == name[0] && ',' !in token;
    OneRule(net, ip, blanks, token);
    SlashSplits(name, text);
    SpacesAreSkipped(spaces, sign + tail);
    NoNumberIsZero(sign, tail);
  }

  lemma NoNumberIsZero(sign: string, tail: string)
    requires sign in ["", "+", "-"] && (tail != "" ==> !('0' <= tail[0] <= '9'))
    requires tail != "" && sign == "" ==> tail[0] !in "+- \t\n\r\U{0B}\U{0C}"
    ensures Atoi(sign + tail) == 0
  {
    if sign == "" {
      assert sign + tail == tail;
    } else {
      assert (sign + tail)[0] == sign[0] && (sign + tail)[1..] == tail;
    }
  }

  predicate BothOfOneFamily(net: Net, ip: string, name: string) {
    (net.v4(ip).Some? && net.v4(name).Some?) || (net.v6(ip).Some? && net.v6(name).Some?)
  }

  /** A rule that is blank blocks nothing. */
  lemma {:induction false} BlankRuleBlocksNothing(net: Net, ip: string, blanks: string)
    requires Blanks(blanks)
    ensures !Blocked(net, ip, blanks)
  {
    assert ',' !in blanks;
    assert Pieces(blanks, ',') == [blanks];
    BlanksAreNothing(blanks);
  }

  lemma {:induction false} BlanksAreNothing(blanks: string)
    requires Blanks(blanks)
    ensures Trim(blanks) == ""
  {
    if blanks != "" {
      BlanksAreNothing(blanks[1..]);
    }
  }

  /** It is the same address. */
  predicate SameAddress(net: Net, ip: string, name: string) {
    || (net.v4(ip).Some? && net.v4(ip) == net.v4(name))
    || (net.v6(ip).Some? && net.v6(ip) == net.v6(name))
  }

  /** A rule with a negative length blocks exactly its own address. */
  lemma NegativeLengthBlocksOne(net: Net, ip: string, blanks: string, name: string, l: Length)
    requires Blanks(blanks) && PlainName(name) && WellWritten(l) && Fits(l) && l.sign == "-" && l.number > 0
    ensures Blocked(net, ip, blanks + (name + "/" + (l.spaces + ("-" + (Decimal(l.number) + l.tail)))))
            <==> SameAddress(net, ip, name)
  {
    RuleIsRead(net, ip, blanks, name, l);
  }

  /** A longer number counts by what is left of it in 32 bits, the upper half being negative. */
  lemma LongNumberWraps(net: Net, ip: string, blanks: string, name: string, l: Length)
    requires Blanks(blanks) && PlainName(name) && WellWritten(l) && !Fits(l) && l.sign != "-" && BothV4(net, ip, name)
    ensures var left := l.number % 0x1_0000_0000;
            Blocked(net, ip, blanks + (name + "/" + (l.spaces + (l.sign + (Decimal(l.number) + l.tail)))))
            <==> if left >= 0x8000_0000 then net.v4(ip) == net.v4(name)
                 else left <= 32 && Agree4(net.v4(ip).value, net.v4(name).value, left)
  {
    RuleIsRead(net, ip, blanks, name, l);
    assert Value(l) == if l.number % 0x1_0000_0000 >= 0x8000_0000 then l.number % 0x1_0000_0000 - 0x1_0000_0000
                       else l.number % 0x1_0000_0000;
  }

  /** So does a rule without a slash. */
  lemma NoSlashBlocksOne(net: Net, ip: string, blanks: string, name: string)
    requires Blanks(blanks) && PlainName(name)
    ensures Blocked(net, ip, blanks + name) <==> SameAddress(net, ip, name)
  {
    OneRule(net, ip, blanks, name);
    FindChar(name, '/');
  }
}
