/** The text codecs of the SSO cookie as Go's standard library has them. A Go string
    is its bytes, written here as the characters 0 to 255. */
module TextCodecs {
  import opened Options

  type octet = c: char | (c as int) < 256 witness 'a'

  type Octets = seq<octet>

  // ------------------------------------------------ base64url, unpadded (RFC 4648, section 5)

  function Sextet(n: nat): (c: octet)
    requires n < 64
    ensures c != '.' && c != '\r' && c != '\n'
  {
    if n < 26 then ('A' as int + n) as char
    else if n < 52 then ('a' as int + n - 26) as char
    else if n < 62 then ('0' as int + n - 52) as char
    else if n == 62 then '-'
    else '_'
  }

  function SextetValue(c: octet): (n: Option<nat>)
    ensures n.Some? ==> n.value < 64
  {
    if 'A' <= c <= 'Z' then Some(c as int - 'A' as int)
    else if 'a' <= c <= 'z' then Some(c as int - 'a' as int + 26)
    else if '0' <= c <= '9' then Some(c as int - '0' as int + 52)
    else if c == '-' then Some(62)
    else if c == '_' then Some(63)
    else None
  }

  lemma SextetReads(n: nat)
    requires n < 64
    ensures SextetValue(Sextet(n)) == Some(n)
  {
  }

  /** The four sextets of a group of octets x, y, z. */
  function First(x: nat): (n: nat)
    requires x < 256
    ensures n < 64
  {
    x / 4
  }

  function Second(x: nat, y: nat): (n: nat)
    requires y < 256
    ensures n < 64
  {
    x % 4 * 16 + y / 16
  }

  function Third(y: nat, z: nat): (n: nat)
    requires z < 256
    ensures n < 64
  {
    y % 16 * 4 + z / 64
  }

  function Base64Encode(s: Octets): (t: Octets) {
    if s == [] then []
    else
      var x := s[0] as int;
      if |s| == 1 then [Sextet(First(x)), Sextet(Second(x, 0))]
      else
        var y := s[1] as int;
        if |s| == 2 then [Sextet(First(x)), Sextet(Second(x, y)), Sextet(Third(y, 0))]
        else
          var z := s[2] as int;
          [Sextet(First(x)), Sextet(Second(x, y)), Sextet(Third(y, z)), Sextet(z % 64)] + Base64Encode(s[3..])
  }

  /** The decoder skips line ends wherever they are. */
  function WithoutLineEnds(t: Octets): Octets {
    if t == [] then []
    else if t[0] == '\r' || t[0] == '\n' then WithoutLineEnds(t[1..])
    else [t[0]] + WithoutLineEnds(t[1..])
  }

  /** It ignores the unused low bits of a last short group, and rejects a group of
      one character. */
  function DecodeGroups(t: Octets): Option<Octets> {
    if t == [] then Some([])
    else if |t| == 1 then None
    else
      var a, b := SextetValue(t[0]), SextetValue(t[1]);
      if a.None? || b.None? then None
      else
        var x := (a.value * 4 + b.value / 16) as char;
        if |t| == 2 then Some([x])
        else
          var c := SextetValue(t[2]);
          if c.None? then None
          else
            var y := (b.value % 16 * 16 + c.value / 4) as char;
            if |t| == 3 then Some([x, y])
            else
              var d := SextetValue(t[3]);
              var rest := DecodeGroups(t[4..]);
              if d.None? || rest.None? then None
              else Some([x, y, (c.value % 4 * 64 + d.value) as char] + rest.value)
  }

  function Base64Decode(t: Octets): Option<Octets> {
    DecodeGroups(WithoutLineEnds(t))
  }

  lemma {:induction false} EncodedText(s: Octets)
    ensures forall i :: 0 <= i < |Base64Encode(s)| ==>
              Base64Encode(s)[i] != '.' && Base64Encode(s)[i] != '\r' && Base64Encode(s)[i] != '\n'
    decreases |s|
  {
    if |s| >= 3 {
      EncodedText(s[3..]);
    }
  }

  lemma {:induction false} NothingToSkip(t: Octets)
    requires forall i :: 0 <= i < |t| ==> t[i] != '\r' && t[i] != '\n'
    ensures WithoutLineEnds(t) == t
    decreases |t|
  {
    if t != [] {
      NothingToSkip(t[1..]);
    }
  }

  /** The sextets of three octets give the octets again. */
  lemma ThreeOctets(x: nat, y: nat, z: nat)
    requires x < 256 && y < 256 && z < 256
    ensures First(x) * 4 + Second(x, y) / 16 == x
    ensures Second(x, y) % 16 * 16 + Third(y, z) / 4 == y
    ensures Third(y, z) % 4 * 64 + z % 64 == z
  {
  }

  lemma ReadFour(a: nat, b: nat, c: nat, d: nat, rest: Octets)
    requires a < 64 && b < 64 && c < 64 && d < 64 && DecodeGroups(rest).Some?
    ensures DecodeGroups([Sextet(a), Sextet(b), Sextet(c), Sextet(d)] + rest) ==
            Some([(a * 4 + b / 16) as char, (b % 16 * 16 + c / 4) as char, (c % 4 * 64 + d) as char]
                 + DecodeGroups(rest).value)
  {
    SextetReads(a);
    SextetReads(b);
    SextetReads(c);
    SextetReads(d);
    var t := [Sextet(a), Sextet(b), Sextet(c), Sextet(d)] + rest;
    assert t[0] == Sextet(a) && t[1] == Sextet(b) && t[2] == Sextet(c) && t[3] == Sextet(d);
    assert t[4..] == rest;
  }

  lemma ReadThree(a: nat, b: nat, c: nat)
    requires a < 64 && b < 64 && c < 64
    ensures DecodeGroups([Sextet(a), Sextet(b), Sextet(c)]) ==
            Some([(a * 4 + b / 16) as char, (b % 16 * 16 + c / 4) as char])
  {
    SextetReads(a);
    SextetReads(b);
    SextetReads(c);
  }

  lemma ReadTwo(a: nat, b: nat)
    requires a < 64 && b < 64
    ensures DecodeGroups([Sextet(a), Sextet(b)]) == Some([(a * 4 + b / 16) as char])
  {
    SextetReads(a);
    SextetReads(b);
  }

  lemma OneLeft(s: Octets, a: nat, b: nat)
    requires |s| == 1 && a < 64 && b < 64 && a * 4 + b / 16 == s[0] as int
    ensures DecodeGroups([Sextet(a), Sextet(b)]) == Some(s)
  {
    ReadTwo(a, b);
    assert s == [s[0]];
  }

  lemma TwoLeft(s: Octets, a: nat, b: nat, c: nat)
    requires |s| == 2 && a < 64 && b < 64 && c < 64
    requires a * 4 + b / 16 == s[0] as int && b % 16 * 16 + c / 4 == s[1] as int
    ensures DecodeGroups([Sextet(a), Sextet(b), Sextet(c)]) == Some(s)
  {
    ReadThree(a, b, c);
    assert s == [s[0], s[1]];
  }

  lemma ThreeMore(s: Octets, a: nat, b: nat, c: nat, d: nat, rest: Octets)
    requires |s| >= 3 && a < 64 && b < 64 && c < 64 && d < 64
    requires a * 4 + b / 16 == s[0] as int && b % 16 * 16 + c / 4 == s[1] as int && c % 4 * 64 + d == s[2] as int
    requires DecodeGroups(rest) == Some(s[3..])
    ensures DecodeGroups([Sextet(a), Sextet(b), Sextet(c), Sextet(d)] + rest) == Some(s)
  {
    ReadFour(a, b, c, d, rest);
    assert s == [s[0], s[1], s[2]] + s[3..];
  }

  lemma ShortGroup(s: Octets)
    requires |s| == 1 || |s| == 2
    ensures DecodeGroups(Base64Encode(s)) == Some(s)
  {
    var x := s[0] as int;
    if |s| == 1 {
      ThreeOctets(x, 0, 0);
      OneLeft(s, First(x), Second(x, 0));
    } else {
      var y := s[1] as int;
      ThreeOctets(x, y, 0);
      TwoLeft(s, First(x), Second(x, y), Third(y, 0));
    }
  }

  lemma WholeGroup(s: Octets)
    requires |s| >= 3 && DecodeGroups(Base64Encode(s[3..])) == Some(s[3..])
    ensures DecodeGroups(Base64Encode(s)) == Some(s)
  {
    var x, y, z := s[0] as int, s[1] as int, s[2] as int;
    ThreeOctets(x, y, z);
    ThreeMore(s, First(x), Second(x, y), Third(y, z), z % 64, Base64Encode(s[3..]));
  }

  lemma {:induction false} GroupsRoundTrip(s: Octets)
    ensures DecodeGroups(Base64Encode(s)) == Some(s)
    decreases |s|
  {
    if |s| == 1 || |s| == 2 {
      ShortGroup(s);
    } else if |s| >= 3 {
      GroupsRoundTrip(s[3..]);
      WholeGroup(s);
    }
  }

  lemma Base64RoundTrip(s: Octets)
    ensures Base64Decode(Base64Encode(s)) == Some(s)
  {
    EncodedText(s);
    NothingToSkip(Base64Encode(s));
    GroupsRoundTrip(s);
  }

  lemma {:induction false} SkipOne(a: Octets, c: octet, b: Octets)
    requires c == '\r' || c == '\n'
    ensures WithoutLineEnds(a + [c] + b) == WithoutLineEnds(a + b)
    decreases |a|
  {
    if a == [] {
      assert ([c] + b)[1..] == b;
      assert [] + [c] + b == [c] + b && [] + b == b;
    } else {
      SkipOne(a[1..], c, b);
      assert (a + [c] + b)[1..] == a[1..] + [c] + b && (a + b)[1..] == a[1..] + b;
    }
  }

  // ------------------------------------------------ base16 (RFC 4648, section 8)

  function HexDigit(n: nat): (c: octet)
    requires n < 16
    ensures c != '.'
  {
    if n < 10 then ('0' as int + n) as char else ('a' as int + n - 10) as char
  }

  /** Upper-case digits are read too. */
  function HexValue(c: octet): (n: Option<nat>)
    ensures n.Some? ==> n.value < 16
  {
    if '0' <= c <= '9' then Some(c as int - '0' as int)
    else if 'a' <= c <= 'f' then Some(c as int - 'a' as int + 10)
    else if 'A' <= c <= 'F' then Some(c as int - 'A' as int + 10)
    else None
  }

  function HexEncode(s: Octets): Octets {
    if s == [] then []
    else [HexDigit(s[0] as int / 16), HexDigit(s[0] as int % 16)] + HexEncode(s[1..])
  }

  function HexDecode(t: Octets): Option<Octets> {
    if t == [] then Some([])
    else if |t| == 1 then None
    else
      var a, b, rest := HexValue(t[0]), HexValue(t[1]), HexDecode(t[2..]);
      if a.None? || b.None? || rest.None? then None
      else Some([(a.value * 16 + b.value) as char] + rest.value)
  }

  lemma HexReads(n: nat)
    requires n < 16
    ensures HexValue(HexDigit(n)) == Some(n)
  {
  }

  lemma {:induction false} HexRoundTrip(s: Octets)
    ensures HexDecode(HexEncode(s)) == Some(s)
    ensures '.' !in HexEncode(s)
    decreases |s|
  {
    if s != [] {
      var v := s[0] as int;
      HexRoundTrip(s[1..]);
      HexReads(v / 16);
      HexReads(v % 16);
      ByteRead(HexDigit(v / 16), HexDigit(v % 16), HexEncode(s[1..]), v / 16, v % 16);
      assert (v / 16 * 16 + v % 16) as char == s[0];
      assert s == [s[0]] + s[1..];
    }
  }

  lemma ByteRead(a: octet, b: octet, rest: Octets, high: nat, low: nat)
    requires HexValue(a) == Some(high) && HexValue(b) == Some(low) && HexDecode(rest).Some?
    ensures HexDecode([a, b] + rest) == Some([(high * 16 + low) as char] + HexDecode(rest).value)
  {
    assert ([a, b] + rest)[2..] == rest;
  }

  /** The same digits in upper case. */
  function UpperDigit(n: nat): (c: octet)
    requires n < 16
    ensures c != '.'
  {
    if n < 10 then ('0' as int + n) as char else ('A' as int + n - 10) as char
  }

  function HexUpper(s: Octets): Octets {
    if s == [] then []
    else [UpperDigit(s[0] as int / 16), UpperDigit(s[0] as int % 16)] + HexUpper(s[1..])
  }

  lemma UpperReads(n: nat)
    requires n < 16
    ensures HexValue(UpperDigit(n)) == Some(n)
  {
  }

  lemma {:induction false} UpperIsRead(s: Octets)
    ensures HexDecode(HexUpper(s)) == Some(s)
    ensures '.' !in HexUpper(s)
    decreases |s|
  {
    if s != [] {
      var v := s[0] as int;
      UpperIsRead(s[1..]);
      UpperReads(v / 16);
      UpperReads(v % 16);
      ByteRead(UpperDigit(v / 16), UpperDigit(v % 16), HexUpper(s[1..]), v / 16, v % 16);
      assert (v / 16 * 16 + v % 16) as char == s[0];
      assert s == [s[0]] + s[1..];
    }
  }

  /** No digit above nine. */
  predicate Caseless(s: Octets) {
    forall i :: 0 <= i < |s| ==> s[i] as int / 16 < 10 && s[i] as int % 16 < 10
  }

  lemma {:induction false} UpperIsSame(s: Octets)
    ensures HexUpper(s) == HexEncode(s) <==> Caseless(s)
    decreases |s|
  {
    if s != [] {
      UpperIsSame(s[1..]);
      var u, l := HexUpper(s), HexEncode(s);
      assert u[2..] == HexUpper(s[1..]) && l[2..] == HexEncode(s[1..]);
      assert u == u[..2] + u[2..] && l == l[..2] + l[2..];
      assert Caseless(s) <==> s[0] as int / 16 < 10 && s[0] as int % 16 < 10 && Caseless(s[1..]) by {
        assert s == [s[0]] + s[1..];
        assert forall i :: 0 <= i < |s| - 1 ==> s[1..][i] == s[i + 1];
        assert forall i :: 0 < i < |s| ==> s[i] == s[1..][i - 1];
      }
    }
  }

  // ------------------------------------------------ decimal int64

  const MIN_INT64 := -0x8000_0000_0000_0000
  const MAX_INT64 := 0x7fff_ffff_ffff_ffff

  predicate IsDigit(c: octet) {
    '0' <= c <= '9'
  }

  predicate AllDigits(s: Octets) {
    forall i :: 0 <= i < |s| ==> IsDigit(s[i])
  }

  function FormatNat(n: nat): (s: Octets)
    ensures s != [] && AllDigits(s) && (s[0] == '0' ==> n == 0 && |s| == 1)
  {
    var last := ('0' as int + n % 10) as char;
    if n < 10 then [last] else FormatNat(n / 10) + [last]
  }

  function FormatInt(n: int): Octets {
    if n < 0 then ['-'] + FormatNat(-n) else FormatNat(n)
  }

  function NatOf(s: Octets): nat
    requires AllDigits(s)
  {
    if s == [] then 0 else NatOf(s[..|s| - 1]) * 10 + (s[|s| - 1] as int - '0' as int)
  }

  /** strconv.ParseInt(s, 10, 64): an optional sign, digits, and the value in range. */
  function ParseInt(s: Octets): Option<int> {
    if s == [] then None
    else
      var digits := if s[0] == '-' || s[0] == '+' then s[1..] else s;
      if digits == [] || !AllDigits(digits) then None
      else
        var n: int := if s[0] == '-' then -(NatOf(digits) as int) else NatOf(digits);
        if MIN_INT64 <= n <= MAX_INT64 then Some(n) else None
  }

  lemma {:induction false} NatRoundTrip(n: nat)
    ensures NatOf(FormatNat(n)) == n
  {
    if n >= 10 {
      NatRoundTrip(n / 10);
      assert FormatNat(n)[..|FormatNat(n)| - 1] == FormatNat(n / 10);
    }
  }

  lemma IntRoundTrip(n: int)
    requires MIN_INT64 <= n <= MAX_INT64
    ensures ParseInt(FormatInt(n)) == Some(n)
    ensures '|' !in FormatInt(n)
  {
    var digits := FormatNat(if n < 0 then -n else n);
    NatRoundTrip(if n < 0 then -n else n);
    assert IsDigit(digits[0]);
    if n < 0 {
      assert FormatInt(n)[1..] == digits;
    }
  }

  // ------------------------------------------------ strings.LastIndexByte and strings.Split

  function LastIndex(s: Octets, c: octet): (i: int)
    ensures -1 <= i < |s|
    ensures i >= 0 ==> s[i] == c
    ensures forall k :: i < k < |s| ==> s[k] != c
  {
    if s == [] then -1
    else if s[|s| - 1] == c then |s| - 1
    else LastIndex(s[..|s| - 1], c)
  }

  function Index(s: Octets, c: octet): (i: nat)
    ensures i <= |s|
    ensures i < |s| ==> s[i] == c
    ensures forall k :: 0 <= k < i ==> s[k] != c
  {
    if s == [] || s[0] == c then 0 else 1 + Index(s[1..], c)
  }

  function Split(s: Octets, c: octet): (parts: seq<Octets>)
    ensures |parts| > 0
    decreases |s|
  {
    var i := Index(s, c);
    if i == |s| then [s] else [s[..i]] + Split(s[i + 1..], c)
  }

  function Join(parts: seq<Octets>, c: octet): Octets
    requires |parts| > 0
  {
    if |parts| == 1 then parts[0] else parts[0] + [c] + Join(parts[1..], c)
  }

  lemma {:induction false} LastIndexOf(a: Octets, c: octet, b: Octets)
    requires c !in b
    ensures LastIndex(a + [c] + b, c) == |a|
    decreases |b|
  {
    var s := a + [c] + b;
    if b != [] {
      LastIndexOf(a, c, b[..|b| - 1]);
      assert s[..|s| - 1] == a + [c] + b[..|b| - 1];
      assert s[|s| - 1] == b[|b| - 1];
    }
  }

  lemma SplitStep(a: Octets, c: octet, rest: Octets)
    requires c !in a
    ensures Split(a + [c] + rest, c) == [a] + Split(rest, c)
  {
    var s := a + [c] + rest;
    assert s[|a|] == c;
    assert forall k :: 0 <= k < |a| ==> s[k] == a[k];
    assert Index(s, c) == |a|;
    assert s[..|a|] == a && s[|a| + 1..] == rest;
  }

  lemma SplitNone(a: Octets, c: octet)
    requires c !in a
    ensures Split(a, c) == [a]
  {
  }

  lemma {:induction false} SplitJoins(s: Octets, c: octet)
    ensures Join(Split(s, c), c) == s
    ensures forall k :: 0 <= k < |Split(s, c)| ==> c !in Split(s, c)[k]
    decreases |s|
  {
    var i := Index(s, c);
    if i < |s| {
      SplitJoins(s[i + 1..], c);
      assert Split(s, c)[1..] == Split(s[i + 1..], c);
      assert s == s[..i] + [c] + s[i + 1..];
    }
  }
}
