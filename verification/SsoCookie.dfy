/** The signed SSO cookie of internal/auth/sso.go. The keyed hash is any function
    from payload to signature. */
module SsoCookie {
  import opened Options
  import opened TextCodecs

  const REMEMBER_TTL := 60 * 60 * 24 * 365
  const SESSION_TTL := 60 * 60 * 24 * 30

  type Mac = Octets -> Octets

  datatype Parsed = Valid(exp: int, remember: bool) | Invalid

  function Payload(exp: int, remember: bool): Octets {
    ['v', '1'] + ['|'] + (FormatInt(exp) + ['|'] + [if remember then '1' else '0'])
  }

  function SignValue(mac: Mac, exp: int, remember: bool): Octets {
    var payload := Payload(exp, remember);
    Base64Encode(payload) + ['.'] + HexEncode(mac(payload))
  }

  function ParseValue(mac: Mac, v: Octets): Parsed {
    var dot := LastIndex(v, '.');
    if dot < 0 then Invalid
    else
      var payload, sig := Base64Decode(v[..dot]), HexDecode(v[dot + 1..]);
      if payload.None? || sig.None? || sig.value != mac(payload.value) then Invalid
      else ParsePayload(payload.value)
  }

  function ParsePayload(payload: Octets): Parsed {
    var f := Split(payload, '|');
    if |f| != 3 || f[0] != ['v', '1'] then Invalid
    else
      var exp := ParseInt(f[1]);
      if exp.None? then Invalid else Valid(exp.value, f[2] == ['1'])
  }

  lemma SaysParses(payload: Octets, d: Octets, r: Octets)
    requires payload == ['v', '1'] + ['|'] + (d + ['|'] + r) && '|' !in d && '|' !in r
    ensures Split(payload, '|') == [['v', '1'], d, r]
  {
    SplitStep(['v', '1'], '|', d + ['|'] + r);
    SplitStep(d, '|', r);
    SplitNone(r, '|');
  }

  lemma PayloadRoundTrip(exp: int, remember: bool)
    requires MIN_INT64 <= exp <= MAX_INT64
    ensures ParsePayload(Payload(exp, remember)) == Valid(exp, remember)
  {
    var flag: Octets := [if remember then '1' else '0'];
    IntRoundTrip(exp);
    SaysParses(Payload(exp, remember), FormatInt(exp), flag);
    FieldsParse(Payload(exp, remember), FormatInt(exp), flag, exp);
  }

  lemma FieldsParse(payload: Octets, d: Octets, r: Octets, exp: int)
    requires Split(payload, '|') == [['v', '1'], d, r] && ParseInt(d) == Some(exp)
    ensures ParsePayload(payload) == Valid(exp, r == ['1'])
  {
  }

  lemma SignedParts(payload: Octets, sig: Octets)
    ensures var v := Base64Encode(payload) + ['.'] + HexEncode(sig);
            && LastIndex(v, '.') == |Base64Encode(payload)|
            && Base64Decode(v[..LastIndex(v, '.')]) == Some(payload)
            && HexDecode(v[LastIndex(v, '.') + 1..]) == Some(sig)
  {
    var x, y := Base64Encode(payload), HexEncode(sig);
    var v := x + ['.'] + y;
    HexRoundTrip(sig);
    LastIndexOf(x, '.', y);
    Base64RoundTrip(payload);
    assert v[..|x|] == x && v[|x| + 1..] == y;
  }

  /** Whatever was signed reads back, for every int64 expiry and either flag. */
  lemma CookieRoundTrip(mac: Mac, exp: int, remember: bool)
    requires MIN_INT64 <= exp <= MAX_INT64
    ensures ParseValue(mac, SignValue(mac, exp, remember)) == Valid(exp, remember)
  {
    SignedParts(Payload(exp, remember), mac(Payload(exp, remember)));
    PayloadRoundTrip(exp, remember);
  }

  // ------------------------------------------------ what is accepted at all

  /** `v` carries this payload with its true signature. */
  ghost predicate Carries(mac: Mac, v: Octets, payload: Octets) {
    exists x: Octets, y: Octets ::
      v == x + ['.'] + y && '.' !in y && Base64Decode(x) == Some(payload) && HexDecode(y) == Some(mac(payload))
  }

  ghost predicate Says(payload: Octets, exp: int, remember: bool) {
    exists d: Octets, r: Octets ::
      && payload == ['v', '1'] + ['|'] + (d + ['|'] + r)
      && '|' !in d && '|' !in r && ParseInt(d) == Some(exp) && (remember <==> r == ['1'])
  }

  lemma ParsesSays(payload: Octets)
    requires ParsePayload(payload).Valid?
    ensures Says(payload, ParsePayload(payload).exp, ParsePayload(payload).remember)
  {
    var f := Split(payload, '|');
    SplitJoins(payload, '|');
    var rest := f[1..];
    assert rest[1..] == [f[2]] && rest[0] == f[1];
    assert Join(rest[1..], '|') == f[2];
    assert Join(rest, '|') == f[1] + ['|'] + f[2];
    assert Join(f, '|') == f[0] + ['|'] + Join(rest, '|');
    assert '|' !in f[1] && '|' !in f[2];
  }

  lemma PayloadSays(payload: Octets, exp: int, remember: bool)
    ensures ParsePayload(payload) == Valid(exp, remember) <==> Says(payload, exp, remember)
  {
    if ParsePayload(payload) == Valid(exp, remember) {
      ParsesSays(payload);
    }
    if Says(payload, exp, remember) {
      var d: Octets, r: Octets :|
        && payload == ['v', '1'] + ['|'] + (d + ['|'] + r)
        && '|' !in d && '|' !in r && ParseInt(d) == Some(exp) && (remember <==> r == ['1']);
      SaysParses(payload, d, r);
    }
  }

  lemma CarriedIsRead(mac: Mac, v: Octets, payload: Octets)
    requires Carries(mac, v, payload)
    ensures ParseValue(mac, v) == ParsePayload(payload)
  {
    var x: Octets, y: Octets :|
      v == x + ['.'] + y && '.' !in y && Base64Decode(x) == Some(payload) && HexDecode(y) == Some(mac(payload));
    LastIndexOf(x, '.', y);
    assert v[..|x|] == x && v[|x| + 1..] == y;
  }

  lemma ReadIsCarried(mac: Mac, v: Octets) returns (payload: Octets)
    requires ParseValue(mac, v).Valid?
    ensures Carries(mac, v, payload) && ParseValue(mac, v) == ParsePayload(payload)
  {
    var dot := LastIndex(v, '.');
    var x, y := v[..dot], v[dot + 1..];
    assert v == x + ['.'] + y;
    payload := Base64Decode(x).value;
  }

  /** Exactly what is accepted: a payload that carries its true signature and says
      this expiry and flag, through Go's lenient decoders. */
  lemma AcceptedExactly(mac: Mac, v: Octets, exp: int, remember: bool)
    ensures ParseValue(mac, v) == Valid(exp, remember) <==>
            exists payload :: Carries(mac, v, payload) && Says(payload, exp, remember)
  {
    if ParseValue(mac, v) == Valid(exp, remember) {
      var payload := ReadIsCarried(mac, v);
      PayloadSays(payload, exp, remember);
    }
    if exists payload :: Carries(mac, v, payload) && Says(payload, exp, remember) {
      var payload :| Carries(mac, v, payload) && Says(payload, exp, remember);
      CarriedIsRead(mac, v, payload);
      PayloadSays(payload, exp, remember);
    }
  }

  // ------------------------------------------------ issuing and verifying

  function Issue(mac: Mac, remember: bool, now: int): Octets {
    SignValue(mac, now + if remember then REMEMBER_TTL else SESSION_TTL, remember)
  }

  /** verify: the flag if the cookie is genuine and not expired. */
  function Verify(mac: Mac, cookie: Option<Octets>, now: int): Option<bool> {
    if cookie.None? then None
    else match ParseValue(mac, cookie.value)
         case Valid(exp, remember) => if exp < now then None else Some(remember)
         case Invalid => None
  }

  /** An issued cookie is good, with its flag, until its time to live has passed and
      at no later second. */
  lemma IssuedIsValidUntilExpiry(mac: Mac, remember: bool, issued: int, now: int)
    requires MIN_INT64 <= issued <= MAX_INT64 - REMEMBER_TTL
    ensures var days := if remember then 365 else 30;
            Verify(mac, Some(Issue(mac, remember, issued)), now) ==
            if now <= issued + days * 24 * 60 * 60 then Some(remember) else None
  {
    CookieRoundTrip(mac, issued + if remember then REMEMBER_TTL else SESSION_TTL, remember);
  }

  /** The same cookie with its signature in upper case. */
  function SignUpper(mac: Mac, exp: int, remember: bool): Octets {
    var payload := Payload(exp, remember);
    Base64Encode(payload) + ['.'] + HexUpper(mac(payload))
  }

  /** The printed form is not the only accepted one: the signature may be in upper
      case, which differs from it unless the signature has no digit above nine. */
  lemma NotOnlyWhatWasSigned(mac: Mac, exp: int, remember: bool)
    requires MIN_INT64 <= exp <= MAX_INT64
    ensures ParseValue(mac, SignUpper(mac, exp, remember)) == Valid(exp, remember)
    ensures SignUpper(mac, exp, remember) == SignValue(mac, exp, remember) <==> Caseless(mac(Payload(exp, remember)))
  {
    var payload := Payload(exp, remember);
    UpperIsCarried(mac, payload);
    CarriedIsRead(mac, SignUpper(mac, exp, remember), payload);
    PayloadRoundTrip(exp, remember);
    UpperIsSame(mac(payload));
    SameEnd(Base64Encode(payload) + ['.'], HexUpper(mac(payload)), HexEncode(mac(payload)));
  }

  lemma CarriedBy(mac: Mac, x: Octets, y: Octets, payload: Octets)
    requires '.' !in y && Base64Decode(x) == Some(payload) && HexDecode(y) == Some(mac(payload))
    ensures Carries(mac, x + ['.'] + y, payload)
  {
  }

  lemma SkippedInPayload(x: Octets, c: octet, k: nat)
    requires (c == '\r' || c == '\n') && k <= |x|
    ensures Base64Decode(x[..k] + [c] + x[k..]) == Base64Decode(x)
  {
    SkipOne(x[..k], c, x[k..]);
    assert x[..k] + x[k..] == x;
  }

  lemma Spliced(x: Octets, y: Octets, c: octet, k: nat)
    requires k <= |x|
    ensures var v := x + ['.'] + y; v[..k] + [c] + v[k..] == x[..k] + [c] + x[k..] + ['.'] + y
  {
  }

  /** So is a line end anywhere in front of the dot. */
  lemma LineEndsAreSkipped(mac: Mac, exp: int, remember: bool, k: nat, c: octet)
    requires MIN_INT64 <= exp <= MAX_INT64 && (c == '\r' || c == '\n')
    requires k <= LastIndex(SignValue(mac, exp, remember), '.')
    ensures var v := SignValue(mac, exp, remember);
            ParseValue(mac, v[..k] + [c] + v[k..]) == Valid(exp, remember)
  {
    var payload := Payload(exp, remember);
    SignedParts(payload, mac(payload));
    SkippedSigned(mac, payload, Base64Encode(payload), HexEncode(mac(payload)), k, c);
    PayloadRoundTrip(exp, remember);
  }

  lemma SkippedSigned(mac: Mac, payload: Octets, x: Octets, y: Octets, k: nat, c: octet)
    requires x == Base64Encode(payload) && y == HexEncode(mac(payload)) && k <= |x| && (c == '\r' || c == '\n')
    ensures var v := x + ['.'] + y; ParseValue(mac, v[..k] + [c] + v[k..]) == ParsePayload(payload)
  {
    Base64RoundTrip(payload);
    HexRoundTrip(mac(payload));
    var x' := x[..k] + [c] + x[k..];
    SkippedInPayload(x, c, k);
    Spliced(x, y, c, k);
    CarriedBy(mac, x', y, payload);
    CarriedIsRead(mac, x' + ['.'] + y, payload);
  }

  lemma UpperIsCarried(mac: Mac, payload: Octets)
    ensures Carries(mac, Base64Encode(payload) + ['.'] + HexUpper(mac(payload)), payload)
  {
    UpperIsRead(mac(payload));
    Base64RoundTrip(payload);
  }

  lemma SameEnd(a: Octets, b: Octets, c: Octets)
    ensures a + b == a + c <==> b == c
  {
    assert (a + b)[|a|..] == b && (a + c)[|a|..] == c;
  }
}
