/**
 * The package's round-trip test (bwt_test.go) as a client of the model:
 * authenticate an HS256 token over a claims map, then parse it back with a
 * validator requiring the subject, the issued-at time and a custom check of
 * the "name" claim. The random secret and the wall clock are parameters.
 */
module Example {
  import opened Wrappers
  import opened Errors
  import opened Text
  import opened Crypto
  import opened ClaimsAccess
  import opened Bwt
  import opened Validation
  import opened Parsing
  import Algorithms
  import Hmac

  const IssuedAt: Time := 1516239022

  /** The claims of the test token. */
  function TestClaims(): map<string, Value>
  {
    map[SubjectKey := VString("1234567890"), "name" := VString("John Doe"), IssuedAtKey := VTime(IssuedAt)]
  }

  /** The test's custom rule: the claims are a map whose "name" is "John Doe". */
  function NameIsJohnDoe(c: Claims): (r: Status)
    ensures r == Ok <==> ClaimsAsMap(c).Some? && Str(ClaimsAsMap(c).value, "name") == Read("John Doe")
  {
    match ClaimsAsMap(c)
    case None => Err(Message("invalid claims"))
    case Some(cm) =>
      match Str(cm, "name")
      case Panics => Panic
      case Read(name) => if name != "John Doe" then Err(Message("invalid name")) else Ok
  }

  /** msgpack carries the test's claims map over the wire into a new ClaimsMap. */
  ghost predicate CarriesTestClaims(codec: Codec)
  {
    && codec.marshal(Some(Map(MapOf(TestClaims())))).Success?
    && codec.unmarshal(codec.marshal(Some(Map(MapOf(TestClaims())))).value, NewClaimsMap)
         == Success(MapRef(Some(MapOf(TestClaims()))))
  }

  /** A stand-in for base64url over a 256-letter alphabet: byte b becomes the character 65 + b. */
  function ShiftEncode(b: Bytes): string
  {
    seq(|b|, i requires 0 <= i < |b| => (b[i] as int + 65) as char)
  }

  /** The inverse of ShiftEncode; a character outside its alphabet is illegal data. */
  function ShiftDecode(s: string): Result<Bytes, Error>
  {
    if forall i | 0 <= i < |s| :: 65 <= s[i] as int < 321
    then Success(seq(|s|, i requires 0 <= i < |s| && 65 <= s[i] as int < 321 => (s[i] as int - 65) as byte))
    else Failure(Message("illegal base64 data"))
  }

  /**
   * The codec assumptions of TestBWT can hold together: a shift codec for
   * base64url and a msgpack stand-in that hands back the test's claims.
   */
  lemma CodecLawsSatisfiable()
    ensures exists c :: Base64Laws(c) && CarriesTestClaims(c)
  {
    var c := Codec(ShiftEncode, ShiftDecode,
                   (_: Option<Claims>) => Success([]),
                   (_: Bytes, _: Claims) => Success(MapRef(Some(MapOf(TestClaims())))));
    forall b: Bytes
      ensures c.decode(c.encode(b)) == Success(b)
    {
      var s := ShiftEncode(b);
      assert forall i | 0 <= i < |s| :: 65 <= s[i] as int < 321;
      assert ShiftDecode(s).value == b;
    }
    forall b: Bytes
      ensures '.' !in c.encode(b)
    {
      var s := ShiftEncode(b);
      assert forall i | 0 <= i < |s| :: s[i] != '.';
    }
    assert Base64Laws(c) && CarriesTestClaims(c);
  }

  /** The validator rules of the test, in option order. */
  function TestRules(): seq<Rule>
  {
    [VerifySubject(true, "1234567890"), VerifyIssuedAt(true), Custom(NameIsJohnDoe)]
  }

  function TestOptions(): seq<ValidatorOption>
  {
    [WithValidator(TestRules()[0]), WithValidator(TestRules()[1]), WithValidator(TestRules()[2])]
  }

  /** The test's options configure exactly its rules, with no leeway and no clock. */
  lemma TestOptionsConfigure()
    ensures Configure(TestOptions()) == Settings(0, None, TestRules())
  {
    var opts, rules := TestOptions(), TestRules();
    assert opts[..1][..0] == [];
    assert Configure(opts[..1]) == Settings(0, None, rules[..1]);
    assert opts[..2][..1] == opts[..1];
    assert Configure(opts[..2]) == Settings(0, None, rules[..2]);
    assert opts[..3] == opts && opts[..3][..2] == opts[..2] && rules[..3] == rules;
  }

  /** Every rule of the test passes on the parsed claims once the clock is past the issued-at time. */
  lemma TestRulesPass(wall: Clock)
    requires wall(0) >= IssuedAt
    ensures var claims := MapRef(Some(MapOf(TestClaims())));
            Verdict(RunRules(TestRules(), claims, 0, TimeState(0, None), wall).tally, claims) == Ok
  {
    var claims := MapRef(Some(MapOf(TestClaims())));
    var rules := TestRules();
    assert GetSubject(claims) == Read("1234567890");
    assert GetIssuedAt(claims) == Read(IssuedAt);
    assert Str(TestClaims(), "name") == Read("John Doe");
    ValidateOkIff(rules, claims, 0, TimeState(0, None), wall);
    assert CheckAt(rules[0], claims, 0, wall(0)) == Ok;
    assert CheckAt(rules[1], claims, 0, wall(0)) == Ok;
    assert CheckAt(rules[2], claims, 0, wall(0)) == Ok;
  }

  /** The first half of the test: an HS256 token over the test claims, authenticated with the secret. */
  method Issue(secret: Bytes, codec: Codec, p: Primitives, reg: Registry) returns (signed: string)
    requires Algorithms.Laws(p) && p.available(SHA3_256)
    requires Base64Laws(codec) && CarriesTestClaims(codec)
    requires Lookup(reg.algs, Hmac.HS256.Name()) == Some(Hmac.HS256)
    ensures var c := Check(signed, NewClaimsMap, Some(KeyfuncFrom(Key(RawBytes, secret))), reg.algs, codec, p);
            c.err.None? && c.token.value.claims.value == MapRef(Some(MapOf(TestClaims())))
  {
    var token := new Token.New(Hmac.HS256, Map(MapOf(TestClaims())));
    var key := Key(RawBytes, secret);
    var body := codec.marshal(Some(Map(MapOf(TestClaims())))).value;
    WireRoundTrip(p, codec, reg.algs, Hmac.HS256, body, NewClaimsMap, MapRef(Some(MapOf(TestClaims()))), key, key);
    var err;
    signed, err := token.Authenticate(key, codec, p);
    assert err.None?;
    assert signed == Assemble(PrefixOf(Hmac.HS256), body, token.tag, codec.encode);
  }

  /** The registry as the package's init functions leave it. */
  method InitRegistry() returns (reg: Registry)
    ensures Lookup(reg.algs, Hmac.HS256.Name()) == Some(Hmac.HS256)
  {
    reg := new Registry();
    Algorithms.InitBuiltins(reg);
    Algorithms.BuiltinsResolve(reg.algs);
  }

  /** The test's validator: the subject, the issued-at time and the name, no leeway, no clock yet. */
  method TestValidator() returns (v: Validator)
    ensures fresh(v)
    ensures v.validators == TestRules() && v.leeway == 0 && v.State() == TimeState(0, None)
  {
    TestOptionsConfigure();
    v := new Validator(TestOptions());
  }

  /**
   * The second half of the test: a wire string whose tag checks out with the
   * key, and whose claims the validator accepts, parses back without error.
   */
  method Reparse(signed: string, key: Key, reg: Registry, v: Validator, codec: Codec, p: Primitives, wall: Clock,
                 ghost claims: Claims)
    returns (token2: Token?, st: Status)
    requires var c := Check(signed, NewClaimsMap, Some(KeyfuncFrom(key)), reg.algs, codec, p);
             c.err.None? && c.token.value.claims == Some(claims)
    requires Verdict(RunRules(v.validators, claims, v.leeway, v.State(), wall).tally, claims) == Ok
    modifies v
    ensures st == Ok
    ensures token2 != null && token2.claims == Some(claims)
  {
    token2, st := Parse(signed, Some(KeyfuncFrom(key)), [v], reg, codec, p, wall);
  }

  /**
   * TestBWT: with working primitives and codecs and a clock past the
   * issued-at time, the token authenticates and parses back without error,
   * carrying its claims.
   */
  method TestBWT(secret: Bytes, codec: Codec, p: Primitives, wall: Clock) returns (token2: Token?, st: Status)
    requires Algorithms.Laws(p) && p.available(SHA3_256)
    requires Base64Laws(codec) && CarriesTestClaims(codec)
    requires wall(0) >= IssuedAt
    ensures st == Ok
    ensures token2 != null && token2.claims == Some(MapRef(Some(MapOf(TestClaims()))))
  {
    var reg := InitRegistry();
    var signed := Issue(secret, codec, p, reg);
    var v := TestValidator();
    TestRulesPass(wall);
    token2, st := Reparse(signed, Key(RawBytes, secret), reg, v, codec, p, wall, MapRef(Some(MapOf(TestClaims()))));
  }
}
