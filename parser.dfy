/**
 * parser.go: split the wire string, resolve the algorithm, decode and
 * unmarshal the claims (ParseUnverified), then decode the tag, obtain the
 * key from the caller's Keyfunc, verify the tag over the algorithm's own
 * prefix and the claims bytes, and finally run the validator.
 *
 * The pure functions Unverify and Check are the specification of the
 * methods; the algorithm registry is the instance passed in.
 */
module Parsing {
  import opened Wrappers
  import opened Errors
  import opened Text
  import opened Crypto
  import opened ClaimsAccess
  import opened Bwt
  import opened Validation
  import Algorithms
  import Hmac

  /** Keyfunc: given the parsed, not yet verified token, the key to verify it with. */
  type Keyfunc = Fields -> Result<Key, Error>

  /** KeyfuncFrom: a Keyfunc that always returns the same key. */
  function KeyfuncFrom(key: Key): (f: Keyfunc)
    ensures forall t :: f(t) == Success(key)
  {
    t => Success(key)
  }

  /** new(ClaimsMap): a pointer to a nil map, the container Parse fills. */
  const NewClaimsMap: Claims := MapRef(Some(NilMap))

  /** Raw: the parts of the wire string and the decoded claims bytes. */
  datatype Raw = Raw(parts: seq<string>, claims: Bytes)

  /** What a parsing step returns: the token (nil, or its fields), the raw data and the error. */
  datatype Parsed = Parsed(token: Option<Fields>, raw: Raw, err: Option<Error>)

  /** ParseUnverified, as a function of its inputs and the registry's contents. */
  function Unverify(s: string, container: Claims, algs: map<string, Alg>, codec: Codec): (r: Parsed)
    ensures r.raw.parts == Split(s, '.')
    ensures var parts := Split(s, '.');
            |parts| == 3 && (var cut := Cut(parts[0], '_'); !cut.found || cut.before != Type || cut.after == "") ==>
              r == Parsed(None, Raw(parts, []), Some(Sentinel(TokenMalformed)))
    ensures var parts := Split(s, '.');
            r.token.Some? ==>
              && |parts| == 3
              && var cut := Cut(parts[0], '_');
              && cut.found && cut.before == Type && cut.after != ""
              && r.token.value.algorithm == Lookup(algs, cut.after)
    ensures var parts := Split(s, '.');
            |parts| == 3 && (var cut := Cut(parts[0], '_'); cut.found && cut.before == Type && cut.after != "") ==>
              var alg := Lookup(algs, Cut(parts[0], '_').after);
              && r.token.Some?
              && (alg.None? ==> r.err == Some(Sentinel(TokenUnverifiable)))
              && (alg.Some? && codec.decode(parts[1]).Failure? ==>
                    r.err.Some? && forall k :: Is(r.err.value, k) <==> k == TokenMalformed || Is(codec.decode(parts[1]).error, k))
              && (alg.Some? && codec.decode(parts[1]).Success? ==>
                    var filled := codec.unmarshal(codec.decode(parts[1]).value, container);
                    && (filled.Failure? ==>
                          r.err.Some? && forall k :: Is(r.err.value, k) <==> k == TokenMalformed || Is(filled.error, k))
                    && (filled.Success? ==> r.err.None?))
    ensures r.token.None? ==> r.err == Some(Sentinel(TokenMalformed))
    ensures r.token.Some? ==>
              && r.token.value.tag == []
              && |r.raw.parts| == 3
              && (r.token.value.algorithm.None? <==> r.err == Some(Sentinel(TokenUnverifiable)))
    ensures r.err.Some? && r.err != Some(Sentinel(TokenUnverifiable)) ==> Is(r.err.value, TokenMalformed)
    ensures r.err.None? ==>
              && r.token.Some? && r.token.value.algorithm.Some? && r.token.value.claims.Some?
              && codec.decode(r.raw.parts[1]) == Success(r.raw.claims)
              && codec.unmarshal(r.raw.claims, container) == Success(r.token.value.claims.value)
  {
    var parts := Split(s, '.');
    if |parts| != 3 then Parsed(None, Raw(parts, []), Some(Sentinel(TokenMalformed)))
    else
      var cut := Cut(parts[0], '_');
      if !cut.found || cut.before != Type || cut.after == "" then
        Parsed(None, Raw(parts, []), Some(Sentinel(TokenMalformed)))
      else
        var r := Resolve(Lookup(algs, cut.after), parts[1], container, codec);
        r.(raw := r.raw.(parts := parts))
  }

  /**
   * The rest of ParseUnverified once the prefix is well formed and the
   * algorithm looked up, on the encoded claims (the parts are filled in by
   * the caller).
   */
  function Resolve(alg: Option<Alg>, encoded: string, container: Claims, codec: Codec): (r: Parsed)
    ensures r.raw.parts == [] && r.token.Some? && r.token.value.tag == [] && r.token.value.algorithm == alg
    ensures r.err == Some(Sentinel(TokenUnverifiable)) <==> alg.None?
    ensures r.err.Some? && alg.Some? ==> Is(r.err.value, TokenMalformed)
    ensures r.err.None? ==>
              && r.token.value.claims.Some?
              && codec.decode(encoded) == Success(r.raw.claims)
              && codec.unmarshal(r.raw.claims, container) == Success(r.token.value.claims.value)
    ensures alg.Some? && codec.decode(encoded).Failure? ==>
              r.err.Some? && forall k :: Is(r.err.value, k) <==> k == TokenMalformed || Is(codec.decode(encoded).error, k)
    ensures alg.Some? && codec.decode(encoded).Success? ==>
              var filled := codec.unmarshal(codec.decode(encoded).value, container);
              && (filled.Failure? ==>
                    r.err.Some? && forall k :: Is(r.err.value, k) <==> k == TokenMalformed || Is(filled.error, k))
              && (filled.Success? ==> r.err.None?)
  {
    match alg
    case None => Parsed(Some(Fields(None, None, [])), Raw([], []), Some(Sentinel(TokenUnverifiable)))
    case Some(a) =>
      match codec.decode(encoded)
      case Failure(e) =>
        Parsed(Some(Fields(Some(a), None, [])), Raw([], []), Some(Join2(Sentinel(TokenMalformed), e)))
      case Success(body) =>
        match codec.unmarshal(body, container)
        case Failure(e) =>
          Parsed(Some(Fields(Some(a), None, [])), Raw([], body), Some(Join2(Sentinel(TokenMalformed), e)))
        case Success(filled) =>
          Parsed(Some(Fields(Some(a), Some(filled), [])), Raw([], body), None)
  }

  /** ParseWithClaims up to and including the tag check, before validation. */
  function Check(s: string, container: Claims, keyFunc: Option<Keyfunc>, algs: map<string, Alg>,
                 codec: Codec, p: Primitives): (r: Parsed)
    ensures r.token.None? ==> r.err == Some(Sentinel(TokenMalformed))
    ensures r.err.None? ==>
              && keyFunc.Some?
              && r.token.Some? && r.token.value.algorithm.Some? && r.token.value.claims.Some?
              && |r.raw.parts| == 3
              && codec.decode(r.raw.parts[2]) == Success(r.token.value.tag)
    ensures keyFunc.None? ==> r.err.Some? && (Is(r.err.value, TokenMalformed) || Is(r.err.value, TokenUnverifiable))
  {
    var u := Unverify(s, container, algs, codec);
    if u.err.Some? then u
    else
      var r := CheckTag(u.token.value, u.raw.parts[2], u.raw.claims, keyFunc, codec, p);
      r.(raw := u.raw)
  }

  /**
   * The tag stage of ParseWithClaims on a token whose algorithm and claims
   * are set: decode the tag, ask the Keyfunc for the key, verify (the raw
   * data is filled in by the caller).
   */
  function CheckTag(t: Fields, encoded: string, body: Bytes, keyFunc: Option<Keyfunc>, codec: Codec, p: Primitives): (r: Parsed)
    requires t.algorithm.Some?
    ensures r.token.Some? && r.token.value.algorithm == t.algorithm && r.token.value.claims == t.claims
    ensures codec.decode(encoded).Failure? ==>
              && r.token == Some(t) && r.err.Some?
              && forall k :: Is(r.err.value, k) <==> k == TokenMalformed || Is(codec.decode(encoded).error, k)
    ensures codec.decode(encoded).Success? ==>
              var t' := t.(tag := codec.decode(encoded).value);
              && r.token == Some(t')
              && (keyFunc.None? ==> r.err.Some? && forall k :: Is(r.err.value, k) <==> k == TokenUnverifiable)
              && (keyFunc.Some? && keyFunc.value(t').Failure? ==>
                    && r.err.Some?
                    && forall k :: Is(r.err.value, k) <==> k == TokenUnverifiable || Is(keyFunc.value(t').error, k))
              && (keyFunc.Some? && keyFunc.value(t').Success? ==>
                    var alg := t.algorithm.value;
                    var verdict := Algorithms.Verify(p, alg, PrefixOf(alg), body, keyFunc.value(t').value, t'.tag);
                    && (r.err.None? <==> verdict.None?)
                    && (r.err.Some? ==> forall k :: Is(r.err.value, k) <==> k == TokenTagInvalid || Is(verdict.value, k)))
  {
    var alg := t.algorithm.value;
    match codec.decode(encoded)
    case Failure(e) => Parsed(Some(t), Raw([], []), Some(Join2(Sentinel(TokenMalformed), e)))
    case Success(tag) =>
      var t' := t.(tag := tag);
      if keyFunc.None? then
        Parsed(Some(t'), Raw([], []), Some(Join2(Message("no keyfunc was provided"), Sentinel(TokenUnverifiable))))
      else match keyFunc.value(t')
        case Failure(e) => Parsed(Some(t'), Raw([], []), Some(Join2(Sentinel(TokenUnverifiable), e)))
        case Success(key) =>
          match Algorithms.Verify(p, alg, PrefixOf(alg), body, key, tag)
          case Some(e) => Parsed(Some(t'), Raw([], []), Some(Join2(Sentinel(TokenTagInvalid), e)))
          case None => Parsed(Some(t'), Raw([], []), None)
  }

  /** The error ParseWithClaims returns, given the tag check and the validator's verdict (None: no validator). */
  function Outcome(c: Parsed, verdict: Option<Status>): Status
  {
    if c.err.Some? then Err(c.err.value)
    else match verdict
      case None => Ok
      case Some(Ok) => Ok
      case Some(Err(e)) => Err(Join2(Sentinel(TokenInvalidClaims), e))
      case Some(Panic) => Panic
  }

  /** ParseUnverified: parse the token without verifying its tag. */
  method ParseUnverified(s: string, container: Claims, reg: Registry, codec: Codec)
    returns (token: Token?, raw: Raw, err: Option<Error>)
    ensures var r := Unverify(s, container, reg.algs, codec);
            && raw == r.raw && err == r.err
            && (token == null <==> r.token.None?)
            && (token != null ==> fresh(token) && token.View() == r.token.value)
  {
    ghost var u := Unverify(s, container, reg.algs, codec);
    raw := Raw(Split(s, '.'), []);
    if |raw.parts| != 3 {
      assert u == Parsed(None, raw, Some(Sentinel(TokenMalformed)));
      return null, raw, Some(Sentinel(TokenMalformed));
    }
    token := new Token.Empty();
    var cut := Cut(raw.parts[0], '_');
    if !cut.found || cut.before != Type || cut.after == "" {
      assert u == Parsed(None, raw, Some(Sentinel(TokenMalformed)));
      return null, raw, Some(Sentinel(TokenMalformed));
    }
    token.algorithm := reg.Get(cut.after);
    ghost var rest := Resolve(token.algorithm, raw.parts[1], container, codec);
    assert u == rest.(raw := rest.raw.(parts := raw.parts));
    if token.algorithm.None? {
      return token, raw, Some(Sentinel(TokenUnverifiable));
    }
    var body := codec.decode(raw.parts[1]);
    if body.Failure? {
      return token, raw, Some(Join2(Sentinel(TokenMalformed), body.error));
    }
    raw := raw.(claims := body.value);
    var filled := codec.unmarshal(body.value, container);
    if filled.Failure? {
      return token, raw, Some(Join2(Sentinel(TokenMalformed), filled.error));
    }
    token.claims := Some(filled.value);
    err := None;
  }

  /** Parser: an optional validator run on every token whose tag checks out. */
  class Parser {
    var validator: Validator?

    /** NewParser(v...): the first validator given (possibly nil), else a fresh one with no rules. */
    constructor (vs: seq<Validator?>)
      ensures |vs| > 0 ==> validator == vs[0]
      ensures |vs| == 0 ==> validator != null && fresh(validator)
                            && validator.now == 0 && validator.Config() == Configure([])
    {
      if |vs| > 0 {
        validator := vs[0];
      } else {
        validator := new Validator([]);
      }
    }

    /** Parser.ParseWithClaims. */
    method ParseWithClaims(s: string, container: Claims, keyFunc: Option<Keyfunc>, reg: Registry,
                           codec: Codec, p: Primitives, wall: Clock)
      returns (token: Token?, st: Status)
      modifies validator
      ensures var c := Check(s, container, keyFunc, reg.algs, codec, p);
              && (token == null <==> c.token.None?)
              && (token != null ==> fresh(token) && token.View() == c.token.value)
              && (c.err.Some? || validator == null ==> st == Outcome(c, None))
              && (c.err.Some? && validator != null ==> unchanged(validator))
      ensures var c := Check(s, container, keyFunc, reg.algs, codec, p);
              c.err.None? && validator != null ==>
                var claims := c.token.value.claims.value;
                var run := RunRules(old(validator.validators), claims, old(validator.leeway), old(validator.State()), wall);
                && validator.leeway == old(validator.leeway) && validator.validators == old(validator.validators)
                && validator.State() == run.ts
                && st == Outcome(c, Some(Verdict(run.tally, claims)))
    {
      var raw, err;
      token, raw, err := ParseUnverified(s, container, reg, codec);
      if err.Some? {
        return token, Err(err.value);
      }
      ghost var ct := CheckTag(token.View(), raw.parts[2], raw.claims, keyFunc, codec, p);
      assert Check(s, container, keyFunc, reg.algs, codec, p) == ct.(raw := raw);
      var tag := codec.decode(raw.parts[2]);
      if tag.Failure? {
        return token, Err(Join2(Sentinel(TokenMalformed), tag.error));
      }
      token.tag := tag.value;
      if keyFunc.None? {
        return token, Err(Join2(Message("no keyfunc was provided"), Sentinel(TokenUnverifiable)));
      }
      var key := keyFunc.value(token.View());
      if key.Failure? {
        return token, Err(Join2(Sentinel(TokenUnverifiable), key.error));
      }
      var bad := Algorithms.Verify(p, token.algorithm.value, token.Prefix(), raw.claims, key.value, token.tag);
      if bad.Some? {
        return token, Err(Join2(Sentinel(TokenTagInvalid), bad.value));
      }
      if validator != null {
        var verdict := validator.Validate(token.claims.value, wall);
        st := Outcome(Parsed(Some(token.View()), raw, None), Some(verdict));
      } else {
        st := Ok;
      }
    }

    /** Parser.Parse: ParseWithClaims into a new, nil ClaimsMap. */
    method Parse(s: string, keyFunc: Option<Keyfunc>, reg: Registry, codec: Codec, p: Primitives, wall: Clock)
      returns (token: Token?, st: Status)
      modifies validator
      ensures var c := Check(s, NewClaimsMap, keyFunc, reg.algs, codec, p);
              && (token == null <==> c.token.None?)
              && (token != null ==> fresh(token) && token.View() == c.token.value)
              && (c.err.Some? || validator == null ==> st == Outcome(c, None))
              && (c.err.Some? && validator != null ==> unchanged(validator))
      ensures var c := Check(s, NewClaimsMap, keyFunc, reg.algs, codec, p);
              c.err.None? && validator != null ==>
                var claims := c.token.value.claims.value;
                var run := RunRules(old(validator.validators), claims, old(validator.leeway), old(validator.State()), wall);
                && validator.leeway == old(validator.leeway) && validator.validators == old(validator.validators)
                && validator.State() == run.ts
                && st == Outcome(c, Some(Verdict(run.tally, claims)))
    {
      token, st := ParseWithClaims(s, NewClaimsMap, keyFunc, reg, codec, p, wall);
    }
  }

  /**
   * The package-level ParseWithClaims shortcut: a parser over the given
   * validators. With none, a fresh validator without rules still runs the
   * claims' own Validate().
   */
  method ParseWithClaims(s: string, container: Claims, keyFunc: Option<Keyfunc>, vs: seq<Validator?>,
                         reg: Registry, codec: Codec, p: Primitives, wall: Clock)
    returns (token: Token?, st: Status)
    modifies if |vs| > 0 then {vs[0]} else {}
    ensures var c := Check(s, container, keyFunc, reg.algs, codec, p);
            && (token == null <==> c.token.None?)
            && (token != null ==> fresh(token) && token.View() == c.token.value)
            && (c.err.Some? ==> st == Err(c.err.value))
            && (c.err.Some? && |vs| > 0 && vs[0] != null ==> unchanged(vs[0]))
            && (c.err.None? && |vs| == 0 ==>
                  st == Outcome(c, Some(Verdict(Tally([], false), c.token.value.claims.value))))
            && (c.err.None? && |vs| > 0 && vs[0] == null ==> st == Ok)
    ensures var c := Check(s, container, keyFunc, reg.algs, codec, p);
            c.err.None? && |vs| > 0 && vs[0] != null ==>
              var claims := c.token.value.claims.value;
              var run := RunRules(old(vs[0].validators), claims, old(vs[0].leeway), old(vs[0].State()), wall);
              && vs[0].leeway == old(vs[0].leeway) && vs[0].validators == old(vs[0].validators)
              && vs[0].State() == run.ts
              && st == Outcome(c, Some(Verdict(run.tally, claims)))
  {
    var parser := new Parser(vs);
    token, st := parser.ParseWithClaims(s, container, keyFunc, reg, codec, p, wall);
  }

  /** The package-level Parse shortcut. */
  method Parse(s: string, keyFunc: Option<Keyfunc>, vs: seq<Validator?>,
               reg: Registry, codec: Codec, p: Primitives, wall: Clock)
    returns (token: Token?, st: Status)
    modifies if |vs| > 0 then {vs[0]} else {}
    ensures var c := Check(s, NewClaimsMap, keyFunc, reg.algs, codec, p);
            && (token == null <==> c.token.None?)
            && (token != null ==> fresh(token) && token.View() == c.token.value)
            && (c.err.Some? ==> st == Err(c.err.value))
            && (c.err.Some? && |vs| > 0 && vs[0] != null ==> unchanged(vs[0]))
            && (c.err.None? && |vs| == 0 ==>
                  st == Outcome(c, Some(Verdict(Tally([], false), c.token.value.claims.value))))
            && (c.err.None? && |vs| > 0 && vs[0] == null ==> st == Ok)
    ensures var c := Check(s, NewClaimsMap, keyFunc, reg.algs, codec, p);
            c.err.None? && |vs| > 0 && vs[0] != null ==>
              var claims := c.token.value.claims.value;
              var run := RunRules(old(vs[0].validators), claims, old(vs[0].leeway), old(vs[0].State()), wall);
              && vs[0].leeway == old(vs[0].leeway) && vs[0].validators == old(vs[0].validators)
              && vs[0].State() == run.ts
              && st == Outcome(c, Some(Verdict(run.tally, claims)))
  {
    token, st := ParseWithClaims(s, NewClaimsMap, keyFunc, vs, reg, codec, p, wall);
  }

  /**
   * Round trip on the wire: what Authenticate produces for a built-in
   * algorithm parses back, with the matching verification key, into the
   * same algorithm, the unmarshalled claims and the tag, without error.
   */
  lemma WireRoundTrip(p: Primitives, codec: Codec, algs: map<string, Alg>, alg: Alg, body: Bytes,
                      container: Claims, filled: Claims, signKey: Key, verifyKey: Key)
    requires Algorithms.Laws(p) && Base64Laws(codec)
    requires Algorithms.KeyPair(p, alg, signKey, verifyKey)
    requires alg.Name() != "" && '.' !in alg.Name()
    requires Lookup(algs, alg.Name()) == Some(alg)
    requires codec.unmarshal(body, container) == Success(filled)
    ensures Algorithms.Auth(p, alg, PrefixOf(alg), body, signKey).Success?
    ensures var tag := Algorithms.Auth(p, alg, PrefixOf(alg), body, signKey).value;
            var s := Assemble(PrefixOf(alg), body, tag, codec.encode);
            Check(s, container, Some(KeyfuncFrom(verifyKey)), algs, codec, p)
              == Parsed(Some(Fields(Some(alg), Some(filled), tag)),
                        Raw([PrefixOf(alg), codec.encode(body), codec.encode(tag)], body), None)
  {
    Algorithms.RoundTrip(p, alg, PrefixOf(alg), body, signKey, verifyKey);
    var tag := Algorithms.Auth(p, alg, PrefixOf(alg), body, signKey).value;
    AssembledSplits(codec, PrefixOf(alg), body, tag);
  }

  /**
   * A token that parses without error carries a tag its algorithm's Verify
   * accepted, over the algorithm's own prefix and the bytes its claims were
   * decoded from, with the key the Keyfunc returned for it.
   */
  lemma AcceptedMeansVerified(s: string, container: Claims, kf: Keyfunc, algs: map<string, Alg>, codec: Codec, p: Primitives)
    requires Check(s, container, Some(kf), algs, codec, p).err.None?
    ensures var r := Check(s, container, Some(kf), algs, codec, p);
            var t := r.token.value;
            var parts := Split(s, '.');
            && |parts| == 3
            && Cut(parts[0], '_').found && Cut(parts[0], '_').before == Type
            && Lookup(algs, Cut(parts[0], '_').after) == t.algorithm
            && codec.decode(parts[1]) == Success(r.raw.claims)
            && codec.unmarshal(r.raw.claims, container) == Success(t.claims.value)
            && codec.decode(parts[2]) == Success(t.tag)
            && kf(t).Success?
            && Algorithms.Verify(p, t.algorithm.value, PrefixOf(t.algorithm.value), r.raw.claims, kf(t).value, t.tag) == None
  {
  }

  /** For the HMAC family, an accepted tag is exactly the one Auth computes with the Keyfunc's key. */
  lemma HmacAcceptedMeansAuthentic(s: string, container: Claims, kf: Keyfunc, algs: map<string, Alg>, codec: Codec, p: Primitives)
    requires Hmac.Laws(p)
    requires Check(s, container, Some(kf), algs, codec, p).err.None?
    requires Check(s, container, Some(kf), algs, codec, p).token.value.algorithm.value.HmacSha3?
    ensures var r := Check(s, container, Some(kf), algs, codec, p);
            var t := r.token.value;
            var alg := t.algorithm.value;
            kf(t).Success? && Algorithms.Auth(p, alg, PrefixOf(alg), r.raw.claims, kf(t).value) == Success(t.tag)
  {
    var r := Check(s, container, Some(kf), algs, codec, p);
    var t := r.token.value;
    var alg := t.algorithm.value;
    AcceptedMeansVerified(s, container, kf, algs, codec, p);
    Hmac.AcceptsOnlyAuthTag(p, alg.hash, PrefixOf(alg), r.raw.claims, kf(t).value, t.tag);
  }

  /**
   * A forged HMAC tag of the right length is reported as ErrTokenTagInvalid
   * joined with ErrWrongTag: errors.Is finds both in the parse error.
   */
  lemma ForgedHmacTagIsWrongTag(s: string, container: Claims, kf: Keyfunc, algs: map<string, Alg>, codec: Codec, p: Primitives)
    requires var u := Unverify(s, container, algs, codec);
             && u.err.None? && u.token.value.algorithm.value.HmacSha3?
             && codec.decode(u.raw.parts[2]).Success?
    requires var u := Unverify(s, container, algs, codec);
             var alg := u.token.value.algorithm.value;
             var tag := codec.decode(u.raw.parts[2]).value;
             var key := kf(u.token.value.(tag := tag));
             && p.available(alg.hash) && key.Success? && key.value.kind == RawBytes
             && |tag| == HashSize(alg.hash) && tag != Hmac.Mac(p, alg.hash, key.value.material, PrefixOf(alg), u.raw.claims)
    ensures var r := Check(s, container, Some(kf), algs, codec, p);
            r.err.Some? && Is(r.err.value, TokenTagInvalid) && Is(r.err.value, WrongTag)
  {
  }

  /** A wire string built from dot-free pieces splits into its prefix, claims and tag, and its prefix cuts into type and name. */
  lemma WireParts(name: string, body: string, tag: string)
    requires '.' !in name && '.' !in body && '.' !in tag
    ensures Split(Type + "_" + name + "." + body + "." + tag, '.') == [Type + "_" + name, body, tag]
    ensures Cut(Type + "_" + name, '_') == CutResult(Type, name, true)
  {
    var pre := Type + "_" + name;
    CutAt(Type, name, '_');
    assert '.' !in pre by {
      assert forall i | 0 <= i < |pre| :: pre[i] == (if i < 4 then "BWT_"[i] else name[i - 4]);
    }
    SplitThree(pre, body, tag, '.');
  }

  /** ParseUnverified looks only at the algorithm name's upper-cased form. */
  lemma UnverifyCaseInsensitive(s1: string, s2: string, name1: string, name2: string, container: Claims,
                                algs: map<string, Alg>, codec: Codec)
    requires |Split(s1, '.')| == |Split(s2, '.')| == 3
    requires Split(s1, '.')[1..] == Split(s2, '.')[1..]
    requires Cut(Split(s1, '.')[0], '_') == CutResult(Type, name1, true)
    requires Cut(Split(s2, '.')[0], '_') == CutResult(Type, name2, true)
    requires ToUpper(name1) == ToUpper(name2)
    ensures var u1 := Unverify(s1, container, algs, codec);
            var u2 := Unverify(s2, container, algs, codec);
            u1.token == u2.token && u1.err == u2.err && u1.raw.claims == u2.raw.claims
  {
    var parts1, parts2 := Split(s1, '.'), Split(s2, '.');
    var alg := Lookup(algs, name1);
    assert alg == Lookup(algs, name2);
    assert |name1| == |name2|;
    assert parts1[1] == parts2[1] by { assert parts1[1] == parts1[1..][0]; }
    if name1 != "" {
      var r := Resolve(alg, parts1[1], container, codec);
      assert Unverify(s1, container, algs, codec) == r.(raw := r.raw.(parts := parts1));
      assert Unverify(s2, container, algs, codec) == r.(raw := r.raw.(parts := parts2));
    }
  }

  /**
   * The tag covers the algorithm's canonical prefix, not the wire prefix:
   * two wire strings whose algorithm names differ only in letter case parse
   * to the same token and the same error.
   */
  lemma PrefixCaseInsensitive(name1: string, name2: string, body: string, tag: string, container: Claims,
                              keyFunc: Option<Keyfunc>, algs: map<string, Alg>, codec: Codec, p: Primitives)
    requires '.' !in name1 && '.' !in name2 && '.' !in body && '.' !in tag
    requires ToUpper(name1) == ToUpper(name2)
    ensures var c1 := Check(Type + "_" + name1 + "." + body + "." + tag, container, keyFunc, algs, codec, p);
            var c2 := Check(Type + "_" + name2 + "." + body + "." + tag, container, keyFunc, algs, codec, p);
            c1.token == c2.token && c1.err == c2.err
  {
    var s1 := Type + "_" + name1 + "." + body + "." + tag;
    var s2 := Type + "_" + name2 + "." + body + "." + tag;
    WireParts(name1, body, tag);
    WireParts(name2, body, tag);
    UnverifyCaseInsensitive(s1, s2, name1, name2, container, algs, codec);
    var u1 := Unverify(s1, container, algs, codec);
    var u2 := Unverify(s2, container, algs, codec);
    if u1.err.None? {
      assert u1.raw.parts[2] == tag == u2.raw.parts[2];
      var r := CheckTag(u1.token.value, tag, u1.raw.claims, keyFunc, codec, p);
      assert Check(s1, container, keyFunc, algs, codec, p) == r.(raw := u1.raw);
      assert Check(s2, container, keyFunc, algs, codec, p) == r.(raw := u2.raw);
    }
  }

  /** A well-formed wire string naming an unregistered algorithm is unverifiable, with a non-nil token. */
  lemma UnknownAlgorithmUnverifiable(name: string, body: string, tag: string, container: Claims,
                                     keyFunc: Option<Keyfunc>, algs: map<string, Alg>, codec: Codec, p: Primitives)
    requires '.' !in name && '.' !in body && '.' !in tag && name != ""
    requires ToUpper(name) !in algs
    ensures var r := Check(Type + "_" + name + "." + body + "." + tag, container, keyFunc, algs, codec, p);
            r.token == Some(Fields(None, None, [])) && r.err == Some(Sentinel(TokenUnverifiable))
  {
    var s := Type + "_" + name + "." + body + "." + tag;
    WireParts(name, body, tag);
    assert Lookup(algs, name) == None;
    assert Unverify(s, container, algs, codec).err == Some(Sentinel(TokenUnverifiable));
  }

  /**
   * The Keyfunc is consulted only on a token whose algorithm, claims and tag
   * are all set: two Keyfuncs that agree on such tokens give the same result.
   */
  lemma KeyfuncSeesCompleteToken(s: string, container: Claims, kf1: Keyfunc, kf2: Keyfunc,
                                 algs: map<string, Alg>, codec: Codec, p: Primitives)
    requires forall t: Fields | t.algorithm.Some? && t.claims.Some? && codec.decode(Split(s, '.')[|Split(s, '.')| - 1]) == Success(t.tag) ::
               kf1(t) == kf2(t)
    ensures Check(s, container, Some(kf1), algs, codec, p) == Check(s, container, Some(kf2), algs, codec, p)
  {
  }

  /** A string that does not split into exactly three parts is malformed, with a nil token. */
  lemma NotThreePartsMalformed(s: string, container: Claims, keyFunc: Option<Keyfunc>, algs: map<string, Alg>,
                               codec: Codec, p: Primitives)
    requires |Split(s, '.')| != 3
    ensures Check(s, container, keyFunc, algs, codec, p) == Parsed(None, Raw(Split(s, '.'), []), Some(Sentinel(TokenMalformed)))
  {
  }
}
