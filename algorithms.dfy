/**
 * Dispatch of the Algorithm interface (crypto.go) over the two built-in
 * families and caller-registered implementations, the package's init-time
 * registrations, and the Auth/Verify round trip over matching keys.
 */
module Algorithms {
  import opened Wrappers
  import opened Errors
  import opened Text
  import opened Crypto
  import Hmac
  import EdDSA

  /** Algorithm.Auth. */
  function Auth(p: Primitives, alg: Alg, prefix: string, body: Bytes, key: Key): Result<Bytes, Error>
  {
    match alg
    case HmacSha3(_, h) => Hmac.Auth(p, h, prefix, body, key)
    case Ed25519 => EdDSA.Auth(p, prefix, body, key)
    case Foreign(_, auth, _) => auth(prefix, body, key)
  }

  /** Algorithm.Verify. */
  function Verify(p: Primitives, alg: Alg, prefix: string, body: Bytes, key: Key, tag: Bytes): Option<Error>
  {
    match alg
    case HmacSha3(_, h) => Hmac.Verify(p, h, prefix, body, key, tag)
    case Ed25519 => EdDSA.Verify(p, prefix, body, key, tag)
    case Foreign(_, _, verify) => verify(prefix, body, key, tag)
  }

  /** All the laws of the foreign functions the built-in algorithms rely on. */
  ghost predicate Laws(p: Primitives)
  {
    Hmac.Laws(p) && EdDSA.Laws(p) && DigestLaw(p)
  }

  /**
   * The signing key and the verification key belong together for a built-in
   * algorithm whose hash is available: the same []byte secret for HMAC, an
   * ed25519.PrivateKey and its public half for EdDSA.
   */
  predicate KeyPair(p: Primitives, alg: Alg, signKey: Key, verifyKey: Key)
  {
    match alg
    case HmacSha3(_, h) => p.available(h) && signKey.kind == RawBytes && verifyKey == signKey
    case Ed25519 =>
      && signKey.kind == Ed25519Private && |signKey.material| == EdDSA.PrivateKeySize
      && verifyKey == EdDSA.PublicKey(p, signKey.material)
    case Foreign(_, _, _) => false
  }

  /** Round trip for every built-in algorithm: Verify accepts what Auth produced. */
  lemma RoundTrip(p: Primitives, alg: Alg, prefix: string, body: Bytes, signKey: Key, verifyKey: Key)
    requires Laws(p) && KeyPair(p, alg, signKey, verifyKey)
    ensures Auth(p, alg, prefix, body, signKey).Success?
    ensures Verify(p, alg, prefix, body, verifyKey, Auth(p, alg, prefix, body, signKey).value) == None
  {
    match alg
    case HmacSha3(_, h) => Hmac.RoundTrip(p, h, prefix, body, signKey);
    case Ed25519 => EdDSA.RoundTrip(p, prefix, body, signKey.material);
  }

  function Zeros(n: nat): (r: Bytes)
    ensures |r| == n
  {
    seq(n, _ => 0 as byte)
  }

  /** The laws are consistent: some choice of primitives satisfies all of them. */
  lemma LawsSatisfiable()
    ensures exists p :: Laws(p)
  {
    var p := Primitives(
      h => true,
      (h, key, msg) => Zeros(HashSize(h)),
      (sk, msg) => Zeros(EdDSA.SignatureSize),
      (pk, msg, sig) => true,
      sk => Zeros(EdDSA.PublicKeySize),
      msg => Zeros(32));
    assert Laws(p);
  }

  /** The package's init functions, in file order: eddsa.go, then hmac.go. */
  method InitBuiltins(reg: Registry)
    requires reg.Valid()
    modifies reg
    ensures reg.Valid()
    ensures reg.algs == old(reg.algs)["EDDSA" := Ed25519]["HS256" := Hmac.HS256]
                          ["HS384" := Hmac.HS384]["HS512" := Hmac.HS512]
  {
    EdDSA.Init(reg);
    Hmac.Init(reg);
  }

  /** The name an algorithm is registered under is its own, and it fits in one wire field. */
  predicate CanonicalName(a: Alg)
  {
    ToUpper(a.Name()) == a.Name() && '.' !in a.Name()
  }

  /**
   * The built-in names are already upper-case, so each is registered under its
   * own name, and none contains a '.', so a token prefix stays one wire field.
   */
  lemma BuiltinNames(a: Alg)
    requires a == Hmac.HS256 || a == Hmac.HS384 || a == Hmac.HS512 || a == Ed25519
    ensures a == Hmac.HS256 ==> a.Name() == "HS256"
    ensures a == Hmac.HS384 ==> a.Name() == "HS384"
    ensures a == Hmac.HS512 ==> a.Name() == "HS512"
    ensures a == Ed25519 ==> a.Name() == "EDDSA"
    ensures CanonicalName(a)
  {
    if a == Hmac.HS256 {
      NamedCanonical(a, "HS256");
    } else if a == Hmac.HS384 {
      NamedCanonical(a, "HS384");
    } else if a == Hmac.HS512 {
      NamedCanonical(a, "HS512");
    } else {
      NamedCanonical(a, "EDDSA");
    }
  }

  /** Upper-case letters and digits only. */
  predicate UpperAlnum(s: string)
  {
    s == [] || (('A' <= s[0] <= 'Z' || '0' <= s[0] <= '9') && UpperAlnum(s[1..]))
  }

  lemma NamedCanonical(a: Alg, name: string)
    requires a.Name() == name && UpperAlnum(name)
    ensures CanonicalName(a)
  {
    UpperNameCanonical(name);
  }

  lemma {:induction false} UpperNameCanonical(s: string)
    requires UpperAlnum(s)
    ensures ToUpper(s) == s && '.' !in s
  {
    if s != [] {
      UpperNameCanonical(s[1..]);
      assert s == [s[0]] + s[1..];
    }
  }

  /** After init, each built-in name resolves, in any ASCII case, to its algorithm. */
  lemma BuiltinsResolve(algs: map<string, Alg>)
    requires "EDDSA" in algs && algs["EDDSA"] == Ed25519
    requires "HS256" in algs && algs["HS256"] == Hmac.HS256
    ensures Lookup(algs, "EdDSA") == Some(Ed25519)
    ensures Lookup(algs, "hs256") == Some(Hmac.HS256)
    ensures Lookup(algs, "HS256") == Some(Hmac.HS256)
  {
    ToUpperOfUpper("HS256");
    assert ToUpper("EdDSA") == "EDDSA";
    assert ToUpper("hs256") == "HS256";
  }
}
