/**
 * eddsa.go: the signature family EDDSA (Ed25519, RFC 8032). Verify checks,
 * in order, the key's type, the public key's length and the tag's length,
 * then the signature over prefix || body; Auth checks the key's type and the
 * private key's length, then signs prefix || body with pure Ed25519.
 */
module EdDSA {
  import opened Wrappers
  import opened Errors
  import opened Text
  import opened Crypto

  const PublicKeySize: nat := 32
  const PrivateKeySize: nat := 64
  const SignatureSize: nat := 64

  /**
   * Ed25519 correctness: a signature made with a 64-byte private key has 64
   * bytes and verifies under that key's 32-byte public half.
   */
  ghost predicate Laws(p: Primitives)
  {
    && (forall sk, msg | |sk| == PrivateKeySize :: |p.sign(sk, msg)| == SignatureSize)
    && (forall sk | |sk| == PrivateKeySize :: |p.publicOf(sk)| == PublicKeySize)
    && (forall sk, msg | |sk| == PrivateKeySize :: p.verify(p.publicOf(sk), msg, p.sign(sk, msg)))
  }

  /** append([]byte(prefix), body...). */
  function Message(prefix: string, body: Bytes): Bytes
  {
    Utf8(prefix) + body
  }

  /** algoEd25519.Verify. */
  function Verify(p: Primitives, prefix: string, body: Bytes, key: Key, tag: Bytes): (r: Option<Error>)
    ensures key.kind != Ed25519Public ==> r == Some(Sentinel(InvalidKeyType))
    ensures key.kind == Ed25519Public && |key.material| != PublicKeySize ==> r == Some(Sentinel(InvalidKey))
    ensures key.kind == Ed25519Public && |key.material| == PublicKeySize && |tag| != SignatureSize ==>
              r == Some(Sentinel(TagInvalid))
    ensures key.kind == Ed25519Public && |key.material| == PublicKeySize && |tag| == SignatureSize ==>
              (r == None <==> p.verify(key.material, Message(prefix, body), tag))
    ensures key.kind == Ed25519Public && |key.material| == PublicKeySize && |tag| == SignatureSize ==>
              (!p.verify(key.material, Message(prefix, body), tag) ==> r == Some(Sentinel(WrongTag)))
    ensures r.Some? ==> r.value.Sentinel? && r.value.kind in {InvalidKeyType, InvalidKey, TagInvalid, WrongTag}
  {
    match KeyAs(key, Ed25519Public)
    case Failure(e) => Some(e)
    case Success(k) =>
      if |k.material| != PublicKeySize then Some(Sentinel(InvalidKey))
      else if |tag| != SignatureSize then Some(Sentinel(TagInvalid))
      else if !p.verify(k.material, Message(prefix, body), tag) then Some(Sentinel(WrongTag))
      else None
  }

  /** algoEd25519.Auth: ed25519Key.Sign(rand, prefix || body, crypto.Hash(0)), i.e. pure Ed25519. */
  function Auth(p: Primitives, prefix: string, body: Bytes, key: Key): (r: Result<Bytes, Error>)
    ensures key.kind != Ed25519Private ==> r == Failure(Sentinel(InvalidKeyType))
    ensures key.kind == Ed25519Private && |key.material| != PrivateKeySize ==> r == Failure(Sentinel(InvalidKey))
    ensures key.kind == Ed25519Private && |key.material| == PrivateKeySize ==>
              r == Success(p.sign(key.material, Message(prefix, body)))
  {
    match KeyAs(key, Ed25519Private)
    case Failure(e) => Failure(e)
    case Success(k) =>
      if |k.material| != PrivateKeySize then Failure(Sentinel(InvalidKey))
      else Success(p.sign(k.material, Message(prefix, body)))
  }

  /** The public key matching a private key, as an ed25519.PublicKey value. */
  function PublicKey(p: Primitives, sk: Bytes): Key
  {
    Key(Ed25519Public, p.publicOf(sk))
  }

  /** Round trip: a signature from Auth passes Verify under the matching public key. */
  lemma RoundTrip(p: Primitives, prefix: string, body: Bytes, sk: Bytes)
    requires Laws(p) && |sk| == PrivateKeySize
    ensures Auth(p, prefix, body, Key(Ed25519Private, sk)).Success?
    ensures Verify(p, prefix, body, PublicKey(p, sk), Auth(p, prefix, body, Key(Ed25519Private, sk)).value) == None
  {
  }

  /** eddsa.go's init: register EDDSA. */
  method Init(reg: Registry)
    requires reg.Valid()
    modifies reg
    ensures reg.Valid()
    ensures reg.algs == old(reg.algs)["EDDSA" := Ed25519]
  {
    ToUpperOfUpper("EDDSA");
    reg.Register(Ed25519);
  }
}
