/**
 * hmac.go: the keyed-hash family HS256, HS384 and HS512 (HMAC over SHA3).
 * Both operations check, in order, hash availability and the key's type;
 * Verify then checks the tag length before any MAC is computed, and only a
 * length-correct tag is compared with the MAC of prefix || body.
 */
module Hmac {
  import opened Wrappers
  import opened Errors
  import opened Text
  import opened Crypto

  const HS256: Alg := HmacSha3("HS256", SHA3_256)
  const HS384: Alg := HmacSha3("HS384", SHA3_384)
  const HS512: Alg := HmacSha3("HS512", SHA3_512)

  /** HMAC-SHA3 yields as many bytes as the hash's digest. */
  ghost predicate Laws(p: Primitives)
  {
    forall h, key, msg :: |p.hmac(h, key, msg)| == HashSize(h)
  }

  /** hmac.New(h, key), Write(prefix), Write(body), Sum(nil). */
  function Mac(p: Primitives, h: HashFn, key: Bytes, prefix: string, body: Bytes): Bytes
  {
    p.hmac(h, key, Hasher([]).Write(Utf8(prefix)).Write(body).written)
  }

  /** The MAC is taken over the single message prefix || body. */
  lemma MacOfConcatenation(p: Primitives, h: HashFn, key: Bytes, prefix: string, body: Bytes)
    ensures Mac(p, h, key, prefix, body) == p.hmac(h, key, Utf8(prefix) + body)
  {
    assert [] + Utf8(prefix) + body == Utf8(prefix) + body;
  }

  /** hmacAlgo.Verify. */
  function Verify(p: Primitives, h: HashFn, prefix: string, body: Bytes, key: Key, tag: Bytes): (r: Option<Error>)
    ensures !p.available(h) ==> r == Some(Sentinel(HashUnavailable))
    ensures p.available(h) && key.kind != RawBytes ==> r == Some(Sentinel(InvalidKeyType))
    ensures p.available(h) && key.kind == RawBytes && |tag| != HashSize(h) ==> r == Some(Sentinel(TagInvalid))
    ensures p.available(h) && key.kind == RawBytes && |tag| == HashSize(h) ==>
              (r == None <==> tag == Mac(p, h, key.material, prefix, body))
    ensures p.available(h) && key.kind == RawBytes && |tag| == HashSize(h) && tag != Mac(p, h, key.material, prefix, body) ==>
              r == Some(Sentinel(WrongTag))
    ensures r.Some? ==> r.value.Sentinel? && r.value.kind in {HashUnavailable, InvalidKeyType, TagInvalid, WrongTag}
  {
    if !p.available(h) then Some(Sentinel(HashUnavailable))
    else match KeyAs(key, RawBytes)
      case Failure(e) => Some(e)
      case Success(k) =>
        if |tag| != HashSize(h) then Some(Sentinel(TagInvalid))
        else if tag != Mac(p, h, k.material, prefix, body) then Some(Sentinel(WrongTag))
        else None
  }

  /** hmacAlgo.Auth: the MAC of prefix || body under a byte key of any length. */
  function Auth(p: Primitives, h: HashFn, prefix: string, body: Bytes, key: Key): (r: Result<Bytes, Error>)
    ensures !p.available(h) ==> r == Failure(Sentinel(HashUnavailable))
    ensures p.available(h) && key.kind != RawBytes ==> r == Failure(Sentinel(InvalidKeyType))
    ensures p.available(h) && key.kind == RawBytes ==> r == Success(p.hmac(h, key.material, Utf8(prefix) + body))
  {
    if !p.available(h) then Failure(Sentinel(HashUnavailable))
    else match KeyAs(key, RawBytes)
      case Failure(e) => Failure(e)
      case Success(k) =>
        MacOfConcatenation(p, h, k.material, prefix, body);
        Success(Mac(p, h, k.material, prefix, body))
  }

  /** Auth and Verify fail alike on an unavailable hash or a key that is not []byte. */
  lemma SameGuards(p: Primitives, h: HashFn, prefix: string, body: Bytes, key: Key, tag: Bytes)
    ensures Auth(p, h, prefix, body, key).Failure? ==>
              Verify(p, h, prefix, body, key, tag) == Some(Auth(p, h, prefix, body, key).error)
  {
  }

  /** Round trip: a tag from Auth passes Verify with the same key, prefix and body. */
  lemma RoundTrip(p: Primitives, h: HashFn, prefix: string, body: Bytes, key: Key)
    requires Laws(p) && p.available(h) && key.kind == RawBytes
    ensures Auth(p, h, prefix, body, key).Success?
    ensures Verify(p, h, prefix, body, key, Auth(p, h, prefix, body, key).value) == None
  {
    MacOfConcatenation(p, h, key.material, prefix, body);
  }

  /** Verify accepts exactly the tag that Auth produces, and nothing else. */
  lemma AcceptsOnlyAuthTag(p: Primitives, h: HashFn, prefix: string, body: Bytes, key: Key, tag: Bytes)
    requires Laws(p)
    ensures Verify(p, h, prefix, body, key, tag) == None <==> Auth(p, h, prefix, body, key) == Success(tag)
  {
    MacOfConcatenation(p, h, key.material, prefix, body);
  }

  /** The three registered variants produce 32-, 48- and 64-byte tags. */
  lemma TagSizes(p: Primitives, prefix: string, body: Bytes, key: Bytes)
    requires Laws(p) && p.available(SHA3_256) && p.available(SHA3_384) && p.available(SHA3_512)
    ensures |Auth(p, HS256.hash, prefix, body, Key(RawBytes, key)).value| == 32
    ensures |Auth(p, HS384.hash, prefix, body, Key(RawBytes, key)).value| == 48
    ensures |Auth(p, HS512.hash, prefix, body, Key(RawBytes, key)).value| == 64
  {
  }

  /** hmac.go's init: register HS256, HS384 and HS512, in that order. */
  method Init(reg: Registry)
    requires reg.Valid()
    modifies reg
    ensures reg.Valid()
    ensures reg.algs == old(reg.algs)["HS256" := HS256]["HS384" := HS384]["HS512" := HS512]
  {
    ToUpperOfUpper("HS256");
    ToUpperOfUpper("HS384");
    ToUpperOfUpper("HS512");
    reg.Register(HS256);
    reg.Register(HS384);
    reg.Register(HS512);
  }
}
