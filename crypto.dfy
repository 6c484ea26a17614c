/**
 * crypto.go: the Algorithm interface, key typing (KeyAs), key identifiers
 * (KeyID) and the registry of algorithms by upper-cased name.
 *
 * The cryptographic functions the library calls (HMAC over SHA3, SHA3-256,
 * Ed25519) are not modelled: they are fields of `Primitives`, supplied by the
 * caller, and the facts the library relies on are stated as laws next to the
 * algorithm that needs them (Hmac.Laws, EdDSA.Laws, DigestLaw below).
 */
module Crypto {
  import opened Wrappers
  import opened Errors
  import opened Text

  /** The crypto.Hash values the library uses. */
  datatype HashFn = SHA3_256 | SHA3_384 | SHA3_512

  /** crypto.Hash.Size(): the digest length in bytes (FIPS 202). */
  function HashSize(h: HashFn): nat
  {
    match h
    case SHA3_256 => 32
    case SHA3_384 => 48
    case SHA3_512 => 64
  }

  /** The dynamic Go type of a key value. */
  datatype KeyKind =
    | RawBytes                 // []byte
    | Ed25519Public            // ed25519.PublicKey
    | Ed25519Private           // ed25519.PrivateKey
    | OtherType(name: string)  // any other type, nil included

  /** A key as passed through `any`: its dynamic type and its bytes. */
  datatype Key = Key(kind: KeyKind, material: Bytes)

  /** KeyAs[T](key): the key itself when its dynamic type is T, else ErrInvalidKeyType. */
  function KeyAs(key: Key, want: KeyKind): (r: Result<Key, Error>)
    ensures r.Success? <==> key.kind == want
    ensures r.Success? ==> r.value == key
    ensures r.Failure? ==> r.error == Sentinel(InvalidKeyType)
  {
    if key.kind == want then Success(key) else Failure(Sentinel(InvalidKeyType))
  }

  /**
   * The foreign functions the library calls:
   *   available(h)       crypto.Hash.Available()
   *   hmac(h, key, msg)  HMAC (RFC 2104) over the SHA3 function h (FIPS 202)
   *   sign(sk, msg)      pure Ed25519 signing, no pre-hash (section 5.1.6 of RFC 8032)
   *   verify(pk, msg, s) Ed25519 verification (section 5.1.7 of RFC 8032)
   *   publicOf(sk)       the public half of an Ed25519 private key
   *   sha3(msg)          SHA3-256
   */
  datatype Primitives = Primitives(
    available: HashFn -> bool,
    hmac: (HashFn, Bytes, Bytes) -> Bytes,
    sign: (Bytes, Bytes) -> Bytes,
    verify: (Bytes, Bytes, Bytes) -> bool,
    publicOf: Bytes -> Bytes,
    sha3: Bytes -> Bytes)

  /** SHA3-256 yields 32 bytes. */
  ghost predicate DigestLaw(p: Primitives)
  {
    forall m :: |p.sha3(m)| == 32
  }

  /**
   * A hash.Hash after some Write calls: the hash only sees the bytes written,
   * in order, and Sum is a function of them.
   */
  datatype Hasher = Hasher(written: Bytes)
  {
    function Write(b: Bytes): Hasher
    {
      Hasher(written + b)
    }
  }

  /** Concatenation of chunks. */
  function Flatten(chunks: seq<Bytes>): Bytes
  {
    if chunks == [] then [] else chunks[0] + Flatten(chunks[1..])
  }

  /** Write each chunk in turn. */
  function WriteAll(h: Hasher, chunks: seq<Bytes>): Hasher
    decreases chunks
  {
    if chunks == [] then h else WriteAll(h.Write(chunks[0]), chunks[1..])
  }

  /** Writing chunks one after another is writing their concatenation once. */
  lemma {:induction false} WritesConcatenate(h: Hasher, chunks: seq<Bytes>)
    ensures WriteAll(h, chunks) == h.Write(Flatten(chunks))
    decreases chunks
  {
    if chunks == [] {
      assert h.written + [] == h.written;
    } else {
      WritesConcatenate(h.Write(chunks[0]), chunks[1..]);
      assert h.written + chunks[0] + Flatten(chunks[1..]) == h.written + (chunks[0] + Flatten(chunks[1..]));
    }
  }

  /** KeyID(alg, material): base64url(SHA3-256(alg || material)), `encode` standing for Encode. */
  function KeyID(p: Primitives, encode: Bytes -> string, alg: string, material: Bytes): string
  {
    encode(p.sha3(Hasher([]).Write(Utf8(alg)).Write(material).written))
  }

  /** The identifier is the encoding of the digest of the name bytes followed by the key bytes. */
  lemma KeyIDDigest(p: Primitives, encode: Bytes -> string, alg: string, material: Bytes)
    requires DigestLaw(p)
    ensures KeyID(p, encode, alg, material) == encode(p.sha3(Utf8(alg) + material))
    ensures |p.sha3(Utf8(alg) + material)| == 32
  {
    assert [] + Utf8(alg) + material == Utf8(alg) + material;
  }

  /**
   * An Algorithm. The library has two families (hmac.go, eddsa.go); any other
   * implementation registered by a caller is Foreign, with its own behaviour.
   */
  datatype Alg =
    | HmacSha3(alg: string, hash: HashFn)
    | Ed25519
    | Foreign(
        name: string,
        auth: (string, Bytes, Key) -> Result<Bytes, Error>,
        verify: (string, Bytes, Key, Bytes) -> Option<Error>)
  {
    /** Algorithm.Name(). */
    function Name(): string
    {
      match this
      case HmacSha3(alg, _) => alg
      case Ed25519 => "EDDSA"
      case Foreign(name, _, _) => name
    }
  }

  /** GetAlgorithm over a given table: the entry under the upper-cased name, or nil. */
  function Lookup(algs: map<string, Alg>, name: string): (r: Option<Alg>)
    ensures r.Some? <==> ToUpper(name) in algs
    ensures r.Some? ==> r.value == algs[ToUpper(name)]
  {
    if ToUpper(name) in algs then Some(algs[ToUpper(name)]) else None
  }

  /** Lookup ignores ASCII case: a name and its upper-case form resolve alike. */
  lemma LookupCaseInsensitive(algs: map<string, Alg>, name: string)
    ensures Lookup(algs, name) == Lookup(algs, ToUpper(name))
  {
    ToUpperIdempotent(name);
  }

  /**
   * After registering a, every name that upper-cases to a's upper-cased name
   * resolves to a, and every other name resolves as it did before.
   */
  lemma LookupAfterRegister(algs: map<string, Alg>, a: Alg, name: string)
    ensures Lookup(algs[ToUpper(a.Name()) := a], name)
         == if ToUpper(name) == ToUpper(a.Name()) then Some(a) else Lookup(algs, name)
    ensures Lookup(algs[ToUpper(a.Name()) := a], a.Name()) == Some(a)
  {
  }

  /** The table of registered algorithms (registeredAlgs). */
  class Registry {
    var algs: map<string, Alg>

    /** Every stored name is upper-cased. */
    ghost predicate Valid()
      reads this
    {
      forall n | n in algs :: ToUpper(n) == n
    }

    /** An empty table. */
    constructor ()
      ensures Valid() && algs == map[]
    {
      algs := map[];
    }

    /** RegisterAlgorithm: store a under its upper-cased name; the last registration wins. */
    method Register(a: Alg)
      requires Valid()
      modifies this
      ensures Valid()
      ensures algs == old(algs)[ToUpper(a.Name()) := a]
    {
      ToUpperIdempotent(a.Name());
      algs := algs[ToUpper(a.Name()) := a];
    }

    /** GetAlgorithm. */
    function Get(name: string): Option<Alg>
      reads this
    {
      Lookup(algs, name)
    }

    /** ListAlgorithms: every stored name once, in the map's (unspecified) iteration order. */
    method List() returns (names: seq<string>)
      requires Valid()
      ensures |names| == |algs|
      ensures forall n :: n in names <==> n in algs
      ensures forall i, j | 0 <= i < j < |names| :: names[i] != names[j]
      ensures forall i | 0 <= i < |names| :: ToUpper(names[i]) == names[i]
    {
      names := [];
      var rest := algs.Keys;
      while rest != {}
        invariant rest <= algs.Keys
        invariant forall n :: n in names <==> n in algs.Keys - rest
        invariant forall i, j | 0 <= i < j < |names| :: names[i] != names[j]
        invariant |names| + |rest| == |algs.Keys|
        decreases rest
      {
        var n :| n in rest;
        assert n !in names;
        names := names + [n];
        rest := rest - {n};
      }
    }
  }
}
