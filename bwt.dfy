/**
 * bwt.go: the Token, its prefix "BWT_" + algorithm name, and its wire form
 * prefix "." base64url(body) "." base64url(tag).
 *
 * base64url (section 5 of RFC 4648, without padding) and the msgpack codec
 * are not modelled: they are the fields of a Codec, and the properties the
 * wire format relies on are stated as Base64Laws.
 */
module Bwt {
  import opened Wrappers
  import opened Errors
  import opened Text
  import opened Crypto
  import opened ClaimsAccess
  import Algorithms

  /** The token type, "BWT". */
  const Type: string := "BWT"

  /**
   * The external encoders:
   *   encode / decode      Encode / Decode (base64.RawURLEncoding)
   *   marshal              msgpack.Marshal of the token's claims (nil claims included)
   *   unmarshal(b, into)   msgpack.Unmarshal(b, into): the container as filled, or the error
   */
  datatype Codec = Codec(
    encode: Bytes -> string,
    decode: string -> Result<Bytes, Error>,
    marshal: Option<Claims> -> Result<Bytes, Error>,
    unmarshal: (Bytes, Claims) -> Result<Claims, Error>)

  /** base64url decodes what it encoded, and its alphabet has no '.'. */
  ghost predicate Base64Laws(c: Codec)
  {
    && (forall b :: c.decode(c.encode(b)) == Success(b))
    && (forall b :: '.' !in c.encode(b))
  }

  /** Token.Prefix: Type + "_" + the algorithm's name. */
  function PrefixOf(alg: Alg): (r: string)
    ensures Cut(r, '_') == CutResult(Type, alg.Name(), true)
    ensures '.' in r <==> '.' in alg.Name()
  {
    CutAt(Type, alg.Name(), '_');
    Type + "_" + alg.Name()
  }

  /** The wire string: prefix "." Encode(body) "." Encode(tag). */
  function Assemble(prefix: string, body: Bytes, tag: Bytes, encode: Bytes -> string): string
  {
    prefix + "." + encode(body) + "." + encode(tag)
  }

  /**
   * A wire string whose prefix has no '.' splits on '.' into exactly the
   * prefix and the two encodings, and each encoding decodes back.
   */
  lemma AssembledSplits(c: Codec, prefix: string, body: Bytes, tag: Bytes)
    requires Base64Laws(c) && '.' !in prefix
    ensures Split(Assemble(prefix, body, tag, c.encode), '.') == [prefix, c.encode(body), c.encode(tag)]
    ensures c.decode(c.encode(body)) == Success(body)
    ensures c.decode(c.encode(tag)) == Success(tag)
  {
    SplitThree(prefix, c.encode(body), c.encode(tag), '.');
  }

  /** The fields of a Token, as a value. */
  datatype Fields = Fields(algorithm: Option<Alg>, claims: Option<Claims>, tag: Bytes)

  /** A BWT token. */
  class Token {
    var algorithm: Option<Alg>
    var claims: Option<Claims>
    var tag: Bytes

    /** New(alg, claims): a token with no tag yet. */
    constructor New(alg: Alg, claims: Claims)
      ensures algorithm == Some(alg) && this.claims == Some(claims) && tag == []
    {
      algorithm := Some(alg);
      this.claims := Some(claims);
      tag := [];
    }

    /** new(Token): every field nil. */
    constructor Empty()
      ensures algorithm == None && claims == None && tag == []
    {
      algorithm := None;
      claims := None;
      tag := [];
    }

    function View(): Fields
      reads this
    {
      Fields(algorithm, claims, tag)
    }

    /** Token.Prefix (a nil algorithm would panic). */
    function Prefix(): string
      reads this
      requires algorithm.Some?
    {
      PrefixOf(algorithm.value)
    }

    /**
     * Token.Authenticate: serialise the claims, compute the tag over the
     * prefix and the body, store it, and return the wire string.
     */
    method Authenticate(key: Key, codec: Codec, p: Primitives) returns (s: string, err: Option<Error>)
      requires algorithm.Some?
      modifies this`tag
      ensures codec.marshal(claims).Failure? ==>
                s == "" && err == Some(codec.marshal(claims).error) && tag == old(tag)
      ensures codec.marshal(claims).Success? ==>
                var body := codec.marshal(claims).value;
                var auth := Algorithms.Auth(p, algorithm.value, Prefix(), body, key);
                && (auth.Failure? ==> s == "" && err == Some(auth.error) && tag == [])
                && (auth.Success? ==> err == None && tag == auth.value
                                      && s == Assemble(Prefix(), body, tag, codec.encode))
    {
      var body := codec.marshal(claims);
      if body.Failure? {
        return "", Some(body.error);
      }
      var prefix := Prefix();
      var auth := Algorithms.Auth(p, algorithm.value, prefix, body.value, key);
      if auth.Failure? {
        tag := [];
        return "", Some(auth.error);
      }
      tag := auth.value;
      s := prefix + "." + codec.encode(body.value) + "." + codec.encode(tag);
      err := None;
    }
  }
}
