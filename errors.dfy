/**
 * The error values of the library: the sentinel errors declared in
 * crypto.go, hmac.go, validator.go and parser.go, free-text errors
 * (errors.New), and errors.Join. Message texts are kept only where the
 * library builds them itself.
 */
module Errors {

  /** One sentinel per `var ErrX = errors.New(...)` of the library. */
  datatype Kind =
    // crypto.go and hmac.go
    | InvalidKeyType
    | InvalidKey
    | TagInvalid
    | WrongTag
    | HashUnavailable
    // validator.go
    | TokenRequiredClaimMissing
    | TokenInvalidAudience
    | TokenExpired
    | TokenUsedBeforeIssued
    | TokenInvalidIssuer
    | TokenInvalidSubject
    | TokenNotValidYet
    // parser.go
    | TokenMalformed
    | TokenUnverifiable
    | TokenTagInvalid
    | TokenInvalidClaims

  /** A Go `error` that is not nil. */
  datatype Error =
    | Sentinel(kind: Kind)
    | Message(text: string)     // errors.New with a text of its own, or an opaque cause
    | Joined(errs: seq<Error>)  // errors.Join of the non-nil errors, in order

  /** errors.Is(e, k): the sentinel k occurs somewhere in the tree of e. */
  predicate Is(e: Error, k: Kind)
    decreases e
  {
    match e
    case Sentinel(k') => k' == k
    case Message(_) => false
    case Joined(errs) => exists i | 0 <= i < |errs| :: Is(errs[i], k)
  }

  /** errors.Join(a, b) with both arguments non-nil. */
  function Join2(a: Error, b: Error): (r: Error)
    ensures forall k :: Is(r, k) <==> Is(a, k) || Is(b, k)
  {
    assert [a, b][0] == a && [a, b][1] == b;
    Joined([a, b])
  }

  /**
   * What a step of the validator or the parser ends in: a nil error, a
   * non-nil error, or a Go panic that unwinds through the caller.
   */
  datatype Status = Ok | Err(error: Error) | Panic
}
