# bwt in Dafny

A model of the Go package `bwt`, the Binary Web Token library. A token has three parts joined by dots:

- the prefix `BWT_<ALG>`;
- the base64url encoding of the msgpack-serialised claims;
- the base64url encoding of an authentication tag.

The tag covers the prefix together with the raw claims bytes.

The model covers the following:

- the algorithm registry, keyed by upper-cased name;
- the two built-in families:
  - HS256, HS384 and HS512, which are HMAC over SHA3;
  - EDDSA, which is pure Ed25519;
- key typing;
- the claim accessors for the `RegisteredClaims` struct and for the open `ClaimsMap`;
- token authentication;
- the validator, with its options, its rules and its cached clock (the first reading is kept for good: every later `Validate` on the same validator judges time at that instant, see `Validation.StaleInstantAcceptsExpired`);
- the parser:
  - `ParseUnverified`;
  - `ParseWithClaims`, with its ordered error stages;
  - the `Parse` shortcuts.

Modules, one per Go file (plus three supporting modules):

| module | file | Go file |
|---|---|---|
| `Wrappers`, `Errors`, `Text` | wrappers.dfy, errors.dfy, text.dfy | `Option`/`Result`; the sentinel errors, `errors.Join` and `errors.Is`; `[]byte(s)`, `strings.ToUpper`/`Split`/`Cut` |
| `Crypto` | crypto.dfy | crypto.go |
| `Hmac`, `EdDSA`, `Algorithms` | hmac.dfy, eddsa.dfy, algorithms.dfy | hmac.go, eddsa.go, and dispatch over the `Algorithm` interface |
| `ClaimsAccess` | claims.dfy | claims.go |
| `Bwt` | bwt.dfy | bwt.go |
| `Validation` | validator.dfy | validator.go |
| `Parsing` | parser.dfy | parser.go |
| `Example` | example.dfy | bwt_test.go |

How the Go features are modelled:

- **Foreign functions.** The cryptographic primitives (SHA3, HMAC, Ed25519) and the encoders (base64url, msgpack) are function-valued fields.
  - The primitives are in `Crypto.Primitives`; the encoders are in `Bwt.Codec`.
  - Each fact the library relies on is a predicate that the lemmas take as a precondition:
    - `Hmac.Laws`: a tag is as long as the digest;
    - `EdDSA.Laws`: a signature verifies under the matching public key;
    - `Bwt.Base64Laws`: decode inverts encode, and the alphabet has no `.`.
  - `Algorithms.LawsSatisfiable` shows that the primitives' laws assumed by `Algorithms.RoundTrip` (`Hmac.Laws`, `EdDSA.Laws` and `Crypto.DigestLaw`) can hold together.
  - `Example.CodecLawsSatisfiable` shows the same for the codec assumptions of `Example.TestBWT`: `Bwt.Base64Laws` together with `Example.CarriesTestClaims`.
- **Panics.** A Go panic is an explicit outcome:
  - `Access.Panics` for a failed type assertion or a nil receiver;
  - `Status.Panic` for a rule, `Validate` or `ParseWithClaims` that unwinds.
- **Errors.** Sentinel errors are `Errors.Kind`. `errors.Join` builds `Errors.Joined`, and `errors.Is` is `Errors.Is`.
- **Time.**
  - `time.Time` is an integer, and 0 is the zero time.
  - A clock is the sequence of its readings, one per call.
  - `wall` stands for `time.Now`.
- **Mutable objects.**
  - The registry, the token and the validator are classes whose methods update their fields.
  - Each method is proved against a pure function of the old state:
    - `Crypto.Registry.Register` against a map update;
    - `Validation.Validator.Validate` against `RunRules` and `Verdict`;
    - `Parsing.ParseUnverified` against `Unverify`;
    - `Parsing.Parser.ParseWithClaims` against `Check` and `Outcome`.
  - The properties are then proved about those functions.

## Model

| member | source | states |
|---|---|---|
| Text.Utf8 | hmac.go:51 | `[]byte(s)` of an ASCII string has one byte per character, each equal to the character's code |
| Text.ToUpper | crypto.go:59 | strings.ToUpper keeps the length, and maps each ASCII lower-case letter to upper case |
| Text.Split | parser.go:88 | the pieces contain no separator and join back to the input; there is exactly one piece iff the separator is absent |
| Text.Cut | parser.go:96 | found iff the separator occurs; if found, the input is before + sep + after with no separator in before; if not found, before is the whole input |
| Crypto.KeyAs | crypto.go:39-45 | succeeds iff the key's dynamic type is the requested one, returning the key unchanged; otherwise ErrInvalidKeyType |
| Crypto.WritesConcatenate | crypto.go:22-25 | writing chunks to a hash one after another is the same as writing their concatenation once |
| Crypto.KeyIDDigest | crypto.go:21-26 | KeyID is the encoding of the 32-byte SHA3-256 digest of the name bytes followed by the key material |
| Crypto.Lookup | crypto.go:64-68 | a name resolves iff its upper-cased form is registered, and it resolves to that entry |
| Crypto.LookupCaseInsensitive | crypto.go:64-68 | a name and its upper-cased form resolve to the same algorithm |
| Crypto.LookupAfterRegister | crypto.go:57-68 | after RegisterAlgorithm(a), every name with a's upper-cased form resolves to a, every other name resolves as before, and a's own name resolves to a |
| Crypto.Registry.constructor | crypto.go:54 | the registry starts empty |
| Crypto.Registry.Register | crypto.go:57-61 | stores the algorithm under its upper-cased name, replacing any earlier entry; every stored name stays upper-cased |
| Crypto.Registry.List | crypto.go:71-80 | returns every registered name exactly once (same count, membership iff registered, no duplicates), each upper-cased |
| Hmac.MacOfConcatenation | hmac.go:50-53 | the MAC over Write(prefix) followed by Write(body) is the HMAC of prefix bytes followed by body |
| Hmac.Verify | hmac.go:38-56 | guards in order: unavailable hash gives ErrHashUnavailable, a non-[]byte key gives ErrInvalidKeyType, a tag of the wrong length gives ErrTagInvalid; otherwise accepted iff the tag is the MAC of prefix and body, and a right-length tag that is not the MAC gives ErrWrongTag; only these sentinels or ErrWrongTag |
| Hmac.Auth | hmac.go:61-74 | same first two guards as Verify; otherwise the HMAC of prefix and body under a byte key of any length |
| Hmac.SameGuards | hmac.go:38-45 | whenever Auth fails, Verify fails with the same error, whatever the tag |
| Hmac.RoundTrip | hmac.go:38-74 | with an available hash and a byte key, Auth succeeds and Verify accepts its tag |
| Hmac.AcceptsOnlyAuthTag | hmac.go:38-74 | Verify accepts a tag iff Auth, with the same inputs, produces exactly that tag |
| Hmac.TagSizes | hmac.go:18-27 | HS256, HS384 and HS512 produce 32-, 48- and 64-byte tags |
| Hmac.Init | hmac.go:18-27 | init registers HS256, HS384 and HS512, in that order, under those names |
| EdDSA.Verify | eddsa.go:24-40 | guards in order: not an ed25519.PublicKey gives ErrInvalidKeyType, a key not 32 bytes long gives ErrInvalidKey, a tag not 64 bytes long gives ErrTagInvalid; otherwise accepted iff Ed25519 verifies prefix and body, and a signature that fails verification gives ErrWrongTag; only these sentinels or ErrWrongTag |
| EdDSA.Auth | eddsa.go:44-53 | not an ed25519.PrivateKey gives ErrInvalidKeyType, a key not 64 bytes long gives ErrInvalidKey; otherwise the pure Ed25519 signature of prefix and body |
| EdDSA.RoundTrip | eddsa.go:24-53 | a signature from Auth with a 64-byte private key passes Verify under the matching public key |
| EdDSA.Init | eddsa.go:13-16 | init registers EDDSA |
| Algorithms.RoundTrip | crypto.go:13-17 | for every built-in algorithm and matching key pair, Verify accepts what Auth produced |
| Algorithms.LawsSatisfiable | crypto.go:13-17 | some choice of primitives satisfies `Hmac.Laws`, `EdDSA.Laws` and `Crypto.DigestLaw`, the laws `Algorithms.RoundTrip` assumes |
| Algorithms.BuiltinNames | hmac.go:18-34 | HS256, HS384, HS512 and EDDSA (eddsa.go:20) are named as registered; each name is its own upper-case form and contains no '.', so it is stored under itself and the prefix stays one wire field |
| Algorithms.InitBuiltins | eddsa.go:13-16 | the package's init functions (eddsa.go, then hmac.go) register EDDSA, HS256, HS384 and HS512 |
| Algorithms.BuiltinsResolve | crypto.go:64-68 | after init, "EdDSA", "hs256" and "HS256" resolve to the built-in algorithms |
| ClaimsAccess.MapValue | claims.go:65-72 | a missing key gives the zero value; a present key gives its value if it has the requested type, and panics otherwise |
| ClaimsAccess.Str | claims.go:79-81 | reads s iff the key is missing and s is "", or the key holds the string s; panics iff the key holds a non-string |
| ClaimsAccess.TimeOf | claims.go:74-76 | reads t iff the key is missing and t is the zero time, or the key holds the time t; panics iff the key holds a non-time |
| ClaimsAccess.Strs | claims.go:84-86 | reads ss iff the key is missing and ss is empty, or the key holds the list ss; panics iff the key holds a non-list |
| ClaimsAccess.RegisteredGetters | claims.go:41-47 | the seven RegisteredClaims getters return their fields and never panic |
| ClaimsAccess.EmptyMapReadsZero | claims.go:88-94 | a ClaimsMap without any well-known key, the nil map included, reads as "", the zero time and the empty list |
| ClaimsAccess.MapGettersIgnoreOtherKeys | claims.go:88-94 | adding or changing an entry whose key is not well-known changes no getter's result |
| ClaimsAccess.ClaimsAsMap | claims.go:50-58 | non-nil iff the claims are a non-nil ClaimsMap, or a non-nil *ClaimsMap pointing to a non-nil map, and then it is that map; nil for every other Claims, including a nil map reached either way |
| ClaimsAccess.AsMapAgreesWithGetters | claims.go:88-94 | for map-backed claims, each of the seven getters (kid, exp, iat, nbf, iss, sub, aud) reads the value stored under its key in the map ClaimsAsMap returns, with the zero value for a missing key and a panic for a value of another type |
| Bwt.PrefixOf | bwt.go:45-47 | the prefix cuts at its first '_' into "BWT" and the algorithm name; it contains '.' iff the name does |
| Bwt.AssembledSplits | bwt.go:41 | a wire string with a dot-free prefix splits into the prefix and the two encodings, and each encoding decodes back |
| Bwt.Token.New | bwt.go:14-19 | a new token has the given algorithm and claims and no tag |
| Bwt.Token.Empty | parser.go:93 | new(Token) has every field nil |
| Bwt.Token.Authenticate | bwt.go:29-42 | marshal failure returns its error and leaves the tag; Auth failure returns its error and clears the tag; otherwise stores the tag and returns prefix "." Encode(body) "." Encode(tag) |
| Validation.ErrorIfFalse | validator.go:190-195 | nil iff the value holds, otherwise the given sentinel |
| Validation.ErrorIfRequired | validator.go:197-202 | nil iff not required, otherwise an error that Is ErrTokenRequiredClaimMissing |
| Validation.Validator.constructor | validator.go:51-58 | NewValidator applies the options in order to a zero Validator, which has no cached time |
| Validation.Validator.With | validator.go:61-79 | one option sets the leeway, sets the time function, or appends a rule; nothing else changes |
| Validation.Validator.Now | validator.go:26-35 | a cached non-zero time is returned unchanged; otherwise time.Now is installed if no clock is set, the clock is read once, and the reading is cached and returned |
| Validation.Validator.PTime | validator.go:38 | the current time (through Now) minus the leeway |
| Validation.Validator.FTime | validator.go:41 | the current time (through Now) plus the leeway |
| Validation.Validator.ApplyRule | validator.go:102-188 | running one rule's closure equals the rule's specification; the clock is read only by a time rule whose claim is present |
| Validation.ScanAudience | validator.go:147-154 | result iff the expected audience is in the list; nonEmpty iff some entry is non-empty |
| Validation.Validator.Validate | validator.go:83-98 | runs every rule in order, leaving the clock state as the specification says, and returns the verdict: panic, nil, or the join of every failure with the claims' own check last |
| Validation.PanicIsFinal | validator.go:85-89 | once a rule panics, no later rule runs |
| Validation.ClockIrrelevant | validator.go:102-188 | a rule that does not need the time gives the same verdict at every instant |
| Validation.SingleInstant | validator.go:26-35 | every time rule of one Validate call sees the same instant; the clock is read at most once; a cached time, even from an earlier call, is reused without reading the clock |
| Validation.StaleInstantAcceptsExpired | validator.go:26-35 | after a first Validate has read time t0, a second Validate on the same validator still judges exp at t0, and accepts a token that the clock's next reading would find expired |
| Validation.FailuresAppend | validator.go:86-88 | collecting one more verdict appends its error exactly when it failed |
| Validation.FailuresComplete | validator.go:86-88 | the error of every failing rule is among the collected failures |
| Validation.FailuresEmpty | validator.go:86-88 | no failures are collected iff no rule failed |
| Validation.TallyWithoutPanic | validator.go:84-89 | with no panic, the loop collects exactly the failures in rule order |
| Validation.TallyPanics | validator.go:84-89 | the loop ends in a panic iff some rule panics |
| Validation.ValidateVerdict | validator.go:83-98 | Validate panics if some rule panics; otherwise it gives nil when nothing failed, and otherwise the join of every failure in rule order followed by the claims' own error |
| Validation.ValidateOkIff | validator.go:83-98 | Validate returns nil iff every rule passes at the run's instant and the claims' own Validate() passes |
| Validation.ValidateReportsEveryFailure | validator.go:85-89 | with no panic, the result Is every sentinel that any failing rule's error Is; validation does not stop at the first failure |
| Validation.ValidateReportsSelfCheck | validator.go:91-95 | with no panic, the result Is every sentinel that the claims' own failing Validate() Is |
| Validation.RulesInAppend | validator.go:75-79 | one more option adds a rule exactly when it is WithValidator |
| Validation.ConfigureRules | validator.go:51-58 | the configured rules are exactly the WithValidator options, in option order |
| Validation.DefaultLeeway | validator.go:51-65 | without WithLeeway the leeway is 0 |
| Validation.LastLeewayWins | validator.go:61-65 | the last WithLeeway decides the leeway |
| Validation.DefaultTimeFunc | validator.go:51-72 | without WithTimeFunc no clock is set (Now will use time.Now) |
| Validation.LastTimeFuncWins | validator.go:68-72 | the last WithTimeFunc decides the clock |
| Validation.ExpirationRule | validator.go:102-110 | passes iff exp is absent and not required, or now - leeway is before exp; present and failing gives ErrTokenExpired; absent and failing Is ErrTokenRequiredClaimMissing |
| Validation.IssuedAtRule | validator.go:114-123 | passes iff iat is absent and not required, or now + leeway is not before iat; present and failing gives ErrTokenUsedBeforeIssued; absent and failing Is ErrTokenRequiredClaimMissing |
| Validation.NotBeforeRule | validator.go:127-136 | passes iff nbf is absent and not required, or now + leeway is not before nbf; present and failing gives ErrTokenNotValidYet; absent and failing Is ErrTokenRequiredClaimMissing |
| Validation.AudienceRule | validator.go:140-162 | an empty or all-empty list counts as absent; passes iff absent and not required, or the expected audience is present; present and failing gives ErrTokenInvalidAudience; absent and failing Is ErrTokenRequiredClaimMissing |
| Validation.IssuerRule | validator.go:166-175 | passes iff iss is empty and not required, or iss equals the expected issuer; mismatch gives ErrTokenInvalidIssuer; empty and failing Is ErrTokenRequiredClaimMissing |
| Validation.SubjectRule | validator.go:179-188 | passes iff sub is empty and not required, or sub equals the expected subject; mismatch gives ErrTokenInvalidSubject; empty and failing Is ErrTokenRequiredClaimMissing |
| Validation.PanickingGetterPanics | validator.go:102-188 | a built-in rule whose getter panics panics |
| Parsing.KeyfuncFrom | parser.go:31-35 | the Keyfunc returns the same key for every token |
| Parsing.Unverify | parser.go:87-116 | raw parts are the '.'-split of the input; a nil token comes only with ErrTokenMalformed; with three parts, a first part that has no '_', a type other than "BWT" or an empty name gives a nil token and ErrTokenMalformed; a non-nil token means the prefix cut cleanly and its algorithm is the lookup of the name; conversely a clean prefix always gives a non-nil token, an unknown algorithm gives ErrTokenUnverifiable, and a known one gives no error iff the body decodes and unmarshals, otherwise an error that Is exactly ErrTokenMalformed and whatever the decode or unmarshal error Is; every other error Is ErrTokenMalformed; success means a resolved algorithm and claims unmarshalled from the decoded body |
| Parsing.Resolve | parser.go:100-115 | an unresolved algorithm gives ErrTokenUnverifiable; with a resolved algorithm, no error iff the body decodes and unmarshals, and a decode or unmarshal failure gives an error that Is exactly ErrTokenMalformed and whatever the cause Is; success carries the decoded claims bytes and the filled claims |
| Parsing.Check | parser.go:45-68 | success requires a Keyfunc, three parts, an algorithm, claims and a tag decoded from the third part; without a Keyfunc the error Is ErrTokenMalformed or ErrTokenUnverifiable |
| Parsing.CheckTag | parser.go:51-68 | stages in order, each error the join of the stage sentinel and its cause: a tag decode failure Is exactly ErrTokenMalformed and what the decode error Is; a missing Keyfunc Is exactly ErrTokenUnverifiable; a Keyfunc error Is exactly ErrTokenUnverifiable and what the Keyfunc's error Is; past those, success iff the algorithm's Verify accepts, and its failure Is exactly ErrTokenTagInvalid and what Verify's error Is |
| Parsing.ParseUnverified | parser.go:87-116 | returns the token, raw data and error that Unverify specifies, prefix stage included; a non-nil token is fresh |
| Parsing.Parser.constructor | parser.go:16-24 | the first validator given, possibly nil, or else a fresh validator with no options |
| Parsing.Parser.ParseWithClaims | parser.go:45-78 | the token and error that Check specifies; the validator runs only when the tag checks out, and its failure is joined with ErrTokenInvalidClaims |
| Parsing.Parser.Parse | parser.go:39-41 | ParseWithClaims into new(ClaimsMap), a pointer to a nil map: the token and error that Check specifies; the validator is unchanged on a parse error, and otherwise keeps its leeway and rules and ends in the clock state of its run |
| Parsing.ParseWithClaims | parser.go:124-126 | a fresh token as Check specifies; with no validator given, a validator with no rules still runs the claims' own check; with a nil validator nothing is validated; otherwise the given validator decides, is unchanged on a parse error, and otherwise keeps its leeway and rules and ends in the clock state of its run, which later calls see |
| Parsing.Parse | parser.go:119-121 | the same, into new(ClaimsMap) |
| Parsing.WireRoundTrip | parser.go:45-116 | what Authenticate produces for a built-in algorithm parses back, with the matching key, into the same algorithm, the unmarshalled claims and the tag, with no error |
| Parsing.AcceptedMeansVerified | parser.go:45-68 | an accepted token has three parts and a "BWT" prefix naming its algorithm; its claims and tag are decoded from the wire; and its Verify accepted the tag over the canonical prefix and the claims bytes, with the Keyfunc's key |
| Parsing.HmacAcceptedMeansAuthentic | parser.go:65-68 | for HMAC, an accepted tag is exactly what Auth computes with the Keyfunc's key |
| Parsing.ForgedHmacTagIsWrongTag | parser.go:65-68 | a right-length HMAC tag that is not the MAC under the Keyfunc's key makes the parse error Is both ErrTokenTagInvalid and ErrWrongTag (hmac.go:53-54) |
| Parsing.WireParts | parser.go:88-99 | a wire string built from dot-free pieces splits into its three parts, and its prefix cuts into "BWT" and the name |
| Parsing.UnverifyCaseInsensitive | parser.go:96-102 | ParseUnverified depends only on the upper-cased algorithm name |
| Parsing.PrefixCaseInsensitive | parser.go:65 | the tag covers the canonical prefix, so wire strings whose names differ only in letter case give the same token and error |
| Parsing.UnknownAlgorithmUnverifiable | parser.go:100-102 | a well-formed string naming an unregistered algorithm gives ErrTokenUnverifiable with a non-nil, empty token |
| Parsing.KeyfuncSeesCompleteToken | parser.go:58-64 | the Keyfunc is consulted only on a token whose algorithm, claims and tag are set |
| Parsing.NotThreePartsMalformed | parser.go:88-91 | a string that does not split into three parts gives ErrTokenMalformed and a nil token |
| Example.NameIsJohnDoe | bwt_test.go:33-41 | the test's custom rule passes iff the claims are a map whose "name" is "John Doe" |
| Example.TestOptionsConfigure | bwt_test.go:30-42 | the test's options configure its three rules, with no leeway and no clock |
| Example.TestRulesPass | bwt_test.go:30-42 | every rule of the test passes on the test claims once the clock is past iat |
| Example.Issue | bwt_test.go:13-23 | the HS256 token over the test claims authenticates, and its wire string passes the tag check with the same secret |
| Example.InitRegistry | bwt_test.go:13 | after init, HS256 resolves |
| Example.TestValidator | bwt_test.go:30-42 | the test's validator holds its rules, with no leeway and no clock |
| Example.Reparse | bwt_test.go:30-46 | a string that passes the tag check, with claims the validator accepts, parses back without error, carrying those claims |
| Example.TestBWT | bwt_test.go:12-49 | with working primitives and codecs and a clock past iat, the token authenticates and parses back with no error, carrying the test claims |
| Example.CodecLawsSatisfiable | bwt.go:50-61 | some base64url and msgpack stand-in satisfies both `Bwt.Base64Laws` (decode inverts encode, no '.' in the alphabet) and `Example.CarriesTestClaims`, so the assumptions of `Example.TestBWT` can hold together |

## Left out

- The `sync.RWMutex` around the registry, and concurrent use of a Validator's cached `now`: the model is sequential.
- The registry is an explicit `Registry` instance passed to the parser, rather than a package-level variable.
- HMAC, SHA3, Ed25519, base64url and msgpack are foreign functions. Only the laws above are assumed of them, so a property that needs more, such as collision resistance (needed for tamper detection of the body), is not stated.
- Hash availability is a parameter. The timing behaviour of `hmac.Equal` and `subtle.ConstantTimeCompare` is not modelled: only their results are.
- `crypto/rand` is not modelled: the secret in the test is a parameter, and pure Ed25519 signing needs no randomness.
- Text.ToUpper: does not model Unicode case mapping. Only ASCII letters change, so names with non-ASCII letters may resolve differently than in Go.
- Parsing.Unverify: on a base64 decode failure Go keeps the partial bytes in `Raw.Claims`, while the model leaves them empty.
- Parsing.CheckTag: on a tag decode failure Go stores the partially decoded bytes in `token.Tag`, while the model leaves the tag empty; the codec's `decode` returns either bytes or an error.
- A caller's `Algorithm` whose `Auth` returns a tag together with an error stores that tag in Go. The model's `Foreign` algorithms return either a tag or an error, so `Bwt.Token.Authenticate` clears the tag on failure.
- Custom rules (`WithValidator`) receive only the claims, not the `*Validator`. A custom rule that reads or changes the validator's clock is not modelled.
- The claims container is a value: the aliasing between the container passed to `ParseWithClaims` and `token.Claims` is not modelled. Nor is a Keyfunc that mutates the token.
- `time.Time` is an integer and `time.Duration` an integer leeway. Monotonic clock readings, time zones and overflow of `Add` are not modelled. The zero instant 0 stands for the zero `time.Time`, so a real reading of 0 behaves as the zero time.
- `New` with a nil algorithm, and `Prefix` with a nil algorithm (a Go panic): `Bwt.Token.New` takes an algorithm, and `Bwt.Token.Prefix` requires one.
- The type of a ClaimsMap entry is the closed `ClaimsAccess.Value`. A msgpack-decoded `aud` array (`[]any` in Go) stored as a value that is not `VStrings` makes `GetAudience` panic, which the model reflects. Which Go types msgpack actually produces is a property of the codec, and is left to `Bwt.Codec.unmarshal`.
- `Encode`, `Decode` and `Body` (bwt.go:50-62) are the codec's fields, not members with contracts of their own.
- The test's `t.Log` calls, including `KeyID` logging, are output only.
