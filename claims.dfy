/**
 * claims.go: the seven claim accessors, the fixed RegisteredClaims record,
 * and the open ClaimsMap read through the well-known keys.
 *
 * A Go type assertion that fails panics; every accessor therefore returns
 * an Access, which is either the value read or Panics. Times are integers
 * and 0 is the zero time.
 */
module ClaimsAccess {
  import opened Wrappers
  import opened Errors

  /** time.Time as an integer instant; 0 is the zero time. */
  type Time = int

  const KeyIDKey: string := "kid"
  const ExpirationTimeKey: string := "exp"
  const IssuedAtKey: string := "iat"
  const NotBeforeKey: string := "nbf"
  const IssuerKey: string := "iss"
  const SubjectKey: string := "sub"
  const AudienceKey: string := "aud"

  const WellKnownKeys: set<string> :=
    {KeyIDKey, ExpirationTimeKey, IssuedAtKey, NotBeforeKey, IssuerKey, SubjectKey, AudienceKey}

  /** A value stored in a ClaimsMap, by its dynamic Go type. */
  datatype Value =
    | VString(s: string)
    | VTime(t: Time)
    | VStrings(ss: seq<string>)
    | VOther(goType: string)

  datatype RegisteredClaims = RegisteredClaims(
    kid: string, exp: Time, iat: Time, nbf: Time, iss: string, sub: string, aud: seq<string>)

  /** What an accessor does: return a value, or panic on a failed type assertion or nil pointer. */
  datatype Access<+T> = Read(value: T) | Panics

  /** A ClaimsMap: nil, or a map. A nil map reads as one without entries. */
  datatype ClaimsMap = NilMap | MapOf(entries: map<string, Value>)
  {
    /** What a read of the map sees. */
    function Contents(): map<string, Value>
    {
      if NilMap? then map[] else entries
    }
  }

  /** A Claims value, by its dynamic Go type. */
  datatype Claims =
    | Registered(fields: RegisteredClaims)              // RegisteredClaims
    | RegisteredRef(ptr: Option<RegisteredClaims>)     // *RegisteredClaims, possibly nil
    | Map(cm: ClaimsMap)                               // ClaimsMap, possibly nil
    | MapRef(ref: Option<ClaimsMap>)                   // *ClaimsMap, possibly nil
    | SelfValidating(base: RegisteredClaims, selfCheck: Option<Error>)
      // a caller's type that also implements ClaimsValidator; selfCheck is what its Validate() returns

  /** MapValue[V](m, key): the zero value when key is missing, else the value asserted to V. */
  function MapValue<V>(m: map<string, Value>, key: string, cast: Value -> Option<V>, zero: V): (r: Access<V>)
    ensures key !in m ==> r == Read(zero)
    ensures key in m ==> (r == Panics <==> cast(m[key]).None?)
    ensures key in m && cast(m[key]).Some? ==> r == Read(cast(m[key]).value)
  {
    if key !in m then Read(zero)
    else match cast(m[key])
      case None => Panics
      case Some(v) => Read(v)
  }

  function AsString(v: Value): Option<string>
  {
    if v.VString? then Some(v.s) else None
  }

  function AsTime(v: Value): Option<Time>
  {
    if v.VTime? then Some(v.t) else None
  }

  function AsStrings(v: Value): Option<seq<string>>
  {
    if v.VStrings? then Some(v.ss) else None
  }

  /** ClaimsMap.Str. */
  function Str(m: map<string, Value>, key: string): (r: Access<string>)
    ensures forall s :: r == Read(s) <==> (key !in m && s == "") || (key in m && m[key] == VString(s))
    ensures r == Panics <==> key in m && !m[key].VString?
  {
    MapValue(m, key, AsString, "")
  }

  /** ClaimsMap.Time. */
  function TimeOf(m: map<string, Value>, key: string): (r: Access<Time>)
    ensures forall t :: r == Read(t) <==> (key !in m && t == 0) || (key in m && m[key] == VTime(t))
    ensures r == Panics <==> key in m && !m[key].VTime?
  {
    MapValue(m, key, AsTime, 0)
  }

  /** ClaimsMap.Strs. */
  function Strs(m: map<string, Value>, key: string): (r: Access<seq<string>>)
    ensures forall ss :: r == Read(ss) <==> (key !in m && ss == []) || (key in m && m[key] == VStrings(ss))
    ensures r == Panics <==> key in m && !m[key].VStrings?
  {
    MapValue(m, key, AsStrings, [])
  }

  /** How a Claims value answers its accessors: from a struct, from a map, or by panicking on nil. */
  datatype Shape = StructShape(f: RegisteredClaims) | MapShape(m: map<string, Value>) | NilShape

  function ShapeOf(c: Claims): Shape
  {
    match c
    case Registered(f) => StructShape(f)
    case RegisteredRef(p) => if p.Some? then StructShape(p.value) else NilShape
    case Map(cm) => MapShape(cm.Contents())
    case MapRef(r) => if r.Some? then MapShape(r.value.Contents()) else NilShape
    case SelfValidating(f, _) => StructShape(f)
  }

  function StrClaim(c: Claims, key: string, field: RegisteredClaims -> string): Access<string>
  {
    match ShapeOf(c)
    case StructShape(f) => Read(field(f))
    case MapShape(m) => Str(m, key)
    case NilShape => Panics
  }

  function TimeClaim(c: Claims, key: string, field: RegisteredClaims -> Time): Access<Time>
  {
    match ShapeOf(c)
    case StructShape(f) => Read(field(f))
    case MapShape(m) => TimeOf(m, key)
    case NilShape => Panics
  }

  function GetKeyID(c: Claims): Access<string> { StrClaim(c, KeyIDKey, (f: RegisteredClaims) => f.kid) }
  function GetExpirationTime(c: Claims): Access<Time> { TimeClaim(c, ExpirationTimeKey, (f: RegisteredClaims) => f.exp) }
  function GetIssuedAt(c: Claims): Access<Time> { TimeClaim(c, IssuedAtKey, (f: RegisteredClaims) => f.iat) }
  function GetNotBefore(c: Claims): Access<Time> { TimeClaim(c, NotBeforeKey, (f: RegisteredClaims) => f.nbf) }
  function GetIssuer(c: Claims): Access<string> { StrClaim(c, IssuerKey, (f: RegisteredClaims) => f.iss) }
  function GetSubject(c: Claims): Access<string> { StrClaim(c, SubjectKey, (f: RegisteredClaims) => f.sub) }

  function GetAudience(c: Claims): Access<seq<string>>
  {
    match ShapeOf(c)
    case StructShape(f) => Read(f.aud)
    case MapShape(m) => Strs(m, AudienceKey)
    case NilShape => Panics
  }

  /** The RegisteredClaims getters return their fields unchanged and never panic. */
  lemma RegisteredGetters(f: RegisteredClaims)
    ensures GetKeyID(Registered(f)) == Read(f.kid)
    ensures GetExpirationTime(Registered(f)) == Read(f.exp)
    ensures GetIssuedAt(Registered(f)) == Read(f.iat)
    ensures GetNotBefore(Registered(f)) == Read(f.nbf)
    ensures GetIssuer(Registered(f)) == Read(f.iss)
    ensures GetSubject(Registered(f)) == Read(f.sub)
    ensures GetAudience(Registered(f)) == Read(f.aud)
  {
  }

  /** A ClaimsMap missing every well-known key, the nil map included, reads as the zero values. */
  lemma EmptyMapReadsZero(cm: ClaimsMap)
    requires forall k | k in cm.Contents() :: k !in WellKnownKeys
    ensures GetKeyID(Map(cm)) == Read("") && GetIssuer(Map(cm)) == Read("") && GetSubject(Map(cm)) == Read("")
    ensures GetExpirationTime(Map(cm)) == Read(0) && GetIssuedAt(Map(cm)) == Read(0)
    ensures GetNotBefore(Map(cm)) == Read(0) && GetAudience(Map(cm)) == Read([])
  {
  }

  /** The ClaimsMap getters read only the well-known keys: any other entry never affects them. */
  lemma MapGettersIgnoreOtherKeys(m: map<string, Value>, k: string, v: Value)
    requires k !in WellKnownKeys
    ensures GetKeyID(Map(MapOf(m[k := v]))) == GetKeyID(Map(MapOf(m)))
    ensures GetExpirationTime(Map(MapOf(m[k := v]))) == GetExpirationTime(Map(MapOf(m)))
    ensures GetIssuedAt(Map(MapOf(m[k := v]))) == GetIssuedAt(Map(MapOf(m)))
    ensures GetNotBefore(Map(MapOf(m[k := v]))) == GetNotBefore(Map(MapOf(m)))
    ensures GetIssuer(Map(MapOf(m[k := v]))) == GetIssuer(Map(MapOf(m)))
    ensures GetSubject(Map(MapOf(m[k := v]))) == GetSubject(Map(MapOf(m)))
    ensures GetAudience(Map(MapOf(m[k := v]))) == GetAudience(Map(MapOf(m)))
  {
  }

  /**
   * ClaimsAsMap: the map of a ClaimsMap or of a non-nil *ClaimsMap; nil
   * (None) for anything else, and for a nil map reached either way.
   */
  function ClaimsAsMap(c: Claims): (r: Option<map<string, Value>>)
    ensures r.Some? <==> (c.Map? && c.cm.MapOf?) || (c.MapRef? && c.ref.Some? && c.ref.value.MapOf?)
    ensures c.Map? && c.cm.MapOf? ==> r == Some(c.cm.entries)
    ensures c.MapRef? && c.ref.Some? && c.ref.value.MapOf? ==> r == Some(c.ref.value.entries)
  {
    match c
    case Map(MapOf(m)) => Some(m)
    case MapRef(Some(MapOf(m))) => Some(m)
    case _ => None
  }

  /** Reading a claim through ClaimsAsMap agrees with the Claims accessor of a map-backed value. */
  lemma AsMapAgreesWithGetters(c: Claims)
    requires ClaimsAsMap(c).Some?
    ensures GetKeyID(c) == Str(ClaimsAsMap(c).value, KeyIDKey)
    ensures GetExpirationTime(c) == TimeOf(ClaimsAsMap(c).value, ExpirationTimeKey)
    ensures GetIssuedAt(c) == TimeOf(ClaimsAsMap(c).value, IssuedAtKey)
    ensures GetNotBefore(c) == TimeOf(ClaimsAsMap(c).value, NotBeforeKey)
    ensures GetIssuer(c) == Str(ClaimsAsMap(c).value, IssuerKey)
    ensures GetSubject(c) == Str(ClaimsAsMap(c).value, SubjectKey)
    ensures GetAudience(c) == Strs(ClaimsAsMap(c).value, AudienceKey)
  {
  }
}
