/**
 * validator.go: a Validator holds an ordered list of rules, a leeway and a
 * clock whose first non-zero reading it caches in `now`. Validate runs every
 * rule, without stopping at the first failure, then the claims' own
 * Validate() when they have one, and joins every failure.
 *
 * A clock is the sequence of readings it gives, one per call; `wall` stands
 * for time.Now, which Now installs when no clock was configured.
 */
module Validation {
  import opened Wrappers
  import opened Errors
  import opened ClaimsAccess

  /** The i-th reading of a time source. */
  type Clock = nat -> Time

  /** A configured time function and how often it has been called so far. */
  datatype TimeFunc = TimeFunc(readings: Clock, calls: nat)

  /** The clock-related fields of a Validator: the cached `now` and `timeFunc`. */
  datatype TimeState = TimeState(now: Time, timeFunc: Option<TimeFunc>)

  /** The time function Now would call: the configured one, or time.Now. */
  function Source(ts: TimeState, wall: Clock): TimeFunc
  {
    if ts.timeFunc.Some? then ts.timeFunc.value else TimeFunc(wall, 0)
  }

  /** The reading the time function would give if it were called now. */
  function NextReading(ts: TimeState, wall: Clock): Time
  {
    var f := Source(ts, wall);
    f.readings(f.calls)
  }

  /** Validator.Now on the time state: the cached time, or a fresh reading that becomes the cache. */
  function Tick(ts: TimeState, wall: Clock): (Time, TimeState)
  {
    if ts.now != 0 then (ts.now, ts)
    else
      var f := Source(ts, wall);
      var t := f.readings(f.calls);
      (t, TimeState(t, Some(f.(calls := f.calls + 1))))
  }

  /** A validation rule, as the WithVerify*, WithRequireAudience and WithValidator options build them. */
  datatype Rule =
    | VerifyExpiration(required: bool)
    | VerifyIssuedAt(required: bool)
    | VerifyNotBefore(required: bool)
    | RequireAudience(required: bool, audience: string)
    | VerifyIssuer(required: bool, issuer: string)
    | VerifySubject(required: bool, subject: string)
    | Custom(check: Claims -> Status)

  /** ValidatorOption. */
  datatype ValidatorOption =
    | WithLeeway(leeway: int)
    | WithTimeFunc(f: Clock)
    | WithValidator(rule: Rule)

  /** errorIfFalse. */
  function ErrorIfFalse(value: bool, k: Kind): (r: Status)
    ensures r == Ok <==> value
    ensures !value ==> r == Err(Sentinel(k))
  {
    if value then Ok else Err(Sentinel(k))
  }

  /** errorIfRequired: a required-claim error naming the claim, or nil when not required. */
  function ErrorIfRequired(required: bool, claim: string): (r: Status)
    ensures r == Ok <==> !required
    ensures required ==> r.Err? && Is(r.error, TokenRequiredClaimMissing)
  {
    if required then Err(Join2(Message(claim + " claim is required"), Sentinel(TokenRequiredClaimMissing)))
    else Ok
  }

  /** The audience rule on a list read from the claims: an all-empty list counts as absent. */
  function AudienceVerdict(aud: seq<string>, required: bool, audience: string): Status
  {
    if forall i | 0 <= i < |aud| :: aud[i] == "" then ErrorIfRequired(required, AudienceKey)
    else ErrorIfFalse(audience in aud, TokenInvalidAudience)
  }

  /** Whether applying the rule reads the clock: a time rule whose claim is present. */
  predicate NeedsNow(rule: Rule, claims: Claims)
  {
    match rule
    case VerifyExpiration(_) => GetExpirationTime(claims).Read? && GetExpirationTime(claims).value != 0
    case VerifyIssuedAt(_) => GetIssuedAt(claims).Read? && GetIssuedAt(claims).value != 0
    case VerifyNotBefore(_) => GetNotBefore(claims).Read? && GetNotBefore(claims).value != 0
    case _ => false
  }

  /** The verdict of one rule when the current time is `now`. */
  function CheckAt(rule: Rule, claims: Claims, leeway: int, now: Time): Status
  {
    match rule
    case VerifyExpiration(required) =>
      (match GetExpirationTime(claims)
       case Panics => Panic
       case Read(exp) =>
         if exp == 0 then ErrorIfRequired(required, ExpirationTimeKey)
         else ErrorIfFalse(now - leeway < exp, TokenExpired))
    case VerifyIssuedAt(required) =>
      (match GetIssuedAt(claims)
       case Panics => Panic
       case Read(iat) =>
         if iat == 0 then ErrorIfRequired(required, IssuedAtKey)
         else ErrorIfFalse(!(now + leeway < iat), TokenUsedBeforeIssued))
    case VerifyNotBefore(required) =>
      (match GetNotBefore(claims)
       case Panics => Panic
       case Read(nbf) =>
         if nbf == 0 then ErrorIfRequired(required, NotBeforeKey)
         else ErrorIfFalse(!(now + leeway < nbf), TokenNotValidYet))
    case RequireAudience(required, audience) =>
      (match GetAudience(claims)
       case Panics => Panic
       case Read(aud) => AudienceVerdict(aud, required, audience))
    case VerifyIssuer(required, issuer) =>
      (match GetIssuer(claims)
       case Panics => Panic
       case Read(iss) =>
         if iss == "" then ErrorIfRequired(required, IssuerKey)
         else ErrorIfFalse(iss == issuer, TokenInvalidIssuer))
    case VerifySubject(required, subject) =>
      (match GetSubject(claims)
       case Panics => Panic
       case Read(sub) =>
         if sub == "" then ErrorIfRequired(required, SubjectKey)
         else ErrorIfFalse(sub == subject, TokenInvalidSubject))
    case Custom(check) => check(claims)
  }

  /** Applying one rule: read the clock (through Now) only if the rule needs it. */
  function Apply(rule: Rule, claims: Claims, leeway: int, ts: TimeState, wall: Clock): (Status, TimeState)
  {
    if NeedsNow(rule, claims) then
      var (t, ts') := Tick(ts, wall);
      (CheckAt(rule, claims, leeway, t), ts')
    else
      (CheckAt(rule, claims, leeway, ts.now), ts)
  }

  /** The failures collected so far, and whether a panic has ended the run. */
  datatype Tally = Tally(errs: seq<Error>, panicked: bool)

  /** Record one rule's verdict: a failure is appended, a panic ends the run. */
  function Record(t: Tally, s: Status): Tally
  {
    if t.panicked then t
    else match s
      case Ok => t
      case Err(e) => Tally(t.errs + [e], false)
      case Panic => Tally(t.errs, true)
  }

  /** Record a whole sequence of verdicts, in order. */
  function TallyOf(checks: seq<Status>): Tally
  {
    if checks == [] then Tally([], false)
    else Record(TallyOf(checks[..|checks| - 1]), checks[|checks| - 1])
  }

  /** A reference definition: the errors of the failing verdicts, in order. */
  function Failures(checks: seq<Status>): seq<Error>
  {
    if checks == [] then []
    else (if checks[0].Err? then [checks[0].error] else []) + Failures(checks[1..])
  }

  /** The verdicts of all rules at one fixed instant. */
  function ChecksAt(rules: seq<Rule>, claims: Claims, leeway: int, now: Time): seq<Status>
  {
    seq(|rules|, i requires 0 <= i < |rules| => CheckAt(rules[i], claims, leeway, now))
  }

  /** The loop of Validate over the rules: the tally and the time state it ends in. */
  datatype Run = Run(tally: Tally, ts: TimeState)

  function RunRules(rules: seq<Rule>, claims: Claims, leeway: int, ts: TimeState, wall: Clock): Run
  {
    if rules == [] then Run(Tally([], false), ts)
    else
      var prev := RunRules(rules[..|rules| - 1], claims, leeway, ts, wall);
      if prev.tally.panicked then prev
      else
        var (st, ts') := Apply(rules[|rules| - 1], claims, leeway, prev.ts, wall);
        Run(Record(prev.tally, st), ts')
  }

  /** What the claims' own Validate() adds: its error, if they implement ClaimsValidator and it fails. */
  function SelfCheck(claims: Claims): seq<Error>
  {
    if claims.SelfValidating? && claims.selfCheck.Some? then [claims.selfCheck.value] else []
  }

  /** The result of Validate: a panic, nil when nothing failed, else the join of every failure. */
  function Verdict(t: Tally, claims: Claims): Status
  {
    if t.panicked then Panic
    else
      var all := t.errs + SelfCheck(claims);
      if all == [] then Ok else Err(Joined(all))
  }

  /** The instant every time rule of one Validate call sees. */
  function Instant(ts: TimeState, wall: Clock): Time
  {
    if ts.now != 0 then ts.now else NextReading(ts, wall)
  }

  /** The fields a ValidatorOption sets. */
  datatype Settings = Settings(leeway: int, timeFunc: Option<TimeFunc>, validators: seq<Rule>)

  function ApplyOption(s: Settings, o: ValidatorOption): Settings
  {
    match o
    case WithLeeway(d) => s.(leeway := d)
    case WithTimeFunc(f) => s.(timeFunc := Some(TimeFunc(f, 0)))
    case WithValidator(r) => s.(validators := s.validators + [r])
  }

  /** NewValidator(opts...): the options applied in order to an all-zero Validator. */
  function Configure(opts: seq<ValidatorOption>): Settings
  {
    if opts == [] then Settings(0, None, [])
    else ApplyOption(Configure(opts[..|opts| - 1]), opts[|opts| - 1])
  }

  /** A reference definition: the rules among the options, in option order. */
  function RulesIn(opts: seq<ValidatorOption>): seq<Rule>
  {
    if opts == [] then []
    else (if opts[0].WithValidator? then [opts[0].rule] else []) + RulesIn(opts[1..])
  }

  class Validator {
    var leeway: int
    var timeFunc: Option<TimeFunc>
    var now: Time
    var validators: seq<Rule>

    function State(): TimeState
      reads this
    {
      TimeState(now, timeFunc)
    }

    function Config(): Settings
      reads this
    {
      Settings(leeway, timeFunc, validators)
    }

    /** NewValidator: apply the options in order. */
    constructor (opts: seq<ValidatorOption>)
      ensures now == 0 && Config() == Configure(opts)
    {
      leeway, timeFunc, now, validators := 0, None, 0, [];
      new;
      var i := 0;
      while i < |opts|
        invariant 0 <= i <= |opts|
        invariant now == 0 && Config() == Configure(opts[..i])
      {
        assert opts[..i + 1][..i] == opts[..i];
        With(opts[i]);
        i := i + 1;
      }
      assert opts[..i] == opts;
    }

    /** The option's function applied to this validator. */
    method With(o: ValidatorOption)
      modifies this
      ensures now == old(now) && Config() == ApplyOption(old(Config()), o)
    {
      match o
      case WithLeeway(d) => leeway := d;
      case WithTimeFunc(f) => timeFunc := Some(TimeFunc(f, 0));
      case WithValidator(r) => validators := validators + [r];
    }

    /**
     * Validator.Now: the cached time if there is one; otherwise install
     * time.Now if no clock was configured, call the clock once and cache
     * the reading.
     */
    method Now(wall: Clock) returns (t: Time)
      modifies this
      ensures leeway == old(leeway) && validators == old(validators)
      ensures old(now) != 0 ==> t == old(now) && State() == old(State())
      ensures old(now) == 0 ==>
                var f := Source(old(State()), wall);
                t == f.readings(f.calls) && now == t && timeFunc == Some(f.(calls := f.calls + 1))
    {
      if now != 0 {
        return now;
      }
      if timeFunc.None? {
        timeFunc := Some(TimeFunc(wall, 0));
      }
      var f := timeFunc.value;
      now := f.readings(f.calls);
      timeFunc := Some(f.(calls := f.calls + 1));
      t := now;
    }

    /** PTime: the current time minus the leeway. */
    method PTime(wall: Clock) returns (t: Time)
      modifies this
      ensures leeway == old(leeway) && validators == old(validators)
      ensures (t + leeway, State()) == Tick(old(State()), wall)
    {
      var n := Now(wall);
      t := n - leeway;
    }

    /** FTime: the current time plus the leeway. */
    method FTime(wall: Clock) returns (t: Time)
      modifies this
      ensures leeway == old(leeway) && validators == old(validators)
      ensures (t - leeway, State()) == Tick(old(State()), wall)
    {
      var n := Now(wall);
      t := n + leeway;
    }

    /** One rule's closure, called with this validator and the claims. */
    method ApplyRule(rule: Rule, claims: Claims, wall: Clock) returns (st: Status)
      modifies this
      ensures leeway == old(leeway) && validators == old(validators)
      ensures (st, State()) == Apply(rule, claims, leeway, old(State()), wall)
    {
      match rule
      case VerifyExpiration(required) =>
        var exp := GetExpirationTime(claims);
        if exp.Panics? {
          st := Panic;
        } else if exp.value == 0 {
          st := ErrorIfRequired(required, ExpirationTimeKey);
        } else {
          var p := PTime(wall);
          st := ErrorIfFalse(p < exp.value, TokenExpired);
        }
      case VerifyIssuedAt(required) =>
        var iat := GetIssuedAt(claims);
        if iat.Panics? {
          st := Panic;
        } else if iat.value == 0 {
          st := ErrorIfRequired(required, IssuedAtKey);
        } else {
          var f := FTime(wall);
          st := ErrorIfFalse(!(f < iat.value), TokenUsedBeforeIssued);
        }
      case VerifyNotBefore(required) =>
        var nbf := GetNotBefore(claims);
        if nbf.Panics? {
          st := Panic;
        } else if nbf.value == 0 {
          st := ErrorIfRequired(required, NotBeforeKey);
        } else {
          var f := FTime(wall);
          st := ErrorIfFalse(!(f < nbf.value), TokenNotValidYet);
        }
      case RequireAudience(required, audience) =>
        var aud := GetAudience(claims);
        if aud.Panics? {
          st := Panic;
        } else if |aud.value| == 0 {
          st := ErrorIfRequired(required, AudienceKey);
        } else {
          var result, nonEmpty := ScanAudience(aud.value, audience);
          if !nonEmpty {
            st := ErrorIfRequired(required, AudienceKey);
          } else {
            st := ErrorIfFalse(result, TokenInvalidAudience);
          }
        }
      case VerifyIssuer(required, issuer) =>
        st := CheckAt(rule, claims, leeway, now);
      case VerifySubject(required, subject) =>
        st := CheckAt(rule, claims, leeway, now);
      case Custom(check) =>
        st := check(claims);
    }

    /** Validator.Validate: every rule in order, then the claims' own check, all failures joined. */
    method Validate(claims: Claims, wall: Clock) returns (st: Status)
      modifies this
      ensures leeway == old(leeway) && validators == old(validators)
      ensures var run := RunRules(validators, claims, leeway, old(State()), wall);
              State() == run.ts && st == Verdict(run.tally, claims)
    {
      var errs: seq<Error> := [];
      var i := 0;
      while i < |validators|
        invariant 0 <= i <= |validators|
        invariant leeway == old(leeway) && validators == old(validators)
        invariant RunRules(validators[..i], claims, leeway, old(State()), wall) == Run(Tally(errs, false), State())
      {
        assert validators[..i + 1][..i] == validators[..i];
        var r := ApplyRule(validators[i], claims, wall);
        if r.Panic? {
          assert RunRules(validators[..i + 1], claims, leeway, old(State()), wall) == Run(Tally(errs, true), State());
          PanicIsFinal(validators, i + 1, claims, leeway, old(State()), wall);
          assert validators[..|validators|] == validators;
          return Panic;
        }
        if r.Err? {
          errs := errs + [r.error];
        }
        i := i + 1;
      }
      assert validators[..i] == validators;
      ghost var tally := Tally(errs, false);
      if claims.SelfValidating? && claims.selfCheck.Some? {
        errs := errs + [claims.selfCheck.value];
      }
      assert errs == tally.errs + SelfCheck(claims);
      st := if errs == [] then Ok else Err(Joined(errs));
    }
  }

  /**
   * The audience scan of WithRequireAudience: whether some entry equals the
   * expected audience, and whether some entry is non-empty.
   */
  method ScanAudience(aud: seq<string>, audience: string) returns (result: bool, nonEmpty: bool)
    ensures result <==> audience in aud
    ensures nonEmpty <==> exists i | 0 <= i < |aud| :: aud[i] != ""
  {
    result, nonEmpty := false, false;
    for i := 0 to |aud|
      invariant result <==> audience in aud[..i]
      invariant nonEmpty <==> exists j | 0 <= j < i :: aud[j] != ""
    {
      if aud[i] == audience {
        result := true;
      }
      nonEmpty := nonEmpty || aud[i] != "";
      assert aud[..i + 1] == aud[..i] + [aud[i]];
    }
    assert aud[..|aud|] == aud;
  }

  /** Once a rule panics, the rules after it never run. */
  lemma {:induction false} PanicIsFinal(rules: seq<Rule>, k: nat, claims: Claims, leeway: int, ts: TimeState, wall: Clock)
    requires k <= |rules|
    requires RunRules(rules[..k], claims, leeway, ts, wall).tally.panicked
    ensures RunRules(rules, claims, leeway, ts, wall) == RunRules(rules[..k], claims, leeway, ts, wall)
    decreases |rules| - k
  {
    if k < |rules| {
      var front := rules[..|rules| - 1];
      assert front[..k] == rules[..k];
      PanicIsFinal(front, k, claims, leeway, ts, wall);
    } else {
      assert rules[..k] == rules;
    }
  }

  /** A rule that does not need the clock gives the same verdict whatever the time. */
  lemma ClockIrrelevant(rule: Rule, claims: Claims, leeway: int, t1: Time, t2: Time)
    requires !NeedsNow(rule, claims)
    ensures CheckAt(rule, claims, leeway, t1) == CheckAt(rule, claims, leeway, t2)
  {
  }

  /**
   * One Validate run sees a single instant: once a non-zero time has been
   * read it is cached, so every time rule is judged against the same
   * instant, the clock is consulted at most once, and a cached time (even
   * one from an earlier call) is used again without consulting the clock.
   */
  lemma {:induction false} SingleInstant(rules: seq<Rule>, claims: Claims, leeway: int, ts: TimeState, wall: Clock)
    requires ts.now != 0 || NextReading(ts, wall) != 0
    ensures var run := RunRules(rules, claims, leeway, ts, wall);
            run.tally == TallyOf(ChecksAt(rules, claims, leeway, Instant(ts, wall)))
            && (run.ts == ts || run.ts == Tick(ts, wall).1)
            && (ts.now != 0 ==> run.ts == ts)
    decreases |rules|
  {
    if rules != [] {
      var n := |rules|;
      var t := Instant(ts, wall);
      var front := rules[..n - 1];
      SingleInstant(front, claims, leeway, ts, wall);
      var prev := RunRules(front, claims, leeway, ts, wall);
      assert ChecksAt(rules, claims, leeway, t)[..n - 1] == ChecksAt(front, claims, leeway, t);
      assert Instant(prev.ts, wall) == t;
      if !prev.tally.panicked && !NeedsNow(rules[n - 1], claims) {
        ClockIrrelevant(rules[n - 1], claims, leeway, prev.ts.now, t);
      }
    }
  }

  /**
   * The cached instant outlives the call that read it: Now never clears
   * `now`, so a second Validate on the same validator still judges expiry
   * at the first reading, and accepts a token that has expired by the
   * clock's next reading.
   */
  lemma StaleInstantAcceptsExpired(exp: Time, clock: Clock, wall: Clock)
    requires 0 < clock(0) < exp <= clock(1)
    ensures var claims := Registered(RegisteredClaims("", exp, 0, 0, "", "", []));
            var rules := [VerifyExpiration(true)];
            var first := RunRules(rules, claims, 0, TimeState(0, Some(TimeFunc(clock, 0))), wall);
            var second := RunRules(rules, claims, 0, first.ts, wall);
            && Verdict(first.tally, claims) == Ok
            && Verdict(second.tally, claims) == Ok
            && second.ts.now == clock(0)
            && NextReading(first.ts, wall) == clock(1)
            && CheckAt(VerifyExpiration(true), claims, 0, clock(1)) == Err(Sentinel(TokenExpired))
  {
    var claims := Registered(RegisteredClaims("", exp, 0, 0, "", "", []));
    var rules := [VerifyExpiration(true)];
    assert rules[..0] == [];
    RegisteredGetters(claims.fields);
  }

  lemma {:induction false} FailuresAppend(checks: seq<Status>, s: Status)
    ensures Failures(checks + [s]) == Failures(checks) + (if s.Err? then [s.error] else [])
    decreases |checks|
  {
    var last := if s.Err? then [s.error] else [];
    if checks == [] {
      assert [] + [s] == [s];
      assert Failures([s]) == last + Failures([]);
    } else {
      var c := checks + [s];
      var head := if checks[0].Err? then [checks[0].error] else [];
      assert c[0] == checks[0];
      assert c[1..] == checks[1..] + [s];
      FailuresAppend(checks[1..], s);
      calc {
        Failures(c);
        head + Failures(checks[1..] + [s]);
        head + (Failures(checks[1..]) + last);
        (head + Failures(checks[1..])) + last;
        Failures(checks) + last;
      }
    }
  }

  /** Every failing verdict's error is among the failures, none is dropped. */
  lemma {:induction false} FailuresComplete(checks: seq<Status>, i: nat)
    requires i < |checks| && checks[i].Err?
    ensures checks[i].error in Failures(checks)
  {
    if i > 0 {
      FailuresComplete(checks[1..], i - 1);
    }
  }

  lemma {:induction false} FailuresEmpty(checks: seq<Status>)
    ensures Failures(checks) == [] <==> forall i | 0 <= i < |checks| :: !checks[i].Err?
  {
    if checks != [] {
      FailuresEmpty(checks[1..]);
      assert forall i | 1 <= i < |checks| :: checks[i] == checks[1..][i - 1];
    }
  }

  /** Without a panic, the tally is exactly the failures in order. */
  lemma {:induction false} TallyWithoutPanic(checks: seq<Status>)
    requires forall i | 0 <= i < |checks| :: !checks[i].Panic?
    ensures TallyOf(checks) == Tally(Failures(checks), false)
  {
    if checks != [] {
      var n := |checks|;
      TallyWithoutPanic(checks[..n - 1]);
      assert checks == checks[..n - 1] + [checks[n - 1]];
      FailuresAppend(checks[..n - 1], checks[n - 1]);
    }
  }

  /** The tally ends in a panic exactly when some verdict is a panic. */
  lemma {:induction false} TallyPanics(checks: seq<Status>)
    ensures TallyOf(checks).panicked <==> exists i | 0 <= i < |checks| :: checks[i].Panic?
  {
    if checks != [] {
      var n := |checks|;
      var front := checks[..n - 1];
      TallyPanics(front);
      if TallyOf(front).panicked {
        var i :| 0 <= i < |front| && front[i].Panic?;
        assert checks[i].Panic?;
      } else if exists i | 0 <= i < n :: checks[i].Panic? {
        var i :| 0 <= i < n && checks[i].Panic?;
        if i < n - 1 {
          assert front[i].Panic?;
        }
      }
    }
  }

  /**
   * Validate's result in terms of the rules' verdicts at the run's instant:
   * any panic makes it panic; otherwise it joins every failure, in rule
   * order, followed by the claims' own error, and is nil when there is none.
   */
  lemma ValidateVerdict(rules: seq<Rule>, claims: Claims, leeway: int, ts: TimeState, wall: Clock)
    requires ts.now != 0 || NextReading(ts, wall) != 0
    ensures var checks := ChecksAt(rules, claims, leeway, Instant(ts, wall));
            var v := Verdict(RunRules(rules, claims, leeway, ts, wall).tally, claims);
            ((exists i | 0 <= i < |checks| :: checks[i].Panic?) ==> v == Panic)
            && ((forall i | 0 <= i < |checks| :: !checks[i].Panic?) ==>
                  var all := Failures(checks) + SelfCheck(claims);
                  v == if all == [] then Ok else Err(Joined(all)))
  {
    var checks := ChecksAt(rules, claims, leeway, Instant(ts, wall));
    SingleInstant(rules, claims, leeway, ts, wall);
    TallyPanics(checks);
    if forall i | 0 <= i < |checks| :: !checks[i].Panic? {
      TallyWithoutPanic(checks);
    }
  }

  /** Validate returns nil exactly when every rule passes at the run's instant and the claims' own check passes. */
  lemma ValidateOkIff(rules: seq<Rule>, claims: Claims, leeway: int, ts: TimeState, wall: Clock)
    requires ts.now != 0 || NextReading(ts, wall) != 0
    ensures Verdict(RunRules(rules, claims, leeway, ts, wall).tally, claims) == Ok
            <==> (forall i | 0 <= i < |rules| :: CheckAt(rules[i], claims, leeway, Instant(ts, wall)) == Ok)
                 && SelfCheck(claims) == []
  {
    var checks := ChecksAt(rules, claims, leeway, Instant(ts, wall));
    ValidateVerdict(rules, claims, leeway, ts, wall);
    FailuresEmpty(checks);
    assert forall i | 0 <= i < |rules| :: checks[i] == CheckAt(rules[i], claims, leeway, Instant(ts, wall));
  }

  /**
   * Validation does not stop at the first failure: with no panic, every
   * failing rule's error is reported by the joined result.
   */
  lemma ValidateReportsEveryFailure(rules: seq<Rule>, claims: Claims, leeway: int, ts: TimeState, wall: Clock, i: nat, k: Kind)
    requires ts.now != 0 || NextReading(ts, wall) != 0
    requires forall j | 0 <= j < |rules| :: !CheckAt(rules[j], claims, leeway, Instant(ts, wall)).Panic?
    requires i < |rules|
    requires var c := CheckAt(rules[i], claims, leeway, Instant(ts, wall)); c.Err? && Is(c.error, k)
    ensures var v := Verdict(RunRules(rules, claims, leeway, ts, wall).tally, claims);
            v.Err? && Is(v.error, k)
  {
    var checks := ChecksAt(rules, claims, leeway, Instant(ts, wall));
    ValidateVerdict(rules, claims, leeway, ts, wall);
    FailuresComplete(checks, i);
    var all := Failures(checks) + SelfCheck(claims);
    var j :| 0 <= j < |Failures(checks)| && Failures(checks)[j] == checks[i].error;
    assert all[j] == checks[i].error;
  }

  /** The claims' own Validate() failure is always reported when nothing panics. */
  lemma ValidateReportsSelfCheck(rules: seq<Rule>, claims: Claims, leeway: int, ts: TimeState, wall: Clock, k: Kind)
    requires ts.now != 0 || NextReading(ts, wall) != 0
    requires forall j | 0 <= j < |rules| :: !CheckAt(rules[j], claims, leeway, Instant(ts, wall)).Panic?
    requires claims.SelfValidating? && claims.selfCheck.Some? && Is(claims.selfCheck.value, k)
    ensures var v := Verdict(RunRules(rules, claims, leeway, ts, wall).tally, claims);
            v.Err? && Is(v.error, k)
  {
    var checks := ChecksAt(rules, claims, leeway, Instant(ts, wall));
    ValidateVerdict(rules, claims, leeway, ts, wall);
    var all := Failures(checks) + SelfCheck(claims);
    assert all[|all| - 1] == claims.selfCheck.value;
  }

  lemma {:induction false} RulesInAppend(opts: seq<ValidatorOption>, o: ValidatorOption)
    ensures RulesIn(opts + [o]) == RulesIn(opts) + (if o.WithValidator? then [o.rule] else [])
    decreases |opts|
  {
    var last := if o.WithValidator? then [o.rule] else [];
    if opts == [] {
      assert [] + [o] == [o];
      assert RulesIn([o]) == last + RulesIn([]);
    } else {
      var all := opts + [o];
      var head := if opts[0].WithValidator? then [opts[0].rule] else [];
      assert all[0] == opts[0];
      assert all[1..] == opts[1..] + [o];
      RulesInAppend(opts[1..], o);
      calc {
        RulesIn(all);
        head + RulesIn(opts[1..] + [o]);
        head + (RulesIn(opts[1..]) + last);
        (head + RulesIn(opts[1..])) + last;
        RulesIn(opts) + last;
      }
    }
  }

  /** NewValidator keeps the rules in the order their options were given. */
  lemma {:induction false} ConfigureRules(opts: seq<ValidatorOption>)
    ensures Configure(opts).validators == RulesIn(opts)
  {
    if opts != [] {
      var n := |opts|;
      ConfigureRules(opts[..n - 1]);
      assert opts == opts[..n - 1] + [opts[n - 1]];
      RulesInAppend(opts[..n - 1], opts[n - 1]);
    }
  }

  /** With no WithLeeway the leeway is zero. */
  lemma {:induction false} DefaultLeeway(opts: seq<ValidatorOption>)
    requires forall j | 0 <= j < |opts| :: !opts[j].WithLeeway?
    ensures Configure(opts).leeway == 0
  {
    if opts != [] {
      DefaultLeeway(opts[..|opts| - 1]);
    }
  }

  /** The last WithLeeway wins. */
  lemma {:induction false} LastLeewayWins(opts: seq<ValidatorOption>, i: nat)
    requires i < |opts| && opts[i].WithLeeway?
    requires forall j | i < j < |opts| :: !opts[j].WithLeeway?
    ensures Configure(opts).leeway == opts[i].leeway
  {
    var n := |opts|;
    if i < n - 1 {
      var front := opts[..n - 1];
      assert front[i] == opts[i];
      LastLeewayWins(front, i);
    }
  }

  /** With no WithTimeFunc there is no clock yet, so Now falls back to time.Now. */
  lemma {:induction false} DefaultTimeFunc(opts: seq<ValidatorOption>)
    requires forall j | 0 <= j < |opts| :: !opts[j].WithTimeFunc?
    ensures Configure(opts).timeFunc == None
  {
    if opts != [] {
      DefaultTimeFunc(opts[..|opts| - 1]);
    }
  }

  /** The last WithTimeFunc wins, and its clock has not been called yet. */
  lemma {:induction false} LastTimeFuncWins(opts: seq<ValidatorOption>, i: nat)
    requires i < |opts| && opts[i].WithTimeFunc?
    requires forall j | i < j < |opts| :: !opts[j].WithTimeFunc?
    ensures Configure(opts).timeFunc == Some(TimeFunc(opts[i].f, 0))
  {
    var n := |opts|;
    if i < n - 1 {
      var front := opts[..n - 1];
      assert front[i] == opts[i];
      LastTimeFuncWins(front, i);
    }
  }

  /** WithVerifyExpiration: the token is accepted while now - leeway is before exp. */
  lemma ExpirationRule(required: bool, claims: Claims, leeway: int, now: Time)
    requires GetExpirationTime(claims).Read?
    ensures var exp := GetExpirationTime(claims).value;
            var r := CheckAt(VerifyExpiration(required), claims, leeway, now);
            (r == Ok <==> (exp == 0 && !required) || (exp != 0 && now - leeway < exp))
            && (exp != 0 && r != Ok ==> r == Err(Sentinel(TokenExpired)))
            && (exp == 0 && r != Ok ==> Is(r.error, TokenRequiredClaimMissing))
  {
  }

  /** WithVerifyIssuedAt: rejected only when now + leeway is before iat. */
  lemma IssuedAtRule(required: bool, claims: Claims, leeway: int, now: Time)
    requires GetIssuedAt(claims).Read?
    ensures var iat := GetIssuedAt(claims).value;
            var r := CheckAt(VerifyIssuedAt(required), claims, leeway, now);
            (r == Ok <==> (iat == 0 && !required) || (iat != 0 && iat <= now + leeway))
            && (iat != 0 && r != Ok ==> r == Err(Sentinel(TokenUsedBeforeIssued)))
            && (iat == 0 && r != Ok ==> Is(r.error, TokenRequiredClaimMissing))
  {
  }

  /** WithVerifyNotBefore: rejected only when now + leeway is before nbf. */
  lemma NotBeforeRule(required: bool, claims: Claims, leeway: int, now: Time)
    requires GetNotBefore(claims).Read?
    ensures var nbf := GetNotBefore(claims).value;
            var r := CheckAt(VerifyNotBefore(required), claims, leeway, now);
            (r == Ok <==> (nbf == 0 && !required) || (nbf != 0 && nbf <= now + leeway))
            && (nbf != 0 && r != Ok ==> r == Err(Sentinel(TokenNotValidYet)))
            && (nbf == 0 && r != Ok ==> Is(r.error, TokenRequiredClaimMissing))
  {
  }

  /** WithRequireAudience: an audience list of only empty strings counts as absent. */
  lemma AudienceRule(required: bool, audience: string, claims: Claims, leeway: int, now: Time)
    requires GetAudience(claims).Read?
    ensures var aud := GetAudience(claims).value;
            var present := exists i | 0 <= i < |aud| :: aud[i] != "";
            var r := CheckAt(RequireAudience(required, audience), claims, leeway, now);
            (r == Ok <==> (!present && !required) || (present && audience in aud))
            && (present && r != Ok ==> r == Err(Sentinel(TokenInvalidAudience)))
            && (!present && r != Ok ==> Is(r.error, TokenRequiredClaimMissing))
  {
  }

  /** WithVerifyIssuer: a present issuer must equal the expected one. */
  lemma IssuerRule(required: bool, issuer: string, claims: Claims, leeway: int, now: Time)
    requires GetIssuer(claims).Read?
    ensures var iss := GetIssuer(claims).value;
            var r := CheckAt(VerifyIssuer(required, issuer), claims, leeway, now);
            (r == Ok <==> (iss == "" && !required) || (iss != "" && iss == issuer))
            && (iss != "" && r != Ok ==> r == Err(Sentinel(TokenInvalidIssuer)))
            && (iss == "" && r != Ok ==> Is(r.error, TokenRequiredClaimMissing))
  {
  }

  /** WithVerifySubject: a present subject must equal the expected one. */
  lemma SubjectRule(required: bool, subject: string, claims: Claims, leeway: int, now: Time)
    requires GetSubject(claims).Read?
    ensures var sub := GetSubject(claims).value;
            var r := CheckAt(VerifySubject(required, subject), claims, leeway, now);
            (r == Ok <==> (sub == "" && !required) || (sub != "" && sub == subject))
            && (sub != "" && r != Ok ==> r == Err(Sentinel(TokenInvalidSubject)))
            && (sub == "" && r != Ok ==> Is(r.error, TokenRequiredClaimMissing))
  {
  }

  /** A getter that panics (a nil claims pointer, a wrongly typed map value) makes its rule panic. */
  lemma PanickingGetterPanics(rule: Rule, claims: Claims, leeway: int, now: Time)
    requires !rule.Custom?
    requires match rule
             case VerifyExpiration(_) => GetExpirationTime(claims).Panics?
             case VerifyIssuedAt(_) => GetIssuedAt(claims).Panics?
             case VerifyNotBefore(_) => GetNotBefore(claims).Panics?
             case RequireAudience(_, _) => GetAudience(claims).Panics?
             case VerifyIssuer(_, _) => GetIssuer(claims).Panics?
             case VerifySubject(_, _) => GetSubject(claims).Panics?
             case Custom(_) => false
    ensures CheckAt(rule, claims, leeway, now) == Panic
  {
  }
}
