/**
 * The configuration of a breaker (Go's `settings`), the options that
 * overwrite its fields one at a time, and the defaults.
 */
module Configuration {
  import opened Wrappers
  import opened BreakerState
  import opened Counting

  /** Go's `time.Duration`: a count of nanoseconds. */
  type Duration = int

  const Nanosecond: Duration := 1
  const Second: Duration := 1_000_000_000

  /** A non-nil Go `error`; only its presence matters here. */
  datatype Error = Error(message: string)

  type TripPredicate = CountsValue -> bool
  type StateChangeHandler = (string, State, State) -> ()
  type SuccessPredicate = Option<Error> -> bool

  /** The three function-valued fields may be nil in Go, hence `Option`. */
  datatype Settings = Settings(
    maxHalfOpenRequests: Uint32,
    closedResetInterval: Duration,
    openTimeOut: Duration,
    readyToTrip: Option<TripPredicate>,
    onStateChange: Option<StateChangeHandler>,
    isSuccessful: Option<SuccessPredicate>)

  datatype Field =
    | MaxHalfOpenRequests | ClosedResetInterval | OpenTimeOut
    | ReadyToTrip | OnStateChange | IsSuccessful

  /** One `SettingsOption` closure per `With…` constructor, holding the value it stores. */
  datatype SettingsOption =
    | WithMaxHalfOpenRequests(max: Uint32)
    | WithClosedResetInterval(interval: Duration)
    | WithOpenTimeOut(timeout: Duration)
    | WithReadyToTrip(tripFn: Option<TripPredicate>)
    | WithOnStateChange(changeFn: Option<StateChangeHandler>)
    | WithIsSuccessful(successFn: Option<SuccessPredicate>)

  /** The field of `settings` that an option writes. */
  function Target(o: SettingsOption): Field {
    match o
    case WithMaxHalfOpenRequests(_) => MaxHalfOpenRequests
    case WithClosedResetInterval(_) => ClosedResetInterval
    case WithOpenTimeOut(_) => OpenTimeOut
    case WithReadyToTrip(_) => ReadyToTrip
    case WithOnStateChange(_) => OnStateChange
    case WithIsSuccessful(_) => IsSuccessful
  }

  /** `s` and `t` agree on every field except possibly `f`. */
  ghost predicate SameExcept(s: Settings, t: Settings, f: Field) {
    (f != MaxHalfOpenRequests ==> s.maxHalfOpenRequests == t.maxHalfOpenRequests) &&
    (f != ClosedResetInterval ==> s.closedResetInterval == t.closedResetInterval) &&
    (f != OpenTimeOut ==> s.openTimeOut == t.openTimeOut) &&
    (f != ReadyToTrip ==> s.readyToTrip == t.readyToTrip) &&
    (f != OnStateChange ==> s.onStateChange == t.onStateChange) &&
    (f != IsSuccessful ==> s.isSuccessful == t.isSuccessful)
  }

  /** The field that `o` targets holds the value `o` carries. */
  ghost predicate Carries(s: Settings, o: SettingsOption) {
    match o
    case WithMaxHalfOpenRequests(max) => s.maxHalfOpenRequests == max
    case WithClosedResetInterval(interval) => s.closedResetInterval == interval
    case WithOpenTimeOut(timeout) => s.openTimeOut == timeout
    case WithReadyToTrip(fn) => s.readyToTrip == fn
    case WithOnStateChange(fn) => s.onStateChange == fn
    case WithIsSuccessful(fn) => s.isSuccessful == fn
  }

  /** `SettingsOption.apply`: run the option's closure on the settings. */
  function Apply(o: SettingsOption, s: Settings): (r: Settings)
    ensures Carries(r, o)
    ensures SameExcept(s, r, Target(o))
  {
    match o
    case WithMaxHalfOpenRequests(max) => s.(maxHalfOpenRequests := max)
    case WithClosedResetInterval(interval) => s.(closedResetInterval := interval)
    case WithOpenTimeOut(timeout) => s.(openTimeOut := timeout)
    case WithReadyToTrip(fn) => s.(readyToTrip := fn)
    case WithOnStateChange(fn) => s.(onStateChange := fn)
    case WithIsSuccessful(fn) => s.(isSuccessful := fn)
  }

  /** Applying an option a second time changes nothing. */
  lemma ApplyIdempotent(o: SettingsOption, s: Settings)
    ensures Apply(o, Apply(o, s)) == Apply(o, s)
  {
  }

  /** Of two options on the same field, the later one decides. */
  lemma LastOptionWins(o1: SettingsOption, o2: SettingsOption, s: Settings)
    requires Target(o1) == Target(o2)
    ensures Apply(o2, Apply(o1, s)) == Apply(o2, s)
  {
  }

  /** Options on different fields may be given in either order. */
  lemma DistinctOptionsCommute(o1: SettingsOption, o2: SettingsOption, s: Settings)
    requires Target(o1) != Target(o2)
    ensures Apply(o1, Apply(o2, s)) == Apply(o2, Apply(o1, s))
  {
  }

  /** `defaultIsSuccessful`: a call succeeded when it returned no error. */
  predicate DefaultIsSuccessful(err: Option<Error>)
    ensures DefaultIsSuccessful(err) <==> err == None
  {
    err.None?
  }

  /**
   * `defaultSettings`: the record the options start from. Its timings obey the
   * intended rule, it trips after six failures in a row and counts a call as a
   * success when it returned no error.
   */
  function DefaultSettings(): (s: Settings)
    ensures ValidTimings(s)
    ensures s.readyToTrip.Some? && s.isSuccessful.Some?
    ensures forall c :: s.readyToTrip.value(c) <==> c.consecutiveFailures >= 6
    ensures forall err :: s.isSuccessful.value(err) <==> err == None
  {
    Settings(
      10,
      5 * Second,
      10 * Second,
      Some(DefaultReadyToTrip),
      None,
      Some(DefaultIsSuccessful))
  }

  /**
   * The rule the `validate` method is meant to enforce: both durations are at
   * least one nanosecond.
   */
  predicate ValidTimings(s: Settings) {
    s.closedResetInterval >= Nanosecond && s.openTimeOut >= Nanosecond
  }

  lemma DefaultSettingsFacts()
    ensures DefaultSettings().maxHalfOpenRequests == 10
    ensures DefaultSettings().closedResetInterval == 5_000_000_000
    ensures DefaultSettings().openTimeOut == 10_000_000_000
    ensures DefaultSettings().onStateChange == None
  {
  }

  /**
   * The timing rule survives every option except the two timing options, and
   * after one of those it holds exactly when the new duration is positive.
   */
  lemma ApplyValidTimings(o: SettingsOption, s: Settings)
    requires ValidTimings(s)
    ensures ValidTimings(Apply(o, s)) <==>
      match o
      case WithClosedResetInterval(interval) => interval >= Nanosecond
      case WithOpenTimeOut(timeout) => timeout >= Nanosecond
      case _ => true
  {
  }

  /** Under the default trip predicate, six failures after a reset trip the breaker, five do not. */
  lemma DefaultPolicyTripsAfterSixFailures(c: CountsValue)
    ensures !DefaultSettings().readyToTrip.value(Run(c, [ResetCall] + Failures(5)))
    ensures DefaultSettings().readyToTrip.value(Run(c, [ResetCall] + Failures(6)))
  {
    SixFailuresTrip(c);
  }
}
