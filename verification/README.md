# Circuit breaker: states, outcome tally and settings

A Dafny model of `types.go` of a Go circuit breaker: the data the breaker
runs on, not the breaker gate itself.

- `BreakerState` (state.dfy): the lifecycle value `State` (Go's `int`, with
  `StateClosed = 0`, `StateHalfOpen = 1`, `StateOpen = 2`) and `String`, which
  names the three states `"closed"`, `"half-open"` and `"open"` and renders
  every other value as `"unknown state: "` followed by its decimal number
  (`Decimal`, the output of the `%d` verb). `String` is proved injective.
- `Counting` (counts.dfy): the outcome tally `counts`, five `uint32`
  counters (`Uint32`, whose increment `Inc` wraps at 2^32). The class
  `Counts` holds the fields the Go pointer-receiver methods overwrite;
  `OnRequest`, `OnSuccess`, `OnFailure` and `Reset` state each field's new
  value, that nothing else changes, and tie the new snapshot to the pure step
  functions `AfterRequest`, `AfterSuccess`, `AfterFailure` on `CountsValue`,
  the copy that `readyToTrip` receives. `Run` composes the calls; the lemmas
  prove the streak invariant (the two streak counters are never both
  non-zero), the exact failure count the default trip predicate needs (six
  after a reset or a success), that a success disarms it, and that a request
  followed by its one outcome keeps successes plus failures equal to requests.
  Because the counters wrap, 2^32 failures in a row read as zero
  (`StreakWrapsAround`).
- `Configuration` (settings.dfy): `settings` as a record whose three
  function-valued fields may be nil (`Option`), the six `With…` options as the
  `SettingsOption` datatype and `Apply` (Go's `SettingsOption.apply`), the
  defaults `DefaultSettings`, `DefaultIsSuccessful`, and the intended timing
  rule `ValidTimings`.
- `Wrappers` (wrappers.dfy): `Option`, for Go's nil.

Durations are plain integers counting nanoseconds; a Go `error` is
`Option<Error>`, where `None` is nil.

## Model

| member | source | states |
|---|---|---|
| BreakerState.String | types.go:10-29 | result is "closed", "half-open", "open" exactly for states 0, 1, 2 (both directions); every other value gives a text longer than, and starting with, "unknown state: " |
| BreakerState.StringInjective | types.go:18-29 | two states with the same text are the same state: the three names are pairwise distinct and differ from every unknown-state message, and unknown states keep distinct numbers |
| BreakerState.Decimal | types.go:27 | the `%d` rendering of the number: starts with '-' exactly for negative values, and the digits after the sign are `NatDecimal` of the magnitude and stand for it |
| BreakerState.NatDecimal | types.go:27 | the digits of a non-negative number: non-empty, all digits, one digit exactly below ten, no leading zero |
| BreakerState.NatDecimalValue | types.go:27 | read back most significant digit first, the digits `NatDecimal` writes stand for the number it was given |
| BreakerState.NatDecimalInjective | types.go:27 | distinct non-negative numbers have distinct digit strings |
| BreakerState.DecimalInjective | types.go:27 | distinct integers have distinct `%d` renderings |
| Counting.Inc | types.go:40 | `++` on a `uint32` adds one modulo 2^32 |
| Counting.AfterRequest | types.go:39-41 | a request keeps the streak invariant and the default trip decision as they were |
| Counting.AfterSuccess | types.go:43-47 | after a success the streak invariant holds and the default trip predicate is false |
| Counting.AfterFailure | types.go:49-53 | after a failure the streak invariant holds and the success streak is zero |
| Counting.Counts.constructor | types.go:31-37 | a zero-value tally: all five counters are zero |
| Counting.Counts.OnRequest | types.go:39-41 | `requests` goes up by one (mod 2^32), the other four counters are unchanged, the streak invariant holds after iff before |
| Counting.Counts.OnSuccess | types.go:43-47 | `totalSuccesses` and `consecutiveSuccesses` go up by one (mod 2^32), `consecutiveFailures` becomes 0, `requests` and `totalFailures` unchanged; streak invariant holds |
| Counting.Counts.OnFailure | types.go:49-53 | `totalFailures` and `consecutiveFailures` go up by one (mod 2^32), `consecutiveSuccesses` becomes 0, `requests` and `totalSuccesses` unchanged; streak invariant holds |
| Counting.Counts.Reset | types.go:55-61 | all five counters are zero, so a second reset leaves the same state; streak invariant holds |
| Counting.RunAppend | types.go:39-61 | running two call sequences one after the other equals running their concatenation |
| Counting.RunKeepsStreakInvariant | types.go:39-61 | from a tally with the streak invariant, any sequence of requests, successes, failures and resets keeps it |
| Counting.RunFailures | types.go:49-53 | n failures in a row add n (mod 2^32) to both failure counters, zero the success streak when n > 0, and leave requests and total successes unchanged |
| Counting.DefaultReadyToTrip | types.go:131-133 | true exactly when the failure streak is six or more; `TripAfterFailures` proves how many failures that takes |
| Counting.TripAfterFailures | types.go:131-133 | from any tally whose failure streak is zero, the default trip predicate holds after n more failures exactly when n mod 2^32 exceeds 5 |
| Counting.SixFailuresTrip | types.go:131-133 | after a reset, five failures do not trip the default predicate, six do, and one success after them disarms it |
| Counting.StreakWrapsAround | types.go:49-53 | 2^32 failures after a reset wrap the failure streak to zero, so the default predicate does not trip |
| Counting.RequestThenOutcomeBalanced | types.go:39-61 | if successes plus failures equal requests (mod 2^32), a request followed by one outcome keeps that, and a reset restores it |
| Counting.FailuresUntilTrip | types.go:131-133 | calling `OnFailure` on a reset `Counts` object until the default trip predicate holds takes exactly six calls |
| Configuration.Apply | types.go:79-129 | an option writes its own value into its own field of the settings and leaves the other five fields unchanged |
| Configuration.ApplyIdempotent | types.go:88-129 | applying the same option twice equals applying it once |
| Configuration.LastOptionWins | types.go:88-129 | of two options on the same field, the later one alone decides the result |
| Configuration.DistinctOptionsCommute | types.go:88-129 | options on different fields commute |
| Configuration.DefaultSettings | types.go:139-146 | the default record: its timings obey the intended rule, its trip predicate holds exactly for six or more consecutive failures, its success predicate exactly for a nil error |
| Configuration.DefaultSettingsFacts | types.go:139-146 | the default constants: 10 half-open requests, 5 s reset interval, 10 s open timeout, no state-change callback |
| Configuration.DefaultIsSuccessful | types.go:135-137 | true exactly for a nil error (`None`) |
| Configuration.ApplyValidTimings | types.go:72-77 | the intended timing rule survives every non-timing option and, after a timing option, holds iff the new duration is at least 1 ns |
| Configuration.DefaultPolicyTripsAfterSixFailures | types.go:139-146 | the trip predicate stored in the defaults stays false after five failures from a reset and becomes true after six |

## Left out

- `settings.validate` (types.go:72-77) calls the external ozzo-validation library, which is not part of this model; only its intended rule, both durations at least one nanosecond, is stated (`ValidTimings`), and nothing is claimed about what the library call returns.
- The breaker gate (admission, outcome recording, the Closed/Open/HalfOpen transitions, the timed reset and the calls to `onStateChange`) is not in types.go, and neither is the constructor that applies options over the defaults; they are not part of this model. This includes the rule in the comment at types.go:85-87 that a `maxHalfOpenRequests` of 0 admits one request: the field is modelled, its use is not.
- Counting.RequestThenOutcomeBalanced: the invariant that successes plus failures equal requests depends on the gate pairing each `onRequest` with one outcome, so it is stated for that pairing only, not for arbitrary call sequences.
- The mutex and concurrent callers: the file has no locking.
- User-supplied `readyToTrip`, `isSuccessful` and `onStateChange` functions are arbitrary values of their types; only the defaults are reasoned about.
- `State` is an unbounded integer and `time.Duration` an unbounded count of nanoseconds; Go's 64-bit ranges are not modelled (no value used here comes near them).
- BreakerState.Decimal: models the documented output of `%d` (optional minus sign, digits, no leading zeros), not the internals of `fmt.Sprintf`.
