# jwt-cache: a Dafny model of the token cache coordinator

`jwtCache` (src/index.ts) wraps a Token Source, an async function that returns
a signed JWT. It hands the token out to concurrent `getToken()` callers until
the token comes within `minimumValidityMilliseconds` of its `exp`. Concurrent
callers that need a new token are meant to share one Token Source call; the
findings below show traces where the code as written makes more calls. When
`eagerRefreshMilliseconds`
is nonzero, a timer fetches the next token in the background before the
current one goes stale, and promotes it. `dispose()` stops the cache.

The model is an event-driven state machine. JavaScript runs one callback at
a time, so every stretch of code between two awaits is one atomic step.

- Every promise the coordinator compares by identity is a Token Source call.
  It becomes a natural-number fetch id, its position in `fetches`. So
  `|fetches|` counts the calls of the Token Source.
- `statePromise` and `nextState` are `Option<FetchId>`.
- Armed timers, the handlers of background fetches (`watchers`) and the
  suspended `getToken` calls (`callers`) are explicit collections.
- An `Event` says which of them runs next. `Coordinator.Step` returns `None`
  when that event cannot happen.
- The clock is a parameter of the events that read `Date.now()`.

Scheduling is free, except for one ordering rule JavaScript guarantees:
reactions to one promise run in the order they were registered. The model
enforces it where it matters. A call that installs a generation (its owner)
records whether its `await` is the first one on that generation, which is the
case unless some other call was already suspended on it
(`Coordinator.Awaited`). A first owner resumes before any other call waiting
on the same generation. An owner that is not first has no such priority, so
calls that registered before it can run first. Every other order is left to
the environment. This admits every order JavaScript produces, and some it
does not.

Modules:

- `Wrappers`: `Option` and `Result`.
- `Expiry`: `getState`, which decodes the `exp` claim into a cached credential.
- `Coordinator`: state, events, and one function per atomic step.
- `Invariants`: `Valid` holds in every build. `Sound` is the race-avoidance
  invariant and holds in the corrected build.
- `Theorems`: properties over whole traces (disposal, single flight,
  generation advance, relevance guards, construction).
- `Scenarios`: the two test scenarios of src/__tests__/index.test.ts as
  concrete traces, and the traces behind the findings below.

`Coordinator.Build` selects how the background promotion at
src/index.ts:56-61 is read:

- `AsWritten` leaves `nextState` pointing at the generation it has just
  promoted, as the code does.
- `Corrected` clears it.

Everything in `Theorems` that relies on `Sound` is stated for `Corrected`. The
rest, and both test scenarios, hold in both builds. In the corrected build
every owner is a first owner.

Consequences of the code worth knowing:

- Promotion after `dispose` still happens. The success handler (lines 56-61)
  does not check `disposed`; only `handleEagerRefresh` does, at line 48. So a
  background fetch that completes after `dispose` still becomes current, but
  no timer is armed.
- Disposal does not halt every fetch.
  - A `getToken` call that passed the disposed check before `dispose` can
    still find its token stale and call the Token Source. In the corrected
    build this is the only way, by `Theorems.DisposedFetchOnlyByWaitingCaller`.
  - As written, a leftover timer can also fetch after `dispose`. See Findings.
- A failed generation is cleared at line 91. That line clears whatever
  generation is current when it runs, which need not be the one that failed.

## Model

| member | source | states |
|---|---|---|
| Expiry.GetState | src/index.ts:27-42 | A fetch settles with a credential exactly when the decoded claims carry a numeric `exp`. The token is kept verbatim and the expiry is `exp` seconds in milliseconds. A decoder that throws, or claims without a numeric `exp`, fail the fetch and cache nothing. |
| Coordinator.Settle | src/index.ts:27-42 | The settlement of a Token Source call is a success exactly when `getState` accepts the token. A success caches the credential `getState` builds, with the token kept, and a failure carries the error `getState` raises. |
| Coordinator.Configure | src/index.ts:18-22 | An omitted option takes its default: no eager refresh (0) and a minimum validity of 1000 ms. A given option is used as is. |
| Coordinator.UpdateToken | src/index.ts:78-85 | `getUpdatedToken` up to its await. If another generation is current, the call joins it and nothing changes. Otherwise the prefetched generation becomes current without a fetch, or else exactly one fetch is issued and becomes current. Either way the prefetch slot is emptied and the caller owns the new generation. Its await is the first on that generation exactly when no other call is already suspended on it. |
| Coordinator.ArmEager | src/index.ts:44-76 | When disposed or with eager refresh off, nothing changes. Otherwise exactly one new timer is armed, capturing the given generation, and it replaces `timeout`. Its due time `now + delay` is the last instant at which the credential passes the freshness check, pulled earlier by the lead time. The delay may be negative. |
| Coordinator.Init | src/index.ts:96-100 | A lazy cache starts with no fetch and no caller. An eager cache starts with exactly one fetch, current and owned by the construction-time call. No timer is armed. |
| Coordinator.Enter | src/index.ts:109-118 | After disposal, `getToken` fails with the disposed error and changes nothing else. Otherwise it captures the current generation, or installs one when there is none. |
| Coordinator.Resume | src/index.ts:118-122 | Any suspended call whose promise has settled may continue, unless a first owner of the same generation has yet to run. A caller that captured a resolved generation returns its token if and only if `expiry - now >= minimumValidityMilliseconds`. Otherwise the state becomes exactly what `getUpdatedToken` makes of it. A rejected generation fails the caller with its error, and only the owner forgets it. A joined generation returns its token. The owner arms the eager timer for the generation current at that moment. |
| Coordinator.FireTimer | src/index.ts:50-54 | A fired timer whose captured generation is no longer current changes nothing but its own removal. Otherwise it issues exactly one background fetch and makes it the prefetched generation, leaving the current generation in place. |
| Coordinator.SettleBackground | src/index.ts:54-72 | Background handlers never change callers or fetches. When no longer relevant, they do nothing. A relevant failure only empties the prefetch slot. A relevant success makes the fetch current and arms the next timer for it. |
| Coordinator.DisposeCache | src/index.ts:103-108 | `dispose` sets `disposed` and removes exactly the timer held in `timeout`. Nothing else changes. |
| Coordinator.Step | src/index.ts:102-124 | Only `dispose` sets `disposed`, and no event clears it. The Token Source call count and the caller list never shrink. `getToken` and `dispose` can always be called. |
| Coordinator.Run | src/index.ts:103-108 | Along any trace, a disposed cache stays disposed and the count of Token Source calls never goes down. |
| Invariants.InitSound | src/index.ts:23-26 | The construction state satisfies the race-avoidance invariant. |
| Invariants.StepValid | src/index.ts:78-94 | Every step, in either build, keeps every id pointing at an issued fetch or armed timer. After disposal it keeps the `timeout` timer cleared. |
| Invariants.StepSound | src/index.ts:50-61 | Every step of the corrected build keeps the race-avoidance invariant. |
| Theorems.RunValid | src/index.ts:78-94 | `Valid` holds after every trace in either build. |
| Theorems.RunSound | src/index.ts:50-61 | `Sound` holds after every trace of the corrected build. |
| Theorems.ReachableSound | src/index.ts:50-61 | In the corrected build, every state reachable from construction is sound. |
| Theorems.DisposeIdempotent | src/index.ts:103-108 | Disposing twice is disposing once. |
| Theorems.DisposedStep | src/index.ts:109-112 | After disposal, no event arms a timer, and a new `getToken` call only records its failure. |
| Theorems.DisposedRun | src/index.ts:48 | After disposal, no trace arms a timer. |
| Theorems.OnlyTimeoutCanFetch | src/index.ts:105-107 | In the corrected build, in a reachable state, an armed timer that could still fetch is the one held in `timeout`, and the cache is not disposed. So the timer `dispose` clears is the only one that could still fetch. |
| Theorems.DisposedFetchOnlyByWaitingCaller | src/index.ts:113-122 | In the corrected build, after disposal, a step that calls the Token Source is the resumption of a `getToken` call that captured a generation before `dispose`. |
| Theorems.DisposedQuiet | src/index.ts:103-108 | In the corrected build, after disposal, a trace that resumes no suspended `getToken` call never calls the Token Source again. |
| Theorems.PendingCallersJoin | src/index.ts:81-82 | While the current generation is pending, no `getToken` step issues a fetch. |
| Theorems.InFlightStep | src/index.ts:81-84 | In the corrected build, until the current pending fetch settles, it stays current, and no step issues another fetch. |
| Theorems.InFlightRun | src/index.ts:81-84 | In the corrected build, the same along any trace that does not settle the current fetch. |
| Theorems.EntersJoin | src/index.ts:113-118 | `n` calls entering while generation `x` is current all capture `x`, and none issues a fetch. |
| Theorems.EntersDeduplicate | src/index.ts:113-116 | In either build, `n >= 1` calls entering an empty cache issue exactly one fetch. The first call owns it, as a first owner, and the others wait on it. |
| Theorems.OwnerResumesOnOwnGeneration | src/index.ts:86-93 | In the corrected build, when the owner resumes, the current generation is its own. On failure it clears that generation. On success, with eager refresh on, the armed timer captures that generation. |
| Theorems.StaleNeverReadopted | src/index.ts:84-85 | In the corrected build, a caller that judged generation `x` stale never waits on `x` again: it joins another generation or owns a new one. |
| Theorems.StaleContinuationsInert | src/index.ts:51-67 | A timer whose generation is no longer current, and background handlers that are no longer relevant, touch neither generation slot, nor fetches, callers or `timeout`. |
| Theorems.LazyUntilFirstCall | src/index.ts:96-100 | With eager refresh off, no trace without a `getToken` call ever calls the Token Source. |
| Theorems.ConstructionFetches | src/index.ts:96-100 | Construction calls the Token Source 0 times when lazy and once when eager. A lazy cache keeps the count at 0 until the first `getToken`. |
| Scenarios.LazyScenario | src/__tests__/index.test.ts:46-84 | Lazy cache with a 3 s token and a minimum validity of 100 ms, configured through the defaults: 0 fetches at construction. Three concurrent calls make one fetch and all get `t1`. At 3.11 s, three concurrent calls make exactly one more fetch and all get `t2`. Holds in both builds. |
| Scenarios.EagerScenario | src/__tests__/index.test.ts:6-44 | Eager cache with a 500 ms lead time. Construction makes the first fetch, and three concurrent calls share it. The background timer fetches `t2` before `t1` goes stale. Three later calls get `t2` with the count still at 2. `dispose` leaves no timer. Holds in both builds. |
| Scenarios.ReadoptsStaleGeneration | src/index.ts:56-61 | As written, a caller that finds the promoted token within the minimum validity re-adopts that same generation. It returns the token it judged stale without a fetch, and leaves a second live timer beside `timeout`. |
| Scenarios.FetchAfterDispose | src/index.ts:103-108 | As written, on the same trace, the timer `dispose` did not clear fires and calls the Token Source on the disposed cache. |
| Scenarios.CorrectedFetchesAfresh | src/index.ts:84-85 | In the corrected build, on the same events, the caller that judges the promoted token stale installs a new generation and issues one fetch. |
| Scenarios.PrefetchWhileInFlight | src/index.ts:84-88 | As written, two calls find the promoted token stale. The one that re-adopts its generation is overtaken by the other, which registered earlier and fetches a new generation. The re-adopter then returns the stale token and arms a timer on the still-pending new generation. That timer calls the Token Source while the current fetch is in flight. |

## Left out

- The Token Source call and `jwt-decode` are not modelled. The Token Source
  is reduced to the events `FetchResolve` and `FetchReject`. The decoder is
  reduced to its verdict (`Expiry.Decoded`): it threw, the result is not an
  object, or the claims with or without a numeric `exp`.
- Expiry.GetState: `exp` is an integer. A fractional or non-finite `exp`,
  which the code accepts as a number, is not modelled. There is no floating
  point.
- Real time is not modelled. `Date.now()` is the `now` parameter of the
  events that read it. Nothing forces it to increase, and nothing makes a
  timer fire after its delay. A negative delay is kept as a value.
- `setTimeout` clamps a delay above 2^31-1 ms to 1 ms on common hosts.
  `Timer.delay` is an unbounded integer and is not clamped. Timers may fire
  at any point anyway, so a clamped timer firing early is among the modelled
  behaviours.
- `clearTimeout` removes the timer. The code's `if (timeout)` truthiness test
  on the handle is modelled as "a timer was ever armed".
- The `.catch` on the construction-time call (line 97) only silences the
  error. The failure is recorded on caller 0 and nobody reads it.
- `module.exports` (line 127) is packaging and has no behaviour to model.
- The test file's `sign`/`verify` checks and its `jest` timing are not
  modelled. The scenarios restate its fetch counts and returned tokens as
  traces with chosen times.
- Invariants.StepSound: the race-avoidance invariant is proved for the
  corrected build only. The as-written build breaks it, as the findings
  show.
- Theorems.InFlightStep: single flight is proved for the corrected build
  only. As written, a timer armed at line 88 on a pending generation can
  fetch while that generation is in flight (`Scenarios.PrefetchWhileInFlight`).
- Theorems.InFlightRun: the same as-written gap as `Theorems.InFlightStep`.
- Theorems.OwnerResumesOnOwnGeneration: proved for the corrected build only.
  As written, an owner that re-adopted a generation can be overtaken and
  reach line 88 with another generation current, where it arms the timer
  for that generation (`Scenarios.PrefetchWhileInFlight`).
- Theorems.ReachableSound: proved for the corrected build only. As written,
  the state after the re-adoption in `Scenarios.ReadoptsStaleGeneration` has
  a live timer other than the one in `timeout`, so it is not sound.
- Theorems.OnlyTimeoutCanFetch: proved for the corrected build only. As
  written, `Scenarios.ReadoptsStaleGeneration` leaves a second live timer
  beside the one in `timeout`.
- Theorems.DisposedFetchOnlyByWaitingCaller: proved for the corrected build
  only. As written, a leftover timer fetches after `dispose`
  (`Scenarios.FetchAfterDispose`).
- Theorems.DisposedQuiet: proved for the corrected build only. As written,
  firing the leftover timer after `dispose`, with no call resumed, calls the
  Token Source (`Scenarios.FetchAfterDispose`).

## Findings

| source | as written | input that shows it | evidently intended | confidence | as-written member | corrected member |
|---|---|---|---|---|---|---|
| src/index.ts:56-61 | Promotion sets `statePromise = thisNextState` but leaves `nextState` equal to it. A later `getUpdatedToken` (line 84) re-adopts the promoted generation from `nextState`. | Eager 500 ms, minimum 100 ms. Token A has `exp` 10 and the owner resumes at 0 ms. The timer fires, token B has `exp` 10, and the handlers run at 9950 ms. A `getToken` at 9950 ms finds B stale (50 < 100), re-adopts B's generation, and returns B. No fetch is made. | Clear `nextState` when promoting, so that a stale generation is never re-adopted and the next update fetches a fresh token. | not executed | Scenarios.ReadoptsStaleGeneration | Theorems.StaleNeverReadopted |
| src/index.ts:103-108 | `dispose` clears only the timer in `timeout`. After the re-adoption above, two armed timers capture the current generation, and only the newer one is in `timeout`. | The trace above, then `dispose()`. The older timer then fires and calls the Token Source on the disposed cache. | After `dispose`, no armed timer can call the Token Source. | not executed | Scenarios.FetchAfterDispose | Theorems.OnlyTimeoutCanFetch |
| src/index.ts:84-88 | Line 88 arms the timer for whatever `statePromise` is when the owner resumes. An owner that re-adopted an already-resolved generation can be overtaken by a caller that registered on that generation earlier. That caller can install a new fetch first. | The trace of the first row, but with two `getToken` calls at 9950 ms. The first resumed re-adopts B. The second then runs first, because it registered earlier, and fetches generation 2. The first resumes, returns B and arms a timer on pending generation 2 with delay -550 ms. The timer fires and calls the Token Source while generation 2 is in flight. | No second Token Source call while the current generation is in flight. Clearing `nextState` on promotion restores this. | not executed | Scenarios.PrefetchWhileInFlight | Theorems.InFlightRun |
