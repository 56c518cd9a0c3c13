/**
  The token cache coordinator of src/index.ts as an event-driven state machine.

  JavaScript runs one callback at a time, so every stretch of code between two
  awaits is one atomic step.  Every promise the coordinator compares by
  identity is a call of the Token Source, and becomes a natural-number fetch id:
  the id is the position of the call in `fetches`, so `|fetches|` counts the
  calls of the Token Source.  Armed timers, the `.then` handlers of background
  fetches and the suspended `getToken` calls are kept as explicit collections,
  and the environment picks which one runs next.
 */
module Coordinator {
  import opened Wrappers
  import opened Expiry

  type FetchId = nat
  type TimerId = nat
  type CallerId = nat

  /** The options of `jwtCache`, after defaults. */
  datatype Config = Config(eagerRefreshMilliseconds: int, minimumValidityMilliseconds: int)

  /**
    Which reading of the background promotion (src/index.ts:56-61) is used:
    the code as written leaves `nextState` pointing at the generation it has
    just promoted; the corrected build clears it.
   */
  datatype Build = AsWritten | Corrected

  /** The state of one call of the Token Source followed by decoding. */
  datatype Settlement = Pending | Resolved(state: Cached) | Rejected(error: Error)

  /** An armed `setTimeout`: the `currentStatePromise` its callback captured, and its delay. */
  datatype Timer = Timer(generation: Option<FetchId>, delay: int)

  /** Where one `getToken` call (or the construction-time prefetch) stands. */
  datatype Phase =
    | Checking(generation: FetchId)  // awaiting the captured `stateP` before the freshness check
    | Joining(generation: FetchId)   // awaiting a generation another call installed
    | Owning(generation: FetchId, first: bool) // awaiting the generation this call installed; `first`
                                               // when no other call was already awaiting it
    | Returned(token: string)
    | Failed(error: Error)
  {
    predicate Waiting() {
      Checking? || Joining? || Owning?
    }
  }

  datatype State = State(
    disposed: bool,
    statePromise: Option<FetchId>,    // the current generation
    nextState: Option<FetchId>,       // the generation prefetched in the background
    timeout: Option<TimerId>,         // the most recently armed timer
    fetches: seq<Settlement>,         // every call of the Token Source, by id
    timers: map<TimerId, Timer>,      // timers armed and neither fired nor cleared
    timersArmed: nat,                 // how many timers were ever armed
    watchers: map<FetchId, Option<FetchId>>, // background fetches whose handlers have not run, with their captured generation
    callers: seq<Phase>)              // every `getToken` call, by id

  /** The result of `getUpdatedToken` up to its first await: the new state and where the caller waits. */
  datatype Update = Update(state: State, phase: Phase)

  datatype Event =
    | CallEnter                                        // `getToken()` is called
    | CallResume(caller: CallerId, now: int)           // a suspended call continues
    | FetchResolve(fetch: FetchId, token: string, claims: Decoded)
    | FetchReject(fetch: FetchId, reason: string)
    | TimerFire(timer: TimerId)
    | WatchResume(fetch: FetchId, now: int)            // the handlers of a background fetch run
    | Dispose

  const DefaultEagerRefresh: int := 0
  const DefaultMinimumValidity: int := 1000

  /** The options after destructuring: an omitted option takes its default. */
  function Configure(eager: Option<int>, minimum: Option<int>): (c: Config)
    ensures eager.None? ==> c.eagerRefreshMilliseconds == 0
    ensures minimum.None? ==> c.minimumValidityMilliseconds == 1000
    ensures eager.Some? ==> c.eagerRefreshMilliseconds == eager.value
    ensures minimum.Some? ==> c.minimumValidityMilliseconds == minimum.value
  {
    Config(if eager.Some? then eager.value else DefaultEagerRefresh,
           if minimum.Some? then minimum.value else DefaultMinimumValidity)
  }

  /** The freshness check: the cached credential may be served at `now`. */
  predicate Fresh(c: Config, st: Cached, now: int) {
    st.expiry - now >= c.minimumValidityMilliseconds
  }

  /** The background path is switched on (any nonzero lead time is truthy). */
  predicate EagerOn(c: Config) {
    c.eagerRefreshMilliseconds != 0
  }

  /** `getUpdatedToken(captured)` joins instead of advancing the generation. */
  predicate Joins(s: State, captured: Option<FetchId>) {
    s.statePromise.Some? && s.statePromise != captured
  }

  /** Some call other than `self` is suspended on generation `g`. */
  predicate Awaited(s: State, g: FetchId, self: CallerId) {
    exists i | 0 <= i < |s.callers| :: i != self && s.callers[i].Waiting() && s.callers[i].generation == g
  }

  function SetPhase(s: State, id: CallerId, p: Phase): State
    requires id < |s.callers|
  {
    s.(callers := s.callers[id := p])
  }

  /**
    `getUpdatedToken(captured)`, run by call `self`, up to its first await.
    When another generation is current the call joins it: nothing changes
    and no fetch is issued.  Otherwise the prefetched generation, if any,
    becomes current without a fetch, or else exactly one fetch is issued and
    becomes current; either way the prefetch slot is emptied before the
    await.  The call's await is the first one on its generation exactly when
    no other call is already suspended on it.
   */
  function UpdateToken(s: State, captured: Option<FetchId>, self: CallerId): (u: Update)
    ensures Joins(s, captured) ==> u.state == s && u.phase == Joining(s.statePromise.value)
    ensures !Joins(s, captured) ==>
      && u.phase.Owning?
      && (u.phase.first <==> !Awaited(s, u.phase.generation, self))
      && u.state.statePromise == Some(u.phase.generation)
      && u.state.nextState.None?
      && u.state == s.(statePromise := u.state.statePromise, nextState := None, fetches := u.state.fetches)
    ensures !Joins(s, captured) && s.nextState.Some? ==>
      u.phase.generation == s.nextState.value && u.state.fetches == s.fetches
    ensures !Joins(s, captured) && s.nextState.None? ==>
      u.phase.generation == |s.fetches| && u.state.fetches == s.fetches + [Pending]
  {
    if Joins(s, captured) then
      Update(s, Joining(s.statePromise.value))
    else if s.nextState.Some? then
      var g := s.nextState.value;
      Update(s.(statePromise := s.nextState, nextState := None), Owning(g, !Awaited(s, g, self)))
    else
      var g := |s.fetches|;
      Update(s.(statePromise := Some(g), nextState := None, fetches := s.fetches + [Pending]), Owning(g, !Awaited(s, g, self)))
  }

  /**
    `handleEagerRefresh(st, current)`: unless the cache is disposed or the
    background path is off, arms exactly one timer and remembers it in
    `timeout`.  The timer is due `eagerRefreshMilliseconds` before the last
    instant at which `st` still passes the freshness check; the delay may be
    negative.
   */
  function ArmEager(c: Config, s: State, st: Cached, current: Option<FetchId>, now: int): (r: State)
    ensures s.disposed || !EagerOn(c) ==> r == s
    ensures !s.disposed && EagerOn(c) ==>
      && r == s.(timers := r.timers, timersArmed := s.timersArmed + 1, timeout := Some(s.timersArmed))
      && r.timers.Keys == s.timers.Keys + {s.timersArmed}
      && (forall t :: t in s.timers && t != s.timersArmed ==> r.timers[t] == s.timers[t])
      && r.timers[s.timersArmed].generation == current
      && var due := now + r.timers[s.timersArmed].delay;
         Fresh(c, st, due + c.eagerRefreshMilliseconds) && !Fresh(c, st, due + c.eagerRefreshMilliseconds + 1)
  {
    if s.disposed || !EagerOn(c) then s
    else
      var t := s.timersArmed;
      var delay := st.expiry - now - c.minimumValidityMilliseconds - c.eagerRefreshMilliseconds;
      s.(timers := s.timers[t := Timer(current, delay)], timersArmed := t + 1, timeout := Some(t))
  }

  /**
    Construction: the four variables start empty; with the background path on,
    one `getUpdatedToken(undefined)` is started at once, whose failure nobody
    observes (it is caller 0).
   */
  function Init(c: Config): (s: State)
    ensures !s.disposed && s.nextState.None? && s.timeout.None?
    ensures s.timers == map[] && s.watchers == map[] && s.timersArmed == 0
    ensures !EagerOn(c) <==> |s.fetches| == 0
    ensures !EagerOn(c) ==> s.statePromise.None? && s.callers == []
    ensures EagerOn(c) ==> s.fetches == [Pending] && s.statePromise == Some(0) && s.callers == [Owning(0, true)]
  {
    var empty := State(false, None, None, None, [], map[], 0, map[], []);
    if EagerOn(c) then
      var u := UpdateToken(empty, None, 0);
      u.state.(callers := [u.phase])
    else
      empty
  }

  /**
    `getToken` up to its first await.  After disposal it fails at once and
    touches nothing else.  Otherwise it captures the current generation and
    waits for it, or, when there is none, installs one itself.
   */
  function Enter(s: State): (r: State)
    ensures |r.callers| == |s.callers| + 1 && r.callers[..|s.callers|] == s.callers
    ensures s.disposed ==> r == s.(callers := s.callers + [Failed(Disposed)])
    ensures !s.disposed && s.statePromise.Some? ==> r == s.(callers := s.callers + [Checking(s.statePromise.value)])
    ensures !s.disposed && s.statePromise.None? ==>
      var u := UpdateToken(s, None, |s.callers|);
      r == u.state.(callers := s.callers + [u.phase])
  {
    if s.disposed then
      s.(callers := s.callers + [Failed(Disposed)])
    else if s.statePromise.Some? then
      s.(callers := s.callers + [Checking(s.statePromise.value)])
    else
      var u := UpdateToken(s, None, |s.callers|);
      u.state.(callers := s.callers + [u.phase])
  }

  /**
    A suspended call may continue: the promise it awaits has settled, and a
    call whose await was the first one registered on that promise has run
    first.  Reactions to one promise run in registration order; the model
    only enforces it for the first-registered owner, and otherwise lets the
    environment choose.
   */
  predicate ResumeEnabled(s: State, id: CallerId) {
    && id < |s.callers|
    && s.callers[id].Waiting()
    && s.callers[id].generation < |s.fetches|
    && !s.fetches[s.callers[id].generation].Pending?
    && (s.callers[id] == Owning(s.callers[id].generation, true) || Owning(s.callers[id].generation, true) !in s.callers)
  }

  /**
    A suspended call continues.  A failed generation fails every caller
    awaiting it and is not retried; only its owner forgets it.  A caller that
    captured a resolved generation returns its token exactly when the token
    passes the freshness check, and otherwise calls `getUpdatedToken`.  The
    owner of a resolved generation hands it to the background path, with the
    generation that is current at that moment.
   */
  function Resume(c: Config, s: State, id: CallerId, now: int): (r: State)
    requires ResumeEnabled(s, id)
    ensures |r.callers| == |s.callers|
    ensures forall j :: 0 <= j < |s.callers| && j != id ==> r.callers[j] == s.callers[j]
    ensures r.disposed == s.disposed && r.watchers == s.watchers
    ensures var x := s.callers[id].generation;
      s.fetches[x].Rejected? ==>
        && r.callers[id] == Failed(s.fetches[x].error)
        && r == s.(callers := r.callers, statePromise := r.statePromise)
        && r.statePromise == (if s.callers[id].Owning? then None else s.statePromise)
    ensures var x := s.callers[id].generation;
      s.callers[id].Checking? && s.fetches[x].Resolved? ==>
        (r.callers[id] == Returned(s.fetches[x].state.token) <==> Fresh(c, s.fetches[x].state, now))
    ensures var x := s.callers[id].generation;
      s.callers[id].Checking? && s.fetches[x].Resolved? && Fresh(c, s.fetches[x].state, now) ==>
        r == s.(callers := r.callers)
    ensures var x := s.callers[id].generation;
      s.callers[id].Checking? && s.fetches[x].Resolved? && !Fresh(c, s.fetches[x].state, now) ==>
        var u := UpdateToken(s, Some(x), id);
        r == u.state.(callers := s.callers[id := u.phase])
    ensures var x := s.callers[id].generation;
      s.callers[id].Joining? && s.fetches[x].Resolved? ==>
        r == s.(callers := r.callers) && r.callers[id] == Returned(s.fetches[x].state.token)
    ensures var x := s.callers[id].generation;
      s.callers[id].Owning? && s.fetches[x].Resolved? ==>
        && r.callers[id] == Returned(s.fetches[x].state.token)
        && r == ArmEager(c, s, s.fetches[x].state, s.statePromise, now).(callers := r.callers)
  {
    var x := s.callers[id].generation;
    match s.fetches[x]
    case Rejected(e) =>
      var s1 := if s.callers[id].Owning? then s.(statePromise := None) else s;
      SetPhase(s1, id, Failed(e))
    case Resolved(st) =>
      (match s.callers[id]
       case Checking(_) =>
         if Fresh(c, st, now) then SetPhase(s, id, Returned(st.token))
         else
           var u := UpdateToken(s, Some(x), id);
           u.state.(callers := s.callers[id := u.phase])
       case Joining(_) => SetPhase(s, id, Returned(st.token))
       case Owning(_, _) => SetPhase(ArmEager(c, s, st, s.statePromise, now), id, Returned(st.token)))
  }

  /**
    An armed timer fires.  It is a no-op unless the generation it captured is
    still current; then it issues one background fetch, records it as the
    prefetched generation and registers its handlers.  The current generation
    keeps serving callers.
   */
  function FireTimer(s: State, t: TimerId): (r: State)
    requires t in s.timers
    ensures s.statePromise != s.timers[t].generation ==> r == s.(timers := s.timers - {t})
    ensures s.statePromise == s.timers[t].generation ==>
      && r.fetches == s.fetches + [Pending]
      && r.nextState == Some(|s.fetches|)
      && r.watchers == s.watchers[|s.fetches| := s.timers[t].generation]
      && r == s.(timers := s.timers - {t}, fetches := r.fetches, nextState := r.nextState, watchers := r.watchers)
  {
    var s1 := s.(timers := s.timers - {t});
    var gen := s.timers[t].generation;
    if s.statePromise == gen then
      var y := |s.fetches|;
      s1.(fetches := s.fetches + [Pending], nextState := Some(y), watchers := s.watchers[y := gen])
    else
      s1
  }

  /** The handlers of background fetch `y` may still act: `y` is the prefetched
      generation and the generation its timer captured is still current. */
  predicate Relevant(s: State, y: FetchId)
    requires y in s.watchers
  {
    s.nextState == Some(y) && s.statePromise == s.watchers[y]
  }

  /**
    The handlers of a settled background fetch run.  They never issue a fetch
    and never fail or answer a caller.  If they are no longer relevant they do
    nothing.  Otherwise a success promotes the fetch to the current generation
    and re-arms the background path; a failure only empties the prefetch slot.
   */
  function SettleBackground(b: Build, c: Config, s: State, y: FetchId, now: int): (r: State)
    requires y in s.watchers && y < |s.fetches| && !s.fetches[y].Pending?
    ensures r.callers == s.callers && r.fetches == s.fetches && r.disposed == s.disposed
    ensures r.watchers == s.watchers - {y}
    ensures !Relevant(s, y) ==> r == s.(watchers := s.watchers - {y})
    ensures Relevant(s, y) && s.fetches[y].Rejected? ==>
      r == s.(watchers := s.watchers - {y}, nextState := None)
    ensures Relevant(s, y) && s.fetches[y].Resolved? ==>
      && r.statePromise == Some(y)
      && r.nextState == (if b.Corrected? then None else Some(y))
      && r == ArmEager(c, s.(watchers := s.watchers - {y}, statePromise := Some(y), nextState := r.nextState),
                       s.fetches[y].state, Some(y), now)
  {
    var s1 := s.(watchers := s.watchers - {y});
    if !Relevant(s, y) then s1
    else
      match s.fetches[y]
      case Rejected(_) => s1.(nextState := None)
      case Resolved(st) =>
        var next := if b.Corrected? then None else s.nextState;
        ArmEager(c, s1.(statePromise := Some(y), nextState := next), st, Some(y), now)
  }

  /**
    `dispose`: sets `disposed` and clears the timer held in `timeout`, which is
    the most recently armed one.  Nothing else changes; a second call changes
    nothing.
   */
  function DisposeCache(s: State): (r: State)
    ensures r.disposed
    ensures r == s.(disposed := true, timers := r.timers)
    ensures s.timeout.None? ==> r.timers == s.timers
    ensures s.timeout.Some? ==> r.timers == s.timers - {s.timeout.value}
  {
    s.(disposed := true, timers := if s.timeout.Some? then s.timers - {s.timeout.value} else s.timers)
  }

  /** The settlement of a fetch whose Token Source call returned `token`. */
  function Settle(token: string, claims: Decoded): (r: Settlement)
    ensures r.Resolved? <==> HasNumericExp(claims)
    ensures r.Resolved? ==> r.state.token == token
    ensures r.Rejected? <==> GetState(token, claims).Failure?
    ensures r.Resolved? ==> r.state == GetState(token, claims).value
    ensures r.Rejected? ==> r.error == GetState(token, claims).error
  {
    match GetState(token, claims)
    case Success(st) => Resolved(st)
    case Failure(e) => Rejected(e)
  }

  /**
    One event, or None when the event cannot happen in `s`.  Only `dispose`
    sets `disposed`, and nothing clears it; the Token Source is only ever
    called more, and `getToken` calls are never forgotten.
   */
  function Step(b: Build, c: Config, s: State, e: Event): (r: Option<State>)
    ensures r.Some? ==> r.value.disposed == (s.disposed || e.Dispose?)
    ensures r.Some? ==> |s.fetches| <= |r.value.fetches| && |s.callers| <= |r.value.callers|
    ensures e.CallEnter? || e.Dispose? ==> r.Some?
  {
    match e
    case CallEnter => Some(Enter(s))
    case CallResume(id, now) =>
      if ResumeEnabled(s, id) then Some(Resume(c, s, id, now)) else None
    case FetchResolve(f, token, claims) =>
      if f < |s.fetches| && s.fetches[f].Pending? then
        Some(s.(fetches := s.fetches[f := Settle(token, claims)]))
      else None
    case FetchReject(f, reason) =>
      if f < |s.fetches| && s.fetches[f].Pending? then
        Some(s.(fetches := s.fetches[f := Rejected(SourceFailed(reason))]))
      else None
    case TimerFire(t) =>
      if t in s.timers then Some(FireTimer(s, t)) else None
    case WatchResume(y, now) =>
      if y in s.watchers && y < |s.fetches| && !s.fetches[y].Pending? then
        Some(SettleBackground(b, c, s, y, now))
      else None
    case Dispose => Some(DisposeCache(s))
  }

  /**
    A trace of events from `s`, or None if some event cannot happen.  Along
    any trace a disposed cache stays disposed and the count of Token Source
    calls never goes down.
   */
  function Run(b: Build, c: Config, s: State, es: seq<Event>): (r: Option<State>)
    ensures r.Some? && s.disposed ==> r.value.disposed
    ensures r.Some? ==> |s.fetches| <= |r.value.fetches|
    decreases |es|
  {
    if es == [] then Some(s)
    else
      match Step(b, c, s, es[0])
      case None => None
      case Some(s') => Run(b, c, s', es[1..])
  }
}
