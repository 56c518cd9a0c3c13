/**
  What the coordinator guarantees over whole traces of events: disposal,
  single-flight, the relevance guards and the eager timer.  Statements about
  `Corrected` rely on `Sound`; the rest hold in both builds.
 */
module Theorems {
  import opened Wrappers
  import opened Expiry
  import opened Coordinator
  import opened Invariants

  /** `s` is reached from construction by some trace, in the corrected build. */
  ghost predicate Reachable(c: Config, s: State) {
    exists es :: Run(Corrected, c, Init(c), es) == Some(s)
  }

  lemma {:induction false} RunValid(b: Build, c: Config, s: State, es: seq<Event>)
    requires Valid(s) && Run(b, c, s, es).Some?
    ensures Valid(Run(b, c, s, es).value)
    decreases |es|
  {
    if es != [] {
      var s' := Step(b, c, s, es[0]).value;
      StepValid(b, c, s, es[0], s');
      RunValid(b, c, s', es[1..]);
    }
  }

  lemma {:induction false} RunSound(c: Config, s: State, es: seq<Event>)
    requires Sound(s) && Run(Corrected, c, s, es).Some?
    ensures Sound(Run(Corrected, c, s, es).value)
    decreases |es|
  {
    if es != [] {
      var s' := Step(Corrected, c, s, es[0]).value;
      StepSound(c, s, es[0], s');
      RunSound(c, s', es[1..]);
    }
  }

  /** Every state reachable from construction satisfies the race-avoidance invariant. */
  lemma ReachableSound(c: Config, s: State)
    requires Reachable(c, s)
    ensures Sound(s)
  {
    var es :| Run(Corrected, c, Init(c), es) == Some(s);
    InitSound(c);
    RunSound(c, Init(c), es);
  }

  // ---------------------------------------------------------------------------
  // Disposal

  /** `dispose` is idempotent. */
  lemma DisposeIdempotent(s: State)
    ensures DisposeCache(DisposeCache(s)) == DisposeCache(s)
  {
  }

  /** After disposal no event arms a timer and `getToken` fails at once, touching nothing else. */
  lemma DisposedStep(b: Build, c: Config, s: State, e: Event, s': State)
    requires Valid(s) && s.disposed && Step(b, c, s, e) == Some(s')
    ensures s'.disposed
    ensures s'.timers.Keys <= s.timers.Keys
    ensures e.CallEnter? ==> s' == s.(callers := s.callers + [Failed(Disposed)])
  {
  }

  /** Along any trace after disposal the armed timers only go away. */
  lemma {:induction false} DisposedRun(b: Build, c: Config, s: State, es: seq<Event>)
    requires Valid(s) && s.disposed && Run(b, c, s, es).Some?
    ensures Run(b, c, s, es).value.disposed
    ensures Run(b, c, s, es).value.timers.Keys <= s.timers.Keys
    decreases |es|
  {
    if es != [] {
      var s' := Step(b, c, s, es[0]).value;
      StepValid(b, c, s, es[0], s');
      DisposedStep(b, c, s, es[0], s');
      DisposedRun(b, c, s', es[1..]);
    }
  }

  /**
    In a reachable state at most one armed timer can still issue a fetch, and
    it is the one held in `timeout`: the one `dispose` clears.  So once the
    cache is disposed no armed timer can issue a fetch.
   */
  lemma OnlyTimeoutCanFetch(c: Config, s: State, t: TimerId)
    requires Reachable(c, s) && t in s.timers && s.timers[t].generation == s.statePromise
    ensures s.timeout == Some(t)
    ensures !s.disposed
  {
    ReachableSound(c, s);
    assert Live(s, t);
  }

  /**
    After disposal a fetch is only ever issued by a `getToken` call that had
    already passed the disposed check and captured a generation; no timer and
    no background handler issues one.
   */
  lemma DisposedFetchOnlyByWaitingCaller(c: Config, s: State, e: Event, s': State)
    requires Sound(s) && s.disposed && Step(Corrected, c, s, e) == Some(s')
    ensures |s'.fetches| > |s.fetches| ==> e.CallResume? && s.callers[e.caller].Checking?
  {
    match e
    case TimerFire(t) =>
      assert !Live(s, t);
    case CallResume(id, now) =>
    case _ =>
  }

  /** Along any trace after disposal that resumes no suspended call, the Token Source is not called. */
  lemma {:induction false} DisposedQuiet(c: Config, s: State, es: seq<Event>)
    requires Sound(s) && s.disposed && Run(Corrected, c, s, es).Some?
    requires forall k :: 0 <= k < |es| ==> !es[k].CallResume?
    ensures |Run(Corrected, c, s, es).value.fetches| == |s.fetches|
    decreases |es|
  {
    if es != [] {
      var s' := Step(Corrected, c, s, es[0]).value;
      StepSound(c, s, es[0], s');
      DisposedFetchOnlyByWaitingCaller(c, s, es[0], s');
      assert forall k :: 0 <= k < |es[1..]| ==> !es[1..][k].CallResume?;
      DisposedQuiet(c, s', es[1..]);
    }
  }

  // ---------------------------------------------------------------------------
  // Single flight

  /**
    While the current generation is a pending fetch, no `getToken` call
    starts another one: entering captures it, and a caller whose captured
    generation went stale joins it.  No invariant is needed for this.
   */
  lemma PendingCallersJoin(b: Build, c: Config, s: State, e: Event, s': State)
    requires s.statePromise.Some? && s.statePromise.value < |s.fetches| && s.fetches[s.statePromise.value].Pending?
    requires e.CallEnter? || e.CallResume?
    requires Step(b, c, s, e) == Some(s')
    ensures |s'.fetches| == |s.fetches|
  {
    match e
    case CallEnter =>
    case CallResume(id, now) =>
      var p := s.callers[id].generation;
      assert p != s.statePromise.value;
      if s.callers[id].Checking? && s.fetches[p].Resolved? && !Fresh(c, s.fetches[p].state, now) {
        assert Joins(s, Some(p));
      }
  }

  /** A step that does not settle the in-flight current generation leaves it current and calls the Token Source no more. */
  lemma InFlightStep(c: Config, s: State, e: Event, s': State)
    requires Sound(s) && Step(Corrected, c, s, e) == Some(s')
    requires s.statePromise.Some? && s.fetches[s.statePromise.value].Pending?
    requires !((e.FetchResolve? || e.FetchReject?) && e.fetch == s.statePromise.value)
    ensures s'.statePromise == s.statePromise
    ensures |s'.fetches| == |s.fetches| && s'.fetches[s.statePromise.value].Pending?
  {
    var x := s.statePromise.value;
    match e
    case CallEnter =>
    case CallResume(id, now) =>
      var p := s.callers[id].generation;
      assert !s.callers[id].Owning?;
      if s.callers[id].Checking? && s.fetches[p].Resolved? && !Fresh(c, s.fetches[p].state, now) {
        assert Joins(s, Some(p));
      }
    case TimerFire(t) =>
      assert Owned(s);
    case WatchResume(y, now) =>
      assert Owned(s);
    case _ =>
  }

  /**
    Single flight over any trace: once a generation is in flight, whatever
    happens (calls entering and resuming, timers, background handlers,
    disposal, other fetches settling) the Token Source is not called again
    until that generation settles, and it stays current.
   */
  lemma {:induction false} InFlightRun(c: Config, s: State, es: seq<Event>)
    requires Sound(s) && Run(Corrected, c, s, es).Some?
    requires s.statePromise.Some? && s.fetches[s.statePromise.value].Pending?
    requires forall k :: 0 <= k < |es| ==> !((es[k].FetchResolve? || es[k].FetchReject?) && es[k].fetch == s.statePromise.value)
    ensures Run(Corrected, c, s, es).value.statePromise == s.statePromise
    ensures |Run(Corrected, c, s, es).value.fetches| == |s.fetches|
    decreases |es|
  {
    if es != [] {
      var s' := Step(Corrected, c, s, es[0]).value;
      InFlightStep(c, s, es[0], s');
      StepSound(c, s, es[0], s');
      assert forall k :: 0 <= k < |es[1..]| ==> es[1..][k] == es[k + 1];
      InFlightRun(c, s', es[1..]);
    }
  }

  function Enters(n: nat): (es: seq<Event>)
    ensures |es| == n && forall k :: 0 <= k < n ==> es[k] == CallEnter
  {
    seq(n, _ => CallEnter)
  }

  /** `n` calls entering while generation `x` is current all capture `x` and issue no fetch. */
  lemma {:induction false} EntersJoin(b: Build, c: Config, s: State, n: nat)
    requires !s.disposed && s.statePromise.Some?
    ensures Run(b, c, s, Enters(n)) == Some(s.(callers := s.callers + seq(n, _ => Checking(s.statePromise.value))))
    decreases n
  {
    var x := s.statePromise.value;
    if n > 0 {
      var s1 := s.(callers := s.callers + [Checking(x)]);
      assert Step(b, c, s, CallEnter) == Some(s1);
      assert Enters(n)[1..] == Enters(n - 1);
      EntersJoin(b, c, s1, n - 1);
      assert s1.callers + seq(n - 1, _ => Checking(x)) == s.callers + seq(n, _ => Checking(x));
    } else {
      assert s.callers + seq(0, _ => Checking(x)) == s.callers;
    }
  }

  /**
    Deduplication: `n >= 1` calls entering when there is no generation and no
    prefetch issue exactly one fetch; the first call owns it and the others
    wait on it.
   */
  lemma EntersDeduplicate(b: Build, c: Config, s: State, n: nat)
    requires Valid(s) && !s.disposed && s.statePromise.None? && s.nextState.None? && n >= 1
    ensures Run(b, c, s, Enters(n)).Some?
    ensures var t := Run(b, c, s, Enters(n)).value;
      var g := |s.fetches|;
      && t.fetches == s.fetches + [Pending]
      && t.statePromise == Some(g)
      && t.callers == s.callers + [Owning(g, true)] + seq(n - 1, _ => Checking(g))
  {
    var g := |s.fetches|;
    var s1 := Enter(s);
    assert s1 == s.(statePromise := Some(g), nextState := None, fetches := s.fetches + [Pending], callers := s.callers + [Owning(g, true)]);
    assert Enters(n)[1..] == Enters(n - 1);
    EntersJoin(b, c, s1, n - 1);
  }

  // ---------------------------------------------------------------------------
  // Generation advance and relevance

  /**
    The owner of a generation acts on its own generation: when it resumes,
    the `statePromise` it reads is the one it installed, so the timer it arms
    is for that generation, and on failure it forgets exactly that generation.
   */
  lemma OwnerResumesOnOwnGeneration(c: Config, s: State, id: CallerId, now: int, s': State)
    requires Reachable(c, s)
    requires id < |s.callers| && s.callers[id].Owning?
    requires Step(Corrected, c, s, CallResume(id, now)) == Some(s')
    ensures s.statePromise == Some(s.callers[id].generation)
    ensures s.fetches[s.callers[id].generation].Rejected? ==> s'.statePromise.None?
    ensures s.fetches[s.callers[id].generation].Resolved? && !s.disposed && EagerOn(c) ==>
      s'.timeout.Some? && s'.timers[s'.timeout.value].generation == Some(s.callers[id].generation)
  {
    ReachableSound(c, s);
  }

  /**
    A caller that judged its generation `x` stale never ends up waiting on
    `x` again: it joins a different current generation, or owns a new one.
   */
  lemma StaleNeverReadopted(c: Config, s: State, id: CallerId, now: int, s': State)
    requires Reachable(c, s)
    requires id < |s.callers| && s.callers[id].Checking?
    requires var x := s.callers[id].generation;
      x < |s.fetches| && s.fetches[x].Resolved? && !Fresh(c, s.fetches[x].state, now)
    requires Step(Corrected, c, s, CallResume(id, now)) == Some(s')
    ensures s'.callers[id].Joining? || s'.callers[id].Owning?
    ensures s'.callers[id].generation != s.callers[id].generation
  {
    ReachableSound(c, s);
  }

  /**
    A timer whose generation is no longer current, and the handlers of a
    background fetch that is no longer relevant, change nothing but their own
    bookkeeping: in particular they issue no fetch and touch neither the
    current nor the prefetched generation.
   */
  lemma StaleContinuationsInert(b: Build, c: Config, s: State, e: Event, s': State)
    requires Step(b, c, s, e) == Some(s')
    requires e.TimerFire? ==> s.timers[e.timer].generation != s.statePromise
    requires e.WatchResume? ==> !Relevant(s, e.fetch)
    requires e.TimerFire? || e.WatchResume?
    ensures s'.statePromise == s.statePromise && s'.nextState == s.nextState
    ensures s'.fetches == s.fetches && s'.callers == s.callers && s'.timeout == s.timeout
  {
  }

  /**
    Lazy construction: with the background path off, nothing calls the Token
    Source until the first `getToken`.
   */
  lemma {:induction false} LazyUntilFirstCall(b: Build, c: Config, s: State, es: seq<Event>)
    requires !EagerOn(c)
    requires s.fetches == [] && s.callers == [] && s.timers == map[] && s.watchers == map[]
    requires s.statePromise.None? && s.nextState.None?
    requires forall k :: 0 <= k < |es| ==> !es[k].CallEnter?
    requires Run(b, c, s, es).Some?
    ensures Run(b, c, s, es).value.fetches == []
    decreases |es|
  {
    if es != [] {
      var s' := Step(b, c, s, es[0]).value;
      assert s' == s || s' == DisposeCache(s);
      assert forall k :: 0 <= k < |es[1..]| ==> es[1..][k] == es[k + 1];
      LazyUntilFirstCall(b, c, s', es[1..]);
    }
  }

  /** From construction itself: a lazy cache has called the Token Source zero times, an eager one once. */
  lemma ConstructionFetches(b: Build, c: Config, es: seq<Event>)
    requires forall k :: 0 <= k < |es| ==> !es[k].CallEnter?
    requires Run(b, c, Init(c), es).Some?
    ensures !EagerOn(c) ==> Run(b, c, Init(c), es).value.fetches == []
    ensures EagerOn(c) ==> |Init(c).fetches| == 1
  {
    if !EagerOn(c) {
      LazyUntilFirstCall(b, c, Init(c), es);
    }
  }
}
