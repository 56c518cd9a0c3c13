/**
  Invariants of the coordinator over every trace of events.

  `Valid` holds in both builds: every id the state mentions names an issued
  fetch or an armed timer, and after disposal the timer in `timeout` is gone.
  `Sound` holds in the corrected build and carries the race-avoidance
  argument: the owner of a generation is the only one who can act on it, the
  prefetched generation is never the current one, and at most one armed timer
  can still fire usefully, namely the one `dispose` clears.
 */
module Invariants {
  import opened Wrappers
  import opened Expiry
  import opened Coordinator

  predicate Below(g: Option<FetchId>, n: nat) {
    g.Some? ==> g.value < n
  }

  /** The timer held in `timeout` is no longer armed. */
  predicate TimeoutCleared(s: State) {
    s.timeout.None? || s.timeout.value !in s.timers
  }

  ghost predicate Valid(s: State) {
    && Below(s.statePromise, |s.fetches|)
    && Below(s.nextState, |s.fetches|)
    && (forall y :: y in s.watchers ==> y < |s.fetches| && Below(s.watchers[y], |s.fetches|))
    && (forall t :: t in s.timers ==> t < s.timersArmed && Below(s.timers[t].generation, |s.fetches|))
    && Below(s.timeout, s.timersArmed)
    && (forall i :: 0 <= i < |s.callers| && s.callers[i].Waiting() ==> s.callers[i].generation < |s.fetches|)
    && (s.disposed ==> TimeoutCleared(s))
  }

  /** Some call owns a generation (by `OwnersCurrent`, the current one). */
  ghost predicate Owned(s: State) {
    exists i :: 0 <= i < |s.callers| && s.callers[i].Owning?
  }

  /** An armed timer that would issue a fetch if it fired now. */
  predicate Live(s: State, t: TimerId) {
    t in s.timers && s.timers[t].generation == s.statePromise
  }

  ghost predicate OwnersCurrent(s: State) {
    forall i :: 0 <= i < |s.callers| && s.callers[i].Owning? ==> s.statePromise == Some(s.callers[i].generation)
  }

  /** Every owner's await was the first one registered on its generation. */
  ghost predicate OwnersFirst(s: State) {
    forall i :: 0 <= i < |s.callers| && s.callers[i].Owning? ==> s.callers[i].first
  }

  ghost predicate OneOwner(s: State) {
    forall i, j :: 0 <= i < |s.callers| && 0 <= j < |s.callers| && s.callers[i].Owning? && s.callers[j].Owning? ==> i == j
  }

  /** While the current generation is owned, nothing else is waiting to act on it. */
  ghost predicate OwnedUntouched(s: State) {
    Owned(s) ==>
      && (forall t :: t in s.timers ==> s.timers[t].generation != s.statePromise)
      && (forall y :: y in s.watchers ==> s.watchers[y] != s.statePromise)
  }

  /** Nothing was ever armed for the prefetched generation, and no call waits on it. */
  ghost predicate PrefetchUntouched(s: State) {
    s.nextState.Some? ==>
      && (forall t :: t in s.timers ==> s.timers[t].generation != s.nextState)
      && (forall y :: y in s.watchers ==> s.watchers[y] != s.nextState)
      && (forall i :: 0 <= i < |s.callers| && s.callers[i].Waiting() ==> Some(s.callers[i].generation) != s.nextState)
  }

  ghost predicate OnlyTimeoutLive(s: State) {
    forall t: TimerId :: Live(s, t) ==> s.timeout == Some(t)
  }

  ghost predicate Sound(s: State) {
    && Valid(s)
    && (s.nextState.Some? ==> s.nextState != s.statePromise)
    && OwnersCurrent(s)
    && OwnersFirst(s)
    && OneOwner(s)
    && OwnedUntouched(s)
    && PrefetchUntouched(s)
    && OnlyTimeoutLive(s)
    && (forall t :: t in s.timers ==> s.timers[t].generation.Some?)
    && (s.statePromise.Some? && s.fetches[s.statePromise.value].Pending? ==> Owned(s))
  }

  // ---------------------------------------------------------------------------
  // Valid, both builds

  lemma InitSound(c: Config)
    ensures Sound(Init(c))
  {
    var s := Init(c);
    if EagerOn(c) {
      assert s.callers[0].Owning?;
    }
  }

  lemma EnterValid(s: State)
    requires Valid(s)
    ensures Valid(Enter(s))
  {
    if !s.disposed && s.statePromise.None? {
      var u := UpdateToken(s, None, |s.callers|);
      assert Enter(s) == u.state.(callers := s.callers + [u.phase]);
    }
  }

  lemma ResumeValid(c: Config, s: State, id: CallerId, now: int)
    requires Valid(s) && ResumeEnabled(s, id)
    ensures Valid(Resume(c, s, id, now))
  {
    var x := s.callers[id].generation;
    var r := Resume(c, s, id, now);
    if s.callers[id].Checking? && s.fetches[x].Resolved? && !Fresh(c, s.fetches[x].state, now) {
      var u := UpdateToken(s, Some(x), id);
      assert r == u.state.(callers := s.callers[id := u.phase]);
    }
  }

  lemma FireValid(s: State, t: TimerId)
    requires Valid(s) && t in s.timers
    ensures Valid(FireTimer(s, t))
  {
  }

  lemma SettleValid(b: Build, c: Config, s: State, y: FetchId, now: int)
    requires Valid(s) && y in s.watchers && y < |s.fetches| && !s.fetches[y].Pending?
    ensures Valid(SettleBackground(b, c, s, y, now))
  {
    var r := SettleBackground(b, c, s, y, now);
    if Relevant(s, y) && s.fetches[y].Resolved? {
      var s1 := s.(watchers := s.watchers - {y}, statePromise := Some(y), nextState := r.nextState);
      assert Valid(s1);
    }
  }

  lemma {:induction false} StepValid(b: Build, c: Config, s: State, e: Event, s': State)
    requires Valid(s) && Step(b, c, s, e) == Some(s')
    ensures Valid(s')
  {
    match e
    case CallEnter => EnterValid(s);
    case CallResume(id, now) => ResumeValid(c, s, id, now);
    case FetchResolve(f, token, claims) =>
    case FetchReject(f, reason) =>
    case TimerFire(t) => FireValid(s, t);
    case WatchResume(y, now) => SettleValid(b, c, s, y, now);
    case Dispose =>
  }

  // ---------------------------------------------------------------------------
  // Sound, corrected build

  /** Installing a new generation when nobody owns one, as `getUpdatedToken` does. */
  lemma AdvanceSound(s: State, captured: Option<FetchId>, callers: seq<Phase>, id: CallerId)
    requires Sound(s) && !Joins(s, captured) && !Owned(s)
    requires id < |callers|
    requires forall i :: 0 <= i < |callers| && i != id ==> i < |s.callers| && callers[i] == s.callers[i]
    requires callers[id] == UpdateToken(s, captured, id).phase
    requires Valid(UpdateToken(s, captured, id).state.(callers := callers))
    ensures Sound(UpdateToken(s, captured, id).state.(callers := callers))
  {
    var u := UpdateToken(s, captured, id);
    assert u.phase.first;
    var r := u.state.(callers := callers);
    assert r.callers[id].Owning?;
  }

  lemma EnterSound(s: State)
    requires Sound(s)
    ensures Sound(Enter(s))
  {
    EnterValid(s);
    var r := Enter(s);
    if !s.disposed && s.statePromise.None? {
      var u := UpdateToken(s, None, |s.callers|);
      AdvanceSound(s, None, s.callers + [u.phase], |s.callers|);
    } else {
      assert forall i :: 0 <= i < |r.callers| && r.callers[i].Owning? ==> i < |s.callers| && r.callers[i] == s.callers[i];
    }
  }

  /** Every caller other than `id` keeps its phase, and `id` does not become an owner. */
  lemma OwnersKept(s: State, r: State, id: CallerId)
    requires Sound(s) && id < |s.callers| && |r.callers| == |s.callers|
    requires !s.callers[id].Owning? && !r.callers[id].Owning?
    requires forall j :: 0 <= j < |s.callers| && j != id ==> r.callers[j] == s.callers[j]
    ensures Owned(r) == Owned(s) && OwnersCurrent(s.(callers := r.callers)) && OneOwner(r)
  {
    if Owned(s) {
      var k :| 0 <= k < |s.callers| && s.callers[k].Owning?;
      assert r.callers[k] == s.callers[k];
    }
    if Owned(r) {
      var k :| 0 <= k < |r.callers| && r.callers[k].Owning?;
      assert r.callers[k] == s.callers[k];
    }
  }

  lemma ResumeOwnerSound(c: Config, s: State, id: CallerId, now: int)
    requires Sound(s) && ResumeEnabled(s, id) && s.callers[id].Owning?
    ensures Sound(Resume(c, s, id, now))
  {
    ResumeValid(c, s, id, now);
    var r := Resume(c, s, id, now);
    assert forall i :: 0 <= i < |r.callers| ==> !r.callers[i].Owning? by {
      forall i | 0 <= i < |r.callers|
        ensures !r.callers[i].Owning?
      {
        if i != id {
          assert r.callers[i] == s.callers[i];
        }
      }
    }
  }

  lemma ResumeOtherSound(c: Config, s: State, id: CallerId, now: int)
    requires Sound(s) && ResumeEnabled(s, id) && !s.callers[id].Owning?
    ensures Sound(Resume(c, s, id, now))
  {
    ResumeValid(c, s, id, now);
    var x := s.callers[id].generation;
    var r := Resume(c, s, id, now);
    if s.callers[id].Checking? && s.fetches[x].Resolved? && !Fresh(c, s.fetches[x].state, now) && !Joins(s, Some(x)) {
      var u := UpdateToken(s, Some(x), id);
      AdvanceSound(s, Some(x), s.callers[id := u.phase], id);
    } else {
      OwnersKept(s, r, id);
    }
  }

  lemma FireSound(s: State, t: TimerId)
    requires Sound(s) && t in s.timers
    ensures Sound(FireTimer(s, t))
  {
    FireValid(s, t);
  }

  lemma SettleSound(c: Config, s: State, y: FetchId, now: int)
    requires Sound(s) && y in s.watchers && y < |s.fetches| && !s.fetches[y].Pending?
    ensures Sound(SettleBackground(Corrected, c, s, y, now))
  {
    SettleValid(Corrected, c, s, y, now);
    var r := SettleBackground(Corrected, c, s, y, now);
    if Relevant(s, y) && s.fetches[y].Resolved? {
      var s1 := s.(watchers := s.watchers - {y}, statePromise := Some(y), nextState := None);
      assert Sound(s1);
    }
  }

  lemma {:induction false} StepSound(c: Config, s: State, e: Event, s': State)
    requires Sound(s) && Step(Corrected, c, s, e) == Some(s')
    ensures Sound(s')
  {
    match e
    case CallEnter => EnterSound(s);
    case CallResume(id, now) =>
      if s.callers[id].Owning? {
        ResumeOwnerSound(c, s, id, now);
      } else {
        ResumeOtherSound(c, s, id, now);
      }
    case FetchResolve(f, token, claims) =>
    case FetchReject(f, reason) =>
    case TimerFire(t) => FireSound(s, t);
    case WatchResume(y, now) => SettleSound(c, s, y, now);
    case Dispose =>
  }
}
