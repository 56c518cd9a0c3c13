/**
  Concrete traces: the two scenarios of src/__tests__/index.test.ts, and the
  traces that show what the promotion at src/index.ts:56-61 does as written.
  Times are milliseconds; tokens are signed with a three-second lifetime, so a
  token issued at second k carries `exp` k + 3.
 */
module Scenarios {
  import opened Wrappers
  import opened Expiry
  import opened Coordinator

  /** Running a trace is running its first event, then the rest. */
  lemma RunFirst(b: Build, c: Config, s: State, es: seq<Event>, s': State)
    requires es != [] && Step(b, c, s, es[0]) == Some(s')
    ensures Run(b, c, s, es) == Run(b, c, s', es[1..])
  {
  }

  /** Running two traces one after the other. */
  lemma {:induction false} RunAppend(b: Build, c: Config, s: State, xs: seq<Event>, ys: seq<Event>, m: State)
    requires Run(b, c, s, xs) == Some(m)
    ensures Run(b, c, s, xs + ys) == Run(b, c, m, ys)
    decreases |xs|
  {
    if xs == [] {
      assert xs + ys == ys;
    } else {
      var s' := Step(b, c, s, xs[0]).value;
      assert (xs + ys)[0] == xs[0];
      assert (xs + ys)[1..] == xs[1..] + ys;
      RunAppend(b, c, s', xs[1..], ys, m);
    }
  }

  lemma Run1(b: Build, c: Config, s: State, e: Event, s': State)
    requires Step(b, c, s, e) == Some(s')
    ensures Run(b, c, s, [e]) == Some(s')
  {
    assert [e][1..] == [];
  }

  // ---------------------------------------------------------------------------
  // index.test.ts, lazy (lines 46-84), in either build

  const LazyRound1 := [CallEnter, CallEnter, CallEnter]
  const LazyAnswer1 := [FetchResolve(0, "t1", Claims(Numeric(3))), CallResume(0, 10), CallResume(1, 10), CallResume(2, 10)]
  const LazyRound2 := [CallEnter, CallEnter, CallEnter, CallResume(3, 3110), CallResume(4, 3110), CallResume(5, 3110)]
  const LazyAnswer2 := [FetchResolve(1, "t2", Claims(Numeric(6))), CallResume(3, 3120), CallResume(4, 3120), CallResume(5, 3120)]

  lemma LazyRound1Run(b: Build)
    ensures Run(b, Config(0, 100), Init(Config(0, 100)), [CallEnter, CallEnter, CallEnter])
      == Some(State(false, Some(0), None, None, [Pending], map[], 0, map[], [Owning(0, true), Checking(0), Checking(0)]))
  {
    var s0 := Init(Config(0, 100));
    var s1 := Enter(s0);
    var s2 := Enter(s1);
    var s3 := Enter(s2);
    assert s3 == State(false, Some(0), None, None, [Pending], map[], 0, map[], [Owning(0, true), Checking(0), Checking(0)]);
    Run1(b, Config(0, 100), s2, CallEnter, s3);
    RunFirst(b, Config(0, 100), s1, [CallEnter, CallEnter], s2);
    RunFirst(b, Config(0, 100), s0, [CallEnter, CallEnter, CallEnter], s1);
  }

  lemma LazyAnswer1Run(b: Build)
    ensures Run(b, Config(0, 100), State(false, Some(0), None, None, [Pending], map[], 0, map[], [Owning(0, true), Checking(0), Checking(0)]), [FetchResolve(0, "t1", Claims(Numeric(3))), CallResume(0, 10), CallResume(1, 10), CallResume(2, 10)])
      == Some(State(false, Some(0), None, None, [Resolved(Cached("t1", 3000))], map[], 0, map[], [Returned("t1"), Returned("t1"), Returned("t1")]))
  {
    var s0 := State(false, Some(0), None, None, [Pending], map[], 0, map[], [Owning(0, true), Checking(0), Checking(0)]);
    var s1 := s0.(fetches := [Resolved(Cached("t1", 3000))]);
    assert Settle("t1", Claims(Numeric(3))) == Resolved(Cached("t1", 3000));
    assert s0.fetches[0 := Resolved(Cached("t1", 3000))] == s1.fetches;
    assert Step(b, Config(0, 100), s0, FetchResolve(0, "t1", Claims(Numeric(3)))) == Some(s1);
    var s2 := Resume(Config(0, 100), s1, 0, 10);
    var s3 := Resume(Config(0, 100), s2, 1, 10);
    var s4 := Resume(Config(0, 100), s3, 2, 10);
    assert s4 == State(false, Some(0), None, None, [Resolved(Cached("t1", 3000))], map[], 0, map[], [Returned("t1"), Returned("t1"), Returned("t1")]);
    Run1(b, Config(0, 100), s3, CallResume(2, 10), s4);
    RunFirst(b, Config(0, 100), s2, [CallResume(1, 10), CallResume(2, 10)], s3);
    RunFirst(b, Config(0, 100), s1, [CallResume(0, 10), CallResume(1, 10), CallResume(2, 10)], s2);
    RunFirst(b, Config(0, 100), s0, [FetchResolve(0, "t1", Claims(Numeric(3))), CallResume(0, 10), CallResume(1, 10), CallResume(2, 10)], s1);
  }

  lemma LazyRound2Run(b: Build)
    ensures Run(b, Config(0, 100), State(false, Some(0), None, None, [Resolved(Cached("t1", 3000))], map[], 0, map[], [Returned("t1"), Returned("t1"), Returned("t1")]), [CallEnter, CallEnter, CallEnter, CallResume(3, 3110), CallResume(4, 3110), CallResume(5, 3110)])
      == Some(State(false, Some(1), None, None, [Resolved(Cached("t1", 3000)), Pending], map[], 0, map[],
                    [Returned("t1"), Returned("t1"), Returned("t1"), Owning(1, true), Joining(1), Joining(1)]))
  {
    var s0 := State(false, Some(0), None, None, [Resolved(Cached("t1", 3000))], map[], 0, map[], [Returned("t1"), Returned("t1"), Returned("t1")]);
    var s1 := Enter(s0);
    var s2 := Enter(s1);
    var s3 := Enter(s2);
    var s4 := Resume(Config(0, 100), s3, 3, 3110);
    var s5 := Resume(Config(0, 100), s4, 4, 3110);
    var s6 := Resume(Config(0, 100), s5, 5, 3110);
    assert s6 == State(false, Some(1), None, None, [Resolved(Cached("t1", 3000)), Pending], map[], 0, map[],
                    [Returned("t1"), Returned("t1"), Returned("t1"), Owning(1, true), Joining(1), Joining(1)]);
    Run1(b, Config(0, 100), s5, CallResume(5, 3110), s6);
    RunFirst(b, Config(0, 100), s4, [CallResume(4, 3110), CallResume(5, 3110)], s5);
    RunFirst(b, Config(0, 100), s3, [CallResume(3, 3110), CallResume(4, 3110), CallResume(5, 3110)], s4);
    RunFirst(b, Config(0, 100), s2, [CallEnter, CallResume(3, 3110), CallResume(4, 3110), CallResume(5, 3110)], s3);
    RunFirst(b, Config(0, 100), s1, [CallEnter, CallEnter, CallResume(3, 3110), CallResume(4, 3110), CallResume(5, 3110)], s2);
    RunFirst(b, Config(0, 100), s0, [CallEnter, CallEnter, CallEnter, CallResume(3, 3110), CallResume(4, 3110), CallResume(5, 3110)], s1);
  }

  lemma LazyAnswer2Run(b: Build)
    ensures Run(b, Config(0, 100), State(false, Some(1), None, None, [Resolved(Cached("t1", 3000)), Pending], map[], 0, map[],
                    [Returned("t1"), Returned("t1"), Returned("t1"), Owning(1, true), Joining(1), Joining(1)]), [FetchResolve(1, "t2", Claims(Numeric(6))), CallResume(3, 3120), CallResume(4, 3120), CallResume(5, 3120)])
      == Some(State(false, Some(1), None, None, [Resolved(Cached("t1", 3000)), Resolved(Cached("t2", 6000))], map[], 0, map[],
                    [Returned("t1"), Returned("t1"), Returned("t1"), Returned("t2"), Returned("t2"), Returned("t2")]))
  {
    var s0 := State(false, Some(1), None, None, [Resolved(Cached("t1", 3000)), Pending], map[], 0, map[],
                    [Returned("t1"), Returned("t1"), Returned("t1"), Owning(1, true), Joining(1), Joining(1)]);
    var s1 := s0.(fetches := [Resolved(Cached("t1", 3000)), Resolved(Cached("t2", 6000))]);
    assert Settle("t2", Claims(Numeric(6))) == Resolved(Cached("t2", 6000));
    assert s0.fetches[1 := Resolved(Cached("t2", 6000))] == s1.fetches;
    assert Step(b, Config(0, 100), s0, FetchResolve(1, "t2", Claims(Numeric(6)))) == Some(s1);
    var s2 := Resume(Config(0, 100), s1, 3, 3120);
    var s3 := Resume(Config(0, 100), s2, 4, 3120);
    var s4 := Resume(Config(0, 100), s3, 5, 3120);
    assert s4 == State(false, Some(1), None, None, [Resolved(Cached("t1", 3000)), Resolved(Cached("t2", 6000))], map[], 0, map[],
                    [Returned("t1"), Returned("t1"), Returned("t1"), Returned("t2"), Returned("t2"), Returned("t2")]);
    Run1(b, Config(0, 100), s3, CallResume(5, 3120), s4);
    RunFirst(b, Config(0, 100), s2, [CallResume(4, 3120), CallResume(5, 3120)], s3);
    RunFirst(b, Config(0, 100), s1, [CallResume(3, 3120), CallResume(4, 3120), CallResume(5, 3120)], s2);
    RunFirst(b, Config(0, 100), s0, [FetchResolve(1, "t2", Claims(Numeric(6))), CallResume(3, 3120), CallResume(4, 3120), CallResume(5, 3120)], s1);
  }

  /**
    The lazy scenario: nothing is fetched at construction; three concurrent
    calls make one fetch and all return its token; once that token is within
    the minimum validity of its expiry, three concurrent calls make exactly
    one more fetch and all return the new token.
   */
  lemma LazyScenario(b: Build)
    ensures |Init(Configure(None, Some(100))).fetches| == 0
    ensures Run(b, Configure(None, Some(100)), Init(Configure(None, Some(100))), LazyRound1).Some?
    ensures |Run(b, Configure(None, Some(100)), Init(Configure(None, Some(100))), LazyRound1).value.fetches| == 1
    ensures Run(b, Configure(None, Some(100)), Init(Configure(None, Some(100))), LazyRound1 + LazyAnswer1 + LazyRound2 + LazyAnswer2).Some?
    ensures var t := Run(b, Configure(None, Some(100)), Init(Configure(None, Some(100))), LazyRound1 + LazyAnswer1 + LazyRound2 + LazyAnswer2).value;
      && |t.fetches| == 2
      && t.callers == [Returned("t1"), Returned("t1"), Returned("t1"), Returned("t2"), Returned("t2"), Returned("t2")]
  {
    assert Configure(None, Some(100)) == Config(0, 100);
    LazyRound1Run(b);
    LazyAnswer1Run(b);
    LazyRound2Run(b);
    LazyAnswer2Run(b);
    var s3 := Run(b, Config(0, 100), Init(Config(0, 100)), LazyRound1).value;
    RunAppend(b, Config(0, 100), Init(Config(0, 100)), LazyRound1, LazyAnswer1, s3);
    var s7 := Run(b, Config(0, 100), s3, LazyAnswer1).value;
    RunAppend(b, Config(0, 100), Init(Config(0, 100)), LazyRound1 + LazyAnswer1, LazyRound2, s7);
    var s13 := Run(b, Config(0, 100), s7, LazyRound2).value;
    RunAppend(b, Config(0, 100), Init(Config(0, 100)), LazyRound1 + LazyAnswer1 + LazyRound2, LazyAnswer2, s13);
  }

  // ---------------------------------------------------------------------------
  // index.test.ts, eager (lines 6-44), in either build

  const EagerRound1 := [CallEnter, CallEnter, CallEnter]
  const EagerAnswer1 := [FetchResolve(0, "t1", Claims(Numeric(3))), CallResume(0, 10), CallResume(1, 10), CallResume(2, 10), CallResume(3, 10)]
  const EagerBackground := [TimerFire(0), FetchResolve(1, "t2", Claims(Numeric(5))), WatchResume(1, 2450)]
  const EagerRound2 := [CallEnter, CallEnter, CallEnter, CallResume(4, 3110), CallResume(5, 3110), CallResume(6, 3110), Dispose]

  /** What the promotion leaves in the prefetch slot. */
  function Leftover(b: Build, y: FetchId): Option<FetchId> {
    if b.Corrected? then None else Some(y)
  }

  lemma EagerRound1Run(b: Build)
    ensures Run(b, Config(500, 100), Init(Config(500, 100)), [CallEnter, CallEnter, CallEnter])
      == Some(State(false, Some(0), None, None, [Pending], map[], 0, map[], [Owning(0, true), Checking(0), Checking(0), Checking(0)]))
  {
    var s0 := Init(Config(500, 100));
    assert s0 == State(false, Some(0), None, None, [Pending], map[], 0, map[], [Owning(0, true)]);
    var s1 := Enter(s0);
    var s2 := Enter(s1);
    var s3 := Enter(s2);
    assert s3 == State(false, Some(0), None, None, [Pending], map[], 0, map[], [Owning(0, true), Checking(0), Checking(0), Checking(0)]);
    Run1(b, Config(500, 100), s2, CallEnter, s3);
    RunFirst(b, Config(500, 100), s1, [CallEnter, CallEnter], s2);
    RunFirst(b, Config(500, 100), s0, [CallEnter, CallEnter, CallEnter], s1);
  }

  lemma EagerAnswer1Run(b: Build)
    ensures Run(b, Config(500, 100), State(false, Some(0), None, None, [Pending], map[], 0, map[], [Owning(0, true), Checking(0), Checking(0), Checking(0)]),
                [FetchResolve(0, "t1", Claims(Numeric(3))), CallResume(0, 10), CallResume(1, 10), CallResume(2, 10), CallResume(3, 10)])
      == Some(State(false, Some(0), None, Some(0), [Resolved(Cached("t1", 3000))], map[0 := Timer(Some(0), 2390)], 1, map[],
                    [Returned("t1"), Returned("t1"), Returned("t1"), Returned("t1")]))
  {
    var c := Config(500, 100);
    var s0 := State(false, Some(0), None, None, [Pending], map[], 0, map[], [Owning(0, true), Checking(0), Checking(0), Checking(0)]);
    var s1 := s0.(fetches := [Resolved(Cached("t1", 3000))]);
    assert Settle("t1", Claims(Numeric(3))) == Resolved(Cached("t1", 3000));
    assert s0.fetches[0 := Resolved(Cached("t1", 3000))] == s1.fetches;
    assert Step(b, c, s0, FetchResolve(0, "t1", Claims(Numeric(3)))) == Some(s1);
    var s2 := Resume(c, s1, 0, 10);
    assert s2 == State(false, Some(0), None, Some(0), [Resolved(Cached("t1", 3000))], map[0 := Timer(Some(0), 2390)], 1, map[],
                       [Returned("t1"), Checking(0), Checking(0), Checking(0)]);
    var s3 := Resume(c, s2, 1, 10);
    var s4 := Resume(c, s3, 2, 10);
    var s5 := Resume(c, s4, 3, 10);
    assert s5 == State(false, Some(0), None, Some(0), [Resolved(Cached("t1", 3000))], map[0 := Timer(Some(0), 2390)], 1, map[],
                       [Returned("t1"), Returned("t1"), Returned("t1"), Returned("t1")]);
    Run1(b, c, s4, CallResume(3, 10), s5);
    RunFirst(b, c, s3, [CallResume(2, 10), CallResume(3, 10)], s4);
    RunFirst(b, c, s2, [CallResume(1, 10), CallResume(2, 10), CallResume(3, 10)], s3);
    RunFirst(b, c, s1, [CallResume(0, 10), CallResume(1, 10), CallResume(2, 10), CallResume(3, 10)], s2);
    RunFirst(b, c, s0, [FetchResolve(0, "t1", Claims(Numeric(3))), CallResume(0, 10), CallResume(1, 10), CallResume(2, 10), CallResume(3, 10)], s1);
  }

  lemma EagerBackgroundRun(b: Build)
    ensures Run(b, Config(500, 100), State(false, Some(0), None, Some(0), [Resolved(Cached("t1", 3000))], map[0 := Timer(Some(0), 2390)], 1, map[],
                                          [Returned("t1"), Returned("t1"), Returned("t1"), Returned("t1")]),
                [TimerFire(0), FetchResolve(1, "t2", Claims(Numeric(5))), WatchResume(1, 2450)])
      == Some(State(false, Some(1), Leftover(b, 1), Some(1), [Resolved(Cached("t1", 3000)), Resolved(Cached("t2", 5000))],
                    map[1 := Timer(Some(1), 1950)], 2, map[], [Returned("t1"), Returned("t1"), Returned("t1"), Returned("t1")]))
  {
    var c := Config(500, 100);
    var done := [Returned("t1"), Returned("t1"), Returned("t1"), Returned("t1")];
    var s0 := State(false, Some(0), None, Some(0), [Resolved(Cached("t1", 3000))], map[0 := Timer(Some(0), 2390)], 1, map[], done);
    var s1 := FireTimer(s0, 0);
    assert s0.timers - {0} == map[];
    assert s1 == State(false, Some(0), Some(1), Some(0), [Resolved(Cached("t1", 3000)), Pending], map[], 1, map[1 := Some(0)], done);
    var s2 := s1.(fetches := [Resolved(Cached("t1", 3000)), Resolved(Cached("t2", 5000))]);
    assert Settle("t2", Claims(Numeric(5))) == Resolved(Cached("t2", 5000));
    assert s1.fetches[1 := Resolved(Cached("t2", 5000))] == s2.fetches;
    assert Step(b, c, s1, FetchResolve(1, "t2", Claims(Numeric(5)))) == Some(s2);
    var s3 := SettleBackground(b, c, s2, 1, 2450);
    assert s2.watchers - {1} == map[];
    assert s3 == State(false, Some(1), Leftover(b, 1), Some(1), [Resolved(Cached("t1", 3000)), Resolved(Cached("t2", 5000))],
                       map[1 := Timer(Some(1), 1950)], 2, map[], done);
    Run1(b, c, s2, WatchResume(1, 2450), s3);
    RunFirst(b, c, s1, [FetchResolve(1, "t2", Claims(Numeric(5))), WatchResume(1, 2450)], s2);
    RunFirst(b, c, s0, [TimerFire(0), FetchResolve(1, "t2", Claims(Numeric(5))), WatchResume(1, 2450)], s1);
  }

  lemma EagerRound2Run(b: Build)
    ensures Run(b, Config(500, 100), State(false, Some(1), Leftover(b, 1), Some(1), [Resolved(Cached("t1", 3000)), Resolved(Cached("t2", 5000))],
                                          map[1 := Timer(Some(1), 1950)], 2, map[], [Returned("t1"), Returned("t1"), Returned("t1"), Returned("t1")]),
                [CallEnter, CallEnter, CallEnter, CallResume(4, 3110), CallResume(5, 3110), CallResume(6, 3110), Dispose])
      == Some(State(true, Some(1), Leftover(b, 1), Some(1), [Resolved(Cached("t1", 3000)), Resolved(Cached("t2", 5000))], map[], 2, map[],
                    [Returned("t1"), Returned("t1"), Returned("t1"), Returned("t1"), Returned("t2"), Returned("t2"), Returned("t2")]))
  {
    var c := Config(500, 100);
    var fs := [Resolved(Cached("t1", 3000)), Resolved(Cached("t2", 5000))];
    var s0 := State(false, Some(1), Leftover(b, 1), Some(1), fs, map[1 := Timer(Some(1), 1950)], 2, map[],
                    [Returned("t1"), Returned("t1"), Returned("t1"), Returned("t1")]);
    var s1 := Enter(s0);
    var s2 := Enter(s1);
    var s3 := Enter(s2);
    assert s3 == s0.(callers := [Returned("t1"), Returned("t1"), Returned("t1"), Returned("t1"), Checking(1), Checking(1), Checking(1)]);
    var s4 := Resume(c, s3, 4, 3110);
    var s5 := Resume(c, s4, 5, 3110);
    var s6 := Resume(c, s5, 6, 3110);
    assert s6 == s0.(callers := [Returned("t1"), Returned("t1"), Returned("t1"), Returned("t1"), Returned("t2"), Returned("t2"), Returned("t2")]);
    var s7 := DisposeCache(s6);
    assert s6.timers - {1} == map[];
    assert s7 == State(true, Some(1), Leftover(b, 1), Some(1), fs, map[], 2, map[],
                       [Returned("t1"), Returned("t1"), Returned("t1"), Returned("t1"), Returned("t2"), Returned("t2"), Returned("t2")]);
    Run1(b, c, s6, Dispose, s7);
    RunFirst(b, c, s5, [CallResume(6, 3110), Dispose], s6);
    RunFirst(b, c, s4, [CallResume(5, 3110), CallResume(6, 3110), Dispose], s5);
    RunFirst(b, c, s3, [CallResume(4, 3110), CallResume(5, 3110), CallResume(6, 3110), Dispose], s4);
    RunFirst(b, c, s2, [CallEnter, CallResume(4, 3110), CallResume(5, 3110), CallResume(6, 3110), Dispose], s3);
    RunFirst(b, c, s1, [CallEnter, CallEnter, CallResume(4, 3110), CallResume(5, 3110), CallResume(6, 3110), Dispose], s2);
    RunFirst(b, c, s0, [CallEnter, CallEnter, CallEnter, CallResume(4, 3110), CallResume(5, 3110), CallResume(6, 3110), Dispose], s1);
  }

  /**
    The eager scenario: construction issues the first fetch, which three
    concurrent calls share; the timer armed by the prefetch owner fetches the
    next token in the background before the first expires, so three later
    calls get the new token without another fetch; `dispose` leaves no timer.
   */
  lemma EagerScenario(b: Build)
    ensures |Init(Configure(Some(500), Some(100))).fetches| == 1
    ensures Run(b, Configure(Some(500), Some(100)), Init(Configure(Some(500), Some(100))), EagerRound1 + EagerAnswer1).Some?
    ensures var t := Run(b, Configure(Some(500), Some(100)), Init(Configure(Some(500), Some(100))), EagerRound1 + EagerAnswer1).value;
      |t.fetches| == 1 && t.callers == [Returned("t1"), Returned("t1"), Returned("t1"), Returned("t1")]
    ensures Run(b, Configure(Some(500), Some(100)), Init(Configure(Some(500), Some(100))), EagerRound1 + EagerAnswer1 + EagerBackground).Some?
    ensures |Run(b, Configure(Some(500), Some(100)), Init(Configure(Some(500), Some(100))), EagerRound1 + EagerAnswer1 + EagerBackground).value.fetches| == 2
    ensures Run(b, Configure(Some(500), Some(100)), Init(Configure(Some(500), Some(100))), EagerRound1 + EagerAnswer1 + EagerBackground + EagerRound2).Some?
    ensures var t := Run(b, Configure(Some(500), Some(100)), Init(Configure(Some(500), Some(100))), EagerRound1 + EagerAnswer1 + EagerBackground + EagerRound2).value;
      && |t.fetches| == 2
      && t.callers == [Returned("t1"), Returned("t1"), Returned("t1"), Returned("t1"), Returned("t2"), Returned("t2"), Returned("t2")]
      && t.disposed && t.timers == map[]
  {
    assert Configure(Some(500), Some(100)) == Config(500, 100);
    var c := Config(500, 100);
    EagerRound1Run(b);
    EagerAnswer1Run(b);
    EagerBackgroundRun(b);
    EagerRound2Run(b);
    var s3 := Run(b, c, Init(c), EagerRound1).value;
    RunAppend(b, c, Init(c), EagerRound1, EagerAnswer1, s3);
    var s8 := Run(b, c, s3, EagerAnswer1).value;
    RunAppend(b, c, Init(c), EagerRound1 + EagerAnswer1, EagerBackground, s8);
    var s11 := Run(b, c, s8, EagerBackground).value;
    RunAppend(b, c, Init(c), EagerRound1 + EagerAnswer1 + EagerBackground, EagerRound2, s11);
  }

  // ---------------------------------------------------------------------------
  // The promotion at src/index.ts:56-61 as written

  /** Token A expires at 10 s; the owner of the first generation arms the timer at time 0. */
  const Prime := [FetchResolve(0, "A", Claims(Numeric(10))), CallResume(0, 0)]
  /** The timer fires, token B (also expiring at 10 s) arrives, and its handlers promote it at 9.95 s. */
  const Promote := [TimerFire(0), FetchResolve(1, "B", Claims(Numeric(10))), WatchResume(1, 9950)]
  /** A call at 9.95 s finds B within the minimum validity and asks for a new generation. */
  const Readopt := [CallEnter, CallResume(1, 9950), CallResume(1, 9950)]
  const Leak := [Dispose, TimerFire(1)]

  lemma PrimeRun(b: Build)
    ensures Run(b, Config(500, 100), Init(Config(500, 100)), [FetchResolve(0, "A", Claims(Numeric(10))), CallResume(0, 0)])
      == Some(State(false, Some(0), None, Some(0), [Resolved(Cached("A", 10000))], map[0 := Timer(Some(0), 9400)], 1, map[], [Returned("A")]))
  {
    var c := Config(500, 100);
    var s0 := Init(c);
    assert s0 == State(false, Some(0), None, None, [Pending], map[], 0, map[], [Owning(0, true)]);
    var s1 := s0.(fetches := [Resolved(Cached("A", 10000))]);
    assert Settle("A", Claims(Numeric(10))) == Resolved(Cached("A", 10000));
    assert s0.fetches[0 := Resolved(Cached("A", 10000))] == s1.fetches;
    assert Step(b, c, s0, FetchResolve(0, "A", Claims(Numeric(10)))) == Some(s1);
    var s2 := Resume(c, s1, 0, 0);
    assert s2 == State(false, Some(0), None, Some(0), [Resolved(Cached("A", 10000))], map[0 := Timer(Some(0), 9400)], 1, map[], [Returned("A")]);
    Run1(b, c, s1, CallResume(0, 0), s2);
    RunFirst(b, c, s0, [FetchResolve(0, "A", Claims(Numeric(10))), CallResume(0, 0)], s1);
  }

  lemma PromoteRun(b: Build)
    ensures Run(b, Config(500, 100), State(false, Some(0), None, Some(0), [Resolved(Cached("A", 10000))], map[0 := Timer(Some(0), 9400)], 1, map[], [Returned("A")]),
                [TimerFire(0), FetchResolve(1, "B", Claims(Numeric(10))), WatchResume(1, 9950)])
      == Some(State(false, Some(1), Leftover(b, 1), Some(1), [Resolved(Cached("A", 10000)), Resolved(Cached("B", 10000))],
                    map[1 := Timer(Some(1), -550)], 2, map[], [Returned("A")]))
  {
    var c := Config(500, 100);
    var s0 := State(false, Some(0), None, Some(0), [Resolved(Cached("A", 10000))], map[0 := Timer(Some(0), 9400)], 1, map[], [Returned("A")]);
    var s1 := FireTimer(s0, 0);
    assert s0.timers - {0} == map[];
    assert s1 == State(false, Some(0), Some(1), Some(0), [Resolved(Cached("A", 10000)), Pending], map[], 1, map[1 := Some(0)], [Returned("A")]);
    var s2 := s1.(fetches := [Resolved(Cached("A", 10000)), Resolved(Cached("B", 10000))]);
    assert Settle("B", Claims(Numeric(10))) == Resolved(Cached("B", 10000));
    assert s1.fetches[1 := Resolved(Cached("B", 10000))] == s2.fetches;
    assert Step(b, c, s1, FetchResolve(1, "B", Claims(Numeric(10)))) == Some(s2);
    var s3 := SettleBackground(b, c, s2, 1, 9950);
    assert s2.watchers - {1} == map[];
    assert s3 == State(false, Some(1), Leftover(b, 1), Some(1), [Resolved(Cached("A", 10000)), Resolved(Cached("B", 10000))],
                       map[1 := Timer(Some(1), -550)], 2, map[], [Returned("A")]);
    Run1(b, c, s2, WatchResume(1, 9950), s3);
    RunFirst(b, c, s1, [FetchResolve(1, "B", Claims(Numeric(10))), WatchResume(1, 9950)], s2);
    RunFirst(b, c, s0, [TimerFire(0), FetchResolve(1, "B", Claims(Numeric(10))), WatchResume(1, 9950)], s1);
  }

  lemma ReadoptRun()
    ensures Run(AsWritten, Config(500, 100), State(false, Some(1), Some(1), Some(1), [Resolved(Cached("A", 10000)), Resolved(Cached("B", 10000))],
                                                  map[1 := Timer(Some(1), -550)], 2, map[], [Returned("A")]),
                [CallEnter, CallResume(1, 9950), CallResume(1, 9950)])
      == Some(State(false, Some(1), None, Some(2), [Resolved(Cached("A", 10000)), Resolved(Cached("B", 10000))],
                    map[1 := Timer(Some(1), -550), 2 := Timer(Some(1), -550)], 3, map[], [Returned("A"), Returned("B")]))
  {
    var c := Config(500, 100);
    var fs := [Resolved(Cached("A", 10000)), Resolved(Cached("B", 10000))];
    var s0 := State(false, Some(1), Some(1), Some(1), fs, map[1 := Timer(Some(1), -550)], 2, map[], [Returned("A")]);
    var s1 := Enter(s0);
    assert s1 == s0.(callers := [Returned("A"), Checking(1)]);
    var s2 := Resume(c, s1, 1, 9950);
    assert s2 == State(false, Some(1), None, Some(1), fs, map[1 := Timer(Some(1), -550)], 2, map[], [Returned("A"), Owning(1, true)]);
    var s3 := Resume(c, s2, 1, 9950);
    assert s3 == State(false, Some(1), None, Some(2), fs, map[1 := Timer(Some(1), -550), 2 := Timer(Some(1), -550)], 3, map[], [Returned("A"), Returned("B")]);
    Run1(AsWritten, c, s2, CallResume(1, 9950), s3);
    RunFirst(AsWritten, c, s1, [CallResume(1, 9950), CallResume(1, 9950)], s2);
    RunFirst(AsWritten, c, s0, [CallEnter, CallResume(1, 9950), CallResume(1, 9950)], s1);
  }

  lemma LeakRun()
    ensures Run(AsWritten, Config(500, 100), State(false, Some(1), None, Some(2), [Resolved(Cached("A", 10000)), Resolved(Cached("B", 10000))],
                                                  map[1 := Timer(Some(1), -550), 2 := Timer(Some(1), -550)], 3, map[], [Returned("A"), Returned("B")]),
                [Dispose, TimerFire(1)])
      == Some(State(true, Some(1), Some(2), Some(2), [Resolved(Cached("A", 10000)), Resolved(Cached("B", 10000)), Pending],
                    map[], 3, map[2 := Some(1)], [Returned("A"), Returned("B")]))
  {
    var c := Config(500, 100);
    var fs := [Resolved(Cached("A", 10000)), Resolved(Cached("B", 10000))];
    var s0 := State(false, Some(1), None, Some(2), fs, map[1 := Timer(Some(1), -550), 2 := Timer(Some(1), -550)], 3, map[], [Returned("A"), Returned("B")]);
    var s1 := DisposeCache(s0);
    assert s0.timers - {2} == map[1 := Timer(Some(1), -550)];
    assert s1 == State(true, Some(1), None, Some(2), fs, map[1 := Timer(Some(1), -550)], 3, map[], [Returned("A"), Returned("B")]);
    var s2 := FireTimer(s1, 1);
    assert s1.timers - {1} == map[];
    assert fs + [Pending] == [Resolved(Cached("A", 10000)), Resolved(Cached("B", 10000)), Pending];
    assert s2 == State(true, Some(1), Some(2), Some(2), [Resolved(Cached("A", 10000)), Resolved(Cached("B", 10000)), Pending],
                       map[], 3, map[2 := Some(1)], [Returned("A"), Returned("B")]);
    Run1(AsWritten, c, s1, TimerFire(1), s2);
    RunFirst(AsWritten, c, s0, [Dispose, TimerFire(1)], s1);
  }

  /**
    As written, a call that finds the promoted token B within the minimum
    validity of its expiry re-adopts B's own generation from the prefetch
    slot: it returns the very token it judged stale, the Token Source is not
    called, and a second timer that can still fetch is armed beside the one
    in `timeout`.
   */
  lemma ReadoptsStaleGeneration()
    ensures Run(AsWritten, Config(500, 100), Init(Config(500, 100)), Prime + Promote + Readopt).Some?
    ensures var s := Run(AsWritten, Config(500, 100), Init(Config(500, 100)), Prime + Promote + Readopt).value;
      && |s.fetches| == 2 && |s.callers| == 2
      && s.fetches[1] == Resolved(Cached("B", 10000))
      && !Fresh(Config(500, 100), s.fetches[1].state, 9950)
      && s.callers[1] == Returned("B")
      && s.timeout == Some(2) && 1 in s.timers && s.timers[1].generation == s.statePromise
  {
    var c := Config(500, 100);
    PrimeRun(AsWritten);
    PromoteRun(AsWritten);
    ReadoptRun();
    var s2 := Run(AsWritten, c, Init(c), Prime).value;
    RunAppend(AsWritten, c, Init(c), Prime, Promote, s2);
    var s5 := Run(AsWritten, c, s2, Promote).value;
    RunAppend(AsWritten, c, Init(c), Prime + Promote, Readopt, s5);
  }

  /**
    As written, `dispose` after the re-adoption clears only the timer in
    `timeout`; the other one still fires and calls the Token Source on a
    disposed cache.
   */
  lemma FetchAfterDispose()
    ensures Run(AsWritten, Config(500, 100), Init(Config(500, 100)), Prime + Promote + Readopt + [Dispose]).Some?
    ensures Run(AsWritten, Config(500, 100), Init(Config(500, 100)), Prime + Promote + Readopt + Leak).Some?
    ensures var d := Run(AsWritten, Config(500, 100), Init(Config(500, 100)), Prime + Promote + Readopt + [Dispose]).value;
      var s := Run(AsWritten, Config(500, 100), Init(Config(500, 100)), Prime + Promote + Readopt + Leak).value;
      d.disposed && s.disposed && |s.fetches| == |d.fetches| + 1
  {
    var c := Config(500, 100);
    ReadoptsStaleGeneration();
    LeakRun();
    var s8 := Run(AsWritten, c, Init(c), Prime + Promote + Readopt).value;
    RunAppend(AsWritten, c, Init(c), Prime + Promote + Readopt, Leak, s8);
    RunAppend(AsWritten, c, Init(c), Prime + Promote + Readopt, [Dispose], s8);
    Run1(AsWritten, c, s8, Dispose, DisposeCache(s8));
  }

  /**
    The corrected promotion on the same events: the call that judges B stale
    installs a new generation and calls the Token Source once.
   */
  lemma CorrectedFetchesAfresh()
    ensures Run(Corrected, Config(500, 100), Init(Config(500, 100)), Prime + Promote + [CallEnter, CallResume(1, 9950)]).Some?
    ensures var s := Run(Corrected, Config(500, 100), Init(Config(500, 100)), Prime + Promote + [CallEnter, CallResume(1, 9950)]).value;
      && |s.callers| == 2 && s.callers[1] == Owning(2, true)
      && s.statePromise == Some(2)
      && |s.fetches| == 3 && s.fetches[2].Pending?
  {
    var c := Config(500, 100);
    PrimeRun(Corrected);
    PromoteRun(Corrected);
    var s2 := Run(Corrected, c, Init(c), Prime).value;
    RunAppend(Corrected, c, Init(c), Prime, Promote, s2);
    var s5 := Run(Corrected, c, s2, Promote).value;
    var s6 := Enter(s5);
    assert s6 == s5.(callers := [Returned("A"), Checking(1)]);
    var s7 := Resume(c, s6, 1, 9950);
    assert s7.callers[1] == Owning(2, true) && s7.statePromise == Some(2) && s7.fetches == s5.fetches + [Pending];
    Run1(Corrected, c, s6, CallResume(1, 9950), s7);
    RunFirst(Corrected, c, s5, [CallEnter, CallResume(1, 9950)], s6);
    RunAppend(Corrected, c, Init(c), Prime + Promote, [CallEnter, CallResume(1, 9950)], s5);
  }

  /**
    Two calls at 9.95 s both find B stale.  The first re-adopts B's
    generation, but the second had registered on it earlier and runs first:
    it fetches generation 2.  The first then arms its timer on generation 2
    while that fetch is still pending, and the timer fires.
   */
  const Overtake := [CallEnter, CallEnter, CallResume(1, 9950), CallResume(2, 9950), CallResume(1, 9950), TimerFire(2)]

  lemma OvertakeRun()
    ensures Run(AsWritten, Config(500, 100), State(false, Some(1), Some(1), Some(1), [Resolved(Cached("A", 10000)), Resolved(Cached("B", 10000))],
                                                  map[1 := Timer(Some(1), -550)], 2, map[], [Returned("A")]),
                [CallEnter, CallEnter, CallResume(1, 9950), CallResume(2, 9950), CallResume(1, 9950), TimerFire(2)])
      == Some(State(false, Some(2), Some(3), Some(2), [Resolved(Cached("A", 10000)), Resolved(Cached("B", 10000)), Pending, Pending],
                    map[1 := Timer(Some(1), -550)], 3, map[3 := Some(2)], [Returned("A"), Returned("B"), Owning(2, true)]))
  {
    var c := Config(500, 100);
    var fs := [Resolved(Cached("A", 10000)), Resolved(Cached("B", 10000))];
    var fs3 := [Resolved(Cached("A", 10000)), Resolved(Cached("B", 10000)), Pending];
    var s0 := State(false, Some(1), Some(1), Some(1), fs, map[1 := Timer(Some(1), -550)], 2, map[], [Returned("A")]);
    var s1 := Enter(s0);
    var s2 := Enter(s1);
    assert s2 == s0.(callers := [Returned("A"), Checking(1), Checking(1)]);
    var s3 := Resume(c, s2, 1, 9950);
    assert Awaited(s2, 1, 1) by {
      assert s2.callers[2] == Checking(1);
    }
    assert s3 == State(false, Some(1), None, Some(1), fs, map[1 := Timer(Some(1), -550)], 2, map[],
                       [Returned("A"), Owning(1, false), Checking(1)]);
    var s4 := Resume(c, s3, 2, 9950);
    assert fs + [Pending] == fs3;
    assert s4 == State(false, Some(2), None, Some(1), fs3, map[1 := Timer(Some(1), -550)], 2, map[],
                       [Returned("A"), Owning(1, false), Owning(2, true)]);
    var s5 := Resume(c, s4, 1, 9950);
    assert s5 == State(false, Some(2), None, Some(2), fs3, map[1 := Timer(Some(1), -550), 2 := Timer(Some(2), -550)], 3, map[],
                       [Returned("A"), Returned("B"), Owning(2, true)]);
    var s6 := FireTimer(s5, 2);
    assert s5.timers - {2} == map[1 := Timer(Some(1), -550)];
    assert fs3 + [Pending] == [Resolved(Cached("A", 10000)), Resolved(Cached("B", 10000)), Pending, Pending];
    assert s6 == State(false, Some(2), Some(3), Some(2), [Resolved(Cached("A", 10000)), Resolved(Cached("B", 10000)), Pending, Pending],
                       map[1 := Timer(Some(1), -550)], 3, map[3 := Some(2)], [Returned("A"), Returned("B"), Owning(2, true)]);
    Run1(AsWritten, c, s5, TimerFire(2), s6);
    RunFirst(AsWritten, c, s4, [CallResume(1, 9950), TimerFire(2)], s5);
    RunFirst(AsWritten, c, s3, [CallResume(2, 9950), CallResume(1, 9950), TimerFire(2)], s4);
    RunFirst(AsWritten, c, s2, [CallResume(1, 9950), CallResume(2, 9950), CallResume(1, 9950), TimerFire(2)], s3);
    RunFirst(AsWritten, c, s1, [CallEnter, CallResume(1, 9950), CallResume(2, 9950), CallResume(1, 9950), TimerFire(2)], s2);
    RunFirst(AsWritten, c, s0, [CallEnter, CallEnter, CallResume(1, 9950), CallResume(2, 9950), CallResume(1, 9950), TimerFire(2)], s1);
  }

  /**
    As written, after the overtaking above the current generation is a fetch
    still in flight, yet a second Token Source call has been issued for it in
    the background, by a timer armed on the pending generation; and the call
    that re-adopted B returned B although it had judged B stale.
   */
  lemma PrefetchWhileInFlight()
    ensures Run(AsWritten, Config(500, 100), Init(Config(500, 100)), Prime + Promote + Overtake).Some?
    ensures var s := Run(AsWritten, Config(500, 100), Init(Config(500, 100)), Prime + Promote + Overtake).value;
      && |s.fetches| == 4 && |s.callers| == 3
      && s.statePromise == Some(2) && s.fetches[2].Pending?
      && s.nextState == Some(3) && s.fetches[3].Pending?
      && s.callers[1] == Returned("B") && !Fresh(Config(500, 100), Cached("B", 10000), 9950)
  {
    var c := Config(500, 100);
    PrimeRun(AsWritten);
    PromoteRun(AsWritten);
    OvertakeRun();
    var s2 := Run(AsWritten, c, Init(c), Prime).value;
    RunAppend(AsWritten, c, Init(c), Prime, Promote, s2);
    var s5 := Run(AsWritten, c, s2, Promote).value;
    RunAppend(AsWritten, c, Init(c), Prime + Promote, Overtake, s5);
  }
}
