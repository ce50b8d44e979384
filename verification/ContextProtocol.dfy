/** The run/stop protocol of the SDK's context, for any number of threads: two compare-and-swaps on
    one state word, a return code stored next to it, and the I/O service that run drives until a stop
    ends it. Each atomic access is one step; threads interleave freely. */
module ContextProtocol {
  import opened Prelude

  datatype State = Stopped | Stopping | Running

  datatype Code = Success | Error | AlreadyRunning

  /** Where a thread is inside `run`: about to store the initial code, about to test the service,
      inside the service, about to store the stopped state, about to load the code. */
  datatype RunStage = Outside | Reset | Test | Service | Leave | Return

  /** Where it is inside `stop`: past its swap and about to store its code, about to stop the service. */
  datatype StopStage = NotStopping | Store(code: Code) | Halt

  /** A handler running inside the service may call stop, so both can be under way. */
  datatype Thread = Thread(run: RunStage, stop: StopStage)

  /** A call of run that has returned: in which thread, whether it was refused, and with what. */
  datatype Returned = Returned(thread: nat, refused: bool, code: Code)

  datatype Action = CallRun | CallStop(code: Code) | Advance

  /** The atomics, whether the service has been stopped (it never restarts), the threads, and a record:
      successful run and stop swaps, resets, the argument of the first successful stop and whether it
      was stored before the first reset, and what calls of run have returned. */
  datatype World = World(
    state: State, code: Code, serviceStopped: bool, threads: seq<Thread>,
    runs: nat, stops: nat, resets: nat, argument: Option<Code>, early: bool, returned: seq<Returned>)

  predicate Start(w: World) {
    w == World(Stopped, Success, false, seq(|w.threads|, i => Thread(Outside, NotStopping)), 0, 0, 0, None, false, [])
  }

  predicate Enabled(w: World, t: nat, a: Action) {
    t < |w.threads| &&
    var th := w.threads[t];
    match a
    case CallRun => th == Thread(Outside, NotStopping)
    case CallStop(_) => th.stop.NotStopping? && (th.run.Outside? || th.run.Service?)
    case Advance => th != Thread(Outside, NotStopping)
  }

  function SetThread(w: World, t: nat, th: Thread): World
    requires t < |w.threads|
  {
    w.(threads := w.threads[t := th])
  }

  /** The swap from stopped to running, or the refusal. */
  function CallsRun(w: World, t: nat): World
    requires t < |w.threads|
  {
    if w.state.Stopped? then SetThread(w.(state := Running, runs := w.runs + 1), t, Thread(Reset, NotStopping))
    else w.(returned := w.returned + [Returned(t, true, AlreadyRunning)])
  }

  /** The swap from running to stopping; without it stop returns at once. */
  function CallsStop(w: World, t: nat, c: Code): World
    requires t < |w.threads|
  {
    if w.state.Running? then
      SetThread(w.(state := Stopping, stops := w.stops + 1,
                   argument := if w.argument.None? then Some(c) else w.argument),
                t, w.threads[t].(stop := Store(c)))
    else w
  }

  function AdvancesStop(w: World, t: nat): World
    requires t < |w.threads| && !w.threads[t].stop.NotStopping?
  {
    match w.threads[t].stop
    case Store(c) =>
      SetThread(w.(code := c, early := w.early || w.resets == 0), t, w.threads[t].(stop := Halt))
    case Halt => SetThread(w.(serviceStopped := true), t, w.threads[t].(stop := NotStopping))
  }

  /** An exception thrown by a handler also leads back to the test. */
  function AdvancesRun(w: World, t: nat): World
    requires t < |w.threads|
  {
    match w.threads[t].run
    case Outside => w
    case Reset => SetThread(w.(code := Success, resets := w.resets + 1), t, w.threads[t].(run := Test))
    case Test => SetThread(w, t, w.threads[t].(run := if w.serviceStopped then Leave else Service))
    case Service => SetThread(w, t, w.threads[t].(run := Test))
    case Leave => SetThread(w.(state := Stopped), t, w.threads[t].(run := Return))
    case Return =>
      SetThread(w.(returned := w.returned + [Returned(t, false, w.code)]), t, w.threads[t].(run := Outside))
  }

  function Next(w: World, t: nat, a: Action): World
    requires Enabled(w, t, a)
  {
    match a
    case CallRun => CallsRun(w, t)
    case CallStop(c) => CallsStop(w, t, c)
    case Advance => if w.threads[t].stop.NotStopping? then AdvancesRun(w, t) else AdvancesStop(w, t)
  }

  datatype Move = Move(thread: nat, action: Action)

  predicate Possible(w: World, run: seq<Move>)
    decreases |run|
  {
    run == [] || (Enabled(w, run[0].thread, run[0].action) && Possible(Next(w, run[0].thread, run[0].action), run[1..]))
  }

  function After(w: World, run: seq<Move>): World
    requires Possible(w, run)
    decreases |run|
  {
    if run == [] then w else After(Next(w, run[0].thread, run[0].action), run[1..])
  }

  predicate Inside(th: Thread) {
    th.run.Reset? || th.run.Test? || th.run.Service? || th.run.Leave?
  }

  function CountInside(ts: seq<Thread>): nat {
    if ts == [] then 0 else CountInside(ts[..|ts| - 1]) + One(Inside(ts[|ts| - 1]))
  }

  function CountReturning(ts: seq<Thread>): nat {
    if ts == [] then 0 else CountReturning(ts[..|ts| - 1]) + One(ts[|ts| - 1].run.Return?)
  }

  /** What the calls that got in returned. */
  function GotIn(rs: seq<Returned>): seq<Code>
    decreases |rs|
  {
    if rs == [] then []
    else GotIn(rs[..|rs| - 1]) + if rs[|rs| - 1].refused then [] else [rs[|rs| - 1].code]
  }

  lemma GotInAppend(rs: seq<Returned>, r: Returned)
    ensures GotIn(rs + [r]) == if r.refused then GotIn(rs) else GotIn(rs) + [r.code]
  {
    assert (rs + [r])[..|rs|] == rs;
  }

  function CountStopping(ts: seq<Thread>): nat {
    if ts == [] then 0 else CountStopping(ts[..|ts| - 1]) + One(!ts[|ts| - 1].stop.NotStopping?)
  }

  lemma {:induction false} CountUpdate(ts: seq<Thread>, t: nat, th: Thread)
    requires t < |ts|
    ensures CountInside(ts[t := th]) == CountInside(ts) - One(Inside(ts[t])) + One(Inside(th))
    ensures CountStopping(ts[t := th]) == CountStopping(ts) - One(!ts[t].stop.NotStopping?) + One(!th.stop.NotStopping?)
    ensures CountReturning(ts[t := th]) == CountReturning(ts) - One(ts[t].run.Return?) + One(th.run.Return?)
    decreases |ts|
  {
    var n := |ts| - 1;
    if t == n {
      assert ts[t := th][..n] == ts[..n];
    } else {
      CountUpdate(ts[..n], t, th);
      assert ts[t := th][..n] == ts[..n][t := th];
    }
  }

  lemma {:induction false} CountedAtLeast(ts: seq<Thread>, t: nat, u: nat)
    requires t < |ts| && u < |ts| && t != u
    ensures CountInside(ts) >= One(Inside(ts[t])) + One(Inside(ts[u]))
    ensures CountStopping(ts) >= One(!ts[t].stop.NotStopping?) + One(!ts[u].stop.NotStopping?)
  {
    var idle := Thread(Outside, NotStopping);
    CountUpdate(ts, t, idle);
    CountUpdate(ts[t := idle], u, idle);
  }

  /** One thread is inside run unless the state is stopped, every call that got in is inside, about to
      return or has returned, swaps alternate, the service is stopped exactly if some stop has done all
      its steps, and run leaves only a stopped service. */
  ghost predicate Exclusive(w: World) {
    && CountInside(w.threads) == One(!w.state.Stopped?)
    && CountInside(w.threads) + CountReturning(w.threads) + |GotIn(w.returned)| == w.runs
    && w.stops + One(w.state.Running?) <= w.runs && (w.state.Stopping? ==> w.stops > 0)
    && CountStopping(w.threads) <= w.stops && (w.serviceStopped <==> CountStopping(w.threads) < w.stops)
    && (forall i | 0 <= i < |w.threads| ::
          w.threads[i].run.Leave? || w.threads[i].run.Return? ==> w.serviceStopped)
  }

  predicate Resetting(w: World) {
    exists i :: 0 <= i < |w.threads| && w.threads[i].run.Reset?
  }

  predicate Storing(w: World) {
    exists i :: 0 <= i < |w.threads| && w.threads[i].stop.Store?
  }

  /** What the first run should return. */
  function Result(w: World): Code {
    if w.early || w.argument.None? then Success else w.argument.value
  }

  /** While only one run has got in: the code is reset once, one stop at most stores its argument, and
      afterwards the code is that argument unless it was stored before the reset; so is what the run
      has returned. */
  ghost predicate FirstSession(w: World) {
    && w.resets <= 1 && (w.resets == 0 <==> Resetting(w))
    && (w.argument.Some? <==> w.stops == 1)
    && (w.early ==> w.argument.Some?)
    && (forall i | 0 <= i < |w.threads| ::
          w.threads[i].stop.Store? ==> w.argument == Some(w.threads[i].stop.code) && !w.early)
    && (w.resets == 0 && w.argument.Some? && !Storing(w) ==> w.early)
    && (forall i | 0 <= i < |w.threads| :: w.threads[i].run.Return? ==> w.state.Stopped?)
    && (w.resets == 1 && w.argument.None? ==> w.code == Success)
    && (w.resets == 1 && w.argument.Some? ==>
          (w.code == Success && Storing(w)) || w.code == Result(w))
    && (forall c | c in GotIn(w.returned) :: w.serviceStopped && w.argument.Some? && c == Result(w))
  }

  ghost predicate Invariant(w: World) {
    && Exclusive(w)
    && (w.runs == 0 ==> w.resets == 0 && w.argument.None? && !w.early)
    && (w.runs == 1 ==> FirstSession(w))
  }

  lemma {:induction false} NobodyYet(n: nat)
    ensures CountInside(seq(n, i => Thread(Outside, NotStopping))) == 0
    ensures CountStopping(seq(n, i => Thread(Outside, NotStopping))) == 0
    ensures CountReturning(seq(n, i => Thread(Outside, NotStopping))) == 0
  {
    if n > 0 {
      NobodyYet(n - 1);
      assert seq(n, i => Thread(Outside, NotStopping))[..n - 1] == seq(n - 1, i => Thread(Outside, NotStopping));
    }
  }

  lemma CallExclusive(w: World, t: nat, a: Action)
    requires Exclusive(w) && Enabled(w, t, a) && !a.Advance?
    ensures Exclusive(Next(w, t, a))
  {
    hide CountInside, CountStopping, CountReturning, GotIn;
    CountUpdate(w.threads, t, Thread(Reset, NotStopping));
    GotInAppend(w.returned, Returned(t, true, AlreadyRunning));
    if a.CallStop? { CountUpdate(w.threads, t, w.threads[t].(stop := Store(a.code))); }
  }

  lemma AdvanceStopExclusive(w: World, t: nat)
    requires Exclusive(w) && t < |w.threads| && !w.threads[t].stop.NotStopping?
    ensures Exclusive(AdvancesStop(w, t))
  {
    hide CountInside, CountStopping, CountReturning, GotIn;
    CountUpdate(w.threads, t, AdvancesStop(w, t).threads[t]);
  }

  lemma AdvanceRunExclusive(w: World, t: nat)
    requires Exclusive(w) && t < |w.threads| && w.threads[t].stop.NotStopping? && !w.threads[t].run.Outside?
    ensures Exclusive(AdvancesRun(w, t))
  {
    hide CountInside, CountStopping, CountReturning, GotIn;
    var v := AdvancesRun(w, t);
    CountUpdate(w.threads, t, v.threads[t]);
    GotInAppend(w.returned, Returned(t, false, w.code));
    assert v.threads == w.threads[t := v.threads[t]];
  }

  lemma StepExclusive(w: World, t: nat, a: Action)
    requires Exclusive(w) && Enabled(w, t, a)
    ensures Exclusive(Next(w, t, a))
  {
    hide Exclusive, AdvancesRun, AdvancesStop, CallsRun, CallsStop;
    if !a.Advance? {
      CallExclusive(w, t, a);
    } else if w.threads[t].stop.NotStopping? {
      AdvanceRunExclusive(w, t);
    } else {
      AdvanceStopExclusive(w, t);
    }
  }

  // The first session, step by step.

  lemma CallRunFirst(w: World, t: nat)
    requires Invariant(w) && Enabled(w, t, CallRun)
    ensures Invariant(CallsRun(w, t))
  {
    hide CountInside, CountStopping, CountReturning, GotIn;
    StepExclusive(w, t, CallRun);
    var v := CallsRun(w, t);
    if w.runs == 0 && w.state.Stopped? {
      assert v.threads[t].run.Reset?;
      forall i | 0 <= i < |v.threads| ensures !v.threads[i].stop.Store? {
        if i != t { CountedAtLeast(w.threads, i, t); }
      }
    }
  }

  /** A step that leaves the run stages alone leaves resetting threads as they are. */
  lemma SameRuns(w: World, v: World, t: nat)
    requires |w.threads| == |v.threads| && forall i | 0 <= i < |w.threads| :: w.threads[i].run == v.threads[i].run
    ensures Resetting(w) == Resetting(v)
  {
  }

  lemma CallStopFirst(w: World, t: nat, c: Code)
    requires Invariant(w) && Enabled(w, t, CallStop(c))
    ensures Invariant(CallsStop(w, t, c))
  {
    hide CountInside, CountStopping, CountReturning, GotIn;
    StepExclusive(w, t, CallStop(c));
    var v := CallsStop(w, t, c);
    if w.runs == 1 && w.state.Running? {
      assert v.threads[t].stop.Store?;
      SameRuns(w, v, t);
      forall i | 0 <= i < |v.threads| && i != t ensures !v.threads[i].stop.Store? {
        CountedAtLeast(w.threads, i, t);
      }
    }
  }

  lemma OneStopping(ts: seq<Thread>, i: nat)
    requires i < |ts|
    ensures CountStopping(ts) >= One(!ts[i].stop.NotStopping?)
    ensures CountInside(ts) >= One(Inside(ts[i]))
  {
    CountUpdate(ts, i, Thread(Outside, NotStopping));
  }

  lemma AdvanceStopFirst(w: World, t: nat)
    requires Invariant(w) && t < |w.threads| && !w.threads[t].stop.NotStopping?
    ensures Invariant(AdvancesStop(w, t))
  {
    hide CountInside, CountStopping, CountReturning, GotIn;
    AdvanceStopExclusive(w, t);
    OneStopping(w.threads, t);
    var v := AdvancesStop(w, t);
    SameRuns(w, v, t);
    forall i | 0 <= i < |v.threads| && i != t ensures w.runs == 1 ==> !v.threads[i].stop.Store? {
      CountedAtLeast(w.threads, i, t);
    }
  }

  lemma SameStops(w: World, v: World)
    requires |w.threads| == |v.threads| && forall i | 0 <= i < |w.threads| :: w.threads[i].stop == v.threads[i].stop
    ensures Storing(w) == Storing(v)
  {
  }

  /** The reset: nobody else is in there, so a code stored by now is stored early. */
  lemma ResetSession(w: World, t: nat)
    requires Exclusive(w) && FirstSession(w) && t < |w.threads| && w.threads[t] == Thread(Reset, NotStopping)
    ensures FirstSession(AdvancesRun(w, t))
  {
    hide CountInside, CountStopping, CountReturning, GotIn, Storing;
    OneStopping(w.threads, t);
    var v := AdvancesRun(w, t);
    SameStops(w, v);
    assert Resetting(w);
    forall i | 0 <= i < |v.threads| ensures !v.threads[i].run.Reset? {
      if i != t { CountedAtLeast(w.threads, i, t); }
    }
  }

  lemma SameResets(w: World, v: World)
    requires |w.threads| == |v.threads|
    requires forall i | 0 <= i < |w.threads| :: w.threads[i].run.Reset? == v.threads[i].run.Reset?
    ensures Resetting(w) == Resetting(v)
  {
    if Resetting(v) {
      var i :| 0 <= i < |v.threads| && v.threads[i].run.Reset?;
      assert w.threads[i].run.Reset?;
    }
  }

  /** Whoever is about to load the code loads the result. */
  lemma LoadsResult(w: World, t: nat)
    requires Exclusive(w) && FirstSession(w) && w.runs == 1 && t < |w.threads| && w.threads[t].run.Return?
    ensures w.argument.Some? && w.code == Result(w) && w.serviceStopped
  {
    hide CountInside, CountStopping, CountReturning, GotIn;
    if Storing(w) {
      var i :| 0 <= i < |w.threads| && w.threads[i].stop.Store?;
      OneStopping(w.threads, i);
    }
    if Resetting(w) {
      var i :| 0 <= i < |w.threads| && w.threads[i].run.Reset?;
      OneStopping(w.threads, i);
    }
  }

  lemma ReturnSession(w: World, t: nat)
    requires Exclusive(w) && FirstSession(w) && w.runs == 1
    requires t < |w.threads| && w.threads[t] == Thread(Return, NotStopping)
    ensures FirstSession(AdvancesRun(w, t))
  {
    hide CountInside, CountStopping, CountReturning, GotIn, Resetting, Storing;
    var v := AdvancesRun(w, t);
    LoadsResult(w, t);
    GotInAppend(w.returned, Returned(t, false, w.code));
    SameStops(w, v);
    SameResets(w, v);
  }

  /** Any other step of run moves one thread on, at most stops the state, and leaves the code alone. */
  lemma MoveSession(w: World, v: World, t: nat, th: Thread)
    requires FirstSession(w) && t < |w.threads| && !w.threads[t].run.Reset?
    requires th.stop == w.threads[t].stop && !th.run.Reset? && (th.run.Return? ==> v.state.Stopped?)
    requires v == w.(threads := w.threads[t := th], state := v.state)
    requires v.state == w.state || v.state.Stopped?
    ensures FirstSession(v)
  {
    hide Resetting, Storing;
    SameStops(w, v);
    SameResets(w, v);
  }

  lemma AdvanceRunSession(w: World, t: nat)
    requires Exclusive(w) && FirstSession(w) && w.runs == 1 && t < |w.threads|
    requires w.threads[t].stop.NotStopping? && !w.threads[t].run.Outside?
    ensures FirstSession(AdvancesRun(w, t))
  {
    hide FirstSession, Exclusive;
    var v := AdvancesRun(w, t);
    if w.threads[t].run.Reset? {
      ResetSession(w, t);
    } else if w.threads[t].run.Return? {
      ReturnSession(w, t);
    } else {
      MoveSession(w, v, t, v.threads[t]);
    }
  }

  lemma AdvanceRunFirst(w: World, t: nat)
    requires Invariant(w) && t < |w.threads| && w.threads[t].stop.NotStopping? && !w.threads[t].run.Outside?
    ensures Invariant(AdvancesRun(w, t))
  {
    hide CountInside, CountStopping, CountReturning, GotIn, FirstSession;
    AdvanceRunExclusive(w, t);
    OneStopping(w.threads, t);
    if w.runs == 1 { AdvanceRunSession(w, t); }
  }

  lemma StepInvariant(w: World, t: nat, a: Action)
    requires Invariant(w) && Enabled(w, t, a)
    ensures Invariant(Next(w, t, a))
  {
    hide Invariant, AdvancesRun, AdvancesStop, CallsRun, CallsStop;
    match a
    case CallRun => CallRunFirst(w, t);
    case CallStop(c) => CallStopFirst(w, t, c);
    case Advance => if w.threads[t].stop.NotStopping? { AdvanceRunFirst(w, t); } else { AdvanceStopFirst(w, t); }
  }

  lemma {:induction false} RunInvariant(w: World, run: seq<Move>)
    requires Invariant(w) && Possible(w, run)
    ensures Invariant(After(w, run))
    decreases |run|
  {
    hide Invariant, Next;
    if run != [] {
      StepInvariant(w, run[0].thread, run[0].action);
      RunInvariant(Next(w, run[0].thread, run[0].action), run[1..]);
    }
  }

  lemma StartInvariant(w: World)
    requires Start(w)
    ensures Invariant(w)
  {
    NobodyYet(|w.threads|);
  }

  // Main results, for any number of threads and any interleaving.

  /** Exactly one thread is inside run while the state is not stopped, none otherwise, and no more
      stops succeed than runs. */
  lemma OneInside(w: World, run: seq<Move>)
    requires Start(w) && Possible(w, run)
    ensures var v := After(w, run);
            CountInside(v.threads) == One(!v.state.Stopped?) && v.stops <= v.runs
  {
    hide After, Possible, Start, FirstSession;
    StartInvariant(w);
    RunInvariant(w, run);
  }

  /** The service is stopped exactly if some stop that succeeded has done all its steps. */
  lemma StoppedIff(w: World, run: seq<Move>)
    requires Start(w) && Possible(w, run)
    ensures var v := After(w, run); v.serviceStopped <==> CountStopping(v.threads) < v.stops
  {
    hide After, Possible, Start, FirstSession;
    StartInvariant(w);
    RunInvariant(w, run);
  }

  /** A call of run is refused exactly if another thread is inside, and then changes nothing; otherwise
      the thread is inside now. */
  lemma RefusedIff(w: World, run: seq<Move>, t: nat)
    requires Start(w) && Possible(w, run) && Enabled(After(w, run), t, CallRun)
    ensures var u := After(w, run);
            var v := Next(u, t, CallRun);
            && (CountInside(u.threads) == 1 ==>
                  v == u.(returned := u.returned + [Returned(t, true, AlreadyRunning)]))
            && (CountInside(u.threads) != 1 ==>
                  CountInside(u.threads) == 0 && v.returned == u.returned && Inside(v.threads[t]))
  {
    hide After, Possible, Start, CountInside;
    OneInside(w, run);
  }

  /** The calls of run a thread has made, and how many of them have returned. */
  function Calls(run: seq<Move>, t: nat): nat {
    if run == [] then 0 else One(run[0].thread == t && run[0].action.CallRun?) + Calls(run[1..], t)
  }

  function ReturnsTo(rs: seq<Returned>, t: nat): nat
    decreases |rs|
  {
    if rs == [] then 0 else ReturnsTo(rs[..|rs| - 1], t) + One(rs[|rs| - 1].thread == t)
  }

  /** A refusal says so. */
  predicate Refusals(rs: seq<Returned>) {
    forall r | r in rs :: r.refused ==> r.code == AlreadyRunning
  }

  lemma ReturnsAppend(rs: seq<Returned>, r: Returned, t: nat)
    requires Refusals(rs) && (r.refused ==> r.code == AlreadyRunning)
    ensures Refusals(rs + [r]) && ReturnsTo(rs + [r], t) == ReturnsTo(rs, t) + One(r.thread == t)
  {
    assert (rs + [r])[..|rs|] == rs;
  }

  lemma StepReturns(w: World, t: nat, a: Action, u: nat)
    requires Enabled(w, t, a) && u < |w.threads| && Refusals(w.returned)
    ensures var v := Next(w, t, a);
            && |v.threads| == |w.threads| && Refusals(v.returned)
            && ReturnsTo(v.returned, u) + One(!v.threads[u].run.Outside?) ==
                 ReturnsTo(w.returned, u) + One(!w.threads[u].run.Outside?) + One(t == u && a.CallRun?)
  {
    hide ReturnsTo, Refusals;
    if w.threads[t].run.Return? {
      ReturnsAppend(w.returned, Returned(t, false, w.code), u);
    } else {
      ReturnsAppend(w.returned, Returned(t, true, AlreadyRunning), u);
    }
  }

  lemma {:induction false} RunReturns(w: World, run: seq<Move>, t: nat)
    requires Possible(w, run) && t < |w.threads| && Refusals(w.returned)
    ensures var v := After(w, run);
            && |v.threads| == |w.threads| && Refusals(v.returned)
            && ReturnsTo(v.returned, t) + One(!v.threads[t].run.Outside?) ==
                 ReturnsTo(w.returned, t) + One(!w.threads[t].run.Outside?) + Calls(run, t)
    decreases |run|
  {
    hide Next, Refusals, ReturnsTo;
    if run != [] {
      StepReturns(w, run[0].thread, run[0].action, t);
      RunReturns(Next(w, run[0].thread, run[0].action), run[1..], t);
    }
  }

  /** In every run each thread has had exactly one return for each of its calls, except for the one it
      is still in. */
  lemma EveryCallReturns(w: World, run: seq<Move>, t: nat)
    requires Start(w) && Possible(w, run) && t < |w.threads|
    ensures var v := After(w, run);
            && |v.threads| == |w.threads| && Refusals(v.returned)
            && Calls(run, t) == ReturnsTo(v.returned, t) + One(!v.threads[t].run.Outside?)
  {
    hide After, Possible;
    RunReturns(w, run, t);
  }

  // Leaving.

  /** The steps a thread still takes once the service is stopped and it calls nothing more. */
  function StepsLeft(th: Thread): nat {
    (match th.stop case NotStopping => 0 case Store(_) => 2 case Halt => 1) +
    (match th.run
     case Outside => 0
     case Reset => 4
     case Test => 3
     case Service => 4
     case Leave => 2
     case Return => 1)
  }

  function Steps(run: seq<Move>, t: nat): nat {
    if run == [] then 0 else One(run[0].thread == t) + Steps(run[1..], t)
  }

  predicate OnlyAdvances(run: seq<Move>, t: nat) {
    forall m | m in run :: m.thread == t ==> m.action.Advance?
  }

  lemma StepLeaves(w: World, t: nat, a: Action, u: nat)
    requires Enabled(w, t, a) && u < |w.threads| && w.serviceStopped && (t == u ==> a.Advance?)
    ensures var v := Next(w, t, a);
            && |v.threads| == |w.threads| && v.serviceStopped
            && StepsLeft(w.threads[u]) == StepsLeft(v.threads[u]) + One(t == u)
  {
  }

  /** Once the service is stopped, every thread is out of run and stop after at most six steps of its
      own, whatever the others do in between: each step is one fewer, and none left means out. */
  lemma {:induction false} ThreadsLeave(w: World, run: seq<Move>, t: nat)
    requires Possible(w, run) && t < |w.threads| && w.serviceStopped && OnlyAdvances(run, t)
    ensures var v := After(w, run);
            && |v.threads| == |w.threads|
            && 6 >= StepsLeft(w.threads[t]) == StepsLeft(v.threads[t]) + Steps(run, t)
            && (StepsLeft(v.threads[t]) == 0 <==> v.threads[t] == Thread(Outside, NotStopping))
    decreases |run|
  {
    hide Next;
    if run != [] {
      assert run[0] in run && forall m | m in run[1..] :: m in run;
      StepLeaves(w, run[0].thread, run[0].action, t);
      ThreadsLeave(Next(w, run[0].thread, run[0].action), run[1..], t);
    }
  }

  lemma OneReturned(v: World)
    requires Invariant(v) && v.runs == 1
    ensures GotIn(v.returned) == [] || (v.argument.Some? && GotIn(v.returned) == [Result(v)])
  {
    hide CountInside, CountReturning, CountStopping, GotIn;
    if GotIn(v.returned) != [] { assert GotIn(v.returned)[0] in GotIn(v.returned); }
  }

  /** As long as no second run has got in, at most one call returns other than refused, and what it
      returns is the argument of the stop that ended it, exactly unless that was stored before the
      reset, when it is success. */
  lemma FirstResult(w: World, run: seq<Move>)
    requires Start(w) && Possible(w, run)
    ensures var v := After(w, run);
            v.runs == 1 ==>
              || GotIn(v.returned) == []
              || (v.argument.Some? && GotIn(v.returned) == [if v.early then Success else v.argument.value])
  {
    hide After, Possible, Start, Invariant, GotIn;
    StartInvariant(w);
    RunInvariant(w, run);
    if After(w, run).runs == 1 { OneReturned(After(w, run)); }
  }

  lemma {:induction false} ArgumentStays(w: World, run: seq<Move>)
    requires Possible(w, run) && w.resets > 0 && w.argument.Some?
    ensures After(w, run).argument == w.argument && After(w, run).early == w.early
    decreases |run|
  {
    if run != [] {
      ArgumentStays(Next(w, run[0].thread, run[0].action), run[1..]);
    }
  }

  lemma {:induction false} RunsGrow(w: World, run: seq<Move>)
    requires Possible(w, run)
    ensures w.runs <= After(w, run).runs
    decreases |run|
  {
    if run != [] { RunsGrow(Next(w, run[0].thread, run[0].action), run[1..]); }
  }

  /** In the first session nobody has stopped while the state is still running. */
  lemma FirstStop(w: World)
    requires Invariant(w) && w.runs <= 1 && w.state.Running?
    ensures w.runs == 1 && w.argument.None? && !w.early
  {
  }

  /** A stop whose swap succeeds after the reset decides what the first run returns, however the
      threads go on, as long as no second run has got in. */
  lemma LateStopDecides(w: World, before: seq<Move>, stopper: nat, c: Code, after: seq<Move>)
    requires Start(w) && Possible(w, before) && Enabled(After(w, before), stopper, CallStop(c))
    requires Possible(Next(After(w, before), stopper, CallStop(c)), after)
    ensures var u := After(w, before);
            var v := After(Next(u, stopper, CallStop(c)), after);
            u.state.Running? && u.resets > 0 && v.runs == 1 ==>
              GotIn(v.returned) == [] || GotIn(v.returned) == [c]
  {
    hide After, Possible, Start, Enabled, Exclusive, GotIn;
    var u := After(w, before);
    var s := Next(u, stopper, CallStop(c));
    var v := After(s, after);
    StartInvariant(w);
    RunInvariant(w, before);
    if u.state.Running? && u.resets > 0 && v.runs == 1 {
      RunsGrow(s, after);
      FirstStop(u);
      StepInvariant(u, stopper, CallStop(c));
      ArgumentStays(s, after);
      RunInvariant(s, after);
      OneReturned(v);
    }
  }

  ghost predicate Reaches(w: World, v: World) {
    exists run :: Possible(w, run) && After(w, run) == v
  }

  lemma ReachesSelf(w: World)
    ensures Reaches(w, w)
  {
    assert Possible(w, []) && After(w, []) == w;
  }

  lemma ReachesFirst(w: World, t: nat, a: Action, v: World)
    requires Enabled(w, t, a) && Reaches(Next(w, t, a), v)
    ensures Reaches(w, v)
  {
    hide Enabled, Next;
    var rest :| Possible(Next(w, t, a), rest) && After(Next(w, t, a), rest) == v;
    var run := [Move(t, a)] + rest;
    assert run[1..] == rest;
    assert Possible(w, run) && After(w, run) == v;
  }

  /** The argument of a stop can be lost: stored between the swap of run and its reset store, it is
      overwritten, and run has returned success. */
  lemma EarlyCodeLost(w: World, c: Code) returns (v: World)
    requires Start(w) && |w.threads| >= 2
    ensures Reaches(w, v) && |v.threads| == |w.threads|
    ensures v.runs == 1 && v.argument == Some(c) && v.early && v.returned == [Returned(0, false, Success)]
  {
    hide Reaches;
    var swapped := Next(w, 0, CallRun);
    var stopping := Next(swapped, 1, CallStop(c));
    var stored := Next(stopping, 1, Advance);
    var reset := Next(stored, 0, Advance);
    var halted := Next(reset, 1, Advance);
    var leaving := Next(halted, 0, Advance);
    var stopped := Next(leaving, 0, Advance);
    v := Next(stopped, 0, Advance);
    ReachesSelf(v);
    ReachesFirst(stopped, 0, Advance, v);
    ReachesFirst(leaving, 0, Advance, v);
    ReachesFirst(halted, 0, Advance, v);
    ReachesFirst(reset, 1, Advance, v);
    ReachesFirst(stored, 0, Advance, v);
    ReachesFirst(stopping, 1, Advance, v);
    ReachesFirst(swapped, 1, CallStop(c), v);
    ReachesFirst(w, 0, CallRun, v);
  }
}
