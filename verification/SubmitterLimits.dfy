/** Where the submitter's promises end: flights lost to untimely completions, an activation that stalls
    for want of a position, and a key that is never asked for again. */
module SubmitterLimits {
  import opened Prelude
  import opened SubmitterModel
  import opened SubmitterRuns
  import opened SubmitterDrive
  import opened SubmitterTimely

  // Reaching a state.

  ghost predicate Reached(c: Config, w: World) {
    exists run :: Possible(c, START, run) && After(c, START, run) == w
  }

  ghost predicate ReachedTimely(c: Config, w: World) {
    exists run :: TimelyRun(c, START, run) && Possible(c, START, run) && After(c, START, run) == w
  }

  lemma StartReached(c: Config)
    ensures ReachedTimely(c, START)
  {
    assert TimelyRun(c, START, []) && Possible(c, START, []) && After(c, START, []) == START;
  }

  lemma TimelyReached(c: Config, w: World)
    requires ReachedTimely(c, w)
    ensures Reached(c, w)
  {
  }

  lemma Reach(c: Config, w: World, e: Event, j: Junk)
    requires Reached(c, w) && Enabled(w, e)
    ensures Reached(c, Next(c, w, e, j))
  {
    hide Possible, After, Next;
    var run :| Possible(c, START, run) && After(c, START, run) == w;
    ExtendRun(c, START, run, Move(e, j));
  }

  lemma ReachInTime(c: Config, w: World, e: Event, j: Junk)
    requires ReachedTimely(c, w) && Enabled(w, e) && Timely(w.s, e)
    ensures ReachedTimely(c, Next(c, w, e, j))
  {
    hide Possible, After, Next, TimelyRun;
    var run :| TimelyRun(c, START, run) && Possible(c, START, run) && After(c, START, run) == w;
    ExtendRun(c, START, run, Move(e, j));
  }

  // A first activation up to the creation stage.

  /** Authorized, no active flights, and a flight asked for at the current point if one is known. */
  function Opened(c: Config, at: Option<Position>): Sys {
    var create := if at.Some? then [Pending(CreateByPoint("a", at.value, c.aircraftId), 0)] else [];
    INITIAL.(active := true,
             requested := NO_FLAGS.(authorization := true, pilot := true, activeFlights := true, create := true),
             position := at, authorization := Some("a"), pilot := Some("b"), activeFlights := Some([]),
             pending := create,
             issued := [Pending(Authenticate(c.oauth), 0), Pending(FetchPilot("a"), 0),
                        Pending(SearchFlights(Some("b")), 0)] + create)
  }

  /** The activation with its first call. */
  lemma ActivatedReached(c: Config, at: Option<Position>, j: Junk) returns (w: World)
    ensures ReachedTimely(c, w) && w.h.created == 0
    ensures w.s == INITIAL.(active := true, requested := NO_FLAGS.(authorization := true), position := at,
                            pending := [Pending(Authenticate(c.oauth), 0)],
                            issued := [Pending(Authenticate(c.oauth), 0)])
  {
    hide ReachedTimely, RequestPilot, ReportOf;
    w := START;
    StartReached(c);
    if at.Some? {
      var e := PositionUpdate(at.value, 0);
      ReachInTime(c, w, e, j);
      w := Next(c, w, e, j);
    }
    ReachInTime(c, w, Activation, j);
    w := Next(c, w, Activation, j);
  }

  lemma OpenedReached(c: Config, at: Option<Position>, j: Junk) returns (w: World)
    ensures ReachedTimely(c, w) && w.s == Opened(c, at) && w.h.created == 0
  {
    hide ReachedTimely;
    w := ActivatedReached(c, at, j);
    ReachInTime(c, w, Completion(0, Authorized("a")), j);
    w := Next(c, w, Completion(0, Authorized("a")), j);
    assert w.s.pending == [Pending(FetchPilot("a"), 0)];
    ReachInTime(c, w, Completion(0, PilotFound("b")), j);
    w := Next(c, w, Completion(0, PilotFound("b")), j);
    assert w.s.pending == [Pending(SearchFlights(Some("b")), 0)];
    ReachInTime(c, w, Completion(0, FlightsFound([])), j);
    w := Next(c, w, Completion(0, FlightsFound([])), j);
    assert w.s.issued == Opened(c, at).issued && w.s.pending == Opened(c, at).pending;
  }

  // Flights lost.

  /** The flight was created only after a deactivation. */
  lemma LateFlightReached(c: Config, p: Position, j: Junk) returns (w: World)
    ensures Reached(c, w) && w.h.created == 1 && !w.s.active && w.s.epoch == 1
    ensures w.s.flight == Some(Flight("f")) && w.s.authorization.None? && !w.s.requested.authorization
    ensures w.s.pilot.None? && w.s.activeFlights == Some([]) && w.s.plan.None? && w.s.requested == NO_FLAGS.(
              monitoring := true, comms := true)
    ensures forall q | q in w.s.issued :: !q.request.EndFlight?
  {
    hide Reached, ReachedTimely;
    w := OpenedReached(c, Some(p), j);
    TimelyReached(c, w);
    Reach(c, w, Deactivation, j);
    w := Next(c, w, Deactivation, j);
    assert w.s.pending == [Pending(CreateByPoint("a", p, c.aircraftId), 0)];
    Reach(c, w, Completion(0, FlightCreated(Flight("f"))), j);
    w := Next(c, w, Completion(0, FlightCreated(Flight("f"))), j);
  }

  lemma {:induction false} NoClosing(ps: seq<Pending>)
    requires forall p | p in ps :: !p.request.EndFlight?
    ensures Count(ps, ClosingStage, 0) == 0
    decreases |ps|
  {
    if ps != [] { NoClosing(ps[..|ps| - 1]); }
  }

  /** Such a flight is forgotten by the next activation and deactivation: it was created, is not held,
      and nobody asked to end it. */
  lemma UntimelyFlightLeaks(c: Config, p: Position, j: Junk) returns (w: World)
    ensures Reached(c, w)
    ensures w.h.created == 1 && Count(w.s.issued, ClosingStage, 0) == 0 && w.s.flight.None?
  {
    hide Reached, Count;
    w := LateFlightReached(c, p, j);
    Reach(c, w, Activation, j);
    w := Next(c, w, Activation, j);
    Reach(c, w, Deactivation, j);
    w := Next(c, w, Deactivation, j);
    NoClosing(w.s.issued);
  }

  /** Both creations are in flight. */
  lemma SecondCreationReached(c: Config, p: Position, j: Junk) returns (w: World)
    ensures Reached(c, w) && w.h.created == 0 && w.h.createdNow == 0 && w.s.flight.None? && w.s.plan.None?
    ensures w.s.monitor.None? && w.s.key.None? && !w.s.requested.monitoring && !w.s.requested.comms
    ensures var create := CreateByPoint("a", p, c.aircraftId);
            w.s.pending == [Pending(create, 0), Pending(create, 1)]
    ensures forall q | q in w.s.issued :: !q.request.EndFlight?
  {
    hide Reached, ReachedTimely;
    w := OpenedReached(c, Some(p), j);
    TimelyReached(c, w);
    Reach(c, w, Deactivation, j);
    w := Next(c, w, Deactivation, j);
    var create := Pending(CreateByPoint("a", p, c.aircraftId), 0);
    assert w.s.pending == [create];
    Reach(c, w, Activation, j);
    w := Next(c, w, Activation, j);
    assert w.s.pending == [create, Pending(Authenticate(c.oauth), 1)];
    Reach(c, w, Completion(1, Authorized("a")), j);
    w := Next(c, w, Completion(1, Authorized("a")), j);
    assert w.s.pending == [create, Pending(FetchPilot("a"), 1)];
    Reach(c, w, Completion(1, PilotFound("b")), j);
    w := Next(c, w, Completion(1, PilotFound("b")), j);
  }

  /** A creation asked for before a deactivation and one after it: the second flight takes the place
      of the first, which nobody asked to end. */
  lemma UntimelyFlightOverwritten(c: Config, p: Position, j: Junk) returns (w: World)
    ensures Reached(c, w)
    ensures w.h.created == 2 && w.h.createdNow == 2
    ensures Count(w.s.issued, ClosingStage, 0) == 0 && w.s.flight == Some(Flight("g"))
  {
    hide Reached, Count;
    w := SecondCreationReached(c, p, j);
    Reach(c, w, Completion(0, FlightCreated(Flight("f"))), j);
    w := Next(c, w, Completion(0, FlightCreated(Flight("f"))), j);
    assert w.s.pending[0].request == CreateByPoint("a", p, c.aircraftId);
    Reach(c, w, Completion(0, FlightCreated(Flight("g"))), j);
    w := Next(c, w, Completion(0, FlightCreated(Flight("g"))), j);
    NoClosing(w.s.issued);
  }

  // Stalling at the creation stage.

  /** Ends of flights: whatever becomes of them, the chain does not wait for them once the list of
      active flights is empty. */
  predicate Idle(r: Request) { r.EndFlight? || r.EndActiveFlight? }

  predicate NothingAwaited(s: Sys) {
    forall p | p in s.pending :: p.epoch == s.epoch ==> Idle(p.request)
  }

  /** Ready to open a flight, its flag set, and nothing in flight that would lead on. */
  predicate Stalled(s: Sys) {
    Ready(s) && s.plan.None? && s.flight.None? && s.requested.create && NothingAwaited(s)
  }

  /** No deactivation, and no completion of a call issued before the last one except for ends. */
  predicate Quiet(w: World, e: Event) {
    && Enabled(w, e) && !e.Deactivation?
    && (e.Completion? ==> w.s.pending[e.index].epoch == w.s.epoch || Idle(w.s.pending[e.index].request))
  }

  predicate QuietRun(c: Config, w: World, run: seq<Move>)
    decreases |run|
  {
    run == [] ||
    (Quiet(w, run[0].event) && QuietRun(c, Next(c, w, run[0].event, run[0].junk), run[1..]))
  }

  /** Reaching the creation stage asks for nothing, and stalls unless something else is in flight,
      exactly when no position is known. */
  lemma CreationStallsIff(c: Config, s: Sys, j: Junk)
    requires Ready(s) && s.plan.None? && s.flight.None? && !s.requested.create
    ensures var t := RequestAuthorization(c, s, j);
            && (t.issued == s.issued <==> s.position.None?)
            && (NothingAwaited(s) ==> (Stalled(t) <==> s.position.None?))
  {
    hide RequestAuthorization, Finish, IssueEnds;
    ChainIsDrive(c, s, j);
    var t := Drive(c, s, j);
    if s.position.Some? {
      assert t.pending[|s.pending|] in t.pending;
    }
  }

  /** The end of a flight, failed or not, changes at most the flag of its stage. */
  lemma StalledEnd(c: Config, s: Sys, r: Request, reply: Reply, j: Junk)
    requires Stalled(s) && Idle(r) && Answers(r, reply)
    ensures var t := Deliver(c, s, r, reply, j); t == s.(requested := t.requested) && t.requested.create
  {
    hide NothingAwaited;
  }

  lemma StalledStep(c: Config, w: World, e: Event, j: Junk)
    requires Stalled(w.s) && Quiet(w, e)
    ensures var t := Next(c, w, e, j).s; Stalled(t) && t.issued == w.s.issued
  {
    hide RequestAuthorization, Finish, IssueEnds, CreateCall, ReportOf, Deliver;
    match e
    case Activation => ChainIsDrive(c, w.s.(active := true), j);
    case PositionUpdate(p, _) => ChainIsDrive(c, w.s.(position := Some(p)), j);
    case MissionUpdate(_) =>
    case Completion(i, reply) =>
      assert w.s.pending[i] in w.s.pending;
      var s := w.s.(pending := RemoveAt(w.s.pending, i));
      forall p | p in s.pending ensures p in w.s.pending {
      }
      StalledEnd(c, s, w.s.pending[i].request, reply, j);
  }

  /** A stalled activation stays so and asks for nothing until it is deactivated, positions or not. */
  lemma {:induction false} StalledForever(c: Config, w: World, run: seq<Move>)
    requires Stalled(w.s) && QuietRun(c, w, run)
    ensures Possible(c, w, run)
    ensures var t := After(c, w, run).s; Stalled(t) && t.issued == w.s.issued
    decreases |run|
  {
    hide Next, Stalled;
    if run != [] {
      StalledStep(c, w, run[0].event, run[0].junk);
      StalledForever(c, Next(c, w, run[0].event, run[0].junk), run[1..]);
    }
  }

  /** Activated without a position, three replies later. */
  lemma StallReached(c: Config, j: Junk) returns (w: World)
    ensures ReachedTimely(c, w) && Stalled(w.s) && w.s.active
  {
    hide ReachedTimely;
    w := OpenedReached(c, None, j);
  }

  // A key never asked for again.

  /** The flight is there, its request for a key has failed. */
  predicate Keyless(s: Sys) {
    Ready(s) && s.flight.Some? && s.key.None? && !s.requested.comms && (s.plan.None? ==> s.requested.create)
  }

  predicate NoDeactivation(run: seq<Move>) {
    forall m | m in run :: !m.event.Deactivation?
  }

  predicate AsksForKey(c: Config, w: World, run: seq<Move>) {
    Possible(c, w, run) && Count(After(c, w, run).s.issued, CommsStage, 0) > Count(w.s.issued, CommsStage, 0)
  }

  lemma MonitorOnly(s: Sys, j: Junk)
    ensures var u := RequestMonitor(s, j);
            && Count(u.issued, CommsStage, 0) == Count(s.issued, CommsStage, 0)
            && u.key == s.key && u.requested.comms == s.requested.comms
            && u.authorization == s.authorization && u.flight == s.flight
  {
    hide Count;
    CountAppend(s.issued, Pending(MonitorTraffic(s.authorization.GetOr(j.authorization), s.flight.GetOr(j.flight).id),
                                  s.epoch), 0);
  }

  /** A flight by point keeps the create flag up, where the drive then stops. */
  lemma DriveStops(c: Config, s: Sys, j: Junk)
    requires Keyless(s) && s.plan.None?
    ensures RequestAuthorization(c, s, j) == s
  {
    hide RequestAuthorization;
    ChainIsDrive(c, s, j);
  }

  /** A flight from a plan is found again, and its key asked for. */
  lemma FinishRetries(s: Sys, j: Junk)
    requires Keyless(s) && s.plan.Some?
    ensures Count(Finish(s, j).issued, CommsStage, 0) > Count(s.issued, CommsStage, 0)
  {
    hide RequestMonitor, Count;
    MonitorOnly(s, j);
    var u := RequestMonitor(s, j);
    CountAppend(u.issued, Pending(StartComms(u.authorization.value, u.flight.value.id), u.epoch), 0);
  }

  lemma KeylessCompletion(c: Config, w: World, i: nat, reply: Reply, j: Junk)
    requires Sound(w) && Keyless(w.s) && w.s.plan.None?
    requires Enabled(w, Completion(i, reply)) && Timely(w.s, Completion(i, reply))
    ensures var t := Next(c, w, Completion(i, reply), j).s;
            Keyless(t) && t.plan.None? && t.issued == w.s.issued
  {
    hide Count, Tagged, Accounted, RequestPilot, RequestActiveFlights, RequestEndActive, RequestSubmit, FlightFound;
    assert StageOf(w.s.pending[i].request) in {EndStage, MonitorStage, ClosingStage} by {
      if !w.s.pending[i].request.EndFlight? {
        InFlightWithin(w.s, i);
        CountRemove(w.s.pending, i, w.s.epoch);
        assert Within(w.s, CommsStage);
      }
    }
  }

  /** By point no timely step that is not a deactivation asks for anything. */
  lemma KeylessStep(c: Config, w: World, e: Event, j: Junk)
    requires Sound(w) && Keyless(w.s) && w.s.plan.None?
    requires Enabled(w, e) && Timely(w.s, e) && !e.Deactivation?
    ensures var t := Next(c, w, e, j).s; Keyless(t) && t.plan.None? && t.issued == w.s.issued
  {
    hide RequestAuthorization, Deliver, Count, Tagged, Accounted, ReportOf;
    match e
    case Activation => DriveStops(c, w.s.(active := true), j);
    case PositionUpdate(p, _) => DriveStops(c, w.s.(position := Some(p)), j);
    case MissionUpdate(_) =>
    case Completion(i, reply) => KeylessCompletion(c, w, i, reply, j);
  }

  /** Once the request for the key of a flight at the current point has failed, no call at all is issued
      until the next deactivation. */
  lemma {:induction false} KeyNeverAsked(c: Config, w: World, run: seq<Move>)
    requires Sound(w) && Keyless(w.s) && w.s.plan.None?
    requires TimelyRun(c, w, run) && NoDeactivation(run)
    ensures Possible(c, w, run)
    ensures var t := After(c, w, run).s; Keyless(t) && t.plan.None? && t.issued == w.s.issued
    decreases |run|
  {
    hide Next, Sound, Keyless, Timely;
    if run != [] {
      assert run[0] in run && forall m | m in run[1..] :: m in run;
      KeylessStep(c, w, run[0].event, run[0].junk);
      TimelyStepSound(c, w, run[0].event, run[0].junk);
      KeyNeverAsked(c, Next(c, w, run[0].event, run[0].junk), run[1..]);
    }
  }

  /** Before the next deactivation the key can be asked for again exactly when the flight came from a
      plan, and then the next drive does so. */
  lemma KeyRetriedIff(c: Config, w: World)
    requires Sound(w) && Keyless(w.s)
    ensures (exists run :: TimelyRun(c, w, run) && NoDeactivation(run) && AsksForKey(c, w, run)) <==> w.s.plan.Some?
  {
    hide Sound, RequestAuthorization, Count, Finish, IssueEnds, CreateCall;
    if w.s.plan.Some? {
      var j := Junk("", "", Flight(""), FlightPlan("", ""), []);
      var run, s := [Move(Activation, j)], w.s.(active := true);
      var v := Next(c, w, Activation, j);
      assert run[1..] == [] && TimelyRun(c, v, []) && Possible(c, v, []) && After(c, v, []) == v;
      ChainIsDrive(c, s, j);
      FinishRetries(s, j);
      assert TimelyRun(c, w, run) && NoDeactivation(run) && AsksForKey(c, w, run);
    } else {
      hide Keyless, TimelyRun, After, Possible;
      forall run | TimelyRun(c, w, run) && NoDeactivation(run) ensures !AsksForKey(c, w, run) {
        KeyNeverAsked(c, w, run);
      }
    }
  }

  /** A timely run that gets there: the flight at the current point is created, the key refused. */
  lemma KeylessReached(c: Config, p: Position, j: Junk) returns (w: World)
    ensures ReachedTimely(c, w) && Keyless(w.s) && w.s.plan.None? && w.s.active
  {
    hide ReachedTimely;
    w := OpenedReached(c, Some(p), j);
    ReachInTime(c, w, Completion(0, FlightCreated(Flight("f"))), j);
    w := Next(c, w, Completion(0, FlightCreated(Flight("f"))), j);
    assert w.s.pending == [Pending(MonitorTraffic("a", "f"), 0), Pending(StartComms("a", "f"), 0)];
    ReachInTime(c, w, Completion(1, Failed), j);
    w := Next(c, w, Completion(1, Failed), j);
  }
}
