/** Where flights go, in every run: each flight created is asked to end, held, or lost in a step that
    can be told from the state before it. Timely runs have no such step. */
module SubmitterConservation {
  import opened Prelude
  import opened GeometryModel
  import opened SubmitterModel
  import opened SubmitterRuns
  import opened SubmitterTimely

  /** The ids deactivations have asked to end. */
  function Closed(ps: seq<Pending>): multiset<string>
    decreases |ps|
  {
    if ps == [] then multiset{}
    else
      var r := ps[|ps| - 1].request;
      Closed(ps[..|ps| - 1]) + if r.EndFlight? then multiset{r.flightId} else multiset{}
  }

  function Current(s: Sys): multiset<string> {
    if s.flight.Some? then multiset{s.flight.value.id} else multiset{}
  }

  /** The ids of the flights that have been asked to end or are held. */
  function Known(s: Sys): multiset<string> {
    Closed(s.issued) + Current(s)
  }

  /** The step brings a flight. */
  predicate Opens(s: Sys, e: Event) {
    && e.Completion? && !e.reply.Failed? && e.index < |s.pending|
    && (s.pending[e.index].request.CreateByPoint? || s.pending[e.index].request.SubmitPlan?)
  }

  function OpenedBy(s: Sys, e: Event): multiset<string> {
    if !Opens(s, e) then multiset{}
    else if e.reply.FlightCreated? then multiset{e.reply.flight.id}
    else if e.reply.PlanSubmitted? then multiset{e.reply.plan.flightId}
    else multiset{}
  }

  /** The step brings a flight while another one is held. */
  predicate Overwrites(s: Sys, e: Event) {
    s.flight.Some? && Opens(s, e)
  }

  /** The step forgets a flight nobody is asked to end: another one takes its place, or an effective
      deactivation has no authorization to end it with. */
  predicate Loses(s: Sys, e: Event) {
    Overwrites(s, e) || (e.Deactivation? && s.active && s.flight.Some? && s.authorization.None?)
  }

  function LostBy(s: Sys, e: Event): multiset<string> {
    if Loses(s, e) then multiset{s.flight.value.id} else multiset{}
  }

  function Opened(c: Config, w: World, run: seq<Move>): multiset<string>
    decreases |run|
  {
    if run == [] || !Enabled(w, run[0].event) then multiset{}
    else OpenedBy(w.s, run[0].event) + Opened(c, Next(c, w, run[0].event, run[0].junk), run[1..])
  }

  function Lost(c: Config, w: World, run: seq<Move>): multiset<string>
    decreases |run|
  {
    if run == [] || !Enabled(w, run[0].event) then multiset{}
    else LostBy(w.s, run[0].event) + Lost(c, Next(c, w, run[0].event, run[0].junk), run[1..])
  }

  predicate NeverLoses(c: Config, w: World, run: seq<Move>)
    decreases |run|
  {
    run == [] || !Enabled(w, run[0].event) ||
    (!Loses(w.s, run[0].event) && NeverLoses(c, Next(c, w, run[0].event, run[0].junk), run[1..]))
  }

  /** Overwrites since the last effective deactivation, `n` of them before the run. */
  function OverwritesNow(c: Config, w: World, run: seq<Move>, n: nat): nat
    decreases |run|
  {
    if run == [] || !Enabled(w, run[0].event) then n
    else
      var e := run[0].event;
      OverwritesNow(c, Next(c, w, e, run[0].junk), run[1..],
                    if e.Deactivation? && w.s.active then 0 else n + One(Overwrites(w.s, e)))
  }

  // The chain neither opens nor closes, whatever state it starts from, and leaves alone what is set
  // from outside.

  /** Whether the submitter is active, its position and mission, and what it has sent. */
  function Outside(s: Sys): (bool, Option<Position>, Option<Geometry>, seq<Sent>) {
    (s.active, s.position, s.mission, s.sent)
  }

  /** The monitor held. */
  function Watched(s: Sys): set<nat> {
    if s.monitor.Some? then {s.monitor.value} else {}
  }

  /** What replies have brought. */
  datatype Held = Held(authorization: Option<string>, pilot: Option<string>, plan: Option<FlightPlan>,
                       flight: Option<Flight>, monitor: Option<nat>, key: Option<string>)

  function HeldBy(s: Sys): Held {
    Held(s.authorization, s.pilot, s.plan, s.flight, s.monitor, s.key)
  }

  /** It may subscribe again, but only to the monitor held. */
  predicate Kept(s: Sys, t: Sys) {
    && (HeldBy(t), Closed(t.issued), Outside(t)) == (HeldBy(s), Closed(s.issued), Outside(s))
    && s.subscribed <= t.subscribed <= s.subscribed + Watched(s)
  }

  lemma ClosedAppend(ps: seq<Pending>, p: Pending)
    ensures Closed(ps + [p]) ==
              if p.request.EndFlight? then Closed(ps) + multiset{p.request.flightId} else Closed(ps)
  {
    assert (ps + [p])[..|ps|] == ps;
  }

  lemma IssueKeeps(s: Sys, flags: Flags, r: Request)
    requires !r.EndFlight?
    ensures Kept(s, Issue(s.(requested := flags), r))
  {
    hide Closed;
    ClosedAppend(s.issued, Pending(r, s.epoch));
  }

  lemma {:induction false} IssueEndsKeeps(s: Sys, token: string, fs: seq<Flight>)
    ensures Kept(s, IssueEnds(s, token, fs))
    decreases |fs|
  {
    hide Closed;
    if fs != [] {
      var n := |fs| - 1;
      IssueEndsKeeps(s, token, fs[..n]);
      var t := IssueEnds(s, token, fs[..n]);
      IssueKeeps(t, t.requested, EndActiveFlight(token, fs[n].id));
    }
  }

  lemma MonitorKeeps(s: Sys, j: Junk)
    ensures Kept(s, RequestMonitor(s, j))
  {
    hide Closed;
    IssueKeeps(s, s.requested.(monitoring := true),
               MonitorTraffic(s.authorization.GetOr(j.authorization), s.flight.GetOr(j.flight).id));
  }

  lemma CommsKeeps(s: Sys, j: Junk)
    ensures Kept(s, RequestComms(s, j))
  {
    hide Closed;
    IssueKeeps(s, s.requested.(comms := true),
               StartComms(s.authorization.GetOr(j.authorization), s.flight.GetOr(j.flight).id));
  }

  lemma FlightFoundKeeps(s: Sys, f: Flight, j: Junk)
    ensures Kept(s.(flight := Some(f)), FlightFound(s, f, j))
  {
    hide Closed, RequestMonitor, RequestComms;
    var t := s.(flight := Some(f));
    MonitorKeeps(t, j);
    CommsKeeps(RequestMonitor(t, j), j);
  }

  lemma SubmitKeeps(s: Sys, j: Junk)
    ensures Kept(s, RequestSubmit(s, j))
  {
    hide Closed, FlightFound;
    if s.flight.Some? {
      FlightFoundKeeps(s, s.flight.value, j);
    } else {
      IssueKeeps(s, s.requested.(submit := true),
                 SubmitPlan(s.authorization.GetOr(j.authorization), s.plan.GetOr(j.plan).id));
    }
  }

  lemma CreateKeeps(c: Config, s: Sys, j: Junk)
    ensures Kept(s, RequestCreate(c, s, j))
  {
    hide Closed, RequestSubmit;
    if s.plan.Some? {
      SubmitKeeps(s.(plan := Some(s.plan.value)), j);
    } else if s.position.Some? {
      var flags := s.requested.(create := true);
      IssueKeeps(s, flags, CreateCall(c, s.(requested := flags), s.position.value, j));
    }
  }

  lemma EndActiveKeeps(c: Config, s: Sys, j: Junk)
    ensures Kept(s, RequestEndActive(c, s, j))
  {
    hide Closed, RequestCreate, IssueEnds;
    CreateKeeps(c, s, j);
    IssueEndsKeeps(s.(requested := s.requested.(endActiveFlights := true)),
                   s.authorization.GetOr(j.authorization), s.activeFlights.GetOr(j.flights));
  }

  lemma SearchKeeps(c: Config, s: Sys, j: Junk)
    ensures Kept(s, RequestActiveFlights(c, s, j))
  {
    hide Closed, RequestEndActive;
    if s.activeFlights.Some? { EndActiveKeeps(c, s.(activeFlights := Some(s.activeFlights.value)), j); }
    IssueKeeps(s, s.requested.(activeFlights := true), SearchFlights(s.pilot));
  }

  lemma PilotKeeps(c: Config, s: Sys, j: Junk)
    ensures Kept(s, RequestPilot(c, s, j))
  {
    hide Closed, RequestActiveFlights;
    if s.pilot.Some? { SearchKeeps(c, s.(pilot := Some(s.pilot.value)), j); }
    if s.authorization.Some? {
      IssueKeeps(s, s.requested.(pilot := true), FetchPilot(s.authorization.value));
    }
  }

  lemma AuthorizationKeeps(c: Config, s: Sys, j: Junk)
    ensures Kept(s, RequestAuthorization(c, s, j))
  {
    hide Closed, RequestPilot;
    if s.authorization.Some? { PilotKeeps(c, s.(authorization := Some(s.authorization.value)), j); }
    IssueKeeps(s, s.requested.(authorization := true), Authenticate(c.oauth));
  }

  lemma EndedKeeps(c: Config, s: Sys, id: string, j: Junk)
    ensures Kept(s, ActiveFlightEnded(c, s, id, j))
  {
    hide Closed, RequestCreate, Erase;
    var rest := Erase(s.activeFlights.GetOr(j.flights), id);
    CreateKeeps(c, s, j);
    CreateKeeps(c, s.(activeFlights := Some(rest)), j);
  }

  /** What is held once a reply has come in. */
  function Brings(h: Held, reply: Reply): Held {
    match reply
    case Authorized(a) => h.(authorization := Some(a))
    case PilotFound(p) => h.(pilot := Some(p))
    case PlanCreated(p) => h.(plan := Some(p))
    case FlightCreated(f) => h.(flight := Some(f))
    case PlanSubmitted(p) => h.(flight := Some(Flight(p.flightId)))
    case Monitoring(m) => h.(monitor := Some(m))
    case CommsStarted(k) => h.(key := Some(k))
    case _ => h
  }

  /** A completion stores what it brings and closes nothing. */
  lemma DeliverKeeps(c: Config, s: Sys, r: Request, reply: Reply, j: Junk)
    requires Answers(r, reply)
    ensures var t := Deliver(c, s, r, reply, j);
            && Closed(t.issued) == Closed(s.issued) && Outside(t) == Outside(s)
            && HeldBy(t) == Brings(HeldBy(s), reply)
            && s.subscribed <= t.subscribed <= s.subscribed + Watched(t)
            && (reply.Monitoring? ==> Watched(t) <= t.subscribed)
  {
    hide Closed, RequestPilot, RequestActiveFlights, RequestEndActive, RequestSubmit, FlightFound, ActiveFlightEnded;
    if !reply.Failed? {
      match r
      case Authenticate(_) => PilotKeeps(c, s.(authorization := Some(reply.authorization)), j);
      case FetchPilot(_) => SearchKeeps(c, s.(pilot := Some(reply.pilot)), j);
      case SearchFlights(_) => EndActiveKeeps(c, s.(activeFlights := Some(reply.flights)), j);
      case EndActiveFlight(_, id) => EndedKeeps(c, s, id, j);
      case CreatePlan(_, _, _, _, _) => SubmitKeeps(s.(plan := Some(reply.plan)), j);
      case CreateByPoint(_, _, _) => FlightFoundKeeps(s, reply.flight, j);
      case SubmitPlan(_, _) => FlightFoundKeeps(s, Flight(reply.plan.flightId), j);
      case _ =>
    }
  }

  // Every step and every run.

  lemma CompletionAccounts(c: Config, s: Sys, i: nat, reply: Reply, j: Junk)
    requires i < |s.pending| && Answers(s.pending[i].request, reply)
    ensures var e := Completion(i, reply);
            OpenedBy(s, e) + Known(s) == Known(NextSys(c, s, e, j)) + LostBy(s, e)
  {
    hide Deliver, Closed, Outside;
    var e := Completion(i, reply);
    var t := NextSys(c, s, e, j);
    DeliverKeeps(c, s.(pending := RemoveAt(s.pending, i)), s.pending[i].request, reply, j);
    if Opens(s, e) {
      hide NextSys, OpenedBy;
      assert Current(t) == OpenedBy(s, e) && Current(s) == LostBy(s, e);
    } else {
      hide NextSys, Loses;
      assert t.flight == s.flight;
    }
  }

  lemma DeactivationAccounts(s: Sys)
    ensures Known(s) == Known(Deactivate(s)) + LostBy(s, Deactivation)
  {
    hide Closed;
    if s.active && s.flight.Some? && s.authorization.Some? {
      ClosedAppend(s.issued, Pending(EndFlight(s.authorization.value, s.flight.value.id), s.epoch + 1));
    }
  }

  lemma StepAccounts(c: Config, s: Sys, e: Event, j: Junk)
    requires e.Completion? ==> e.index < |s.pending| && Answers(s.pending[e.index].request, e.reply)
    ensures OpenedBy(s, e) + Known(s) == Known(NextSys(c, s, e, j)) + LostBy(s, e)
  {
    hide RequestAuthorization, Deactivate, Deliver, ReportOf, Closed, Outside;
    match e
    case Activation => AuthorizationKeeps(c, s.(active := true), j);
    case Deactivation => DeactivationAccounts(s);
    case PositionUpdate(p, _) => AuthorizationKeeps(c, s.(position := Some(p)), j);
    case MissionUpdate(_) =>
    case Completion(i, reply) => CompletionAccounts(c, s, i, reply, j);
  }

  lemma Regroup(a: multiset<string>, b: multiset<string>, x: multiset<string>, y: multiset<string>,
                z: multiset<string>, l: multiset<string>, m: multiset<string>)
    requires a + x == y + l && b + y == z + m
    ensures a + b + x == z + (l + m)
  {
    forall id: string ensures (a + b + x)[id] == (z + (l + m))[id] {
      assert (a + x)[id] == (y + l)[id] && (b + y)[id] == (z + m)[id];
    }
  }

  lemma {:induction false} RunAccounts(c: Config, w: World, run: seq<Move>)
    requires Possible(c, w, run)
    ensures Opened(c, w, run) + Known(w.s) == Known(After(c, w, run).s) + Lost(c, w, run)
    decreases |run|
  {
    hide NextSys, Record, Known, OpenedBy, LostBy;
    if run != [] {
      var e := run[0].event;
      var v := Next(c, w, e, run[0].junk);
      StepAccounts(c, w.s, e, run[0].junk);
      RunAccounts(c, v, run[1..]);
      Regroup(OpenedBy(w.s, e), Opened(c, v, run[1..]), Known(w.s), Known(v.s), Known(After(c, w, run).s),
              LostBy(w.s, e), Lost(c, v, run[1..]));
    }
  }

  lemma {:induction false} NeverLosesIff(c: Config, w: World, run: seq<Move>)
    requires Possible(c, w, run)
    ensures NeverLoses(c, w, run) <==> Lost(c, w, run) == multiset{}
    decreases |run|
  {
    hide Next;
    if run != [] {
      var v := Next(c, w, run[0].event, run[0].junk);
      NeverLosesIff(c, v, run[1..]);
      var lost, rest := LostBy(w.s, run[0].event), Lost(c, v, run[1..]);
      assert |lost + rest| == |lost| + |rest|;
    }
  }

  lemma StepCreated(s: Sys, h: History, e: Event)
    requires Enabled(World(s, h), e)
    ensures Record(s, h, e).created == h.created + |OpenedBy(s, e)|
  {
    hide RecordEnd;
    if e.Completion? && !e.reply.Failed? && s.pending[e.index].request.EndActiveFlight? {
      RecordEndKeepsRest(h.(completions := h.completions + 1), s.activeFlights.GetOr([]),
                         s.pending[e.index].request.flightId);
    }
  }

  lemma {:induction false} CreatedIsOpened(c: Config, w: World, run: seq<Move>)
    requires Possible(c, w, run)
    ensures After(c, w, run).h.created == w.h.created + |Opened(c, w, run)|
    decreases |run|
  {
    hide NextSys, Record, OpenedBy;
    if run != [] {
      var v := Next(c, w, run[0].event, run[0].junk);
      StepCreated(w.s, w.h, run[0].event);
      CreatedIsOpened(c, v, run[1..]);
      var first, rest := OpenedBy(w.s, run[0].event), Opened(c, v, run[1..]);
      assert |first + rest| == |first| + |rest|;
    }
  }

  lemma {:induction false} ClosedIsCounted(ps: seq<Pending>)
    ensures |Closed(ps)| == Count(ps, ClosingStage, 0)
    decreases |ps|
  {
    if ps != [] { ClosedIsCounted(ps[..|ps| - 1]); }
  }

  // Main results.

  /** In every run, id by id: the flights created are those deactivations asked to end, the current
      one, and those lost. */
  lemma FlightsAccounted(c: Config, run: seq<Move>)
    requires Possible(c, START, run)
    ensures Opened(c, START, run) == Known(After(c, START, run).s) + Lost(c, START, run)
  {
    hide Possible, After, Opened, Lost;
    RunAccounts(c, START, run);
    assert Known(START.s) == multiset{};
  }

  /** Flights are conserved, id by id or just in number, exactly in the runs without a losing step. */
  lemma ConservedIff(c: Config, run: seq<Move>)
    requires Possible(c, START, run)
    ensures var w := After(c, START, run);
            && (NeverLoses(c, START, run) <==> Opened(c, START, run) == Known(w.s))
            && (NeverLoses(c, START, run) <==>
                  w.h.created == Count(w.s.issued, ClosingStage, 0) + One(w.s.flight.Some?))
  {
    hide Possible, After, Opened, Lost, NeverLoses, Closed, Count;
    FlightsAccounted(c, run);
    NeverLosesIff(c, START, run);
    CreatedIsOpened(c, START, run);
    var w := After(c, START, run);
    ClosedIsCounted(w.s.issued);
    var known, lost := Known(w.s), Lost(c, START, run);
    assert |known + lost| == |known| + |lost|;
  }

  lemma StepCreatedNow(c: Config, w: World, e: Event, j: Junk, n: nat)
    requires Enabled(w, e) && w.h.createdNow == One(w.s.flight.Some?) + n
    ensures var v := Next(c, w, e, j);
            v.h.createdNow == One(v.s.flight.Some?) +
              if e.Deactivation? && w.s.active then 0 else n + One(Overwrites(w.s, e))
  {
    hide RequestAuthorization, Deliver, ReportOf, Closed, RecordEnd;
    var s := w.s;
    match e
    case Activation => AuthorizationKeeps(c, s.(active := true), j);
    case PositionUpdate(p, _) => AuthorizationKeeps(c, s.(position := Some(p)), j);
    case Completion(i, reply) =>
      DeliverKeeps(c, s.(pending := RemoveAt(s.pending, i)), s.pending[i].request, reply, j);
      if !reply.Failed? && s.pending[i].request.EndActiveFlight? {
        RecordEndKeepsRest(w.h.(completions := w.h.completions + 1), s.activeFlights.GetOr([]),
                           s.pending[i].request.flightId);
      }
    case _ =>
  }

  lemma {:induction false} RunCreatedNow(c: Config, w: World, run: seq<Move>, n: nat)
    requires Possible(c, w, run) && w.h.createdNow == One(w.s.flight.Some?) + n
    ensures var v := After(c, w, run);
            v.h.createdNow == One(v.s.flight.Some?) + OverwritesNow(c, w, run, n)
    decreases |run|
  {
    hide Next;
    if run != [] {
      var e := run[0].event;
      StepCreatedNow(c, w, e, run[0].junk, n);
      RunCreatedNow(c, Next(c, w, e, run[0].junk), run[1..],
                    if e.Deactivation? && w.s.active then 0 else n + One(Overwrites(w.s, e)));
    }
  }

  lemma StepHolds(c: Config, w: World, e: Event, j: Junk)
    requires Enabled(w, e) && w.s.flight.Some? && !(e.Deactivation? && w.s.active)
    ensures Next(c, w, e, j).s.flight.Some?
  {
    hide RequestAuthorization, Deliver, ReportOf, Closed, Record;
    var s := w.s;
    match e
    case Activation => AuthorizationKeeps(c, s.(active := true), j);
    case PositionUpdate(p, _) => AuthorizationKeeps(c, s.(position := Some(p)), j);
    case Completion(i, reply) =>
      DeliverKeeps(c, s.(pending := RemoveAt(s.pending, i)), s.pending[i].request, reply, j);
    case _ =>
  }

  /** Whoever overwrites goes on to hold a flight until the deactivation. */
  lemma {:induction false} OverwriteHolds(c: Config, w: World, run: seq<Move>, n: nat)
    requires Possible(c, w, run) && (n > 0 ==> w.s.flight.Some?)
    ensures OverwritesNow(c, w, run, n) > 0 ==> After(c, w, run).s.flight.Some?
    decreases |run|
  {
    hide Next;
    if run != [] {
      var e := run[0].event;
      if w.s.flight.Some? && !(e.Deactivation? && w.s.active) { StepHolds(c, w, e, run[0].junk); }
      OverwriteHolds(c, Next(c, w, e, run[0].junk), run[1..],
                     if e.Deactivation? && w.s.active then 0 else n + One(Overwrites(w.s, e)));
    }
  }

  /** An activation creates at most one flight exactly if none was overwritten since it began. */
  lemma OneCreationIff(c: Config, run: seq<Move>)
    requires Possible(c, START, run)
    ensures After(c, START, run).h.createdNow <= 1 <==> OverwritesNow(c, START, run, 0) == 0
  {
    hide Possible, After, OverwritesNow;
    RunCreatedNow(c, START, run, 0);
    OverwriteHolds(c, START, run, 0);
  }

  /** A timely step loses nothing: a flight is created only while none is held, and one that is held
      comes with an authorization. */
  lemma TimelyStepKeeps(w: World, e: Event)
    requires Sound(w) && Enabled(w, e) && Timely(w.s, e)
    ensures !Loses(w.s, e)
  {
    hide Count, Tagged, Accounted;
    if Opens(w.s, e) { InFlightWithin(w.s, e.index); }
  }

  lemma {:induction false} TimelyNeverLoses(c: Config, w: World, run: seq<Move>)
    requires Sound(w) && TimelyRun(c, w, run)
    ensures Possible(c, w, run) && NeverLoses(c, w, run)
    decreases |run|
  {
    hide Sound, Next, Loses;
    TimelyIsPossible(c, w, run);
    if run != [] {
      TimelyStepKeeps(w, run[0].event);
      TimelyStepSound(c, w, run[0].event, run[0].junk);
      TimelyNeverLoses(c, Next(c, w, run[0].event, run[0].junk), run[1..]);
    }
  }

  /** So in every timely run the flights created are, id by id, those asked to end and the current one. */
  lemma CreatedAreEnded(c: Config, run: seq<Move>)
    requires TimelyRun(c, START, run)
    ensures Possible(c, START, run) && NeverLoses(c, START, run)
    ensures Opened(c, START, run) == Known(After(c, START, run).s)
  {
    hide TimelyRun, Possible, After, Opened, Known, Sound, NeverLoses;
    StartSound();
    TimelyNeverLoses(c, START, run);
    ConservedIff(c, run);
  }
}
