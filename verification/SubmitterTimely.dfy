/** Timely runs of the submitter: no completion of a call issued before a deactivation arrives after
    it. In these the flights the submitter opens are the ones it closes, telemetry goes out only
    under the key of its own flight, and no unset optional is ever read. */
module SubmitterTimely {
  import opened Prelude
  import opened GeometryModel
  import opened SubmitterModel
  import opened SubmitterRuns
  import opened SubmitterDrive

  /** The end of a flight may complete at any time: its callback only logs. */
  predicate Timely(s: Sys, e: Event) {
    e.Completion? && e.index < |s.pending| ==>
      s.pending[e.index].epoch == s.epoch || s.pending[e.index].request.EndFlight?
  }

  predicate TimelyRun(c: Config, w: World, run: seq<Move>)
    decreases |run|
  {
    run == [] ||
    (Enabled(w, run[0].event) && Timely(w.s, run[0].event) &&
     TimelyRun(c, Next(c, w, run[0].event, run[0].junk), run[1..]))
  }

  lemma {:induction false} ExtendRun(c: Config, w: World, run: seq<Move>, m: Move)
    requires Possible(c, w, run) && Enabled(After(c, w, run), m.event)
    ensures Possible(c, w, run + [m])
    ensures After(c, w, run + [m]) == Next(c, After(c, w, run), m.event, m.junk)
    ensures TimelyRun(c, w, run) && Timely(After(c, w, run).s, m.event) ==> TimelyRun(c, w, run + [m])
    decreases |run|
  {
    hide Next, Timely;
    if run == [] {
      assert run + [m] == [m] && [m][1..] == [];
    } else {
      assert (run + [m])[1..] == run[1..] + [m];
      ExtendRun(c, Next(c, w, run[0].event, run[0].junk), run[1..], m);
    }
  }

  lemma {:induction false} TimelyIsPossible(c: Config, w: World, run: seq<Move>)
    requires TimelyRun(c, w, run)
    ensures Possible(c, w, run)
    decreases |run|
  {
    if run != [] { TimelyIsPossible(c, Next(c, w, run[0].event, run[0].junk), run[1..]); }
  }

  // The invariant, in parts.

  /** Each stage's value implies those of the stages before it; a flight at the current point keeps
      the create flag up, which bars a second one. */
  predicate Chain(s: Sys) {
    && (s.pilot.Some? ==> s.authorization.Some?)
    && (s.plan.Some? ==> Ready(s))
    && (s.flight.Some? ==> Ready(s))
    && (s.flight.Some? && s.plan.None? ==> s.requested.create)
    && (s.monitor.Some? ==> s.flight.Some?)
    && (s.key.Some? ==> s.flight.Some?)
  }

  /** A call of this activation is in flight only while its stage is the one that waits for it. */
  predicate Within(s: Sys, st: Stage) {
    var n := Count(s.pending, st, s.epoch);
    match st
    case AuthorizationStage => n <= One(s.requested.authorization && s.authorization.None?)
    case PilotStage => n <= One(s.requested.pilot && s.authorization.Some? && s.pilot.None?)
    case SearchStage => n <= One(s.requested.activeFlights && s.pilot.Some? && s.activeFlights.None?)
    case EndStage => n > 0 ==> s.pilot.Some? && s.activeFlights.Some?
    case CreateStage => n <= One(s.requested.create && Ready(s) && s.plan.None? && s.flight.None?)
    case SubmitStage => n <= One(s.requested.submit && s.plan.Some? && s.flight.None?)
    case MonitorStage => n <= One(s.requested.monitoring && s.flight.Some? && s.monitor.None?)
    case CommsStage => n <= One(s.requested.comms && s.flight.Some? && s.key.None?)
    case ClosingStage => true
  }

  /** No call is from the future, and one that asks for a key of this activation asks it for its flight. */
  predicate Tagged(s: Sys, p: Pending) {
    && p.epoch <= s.epoch
    && (p.epoch == s.epoch && p.request.StartComms? ==> s.flight.Some? && s.flight.value.id == p.request.flightId)
  }

  /** Flights created against flights ended by a deactivation, the key against the replies. */
  ghost predicate Accounted(s: Sys, h: History) {
    && h.created == Count(s.issued, ClosingStage, 0) + One(s.flight.Some?)
    && h.createdNow == One(s.flight.Some?)
    && h.searches == One(s.activeFlights.Some?)
    && (s.key.Some? ==> s.flight.Some? && (s.flight.value.id, s.key.value, s.epoch) in h.keys)
    && (forall x | x in s.sent :: (x.flight.id, x.key, x.epoch) in h.keys)
  }

  ghost predicate Sound(w: World) {
    && Chain(w.s)
    && (forall st: Stage :: Within(w.s, st))
    && (forall p | p in w.s.pending :: Tagged(w.s, p))
    && Accounted(w.s, w.h)
  }

  // Driving keeps each part.

  lemma IssueWithin(s: Sys, flags: Flags, r: Request, st: Stage)
    ensures var t := Issue(s.(requested := flags), r);
            && Count(t.pending, st, t.epoch) == Count(s.pending, st, s.epoch) + One(StageOf(r) == st)
            && Count(t.issued, st, 0) == Count(s.issued, st, 0) + One(StageOf(r) == st)
  {
    CountAppend(s.pending, Pending(r, s.epoch), s.epoch);
    CountAppend(s.issued, Pending(r, s.epoch), 0);
  }

  lemma MonitorWithin(s: Sys, j: Junk, st: Stage)
    requires Chain(s) && Within(s, st) && s.flight.Some?
    ensures var t := RequestMonitor(s, j);
            Chain(t) && Within(t, st) && Count(t.issued, ClosingStage, 0) == Count(s.issued, ClosingStage, 0)
  {
    hide Count;
    var r := MonitorTraffic(s.authorization.value, s.flight.value.id);
    IssueWithin(s, s.requested.(monitoring := true), r, st);
    IssueWithin(s, s.requested.(monitoring := true), r, ClosingStage);
  }

  lemma CommsWithin(s: Sys, j: Junk, st: Stage)
    requires Chain(s) && Within(s, st) && s.flight.Some?
    ensures var t := RequestComms(s, j);
            Chain(t) && Within(t, st) && Count(t.issued, ClosingStage, 0) == Count(s.issued, ClosingStage, 0)
  {
    hide Count;
    var r := StartComms(s.authorization.value, s.flight.value.id);
    IssueWithin(s, s.requested.(comms := true), r, st);
    IssueWithin(s, s.requested.(comms := true), r, ClosingStage);
  }

  lemma FinishWithin(s: Sys, j: Junk, st: Stage)
    requires Chain(s) && Within(s, st) && s.flight.Some?
    ensures var t := Finish(s, j);
            Chain(t) && Within(t, st) && Count(t.issued, ClosingStage, 0) == Count(s.issued, ClosingStage, 0)
  {
    hide Count, RequestComms;
    MonitorWithin(s, j, st);
    CommsWithin(RequestMonitor(s, j), j, st);
  }

  lemma SetupWithin(c: Config, s: Sys, j: Junk, st: Stage)
    requires Chain(s) && Within(s, st) && (s.pilot.None? || s.activeFlights.None?)
    ensures var t := Drive(c, s, j);
            Chain(t) && Within(t, st) && Count(t.issued, ClosingStage, 0) == Count(s.issued, ClosingStage, 0)
  {
    hide Count, Finish, IssueEnds, CreateCall;
    var r, flags;
    if s.authorization.None? {
      r, flags := Authenticate(c.oauth), s.requested.(authorization := true);
    } else if s.pilot.None? {
      r, flags := FetchPilot(s.authorization.value), s.requested.(pilot := true);
    } else {
      r, flags := SearchFlights(s.pilot), s.requested.(activeFlights := true);
    }
    IssueWithin(s, flags, r, st);
    IssueWithin(s, flags, r, ClosingStage);
  }

  lemma EndsWithin(c: Config, s: Sys, j: Junk, st: Stage)
    requires Chain(s) && Within(s, st) && s.pilot.Some? && s.activeFlights.Some? && s.activeFlights.value != []
    ensures var t := Drive(c, s, j);
            Chain(t) && Within(t, st) && Count(t.issued, ClosingStage, 0) == Count(s.issued, ClosingStage, 0)
  {
    hide Count, Finish, IssueEnds, CreateCall;
    var t := s.(requested := s.requested.(endActiveFlights := true));
    IssueEndsCount(t, s.authorization.value, s.activeFlights.value, s.epoch);
    IssueEndsCount(t, s.authorization.value, s.activeFlights.value, 0);
  }

  lemma CreationWithin(c: Config, s: Sys, j: Junk, st: Stage)
    requires Chain(s) && Within(s, st) && Ready(s) && s.flight.None?
    ensures var t := Drive(c, s, j);
            Chain(t) && Within(t, st) && Count(t.issued, ClosingStage, 0) == Count(s.issued, ClosingStage, 0)
  {
    hide Count, Finish, IssueEnds;
    if s.plan.None? {
      var flags := s.requested.(create := true);
      if s.position.Some? {
        var r := CreateCall(c, s.(requested := flags), s.position.value, j);
        IssueWithin(s, flags, r, st);
        IssueWithin(s, flags, r, ClosingStage);
      }
    } else {
      var r := SubmitPlan(s.authorization.value, s.plan.value.id);
      IssueWithin(s, s.requested.(submit := true), r, st);
      IssueWithin(s, s.requested.(submit := true), r, ClosingStage);
    }
  }

  lemma DriveWithin(c: Config, s: Sys, j: Junk, st: Stage)
    requires Chain(s) && Within(s, st)
    ensures var t := Drive(c, s, j);
            Chain(t) && Within(t, st) && Count(t.issued, ClosingStage, 0) == Count(s.issued, ClosingStage, 0)
  {
    hide Count, IssueEnds, CreateCall, Within;
    if s.pilot.None? || s.activeFlights.None? {
      SetupWithin(c, s, j, st);
    } else if s.activeFlights.value != [] {
      EndsWithin(c, s, j, st);
    } else if s.flight.None? {
      CreationWithin(c, s, j, st);
    } else if s.plan.Some? {
      hide Finish;
      FinishWithin(s, j, st);
    }
  }

  lemma FinishTagged(s: Sys, j: Junk, p: Pending)
    requires s.flight.Some?
    requires p in s.pending ==> Tagged(s, p)
    ensures var t := Finish(s, j); p in t.pending ==> Tagged(t, p)
  {
  }

  lemma {:induction false} IssueEndsTagged(s: Sys, token: string, fs: seq<Flight>, p: Pending)
    requires p in s.pending ==> Tagged(s, p)
    ensures var t := IssueEnds(s, token, fs);
            t == s.(pending := t.pending, issued := t.issued) && (p in t.pending ==> Tagged(t, p))
    decreases |fs|
  {
    if fs != [] { IssueEndsTagged(s, token, fs[..|fs| - 1], p); }
  }

  /** Calls driving adds are of this activation, and ask for keys of its flight only. */
  lemma DriveTagged(c: Config, s: Sys, j: Junk, p: Pending)
    requires Chain(s)
    requires p in s.pending ==> Tagged(s, p)
    ensures var t := Drive(c, s, j); p in t.pending ==> Tagged(t, p)
  {
    hide IssueEnds, Finish;
    if s.pilot.Some? && s.activeFlights.Some? && s.activeFlights.value != [] {
      IssueEndsTagged(s.(requested := s.requested.(endActiveFlights := true)),
                      s.authorization.value, s.activeFlights.value, p);
    } else if s.plan.Some? && s.flight.Some? {
      FinishTagged(s, j, p);
    }
  }

  lemma DriveSound(c: Config, s: Sys, h: History, j: Junk)
    requires Sound(World(s, h))
    ensures Sound(World(Drive(c, s, j), h))
  {
    hide Drive, Within, Tagged, Count;
    var t := Drive(c, s, j);
    DriveKeepsRest(c, s, j);
    forall st: Stage ensures Chain(t) && Within(t, st) {
      DriveWithin(c, s, j, st);
    }
    forall p | p in t.pending ensures Tagged(t, p) {
      DriveTagged(c, s, j, p);
    }
    DriveWithin(c, s, j, ClosingStage);
  }

  lemma FinishSound(s: Sys, h: History, j: Junk)
    requires Sound(World(s, h)) && s.flight.Some?
    ensures Sound(World(Finish(s, j), h))
  {
    hide Finish, Within, Tagged, Count;
    var t := Finish(s, j);
    FinishKeepsRest(s, j);
    forall st: Stage ensures Chain(t) && Within(t, st) {
      FinishWithin(s, j, st);
    }
    forall p | p in t.pending ensures Tagged(t, p) {
      FinishTagged(s, j, p);
    }
    FinishWithin(s, j, ClosingStage);
  }

  // Completions of calls of this activation.

  lemma FailureWithin(s: Sys, i: nat, st: Stage)
    requires Chain(s) && i < |s.pending| && s.pending[i].epoch == s.epoch
    requires Within(s, st) && Within(s, StageOf(s.pending[i].request))
    ensures var r := s.pending[i].request;
            var t := s.(pending := RemoveAt(s.pending, i), requested := Cleared(s.requested, r));
            Chain(t) && Within(t, st)
  {
    hide Count;
    CountRemove(s.pending, i, s.epoch);
  }

  lemma EraseNothing()
    ensures forall id :: Erase([], id) == []
  {
  }

  /** A call of this activation in flight is one its stage accounts for. */
  lemma InFlightWithin(s: Sys, i: nat)
    requires i < |s.pending| && s.pending[i].epoch == s.epoch
    requires Within(s, StageOf(s.pending[i].request))
    ensures match StageOf(s.pending[i].request)
            case AuthorizationStage => s.authorization.None?
            case PilotStage => s.authorization.Some? && s.pilot.None?
            case SearchStage => s.pilot.Some? && s.activeFlights.None?
            case EndStage => s.pilot.Some? && s.activeFlights.Some?
            case CreateStage => s.requested.create && Ready(s) && s.plan.None? && s.flight.None?
            case SubmitStage => s.plan.Some? && s.flight.None?
            case MonitorStage => s.flight.Some? && s.monitor.None?
            case CommsStage => s.flight.Some? && s.key.None?
            case ClosingStage => true
  {
    hide Count;
    CountRemove(s.pending, i, s.epoch);
  }

  /** Storing a reply empties its stage and leaves the next one to act. */
  lemma StoredChain(s: Sys, i: nat, reply: Reply)
    requires Chain(s) && i < |s.pending| && s.pending[i].epoch == s.epoch
    requires Within(s, StageOf(s.pending[i].request))
    requires Answers(s.pending[i].request, reply) && !reply.Failed?
    ensures Chain(Stored(s.(pending := RemoveAt(s.pending, i)), s.pending[i].request, reply))
  {
    hide Count, RemoveAt, Within, Erase;
    InFlightWithin(s, i);
    EraseNothing();
  }

  predicate BeforeCreation(r: Request) {
    r.Authenticate? || r.FetchPilot? || r.SearchFlights? || r.EndActiveFlight?
  }

  lemma StoredWithinEarly(s: Sys, i: nat, reply: Reply, st: Stage)
    requires Chain(s) && i < |s.pending| && s.pending[i].epoch == s.epoch
    requires Within(s, st) && Within(s, StageOf(s.pending[i].request))
    requires Within(s, CreateStage) && Within(s, SubmitStage)
    requires Answers(s.pending[i].request, reply) && !reply.Failed?
    requires BeforeCreation(s.pending[i].request)
    ensures Within(Stored(s.(pending := RemoveAt(s.pending, i)), s.pending[i].request, reply), st)
  {
    hide Count, RemoveAt, Erase;
    InFlightWithin(s, i);
    CountRemove(s.pending, i, s.epoch);
    EraseNothing();
  }

  lemma StoredWithinLate(s: Sys, i: nat, reply: Reply, st: Stage)
    requires Chain(s) && i < |s.pending| && s.pending[i].epoch == s.epoch
    requires Within(s, st) && Within(s, StageOf(s.pending[i].request))
    requires Within(s, CreateStage) && Within(s, SubmitStage)
    requires Answers(s.pending[i].request, reply) && !reply.Failed?
    requires !BeforeCreation(s.pending[i].request)
    ensures Within(Stored(s.(pending := RemoveAt(s.pending, i)), s.pending[i].request, reply), st)
  {
    hide Count, RemoveAt, Erase;
    InFlightWithin(s, i);
    CountRemove(s.pending, i, s.epoch);
  }

  lemma StoredWithin(s: Sys, i: nat, reply: Reply, st: Stage)
    requires Chain(s) && i < |s.pending| && s.pending[i].epoch == s.epoch
    requires Within(s, st) && Within(s, StageOf(s.pending[i].request))
    requires Within(s, CreateStage) && Within(s, SubmitStage)
    requires Answers(s.pending[i].request, reply) && !reply.Failed?
    ensures Within(Stored(s.(pending := RemoveAt(s.pending, i)), s.pending[i].request, reply), st)
  {
    hide Within, Stored, Chain, Count, RemoveAt, BeforeCreation;
    if BeforeCreation(s.pending[i].request) {
      StoredWithinEarly(s, i, reply, st);
    } else {
      StoredWithinLate(s, i, reply, st);
    }
  }

  /** The rest of the step, when the reply leads on: by then the state is ready to be driven. */
  lemma DeliverIsDrive(c: Config, s: Sys, r: Request, reply: Reply, j: Junk)
    requires Answers(r, reply) && !reply.Failed? && Chain(Stored(s, r, reply))
    requires StageOf(r) in {AuthorizationStage, PilotStage, SearchStage, EndStage} || r.CreatePlan?
    requires !r.Authenticate? ==> s.authorization.Some?
    requires r.SearchFlights? || r.EndActiveFlight? || r.CreatePlan? ==> s.pilot.Some?
    requires r.EndActiveFlight? ==> s.activeFlights.Some?
    ensures var t := Stored(s, r, reply);
            Deliver(c, s, r, reply, j) == if r.EndActiveFlight? && !Ready(t) then t else Drive(c, t, j)
  {
    hide RequestPilot, RequestActiveFlights, RequestEndActive, RequestCreate, RequestSubmit, Finish, IssueEnds, Erase;
    var t := Stored(s, r, reply);
    match r
    case Authenticate(_) => PilotIsDrive(c, t, j);
    case FetchPilot(_) => SearchIsDrive(c, t, j);
    case SearchFlights(_) => EndActiveIsDrive(c, t, j);
    case EndActiveFlight(_, _) => if Ready(t) { CreateIsDrive(c, t, j); }
    case CreatePlan(_, _, _, _, _) => SubmitIsDrive(c, t, j);
  }

  lemma RecordEndKeepsRest(h: History, fs: seq<Flight>, id: string)
    ensures var g := RecordEnd(h, fs, id); g == h.(ended := g.ended, erased := g.erased)
  {
  }

  /** What the platform's record adds for a reply matches what storing it changes. */
  lemma StoredAccounted(s: Sys, h: History, i: nat, reply: Reply)
    requires Accounted(s, h) && i < |s.pending| && s.pending[i].epoch == s.epoch
    requires Within(s, StageOf(s.pending[i].request)) && Tagged(s, s.pending[i])
    requires Answers(s.pending[i].request, reply) && !reply.Failed?
    ensures var t := Stored(s.(pending := RemoveAt(s.pending, i)), s.pending[i].request, reply);
            Accounted(t, Record(s, h, Completion(i, reply)))
  {
    hide Erase, RecordEnd, Within, Count, RemoveAt;
    InFlightWithin(s, i);
    if s.pending[i].request.EndActiveFlight? {
      RecordEndKeepsRest(h.(completions := h.completions + 1), s.activeFlights.GetOr([]),
                         s.pending[i].request.flightId);
    }
  }

  /** A flight is stored only while no call asks for a key of this activation. */
  lemma StoredTagged(s: Sys, i: nat, reply: Reply, p: Pending)
    requires i < |s.pending| && s.pending[i].epoch == s.epoch
    requires Within(s, StageOf(s.pending[i].request))
    requires p in s.pending ==> Tagged(s, p)
    requires Answers(s.pending[i].request, reply) && !reply.Failed?
    ensures var t := Stored(s.(pending := RemoveAt(s.pending, i)), s.pending[i].request, reply);
            p in t.pending ==> Tagged(t, p)
  {
    hide Erase;
    InFlightWithin(s, i);
  }

  lemma StoredKeepsPending(s: Sys, i: nat, reply: Reply, p: Pending)
    requires i < |s.pending| && Answers(s.pending[i].request, reply) && !reply.Failed?
    ensures p in Stored(s.(pending := RemoveAt(s.pending, i)), s.pending[i].request, reply).pending ==> p in s.pending
  {
    hide Erase;
  }

  lemma StoredSound(w: World, i: nat, reply: Reply)
    requires Sound(w) && Enabled(w, Completion(i, reply)) && !reply.Failed? && w.s.pending[i].epoch == w.s.epoch
    ensures var t := Stored(w.s.(pending := RemoveAt(w.s.pending, i)), w.s.pending[i].request, reply);
            Sound(World(t, Record(w.s, w.h, Completion(i, reply))))
  {
    hide Stored, Record, Within, Tagged, RemoveAt;
    var s := w.s;
    var t := Stored(s.(pending := RemoveAt(s.pending, i)), s.pending[i].request, reply);
    StoredChain(s, i, reply);
    StoredAccounted(s, w.h, i, reply);
    forall st: Stage ensures Within(t, st) {
      StoredWithin(s, i, reply, st);
    }
    forall p | p in t.pending ensures Tagged(t, p) {
      StoredKeepsPending(s, i, reply, p);
      StoredTagged(s, i, reply, p);
    }
  }

  lemma ReplySound(c: Config, w: World, i: nat, reply: Reply, j: Junk)
    requires Sound(w) && Enabled(w, Completion(i, reply)) && !reply.Failed? && w.s.pending[i].epoch == w.s.epoch
    ensures Sound(Next(c, w, Completion(i, reply), j))
  {
    hide Within, Tagged, Count, Record, Accounted;
    var r := w.s.pending[i].request;
    var s := w.s.(pending := RemoveAt(w.s.pending, i));
    var h := Record(w.s, w.h, Completion(i, reply));
    StoredSound(w, i, reply);
    InFlightWithin(w.s, i);
    var t := Stored(s, r, reply);
    DriveSound(c, t, h, j);
    if StageOf(r) in {AuthorizationStage, PilotStage, SearchStage, EndStage} || r.CreatePlan? {
      hide Stored, Deliver, Drive, Sound;
      DeliverIsDrive(c, s, r, reply, j);
    } else if r.CreateByPoint? || r.SubmitPlan? {
      hide Drive, RequestMonitor, RequestComms, Erase;
      FinishSound(t, h, j);
    }
  }

  lemma FailureSound(c: Config, w: World, i: nat, j: Junk)
    requires Sound(w) && Enabled(w, Completion(i, Failed)) && w.s.pending[i].epoch == w.s.epoch
    ensures Sound(Next(c, w, Completion(i, Failed), j))
  {
    hide Within, Count, Cleared;
    var t := Next(c, w, Completion(i, Failed), j).s;
    forall st: Stage ensures Within(t, st) {
      FailureWithin(w.s, i, st);
    }
    forall p | p in t.pending ensures Tagged(t, p) {
      assert Tagged(w.s, p);
    }
    FailureWithin(w.s, i, ClosingStage);
  }

  /** The end of a flight completes, whenever it was asked for: nothing but its call goes. */
  lemma FlightEndSound(c: Config, w: World, i: nat, reply: Reply, j: Junk)
    requires Sound(w) && Enabled(w, Completion(i, reply)) && w.s.pending[i].request.EndFlight?
    ensures Sound(Next(c, w, Completion(i, reply), j))
  {
    hide Count;
    var t := Next(c, w, Completion(i, reply), j).s;
    CountRemove(w.s.pending, i, w.s.epoch);
    forall st: Stage ensures Within(t, st) {
      assert Within(w.s, st);
    }
    forall p | p in t.pending ensures Tagged(t, p) {
      assert Tagged(w.s, p);
    }
  }

  lemma {:induction false} NoneSince(ps: seq<Pending>, st: Stage, since: nat)
    requires forall p | p in ps :: p.epoch < since
    ensures Count(ps, st, since) == 0
    decreases |ps|
  {
    if ps != [] { NoneSince(ps[..|ps| - 1], st, since); }
  }

  /** Deactivation ends the flight it forgets, and leaves no call of the next activation in flight. */
  lemma CloseSound(s: Sys, st: Stage)
    requires forall p | p in s.pending :: Tagged(s, p)
    requires s.flight.Some? ==> s.authorization.Some?
    ensures var t := Close(s);
            && Count(t.pending, st, t.epoch) <= One(st.ClosingStage?)
            && Count(t.issued, ClosingStage, 0) == Count(s.issued, ClosingStage, 0) + One(s.flight.Some?)
            && (forall p | p in t.pending :: p.epoch < t.epoch || (p.request.EndFlight? && p.epoch == t.epoch))
            && t == s.(active := false, epoch := s.epoch + 1, pending := t.pending, issued := t.issued)
  {
    hide Count;
    NoneSince(s.pending, st, s.epoch + 1);
    if s.flight.Some? {
      var p := Pending(EndFlight(s.authorization.value, s.flight.value.id), s.epoch + 1);
      CountAppend(s.pending, p, s.epoch + 1);
      CountAppend(s.issued, p, 0);
    }
  }

  lemma DeactivationSound(c: Config, w: World, j: Junk)
    requires Sound(w)
    ensures Sound(Next(c, w, Deactivation, j))
  {
    hide Count, Close;
    var s := w.s;
    if s.active {
      forall st: Stage ensures Within(Deactivate(s), st) {
        CloseSound(s, st);
      }
      CloseSound(s, ClosingStage);
    }
  }

  lemma RecordQuiet(s: Sys, h: History, e: Event)
    requires !e.Deactivation? && !e.Completion?
    ensures Record(s, h, e) == h
  {
  }

  /** The invariant does not look at the position, the mission or whether the submitter is active. */
  lemma CarrySound(s: Sys, t: Sys, h: History)
    requires Sound(World(s, h))
    requires t == s.(active := t.active, position := t.position, mission := t.mission, sent := t.sent)
    requires forall x | x in t.sent :: (x.flight.id, x.key, x.epoch) in h.keys
    ensures Sound(World(t, h))
  {
    hide Count;
    forall st: Stage ensures Within(t, st) {
      assert Within(s, st);
    }
    forall p | p in t.pending ensures Tagged(t, p) {
      assert Tagged(s, p);
    }
  }

  lemma SubmitSound(c: Config, w: World, p: Position, now: nat, j: Junk)
    requires Sound(w)
    ensures Sound(Next(c, w, PositionUpdate(p, now), j))
  {
    hide Count, RequestAuthorization, Drive, ReportOf, Within, Tagged;
    var t := w.s.(position := Some(p));
    CarrySound(w.s, t, w.h);
    if w.s.active && w.s.authorization.Some? && w.s.flight.Some? && w.s.key.Some? {
      CarrySound(w.s, Submit(c, w.s, p, now, j), w.h);
    } else {
      DriveSound(c, t, w.h, j);
      ChainIsDrive(c, t, j);
    }
  }

  lemma MissionSound(c: Config, w: World, g: Geometry, j: Junk)
    requires Sound(w)
    ensures Sound(Next(c, w, MissionUpdate(g), j))
  {
    hide Within, Tagged;
    CarrySound(w.s, SetMission(w.s, g), w.h);
  }

  lemma TimelyStepSound(c: Config, w: World, e: Event, j: Junk)
    requires Sound(w) && Enabled(w, e) && Timely(w.s, e)
    ensures Sound(Next(c, w, e, j))
  {
    hide Deliver, Deactivate, RequestAuthorization, Drive, Count, Record, Within, Tagged;
    var s := w.s;
    match e
    case Activation =>
      CarrySound(s, s.(active := true), w.h);
      DriveSound(c, s.(active := true), w.h, j);
      ChainIsDrive(c, s.(active := true), j);
      assert Record(s, w.h, e) == w.h by { RecordQuiet(s, w.h, e); }
    case Deactivation => DeactivationSound(c, w, j);
    case PositionUpdate(p, now) => SubmitSound(c, w, p, now, j);
    case MissionUpdate(g) => MissionSound(c, w, g, j);
    case Completion(i, reply) =>
      if s.pending[i].request.EndFlight? {
        FlightEndSound(c, w, i, reply, j);
      } else if reply.Failed? {
        FailureSound(c, w, i, j);
      } else {
        ReplySound(c, w, i, reply, j);
      }
  }

  lemma {:induction false} TimelyRunSound(c: Config, w: World, run: seq<Move>)
    requires Sound(w) && TimelyRun(c, w, run)
    ensures Possible(c, w, run) && Sound(After(c, w, run))
    decreases |run|
  {
    hide Sound;
    TimelyIsPossible(c, w, run);
    if run != [] {
      TimelyStepSound(c, w, run[0].event, run[0].junk);
      TimelyRunSound(c, Next(c, w, run[0].event, run[0].junk), run[1..]);
    }
  }

  // Main results about every timely run.

  lemma StartSound()
    ensures Sound(START)
  {
  }

  lemma TimelyReach(c: Config, run: seq<Move>)
    requires TimelyRun(c, START, run)
    ensures Possible(c, START, run) && Sound(After(c, START, run))
  {
    hide Sound, TimelyRun, Possible, After;
    StartSound();
    TimelyRunSound(c, START, run);
  }

  /** Flights are conserved: as many were created as deactivations asked to end, plus the current
      one; an activation creates at most one, by plan or by point. */
  lemma FlightsConserved(c: Config, run: seq<Move>)
    requires TimelyRun(c, START, run)
    ensures Possible(c, START, run)
    ensures var w := After(c, START, run);
            && w.h.created == Count(w.s.issued, ClosingStage, 0) + One(w.s.flight.Some?)
            && w.h.createdNow == One(w.s.flight.Some?)
  {
    hide TimelyRun, Possible, After, Count, Within, Tagged;
    TimelyReach(c, run);
  }

  /** Every telemetry update went out under a key that answered a start-communications request for
      its own flight in its own activation. */
  lemma TelemetryUsesOwnKey(c: Config, run: seq<Move>, x: Sent)
    requires TimelyRun(c, START, run)
    ensures Possible(c, START, run)
    ensures var w := After(c, START, run); x in w.s.sent ==> (x.flight.id, x.key, x.epoch) in w.h.keys
  {
    hide TimelyRun, Possible, After, Count, Within, Tagged;
    TimelyReach(c, run);
  }

  /** Values come in order along the chain, and the search succeeds at most once, ever. */
  lemma ValuesInOrder(c: Config, run: seq<Move>)
    requires TimelyRun(c, START, run)
    ensures Possible(c, START, run)
    ensures var w := After(c, START, run);
            && (w.s.key.Some? ==> w.s.flight.Some?)
            && (w.s.flight.Some? ==> w.s.authorization.Some? && w.s.pilot.Some? && w.s.activeFlights == Some([]))
            && w.h.searches <= 1
  {
    hide TimelyRun, Possible, After, Count, Within, Tagged;
    TimelyReach(c, run);
  }

  lemma FinishIgnoresJunk(s: Sys, j: Junk, k: Junk)
    requires Chain(s) && s.flight.Some?
    ensures Finish(s, j) == Finish(s, k)
  {
  }

  lemma DriveIgnoresJunk(c: Config, s: Sys, j: Junk, k: Junk)
    requires Chain(s)
    ensures Drive(c, s, j) == Drive(c, s, k)
  {
    hide IssueEnds, Finish;
    if s.flight.Some? { FinishIgnoresJunk(s, j, k); }
  }

  lemma FlightReplyIgnoresJunk(c: Config, s: Sys, r: Request, reply: Reply, j: Junk, k: Junk)
    requires Answers(r, reply) && !reply.Failed? && Chain(Stored(s, r, reply))
    requires !BeforeCreation(r) && !r.CreatePlan?
    ensures Deliver(c, s, r, reply, j) == Deliver(c, s, r, reply, k)
  {
    hide RequestMonitor, RequestComms;
    var t := Stored(s, r, reply);
    if t.flight.Some? { FinishIgnoresJunk(t, j, k); }
  }

  lemma ReplyIgnoresJunk(c: Config, w: World, i: nat, reply: Reply, j: Junk, k: Junk)
    requires Sound(w) && Enabled(w, Completion(i, reply)) && Timely(w.s, Completion(i, reply))
    ensures Next(c, w, Completion(i, reply), j) == Next(c, w, Completion(i, reply), k)
  {
    hide Within, Tagged, Count, Record, Accounted;
    var r := w.s.pending[i].request;
    if !reply.Failed? && !r.EndFlight? {
      var s := w.s.(pending := RemoveAt(w.s.pending, i));
      var t := Stored(s, r, reply);
      StoredSound(w, i, reply);
      InFlightWithin(w.s, i);
      if BeforeCreation(r) || r.CreatePlan? {
        DriveIgnoresJunk(c, t, j, k);
        hide Stored, Deliver, Drive, Sound;
        DeliverIsDrive(c, s, r, reply, j);
        DeliverIsDrive(c, s, r, reply, k);
      } else {
        hide Drive, Finish, Erase, Sound;
        FlightReplyIgnoresJunk(c, s, r, reply, j, k);
      }
    }
  }

  lemma StepIgnoresJunk(c: Config, w: World, e: Event, j: Junk, k: Junk)
    requires Sound(w) && Enabled(w, e) && Timely(w.s, e)
    ensures Next(c, w, e, j) == Next(c, w, e, k)
  {
    hide Deliver, RequestAuthorization, Drive, Count, Record, Accounted;
    match e
    case Activation =>
      var t := w.s.(active := true);
      ChainIsDrive(c, t, j);
      ChainIsDrive(c, t, k);
      DriveIgnoresJunk(c, t, j, k);
    case PositionUpdate(p, now) =>
      var t := w.s.(position := Some(p));
      ChainIsDrive(c, t, j);
      ChainIsDrive(c, t, k);
      DriveIgnoresJunk(c, t, j, k);
    case Completion(i, reply) => ReplyIgnoresJunk(c, w, i, reply, j, k);
    case _ =>
  }

  /** No `get()` on the submitter's own optionals reads an unset one: what those reads would give
      makes no difference to any step. */
  lemma NoUnsetRead(c: Config, run: seq<Move>, e: Event, j: Junk, k: Junk)
    requires TimelyRun(c, START, run)
    ensures Possible(c, START, run)
    ensures var w := After(c, START, run);
            Enabled(w, e) && Timely(w.s, e) ==> Next(c, w, e, j) == Next(c, w, e, k)
  {
    hide TimelyRun, Possible, After, Next, Sound;
    TimelyReach(c, run);
    var w := After(c, START, run);
    if Enabled(w, e) && Timely(w.s, e) {
      StepIgnoresJunk(c, w, e, j, k);
    }
  }
}
