/** Runs of the submitter: any interleaving of its operations with completions of the calls in
    flight, delivered in any order, each succeeding or failing. What holds here holds in every run,
    also when completions issued before a deactivation arrive after it. */
module SubmitterRuns {
  import opened Prelude
  import opened GeometryModel
  import opened SubmitterModel

  datatype Event =
    | Activation
    | Deactivation
    | PositionUpdate(position: Position, now: nat)
    | MissionUpdate(geometry: Geometry)
    | Completion(index: nat, reply: Reply)

  /** What happened so far, as the platform sees it: the last search result, the flights erased
      from it and the ids ended successfully since then; successful searches; flights created, in
      all and in this activation; (flight id, key, activation) of each start-communications reply;
      and the number of completions. */
  datatype History = History(
    found: seq<Flight>, erased: seq<Flight>, ended: multiset<string>, searches: nat,
    created: nat, createdNow: nat, keys: set<(string, string, nat)>, completions: nat)

  datatype World = World(s: Sys, h: History)

  const START := World(INITIAL, History([], [], multiset{}, 0, 0, 0, {}, 0))

  predicate Enabled(w: World, e: Event) {
    e.Completion? ==> e.index < |w.s.pending| && Answers(w.s.pending[e.index].request, e.reply)
  }

  function NextSys(c: Config, s: Sys, e: Event, j: Junk): Sys
    requires e.Completion? ==> e.index < |s.pending| && Answers(s.pending[e.index].request, e.reply)
  {
    match e
    case Activation => Activate(c, s, j)
    case Deactivation => Deactivate(s)
    case PositionUpdate(p, now) => Submit(c, s, p, now, j)
    case MissionUpdate(g) => SetMission(s, g)
    case Completion(i, reply) =>
      Deliver(c, s.(pending := RemoveAt(s.pending, i)), s.pending[i].request, reply, j)
  }

  function RecordEnd(h: History, fs: seq<Flight>, id: string): History {
    var k := FindFlight(fs, id);
    h.(ended := h.ended + multiset{id}, erased := h.erased + if k < |fs| then [fs[k]] else [])
  }

  function Record(s: Sys, h: History, e: Event): History
    requires Enabled(World(s, h), e)
  {
    match e
    case Deactivation => if s.active then h.(createdNow := 0) else h
    case Completion(i, reply) =>
      var g := h.(completions := h.completions + 1);
      var p := s.pending[i];
      if reply.Failed? then g
      else (
        match p.request
        case SearchFlights(_) =>
          g.(found := reply.flights, erased := [], ended := multiset{}, searches := h.searches + 1)
        case EndActiveFlight(_, id) =>
          RecordEnd(g, s.activeFlights.GetOr([]), id)
        case CreateByPoint(_, _, _) => g.(created := h.created + 1, createdNow := h.createdNow + 1)
        case SubmitPlan(_, _) => g.(created := h.created + 1, createdNow := h.createdNow + 1)
        case StartComms(_, flightId) => g.(keys := h.keys + {(flightId, reply.key, p.epoch)})
        case _ => g)
    case _ => h
  }

  function Next(c: Config, w: World, e: Event, j: Junk): World
    requires Enabled(w, e)
  {
    World(NextSys(c, w.s, e, j), Record(w.s, w.h, e))
  }

  /** One step of a run, with the arbitrary values its reads of unset optionals would give. */
  datatype Move = Move(event: Event, junk: Junk)

  predicate Possible(c: Config, w: World, run: seq<Move>)
    decreases |run|
  {
    run == [] || (Enabled(w, run[0].event) && Possible(c, Next(c, w, run[0].event, run[0].junk), run[1..]))
  }

  function After(c: Config, w: World, run: seq<Move>): World
    requires Possible(c, w, run)
    decreases |run|
  {
    if run == [] then w else After(c, Next(c, w, run[0].event, run[0].junk), run[1..])
  }

  // Counting calls by stage.

  datatype Stage = AuthorizationStage | PilotStage | SearchStage | EndStage | CreateStage | SubmitStage
                 | MonitorStage | CommsStage | ClosingStage

  function StageOf(r: Request): Stage {
    match r
    case Authenticate(_) => AuthorizationStage
    case FetchPilot(_) => PilotStage
    case SearchFlights(_) => SearchStage
    case EndActiveFlight(_, _) => EndStage
    case CreatePlan(_, _, _, _, _) => CreateStage
    case CreateByPoint(_, _, _) => CreateStage
    case SubmitPlan(_, _) => SubmitStage
    case MonitorTraffic(_, _) => MonitorStage
    case StartComms(_, _) => CommsStage
    case EndFlight(_, _) => ClosingStage
  }

  /** Stages that have at most one call in flight at a time; ending active flights has many. */
  predicate Single(st: Stage) { !st.EndStage? && !st.ClosingStage? }

  predicate Requested(f: Flags, st: Stage) {
    match st
    case AuthorizationStage => f.authorization
    case PilotStage => f.pilot
    case SearchStage => f.activeFlights
    case EndStage => f.endActiveFlights
    case CreateStage => f.create
    case SubmitStage => f.submit
    case MonitorStage => f.monitoring
    case CommsStage => f.comms
    case ClosingStage => false
  }

  /** The call belongs to the stage and was issued in activation `since` or later. */
  predicate Counts(p: Pending, st: Stage, since: nat) {
    p.epoch >= since && StageOf(p.request) == st
  }

  function Count(ps: seq<Pending>, st: Stage, since: nat): nat
    decreases |ps|
  {
    if ps == [] then 0 else Count(ps[..|ps| - 1], st, since) + One(Counts(ps[|ps| - 1], st, since))
  }

  lemma CountAppend(ps: seq<Pending>, p: Pending, since: nat)
    ensures forall st: Stage :: Count(ps + [p], st, since) == Count(ps, st, since) + One(Counts(p, st, since))
  {
    assert (ps + [p])[..|ps|] == ps;
  }

  lemma {:induction false} CountRemove(ps: seq<Pending>, i: nat, since: nat)
    requires i < |ps|
    ensures forall st: Stage ::
              Count(RemoveAt(ps, i), st, since) == Count(ps, st, since) - One(Counts(ps[i], st, since))
    decreases |ps|
  {
    var n := |ps| - 1;
    if i == n {
      assert RemoveAt(ps, i) == ps[..n];
    } else {
      CountRemove(ps[..n], i, since);
      assert RemoveAt(ps, i) == RemoveAt(ps[..n], i) + [ps[n]];
      CountAppend(RemoveAt(ps[..n], i), ps[n], since);
    }
  }

  // What driving the chain may change, whatever state it starts from.

  predicate AsksToCreate(s: Sys, t: Sys) {
    Count(t.issued, CreateStage, 0) != Count(s.issued, CreateStage, 0)
  }

  /** A stage gains at most the call its flag accounts for, end requests are issued only from a
      known list, a flight is asked for only once that list is empty, and nothing else moves. */
  predicate Driven(s: Sys, t: Sys, st: Stage) {
    && t.epoch == s.epoch && t.sent == s.sent && t.activeFlights == s.activeFlights
    && (Single(st) ==>
          Count(t.pending, st, 0) + One(Requested(s.requested, st))
          <= Count(s.pending, st, 0) + One(Requested(t.requested, st)))
    && (Count(t.pending, EndStage, 0) > Count(s.pending, EndStage, 0) ==> s.activeFlights.Some?)
    && (AsksToCreate(s, t) ==> s.activeFlights == Some([]))
  }

  lemma IssueDrives(s: Sys, flags: Flags, r: Request, st: Stage)
    requires Single(StageOf(r)) && !Requested(s.requested, StageOf(r))
    requires Requested(flags, st) == (st == StageOf(r) || Requested(s.requested, st))
    requires StageOf(r).CreateStage? ==> s.activeFlights == Some([])
    ensures Driven(s, Issue(s.(requested := flags), r), st)
  {
    hide Count;
    CountAppend(s.pending, Pending(r, s.epoch), 0);
    CountAppend(s.issued, Pending(r, s.epoch), 0);
  }

  lemma FlagDrives(s: Sys, flags: Flags, st: Stage)
    requires Requested(s.requested, st) ==> Requested(flags, st)
    ensures Driven(s, s.(requested := flags), st)
  {
  }

  lemma DrivenTransitive(s: Sys, t: Sys, u: Sys, st: Stage)
    requires Driven(s, t, st) && Driven(t, u, st)
    ensures Driven(s, u, st)
  {
    hide Count;
  }

  lemma MonitorDrives(s: Sys, j: Junk, st: Stage)
    ensures Driven(s, RequestMonitor(s, j), st)
  {
    hide Count;
    if s.monitor.None? && !s.requested.monitoring {
      IssueDrives(s, s.requested.(monitoring := true),
                  MonitorTraffic(s.authorization.GetOr(j.authorization), s.flight.GetOr(j.flight).id), st);
    }
  }

  lemma CommsFlag(f: Flags, st: Stage)
    ensures Requested(f.(comms := true), st) == (st.CommsStage? || Requested(f, st))
    ensures Requested(f, CommsStage) == f.comms
  {
  }

  lemma CommsDrives(s: Sys, j: Junk, st: Stage)
    ensures Driven(s, RequestComms(s, j), st)
  {
    hide Count, Driven, Requested;
    if s.key.None? && !s.requested.comms {
      CommsFlag(s.requested, st);
      IssueDrives(s, s.requested.(comms := true),
                  StartComms(s.authorization.GetOr(j.authorization), s.flight.GetOr(j.flight).id), st);
    } else {
      FlagDrives(s, s.requested, st);
    }
  }

  lemma FinishDrives(s: Sys, j: Junk, st: Stage)
    ensures Driven(s, RequestComms(RequestMonitor(s, j), j), st)
  {
    hide Count;
    MonitorDrives(s, j, st);
    CommsDrives(RequestMonitor(s, j), j, st);
    DrivenTransitive(s, RequestMonitor(s, j), RequestComms(RequestMonitor(s, j), j), st);
  }

  lemma SubmitFlag(f: Flags, st: Stage)
    ensures Requested(f.(submit := true), st) == (st.SubmitStage? || Requested(f, st))
    ensures Requested(f, SubmitStage) == f.submit
  {
  }

  lemma SubmitDrives(s: Sys, j: Junk, st: Stage)
    ensures Driven(s, RequestSubmit(s, j), st)
  {
    hide Count, RequestMonitor, RequestComms, Driven, Requested;
    SubmitFlag(s.requested, st);
    if s.flight.Some? {
      assert s == s.(flight := Some(s.flight.value));
      FinishDrives(s, j, st);
    } else if !s.requested.submit {
      IssueDrives(s, s.requested.(submit := true),
                  SubmitPlan(s.authorization.GetOr(j.authorization), s.plan.GetOr(j.plan).id), st);
    } else {
      FlagDrives(s, s.requested, st);
    }
  }

  lemma CreateDrives(c: Config, s: Sys, j: Junk, st: Stage)
    requires s.activeFlights == Some([])
    ensures Driven(s, RequestCreate(c, s, j), st)
  {
    hide Count, RequestSubmit;
    if s.plan.Some? {
      assert s == s.(plan := Some(s.plan.value));
      SubmitDrives(s, j, st);
    } else if !s.requested.create {
      var flags := s.requested.(create := true);
      FlagDrives(s, flags, st);
      if s.position.Some? {
        IssueDrives(s, flags, CreateCall(c, s.(requested := flags), s.position.value, j), st);
      }
    }
  }

  lemma {:induction false} IssueEndsCount(s: Sys, token: string, fs: seq<Flight>, since: nat)
    requires since <= s.epoch
    ensures var t := IssueEnds(s, token, fs);
            && t == s.(pending := t.pending, issued := t.issued)
            && (forall st: Stage ::
                  Count(t.pending, st, since) == Count(s.pending, st, since) + if st.EndStage? then |fs| else 0)
            && (forall st: Stage ::
                  Count(t.issued, st, since) == Count(s.issued, st, since) + if st.EndStage? then |fs| else 0)
    decreases |fs|
  {
    if fs != [] {
      var n := |fs| - 1;
      IssueEndsCount(s, token, fs[..n], since);
      var t := IssueEnds(s, token, fs[..n]);
      CountAppend(t.pending, Pending(EndActiveFlight(token, fs[n].id), s.epoch), since);
      CountAppend(t.issued, Pending(EndActiveFlight(token, fs[n].id), s.epoch), since);
    }
  }

  lemma EndActiveDrives(c: Config, s: Sys, j: Junk, st: Stage)
    requires s.activeFlights.Some?
    ensures Driven(s, RequestEndActive(c, s, j), st)
  {
    hide Count, RequestCreate;
    if s.activeFlights == Some([]) {
      CreateDrives(c, s, j, st);
    } else if !s.requested.endActiveFlights {
      IssueEndsCount(s.(requested := s.requested.(endActiveFlights := true)),
                      s.authorization.GetOr(j.authorization), s.activeFlights.value, 0);
    }
  }

  lemma SearchDrives(c: Config, s: Sys, j: Junk, st: Stage)
    ensures Driven(s, RequestActiveFlights(c, s, j), st)
  {
    hide Count, RequestEndActive, Driven;
    if s.activeFlights.Some? {
      assert s == s.(activeFlights := Some(s.activeFlights.value));
      EndActiveDrives(c, s, j, st);
    } else if !s.requested.activeFlights {
      IssueDrives(s, s.requested.(activeFlights := true), SearchFlights(s.pilot), st);
    } else {
      FlagDrives(s, s.requested, st);
    }
  }

  lemma PilotDrives(c: Config, s: Sys, j: Junk, st: Stage)
    ensures Driven(s, RequestPilot(c, s, j), st)
  {
    hide Count, RequestActiveFlights;
    if s.pilot.Some? {
      assert s == s.(pilot := Some(s.pilot.value));
      SearchDrives(c, s, j, st);
    } else if !s.requested.pilot {
      FlagDrives(s, s.requested.(pilot := true), st);
      if s.authorization.Some? {
        IssueDrives(s, s.requested.(pilot := true), FetchPilot(s.authorization.value), st);
      }
    }
  }

  lemma AuthorizationDrives(c: Config, s: Sys, j: Junk, st: Stage)
    ensures Driven(s, RequestAuthorization(c, s, j), st)
  {
    hide Count, RequestPilot;
    if s.authorization.Some? {
      PilotDrives(c, s.(authorization := Some(s.authorization.value)), j, st);
    } else if !s.requested.authorization {
      IssueDrives(s, s.requested.(authorization := true), Authenticate(c.oauth), st);
    }
  }

  /** The first effect of a successful completion: the reply is stored. */
  function Stored(s: Sys, r: Request, reply: Reply): Sys
    requires Answers(r, reply) && !reply.Failed?
  {
    match r
    case Authenticate(_) => s.(authorization := Some(reply.authorization))
    case FetchPilot(_) => s.(pilot := Some(reply.pilot))
    case SearchFlights(_) => s.(activeFlights := Some(reply.flights))
    case EndActiveFlight(_, id) =>
      if s.activeFlights.Some? then s.(activeFlights := Some(Erase(s.activeFlights.value, id))) else s
    case CreatePlan(_, _, _, _, _) => s.(plan := Some(reply.plan))
    case CreateByPoint(_, _, _) => s.(flight := Some(reply.flight))
    case SubmitPlan(_, _) => s.(flight := Some(Flight(reply.plan.flightId)))
    case MonitorTraffic(_, _) => MonitorFound(s, reply.monitor)
    case StartComms(_, _) => s.(key := Some(reply.key))
    case EndFlight(_, _) => s
  }

  /** The second effect: the rest of the chain is driven. */
  lemma DeliverDrives(c: Config, s: Sys, r: Request, reply: Reply, j: Junk, st: Stage)
    requires Answers(r, reply) && !reply.Failed?
    requires r.EndActiveFlight? ==> s.activeFlights.Some?
    ensures Driven(Stored(s, r, reply), Deliver(c, s, r, reply, j), st)
  {
    hide Count, RequestPilot, RequestActiveFlights, RequestEndActive, RequestCreate, RequestSubmit;
    hide RequestMonitor, RequestComms;
    var t := Stored(s, r, reply);
    match r
    case Authenticate(_) => PilotDrives(c, t, j, st);
    case FetchPilot(_) => SearchDrives(c, t, j, st);
    case SearchFlights(_) => EndActiveDrives(c, t, j, st);
    case EndActiveFlight(_, _) => if t.activeFlights == Some([]) { CreateDrives(c, t, j, st); }
    case CreatePlan(_, _, _, _, _) => SubmitDrives(t, j, st);
    case CreateByPoint(_, _, _) => FinishDrives(t, j, st);
    case SubmitPlan(_, _) => FinishDrives(t, j, st);
    case _ =>
  }

  // The invariants of every run.

  function CountId(fs: seq<Flight>, id: string): nat
    decreases |fs|
  {
    if fs == [] then 0 else CountId(fs[..|fs| - 1], id) + One(fs[|fs| - 1].id == id)
  }

  lemma {:induction false} CountIdRemove(fs: seq<Flight>, i: nat)
    requires i < |fs|
    ensures forall id :: CountId(RemoveAt(fs, i), id) == CountId(fs, id) - One(fs[i].id == id)
    decreases |fs|
  {
    var n := |fs| - 1;
    if i == n {
      assert RemoveAt(fs, i) == fs[..n];
    } else {
      CountIdRemove(fs[..n], i);
      var r := RemoveAt(fs[..n], i);
      assert RemoveAt(fs, i) == r + [fs[n]] && (r + [fs[n]])[..|r|] == r;
    }
  }

  /** The calls of one stage in flight, against deactivations so far and the flag of the stage. */
  predicate Bounded(s: Sys, st: Stage) {
    && (Single(st) ==> Count(s.pending, st, 0) <= s.epoch + One(Requested(s.requested, st)))
    && (Count(s.pending, EndStage, 0) > 0 ==> s.activeFlights.Some?)
  }

  /** Id by id, the list of active flights and the flights erased from it make up the search result,
      and no flight was erased without a successful end of its id. */
  predicate Balanced(s: Sys, h: History, id: string) {
    && (s.activeFlights.Some? ==>
          CountId(s.activeFlights.value, id) + CountId(h.erased, id) == CountId(h.found, id))
    && CountId(h.erased, id) <= h.ended[id]
  }

  lemma DriveKeeps(s: Sys, t: Sys, h: History, st: Stage, id: string)
    requires Bounded(s, st) && Balanced(s, h, id) && Driven(s, t, st)
    ensures Bounded(t, st) && Balanced(t, h, id)
  {
    hide Count;
  }

  /** Ending a flight moves at most one flight with its id from the list to the erased flights. */
  lemma EraseBalances(fs: seq<Flight>, x: string, h: History, id: string)
    ensures var g := RecordEnd(h, fs, x);
            && CountId(Erase(fs, x), id) + CountId(g.erased, id) == CountId(fs, id) + CountId(h.erased, id)
            && CountId(g.erased, id) <= CountId(h.erased, id) + One(x == id)
            && g.ended[id] == h.ended[id] + One(x == id) && g.found == h.found
  {
    var k := FindFlight(fs, x);
    if k < |fs| {
      CountIdRemove(fs, k);
      assert (h.erased + [fs[k]])[..|h.erased|] == h.erased;
    } else {
      assert h.erased + [] == h.erased;
    }
  }

  lemma ClearedFlag(f: Flags, r: Request, st: Stage)
    ensures Requested(Cleared(f, r), st) == (Requested(f, st) && st != StageOf(r))
  {
  }

  /** Taking a call out of flight leaves room for its stage, even once its flag is cleared. */
  lemma TakeKeeps(s: Sys, i: nat, st: Stage)
    requires Bounded(s, st) && i < |s.pending|
    ensures var t := s.(pending := RemoveAt(s.pending, i));
            Bounded(t, st) && Bounded(t.(requested := Cleared(s.requested, s.pending[i].request)), st)
  {
    hide Count, Cleared, Requested, StageOf;
    CountRemove(s.pending, i, 0);
    ClearedFlag(s.requested, s.pending[i].request, st);
  }

  lemma StoredBounded(s: Sys, i: nat, reply: Reply, st: Stage)
    requires Bounded(s, st) && i < |s.pending|
    requires Answers(s.pending[i].request, reply) && !reply.Failed?
    ensures var r := s.pending[i].request;
            && Bounded(Stored(s.(pending := RemoveAt(s.pending, i)), r, reply), st)
            && (r.EndActiveFlight? ==> s.activeFlights.Some?)
  {
    hide Count, Cleared, Requested, Erase;
    TakeKeeps(s, i, st);
    CountRemove(s.pending, i, 0);
  }

  lemma StoredBalances(s: Sys, i: nat, reply: Reply, h: History, id: string)
    requires Balanced(s, h, id) && i < |s.pending|
    requires Answers(s.pending[i].request, reply) && !reply.Failed?
    requires s.pending[i].request.EndActiveFlight? ==> s.activeFlights.Some?
    ensures var t := Stored(s.(pending := RemoveAt(s.pending, i)), s.pending[i].request, reply);
            Balanced(t, Record(s, h, Completion(i, reply)), id)
  {
    hide RecordEnd, Erase;
    match s.pending[i].request
    case EndActiveFlight(_, x) => EraseBalances(s.activeFlights.value, x, h.(completions := h.completions + 1), id);
    case _ =>
  }

  /** Closing counts one more deactivation and issues nothing but the end of the flight. */
  lemma CloseKeeps(s: Sys, st: Stage)
    requires Bounded(s, st)
    ensures var t := Close(s);
            && (Single(st) ==> Count(t.pending, st, 0) <= t.epoch)
            && Count(t.pending, EndStage, 0) == Count(s.pending, EndStage, 0)
            && t.activeFlights == s.activeFlights && !AsksToCreate(s, t)
  {
    hide Count, Requested;
    if s.authorization.Some? && s.flight.Some? {
      var p := Pending(EndFlight(s.authorization.value, s.flight.value.id), s.epoch + 1);
      CountAppend(s.pending, p, 0);
      CountAppend(s.issued, p, 0);
    }
  }

  lemma DeactivationKeeps(s: Sys, st: Stage)
    requires Bounded(s, st)
    ensures var t := Deactivate(s);
            Bounded(t, st) && t.activeFlights == s.activeFlights && !AsksToCreate(s, t)
  {
    hide Count, Close;
    CloseKeeps(s, st);
  }

  lemma CompletionKeeps(c: Config, w: World, i: nat, reply: Reply, j: Junk, st: Stage, id: string)
    requires Bounded(w.s, st) && Balanced(w.s, w.h, id) && Enabled(w, Completion(i, reply))
    ensures var v := Next(c, w, Completion(i, reply), j); Bounded(v.s, st) && Balanced(v.s, v.h, id)
  {
    hide Count;
    var s, r := w.s.(pending := RemoveAt(w.s.pending, i)), w.s.pending[i].request;
    if reply.Failed? {
      TakeKeeps(w.s, i, st);
    } else {
      StoredBounded(w.s, i, reply, st);
      StoredBalances(w.s, i, reply, w.h, id);
      hide Deliver, Stored, Driven, Record;
      DeliverDrives(c, s, r, reply, j, st);
      DriveKeeps(Stored(s, r, reply), Deliver(c, s, r, reply, j), Record(w.s, w.h, Completion(i, reply)), st, id);
    }
  }

  lemma StepKeeps(c: Config, w: World, e: Event, j: Junk, st: Stage, id: string)
    requires Bounded(w.s, st) && Balanced(w.s, w.h, id) && Enabled(w, e)
    ensures var v := Next(c, w, e, j); Bounded(v.s, st) && Balanced(v.s, v.h, id)
  {
    hide Count, RequestAuthorization, Deliver, Deactivate, Erase, RecordEnd, Driven;
    var s := w.s;
    match e
    case Activation =>
      var t := s.(active := true);
      AuthorizationDrives(c, t, j, st);
      DriveKeeps(t, RequestAuthorization(c, t, j), w.h, st, id);
    case Deactivation => DeactivationKeeps(s, st);
    case PositionUpdate(p, _) =>
      var t := s.(position := Some(p));
      AuthorizationDrives(c, t, j, st);
      DriveKeeps(t, RequestAuthorization(c, t, j), w.h, st, id);
    case MissionUpdate(_) =>
    case Completion(i, reply) => CompletionKeeps(c, w, i, reply, j, st, id);
  }

  lemma {:induction false} RunKeeps(c: Config, w: World, run: seq<Move>, st: Stage, id: string)
    requires Bounded(w.s, st) && Balanced(w.s, w.h, id) && Possible(c, w, run)
    ensures var v := After(c, w, run); Bounded(v.s, st) && Balanced(v.s, v.h, id)
    decreases |run|
  {
    if run != [] {
      StepKeeps(c, w, run[0].event, run[0].junk, st, id);
      RunKeeps(c, Next(c, w, run[0].event, run[0].junk), run[1..], st, id);
    }
  }

  // Main results about every run.

  /** Each stage has at most one call in flight more than there were effective deactivations. */
  lemma InFlightBound(c: Config, run: seq<Move>, st: Stage)
    requires Possible(c, START, run) && Single(st)
    ensures var s := After(c, START, run).s; Count(s.pending, st, 0) <= s.epoch + 1
  {
    RunKeeps(c, START, run, st, "");
  }

  /** Flights are their ids here, so agreeing id by id is agreeing as multisets. */
  lemma {:induction false} CountIsMultiset(fs: seq<Flight>, f: Flight)
    ensures CountId(fs, f.id) == multiset(fs)[f]
    decreases |fs|
  {
    if fs != [] {
      var n := |fs| - 1;
      CountIsMultiset(fs[..n], f);
      assert fs == fs[..n] + [fs[n]];
    }
  }

  lemma SumIsMultisetSum(a: seq<Flight>, b: seq<Flight>, sum: seq<Flight>)
    requires forall id :: CountId(a, id) + CountId(b, id) == CountId(sum, id)
    ensures multiset(a) + multiset(b) == multiset(sum)
  {
    forall f: Flight
      ensures multiset(a)[f] + multiset(b)[f] == multiset(sum)[f]
    {
      CountIsMultiset(a, f);
      CountIsMultiset(b, f);
      CountIsMultiset(sum, f);
    }
  }

  /** The list of active flights is set whenever the callback of an end request reads it, and with
      the flights erased from it makes up the last search result. */
  lemma ActiveListAccounted(c: Config, run: seq<Move>)
    requires Possible(c, START, run)
    ensures var w := After(c, START, run);
            && (Count(w.s.pending, EndStage, 0) > 0 ==> w.s.activeFlights.Some?)
            && (w.s.activeFlights.Some? ==>
                  multiset(w.s.activeFlights.value) + multiset(w.h.erased) == multiset(w.h.found))
  {
    var w := After(c, START, run);
    RunKeeps(c, START, run, EndStage, "");
    if w.s.activeFlights.Some? {
      forall id ensures CountId(w.s.activeFlights.value, id) + CountId(w.h.erased, id) == CountId(w.h.found, id) {
        RunKeeps(c, START, run, EndStage, id);
      }
      SumIsMultisetSum(w.s.activeFlights.value, w.h.erased, w.h.found);
    }
  }

  /** A step that asks for a flight ends with an empty list of active flights. */
  lemma CreationNeedsEmptyList(c: Config, w: World, e: Event, j: Junk)
    requires Enabled(w, e) && Bounded(w.s, EndStage)
    ensures AsksToCreate(w.s, Next(c, w, e, j).s) ==> Next(c, w, e, j).s.activeFlights == Some([])
  {
    hide Count, RequestAuthorization, Deactivate, AuthorizationKnown, PilotKnown, FlightsKnown;
    hide ActiveFlightEnded, PlanFound, FlightFound;
    var s := w.s;
    match e
    case Activation => AuthorizationDrives(c, s.(active := true), j, EndStage);
    case Deactivation => DeactivationKeeps(s, EndStage);
    case PositionUpdate(p, _) => AuthorizationDrives(c, s.(position := Some(p)), j, EndStage);
    case MissionUpdate(_) =>
    case Completion(i, reply) =>
      CountRemove(s.pending, i, 0);
      var t := s.(pending := RemoveAt(s.pending, i));
      if !reply.Failed? { DeliverDrives(c, t, s.pending[i].request, reply, j, EndStage); }
  }

  /** No flight is asked for before every flight of the last search result has been erased and its
      id ended successfully at least as often as the search listed it. */
  lemma NoCreationBeforeEnds(c: Config, run: seq<Move>, e: Event, j: Junk, id: string)
    requires Possible(c, START, run)
    ensures var w := After(c, START, run);
            Enabled(w, e) && AsksToCreate(w.s, Next(c, w, e, j).s) ==>
              var h := Next(c, w, e, j).h;
              CountId(h.erased, id) == CountId(h.found, id) <= h.ended[id]
  {
    hide Next, AsksToCreate;
    var w := After(c, START, run);
    RunKeeps(c, START, run, EndStage, id);
    if Enabled(w, e) && AsksToCreate(w.s, Next(c, w, e, j).s) {
      StepKeeps(c, w, e, j, EndStage, id);
      CreationNeedsEmptyList(c, w, e, j);
    }
  }
}
