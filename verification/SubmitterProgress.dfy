/** The first activation, when every call succeeds and a position is known in time: the submitter
    gets its key and its traffic monitor after a number of completions fixed in advance, however
    many position and mission updates come in between. */
module SubmitterProgress {
  import opened Prelude
  import opened SubmitterModel
  import opened SubmitterRuns
  import opened SubmitterDrive

  /** Nothing fails, nobody deactivates, and a position is known once the list of active flights is empty. */
  predicate Smooth(c: Config, w: World, m: Move) {
    && Enabled(w, m.event)
    && !m.event.Deactivation?
    && (m.event.Completion? ==> !m.event.reply.Failed?)
    && var s := Next(c, w, m.event, m.junk).s;
       s.activeFlights == Some([]) ==> s.position.Some?
  }

  predicate SmoothRun(c: Config, w: World, run: seq<Move>)
    decreases |run|
  {
    run == [] || (Smooth(c, w, run[0]) && SmoothRun(c, Next(c, w, run[0].event, run[0].junk), run[1..]))
  }

  function PlansAsked(ps: seq<Pending>): nat
    decreases |ps|
  {
    if ps == [] then 0 else PlansAsked(ps[..|ps| - 1]) + One(ps[|ps| - 1].request.CreatePlan?)
  }

  /** End requests in flight for one flight id. */
  function EndsFor(ps: seq<Pending>, id: string): nat
    decreases |ps|
  {
    if ps == [] then 0
    else
      var r := ps[|ps| - 1].request;
      EndsFor(ps[..|ps| - 1], id) + One(r.EndActiveFlight? && r.flightId == id)
  }

  lemma AppendCounts(ps: seq<Pending>, p: Pending, id: string)
    ensures PlansAsked(ps + [p]) == PlansAsked(ps) + One(p.request.CreatePlan?)
    ensures EndsFor(ps + [p], id) == EndsFor(ps, id) + One(p.request.EndActiveFlight? && p.request.flightId == id)
  {
    assert (ps + [p])[..|ps|] == ps;
  }

  lemma {:induction false} RemoveEndsFor(ps: seq<Pending>, i: nat, id: string)
    requires i < |ps|
    ensures var r := ps[i].request;
            EndsFor(RemoveAt(ps, i), id) == EndsFor(ps, id) - One(r.EndActiveFlight? && r.flightId == id)
    decreases |ps|
  {
    var n := |ps| - 1;
    if i == n {
      assert RemoveAt(ps, i) == ps[..n];
    } else {
      RemoveEndsFor(ps[..n], i, id);
      assert RemoveAt(ps, i) == RemoveAt(ps[..n], i) + [ps[n]];
      AppendCounts(RemoveAt(ps[..n], i), ps[n], id);
    }
  }

  lemma {:induction false} IssueEndsShape(s: Sys, token: string, fs: seq<Flight>)
    ensures var t := IssueEnds(s, token, fs);
            && t == s.(pending := t.pending, issued := t.issued)
            && |t.pending| == |s.pending| + |fs|
            && (forall k | |s.pending| <= k < |t.pending| :: t.pending[k].request.EndActiveFlight?)
            && t.pending[..|s.pending|] == s.pending
    decreases |fs|
  {
    if fs != [] { IssueEndsShape(s, token, fs[..|fs| - 1]); }
  }

  lemma {:induction false} IssueEndsCounts(s: Sys, token: string, fs: seq<Flight>, id: string)
    ensures var t := IssueEnds(s, token, fs);
            && EndsFor(t.pending, id) == EndsFor(s.pending, id) + CountId(fs, id)
            && PlansAsked(t.issued) == PlansAsked(s.issued)
    decreases |fs|
  {
    hide EndsFor, PlansAsked;
    if fs != [] {
      var n := |fs| - 1;
      IssueEndsCounts(s, token, fs[..n], id);
      IssueEndsShape(s, token, fs[..n]);
      var t := IssueEnds(s, token, fs[..n]);
      AppendCounts(t.pending, Pending(EndActiveFlight(token, fs[n].id), s.epoch), id);
      AppendCounts(t.issued, Pending(EndActiveFlight(token, fs[n].id), s.epoch), id);
    }
  }

  /** Exactly n calls are in flight, all of one stage. */
  predicate Only(ps: seq<Pending>, st: Stage, n: nat) {
    |ps| == n && forall p | p in ps :: StageOf(p.request) == st
  }

  /** Before the flight exists: the one stage that waits, with its flag set and no later one. */
  predicate Opening(s: Sys) {
    var f := s.requested;
    && s.flight.None? && s.monitor.None? && s.key.None? && !f.monitoring && !f.comms
    && if s.authorization.None? then
         && s.pilot.None? && s.activeFlights.None? && s.plan.None?
         && f == NO_FLAGS.(authorization := true) && Only(s.pending, AuthorizationStage, 1) && PlansAsked(s.issued) == 0
       else if s.pilot.None? then
         && s.activeFlights.None? && s.plan.None?
         && f == NO_FLAGS.(authorization := true, pilot := true)
         && Only(s.pending, PilotStage, 1) && PlansAsked(s.issued) == 0
       else if s.activeFlights.None? then
         && s.plan.None? && f == NO_FLAGS.(authorization := true, pilot := true, activeFlights := true)
         && Only(s.pending, SearchStage, 1) && PlansAsked(s.issued) == 0
       else if s.activeFlights.value != [] then
         && s.plan.None? && f.endActiveFlights && !f.create && !f.submit
         && Only(s.pending, EndStage, |s.activeFlights.value|) && PlansAsked(s.issued) == 0
       else if s.plan.None? then
         && f.create && !f.submit && Only(s.pending, CreateStage, 1)
         && PlansAsked(s.issued) == One(s.pending[0].request.CreatePlan?)
       else f.create && f.submit && Only(s.pending, SubmitStage, 1) && PlansAsked(s.issued) == 1
  }

  /** With the flight: its monitor and its key are waited for side by side. */
  predicate Closing(s: Sys) {
    && Ready(s) && s.flight.Some? && s.requested.create
    && PlansAsked(s.issued) == One(s.plan.Some?)
    && s.requested.monitoring && s.requested.comms
    && |s.pending| == One(s.monitor.None?) + One(s.key.None?)
    && (forall p | p in s.pending :: if s.key.Some? then p.request.MonitorTraffic?
                                     else if s.monitor.Some? then p.request.StartComms?
                                     else p.request.MonitorTraffic? || p.request.StartComms?)
    && (s.monitor.None? && s.key.None? ==> s.pending[0].request.MonitorTraffic? && s.pending[1].request.StartComms?)
  }

  predicate Untouched(s: Sys) {
    && s.pending == [] && s.issued == [] && s.requested == NO_FLAGS && s.authorization.None? && s.pilot.None?
    && s.activeFlights.None? && s.plan.None? && s.flight.None? && s.monitor.None? && s.key.None?
  }

  /** Completions still to come, counting a flight at the current point until a plan is asked for. */
  function Remaining(s: Sys): nat {
    if s.authorization.None? then 6
    else if s.pilot.None? then 5
    else if s.activeFlights.None? then 4
    else if s.flight.Some? then One(s.monitor.None?) + One(s.key.None?)
    else if s.activeFlights.value != [] then |s.activeFlights.value| + 3
    else if s.plan.Some? then 3
    else 3 + One(s.pending != [] && s.pending[0].request.CreatePlan?)
  }

  /** The search has not come back yet, so the number of flights to end is not known. */
  function Waiting(s: Sys): nat {
    One(s.activeFlights.None?)
  }

  /** What every completion lowers: first the wait for the search, then the completions to come, with
      room for a plan as long as none has been decided on. */
  predicate Falls(s: Sys, t: Sys) {
    || Waiting(t) < Waiting(s)
    || (Waiting(t) == Waiting(s) && Remaining(t) + One(!t.requested.create) < Remaining(s) + One(!s.requested.create))
  }

  /** Nothing the measure looks at has changed. */
  predicate Untroubled(s: Sys, t: Sys) {
    Waiting(t) == Waiting(s) && Remaining(t) == Remaining(s) && t.requested == s.requested
  }

  /** Every completion of a smooth first activation: six, one per flight the search found, and one
      more by plan. */
  function Total(w: World): nat {
    6 + |w.h.found| + One(PlansAsked(w.s.issued) > 0)
  }

  predicate Smoothly(w: World, id: string) {
    && (if !w.s.active then Untouched(w.s)
        else if w.s.flight.None? then Opening(w.s) else Closing(w.s))
    && w.h.completions + Remaining(w.s) == Total(w)
    && (w.s.activeFlights.None? ==> w.h.found == [])
    && (w.s.activeFlights.Some? && w.s.activeFlights.value != [] ==>
          EndsFor(w.s.pending, id) == CountId(w.s.activeFlights.value, id))
  }

  lemma TakeOnly(ps: seq<Pending>, st: Stage, i: nat)
    requires Only(ps, st, 1) && i < |ps|
    ensures i == 0 && RemoveAt(ps, i) == [] && StageOf(ps[0].request) == st
  {
    assert ps[0] in ps;
  }

  // Driving adds nothing while a stage waits.

  lemma OpeningWaits(c: Config, s: Sys, j: Junk)
    requires Opening(s)
    ensures Drive(c, s, j) == s
  {
    hide IssueEnds, Finish, CreateCall, PlansAsked;
  }

  lemma ClosingWaits(c: Config, s: Sys, j: Junk)
    requires Closing(s)
    ensures var t := Drive(c, s, j); t == s.(subscribed := t.subscribed)
  {
    hide IssueEnds, CreateCall, PlansAsked;
  }

  // Driving starts the next stage.

  lemma StartsSetup(c: Config, s: Sys, j: Junk)
    requires s.pending == [] && PlansAsked(s.issued) == 0
    requires s.activeFlights.None? && s.plan.None? && s.flight.None? && s.monitor.None? && s.key.None?
    requires s.authorization.None? ==> s.requested == NO_FLAGS && s.pilot.None?
    requires s.authorization.Some? && s.pilot.None? ==> s.requested == NO_FLAGS.(authorization := true)
    requires s.authorization.Some? && s.pilot.Some? ==> s.requested == NO_FLAGS.(authorization := true, pilot := true)
    ensures Opening(Drive(c, s, j))
  {
    hide IssueEnds, Finish, CreateCall, PlansAsked;
    if s.authorization.None? {
      AppendCounts(s.issued, Pending(Authenticate(c.oauth), s.epoch), "");
    } else if s.pilot.None? {
      AppendCounts(s.issued, Pending(FetchPilot(s.authorization.value), s.epoch), "");
    } else {
      AppendCounts(s.issued, Pending(SearchFlights(s.pilot), s.epoch), "");
    }
  }

  lemma StartsEnds(c: Config, s: Sys, j: Junk, id: string)
    requires s.pending == [] && PlansAsked(s.issued) == 0 && s.authorization.Some? && s.pilot.Some?
    requires s.activeFlights.Some? && s.activeFlights.value != []
    requires s.plan.None? && s.flight.None? && s.monitor.None? && s.key.None?
    requires s.requested == NO_FLAGS.(authorization := true, pilot := true, activeFlights := true)
    ensures Opening(Drive(c, s, j))
    ensures EndsFor(Drive(c, s, j).pending, id) == CountId(s.activeFlights.value, id)
  {
    hide IssueEnds, Finish, CreateCall, PlansAsked, CountId;
    var t := s.(requested := s.requested.(endActiveFlights := true));
    IssueEndsShape(t, s.authorization.value, s.activeFlights.value);
    IssueEndsCounts(t, s.authorization.value, s.activeFlights.value, id);
  }

  lemma StartsCreate(c: Config, s: Sys, j: Junk)
    requires s.pending == [] && PlansAsked(s.issued) == 0 && Ready(s) && s.position.Some?
    requires s.plan.None? && s.flight.None? && s.monitor.None? && s.key.None?
    requires !s.requested.create && !s.requested.submit && !s.requested.monitoring && !s.requested.comms
    ensures Opening(Drive(c, s, j))
  {
    hide IssueEnds, Finish, PlansAsked;
    var t := Drive(c, s, j);
    AppendCounts(s.issued, t.pending[0], "");
  }

  lemma StartsSubmit(c: Config, s: Sys, j: Junk)
    requires s.pending == [] && PlansAsked(s.issued) == 1 && Ready(s) && s.plan.Some?
    requires s.flight.None? && s.monitor.None? && s.key.None?
    requires s.requested.create && !s.requested.submit && !s.requested.monitoring && !s.requested.comms
    ensures Opening(Drive(c, s, j))
  {
    hide IssueEnds, Finish, PlansAsked;
    var t := Drive(c, s, j);
    AppendCounts(s.issued, t.pending[0], "");
  }

  lemma StartsClosing(s: Sys, j: Junk)
    requires s.pending == [] && Ready(s) && s.flight.Some? && s.requested.create
    requires PlansAsked(s.issued) == One(s.plan.Some?)
    requires s.monitor.None? && s.key.None? && !s.requested.monitoring && !s.requested.comms
    ensures Closing(Finish(s, j))
  {
    hide PlansAsked;
    var t := Finish(s, j);
    AppendCounts(s.issued, t.pending[0], "");
    AppendCounts(s.issued + [t.pending[0]], t.pending[1], "");
  }

  // Each successful completion moves on.

  lemma SetupReply(c: Config, w: World, i: nat, reply: Reply, j: Junk, id: string)
    requires Smoothly(w, id) && Smooth(c, w, Move(Completion(i, reply), j))
    requires w.s.pending[i].request.Authenticate? || w.s.pending[i].request.FetchPilot?
    ensures Smoothly(Next(c, w, Completion(i, reply), j), id)
    ensures Falls(w.s, Next(c, w, Completion(i, reply), j).s)
  {
    hide PlansAsked, EndsFor, CountId, RequestPilot, RequestActiveFlights, Drive;
    var r := w.s.pending[i].request;
    assert w.s.pending[i] in w.s.pending;
    TakeOnly(w.s.pending, StageOf(r), i);
    var t := Stored(w.s.(pending := []), r, reply);
    StartsSetup(c, t, j);
    DriveKeepsRest(c, t, j);
    if r.Authenticate? { PilotIsDrive(c, t, j); } else { SearchIsDrive(c, t, j); }
  }

  /** A plan has been asked for exactly when it is the call that creation waits for. */
  lemma CreatePlans(c: Config, s: Sys, j: Junk)
    requires Ready(s) && s.plan.None? && !s.requested.create && s.position.Some? && s.pending == []
    requires PlansAsked(s.issued) == 0
    ensures var t := Drive(c, s, j);
            |t.pending| == 1 && PlansAsked(t.issued) == One(t.pending[0].request.CreatePlan?)
  {
    hide IssueEnds, Finish, PlansAsked, CreateCall;
    AppendCounts(s.issued, Drive(c, s, j).pending[0], "");
  }

  lemma EndsPlans(c: Config, s: Sys, j: Junk)
    requires s.authorization.Some? && s.pilot.Some? && s.activeFlights.Some? && s.activeFlights.value != []
    ensures PlansAsked(Drive(c, s, j).issued) == PlansAsked(s.issued)
  {
    hide IssueEnds, Finish, PlansAsked, CreateCall;
    IssueEndsCounts(s.(requested := s.requested.(endActiveFlights := true)), s.authorization.value,
                    s.activeFlights.value, "");
  }

  lemma SearchReply(c: Config, w: World, i: nat, reply: Reply, j: Junk, id: string)
    requires Smoothly(w, id) && Smooth(c, w, Move(Completion(i, reply), j))
    requires w.s.pending[i].request.SearchFlights?
    ensures Smoothly(Next(c, w, Completion(i, reply), j), id)
    ensures Falls(w.s, Next(c, w, Completion(i, reply), j).s)
  {
    hide PlansAsked, EndsFor, CountId, RequestEndActive, Drive;
    assert w.s.pending[i] in w.s.pending;
    TakeOnly(w.s.pending, SearchStage, i);
    var t := w.s.(pending := [], activeFlights := Some(reply.flights));
    EndActiveIsDrive(c, t, j);
    DriveKeepsRest(c, t, j);
    if reply.flights == [] {
      StartsCreate(c, t, j);
      CreatePlans(c, t, j);
    } else {
      StartsEnds(c, t, j, id);
      EndsPlans(c, t, j);
    }
  }

  lemma {:induction false} CountPositive(fs: seq<Flight>, id: string)
    requires CountId(fs, id) > 0
    ensures FindFlight(fs, id) < |fs|
    decreases |fs|
  {
    var n := |fs| - 1;
    if fs[n].id != id {
      CountPositive(fs[..n], id);
      var k := FindFlight(fs[..n], id);
      assert fs[..n][k] == fs[k];
    }
  }

  /** The flight that ended is in the list, so exactly one leaves it. */
  lemma EndErases(w: World, i: nat, id: string)
    requires w.s.activeFlights.Some? && Only(w.s.pending, EndStage, |w.s.activeFlights.value|) && i < |w.s.pending|
    requires w.s.pending[i].request.EndActiveFlight?
    requires var x := w.s.pending[i].request.flightId;
             EndsFor(w.s.pending, x) == CountId(w.s.activeFlights.value, x)
    requires EndsFor(w.s.pending, id) == CountId(w.s.activeFlights.value, id)
    ensures var fs := Erase(w.s.activeFlights.value, w.s.pending[i].request.flightId);
            && Only(RemoveAt(w.s.pending, i), EndStage, |fs|)
            && |fs| == |w.s.activeFlights.value| - 1
            && EndsFor(RemoveAt(w.s.pending, i), id) == CountId(fs, id)
  {
    hide EndsFor;
    var fs := w.s.activeFlights.value;
    var x := w.s.pending[i].request.flightId;
    RemoveEndsFor(w.s.pending, i, x);
    RemoveEndsFor(w.s.pending, i, id);
    CountPositive(fs, x);
    CountIdRemove(fs, FindFlight(fs, x));
  }

  lemma EndReply(c: Config, w: World, i: nat, reply: Reply, j: Junk, id: string)
    requires Smoothly(w, id) && Smooth(c, w, Move(Completion(i, reply), j))
    requires w.s.pending[i].request.EndActiveFlight? && Smoothly(w, w.s.pending[i].request.flightId)
    ensures Smoothly(Next(c, w, Completion(i, reply), j), id)
    ensures Falls(w.s, Next(c, w, Completion(i, reply), j).s)
  {
    hide PlansAsked, EndsFor, CountId, RequestCreate, Drive, FindFlight;
    assert w.s.pending[i] in w.s.pending;
    EndErases(w, i, id);
    var fs := Erase(w.s.activeFlights.value, w.s.pending[i].request.flightId);
    var t := w.s.(pending := RemoveAt(w.s.pending, i), activeFlights := Some(fs));
    if fs == [] {
      CreateIsDrive(c, t, j);
      DriveKeepsRest(c, t, j);
      StartsCreate(c, t, j);
      CreatePlans(c, t, j);
    }
  }

  lemma CreateReply(c: Config, w: World, i: nat, reply: Reply, j: Junk, id: string)
    requires Smoothly(w, id) && Smooth(c, w, Move(Completion(i, reply), j))
    requires StageOf(w.s.pending[i].request) in {CreateStage, SubmitStage}
    ensures Smoothly(Next(c, w, Completion(i, reply), j), id)
    ensures Falls(w.s, Next(c, w, Completion(i, reply), j).s)
  {
    hide PlansAsked, EndsFor, CountId, RequestSubmit, RequestMonitor, RequestComms, Drive;
    var r := w.s.pending[i].request;
    assert w.s.pending[i] in w.s.pending;
    TakeOnly(w.s.pending, StageOf(r), i);
    var t := Stored(w.s.(pending := []), r, reply);
    if r.CreatePlan? {
      SubmitIsDrive(c, t, j);
      DriveKeepsRest(c, t, j);
      StartsSubmit(c, t, j);
    } else {
      FinishKeepsRest(t, j);
      StartsClosing(t, j);
    }
  }

  lemma ClosingReply(c: Config, w: World, i: nat, reply: Reply, j: Junk, id: string)
    requires Smoothly(w, id) && Smooth(c, w, Move(Completion(i, reply), j))
    requires StageOf(w.s.pending[i].request) in {MonitorStage, CommsStage}
    ensures Smoothly(Next(c, w, Completion(i, reply), j), id)
    ensures Falls(w.s, Next(c, w, Completion(i, reply), j).s)
  {
    hide PlansAsked, EndsFor, CountId;
    assert w.s.pending[i] in w.s.pending;
  }

  lemma CompletionSmoothly(c: Config, w: World, i: nat, reply: Reply, j: Junk, id: string)
    requires Smooth(c, w, Move(Completion(i, reply), j)) && forall x :: Smoothly(w, x)
    ensures Smoothly(Next(c, w, Completion(i, reply), j), id)
    ensures Falls(w.s, Next(c, w, Completion(i, reply), j).s)
  {
    hide Next, PlansAsked, EndsFor, CountId;
    assert w.s.pending[i] in w.s.pending;
    assert Smoothly(w, id);
    match StageOf(w.s.pending[i].request)
    case AuthorizationStage => SetupReply(c, w, i, reply, j, id);
    case PilotStage => SetupReply(c, w, i, reply, j, id);
    case SearchStage => SearchReply(c, w, i, reply, j, id);
    case EndStage =>
      assert Smoothly(w, w.s.pending[i].request.flightId);
      EndReply(c, w, i, reply, j, id);
    case CreateStage => CreateReply(c, w, i, reply, j, id);
    case SubmitStage => CreateReply(c, w, i, reply, j, id);
    case MonitorStage => ClosingReply(c, w, i, reply, j, id);
    case CommsStage => ClosingReply(c, w, i, reply, j, id);
    case ClosingStage =>
  }

  lemma NoPlans(s: Sys)
    requires s.issued == []
    ensures PlansAsked(s.issued) == 0
  {
  }

  /** Activations and position updates find the chain waiting, except the first activation. */
  lemma DrivenSmoothly(c: Config, s: Sys, h: History, j: Junk, id: string)
    requires Smoothly(World(s, h), id) || (s.active && Smoothly(World(s.(active := false), h), id) && Untouched(s))
    requires s.active
    ensures Smoothly(World(RequestAuthorization(c, s, j), h), id)
    ensures var t := RequestAuthorization(c, s, j); !Untouched(s) ==> t == s.(subscribed := t.subscribed)
  {
    hide PlansAsked, EndsFor, CountId, RequestAuthorization, Drive;
    ChainIsDrive(c, s, j);
    if Untouched(s) {
      NoPlans(s);
      StartsSetup(c, s, j);
      DriveKeepsRest(c, s, j);
    } else if s.flight.None? {
      OpeningWaits(c, s, j);
    } else {
      ClosingWaits(c, s, j);
    }
  }

  lemma UpdateSmoothly(c: Config, w: World, e: Event, j: Junk, id: string)
    requires Smooth(c, w, Move(e, j)) && Smoothly(w, id) && !e.Completion?
    ensures Smoothly(Next(c, w, e, j), id)
    ensures w.s.active ==> Untroubled(w.s, Next(c, w, e, j).s)
  {
    hide PlansAsked, EndsFor, CountId, RequestAuthorization, ReportOf;
    match e
    case Activation => DrivenSmoothly(c, w.s.(active := true), w.h, j, id);
    case PositionUpdate(p, _) =>
      var t := w.s.(position := Some(p));
      if t.active {
        DrivenSmoothly(c, t, w.h, j, id);
      }
    case MissionUpdate(_) =>
  }

  lemma MoveSmoothly(c: Config, w: World, m: Move, id: string)
    requires Smooth(c, w, m) && forall x :: Smoothly(w, x)
    ensures Smoothly(Next(c, w, m.event, m.junk), id)
  {
    hide Smoothly, Next, Smooth;
    assert Smoothly(w, id);
    if m.event.Completion? {
      CompletionSmoothly(c, w, m.event.index, m.event.reply, m.junk, id);
    } else {
      UpdateSmoothly(c, w, m.event, m.junk, id);
    }
  }

  lemma {:induction false} SmoothRunKeeps(c: Config, w: World, run: seq<Move>, id: string)
    requires SmoothRun(c, w, run) && forall x :: Smoothly(w, x)
    ensures Possible(c, w, run) && Smoothly(After(c, w, run), id)
    decreases |run|
  {
    hide Smoothly, Next;
    if run != [] {
      var v := Next(c, w, run[0].event, run[0].junk);
      forall x ensures Smoothly(v, x) {
        MoveSmoothly(c, w, run[0], x);
      }
      SmoothRunKeeps(c, v, run[1..], id);
    } else {
      assert Smoothly(w, id);
    }
  }

  lemma StartSmoothly(id: string)
    ensures Smoothly(START, id)
  {
  }

  // Main results about every smooth first activation.

  /** The key and the traffic monitor are there, and nothing is outstanding, after exactly Total
      completions and not before. */
  lemma KeyAfterTotal(c: Config, run: seq<Move>)
    requires SmoothRun(c, START, run)
    ensures Possible(c, START, run)
    ensures var w := After(c, START, run);
            && w.h.completions <= Total(w)
            && (w.s.key.Some? && w.s.monitor.Some? <==> w.h.completions == Total(w))
            && (w.s.active ==> (w.s.pending == [] <==> w.h.completions == Total(w)))
  {
    hide SmoothRun, Possible, After, PlansAsked, EndsFor, CountId;
    forall x ensures Smoothly(START, x) {
      StartSmoothly(x);
    }
    SmoothRunKeeps(c, START, run, "");
  }

  /** No move delays it: every completion lowers the measure and updates leave each part of it alone. */
  lemma EveryCompletionCounts(c: Config, run: seq<Move>, m: Move)
    requires SmoothRun(c, START, run)
    ensures Possible(c, START, run)
    ensures var w := After(c, START, run);
            w.s.active && Smooth(c, w, m) ==>
              var v := Next(c, w, m.event, m.junk);
              if m.event.Completion? then Falls(w.s, v.s) else Untroubled(w.s, v.s)
  {
    hide SmoothRun, Possible, After, Next, Smooth, Smoothly, Falls, Untroubled;
    forall x ensures Smoothly(START, x) {
      StartSmoothly(x);
    }
    SmoothRunKeeps(c, START, run, "");
    var w := After(c, START, run);
    if w.s.active && Smooth(c, w, m) {
      if m.event.Completion? {
        forall x ensures Smoothly(w, x) {
          SmoothRunKeeps(c, START, run, x);
        }
        CompletionSmoothly(c, w, m.event.index, m.event.reply, m.junk, "");
      } else {
        UpdateSmoothly(c, w, m.event, m.junk, "");
      }
    }
  }
}
