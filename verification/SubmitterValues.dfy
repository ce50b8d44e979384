/** Whose values: in timely runs every call carries the values its own activation has been given. */
module SubmitterValues {
  import opened Prelude
  import opened SubmitterModel
  import opened SubmitterRuns
  import opened SubmitterDrive
  import opened SubmitterTimely

  /** A call of the present activation carries the values this activation has been given. */
  predicate Carries(c: Config, s: Sys, p: Pending) {
    && p.epoch <= s.epoch
    && (p.epoch == s.epoch ==>
          match p.request
          case Authenticate(oauth) => oauth == c.oauth
          case FetchPilot(token) => s.authorization == Some(token)
          case SearchFlights(pilot) => pilot.Some? && s.pilot == pilot
          case EndActiveFlight(token, _) => s.authorization == Some(token)
          case CreatePlan(token, _, _, pilot, _) => s.authorization == Some(token) && s.pilot == Some(pilot)
          case CreateByPoint(token, _, _) => s.authorization == Some(token)
          case SubmitPlan(token, plan) => s.authorization == Some(token) && s.plan.Some? && s.plan.value.id == plan
          case MonitorTraffic(token, id) => s.authorization == Some(token) && s.flight == Some(Flight(id))
          case StartComms(token, id) => s.authorization == Some(token) && s.flight == Some(Flight(id))
          case EndFlight(_, _) => true)
  }

  lemma {:induction false} EndsCarry(c: Config, s: Sys, token: string, fs: seq<Flight>, p: Pending)
    requires s.authorization == Some(token)
    requires p in s.issued ==> Carries(c, s, p)
    ensures var t := IssueEnds(s, token, fs);
            t == s.(pending := t.pending, issued := t.issued) && (p in t.issued ==> Carries(c, t, p))
    decreases |fs|
  {
    if fs != [] { EndsCarry(c, s, token, fs[..|fs| - 1], p); }
  }

  lemma MonitorCarries(c: Config, s: Sys, j: Junk, p: Pending)
    requires s.authorization.Some? && s.flight.Some?
    requires p in s.issued ==> Carries(c, s, p)
    ensures var t := RequestMonitor(s, j);
            && t.authorization == s.authorization && t.flight == s.flight
            && (p in t.issued ==> Carries(c, t, p))
  {
  }

  lemma CommsCarries(c: Config, s: Sys, j: Junk, p: Pending)
    requires s.authorization.Some? && s.flight.Some?
    requires p in s.issued ==> Carries(c, s, p)
    ensures var t := RequestComms(s, j); p in t.issued ==> Carries(c, t, p)
  {
  }

  lemma FinishCarries(c: Config, s: Sys, j: Junk, p: Pending)
    requires Chain(s) && s.flight.Some?
    requires p in s.issued ==> Carries(c, s, p)
    ensures var t := Finish(s, j); p in t.issued ==> Carries(c, t, p)
  {
    hide Carries, RequestMonitor, RequestComms;
    MonitorCarries(c, s, j, p);
    CommsCarries(c, RequestMonitor(s, j), j, p);
  }

  lemma DriveCarries(c: Config, s: Sys, j: Junk, p: Pending)
    requires Chain(s)
    requires p in s.issued ==> Carries(c, s, p)
    ensures var t := Drive(c, s, j); p in t.issued ==> Carries(c, t, p)
  {
    hide IssueEnds, Finish;
    if s.pilot.Some? && s.activeFlights.Some? && s.activeFlights.value != [] {
      EndsCarry(c, s.(requested := s.requested.(endActiveFlights := true)),
                s.authorization.value, s.activeFlights.value, p);
    } else if s.plan.Some? && s.flight.Some? {
      FinishCarries(c, s, j, p);
    }
  }

  /** A reply only fills in what was unset, so no call of this activation carries anything else. */
  lemma StoredCarries(c: Config, s: Sys, i: nat, reply: Reply, p: Pending)
    requires Chain(s) && i < |s.pending| && s.pending[i].epoch == s.epoch
    requires Within(s, StageOf(s.pending[i].request))
    requires p in s.issued ==> Carries(c, s, p)
    requires Answers(s.pending[i].request, reply) && !reply.Failed?
    ensures var t := Stored(s.(pending := RemoveAt(s.pending, i)), s.pending[i].request, reply);
            p in t.issued ==> Carries(c, t, p)
  {
    hide Erase, Within, RemoveAt;
    InFlightWithin(s, i);
  }

  lemma ReplyCarries(c: Config, w: World, i: nat, reply: Reply, j: Junk, p: Pending)
    requires Sound(w) && Enabled(w, Completion(i, reply)) && !reply.Failed? && w.s.pending[i].epoch == w.s.epoch
    requires p in w.s.issued ==> Carries(c, w.s, p)
    ensures var t := Next(c, w, Completion(i, reply), j).s; p in t.issued ==> Carries(c, t, p)
  {
    hide Within, Tagged, Count, Record, Accounted, Carries;
    var r := w.s.pending[i].request;
    var s := w.s.(pending := RemoveAt(w.s.pending, i));
    StoredSound(w, i, reply);
    InFlightWithin(w.s, i);
    StoredCarries(c, w.s, i, reply, p);
    var t := Stored(s, r, reply);
    DriveCarries(c, t, j, p);
    if StageOf(r) in {AuthorizationStage, PilotStage, SearchStage, EndStage} || r.CreatePlan? {
      hide Stored, Deliver, Drive, Sound;
      DeliverIsDrive(c, s, r, reply, j);
    } else if r.CreateByPoint? || r.SubmitPlan? {
      hide Drive, RequestMonitor, RequestComms, Erase;
      FinishCarries(c, t, j, p);
    }
  }

  lemma QuietCompletion(c: Config, s: Sys, r: Request, reply: Reply, j: Junk)
    requires Answers(r, reply) && (reply.Failed? || r.EndFlight?)
    ensures var t := Deliver(c, s, r, reply, j); t == s.(requested := t.requested)
  {
  }

  lemma StepCarries(c: Config, w: World, e: Event, j: Junk, p: Pending)
    requires Sound(w) && Enabled(w, e) && Timely(w.s, e)
    requires p in w.s.issued ==> Carries(c, w.s, p)
    ensures var t := Next(c, w, e, j).s; p in t.issued ==> Carries(c, t, p)
  {
    hide Deliver, RequestAuthorization, Drive, Count, Record, Within, Tagged;
    var s := w.s;
    match e
    case Activation =>
      ChainIsDrive(c, s.(active := true), j);
      DriveCarries(c, s.(active := true), j, p);
    case Deactivation =>
    case PositionUpdate(at, _) =>
      ChainIsDrive(c, s.(position := Some(at)), j);
      DriveCarries(c, s.(position := Some(at)), j, p);
    case MissionUpdate(_) =>
    case Completion(i, reply) =>
      if reply.Failed? || s.pending[i].request.EndFlight? {
        QuietCompletion(c, s.(pending := RemoveAt(s.pending, i)), s.pending[i].request, reply, j);
      } else {
        ReplyCarries(c, w, i, reply, j, p);
      }
  }

  lemma {:induction false} RunCarries(c: Config, w: World, run: seq<Move>, p: Pending)
    requires Sound(w) && TimelyRun(c, w, run)
    requires p in w.s.issued ==> Carries(c, w.s, p)
    ensures Possible(c, w, run)
    ensures var t := After(c, w, run).s; p in t.issued ==> Carries(c, t, p)
    decreases |run|
  {
    hide Sound, Next, Carries;
    TimelyIsPossible(c, w, run);
    if run != [] {
      StepCarries(c, w, run[0].event, run[0].junk, p);
      TimelyStepSound(c, w, run[0].event, run[0].junk);
      RunCarries(c, Next(c, w, run[0].event, run[0].junk), run[1..], p);
    }
  }

  /** At any time every call the present activation has issued carries its own authorization, pilot,
      plan and flight. */
  lemma CallsCarryOwnValues(c: Config, run: seq<Move>, p: Pending)
    requires TimelyRun(c, START, run)
    ensures Possible(c, START, run)
    ensures var s := After(c, START, run).s; p in s.issued ==> Carries(c, s, p)
  {
    hide TimelyRun, Possible, After, Carries, Sound;
    StartSound();
    RunCarries(c, START, run, p);
  }

  lemma SubmissionIsReady(c: Config, s: Sys, p: Pending)
    requires Chain(s) && Carries(c, s, p) && p.epoch == s.epoch && p.request.SubmitPlan?
    ensures s.activeFlights == Some([])
  {
  }

  /** In timely runs no plan is submitted, either, before every flight the search found has been erased
      and its id ended successfully at least as often as it was listed. */
  lemma NoSubmissionBeforeEnds(c: Config, run: seq<Move>, p: Pending, id: string)
    requires TimelyRun(c, START, run)
    ensures Possible(c, START, run)
    ensures var w := After(c, START, run);
            p in w.s.issued && p.epoch == w.s.epoch && p.request.SubmitPlan? ==>
              CountId(w.h.erased, id) == CountId(w.h.found, id) <= w.h.ended[id]
  {
    hide TimelyRun, Possible, After, Carries, Chain, Within, Tagged, Accounted;
    CallsCarryOwnValues(c, run, p);
    TimelyReach(c, run);
    RunKeeps(c, START, run, EndStage, id);
    var w := After(c, START, run);
    if p in w.s.issued && p.epoch == w.s.epoch && p.request.SubmitPlan? { SubmissionIsReady(c, w.s, p); }
  }
}
