/** What is asked for when a flight is asked for: in every run a create call is decided by the mission,
    carries the last position and mission given, and is the only call of its step. */
module SubmitterCreation {
  import opened Prelude
  import opened GeometryModel
  import opened SubmitterModel
  import opened SubmitterRuns
  import opened SubmitterTimely
  import opened SubmitterActivity

  /** A plan around the mission if there is one, a flight by point otherwise; an aircraft that is not
      configured is left out of a plan. */
  predicate RightCreation(c: Config, position: Option<Position>, mission: Option<Geometry>, r: Request) {
    match r
    case CreatePlan(_, at, aircraft, _, geometry) =>
      && position == Some(at) && mission == Some(geometry)
      && aircraft == if c.aircraftId == "" then None else Some(c.aircraftId)
    case CreateByPoint(_, at, aircraftId) =>
      position == Some(at) && mission == None && aircraftId == c.aircraftId
    case _ => false
  }

  /** If a flight is asked for at all, then by exactly one call, the right one. */
  predicate Creates(c: Config, s: Sys, t: Sys, position: Option<Position>, mission: Option<Geometry>) {
    AsksToCreate(s, t) ==>
      && |t.issued| == |s.issued| + 1 && t.issued == s.issued + [t.issued[|s.issued|]]
      && t.pending != [] && t.pending[|t.pending| - 1] == t.issued[|s.issued|]
      && RightCreation(c, position, mission, t.issued[|s.issued|].request)
  }

  // Only one link of the chain asks for a flight.

  lemma IssueAsks(s: Sys, flags: Flags, r: Request)
    requires !StageOf(r).CreateStage?
    ensures !AsksToCreate(s, Issue(s.(requested := flags), r))
  {
    hide Count;
    CountAppend(s.issued, Pending(r, s.epoch), 0);
  }

  lemma FinishAsks(s: Sys, j: Junk)
    ensures !AsksToCreate(s, RequestComms(RequestMonitor(s, j), j))
  {
    hide Count;
    IssueAsks(s, s.requested.(monitoring := true),
              MonitorTraffic(s.authorization.GetOr(j.authorization), s.flight.GetOr(j.flight).id));
    var t := RequestMonitor(s, j);
    IssueAsks(t, t.requested.(comms := true),
              StartComms(t.authorization.GetOr(j.authorization), t.flight.GetOr(j.flight).id));
  }

  lemma SubmitAsks(s: Sys, j: Junk)
    ensures !AsksToCreate(s, RequestSubmit(s, j))
  {
    hide Count, RequestMonitor, RequestComms;
    if s.flight.Some? {
      FinishAsks(s.(flight := Some(s.flight.value)), j);
    } else {
      IssueAsks(s, s.requested.(submit := true),
                SubmitPlan(s.authorization.GetOr(j.authorization), s.plan.GetOr(j.plan).id));
    }
  }

  lemma CreateCreates(c: Config, s: Sys, j: Junk)
    ensures Creates(c, s, RequestCreate(c, s, j), s.position, s.mission)
  {
    hide Count, RequestSubmit;
    if s.plan.Some? { SubmitAsks(s.(plan := Some(s.plan.value)), j); }
  }

  lemma EndActiveCreates(c: Config, s: Sys, j: Junk)
    ensures Creates(c, s, RequestEndActive(c, s, j), s.position, s.mission)
  {
    hide Count, RequestCreate, IssueEnds;
    CreateCreates(c, s, j);
    IssueEndsCount(s.(requested := s.requested.(endActiveFlights := true)),
                   s.authorization.GetOr(j.authorization), s.activeFlights.GetOr(j.flights), 0);
  }

  lemma SearchCreates(c: Config, s: Sys, j: Junk)
    ensures Creates(c, s, RequestActiveFlights(c, s, j), s.position, s.mission)
  {
    hide Count, RequestEndActive;
    if s.activeFlights.Some? { EndActiveCreates(c, s.(activeFlights := Some(s.activeFlights.value)), j); }
    IssueAsks(s, s.requested.(activeFlights := true), SearchFlights(s.pilot));
  }

  lemma PilotCreates(c: Config, s: Sys, j: Junk)
    ensures Creates(c, s, RequestPilot(c, s, j), s.position, s.mission)
  {
    hide Count, RequestActiveFlights;
    if s.pilot.Some? { SearchCreates(c, s.(pilot := Some(s.pilot.value)), j); }
    if s.authorization.Some? { IssueAsks(s, s.requested.(pilot := true), FetchPilot(s.authorization.value)); }
  }

  lemma AuthorizationCreates(c: Config, s: Sys, j: Junk)
    ensures Creates(c, s, RequestAuthorization(c, s, j), s.position, s.mission)
  {
    hide Count, RequestPilot;
    if s.authorization.Some? { PilotCreates(c, s.(authorization := Some(s.authorization.value)), j); }
    IssueAsks(s, s.requested.(authorization := true), Authenticate(c.oauth));
  }

  lemma EndedCreates(c: Config, s: Sys, id: string, j: Junk)
    ensures Creates(c, s, ActiveFlightEnded(c, s, id, j), s.position, s.mission)
  {
    hide Count, RequestCreate, Erase;
    CreateCreates(c, s, j);
    CreateCreates(c, s.(activeFlights := Some(Erase(s.activeFlights.GetOr(j.flights), id))), j);
  }

  lemma DeliverCreates(c: Config, s: Sys, r: Request, reply: Reply, j: Junk)
    requires Answers(r, reply)
    ensures Creates(c, s, Deliver(c, s, r, reply, j), s.position, s.mission)
  {
    hide Count, RequestPilot, RequestActiveFlights, RequestEndActive, RequestSubmit, RequestMonitor, RequestComms;
    hide ActiveFlightEnded;
    if !reply.Failed? {
      match r
      case Authenticate(_) => PilotCreates(c, s.(authorization := Some(reply.authorization)), j);
      case FetchPilot(_) => SearchCreates(c, s.(pilot := Some(reply.pilot)), j);
      case SearchFlights(_) => EndActiveCreates(c, s.(activeFlights := Some(reply.flights)), j);
      case EndActiveFlight(_, id) => EndedCreates(c, s, id, j);
      case CreatePlan(_, _, _, _, _) => SubmitAsks(s.(plan := Some(reply.plan)), j);
      case CreateByPoint(_, _, _) => FinishAsks(s.(flight := Some(reply.flight)), j);
      case SubmitPlan(_, _) => FinishAsks(s.(flight := Some(Flight(reply.plan.flightId))), j);
      case _ =>
    }
  }

  lemma DeactivateAsks(s: Sys)
    ensures !AsksToCreate(s, Deactivate(s))
  {
    hide Count;
    if s.authorization.Some? && s.flight.Some? {
      CountAppend(s.issued, Pending(EndFlight(s.authorization.value, s.flight.value.id), s.epoch + 1), 0);
    }
  }

  /** Any step of any run, against the position and mission known after it. */
  lemma StepCreates(c: Config, s: Sys, e: Event, j: Junk)
    requires e.Completion? ==> e.index < |s.pending| && Answers(s.pending[e.index].request, e.reply)
    ensures var t := NextSys(c, s, e, j);
            Creates(c, s, t, t.position, t.mission)
  {
    hide Count, RequestAuthorization, Deliver, Deactivate, ReportOf, RightCreation, Sends;
    StepOutside(c, s, e, j);
    match e
    case Activation => AuthorizationCreates(c, s.(active := true), j);
    case Deactivation => DeactivateAsks(s);
    case PositionUpdate(p, _) => AuthorizationCreates(c, s.(position := Some(p)), j);
    case MissionUpdate(_) =>
    case Completion(i, reply) =>
      DeliverCreates(c, s.(pending := RemoveAt(s.pending, i)), s.pending[i].request, reply, j);
  }

  /** In every run, a step that asks for a flight issues one call and no other: a plan around the last
      mission given, or a flight by point if none ever was, each at the last position given. */
  lemma CreationIsRight(c: Config, run: seq<Move>, m: Move)
    requires Possible(c, START, run) && Enabled(After(c, START, run), m.event)
    ensures var s := After(c, START, run).s;
            var t := Next(c, After(c, START, run), m.event, m.junk).s;
            Creates(c, s, t, LastPosition(run + [m], None), LastMission(run + [m], None))
  {
    hide Possible, After, Creates, TimelyRun, NextSys, Record, LastPosition, LastMission;
    StepCreates(c, After(c, START, run).s, m.event, m.junk);
    ExtendRun(c, START, run, m);
    RunRemembers(c, START, run + [m]);
  }
}
