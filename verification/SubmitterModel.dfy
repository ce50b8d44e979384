/** The telemetry submitter as a state machine on values: its fields, the requests it has in
    flight, and one function per request or completion handler. `Submitter` implements it in
    place; `SubmitterRuns`, `SubmitterTimely` and `SubmitterProgress` prove what its runs keep. */
module SubmitterModel {
  import opened Prelude
  import opened GeometryModel

  /** The fields of a MAVLink GLOBAL_POSITION_INT that the submitter reads. */
  datatype Position = Position(lat: int, lon: int, alt: int, relativeAlt: int)

  datatype Flight = Flight(id: string)

  datatype FlightPlan = FlightPlan(id: string, flightId: string)

  datatype Config = Config(oauth: Option<string>, aircraftId: string)

  /** A call into the platform client that will complete later. */
  datatype Request =
    | Authenticate(oauth: Option<string>)
    | FetchPilot(authorization: string)
    | SearchFlights(pilotFilter: Option<string>)
    | EndActiveFlight(authorization: string, flightId: string)
    | CreatePlan(authorization: string, at: Position, aircraft: Option<string>, pilot: string, geometry: Geometry)
    | CreateByPoint(authorization: string, at: Position, aircraftId: string)
    | SubmitPlan(authorization: string, planId: string)
    | MonitorTraffic(authorization: string, flightId: string)
    | StartComms(authorization: string, flightId: string)
    | EndFlight(authorization: string, flightId: string)

  /** How a call completes. */
  datatype Reply =
    | Failed
    | Authorized(authorization: string)
    | PilotFound(pilot: string)
    | FlightsFound(flights: seq<Flight>)
    | FlightEnded
    | PlanCreated(plan: FlightPlan)
    | FlightCreated(flight: Flight)
    | PlanSubmitted(plan: FlightPlan)
    | Monitoring(monitor: nat)
    | CommsStarted(key: string)

  /** The reply fits the request it answers. */
  predicate Answers(r: Request, reply: Reply) {
    reply.Failed? ||
    match r
    case Authenticate(_) => reply.Authorized?
    case FetchPilot(_) => reply.PilotFound?
    case SearchFlights(_) => reply.FlightsFound?
    case EndActiveFlight(_, _) => reply.FlightEnded?
    case CreatePlan(_, _, _, _, _) => reply.PlanCreated?
    case CreateByPoint(_, _, _) => reply.FlightCreated?
    case SubmitPlan(_, _) => reply.PlanSubmitted?
    case MonitorTraffic(_, _) => reply.Monitoring?
    case StartComms(_, _) => reply.CommsStarted?
    case EndFlight(_, _) => reply.FlightEnded?
  }

  /** A call and the activation (number of effective deactivations so far) that issued it. */
  datatype Pending = Pending(request: Request, epoch: nat)

  /** One telemetry update as handed to the client, in degrees and metres. */
  datatype Report = Report(timestamp: nat, latitude: real, longitude: real,
                           altitudeMsl: real, altitudeGl: real, accuracy: real)

  datatype Sent = Sent(flight: Flight, key: string, report: Report, epoch: nat)

  /** What `get()` happens to read from an unset optional. */
  datatype Junk = Junk(authorization: string, pilot: string, flight: Flight, plan: FlightPlan, flights: seq<Flight>)

  /** One flag per stage: its call has been issued and has not failed. */
  datatype Flags = Flags(authorization: bool, pilot: bool, activeFlights: bool, endActiveFlights: bool,
                         create: bool, submit: bool, monitoring: bool, comms: bool)

  const NO_FLAGS := Flags(false, false, false, false, false, false, false, false)

  /** Every field of the submitter, then what its client has seen: the monitors its subscriber is
      registered with, the calls in flight, all calls ever issued, all telemetry sent, and the
      number of effective deactivations. */
  datatype Sys = Sys(
    active: bool,
    requested: Flags,
    position: Option<Position>,
    activeFlights: Option<seq<Flight>>,
    plan: Option<FlightPlan>,
    flight: Option<Flight>,
    authorization: Option<string>,
    monitor: Option<nat>,
    key: Option<string>,
    mission: Option<Geometry>,
    pilot: Option<string>,
    subscribed: set<nat>,
    pending: seq<Pending>,
    issued: seq<Pending>,
    sent: seq<Sent>,
    epoch: nat)

  const INITIAL := Sys(
    false, NO_FLAGS,
    None, None, None, None, None, None, None, None, None,
    {}, [], [], [], 0)

  function Issue(s: Sys, r: Request): Sys {
    var p := Pending(r, s.epoch);
    s.(pending := s.pending + [p], issued := s.issued + [p])
  }

  // The chain of stages, last stage first: each request function either finds its value already
  // known and moves on, or finds its flag set and stops, or sets the flag and issues a call.

  function RequestComms(s: Sys, j: Junk): Sys {
    if s.key.Some? then s
    else if s.requested.comms then s
    else Issue(s.(requested := s.requested.(comms := true)),
               StartComms(s.authorization.GetOr(j.authorization), s.flight.GetOr(j.flight).id))
  }

  function MonitorFound(s: Sys, m: nat): Sys {
    s.(monitor := Some(m), subscribed := s.subscribed + {m})
  }

  function RequestMonitor(s: Sys, j: Junk): Sys {
    if s.monitor.Some? then MonitorFound(s, s.monitor.value)
    else if s.requested.monitoring then s
    else Issue(s.(requested := s.requested.(monitoring := true)),
               MonitorTraffic(s.authorization.GetOr(j.authorization), s.flight.GetOr(j.flight).id))
  }

  function FlightFound(s: Sys, f: Flight, j: Junk): Sys {
    RequestComms(RequestMonitor(s.(flight := Some(f)), j), j)
  }

  function RequestSubmit(s: Sys, j: Junk): Sys {
    if s.flight.Some? then FlightFound(s, s.flight.value, j)
    else if s.requested.submit then s
    else Issue(s.(requested := s.requested.(submit := true)),
               SubmitPlan(s.authorization.GetOr(j.authorization), s.plan.GetOr(j.plan).id))
  }

  function PlanFound(s: Sys, p: FlightPlan, j: Junk): Sys {
    RequestSubmit(s.(plan := Some(p)), j)
  }

  /** A mission asks for a flight plan around it, no mission for a flight at the current point. */
  function CreateCall(c: Config, s: Sys, at: Position, j: Junk): Request
  {
    var token := s.authorization.GetOr(j.authorization);
    if s.mission.Some? then
      CreatePlan(token, at, if c.aircraftId == "" then None else Some(c.aircraftId),
                 s.pilot.GetOr(j.pilot), s.mission.value)
    else CreateByPoint(token, at, c.aircraftId)
  }

  function RequestCreate(c: Config, s: Sys, j: Junk): Sys {
    if s.plan.Some? then PlanFound(s, s.plan.value, j)
    else if s.requested.create then s
    else
      var t := s.(requested := s.requested.(create := true));
      if s.position.None? then t else Issue(t, CreateCall(c, t, s.position.value, j))
  }

  /** Index of the first flight with the given id, or |fs|. */
  function FindFlight(fs: seq<Flight>, id: string): (i: nat)
    ensures i <= |fs|
    ensures i < |fs| ==> fs[i].id == id
    ensures forall k :: 0 <= k < i ==> fs[k].id != id
  {
    if fs == [] then 0 else if fs[0].id == id then 0 else 1 + FindFlight(fs[1..], id)
  }

  function Erase(fs: seq<Flight>, id: string): seq<Flight> {
    var i := FindFlight(fs, id);
    if i < |fs| then RemoveAt(fs, i) else fs
  }

  /** A failed lookup on an unset list works on whatever the storage held and leaves it unset. */
  function ActiveFlightEnded(c: Config, s: Sys, id: string, j: Junk): Sys {
    var rest := Erase(s.activeFlights.GetOr(j.flights), id);
    var t := if s.activeFlights.Some? then s.(activeFlights := Some(rest)) else s;
    if rest == [] then RequestCreate(c, t, j) else t
  }

  /** One end request for each listed flight, in order. */
  function IssueEnds(s: Sys, authorization: string, fs: seq<Flight>): Sys
    decreases |fs|
  {
    if fs == [] then s
    else Issue(IssueEnds(s, authorization, fs[..|fs| - 1]), EndActiveFlight(authorization, fs[|fs| - 1].id))
  }

  function RequestEndActive(c: Config, s: Sys, j: Junk): Sys {
    if s.activeFlights == Some([]) then RequestCreate(c, s, j)
    else if s.requested.endActiveFlights then s
    else IssueEnds(s.(requested := s.requested.(endActiveFlights := true)),
                   s.authorization.GetOr(j.authorization), s.activeFlights.GetOr(j.flights))
  }

  function FlightsKnown(c: Config, s: Sys, fs: seq<Flight>, j: Junk): Sys {
    RequestEndActive(c, s.(activeFlights := Some(fs)), j)
  }

  function RequestActiveFlights(c: Config, s: Sys, j: Junk): Sys {
    if s.activeFlights.Some? then FlightsKnown(c, s, s.activeFlights.value, j)
    else if s.requested.activeFlights then s
    else Issue(s.(requested := s.requested.(activeFlights := true)), SearchFlights(s.pilot))
  }

  function PilotKnown(c: Config, s: Sys, pilot: string, j: Junk): Sys {
    RequestActiveFlights(c, s.(pilot := Some(pilot)), j)
  }

  function RequestPilot(c: Config, s: Sys, j: Junk): Sys {
    if s.pilot.Some? then PilotKnown(c, s, s.pilot.value, j)
    else if s.requested.pilot then s
    else
      var t := s.(requested := s.requested.(pilot := true));
      if s.authorization.Some? then Issue(t, FetchPilot(s.authorization.value)) else t
  }

  function AuthorizationKnown(c: Config, s: Sys, authorization: string, j: Junk): Sys {
    RequestPilot(c, s.(authorization := Some(authorization)), j)
  }

  function RequestAuthorization(c: Config, s: Sys, j: Junk): Sys {
    if s.authorization.Some? then AuthorizationKnown(c, s, s.authorization.value, j)
    else if s.requested.authorization then s
    else Issue(s.(requested := s.requested.(authorization := true)), Authenticate(c.oauth))
  }

  // The public operations.

  function Activate(c: Config, s: Sys, j: Junk): Sys {
    RequestAuthorization(c, s.(active := true), j)
  }

  function SetMission(s: Sys, g: Geometry): Sys {
    s.(mission := Some(g))
  }

  /** The list of active flights, the position and the mission survive. */
  function Reset(s: Sys): Sys {
    s.(requested := NO_FLAGS,
       authorization := None, pilot := None, plan := None, flight := None, monitor := None, key := None)
  }

  /** The end-flight request belongs to the deactivation, not to the activation it closes. */
  function Close(s: Sys): Sys {
    var t := s.(active := false, epoch := s.epoch + 1);
    if s.authorization.Some? && s.flight.Some?
    then Issue(t, EndFlight(s.authorization.value, s.flight.value.id)) else t
  }

  function Deactivate(s: Sys): Sys {
    if s.active then Reset(Close(s)) else s
  }

  function ReportOf(p: Position, now: nat): Report {
    Report(now, p.lat as real / 10000000.0, p.lon as real / 10000000.0,
           p.alt as real / 1000.0, p.relativeAlt as real / 1000.0, 2.0)
  }

  function Submit(c: Config, s: Sys, p: Position, now: nat, j: Junk): Sys {
    var t := s.(position := Some(p));
    if !s.active then t
    else if s.authorization.None? || s.flight.None? || s.key.None? then RequestAuthorization(c, t, j)
    else t.(sent := t.sent + [Sent(s.flight.value, s.key.value, ReportOf(p, now), s.epoch)])
  }

  /** A failed call only clears the flag of its stage, so that the next drive may try again. */
  function Cleared(f: Flags, r: Request): Flags {
    match r
    case Authenticate(_) => f.(authorization := false)
    case FetchPilot(_) => f.(pilot := false)
    case SearchFlights(_) => f.(activeFlights := false)
    case EndActiveFlight(_, _) => f.(endActiveFlights := false)
    case CreatePlan(_, _, _, _, _) => f.(create := false)
    case CreateByPoint(_, _, _) => f.(create := false)
    case SubmitPlan(_, _) => f.(submit := false)
    case MonitorTraffic(_, _) => f.(monitoring := false)
    case StartComms(_, _) => f.(comms := false)
    case EndFlight(_, _) => f
  }

  /** The completion of a call: what the callback passed along with it does. */
  function Deliver(c: Config, s: Sys, r: Request, reply: Reply, j: Junk): Sys
    requires Answers(r, reply)
  {
    if reply.Failed? then s.(requested := Cleared(s.requested, r))
    else
      match r
      case Authenticate(_) => AuthorizationKnown(c, s, reply.authorization, j)
      case FetchPilot(_) => PilotKnown(c, s, reply.pilot, j)
      case SearchFlights(_) => FlightsKnown(c, s, reply.flights, j)
      case EndActiveFlight(_, id) => ActiveFlightEnded(c, s, id, j)
      case CreatePlan(_, _, _, _, _) => PlanFound(s, reply.plan, j)
      case CreateByPoint(_, _, _) => FlightFound(s, reply.flight, j)
      case SubmitPlan(_, _) => FlightFound(s, Flight(reply.plan.flightId), j)
      case MonitorTraffic(_, _) => MonitorFound(s, reply.monitor)
      case StartComms(_, _) => s.(key := Some(reply.key))
      case EndFlight(_, _) => s
  }
}
