/** The telemetry submitter in place: one class with the source's mutable fields, each method proved
    to change them exactly as the function of the same name in `SubmitterModel` says. */
module Submitter {
  import opened Prelude
  import opened GeometryModel
  import opened SubmitterModel

  /** The platform client and the traffic monitors, as far as the submitter can see them. */
  class Client {
    var pending: seq<Pending>
    var issued: seq<Pending>
    var sent: seq<Sent>
    var subscribed: set<nat>
    var epoch: nat

    constructor ()
      ensures pending == [] && issued == [] && sent == [] && subscribed == {} && epoch == 0
    {
      pending, issued, sent, subscribed, epoch := [], [], [], {}, 0;
    }

    method Call(r: Request)
      modifies this`pending, this`issued
      ensures pending == old(pending) + [Pending(r, epoch)]
      ensures issued == old(issued) + [Pending(r, epoch)]
    {
      pending := pending + [Pending(r, epoch)];
      issued := issued + [Pending(r, epoch)];
    }
  }

  class TelemetrySubmitter {
    var active: bool
    var requested: Flags

    var position: Option<Position>
    var activeFlights: Option<seq<Flight>>
    var plan: Option<FlightPlan>
    var flight: Option<Flight>
    var authorization: Option<string>
    var monitor: Option<nat>
    var key: Option<string>
    var mission: Option<Geometry>
    var pilot: Option<string>

    const config: Config
    const client: Client

    function Now(): Sys
      reads this, client
    {
      Sys(active, requested,
          position, activeFlights, plan, flight, authorization, monitor, key, mission, pilot,
          client.subscribed, client.pending, client.issued, client.sent, client.epoch)
    }

    constructor (config: Config)
      ensures Now() == INITIAL && this.config == config && fresh(client)
    {
      this.config := config;
      client := new Client();
      active, requested := false, NO_FLAGS;
      position, activeFlights, plan, flight, authorization := None, None, None, None, None;
      monitor, key, mission, pilot := None, None, None, None;
    }

    method RequestComms(j: Junk)
      modifies this, client
      ensures Now() == SubmitterModel.RequestComms(old(Now()), j)
    {
      if key.Some? {
        CommsStartedWith(key.value);
        return;
      }
      if requested.comms { return; }
      requested := requested.(comms := true);
      client.Call(StartComms(authorization.GetOr(j.authorization), flight.GetOr(j.flight).id));
    }

    method CommsStartedWith(newKey: string)
      modifies this, client
      ensures Now() == old(Now()).(key := Some(newKey))
    {
      key := Some(newKey);
    }

    method RequestMonitor(j: Junk)
      modifies this, client
      ensures Now() == SubmitterModel.RequestMonitor(old(Now()), j)
    {
      if monitor.Some? {
        MonitorFound(monitor.value);
        return;
      }
      if requested.monitoring { return; }
      requested := requested.(monitoring := true);
      client.Call(MonitorTraffic(authorization.GetOr(j.authorization), flight.GetOr(j.flight).id));
    }

    method MonitorFound(m: nat)
      modifies this, client
      ensures Now() == SubmitterModel.MonitorFound(old(Now()), m)
    {
      monitor := Some(m);
      client.subscribed := client.subscribed + {m};
    }

    method FlightFound(f: Flight, j: Junk)
      modifies this, client
      ensures Now() == SubmitterModel.FlightFound(old(Now()), f, j)
    {
      flight := Some(f);
      RequestMonitor(j);
      RequestComms(j);
    }

    method RequestSubmit(j: Junk)
      modifies this, client
      ensures Now() == SubmitterModel.RequestSubmit(old(Now()), j)
    {
      if flight.Some? {
        FlightFound(flight.value, j);
        return;
      }
      if requested.submit { return; }
      requested := requested.(submit := true);
      client.Call(SubmitPlan(authorization.GetOr(j.authorization), plan.GetOr(j.plan).id));
    }

    method PlanFound(p: FlightPlan, j: Junk)
      modifies this, client
      ensures Now() == SubmitterModel.PlanFound(old(Now()), p, j)
    {
      plan := Some(p);
      RequestSubmit(j);
    }

    method RequestCreate(j: Junk)
      modifies this, client
      ensures Now() == SubmitterModel.RequestCreate(config, old(Now()), j)
    {
      if plan.Some? {
        PlanFound(plan.value, j);
        return;
      }
      if requested.create { return; }
      requested := requested.(create := true);
      if position.Some? {
        var token := authorization.GetOr(j.authorization);
        if mission.Some? {
          var aircraft := if config.aircraftId == "" then None else Some(config.aircraftId);
          client.Call(CreatePlan(token, position.value, aircraft, pilot.GetOr(j.pilot), mission.value));
        } else {
          client.Call(CreateByPoint(token, position.value, config.aircraftId));
        }
      }
    }

    method ActiveFlightEnded(id: string, j: Junk)
      modifies this, client
      ensures Now() == SubmitterModel.ActiveFlightEnded(config, old(Now()), id, j)
    {
      var list := activeFlights.GetOr(j.flights);
      var i := FindFlight(list, id);
      if i < |list| {
        list := RemoveAt(list, i);
      }
      if activeFlights.Some? {
        activeFlights := Some(list);
      }
      if list == [] {
        RequestCreate(j);
      }
    }

    method RequestEndActive(j: Junk)
      modifies this, client
      ensures Now() == SubmitterModel.RequestEndActive(config, old(Now()), j)
    {
      if activeFlights == Some([]) {
        RequestCreate(j);
        return;
      }
      if requested.endActiveFlights { return; }
      requested := requested.(endActiveFlights := true);
      ghost var start := Now();
      var list := activeFlights.GetOr(j.flights);
      var token := authorization.GetOr(j.authorization);
      for k := 0 to |list|
        invariant Now() == IssueEnds(start, token, list[..k])
      {
        client.Call(EndActiveFlight(token, list[k].id));
        assert list[..k + 1][..k] == list[..k];
      }
      assert list[..|list|] == list;
    }

    method FlightsKnown(fs: seq<Flight>, j: Junk)
      modifies this, client
      ensures Now() == SubmitterModel.FlightsKnown(config, old(Now()), fs, j)
    {
      activeFlights := Some(fs);
      RequestEndActive(j);
    }

    method RequestActiveFlights(j: Junk)
      modifies this, client
      ensures Now() == SubmitterModel.RequestActiveFlights(config, old(Now()), j)
    {
      if activeFlights.Some? {
        FlightsKnown(activeFlights.value, j);
        return;
      }
      if requested.activeFlights { return; }
      requested := requested.(activeFlights := true);
      client.Call(SearchFlights(pilot));
    }

    method PilotKnown(id: string, j: Junk)
      modifies this, client
      ensures Now() == SubmitterModel.PilotKnown(config, old(Now()), id, j)
    {
      pilot := Some(id);
      RequestActiveFlights(j);
    }

    method RequestPilot(j: Junk)
      modifies this, client
      ensures Now() == SubmitterModel.RequestPilot(config, old(Now()), j)
    {
      if pilot.Some? {
        PilotKnown(pilot.value, j);
        return;
      }
      if requested.pilot { return; }
      requested := requested.(pilot := true);
      if authorization.Some? {
        client.Call(FetchPilot(authorization.value));
      }
    }

    method AuthorizationKnown(token: string, j: Junk)
      modifies this, client
      ensures Now() == SubmitterModel.AuthorizationKnown(config, old(Now()), token, j)
    {
      authorization := Some(token);
      RequestPilot(j);
    }

    method RequestAuthorization(j: Junk)
      modifies this, client
      ensures Now() == SubmitterModel.RequestAuthorization(config, old(Now()), j)
    {
      if authorization.Some? {
        AuthorizationKnown(authorization.value, j);
        return;
      }
      if requested.authorization { return; }
      requested := requested.(authorization := true);
      client.Call(Authenticate(config.oauth));
    }

    method Activate(j: Junk)
      modifies this, client
      ensures Now() == SubmitterModel.Activate(config, old(Now()), j)
    {
      active := true;
      RequestAuthorization(j);
    }

    method SetMission(g: Geometry)
      modifies this`mission
      ensures Now() == SubmitterModel.SetMission(old(Now()), g)
    {
      mission := Some(g);
    }

    method Deactivate()
      modifies this, client
      ensures Now() == SubmitterModel.Deactivate(old(Now()))
    {
      if !active { return; }
      active := false;
      client.epoch := client.epoch + 1;
      if authorization.Some? && flight.Some? {
        client.Call(EndFlight(authorization.value, flight.value.id));
      }
      Reset();
    }

    method Reset()
      modifies this
      ensures Now() == SubmitterModel.Reset(old(Now()))
    {
      requested := NO_FLAGS;
      authorization, pilot, plan, flight, monitor, key := None, None, None, None, None, None;
    }

    method Submit(p: Position, now: nat, j: Junk)
      modifies this, client
      ensures Now() == SubmitterModel.Submit(config, old(Now()), p, now, j)
    {
      position := Some(p);
      if !active { return; }
      if authorization.None? || flight.None? || key.None? {
        RequestAuthorization(j);
        return;
      }
      client.sent := client.sent + [Sent(flight.value, key.value, ReportOf(p, now), client.epoch)];
    }

    method Deliver(r: Request, reply: Reply, j: Junk)
      requires Answers(r, reply)
      modifies this, client
      ensures Now() == SubmitterModel.Deliver(config, old(Now()), r, reply, j)
    {
      if reply.Failed? {
        requested := Cleared(requested, r);
        return;
      }
      match r
      case Authenticate(_) => AuthorizationKnown(reply.authorization, j);
      case FetchPilot(_) => PilotKnown(reply.pilot, j);
      case SearchFlights(_) => FlightsKnown(reply.flights, j);
      case EndActiveFlight(_, id) => ActiveFlightEnded(id, j);
      case CreatePlan(_, _, _, _, _) => PlanFound(reply.plan, j);
      case CreateByPoint(_, _, _) => FlightFound(reply.flight, j);
      case SubmitPlan(_, _) => FlightFound(Flight(reply.plan.flightId), j);
      case MonitorTraffic(_, _) => MonitorFound(reply.monitor);
      case StartComms(_, _) => CommsStartedWith(reply.key);
      case EndFlight(_, _) =>
    }

    /** The client completes one call in flight and runs the callback it was given. */
    method Complete(i: nat, reply: Reply, j: Junk)
      requires i < |client.pending| && Answers(client.pending[i].request, reply)
      modifies this, client
      ensures Now() == var s := old(Now());
                       SubmitterModel.Deliver(config, s.(pending := RemoveAt(s.pending, i)),
                                              s.pending[i].request, reply, j)
    {
      var r := client.pending[i].request;
      client.pending := RemoveAt(client.pending, i);
      Deliver(r, reply, j);
    }
  }
}
