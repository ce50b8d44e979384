/** One tracked vehicle: its latest status and position, its mission upload, and the monitors it notifies. */
module Vehicles {
  import opened Prelude
  import opened GeometryModel
  import opened SubmitterModel
  import opened MavlinkModel
  import Mission

  datatype Notice =
    | StatusChanged(was: Option<Byte>, now: Byte)
    | PositionChanged(before: Option<Position>, at: Position)
    | MissionReceived(geometry: Geometry)

  datatype State = State(status: Byte, position: Option<Position>, mission: Mission.State)

  const FRESH := State(UNINIT, None, Mission.BLANK)

  predicate ForMission(b: Body) {
    b.MissionClearAll? || b.MissionCount? || b.MissionItem?
  }

  function Step(v: State, b: Body): State {
    match b
    case Heartbeat(status) => v.(status := status)
    case GlobalPosition(p) => v.(position := Some(p))
    case _ => if ForMission(b) then v.(mission := Mission.Step(v.mission, b)) else v
  }

  /** What the monitors are told, each with the state before the message. */
  function Emitted(v: State, b: Body): seq<Notice> {
    match b
    case Heartbeat(status) => if status != v.status then [StatusChanged(Some(v.status), status)] else []
    case GlobalPosition(p) => [PositionChanged(v.position, p)]
    case _ =>
      if ForMission(b) && Mission.Completes(v.mission, b)
      then [MissionReceived(LineString(Mission.Step(v.mission, b).coordinates))] else []
  }

  class Monitor {
    var seen: seq<Notice>

    method On(n: Notice)
      modifies this
      ensures seen == old(seen) + [n]
    {
      seen := seen + [n];
    }
  }

  class Vehicle {
    const systemId: Byte
    const mission: Mission.Tracker
    var monitors: set<Monitor>
    var status: Byte
    var position: Option<Position>

    function Now(): State
      reads this, mission
    {
      State(status, position, mission.Now())
    }

    function Footprint(): set<object>
      reads this
    {
      {this, mission} + monitors
    }

    constructor (systemId: Byte)
      ensures Now() == FRESH && this.systemId == systemId && monitors == {} && fresh(mission)
    {
      this.systemId := systemId;
      mission := new Mission.Tracker();
      monitors, status, position := {}, UNINIT, None;
    }

    method RegisterMonitor(m: Monitor)
      modifies this`monitors
      ensures monitors == old(monitors) + {m}
    {
      monitors := monitors + {m};
    }

    method UnregisterMonitor(m: Monitor)
      modifies this`monitors
      ensures monitors == old(monitors) - {m}
    {
      monitors := monitors - {m};
    }

    method Update(msg: Message)
      requires msg.sysid == systemId
      modifies Footprint()
      ensures monitors == old(monitors)
      ensures Now() == Step(old(Now()), msg.body)
      ensures forall m | m in monitors :: m.seen == old(m.seen) + Emitted(old(Now()), msg.body)
    {
      match msg.body
      case Heartbeat(s) => HandleHeartbeat(s);
      case GlobalPosition(p) => HandlePosition(p);
      case _ =>
        if ForMission(msg.body) {
          HandleMission(msg.body);
        }
    }

    /** Tells every monitor once, in whatever order the set is walked. */
    method Notify(n: Notice)
      modifies monitors
      ensures forall m | m in monitors :: m.seen == old(m.seen) + [n]
    {
      var told: set<Monitor>, rest := {}, monitors;
      while rest != {}
        invariant rest <= monitors && told == monitors - rest
        invariant forall m | m in told :: m.seen == old(m.seen) + [n]
        invariant forall m | m in rest :: m.seen == old(m.seen)
      {
        var m :| m in rest;
        m.On(n);
        told, rest := told + {m}, rest - {m};
      }
    }

    method HandleHeartbeat(s: Byte)
      modifies Footprint()
      ensures monitors == old(monitors)
      ensures Now() == Step(old(Now()), Heartbeat(s))
      ensures forall m | m in monitors :: m.seen == old(m.seen) + Emitted(old(Now()), Heartbeat(s))
    {
      if status != s {
        Notify(StatusChanged(Some(status), s));
        status := s;
      }
    }

    method HandlePosition(p: Position)
      modifies Footprint()
      ensures monitors == old(monitors)
      ensures Now() == Step(old(Now()), GlobalPosition(p))
      ensures forall m | m in monitors :: m.seen == old(m.seen) + Emitted(old(Now()), GlobalPosition(p))
    {
      Notify(PositionChanged(position, p));
      position := Some(p);
    }

    method HandleMission(b: Body)
      requires ForMission(b)
      modifies Footprint()
      ensures monitors == old(monitors)
      ensures Now() == Step(old(Now()), b)
      ensures forall m | m in monitors :: m.seen == old(m.seen) + Emitted(old(Now()), b)
    {
      var complete := mission.Update(b);
      if complete {
        Notify(MissionReceived(LineString(mission.coordinates)));
      }
    }
  }

  function After(bs: seq<Body>): State
    decreases |bs|
  {
    if bs == [] then FRESH else Step(After(bs[..|bs| - 1]), bs[|bs| - 1])
  }

  function Notices(bs: seq<Body>): seq<Notice>
    decreases |bs|
  {
    if bs == [] then []
    else
      var before := bs[..|bs| - 1];
      Notices(before) + Emitted(After(before), bs[|bs| - 1])
  }

  lemma OneMore(bs: seq<Body>, b: Body)
    ensures After(bs + [b]) == Step(After(bs), b)
    ensures Notices(bs + [b]) == Notices(bs) + Emitted(After(bs), b)
  {
    hide Step, Emitted;
    assert (bs + [b])[..|bs|] == bs;
  }

  /** The mission a vehicle holds is the one its message sequence uploads, whatever else arrives. */
  lemma {:induction false} MissionIsUpload(bs: seq<Body>)
    ensures After(bs).mission == Mission.After(bs)
    decreases |bs|
  {
    if bs != [] { MissionIsUpload(bs[..|bs| - 1]); }
  }

  function MissionsOf(ns: seq<Notice>): seq<Geometry>
    decreases |ns|
  {
    if ns == [] then []
    else MissionsOf(ns[..|ns| - 1]) + match ns[|ns| - 1] case MissionReceived(g) => [g] case _ => []
  }

  lemma {:induction false} MissionsAppend(ns: seq<Notice>, more: seq<Notice>)
    ensures MissionsOf(ns + more) == MissionsOf(ns) + MissionsOf(more)
    decreases |more|
  {
    if more == [] {
      assert ns + more == ns;
    } else {
      assert (ns + more)[..|ns + more| - 1] == ns + more[..|more| - 1];
      MissionsAppend(ns, more[..|more| - 1]);
    }
  }

  lemma MissionsOfEmitted(v: State, b: Body)
    ensures MissionsOf(Emitted(v, b)) ==
              if b.MissionItem? && Mission.Completes(v.mission, b)
              then [LineString(Mission.Step(v.mission, b).coordinates)] else []
  {
  }

  /** A message makes the vehicle report a mission exactly when it completes the selection of items
      0, 1, 2, ... since the last count, and the report holds the waypoints among them. */
  lemma MissionReportedIff(bs: seq<Body>, b: Body, ps: seq<nat>, qs: seq<nat>)
    ensures Mission.LongestAndEarliest(Mission.Items(bs), ps)
            && Mission.LongestAndEarliest(Mission.Items(bs + [b]), qs) ==>
              MissionsOf(Notices(bs + [b])) == MissionsOf(Notices(bs)) +
                if b.MissionItem? && |ps| < |qs| == Mission.Announced(bs + [b])
                then [LineString(Mission.Waypoints(Mission.Items(bs + [b]), qs))] else []
  {
    hide MissionsOf, Emitted, Mission.Completes, Mission.InOrder, Mission.Waypoints, Mission.Items, Mission.Announced;
    if Mission.LongestAndEarliest(Mission.Items(bs), ps) && Mission.LongestAndEarliest(Mission.Items(bs + [b]), qs) {
      OneMore(bs, b);
      MissionsAppend(Notices(bs), Emitted(After(bs), b));
      MissionsOfEmitted(After(bs), b);
      MissionIsUpload(bs);
      Mission.ReportedWhenReached(bs, b, ps, qs);
      Mission.StoresSelection(bs + [b], qs);
    }
  }
}
