/** From heartbeats to activations: the status edges a vehicle reports, and the monitor that turns
    them into commands for the telemetry submitter. */
module VehicleStatus {
  import opened Prelude
  import opened GeometryModel
  import opened SubmitterModel
  import opened SubmitterRuns
  import opened MavlinkModel
  import opened Vehicles
  import Submitter
  import SubmitterActivity

  predicate Grounded(s: Byte) { s in [UNINIT, BOOT, CALIBRATING, STANDBY] }

  predicate Flying(s: Byte) { s in [ACTIVE, CRITICAL, EMERGENCY] }

  datatype Edge = Edge(was: Byte, now: Byte)

  predicate Takeoff(e: Edge) { Grounded(e.was) && e.now == ACTIVE }

  predicate Landing(e: Edge) { Flying(e.was) && Grounded(e.now) }

  /** The MAV_STATE numbers behind the two classes. */
  lemma StatusNumbers(s: Byte, e: Edge)
    ensures Grounded(s) <==> s <= 3
    ensures Flying(s) <==> 4 <= s <= 6
    ensures Takeoff(e) <==> e.was <= 3 && e.now == 4
  {
  }

  /** The command a status edge stands for: activate, deactivate, or none. */
  function Command(was: Byte, now: Byte): Option<Event> {
    if Grounded(was) then if now == ACTIVE then Some(Activation) else None
    else if Flying(was) then if Grounded(now) then Some(Deactivation) else None
    else None
  }

  /** What the monitor asks of the submitter. */
  function Commanded(n: Notice, clock: nat): Option<Event> {
    match n
    case StatusChanged(was, now) => if was.Some? then Command(was.value, now) else None
    case PositionChanged(_, p) => Some(PositionUpdate(p, clock))
    case MissionReceived(g) => Some(MissionUpdate(g))
  }

  function Respond(c: Config, s: Sys, n: Notice, clock: nat, j: Junk): Sys {
    var e := Commanded(n, clock);
    if e.Some? then NextSys(c, s, e.value, j) else s
  }

  class SubmittingVehicleMonitor {
    const submitter: Submitter.TelemetrySubmitter

    constructor (submitter: Submitter.TelemetrySubmitter)
      ensures this.submitter == submitter
    {
      this.submitter := submitter;
    }

    method OnSystemStatusChanged(was: Option<Byte>, now: Byte, j: Junk)
      modifies submitter, submitter.client
      ensures submitter.Now() == Respond(submitter.config, old(submitter.Now()), StatusChanged(was, now), 0, j)
      ensures was.Some? && Takeoff(Edge(was.value, now)) ==> submitter.active
      ensures was.Some? && Landing(Edge(was.value, now)) ==> !submitter.active
      ensures was.None? || !(Takeoff(Edge(was.value, now)) || Landing(Edge(was.value, now))) ==>
                submitter.Now() == old(submitter.Now())
    {
      ghost var s := submitter.Now();
      SubmitterActivity.StepOutside(submitter.config, s, Activation, j);
      SubmitterActivity.StepOutside(submitter.config, s, Deactivation, j);
      if was.Some? {
        if was.value in [UNINIT, BOOT, CALIBRATING, STANDBY] {
          if now == ACTIVE {
            submitter.Activate(j);
          }
        } else if was.value in [ACTIVE, CRITICAL, EMERGENCY] {
          if now in [UNINIT, BOOT, CALIBRATING, STANDBY] {
            submitter.Deactivate();
          }
        }
      }
    }

    method OnPositionChanged(before: Option<Position>, at: Position, clock: nat, j: Junk)
      modifies submitter, submitter.client
      ensures submitter.Now() == Respond(submitter.config, old(submitter.Now()), PositionChanged(before, at), clock, j)
      ensures var s := old(submitter.Now());
              && submitter.position == Some(at)
              && submitter.client.sent ==
                   s.sent + if SubmitterActivity.Sends(s) then [SubmitterActivity.Update(s, at, clock)] else []
    {
      SubmitterActivity.StepOutside(submitter.config, submitter.Now(), PositionUpdate(at, clock), j);
      submitter.Submit(at, clock, j);
    }

    method OnMissionReceived(geometry: Geometry, j: Junk)
      modifies submitter, submitter.client
      ensures submitter.Now() == Respond(submitter.config, old(submitter.Now()), MissionReceived(geometry), 0, j)
      ensures submitter.Now() == old(submitter.Now()).(mission := Some(geometry))
    {
      submitter.SetMission(geometry);
    }
  }

  // The edges a history of messages reports.

  function Edges(ns: seq<Notice>): seq<Edge>
    decreases |ns|
  {
    if ns == [] then []
    else Edges(ns[..|ns| - 1]) +
         var n := ns[|ns| - 1];
         if n.StatusChanged? && n.was.Some? then [Edge(n.was.value, n.now)] else []
  }

  /** Consecutive edges from one status to another, none a loop. */
  predicate Path(from: Byte, es: seq<Edge>, to: Byte)
    decreases |es|
  {
    if es == [] then from == to
    else
      var e := es[|es| - 1];
      Path(from, es[..|es| - 1], e.was) && e.was != e.now && e.now == to
  }

  /** Every status in which the vehicle has been, in order. */
  function Visited(bs: seq<Body>): seq<Byte>
    decreases |bs|
  {
    if bs == [] then [UNINIT]
    else
      var before := Visited(bs[..|bs| - 1]);
      match bs[|bs| - 1]
      case Heartbeat(s) => if before != [] && before[|before| - 1] == s then before else before + [s]
      case _ => before
  }

  function Walk(from: Byte, es: seq<Edge>): seq<Byte>
    decreases |es|
  {
    if es == [] then [from] else Walk(from, es[..|es| - 1]) + [es[|es| - 1].now]
  }

  lemma EdgesAppend(ns: seq<Notice>, n: Notice)
    ensures Edges(ns + [n]) ==
              Edges(ns) + if n.StatusChanged? && n.was.Some? then [Edge(n.was.value, n.now)] else []
  {
    assert (ns + [n])[..|ns|] == ns;
  }

  lemma PathAppend(from: Byte, es: seq<Edge>, e: Edge)
    requires Path(from, es, e.was) && e.was != e.now
    ensures Path(from, es + [e], e.now)
    ensures Walk(from, es + [e]) == Walk(from, es) + [e.now]
  {
    assert (es + [e])[..|es|] == es;
  }

  lemma EdgesOfStep(ns: seq<Notice>, v: State, b: Body)
    ensures Edges(ns + Emitted(v, b)) ==
              Edges(ns) + if b.Heartbeat? && b.status != v.status then [Edge(v.status, b.status)] else []
  {
    hide Edges, Mission.Step, Mission.Completes;
    var more := Emitted(v, b);
    if more == [] {
      assert ns + more == ns;
    } else {
      assert more == [more[0]];
      EdgesAppend(ns, more[0]);
    }
  }

  lemma OneMoreEdge(bs: seq<Body>, b: Body)
    ensures var was := Vehicles.After(bs).status;
            Edges(Notices(bs + [b])) ==
              Edges(Notices(bs)) + if b.Heartbeat? && b.status != was then [Edge(was, b.status)] else []
    ensures Vehicles.After(bs + [b]).status == if b.Heartbeat? then b.status else Vehicles.After(bs).status
  {
    hide Edges, Emitted, Notices, Vehicles.After, Mission.Step;
    OneMore(bs, b);
    EdgesOfStep(Notices(bs), Vehicles.After(bs), b);
  }

  lemma PathEmpty(from: Byte)
    ensures Path(from, [], from) && Walk(from, []) == [from]
  {
  }

  /** For every heartbeat history the reported edges lead from UNINIT to the present status without
      a loop, through exactly the statuses heard of, repetitions left out. */
  lemma {:induction false} EdgesFormPath(bs: seq<Body>)
    ensures Path(UNINIT, Edges(Notices(bs)), Vehicles.After(bs).status)
    ensures Walk(UNINIT, Edges(Notices(bs))) == Visited(bs)
    ensures Visited(bs) != [] && Visited(bs)[|Visited(bs)| - 1] == Vehicles.After(bs).status
    decreases |bs|
  {
    if bs == [] {
      PathEmpty(UNINIT);
    } else {
      hide Path, Walk, Vehicles.After, Notices, Edges;
      var before := bs[..|bs| - 1];
      var b := bs[|bs| - 1];
      assert bs == before + [b];
      EdgesFormPath(before);
      OneMoreEdge(before, b);
      var es := Edges(Notices(before));
      var was := Vehicles.After(before).status;
      if b.Heartbeat? && b.status != was {
        PathAppend(UNINIT, es, Edge(was, b.status));
      } else {
        assert Edges(Notices(bs)) == es;
      }
    }
  }

  // The submitter's activity.

  /** The submitter is active after these edges, starting inactive. */
  predicate Active(es: seq<Edge>)
    decreases |es|
  {
    es != [] &&
    var e := es[|es| - 1];
    var command := Command(e.was, e.now);
    if command.Some? then command.value.Activation? else Active(es[..|es| - 1])
  }

  predicate NoLandingFrom(es: seq<Edge>, k: nat) {
    forall l :: k <= l < |es| ==> !Landing(es[l])
  }

  /** After some edge from a grounded status to ACTIVE there was none from flying to grounded. */
  ghost predicate NotLanded(es: seq<Edge>) {
    exists k: nat :: k < |es| && Takeoff(es[k]) && NoLandingFrom(es, k)
  }

  lemma StillNotLanded(es: seq<Edge>, e: Edge)
    requires NotLanded(es + [e]) && !Takeoff(e)
    ensures NotLanded(es) && !Landing(e)
  {
    var all := es + [e];
    var k: nat :| k < |all| && Takeoff(all[k]) && NoLandingFrom(all, k);
    assert !Landing(all[|es|]);
    assert Takeoff(es[k]) && NoLandingFrom(es, k) by {
      assert forall l :: k <= l < |es| ==> es[l] == all[l];
    }
  }

  lemma NotLandedYet(es: seq<Edge>, e: Edge)
    requires Takeoff(e) || (NotLanded(es) && !Landing(e))
    ensures NotLanded(es + [e])
  {
    var all := es + [e];
    if Takeoff(e) {
      assert Takeoff(all[|es|]) && NoLandingFrom(all, |es|);
    } else {
      var k: nat :| k < |es| && Takeoff(es[k]) && NoLandingFrom(es, k);
      assert Takeoff(all[k]) && NoLandingFrom(all, k);
    }
  }

  lemma NothingLanded()
    ensures !NotLanded([])
  {
  }

  /** The submitter is active exactly when the vehicle has taken off through ACTIVE and not landed since. */
  lemma {:induction false} ActiveIff(es: seq<Edge>)
    ensures Active(es) <==> NotLanded(es)
    decreases |es|
  {
    hide NotLanded;
    if es == [] {
      assert !NotLanded(es) by { NothingLanded(); }
    } else {
      var before := es[..|es| - 1];
      var e := es[|es| - 1];
      assert es == before + [e];
      ActiveIff(before);
      if Active(es) {
        NotLandedYet(before, e);
      } else if NotLanded(es) {
        StillNotLanded(before, e);
      }
    }
  }

  predicate Listed(s: Byte) { Grounded(s) || Flying(s) }

  predicate TakesOff(ws: seq<Byte>, k: nat) {
    0 < k < |ws| && Grounded(ws[k - 1]) && ws[k] == ACTIVE
  }

  predicate FliesFrom(ws: seq<Byte>, k: nat) {
    forall l :: k <= l < |ws| ==> Flying(ws[l])
  }

  /** The vehicle has entered the flying statuses through ACTIVE and not left them since. */
  ghost predicate Airborne(ws: seq<Byte>) {
    exists k: nat :: TakesOff(ws, k) && FliesFrom(ws, k)
  }

  lemma StillAirborne(ws: seq<Byte>, s: Byte)
    requires ws != [] && Airborne(ws + [s]) && !(Grounded(ws[|ws| - 1]) && s == ACTIVE)
    ensures Airborne(ws) && Flying(s)
  {
    var all := ws + [s];
    var k: nat :| TakesOff(all, k) && FliesFrom(all, k);
    assert Flying(all[|ws|]);
    assert TakesOff(ws, k);
    assert FliesFrom(ws, k) by {
      assert forall l :: k <= l < |ws| ==> ws[l] == all[l];
    }
  }

  lemma AirborneNow(ws: seq<Byte>, s: Byte)
    requires ws != [] && ((Grounded(ws[|ws| - 1]) && s == ACTIVE) || (Airborne(ws) && Flying(s)))
    ensures Airborne(ws + [s])
  {
    var all := ws + [s];
    if Grounded(ws[|ws| - 1]) && s == ACTIVE {
      assert TakesOff(all, |ws|) && FliesFrom(all, |ws|);
    } else {
      var k: nat :| TakesOff(ws, k) && FliesFrom(ws, k);
      assert TakesOff(all, k) && FliesFrom(all, k);
    }
  }

  lemma AirborneEndsFlying(ws: seq<Byte>)
    requires ws != [] && Airborne(ws)
    ensures Flying(ws[|ws| - 1])
  {
  }

  lemma AirborneStep(ws: seq<Byte>, s: Byte)
    requires ws != []
    ensures Airborne(ws + [s]) <==> (Grounded(ws[|ws| - 1]) && s == ACTIVE) || (Airborne(ws) && Flying(s))
    ensures Airborne(ws) ==> Flying(ws[|ws| - 1])
  {
    if (Grounded(ws[|ws| - 1]) && s == ACTIVE) || (Airborne(ws) && Flying(s)) {
      AirborneNow(ws, s);
    } else if Airborne(ws + [s]) {
      StillAirborne(ws, s);
    }
    if Airborne(ws) { AirborneEndsFlying(ws); }
  }

  lemma NotAirborne(s: Byte)
    ensures !Airborne([s])
  {
  }

  lemma {:induction false} ActiveIffAirborneOn(from: Byte, es: seq<Edge>, to: Byte)
    requires Path(from, es, to) && forall s | s in Walk(from, es) :: Listed(s)
    ensures Active(es) <==> Airborne(Walk(from, es))
    ensures Walk(from, es) != [] && Walk(from, es)[|Walk(from, es)| - 1] == to
    decreases |es|
  {
    hide Airborne;
    if es == [] {
      NotAirborne(from);
    } else {
      var before := es[..|es| - 1];
      var e := es[|es| - 1];
      var ws := Walk(from, before);
      assert Walk(from, es) == ws + [e.now];
      forall s | s in ws ensures Listed(s) { assert s in Walk(from, es); }
      ActiveIffAirborneOn(from, before, e.was);
      assert Listed(e.was) by { assert ws[|ws| - 1] in ws; }
      assert Listed(e.now) by { assert e.now in Walk(from, es); }
      AirborneStep(ws, e.now);
    }
  }

  /** With no POWEROFF or unlisted status in a vehicle's history, its submitter is active exactly
      when the vehicle flies and began to by becoming ACTIVE; in particular it is then ACTIVE,
      CRITICAL or EMERGENCY. */
  lemma ActiveIffAirborne(bs: seq<Body>)
    requires forall s | s in Visited(bs) :: Listed(s)
    ensures Active(Edges(Notices(bs))) <==> Airborne(Visited(bs))
    ensures Active(Edges(Notices(bs))) ==> Flying(Vehicles.After(bs).status)
  {
    EdgesFormPath(bs);
    ActiveIffAirborneOn(UNINIT, Edges(Notices(bs)), Vehicles.After(bs).status);
    if Airborne(Visited(bs)) { AirborneEndsFlying(Visited(bs)); }
  }

  /** So far, whenever the submitter was active its vehicle was flying. */
  predicate NeverOutlived(bs: seq<Body>)
    decreases |bs|
  {
    && (Active(Edges(Notices(bs))) ==> Flying(Vehicles.After(bs).status))
    && (bs != [] ==> NeverOutlived(bs[..|bs| - 1]))
  }

  /** The message takes the vehicle of an active submitter to a status neither grounded nor flying. */
  predicate Escapes(bs: seq<Body>, b: Body) {
    Active(Edges(Notices(bs))) && b.Heartbeat? && !Listed(b.status)
  }

  predicate NeverEscaped(bs: seq<Body>)
    decreases |bs|
  {
    bs != [] ==> var n := |bs| - 1; !Escapes(bs[..n], bs[n]) && NeverEscaped(bs[..n])
  }

  lemma OneMoreActive(es: seq<Edge>, e: Edge)
    ensures Active(es + [e]) == match Command(e.was, e.now)
                                case Some(command) => command.Activation?
                                case None => Active(es)
  {
    assert (es + [e])[..|es|] == es;
  }

  /** One message, while active has implied flying so far. */
  lemma OutlivesStep(bs: seq<Body>, b: Body)
    requires Active(Edges(Notices(bs))) ==> Flying(Vehicles.After(bs).status)
    ensures (Active(Edges(Notices(bs + [b]))) ==> Flying(Vehicles.After(bs + [b]).status)) <==> !Escapes(bs, b)
  {
    hide Edges, Notices, Vehicles.After, Active;
    OneMoreEdge(bs, b);
    var was := Vehicles.After(bs).status;
    var es := Edges(Notices(bs));
    if b.Heartbeat? && b.status != was {
      OneMoreActive(es, Edge(was, b.status));
    } else {
      assert Edges(Notices(bs + [b])) == es;
    }
  }

  lemma NothingActive()
    ensures !Active(Edges(Notices([])))
  {
  }

  /** For every history: an active submitter has had a flying vehicle throughout exactly if no message
      took the vehicle of an active one to POWEROFF or an unlisted status. */
  lemma {:induction false} NeverOutlivedIff(bs: seq<Body>)
    ensures NeverOutlived(bs) <==> NeverEscaped(bs)
    decreases |bs|
  {
    hide Edges, Notices, Vehicles.After, Active, Escapes;
    if bs == [] {
      assert !Active(Edges(Notices([]))) by { NothingActive(); }
    } else {
      var before, b := bs[..|bs| - 1], bs[|bs| - 1];
      NeverOutlivedIff(before);
      assert bs == before + [b];
      if NeverOutlived(before) { OutlivesStep(before, b); }
    }
  }

  lemma PathEmptyHistory()
    ensures Vehicles.After([]).status == UNINIT && Edges(Notices([])) == []
  {
  }

  /** POWEROFF in flight leaves the submitter active, even once the vehicle stands by again. */
  lemma PowerOffKeepsActive()
    ensures var bs := [Heartbeat(ACTIVE), Heartbeat(POWEROFF), Heartbeat(STANDBY)];
            Active(Edges(Notices(bs))) && Vehicles.After(bs).status == STANDBY
  {
    hide Notices, Vehicles.After, Edges;
    assert Vehicles.After([]).status == UNINIT && Edges(Notices([])) == [] by { PathEmptyHistory(); }
    OneMoreEdge([], Heartbeat(ACTIVE));
    assert [] + [Heartbeat(ACTIVE)] == [Heartbeat(ACTIVE)];
    OneMoreEdge([Heartbeat(ACTIVE)], Heartbeat(POWEROFF));
    assert [Heartbeat(ACTIVE)] + [Heartbeat(POWEROFF)] == [Heartbeat(ACTIVE), Heartbeat(POWEROFF)];
    OneMoreEdge([Heartbeat(ACTIVE), Heartbeat(POWEROFF)], Heartbeat(STANDBY));
    assert [Heartbeat(ACTIVE), Heartbeat(POWEROFF)] + [Heartbeat(STANDBY)] ==
           [Heartbeat(ACTIVE), Heartbeat(POWEROFF), Heartbeat(STANDBY)];
    var es := [Edge(UNINIT, ACTIVE), Edge(ACTIVE, POWEROFF), Edge(POWEROFF, STANDBY)];
    assert Edges(Notices([Heartbeat(ACTIVE), Heartbeat(POWEROFF), Heartbeat(STANDBY)])) == es;
    assert Takeoff(es[0]) && NoLandingFrom(es, 0);
    ActiveIff(es);
  }
}
