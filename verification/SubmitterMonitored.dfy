/** The submitter behind its vehicle's monitor: from messages to notices, from notices to what the
    submitter is told, and from there, in every run, to whether it is active and what it knows. */
module SubmitterMonitored {
  import opened Prelude
  import opened GeometryModel
  import opened SubmitterModel
  import opened SubmitterRuns
  import opened SubmitterActivity
  import opened MavlinkModel
  import opened Vehicles
  import opened VehicleStatus

  /** What the monitor tells the submitter for a sequence of notices, the k-th at time clock(k). */
  function Asked(ns: seq<Notice>, clock: nat -> nat): seq<Event>
    decreases |ns|
  {
    if ns == [] then []
    else
      var n := |ns| - 1;
      var e := Commanded(ns[n], clock(n));
      Asked(ns[..n], clock) + if e.Some? then [e.value] else []
  }

  function PositionsIn(es: seq<Event>): seq<Position>
    decreases |es|
  {
    if es == [] then []
    else PositionsIn(es[..|es| - 1]) + if es[|es| - 1].PositionUpdate? then [es[|es| - 1].position] else []
  }

  function MissionsIn(es: seq<Event>): seq<Geometry>
    decreases |es|
  {
    if es == [] then []
    else MissionsIn(es[..|es| - 1]) + if es[|es| - 1].MissionUpdate? then [es[|es| - 1].geometry] else []
  }

  function PositionsOf(ns: seq<Notice>): seq<Position>
    decreases |ns|
  {
    if ns == [] then []
    else PositionsOf(ns[..|ns| - 1]) + if ns[|ns| - 1].PositionChanged? then [ns[|ns| - 1].at] else []
  }

  /** The last of a sequence, or what was there before. */
  function LastOf<T>(xs: seq<T>, start: Option<T>): Option<T> {
    if xs == [] then start else Some(xs[|xs| - 1])
  }

  lemma {:induction false} CommandsAppend(es: seq<Event>, e: Event)
    ensures CommandsIn(es + [e]) == CommandsIn(es) + if IsCommand(e) then [e] else []
    decreases |es|
  {
    if es == [] {
      assert es + [e] == [e] && [e][1..] == [];
    } else {
      assert (es + [e])[1..] == es[1..] + [e];
      CommandsAppend(es[1..], e);
      var more := if IsCommand(e) then [e] else [];
      assert [es[0]] + (CommandsIn(es[1..]) + more) == [es[0]] + CommandsIn(es[1..]) + more;
      assert [] + (CommandsIn(es[1..]) + more) == [] + CommandsIn(es[1..]) + more;
    }
  }

  lemma InputsAppend(es: seq<Event>, e: Event)
    ensures PositionsIn(es + [e]) == PositionsIn(es) + if e.PositionUpdate? then [e.position] else []
    ensures MissionsIn(es + [e]) == MissionsIn(es) + if e.MissionUpdate? then [e.geometry] else []
  {
    assert (es + [e])[..|es|] == es;
  }

  /** The commands of one edge. */
  function CommandsAt(e: Edge): seq<Event> {
    if Takeoff(e) then [Activation] else if Landing(e) then [Deactivation] else []
  }

  /** The commands a sequence of status edges calls for. */
  function CommandsOf(es: seq<Edge>): seq<Event>
    decreases |es|
  {
    if es == [] then [] else CommandsOf(es[..|es| - 1]) + CommandsAt(es[|es| - 1])
  }

  lemma OneMoreCommand(es: seq<Edge>, e: Edge)
    ensures CommandsOf(es + [e]) == CommandsOf(es) + CommandsAt(e)
  {
    assert (es + [e])[..|es|] == es;
  }

  lemma AskedCommand(es: seq<Event>, n: Notice, t: nat, edges: seq<Edge>)
    requires CommandsIn(es) == CommandsOf(edges)
    ensures var e := Commanded(n, t);
            CommandsIn(es + if e.Some? then [e.value] else []) ==
              CommandsOf(edges + if n.StatusChanged? && n.was.Some? then [Edge(n.was.value, n.now)] else [])
  {
    hide CommandsIn, CommandsOf;
    assert es + [] == es && edges + [] == edges;
    var e := Commanded(n, t);
    if e.Some? { CommandsAppend(es, e.value); }
    if n.StatusChanged? && n.was.Some? { OneMoreCommand(edges, Edge(n.was.value, n.now)); }
  }

  lemma AskedInput(es: seq<Event>, n: Notice, t: nat)
    ensures var e := Commanded(n, t);
            var more := if e.Some? then [e.value] else [];
            && PositionsIn(es + more) == PositionsIn(es) + (if n.PositionChanged? then [n.at] else [])
            && MissionsIn(es + more) == MissionsIn(es) + (match n case MissionReceived(g) => [g] case _ => [])
  {
    hide PositionsIn, MissionsIn;
    assert es + [] == es;
    var e := Commanded(n, t);
    if e.Some? { InputsAppend(es, e.value); }
  }

  /** For any notices: the monitor commands what their status edges call for, and passes on their
      positions and missions, all in order. */
  lemma {:induction false} AskedInOrder(ns: seq<Notice>, clock: nat -> nat)
    ensures CommandsIn(Asked(ns, clock)) == CommandsOf(Edges(ns))
    ensures PositionsIn(Asked(ns, clock)) == PositionsOf(ns)
    ensures MissionsIn(Asked(ns, clock)) == MissionsOf(ns)
    decreases |ns|
  {
    if ns != [] {
      hide CommandsIn, PositionsIn, MissionsIn, CommandsOf, Commanded;
      var before, n := ns[..|ns| - 1], ns[|ns| - 1];
      AskedInOrder(before, clock);
      AskedCommand(Asked(before, clock), n, clock(|ns| - 1), Edges(before));
      AskedInput(Asked(before, clock), n, clock(|ns| - 1));
    }
  }

  lemma {:induction false} ActiveIsLast(es: seq<Edge>)
    ensures Active(es) == Last(CommandsOf(es), false)
    decreases |es|
  {
    if es != [] { ActiveIsLast(es[..|es| - 1]); }
  }

  lemma LastInput(es: seq<Event>, e: Event, p: Option<Position>, g: Option<Geometry>)
    ensures LastOf(PositionsIn(es + [e]), p) ==
              if e.PositionUpdate? then Some(e.position) else LastOf(PositionsIn(es), p)
    ensures LastOf(MissionsIn(es + [e]), g) ==
              if e.MissionUpdate? then Some(e.geometry) else LastOf(MissionsIn(es), g)
  {
    InputsAppend(es, e);
  }

  lemma {:induction false} InputsLonger(run: seq<Move>, m: Move)
    ensures Inputs(run + [m]) == Inputs(run) + if m.event.Completion? then [] else [m.event]
    decreases |run|
  {
    if run == [] {
      assert run + [m] == [m] && [m][1..] == [];
    } else {
      assert (run + [m])[1..] == run[1..] + [m];
      InputsLonger(run[1..], m);
      var first := if run[0].event.Completion? then [] else [run[0].event];
      var last := if m.event.Completion? then [] else [m.event];
      assert first + (Inputs(run[1..]) + last) == first + Inputs(run[1..]) + last;
    }
  }

  lemma {:induction false} LastOfInputs(run: seq<Move>, p: Option<Position>, g: Option<Geometry>)
    ensures LastPosition(run, p) == LastOf(PositionsIn(Inputs(run)), p)
    ensures LastMission(run, g) == LastOf(MissionsIn(Inputs(run)), g)
    decreases |run|
  {
    if run != [] {
      hide Inputs, PositionsIn, MissionsIn;
      var before, m := run[..|run| - 1], run[|run| - 1];
      assert run == before + [m];
      LastOfInputs(before, p, g);
      InputsLonger(before, m);
      LastInput(Inputs(before), m.event, p, g);
      assert Inputs(before) + [] == Inputs(before);
    }
  }

  /** The positions a vehicle has sent. */
  function Heard(bs: seq<Body>): seq<Position>
    decreases |bs|
  {
    if bs == [] then []
    else Heard(bs[..|bs| - 1]) + match bs[|bs| - 1] case GlobalPosition(p) => [p] case _ => []
  }

  lemma PositionsOfStep(ns: seq<Notice>, v: State, b: Body)
    ensures PositionsOf(ns + Emitted(v, b)) ==
              PositionsOf(ns) + match b case GlobalPosition(p) => [p] case _ => []
  {
    hide Mission.Step, Mission.Completes;
    var more := Emitted(v, b);
    if more == [] {
      assert ns + more == ns;
    } else {
      assert more == [more[0]] && (ns + more)[..|ns|] == ns;
    }
  }

  /** A vehicle reports every position it is sent, in order and each with the one before, and keeps
      the last. */
  lemma {:induction false} PositionsReported(bs: seq<Body>)
    ensures PositionsOf(Notices(bs)) == Heard(bs)
    ensures Vehicles.After(bs).position == LastOf(Heard(bs), None)
    ensures forall b: Body | b.GlobalPosition? ::
              Notices(bs + [b]) == Notices(bs) + [PositionChanged(LastOf(Heard(bs), None), b.position)]
    decreases |bs|
  {
    if bs != [] {
      hide PositionsOf, Emitted, Mission.Step;
      PositionsReported(bs[..|bs| - 1]);
      PositionsOfStep(Notices(bs[..|bs| - 1]), Vehicles.After(bs[..|bs| - 1]), bs[|bs| - 1]);
    }
    forall b: Body | b.GlobalPosition?
      ensures Notices(bs + [b]) == Notices(bs) + [PositionChanged(LastOf(Heard(bs), None), b.position)]
    {
      OneMore(bs, b);
    }
  }

  /** In every run in which the submitter is told what the monitor makes of one vehicle's messages,
      however completions come in between, it knows the vehicle's position and its last mission. */
  lemma KnowsItsVehicle(c: Config, run: seq<Move>, bs: seq<Body>, clock: nat -> nat)
    requires Possible(c, START, run) && Inputs(run) == Asked(Notices(bs), clock)
    ensures var s := SubmitterRuns.After(c, START, run).s;
            && s.position == Vehicles.After(bs).position == LastOf(Heard(bs), None)
            && s.mission == LastOf(MissionsOf(Notices(bs)), None)
  {
    hide Possible, SubmitterRuns.After, Vehicles.After, Notices, Asked;
    RunRemembers(c, START, run);
    LastOfInputs(run, None, None);
    AskedInOrder(Notices(bs), clock);
    PositionsReported(bs);
  }

  /** In every such run it is active exactly if the vehicle has taken off and not landed since; with no
      POWEROFF or unlisted status in the history, exactly while the vehicle is airborne. */
  lemma ActiveWhileAirborne(c: Config, run: seq<Move>, bs: seq<Body>, clock: nat -> nat)
    requires Possible(c, START, run) && Inputs(run) == Asked(Notices(bs), clock)
    ensures var s := SubmitterRuns.After(c, START, run).s;
            && (s.active <==> NotLanded(Edges(Notices(bs))))
            && ((forall status | status in Visited(bs) :: Listed(status)) ==>
                  (s.active <==> Airborne(Visited(bs))) && (s.active ==> Flying(Vehicles.After(bs).status)))
  {
    hide Possible, SubmitterRuns.After, Vehicles.After, Notices, Edges, Asked, NotLanded, Airborne;
    RunActive(c, START, run);
    AskedInOrder(Notices(bs), clock);
    ActiveIsLast(Edges(Notices(bs)));
    ActiveIff(Edges(Notices(bs)));
    if forall status | status in Visited(bs) :: Listed(status) { ActiveIffAirborne(bs); }
  }
}
