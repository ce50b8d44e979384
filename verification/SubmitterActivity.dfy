/** What the outside sets and nothing else does: whether the submitter is active, its position and its
    mission and what it sends; and what replies alone bring: the values it holds and the monitors it is
    subscribed to. */
module SubmitterActivity {
  import opened Prelude
  import opened GeometryModel
  import opened SubmitterModel
  import opened SubmitterRuns
  import opened SubmitterConservation

  predicate IsCommand(e: Event) { e.Activation? || e.Deactivation? }

  /** An update goes out exactly when the submitter is active and has its key. */
  predicate Sends(s: Sys) {
    s.active && s.authorization.Some? && s.flight.Some? && s.key.Some?
  }

  /** It carries that very position, for the flight and under the key held. */
  function Update(s: Sys, p: Position, now: nat): Sent
    requires Sends(s)
  {
    Sent(s.flight.value, s.key.value, ReportOf(p, now), s.epoch)
  }

  /** What each step does to these fields. */
  lemma StepOutside(c: Config, s: Sys, e: Event, j: Junk)
    requires e.Completion? ==> e.index < |s.pending| && Answers(s.pending[e.index].request, e.reply)
    ensures var t := NextSys(c, s, e, j);
            && t.active == (if IsCommand(e) then e.Activation? else s.active)
            && t.position == (if e.PositionUpdate? then Some(e.position) else s.position)
            && t.mission == (if e.MissionUpdate? then Some(e.geometry) else s.mission)
            && t.sent == s.sent + (if e.PositionUpdate? && Sends(s) then [Update(s, e.position, e.now)] else [])
  {
    hide RequestAuthorization, Deliver, ReportOf, Closed;
    match e
    case Activation => AuthorizationKeeps(c, s.(active := true), j);
    case Deactivation =>
    case PositionUpdate(p, _) => AuthorizationKeeps(c, s.(position := Some(p)), j);
    case MissionUpdate(_) =>
    case Completion(i, reply) =>
      DeliverKeeps(c, s.(pending := RemoveAt(s.pending, i)), s.pending[i].request, reply, j);
  }

  /** Its units: degrees from ten-millionths, metres from millimetres, an accuracy of two metres. */
  lemma ReportUnits(p: Position, now: nat)
    ensures var r := ReportOf(p, now);
            && r.timestamp == now && r.accuracy == 2.0
            && r.latitude * 10000000.0 == p.lat as real && r.longitude * 10000000.0 == p.lon as real
            && r.altitudeMsl * 1000.0 == p.alt as real && r.altitudeGl * 1000.0 == p.relativeAlt as real
  {
  }

  /** What a run is told from outside, in order. */
  function Inputs(run: seq<Move>): seq<Event> {
    if run == [] then [] else (if run[0].event.Completion? then [] else [run[0].event]) + Inputs(run[1..])
  }

  function CommandsIn(es: seq<Event>): seq<Event> {
    if es == [] then [] else (if IsCommand(es[0]) then [es[0]] else []) + CommandsIn(es[1..])
  }

  predicate Last(es: seq<Event>, start: bool) {
    if es == [] then start else es[|es| - 1].Activation?
  }

  /** In every run the submitter is active exactly if the last command was an activation. */
  lemma {:induction false} RunActive(c: Config, w: World, run: seq<Move>)
    requires Possible(c, w, run)
    ensures After(c, w, run).s.active == Last(CommandsIn(Inputs(run)), w.s.active)
    decreases |run|
  {
    hide NextSys, Record, ReportOf, Sends;
    if run != [] {
      var m := run[0];
      StepOutside(c, w.s, m.event, m.junk);
      RunActive(c, Next(c, w, m.event, m.junk), run[1..]);
      assert ([m.event] + Inputs(run[1..]))[1..] == Inputs(run[1..]);
      if m.event.Completion? { assert [] + Inputs(run[1..]) == Inputs(run[1..]); }
    }
  }

  function LastPosition(run: seq<Move>, start: Option<Position>): Option<Position>
    decreases |run|
  {
    if run == [] then start
    else
      var e := run[|run| - 1].event;
      if e.PositionUpdate? then Some(e.position) else LastPosition(run[..|run| - 1], start)
  }

  function LastMission(run: seq<Move>, start: Option<Geometry>): Option<Geometry>
    decreases |run|
  {
    if run == [] then start
    else
      var e := run[|run| - 1].event;
      if e.MissionUpdate? then Some(e.geometry) else LastMission(run[..|run| - 1], start)
  }

  lemma {:induction false} LastAfterFirst(run: seq<Move>, p: Option<Position>, g: Option<Geometry>)
    requires run != []
    ensures var e := run[0].event;
            && LastPosition(run, p) == LastPosition(run[1..], if e.PositionUpdate? then Some(e.position) else p)
            && LastMission(run, g) == LastMission(run[1..], if e.MissionUpdate? then Some(e.geometry) else g)
    decreases |run|
  {
    var n := |run| - 1;
    if n > 0 {
      assert run[1..][..n - 1] == run[..n][1..];
      LastAfterFirst(run[..n], p, g);
    }
  }

  /** In every run, active or not and through every deactivation, the submitter knows the last position
      and the last mission it was given. */
  lemma {:induction false} RunRemembers(c: Config, w: World, run: seq<Move>)
    requires Possible(c, w, run)
    ensures var s := After(c, w, run).s;
            s.position == LastPosition(run, w.s.position) && s.mission == LastMission(run, w.s.mission)
    decreases |run|
  {
    hide NextSys, Record, ReportOf, Sends;
    if run != [] {
      var m := run[0];
      StepOutside(c, w.s, m.event, m.junk);
      LastAfterFirst(run, w.s.position, w.s.mission);
      RunRemembers(c, Next(c, w, m.event, m.junk), run[1..]);
    }
  }

  /** The monitors that completions have brought so far. */
  function Brought(run: seq<Move>): set<nat>
    decreases |run|
  {
    if run == [] then {}
    else (if run[0].event.Completion? && run[0].event.reply.Monitoring? then {run[0].event.reply.monitor} else {}) +
         Brought(run[1..])
  }

  lemma StepSubscribes(c: Config, s: Sys, e: Event, j: Junk)
    requires e.Completion? ==> e.index < |s.pending| && Answers(s.pending[e.index].request, e.reply)
    requires Watched(s) <= s.subscribed
    ensures var t := NextSys(c, s, e, j);
            && t.subscribed == s.subscribed + Brought([Move(e, j)]) && Watched(t) <= t.subscribed
            && (e.Completion? && e.reply.Monitoring? ==> t.monitor == Some(e.reply.monitor))
  {
    hide RequestAuthorization, Deliver, ReportOf, Closed, Outside;
    match e
    case Activation => AuthorizationKeeps(c, s.(active := true), j);
    case Deactivation =>
    case PositionUpdate(p, _) => AuthorizationKeeps(c, s.(position := Some(p)), j);
    case MissionUpdate(_) =>
    case Completion(i, reply) =>
      DeliverKeeps(c, s.(pending := RemoveAt(s.pending, i)), s.pending[i].request, reply, j);
  }

  lemma {:induction false} RunSubscribes(c: Config, w: World, run: seq<Move>)
    requires Possible(c, w, run) && Watched(w.s) <= w.s.subscribed
    ensures var s := After(c, w, run).s;
            s.subscribed == w.s.subscribed + Brought(run) && Watched(s) <= s.subscribed
    decreases |run|
  {
    hide NextSys, Record, Watched;
    if run != [] {
      var m := run[0];
      assert [m][1..] == [];
      StepSubscribes(c, w.s, m.event, m.junk);
      RunSubscribes(c, Next(c, w, m.event, m.junk), run[1..]);
      assert Brought([m]) + Brought(run[1..]) == Brought(run);
    }
  }

  /** In every run the submitter listens to every monitor a completion has ever brought and to no other;
      the one it holds is among them. */
  lemma SubscribedToBrought(c: Config, run: seq<Move>)
    requires Possible(c, START, run)
    ensures var s := After(c, START, run).s;
            s.subscribed == Brought(run) && (s.monitor.Some? ==> s.monitor.value in s.subscribed)
  {
    hide Possible, After, Brought;
    RunSubscribes(c, START, run);
  }

  const NOTHING_HELD := Held(None, None, None, None, None, None)

  /** What is held after a run, by its events alone: replies bring values, a deactivation while active
      takes all of them away. */
  function HeldAfter(h: Held, active: bool, run: seq<Move>): Held
    decreases |run|
  {
    if run == [] then h
    else
      var e := run[0].event;
      HeldAfter(match e
                case Completion(_, reply) => Brings(h, reply)
                case Deactivation => if active then NOTHING_HELD else h
                case _ => h,
                if IsCommand(e) then e.Activation? else active, run[1..])
  }

  lemma StepHeld(c: Config, s: Sys, e: Event, j: Junk)
    requires e.Completion? ==> e.index < |s.pending| && Answers(s.pending[e.index].request, e.reply)
    ensures HeldBy(NextSys(c, s, e, j)) ==
              match e
              case Completion(_, reply) => Brings(HeldBy(s), reply)
              case Deactivation => if s.active then NOTHING_HELD else HeldBy(s)
              case _ => HeldBy(s)
  {
    hide RequestAuthorization, Deliver, ReportOf, Closed, Outside, Brings;
    match e
    case Activation => AuthorizationKeeps(c, s.(active := true), j);
    case Deactivation =>
    case PositionUpdate(p, _) => AuthorizationKeeps(c, s.(position := Some(p)), j);
    case MissionUpdate(_) =>
    case Completion(i, reply) =>
      DeliverKeeps(c, s.(pending := RemoveAt(s.pending, i)), s.pending[i].request, reply, j);
  }

  lemma {:induction false} RunHeld(c: Config, w: World, run: seq<Move>)
    requires Possible(c, w, run)
    ensures HeldBy(After(c, w, run).s) == HeldAfter(HeldBy(w.s), w.s.active, run)
    decreases |run|
  {
    hide NextSys, Record, HeldBy, Brings, Outside, Sends;
    if run != [] {
      var m := run[0];
      StepHeld(c, w.s, m.event, m.junk);
      StepOutside(c, w.s, m.event, m.junk);
      RunHeld(c, Next(c, w, m.event, m.junk), run[1..]);
    }
  }

  /** In every run authorization, pilot, plan, flight, monitor and key are those of the last reply of
      their kind, unless an effective deactivation came after it. */
  lemma HoldsReplies(c: Config, run: seq<Move>)
    requires Possible(c, START, run)
    ensures HeldBy(After(c, START, run).s) == HeldAfter(NOTHING_HELD, false, run)
  {
    hide Possible, After, HeldAfter;
    RunHeld(c, START, run);
  }
}
