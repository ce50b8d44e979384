/** The demultiplexer: one vehicle per system id, created when its first message arrives. */
module VehicleTrackers {
  import opened Prelude
  import opened MavlinkModel
  import opened Vehicles

  /** Told about each new vehicle; `added` keeps its id and the state it was announced in. */
  class TrackerMonitor {
    var added: seq<(Byte, State)>

    method OnVehicleAdded(v: Vehicle)
      modifies this
      ensures added == old(added) + [(v.systemId, v.Now())]
    {
      added := added + [(v.systemId, v.Now())];
    }
  }

  function Track(vs: map<Byte, State>, m: Message): map<Byte, State> {
    vs[m.sysid := Step(if m.sysid in vs then vs[m.sysid] else FRESH, m.body)]
  }

  function Announced(known: set<Byte>, id: Byte): seq<(Byte, State)> {
    if id in known then [] else [(id, FRESH)]
  }

  class VehicleTracker {
    var monitors: set<TrackerMonitor>
    var vehicles: map<Byte, Vehicle>

    ghost predicate Valid()
      reads this, vehicles.Values
    {
      && (forall k | k in vehicles :: vehicles[k].systemId == k)
      && (forall k, l | k in vehicles && l in vehicles && k != l :: vehicles[k].mission != vehicles[l].mission)
    }

    /** The state of the vehicle with this id, if there is one. */
    function StateOf(id: Byte): Option<State>
      reads this, if id in vehicles then {vehicles[id], vehicles[id].mission} else {}
    {
      if id in vehicles then Some(vehicles[id].Now()) else None
    }

    /** The monitors registered with it. */
    function Listeners(id: Byte): set<Monitor>
      reads this, if id in vehicles then {vehicles[id]} else {}
    {
      if id in vehicles then vehicles[id].monitors else {}
    }

    constructor ()
      ensures Valid() && vehicles == map[] && monitors == {}
    {
      monitors, vehicles := {}, map[];
    }

    method RegisterMonitor(m: TrackerMonitor)
      modifies this`monitors
      ensures monitors == old(monitors) + {m}
    {
      monitors := monitors + {m};
    }

    method UnregisterMonitor(m: TrackerMonitor)
      modifies this`monitors
      ensures monitors == old(monitors) - {m}
    {
      monitors := monitors - {m};
    }

    method Announce(v: Vehicle)
      modifies monitors
      ensures forall m | m in monitors :: m.added == old(m.added) + [(v.systemId, v.Now())]
    {
      var told: set<TrackerMonitor>, rest := {}, monitors;
      while rest != {}
        invariant rest <= monitors && told == monitors - rest
        invariant v.Now() == old(v.Now())
        invariant forall m | m in told :: m.added == old(m.added) + [(v.systemId, v.Now())]
        invariant forall m | m in rest :: m.added == old(m.added)
      {
        var m :| m in rest;
        m.OnVehicleAdded(v);
        told, rest := told + {m}, rest - {m};
      }
    }

    /** The vehicle with this id, announced to the monitors if it is new. */
    method FindOrAdd(id: Byte) returns (v: Vehicle)
      requires Valid()
      modifies this`vehicles, monitors
      ensures Valid() && id in vehicles && vehicles[id] == v
      ensures vehicles == if id in old(vehicles) then old(vehicles) else old(vehicles)[id := v]
      ensures id !in old(vehicles) ==> fresh(v) && fresh(v.mission) && v.monitors == {} && v.Now() == FRESH
      ensures forall m | m in monitors :: m.added == old(m.added) + Announced(old(vehicles.Keys), id)
    {
      if id !in vehicles {
        v := new Vehicle(id);
        vehicles := vehicles[id := v];
        Announce(v);
      } else {
        v := vehicles[id];
      }
    }

    method Update(msg: Message)
      requires Valid()
      modifies this`vehicles, monitors
      modifies if msg.sysid in vehicles then {vehicles[msg.sysid], vehicles[msg.sysid].mission} else {}
      modifies Listeners(msg.sysid)
      ensures Valid() && forall k | k in old(vehicles) :: k in vehicles && vehicles[k] == old(vehicles[k])
      ensures StateOf(msg.sysid) == Some(Step(old(StateOf(msg.sysid)).GetOr(FRESH), msg.body))
      ensures forall k: Byte | k != msg.sysid :: StateOf(k) == old(StateOf(k))
      ensures forall m | m in monitors :: m.added == old(m.added) + Announced(old(vehicles.Keys), msg.sysid)
      ensures forall m | m in old(Listeners(msg.sysid)) ::
                m.seen == old(m.seen) + Emitted(old(StateOf(msg.sysid)).GetOr(FRESH), msg.body)
    {
      hide Step, Emitted, Announced, Mission.Tracker.Now;
      var v := FindOrAdd(msg.sysid);
      v.Update(msg);
    }
  }

  // Whole streams.

  datatype Trace = Trace(vehicles: map<Byte, State>, added: seq<(Byte, State)>, notices: seq<(Byte, Notice)>)

  function Tag(id: Byte, ns: seq<Notice>): (r: seq<(Byte, Notice)>) {
    seq(|ns|, k requires 0 <= k < |ns| => (id, ns[k]))
  }

  function After(ms: seq<Message>): Trace
    decreases |ms|
  {
    if ms == [] then Trace(map[], [], [])
    else
      var t := After(ms[..|ms| - 1]);
      var m := ms[|ms| - 1];
      Trace(Track(t.vehicles, m), t.added + Announced(t.vehicles.Keys, m.sysid),
            t.notices + Tag(m.sysid, Emitted(if m.sysid in t.vehicles then t.vehicles[m.sysid] else FRESH, m.body)))
  }

  /** What one vehicle sent. */
  function Own(ms: seq<Message>, id: Byte): seq<Body>
    decreases |ms|
  {
    if ms == [] then []
    else Own(ms[..|ms| - 1], id) + if ms[|ms| - 1].sysid == id then [ms[|ms| - 1].body] else []
  }

  /** What was told about one vehicle. */
  function About(ns: seq<(Byte, Notice)>, id: Byte): seq<Notice>
    decreases |ns|
  {
    if ns == [] then []
    else About(ns[..|ns| - 1], id) + if ns[|ns| - 1].0 == id then [ns[|ns| - 1].1] else []
  }

  lemma {:induction false} AboutTagged(ns: seq<(Byte, Notice)>, sender: Byte, more: seq<Notice>, id: Byte)
    ensures About(ns + Tag(sender, more), id) == About(ns, id) + if sender == id then more else []
    decreases |more|
  {
    var all := ns + Tag(sender, more);
    if more == [] {
      assert all == ns;
    } else {
      var fewer := more[..|more| - 1];
      assert all[..|all| - 1] == ns + Tag(sender, fewer);
      assert more == fewer + [more[|more| - 1]];
      AboutTagged(ns, sender, fewer, id);
    }
  }

  lemma NoNotices(id: Byte)
    ensures About([], id) == []
  {
  }

  /** In every interleaved stream each vehicle is tracked from its first message on, is in the state
      a fresh one reaches on its own messages alone, and has caused the same notices. */
  lemma {:induction false} VehiclesIndependent(ms: seq<Message>, id: Byte)
    ensures id in After(ms).vehicles <==> Own(ms, id) != []
    ensures id in After(ms).vehicles ==> After(ms).vehicles[id] == Vehicles.After(Own(ms, id))
    ensures About(After(ms).notices, id) == Notices(Own(ms, id))
    decreases |ms|
  {
    hide Step, Emitted, About, Tag;
    if ms == [] {
      NoNotices(id);
    } else {
      var before := ms[..|ms| - 1];
      var m := ms[|ms| - 1];
      VehiclesIndependent(before, id);
      var t := After(before);
      var v := if m.sysid in t.vehicles then t.vehicles[m.sysid] else FRESH;
      AboutTagged(t.notices, m.sysid, Emitted(v, m.body), id);
      if m.sysid == id {
        OneMore(Own(before, id), m.body);
        assert Own(ms, id) == Own(before, id) + [m.body];
        assert Own(before, id) == [] ==> Vehicles.After(Own(before, id)) == FRESH;
      } else {
        assert Own(ms, id) == Own(before, id);
      }
    }
  }

  /** So the way the streams of the vehicles are interleaved does not matter. */
  lemma InterleavingIrrelevant(ms: seq<Message>, ns: seq<Message>)
    requires forall id: Byte :: Own(ms, id) == Own(ns, id)
    ensures After(ms).vehicles == After(ns).vehicles
  {
    forall id: Byte
      ensures id in After(ms).vehicles <==> id in After(ns).vehicles
      ensures id in After(ms).vehicles ==> After(ms).vehicles[id] == After(ns).vehicles[id]
    {
      VehiclesIndependent(ms, id);
      VehiclesIndependent(ns, id);
    }
  }

  predicate Spoke(ms: seq<Message>, id: Byte) {
    exists m | m in ms :: m.sysid == id
  }

  lemma {:induction false} TrackedIffSpoke(ms: seq<Message>, id: Byte)
    ensures id in After(ms).vehicles <==> Spoke(ms, id)
    decreases |ms|
  {
    if ms != [] {
      var before := ms[..|ms| - 1];
      assert ms == before + [ms[|ms| - 1]];
      TrackedIffSpoke(before, id);
    }
  }

  /** A message announces its vehicle exactly when it is the first from there, and the vehicle is
      still fresh then: none of its messages has been processed. */
  lemma AnnouncedByFirstMessage(ms: seq<Message>, m: Message)
    ensures After(ms + [m]).added == After(ms).added + if Spoke(ms, m.sysid) then [] else [(m.sysid, FRESH)]
  {
    assert (ms + [m])[..|ms|] == ms;
    TrackedIffSpoke(ms, m.sysid);
  }

  /** Every vehicle heard of is announced exactly once. */
  lemma {:induction false} AnnouncedOnce(ms: seq<Message>, id: Byte)
    ensures multiset(After(ms).added)[(id, FRESH)] == if Spoke(ms, id) then 1 else 0
    decreases |ms|
  {
    if ms != [] {
      var before := ms[..|ms| - 1];
      var m := ms[|ms| - 1];
      assert ms == before + [m];
      AnnouncedOnce(before, id);
      AnnouncedByFirstMessage(before, m);
    }
  }
}
