/** The mission upload tracker: follows an upload in which items may be lost, repeated or reordered. */
module Mission {
  import opened Prelude
  import opened GeometryModel
  import opened MavlinkModel

  datatype State = State(coordinates: seq<Coordinate>, counter: nat, size: nat)

  const BLANK := State([], 0, 0)

  function CoordinateOf(i: Item): Coordinate {
    Coordinate(i.x, i.y, Some(i.z), None)
  }

  function Step(m: State, b: Body): State {
    match b
    case MissionClearAll => BLANK
    case MissionCount(n) => State([], 0, n)
    case MissionItem(i) =>
      if i.seqNo == m.counter then
        State(if i.missionType == WAYPOINT then m.coordinates + [CoordinateOf(i)] else m.coordinates,
              m.counter + 1, m.size)
      else m
    case _ => m
  }

  /** The update reports the mission as complete. */
  predicate Completes(m: State, b: Body) {
    b.MissionItem? && b.item.seqNo == m.counter && m.counter + 1 == m.size
  }

  class Tracker {
    var coordinates: seq<Coordinate>
    var counter: nat
    var size: nat

    function Now(): State
      reads this
    {
      State(coordinates, counter, size)
    }

    constructor ()
      ensures Now() == BLANK
    {
      coordinates, counter, size := [], 0, 0;
    }

    method Update(b: Body) returns (complete: bool)
      modifies this
      ensures Now() == Step(old(Now()), b)
      ensures complete == Completes(old(Now()), b)
    {
      complete := false;
      match b
      case MissionClearAll => HandleClearAll();
      case MissionCount(n) => HandleCount(n);
      case MissionItem(i) => complete := HandleItem(i);
      case _ =>
    }

    method HandleClearAll()
      modifies this
      ensures Now() == BLANK
    {
      coordinates, counter, size := [], 0, 0;
    }

    method HandleCount(n: Word)
      modifies this
      ensures Now() == State([], 0, n)
    {
      coordinates, counter, size := [], 0, n;
    }

    method HandleItem(i: Item) returns (complete: bool)
      modifies this
      ensures Now() == Step(old(Now()), MissionItem(i))
      ensures complete == Completes(old(Now()), MissionItem(i))
    {
      if i.seqNo == counter {
        counter := counter + 1;
        if i.missionType == WAYPOINT {
          coordinates := coordinates + [CoordinateOf(i)];
        }
        if counter == size { return true; }
      }
      return false;
    }
  }

  function After(bs: seq<Body>): State
    decreases |bs|
  {
    if bs == [] then BLANK else Step(After(bs[..|bs| - 1]), bs[|bs| - 1])
  }

  // What the messages say, without looking at the tracker.

  /** The items since the last count or clear. */
  function Items(bs: seq<Body>): seq<Item>
    decreases |bs|
  {
    if bs == [] then []
    else
      match bs[|bs| - 1]
      case MissionClearAll => []
      case MissionCount(_) => []
      case MissionItem(i) => Items(bs[..|bs| - 1]) + [i]
      case _ => Items(bs[..|bs| - 1])
  }

  /** The count last announced, 0 if it was cleared since. */
  function Announced(bs: seq<Body>): nat
    decreases |bs|
  {
    if bs == [] then 0
    else
      match bs[|bs| - 1]
      case MissionClearAll => 0
      case MissionCount(n) => n
      case _ => Announced(bs[..|bs| - 1])
  }

  /** `ps` are increasing positions of items numbered 0, 1, 2, and so on. */
  predicate InOrder(items: seq<Item>, ps: seq<nat>) {
    && (forall k | 0 <= k < |ps| :: ps[k] < |items| && items[ps[k]].seqNo == k)
    && (forall k, l | 0 <= k < l < |ps| :: ps[k] < ps[l])
  }

  /** An in-order selection that no other one outlasts or gets ahead of. */
  ghost predicate LongestAndEarliest(items: seq<Item>, ps: seq<nat>) {
    InOrder(items, ps) &&
    forall qs: seq<nat> | InOrder(items, qs) ::
      |qs| <= |ps| && forall k | 0 <= k < |qs| :: ps[k] <= qs[k]
  }

  /** There is only one such selection. */
  lemma SelectionUnique(items: seq<Item>, ps: seq<nat>, qs: seq<nat>)
    requires LongestAndEarliest(items, ps) && LongestAndEarliest(items, qs)
    ensures ps == qs
  {
    assert InOrder(items, ps) && InOrder(items, qs);
  }

  function Greedy(items: seq<Item>): seq<nat>
    decreases |items|
  {
    if items == [] then []
    else
      var n := |items| - 1;
      var ps := Greedy(items[..n]);
      if items[n].seqNo == |ps| then ps + [n] else ps
  }

  lemma {:induction false} GreedyInOrder(items: seq<Item>)
    ensures InOrder(items, Greedy(items))
    decreases |items|
  {
    if items != [] { GreedyInOrder(items[..|items| - 1]); }
  }

  lemma {:induction false} GreedyBest(items: seq<Item>, qs: seq<nat>)
    requires InOrder(items, qs)
    ensures |qs| <= |Greedy(items)| && forall k | 0 <= k < |qs| :: Greedy(items)[k] <= qs[k]
    decreases |items|
  {
    if qs != [] {
      assert qs[0] < |items|;
      var n := |items| - 1;
      var before := items[..n];
      GreedyInOrder(items);
      if qs[|qs| - 1] < n {
        forall k | 0 <= k < |qs| ensures qs[k] < n && before[qs[k]].seqNo == k {
          assert k < |qs| - 1 ==> qs[k] < qs[|qs| - 1];
        }
        assert InOrder(before, qs);
        GreedyBest(before, qs);
      } else {
        var rs := qs[..|qs| - 1];
        assert InOrder(before, rs);
        GreedyBest(before, rs);
      }
    }
  }

  lemma GreedyIsSelection(items: seq<Item>)
    ensures LongestAndEarliest(items, Greedy(items))
  {
    GreedyInOrder(items);
    forall qs: seq<nat> | InOrder(items, qs)
      ensures |qs| <= |Greedy(items)| && forall k | 0 <= k < |qs| :: Greedy(items)[k] <= qs[k]
    {
      GreedyBest(items, qs);
    }
  }

  /** The selected items of type 16, MAV_CMD_NAV_WAYPOINT: x is the latitude, y the longitude, z the
      altitude. */
  function Waypoints(items: seq<Item>, ps: seq<nat>): seq<Coordinate>
    requires forall k | 0 <= k < |ps| :: ps[k] < |items|
    decreases |ps|
  {
    if ps == [] then []
    else
      var rest := Waypoints(items, ps[..|ps| - 1]);
      var i := items[ps[|ps| - 1]];
      if i.missionType == 16 then rest + [Coordinate(i.x, i.y, Some(i.z), None)] else rest
  }

  lemma {:induction false} WaypointsOfPrefix(items: seq<Item>, i: Item, ps: seq<nat>)
    requires forall k | 0 <= k < |ps| :: ps[k] < |items|
    ensures Waypoints(items + [i], ps) == Waypoints(items, ps)
    decreases |ps|
  {
    if ps != [] { WaypointsOfPrefix(items, i, ps[..|ps| - 1]); }
  }

  lemma {:induction false} StoresGreedy(bs: seq<Body>)
    ensures forall k | 0 <= k < |Greedy(Items(bs))| :: Greedy(Items(bs))[k] < |Items(bs)|
    ensures After(bs) == State(Waypoints(Items(bs), Greedy(Items(bs))), |Greedy(Items(bs))|, Announced(bs))
    decreases |bs|
  {
    GreedyInOrder(Items(bs));
    if bs != [] {
      var before := bs[..|bs| - 1];
      StoresGreedy(before);
      if bs[|bs| - 1].MissionItem? {
        var i := bs[|bs| - 1].item;
        var items := Items(before);
        assert (items + [i])[..|items|] == items;
        WaypointsOfPrefix(items, i, Greedy(items));
        assert (Greedy(items) + [|items|])[..|Greedy(items)|] == Greedy(items);
      }
    }
  }

  /** For every message sequence, what the tracker stores are the waypoints of the longest and
      earliest selection of items 0, 1, 2, ... since the last count or clear. */
  lemma StoresSelection(bs: seq<Body>, ps: seq<nat>)
    requires LongestAndEarliest(Items(bs), ps)
    ensures After(bs) == State(Waypoints(Items(bs), ps), |ps|, Announced(bs))
  {
    GreedyIsSelection(Items(bs));
    SelectionUnique(Items(bs), ps, Greedy(Items(bs)));
    StoresGreedy(bs);
  }

  /** Completions reported since the last count or clear. */
  function Reports(bs: seq<Body>): nat
    decreases |bs|
  {
    if bs == [] then 0
    else
      var before := bs[..|bs| - 1];
      var b := bs[|bs| - 1];
      if b.MissionClearAll? || b.MissionCount? then 0
      else Reports(before) + if Completes(After(before), b) then 1 else 0
  }

  lemma {:induction false} CountReports(bs: seq<Body>)
    ensures Reports(bs) == if 0 < After(bs).size <= After(bs).counter then 1 else 0
    decreases |bs|
  {
    if bs != [] { CountReports(bs[..|bs| - 1]); }
  }

  /** A mission is reported once, when its selection has reached the announced count, and never
      when the count was 0 or has been cleared. */
  lemma {:induction false} ReportedOnce(bs: seq<Body>, ps: seq<nat>)
    requires LongestAndEarliest(Items(bs), ps)
    ensures Reports(bs) == if 0 < Announced(bs) <= |ps| then 1 else 0
  {
    StoresSelection(bs, ps);
    CountReports(bs);
  }

  /** The update that reports a mission is the one that makes the selection reach the count; what
      it then holds are the waypoints of items 0 to count - 1. */
  lemma ReportedWhenReached(bs: seq<Body>, b: Body, ps: seq<nat>, qs: seq<nat>)
    ensures LongestAndEarliest(Items(bs), ps) && LongestAndEarliest(Items(bs + [b]), qs) ==>
              (Completes(After(bs), b) <==> b.MissionItem? && |ps| < |qs| == Announced(bs + [b]))
  {
    if LongestAndEarliest(Items(bs), ps) && LongestAndEarliest(Items(bs + [b]), qs) {
      StoresSelection(bs, ps);
      StoresSelection(bs + [b], qs);
      assert (bs + [b])[..|bs|] == bs;
    }
  }

  /** Sequence numbers are 16 bits wide, so the counter stays far below the width of `size_t`. */
  lemma {:induction false} CounterBounded(bs: seq<Body>)
    ensures After(bs).counter <= 0x1_0000
    decreases |bs|
  {
    if bs != [] { CounterBounded(bs[..|bs| - 1]); }
  }
}
