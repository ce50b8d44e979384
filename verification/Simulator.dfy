/** The telemetry simulator: walks the ring of a polygon at two metres per second. Arithmetic is over
    the reals; the square root, sine, cosine, bearing and scale factors are parameters. */
module Simulator {
  import opened GeometryModel

  /** Metres per degree of longitude and of latitude. */
  datatype Ruler = Ruler(kx: real, ky: real)

  datatype Maths = Maths(
    sqrt: real -> real, cos: real -> real, sin: real -> real,
    scale: real -> Ruler, bearing: (Ruler, Coordinate, Coordinate) -> real)

  ghost predicate Sane(m: Maths) {
    && (forall x: real | x >= 0.0 :: m.sqrt(x) >= 0.0 && m.sqrt(x) * m.sqrt(x) == x)
    && (forall a: real :: m.cos(a) * m.cos(a) + m.sin(a) * m.sin(a) == 1.0)
    && (forall latitude: real :: m.scale(latitude).kx != 0.0 && m.scale(latitude).ky != 0.0)
  }

  function Norm(m: Maths, dx: real, dy: real): real {
    m.sqrt(dx * dx + dy * dy)
  }

  function East(r: Ruler, p: Coordinate, q: Coordinate): real { (q.longitude - p.longitude) * r.kx }

  function North(r: Ruler, p: Coordinate, q: Coordinate): real { (q.latitude - p.latitude) * r.ky }

  function Distance(m: Maths, r: Ruler, p: Coordinate, q: Coordinate): real {
    Norm(m, East(r, p, q), North(r, p, q))
  }

  /** A coordinate `distance` metres on, of which the fraction `f` goes along its axis. */
  function Shift(x: real, f: real, distance: real, k: real): real
    requires k != 0.0
  {
    x + f * distance / k
  }

  /** `distance` metres from `c`; the bearing counts clockwise from north. */
  function Destination(m: Maths, r: Ruler, c: Coordinate, distance: real, bearing: real): Coordinate
    requires r.kx != 0.0 && r.ky != 0.0
  {
    var a := 90.0 - bearing;
    c.(longitude := Shift(c.longitude, m.cos(a), distance, r.kx),
       latitude := Shift(c.latitude, m.sin(a), distance, r.ky))
  }

  /** Whole milliseconds in a time difference, which is in microseconds; C++ division truncates. */
  function Milliseconds(d: int): int {
    if d >= 0 then d / 1000 else -(-d / 1000)
  }

  function Metres(d: int): real {
    Milliseconds(d) as real / 1000.0 * 2.0
  }

  datatype State = State(points: seq<Coordinate>, begin: nat, end: nat, ruler: Ruler, startTime: int,
                         bearing: real, length: real, data: Coordinate, time: int)

  /** Positioned at the start of segment `i`. */
  function Entering(m: Maths, s: State, i: nat, clock: int): State
    requires i + 1 < |s.points|
  {
    var p, q := s.points[i], s.points[i + 1];
    var r := m.scale(p.latitude);
    s.(begin := i, end := i + 1, ruler := r, startTime := clock,
       bearing := m.bearing(r, p, q), length := Distance(m, r, p, q), data := p)
  }

  predicate Leaves(m: Maths, s: State)
    requires s.begin < |s.points|
  {
    Distance(m, s.ruler, s.points[s.begin], s.data) > s.length
  }

  predicate Valid(s: State) {
    s.begin + 1 == s.end < |s.points| && s.ruler.kx != 0.0 && s.ruler.ky != 0.0
  }

  function Step(m: Maths, s: State, now: int, clock: int): (r: State)
    requires Sane(m) && Valid(s)
    ensures Valid(r) && r.points == s.points
  {
    var t := if !Leaves(m, s) then s else Entering(m, s, if s.end + 1 == |s.points| then 0 else s.end, clock);
    t.(data := Destination(m, t.ruler, t.data, Metres(now - s.time), t.bearing), time := now)
  }

  lemma ScaleNonzero(m: Maths, latitude: real)
    requires Sane(m)
    ensures m.scale(latitude).kx != 0.0 && m.scale(latitude).ky != 0.0
  {
  }

  function Initial(m: Maths, points: seq<Coordinate>, clock: int, laterClock: int): (r: State)
    requires Sane(m) && |points| >= 2
    ensures Valid(r) && r.points == points
  {
    var r := m.scale(points[0].latitude);
    State(points, 0, 1, r, clock, m.bearing(r, points[0], points[1]), Distance(m, r, points[0], points[1]),
          points[0], laterClock)
  }

  class TelemetrySimulator {
    const m: Maths
    var points: seq<Coordinate>
    var begin: nat
    var end: nat
    var ruler: Ruler
    var startTime: int
    var bearing: real
    var length: real
    var data: Coordinate
    var time: int

    function Now(): State
      reads this
    {
      State(points, begin, end, ruler, startTime, bearing, length, data, time)
    }

    constructor (m: Maths, polygon: Polygon, clock: int, laterClock: int)
      requires Sane(m) && |polygon.outerRing| >= 2
      ensures this.m == m && Now() == Initial(m, polygon.outerRing, clock, laterClock)
    {
      this.m := m;
      points, begin, end := polygon.outerRing, 0, 1;
      var r := m.scale(polygon.outerRing[0].latitude);
      ruler, startTime := r, clock;
      bearing := m.bearing(r, polygon.outerRing[0], polygon.outerRing[1]);
      length := Distance(m, r, polygon.outerRing[0], polygon.outerRing[1]);
      data, time := polygon.outerRing[0], laterClock;
    }

    /** The iterators of the copy point into its own ring, at the same distances. */
    constructor Copy(other: TelemetrySimulator)
      ensures m == other.m && Now() == other.Now()
    {
      m, points, begin, end := other.m, other.points, other.begin, other.end;
      ruler, startTime, bearing, length := other.ruler, other.startTime, other.bearing, other.length;
      data, time := other.data, other.time;
    }

    method Update(now: int, clock: int) returns (c: Coordinate)
      requires Sane(m) && Valid(Now())
      modifies this
      ensures Now() == Step(m, old(Now()), now, clock) && c == data
    {
      hide Distance, Destination, Metres, Sane;
      ScaleNonzero(m, points[0].latitude);
      ScaleNonzero(m, points[end].latitude);
      if Distance(m, ruler, points[begin], data) > length {
        begin := end;
        end := end + 1;
        if end == |points| {
          begin := 0;
          end := begin + 1;
        }
        ruler := m.scale(points[begin].latitude);
        length := Distance(m, ruler, points[begin], points[end]);
        bearing := m.bearing(ruler, points[begin], points[end]);
        startTime := clock;
        data := points[begin];
      }
      var dt := now - time;
      data := Destination(m, ruler, data, Metres(dt), bearing);
      time := now;
      c := data;
    }
  }

  // An odometer: which segment the walk is on, and how far along it.

  datatype Odometer = Odometer(entered: nat, travel: real)

  function Segment(points: seq<Coordinate>, entered: nat): (i: nat)
    requires |points| >= 2
    ensures i + 1 < |points|
  {
    entered % (|points| - 1)
  }

  function SegmentLength(m: Maths, points: seq<Coordinate>, i: nat): real
    requires i + 1 < |points|
  {
    Distance(m, m.scale(points[i].latitude), points[i], points[i + 1])
  }

  /** A walk leaves a segment at the first update that finds it past the end, and starts the next
      one, the first after the last but one point, from its beginning. */
  function Roll(m: Maths, points: seq<Coordinate>, o: Odometer, step: real): Odometer
    requires |points| >= 2
  {
    if o.travel > SegmentLength(m, points, Segment(points, o.entered))
    then Odometer(o.entered + 1, step) else Odometer(o.entered, o.travel + step)
  }

  /** The simulator is where the odometer says: on that segment, with its ruler, bearing and length,
      that many metres from its start. */
  ghost predicate Placed(m: Maths, s: State, o: Odometer)
    requires Sane(m)
  {
    && Valid(s) && s.begin == Segment(s.points, o.entered)
    && s.ruler == m.scale(s.points[s.begin].latitude)
    && s.bearing == m.bearing(s.ruler, s.points[s.begin], s.points[s.end])
    && s.length == SegmentLength(m, s.points, s.begin)
    && o.travel >= 0.0
    && s.data == Destination(m, s.ruler, s.points[s.begin], o.travel, s.bearing)
  }

  lemma MultipleIsFar(n: nat, k: int)
    ensures k >= 1 ==> n * k >= n
    ensures k <= -1 ==> n * k + n <= 0
  {
  }

  lemma DivisionUnique(n: nat, q: nat, r: nat)
    requires r < n
    ensures (n * q + r) % n == r
  {
    var x := n * q + r;
    assert n * (q - x / n) == x % n - r;
    MultipleIsFar(n, q - x / n);
  }

  lemma NextSegment(n: nat, entered: nat)
    requires n >= 1
    ensures (entered + 1) % n == if entered % n + 1 == n then 0 else entered % n + 1
  {
    var q := entered / n;
    var r := entered % n;
    assert entered == n * q + r;
    if r + 1 == n {
      assert entered + 1 == n * (q + 1) + 0;
      DivisionUnique(n, q + 1, 0);
    } else {
      DivisionUnique(n, q, r + 1);
    }
  }

  lemma SumOver(x: real, d: real, e: real, k: real)
    requires k != 0.0
    ensures x * d / k + x * e / k == x * (d + e) / k
  {
  }

  lemma ShiftAgain(x: real, f: real, d: real, e: real, k: real)
    requires k != 0.0
    ensures Shift(Shift(x, f, d, k), f, e, k) == Shift(x, f, d + e, k)
  {
    SumOver(f, d, e, k);
  }

  lemma DestinationAgain(m: Maths, r: Ruler, c: Coordinate, d: real, e: real, bearing: real)
    requires r.kx != 0.0 && r.ky != 0.0
    ensures Destination(m, r, Destination(m, r, c, d, bearing), e, bearing) == Destination(m, r, c, d + e, bearing)
  {
    hide Shift;
    ShiftAgain(c.longitude, m.cos(90.0 - bearing), d, e, r.kx);
    ShiftAgain(c.latitude, m.sin(90.0 - bearing), d, e, r.ky);
  }

  lemma ZeroProduct(a: real, b: real)
    requires a * b == 0.0
    ensures a == 0.0 || b == 0.0
  {
  }

  lemma SameSquare(a: real, b: real)
    requires a >= 0.0 && b >= 0.0 && a * a == b * b
    ensures a == b
  {
    assert (a - b) * (a + b) == a * a - b * b;
    ZeroProduct(a - b, a + b);
  }

  lemma ScaledBack(x: real, d: real, k: real)
    requires k != 0.0
    ensures x * d / k * k == x * d
  {
  }

  lemma SquaresAlong(x: real, y: real, d: real)
    requires x * x + y * y == 1.0
    ensures (x * d) * (x * d) + (y * d) * (y * d) == d * d
  {
    assert (x * d) * (x * d) + (y * d) * (y * d) == (x * x + y * y) * (d * d);
  }

  lemma NormIs(m: Maths, dx: real, dy: real, d: real)
    requires Sane(m) && d >= 0.0 && dx * dx + dy * dy == d * d
    ensures Norm(m, dx, dy) == d
  {
    var x := dx * dx + dy * dy;
    assert x >= 0.0;
    SameSquare(m.sqrt(x), d);
  }

  lemma Offsets(m: Maths, r: Ruler, c: Coordinate, d: real, bearing: real)
    requires r.kx != 0.0 && r.ky != 0.0
    ensures var q := Destination(m, r, c, d, bearing);
            East(r, c, q) == m.cos(90.0 - bearing) * d && North(r, c, q) == m.sin(90.0 - bearing) * d
  {
    var x, y := m.cos(90.0 - bearing), m.sin(90.0 - bearing);
    ScaledBack(x, d, r.kx);
    ScaledBack(y, d, r.ky);
    var q := Destination(m, r, c, d, bearing);
    assert q.longitude - c.longitude == x * d / r.kx && q.latitude - c.latitude == y * d / r.ky;
  }

  /** The destination is as far away as asked. */
  lemma DistanceOfDestination(m: Maths, r: Ruler, c: Coordinate, d: real, bearing: real)
    requires Sane(m) && r.kx != 0.0 && r.ky != 0.0 && d >= 0.0
    ensures Distance(m, r, c, Destination(m, r, c, d, bearing)) == d
  {
    hide Destination, Norm, East, North;
    var x, y := m.cos(90.0 - bearing), m.sin(90.0 - bearing);
    Offsets(m, r, c, d, bearing);
    SquaresAlong(x, y, d);
    var q := Destination(m, r, c, d, bearing);
    NormIs(m, East(r, c, q), North(r, c, q), d);
  }

  /** One update moves simulator and odometer together. */
  lemma StepRolls(m: Maths, s: State, o: Odometer, now: int, clock: int)
    requires Sane(m) && Placed(m, s, o) && now >= s.time
    ensures Placed(m, Step(m, s, now, clock), Roll(m, s.points, o, Metres(now - s.time)))
  {
    DistanceOfDestination(m, s.ruler, s.points[s.begin], o.travel, s.bearing);
    assert Leaves(m, s) <==> o.travel > s.length;
    NextSegment(|s.points| - 1, o.entered);
    var step := Metres(now - s.time);
    if Leaves(m, s) {
    } else {
      DestinationAgain(m, s.ruler, s.points[s.begin], o.travel, step, s.bearing);
    }
  }

  // Whole flights.

  /** The time of an update and what the clock reads during it. */
  datatype Tick = Tick(now: int, clock: int)

  function After(m: Maths, s: State, ticks: seq<Tick>): (r: State)
    requires Sane(m) && Valid(s)
    ensures Valid(r) && r.points == s.points
    decreases |ticks|
  {
    if ticks == [] then s
    else
      var t := ticks[|ticks| - 1];
      Step(m, After(m, s, ticks[..|ticks| - 1]), t.now, t.clock)
  }

  function LastTime(start: int, ticks: seq<Tick>): int {
    if ticks == [] then start else ticks[|ticks| - 1].now
  }

  /** Update times do not decrease. */
  predicate Forward(start: int, ticks: seq<Tick>)
    decreases |ticks|
  {
    ticks == [] ||
    (Forward(start, ticks[..|ticks| - 1]) && LastTime(start, ticks[..|ticks| - 1]) <= ticks[|ticks| - 1].now)
  }

  /** The odometer driven by nothing but the times of the updates. */
  function Rolled(m: Maths, points: seq<Coordinate>, start: int, ticks: seq<Tick>): Odometer
    requires |points| >= 2
    decreases |ticks|
  {
    if ticks == [] then Odometer(0, 0.0)
    else
      var before := ticks[..|ticks| - 1];
      Roll(m, points, Rolled(m, points, start, before), Metres(ticks[|ticks| - 1].now - LastTime(start, before)))
  }

  lemma DestinationNowhere(m: Maths, r: Ruler, c: Coordinate, bearing: real)
    requires r.kx != 0.0 && r.ky != 0.0
    ensures Destination(m, r, c, 0.0, bearing) == c
  {
  }

  lemma InitialPlaced(m: Maths, points: seq<Coordinate>, clock: int, laterClock: int)
    requires Sane(m) && |points| >= 2
    ensures Placed(m, Initial(m, points, clock, laterClock), Odometer(0, 0.0))
  {
    hide Destination, Norm;
    var s := Initial(m, points, clock, laterClock);
    ScaleNonzero(m, points[0].latitude);
    DestinationNowhere(m, s.ruler, points[0], s.bearing);
    assert 0 % (|points| - 1) == 0;
  }

  /** For every sequence of non-decreasing update times the simulator is where the odometer says. */
  lemma {:induction false} WalksRing(m: Maths, points: seq<Coordinate>, clock: int, laterClock: int, ticks: seq<Tick>)
    requires Sane(m) && |points| >= 2 && Forward(laterClock, ticks)
    ensures var s := After(m, Initial(m, points, clock, laterClock), ticks);
            && s.time == LastTime(laterClock, ticks)
            && Placed(m, s, Rolled(m, points, laterClock, ticks))
    decreases |ticks|
  {
    hide Placed, Roll, Sane;
    if ticks == [] {
      InitialPlaced(m, points, clock, laterClock);
    } else {
      var before := ticks[..|ticks| - 1];
      var t := ticks[|ticks| - 1];
      WalksRing(m, points, clock, laterClock, before);
      StepRolls(m, After(m, Initial(m, points, clock, laterClock), before),
                Rolled(m, points, laterClock, before), t.now, t.clock);
    }
  }

  /** What the clock read when the present segment was entered. */
  function EnteredAt(m: Maths, points: seq<Coordinate>, start: int, clock: int, ticks: seq<Tick>): int
    requires |points| >= 2
    decreases |ticks|
  {
    if ticks == [] then clock
    else
      var before := ticks[..|ticks| - 1];
      if Rolled(m, points, start, ticks).entered > Rolled(m, points, start, before).entered
      then ticks[|ticks| - 1].clock else EnteredAt(m, points, start, clock, before)
  }

  lemma StepEnters(m: Maths, s: State, o: Odometer, now: int, clock: int)
    requires Sane(m) && Placed(m, s, o)
    ensures Step(m, s, now, clock).startTime ==
              if Roll(m, s.points, o, Metres(now - s.time)).entered > o.entered then clock else s.startTime
  {
    hide Destination;
    assert s.data == Destination(m, s.ruler, s.points[s.begin], o.travel, s.bearing);
    DistanceOfDestination(m, s.ruler, s.points[s.begin], o.travel, s.bearing);
  }

  /** The start time of a segment is the clock's reading during the update that entered it. */
  lemma {:induction false} StartTimeIsEntry(m: Maths, points: seq<Coordinate>, clock: int, laterClock: int,
                                            ticks: seq<Tick>)
    requires Sane(m) && |points| >= 2 && Forward(laterClock, ticks)
    ensures After(m, Initial(m, points, clock, laterClock), ticks).startTime ==
              EnteredAt(m, points, laterClock, clock, ticks)
    decreases |ticks|
  {
    hide Placed, Roll, Sane, Step;
    if ticks != [] {
      var before, t := ticks[..|ticks| - 1], ticks[|ticks| - 1];
      StartTimeIsEntry(m, points, clock, laterClock, before);
      WalksRing(m, points, clock, laterClock, before);
      StepEnters(m, After(m, Initial(m, points, clock, laterClock), before),
                 Rolled(m, points, laterClock, before), t.now, t.clock);
    }
  }

  lemma DistanceNonnegative(m: Maths, r: Ruler, p: Coordinate, q: Coordinate)
    requires Sane(m)
    ensures Distance(m, r, p, q) >= 0.0
  {
    var x, y := East(r, p, q), North(r, p, q);
    assert x * x >= 0.0 && y * y >= 0.0;
  }

  /** The walk overshoots its segment by at most the last step, and goes through the segments in turn. */
  lemma OvershootBounded(m: Maths, points: seq<Coordinate>, start: int, ticks: seq<Tick>)
    requires Sane(m) && |points| >= 2 && ticks != []
    ensures var before := ticks[..|ticks| - 1];
            var o, p := Rolled(m, points, start, ticks), Rolled(m, points, start, before);
            var step := Metres(ticks[|ticks| - 1].now - LastTime(start, before));
            && o.travel <= SegmentLength(m, points, Segment(points, o.entered)) + step
            && (o == p.(travel := p.travel + step) || o == Odometer(p.entered + 1, step))
  {
    hide Distance, Metres;
    var i := Segment(points, Rolled(m, points, start, ticks).entered);
    DistanceNonnegative(m, m.scale(points[i].latitude), points[i], points[i + 1]);
  }

  // Credited time.

  /** Milliseconds credited over all updates. */
  function Credited(start: int, ticks: seq<Tick>): int
    decreases |ticks|
  {
    if ticks == [] then 0
    else
      var before := ticks[..|ticks| - 1];
      Credited(start, before) + Milliseconds(ticks[|ticks| - 1].now - LastTime(start, before))
  }

  /** Each update loses the fraction of a millisecond it is called after: less than one per update. */
  lemma {:induction false} CreditBounded(start: int, ticks: seq<Tick>)
    requires Forward(start, ticks)
    ensures var credited := Credited(start, ticks) * 1000;
            credited <= LastTime(start, ticks) - start <= credited + 999 * |ticks|
    decreases |ticks|
  {
    if ticks != [] { CreditBounded(start, ticks[..|ticks| - 1]); }
  }

  /** The speed: two metres for each second credited. */
  lemma TwoMetresPerSecond(d: int)
    ensures Metres(d) * 500.0 == Milliseconds(d) as real
    ensures d >= 0 ==> Milliseconds(d) * 1000 <= d < Milliseconds(d) * 1000 + 1000
    ensures Milliseconds(-d) == -Milliseconds(d)
  {
  }

  /** How far the walk got on the segments it has left, in all. */
  function Left(m: Maths, points: seq<Coordinate>, start: int, ticks: seq<Tick>): real
    requires |points| >= 2
    decreases |ticks|
  {
    if ticks == [] then 0.0
    else
      var before := ticks[..|ticks| - 1];
      var o := Rolled(m, points, start, before);
      Left(m, points, start, before) + if Rolled(m, points, start, ticks).entered > o.entered then o.travel else 0.0
  }

  /** Over all segments, those left and the present one, the walk covers two metres for each second
      credited, and no other distance. */
  lemma {:induction false} TravelIsCredited(m: Maths, points: seq<Coordinate>, start: int, ticks: seq<Tick>)
    requires |points| >= 2
    ensures (Left(m, points, start, ticks) + Rolled(m, points, start, ticks).travel) * 500.0 ==
              Credited(start, ticks) as real
    decreases |ticks|
  {
    if ticks != [] {
      hide Metres, Milliseconds, SegmentLength, Segment;
      var before := ticks[..|ticks| - 1];
      TravelIsCredited(m, points, start, before);
      TwoMetresPerSecond(ticks[|ticks| - 1].now - LastTime(start, before));
    }
  }

  lemma NoMetres(d: int)
    requires 0 <= d < 1000
    ensures Metres(d) == 0.0
  {
    assert Milliseconds(d) == 0;
  }

  lemma RollNowhere(m: Maths, points: seq<Coordinate>)
    requires Sane(m) && |points| >= 2
    ensures Roll(m, points, Odometer(0, 0.0), 0.0) == Odometer(0, 0.0)
  {
    hide Distance;
    assert 0 % (|points| - 1) == 0;
    DistanceNonnegative(m, m.scale(points[0].latitude), points[0], points[1]);
  }

  /** Called more often than once a millisecond, the simulator stands still, however long it runs. */
  lemma {:induction false} FastUpdatesStandStill(m: Maths, points: seq<Coordinate>, start: int, ticks: seq<Tick>)
    requires Sane(m) && |points| >= 2 && Forward(start, ticks)
    requires forall k | 0 <= k < |ticks| :: ticks[k].now - LastTime(start, ticks[..k]) < 1000
    ensures Rolled(m, points, start, ticks) == Odometer(0, 0.0)
    decreases |ticks|
  {
    hide Roll, Metres, Sane;
    if ticks != [] {
      var before := ticks[..|ticks| - 1];
      forall k | 0 <= k < |before| ensures before[k].now - LastTime(start, before[..k]) < 1000 {
        assert before[..k] == ticks[..k];
      }
      FastUpdatesStandStill(m, points, start, before);
      NoMetres(ticks[|before|].now - LastTime(start, before));
      RollNowhere(m, points);
    }
  }
}
