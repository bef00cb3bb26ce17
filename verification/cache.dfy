/** The bounded, time-indexed history of one variable (cache.go): a sequence
    of points, oldest first, that expire after a duration, and the window
    queries the expression engine evaluates over it. Instants and durations
    are integers in nanoseconds; a time window is given as its parsed
    duration, `None` standing for a window string that does not parse. */
module TimeSeries {
  import opened Wrappers
  import opened GoInts

  /** A value of the cache's element type T, one of float64, bool, string
      and []byte. */
  datatype Value =
    | FloatVal(f: real)
    | BoolVal(b: bool)
    | StringVal(s: seq<u8>)
    | BytesVal(bs: seq<u8>)

  /** The type argument T a cache is instantiated with. */
  datatype Kind = FloatKind | BoolKind | StringKind | BytesKind

  function KindOf(v: Value): Kind {
    match v
    case FloatVal(_) => FloatKind
    case BoolVal(_) => BoolKind
    case StringVal(_) => StringKind
    case BytesVal(_) => BytesKind
  }

  /** Go's zero value of T (a nil []byte has no bytes). */
  function ZeroValue(k: Kind): (z: Value)
    ensures KindOf(z) == k
  {
    match k
    case FloatKind => FloatVal(0.0)
    case BoolKind => BoolVal(false)
    case StringKind => StringVal([])
    case BytesKind => BytesVal([])
  }

  /** A sample; a nil timestamp is `None`. */
  datatype Point = Point(value: Value, timestamp: Option<int>)

  datatype CacheError =
    | NotFloat             // "value is not a float64 type"
    | NotBool              // "value is not a bool type"
    | NotBytes             // "value is not a []byte type"
    | FromZero             // "cannot calculate percentage change from zero"
    | InvalidWindow        // "invalid time window format"
    | NoBaseline           // "no data point found before the specified time window"
    | IndexOutOfRange      // Bit
    | ByteIndexOutOfRange  // ByteBit
    | BitIndexOutOfRange   // ByteBit

  predicate AllOfKind(ps: seq<Point>, k: Kind) {
    forall i :: 0 <= i < |ps| ==> KindOf(ps[i].value) == k
  }

  /** No two points carry the same instant. */
  predicate DistinctStamps(ps: seq<Point>) {
    forall i, j :: 0 <= i < j < |ps| && ps[i].timestamp.Some? ==> ps[i].timestamp != ps[j].timestamp
  }

  // ----- time windows -----

  /** The point is strictly after the cutoff (`Timestamp.After`). */
  predicate After(p: Point, cutoff: int) {
    p.timestamp.Some? && p.timestamp.value > cutoff
  }

  /** The points strictly after the cutoff, in their order. */
  function PointsAfter(ps: seq<Point>, cutoff: int): (r: seq<Point>)
    ensures |r| <= |ps|
    ensures forall p :: p in r <==> p in ps && After(p, cutoff)
  {
    if ps == [] then []
    else
      var last := ps[|ps| - 1];
      PointsAfter(ps[..|ps| - 1], cutoff) + if After(last, cutoff) then [last] else []
  }

  lemma {:induction false} PointsAfterAppend(a: seq<Point>, b: seq<Point>, cutoff: int)
    ensures PointsAfter(a + b, cutoff) == PointsAfter(a, cutoff) + PointsAfter(b, cutoff)
    decreases |b|
  {
    if b != [] {
      var b' := b[..|b| - 1];
      assert (a + b)[..|a + b| - 1] == a + b';
      PointsAfterAppend(a, b', cutoff);
    } else {
      assert a + b == a;
    }
  }

  /** The points a window query sees: all of them when the window does not
      parse, else those strictly after `now - d`. */
  function Window(ps: seq<Point>, window: Option<int>, now: int): seq<Point> {
    match window
    case None => ps
    case Some(d) => PointsAfter(ps, now - d)
  }

  // ----- specifications of the window aggregates -----

  /** Adjacent pairs of points whose values differ. */
  function Changes(ps: seq<Point>): (n: nat)
    ensures n <= if |ps| == 0 then 0 else |ps| - 1
  {
    if |ps| <= 1 then 0
    else Changes(ps[..|ps| - 1]) + if ps[|ps| - 1].value != ps[|ps| - 2].value then 1 else 0
  }

  /** The number of runs of equal adjacent values: the first point counts,
      and so does every point whose value differs from its predecessor's. */
  function Runs(ps: seq<Point>): nat {
    if |ps| <= 1 then |ps| else 1 + Changes(ps)
  }

  function Values(ps: seq<Point>): set<Value> {
    set p | p in ps :: p.value
  }

  /** Runs never undercount the distinct values: a run holds one value. */
  lemma {:induction false} RunsBoundDistinctValues(ps: seq<Point>)
    ensures |Values(ps)| <= Runs(ps)
    decreases |ps|
  {
    if |ps| == 1 {
      assert Values(ps) == {ps[0].value};
    } else if |ps| > 1 {
      var front := ps[..|ps| - 1];
      var last := ps[|ps| - 1];
      RunsBoundDistinctValues(front);
      assert Values(ps) == Values(front) + {last.value} by {
        assert forall p :: p in ps <==> p in front || p == last by {
          assert ps == front + [last];
        }
      }
      if last.value == ps[|ps| - 2].value {
        assert ps[|ps| - 2] in front;
        assert Values(ps) == Values(front);
      } else {
        assert |Values(front) + {last.value}| <= |Values(front)| + 1;
      }
    }
  }

  /** A run of one repeated value counts once. */
  lemma {:induction false} RunsOfConstant(ps: seq<Point>, v: Value)
    requires |ps| > 0
    requires forall i :: 0 <= i < |ps| ==> ps[i].value == v
    ensures Runs(ps) == 1
    decreases |ps|
  {
    if |ps| > 1 {
      RunsOfConstant(ps[..|ps| - 1], v);
    }
  }

  function Sample(f: real): Point {
    Point(FloatVal(f), None)
  }

  /** Values 1, 1, 2, 2, 2, 3 make three runs. */
  lemma RunsExample()
    ensures Runs([Sample(1.0), Sample(1.0), Sample(2.0), Sample(2.0), Sample(2.0), Sample(3.0)]) == 3
  {
    var one, two, three := Sample(1.0), Sample(2.0), Sample(3.0);
    assert Changes([one, one]) == 0;
    assert [one, one, two][..2] == [one, one];
    assert Changes([one, one, two]) == 1;
    assert [one, one, two, two][..3] == [one, one, two];
    assert Changes([one, one, two, two]) == 1;
    assert [one, one, two, two, two][..4] == [one, one, two, two];
    assert Changes([one, one, two, two, two]) == 1;
    assert [one, one, two, two, two, three][..5] == [one, one, two, two, two];
  }

  /** False-to-true transitions between adjacent points. */
  function Rises(ps: seq<Point>): nat {
    if |ps| <= 1 then 0
    else
      Rises(ps[..|ps| - 1])
      + if ps[|ps| - 2].value == BoolVal(false) && ps[|ps| - 1].value == BoolVal(true) then 1 else 0
  }

  /** True-to-false transitions between adjacent points. */
  function Falls(ps: seq<Point>): nat {
    if |ps| <= 1 then 0
    else
      Falls(ps[..|ps| - 1])
      + if ps[|ps| - 2].value == BoolVal(true) && ps[|ps| - 1].value == BoolVal(false) then 1 else 0
  }

  function Indicator(v: Value): int {
    if v == BoolVal(true) then 1 else 0
  }

  /** Over a bool history, rises and falls alternate: their difference is
      fixed by the first and the last value. */
  lemma {:induction false} RisesMinusFalls(ps: seq<Point>)
    requires |ps| > 0 && AllOfKind(ps, BoolKind)
    ensures Rises(ps) - Falls(ps) == Indicator(ps[|ps| - 1].value) - Indicator(ps[0].value)
    decreases |ps|
  {
    if |ps| > 1 {
      RisesMinusFalls(ps[..|ps| - 1]);
    }
  }

  function Flag(b: bool): Point {
    Point(BoolVal(b), None)
  }

  /** false, true, false, true, true: two rises, one fall. */
  lemma EdgesExample()
    ensures var ps := [Flag(false), Flag(true), Flag(false), Flag(true), Flag(true)];
      Rises(ps) == 2 && Falls(ps) == 1
  {
    var f, t := Flag(false), Flag(true);
    assert Rises([f, t]) == 1 && Falls([f, t]) == 0;
    assert [f, t, f][..2] == [f, t];
    assert Rises([f, t, f]) == 1 && Falls([f, t, f]) == 1;
    assert [f, t, f, t][..3] == [f, t, f];
    assert Rises([f, t, f, t]) == 2 && Falls([f, t, f, t]) == 1;
    assert [f, t, f, t, t][..4] == [f, t, f, t];
  }

  /** Sum of the float values. */
  function Sum(ps: seq<Point>): real {
    if ps == [] then 0.0
    else Sum(ps[..|ps| - 1]) + match ps[|ps| - 1].value case FloatVal(f) => f case _ => 0.0
  }

  /** The moving average over a window's points: zero for no points, an
      error if one is not a float. */
  function Mean(ps: seq<Point>): Result<real, CacheError> {
    if ps == [] then Ok(0.0)
    else if !AllOfKind(ps, FloatKind) then Err(NotFloat)
    else Ok(Sum(ps) / |ps| as real)
  }

  lemma {:induction false} SumBounds(ps: seq<Point>, lo: real, hi: real)
    requires AllOfKind(ps, FloatKind)
    requires forall i :: 0 <= i < |ps| ==> lo <= ps[i].value.f <= hi
    ensures |ps| as real * lo <= Sum(ps) <= |ps| as real * hi
    decreases |ps|
  {
    if ps != [] {
      SumBounds(ps[..|ps| - 1], lo, hi);
    }
  }

  /** The average lies between the smallest and the largest value. */
  lemma MeanBounds(ps: seq<Point>, lo: real, hi: real)
    requires |ps| > 0 && AllOfKind(ps, FloatKind)
    requires forall i :: 0 <= i < |ps| ==> lo <= ps[i].value.f <= hi
    ensures Mean(ps).Ok? && lo <= Mean(ps).value <= hi
  {
    SumBounds(ps, lo, hi);
    var n := |ps| as real;
    assert Sum(ps) / n * n == Sum(ps);
  }

  /** The average of a constant series is that constant. */
  lemma MeanOfConstant(ps: seq<Point>, c: real)
    requires |ps| > 0
    requires forall i :: 0 <= i < |ps| ==> ps[i].value == FloatVal(c)
    ensures Mean(ps) == Ok(c)
  {
    MeanBounds(ps, c, c);
  }

  /** `Timestamp.Before(target)`. */
  predicate Before(p: Point, target: int) {
    p.timestamp.Some? && p.timestamp.value < target
  }

  /** The newest point strictly before the target instant. */
  function LastBefore(ps: seq<Point>, target: int): (i: Option<nat>)
    ensures i.Some? ==> i.value < |ps| && Before(ps[i.value], target)
    ensures i.Some? ==> forall j :: i.value < j < |ps| ==> !Before(ps[j], target)
    ensures i.None? ==> forall j :: 0 <= j < |ps| ==> !Before(ps[j], target)
  {
    if ps == [] then None
    else if Before(ps[|ps| - 1], target) then Some(|ps| - 1)
    else LastBefore(ps[..|ps| - 1], target)
  }

  /** The change from a base value in percent: zero from zero to zero, an
      error from zero to anything else. */
  function Pct(base: real, current: real): (r: Result<real, CacheError>)
    ensures r.Err? <==> base == 0.0 && current != 0.0
    ensures r.Ok? ==> current == base + base * r.value / 100.0
    ensures base == 0.0 && current == 0.0 ==> r == Ok(0.0)
  {
    if base == 0.0 then (if current == 0.0 then Ok(0.0) else Err(FromZero))
    else Ok((current - base) / base * 100.0)
  }

  /** The newest value and the base value against which a *Since query
      compares it, or the error the query reports. */
  function SinceOperands(ps: seq<Point>, window: Option<int>, now: int)
    : (r: Result<(real, real), CacheError>)
    requires ps != []
    ensures r.Ok? ==> ps[|ps| - 1].value == FloatVal(r.value.0)
    ensures r.Ok? ==>
      window.Some? && LastBefore(ps, now - window.value).Some? &&
      ps[LastBefore(ps, now - window.value).value].value == FloatVal(r.value.1)
    ensures window.Some? && ps[|ps| - 1].value.FloatVal? && LastBefore(ps, now - window.value).None?
      ==> r == Err(NoBaseline)
    ensures !ps[|ps| - 1].value.FloatVal? ==> r == Err(NotFloat)
    ensures window.None? && ps[|ps| - 1].value.FloatVal? ==> r == Err(InvalidWindow)
    ensures window.Some? && ps[|ps| - 1].value.FloatVal? && LastBefore(ps, now - window.value).Some? ==>
      var base := ps[LastBefore(ps, now - window.value).value].value;
      r == if base.FloatVal? then Ok((ps[|ps| - 1].value.f, base.f)) else Err(NotFloat)
  {
    match ps[|ps| - 1].value
    case FloatVal(current) =>
      (match window
       case None => Err(InvalidWindow)
       case Some(d) =>
         match LastBefore(ps, now - d)
         case None => Err(NoBaseline)
         case Some(i) =>
           match ps[i].value
           case FloatVal(base) => Ok((current, base))
           case _ => Err(NotFloat))
    case _ => Err(NotFloat)
  }

  /** The value of DiffSince on a history. */
  function DiffSinceOf(ps: seq<Point>, window: Option<int>, now: int): (r: Result<real, CacheError>) {
    if ps == [] then Ok(0.0)
    else
      match SinceOperands(ps, window, now)
      case Ok((current, base)) => Ok(current - base)
      case Err(e) => Err(e)
  }

  /** The value of PctChangeSince on a history. */
  function PctChangeSinceOf(ps: seq<Point>, window: Option<int>, now: int): (r: Result<real, CacheError>) {
    if ps == [] then Ok(0.0)
    else
      match SinceOperands(ps, window, now)
      case Ok((current, base)) => Pct(base, current)
      case Err(e) => Err(e)
  }

  // ----- specification of AddPoint -----

  /** The first point stamped with instant t. */
  function FirstStamped(ps: seq<Point>, t: int): (i: Option<nat>)
    ensures i.Some? ==> i.value < |ps| && ps[i.value].timestamp == Some(t)
    ensures i.Some? ==> forall j :: 0 <= j < i.value ==> ps[j].timestamp != Some(t)
    ensures i.None? ==> forall j :: 0 <= j < |ps| ==> ps[j].timestamp != Some(t)
  {
    if ps == [] then None
    else
      match FirstStamped(ps[..|ps| - 1], t)
      case Some(i) => Some(i)
      case None => if ps[|ps| - 1].timestamp == Some(t) then Some(|ps| - 1) else None
  }

  /** Recording v at t: overwrite the value of the point already stamped t,
      or append a new point. */
  function Upsert(ps: seq<Point>, v: Value, t: int): seq<Point> {
    match FirstStamped(ps, t)
    case Some(i) => ps[i := Point(v, ps[i].timestamp)]
    case None => ps + [Point(v, Some(t))]
  }

  /** The point has a timestamp no older than the expiry duration. */
  predicate Live(p: Point, now: int, expire: int) {
    p.timestamp.Some? && now - p.timestamp.value <= expire
  }

  function LivePoints(ps: seq<Point>, now: int, expire: int): (r: seq<Point>)
    ensures |r| <= |ps|
    ensures forall p :: p in r <==> p in ps && Live(p, now, expire)
  {
    if ps == [] then []
    else
      var last := ps[|ps| - 1];
      LivePoints(ps[..|ps| - 1], now, expire) + if Live(last, now, expire) then [last] else []
  }

  /** Eviction: a positive expiry duration keeps only the live points, in
      order; a zero or negative one keeps everything. */
  function Evict(ps: seq<Point>, now: int, expire: int): seq<Point> {
    if expire <= 0 then ps else LivePoints(ps, now, expire)
  }

  /** A timestamp already present is overwritten in place: same length,
      same timestamps, only that point's value changes. */
  lemma UpsertExisting(ps: seq<Point>, v: Value, t: int, i: nat)
    requires i < |ps| && ps[i].timestamp == Some(t) && DistinctStamps(ps)
    ensures var r := Upsert(ps, v, t);
      |r| == |ps| && r[i] == Point(v, Some(t))
      && forall j :: 0 <= j < |ps| && j != i ==> r[j] == ps[j]
  {
  }

  /** A new timestamp is appended as the newest point. */
  lemma UpsertNew(ps: seq<Point>, v: Value, t: int)
    requires forall j :: 0 <= j < |ps| ==> ps[j].timestamp != Some(t)
    ensures Upsert(ps, v, t) == ps + [Point(v, Some(t))]
  {
  }

  lemma UpsertKeepsValid(ps: seq<Point>, v: Value, t: int, k: Kind)
    requires AllOfKind(ps, k) && DistinctStamps(ps) && KindOf(v) == k
    ensures AllOfKind(Upsert(ps, v, t), k) && DistinctStamps(Upsert(ps, v, t))
  {
  }

  lemma {:induction false} LivePointsKeepsValid(ps: seq<Point>, now: int, expire: int, k: Kind)
    requires AllOfKind(ps, k) && DistinctStamps(ps)
    ensures AllOfKind(LivePoints(ps, now, expire), k) && DistinctStamps(LivePoints(ps, now, expire))
    decreases |ps|
  {
    if ps != [] {
      var front := ps[..|ps| - 1];
      var last := ps[|ps| - 1];
      LivePointsKeepsValid(front, now, expire, k);
      var r := LivePoints(ps, now, expire);
      var rf := LivePoints(front, now, expire);
      if Live(last, now, expire) {
        assert r == rf + [last];
        forall i | 0 <= i < |rf| && rf[i].timestamp.Some?
          ensures rf[i].timestamp != last.timestamp
        {
          assert rf[i] in front;
          var j :| 0 <= j < |front| && front[j] == rf[i];
          assert ps[j] == rf[i];
        }
      }
    }
  }

  /** Eviction never brings back a point, and applying it twice is
      applying it once. */
  lemma {:induction false} EvictIdempotent(ps: seq<Point>, now: int, expire: int)
    ensures Evict(Evict(ps, now, expire), now, expire) == Evict(ps, now, expire)
  {
    if expire > 0 {
      LivePointsAllLive(LivePoints(ps, now, expire), now, expire);
    }
  }

  lemma {:induction false} LivePointsAllLive(ps: seq<Point>, now: int, expire: int)
    requires forall p :: p in ps ==> Live(p, now, expire)
    ensures LivePoints(ps, now, expire) == ps
    decreases |ps|
  {
    if ps != [] {
      var n := |ps| - 1;
      assert ps == ps[..n] + [ps[n]];
      assert forall p :: p in ps[..n] ==> p in ps;
      LivePointsAllLive(ps[..n], now, expire);
      assert Live(ps[n], now, expire);
    }
  }

  /** A time-series cache of one element type. */
  class Cache {
    /** Points, oldest first. */
    var points: seq<Point>
    /** ExpireDuration: points older than this are evicted; zero or
        negative disables eviction. */
    const expire: int
    /** The element type T. */
    const kind: Kind

    /** Every point has the element type, and no two points share an
        instant. */
    ghost predicate Valid()
      reads this
    {
      AllOfKind(points, kind) && DistinctStamps(points)
    }

    /** NewCache. */
    constructor (kind: Kind, expire: int)
      ensures this.kind == kind && this.expire == expire && points == []
      ensures Valid()
    {
      this.kind := kind;
      this.expire := expire;
      points := [];
    }

    /** The newest value, or the zero value of T when empty. */
    function Value(): (v: Value)
      reads this
      ensures AllOfKind(points, kind) ==> KindOf(v) == kind
      ensures points == [] ==> v == ZeroValue(kind)
      ensures points != [] ==> v == points[|points| - 1].value
    {
      if points == [] then ZeroValue(kind) else points[|points| - 1].value
    }

    /** The timestamp of the newest point. */
    function Timestamp(): (t: Option<int>)
      reads this
      ensures points == [] ==> t.None?
      ensures t.Some? ==> exists i :: 0 <= i < |points| && points[i].timestamp == t
      ensures points != [] ==> t == Newest().value.timestamp
    {
      if points == [] then None else points[|points| - 1].timestamp
    }

    /** A copy of the newest point. */
    function Newest(): (p: Option<Point>)
      reads this
      ensures p.Some? <==> points != []
      ensures p.Some? ==> p.value in points && p.value == points[|points| - 1]
    {
      if points == [] then None else Some(points[|points| - 1])
    }

    function Len(): (n: nat)
      reads this
      ensures n == 0 <==> points == []
    {
      |points|
    }

    /** The newest and the previous value, when both are floats. */
    function LastTwo(): Result<(real, real), CacheError>
      reads this
      requires |points| >= 2
    {
      match (points[|points| - 1].value, points[|points| - 2].value)
      case (FloatVal(current), FloatVal(previous)) => Ok((current, previous))
      case _ => Err(NotFloat)
    }

    /** Newest minus previous value. */
    function Diff(): (r: Result<real, CacheError>)
      reads this
      ensures |points| < 2 ==> r == Ok(0.0)
      ensures |points| >= 2 ==>
        (r.Ok? <==> points[|points| - 1].value.FloatVal? && points[|points| - 2].value.FloatVal?)
      ensures |points| >= 2 && r.Ok? ==>
        points[|points| - 2].value.f + r.value == points[|points| - 1].value.f
    {
      if |points| < 2 then Ok(0.0)
      else
        match LastTwo()
        case Ok((current, previous)) => Ok(current - previous)
        case Err(e) => Err(e)
    }

    /** Percentage change from the previous to the newest value. */
    function PctChange(): (r: Result<real, CacheError>)
      reads this
      ensures |points| < 2 ==> r == Ok(0.0)
      ensures |points| >= 2 && r.Ok? ==>
        points[|points| - 1].value.FloatVal? && points[|points| - 2].value.FloatVal? &&
        var previous := points[|points| - 2].value.f;
        points[|points| - 1].value.f == previous + previous * r.value / 100.0
      ensures |points| >= 2 && points[|points| - 1].value.FloatVal? && points[|points| - 2].value.FloatVal? &&
        points[|points| - 2].value.f != 0.0
        ==> r.Ok?
      ensures |points| >= 2 && points[|points| - 2].value == FloatVal(0.0) ==>
        r == if points[|points| - 1].value == FloatVal(0.0) then Ok(0.0)
             else if points[|points| - 1].value.FloatVal? then Err(FromZero) else Err(NotFloat)
    {
      if |points| < 2 then Ok(0.0)
      else
        match LastTwo()
        case Ok((current, previous)) => Pct(previous, current)
        case Err(e) => Err(e)
    }

    /** |Diff()| > threshold, errors passed through. */
    function DiffExceeds(threshold: real): (r: Result<bool, CacheError>)
      reads this
      ensures r.Err? <==> Diff().Err?
      ensures r.Ok? ==> (r.value <==> Diff().value > threshold || -Diff().value > threshold)
    {
      match Diff()
      case Ok(d) => Ok(if d >= 0.0 then d > threshold else -d > threshold)
      case Err(e) => Err(e)
    }

    /** |PctChange()| > threshold, errors passed through. */
    function PctChangeExceeds(threshold: real): (r: Result<bool, CacheError>)
      reads this
      ensures r.Err? <==> PctChange().Err?
      ensures r.Ok? ==> (r.value <==> PctChange().value > threshold || -PctChange().value > threshold)
    {
      match PctChange()
      case Ok(p) => Ok(if p >= 0.0 then p > threshold else -p > threshold)
      case Err(e) => Err(e)
    }

    /** The newest two values differ. */
    function Changed(): (c: bool)
      reads this
      ensures c ==> |points| >= 2 && Runs(points[|points| - 2..]) == 2
      ensures !c ==> |points| < 2 || Runs(points[|points| - 2..]) == 1
    {
      |points| >= 2 && points[|points| - 1].value != points[|points| - 2].value
    }

    /** A rising edge: the newest value is true and the previous one false.
        Every other outcome over two or more points is an error, even two
        equal bools. */
    function Rising(): (r: Result<bool, CacheError>)
      reads this
      ensures r == Ok(true) <==>
        |points| >= 2 && points[|points| - 1].value == BoolVal(true) && points[|points| - 2].value == BoolVal(false)
      ensures r == Ok(false) <==> |points| < 2
      ensures r.Err? ==> r.error == NotBool
      ensures |points| >= 2 ==> r == Ok(Rises(points[|points| - 2..]) == 1) || r.Err?
    {
      if |points| < 2 then Ok(false)
      else if points[|points| - 1].value == BoolVal(true) && points[|points| - 2].value == BoolVal(false)
      then Ok(true)
      else Err(NotBool)
    }

    /** A falling edge: the newest value is false and the previous one
        true; every other outcome over two or more points is an error. */
    function Falling(): (r: Result<bool, CacheError>)
      reads this
      ensures r == Ok(true) <==>
        |points| >= 2 && points[|points| - 1].value == BoolVal(false) && points[|points| - 2].value == BoolVal(true)
      ensures r == Ok(false) <==> |points| < 2
      ensures r.Err? ==> r.error == NotBool
      ensures |points| >= 2 ==> r == Ok(Falls(points[|points| - 2..]) == 1) || r.Err?
    {
      if |points| < 2 then Ok(false)
      else if points[|points| - 1].value == BoolVal(false) && points[|points| - 2].value == BoolVal(true)
      then Ok(true)
      else Err(NotBool)
    }

    /** Bit `index` of the newest []byte value read as one bit array, byte
        0 first, bit 0 the least significant. */
    function Bit(index: int): (r: Result<bool, CacheError>)
      reads this
      ensures points == [] ==> r == Ok(false)
      ensures points != [] && !points[|points| - 1].value.BytesVal? ==> r == Err(NotBytes)
      ensures points != [] && points[|points| - 1].value.BytesVal? ==>
        var bs := points[|points| - 1].value.bs;
        (r.Err? <==> index < 0 || index >= 8 * |bs|)
        && (r.Err? ==> r.error == IndexOutOfRange)
        && (r.Ok? ==> r.value == BitSet(bs[index / 8], index % 8))
    {
      if points == [] then Ok(false)
      else
        match points[|points| - 1].value
        case BytesVal(bs) =>
          if 0 <= index < |bs| * 8 then Ok(BitSet(bs[index / 8], index % 8)) else Err(IndexOutOfRange)
        case _ => Err(NotBytes)
    }

    /** Bit i (0 to 7) of byte n of the newest []byte value. */
    function ByteBit(n: int, i: int): (r: Result<bool, CacheError>)
      reads this
      ensures points == [] ==> r == Ok(false)
      ensures points != [] && !points[|points| - 1].value.BytesVal? ==> r == Err(NotBytes)
      ensures points != [] && points[|points| - 1].value.BytesVal? ==>
        var bs := points[|points| - 1].value.bs;
        (r == Err(ByteIndexOutOfRange) <==> n < 0 || n >= |bs|)
        && (r == Err(BitIndexOutOfRange) <==> 0 <= n < |bs| && (i < 0 || i > 7))
        && (r.Ok? ==> 0 <= n < |bs| && 0 <= i < 8 && r.value == BitSet(bs[n], i))
    {
      if points == [] then Ok(false)
      else
        match points[|points| - 1].value
        case BytesVal(bs) =>
          if n < 0 || n >= |bs| then Err(ByteIndexOutOfRange)
          else if i < 0 || i > 7 then Err(BitIndexOutOfRange)
          else Ok(BitSet(bs[n], i))
        case _ => Err(NotBytes)
    }

    /** getPointsInWindow: a copy of the points the window selects. */
    method PointsInWindow(window: Option<int>, now: int) returns (ps: seq<Point>)
      ensures ps == Window(points, window, now)
      ensures forall p :: p in ps <==> p in points && (window.None? || After(p, now - window.value))
    {
      if window.None? {
        return points;
      }
      var cutoff := now - window.value;
      ps := [];
      var i := 0;
      while i < |points|
        invariant 0 <= i <= |points|
        invariant ps == PointsAfter(points[..i], cutoff)
      {
        assert points[..i + 1][..i] == points[..i];
        if After(points[i], cutoff) {
          ps := ps + [points[i]];
        }
        i := i + 1;
      }
      assert points[..i] == points;
    }

    /** The number of value changes in the window, the first point
        included. */
    method Count(window: Option<int>, now: int) returns (n: nat)
      ensures n == Runs(Window(points, window, now))
      ensures n <= |Window(points, window, now)|
      ensures |Values(Window(points, window, now))| <= n
    {
      var ps := PointsInWindow(window, now);
      RunsBoundDistinctValues(ps);
      if |ps| <= 1 {
        return |ps|;
      }
      n := 1;
      var i := 1;
      while i < |ps|
        invariant 1 <= i <= |ps|
        invariant n == 1 + Changes(ps[..i])
      {
        assert ps[..i + 1][..i] == ps[..i];
        var same := IsValueEqual(ps[i].value, ps[i - 1].value);
        if !same {
          n := n + 1;
        }
        i := i + 1;
      }
      assert ps[..i] == ps;
    }

    /** The moving average of the window's values. */
    method MA(window: Option<int>, now: int) returns (r: Result<real, CacheError>)
      ensures r == Mean(Window(points, window, now))
    {
      var ps := PointsInWindow(window, now);
      if |ps| == 0 {
        return Ok(0.0);
      }
      var sum := 0.0;
      var i := 0;
      while i < |ps|
        invariant 0 <= i <= |ps|
        invariant AllOfKind(ps[..i], FloatKind)
        invariant sum == Sum(ps[..i])
      {
        assert ps[..i + 1][..i] == ps[..i];
        match ps[i].value {
          case FloatVal(f) =>
            sum := sum + f;
          case _ =>
            return Err(NotFloat);
        }
        i := i + 1;
      }
      assert ps[..i] == ps;
      r := Ok(sum / |ps| as real);
    }

    /** Rising count: false-to-true transitions in the window; an error if
        the window holds two or more points and one is not a bool. */
    method RC(window: Option<int>, now: int) returns (r: Result<nat, CacheError>)
      ensures var ps := Window(points, window, now);
        r == if |ps| < 2 then Ok(0) else if AllOfKind(ps, BoolKind) then Ok(Rises(ps)) else Err(NotBool)
    {
      r := Edges(window, now, true);
    }

    /** Falling count: true-to-false transitions in the window. */
    method FC(window: Option<int>, now: int) returns (r: Result<nat, CacheError>)
      ensures var ps := Window(points, window, now);
        r == if |ps| < 2 then Ok(0) else if AllOfKind(ps, BoolKind) then Ok(Falls(ps)) else Err(NotBool)
    {
      r := Edges(window, now, false);
    }

    /** The counting loop RC and FC share; `rising` picks the edge. */
    method Edges(window: Option<int>, now: int, rising: bool) returns (r: Result<nat, CacheError>)
      ensures var ps := Window(points, window, now);
        r == if |ps| < 2 then Ok(0)
             else if AllOfKind(ps, BoolKind) then Ok(if rising then Rises(ps) else Falls(ps))
             else Err(NotBool)
    {
      var ps := PointsInWindow(window, now);
      if |ps| < 2 {
        return Ok(0);
      }
      if !ps[0].value.BoolVal? {
        return Err(NotBool);
      }
      var count := 0;
      var i := 1;
      while i < |ps|
        invariant 1 <= i <= |ps|
        invariant AllOfKind(ps[..i], BoolKind)
        invariant count == if rising then Rises(ps[..i]) else Falls(ps[..i])
      {
        assert ps[..i + 1][..i] == ps[..i];
        if !ps[i - 1].value.BoolVal? || !ps[i].value.BoolVal? {
          return Err(NotBool);
        }
        var prev, curr := ps[i - 1].value.b, ps[i].value.b;
        if rising && !prev && curr {
          count := count + 1;
        } else if !rising && prev && !curr {
          count := count + 1;
        }
        i := i + 1;
      }
      assert ps[..i] == ps;
      r := Ok(count);
    }

    /** The scan from the newest point back for the first one strictly
        before the target instant. */
    method FindBaseline(target: int) returns (i: Option<nat>)
      ensures i == LastBefore(points, target)
    {
      var k := |points|;
      while k > 0
        invariant 0 <= k <= |points|
        invariant LastBefore(points, target) == LastBefore(points[..k], target)
      {
        assert points[..k - 1] == points[..k][..k - 1];
        if Before(points[k - 1], target) {
          return Some(k - 1);
        }
        k := k - 1;
      }
      return None;
    }

    /** Newest value minus the newest value strictly older than the window. */
    method DiffSince(window: Option<int>, now: int) returns (r: Result<real, CacheError>)
      ensures r == DiffSinceOf(points, window, now)
    {
      var current, base;
      r, current, base := SinceOperandsOf(window, now);
      if r.Ok? {
        r := Ok(current - base);
      }
    }

    /** Percentage change from the newest value strictly older than the
        window to the newest value. */
    method PctChangeSince(window: Option<int>, now: int) returns (r: Result<real, CacheError>)
      ensures r == PctChangeSinceOf(points, window, now)
    {
      var current, base;
      r, current, base := SinceOperandsOf(window, now);
      if r.Ok? {
        r := Pct(base, current);
      }
    }

    /** The steps DiffSince and PctChangeSince share: the newest value, the
        window and the baseline scan. On an empty cache `r` is Ok(0.0) and
        the operands are zero. */
    method SinceOperandsOf(window: Option<int>, now: int) returns (r: Result<real, CacheError>, current: real, base: real)
      ensures points == [] ==> r == Ok(0.0) && current == 0.0 && base == 0.0
      ensures points != [] ==>
        match SinceOperands(points, window, now)
        case Ok((c, b)) => r.Ok? && current == c && base == b
        case Err(e) => r == Err(e)
    {
      current, base := 0.0, 0.0;
      if points == [] {
        return Ok(0.0), 0.0, 0.0;
      }
      match points[|points| - 1].value {
        case FloatVal(f) => current := f;
        case _ => return Err(NotFloat), current, base;
      }
      if window.None? {
        return Err(InvalidWindow), current, base;
      }
      var i := FindBaseline(now - window.value);
      if i.None? {
        return Err(NoBaseline), current, base;
      }
      match points[i.value].value {
        case FloatVal(f) => base := f;
        case _ => return Err(NotFloat), current, base;
      }
      r := Ok(0.0);
    }

    /** Records `value` at `timestamp` (at `now` when nil): overwrites the
        value of a point already stamped with that instant, else appends,
        then evicts expired points. */
    method AddPoint(value: Value, timestamp: Option<int>, now: int)
      requires Valid() && KindOf(value) == kind
      modifies this
      ensures Valid()
      ensures points == Evict(Upsert(old(points), value, timestamp.GetOr(now)), now, expire)
    {
      var t := timestamp.GetOr(now);
      UpsertKeepsValid(points, value, t, kind);
      var i := 0;
      while i < |points|
        invariant 0 <= i <= |points|
        invariant points == old(points)
        invariant forall j :: 0 <= j < i ==> points[j].timestamp != Some(t)
      {
        if points[i].timestamp == Some(t) {
          points := points[i := Point(value, points[i].timestamp)];
          CleanExpired(now);
          return;
        }
        i := i + 1;
      }
      points := points + [Point(value, Some(t))];
      CleanExpired(now);
    }

    /** cleanExpiredPointsUnsafe: keeps the points no older than the expiry
        duration, in order, when the duration is positive. */
    method CleanExpired(now: int)
      requires Valid()
      modifies this
      ensures Valid()
      ensures points == Evict(old(points), now, expire)
    {
      if expire <= 0 {
        return;
      }
      LivePointsKeepsValid(points, now, expire, kind);
      var kept := [];
      var i := 0;
      while i < |points|
        invariant 0 <= i <= |points|
        invariant points == old(points)
        invariant kept == LivePoints(points[..i], now, expire)
      {
        assert points[..i + 1][..i] == points[..i];
        if Live(points[i], now, expire) {
          kept := kept + [points[i]];
        }
        i := i + 1;
      }
      assert points[..i] == points;
      points := kept;
    }
  }

  /** isValueEqual: byte slices by length and contents, other values with
      Go's ==. */
  method IsValueEqual(a: Value, b: Value) returns (eq: bool)
    ensures eq <==> a == b
  {
    if a.BytesVal? {
      if !b.BytesVal? || |a.bs| != |b.bs| {
        return false;
      }
      var i := 0;
      while i < |a.bs|
        invariant 0 <= i <= |a.bs|
        invariant a.bs[..i] == b.bs[..i]
      {
        if a.bs[i] != b.bs[i] {
          return false;
        }
        assert a.bs[..i + 1] == a.bs[..i] + [a.bs[i]];
        assert b.bs[..i + 1] == b.bs[..i] + [b.bs[i]];
        i := i + 1;
      }
      assert a.bs == a.bs[..i] && b.bs == b.bs[..i];
      return true;
    }
    return a == b;
  }

  /** After recording a value at an instant that survives eviction, the
      cache holds that value at that instant. */
  lemma AddPointRecords(ps: seq<Point>, v: Value, t: int, now: int, expire: int)
    requires DistinctStamps(ps)
    requires expire <= 0 || now - t <= expire
    ensures Point(v, Some(t)) in Evict(Upsert(ps, v, t), now, expire)
  {
    match FirstStamped(ps, t) {
      case Some(i) =>
        UpsertExisting(ps, v, t, i);
        assert Upsert(ps, v, t)[i] == Point(v, Some(t));
      case None =>
        assert Upsert(ps, v, t)[|ps|] == Point(v, Some(t));
    }
  }

  /** A point newer than every point already present becomes the newest
      value, unless eviction removes it. */
  lemma AddNewestThenValue(ps: seq<Point>, v: Value, t: int, now: int, expire: int)
    requires forall j :: 0 <= j < |ps| ==> ps[j].timestamp.Some? && ps[j].timestamp.value < t
    requires expire <= 0 || now - t <= expire
    ensures var r := Evict(Upsert(ps, v, t), now, expire);
      r != [] && r[|r| - 1] == Point(v, Some(t))
  {
    UpsertNew(ps, v, t);
    var u := ps + [Point(v, Some(t))];
    assert u[..|u| - 1] == ps;
  }
}
