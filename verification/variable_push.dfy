/** Publication of a variable's values on a shared tick (variable_push.go):
    the tick schedule derived from the publish cycle, the comparison of the
    newest value with the last one pushed, and the selection of the points
    to push. The tick period `gcd` is the greatest common divisor of all
    publish cycles and `i` the tick index, both chosen by the caller. A
    cache's push value is its newest point, none when it is empty. */
module Publishing {
  import opened Wrappers
  import opened GoInts
  import opened TimeSeries
  import opened Variables

  /** math.MaxFloat64. */
  const MaxFloat64: real :=
    179769313486231570814527423731704356798070567525844996598917476803157260780028538760589558632766878171540458953514382464234321326889464182768467546703537516986049910576551282076245490090389328944075868508455133942304583236903222948165808559332123348274797826204144723168738177180919299881250404026184124858368.0

  /** Go's `publishCycle / gcd` on int64. */
  function Times(cycle: int, gcd: int): int
    requires gcd != 0
  {
    Wrap(0x1_0000_0000_0000_0000, Quo(cycle, gcd))
  }

  /** Whether tick i publishes: on a change when the cycle is not
      positive, and on every `times`-th tick whenever `times` is not zero,
      whatever the sign of the cycle. */
  predicate Due(cycle: int, gcd: int, i: int, changed: bool)
    requires gcd != 0
  {
    var times := Times(cycle, gcd);
    (cycle <= 0 && changed) || (times != 0 && Rem(i, times) == 0)
  }

  /** A percentage change as the comparison with the last push computes
      it: from zero to zero is no change, from zero to anything else the
      largest float64. */
  function PushPct(last: real, current: real): (pct: real)
    ensures last == 0.0 && current == 0.0 ==> pct == 0.0
    ensures last == 0.0 && current != 0.0 ==> pct == MaxFloat64
    ensures last != 0.0 ==> current == last + last * pct / 100.0
  {
    if last == 0.0 then (if current == 0.0 then 0.0 else MaxFloat64)
    else (current - last) / last * 100.0
  }

  function Abs(x: real): real {
    if x < 0.0 then -x else x
  }

  /** ChangedWithLatestPushValue: whether the newest value differs from the
      last one pushed. No cache: no change. Nothing pushed yet, or a last
      push of another element type: a change. */
  function ChangedSincePush(c: Cache?, latest: Option<Point>, diff: Option<real>, pct: Option<real>): (changed: bool)
    reads c
    ensures c == null ==> !changed
    ensures c != null && latest.None? ==> changed
    ensures c != null && latest.Some? && KindOf(latest.value.value) != c.kind ==> changed
    ensures c != null && latest.Some? && c.kind != FloatKind && KindOf(latest.value.value) == c.kind ==>
      (changed <==> c.Value() != latest.value.value)
    // float values: a difference threshold decides first, then a percentage
    // threshold, then plain inequality
    ensures c != null && latest.Some? && c.kind == FloatKind && c.Value().FloatVal? &&
            latest.value.value.FloatVal? && diff.Some? ==>
      (changed <==> Abs(c.Value().f - latest.value.value.f) >= diff.value)
    ensures c != null && latest.Some? && c.kind == FloatKind && c.Value().FloatVal? &&
            latest.value.value.FloatVal? && diff.None? && pct.Some? ==>
      (changed <==> Abs(PushPct(latest.value.value.f, c.Value().f)) >= pct.value)
    ensures c != null && latest.Some? && c.kind == FloatKind && c.Value().FloatVal? &&
            latest.value.value.FloatVal? && diff.None? && pct.None? ==>
      (changed <==> c.Value() != latest.value.value)
  {
    if c == null then false
    else if latest.None? then true
    else
      var last := latest.value.value;
      if KindOf(last) != c.kind then true
      else match c.kind
        case FloatKind =>
          (match (c.Value(), last)
           case (FloatVal(current), FloatVal(previous)) =>
             if diff.Some? then Abs(current - previous) >= diff.value
             else if pct.Some? then Abs(PushPct(previous, current)) >= pct.value
             else current != previous
           case _ => true)
        case _ => c.Value() != last
  }

  /** The method the publisher calls; it compares byte values byte by
      byte. */
  method ChangedWithLatestPushValue(v: Variable) returns (changed: bool)
    ensures changed == ChangedSincePush(v.cache, v.latestPush, v.diffThreshold, v.pctThreshold)
  {
    var c := v.cache;
    if c == null {
      return false;
    }
    if v.latestPush.None? {
      return true;
    }
    var last := v.latestPush.value.value;
    if KindOf(last) != c.kind {
      return true;
    }
    var current := c.Value();
    if c.kind == BytesKind {
      if !current.BytesVal? || !last.BytesVal? {
        return true;
      }
      var a, b := current.bs, last.bs;
      if |a| != |b| {
        return true;
      }
      var i := 0;
      while i < |a|
        invariant 0 <= i <= |a|
        invariant a[..i] == b[..i]
      {
        if a[i] != b[i] {
          return true;
        }
        assert a[..i + 1] == a[..i] + [a[i]] && b[..i + 1] == b[..i] + [b[i]];
        i := i + 1;
      }
      assert a == a[..i] && b == b[..i];
      return false;
    }
    changed := ChangedSincePush(c, v.latestPush, v.diffThreshold, v.pctThreshold);
  }

  /** The points GetPushValues returns. For a float64 cache that changed,
      the previous point is pushed first when it is not the one last
      pushed, so that a step is published with the value before it. */
  function PushesOf(c: Cache?, cycle: Option<int>, latest: Option<Point>, diff: Option<real>, pct: Option<real>,
                    gcd: int, i: int): (pushes: seq<Point>)
    requires gcd != 0
    reads c
    ensures |pushes| <= 2
    ensures pushes != [] ==>
      c != null && c.points != [] && cycle.Some? &&
      Due(cycle.value, gcd, i, ChangedSincePush(c, latest, diff, pct)) &&
      pushes[|pushes| - 1] == c.points[|c.points| - 1]
    ensures |pushes| == 2 ==>
      c.kind == FloatKind && ChangedSincePush(c, latest, diff, pct) && |c.points| >= 2 &&
      pushes[0] == c.points[|c.points| - 2] &&
      latest.Some? && KindOf(latest.value.value) == FloatKind &&
      latest.value.timestamp.Some? && pushes[0].timestamp.Some? &&
      latest.value.timestamp != pushes[0].timestamp
    // a due tick on a non-empty cache always publishes the newest point
    ensures c != null && cycle.Some? && c.points != [] &&
      Due(cycle.value, gcd, i, ChangedSincePush(c, latest, diff, pct))
      ==> pushes != []
    // and precedes it by the previous point exactly in the backfill case
    ensures pushes != [] && c.kind == FloatKind && ChangedSincePush(c, latest, diff, pct) &&
      |c.points| >= 2 && latest.Some? && KindOf(latest.value.value) == FloatKind &&
      latest.value.timestamp.Some? && c.points[|c.points| - 2].timestamp.Some? &&
      latest.value.timestamp != c.points[|c.points| - 2].timestamp
      ==> |pushes| == 2
    ensures c != null && c.kind != FloatKind ==> |pushes| <= 1
  {
    if cycle.None? || c == null then []
    else
      var changed := ChangedSincePush(c, latest, diff, pct);
      if !Due(cycle.value, gcd, i, changed) || c.points == [] then []
      else
        var n := |c.points|;
        var backfill :=
          c.kind == FloatKind && changed && n >= 2 && latest.Some? && KindOf(latest.value.value) == FloatKind &&
          latest.value.timestamp.Some? && c.points[n - 2].timestamp.Some? &&
          latest.value.timestamp != c.points[n - 2].timestamp;
        (if backfill then [c.points[n - 2]] else []) + [c.points[n - 1]]
  }

  /** GetPushValues: the points to publish at tick i; the newest of them
      becomes the last pushed point. */
  method GetPushValues(v: Variable, gcd: int, i: int) returns (pushes: seq<Point>)
    requires gcd != 0
    modifies v
    ensures pushes == PushesOf(old(v.cache), old(v.publishCycle), old(v.latestPush), v.diffThreshold, v.pctThreshold, gcd, i)
    ensures v.latestPush == if pushes == [] then old(v.latestPush) else Some(pushes[|pushes| - 1])
    ensures v.cache == old(v.cache) && v.publishCycle == old(v.publishCycle) && v.dataType == old(v.dataType)
    ensures v.bytes == old(v.bytes) && v.cacheDuration == old(v.cacheDuration) && v.program == old(v.program)
  {
    pushes := [];
    if v.publishCycle.None? {
      return;
    }
    var c := v.cache;
    if c == null {
      return;
    }
    var cycle := v.publishCycle.value;
    var times := Times(cycle, gcd);
    var changed := ChangedWithLatestPushValue(v);
    if (cycle <= 0 && changed) || (times != 0 && Rem(i, times) == 0) {
      if c.points != [] {
        var n := |c.points|;
        if c.kind == FloatKind && changed && n >= 2 {
          match v.latestPush {
            case Some(p) =>
              if KindOf(p.value) == FloatKind && p.timestamp.Some? && c.points[n - 2].timestamp.Some?
                 && p.timestamp != c.points[n - 2].timestamp {
                pushes := pushes + [c.points[n - 2]];
              }
            case None =>
          }
        }
        pushes := pushes + [c.points[n - 1]];
        v.latestPush := Some(c.points[n - 1]);
      }
    }
  }

  // ----- properties -----

  /** A cycle of 10 on a tick of 5 publishes every second tick: ticks 0 and
      2, not 1 or 3, whatever the change. */
  lemma EverySecondTick(changed: bool)
    ensures Due(10, 5, 0, changed) && Due(10, 5, 2, changed)
    ensures !Due(10, 5, 1, changed) && !Due(10, 5, 3, changed)
  {
    assert Times(10, 5) == 2;
  }

  /** A positive cycle that is a multiple of the tick publishes on every
      (cycle / gcd)-th tick, changed or not. */
  lemma PeriodicSchedule(cycle: int, gcd: int, i: int, changed: bool)
    requires 0 < gcd <= cycle <= MaxInt64
    ensures Times(cycle, gcd) == cycle / gcd
    ensures Due(cycle, gcd, i, changed) <==> Rem(i, cycle / gcd) == 0
  {
    DivBounds(cycle, gcd);
  }

  /** A positive cycle shorter than the tick gives `times == 0`, so it is
      never due, changed or not. */
  lemma ShortCycleNeverDue(cycle: int, gcd: int, i: int, changed: bool)
    requires 0 < cycle < gcd
    ensures Times(cycle, gcd) == 0
    ensures !Due(cycle, gcd, i, changed)
  {
    DivSmall(cycle, gcd);
  }

  /** A non-positive cycle shorter than the tick publishes exactly when the
      value changed since the last push. */
  lemma OnChangeSchedule(cycle: int, gcd: int, i: int, changed: bool)
    requires gcd != 0 && cycle <= 0
    requires -cycle < (if gcd < 0 then -gcd else gcd)
    ensures Due(cycle, gcd, i, changed) <==> changed
  {
    var g := if gcd < 0 then -gcd else gcd;
    DivSmall(-cycle, g);
  }

  /** A negative cycle at least as long as the tick also publishes on the
      periodic schedule, changed or not: a cycle of -10 on a tick of 5 is
      due on tick 0 without a change, and not on tick 1. */
  lemma NegativeCycleIsPeriodic()
    ensures Due(-10, 5, 0, false) && Due(-10, 5, 2, false)
    ensures !Due(-10, 5, 1, false)
  {
    assert Times(-10, 5) == -2;
  }

  /** In general: a negative cycle no longer than -gcd is due on every tick
      that is a multiple of cycle / gcd. */
  lemma NegativeCycleDueOnSchedule(cycle: int, gcd: int, i: int, changed: bool)
    requires 0 < gcd && MinInt64 <= cycle <= -gcd
    ensures Times(cycle, gcd) != 0
    ensures Rem(i, Times(cycle, gcd)) == 0 ==> Due(cycle, gcd, i, changed)
  {
    DivBounds(-cycle, gcd);
    assert Quo(cycle, gcd) == -((-cycle) / gcd);
  }

  lemma DivSmall(a: int, b: int)
    requires 0 <= a < b
    ensures a / b == 0
  {
  }

  lemma DivBounds(a: int, b: int)
    requires 0 < b <= a
    ensures 1 <= a / b <= a
  {
    var q := a / b;
    MulPositive(b, q, a - b * q);
    MulAtLeast(b, q);
  }

  /** b * q with 0 <= a - b * q < b <= a forces q >= 1. */
  lemma MulPositive(b: int, q: int, r: int)
    requires 0 < b && 0 <= r < b && b <= b * q + r
    ensures q >= 1
  {
    assert b * q > 0;
  }

  lemma MulAtLeast(b: int, q: int)
    requires b >= 1 && q >= 1
    ensures b * q >= q
  {
    assert b * q == q + (b - 1) * q;
    assert (b - 1) * q >= 0;
  }

  /** The largest float64 is at least every finite float64 threshold: a
      step away from zero always counts as a percentage change. */
  lemma StepFromZeroIsChange(c: Cache, latest: Point, pct: real)
    requires c.kind == FloatKind && c.points != [] && c.points[|c.points| - 1].value.FloatVal?
    requires latest.value == FloatVal(0.0) && c.points[|c.points| - 1].value != FloatVal(0.0)
    requires pct <= MaxFloat64
    ensures ChangedSincePush(c, Some(latest), None, Some(pct))
  {
  }

  /** A difference threshold compares the distance to the last push, and
      takes priority over any percentage threshold. */
  lemma DiffThresholdRule(c: Cache, latest: Point, d: real, pct: Option<real>)
    requires c.kind == FloatKind && c.points != [] && c.points[|c.points| - 1].value.FloatVal?
    requires latest.value.FloatVal?
    ensures ChangedSincePush(c, Some(latest), Some(d), pct) <==>
      Abs(c.points[|c.points| - 1].value.f - latest.value.f) >= d
  {
  }

  /** Without a difference threshold, a percentage threshold compares the
      relative change from a non-zero last push. */
  lemma PctThresholdRule(c: Cache, latest: Point, p: real)
    requires c.kind == FloatKind && c.points != [] && c.points[|c.points| - 1].value.FloatVal?
    requires latest.value.FloatVal? && latest.value.f != 0.0
    ensures var current := c.points[|c.points| - 1].value.f;
      ChangedSincePush(c, Some(latest), None, Some(p)) <==>
      Abs((current - latest.value.f) / latest.value.f * 100.0) >= p
  {
  }

  /** From zero to zero is never a change under a positive percentage
      threshold. */
  lemma ZeroToZeroUnchanged(c: Cache, latest: Point, p: real)
    requires c.kind == FloatKind && c.points != [] && c.points[|c.points| - 1].value == FloatVal(0.0)
    requires latest.value == FloatVal(0.0) && p > 0.0
    ensures !ChangedSincePush(c, Some(latest), None, Some(p))
  {
  }

  /** Without thresholds, any difference in the float value is a change. */
  lemma NoThresholdRule(c: Cache, latest: Point)
    requires c.kind == FloatKind && c.points != [] && c.points[|c.points| - 1].value.FloatVal?
    requires latest.value.FloatVal?
    ensures ChangedSincePush(c, Some(latest), None, None) <==>
      c.points[|c.points| - 1].value.f != latest.value.f
  {
  }

  /** Pushing resets change detection: right after the newest point is
      pushed, it compares equal to the last push under positive thresholds
      or none. */
  lemma PushResetsChange(c: Cache, diff: Option<real>, pct: Option<real>)
    requires c.points != [] && AllOfKind(c.points, c.kind)
    requires diff.Some? ==> diff.value > 0.0
    requires pct.Some? ==> pct.value > 0.0
    ensures !ChangedSincePush(c, Some(c.points[|c.points| - 1]), diff, pct)
  {
    assert KindOf(c.points[|c.points| - 1].value) == c.kind;
  }

  /** Pushing is idempotent within a value: once the newest point is the
      last push, a float cache with no threshold pushes it again only on
      the periodic schedule, and never backfills. */
  lemma NoBackfillAfterPush(c: Cache, cycle: int, gcd: int, i: int, diff: Option<real>, pct: Option<real>)
    requires gcd != 0 && c.points != [] && AllOfKind(c.points, c.kind)
    requires diff.Some? ==> diff.value > 0.0
    requires pct.Some? ==> pct.value > 0.0
    ensures var pushes := PushesOf(c, Some(cycle), Some(c.points[|c.points| - 1]), diff, pct, gcd, i);
      |pushes| <= 1 &&
      (pushes != [] <==> Times(cycle, gcd) != 0 && Rem(i, Times(cycle, gcd)) == 0)
  {
    PushResetsChange(c, diff, pct);
  }
}
