/**
 * The zoom state machine of the signal diagram.
 *
 * The controller holds one (factor, action) state. Every zoom request runs the
 * same transition: propose a factor for the requested action, snap it onto the
 * default level when it is within 1e-6 of it, clamp it into the band the data
 * length and the viewport allow, replace the state, and hand one event to every
 * registered listener. Doubles are modelled as reals; what the controller reads
 * from the diagram and its model during a call is the `View` parameter.
 */
module Zoom {
  import opened Options
  import opened JavaInts

  /** The factor the controller starts with, and the floor of the default level. */
  const DEFAULT_ZOOM_FACTOR: real := 1.0
  /** The ratio of one zoom-in step; zooming out uses its inverse. */
  const DEFAULT_ZOOM_RATIO: real := 2.0
  /** A candidate factor closer than this to the default level snaps onto it. */
  const SNAP_TOLERANCE: real := 0.000001
  /** Two points closer than this (in pixels) do not make a zoom region. */
  const REGION_THRESHOLD: int := 10

  datatype ZoomAction = Restore | In | Out | Default | All | Maximum

  /** The stored state; `action` is None after a plain in/out step (Java's null). */
  datatype ZoomState = ZoomState(factor: real, action: Option<ZoomAction>)

  const INITIAL_STATE: ZoomState := ZoomState(DEFAULT_ZOOM_FACTOR, Some(Default))

  datatype Point = Point(x: int, y: int)
  datatype Dimension = Dimension(width: int, height: int)

  /** The event handed to the listeners; `action` is the action that was requested. */
  datatype ZoomEvent = ZoomEvent(oldFactor: real, newFactor: real, action: ZoomAction,
                                 centerPoint: Point, dimension: Dimension)

  /** A registered listener, by identity. */
  type ListenerId = nat

  /** One call of a listener's notifyZoomChange. */
  datatype Delivery = Delivery(listener: ListenerId, event: ZoomEvent)

  /**
   * What one zoom call reads from the signal diagram and its model: whether there
   * is data and its absolute length, the width and height of the visible view
   * size, the x of the centre of the diagram's visible rectangle (a separate
   * query), the preferred width of the view and the height the signal elements
   * need on screen.
   */
  datatype View = View(hasData: bool, absoluteLength: int,
                       visibleWidth: int, visibleHeight: int, visibleCenterX: int,
                       preferredWidth: int, screenHeight: int)

  /** Sizes are never negative, and a model with data has a positive length. */
  predicate ValidView(v: View) {
    && v.absoluteLength >= 0
    && (v.hasData ==> v.absoluteLength > 0)
    && v.visibleWidth >= 0
    && v.visibleHeight >= 0
    && v.preferredWidth >= 0
  }

  function Abs(x: real): real {
    if x < 0.0 then -x else x
  }

  // ---------------------------------------------------------------------------
  // The zoom bounds
  // ---------------------------------------------------------------------------

  /** The factor at which the whole trace exactly fills the visible width. */
  function MinZoomLevel(v: View): (r: real)
    requires ValidView(v)
    ensures r >= 0.0
    ensures !v.hasData ==> r == 1.0
    ensures v.hasData ==> r * (v.absoluteLength as real) == v.visibleWidth as real
  {
    if !v.hasData then DEFAULT_ZOOM_FACTOR
    else v.visibleWidth as real / v.absoluteLength as real
  }

  /**
   * The largest whole factor at which the whole trace still fits in a component
   * Integer.MAX_VALUE pixels wide.
   */
  function MaxZoomLevel(v: View): (r: real)
    requires ValidView(v)
    ensures r >= 0.0 && r == r.Floor as real
    ensures !v.hasData ==> r == 1.0
    ensures v.hasData ==>
      && r * (v.absoluteLength as real) <= INT_MAX as real
      && INT_MAX as real < (r + 1.0) * (v.absoluteLength as real)
  {
    if !v.hasData then DEFAULT_ZOOM_FACTOR
    else
      var len := v.absoluteLength;
      var q := INT_MAX / len;
      assert q * len <= INT_MAX < (q + 1) * len;
      assert (q * len) as real == q as real * len as real;
      assert ((q + 1) * len) as real == (q as real + 1.0) * len as real;
      q as real
  }

  /** The level zoomDefault goes to: 1.0, or the minimum level when that is larger. */
  function DefaultZoomLevel(v: View): (r: real)
    requires ValidView(v)
    ensures r >= MinZoomLevel(v) && r >= DEFAULT_ZOOM_FACTOR
    ensures r == MinZoomLevel(v) || r == DEFAULT_ZOOM_FACTOR
  {
    var minLevel := MinZoomLevel(v);
    if minLevel > DEFAULT_ZOOM_FACTOR then minLevel else DEFAULT_ZOOM_FACTOR
  }

  /**
   * Exactly when the bounds are ordered: with data, when the visible width is at
   * most the widest whole multiple of the length that fits in Integer.MAX_VALUE.
   */
  lemma BoundsOrderedExactly(v: View)
    requires ValidView(v)
    ensures !v.hasData ==> MinZoomLevel(v) <= MaxZoomLevel(v)
    ensures v.hasData ==>
      (MinZoomLevel(v) <= MaxZoomLevel(v) <==>
       v.visibleWidth <= (INT_MAX / v.absoluteLength) * v.absoluteLength)
  {
    if v.hasData {
      var len := v.absoluteLength;
      var q := INT_MAX / len;
      assert ((q * len) as real) == q as real * len as real;
      DivideBelowIff(v.visibleWidth as real, len as real, q as real);
    }
  }

  /**
   * The bounds are ordered whenever the visible width and the data length
   * together stay within Integer.MAX_VALUE + 1.
   */
  lemma BoundsOrdered(v: View)
    requires ValidView(v)
    requires v.hasData ==> v.visibleWidth + v.absoluteLength <= INT_MAX + 1
    ensures MinZoomLevel(v) <= MaxZoomLevel(v)
  {
    BoundsOrderedExactly(v);
    if v.hasData {
      var len := v.absoluteLength;
      var q := INT_MAX / len;
      assert INT_MAX - len < q * len by {
        assert INT_MAX == q * len + INT_MAX % len;
      }
    }
  }

  lemma DivideBelowIff(a: real, d: real, q: real)
    requires d > 0.0
    ensures a / d <= q <==> a <= q * d
  {
    assert a / d * d == a;
    if a / d <= q {
      assert (a / d) * d <= q * d;
    }
  }

  // ---------------------------------------------------------------------------
  // The transition
  // ---------------------------------------------------------------------------

  /**
   * A proposed factor. Zooming to ALL divides the visible width by the absolute
   * length even without data; over a zero length the Java division yields an
   * infinity or NaN, and Double.compare orders both above every finite bound.
   */
  datatype Candidate = Finite(value: real) | NonFinite

  /** The factor an action proposes, before snapping and clamping. */
  function Proposed(action: ZoomAction, ratio: real, oldFactor: real, v: View): (c: Candidate)
    requires ValidView(v)
    ensures (action == In || action == Out) ==> c == Finite(ratio * oldFactor)
    ensures action == Restore ==> c == Finite(oldFactor)
    ensures action == All ==> (c.Finite? <==> v.absoluteLength > 0)
    ensures action == All && v.absoluteLength > 0 ==>
      c == Finite(v.visibleWidth as real / v.absoluteLength as real)
    ensures action == All && v.hasData ==> c == Finite(MinZoomLevel(v))
    ensures action == Maximum ==> c == Finite(MaxZoomLevel(v))
    ensures action == Default ==> c == Finite(DefaultZoomLevel(v))
  {
    match action
    case In | Out => Finite(ratio * oldFactor)
    case All =>
      if v.absoluteLength == 0 then NonFinite
      else Finite(v.visibleWidth as real / v.absoluteLength as real)
    case Maximum => Finite(MaxZoomLevel(v))
    case Default => Finite(DefaultZoomLevel(v))
    case Restore => Finite(oldFactor)
  }

  predicate NearDefault(x: real, v: View)
    requires ValidView(v)
  {
    Abs(x - DefaultZoomLevel(v)) < SNAP_TOLERANCE
  }

  /**
   * Clamping into [min, max]: a factor below the minimum becomes the minimum
   * with action ALL, one above the maximum (or not finite) becomes the maximum
   * with action MAXIMUM, anything else passes with its own action.
   */
  function Clamp(x: Candidate, tag: Option<ZoomAction>, min: real, max: real): (s: ZoomState)
    ensures min <= max ==> min <= s.factor <= max
    ensures s.factor == min || s.factor == max || (x.Finite? && s.factor == x.value)
    ensures x.NonFinite? ==> s == ZoomState(max, Some(Maximum))
    ensures x.Finite? && x.value < min ==> s == ZoomState(min, Some(All))
    ensures x.Finite? && min <= x.value <= max ==> s == ZoomState(x.value, tag)
    ensures x.Finite? && min <= x.value && max < x.value ==> s == ZoomState(max, Some(Maximum))
  {
    if x.Finite? && x.value < min then ZoomState(min, Some(All))
    else if x.NonFinite? || x.value > max then ZoomState(max, Some(Maximum))
    else ZoomState(x.value, tag)
  }

  /** Snapping onto the default level, then clamping into the bounds. */
  function Settle(c: Candidate, tag: Option<ZoomAction>, v: View): (s: ZoomState)
    requires ValidView(v)
    ensures s.factor >= 0.0
    ensures MinZoomLevel(v) <= MaxZoomLevel(v) ==> MinZoomLevel(v) <= s.factor <= MaxZoomLevel(v)
    ensures c.NonFinite? ==> s == ZoomState(MaxZoomLevel(v), Some(Maximum))
    ensures c.Finite? && NearDefault(c.value, v) ==>
      s == if DefaultZoomLevel(v) <= MaxZoomLevel(v) then ZoomState(DefaultZoomLevel(v), Some(Default))
           else ZoomState(MaxZoomLevel(v), Some(Maximum))
    ensures c.Finite? && !NearDefault(c.value, v) ==>
      s == Clamp(c, tag, MinZoomLevel(v), MaxZoomLevel(v))
  {
    if c.Finite? && NearDefault(c.value, v) then
      Clamp(Finite(DefaultZoomLevel(v)), Some(Default), MinZoomLevel(v), MaxZoomLevel(v))
    else
      Clamp(c, tag, MinZoomLevel(v), MaxZoomLevel(v))
  }

  /** The state after one zoom request, from the state before it. */
  function Transition(s: ZoomState, action: ZoomAction, ratio: real, v: View): (r: ZoomState)
    requires ValidView(v)
    ensures r.factor >= 0.0
    ensures MinZoomLevel(v) <= MaxZoomLevel(v) ==> MinZoomLevel(v) <= r.factor <= MaxZoomLevel(v)
    ensures r.action.Some?
      || ((action == In || action == Out) && MinZoomLevel(v) <= r.factor <= MaxZoomLevel(v)
          && r.factor == ratio * s.factor && !NearDefault(r.factor, v))
  {
    Settle(Proposed(action, ratio, s.factor, v), if action == In || action == Out then None else Some(action), v)
  }

  /** Java's (int) cast of a double, truncating toward zero (saturation left out). */
  function TruncateToInt(x: real): int
  {
    if x >= 0.0 then x.Floor else -((-x).Floor)
  }

  /** The cast drops less than 1 toward zero and keeps the sign. */
  lemma TruncateToIntBounds(x: real)
    ensures Abs(TruncateToInt(x) as real) <= Abs(x) < Abs(TruncateToInt(x) as real) + 1.0
    ensures (TruncateToInt(x) > 0 ==> x > 0.0) && (TruncateToInt(x) < 0 ==> x < 0.0)
  {
  }

  /** The view width proposed with the event. */
  function ProposedWidth(action: ZoomAction, ratio: real, v: View): (w: int)
    requires ValidView(v)
    ensures (action == In || action == Out) ==>
      w == Max(v.visibleWidth, TruncateToInt(v.preferredWidth as real * ratio))
    ensures (action == In || action == Out) ==> w >= v.visibleWidth
    ensures action == Default && v.hasData ==> w == Max(v.visibleWidth, v.absoluteLength)
    ensures action == All ==> w == v.visibleWidth
    ensures action == Restore ==> w == v.preferredWidth
    ensures action == Maximum ==> w == MaximumWidth(v)
    ensures action == Maximum && v.hasData ==> 0 <= w <= INT_MAX
    ensures (action == Default || action == Maximum) && !v.hasData ==> w == v.absoluteLength
  {
    match action
    case In | Out =>
      var scaled := TruncateToInt(v.preferredWidth as real * ratio);
      if v.visibleWidth >= scaled then v.visibleWidth else scaled
    case All => v.visibleWidth
    case Maximum => MaximumWidth(v)
    case Default =>
      DefaultWidth(v);
      TruncateToInt(v.absoluteLength as real * DefaultZoomLevel(v))
    case Restore => v.preferredWidth
  }

  function Max(a: int, b: int): int {
    if a >= b then a else b
  }

  /**
   * With data, the view at the default level is as wide as the data at factor 1,
   * or as the visible width when the minimum level is larger than 1.
   */
  lemma DefaultWidth(v: View)
    requires ValidView(v)
    ensures v.hasData ==> TruncateToInt(v.absoluteLength as real * DefaultZoomLevel(v)) == Max(v.visibleWidth, v.absoluteLength)
  {
    var len, w := v.absoluteLength as real, v.visibleWidth as real;
    var min := MinZoomLevel(v);
    if !v.hasData {
    } else if min > DEFAULT_ZOOM_FACTOR {
      assert len * min == w;
      assert w > len by {
        assert min * len > 1.0 * len;
      }
    } else {
      assert len * DefaultZoomLevel(v) == len;
      assert w <= len by {
        assert min * len <= 1.0 * len;
      }
    }
  }

  /**
   * The view width at the maximum level: with data, the widest whole multiple of
   * the length that fits in Integer.MAX_VALUE pixels; without data, the length.
   */
  function MaximumWidth(v: View): (w: int)
    requires ValidView(v)
    ensures w >= 0
    ensures v.hasData ==> w <= INT_MAX
    ensures v.hasData ==> w == (INT_MAX / v.absoluteLength) * v.absoluteLength
    ensures !v.hasData ==> w == v.absoluteLength
  {
    TruncateToIntBounds(v.absoluteLength as real * MaxZoomLevel(v));
    TruncateToInt(v.absoluteLength as real * MaxZoomLevel(v))
  }

  /** The event one zoom request sends to every listener. */
  function Event(s: ZoomState, action: ZoomAction, ratio: real, center: Option<Point>, v: View): (e: ZoomEvent)
    requires ValidView(v)
    ensures e.action == action
    ensures e.oldFactor == s.factor && e.newFactor == Transition(s, action, ratio, v).factor
    ensures e.dimension.height == Max(v.visibleHeight, v.screenHeight)
    ensures e.dimension.width == ProposedWidth(action, ratio, v)
    ensures center.Some? ==> e.centerPoint == center.value
    ensures center.None? ==> e.centerPoint == Point(v.visibleCenterX, 0)
  {
    var height := if v.screenHeight < v.visibleHeight then v.visibleHeight else v.screenHeight;
    var point := if center.Some? then center.value else Point(v.visibleCenterX, 0);
    ZoomEvent(s.factor, Transition(s, action, ratio, v).factor, action, point,
              Dimension(ProposedWidth(action, ratio, v), height))
  }

  /**
   * ZoomEvent.getFactor: the relative factor new/old. Where the old factor is 0
   * the Java division gives an infinity or NaN, modelled as None.
   */
  function RelativeFactor(e: ZoomEvent): (r: Option<real>)
    ensures e.oldFactor == 0.0 <==> r.None?
    ensures r.Some? ==> r.value * e.oldFactor == e.newFactor
    ensures e.oldFactor > 0.0 && e.newFactor >= 0.0 ==> r.Some? && r.value >= 0.0
  {
    if e.oldFactor == 0.0 then None else Some(e.newFactor / e.oldFactor)
  }

  // ---------------------------------------------------------------------------
  // Properties of the transition
  // ---------------------------------------------------------------------------

  /** zoomAll settles within the snap tolerance of the minimum level; it is ALL unless it snapped to DEFAULT. */
  lemma ZoomAllFitsView(s: ZoomState, ratio: real, v: View)
    requires ValidView(v) && v.hasData
    requires MinZoomLevel(v) <= MaxZoomLevel(v)
    ensures Abs(Transition(s, All, ratio, v).factor - MinZoomLevel(v)) < SNAP_TOLERANCE
    ensures Transition(s, All, ratio, v).action == Some(All) <==> MinZoomLevel(v) <= 1.0 - SNAP_TOLERANCE
    ensures Transition(s, All, ratio, v).action == Some(All) || Transition(s, All, ratio, v).action == Some(Default)
  {
    var min, max := MinZoomLevel(v), MaxZoomLevel(v);
    if min > 1.0 - SNAP_TOLERANCE {
      assert max >= 1.0 by {
        assert max == max.Floor as real;
      }
      assert NearDefault(min, v);
    }
  }

  /** zoomMaximum settles within the snap tolerance of the maximum level. */
  lemma ZoomMaximumReachesMax(s: ZoomState, ratio: real, v: View)
    requires ValidView(v)
    requires MinZoomLevel(v) <= MaxZoomLevel(v)
    ensures Abs(Transition(s, Maximum, ratio, v).factor - MaxZoomLevel(v)) < SNAP_TOLERANCE
    ensures Transition(s, Maximum, ratio, v).action in {Some(Maximum), Some(Default)}
  {
  }

  /** zoomDefault reaches the default level, unless that lies above the maximum. */
  lemma ZoomDefaultReachesDefault(s: ZoomState, ratio: real, v: View)
    requires ValidView(v)
    ensures DefaultZoomLevel(v) <= MaxZoomLevel(v) ==>
      Transition(s, Default, ratio, v) == ZoomState(DefaultZoomLevel(v), Some(Default))
    ensures MaxZoomLevel(v) < DefaultZoomLevel(v) ==>
      Transition(s, Default, ratio, v) == ZoomState(MaxZoomLevel(v), Some(Maximum))
  {
  }

  /** A zoom-in followed by a zoom-out returns to the original factor when neither snaps nor clamps. */
  lemma ZoomInOutRoundTrip(s: ZoomState, v: View)
    requires ValidView(v)
    requires MinZoomLevel(v) <= s.factor <= MaxZoomLevel(v) && !NearDefault(s.factor, v)
    requires MinZoomLevel(v) <= 2.0 * s.factor <= MaxZoomLevel(v) && !NearDefault(2.0 * s.factor, v)
    ensures Transition(s, In, DEFAULT_ZOOM_RATIO, v) == ZoomState(2.0 * s.factor, None)
    ensures Transition(Transition(s, In, DEFAULT_ZOOM_RATIO, v), Out, 1.0 / DEFAULT_ZOOM_RATIO, v)
            == ZoomState(s.factor, None)
  {
    InThenOutRestores(s, DEFAULT_ZOOM_RATIO, 1.0 / DEFAULT_ZOOM_RATIO, v);
  }

  /** restoreZoomLevel keeps a factor that is inside the bounds and clear of the snap band. */
  lemma RestoreKeepsFactor(s: ZoomState, ratio: real, v: View)
    requires ValidView(v)
    requires MinZoomLevel(v) <= s.factor <= MaxZoomLevel(v)
    requires s.factor == DefaultZoomLevel(v) || !NearDefault(s.factor, v)
    ensures Transition(s, Restore, ratio, v).factor == s.factor
  {
  }

  /**
   * When the absolute length exceeds Integer.MAX_VALUE the maximum level is 0
   * and lies below the minimum. Every transition then stores either the minimum
   * with action ALL or 0 with action MAXIMUM, and the latter is below the minimum.
   */
  lemma InvertedBoundsStoreZero(s: ZoomState, action: ZoomAction, ratio: real, v: View)
    requires ValidView(v) && v.hasData && v.absoluteLength > INT_MAX && v.visibleWidth > 0
    ensures MaxZoomLevel(v) == 0.0 < MinZoomLevel(v)
    ensures Transition(s, action, ratio, v) == ZoomState(MinZoomLevel(v), Some(All))
         || Transition(s, action, ratio, v) == ZoomState(0.0, Some(Maximum))
  {
    assert INT_MAX / v.absoluteLength == 0;
    assert MinZoomLevel(v) > 0.0 by {
      assert MinZoomLevel(v) * (v.absoluteLength as real) == v.visibleWidth as real;
    }
  }

  // ---------------------------------------------------------------------------
  // Mouse wheel
  // ---------------------------------------------------------------------------

  /** Java's unary minus on an int, which wraps around at Integer.MIN_VALUE. */
  function JavaNegate(x: int): (r: int)
    requires INT_MIN <= x <= INT_MAX
    ensures INT_MIN <= r <= INT_MAX
    ensures (r + x) % 0x1_0000_0000 == 0
  {
    if x == INT_MIN then INT_MIN else -x
  }

  /** The wheel ratio as the source computes it, negating the rotation in int arithmetic. */
  function WheelRatioAsWritten(rotation: int): (r: real)
    requires INT_MIN <= rotation <= INT_MAX && rotation != 0
    ensures rotation > 0 ==> r * (rotation as real) * DEFAULT_ZOOM_RATIO == 1.0
    ensures INT_MIN < rotation < 0 ==> r == (-rotation) as real * DEFAULT_ZOOM_RATIO
    ensures rotation == INT_MIN ==> r == INT_MIN as real * DEFAULT_ZOOM_RATIO
  {
    if rotation > 0 then 1.0 / (rotation as real * DEFAULT_ZOOM_RATIO)
    else JavaNegate(rotation) as real * DEFAULT_ZOOM_RATIO
  }

  /**
   * At Integer.MIN_VALUE the written ratio is negative, so a zoom-in request
   * from any positive factor lands on the minimum level with action ALL.
   */
  lemma WheelAtMinValueZoomsAll(s: ZoomState, v: View)
    requires ValidView(v) && s.factor > 0.0
    ensures WheelRatioAsWritten(INT_MIN) < 0.0
    ensures Transition(s, In, WheelRatioAsWritten(INT_MIN), v) == ZoomState(MinZoomLevel(v), Some(All))
  {
    var x := WheelRatioAsWritten(INT_MIN) * s.factor;
    assert x < 0.0;
    assert !NearDefault(x, v);
  }

  /** The wheel ratio with the rotation's magnitude taken without wrap-around. */
  function WheelRatio(rotation: int): (r: real)
    requires rotation != 0
    ensures rotation < 0 ==> r == (-rotation) as real * DEFAULT_ZOOM_RATIO && r >= DEFAULT_ZOOM_RATIO
    ensures rotation > 0 ==> r * (rotation as real) * DEFAULT_ZOOM_RATIO == 1.0 && 0.0 < r <= 1.0 / DEFAULT_ZOOM_RATIO
  {
    if rotation > 0 then 1.0 / (rotation as real * DEFAULT_ZOOM_RATIO)
    else (-rotation) as real * DEFAULT_ZOOM_RATIO
  }

  /** The corrected ratio agrees with the written one at every rotation but Integer.MIN_VALUE. */
  lemma WheelRatioAgrees(rotation: int)
    requires INT_MIN < rotation <= INT_MAX && rotation != 0
    ensures WheelRatioAsWritten(rotation) == WheelRatio(rotation)
  {
  }

  /** The ratios of k notches one way and k notches the other way multiply to 1. */
  lemma WheelRatiosInverse(k: int)
    requires k > 0
    ensures WheelRatio(-k) * WheelRatio(k) == 1.0
  {
    assert WheelRatio(k) * (k as real) * DEFAULT_ZOOM_RATIO == 1.0;
  }

  /**
   * Turning the wheel by k notches toward the user and then k notches away
   * restores the factor, when neither step snaps or clamps.
   */
  lemma WheelStepsCancel(s: ZoomState, k: int, v: View)
    requires ValidView(v) && k > 0
    requires MinZoomLevel(v) <= s.factor <= MaxZoomLevel(v) && !NearDefault(s.factor, v)
    requires var f := WheelRatio(-k) * s.factor;
      MinZoomLevel(v) <= f <= MaxZoomLevel(v) && !NearDefault(f, v)
    ensures Transition(Transition(s, In, WheelRatio(-k), v), Out, WheelRatio(k), v) == ZoomState(s.factor, None)
  {
    WheelRatiosInverse(k);
    InThenOutRestores(s, WheelRatio(-k), WheelRatio(k), v);
  }

  /** An in step by r1 and an out step by r2 with r1 * r2 == 1 restore the factor when neither snaps or clamps. */
  lemma InThenOutRestores(s: ZoomState, r1: real, r2: real, v: View)
    requires ValidView(v) && r1 * r2 == 1.0
    requires MinZoomLevel(v) <= s.factor <= MaxZoomLevel(v) && !NearDefault(s.factor, v)
    requires MinZoomLevel(v) <= r1 * s.factor <= MaxZoomLevel(v) && !NearDefault(r1 * s.factor, v)
    ensures Transition(s, In, r1, v) == ZoomState(r1 * s.factor, None)
    ensures Transition(Transition(s, In, r1, v), Out, r2, v) == ZoomState(s.factor, None)
  {
    var t := Transition(s, In, r1, v);
    PlainStep(s, In, r1, r1 * s.factor, v);
    assert r2 * t.factor == s.factor by {
      assert r2 * (r1 * s.factor) == (r1 * r2) * s.factor;
    }
    PlainStep(t, Out, r2, s.factor, v);
  }

  /** An in or out step whose product neither snaps nor clamps stores the product, with action null. */
  lemma PlainStep(s: ZoomState, action: ZoomAction, ratio: real, f: real, v: View)
    requires ValidView(v) && (action == In || action == Out) && f == ratio * s.factor
    requires MinZoomLevel(v) <= f <= MaxZoomLevel(v) && !NearDefault(f, v)
    ensures Transition(s, action, ratio, v) == ZoomState(f, None)
  {
  }

  // ---------------------------------------------------------------------------
  // When zooming in or out is still possible
  // ---------------------------------------------------------------------------

  /**
   * After any transition with ordered bounds, zooming in is refused exactly at
   * the maximum level and zooming out exactly at the minimum level.
   */
  lemma RefusedExactlyAtBounds(s: ZoomState, action: ZoomAction, ratio: real, v: View)
    requires ValidView(v) && MinZoomLevel(v) <= MaxZoomLevel(v)
    ensures var t := Transition(s, action, ratio, v);
      && (!(t.factor < MaxZoomLevel(v)) <==> t.factor == MaxZoomLevel(v))
      && (!(t.factor > MinZoomLevel(v)) <==> t.factor == MinZoomLevel(v))
  {
  }

  /** A zoom-in from the maximum level stays at the maximum level. */
  lemma ZoomInAtMaximumStays(s: ZoomState, v: View)
    requires ValidView(v) && MinZoomLevel(v) <= MaxZoomLevel(v)
    requires s.factor == MaxZoomLevel(v)
    ensures Transition(s, In, DEFAULT_ZOOM_RATIO, v).factor == MaxZoomLevel(v)
  {
    var max := MaxZoomLevel(v);
    if max > 0.0 {
      assert max >= 1.0 by {
        assert max == max.Floor as real;
      }
    }
  }

  /** A zoom-out from the minimum level stays at the minimum level. */
  lemma ZoomOutAtMinimumStays(s: ZoomState, v: View)
    requires ValidView(v) && MinZoomLevel(v) <= MaxZoomLevel(v)
    requires s.factor == MinZoomLevel(v)
    ensures Transition(s, Out, 1.0 / DEFAULT_ZOOM_RATIO, v).factor == MinZoomLevel(v)
  {
  }

  // ---------------------------------------------------------------------------
  // Listener registry
  // ---------------------------------------------------------------------------

  /** The order in which the Swing listener list hands back its listeners: last registered first. */
  function NotificationOrder(listeners: seq<ListenerId>): (r: seq<ListenerId>)
    ensures |r| == |listeners|
    ensures forall k :: 0 <= k < |r| ==> r[k] == listeners[|listeners| - 1 - k]
  {
    if listeners == [] then [] else NotificationOrder(listeners[1..]) + [listeners[0]]
  }

  /** One delivery of `e` to each listener of `order`, in that order. */
  function Broadcast(order: seq<ListenerId>, e: ZoomEvent): (r: seq<Delivery>)
    ensures |r| == |order|
    ensures forall k :: 0 <= k < |r| ==> r[k] == Delivery(order[k], e)
  {
    if order == [] then [] else Broadcast(order[..|order| - 1], e) + [Delivery(order[|order| - 1], e)]
  }

  function Recipients(ds: seq<Delivery>): (r: seq<ListenerId>)
    ensures |r| == |ds|
  {
    if ds == [] then [] else [ds[0].listener] + Recipients(ds[1..])
  }

  /**
   * Each transition notifies every registered listener as many times as it is
   * registered (once, unless it was added twice), and all receive the same event.
   */
  lemma {:induction false} EveryListenerNotified(listeners: seq<ListenerId>, e: ZoomEvent)
    ensures multiset(Recipients(Broadcast(NotificationOrder(listeners), e))) == multiset(listeners)
    ensures forall d :: d in Broadcast(NotificationOrder(listeners), e) ==> d.event == e
  {
    RecipientsOfBroadcast(NotificationOrder(listeners), e);
    NotificationOrderPermutes(listeners);
  }

  lemma {:induction false} RecipientsOfBroadcast(order: seq<ListenerId>, e: ZoomEvent)
    ensures Recipients(Broadcast(order, e)) == order
  {
    var b := Broadcast(order, e);
    var r := Recipients(b);
    forall k | 0 <= k < |order|
      ensures r[k] == order[k]
    {
      RecipientAt(b, k);
    }
  }

  lemma {:induction false} RecipientAt(ds: seq<Delivery>, k: nat)
    requires k < |ds|
    ensures Recipients(ds)[k] == ds[k].listener
  {
    if k > 0 {
      RecipientAt(ds[1..], k - 1);
    }
  }

  lemma {:induction false} NotificationOrderPermutes(listeners: seq<ListenerId>)
    ensures multiset(NotificationOrder(listeners)) == multiset(listeners)
  {
    if listeners != [] {
      NotificationOrderPermutes(listeners[1..]);
      assert listeners == [listeners[0]] + listeners[1..];
    }
  }

  /** The index of the last occurrence of `x` in `s`, or -1 (how the Swing list searches). */
  function LastIndexOf(s: seq<ListenerId>, x: ListenerId): (i: int)
    ensures -1 <= i < |s|
    ensures i == -1 <==> x !in s
    ensures i >= 0 ==> s[i] == x && x !in s[i + 1..]
  {
    if s == [] then -1
    else if s[|s| - 1] == x then |s| - 1
    else
      var i := LastIndexOf(s[..|s| - 1], x);
      assert s == s[..|s| - 1] + [s[|s| - 1]];
      i
  }

  /** removeZoomListener: drops the last registration of `x`, if any. */
  function RemoveLast(s: seq<ListenerId>, x: ListenerId): (r: seq<ListenerId>)
    ensures x !in s ==> r == s
    ensures x in s ==> |r| == |s| - 1 && multiset(r) == multiset(s) - multiset{x}
    ensures x in s ==> r == s[..LastIndexOf(s, x)] + s[LastIndexOf(s, x) + 1..]
  {
    var i := LastIndexOf(s, x);
    if i < 0 then s
    else
      assert s == s[..i] + [s[i]] + s[i + 1..];
      s[..i] + s[i + 1..]
  }

  // ---------------------------------------------------------------------------
  // The controller
  // ---------------------------------------------------------------------------

  class ZoomController {
    /** The current (factor, action) pair, replaced whole by each request. */
    var state: ZoomState
    /** The registered listeners, in registration order. */
    var listeners: seq<ListenerId>
    /** Every notification made so far, in order: what the listeners observe. */
    var delivered: seq<Delivery>

    ghost predicate Valid()
      reads this
    {
      state.factor >= 0.0
    }

    /** The effect of one zoom request made from the given earlier state. */
    ghost predicate Performed(s0: ZoomState, l0: seq<ListenerId>, d0: seq<Delivery>,
                              action: ZoomAction, ratio: real, center: Option<Point>, v: View)
      requires ValidView(v)
      reads this
    {
      && listeners == l0
      && state == Transition(s0, action, ratio, v)
      && delivered == d0 + Broadcast(NotificationOrder(l0), Event(s0, action, ratio, center, v))
    }

    constructor ()
      ensures Valid()
      ensures state == INITIAL_STATE && listeners == [] && delivered == []
    {
      state := INITIAL_STATE;
      listeners := [];
      delivered := [];
    }

    method AddZoomListener(l: ListenerId)
      modifies this
      ensures listeners == old(listeners) + [l]
      ensures state == old(state) && delivered == old(delivered)
    {
      listeners := listeners + [l];
    }

    method RemoveZoomListener(l: ListenerId)
      modifies this
      ensures listeners == RemoveLast(old(listeners), l)
      ensures state == old(state) && delivered == old(delivered)
    {
      listeners := RemoveLast(listeners, l);
    }

    /** getFactor; the stored factor is never NaN here, so the source's fallback never applies. */
    function GetFactor(): (r: real)
      reads this
      requires Valid()
      ensures r >= 0.0 && r == state.factor
    {
      state.factor
    }

    function CanZoomIn(v: View): (r: bool)
      reads this
      requires ValidView(v)
      ensures r <==> state.factor < MaxZoomLevel(v)
    {
      state.factor < MaxZoomLevel(v)
    }

    function CanZoomOut(v: View): (r: bool)
      reads this
      requires ValidView(v)
      ensures r <==> state.factor > MinZoomLevel(v)
    {
      state.factor > MinZoomLevel(v)
    }

    function IsZoomAll(): (r: bool)
      reads this
      ensures r <==> state.action == Some(All)
    {
      state.action == Some(All)
    }

    function IsZoomDefault(): (r: bool)
      reads this
      ensures r <==> state.action == Some(Default)
    {
      state.action == Some(Default)
    }

    /** The switch of the private zoom: the proposed factor, action and view width per action. */
    static method ProposeFor(action: ZoomAction, ratio: real, oldFactor: real, v: View)
      returns (newFactor: Candidate, newValue: Option<ZoomAction>, newWidth: int)
      requires ValidView(v)
      ensures newFactor == Proposed(action, ratio, oldFactor, v)
      ensures newValue == if action == In || action == Out then None else Some(action)
      ensures newWidth == ProposedWidth(action, ratio, v)
    {
      var absLength := v.absoluteLength;
      newValue := Some(action);
      match action {
        case In | Out =>
          newFactor := Finite(ratio * oldFactor);
          newValue := None;
          var scaled := TruncateToInt(v.preferredWidth as real * ratio);
          newWidth := if v.visibleWidth >= scaled then v.visibleWidth else scaled;
          assert newWidth == ProposedWidth(action, ratio, v);
        case All =>
          newFactor := if absLength == 0 then NonFinite
                       else Finite(v.visibleWidth as real / absLength as real);
          newWidth := v.visibleWidth;
        case Maximum =>
          newFactor := Finite(MaxZoomLevel(v));
          newWidth := MaximumWidth(v);
        case Default =>
          newFactor := Finite(DefaultZoomLevel(v));
          newWidth := TruncateToInt(absLength as real * DefaultZoomLevel(v));
          assert newWidth == ProposedWidth(action, ratio, v);
        case Restore =>
          newFactor := Finite(oldFactor);
          newWidth := v.preferredWidth;
      }
    }

    /** The tail of the private zoom: snap onto the default level, then clamp into the bounds. */
    static method SnapAndClamp(candidate: Candidate, value: Option<ZoomAction>, v: View)
      returns (factor: real, newValue: Option<ZoomAction>)
      requires ValidView(v)
      ensures ZoomState(factor, newValue) == Settle(candidate, value, v)
    {
      var newFactor := candidate;
      newValue := value;
      var defaultZoomLevel := DefaultZoomLevel(v);
      var minZoomLevel := MinZoomLevel(v);
      var maxZoomLevel := MaxZoomLevel(v);

      if newFactor.Finite? && Abs(newFactor.value - defaultZoomLevel) < SNAP_TOLERANCE {
        newFactor := Finite(defaultZoomLevel);
        newValue := Some(Default);
      }

      if newFactor.Finite? && newFactor.value < minZoomLevel {
        factor, newValue := minZoomLevel, Some(All);
      } else if newFactor.NonFinite? || newFactor.value > maxZoomLevel {
        factor, newValue := maxZoomLevel, Some(Maximum);
      } else {
        factor := newFactor.value;
      }
    }

    /** The private zoom(action, factor, centre): the one transition every request runs. */
    method Zoom(action: ZoomAction, ratio: real, center: Option<Point>, v: View)
      requires Valid() && ValidView(v)
      modifies this
      ensures Valid()
      ensures Performed(old(state), old(listeners), old(delivered), action, ratio, center, v)
    {
      var oldFactor := GetFactor();
      var newFactor, newValue, newWidth := ProposeFor(action, ratio, oldFactor, v);

      var newHeight := v.screenHeight;
      if newHeight < v.visibleHeight {
        newHeight := v.visibleHeight;
      }

      var centerPoint := if center.Some? then center.value else Point(v.visibleCenterX, 0);

      var factor;
      factor, newValue := SnapAndClamp(newFactor, newValue, v);

      state := ZoomState(factor, newValue);
      var e := ZoomEvent(oldFactor, factor, action, centerPoint, Dimension(newWidth, newHeight));
      assert e == Event(old(state), action, ratio, center, v);
      FireZoomEvent(e);
    }

    /** fireZoomEvent: hands `e` to every listener, in the order the listener list returns them. */
    method FireZoomEvent(e: ZoomEvent)
      modifies this
      ensures state == old(state) && listeners == old(listeners)
      ensures delivered == old(delivered) + Broadcast(NotificationOrder(listeners), e)
    {
      var order := NotificationOrder(listeners);
      var k := 0;
      while k < |order|
        invariant 0 <= k <= |order|
        invariant state == old(state) && listeners == old(listeners)
        invariant delivered == old(delivered) + Broadcast(order[..k], e)
      {
        assert order[..k + 1][..k] == order[..k];
        delivered := delivered + [Delivery(order[k], e)];
        k := k + 1;
      }
      assert order[..k] == order;
    }

    method RestoreZoomLevel(v: View)
      requires Valid() && ValidView(v)
      modifies this
      ensures Valid()
      ensures Performed(old(state), old(listeners), old(delivered), Restore, old(state).factor, None, v)
    {
      Zoom(Restore, state.factor, None, v);
    }

    /**
     * zoom(rotation, point): the mouse wheel; a zero rotation does nothing at all.
     * The ratio is the corrected WheelRatio, which differs from the source only
     * at Integer.MIN_VALUE (see WheelAtMinValueZoomsAll).
     */
    method ZoomWheel(rotation: int, point: Option<Point>, v: View)
      requires Valid() && ValidView(v) && INT_MIN <= rotation <= INT_MAX
      modifies this
      ensures Valid()
      ensures rotation > 0 ==> Performed(old(state), old(listeners), old(delivered), Out, WheelRatio(rotation), point, v)
      ensures rotation < 0 ==> Performed(old(state), old(listeners), old(delivered), In, WheelRatio(rotation), point, v)
      ensures rotation == 0 ==> state == old(state) && listeners == old(listeners) && delivered == old(delivered)
    {
      if rotation > 0 {
        Zoom(Out, WheelRatio(rotation), point, v);
      } else if rotation < 0 {
        Zoom(In, WheelRatio(rotation), point, v);
      }
    }

    method ZoomAll(v: View)
      requires Valid() && ValidView(v)
      modifies this
      ensures Valid()
      ensures Performed(old(state), old(listeners), old(delivered), All, MinZoomLevel(v), None, v)
    {
      Zoom(All, MinZoomLevel(v), None, v);
    }

    method ZoomDefault(v: View)
      requires Valid() && ValidView(v)
      modifies this
      ensures Valid()
      ensures Performed(old(state), old(listeners), old(delivered), Default, DefaultZoomLevel(v), None, v)
    {
      Zoom(Default, DefaultZoomLevel(v), None, v);
    }

    method ZoomIn(v: View)
      requires Valid() && ValidView(v)
      modifies this
      ensures Valid()
      ensures Performed(old(state), old(listeners), old(delivered), In, DEFAULT_ZOOM_RATIO, None, v)
    {
      Zoom(In, DEFAULT_ZOOM_RATIO, None, v);
    }

    method ZoomMaximum(v: View)
      requires Valid() && ValidView(v)
      modifies this
      ensures Valid()
      ensures Performed(old(state), old(listeners), old(delivered), Maximum, MaxZoomLevel(v), None, v)
    {
      Zoom(Maximum, MaxZoomLevel(v), None, v);
    }

    method ZoomOut(v: View)
      requires Valid() && ValidView(v)
      modifies this
      ensures Valid()
      ensures Performed(old(state), old(listeners), old(delivered), Out, 1.0 / DEFAULT_ZOOM_RATIO, None, v)
    {
      Zoom(Out, 1.0 / DEFAULT_ZOOM_RATIO, None, v);
    }

    /**
     * zoomRegion: a drag shorter than the threshold is refused; a longer one is
     * accepted. Neither changes the zoom state or notifies anyone.
     */
    method ZoomRegion(p1: Point, p2: Point) returns (zoomed: bool)
      ensures zoomed <==> SquaredDistance(p1, p2) >= REGION_THRESHOLD * REGION_THRESHOLD
    {
      zoomed := !(SquaredDistance(p1, p2) < REGION_THRESHOLD * REGION_THRESHOLD);
    }
  }

  /** The square of Point.distance, which is below 10 exactly when this is below 100. */
  function SquaredDistance(p1: Point, p2: Point): (d: int)
    ensures d >= 0
    ensures d == 0 <==> p1 == p2
  {
    SquaresNonNegative(p1.x - p2.x);
    SquaresNonNegative(p1.y - p2.y);
    (p1.x - p2.x) * (p1.x - p2.x) + (p1.y - p2.y) * (p1.y - p2.y)
  }

  lemma SquaresNonNegative(a: int)
    ensures a * a >= 0 && (a * a == 0 <==> a == 0)
  {
    if a > 0 {
      assert a * a >= a;
    } else if a < 0 {
      assert a * a == (-a) * (-a);
      assert (-a) * (-a) >= -a;
    }
  }
}
