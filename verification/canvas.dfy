/** The stack canvas (matplotlayers/backends/stack_canvas.py): turns cursor
    gestures, given in figure-relative coordinates, into zooming and panning
    of one stack's view limits. The axes box comes from matplotlib as numpy
    float64 numbers, so the arithmetic on it follows numpy: dividing by zero
    or an undefined power gives inf or nan (with a warning) instead of
    raising. Finite numbers are exact reals; `**` on positive bases is a
    parameter of the operations that use it. */
module Canvas {
  import opened Base
  import opened Drawing
  import opened Stacks

  type Point = (real, real)

  /** The result of a numpy float64 computation: a finite value, or inf or
      nan, which the model does not tell apart. */
  datatype Numeric<+T> = Finite(v: T) | NonFinite

  /** Axes-relative coordinates as numpy computes them. */
  type AxesPoint = (Numeric<real>, Numeric<real>)

  /** What a cursor motion currently does. */
  datatype Mode = NoMotion | ZoomMode | PanMode

  /** What `start_zoom` records for one axis: the fixed axes position, the
      data value under it, and the distances from that value to the limits. */
  datatype AxisAnchor = AxisAnchor(axesPos: real, dataPos: real, distances: Lim)

  /** What `start_zoom` records, one anchor per axis. */
  datatype ZoomGesture = ZoomGesture(x: Numeric<AxisAnchor>, y: Numeric<AxisAnchor>)

  /** What `start_pan` records: the limits at the start, the data span of the
      axes extent, and the cursor position in axes coordinates. */
  datatype PanGesture = PanGesture(xlim: Lim, ylim: Lim, ratio: Point, beginAxes: AxesPoint)

  /** Figure coordinates of an axes-relative point: the reference mapping
      the conversion below inverts. */
  function AxesToFigure(b: Bbox, q: Point): Point {
    (b.x0 + q.0 * b.width, b.y0 + q.1 * b.height)
  }

  /** numpy float64 division: a zero divisor gives inf or nan, never an
      exception. */
  function Divide(n: real, d: real): (r: Numeric<real>)
    ensures r.Finite? <==> d != 0.0
    ensures r.Finite? ==> r.v * d == n
  {
    if d == 0.0 then NonFinite else Finite(n / d)
  }

  /** Axes-relative coordinates of a figure point. Along a dimension in which
      the box has no extent the coordinate is inf or nan. */
  function FigureToAxes(b: Bbox, p: Point): (r: AxesPoint)
    ensures r.0.Finite? <==> b.width != 0.0
    ensures r.1.Finite? <==> b.height != 0.0
    ensures r.0.Finite? && r.1.Finite? ==> AxesToFigure(b, (r.0.v, r.1.v)) == p
  {
    var r := (Divide(p.0 - b.x0, b.width), Divide(p.1 - b.y0, b.height));
    assert r.0.Finite? && r.1.Finite? ==>
             AxesToFigure(b, (r.0.v, r.1.v)).0 == p.0 && AxesToFigure(b, (r.0.v, r.1.v)).1 == p.1;
    r
  }

  lemma FigureAxesRoundTrip(b: Bbox, q: Point)
    requires b.width != 0.0 && b.height != 0.0
    ensures FigureToAxes(b, AxesToFigure(b, q)) == (Finite(q.0), Finite(q.1))
  {
    var p := AxesToFigure(b, q);
    assert (p.0 - b.x0) / b.width == q.0;
    assert (p.1 - b.y0) / b.height == q.1;
  }

  /** Linear interpolation between the two ends of a limit. */
  function Interpolate(lim: Lim, t: real): (r: real)
    ensures t == 0.0 ==> r == lim.0
    ensures t == 1.0 ==> r == lim.1
  {
    lim.0 * (1.0 - t) + lim.1 * t
  }

  /** The data point at axes-relative position `q` for the given limits. */
  function AxesToData(xlim: Lim, ylim: Lim, q: Point): (r: Point)
    ensures q == (0.0, 0.0) ==> r == (xlim.0, ylim.0)
    ensures q == (1.0, 1.0) ==> r == (xlim.1, ylim.1)
  {
    (Interpolate(xlim, q.0), Interpolate(ylim, q.1))
  }

  /** On an axis of nonzero span the conversion is invertible: the axes
      position of a data point is its offset from the start over the span. */
  lemma AxesToDataInvertible(lim: Lim, t: real)
    requires lim.1 != lim.0
    ensures (Interpolate(lim, t) - lim.0) / (lim.1 - lim.0) == t
  {
    assert Interpolate(lim, t) - lim.0 == t * (lim.1 - lim.0);
  }

  /** numpy's `0 <= a <= 1`: every comparison with inf or nan that this
      chain needs is false. */
  predicate InUnit(a: Numeric<real>) {
    a.Finite? && 0.0 <= a.v <= 1.0
  }

  /** Whether a figure point lies over the axes: both axes coordinates in
      [0, 1]. A box of zero size never applies. */
  function EventLocationApplies(b: Bbox, p: Point): (r: bool)
    ensures b.width == 0.0 || b.height == 0.0 ==> !r
  {
    var a := FigureToAxes(b, p);
    InUnit(a.0) && InUnit(a.1)
  }

  lemma DivBounds(d: real, w: real)
    requires w > 0.0
    ensures 0.0 <= d / w <= 1.0 <==> 0.0 <= d <= w
  {
    assert d == (d / w) * w;
    if 0.0 <= d / w <= 1.0 {
      assert (d / w) * w <= 1.0 * w;
    }
  }

  /** For a box of positive size, the event applies exactly when the point
      lies inside the box, borders included. */
  lemma AppliesInsideBox(b: Bbox, p: Point)
    requires b.width > 0.0 && b.height > 0.0
    ensures EventLocationApplies(b, p) <==>
              b.x0 <= p.0 <= b.x0 + b.width && b.y0 <= p.1 <= b.y0 + b.height
  {
    DivBounds(p.0 - b.x0, b.width);
    DivBounds(p.1 - b.y0, b.height);
  }

  predicate IsInteger(r: real) {
    r.Floor as real == r
  }

  /** numpy's float64 `response ** exponent`, with `power` giving the value
      for a positive base. Any number to the power 0 is 1; 0 to a negative
      power is inf and to a positive one is 0; a negative number to a
      fractional power is nan, to an integral one it is the power of its
      magnitude with the sign of the parity. Nothing raises. */
  function ZoomFactor(response: real, exponent: real, power: (real, real) -> real): (r: Numeric<real>)
    ensures r.NonFinite? <==> exponent != 0.0 && ((response == 0.0 && exponent < 0.0) || (response < 0.0 && !IsInteger(exponent)))
    ensures exponent == 0.0 ==> r == Finite(1.0)
    ensures response == 0.0 && exponent > 0.0 ==> r == Finite(0.0)
    ensures response > 0.0 && exponent != 0.0 ==> r == Finite(power(response, exponent))
  {
    if exponent == 0.0 then Finite(1.0)
    else if response == 0.0 then (if exponent < 0.0 then NonFinite else Finite(0.0))
    else if response < 0.0 then
      if !IsInteger(exponent) then NonFinite
      else if exponent.Floor % 2 == 0 then Finite(power(-response, exponent))
      else Finite(-power(-response, exponent))
    else Finite(power(response, exponent))
  }

  /** What `start_zoom` records for one axis with limits `lim` and the cursor
      at axes coordinate `a`. A non-finite position gives a non-finite data
      value and distances, so the whole anchor is non-finite. */
  function BeginAnchor(lim: Lim, a: Numeric<real>): (r: Numeric<AxisAnchor>)
    ensures r.Finite? <==> a.Finite?
    ensures r.Finite? ==> r.v.axesPos == a.v && r.v.dataPos == Interpolate(lim, a.v)
    ensures r.Finite? ==> r.v.dataPos + r.v.distances.0 == lim.0 && r.v.dataPos + r.v.distances.1 == lim.1
  {
    match a
    case NonFinite => NonFinite
    case Finite(t) =>
      var d := Interpolate(lim, t);
      Finite(AxisAnchor(t, d, (lim.0 - d, lim.1 - d)))
  }

  /** What `start_zoom` records for limits `xlim`, `ylim` and the cursor at
      axes position `a`. */
  function BeginZoom(xlim: Lim, ylim: Lim, a: AxesPoint): ZoomGesture {
    ZoomGesture(BeginAnchor(xlim, a.0), BeginAnchor(ylim, a.1))
  }

  /** The limits after scaling the distances from `center` by `factor`. */
  function ZoomLimits(center: real, distances: Lim, factor: real): (r: Lim)
    ensures r.1 - r.0 == factor * (distances.1 - distances.0)
  {
    (center + distances.0 * factor, center + distances.1 * factor)
  }

  /** The zoomed limits of one axis for the cursor at axes coordinate `a`.
      They are finite exactly when the anchor, the position and the factor
      are. */
  function ZoomAxis(anchor: Numeric<AxisAnchor>, response: real, a: Numeric<real>,
                    power: (real, real) -> real): (r: Numeric<Lim>)
    ensures r.Finite? <==>
              anchor.Finite? && a.Finite? && ZoomFactor(response, -(a.v - anchor.v.axesPos), power).Finite?
  {
    match (anchor, a)
    case (Finite(z), Finite(t)) =>
      (match ZoomFactor(response, -(t - z.axesPos), power)
       case NonFinite => NonFinite
       case Finite(f) => Finite(ZoomLimits(z.dataPos, z.distances, f)))
    case _ => NonFinite
  }

  /** The limits `zoom` computes for the cursor at figure point `p`. Only a
      zoom that was never started raises: its anchor attribute is missing. */
  function ZoomTarget(b: Bbox, g: Option<ZoomGesture>, rx: real, ry: real, p: Point,
                      power: (real, real) -> real): (r: Result<(Numeric<Lim>, Numeric<Lim>)>)
    ensures r.Err? <==> g.None?
    ensures r.Err? ==> r.error == AttributeError
  {
    match g
    case None => Err(AttributeError)
    case Some(z) =>
      var a := FigureToAxes(b, p);
      Ok((ZoomAxis(z.x, rx, a.0, power), ZoomAxis(z.y, ry, a.1, power)))
  }

  /** Scaling the distances from an interior point `c` of [a, b] keeps `c`
      at the same relative position `t`. */
  lemma ScaleAboutPoint(a: real, b: real, t: real, f: real)
    ensures var c := a * (1.0 - t) + b * t;
            (c + (a - c) * f) * (1.0 - t) + (c + (b - c) * f) * t == c
  {
    var c := a * (1.0 - t) + b * t;
    calc {
      (c + (a - c) * f) * (1.0 - t) + (c + (b - c) * f) * t;
      c * (1.0 - t) + c * t + f * ((a - c) * (1.0 - t) + (b - c) * t);
      c + f * ((a - c) * (1.0 - t) + (b - c) * t);
      c + f * ((a * (1.0 - t) + b * t) - c);
      c;
    }
  }

  /** On one axis, finite zoomed limits keep the anchor's data value at the
      anchor's axes position. */
  lemma ZoomKeepsAnchorAxis(lim: Lim, t: real, response: real, a: Numeric<real>, power: (real, real) -> real)
    requires ZoomAxis(BeginAnchor(lim, Finite(t)), response, a, power).Finite?
    ensures Interpolate(ZoomAxis(BeginAnchor(lim, Finite(t)), response, a, power).v, t) == Interpolate(lim, t)
  {
    var z := BeginAnchor(lim, Finite(t)).v;
    var f := ZoomFactor(response, -(a.v - t), power).v;
    assert ZoomAxis(BeginAnchor(lim, Finite(t)), response, a, power).v == ZoomLimits(z.dataPos, z.distances, f);
    ScaleAboutPoint(lim.0, lim.1, t, f);
  }

  /** The point where the zoom started stays fixed: whatever the responses
      and the motion, every axis whose new limits are finite maps the start
      position to the same data value as before. */
  lemma ZoomKeepsAnchor(b: Bbox, xlim: Lim, ylim: Lim, s: Point, rx: real, ry: real, p: Point,
                        power: (real, real) -> real)
    requires b.width != 0.0 && b.height != 0.0
    ensures var a := FigureToAxes(b, s);
            var t := ZoomTarget(b, Some(BeginZoom(xlim, ylim, a)), rx, ry, p, power).value;
            && (t.0.Finite? ==> Interpolate(t.0.v, a.0.v) == Interpolate(xlim, a.0.v))
            && (t.1.Finite? ==> Interpolate(t.1.v, a.1.v) == Interpolate(ylim, a.1.v))
  {
    var a := FigureToAxes(b, s);
    var q := FigureToAxes(b, p);
    var t := ZoomTarget(b, Some(BeginZoom(xlim, ylim, a)), rx, ry, p, power).value;
    if t.0.Finite? {
      ZoomKeepsAnchorAxis(xlim, a.0.v, rx, q.0, power);
    }
    if t.1.Finite? {
      ZoomKeepsAnchorAxis(ylim, a.1.v, ry, q.1, power);
    }
  }

  /** Without cursor motion the zoom reproduces the starting limits. */
  lemma ZoomWithoutMotion(b: Bbox, xlim: Lim, ylim: Lim, rx: real, ry: real, p: Point,
                          power: (real, real) -> real)
    requires b.width != 0.0 && b.height != 0.0
    ensures ZoomTarget(b, Some(BeginZoom(xlim, ylim, FigureToAxes(b, p))), rx, ry, p, power)
            == Ok((Finite(xlim), Finite(ylim)))
  {
    var a := FigureToAxes(b, p);
    var g := BeginZoom(xlim, ylim, a);
    assert ZoomFactor(rx, -(a.0.v - a.0.v), power) == Finite(1.0);
    assert ZoomFactor(ry, -(a.1.v - a.1.v), power) == Finite(1.0);
    assert ZoomLimits(g.x.v.dataPos, g.x.v.distances, 1.0) == xlim;
    assert ZoomLimits(g.y.v.dataPos, g.y.v.distances, 1.0) == ylim;
  }

  /** A zoom response of 0 is meant to disable zooming along its axis. The
      factor is still computed: moving the cursor forward of the anchor
      gives 0 to a negative power, which numpy turns into inf, so the target
      limits of that axis are non-finite (`StackCanvas.Zoom` never applies
      them); the other axis' target does not depend on this response. */
  lemma ZeroResponseTarget(b: Bbox, g: ZoomGesture, rx: real, ry: real, p: Point, power: (real, real) -> real)
    requires b.width != 0.0 && g.x.Finite?
    ensures var t := ZoomTarget(b, Some(g), 0.0, ry, p, power).value;
            && (t.0.NonFinite? <==> FigureToAxes(b, p).0.v > g.x.v.axesPos)
            && t.1 == ZoomTarget(b, Some(g), rx, ry, p, power).value.1
  {
    var e := -(FigureToAxes(b, p).0.v - g.x.v.axesPos);
    assert ZoomFactor(0.0, e, power).NonFinite? <==> e < 0.0;
  }

  /** One pan axis: the starting limits moved against the cursor motion. */
  function PanLimits(begin: Lim, response: real, motion: real, ratio: real): (r: Lim)
    ensures r.1 - r.0 == begin.1 - begin.0
    ensures response == 0.0 || motion == 0.0 || ratio == 0.0 ==> r == begin
  {
    var move := response * motion * ratio;
    assert response == 0.0 || motion == 0.0 || ratio == 0.0 ==> move == 0.0;
    (begin.0 - move, begin.1 - move)
  }

  /** The panned limits of one axis for the cursor at `a`, the pan having
      started at `a0`. An inf or nan position makes the motion, and with it
      both limits, non-finite, whatever the response and the ratio. */
  function PanAxis(begin: Lim, response: real, a: Numeric<real>, a0: Numeric<real>, ratio: real): (r: Numeric<Lim>)
    ensures r.Finite? <==> a.Finite? && a0.Finite?
    ensures r.Finite? ==> r.v.1 - r.v.0 == begin.1 - begin.0
    ensures r.Finite? && a.v == a0.v ==> r.v == begin
  {
    if a.Finite? && a0.Finite? then Finite(PanLimits(begin, response, a.v - a0.v, ratio)) else NonFinite
  }

  /** The limits `pan` computes for the cursor at figure point `p`. Only a pan
      that was never started raises: its recorded attributes are missing. */
  function PanTarget(b: Bbox, g: Option<PanGesture>, rx: real, ry: real, p: Point): (r: Result<(Numeric<Lim>, Numeric<Lim>)>)
    ensures r.Err? <==> g.None?
    ensures r.Err? ==> r.error == AttributeError
  {
    match g
    case None => Err(AttributeError)
    case Some(s) =>
      var a := FigureToAxes(b, p);
      Ok((PanAxis(s.xlim, rx, a.0, s.beginAxes.0, s.ratio.0),
          PanAxis(s.ylim, ry, a.1, s.beginAxes.1, s.ratio.1)))
  }

  /** What `start_pan` records for the limits at its start and the cursor at
      axes position `a`. */
  function BeginPan(xlim: Lim, ylim: Lim, a: AxesPoint): (s: PanGesture)
    ensures s.xlim == xlim && s.ylim == ylim && s.beginAxes == a
    ensures s.ratio == (xlim.1 - xlim.0, ylim.1 - ylim.0)
  {
    PanGesture(xlim, ylim, (xlim.1 - xlim.0, ylim.1 - ylim.0), a)
  }

  /** Shifting [a, b] by its width times (t1 - t0) moves the point at
      relative position t0 to relative position t1. */
  lemma ShiftByWidth(a: real, b: real, t0: real, t1: real)
    ensures var m := (t1 - t0) * (b - a);
            (a - m) * (1.0 - t1) + (b - m) * t1 == a * (1.0 - t0) + b * t0
  {
    var m := (t1 - t0) * (b - a);
    calc {
      (a - m) * (1.0 - t1) + (b - m) * t1;
      a * (1.0 - t1) + b * t1 - m;
      a + (b - a) * t1 - (t1 - t0) * (b - a);
      a + (b - a) * t0;
      a * (1.0 - t0) + b * t0;
    }
  }

  lemma PanFollowsCursorAxis(lim: Lim, t0: real, t1: real)
    ensures Interpolate(PanLimits(lim, 1.0, t1 - t0, lim.1 - lim.0), t1) == Interpolate(lim, t0)
  {
    ShiftByWidth(lim.0, lim.1, t0, t1);
  }

  /** With response 1 on a box of nonzero size the panned limits are finite
      and the data point grabbed at the start of the pan stays under the
      cursor. */
  lemma PanFollowsCursor(b: Bbox, xlim: Lim, ylim: Lim, s: Point, p: Point)
    requires b.width != 0.0 && b.height != 0.0
    ensures var a0 := FigureToAxes(b, s);
            var a := FigureToAxes(b, p);
            var (nx, ny) := PanTarget(b, Some(BeginPan(xlim, ylim, a0)), 1.0, 1.0, p).value;
            && nx.Finite? && ny.Finite?
            && AxesToData(nx.v, ny.v, (a.0.v, a.1.v)) == AxesToData(xlim, ylim, (a0.0.v, a0.1.v))
  {
    var a0 := FigureToAxes(b, s);
    var a := FigureToAxes(b, p);
    PanFollowsCursorAxis(xlim, a0.0.v, a.0.v);
    PanFollowsCursorAxis(ylim, a0.1.v, a.1.v);
  }

  class StackCanvas {
    const stack: Stack
    var zoomResponseX: real
    var zoomResponseY: real
    var panResponseX: real
    var panResponseY: real
    var mode: Mode
    var zoomGesture: Option<ZoomGesture>   // None until a zoom was started
    var panGesture: Option<PanGesture>     // None until a pan was started

    /** A motion mode is entered only with its gesture recorded. */
    predicate GestureReady()
      reads this
    {
      && (mode == ZoomMode ==> zoomGesture.Some?)
      && (mode == PanMode ==> panGesture.Some?)
    }

    constructor (stack: Stack, zoomBoth: Option<real>, zoomX: Option<real>, zoomY: Option<real>,
                 panBoth: Option<real>, panX: Option<real>, panY: Option<real>)
      ensures this.stack == stack && mode == NoMotion
      ensures zoomResponseX == Override(zoomBoth, zoomX, 64.0) && zoomResponseY == Override(zoomBoth, zoomY, 64.0)
      ensures panResponseX == Override(panBoth, panX, 1.0) && panResponseY == Override(panBoth, panY, 1.0)
      ensures zoomGesture.None? && panGesture.None?
      ensures GestureReady()
    {
      this.stack := stack;
      mode := NoMotion;
      zoomResponseX, zoomResponseY, panResponseX, panResponseY := 0.0, 0.0, 0.0, 0.0;
      zoomGesture, panGesture := None, None;
      new;
      SetZoomResponse(zoomBoth, Some(if zoomX.None? then 64.0 else zoomX.value),
                      Some(if zoomY.None? then 64.0 else zoomY.value));
      SetPanResponse(panBoth, Some(if panX.None? then 1.0 else panX.value),
                     Some(if panY.None? then 1.0 else panY.value));
    }

    method SetZoomResponse(both: Option<real>, x: Option<real>, y: Option<real>)
      modifies this`zoomResponseX, this`zoomResponseY
      ensures zoomResponseX == Override(both, x, old(zoomResponseX))
      ensures zoomResponseY == Override(both, y, old(zoomResponseY))
    {
      var ex := Effective(both, x);
      var ey := Effective(both, y);
      if ex.Some? {
        zoomResponseX := ex.value;
      }
      if ey.Some? {
        zoomResponseY := ey.value;
      }
    }

    method SetPanResponse(both: Option<real>, x: Option<real>, y: Option<real>)
      modifies this`panResponseX, this`panResponseY
      ensures panResponseX == Override(both, x, old(panResponseX))
      ensures panResponseY == Override(both, y, old(panResponseY))
    {
      var ex := Effective(both, x);
      var ey := Effective(both, y);
      if ex.Some? {
        panResponseX := ex.value;
      }
      if ey.Some? {
        panResponseY := ey.value;
      }
    }

    /** Turns autoscaling on for both axes. */
    method Autozoom()
      modifies stack`xlim, stack`ylim, stack`autoscaleXOn, stack`autoscaleYOn, stack.axes`xaxis, stack.axes`yaxis
      ensures stack.autoscaleXOn && stack.autoscaleYOn && stack.xlim.None? && stack.ylim.None?
      ensures stack.XValid() && stack.YValid()
    {
      stack.SetAutoscaleOn(Some(true), None, None);
    }

    /** Records the zoom gesture at figure point `p` and enters zoom mode. */
    method StartZoom(p: Point)
      modifies this`zoomGesture, this`mode
      ensures zoomGesture == Some(BeginZoom(stack.GetXlim(), stack.GetYlim(), FigureToAxes(stack.axes.position, p)))
      ensures mode == ZoomMode && GestureReady()
    {
      var xlim := stack.GetXlim();
      var ylim := stack.GetYlim();
      var a := FigureToAxes(stack.axes.position, p);
      zoomGesture := Some(BeginZoom(xlim, ylim, a));
      mode := ZoomMode;
    }

    /** Zooms for the cursor at figure point `p`: each axis whose response is
        nonzero gets its zoomed limits, which turns its autoscaling off; an
        axis with response 0 is left alone. */
    method Zoom(p: Point, power: (real, real) -> real) returns (err: Option<Error>)
      requires stack.Valid()
      modifies stack`xlim, stack`ylim, stack`autoscaleXOn, stack`autoscaleYOn, stack.axes`xaxis, stack.axes`yaxis
      ensures stack.Valid()
      ensures var t := ZoomTarget(stack.axes.position, zoomGesture, zoomResponseX, zoomResponseY, p, power);
              && (t.Err? ==> err == Some(t.error) && stack.xlim == old(stack.xlim) && stack.ylim == old(stack.ylim)
                                && stack.axes.xaxis == old(stack.axes.xaxis) && stack.axes.yaxis == old(stack.axes.yaxis))
              && (t.Ok? ==>
                    && err.None?
                    && stack.xlim == (if zoomResponseX != 0.0 && t.value.0.Finite? then Some(t.value.0.v) else old(stack.xlim))
                    && stack.ylim == (if zoomResponseY != 0.0 && t.value.1.Finite? then Some(t.value.1.v) else old(stack.ylim)))
      ensures zoomResponseX == 0.0 ==>
                stack.xlim == old(stack.xlim) && stack.autoscaleXOn == old(stack.autoscaleXOn) && stack.axes.xaxis == old(stack.axes.xaxis)
      ensures zoomResponseY == 0.0 ==>
                stack.ylim == old(stack.ylim) && stack.autoscaleYOn == old(stack.autoscaleYOn) && stack.axes.yaxis == old(stack.axes.yaxis)
    {
      var t := ZoomTarget(stack.axes.position, zoomGesture, zoomResponseX, zoomResponseY, p, power);
      if t.Err? {
        return Some(t.error);
      }
      var (nx, ny) := t.value;
      if zoomResponseX != 0.0 && nx.Finite? {
        stack.SetXlim(Some(nx.v));
      }
      if zoomResponseY != 0.0 && ny.Finite? {
        stack.SetYlim(Some(ny.v));
      }
      err := None;
    }

    method StopZoom()
      modifies this`mode
      ensures mode == NoMotion && GestureReady()
    {
      mode := NoMotion;
    }

    /** Records the limits, their spans and the cursor position at figure
        point `p`, and enters pan mode. */
    method StartPan(p: Point)
      modifies this`panGesture, this`mode
      ensures panGesture == Some(BeginPan(stack.GetXlim(), stack.GetYlim(), FigureToAxes(stack.axes.position, p)))
      ensures mode == PanMode && GestureReady()
    {
      var xlim := stack.GetXlim();
      var ylim := stack.GetYlim();
      panGesture := Some(BeginPan(xlim, ylim, FigureToAxes(stack.axes.position, p)));
      mode := PanMode;
    }

    /** Pans for the cursor at figure point `p`: both limits are set, so both
        axes stop autoscaling. */
    method Pan(p: Point) returns (err: Option<Error>)
      requires stack.Valid()
      modifies stack`xlim, stack`ylim, stack`autoscaleXOn, stack`autoscaleYOn, stack.axes`xaxis, stack.axes`yaxis
      ensures stack.Valid()
      ensures var t := PanTarget(stack.axes.position, panGesture, panResponseX, panResponseY, p);
              && (t.Err? ==> err == Some(t.error) && stack.xlim == old(stack.xlim) && stack.ylim == old(stack.ylim)
                                && stack.axes.xaxis == old(stack.axes.xaxis) && stack.axes.yaxis == old(stack.axes.yaxis))
              && (t.Ok? ==>
                    && err.None?
                    && stack.xlim == (if t.value.0.Finite? then Some(t.value.0.v) else old(stack.xlim))
                    && stack.ylim == (if t.value.1.Finite? then Some(t.value.1.v) else old(stack.ylim)))
    {
      var t := PanTarget(stack.axes.position, panGesture, panResponseX, panResponseY, p);
      if t.Err? {
        return Some(t.error);
      }
      var (nx, ny) := t.value;
      if nx.Finite? {
        stack.SetXlim(Some(nx.v));
      }
      if ny.Finite? {
        stack.SetYlim(Some(ny.v));
      }
      err := None;
    }

    method StopPan()
      modifies this`mode
      ensures mode == NoMotion && GestureReady()
    {
      mode := NoMotion;
    }

    /** A cursor motion zooms or pans according to the mode, and does
        nothing otherwise. A mode entered through its start method never
        raises. */
    method Motion(p: Point, power: (real, real) -> real) returns (err: Option<Error>)
      requires stack.Valid()
      modifies stack`xlim, stack`ylim, stack`autoscaleXOn, stack`autoscaleYOn, stack.axes`xaxis, stack.axes`yaxis
      ensures stack.Valid()
      ensures mode == NoMotion ==> err.None? && stack.xlim == old(stack.xlim) && stack.ylim == old(stack.ylim)
                                   && stack.axes.xaxis == old(stack.axes.xaxis) && stack.axes.yaxis == old(stack.axes.yaxis)
      ensures mode == ZoomMode ==>
                var t := ZoomTarget(stack.axes.position, zoomGesture, zoomResponseX, zoomResponseY, p, power);
                && (t.Ok? <==> err.None?)
                && (t.Err? ==> stack.xlim == old(stack.xlim) && stack.ylim == old(stack.ylim))
                && (t.Ok? ==>
                      && stack.xlim == (if zoomResponseX != 0.0 && t.value.0.Finite? then Some(t.value.0.v) else old(stack.xlim))
                      && stack.ylim == (if zoomResponseY != 0.0 && t.value.1.Finite? then Some(t.value.1.v) else old(stack.ylim)))
      ensures mode == PanMode ==>
                var t := PanTarget(stack.axes.position, panGesture, panResponseX, panResponseY, p);
                && (t.Ok? <==> err.None?)
                && (t.Ok? ==>
                      && stack.xlim == (if t.value.0.Finite? then Some(t.value.0.v) else old(stack.xlim))
                      && stack.ylim == (if t.value.1.Finite? then Some(t.value.1.v) else old(stack.ylim)))
      ensures GestureReady() ==> err.None?
    {
      err := None;
      if mode == ZoomMode {
        err := Zoom(p, power);
      } else if mode == PanMode {
        err := Pan(p);
      }
    }
  }
}
