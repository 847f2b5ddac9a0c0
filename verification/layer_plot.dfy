/** The plotting layer (matplotlayers/layers/layer_plot.py): one errorbar call
    for the data, or in envelope mode a centre call plus two calls tracing
    the data shifted down and up by its error. */
module LayerPlot {
  import opened Base
  import opened LayerCore
  import opened Drawing

  const EnvelopePrefix: string := "envelope_"

  /** Keys starting with "envelope_" belong to the envelope component. */
  predicate IsEnvelopeKey(k: string) {
    |EnvelopePrefix| <= |k| && k[..|EnvelopePrefix|] == EnvelopePrefix
  }

  /** Python truth value of a configured option. */
  predicate Truthy(v: Value) {
    match v
    case NoneV => false
    case Flag(b) => b
    case Num(r) => r != 0.0
    case Str(s) => s != ""
    case _ => true
  }

  /** The keyword arguments the layer spreads into a call (`**self`): the
      configuration without the error arrays, which live in the err
      component, and without the envelope options. */
  function PlotKwargs(c: Config): Config {
    map k | k in c && k != "xerr" && k != "yerr" && !IsEnvelopeKey(k) :: c[k]
  }

  lemma StripInjective(k1: string, k2: string)
    requires IsEnvelopeKey(k1) && IsEnvelopeKey(k2)
    requires k1[|EnvelopePrefix|..] == k2[|EnvelopePrefix|..]
    ensures k1 == k2
  {
    assert k1 == k1[..|EnvelopePrefix|] + k1[|EnvelopePrefix|..];
    assert k2 == k2[..|EnvelopePrefix|] + k2[|EnvelopePrefix|..];
  }

  /** The envelope component with its "on" switch deleted: the options the
      envelope calls receive, with the "envelope_" prefix stripped. */
  function EnvelopeKwargs(c: Config): (r: Config)
    ensures forall k | k in c && IsEnvelopeKey(k) && k != "envelope_on" ::
              k[|EnvelopePrefix|..] in r && r[k[|EnvelopePrefix|..]] == c[k]
  {
    assert forall k1, k2 | IsEnvelopeKey(k1) && IsEnvelopeKey(k2) && k1[|EnvelopePrefix|..] == k2[|EnvelopePrefix|..] :: k1 == k2 by {
      forall k1, k2 | IsEnvelopeKey(k1) && IsEnvelopeKey(k2) && k1[|EnvelopePrefix|..] == k2[|EnvelopePrefix|..]
        ensures k1 == k2
      {
        StripInjective(k1, k2);
      }
    }
    map k | k in c && IsEnvelopeKey(k) && k != "envelope_on" :: k[|EnvelopePrefix|..] := c[k]
  }

  /** numpy's element-wise `a + sign * b` on one-dimensional arrays, with
      broadcasting of a length-one operand; other shape mismatches raise. */
  function Broadcast(a: seq<real>, b: seq<real>, sign: real): (r: Result<seq<real>>)
    ensures r.Ok? <==> |a| == |b| || |a| == 1 || |b| == 1
    ensures r.Ok? && |a| == |b| ==>
              |r.value| == |a| && forall i :: 0 <= i < |a| ==> r.value[i] == a[i] + sign * b[i]
    ensures r.Ok? && |a| != |b| && |b| == 1 ==>
              |r.value| == |a| && forall i :: 0 <= i < |a| ==> r.value[i] == a[i] + sign * b[0]
    ensures r.Ok? && |a| != |b| && |a| == 1 ==>
              |r.value| == |b| && forall i :: 0 <= i < |b| ==> r.value[i] == a[0] + sign * b[i]
  {
    if |a| == |b| then Ok(seq(|a|, i requires 0 <= i < |a| => a[i] + sign * b[i]))
    else if |b| == 1 then Ok(seq(|a|, i requires 0 <= i < |a| => a[i] + sign * b[0]))
    else if |a| == 1 then Ok(seq(|b|, i requires 0 <= i < |b| => a[0] + sign * b[i]))
    else Err(ValueError)
  }

  /** `x + sign * e` for the data `x` and one row `e` of errors. Data that is
      neither a scalar nor one-dimensional is outside this model and is
      reported as a ValueError. */
  function Shift(x: Value, e: seq<real>, sign: real): (r: Result<Value>)
    ensures r.Ok? <==> x.Num? || (x.Arr? && (|x.xs| == |e| || |x.xs| == 1 || |e| == 1))
    ensures r.Ok? ==> r.value.Arr?
    ensures r.Err? ==> r.error == ValueError
  {
    match x
    case Arr(a) => (match Broadcast(a, e, sign) case Ok(s) => Ok(Arr(s)) case Err(err) => Err(err))
    case Num(r) => Ok(Arr(seq(|e|, i requires 0 <= i < |e| => r + sign * e[i])))
    case _ => Err(ValueError)
  }

  /** The two envelope sides (lower, upper) of `x` with error `err`. A
      one-dimensional error is symmetric; a two-dimensional one gives the
      lower error in row 0 and the upper error in row 1. An error array of
      any other dimension leaves the sides unbound, which raises. */
  function Sides(x: Value, err: Value): (r: Result<(Value, Value)>)
    ensures !err.Arr? && !err.Mat? ==> r == Err(NameError)
    ensures r.Ok? ==> r.value.0.Arr? && r.value.1.Arr?
  {
    match err
    case Arr(e) =>
      (match Shift(x, e, -1.0)
       case Err(r) => Err(r)
       case Ok(lo) =>
         match Shift(x, e, 1.0)
         case Err(r) => Err(r)
         case Ok(hi) => Ok((lo, hi)))
    case Mat(rows) =>
      if |rows| == 0 then Err(IndexError)
      else
        (match Shift(x, rows[0], -1.0)
         case Err(r) => Err(r)
         case Ok(lo) =>
           if |rows| < 2 then Err(IndexError)
           else
             match Shift(x, rows[1], 1.0)
             case Err(r) => Err(r)
             case Ok(hi) => Ok((lo, hi)))
    case _ => Err(NameError)
  }

  /** What `to_axes` does, as a function of the configuration. */
  function PlotDraw(c: Config): Outcome
  {
    if !Configured(c, "x") || !Configured(c, "y") then Outcome([], None)
    else if Truthy(Get(c, "envelope_on")) then
      if Configured(c, "xerr") && Configured(c, "yerr") then Outcome([], Some(ValueError))
      else
        var center := Errorbar(PlotKwargs(c));
        if Configured(c, "xerr") then
          match Sides(c["x"], c["xerr"])
          case Err(e) => Outcome([center], Some(e))
          case Ok((left, right)) =>
            Outcome([center,
                     Errorbar(EnvelopeKwargs(c)["x" := left]["y" := c["y"]]),
                     Errorbar(EnvelopeKwargs(c)["x" := right]["y" := c["y"]])], None)
        else if Configured(c, "yerr") then
          match Sides(c["y"], c["yerr"])
          case Err(e) => Outcome([center], Some(e))
          case Ok((bottom, top)) =>
            Outcome([center,
                     Errorbar(EnvelopeKwargs(c)["x" := c["x"]]["y" := bottom]),
                     Errorbar(EnvelopeKwargs(c)["x" := c["x"]]["y" := top])], None)
        else Outcome([center], None)
    else
      Outcome([Errorbar(PlotKwargs(c)["xerr" := Get(c, "xerr")]["yerr" := Get(c, "yerr")])], None)
  }

  /** The shape of what `to_axes` does. At most three calls are made;
      nothing is drawn without both coordinates, or when the envelope is
      asked for with both errors given; an error is raised only in envelope
      mode, after the centre call at the latest. The first call carries every
      plain option and never an envelope option; without the envelope it is
      the only call and carries both errors. */
  lemma PlotDrawShape(c: Config)
    ensures |PlotDraw(c).cmds| <= 3
    ensures PlotDraw(c).error.Some? ==> |PlotDraw(c).cmds| <= 1 && Truthy(Get(c, "envelope_on"))
    ensures PlotDraw(c).cmds == [] <==>
              || !Configured(c, "x") || !Configured(c, "y")
              || (Truthy(Get(c, "envelope_on")) && Configured(c, "xerr") && Configured(c, "yerr"))
    ensures PlotDraw(c).cmds != [] ==>
              && PlotDraw(c).cmds[0].Errorbar?
              && (forall k | k in PlotKwargs(c) :: k in PlotDraw(c).cmds[0].kwargs && PlotDraw(c).cmds[0].kwargs[k] == c[k])
              && (forall k | k in PlotDraw(c).cmds[0].kwargs :: !IsEnvelopeKey(k))
    ensures !Truthy(Get(c, "envelope_on")) && PlotDraw(c).cmds != [] ==>
              && PlotDraw(c).error.None? && |PlotDraw(c).cmds| == 1
              && Get(PlotDraw(c).cmds[0].kwargs, "xerr") == Get(c, "xerr")
              && Get(PlotDraw(c).cmds[0].kwargs, "yerr") == Get(c, "yerr")
    ensures Configured(c, "x") && Configured(c, "y") && Truthy(Get(c, "envelope_on")) ==>
              && (Configured(c, "xerr") && Configured(c, "yerr") ==> PlotDraw(c) == Outcome([], Some(ValueError)))
              && (!Configured(c, "xerr") && !Configured(c, "yerr") ==> PlotDraw(c) == Outcome([Errorbar(PlotKwargs(c))], None))
  {
  }

  /** In envelope mode with the x error alone, the envelope is traced by two
      further calls at the left and right sides and the unchanged y data,
      each with the envelope options; if the sides cannot be computed the
      error follows the centre call. */
  lemma XEnvelopeCalls(c: Config)
    requires Configured(c, "x") && Configured(c, "y") && Truthy(Get(c, "envelope_on"))
    requires Configured(c, "xerr") && !Configured(c, "yerr")
    ensures var r := PlotDraw(c);
            && r.cmds[0] == Errorbar(PlotKwargs(c))
            && (r.error.None? <==> Sides(c["x"], c["xerr"]).Ok?)
            && (r.error.Some? ==> |r.cmds| == 1 && r.error.value == Sides(c["x"], c["xerr"]).error)
            && (r.error.None? ==>
                  && |r.cmds| == 3
                  && r.cmds[1].kwargs["x"] == Sides(c["x"], c["xerr"]).value.0
                  && r.cmds[2].kwargs["x"] == Sides(c["x"], c["xerr"]).value.1
                  && r.cmds[1].kwargs["y"] == r.cmds[2].kwargs["y"] == c["y"]
                  && forall k | k in EnvelopeKwargs(c) && k != "x" && k != "y" ::
                       r.cmds[1].kwargs[k] == r.cmds[2].kwargs[k] == EnvelopeKwargs(c)[k])
  {
  }

  /** The same with the y error alone: bottom and top sides, x unchanged. */
  lemma YEnvelopeCalls(c: Config)
    requires Configured(c, "x") && Configured(c, "y") && Truthy(Get(c, "envelope_on"))
    requires !Configured(c, "xerr") && Configured(c, "yerr")
    ensures var r := PlotDraw(c);
            && r.cmds[0] == Errorbar(PlotKwargs(c))
            && (r.error.None? <==> Sides(c["y"], c["yerr"]).Ok?)
            && (r.error.Some? ==> |r.cmds| == 1 && r.error.value == Sides(c["y"], c["yerr"]).error)
            && (r.error.None? ==>
                  && |r.cmds| == 3
                  && r.cmds[1].kwargs["y"] == Sides(c["y"], c["yerr"]).value.0
                  && r.cmds[2].kwargs["y"] == Sides(c["y"], c["yerr"]).value.1
                  && r.cmds[1].kwargs["x"] == r.cmds[2].kwargs["x"] == c["x"]
                  && forall k | k in EnvelopeKwargs(c) && k != "x" && k != "y" ::
                       r.cmds[1].kwargs[k] == r.cmds[2].kwargs[k] == EnvelopeKwargs(c)[k])
  {
  }

  /** An envelope option `envelope_k` reaches the envelope calls as `k`, and
      nothing else does; the switch `envelope_on` itself is never passed. */
  lemma EnvelopeKwargsLookup(c: Config, k: string)
    ensures k in EnvelopeKwargs(c) <==> EnvelopePrefix + k in c && k != "on"
    ensures k in EnvelopeKwargs(c) ==> EnvelopeKwargs(c)[k] == c[EnvelopePrefix + k]
  {
    var full := EnvelopePrefix + k;
    assert IsEnvelopeKey(full) && full[|EnvelopePrefix|..] == k;
    if k == "on" {
      assert full == "envelope_on";
    }
    if k in EnvelopeKwargs(c) {
      var src :| src in c && IsEnvelopeKey(src) && src != "envelope_on" && src[|EnvelopePrefix|..] == k;
      StripInjective(src, full);
    }
  }

  /** A one-dimensional error of the data's length gives a symmetric
      envelope: the data is the midpoint of the two sides, which lie twice
      the error apart, and a non-negative error encloses the data. */
  lemma SymmetricSides(x: seq<real>, e: seq<real>)
    requires |x| == |e|
    ensures Sides(Arr(x), Arr(e)).Ok?
    ensures var (lo, hi) := Sides(Arr(x), Arr(e)).value;
            && lo.Arr? && hi.Arr? && |lo.xs| == |hi.xs| == |x|
            && forall i :: 0 <= i < |x| ==>
                 && lo.xs[i] + hi.xs[i] == 2.0 * x[i]
                 && hi.xs[i] - lo.xs[i] == 2.0 * e[i]
                 && (e[i] >= 0.0 ==> lo.xs[i] <= x[i] <= hi.xs[i])
  {
  }

  /** A scalar datum is broadcast against its error: each side is the
      datum shifted by the corresponding error, so the datum is the midpoint
      of every pair of sides. */
  lemma ScalarDataSides(x: real, e: seq<real>)
    ensures Sides(Num(x), Arr(e)).Ok?
    ensures var (lo, hi) := Sides(Num(x), Arr(e)).value;
            && |lo.xs| == |hi.xs| == |e|
            && forall i :: 0 <= i < |e| ==> lo.xs[i] == x - e[i] && hi.xs[i] == x + e[i]
  {
  }

  /** A one-element error is broadcast against the whole data array: every
      point is shifted down and up by the same amount. */
  lemma SingleErrorSides(x: seq<real>, d: real)
    ensures Sides(Arr(x), Arr([d])).Ok?
    ensures var (lo, hi) := Sides(Arr(x), Arr([d])).value;
            && |lo.xs| == |hi.xs| == |x|
            && forall i :: 0 <= i < |x| ==> lo.xs[i] == x[i] - d && hi.xs[i] == x[i] + d
  {
  }

  /** A two-dimensional error takes the lower error from row 0 and the upper
      error from row 1; further rows are ignored. */
  lemma AsymmetricSides(x: seq<real>, rows: seq<seq<real>>)
    requires |rows| >= 2 && |rows[0]| == |x| && |rows[1]| == |x|
    ensures Sides(Arr(x), Mat(rows)).Ok?
    ensures var (lo, hi) := Sides(Arr(x), Mat(rows)).value;
            && lo.Arr? && hi.Arr? && |lo.xs| == |hi.xs| == |x|
            && forall i :: 0 <= i < |x| ==> lo.xs[i] == x[i] - rows[0][i] && hi.xs[i] == x[i] + rows[1][i]
  {
  }

  /** A two-dimensional error with fewer than two rows raises IndexError. */
  lemma ShortErrorRaises(x: Value, rows: seq<seq<real>>)
    requires |rows| < 2
    requires |rows| == 1 ==> Shift(x, rows[0], -1.0).Ok?
    ensures Sides(x, Mat(rows)) == Err(IndexError)
  {
  }

  /** Draws the layer onto `axes`, one errorbar call at a time as the source
      does; a raise leaves the calls already made on the axes. */
  method ToAxes(layer: Layer, axes: Axes) returns (err: Option<Error>)
    requires layer.kind == Plot
    modifies axes`log, axes`artists, axes`xaxis, axes`yaxis
    ensures axes.log == old(axes.log) + PlotDraw(layer.config).cmds
    ensures err == PlotDraw(layer.config).error
    ensures axes.ManualLimitsKept()
  {
    var c := layer.config;
    err := None;
    if !Configured(c, "x") || !Configured(c, "y") {
      return;
    }
    if Truthy(Get(c, "envelope_on")) {
      if Configured(c, "xerr") && Configured(c, "yerr") {
        return Some(ValueError);
      }
      var _ := axes.Draw(Errorbar(PlotKwargs(c)));
      if Configured(c, "xerr") {
        err := DrawEnvelope(c, "x", "xerr", axes);
      } else if Configured(c, "yerr") {
        err := DrawEnvelope(c, "y", "yerr", axes);
      }
    } else {
      var _ := axes.Draw(Errorbar(PlotKwargs(c)["xerr" := Get(c, "xerr")]["yerr" := Get(c, "yerr")]));
    }
  }

  /** The two envelope calls along coordinate `coord` ("x" or "y") with the
      error under `errKey`; the other coordinate is passed unchanged. */
  method DrawEnvelope(c: Config, coord: string, errKey: string, axes: Axes) returns (err: Option<Error>)
    requires coord == "x" || coord == "y"
    requires coord in c && errKey in c && "x" in c && "y" in c
    modifies axes`log, axes`artists, axes`xaxis, axes`yaxis
    ensures var sides := Sides(c[coord], c[errKey]);
            && err == (if sides.Ok? then None else Some(sides.error))
            && axes.log == old(axes.log) +
                 (if sides.Err? then []
                  else if coord == "x" then
                    [Errorbar(EnvelopeKwargs(c)["x" := sides.value.0]["y" := c["y"]]),
                     Errorbar(EnvelopeKwargs(c)["x" := sides.value.1]["y" := c["y"]])]
                  else
                    [Errorbar(EnvelopeKwargs(c)["x" := c["x"]]["y" := sides.value.0]),
                     Errorbar(EnvelopeKwargs(c)["x" := c["x"]]["y" := sides.value.1])])
    ensures axes.ManualLimitsKept()
  {
    var sides := Sides(c[coord], c[errKey]);
    if sides.Err? {
      return Some(sides.error);
    }
    err := None;
    var (low, high) := sides.value;
    if coord == "x" {
      var _ := axes.Draw(Errorbar(EnvelopeKwargs(c)["x" := low]["y" := c["y"]]));
      var _ := axes.Draw(Errorbar(EnvelopeKwargs(c)["x" := high]["y" := c["y"]]));
    } else {
      var _ := axes.Draw(Errorbar(EnvelopeKwargs(c)["x" := c["x"]]["y" := low]));
      var _ := axes.Draw(Errorbar(EnvelopeKwargs(c)["x" := c["x"]]["y" := high]));
    }
  }

  /** The constructor: `envelope_on` defaults to False, the remaining options
      go through `configure`, then the data through `set_x` and `set_y`, which
      leave the data and errors not given unconfigured on a new layer. */
  method New(x: Value, y: Value, xerr: Value, yerr: Value, envelopeOn: Value, kwargs: Config)
    returns (layer: Layer)
    requires forall k :: k in kwargs ==> k !in {"x", "y", "xerr", "yerr", "envelope_on", "x_ua", "y_ua", "sigmas"}
    ensures fresh(layer) && layer.kind == Plot && layer.changed
    ensures forall k :: k in kwargs ==> k in layer.config && layer.config[k] == kwargs[k]
    ensures "envelope_on" in layer.config
    ensures layer.config["envelope_on"] == if envelopeOn == NoneV then Flag(false) else envelopeOn
    ensures Get(layer.config, "x") == x && Get(layer.config, "xerr") == xerr
    ensures Get(layer.config, "y") == y && Get(layer.config, "yerr") == yerr
    ensures forall k :: k in layer.config ==> k in kwargs || k in {"envelope_on", "x", "xerr", "y", "yerr"}
  {
    var on := if envelopeOn == NoneV then Flag(false) else envelopeOn;
    layer := new Layer(Plot);
    layer.Configure(kwargs["envelope_on" := on]);
    assert forall k :: k in layer.config ==> k in kwargs || k == "envelope_on";
    assert "x" !in layer.config && "xerr" !in layer.config;
    assert "y" !in layer.config && "yerr" !in layer.config;
    ghost var configured := layer.config;
    SetX(layer, x, xerr);
    ghost var withX := layer.config;
    assert Untouched(configured, withX, "envelope_on");
    assert Get(withX, "x") == x && Get(withX, "xerr") == xerr;
    SetY(layer, y, yerr);
    assert Untouched(withX, layer.config, "envelope_on");
    assert Untouched(withX, layer.config, "x") && Untouched(withX, layer.config, "xerr");
    assert Untouched(configured, withX, "y") && Untouched(configured, withX, "yerr");
    forall k | k in kwargs
      ensures k in layer.config && layer.config[k] == kwargs[k]
    {
      assert Untouched(configured, withX, k) && Untouched(withX, layer.config, k);
    }
    forall k | k in layer.config && k !in {"envelope_on", "x", "xerr", "y", "yerr"}
      ensures k in kwargs
    {
      assert Untouched(configured, withX, k) && Untouched(withX, layer.config, k);
    }
  }

  /** Stores the x data and its error through `configure`, so the layer
      becomes changed; an argument given as None is not specified and leaves
      the stored entry untouched, and so does every other key. */
  method SetX(layer: Layer, x: Value, xerr: Value)
    modifies layer
    ensures x != NoneV ==> "x" in layer.config && layer.config["x"] == x
    ensures xerr != NoneV ==> "xerr" in layer.config && layer.config["xerr"] == xerr
    ensures x == NoneV ==> Untouched(old(layer.config), layer.config, "x")
    ensures xerr == NoneV ==> Untouched(old(layer.config), layer.config, "xerr")
    ensures forall k :: k != "x" && k != "xerr" ==> Untouched(old(layer.config), layer.config, k)
    ensures layer.changed
  {
    layer.Configure(Specified(map["x" := x, "xerr" := xerr]));
  }

  /** The same for the y data and its error. */
  method SetY(layer: Layer, y: Value, yerr: Value)
    modifies layer
    ensures y != NoneV ==> "y" in layer.config && layer.config["y"] == y
    ensures yerr != NoneV ==> "yerr" in layer.config && layer.config["yerr"] == yerr
    ensures y == NoneV ==> Untouched(old(layer.config), layer.config, "y")
    ensures yerr == NoneV ==> Untouched(old(layer.config), layer.config, "yerr")
    ensures forall k :: k != "y" && k != "yerr" ==> Untouched(old(layer.config), layer.config, k)
    ensures layer.changed
  {
    layer.Configure(Specified(map["y" := y, "yerr" := yerr]));
  }
}
