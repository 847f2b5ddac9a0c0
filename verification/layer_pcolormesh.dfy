/** The pseudocolor-mesh layer (layers/layer_pcolormesh.py): one pcolormesh
    call with X, Y and C positional, after which a linked colorbar layer is
    handed the new mappable. */
module LayerPColorMesh {
  import opened Base
  import opened LayerCore
  import opened Drawing
  import LayerColorbar

  /** The options that never reach the pcolormesh call as keywords. */
  const Explicit: set<string> := {"X", "Y", "C", "layer_colorbar"}

  /** Every other option is passed to pcolormesh as a keyword, unchanged. */
  function MeshKwargs(c: Config): (r: Config)
    ensures forall k :: k in r <==> k in c && k !in Explicit
    ensures forall k | k in r :: r[k] == c[k]
  {
    map k | k in c && k !in Explicit :: c[k]
  }

  /** The colorbar layer to notify: a configured "layer_colorbar" that refers
      to a colorbar layer. */
  function ColorbarTarget(c: Config): (t: Option<Layer>)
    ensures t.Some? ==> t.value.kind == Colorbar && Get(c, "layer_colorbar") == Link(t.value)
  {
    match Get(c, "layer_colorbar")
    case Link(l) => if l.kind == Colorbar then Some(l) else None
    case _ => None
  }

  /** The layers a pcolormesh layer's `to_axes` may modify besides the axes:
      its colorbar target. */
  function Notified(layer: Layer): set<Layer>
    reads layer
  {
    if layer.kind != PColorMesh then {}
    else
      match ColorbarTarget(layer.config)
      case Some(t) => {t}
      case None => {}
  }

  /** What `to_axes` draws: nothing unless X, Y and C are all configured,
      else one pcolormesh call. A configured link that is not a colorbar
      layer has no `set_mappable`, which raises after the draw. */
  function MeshDraw(c: Config): (r: Outcome)
    ensures |r.cmds| <= 1
    ensures r.cmds != [] <==> Configured(c, "X") && Configured(c, "Y") && Configured(c, "C")
    ensures r.cmds != [] ==>
              && r.cmds[0].Pcolormesh?
              && r.cmds[0].X == c["X"] && r.cmds[0].Y == c["Y"] && r.cmds[0].C == c["C"]
              && forall k | k in r.cmds[0].kwargs :: k !in Explicit
    ensures r.error.Some? ==> r.cmds != [] && r.error == Some(AttributeError)
    ensures r.error.None? && Configured(c, "layer_colorbar") && r.cmds != [] ==> ColorbarTarget(c).Some?
  {
    if !Configured(c, "X") || !Configured(c, "Y") || !Configured(c, "C") then Outcome([], None)
    else
      Outcome([Pcolormesh(c["X"], c["Y"], c["C"], MeshKwargs(c))],
              if Configured(c, "layer_colorbar") && ColorbarTarget(c).None? then Some(AttributeError) else None)
  }

  /** The constructor: `cmap` defaults to "gray" unless given; all options
      go through `configure`. */
  method New(kwargs: Config) returns (layer: Layer)
    ensures fresh(layer) && layer.kind == PColorMesh && layer.changed
    ensures layer.config == if "cmap" in kwargs then kwargs else kwargs["cmap" := Str("gray")]
  {
    var options := if "cmap" in kwargs then kwargs else kwargs["cmap" := Str("gray")];
    layer := new Layer(PColorMesh);
    layer.Configure(options);
  }

  method ToAxes(layer: Layer, axes: Axes) returns (err: Option<Error>)
    requires layer.kind == PColorMesh
    modifies axes`log, axes`artists, axes`xaxis, axes`yaxis, Notified(layer)
    ensures layer.config == old(layer.config)
    ensures axes.log == old(axes.log) + MeshDraw(layer.config).cmds
    ensures err == MeshDraw(layer.config).error
    ensures axes.ManualLimitsKept()
    ensures forall t | t in Notified(layer) ::
              if MeshDraw(layer.config).cmds == [] then t.config == old(t.config) && t.changed == old(t.changed)
              else t.config == old(t.config)["mappable" := Mappable(old(axes.artists))] && t.changed
  {
    err := None;
    var c := layer.config;
    if !Configured(c, "X") || !Configured(c, "Y") || !Configured(c, "C") {
      return;
    }
    var serial := axes.Draw(Pcolormesh(c["X"], c["Y"], c["C"], MeshKwargs(c)));
    if layer.IsConfigured("layer_colorbar") {
      match ColorbarTarget(c)
      case Some(t) =>
        LayerColorbar.SetMappable(t, Mappable(serial));
      case None =>
        err := Some(AttributeError);
    }
  }
}
