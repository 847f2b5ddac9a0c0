/** The colorbar layer (layers/layer_colorbar.py): draws one colorbar for the
    mappable another layer hands it, and nothing before it has one. */
module LayerColorbar {
  import opened Base
  import opened LayerCore
  import opened Drawing

  /** What `to_axes` does: one colorbar built from the whole configuration
      once a mappable is configured, nothing before. */
  function ColorbarDraw(c: Config): (r: Outcome)
    ensures r.error.None?
    ensures r.cmds != [] <==> Configured(c, "mappable")
    ensures forall cmd | cmd in r.cmds :: cmd.ColorbarOn? && cmd.kwargs == c
    ensures |r.cmds| <= 1
  {
    if Configured(c, "mappable") then Outcome([ColorbarOn(c)], None) else Outcome([], None)
  }

  /** The constructor: every keyword argument goes through `configure`. */
  method New(kwargs: Config) returns (layer: Layer)
    ensures fresh(layer) && layer.kind == Colorbar && layer.changed
    ensures layer.config == kwargs
  {
    layer := new Layer(Colorbar);
    layer.Configure(kwargs);
  }

  /** Called by the layer providing the mappable: stores it under "mappable"
      and marks the layer changed. */
  method SetMappable(layer: Layer, mappable: Value)
    requires layer.kind == Colorbar
    modifies layer
    ensures layer.config == old(layer.config)["mappable" := mappable]
    ensures layer.changed
  {
    layer.Configure(map["mappable" := mappable]);
    layer.SetChanged();
  }

  method ToAxes(layer: Layer, axes: Axes) returns (err: Option<Error>)
    requires layer.kind == Colorbar
    modifies axes`log, axes`artists, axes`xaxis, axes`yaxis
    ensures axes.log == old(axes.log) + ColorbarDraw(layer.config).cmds
    ensures err == ColorbarDraw(layer.config).error
    ensures axes.ManualLimitsKept()
  {
    err := None;
    if !layer.IsConfigured("mappable") {
      return;
    }
    var _ := axes.Draw(ColorbarOn(layer.config));
  }
}
