# matplotlayers in Dafny

A model of the core of matplotlayers, a small Python 2 library. The library draws
plots as a stack of layers onto one matplotlib axes and redraws only what
changed. It covers these parts:

- **Layers** (`LayerCore`, `layer.dfy`). A layer is a configuration map plus a
  `changed` flag. Every `configure` and `unconfigure` raises the flag. Layers
  compare by identity.
- **Layer variants**:
  - `LayerPlot` (errorbar plots with an optional error envelope);
  - `LayerPColorMesh` (a pseudocolor mesh that hands its mappable to a
    colorbar layer);
  - `LayerColorbar`.

  What a variant's `to_axes` does is a pure function of its configuration
  (`PlotDraw`, `MeshDraw`, `ColorbarDraw`). The result is the list of drawing
  calls and the exception raised after them, if any. The `ToAxes` methods
  carry this out on the axes one call at a time.
- **The stack** (`Stacks`, `stack.dfy`). The class `Stack` holds:
  - the ordered, duplicate-free layer list;
  - the layers drawn since the last reset, and the reset flag;
  - the settings a clear of the axes would lose: labels, manual limits,
    autoscaling, locators and colorbar mode.

  `Render` clears and redraws everything when a drawn layer changed or a layer
  was removed. Otherwise it draws only the layers not yet drawn. A ghost log
  `toAxesCalls` records every `to_axes` call, so re-rendering can be stated
  precisely.
- **The stack canvas** (`Canvas`, `canvas.dfy`). This is the pan and zoom
  controller:
  - response settings;
  - the figure → axes → data coordinate maps;
  - the motion mode;
  - the closed-form zoom and pan limits written back to the stack.
- **The axes** (`Drawing`, `axes.dfy`). This is an abstract stand-in for the
  matplotlib Axes the core drives. Drawing calls are records appended to a
  log. An axis that autoscales may change its limits arbitrarily whenever
  something is drawn.

Python and numpy floats are exact `real`s; a numpy result that is inf or nan is `NonFinite`. `None` arguments are `Option`s. Exceptions are
`Error` values returned next to the effects that happened before the raise.

Two behaviours of the code are worth knowing:

- **A zero zoom response computes an infinite factor.** A zoom response of 0
  is documented as disabling zoom in that dimension. `zoom` still computes
  `response ** (-motion)` before it checks for 0
  (`matplotlayers/backends/stack_canvas.py:225-251`). The motion is a numpy
  float64, because the axes box is, so 0 to a negative power gives inf with a
  warning rather than an exception. The infinite limits are then skipped, and
  the other axis is zoomed as usual. `Canvas.ZeroResponseTarget` and the
  contract of `Canvas.StackCanvas.Zoom` state this.
- **A colorbar can stay dirty.** A colorbar layer in the same stack as its
  pcolormesh, but below it, is drawn first. It is then marked changed again
  when the mesh hands it the new mappable. It stays changed after `render`, and
  the next render resets the whole stack. The contract of `Stacks.Stack.Render`
  therefore exempts such linked colorbars from "every drawn layer is
  unchanged".

## Model

| member | source | states |
|---|---|---|
| Base.Override | matplotlayers/backends/stack_canvas.py:107-117 | a given `both` wins, otherwise a given per-axis value, otherwise the current value is kept |
| Base.Effective | matplotlayers/stack.py:264-269 | the per-axis setting after `both` overrides it; None when neither is given |
| LayerCore.ConfigureSemantics | matplotlayers/layer.py:42-44 | configuring is last-write-wins per key; a key given None becomes unconfigured; other keys keep their state |
| LayerCore.Layer.constructor | matplotlayers/layer.py:32-37 | a new layer has an empty configuration and is changed |
| LayerCore.Layer.Configure | matplotlayers/layer.py:42-44 | the configuration is overridden by the given keys and the layer is changed, whatever is passed |
| LayerCore.Layer.Unconfigure | matplotlayers/layer.py:46-48 | the given keys are dropped and the layer is changed |
| LayerCore.Layer.SetChanged | matplotlayers/layer.py:54-57 | the flag is raised; only the flag may change |
| LayerCore.Layer.UnsetChanged | matplotlayers/layer.py:59-62 | the flag is lowered; only the flag may change |
| LayerCore.Layer.IsConfigured | matplotlayers/layers/layer_plot.py:103 | definition: a key is configured when it is present and not None |
| LayerCore.Layer.HasChanged | matplotlayers/layer.py:64-65 | definition: the dirty flag, which `Configure`, `Unconfigure` and `SetChanged` raise and only `UnsetChanged` lowers |
| LayerCore.DistinctLayers | matplotlayers/layer.py:71-72 | two layers of the same kind with equal configurations are still unequal |
| Drawing.Axes.Clear | matplotlayers/stack.py:356-358 | the library's clear leaves pristine axes: no labels, default limits, autoscaling, default locators and tick layout, an empty log |
| Drawing.Axes.Draw | matplotlayers/layers/layer_plot.py:112 | a drawing call is appended to the log and gets the next artist serial; an autoscaled axis may refit its limits, while manual limits, autoscale flags and locators are untouched (for a colorbar too: see Left out) |
| Drawing.Axes.AutoscaleView | matplotlayers/stack.py:299-304 | only axes that autoscale may change their limits |
| LayerPlot.Truthy | matplotlayers/layers/layer_plot.py:101 | definition: Python's truth value of the `envelope_on` option (None, False, 0 and "" are false) |
| LayerPlot.PlotKwargs | matplotlayers/layers/layer_plot.py:112 | definition: `**self` spreads every configured option except `xerr`, `yerr` (the err component) and the `envelope_` options |
| LayerPlot.EnvelopeKwargs | matplotlayers/layers/layer_plot.py:126-136 | every `envelope_k` option reaches the envelope calls as `k` with its value |
| LayerPlot.EnvelopeKwargsLookup | matplotlayers/layers/layer_plot.py:126-136 | `k` is an envelope option exactly when `envelope_k` is configured and `k` is not the switch `on` |
| LayerPlot.Broadcast | matplotlayers/layers/layer_plot.py:120-124 | numpy `a ± b` succeeds exactly for equal lengths or a length-one operand; equal lengths combine element by element, a length-one operand is combined with every element of the other |
| LayerPlot.Shift | matplotlayers/layers/layer_plot.py:120-124 | `x ± e` succeeds exactly for a scalar datum or a broadcastable array, giving an array; otherwise ValueError |
| LayerPlot.Sides | matplotlayers/layers/layer_plot.py:119-124 | an error that is neither one- nor two-dimensional leaves the sides unbound, so NameError; sides that exist are arrays |
| LayerPlot.PlotDraw | matplotlayers/layers/layer_plot.py:90-181 | definition of `to_axes` as calls plus raise; its properties are `PlotDrawShape`, `XEnvelopeCalls` and `YEnvelopeCalls` |
| LayerPlot.PlotDrawShape | matplotlayers/layers/layer_plot.py:90-181 | at most three calls; none without x and y; in envelope mode both errors raise ValueError before any call, and neither error gives exactly the centre call; a raise happens only in envelope mode after at most the centre call; the first call carries every plain option and no envelope option; without the envelope it is the only call and carries xerr and yerr (None when unset) |
| LayerPlot.XEnvelopeCalls | matplotlayers/layers/layer_plot.py:112-138 | with only xerr: the centre call, then left and right sides at the unchanged y with the envelope options; a failing side computation raises after the centre call |
| LayerPlot.YEnvelopeCalls | matplotlayers/layers/layer_plot.py:140-163 | with only yerr: the centre call, then bottom and top sides at the unchanged x |
| LayerPlot.SymmetricSides | matplotlayers/layers/layer_plot.py:119-121 | a one-dimensional error gives sides whose midpoint is the data and whose distance is twice the error; a non-negative error encloses the data |
| LayerPlot.AsymmetricSides | matplotlayers/layers/layer_plot.py:122-124 | a two-dimensional error takes the lower error from row 0 and the upper one from row 1 |
| LayerPlot.ScalarDataSides | matplotlayers/layers/layer_plot.py:119-121 | a scalar datum is broadcast against a one-dimensional error: the sides are the datum minus and plus each error |
| LayerPlot.SingleErrorSides | matplotlayers/layers/layer_plot.py:119-121 | a one-element error shifts every data point down and up by the same amount |
| LayerPlot.ShortErrorRaises | matplotlayers/layers/layer_plot.py:122-124 | a two-dimensional error with fewer than two rows raises IndexError |
| LayerPlot.ToAxes | matplotlayers/layers/layer_plot.py:90-181 | the axes log grows by exactly the calls `PlotDraw` predicts, the raise is the one it predicts, and manual limits are kept |
| LayerPlot.DrawEnvelope | matplotlayers/layers/layer_plot.py:115-163 | both sides are computed before either envelope call; on failure nothing is drawn |
| LayerPlot.New | matplotlayers/layers/layer_plot.py:38-83 | `envelope_on` defaults to False; every other option is stored as given; x, xerr, y and yerr read back as given, so an argument given None stays unconfigured; no other key is set; the new layer is changed |
| LayerPlot.SetX | matplotlayers/layers/layer_plot.py:187-212 | x and xerr are each stored when given; one given as None leaves its stored entry untouched ("values not specified are left untouched"); every other key is kept; the layer is changed through `configure` |
| LayerPlot.SetY | matplotlayers/layers/layer_plot.py:218-243 | the same for y and yerr, keeping every other key; the layer is changed |
| LayerColorbar.ColorbarDraw | layers/layer_colorbar.py:34-42 | nothing is drawn until a mappable is configured; then exactly one colorbar is built from the whole configuration; the layer's own code never raises |
| LayerColorbar.New | layers/layer_colorbar.py:18-25 | the keyword arguments become the configuration and the layer is changed |
| LayerColorbar.SetMappable | layers/layer_colorbar.py:27-32 | the mappable is stored under `mappable` and the layer is changed |
| LayerColorbar.ToAxes | layers/layer_colorbar.py:34-42 | the axes log grows by exactly the calls `ColorbarDraw` predicts |
| LayerPColorMesh.MeshKwargs | layers/layer_pcolormesh.py:43-53 | every option but X, Y, C and `layer_colorbar` is passed as a keyword, unchanged |
| LayerPColorMesh.ColorbarTarget | layers/layer_pcolormesh.py:78-79 | a notified target is a colorbar layer and is the configured `layer_colorbar` |
| LayerPColorMesh.MeshDraw | layers/layer_pcolormesh.py:57-79 | one pcolormesh call with X, Y, C positional exactly when all three are configured; a raise (a link without `set_mappable`) comes only after that call |
| LayerPColorMesh.New | layers/layer_pcolormesh.py:31-55 | `cmap` defaults to "gray" unless given; the new layer is changed |
| LayerPColorMesh.ToAxes | layers/layer_pcolormesh.py:57-79 | the log grows by the `MeshDraw` calls; after a draw the colorbar target holds the new mappable and is changed; the mesh's own configuration is kept |
| Stacks.IndexOf | matplotlayers/stack.py:166 | the first position of a layer in the list |
| Stacks.RemoveFirst | matplotlayers/stack.py:166 | `list.remove` drops the first occurrence and keeps the order of the rest; an absent layer leaves the list as it is |
| Stacks.RemoveKeepsOthers | matplotlayers/stack.py:161-169 | removal goes by identity: every other layer of the list survives, however it is configured |
| Stacks.RemoveFirstMembers | matplotlayers/stack.py:161-169 | removing from a duplicate-free list removes exactly that layer and keeps the list duplicate-free |
| Stacks.DrawOutcome | matplotlayers/stack.py:196 | definition: `to_axes` dispatches on the layer's class to `PlotDraw`, `MeshDraw` or `ColorbarDraw` |
| Stacks.DrawLayer | matplotlayers/stack.py:195 | `to_axes` dispatches on the layer's class; the log grows by that variant's calls |
| Stacks.LocatorOf | matplotlayers/stack.py:336-344 | the default AutoLocator is installed exactly when no locator is given |
| Stacks.ColorbarTicks | matplotlayers/stack.py:313-320 | definition: vertical moves the y label and ticks right, horizontal puts the x label at the bottom, any other mode keeps the layout |
| Stacks.ColorbarXLocator | matplotlayers/stack.py:313-314 | definition: vertical hides the x ticks |
| Stacks.ColorbarYLocator | matplotlayers/stack.py:318-319 | definition: horizontal hides the y ticks |
| Stacks.ColorbarModeSticky | matplotlayers/stack.py:306-320 | applying a colorbar mode twice is applying it once; switching to another mode restores nothing, so a vertical layout stays until a clear |
| Stacks.RestoredLocator | matplotlayers/stack.py:367-373 | after a clear a stored locator is reinstalled, otherwise the axis keeps what the colorbar mode left |
| Stacks.LinkedStable | layers/layer_pcolormesh.py:78-79 | the colorbar targets of a stack depend only on its layer list and its pcolormesh configurations |
| Stacks.Stack.Linked | layers/layer_pcolormesh.py:78-79 | every layer a pcolormesh of the stack may notify is a colorbar layer |
| Stacks.Stack.constructor | matplotlayers/stack.py:46-140 | labels are taken from the axes; per-axis autoscaling defaults to on, with `both` overriding; locators are installed, then the colorbar mode, which may hide ticks; no layers; the stack is valid |
| Stacks.Stack.ApplySettings | matplotlayers/stack.py:103-124 | autoscaling, locators and colorbar mode are applied in the source's order, leaving stored limits consistent with the axes |
| Stacks.Stack.AddLayer | matplotlayers/stack.py:154-159 | a layer is appended only when it is not yet held, so the list stays duplicate-free and the drawn prefix stays a prefix |
| Stacks.Stack.RemoveLayer | matplotlayers/stack.py:161-169 | an absent layer changes nothing; a held one is removed and a reset is flagged |
| Stacks.Stack.FlagNeedsReset | matplotlayers/stack.py:142-152 | the flag ends up set exactly when it was set or some drawn layer has changed; it is never lowered |
| Stacks.Stack.SetTitle | matplotlayers/stack.py:205-210 | title and keyword arguments are stored and applied to the axes |
| Stacks.Stack.SetXlabel | matplotlayers/stack.py:212-216 | the x label is stored and applied |
| Stacks.Stack.SetYlabel | matplotlayers/stack.py:218-222 | the y label is stored and applied |
| Stacks.Stack.SetAutoscaleOn | matplotlayers/stack.py:258-304 | `both` overrides and None keeps an axis; switching an axis off stores its live limit; switching it on forgets the stored limit; manual limits and locators are untouched |
| Stacks.Stack.SetXlim | matplotlayers/stack.py:224-239 | a limit turns x autoscaling off and is stored and applied; None turns it back on; the y settings are kept |
| Stacks.Stack.SetYlim | matplotlayers/stack.py:241-256 | the same for y, keeping the x settings |
| Stacks.Stack.UpdateColorbarMode | matplotlayers/stack.py:306-320 | vertical hides the x ticks and moves the y label and ticks right; horizontal hides the y ticks and puts the x label at the bottom |
| Stacks.Stack.SetColorbar | matplotlayers/stack.py:322-326 | the mode is stored and applied |
| Stacks.Stack.SetLocators | matplotlayers/stack.py:328-344 | the locators are stored and installed, None installing the default locator |
| Stacks.Stack.Clear | matplotlayers/stack.py:350-384 | the axes are cleared once; labels, colorbar mode, stored locators and manual limits come back; autoscaled axes keep the default limits; stored settings are unchanged |
| Stacks.Stack.RestoreLocators | matplotlayers/stack.py:367-373 | only stored locators are reinstalled |
| Stacks.Stack.RestoreLimits | matplotlayers/stack.py:375-384 | stored manual limits are set again, which turns autoscaling off; autoscaled axes keep the defaults |
| Stacks.Stack.DrawStep | matplotlayers/stack.py:195-199 | one `to_axes` call; unless it raised, the layer is marked unchanged and appended to the drawn layers |
| Stacks.Stack.DrawIndex | matplotlayers/stack.py:189-199 | a drawn layer is skipped, any other is drawn; the drawn layers stay a prefix of the layer list |
| Stacks.Stack.DrawPending | matplotlayers/stack.py:189-199 | the loop draws exactly the layers after the drawn prefix, in order, stopping at the first raise, which keeps the prefix drawn so far |
| Stacks.Stack.ResetIfNeeded | matplotlayers/stack.py:179-187 | the axes are cleared exactly once when a reset was flagged or a drawn layer changed; the drawn list is then emptied; otherwise nothing changes |
| Stacks.Stack.Render | matplotlayers/stack.py:175-199 | clears once iff a reset is needed; then `to_axes` is called on exactly the layers from the reset point (0 after a clear, otherwise the old drawn count) up to the end, or up to the first raise; on success every layer is drawn in order and unchanged, except a linked colorbar; a second render with nothing changed clears nothing, calls nothing and draws nothing; stored settings survive |
| Stacks.Stack.GetXlim | matplotlayers/stack.py:405-408 | the live x limit; for a manual axis it is the stored one |
| Stacks.Stack.GetYlim | matplotlayers/stack.py:410-413 | the live y limit; for a manual axis it is the stored one |
| Stacks.Stack.GetAutoscaleOn | matplotlayers/stack.py:415-419 | true exactly when neither axis has a stored manual limit |
| Stacks.Stack.GetAutoscaleXOn | matplotlayers/stack.py:421-424 | true exactly when no x limit is stored |
| Stacks.Stack.GetAutoscaleYOn | matplotlayers/stack.py:426-429 | true exactly when no y limit is stored |
| Stacks.NotifyDrawnColorbar | layers/layer_colorbar.py:12-13 | a drawn colorbar that receives a mappable makes the next render of its stack reset |
| Canvas.Divide | matplotlayers/backends/stack_canvas.py:155-156 | numpy division: finite exactly for a nonzero divisor, and then the quotient times the divisor gives back the dividend |
| Canvas.FigureToAxes | matplotlayers/backends/stack_canvas.py:149-156 | each coordinate is finite exactly when the box has extent along it (numpy gives inf or nan otherwise); finite coordinates invert the box's affine map |
| Canvas.FigureAxesRoundTrip | matplotlayers/backends/stack_canvas.py:149-156 | axes → figure → axes is the identity on a box of nonzero size |
| Canvas.Interpolate | matplotlayers/backends/stack_canvas.py:165-166 | position 0 gives the limit start and position 1 the limit stop |
| Canvas.AxesToData | matplotlayers/backends/stack_canvas.py:158-166 | axes (0, 0) maps to the limit starts and (1, 1) to the limit stops |
| Canvas.AxesToDataInvertible | matplotlayers/backends/stack_canvas.py:158-166 | on an axis of nonzero span the data coordinate determines the axes coordinate |
| Canvas.InUnit | matplotlayers/backends/stack_canvas.py:180 | definition: `0 <= a <= 1` holds only for a finite `a` in [0, 1] |
| Canvas.EventLocationApplies | matplotlayers/backends/stack_canvas.py:174-180 | a box of zero size never applies, since numpy's comparisons with inf and nan are false |
| Canvas.AppliesInsideBox | matplotlayers/backends/stack_canvas.py:174-180 | for a box of positive size the event applies exactly when the point lies in the box, borders included |
| Canvas.ZoomFactor | matplotlayers/backends/stack_canvas.py:225-227 | numpy's float64 `**`: power 0 gives 1; 0 to a positive power gives 0; exactly 0 to a negative power (inf) and a negative base to a fractional power (nan) are non-finite; positive bases use the supplied power; nothing raises |
| Canvas.BeginAnchor | matplotlayers/backends/stack_canvas.py:196-206 | finite exactly for a finite cursor coordinate; the recorded data value is the one under the cursor, and it plus the recorded distances gives back the limits |
| Canvas.BeginZoom | matplotlayers/backends/stack_canvas.py:189-209 | definition: one `BeginAnchor` per axis |
| Canvas.ZoomLimits | matplotlayers/backends/stack_canvas.py:231-240 | the span is scaled by the factor |
| Canvas.ZoomAxis | matplotlayers/backends/stack_canvas.py:222-240 | one axis' zoomed limits are finite exactly when the anchor, the cursor coordinate and the factor are |
| Canvas.ZoomTarget | matplotlayers/backends/stack_canvas.py:211-240 | raises exactly when no zoom was started (AttributeError); otherwise one target per axis |
| Canvas.ZoomKeepsAnchorAxis | matplotlayers/backends/stack_canvas.py:196-240 | on one axis, finite zoomed limits keep the anchor's data value at the anchor's axes position |
| Canvas.ZoomKeepsAnchor | matplotlayers/backends/stack_canvas.py:196-240 | on a box of nonzero size, for any responses and motion, each axis with finite new limits maps the start position to the same data value |
| Canvas.ZoomWithoutMotion | matplotlayers/backends/stack_canvas.py:222-240 | without motion the zoom reproduces the limits recorded at its start |
| Canvas.ZeroResponseTarget | matplotlayers/backends/stack_canvas.py:225-251 | with a zero x response the x target is non-finite exactly when the cursor moved forward of the anchor, and the y target does not depend on the x response |
| Canvas.PanLimits | matplotlayers/backends/stack_canvas.py:301-310 | both ends move by the same amount, so the span is kept; a zero response, motion or ratio gives the start limits |
| Canvas.PanAxis | matplotlayers/backends/stack_canvas.py:294-310 | one axis' panned limits are finite exactly when both cursor coordinates are; they keep the span, and without motion they are the start limits |
| Canvas.PanTarget | matplotlayers/backends/stack_canvas.py:287-314 | raises exactly when no pan was started (AttributeError); otherwise one target per axis |
| Canvas.BeginPan | matplotlayers/backends/stack_canvas.py:260-285 | the starting limits and cursor position are recorded and the pan ratio is the span of each limit |
| Canvas.PanFollowsCursorAxis | matplotlayers/backends/stack_canvas.py:297-310 | on one axis with response 1, the data value grabbed at the start is under the cursor after the pan |
| Canvas.PanFollowsCursor | matplotlayers/backends/stack_canvas.py:287-314 | on a box of nonzero size with response 1 on both axes, the panned limits are finite and the grabbed data point follows the cursor |
| Canvas.StackCanvas.constructor | matplotlayers/backends/stack_canvas.py:37-87 | zoom responses default to 64 and pan responses to 1.0, `both` overriding; no motion, so `GestureReady` holds |
| Canvas.StackCanvas.SetZoomResponse | matplotlayers/backends/stack_canvas.py:93-117 | `both` overrides; None keeps the current response |
| Canvas.StackCanvas.SetPanResponse | matplotlayers/backends/stack_canvas.py:119-143 | `both` overrides; None keeps the current response |
| Canvas.StackCanvas.Autozoom | matplotlayers/backends/stack_canvas.py:184-187 | both axes autoscale and no limit is stored |
| Canvas.StackCanvas.StartZoom | matplotlayers/backends/stack_canvas.py:189-209 | records the zoom gesture for the current limits and cursor, and enters zoom mode, so `GestureReady` (a mode only with its gesture) holds |
| Canvas.StackCanvas.Zoom | matplotlayers/backends/stack_canvas.py:211-251 | each axis with a nonzero response and finite target gets its zoomed limit; an axis with response 0 keeps its limit, autoscaling and axis state; only a zoom never started raises, and then nothing is set; the stack stays valid |
| Canvas.StackCanvas.StopZoom | matplotlayers/backends/stack_canvas.py:253-256 | no motion mode, so `GestureReady` holds |
| Canvas.StackCanvas.StartPan | matplotlayers/backends/stack_canvas.py:260-285 | records the limits, their spans and the cursor, and enters pan mode, so `GestureReady` holds |
| Canvas.StackCanvas.Pan | matplotlayers/backends/stack_canvas.py:287-314 | both finite targets are set, turning autoscaling off; only a pan never started raises, and then nothing is set |
| Canvas.StackCanvas.StopPan | matplotlayers/backends/stack_canvas.py:316-319 | no motion mode, so `GestureReady` holds |
| Canvas.StackCanvas.Motion | matplotlayers/backends/stack_canvas.py:323-333 | zooms in zoom mode and pans in pan mode with the limits `Zoom` and `Pan` set, and changes nothing otherwise; under `GestureReady` it never raises |

## Left out

- The Tk and PIL backends, figure settings, the export code and the test scripts: GUI, rasterisation and file I/O.
- `renderer.py`, a predecessor of `Stack.render` that cannot run, and `layer_imshow.py`, a pass-through to `imshow`.
- The duplicate copies `backends/stack_canvas.py` and `layers/layer_plot.py`: they match the `matplotlayers/` copies, which are modelled.
- `figure.add_axes` and the `left`/`bottom`/`width`/`height`/`polar` arguments of the stack constructor: the model receives an existing axes.
- `get_title`, `get_xlabel`, `get_ylabel`: they return the stored `labels` fields as they are.
- The keyconf configuration library (components, aliases): a configuration is a plain map, and a key counts as configured when it is present and not None.
- `x_ua`, `y_ua` and `sigmas` in `LayerPlot`: uncertainty objects from another library. Data is one-dimensional or scalar; two-dimensional data is reported as ValueError.
- numpy truth values: `envelope_on` follows Python's truth rules for scalars and strings, and any array counts as true.
- Exceptions raised inside matplotlib's `errorbar`, `pcolormesh` and `Colorbar`: drawing calls are assumed not to raise, so only the layers' own errors (ValueError, IndexError, NameError, AttributeError) reach `render`.
- What matplotlib computes when it autoscales: the limits of an autoscaled axis may become anything after a draw.
- Locators are opaque identifiers, and hidden ticks are a locator without ticks; the colorbar's separate `mappable` attribute is not modelled, because nothing reads it.
- Floating point: numbers are exact reals, with no rounding or overflow; inf and nan are one `NonFinite` value, and numpy's warnings are not modelled. The value of `x ** y` for a positive base is a parameter.
- Canvas.ZoomFactor: a negative response is given the sign of the exponent's parity and the magnitude's power, as numpy's integral powers of negative floats are; the value is the same parameter.
- Canvas.ZoomAxis: a non-finite cursor coordinate gives non-finite limits. numpy can give finite ones when the anchor is finite (64 ** -inf is 0), but the box never changes in the model, so a zoom started on the same box has a non-finite anchor and non-finite limits.
- Canvas.StackCanvas.Zoom: a non-finite target for an axis with a nonzero response (a box without extent, or a negative response to a fractional power) is passed to matplotlib's `set_xlim` by the source; the model leaves that axis as it was, because what the library does with inf or nan limits is not part of this model.
- Canvas.StackCanvas.Pan: the same for a non-finite pan target, which only a box without extent produces.
- Stacks.Stack.Render: does not promise "every drawn layer is unchanged" for colorbar layers linked from a pcolormesh of the same stack, because the source leaves a colorbar drawn below its mesh changed.
- Stacks.Stack.Render: does not state the content of the drawing log, only that it is untouched when nothing is drawn or cleared; the calls are stated through `toAxesCalls`.
- Drawing.Axes.Draw: matplotlib's `Colorbar` reconfigures the axes it is built in (tick and label positions, locators, limits); the model does not capture this, and a colorbar draw is a log entry like any other that keeps ticks, locators and manual limits. The `ManualLimitsKept` guarantee of `LayerColorbar.ToAxes`, and the stored-settings and `Valid()` guarantees of `Stacks.Stack.Render` after a colorbar is drawn, rest on this.
- LayerPlot.SetX and LayerPlot.SetY: the source hands None arguments on to keyconf's `configure`, whose treatment of None is not part of this model; the model follows the docstrings (matplotlayers/layers/layer_plot.py:193 and 224), so a None argument leaves the stored entry as it was. `LayerCore.Layer.Configure` itself stays a plain map override.
- Canvas.StackCanvas.Zoom and Pan require a valid stack (stored limits consistent with the axes), which every stack operation keeps.
