/** The Stack (matplotlayers/stack.py): an ordered set of layers drawn onto one
    axes, which remembers the settings a clear of the axes would lose
    (labels, manual limits, locators, colorbar mode) and restores them. */
module Stacks {
  import opened Base
  import opened LayerCore
  import opened Drawing
  import LayerPlot
  import LayerPColorMesh
  import LayerColorbar

  predicate NoDuplicates(s: seq<Layer>) {
    forall i, j :: 0 <= i < j < |s| ==> s[i] != s[j]
  }

  /** The position of the first occurrence of `x`. */
  function IndexOf(s: seq<Layer>, x: Layer): (i: nat)
    requires x in s
    ensures i < |s| && s[i] == x && x !in s[..i]
  {
    if s[0] == x then 0
    else
      var j := IndexOf(s[1..], x);
      assert s[..j+1] == [s[0]] + s[1..][..j];
      j + 1
  }

  /** Python's `list.remove`: drops the first occurrence of `x`, keeping the
      order of the others; a list without `x` stays as it is. */
  function RemoveFirst(s: seq<Layer>, x: Layer): (r: seq<Layer>)
    ensures x !in s ==> r == s
    ensures x in s ==> |r| == |s| - 1
    ensures x in s ==> forall k :: 0 <= k < IndexOf(s, x) ==> r[k] == s[k]
    ensures x in s ==> forall k :: IndexOf(s, x) <= k < |r| ==> r[k] == s[k + 1]
  {
    if x in s then s[..IndexOf(s, x)] + s[IndexOf(s, x) + 1..] else s
  }

  /** `remove_layer` finds its layer by identity: every other layer of the
      list survives the removal, however it is configured, so of two layers
      built alike only the one passed is removed. */
  lemma RemoveKeepsOthers(s: seq<Layer>, x: Layer, y: Layer)
    requires y in s && y != x
    ensures y in RemoveFirst(s, x)
  {
    if x in s {
      var i := IndexOf(s, x);
      var k :| 0 <= k < |s| && s[k] == y;
      if k < i {
        assert RemoveFirst(s, x)[k] == y;
      } else {
        assert k != i;
        assert RemoveFirst(s, x)[k - 1] == y;
      }
    }
  }

  /** Removing a layer from a list without duplicates removes exactly that
      layer and keeps the list free of duplicates. */
  lemma RemoveFirstMembers(s: seq<Layer>, x: Layer)
    requires NoDuplicates(s)
    ensures NoDuplicates(RemoveFirst(s, x))
    ensures forall y :: y in RemoveFirst(s, x) <==> y in s && y != x
  {
    if x in s {
      var i := IndexOf(s, x);
      var r := RemoveFirst(s, x);
      forall a, b | 0 <= a < b < |r| ensures r[a] != r[b] {
        var a' := if a < i then a else a + 1;
        var b' := if b < i then b else b + 1;
        assert r[a] == s[a'] && r[b] == s[b'];
      }
      forall y ensures y in r <==> y in s && y != x {
        if y in r {
          var k :| 0 <= k < |r| && r[k] == y;
          var k' := if k < i then k else k + 1;
          assert s[k'] == y && k' != i;
        }
        if y in s && y != x {
          var k :| 0 <= k < |s| && s[k] == y;
          if k < i { assert r[k] == y; } else { assert r[k-1] == y; }
        }
      }
    }
  }

  /** In a list without duplicates, the element at `i` lies in the prefix of
      length `k` exactly when `i < k`. */
  lemma PrefixMembership(s: seq<Layer>, k: nat, i: nat)
    requires NoDuplicates(s) && k <= |s| && i < |s|
    ensures s[i] in s[..k] <==> i < k
  {
    if s[i] in s[..k] {
      var j :| 0 <= j < k && s[..k][j] == s[i];
      assert s[j] == s[i];
    }
    if i < k {
      assert s[..k][i] == s[i];
    }
  }

  function Max(a: int, b: int): int {
    if a < b then b else a
  }

  /** The outcome of `layer.to_axes`, whichever subclass the layer is. */
  function DrawOutcome(kind: Kind, c: Config): Outcome {
    match kind
    case Plot => LayerPlot.PlotDraw(c)
    case PColorMesh => LayerPColorMesh.MeshDraw(c)
    case Colorbar => LayerColorbar.ColorbarDraw(c)
  }

  /** Dynamic dispatch of `to_axes` on the layer's subclass. */
  method DrawLayer(layer: Layer, axes: Axes) returns (err: Option<Error>)
    modifies axes`log, axes`artists, axes`xaxis, axes`yaxis, LayerPColorMesh.Notified(layer)
    ensures layer.config == old(layer.config)
    ensures axes.log == old(axes.log) + DrawOutcome(layer.kind, old(layer.config)).cmds
    ensures err == DrawOutcome(layer.kind, old(layer.config)).error
    ensures axes.ManualLimitsKept()
  {
    match layer.kind
    case Plot => err := LayerPlot.ToAxes(layer, axes);
    case PColorMesh => err := LayerPColorMesh.ToAxes(layer, axes);
    case Colorbar => err := LayerColorbar.ToAxes(layer, axes);
  }

  /** The locator `set_locators` installs: None stands for the default. */
  function LocatorOf(l: Option<nat>): (r: Locator)
    ensures r == AutoLocator <==> l.None?
  {
    match l
    case Some(id) => CustomLocator(id)
    case None => AutoLocator
  }

  /** The colorbar modes: a "vertical" colorbar hides the x ticks and puts the
      y label and ticks on the right, a "horizontal" one hides the y ticks and
      puts the x label at the bottom; any other mode changes nothing. */
  function ColorbarTicks(mode: Option<string>, t: TickLayout): TickLayout {
    if mode == Some("vertical") then t.(yLabelPosition := Right, yTicksPosition := Right)
    else if mode == Some("horizontal") then t.(xLabelPosition := Bottom)
    else t
  }

  function ColorbarXLocator(mode: Option<string>, l: Locator): Locator {
    if mode == Some("vertical") then NoTicks else l
  }

  function ColorbarYLocator(mode: Option<string>, l: Locator): Locator {
    if mode == Some("horizontal") then NoTicks else l
  }

  /** Applying a colorbar mode twice is applying it once, and leaving the
      mode (any other value) restores nothing: a vertical layout stays on
      the right until the axes are cleared. */
  lemma ColorbarModeSticky(mode: Option<string>, other: Option<string>, t: TickLayout, lx: Locator, ly: Locator)
    requires other != Some("vertical") && other != Some("horizontal")
    ensures ColorbarTicks(mode, ColorbarTicks(mode, t)) == ColorbarTicks(mode, t)
    ensures ColorbarXLocator(mode, ColorbarXLocator(mode, lx)) == ColorbarXLocator(mode, lx)
    ensures ColorbarYLocator(mode, ColorbarYLocator(mode, ly)) == ColorbarYLocator(mode, ly)
    ensures ColorbarTicks(other, ColorbarTicks(Some("vertical"), t)).yTicksPosition == Right
    ensures ColorbarXLocator(other, ColorbarXLocator(Some("vertical"), lx)) == NoTicks
  {
  }

  /** The major locator of an axis after a clear: the stored locator when
      there is one, otherwise what the colorbar mode left on the fresh axis. */
  function RestoredLocator(stored: Option<nat>, modeLocator: Locator): (l: Locator)
    ensures stored.Some? ==> l == CustomLocator(stored.value)
    ensures stored.None? ==> l == modeLocator
  {
    if stored.Some? then CustomLocator(stored.value) else modeLocator
  }

  /** The colorbar targets of a stack depend only on its layer list and on
      the configurations of its pcolormesh layers. */
  twostate lemma LinkedStable(s: Stack)
    requires s.layers == old(s.layers)
    requires forall l :: l in s.layers && l.kind != Colorbar ==> l.config == old(l.config)
    ensures s.Linked() == old(s.Linked())
  {
    forall l | l in s.layers
      ensures LayerPColorMesh.Notified(l) == old(LayerPColorMesh.Notified(l))
    {
      if l.kind == PColorMesh {
        assert l.config == old(l.config);
      }
    }
  }

  class Stack {
    const axes: Axes
    var labels: Labels              // title, its keyword arguments, xlabel, ylabel
    var xlim: Option<Lim>           // the manual x limit to restore, None while autoscaling
    var ylim: Option<Lim>
    var autoscaleXOn: bool
    var autoscaleYOn: bool
    var colorbar: Option<string>    // the colorbar mode
    var locatorX: Option<nat>       // the stored major locators, None for the default
    var locatorY: Option<nat>
    var layers: seq<Layer>
    var drawn: seq<Layer>           // the layers rendered since the last reset
    var needsReset: bool
    ghost var toAxesCalls: seq<Layer>  // every `to_axes` call the stack made, in order

    /** The stored x limit mirrors the axes: None exactly while the x axis
        autoscales, and otherwise the axis's limit. */
    ghost predicate XValid()
      reads this, axes
    {
      && (xlim.None? <==> autoscaleXOn)
      && axes.xaxis.autoscale == autoscaleXOn
      && (xlim.Some? ==> axes.xaxis.lim == xlim.value)
    }

    ghost predicate YValid()
      reads this, axes
    {
      && (ylim.None? <==> autoscaleYOn)
      && axes.yaxis.autoscale == autoscaleYOn
      && (ylim.Some? ==> axes.yaxis.lim == ylim.value)
    }

    /** Layers are held once each; without a pending reset the drawn layers
        are exactly the first layers of the stack. */
    ghost predicate LayersValid()
      reads this
    {
      && NoDuplicates(layers)
      && (!needsReset ==> |drawn| <= |layers| && drawn == layers[..|drawn|])
    }

    ghost predicate Valid()
      reads this, axes
    {
      XValid() && YValid() && LayersValid()
    }

    /** Some drawn layer has changed since it was drawn. */
    ghost predicate DirtyDrawn()
      reads this, layers
    {
      exists i :: 0 <= i < |layers| && layers[i].changed && layers[i] in drawn
    }

    ghost predicate ResetNeeded()
      reads this, layers
    {
      needsReset || DirtyDrawn()
    }

    /** Everything is drawn and nothing has changed since: rendering has
        nothing to do. */
    ghost predicate Quiescent()
      reads this, layers
    {
      !needsReset && drawn == layers && forall l :: l in layers ==> !l.changed
    }

    /** The colorbar layers the pcolormesh layers of the stack hand their
        mappable to: rendering may modify these too. */
    ghost function Linked(): (linked: set<Layer>)
      reads this, layers
      ensures forall t :: t in linked ==> t.kind == Colorbar
    {
      set l, t | l in layers && t in LayerPColorMesh.Notified(l) :: t
    }

    constructor (axes: Axes, autoscaleBothOn: Option<bool>, autoscaleXOn: Option<bool>,
                 autoscaleYOn: Option<bool>, colorbar: Option<string>,
                 locatorX: Option<nat>, locatorY: Option<nat>)
      modifies axes`xaxis, axes`yaxis, axes`ticks
      ensures Valid() && this.axes == axes
      ensures labels == old(axes.labels).(titleKwargs := map[])
      ensures this.autoscaleXOn == Override(autoscaleBothOn, autoscaleXOn, true)
      ensures this.autoscaleYOn == Override(autoscaleBothOn, autoscaleYOn, true)
      ensures this.colorbar == colorbar && this.locatorX == locatorX && this.locatorY == locatorY
      ensures axes.xaxis.locator == ColorbarXLocator(colorbar, LocatorOf(locatorX))
      ensures axes.yaxis.locator == ColorbarYLocator(colorbar, LocatorOf(locatorY))
      ensures axes.ticks == ColorbarTicks(colorbar, old(axes.ticks))
      ensures layers == [] && drawn == [] && !needsReset && toAxesCalls == []
    {
      this.axes := axes;
      labels := axes.labels.(titleKwargs := map[]);
      layers, drawn, needsReset, toAxesCalls := [], [], false, [];
      new;
      ApplySettings(autoscaleBothOn, autoscaleXOn, autoscaleYOn, colorbar, locatorX, locatorY);
    }

    /** The settings the constructor applies, in its order: autoscaling
        (an unspecified axis autoscales), then the locators, then the
        colorbar mode, which may override a locator. */
    method ApplySettings(autoscaleBothOn: Option<bool>, autoscaleXOn: Option<bool>, autoscaleYOn: Option<bool>,
                         colorbar: Option<string>, locatorX: Option<nat>, locatorY: Option<nat>)
      modifies this`xlim, this`ylim, this`autoscaleXOn, this`autoscaleYOn, this`colorbar
      modifies this`locatorX, this`locatorY, axes`xaxis, axes`yaxis, axes`ticks
      ensures XValid() && YValid()
      ensures this.autoscaleXOn == Override(autoscaleBothOn, autoscaleXOn, true)
      ensures this.autoscaleYOn == Override(autoscaleBothOn, autoscaleYOn, true)
      ensures this.colorbar == colorbar && this.locatorX == locatorX && this.locatorY == locatorY
      ensures axes.xaxis.locator == ColorbarXLocator(colorbar, LocatorOf(locatorX))
      ensures axes.yaxis.locator == ColorbarYLocator(colorbar, LocatorOf(locatorY))
      ensures axes.ticks == ColorbarTicks(colorbar, old(axes.ticks))
    {
      var x := if autoscaleXOn.None? then true else autoscaleXOn.value;
      var y := if autoscaleYOn.None? then true else autoscaleYOn.value;
      SetAutoscaleOn(autoscaleBothOn, Some(x), Some(y));
      SetLocators(locatorX, locatorY);
      SetColorbar(colorbar);
    }

    /** Adds a layer at the top, unless the stack holds it already. */
    method AddLayer(layer: Layer)
      requires Valid()
      modifies this`layers
      ensures Valid()
      ensures layers == if layer in old(layers) then old(layers) else old(layers) + [layer]
    {
      if layer !in layers {
        layers := layers + [layer];
      }
    }

    /** Removes a layer and flags a reset; removing an absent layer does
        nothing. */
    method RemoveLayer(layer: Layer)
      requires Valid()
      modifies this`layers, this`needsReset
      ensures Valid()
      ensures layers == RemoveFirst(old(layers), layer) && layer !in layers
      ensures forall l :: l in layers <==> l in old(layers) && l != layer
      ensures needsReset == (old(needsReset) || layer in old(layers))
    {
      RemoveFirstMembers(layers, layer);
      if layer in layers {
        layers := RemoveFirst(layers, layer);
        needsReset := true;
      }
    }

    /** Raises the reset flag when a drawn layer has changed; never lowers
        it. */
    method FlagNeedsReset()
      modifies this`needsReset
      ensures needsReset == ResetNeeded() == old(ResetNeeded())
      ensures old(needsReset) ==> needsReset
    {
      var i := 0;
      while i < |layers|
        invariant 0 <= i <= |layers|
        invariant needsReset == (old(needsReset) || exists j :: 0 <= j < i && layers[j].changed && layers[j] in drawn)
      {
        if layers[i].HasChanged() && layers[i] in drawn {
          needsReset := true;
        }
        i := i + 1;
      }
    }

    method SetTitle(title: string, titleKwargs: Config)
      modifies axes`labels, this`labels
      ensures labels == old(labels).(title := title, titleKwargs := titleKwargs)
      ensures axes.labels == old(axes.labels).(title := title, titleKwargs := titleKwargs)
    {
      axes.SetTitle(title, titleKwargs);
      labels := labels.(title := title, titleKwargs := titleKwargs);
    }

    method SetXlabel(xlabel: string)
      modifies axes`labels, this`labels
      ensures labels == old(labels).(xlabel := xlabel)
      ensures axes.labels == old(axes.labels).(xlabel := xlabel)
    {
      axes.SetXlabel(xlabel);
      labels := labels.(xlabel := xlabel);
    }

    method SetYlabel(ylabel: string)
      modifies axes`labels, this`labels
      ensures labels == old(labels).(ylabel := ylabel)
      ensures axes.labels == old(axes.labels).(ylabel := ylabel)
    {
      axes.SetYlabel(ylabel);
      labels := labels.(ylabel := ylabel);
    }

    /** Switches autoscaling per axis, `both` overriding the per-axis
        arguments and None keeping an axis as it is. Turning an axis manual
        stores its current limit for later clears; turning one on forgets the
        stored limit and autoscales the view. */
    method SetAutoscaleOn(both: Option<bool>, xOn: Option<bool>, yOn: Option<bool>)
      modifies this`xlim, this`ylim, this`autoscaleXOn, this`autoscaleYOn, axes`xaxis, axes`yaxis
      ensures var x := Effective(both, xOn);
              if x.Some? then
                autoscaleXOn == axes.xaxis.autoscale == x.value && xlim == (if x.value then None else Some(old(axes.xaxis.lim)))
              else
                autoscaleXOn == old(autoscaleXOn) && xlim == old(xlim) && axes.xaxis.autoscale == old(axes.xaxis.autoscale)
      ensures var y := Effective(both, yOn);
              if y.Some? then
                autoscaleYOn == axes.yaxis.autoscale == y.value && ylim == (if y.value then None else Some(old(axes.yaxis.lim)))
              else
                autoscaleYOn == old(autoscaleYOn) && ylim == old(ylim) && axes.yaxis.autoscale == old(axes.yaxis.autoscale)
      ensures axes.xaxis.locator == old(axes.xaxis.locator) && axes.yaxis.locator == old(axes.yaxis.locator)
      ensures !axes.xaxis.autoscale ==> axes.xaxis.lim == old(axes.xaxis.lim)
      ensures !axes.yaxis.autoscale ==> axes.yaxis.lim == old(axes.yaxis.lim)
      ensures Effective(both, xOn) != Some(true) && Effective(both, yOn) != Some(true) ==>
                axes.xaxis.lim == old(axes.xaxis.lim) && axes.yaxis.lim == old(axes.yaxis.lim)
      ensures Effective(both, xOn).Some? || old(XValid()) ==> XValid()
      ensures Effective(both, yOn).Some? || old(YValid()) ==> YValid()
    {
      var x := Effective(both, xOn);
      var y := Effective(both, yOn);
      if x.Some? {
        axes.SetAutoscaleXOn(x.value);
        xlim := if x.value then None else Some(axes.xaxis.lim);
        autoscaleXOn := x.value;
      }
      if y.Some? {
        axes.SetAutoscaleYOn(y.value);
        ylim := if y.value then None else Some(axes.yaxis.lim);
        autoscaleYOn := y.value;
      }
      if x == Some(true) || y == Some(true) {
        axes.AutoscaleView();
      }
    }

    /** A given limit turns x autoscaling off and becomes the axis's limit,
        stored for clears; None turns x autoscaling back on. */
    method SetXlim(lim: Option<Lim>)
      modifies this`xlim, this`ylim, this`autoscaleXOn, this`autoscaleYOn, axes`xaxis, axes`yaxis
      ensures ylim == old(ylim) && autoscaleYOn == old(autoscaleYOn)
      ensures xlim == lim && autoscaleXOn == lim.None? && XValid()
      ensures axes.xaxis.locator == old(axes.xaxis.locator)
      ensures lim.Some? ==> axes.yaxis == old(axes.yaxis)
      ensures axes.yaxis.autoscale == old(axes.yaxis.autoscale) && axes.yaxis.locator == old(axes.yaxis.locator)
      ensures !axes.yaxis.autoscale ==> axes.yaxis.lim == old(axes.yaxis.lim)
      ensures old(YValid()) ==> YValid()
    {
      if lim.Some? {
        SetAutoscaleOn(None, Some(false), None);
        axes.SetXlim(lim.value);
        xlim := lim;
      } else {
        SetAutoscaleOn(None, Some(true), None);
      }
    }

    method SetYlim(lim: Option<Lim>)
      modifies this`xlim, this`ylim, this`autoscaleXOn, this`autoscaleYOn, axes`xaxis, axes`yaxis
      ensures xlim == old(xlim) && autoscaleXOn == old(autoscaleXOn)
      ensures ylim == lim && autoscaleYOn == lim.None? && YValid()
      ensures axes.yaxis.locator == old(axes.yaxis.locator)
      ensures lim.Some? ==> axes.xaxis == old(axes.xaxis)
      ensures axes.xaxis.autoscale == old(axes.xaxis.autoscale) && axes.xaxis.locator == old(axes.xaxis.locator)
      ensures !axes.xaxis.autoscale ==> axes.xaxis.lim == old(axes.xaxis.lim)
      ensures old(XValid()) ==> XValid()
    {
      if lim.Some? {
        SetAutoscaleOn(None, None, Some(false));
        axes.SetYlim(lim.value);
        ylim := lim;
      } else {
        SetAutoscaleOn(None, None, Some(true));
      }
    }

    /** Applies the colorbar mode to the axes. */
    method UpdateColorbarMode()
      modifies axes`xaxis, axes`yaxis, axes`ticks
      ensures axes.ticks == ColorbarTicks(colorbar, old(axes.ticks))
      ensures axes.xaxis == old(axes.xaxis).(locator := ColorbarXLocator(colorbar, old(axes.xaxis.locator)))
      ensures axes.yaxis == old(axes.yaxis).(locator := ColorbarYLocator(colorbar, old(axes.yaxis.locator)))
    {
      if colorbar == Some("vertical") {
        axes.SetXLocator(NoTicks);
        axes.SetYLabelPosition(Right);
        axes.SetYTicksPosition(Right);
      } else if colorbar == Some("horizontal") {
        axes.SetYLocator(NoTicks);
        axes.SetXLabelPosition(Bottom);
      }
    }

    method SetColorbar(mode: Option<string>)
      modifies this`colorbar, axes`xaxis, axes`yaxis, axes`ticks
      ensures colorbar == mode
      ensures axes.ticks == ColorbarTicks(mode, old(axes.ticks))
      ensures axes.xaxis == old(axes.xaxis).(locator := ColorbarXLocator(mode, old(axes.xaxis.locator)))
      ensures axes.yaxis == old(axes.yaxis).(locator := ColorbarYLocator(mode, old(axes.yaxis.locator)))
    {
      colorbar := mode;
      UpdateColorbarMode();
    }

    /** Stores the locators and installs them; None installs the default
        locator. */
    method SetLocators(lx: Option<nat>, ly: Option<nat>)
      modifies this`locatorX, this`locatorY, axes`xaxis, axes`yaxis
      ensures locatorX == lx && locatorY == ly
      ensures axes.xaxis == old(axes.xaxis).(locator := LocatorOf(lx))
      ensures axes.yaxis == old(axes.yaxis).(locator := LocatorOf(ly))
    {
      locatorX, locatorY := lx, ly;
      axes.SetXLocator(LocatorOf(lx));
      axes.SetYLocator(LocatorOf(ly));
    }

    /** Clears the axes and restores what the stack remembers: labels,
        colorbar mode, stored locators and manual limits. An autoscaled axis
        comes back with the default limits. */
    method Clear()
      requires XValid() && YValid()
      modifies this`labels, this`xlim, this`ylim, this`autoscaleXOn, this`autoscaleYOn
      modifies axes`labels, axes`xaxis, axes`yaxis, axes`ticks, axes`log, axes`clears
      ensures XValid() && YValid()
      ensures labels == old(labels) && xlim == old(xlim) && ylim == old(ylim)
      ensures autoscaleXOn == old(autoscaleXOn) && autoscaleYOn == old(autoscaleYOn)
      ensures axes.labels == labels && axes.log == [] && axes.clears == old(axes.clears) + 1
      ensures axes.ticks == ColorbarTicks(colorbar, DefaultTicks)
      ensures axes.xaxis.locator == RestoredLocator(locatorX, ColorbarXLocator(colorbar, AutoLocator))
      ensures axes.yaxis.locator == RestoredLocator(locatorY, ColorbarYLocator(colorbar, AutoLocator))
      ensures autoscaleXOn ==> axes.xaxis.lim == DefaultLim
      ensures autoscaleYOn ==> axes.yaxis.lim == DefaultLim
    {
      axes.Clear();
      SetTitle(labels.title, labels.titleKwargs);
      SetXlabel(labels.xlabel);
      SetYlabel(labels.ylabel);
      UpdateColorbarMode();
      RestoreLocators();
      RestoreLimits();
    }

    /** The locator part of `clear`: only a stored locator is reinstalled. */
    method RestoreLocators()
      modifies axes`xaxis, axes`yaxis
      ensures axes.xaxis == old(axes.xaxis).(locator := RestoredLocator(locatorX, old(axes.xaxis.locator)))
      ensures axes.yaxis == old(axes.yaxis).(locator := RestoredLocator(locatorY, old(axes.yaxis.locator)))
    {
      if locatorX.Some? {
        axes.SetXLocator(CustomLocator(locatorX.value));
      }
      if locatorY.Some? {
        axes.SetYLocator(CustomLocator(locatorY.value));
      }
    }

    /** The limit part of `clear`, on a freshly cleared axes: a stored manual
        limit is set again (turning autoscaling off); an autoscaled axis keeps
        the default limits. */
    method RestoreLimits()
      requires xlim.None? <==> autoscaleXOn
      requires ylim.None? <==> autoscaleYOn
      requires axes.xaxis.autoscale && axes.yaxis.autoscale
      requires axes.xaxis.lim == DefaultLim && axes.yaxis.lim == DefaultLim
      modifies this`xlim, this`ylim, this`autoscaleXOn, this`autoscaleYOn, axes`xaxis, axes`yaxis
      ensures XValid() && YValid()
      ensures xlim == old(xlim) && ylim == old(ylim)
      ensures autoscaleXOn == old(autoscaleXOn) && autoscaleYOn == old(autoscaleYOn)
      ensures axes.xaxis.locator == old(axes.xaxis.locator) && axes.yaxis.locator == old(axes.yaxis.locator)
      ensures autoscaleXOn ==> axes.xaxis.lim == DefaultLim
      ensures autoscaleYOn ==> axes.yaxis.lim == DefaultLim
    {
      if xlim.Some? {
        SetXlim(xlim);
      }
      if ylim.Some? {
        SetYlim(ylim);
      }
    }

    /** One pass of the render loop on a layer not drawn yet: `to_axes`,
        then, unless it raised, the layer is marked unchanged and drawn. */
    method DrawStep(layer: Layer) returns (err: Option<Error>)
      modifies this`drawn, this`toAxesCalls, axes`log, axes`artists, axes`xaxis, axes`yaxis
      modifies layer`changed, LayerPColorMesh.Notified(layer)
      ensures toAxesCalls == old(toAxesCalls) + [layer]
      ensures err == DrawOutcome(layer.kind, old(layer.config)).error
      ensures axes.log == old(axes.log) + DrawOutcome(layer.kind, old(layer.config)).cmds
      ensures err.None? ==> drawn == old(drawn) + [layer] && !layer.changed
      ensures err.Some? ==> drawn == old(drawn)
      ensures layer.config == old(layer.config)
      ensures axes.ManualLimitsKept()
    {
      toAxesCalls := toAxesCalls + [layer];
      err := DrawLayer(layer, axes);
      if err.None? {
        layer.UnsetChanged();
        drawn := drawn + [layer];
      }
    }

    /** One pass of the drawing loop of `render`, on the layer at `i`: a
        layer already drawn is skipped, any other is drawn. `start` is the
        number of layers drawn before the loop began and `calls0` the
        `to_axes` calls made before it. */
    method DrawIndex(i: nat, layer: Layer, ghost start: nat, ghost linked: set<Layer>, ghost calls0: seq<Layer>)
      returns (err: Option<Error>)
      requires i < |layers| && layer == layers[i] && start <= |layers| && NoDuplicates(layers)
      requires drawn == layers[..Max(i, start)]
      requires toAxesCalls == calls0 + layers[start..Max(i, start)]
      requires forall j :: 0 <= j < Max(i, start) ==> !layers[j].changed || layers[j] in linked
      modifies this`drawn, this`toAxesCalls, axes`log, axes`artists, axes`xaxis, axes`yaxis
      modifies layer`changed, LayerPColorMesh.Notified(layer)
      ensures i < start ==> err.None? && axes.log == old(axes.log)
      ensures err.None? ==> drawn == layers[..Max(i + 1, start)] && toAxesCalls == calls0 + layers[start..Max(i + 1, start)]
      ensures err.Some? ==> start <= i && drawn == old(drawn) && toAxesCalls == calls0 + layers[start..i + 1]
      ensures forall j :: 0 <= j < |drawn| ==> !layers[j].changed || layers[j] in linked + old(LayerPColorMesh.Notified(layer))
      ensures axes.ManualLimitsKept()
    {
      err := None;
      PrefixMembership(layers, Max(i, start), i);
      if layer in drawn {
        return;
      }
      assert layers[start..i + 1] == layers[start..i] + [layer];
      err := DrawStep(layer);
      if err.None? {
        assert layers[..i + 1] == layers[..i] + [layer];
      }
    }

    /** The drawing loop of `render`: walks the layers bottom to top, skips
        the drawn ones and draws the others, stopping at the first that
        raises. */
    method DrawPending() returns (err: Option<Error>)
      requires NoDuplicates(layers) && |drawn| <= |layers| && drawn == layers[..|drawn|]
      requires forall j :: 0 <= j < |drawn| ==> !layers[j].changed || layers[j] in Linked()
      modifies this`drawn, this`toAxesCalls, axes`log, axes`artists, axes`xaxis, axes`yaxis
      modifies layers`changed, Linked()
      ensures |old(drawn)| <= |drawn| <= |layers| && drawn == layers[..|drawn|]
      ensures err.None? ==> |drawn| == |layers| && toAxesCalls == old(toAxesCalls) + layers[|old(drawn)|..]
      ensures err.Some? ==> |drawn| < |layers| && toAxesCalls == old(toAxesCalls) + layers[|old(drawn)|..|drawn| + 1]
      ensures forall j :: 0 <= j < |drawn| ==> !layers[j].changed || layers[j] in old(Linked())
      ensures forall l :: l in layers && l.kind != Colorbar ==> l.config == old(l.config)
      ensures axes.ManualLimitsKept()
      ensures toAxesCalls == old(toAxesCalls) ==> axes.log == old(axes.log)
    {
      err := None;
      ghost var linked := Linked();
      ghost var start := |drawn|;
      var i := 0;
      while i < |layers|
        invariant 0 <= i <= |layers| && err.None?
        invariant drawn == layers[..Max(i, start)]
        invariant toAxesCalls == old(toAxesCalls) + layers[start..Max(i, start)]
        invariant forall j :: 0 <= j < Max(i, start) ==> !layers[j].changed || layers[j] in linked
        invariant axes.ManualLimitsKept()
        invariant Max(i, start) == start ==> axes.log == old(axes.log)
      {
        var layer := layers[i];
        if layer.kind == PColorMesh {
          assert LayerPColorMesh.Notified(layer) == old(LayerPColorMesh.Notified(layer));
        }
        err := DrawIndex(i, layer, start, linked, old(toAxesCalls));
        if err.Some? {
          return;
        }
        i := i + 1;
      }
    }

    /** Renders the stack: when a drawn layer has changed or a layer was
        removed, the axes are cleared (restoring the stored settings) and
        every layer is drawn anew; otherwise only the layers not drawn yet
        are drawn, bottom to top. Each drawn layer is marked unchanged. An
        exception from a layer's `to_axes` propagates: the layers drawn
        before it stay drawn, and the next render resumes at the failing
        layer. */
    method Render() returns (err: Option<Error>)
      requires Valid()
      modifies this`drawn, this`needsReset, this`toAxesCalls
      modifies this`labels, this`xlim, this`ylim, this`autoscaleXOn, this`autoscaleYOn
      modifies axes`labels, axes`xaxis, axes`yaxis, axes`ticks, axes`log, axes`clears, axes`artists
      modifies layers`changed, Linked()
      ensures Valid() && !needsReset
      ensures labels == old(labels) && xlim == old(xlim) && ylim == old(ylim)
      ensures autoscaleXOn == old(autoscaleXOn) && autoscaleYOn == old(autoscaleYOn)
      ensures axes.clears == old(axes.clears) + (if old(ResetNeeded()) then 1 else 0)
      ensures var start := if old(ResetNeeded()) then 0 else |old(drawn)|;
              && start <= |drawn|
              && (err.None? ==> drawn == layers && toAxesCalls == old(toAxesCalls) + layers[start..])
              && (err.Some? ==> |drawn| < |layers| && toAxesCalls == old(toAxesCalls) + layers[start..|drawn| + 1])
      ensures forall j :: 0 <= j < |drawn| ==> !drawn[j].changed || drawn[j] in old(Linked())
      ensures forall l :: l in layers && l.kind != Colorbar ==> l.config == old(l.config)
      ensures Linked() == old(Linked())
      ensures toAxesCalls == old(toAxesCalls) && !old(ResetNeeded()) ==> axes.log == old(axes.log)
      ensures old(Quiescent()) ==>
                err.None? && axes.clears == old(axes.clears) && toAxesCalls == old(toAxesCalls) && axes.log == old(axes.log)
      ensures err.None? && (forall l :: l in layers ==> l !in old(Linked())) ==> Quiescent()
    {
      ResetIfNeeded();
      err := DrawPending();
      LinkedStable(this);
    }

    /** The first half of `render`: clears the axes and forgets the drawn
        layers when a reset is needed. Afterwards no drawn layer is
        changed. */
    method ResetIfNeeded()
      requires Valid()
      modifies this`drawn, this`needsReset
      modifies this`labels, this`xlim, this`ylim, this`autoscaleXOn, this`autoscaleYOn
      modifies axes`labels, axes`xaxis, axes`yaxis, axes`ticks, axes`log, axes`clears
      ensures Valid() && !needsReset
      ensures labels == old(labels) && xlim == old(xlim) && ylim == old(ylim)
      ensures autoscaleXOn == old(autoscaleXOn) && autoscaleYOn == old(autoscaleYOn)
      ensures axes.clears == old(axes.clears) + (if old(ResetNeeded()) then 1 else 0)
      ensures drawn == if old(ResetNeeded()) then [] else old(drawn)
      ensures forall j :: 0 <= j < |drawn| ==> !layers[j].changed
      ensures !old(ResetNeeded()) ==> axes.log == old(axes.log)
    {
      FlagNeedsReset();
      if needsReset {
        Clear();
        drawn := [];
        needsReset := false;
      } else {
        forall j | 0 <= j < |drawn|
          ensures !layers[j].changed
        {
          assert layers[j] in drawn;
        }
      }
    }

    /** The live x limit of the axes; for a manual axis, the stored one. */
    function GetXlim(): (r: Lim)
      reads this, axes
      ensures Valid() && !autoscaleXOn ==> Some(r) == xlim
    {
      axes.xaxis.lim
    }

    function GetYlim(): (r: Lim)
      reads this, axes
      ensures Valid() && !autoscaleYOn ==> Some(r) == ylim
    {
      axes.yaxis.lim
    }

    /** Both axes autoscale: in a valid stack, neither has a stored limit. */
    function GetAutoscaleOn(): (r: bool)
      reads this, axes
      ensures Valid() ==> (r <==> xlim.None? && ylim.None?)
    {
      axes.xaxis.autoscale && axes.yaxis.autoscale
    }

    function GetAutoscaleXOn(): (r: bool)
      reads this, axes
      ensures Valid() ==> (r <==> xlim.None?)
    {
      axes.xaxis.autoscale
    }

    function GetAutoscaleYOn(): (r: bool)
      reads this, axes
      ensures Valid() ==> (r <==> ylim.None?)
    {
      axes.yaxis.autoscale
    }
  }

  /** A colorbar drawn by a stack that is handed a new mappable becomes
      dirty, so the next render of that stack clears the axes and draws it
      anew. */
  method NotifyDrawnColorbar(s: Stack, colorbar: Layer, mappable: Value)
    requires colorbar.kind == Colorbar && colorbar in s.layers && colorbar in s.drawn
    modifies colorbar
    ensures colorbar.config == old(colorbar.config)["mappable" := mappable]
    ensures s.ResetNeeded()
  {
    LayerColorbar.SetMappable(colorbar, mappable);
    assert s.layers[IndexOf(s.layers, colorbar)] == colorbar;
  }
}
