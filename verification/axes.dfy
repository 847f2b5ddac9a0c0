/** An abstract plotting axes: the part of the plotting library's Axes object
    that the core reads and writes. Drawing is a log of abstract commands;
    what the library computes when it autoscales is left open (the limits of
    an autoscaled axis may change arbitrarily). */
module Drawing {
  import opened Base
  import opened LayerCore

  /** One drawing call, with the keyword arguments it received. */
  datatype Cmd =
    | Errorbar(kwargs: Config)
    | Pcolormesh(X: Value, Y: Value, C: Value, kwargs: Config)
    | ColorbarOn(kwargs: Config)

  /** What one `to_axes` call did: the drawing calls it made, in order, and
      the exception it raised after them, if any. */
  datatype Outcome = Outcome(cmds: seq<Cmd>, error: Option<Error>)

  /** The plotting area in figure-relative coordinates. */
  datatype Bbox = Bbox(x0: real, y0: real, width: real, height: real)

  /** The major tick locator of an axis. Hiding the ticks (`set_ticks([])`)
      installs a locator with no ticks. */
  datatype Locator = AutoLocator | CustomLocator(id: nat) | NoTicks

  /** View limits of one axis: (start, stop). */
  type Lim = (real, real)

  const DefaultLim: Lim := (0.0, 1.0)

  /** The state of one axis: its view limits, whether it autoscales, and its
      major tick locator. */
  datatype AxisView = AxisView(lim: Lim, autoscale: bool, locator: Locator)

  const DefaultAxis := AxisView(DefaultLim, true, AutoLocator)

  /** Title (with the keyword arguments it was set with) and axis labels. */
  datatype Labels = Labels(title: string, titleKwargs: Config, xlabel: string, ylabel: string)

  const NoLabels := Labels("", map[], "", "")

  datatype Side = Left | Right | Bottom | Top | DefaultSide

  /** Label and tick placement, as the colorbar mode of a stack adjusts it. */
  datatype TickLayout = TickLayout(xLabelPosition: Side, yLabelPosition: Side, yTicksPosition: Side)

  const DefaultTicks := TickLayout(Bottom, Left, DefaultSide)

  class Axes {
    var position: Bbox     // the plotting area, in figure coordinates
    var labels: Labels
    var xaxis: AxisView
    var yaxis: AxisView
    var ticks: TickLayout
    var log: seq<Cmd>      // the drawing calls since the last clear
    var artists: nat       // artists created so far; a new artist gets the next serial
    ghost var clears: nat  // how often the axes were cleared

    /** The state a cleared axes is in. */
    ghost predicate Pristine()
      reads this
    {
      labels == NoLabels && xaxis == DefaultAxis && yaxis == DefaultAxis && ticks == DefaultTicks && log == []
    }

    /** An axis that does not autoscale keeps its limits. */
    twostate predicate ManualLimitsKept()
      reads this
    {
      && xaxis.autoscale == old(xaxis.autoscale) && xaxis.locator == old(xaxis.locator)
      && yaxis.autoscale == old(yaxis.autoscale) && yaxis.locator == old(yaxis.locator)
      && (!xaxis.autoscale ==> xaxis.lim == old(xaxis.lim))
      && (!yaxis.autoscale ==> yaxis.lim == old(yaxis.lim))
    }

    constructor (position: Bbox)
      ensures Pristine() && this.position == position && artists == 0 && clears == 0
    {
      this.position := position;
      labels, xaxis, yaxis, ticks, log := NoLabels, DefaultAxis, DefaultAxis, DefaultTicks, [];
      artists, clears := 0, 0;
    }

    /** The library's clear: drops every artist and every setting. */
    method Clear()
      modifies this`labels, this`xaxis, this`yaxis, this`ticks, this`log, this`clears
      ensures Pristine() && clears == old(clears) + 1
    {
      labels := NoLabels;
      xaxis := DefaultAxis;
      yaxis := DefaultAxis;
      ticks := DefaultTicks;
      log := [];
      clears := clears + 1;
    }

    /** A drawing call: records the command and creates one artist. An axis
        that autoscales may change its limits to fit the new data. */
    method Draw(c: Cmd) returns (serial: nat)
      modifies this`log, this`artists, this`xaxis, this`yaxis
      ensures log == old(log) + [c]
      ensures serial == old(artists) && artists == old(artists) + 1
      ensures ManualLimitsKept()
    {
      log := log + [c];
      serial := artists;
      artists := artists + 1;
      AutoscaleView();
    }

    /** Recomputes the limits of the autoscaled axes from the data. */
    method AutoscaleView()
      modifies this`xaxis, this`yaxis
      ensures ManualLimitsKept()
    {
      if xaxis.autoscale {
        var lim: Lim := *;
        xaxis := xaxis.(lim := lim);
      }
      if yaxis.autoscale {
        var lim: Lim := *;
        yaxis := yaxis.(lim := lim);
      }
    }

    method SetTitle(t: string, kwargs: Config)
      modifies this`labels
      ensures labels == old(labels).(title := t, titleKwargs := kwargs)
    {
      labels := labels.(title := t, titleKwargs := kwargs);
    }

    method SetXlabel(s: string)
      modifies this`labels
      ensures labels == old(labels).(xlabel := s)
    {
      labels := labels.(xlabel := s);
    }

    method SetYlabel(s: string)
      modifies this`labels
      ensures labels == old(labels).(ylabel := s)
    {
      labels := labels.(ylabel := s);
    }

    /** Setting explicit limits turns autoscaling of that axis off. */
    method SetXlim(lim: Lim)
      modifies this`xaxis
      ensures xaxis == old(xaxis).(lim := lim, autoscale := false)
    {
      xaxis := xaxis.(lim := lim, autoscale := false);
    }

    method SetYlim(lim: Lim)
      modifies this`yaxis
      ensures yaxis == old(yaxis).(lim := lim, autoscale := false)
    {
      yaxis := yaxis.(lim := lim, autoscale := false);
    }

    method SetAutoscaleXOn(on: bool)
      modifies this`xaxis
      ensures xaxis == old(xaxis).(autoscale := on)
    {
      xaxis := xaxis.(autoscale := on);
    }

    method SetAutoscaleYOn(on: bool)
      modifies this`yaxis
      ensures yaxis == old(yaxis).(autoscale := on)
    {
      yaxis := yaxis.(autoscale := on);
    }

    method SetXLocator(l: Locator)
      modifies this`xaxis
      ensures xaxis == old(xaxis).(locator := l)
    {
      xaxis := xaxis.(locator := l);
    }

    method SetYLocator(l: Locator)
      modifies this`yaxis
      ensures yaxis == old(yaxis).(locator := l)
    {
      yaxis := yaxis.(locator := l);
    }

    method SetXLabelPosition(s: Side)
      modifies this`ticks
      ensures ticks == old(ticks).(xLabelPosition := s)
    {
      ticks := ticks.(xLabelPosition := s);
    }

    method SetYLabelPosition(s: Side)
      modifies this`ticks
      ensures ticks == old(ticks).(yLabelPosition := s)
    {
      ticks := ticks.(yLabelPosition := s);
    }

    method SetYTicksPosition(s: Side)
      modifies this`ticks
      ensures ticks == old(ticks).(yTicksPosition := s)
    {
      ticks := ticks.(yTicksPosition := s);
    }
  }
}
