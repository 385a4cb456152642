/**
 * The range figure: one day's opening range drawn as a shaded rectangle with a top and a
 * bottom line. The host's coordinate mappings, its line clipper and its point-to-line
 * distance are passed in as functions; prices are integers because the figure only copies
 * them and hands them to the host's price-to-pixel mapping.
 */
module RangeAreaFigure {
  import opened Options

  /** An integer rectangle with origin (x, y) and extent (width, height); the extent may be negative. */
  datatype Rect = Rect(x: int, y: int, width: int, height: int) {
    function MaxX(): int { x + width }
  }

  /** A line segment as the host's clipper returns it. */
  datatype Line = Line(x1: real, y1: real, x2: real, y2: real)

  /**
   * What the figure reads from the host's drawing context: the time span of the chart's
   * series (start time of its first bar, end time of its last bar), the visible pixel
   * bounds (absent when the host has none), the time-to-x and price-to-y mappings, and
   * whether the top and bottom line styles are enabled.
   */
  datatype DrawContext = DrawContext(
    seriesStart: int,
    seriesEnd: int,
    bounds: Option<Rect>,
    translateTime: int -> int,
    translateValue: int -> int,
    topPathEnabled: bool,
    bottomPathEnabled: bool)

  /** The hit-test radius in pixels. */
  const HitRadius: real := 6.0

  /** The gap in pixels kept between a shifted label and the right edge. */
  const LabelMargin: int := 5

  predicate InSpan(t: int, lo: int, hi: int) { lo <= t <= hi }

  class SimpleRangeArea {
    var start: int
    var end: int
    var top: int
    var bottom: int
    // The projection computed by the last Layout.
    var right: int
    var topLine: Option<Line>
    var bottomLine: Option<Line>
    var area: Option<Rect>
    var extendLines: bool

    constructor (start: int, end: int, top: int, bottom: int)
      ensures this.start == start && this.end == end
      ensures GetHigh() == top && GetLow() == bottom
      ensures !IsExtendLines()
      ensures right == 0 && topLine.None? && bottomLine.None? && area.None?
    {
      this.top := top;
      this.bottom := bottom;
      this.start := start;
      this.end := end;
      right := 0;
      topLine := None;
      bottomLine := None;
      area := None;
      extendLines := false;
    }

    function GetHigh(): int reads this { top }

    function GetLow(): int reads this { bottom }

    function IsExtendLines(): bool reads this { extendLines }

    method SetExtendLines(b: bool)
      modifies this`extendLines
      ensures IsExtendLines() == b
    {
      extendLines := b;
    }

    /** The figure is hidden when the series ends before it starts or starts after it ends. */
    predicate IsVisible(ctx: DrawContext)
      reads this
    {
      !(ctx.seriesEnd < start || ctx.seriesStart > end)
    }

    /** The lines a pointer can hit: those that are laid out and whose style is enabled. */
    function EnabledLines(ctx: DrawContext): set<Line>
      reads this
    {
      (if topLine.Some? && ctx.topPathEnabled then {topLine.value} else {}) +
      (if bottomLine.Some? && ctx.bottomPathEnabled then {bottomLine.value} else {})
    }

    /**
     * The x position of a label of the given width: right-aligned to the end of the line,
     * or, when the line ends past the right edge, moved inside the edge by the margin.
     */
    method GetLX(labelWidth: int, ctx: DrawContext) returns (x: int)
      requires ctx.bounds.Some?
      ensures right <= ctx.bounds.value.MaxX() ==> x == right - labelWidth
      ensures right > ctx.bounds.value.MaxX() ==>
                (right - labelWidth) - x == (right - ctx.bounds.value.MaxX()) + LabelMargin
      ensures x + labelWidth <= ctx.bounds.value.MaxX()
    {
      x := right;
      var w := labelWidth;
      x := x - w;
      var gr := ctx.bounds.value.MaxX();
      if x + w > gr {
        x := gr - w - LabelMargin;
      }
    }

    /**
     * Projects the figure into pixels. Nothing changes when the figure is not visible or
     * the context has no bounds.
     */
    method Layout(ctx: DrawContext, clipLine: (int, int, int, int, Rect) -> Option<Line>)
      modifies this
      ensures start == old(start) && end == old(end) && top == old(top) && bottom == old(bottom)
      ensures extendLines == old(extendLines)
      ensures !IsVisible(ctx) || ctx.bounds.None? ==>
                right == old(right) && topLine == old(topLine) &&
                bottomLine == old(bottomLine) && area == old(area)
      ensures IsVisible(ctx) && ctx.bounds.Some? ==>
                var gb := ctx.bounds.value;
                var lx := ctx.translateTime(start);
                var ty := ctx.translateValue(top);
                var bottomY := ctx.translateValue(bottom);
                && right == (if extendLines then gb.MaxX() else ctx.translateTime(end))
                && topLine == clipLine(lx, ty, right, ty, gb)
                && bottomLine == clipLine(lx, bottomY, right, bottomY, gb)
                && area == Some(Rect(lx, ty, right - lx, bottomY - ty))
      ensures IsVisible(ctx) && ctx.bounds.Some? ==>
                area.Some? && area.value.MaxX() == right &&
                area.value.y + area.value.height == ctx.translateValue(bottom)
    {
      if !IsVisible(ctx) {
        return;
      }
      var gb := ctx.bounds;
      if gb.None? {
        return;
      }
      var lx := ctx.translateTime(start);
      var rx := if extendLines then ctx.bounds.value.MaxX() else ctx.translateTime(end);
      right := rx;
      var ty := ctx.translateValue(top);
      var bottomY := ctx.translateValue(bottom);
      topLine := clipLine(lx, ty, rx, ty, gb.value);
      bottomLine := clipLine(lx, bottomY, rx, bottomY, gb.value);
      area := Some(Rect(lx, ty, rx - lx, bottomY - ty));
    }

    /**
     * Hit test of the point (x, y); `distance` is the host's point-to-line distance.
     */
    function Contains(x: real, y: real, ctx: DrawContext, distance: (real, real, Line) -> real): (r: bool)
      reads this
      ensures r ==> IsVisible(ctx)
      ensures r ==> (topLine.Some? && ctx.topPathEnabled) || (bottomLine.Some? && ctx.bottomPathEnabled)
    {
      if !IsVisible(ctx) then false
      else if topLine.Some? && ctx.topPathEnabled && distance(x, y, topLine.value) < HitRadius then true
      else if bottomLine.Some? && ctx.bottomPathEnabled && distance(x, y, bottomLine.value) < HitRadius then true
      else false
    }
  }

  /** Visibility is an overlap test of the figure's time span with the series' time span. */
  lemma VisibleIffOverlap(a: SimpleRangeArea, ctx: DrawContext)
    requires a.start <= a.end && ctx.seriesStart <= ctx.seriesEnd
    ensures a.IsVisible(ctx) <==>
              exists t :: InSpan(t, a.start, a.end) && InSpan(t, ctx.seriesStart, ctx.seriesEnd)
  {
    if a.IsVisible(ctx) {
      var t := if a.start < ctx.seriesStart then ctx.seriesStart else a.start;
      assert InSpan(t, a.start, a.end) && InSpan(t, ctx.seriesStart, ctx.seriesEnd);
    }
  }

  /** A hit means the figure is visible and the point is near one of its enabled lines, and conversely. */
  lemma ContainsIffNearEnabledLine(a: SimpleRangeArea, x: real, y: real, ctx: DrawContext,
                                   distance: (real, real, Line) -> real)
    ensures a.Contains(x, y, ctx, distance) <==>
              a.IsVisible(ctx) && exists l :: l in a.EnabledLines(ctx) && distance(x, y, l) < HitRadius
  {
    var lines := a.EnabledLines(ctx);
    if a.topLine.Some? && ctx.topPathEnabled {
      assert a.topLine.value in lines;
    }
    if a.bottomLine.Some? && ctx.bottomPathEnabled {
      assert a.bottomLine.value in lines;
    }
  }
}
