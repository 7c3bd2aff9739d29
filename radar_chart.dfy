/**
 * The radar-chart builder of app3.py: from variable names, intensity values
 * and a style token to the arguments the Plotly figure is built from. The
 * Figure datatype stands for the `go.Figure` after its one `add_trace` and
 * its `update_layout`; only the values passed to Plotly are modelled.
 */
module RadarChart {
  import opened Polyline

  /** Colours picked by the style token: background, outline, fill, and text. */
  datatype Palette = Palette(bg: string, line: string, fill: string, text: string)

  const DarkPalette := Palette("#121212", "white", "rgba(0, 255, 255, 0.3)", "white")
  const LightPalette := Palette("#FFFFFF", "black", "rgba(0, 0, 255, 0.3)", "black")

  /** `fill='toself'`: the area enclosed by the trace is filled. */
  datatype FillMode = ToSelf

  datatype Line = Line(color: string, width: int)

  /** The `go.Scatterpolar` trace: one point per (r[i], theta[i]). */
  datatype Trace = Trace(
    r: seq<int>,
    theta: seq<string>,
    fill: FillMode,
    fillColor: string,
    line: Line,
    name: string)

  datatype AxisRange = AxisRange(lo: int, hi: int)

  datatype RadialAxis = RadialAxis(visible: bool, range: AxisRange, color: string)

  datatype Polar = Polar(radialAxis: RadialAxis, bgColor: string)

  /** `x` is the horizontal position of the title as a fraction of the width. */
  datatype Title = Title(text: string, fontSize: int, x: real)

  datatype Layout = Layout(polar: Polar, paperBgColor: string, fontColor: string, title: Title)

  datatype Figure = Figure(trace: Trace, layout: Layout)

  /** The one failure: `labels[0]` on an empty list raises an IndexError. */
  datatype Error = IndexError

  datatype Result<T> = Ok(value: T) | Err(error: Error)

  const DefaultStyle := "light"
  const LineWidth := 2
  const RadialRange := AxisRange(0, 5)
  const TraceName := "Intensidade"
  const TitleText := "Composição de Katas - Intensidade das Variáveis"
  const TitleFontSize := 16
  const TitleX := 0.5

  /** The two-way palette lookup: "dark" selects the dark palette, every other token the light one. */
  function PaletteFor(style: string): (p: Palette)
    ensures p == DarkPalette <==> style == "dark"
    ensures p == LightPalette <==> style != "dark"
  {
    if style == "dark" then DarkPalette else LightPalette
  }

  /** `values + values[:1]`: closes a non-empty value sequence; an empty one stays empty, without error. */
  function ClosedRadial(values: seq<int>): (r: seq<int>)
    ensures values == [] ==> r == []
    ensures values != [] ==> ClosingOf(r, values)
  {
    values + PrefixSlice(values, 1)
  }

  /** `labels + [labels[0]]`: closes the label sequence, failing when there is no first label. */
  function ClosedAngular(labels: seq<string>): (t: Result<seq<string>>)
    ensures t.Err? <==> labels == []
    ensures t.Err? ==> t.error == IndexError
    ensures t.Ok? ==> ClosingOf(t.value, labels)
  {
    if labels == [] then Err(IndexError) else Ok(labels + [labels[0]])
  }

  /** The palette a figure was drawn with, read back from the figure's own arguments. */
  function PaletteOf(f: Figure): Palette
  {
    Palette(f.layout.paperBgColor, f.trace.line.color, f.trace.fillColor, f.layout.fontColor)
  }

  /** The polar area shares the page background, and the radial axis is drawn in the text colour. */
  predicate ThemeConsistent(f: Figure)
  {
    && f.layout.polar.bgColor == f.layout.paperBgColor
    && f.layout.polar.radialAxis.color == f.layout.fontColor
  }

  /** Everything in the figure that does not depend on the input. */
  predicate FixedParameters(f: Figure)
  {
    && f.trace.fill == ToSelf
    && f.trace.line.width == LineWidth
    && f.trace.name == TraceName
    && f.layout.polar.radialAxis.visible
    && f.layout.polar.radialAxis.range == RadialRange
    && f.layout.title == Title(TitleText, TitleFontSize, TitleX)
  }

  /**
   * plot_radar_chart_plotly: fails exactly when `labels` is empty; otherwise the
   * trace carries the closed labels and the closed (possibly empty) values,
   * unchecked against each other or against the axis range, and every colour
   * comes from the palette of `style`.
   */
  function PlotRadarChart(labels: seq<string>, values: seq<int>, style: string := DefaultStyle): (res: Result<Figure>)
    ensures res.Err? <==> labels == []
    ensures res.Err? ==> res.error == IndexError
    ensures res.Ok? ==> ClosingOf(res.value.trace.theta, labels)
    ensures res.Ok? && values == [] ==> res.value.trace.r == []
    ensures res.Ok? && values != [] ==> ClosingOf(res.value.trace.r, values)
    ensures res.Ok? ==> PaletteOf(res.value) == PaletteFor(style)
    ensures res.Ok? ==> ThemeConsistent(res.value) && FixedParameters(res.value)
  {
    var p := PaletteFor(style);
    var r := ClosedRadial(values);
    match ClosedAngular(labels)
    case Err(e) => Err(e)
    case Ok(theta) =>
      var trace := Trace(r, theta, ToSelf, p.fill, Line(p.line, LineWidth), TraceName);
      var axis := RadialAxis(true, RadialRange, p.text);
      var title := Title(TitleText, TitleFontSize, TitleX);
      Ok(Figure(trace, Layout(Polar(axis, p.bg), p.bg, p.text, title)))
  }

  /** Called without a style, the chart uses the light palette. */
  lemma DefaultStyleIsLight(labels: seq<string>, values: seq<int>)
    requires labels != []
    ensures PlotRadarChart(labels, values).Ok?
    ensures PaletteOf(PlotRadarChart(labels, values).value) == LightPalette
  {
  }

  /** The two palettes differ in every colour, so the figure tells which style was chosen. */
  lemma PaletteDeterminesStyle(labels: seq<string>, values: seq<int>, style: string)
    requires labels != []
    ensures PlotRadarChart(labels, values, style).Ok?
    ensures var f := PlotRadarChart(labels, values, style).value;
      (f.layout.paperBgColor == DarkPalette.bg <==> style == "dark")
      && (f.trace.fillColor == DarkPalette.fill <==> style == "dark")
  {
  }

  /**
   * Values are passed through unchanged, in order, whatever their magnitude:
   * nothing is clipped to the radial range, and the labels need not be as many.
   */
  lemma ValuesPassThrough(labels: seq<string>, values: seq<int>, style: string, i: int)
    requires labels != [] && 0 <= i < |values|
    ensures PlotRadarChart(labels, values, style).Ok?
    ensures PlotRadarChart(labels, values, style).value.trace.r[i] == values[i]
  {
  }

  /** The inputs the sidebar can produce: 1 to 10 variables, one slider value in 1..5 for each. */
  ghost predicate SidebarInputs(labels: seq<string>, values: seq<int>)
  {
    && 1 <= |labels| <= 10
    && |values| == |labels|
    && forall i :: 0 <= i < |values| ==> 1 <= values[i] <= 5
  }

  /**
   * From the sidebar's inputs the chart is always built; its points are the
   * (value, name) pairs with the first pair repeated at the end, every point
   * lies inside the radial range, and the outline drawn through them is the
   * polygon over the variables, closing back to the first one.
   */
  lemma SidebarChartIsClosedPolygon(labels: seq<string>, values: seq<int>, style: string)
    requires SidebarInputs(labels, values)
    ensures PlotRadarChart(labels, values, style).Ok?
    ensures var t := PlotRadarChart(labels, values, style).value.trace;
      && |t.r| == |t.theta|
      && ClosingOf(Zip(t.r, t.theta), Zip(values, labels))
      && (forall i :: 0 <= i < |t.r| ==> RadialRange.lo <= t.r[i] <= RadialRange.hi)
      && Segments(Zip(t.r, t.theta)) == PolygonEdges(Zip(values, labels))
  {
  }

  /**
   * The worked examples: three dark-style variables, a single light-style one,
   * a value above the radial range, and no labels or no values.
   */
  lemma Examples()
    ensures var f := PlotRadarChart(["Power", "Speed", "Precision"], [4, 2, 5], "dark").value;
      && f.trace.r == [4, 2, 5, 4]
      && f.trace.theta == ["Power", "Speed", "Precision", "Power"]
      && f.layout.paperBgColor == "#121212"
      && f.trace.fillColor == DarkPalette.fill
      && f.layout.polar.radialAxis.range == AxisRange(0, 5)
    ensures PlotRadarChart(["X"], [3], "light").value.trace.r == [3, 3]
    ensures PlotRadarChart(["X"], [3], "light").value.layout.paperBgColor == "#FFFFFF"
    ensures PlotRadarChart(["X", "Y"], [9, 1], "light").value.trace.r == [9, 1, 9]
    ensures PlotRadarChart([], [3], "dark") == Err(IndexError)
    ensures PlotRadarChart(["A", "B"], [], "light").value.trace.theta == ["A", "B", "A"]
    ensures PlotRadarChart(["A", "B"], [], "light").value.trace.r == []
  {
  }
}
