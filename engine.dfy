/** The page's state and the chart configuration it writes, with the operations
    that update them: applying the axis controls, autoscaling, redrawing from
    the table, submitting the header form and the "show y-intercept" button.
    Table cells, control values and form fields come in as strings; parseFloat
    is the parameter `parse` (None for NaN) and toFixed(4) the parameter
    `format`. */
module Engine {
  import opened Wrappers
  import Regression
  import opened Points
  import opened Labels

  /** The key under which the equation label is stored. */
  const RegressionLabelId: string := "regression-label"

  /** The equation label: where it is anchored and its lines of text. */
  datatype Annotation = Annotation(xValue: real, yValue: real, content: seq<string>)

  /** The values read from the axis controls: four bound fields and two scale selectors. */
  datatype AxisControls = AxisControls(xMin: string, xMax: string, yMin: string, yMax: string,
                                       xScale: ScaleType, yScale: ScaleType)

  // ---------------------------------------------------------------------------
  // Axis bounds

  /** A set bound on a logarithmic axis is positive. */
  predicate BoundFits(b: Option<real>, t: ScaleType)
  {
    t == Logarithmic && b.Some? ==> b.value > 0.0
  }

  /** A bound as applied from its control: NaN leaves it unset, and on a
      logarithmic axis a value that is not positive is dropped too. */
  function Sanitize(parsed: Option<real>, t: ScaleType): (r: Option<real>)
    ensures BoundFits(r, t)
    ensures r.Some? ==> r == parsed
    ensures t == Linear ==> r == parsed
    ensures t == Logarithmic ==> (r.Some? <==> parsed.Some? && parsed.value > 0.0)
  {
    if t == Logarithmic && parsed.Some? && !(parsed.value > 0.0) then None else parsed
  }

  /** Applying a sanitised bound again changes nothing. */
  lemma SanitizeIdempotent(parsed: Option<real>, t: ScaleType)
    ensures Sanitize(Sanitize(parsed, t), t) == Sanitize(parsed, t)
  {
  }

  // ---------------------------------------------------------------------------
  // The page state

  /** The title, the two variables, the scale types and the user's axis bounds. */
  class ViewState {
    var title: string
    var x: VariableMeta
    var y: VariableMeta
    var xScaleType: ScaleType
    var yScaleType: ScaleType
    var xMin: Option<real>
    var xMax: Option<real>
    var yMin: Option<real>
    var yMax: Option<real>

    /** Every bound that is set fits its axis. */
    predicate Valid()
      reads this
    {
      BoundFits(xMin, xScaleType) && BoundFits(xMax, xScaleType)
      && BoundFits(yMin, yScaleType) && BoundFits(yMax, yScaleType)
    }

    /** The variable shown on axis a. */
    function Meta(a: Axis): VariableMeta
      reads this
    {
      match a
      case X => x
      case Y => y
    }

    /** The state the page starts with: placeholder names, units "units",
        linear scales and no bounds. */
    constructor()
      ensures Valid()
      ensures title == "Title"
      ensures x == VariableMeta("x", "X-Variable", "units")
      ensures y == VariableMeta("y", "Y-Variable", "units")
      ensures xScaleType == Linear && yScaleType == Linear
      ensures xMin == None && xMax == None && yMin == None && yMax == None
    {
      title := "Title";
      x := VariableMeta("x", "X-Variable", "units");
      y := VariableMeta("y", "Y-Variable", "units");
      xScaleType, yScaleType := Linear, Linear;
      xMin, xMax, yMin, yMax := None, None, None, None;
    }

    /** The state half of applying the axis controls: the scale types as
        selected, and each bound parsed and sanitised for its axis. */
    method ApplyControls(controls: AxisControls, parse: string -> Option<real>)
      modifies this
      ensures Valid()
      ensures xScaleType == controls.xScale && yScaleType == controls.yScale
      ensures xMin == Sanitize(old(parse(controls.xMin)), controls.xScale)
      ensures xMax == Sanitize(old(parse(controls.xMax)), controls.xScale)
      ensures yMin == Sanitize(old(parse(controls.yMin)), controls.yScale)
      ensures yMax == Sanitize(old(parse(controls.yMax)), controls.yScale)
      ensures title == old(title) && x == old(x) && y == old(y)
    {
      var newXMin := Sanitize(parse(controls.xMin), controls.xScale);
      var newXMax := Sanitize(parse(controls.xMax), controls.xScale);
      var newYMin := Sanitize(parse(controls.yMin), controls.yScale);
      var newYMax := Sanitize(parse(controls.yMax), controls.yScale);
      xScaleType, yScaleType := controls.xScale, controls.yScale;
      xMin, xMax, yMin, yMax := newXMin, newXMax, newYMin, newYMax;
    }

    /** Editing the title: an empty title becomes "Title". */
    method SetTitle(text: string)
      modifies this
      ensures title != ""
      ensures text != "" ==> title == text
      ensures text == "" ==> title == "Title"
      ensures x == old(x) && y == old(y)
      ensures xScaleType == old(xScaleType) && yScaleType == old(yScaleType)
      ensures xMin == old(xMin) && xMax == old(xMax) && yMin == old(yMin) && yMax == old(yMax)
    {
      title := OrElse(text, "Title");
    }
  }

  // ---------------------------------------------------------------------------
  // The chart configuration

  /** What the page writes into the chart: scale types, bounds and titles of
      both axes, the data and fit-line datasets and the annotations. */
  class Chart {
    var xType: ScaleType
    var yType: ScaleType
    var xMin: Option<real>
    var xMax: Option<real>
    var yMin: Option<real>
    var yMax: Option<real>
    var xTitle: string
    var yTitle: string
    var data: seq<Point>
    var fitLine: seq<Point>
    var annotations: map<string, Annotation>

    /** The equation label is the only annotation the page ever stores. */
    predicate Valid()
      reads this
    {
      annotations.Keys <= {RegressionLabelId}
    }

    /** The chart as first built from the state: its scales, bounds and axis
        titles, with both datasets and the annotations empty. */
    constructor(st: ViewState)
      ensures Valid()
      ensures xType == st.xScaleType && yType == st.yScaleType
      ensures xMin == st.xMin && xMax == st.xMax && yMin == st.yMin && yMax == st.yMax
      ensures xTitle == AxisLabel(st.x, X) && yTitle == AxisLabel(st.y, Y)
      ensures data == [] && fitLine == [] && annotations == map[]
    {
      xType, yType := st.xScaleType, st.yScaleType;
      xMin, xMax, yMin, yMax := st.xMin, st.xMax, st.yMin, st.yMax;
      xTitle := AxisLabel(st.x, X);
      yTitle := AxisLabel(st.y, Y);
      data, fitLine, annotations := [], [], map[];
    }

    /** The chart half of applying the axis controls: scale types and bounds
        copied from the state. */
    method CopyScales(st: ViewState)
      modifies this
      ensures xType == st.xScaleType && yType == st.yScaleType
      ensures xMin == st.xMin && xMax == st.xMax && yMin == st.yMin && yMax == st.yMax
      ensures xTitle == old(xTitle) && yTitle == old(yTitle)
      ensures data == old(data) && fitLine == old(fitLine) && annotations == old(annotations)
    {
      xType, yType := st.xScaleType, st.yScaleType;
      xMin, xMax, yMin, yMax := st.xMin, st.xMax, st.yMin, st.yMax;
    }

    /** The view is set to exactly the bounds b. */
    predicate ViewIs(b: Bounds)
      reads this
    {
      xMin == Some(b.xMin) && xMax == Some(b.xMax) && yMin == Some(b.yMin) && yMax == Some(b.yMax)
    }

    /** The chart draws the table's rows as the redraw does: the plottable
        points sorted by x, with the fit line and equation label of Overlay. */
    predicate Shows(rows: seq<Row>, parse: string -> Option<real>, format: real -> string,
                    xv: VariableMeta, yv: VariableMeta)
      reads this
    {
      var pts := LogFilter(ParseRows(rows, parse), xType, yType);
      data == SortByX(pts) && (fitLine, annotations) == Overlay(pts, xMin, xMax, format, xv, yv)
    }
  }

  /** The fit-line dataset and the annotations drawn over the plotted points:
      with at least two points the fit line over the x span and the equation
      label at its anchor, with fewer neither. */
  function Overlay(pts: seq<Point>, xMin: Option<real>, xMax: Option<real>, format: real -> string,
                   xv: VariableMeta, yv: VariableMeta): (seq<Point>, map<string, Annotation>)
  {
    if |pts| >= 2 then
      CoordinatesOfPoints(pts);
      var xs, ys := Xs(pts), Ys(pts);
      var fit := Regression.Fit(xs, ys);
      var span := FitSpan(xMin, xMax, xs);
      var at := Anchor(span.0, span.1, ys);
      (FitLine(fit, span.0, span.1),
       map[RegressionLabelId := Annotation(at.x, at.y, [EquationText(xv, yv, fit.slope, fit.intercept, format)])])
    else
      ([], map[])
  }

  /** With fewer than two points nothing is drawn over them; with two or more
      the fit line has two points on the fitted line, starting and ending at
      the axis bounds where those are set, and the only annotation is the
      equation label, holding the equation and anchored within the y range. */
  lemma OverlayShape(pts: seq<Point>, xMin: Option<real>, xMax: Option<real>, format: real -> string,
                     xv: VariableMeta, yv: VariableMeta)
    ensures var r := Overlay(pts, xMin, xMax, format, xv, yv);
      (|pts| < 2 <==> r.0 == [])
      && (|pts| < 2 <==> RegressionLabelId !in r.1)
      && (|pts| < 2 ==> r.1 == map[])
    ensures |pts| >= 2 ==>
      var r := Overlay(pts, xMin, xMax, format, xv, yv);
      var fit := Regression.Fit(Xs(pts), Ys(pts));
      |r.0| == 2 && OnLine(r.0[0], fit) && OnLine(r.0[1], fit)
      && (xMin.Some? ==> r.0[0].x == xMin.value) && (xMax.Some? ==> r.0[1].x == xMax.value)
      && r.1.Keys == {RegressionLabelId}
      && r.1[RegressionLabelId].content == [EquationText(xv, yv, fit.slope, fit.intercept, format)]
      && MinOf(Ys(pts)) <= r.1[RegressionLabelId].yValue <= MaxOf(Ys(pts))
  {
  }

  // ---------------------------------------------------------------------------
  // Operations of the page

  /** Reads the axis controls into the state, dropping bounds a logarithmic
      axis cannot take, and copies scale types and bounds to the chart. */
  method ApplyAxesFromControls(st: ViewState, chart: Chart, controls: AxisControls,
                               parse: string -> Option<real>)
    modifies st, chart
    ensures st.Valid()
    ensures st.xScaleType == controls.xScale && st.yScaleType == controls.yScale
    ensures st.xMin == Sanitize(old(parse(controls.xMin)), controls.xScale)
    ensures st.xMax == Sanitize(old(parse(controls.xMax)), controls.xScale)
    ensures st.yMin == Sanitize(old(parse(controls.yMin)), controls.yScale)
    ensures st.yMax == Sanitize(old(parse(controls.yMax)), controls.yScale)
    ensures st.title == old(st.title) && st.x == old(st.x) && st.y == old(st.y)
    ensures chart.xType == st.xScaleType && chart.yType == st.yScaleType
    ensures chart.xMin == st.xMin && chart.xMax == st.xMax
    ensures chart.yMin == st.yMin && chart.yMax == st.yMax
    ensures chart.xTitle == old(chart.xTitle) && chart.yTitle == old(chart.yTitle)
    ensures chart.data == old(chart.data) && chart.fitLine == old(chart.fitLine)
    ensures chart.annotations == old(chart.annotations)
  {
    st.ApplyControls(controls, parse);
    chart.CopyScales(st);
  }

  /** Fits the view to the plotted points: 5% of the x range and 10% of the y
      range on each side, every point strictly inside. Nothing changes when
      nothing is plotted. */
  method AutoscaleToData(chart: Chart)
    modifies chart
    ensures chart.data == old(chart.data)
    ensures chart.data == [] ==>
      chart.xMin == old(chart.xMin) && chart.xMax == old(chart.xMax)
      && chart.yMin == old(chart.yMin) && chart.yMax == old(chart.yMax)
    ensures chart.data != [] ==>
      chart.ViewIs(AutoscaleBounds(chart.data))
      && forall p :: p in chart.data ==> Inside(p, AutoscaleBounds(chart.data))
    ensures chart.xType == old(chart.xType) && chart.yType == old(chart.yType)
    ensures chart.xTitle == old(chart.xTitle) && chart.yTitle == old(chart.yTitle)
    ensures chart.fitLine == old(chart.fitLine) && chart.annotations == old(chart.annotations)
  {
    if chart.data == [] {
      return;
    }
    var b := AutoscaleBounds(chart.data);
    chart.xMin := Some(b.xMin);
    chart.xMax := Some(b.xMax);
    chart.yMin := Some(b.yMin);
    chart.yMax := Some(b.yMax);
  }

  /** Redraws from the table: parses the rows, keeps the points the scales can
      show, reports how many were skipped, plots them sorted by x, and with at
      least two points draws the fit line and stores the equation label;
      otherwise clears both. */
  method UpdateChart(st: ViewState, chart: Chart, rows: seq<Row>, parse: string -> Option<real>,
                     format: real -> string) returns (skipped: nat)
    requires chart.Valid()
    modifies chart
    ensures chart.Valid()
    ensures chart.Shows(rows, parse, format, st.x, st.y)
    ensures skipped == Rejected(ParseRows(rows, parse), chart.xType, chart.yType)
    ensures var pts := LogFilter(ParseRows(rows, parse), chart.xType, chart.yType);
      SortedByX(chart.data) && multiset(chart.data) == multiset(pts)
    ensures chart.xType == old(chart.xType) && chart.yType == old(chart.yType)
    ensures chart.xMin == old(chart.xMin) && chart.xMax == old(chart.xMax)
    ensures chart.yMin == old(chart.yMin) && chart.yMax == old(chart.yMax)
    ensures chart.xTitle == old(chart.xTitle) && chart.yTitle == old(chart.yTitle)
  {
    var raw := ParseTable(rows, parse);
    var xType, yType := chart.xType, chart.yType;
    var pts := LogFilter(raw, xType, yType);
    SkippedCount(raw, xType, yType);
    skipped := |raw| - |pts|;
    assert skipped == Rejected(raw, xType, yType);
    chart.data := SortByX(pts);
    DrawFit(st, chart, pts, format);
  }

  /** The part of the redraw after the points are plotted: with at least two
      points, fits them, draws the fit line over the x span (the axis bounds
      where set, else the data extremes) and stores the equation label at its
      anchor; with fewer, clears the fit line and the annotations. */
  method DrawFit(st: ViewState, chart: Chart, pts: seq<Point>, format: real -> string)
    requires chart.Valid()
    modifies chart
    ensures (chart.fitLine, chart.annotations) == Overlay(pts, chart.xMin, chart.xMax, format, st.x, st.y)
    ensures chart.xType == old(chart.xType) && chart.yType == old(chart.yType)
    ensures chart.xMin == old(chart.xMin) && chart.xMax == old(chart.xMax)
    ensures chart.yMin == old(chart.yMin) && chart.yMax == old(chart.yMax)
    ensures chart.xTitle == old(chart.xTitle) && chart.yTitle == old(chart.yTitle)
    ensures chart.data == old(chart.data)
  {
    var line, labels := OverlayOf(pts, chart.xMin, chart.xMax, format, st.x, st.y, chart.annotations);
    chart.fitLine, chart.annotations := line, labels;
  }

  /** The computation behind DrawFit: the regression over the points, the fit
      line over the x span and the equation label stored into the current
      annotations; with fewer than two points both are emptied. */
  method OverlayOf(pts: seq<Point>, xMin: Option<real>, xMax: Option<real>, format: real -> string,
                   xv: VariableMeta, yv: VariableMeta, current: map<string, Annotation>)
    returns (line: seq<Point>, labels: map<string, Annotation>)
    requires current.Keys <= {RegressionLabelId}
    ensures (line, labels) == Overlay(pts, xMin, xMax, format, xv, yv)
  {
    var xs, ys := Xs(pts), Ys(pts);
    if |xs| >= 2 {
      var fit := Regression.LinearRegression(xs, ys);
      var span := FitSpan(xMin, xMax, xs);
      line := FitLine(fit, span.0, span.1);
      var eq := EquationText(xv, yv, fit.slope, fit.intercept, format);
      var at := Anchor(span.0, span.1, ys);
      var entry := Annotation(at.x, at.y, [eq]);
      labels := current[RegressionLabelId := entry];
      OnlyLabel(current, entry);
    } else {
      line, labels := [], map[];
    }
  }

  /** Storing the equation label in annotations that hold nothing else leaves
      just that label. */
  lemma OnlyLabel(annotations: map<string, Annotation>, entry: Annotation)
    requires annotations.Keys <= {RegressionLabelId}
    ensures annotations[RegressionLabelId := entry] == map[RegressionLabelId := entry]
  {
  }

  /** Submits the header form for axis a: the variable becomes the trimmed
      fields with their fallbacks, the axis title follows it, and the chart is
      redrawn. */
  method SubmitHeader(st: ViewState, chart: Chart, a: Axis, form: HeaderForm, rows: seq<Row>,
                      parse: string -> Option<real>, format: real -> string)
    requires st.Valid() && chart.Valid()
    modifies st, chart
    ensures st.Valid() && chart.Valid()
    ensures st.Meta(a) == HeaderMeta(form, a)
    ensures chart.xType == old(chart.xType) && chart.yType == old(chart.yType)
    ensures chart.xMin == old(chart.xMin) && chart.xMax == old(chart.xMax)
    ensures chart.yMin == old(chart.yMin) && chart.yMax == old(chart.yMax)
    ensures a == X ==> st.y == old(st.y) && chart.xTitle == AxisLabel(st.x, X) && chart.yTitle == old(chart.yTitle)
    ensures a == Y ==> st.x == old(st.x) && chart.yTitle == AxisLabel(st.y, Y) && chart.xTitle == old(chart.xTitle)
    ensures st.title == old(st.title)
    ensures st.xScaleType == old(st.xScaleType) && st.yScaleType == old(st.yScaleType)
    ensures st.xMin == old(st.xMin) && st.xMax == old(st.xMax)
    ensures st.yMin == old(st.yMin) && st.yMax == old(st.yMax)
    ensures chart.Shows(rows, parse, format, st.x, st.y)
  {
    RelabelAxis(st, chart, a, form);
    var _ := UpdateChart(st, chart, rows, parse, format);
  }

  /** The first half of a header submission: the variable of axis a becomes the
      trimmed fields with their fallbacks, and that axis's title follows it. */
  method RelabelAxis(st: ViewState, chart: Chart, a: Axis, form: HeaderForm)
    modifies st, chart
    ensures st.Meta(a) == HeaderMeta(form, a)
    ensures a == X ==> st.y == old(st.y) && chart.xTitle == AxisLabel(st.x, X) && chart.yTitle == old(chart.yTitle)
    ensures a == Y ==> st.x == old(st.x) && chart.yTitle == AxisLabel(st.y, Y) && chart.xTitle == old(chart.xTitle)
    ensures st.title == old(st.title)
    ensures st.xScaleType == old(st.xScaleType) && st.yScaleType == old(st.yScaleType)
    ensures st.xMin == old(st.xMin) && st.xMax == old(st.xMax)
    ensures st.yMin == old(st.yMin) && st.yMax == old(st.yMax)
    ensures chart.xType == old(chart.xType) && chart.yType == old(chart.yType)
    ensures chart.xMin == old(chart.xMin) && chart.xMax == old(chart.xMax)
    ensures chart.yMin == old(chart.yMin) && chart.yMax == old(chart.yMax)
    ensures chart.data == old(chart.data) && chart.fitLine == old(chart.fitLine)
    ensures chart.annotations == old(chart.annotations)
  {
    var v := HeaderMeta(form, a);
    if a == X {
      st.x := v;
      chart.xTitle := AxisLabel(v, X);
    } else {
      st.y := v;
      chart.yTitle := AxisLabel(v, Y);
    }
  }

  /** Moves the view so that it shows the y-intercept: the raw table points
      (not the log-filtered ones) and the point (0, intercept) of their fit,
      padded as autoscaling pads. Fewer than two points change nothing. */
  method ShowYIntercept(chart: Chart, rows: seq<Row>, parse: string -> Option<real>)
    modifies chart
    ensures |ParseRows(rows, parse)| < 2 ==>
      chart.xMin == old(chart.xMin) && chart.xMax == old(chart.xMax)
      && chart.yMin == old(chart.yMin) && chart.yMax == old(chart.yMax)
    ensures |ParseRows(rows, parse)| >= 2 ==>
      var pts := ParseRows(rows, parse);
      var intercept := Regression.Fit(Xs(pts), Ys(pts)).intercept;
      chart.ViewIs(InterceptBounds(pts, intercept))
      && (forall p :: p in pts ==> Inside(p, InterceptBounds(pts, intercept)))
      && Inside(Point(0.0, intercept), InterceptBounds(pts, intercept))
    ensures chart.xType == old(chart.xType) && chart.yType == old(chart.yType)
    ensures chart.xTitle == old(chart.xTitle) && chart.yTitle == old(chart.yTitle)
    ensures chart.data == old(chart.data) && chart.fitLine == old(chart.fitLine)
    ensures chart.annotations == old(chart.annotations)
  {
    var pts := ParseTable(rows, parse);
    if |pts| >= 2 {
      var xs, ys := Xs(pts), Ys(pts);
      var fit := Regression.LinearRegression(xs, ys);
      var b := InterceptBounds(pts, fit.intercept);
      chart.xMin, chart.xMax, chart.yMin, chart.yMax := Some(b.xMin), Some(b.xMax), Some(b.yMin), Some(b.yMax);
    }
  }

  /** On a logarithmic x axis the y-intercept view sets a lower x bound that is
      not positive: the view always reaches left of x = 0. */
  lemma InterceptViewCrossesZero(pts: seq<Point>, intercept: real)
    requires pts != []
    ensures InterceptBounds(pts, intercept).xMin < 0.0
    ensures !BoundFits(Some(InterceptBounds(pts, intercept).xMin), Logarithmic)
  {
  }

  /** Autoscaling a logarithmic x axis can also set a lower x bound that is not
      positive: for the points (0.01, 1) and (100, 2) the padding reaches below
      zero. */
  lemma AutoscaleCanCrossZero()
    ensures var b := AutoscaleBounds([Point(0.01, 1.0), Point(100.0, 2.0)]);
      b.xMin < 0.0 && !BoundFits(Some(b.xMin), Logarithmic)
  {
    var pts := [Point(0.01, 1.0), Point(100.0, 2.0)];
    var xs := Xs(pts);
    assert xs == [0.01, 100.0];
    assert MinOf(xs) == 0.01 by { assert xs[..1] == [0.01]; }
    assert MaxOf(xs) == 100.0 by { assert xs[..1] == [0.01]; }
  }
}
