# Linear fit plotter: a verified model of its engine

The page `script.js` turns a two-column table of numbers into a scatter chart
with a least-squares line and an equation label. This project models the
engine under the browser plumbing, over exact reals:

- `Regression`: the least-squares fitter `linearRegression`.
  - The fitter is a single loop accumulating the moments Sx, Sy, Sxy and Sxx, followed by the closed form.
  - It has two fallbacks: fewer than two points gives (0, 0), and a zero denominator gives slope 0 with intercept Sy/n.
  - Proved about it:
    - the line passes through the centroid;
    - points exactly on a line give that line back;
    - the residuals satisfy the normal equations;
    - no other line has a smaller sum of squared residuals.
- `Points`: the point pipeline of `updateChart`.
  - `parseTable` is a loop over the rows. A row is kept iff it has at least two cells and the first two both parse.
  - The log-scale filter drops points that a logarithmic axis cannot show. The skipped count equals the number of dropped points.
  - The plotted points are sorted by x.
  - The fit line's two end points lie on the fitted line.
  - The equation label's anchor lies inside the y range of the data.
  - The padded bounds of "autoscale" and "show y-intercept" put every point strictly inside the view. The y-intercept bounds also contain (0, intercept).
- `Labels`: the texts.
  - Axis titles come from `axisLabel`.
  - The equation string has unit suffixes on the slope and the intercept.
  - `String.prototype.trim` is modelled, together with the variable that a header-form submission produces.
- `Engine`: the page's mutable state as classes.
  - `ViewState` is the `state` record: title, variables, scale types and four optional bounds.
  - `Chart` holds what the engine writes into the Chart.js configuration: scale types, bounds, axis titles, the two datasets and the annotation map.
  - The page operations are methods over these classes, each stated against the pure functions of the other modules: applying the axis controls, autoscaling, redrawing, submitting the header form, showing the y-intercept and editing the title.

`parseFloat` is a parameter `parse: string -> Option<real>`, where `None`
stands for NaN. `toFixed(4)` is a parameter `format: real -> string`. The
select controls' values `'linear'` and `'logarithmic'` are the datatype
`ScaleType`.

The equation the code builds carries unit suffixes after both numbers. With
y units "m/s" and no x units, it reads `v [m/s] = 2.5000 (m/s) t + -1.3333 (m/s)`
(`Labels.EquationExample`). The model follows the code's string, suffixes included.

The y-intercept button always widens the x extent to take in x = 0, then pads
it. The lower x bound it writes is therefore negative
(`Engine.InterceptViewCrossesZero`). That bound is one that
`applyAxesFromControls` would refuse on a logarithmic x axis. The button
writes it regardless of the axis type, and it uses the parsed table points
without the log filter, as the source does. Autoscaling does not check the
axis type either. Its padding can reach below zero too: the points (0.01, 1)
and (100, 2) give a negative lower x bound (`Engine.AutoscaleCanCrossZero`).

## Model

| member | source | states |
|---|---|---|
| Regression.Fit | script.js:129-140 | Definition; its properties are stated by Regression.FitOfConstantX, FitPassesThroughCentroid, FitRecoversLine, FitNormalEquations and FitMinimisesSquaredError |
| Points.ParseRows | script.js:105-111 | Definition; its properties are stated by Points.ParseTable, ParseRowsMembership, ParseRowsLength and ParseRowsAppend |
| Points.LogFilter | script.js:232-236 | Definition; never longer than its input; its properties are stated by Points.LogFilterMembership, LogFilterAppend, LogFilterIdempotent, LogFilterLinear and SkippedCount |
| Labels.AxisLabel | script.js:94-100 | Definition; its properties are stated by Labels.AxisLabelShape and AxisLabelSymbolFallback |
| Labels.SlopeUnits | script.js:263-265 | Definition; its properties are stated by Labels.SuffixRules |
| Labels.InterceptUnits | script.js:266 | Definition; its properties are stated by Labels.SuffixRules |
| Labels.EquationText | script.js:259-268 | Definition; its properties are stated by Labels.EquationStartsWithYLabel and EquationExample |
| Labels.ModalFields | script.js:294-297 | Definition; its properties are stated by Labels.ResubmitIsIdentity |
| Labels.Trim | script.js:323-325 | Definition of `.trim()`; its properties are stated by Labels.TrimStartSpec, TrimEndSpec, TrimEnds, TrimChars, TrimEmptyIff, TrimFixed and TrimIdempotent |
| Engine.Overlay | script.js:249-288 | Definition; its properties are stated by Engine.OverlayShape |
| Regression.LinearRegression | script.js:127-141 | The loop's moments give exactly the fit `Fit`; fewer than two points give slope 0 and intercept 0 |
| Regression.FitOfConstantX | script.js:136-137 | When every x is equal (zero denominator), the fit is slope 0 with intercept the mean of y |
| Regression.DenominatorZeroIffConstant | script.js:136-137 | The denominator n·Sxx − Sx² is never negative, and it is zero iff all x are equal |
| Regression.FitPassesThroughCentroid | script.js:136-140 | With at least two points, the fitted line passes through (mean x, mean y), in both the regular and the degenerate case |
| Regression.FitRecoversLine | script.js:136-140 | Points exactly on y = a·x + b, not all with the same x, give back slope a and intercept b |
| Regression.FitNormalEquations | script.js:136-140 | The residuals of the fit sum to zero and are orthogonal to x |
| Regression.SquaredErrorMoments | script.js:130-135 | The sum of squared residuals of any line is a quadratic in the four moments (and Syy) the loop accumulates |
| Regression.FitMinimisesSquaredError | script.js:127-141 | No line has a smaller sum of squared residuals than the fitted one |
| Regression.SqDevZeroIff | script.js:136 | A sum of squared deviations is non-negative, and it is zero iff every element equals the centre |
| Points.ParseTable | script.js:102-113 | The row loop returns exactly the points of the usable rows, in row order |
| Points.ParseRowsMembership | script.js:105-110 | A point is parsed iff some row has at least two cells, both of which parse to it |
| Points.ParseRowsLength | script.js:105-110 | Never more points than rows, and as many points as rows iff every row is usable |
| Points.ParseRowsAppend | script.js:105-111 | Parsing a concatenation of rows concatenates the parsed points |
| Points.LogFilterMembership | script.js:232-236 | A point is kept iff it is an input point that is positive on every logarithmic axis |
| Points.LogFilterAppend | script.js:232-236 | The filter works point by point and keeps the input order: filtering a concatenation concatenates the results |
| Points.LogFilterIdempotent | script.js:232-236 | Filtering twice is the same as filtering once |
| Points.LogFilterLinear | script.js:232-236 | With two linear axes the filter keeps every point |
| Points.SkippedCount | script.js:237 | The reported count (raw length minus kept length) equals the number of points that cannot be shown |
| Points.NothingSkippedIff | script.js:237-239 | The skipped count is zero iff every point can be shown |
| Points.SortByX | script.js:245 | The plotted dataset is sorted ascending by x and is a permutation of the filtered points |
| Points.InsertByX | script.js:245 | Insertion into a sorted sequence keeps it sorted and adds exactly the one point |
| Points.MinOf | script.js:252 | Math.min: an element of the input that is no larger than any element |
| Points.MaxOf | script.js:253 | Math.max: an element of the input that is no smaller than any element |
| Points.FitSpan | script.js:252-253 | The fit line spans from the set axis bounds, and otherwise from the smallest and largest x of the data |
| Points.FitLine | script.js:254-257 | Two points starting at the left end and ending at the right end, both on y = slope·x + intercept |
| Points.Anchor | script.js:272-273 | The label's y lies within [min y, max y]; its x lies within the span whenever the span is ordered |
| Points.RangeOr1 | script.js:216-217 | The range used for padding is positive: the raw range when it is positive, else 1 |
| Points.Padded | script.js:216-221 | The padded bounds lie strictly outside the extent, with equal padding on both sides. The width grows by the factor 1 + 2·frac, or becomes 2·frac for an empty range |
| Points.AutoscaleBounds | script.js:212-221 | Every point lies strictly inside the autoscaled view |
| Points.Widen | script.js:342-345 | Math.min and Math.max over the values together with one more value: the extent grows just enough to contain it |
| Points.InterceptBounds | script.js:342-352 | Every point and (0, intercept) lie strictly inside the y-intercept view |
| Labels.AxisLabelShape | script.js:94-100 | The title is "name (symbol)" when a name is set, otherwise the symbol alone; the symbol falls back to the axis id; " [units]" is appended iff units are set |
| Labels.AxisLabelSymbolFallback | script.js:96-97 | An empty symbol gives the same title as the axis id used as the symbol |
| Labels.SuffixRules | script.js:263-266 | The slope suffix is " (yu/xu)" with both units, and the intercept suffix is " (yu)" when y has units. Each suffix is empty iff y has no units. Without x units the two suffixes agree |
| Labels.EquationStartsWithYLabel | script.js:259-268 | The equation opens with the y symbol (or "y") and its bracketed units, followed by " = " |
| Labels.EquationExample | script.js:259-268 | A worked equation for symbols t and v with y in m/s and x without units |
| Labels.TrimStartSpec | script.js:323-325 | Leading trim returns a suffix of its input, drops only white space, and starts with a non-space character when the result is not empty |
| Labels.TrimEndSpec | script.js:323-325 | Trailing trim returns a prefix of its input, drops only white space, and ends with a non-space character when the result is not empty |
| Labels.TrimEnds | script.js:323-325 | A non-empty trimmed string neither starts nor ends with white space |
| Labels.TrimChars | script.js:323-325 | Trimming adds no characters |
| Labels.TrimEmptyIff | script.js:323-325 | A string trims to empty iff it is all white space |
| Labels.TrimFixed | script.js:323-325 | A string with no white space at either end trims to itself |
| Labels.TrimIdempotent | script.js:323-325 | Trimming twice equals trimming once |
| Labels.HeaderMeta | script.js:323-325 | A submission stores trimmed fields; a blank name becomes the upper-case axis id and a blank symbol the axis id, so neither is ever empty |
| Labels.TrimAxisNames | script.js:323-325 | The fallbacks "x", "y", "X" and "Y" have nothing to trim |
| Labels.RetrimField | script.js:323-325 | Trimming again a field that was trimmed, or that fell back to a trimmed value, changes nothing |
| Labels.ResubmitIsIdentity | script.js:294-297 | Opening the header form on the stored variable and submitting it unchanged stores the same variable again |
| Labels.TitleAfterHeaderEdit | script.js:323-329 | After a header edit, the axis title is "name (symbol)" plus the bracketed trimmed units |
| Engine.Sanitize | script.js:182-197 | A logarithmic axis keeps a parsed bound iff it is positive; a linear axis keeps the parsed value; a kept bound is the parsed one |
| Engine.SanitizeIdempotent | script.js:189-197 | Sanitising a sanitised bound changes nothing |
| Engine.ViewState.constructor | script.js:17-28 | The initial state: title "Title", variables x and y in "units", linear scales and no bounds |
| Engine.ViewState.ApplyControls | script.js:175-197 | The scale types are copied, each bound is its parse after sanitising for its axis, the variables and title are unchanged, and no logarithmic bound is non-positive |
| Engine.ViewState.SetTitle | script.js:366-368 | The title becomes the edited text, or "Title" when the text is empty |
| Engine.Chart.constructor | script.js:72-87 | The chart starts with the state's scale types and bounds, titles from axisLabel, and empty datasets and annotations |
| Engine.Chart.CopyScales | script.js:199-204 | The chart takes the state's scale types and bounds; titles, datasets and annotations are unchanged |
| Engine.ApplyAxesFromControls | script.js:174-207 | The state is sanitised from the controls and the chart mirrors it |
| Engine.AutoscaleToData | script.js:209-221 | An empty dataset changes nothing; otherwise the bounds become the padded data bounds, with every plotted point strictly inside |
| Engine.OverlayShape | script.js:249-288 | Fewer than two points give no fit line and an empty annotation map. Otherwise there are two fit-line points on the fitted line (at the set bounds where set) and one label holding the equation, anchored within the y range |
| Engine.OverlayOf | script.js:249-288 | The regression, fit line and equation label, computed from the points and stored into annotations that hold at most the equation label, give exactly Overlay |
| Engine.DrawFit | script.js:249-288 | The fit line and annotation map become exactly the overlay of the filtered points |
| Engine.UpdateChart | script.js:229-289 | The dataset is the sorted permutation of the log-filtered parsed rows; the skipped count is the number of dropped points; the overlay is redrawn; scales, bounds and titles are unchanged |
| Engine.RelabelAxis | script.js:322-329 | The edited axis's variable becomes the form's defaulted values and that axis's title follows it; the other variable, the other title, the scales, the bounds, the datasets and the annotations are unchanged |
| Engine.SubmitHeader | script.js:320-330 | The edited variable becomes the form's defaulted values. Only that axis's title is rebuilt. The chart's scale types and bounds stay as they were, and the chart is redrawn from the table under them |
| Engine.ShowYIntercept | script.js:334-352 | Fewer than two parsed points change nothing; otherwise the view takes the intercept bounds, which contain every point and (0, intercept) |
| Engine.AutoscaleCanCrossZero | script.js:214-218 | For the points (0.01, 1) and (100, 2), the autoscaled lower x bound is negative, so a logarithmic x axis would refuse it |
| Engine.InterceptViewCrossesZero | script.js:342-349 | The y-intercept view's lower x bound is negative, so a logarithmic x axis could never accept it |

## Left out

- Reading the DOM, and everything else the page writes to it, are parameters or not modelled: table cells (a row is its cell texts), input values, status text, the equation element, the header modal and its focus timer.
- Chart.js itself, plugin registration, `chart.update()`, zoom and pan are not modelled. The model keeps only the values the engine writes into the configuration.
- PNG export (script.js:425-455) is not modelled: it is canvas and file output.
- Event wiring, and the add-row, delete-row and clear buttons, are not modelled: they are event plumbing around the operations that are.
- Floating point is not modelled. Arithmetic is exact over reals, so IEEE-754 rounding, infinities, and the digits of `toFixed(4)` and `parseFloat`'s prefix rules are left out. The last two are abstract parameters.
- `updateRegressionAnnotation` (script.js:143-172) is not modelled. Nothing in the file calls it, and the label is modelled as `updateChart` builds it.
- The status messages, whose text comes from the skipped count, are not modelled. `Engine.UpdateChart` returns the count itself.
- Autoscale's writing of the new bounds back into the min/max input fields (script.js:222-225) is not modelled.
- The table-header relabelling is not modelled (script.js:327, 356-360 and 397-404).
  - The closing brace of `updateChart` sits after line 362, so every `updateChart` call also overwrites both axis titles with the header-cell text. The model does not take that DOM text in.
  - Engine.SubmitHeader: it states the axis title that script.js:329 writes, not the later overwrite from the header cells.
  - Engine.UpdateChart: it states that the titles are unchanged, for the same reason.
- Engine.ViewState.ApplyControls: a select value other than 'linear' or 'logarithmic' cannot occur, because the controls' values are the datatype `ScaleType`.
- Points.SortByX: it does not state that points with equal x keep their input order, which the source's stable `Array.prototype.sort` guarantees. The insertion it is built from puts each point in front of the first not-smaller one, but no lemma states stability.
- Regression.Fit: the model uses real division. Division by zero does not arise, because n ≥ 2 and the denominator is tested. NaN from non-finite input is out of scope.
