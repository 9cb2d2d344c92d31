# Timeline chart interaction model

A Dafny model of the interactive part of the `Timeline` page of the TimelineSample Blazor app. The
page plots test runs (a date, an id, a test case A–F and a status Success/Warning/Error) as points
on a time axis, with one row per test case. The model covers:

- the status style resolver `Sample.FillAndStroke` (module `Styles`);
- the runs and their hover flags, `Sample` and `PlotData<Sample>` (module `Samples`);
- how the dataset is split into one line series per test case, ordered by date (module `Series`);
- the page state: points (run, hover flag and drawn geometry), series, the selected run, the
  selection marker (`Sections`), the time axis, the ids reported to the click subscriber, and a
  count of redraw requests (module `TimelineState`);
- the pointer handlers: point created, hover, hover lost and click (module `Interaction`);
- panning and zooming the time axis around the selected run (module `Zoom`);
- regenerating the dataset (module `Dataset`);
- the custom tooltip and legend, seen as builders of a small tree of stack panels, labels and
  icons, and the chart's overlay registry (modules `Overlays`, `Tooltip`, `Legend`);
- an end-to-end scenario lemma: hover, click, zoom in and reset on a three-run dataset (module `Scenario`).

Every operation is a pure function from the old state to the new one. Dates are their OLE
Automation values (`ToOADate`) as `real`s, and so are axis limits and bounds. Colours are RGB
triples with the source's constants.

Details of the code the model keeps:
- Legend icons are styled with `FillAndStroke(status)`, which puts them on layers 1 and 2. Only the
  tooltip icon uses the raised base 10100.
- Every icon stroke is 5 thick, as for chart points.
- Legend cells are centred (`Middle`/`Middle`). Their labels are start-aligned.
- Legend and tooltip labels show the enum identifier (`status.ToString()`), not the attribute's
  display string.
- A zoom scales the explicit window only when both limits are set. With one limit missing it
  scales the visible data bounds.

## Model

| member | source | states |
|---|---|---|
| `Styles.Add32` | TimelineSample/TimelineSample/Pages/Timeline.razor.cs:54-56 | The C# `int` addition `zIndex + 1`/`zIndex + 2`, unchecked: the one `int` that equals the exact sum modulo 2^32. |
| `Styles.FillAndStroke` | TimelineSample/TimelineSample/Pages/Timeline.razor.cs:52-58 | For an `int` base, Success, Warning and Error give a white fill and a stroke 5 thick, in green (40,167,69), amber (255,193,7) or red (220,53,69). The layers are base+1 and base+2 while base+2 fits in an `int`. At the top of the range they wrap: base `int.MaxValue`−1 puts the stroke on `int.MinValue`, and base `int.MaxValue` puts the fill there. Any undeclared enum value gives (null, null). |
| `Styles.StatusStrokesDistinct` | TimelineSample/TimelineSample/Pages/Timeline.razor.cs:52-58 | Two declared statuses have the same stroke colour exactly when they are the same status, whatever the layer base. No status stroke is white, yellow or blue, and no status fill is the hover or selection paint, so hover and selection restyling is always visible. |
| `Styles.FillBelowStroke` | TimelineSample/TimelineSample/Pages/Timeline.razor.cs:52-58 | The fill is below the stroke for every `int` base except `int.MaxValue`−1, where the stroke's layer wraps. While neither layer wraps, shifting the base by d shifts both layers by d. The colour never depends on the base. |
| `Samples.CaseLabelInjective` | TimelineSample/TimelineSample/Pages/Timeline.razor.cs:36-50 | Two cases have the same label exactly when they are the same case, so filtering runs by label is the same as filtering them by case. |
| `Samples.CaseLabel` | TimelineSample/TimelineSample/Pages/Timeline.razor.cs:36-50 | The `StringValue` label of each case is the one letter at the case's position in the enum: A..F. |
| `Samples.CaseOrdinal` | TimelineSample/TimelineSample/Pages/Timeline.razor.cs:120 | The `(int)Case` of a case is its position in the enum's declaration order. |
| `Series.Mapping` | TimelineSample/TimelineSample/Pages/Timeline.razor.cs:120 | A run is drawn at its date on the x axis, on the row whose index is its case's position in the enum. |
| `Series.Matching` | TimelineSample/TimelineSample/Pages/Timeline.razor.cs:119 | The `Where` filter keeps exactly the positions whose case label equals the name, in strictly increasing dataset order. |
| `Series.SortByDate` | TimelineSample/TimelineSample/Pages/Timeline.razor.cs:119 | The `OrderBy` result is a permutation of its input, ordered by date with ties kept in input order, as a stable sort does. |
| `Series.SetupSeries` | TimelineSample/TimelineSample/Pages/Timeline.razor.cs:115-123 | The series has geometry size 25 and no area fill (`Fill = null`). It holds exactly the runs whose case label equals the filter label, each once, ordered by date, with dataset order breaking ties. The label only filters: the series gets no name. |
| `Series.OrderedUnique` | TimelineSample/TimelineSample/Pages/Timeline.razor.cs:119 | Two lists with the same members, both ordered by (date, position), are equal. So the series order is the only order a stable date sort could give. |
| `Series.SeriesDetermined` | TimelineSample/TimelineSample/Pages/Timeline.razor.cs:115-123 | Any list of positions ordered by (date, position) that holds exactly the runs of a case is that case's series, so the series is the stable date sort of those runs. |
| `Interaction.Target` | TimelineSample/TimelineSample/Pages/Timeline.razor.cs:173-174 | An event is acted on exactly when the point, its geometry and its model are all present (the guard at the start of each pointer handler, as at lines 135, 143, 173 and 185). It then acts on the event's own run. |
| `Interaction.OnPointCreated` | TimelineSample/TimelineSample/Pages/Timeline.razor.cs:133-139 | With a point, geometry and run all present, the point's geometry gets the status fill and stroke and nothing else changes. Otherwise the event is ignored. |
| `Interaction.OnPointerHover` | TimelineSample/TimelineSample/Pages/Timeline.razor.cs:171-181 | A hover on a present point sets its hover flag and gives it the yellow fill. It requests one redraw. Other points, the selection, the marker, the axis, the series and the click log stay unchanged. A missing point, geometry or run leaves the page unchanged. |
| `Interaction.OnPointerHoverLost` | TimelineSample/TimelineSample/Pages/Timeline.razor.cs:183-193 | When the pointer leaves a present point, its hover flag is cleared and its fill and stroke go back to the status style. It requests one redraw and changes nothing else. A missing reference leaves the page unchanged. |
| `Interaction.OnPointerDown` | TimelineSample/TimelineSample/Pages/Timeline.razor.cs:141-169 | A click on a present, hovered point selects it and appends its id to the click log once. The marker becomes exactly one line at the run's date (Xi = Xj), red, 3 thick, dashed 6/6, and the point gets the blue fill. It requests one redraw. A click on a missing or unhovered point does nothing. |
| `Interaction.HoverIdempotent` | TimelineSample/TimelineSample/Pages/Timeline.razor.cs:171-181 | Hovering twice shows the same page as hovering once. Only the redraw count differs. |
| `Interaction.HoverThenLostRestores` | TimelineSample/TimelineSample/Pages/Timeline.razor.cs:171-193 | Hover followed by hover lost returns a point drawn in its status style to exactly its previous state, with the hover flag cleared. |
| `Interaction.CreatedThenHoverRestores` | TimelineSample/TimelineSample/Pages/Timeline.razor.cs:133-139 | After a point is created in its status style, hover then hover lost gives back the created points with only the hover flag cleared, and exactly the created points when the run was not hovered. An ignored event changes nothing. |
| `Interaction.ClickNeedsHover` | TimelineSample/TimelineSample/Pages/Timeline.razor.cs:141-147 | A click after hover lost is ignored. A click right after a hover selects the point. Any click that changes the page was on a present, hovered point. |
| `Interaction.ClickReportsOnce` | TimelineSample/TimelineSample/Pages/Timeline.razor.cs:149-150 | An effective click adds exactly one entry to the click log, the clicked run's id. An ignored click adds nothing, and so does a hover or hover lost. |
| `Interaction.SelectionSurvivesHover` | TimelineSample/TimelineSample/Pages/Timeline.razor.cs:141-193 | After a point is selected, hovering and leaving any point keeps the selection and its marker. |
| `Zoom.PanTo` | TimelineSample/TimelineSample/Pages/Timeline.razor.cs:233-241 | With an x axis, the limits become exactly the given start and end, and the axis keeps its data bounds. Nothing else on the page changes. Without an axis nothing happens. |
| `Zoom.ResetZoom` | TimelineSample/TimelineSample/Pages/Timeline.razor.cs:243-246 | Both limits are cleared, so the chart fits the data. Nothing else changes. |
| `Zoom.ZoomOn` | TimelineSample/TimelineSample/Pages/Timeline.razor.cs:248-270 | With a selection and an axis, the new explicit window is centred on the selected run's date. Its width is the current width times the scale. The current width is max − min when both limits are set, and the width of the visible data bounds otherwise. Without a selection or an axis the page is unchanged. Only the axis limits change. |
| `Zoom.CurrentWidth` | TimelineSample/TimelineSample/Pages/Timeline.razor.cs:257-266 | With both limits set, the width is that of the explicit window. With either limit missing, it is the extent of the visible data. |
| `Zoom.ZoomInOn` | TimelineSample/TimelineSample/Pages/Timeline.razor.cs:272-275 | Zooming in gives a window half the current width, centred on the selected run. |
| `Zoom.ZoomOutOn` | TimelineSample/TimelineSample/Pages/Timeline.razor.cs:277-280 | Zooming out gives a window twice the current width, centred on the selected run. |
| `Zoom.ResetZoomIdempotent` | TimelineSample/TimelineSample/Pages/Timeline.razor.cs:243-246 | Resetting twice gives the same page as resetting once. |
| `Zoom.ZoomedAxis` | TimelineSample/TimelineSample/Pages/Timeline.razor.cs:257-269 | The zoomed window is [date − half, date + half], where half is current width × scale / 2. |
| `Zoom.ZoomCompounds` | TimelineSample/TimelineSample/Pages/Timeline.razor.cs:248-270 | Zooming by s1 and then by s2 equals one zoom by s1·s2, because the second zoom scales the window the first one set. |
| `Zoom.ZoomInThenOut` | TimelineSample/TimelineSample/Pages/Timeline.razor.cs:248-280 | Zooming in then out gives the original width, centred on the selected run, with explicit limits. The page comes back unchanged exactly when it already showed that window. |
| `Zoom.ResetForgetsZoom` | TimelineSample/TimelineSample/Pages/Timeline.razor.cs:233-270 | Resetting after any zoom or pan gives the same page as resetting alone. |
| `Dataset.Testset` | TimelineSample/TimelineSample/Pages/Timeline.razor.cs:209-222 | Run i takes its date, case and status from record i, gets id i and is not hovered. |
| `Dataset.AllSeries` | TimelineSample/TimelineSample/Pages/Timeline.razor.cs:226-230 | There is one series per test case, in enum order, each with geometry size 25 and no fill. Series k holds exactly the runs of case k, ordered by date. |
| `Dataset.GeneratePlotData` | TimelineSample/TimelineSample/Pages/Timeline.razor.cs:207-231 | The dataset has n runs with ids 0..n-1, none hovered or styled. The selection and marker are cleared. The series are rebuilt, one per case in enum order, each holding exactly that case's runs in non-decreasing date order. The axis and the click log are kept. |
| `Dataset.SeriesOfRecords` | TimelineSample/TimelineSample/Pages/Timeline.razor.cs:226-230 | The series membership and date order, stated in terms of the drawn records. |
| `Dataset.OnTestsetCountChanged` | TimelineSample/TimelineSample/Pages/Timeline.razor.cs:107-111 | Changing the count gives exactly the regenerated page (the drawn runs, no selection or marker, the rebuilt series, the click log and redraw count kept), except that the axis returns to the fitted view: its limits are cleared and its data bounds kept. |
| `Dataset.RegenerateCommutesWithReset` | TimelineSample/TimelineSample/Pages/Timeline.razor.cs:107-111 | Regenerating then resetting the zoom equals resetting then regenerating. So a count change is the regeneration of the fitted view. |
| `Dataset.ZoomAfterRegenerate` | TimelineSample/TimelineSample/Pages/Timeline.razor.cs:107-111 | After a count change nothing is selected, so zoom in, zoom out and any zoom leave the page unchanged. |
| `Dataset.SeriesPartition` | TimelineSample/TimelineSample/Pages/Timeline.razor.cs:226-230 | Every run is in the series of its own case, exactly once, and in no other series. |
| `Dataset.SeriesOnOwnRow` | TimelineSample/TimelineSample/Pages/Timeline.razor.cs:117-121 | Every run of series k is drawn on row k (its `(int)Case`), and along a series the x coordinates never decrease. |
| `Dataset.SeriesOrderDetermined` | TimelineSample/TimelineSample/Pages/Timeline.razor.cs:119 | Any (date, position)-ordered list of one case's runs is that case's series. |
| `Tooltip.Present` | TimelineSample/TimelineSample/Pages/Timeline.razor.cs:361-366 | The runs behind the found points are exactly those of the points that have a data source. There is one run per such point, so the count is the number of points minus the missing ones. |
| `Tooltip.PresentAppend` | TimelineSample/TimelineSample/Pages/Timeline.razor.cs:361-366 | A point without a run contributes nothing and a point with a run contributes that run. The runs of a concatenation are the runs of its parts, in order, so `Present` keeps the order and the repeats of the found points. |
| `Tooltip.DateRow` | TimelineSample/TimelineSample/Pages/Timeline.razor.cs:368-392 | The first row of a run is a single label in the tooltip font showing the run's date. |
| `Tooltip.StatusRow` | TimelineSample/TimelineSample/Pages/Timeline.razor.cs:394-429 | The second row of a run is a 20×20 icon located in pixels, styled by `FillAndStroke(status, 10100)`, whose layers lie above the tooltip background for a declared status, then the label "id(status)". |
| `Tooltip.Rows` | TimelineSample/TimelineSample/Pages/Timeline.razor.cs:361-430 | The tooltip rows number exactly twice the found points that have a data source. |
| `Tooltip.RowsShape` | TimelineSample/TimelineSample/Pages/Timeline.razor.cs:361-430 | Row 2k is the date row and row 2k+1 the icon-and-label row of the k-th run found. |
| `Tooltip.RowsSkipMissing` | TimelineSample/TimelineSample/Pages/Timeline.razor.cs:363-364 | A point without a data source adds no row. A point with one adds exactly its date row, then its status row. |
| `Tooltip.Show` | TimelineSample/TimelineSample/Pages/Timeline.razor.cs:340-442 | The outer panel is created only if missing, and otherwise keeps its settings. Its old children are dropped from the chart and replaced by the rows of the found points. The panel is placed where the chart's placement puts a box of its measured size. The tooltip is registered with the chart, and no other overlay changes. |
| `Tooltip.Hide` | TimelineSample/TimelineSample/Pages/Timeline.razor.cs:444-449 | With a chart and an existing panel, only the tooltip overlay is removed. Otherwise nothing happens. |
| `Tooltip.ShowTwice` | TimelineSample/TimelineSample/Pages/Timeline.razor.cs:354-430 | After two calls only the second call's rows remain. The first call's rows were handed back to the chart, and the panel was created at most once. |
| `Tooltip.FirstShow` | TimelineSample/TimelineSample/Pages/Timeline.razor.cs:342-352 | The first call creates the outer panel as a rounded rectangle: vertical, padding 5, `Middle` vertical and `Start` horizontal alignment, on the dark background. It drops nothing from the chart. |
| `Tooltip.ShowThenHide` | TimelineSample/TimelineSample/Pages/Timeline.razor.cs:436-449 | Hiding after showing removes the tooltip overlay. The other overlays are as before the show. |
| `Legend.Cell` | TimelineSample/TimelineSample/Pages/Timeline.razor.cs:488-517 | A cell is a rectangle panel with padding (12, 6) and `Middle`/`Middle` alignment. It holds the 25×25 status icon styled by `FillAndStroke(status)`, below the legend font's layer, then the status label. |
| `Legend.Cells` | TimelineSample/TimelineSample/Pages/Timeline.razor.cs:486-520 | There is one cell per status, in the order given. |
| `Legend.Measure` | TimelineSample/TimelineSample/Pages/Timeline.razor.cs:473-523 | The panel becomes horizontal and bounded by the control size. Its old cells are dropped from the chart. Its children become exactly `Cells(NamedStatuses)`: one cell per declared status, in enum order, each with the cell padding and `Middle`/`Middle` alignment. Each cell holds exactly the status icon styled by `FillAndStroke(status)`, then the status label. Other settings are unchanged, and the returned size is the panel's measured size. |
| `Legend.Draw` | TimelineSample/TimelineSample/Pages/Timeline.razor.cs:461-471 | The panel moves to the given position. Afterwards the legend overlay is registered exactly when the legend position is not Hidden. Other overlays and the rest of the chart stay unchanged. |
| `Legend.DrawTwice` | TimelineSample/TimelineSample/Pages/Timeline.razor.cs:461-471 | Drawing again at the same location changes neither the legend nor the chart. |
| `Legend.MeasureRebuilds` | TimelineSample/TimelineSample/Pages/Timeline.razor.cs:479-520 | Measuring again with the same control size gives the same legend. Cells do not accumulate, and the previous cells are handed back to the chart. |
| `Legend.FirstMeasure` | TimelineSample/TimelineSample/Pages/Timeline.razor.cs:455-520 | Measuring the empty legend drops nothing from the chart and gives the Success, Warning and Error cells on a rounded panel. |
| `Legend.LegendCompleteness` | TimelineSample/TimelineSample/Pages/Timeline.razor.cs:486-520 | The legend has exactly three cells, labelled Success, Warning and Error in that order. Each icon has the white status fill on layer 1. |
| `Scenario.EndToEnd` | TimelineSample/TimelineSample/Pages/Timeline.razor.cs:141-280 | On three runs: hovering run 1 gives it the yellow fill, and clicking it selects it, reports id 1 and puts the marker at its date. Zooming in shows [15, 25] around date 20 out of bounds [10, 30]. Resetting clears the limits and keeps run 1 selected. |

## Left out

- Rendering and layout inside the charting library are not modelled. This covers `StackPanel.Measure`, arrangement, `GetTooltipLocation` and `GetLegendPosition`. Measuring and placement are function parameters (`measure`, `locate`, the legend's location), and the tooltip's placement function already accounts for the found points' screen positions.
- `SKPath.ParseSvgPathData(SVGPoints.Circle)` is not modelled: every icon is a circle.
- Paint settings the page leaves at the library's defaults are `None`. The marker's dash pattern is kept as data.
- `chart.Invalidate()` is a redraw counter.
- `Chart.AddVisual` and `RemoveVisual` are modelled as a set of registered overlays. Removing a child panel is logged in `dropped`, because the library's retained drawing is not visible here.
- Blazor plumbing is left out: the injected `HttpClient`, the `Title` parameter, `OnInitialized`, `ChartTitle` and the event subscriptions on the series. The `OnPlotPointClicked` callback (started with `InvokeAsync` and not awaited) is an append to the `clicked` log.
- `SetupAxes` is left out: the labelers, separators and fixed y-axis limits are formatting. `XAxes?.First()` is `Option<Axis>`, `None` before the axes exist. The axis's visible data bounds come from the chart and the model keeps them as given.
- Date and text formatting (`ToString("yyyy/MM/dd HH:mm:ss")`, string interpolation, `FromOADate`) is left out. Label contents are the `Text` values they would format.
- `RandomDay` and `RandomEnum` are nondeterministic. Regeneration takes the drawn records as input, and their count plays the role of `TestsetCount`.
- The reflection in `TimelineSample/TimelineSample/Shared/EnumNameAttribute.cs` is replaced by the static case-label map `CaseLabel` (A..F).
- IEEE double rounding is not modelled: dates, limits and bounds are exact `real`s.
- `Interaction.Target`: a pointer event whose run position is outside the current dataset is ignored, like a null model. The chart only sends points of the series it was given.
- `Tooltip.Show`: the early return when `_stackPanel?.Measure(chart)` is null is not modelled. The panel is always assigned earlier in the same call, so that size is never null.
- `Tooltip.Show`: the skipped points are modelled as found points without a run. A null point, a null context and a null data source are all that same case.
- `Dataset.GeneratePlotData`: the run count is the length of the drawn records, so it is never negative. The `OverflowException` that `new PlotData<Sample>[TestsetCount]` throws for a negative `TestsetCount` is not modelled.
