/** A whole interaction on a three-run dataset: hover, click, zoom in, reset. */
module Scenario {
  import opened Wrappers
  import opened Styles
  import opened Samples
  import opened TimelineState
  import opened Interaction
  import opened Zoom
  import opened Dataset

  /** Runs 0, 1 and 2 with one status each, on days 10, 20 and 30 of the OLE date scale. */
  const Records: seq<Record> := [Record(10.0, A, Success), Record(20.0, B, Warning), Record(30.0, C, Error)]

  /** A page whose axes are set up and whose chart reports the data spanning days 10 to 30. */
  const Initial: Timeline := Timeline([], [], None, None, Some(Axis(None, None, 10.0, 30.0)), [], 0)

  /** Hovering run 1 emphasises it; clicking it selects it, reports id 1 and puts the marker at its
      date; zooming in shows the 10-day window centred there; resetting returns to the fitted view
      and keeps the selection. */
  lemma EndToEnd()
    ensures var t0 := GeneratePlotData(Initial, Records);
      var onRun1 := Some(PointerTarget(Some(1), true));
      var t1 := OnPointerHover(t0, onRun1);
      var t2 := OnPointerDown(t1, onRun1);
      var t3 := ZoomInOn(t2);
      var t4 := ResetZoom(t3);
      && t1.points[1].visual.fill == Some(EmphasisFill)
      && t2.selected == Some(1) && t2.clicked == [1]
      && t2.sections == Some([Marker(20.0)])
      && t3.xAxis == Some(Axis(Some(15.0), Some(25.0), 10.0, 30.0))
      && t4.xAxis == Some(Axis(None, None, 10.0, 30.0)) && t4.selected == Some(1)
  {
    var t0 := GeneratePlotData(Initial, Records);
    var onRun1 := Some(PointerTarget(Some(1), true));
    assert Target(t0, onRun1) == Some(1);
    var t1 := OnPointerHover(t0, onRun1);
    assert Target(t1, onRun1) == Some(1);
    var t2 := OnPointerDown(t1, onRun1);
    assert SelectedSample(t2).date == 20.0;
    ZoomedAxis(t2, 0.5);
  }
}
