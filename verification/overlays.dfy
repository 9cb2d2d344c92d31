/** The retained visual tree the tooltip and the legend build, and the chart that shows it. */
module Overlays {
  import opened Wrappers
  import opened Styles

  datatype Align = Start | Middle | End
  datatype Orientation = Horizontal | Vertical

  /** Inner spacing of a box, side by side. */
  datatype Padding = Padding(left: real, top: real, right: real, bottom: real)

  /** The same spacing on all four sides. */
  function Uniform(v: real): (p: Padding)
    ensures p.left == p.top == p.right == p.bottom == v
  {
    Padding(v, v, v, v)
  }

  /** `horizontal` on the left and right, `vertical` on the top and bottom. */
  function Axes(horizontal: real, vertical: real): (p: Padding)
    ensures p.left == p.right == horizontal && p.top == p.bottom == vertical
  {
    Padding(horizontal, vertical, horizontal, vertical)
  }

  /** What a label shows. The formatting to characters is left to the host. */
  datatype Text =
    | DateTimeText(date: real)            // the run's date and time of day
    | IdStatusText(id: int, status: TestStatus)   // "<id>(<status name>)"
    | StatusText(status: TestStatus)      // the status name

  /** The unit an icon's location is given in; an icon whose unit is `None` leaves it at the
      charting library's default. */
  datatype MeasureUnit = Pixels | ChartValues

  /** The geometry drawn behind a stack panel. */
  datatype BoxShape = Rectangle | RoundedRectangle

  /** A node of the visual tree: a text label, a circular icon, or a nested stack panel. Labels and
      icons are never clipped. */
  datatype Node =
    | Label(text: Text, paint: Paint, textSize: real, padding: Padding, vAlign: Align, hAlign: Align)
    | Icon(width: real, height: real, locationUnit: Option<MeasureUnit>, style: Style)
    | Panel(panel: StackPanel)

  /** A stack panel: its children laid out in order along `orientation`. `None` leaves a setting at
      the library's default. `x` and `y` are its position on the chart. */
  datatype StackPanel = StackPanel(
    box: BoxShape,
    orientation: Option<Orientation>,
    padding: Option<Padding>,
    vAlign: Option<Align>,
    hAlign: Option<Align>,
    maxWidth: Option<real>,
    maxHeight: Option<real>,
    background: Option<Paint>,
    children: seq<Node>,
    x: real,
    y: real)

  /** A panel with every setting at its default and no children. */
  function DefaultPanel(box: BoxShape): (p: StackPanel)
    ensures p.children == [] && p.box == box
  {
    StackPanel(box, None, None, None, None, None, None, None, [], 0.0, 0.0)
  }

  /** The settings of a panel, that is the panel without its children and position. */
  function Settings(p: StackPanel): StackPanel {
    p.(children := [], x := 0.0, y := 0.0)
  }

  datatype Size = Size(width: real, height: real)
  datatype Location = Location(x: real, y: real)

  /** The overlays an application can register with the chart. */
  datatype OverlayId = TooltipOverlay | LegendOverlay

  datatype LegendPosition = Hidden | Top | Left | Right | Bottom

  /** What the page sees of the chart: the overlays it currently draws, the retained nodes it was
      told to drop (in order), where the legend goes and the size of the control. */
  datatype Chart = Chart(overlays: set<OverlayId>, dropped: seq<Node>, legendPosition: LegendPosition, controlSize: Size)

  /** Registers an overlay for drawing. */
  function AddVisual(c: Chart, id: OverlayId): (r: Chart)
    ensures r.overlays == c.overlays + {id}
    ensures r.(overlays := c.overlays) == c
  {
    c.(overlays := c.overlays + {id})
  }

  /** Stops drawing an overlay. */
  function RemoveVisual(c: Chart, id: OverlayId): (r: Chart)
    ensures r.overlays == c.overlays - {id}
    ensures r.(overlays := c.overlays) == c
  {
    c.(overlays := c.overlays - {id})
  }

  /** Tells the chart to drop the retained visuals of `nodes`, one after the other. */
  function RemoveChildren(c: Chart, nodes: seq<Node>): (r: Chart)
    ensures r.dropped == c.dropped + nodes
    ensures r.(dropped := c.dropped) == c
  {
    c.(dropped := c.dropped + nodes)
  }
}
