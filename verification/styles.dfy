/** Colours, paints and the status style resolver of the timeline page. */
module Styles {
  import opened Wrappers

  /** An SKColor, kept as its red/green/blue components. */
  datatype Color = Rgb(red: int, green: int, blue: int)

  const White: Color := Rgb(255, 255, 255)
  const Yellow: Color := Rgb(255, 255, 0)
  const Red: Color := Rgb(255, 0, 0)
  const SuccessGreen: Color := Rgb(40, 167, 69)
  const WarningAmber: Color := Rgb(255, 193, 7)
  const ErrorRed: Color := Rgb(220, 53, 69)
  const SelectedBlue: Color := Rgb(0, 123, 255)

  /** A solid colour paint. `None` in a field means the paint leaves that setting at the charting library's default. */
  datatype Paint = Paint(color: Color, zIndex: Option<int>, strokeThickness: Option<real>)

  /** The (fill, stroke) pair assigned to a geometry; `None` is a null paint. */
  datatype Style = Style(fill: Option<Paint>, stroke: Option<Paint>)

  /** The outcome of a test run. The enum of the page declares three values, 0, 1 and 2; a value
      of the enum's type may also carry any other 32-bit integer, kept here as `Undeclared(code)`.
      `code` is then never 0, 1 or 2, which are `Success`, `Warning` and `Error`. */
  datatype TestStatus = Success | Warning | Error | Undeclared(code: int)

  /** The declared statuses in declaration order, as enumerating the enum yields them. */
  const NamedStatuses: seq<TestStatus> := [Success, Warning, Error]

  /** The paint used to emphasise a point under the pointer. */
  const EmphasisFill: Paint := Paint(Yellow, None, None)

  /** The paint used for the point that was clicked. */
  const SelectedFill: Paint := Paint(SelectedBlue, None, None)

  const MinInt32: int := -0x8000_0000
  const MaxInt32: int := 0x7fff_ffff

  /** `x` fits a C# `int`. */
  predicate IsInt32(x: int) {
    MinInt32 <= x <= MaxInt32
  }

  /** The unchecked `int` addition of C#: the exact sum, wrapped into 32 bits when it overflows. */
  function Add32(a: int, b: int): (r: int)
    requires IsInt32(a) && IsInt32(b)
    ensures IsInt32(r) && (r - (a + b)) % 0x1_0000_0000 == 0
  {
    var sum := a + b;
    if sum > MaxInt32 then sum - 0x1_0000_0000
    else if sum < MinInt32 then sum + 0x1_0000_0000
    else sum
  }

  /** The status-specific stroke colour, if the status is a declared one. */
  function StrokeColor(status: TestStatus): (c: Option<Color>)
    ensures c.Some? <==> status in NamedStatuses
    ensures c.Some? ==> c.value != White && c.value != Yellow && c.value != SelectedBlue
  {
    match status
    case Success => Some(SuccessGreen)
    case Warning => Some(WarningAmber)
    case Error => Some(ErrorRed)
    case Undeclared(_) => None
  }

  /** The fill and stroke of a point (or an icon) showing `status`, painted on the two layers
      above `zIndex`. The layers are computed with unchecked 32-bit additions, so they wrap round
      at the top of the `int` range. */
  function FillAndStroke(status: TestStatus, zIndex: int): (r: Style)
    requires IsInt32(zIndex)
    ensures status in NamedStatuses ==>
      && r.fill.Some? && r.fill.value.color == White && r.fill.value.strokeThickness.None?
      && r.stroke.Some? && r.stroke.value.strokeThickness == Some(5.0)
      && r.fill.value.zIndex.Some? && r.stroke.value.zIndex.Some?
      && IsInt32(r.fill.value.zIndex.value) && IsInt32(r.stroke.value.zIndex.value)
    ensures status in NamedStatuses && zIndex + 2 <= MaxInt32 ==>
      r.fill.value.zIndex == Some(zIndex + 1) && r.stroke.value.zIndex == Some(zIndex + 2)
    ensures status in NamedStatuses && zIndex == MaxInt32 - 1 ==>
      r.fill.value.zIndex == Some(MaxInt32) && r.stroke.value.zIndex == Some(MinInt32)
    ensures status in NamedStatuses && zIndex == MaxInt32 ==>
      r.fill.value.zIndex == Some(MinInt32) && r.stroke.value.zIndex == Some(MinInt32 + 1)
    ensures status == Success ==> r.stroke.value.color == SuccessGreen
    ensures status == Warning ==> r.stroke.value.color == WarningAmber
    ensures status == Error ==> r.stroke.value.color == ErrorRed
    ensures status !in NamedStatuses ==> r == Style(None, None)
  {
    match StrokeColor(status)
    case Some(c) => Style(Some(Paint(White, Some(Add32(zIndex, 1)), None)), Some(Paint(c, Some(Add32(zIndex, 2)), Some(5.0))))
    case None => Style(None, None)
  }

  /** Each declared status is told apart by its stroke, whatever the layer base, and the stroke
      is never the emphasis or selection colour, so restyling a point is always visible. */
  lemma StatusStrokesDistinct(s1: TestStatus, s2: TestStatus, z1: int, z2: int)
    requires s1 in NamedStatuses && s2 in NamedStatuses && IsInt32(z1) && IsInt32(z2)
    ensures FillAndStroke(s1, z1).stroke.value.color == FillAndStroke(s2, z2).stroke.value.color <==> s1 == s2
    ensures FillAndStroke(s1, z1).stroke.value.color !in {White, Yellow, SelectedBlue}
    ensures FillAndStroke(s1, z1).fill != Some(EmphasisFill) && FillAndStroke(s1, z1).fill != Some(SelectedFill)
  {
  }

  /** The fill sits one layer below the stroke except when the stroke's layer wraps round, and
      shifting the base shifts both layers while neither wraps. The colour never depends on the base. */
  lemma FillBelowStroke(status: TestStatus, z: int, d: int)
    requires status in NamedStatuses && IsInt32(z) && IsInt32(z + d)
    ensures FillAndStroke(status, z).fill.value.zIndex.value < FillAndStroke(status, z).stroke.value.zIndex.value
            <==> z != MaxInt32 - 1
    ensures z + 2 <= MaxInt32 && z + d + 2 <= MaxInt32 ==>
      && FillAndStroke(status, z + d).fill.value.zIndex.value == FillAndStroke(status, z).fill.value.zIndex.value + d
      && FillAndStroke(status, z + d).stroke.value.zIndex.value == FillAndStroke(status, z).stroke.value.zIndex.value + d
    ensures FillAndStroke(status, z + d).stroke.value.color == FillAndStroke(status, z).stroke.value.color
  {
  }
}
