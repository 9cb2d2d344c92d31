/** The data of one plotted test run and its hover wrapper. */
module Samples {
  import opened Styles

  /** The test case a run belongs to; it selects the row (series) the run is drawn on. */
  datatype TestCase = A | B | C | D | E | F

  /** The test cases in declaration order. */
  const AllCases: seq<TestCase> := [A, B, C, D, E, F]

  /** The display label attached to each test case: the letter at the case's position. */
  function CaseLabel(c: TestCase): (name: string)
    ensures name == ["ABCDEF"[CaseOrdinal(c)]]
  {
    match c
    case A => "A"
    case B => "B"
    case C => "C"
    case D => "D"
    case E => "E"
    case F => "F"
  }

  /** The enum's underlying integer, used as the y coordinate of the run's row. */
  function CaseOrdinal(c: TestCase): (k: nat)
    ensures k < |AllCases| && AllCases[k] == c
  {
    match c
    case A => 0
    case B => 1
    case C => 2
    case D => 3
    case E => 4
    case F => 5
  }

  /** Labels tell the cases apart, so selecting runs by label selects them by case. */
  lemma CaseLabelInjective(c1: TestCase, c2: TestCase)
    ensures CaseLabel(c1) == CaseLabel(c2) <==> c1 == c2
  {
  }

  /** Every case occurs in `AllCases` exactly once. */
  lemma AllCasesDistinct()
    ensures forall a, b :: 0 <= a < b < |AllCases| ==> AllCases[a] != AllCases[b]
    ensures forall c: TestCase :: c in AllCases
  {
    forall c: TestCase ensures c in AllCases {
      assert AllCases[CaseOrdinal(c)] == c;
    }
  }

  /** One test run. `date` is the run's timestamp as an OLE Automation date (days since 1899-12-30). */
  datatype Sample = Sample(date: real, id: int, testCase: TestCase, status: TestStatus)

  /** A run together with the flag telling whether the pointer is over its point. */
  datatype PlotData = PlotData(data: Sample, isHoverOn: bool)
}
