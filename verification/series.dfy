/** Splitting a dataset into one line series per test case, each ordered by date. */
module Series {
  import opened Wrappers
  import opened Styles
  import opened Samples

  /** One line series, with the three properties the page sets on it. `values` holds positions in
      the dataset, in drawing order, so the series shares its points (and their hover flags) with
      the dataset. `fill` is the area under the line, which the page switches off. The page sets no
      name: the case label only selects the runs. */
  datatype LineSeries = LineSeries(values: seq<nat>, geometrySize: real, fill: Option<Paint>)

  /** The diameter of every point geometry. */
  const GeometrySize: real := 25.0

  /** Where a run is drawn: at its date on the time axis, on the row of its case. */
  function Mapping(p: PlotData): (xy: (real, nat))
    ensures xy.0 == p.data.date
    ensures xy.1 < |AllCases| && AllCases[xy.1] == p.data.testCase
  {
    (p.data.date, CaseOrdinal(p.data.testCase))
  }

  /** Every entry of `xs` is a position in `ds`. */
  ghost predicate IndicesIn(ds: seq<PlotData>, xs: seq<nat>) {
    forall k :: 0 <= k < |xs| ==> xs[k] < |ds|
  }

  /** The order a stable sort by date gives: earlier date first, dataset position breaking ties. */
  predicate Precedes(ds: seq<PlotData>, i: nat, j: nat)
    requires i < |ds| && j < |ds|
  {
    ds[i].data.date < ds[j].data.date || (ds[i].data.date == ds[j].data.date && i < j)
  }

  /** `xs` lists its positions strictly in `Precedes` order (so without repetition). */
  ghost predicate Ordered(ds: seq<PlotData>, xs: seq<nat>)
    requires IndicesIn(ds, xs)
  {
    forall a, b :: 0 <= a < b < |xs| ==> Precedes(ds, xs[a], xs[b])
  }

  /** The positions below `n` whose case label is `name`, in dataset order (the `Where` filter). */
  function Matching(ds: seq<PlotData>, name: string, n: nat): (xs: seq<nat>)
    requires n <= |ds|
    ensures IndicesIn(ds, xs)
    ensures forall i: nat :: i in xs <==> i < n && CaseLabel(ds[i].data.testCase) == name
    ensures forall a :: 0 <= a < |xs| ==> xs[a] < n
    ensures forall a, b :: 0 <= a < b < |xs| ==> xs[a] < xs[b]
  {
    if n == 0 then []
    else
      var prev := Matching(ds, name, n - 1);
      if CaseLabel(ds[n - 1].data.testCase) == name then prev + [n - 1] else prev
  }

  /** Inserts position `k` into an ordered list of positions, keeping it ordered. */
  function Insert(ds: seq<PlotData>, k: nat, xs: seq<nat>): (r: seq<nat>)
    requires k < |ds| && IndicesIn(ds, xs) && Ordered(ds, xs) && k !in xs
    ensures IndicesIn(ds, r) && Ordered(ds, r)
    ensures multiset(r) == multiset(xs) + multiset{k}
    decreases |xs|
  {
    if xs == [] then [k]
    else if Precedes(ds, k, xs[0]) then [k] + xs
    else
      var rest := Insert(ds, k, xs[1..]);
      InsertedTailFollowsHead(ds, k, xs, rest);
      assert xs == [xs[0]] + xs[1..];
      [xs[0]] + rest
  }

  /** Everything inserted behind the head of an ordered list comes after that head. */
  lemma InsertedTailFollowsHead(ds: seq<PlotData>, k: nat, xs: seq<nat>, rest: seq<nat>)
    requires k < |ds| && IndicesIn(ds, xs) && Ordered(ds, xs) && xs != [] && k != xs[0]
    requires !Precedes(ds, k, xs[0])
    requires IndicesIn(ds, rest) && multiset(rest) == multiset(xs[1..]) + multiset{k}
    ensures forall b :: 0 <= b < |rest| ==> Precedes(ds, xs[0], rest[b])
  {
    forall b | 0 <= b < |rest| ensures Precedes(ds, xs[0], rest[b]) {
      assert rest[b] in multiset(rest);
      if rest[b] != k {
        assert rest[b] in multiset(xs[1..]);
        var c :| 0 <= c < |xs[1..]| && xs[1..][c] == rest[b];
        assert xs[c + 1] == rest[b];
      }
    }
  }

  /** Sorts a strictly increasing list of positions into `Precedes` order (the stable `OrderBy`). */
  function SortByDate(ds: seq<PlotData>, xs: seq<nat>): (r: seq<nat>)
    requires IndicesIn(ds, xs)
    requires forall a, b :: 0 <= a < b < |xs| ==> xs[a] < xs[b]
    ensures IndicesIn(ds, r) && Ordered(ds, r)
    ensures multiset(r) == multiset(xs)
    decreases |xs|
  {
    if xs == [] then []
    else
      var init := xs[..|xs| - 1];
      var last := xs[|xs| - 1];
      var sorted := SortByDate(ds, init);
      assert last !in multiset(init);
      assert xs == init + [last];
      Insert(ds, last, sorted)
  }

  /** The series of the runs labelled `name`, ordered by date, with no area fill. */
  function SetupSeries(ds: seq<PlotData>, name: string): (r: LineSeries)
    ensures r.geometrySize == GeometrySize && r.fill.None?
    ensures IndicesIn(ds, r.values) && Ordered(ds, r.values)
    ensures forall i: nat :: i in r.values <==> i < |ds| && CaseLabel(ds[i].data.testCase) == name
  {
    var matching := Matching(ds, name, |ds|);
    var values := SortByDate(ds, matching);
    assert forall i: nat :: i in values <==> i in multiset(matching);
    LineSeries(values, GeometrySize, None)
  }

  /** An ordered list visits dates in non-decreasing order and never repeats a position. */
  lemma OrderedIsSortedByDate(ds: seq<PlotData>, xs: seq<nat>)
    requires IndicesIn(ds, xs) && Ordered(ds, xs)
    ensures forall a, b :: 0 <= a < b < |xs| ==> ds[xs[a]].data.date <= ds[xs[b]].data.date && xs[a] != xs[b]
  {
  }

  /** Two ordered lists with the same members are the same list: the series order is fully
      determined by the dates and positions, as a stable sort's is. */
  lemma {:induction false} OrderedUnique(ds: seq<PlotData>, xs: seq<nat>, ys: seq<nat>)
    requires IndicesIn(ds, xs) && Ordered(ds, xs)
    requires IndicesIn(ds, ys) && Ordered(ds, ys)
    requires forall i :: i in xs <==> i in ys
    ensures xs == ys
    decreases |xs|
  {
    assert |ys| > 0 ==> ys[0] in ys;
    if xs != [] {
      assert xs[0] in xs;
      var a :| 0 <= a < |xs| && xs[a] == ys[0];
      var b :| 0 <= b < |ys| && ys[b] == xs[0];
      assert xs[0] == ys[0];
      forall i ensures i in xs[1..] <==> i in ys[1..] {
        if i in xs[1..] {
          var a :| 0 <= a < |xs[1..]| && xs[1..][a] == i;
          assert Precedes(ds, xs[0], xs[a + 1]);
          assert i in ys;
          assert i != ys[0];
          var b :| 0 <= b < |ys| && ys[b] == i;
          assert ys[1..][b - 1] == i;
        }
        if i in ys[1..] {
          var b :| 0 <= b < |ys[1..]| && ys[1..][b] == i;
          assert Precedes(ds, ys[0], ys[b + 1]);
          assert i in xs;
          assert i != xs[0];
          var a :| 0 <= a < |xs| && xs[a] == i;
          assert xs[1..][a - 1] == i;
        }
      }
      OrderedUnique(ds, xs[1..], ys[1..]);
      assert xs == [xs[0]] + xs[1..];
      assert ys == [ys[0]] + ys[1..];
    }
  }

  /** The series of a case is the only ordered listing of that case's runs. */
  lemma SeriesDetermined(ds: seq<PlotData>, name: string, xs: seq<nat>)
    requires IndicesIn(ds, xs) && Ordered(ds, xs)
    requires forall i: nat :: i in xs <==> i < |ds| && CaseLabel(ds[i].data.testCase) == name
    ensures xs == SetupSeries(ds, name).values
  {
    OrderedUnique(ds, xs, SetupSeries(ds, name).values);
  }
}
