/**
 * `generate_combined_excel` and `generate_single_excel`: the series of a dict
 * laid out side by side on one sheet, two columns per series, with one
 * scatter chart that plots every series from its own column pair.
 */
module Excel {
  import opened Wrappers
  import opened Parser
  import opened OrderedDict

  /** A written cell: a header text or a copied measurement. */
  datatype Cell<N> = Str(s: string) | Num(n: N)

  /** A zero-based (row, column) position on the sheet. */
  type Pos = (int, int)

  /** A rectangular cell range, as the chart refers to it: sheet, first row, first column, last row, last column. */
  datatype Range = Range(sheet: string, firstRow: int, firstCol: int, lastRow: int, lastCol: int)

  /** One plotted series of the chart: its legend name, its X values (categories) and its Y values. */
  datatype ChartSeries = ChartSeries(name: string, categories: Range, values: Range)

  /** The logical content of the chart. */
  datatype ChartSpec = ChartSpec(kind: string, subtype: string, title: string, xAxisName: string,
                                 yAxisName: string, series: seq<ChartSeries>)

  /** The logical content of the produced workbook: its one sheet, the cells written on it, the chart and where it sits. */
  datatype Workbook<N> = Workbook(sheetName: string, cells: map<Pos, Cell<N>>, chart: ChartSpec, chartAnchor: Option<string>)

  const SheetName := "Datos Combinados"
  const ChartAnchor := "A10"
  const XAxisName := "Eje X"
  const YAxisName := "Eje Z"

  /** A worksheet under construction: the cells written so far and the cell its chart is anchored at. */
  class Worksheet<N> {
    const name: string
    var cells: map<Pos, Cell<N>>
    var chartAnchor: Option<string>

    constructor (name: string)
      ensures this.name == name && cells == map[] && chartAnchor == None
    {
      this.name := name;
      cells := map[];
      chartAnchor := None;
    }

    /** `worksheet.write(row, col, value)`: later writes to a cell replace earlier ones. */
    method Write(row: int, col: int, value: Cell<N>)
      modifies this
      ensures cells == old(cells)[(row, col) := value]
      ensures chartAnchor == old(chartAnchor)
    {
      cells := cells[(row, col) := value];
    }

    /** `worksheet.insert_chart(anchor, chart)`. */
    method InsertChart(anchor: string)
      modifies this
      ensures cells == old(cells) && chartAnchor == Some(anchor)
    {
      chartAnchor := Some(anchor);
    }
  }

  /** A chart under construction. */
  class Chart {
    const kind: string
    const subtype: string
    var title: string
    var xAxisName: string
    var yAxisName: string
    var series: seq<ChartSeries>

    /** `workbook.add_chart({'type': kind, 'subtype': subtype})`: no title, no axis names, no series yet. */
    constructor (kind: string, subtype: string)
      ensures this.kind == kind && this.subtype == subtype
      ensures title == "" && xAxisName == "" && yAxisName == "" && series == []
    {
      this.kind := kind;
      this.subtype := subtype;
      title, xAxisName, yAxisName := "", "", "";
      series := [];
    }

    /** `chart.add_series(...)`: the new series is plotted after the earlier ones. */
    method AddSeries(s: ChartSeries)
      modifies this
      ensures series == old(series) + [s]
      ensures title == old(title) && xAxisName == old(xAxisName) && yAxisName == old(yAxisName)
    {
      series := series + [s];
    }

    /** `chart.set_title`, `chart.set_x_axis` and `chart.set_y_axis`, by name only. */
    method SetNames(title: string, xAxisName: string, yAxisName: string)
      modifies this
      ensures this.title == title && this.xAxisName == xAxisName && this.yAxisName == yAxisName
      ensures series == old(series)
    {
      this.title, this.xAxisName, this.yAxisName := title, xAxisName, yAxisName;
    }

    /** What the chart holds now. */
    function Spec(): ChartSpec
      reads this
    {
      ChartSpec(kind, subtype, title, xAxisName, yAxisName, series)
    }
  }

  /** The chart series of the i-th entry: rows 1 to its own length, X in column 2i, Z in column 2i + 1. */
  function SeriesFor<N>(name: string, s: Series<N>, col: int): ChartSeries
  {
    ChartSeries(name, Range(SheetName, 1, col, |s|, col), Range(SheetName, 1, col + 1, |s|, col + 1))
  }

  /** The content of the cell at `p` of a map, if it was written. */
  function Lookup<N>(cells: map<Pos, Cell<N>>, p: Pos): Option<Cell<N>>
  {
    if p in cells then Some(cells[p]) else None
  }

  /**
   * What an entry puts in row `row` of its X column (`isX`) or its Z column
   * once its headers and its first `rows` points are written (`rows` = -1:
   * nothing written yet).
   */
  function EntryCell<N>(e: Entry<Series<N>>, row: int, isX: bool, rows: int): Option<Cell<N>>
    requires rows <= |e.value|
  {
    if rows < 0 || row < 0 then None
    else if row == 0 then Some(Str((if isX then "X - " else "Z - ") + e.key))
    else if row <= rows then Some(Num(if isX then e.value[row - 1].x else e.value[row - 1].z))
    else None
  }

  /** The cell at `p` of the finished sheet: column pair i belongs to entry i alone. */
  function SheetCell<N>(data: seq<Entry<Series<N>>>, p: Pos): Option<Cell<N>>
  {
    if p.1 < 0 || p.1 / 2 >= |data| then None
    else EntryCell(data[p.1 / 2], p.0, p.1 % 2 == 0, |data[p.1 / 2].value|)
  }

  /** The cell at `p` while the exporter is at entry `k` with `rows` of its points written. */
  ghost function PartialCell<N>(data: seq<Entry<Series<N>>>, k: int, rows: int, p: Pos): Option<Cell<N>>
    requires 0 <= k <= |data|
    requires k < |data| ==> rows <= |data[k].value|
  {
    if p.1 < 0 then None
    else if p.1 / 2 < k then SheetCell(data, p)
    else if p.1 / 2 == k && k < |data| then EntryCell(data[k], p.0, p.1 % 2 == 0, rows)
    else None
  }

  /** Writing entry k's two headers. */
  lemma HeadersStep<N>(data: seq<Entry<Series<N>>>, k: int, before: map<Pos, Cell<N>>, after: map<Pos, Cell<N>>)
    requires 0 <= k < |data|
    requires forall p :: Lookup(before, p) == PartialCell(data, k, -1, p)
    requires after == before[(0, 2 * k) := Str("X - " + data[k].key)][(0, 2 * k + 1) := Str("Z - " + data[k].key)]
    ensures forall p :: Lookup(after, p) == PartialCell(data, k, 0, p)
  {
    forall p ensures Lookup(after, p) == PartialCell(data, k, 0, p) {
      if p == (0, 2 * k) || p == (0, 2 * k + 1) {
        assert p.1 / 2 == k;
      } else {
        assert Lookup(after, p) == Lookup(before, p);
        if p.1 >= 0 && p.1 / 2 == k {
          assert p.0 != 0;
        }
      }
    }
  }

  /** Writing point `rows` of entry k in its two columns. */
  lemma PointStep<N>(data: seq<Entry<Series<N>>>, k: int, rows: int, before: map<Pos, Cell<N>>, after: map<Pos, Cell<N>>)
    requires 0 <= k < |data| && 0 <= rows < |data[k].value|
    requires forall p :: Lookup(before, p) == PartialCell(data, k, rows, p)
    requires after == before[(rows + 1, 2 * k) := Num(data[k].value[rows].x)][(rows + 1, 2 * k + 1) := Num(data[k].value[rows].z)]
    ensures forall p :: Lookup(after, p) == PartialCell(data, k, rows + 1, p)
  {
    forall p ensures Lookup(after, p) == PartialCell(data, k, rows + 1, p) {
      if p == (rows + 1, 2 * k) || p == (rows + 1, 2 * k + 1) {
        assert p.1 / 2 == k;
      } else {
        assert Lookup(after, p) == Lookup(before, p);
        if p.1 >= 0 && p.1 / 2 == k {
          assert p.0 != rows + 1;
        }
      }
    }
  }

  /** Once all of entry k's points are written, the sheet is complete up to entry k + 1. */
  lemma EntryDone<N>(data: seq<Entry<Series<N>>>, k: int, cells: map<Pos, Cell<N>>)
    requires 0 <= k < |data|
    requires forall p :: Lookup(cells, p) == PartialCell(data, k, |data[k].value|, p)
    ensures forall p :: Lookup(cells, p) == PartialCell(data, k + 1, -1, p)
  {
  }

  /** Series i of the chart is named after entry i and addresses exactly that entry's rows in its column pair. */
  ghost predicate SeriesListed<N>(data: seq<Entry<Series<N>>>, series: seq<ChartSeries>)
  {
    && |series| == |data|
    && forall i :: 0 <= i < |data| ==> series[i] == SeriesFor(data[i].key, data[i].value, 2 * i)
  }

  /** What `generate_combined_excel(data, title)` produces. */
  ghost predicate IsCombinedLayout<N>(data: seq<Entry<Series<N>>>, title: string, wb: Workbook<N>)
  {
    && wb.sheetName == SheetName
    && (forall p :: Lookup(wb.cells, p) == SheetCell(data, p))
    && wb.chart.kind == "scatter" && wb.chart.subtype == "straight"
    && wb.chart.title == title && wb.chart.xAxisName == XAxisName && wb.chart.yAxisName == YAxisName
    && SeriesListed(data, wb.chart.series)
    && wb.chartAnchor == Some(ChartAnchor)
  }

  /**
   * generate_combined_excel: walks the dict in order with a column offset
   * that starts at 0 and grows by 2, writing each entry's headers, then its
   * points, then adding its chart series. A series without points is a frame
   * without columns: reading its `X` column fails (KeyError) and no workbook
   * comes out.
   */
  method GenerateCombinedExcel<N>(data: seq<Entry<Series<N>>>, chartTitle: string) returns (r: Option<Workbook<N>>)
    ensures r.None? <==> exists i :: 0 <= i < |data| && data[i].value == []
    ensures r.Some? ==> IsCombinedLayout(data, chartTitle, r.value)
  {
    var worksheet := new Worksheet<N>(SheetName);
    var chart := new Chart("scatter", "straight");
    var colIdx := 0;
    var k := 0;
    while k < |data|
      invariant 0 <= k <= |data|
      invariant colIdx == 2 * k
      invariant worksheet.name == SheetName && worksheet.chartAnchor == None
      invariant chart.kind == "scatter" && chart.subtype == "straight"
      invariant forall i :: 0 <= i < k ==> data[i].value != []
      invariant forall p :: Lookup(worksheet.cells, p) == PartialCell(data, k, -1, p)
      invariant SeriesListed(data[..k], chart.series)
    {
      var name := data[k].key;
      var df := data[k].value;
      ghost var before := worksheet.cells;
      worksheet.Write(0, colIdx, Str("X - " + name));
      worksheet.Write(0, colIdx + 1, Str("Z - " + name));
      HeadersStep(data, k, before, worksheet.cells);
      if df == [] {
        return None;
      }
      var rowNum := 0;
      while rowNum < |df|
        modifies worksheet
        invariant 0 <= rowNum <= |df|
        invariant worksheet.name == SheetName && worksheet.chartAnchor == None
        invariant forall p :: Lookup(worksheet.cells, p) == PartialCell(data, k, rowNum, p)
      {
        before := worksheet.cells;
        worksheet.Write(rowNum + 1, colIdx, Num(df[rowNum].x));
        worksheet.Write(rowNum + 1, colIdx + 1, Num(df[rowNum].z));
        PointStep(data, k, rowNum, before, worksheet.cells);
        rowNum := rowNum + 1;
      }
      EntryDone(data, k, worksheet.cells);
      chart.AddSeries(SeriesFor(name, df, colIdx));
      assert data[..k + 1] == data[..k] + [data[k]];
      colIdx := colIdx + 2;
      k := k + 1;
    }
    assert data[..k] == data;
    chart.SetNames(chartTitle, XAxisName, YAxisName);
    worksheet.InsertChart(ChartAnchor);
    return Some(Workbook(worksheet.name, worksheet.cells, chart.Spec(), worksheet.chartAnchor));
  }

  /** generate_single_excel: the combined export of the one-entry dict `{filename: df}`, titled "Gráfica de " + filename. */
  method GenerateSingleExcel<N>(df: Series<N>, filename: string) returns (r: Option<Workbook<N>>)
    ensures r.None? <==> df == []
    ensures r.Some? ==> IsCombinedLayout([Entry(filename, df)], "Gráfica de " + filename, r.value)
  {
    r := GenerateCombinedExcel([Entry(filename, df)], "Gráfica de " + filename);
    assert [Entry(filename, df)][0].value == df;
  }

  /** Entry i's headers sit in row 0: "X - name" in column 2i, "Z - name" in column 2i + 1. */
  lemma HeaderCells<N>(data: seq<Entry<Series<N>>>, title: string, wb: Workbook<N>, i: int)
    requires IsCombinedLayout(data, title, wb)
    requires 0 <= i < |data|
    ensures (0, 2 * i) in wb.cells && wb.cells[(0, 2 * i)] == Str("X - " + data[i].key)
    ensures (0, 2 * i + 1) in wb.cells && wb.cells[(0, 2 * i + 1)] == Str("Z - " + data[i].key)
  {
    assert Lookup(wb.cells, (0, 2 * i)) == SheetCell(data, (0, 2 * i));
    assert Lookup(wb.cells, (0, 2 * i + 1)) == SheetCell(data, (0, 2 * i + 1));
  }

  /** Point j of entry i sits in row j + 1: its X in column 2i, its Z in column 2i + 1. */
  lemma PointCells<N>(data: seq<Entry<Series<N>>>, title: string, wb: Workbook<N>, i: int, j: int)
    requires IsCombinedLayout(data, title, wb)
    requires 0 <= i < |data| && 0 <= j < |data[i].value|
    ensures (j + 1, 2 * i) in wb.cells && wb.cells[(j + 1, 2 * i)] == Num(data[i].value[j].x)
    ensures (j + 1, 2 * i + 1) in wb.cells && wb.cells[(j + 1, 2 * i + 1)] == Num(data[i].value[j].z)
  {
    assert Lookup(wb.cells, (j + 1, 2 * i)) == SheetCell(data, (j + 1, 2 * i));
    assert Lookup(wb.cells, (j + 1, 2 * i + 1)) == SheetCell(data, (j + 1, 2 * i + 1));
  }

  /**
   * No other cell is written: every written cell lies in the column pair of
   * one entry, between row 0 and that entry's length, and is that entry's
   * header or one of its points; two entries never share a column.
   */
  lemma OnlyLayoutCells<N>(data: seq<Entry<Series<N>>>, title: string, wb: Workbook<N>, p: Pos)
    requires IsCombinedLayout(data, title, wb)
    requires p in wb.cells
    ensures 0 <= p.1 < 2 * |data|
    ensures 0 <= p.0 <= |data[p.1 / 2].value|
    ensures var e := data[p.1 / 2];
            if p.0 == 0 then wb.cells[p] == Str((if p.1 % 2 == 0 then "X - " else "Z - ") + e.key)
            else wb.cells[p] == Num(if p.1 % 2 == 0 then e.value[p.0 - 1].x else e.value[p.0 - 1].z)
  {
    assert Lookup(wb.cells, p) == SheetCell(data, p);
  }

  /** The points a chart reads from the rows `from`..`to` of columns `xCol` and `zCol`, None when a cell is missing or not a number. */
  ghost function ReadPoints<N>(cells: map<Pos, Cell<N>>, xCol: int, zCol: int, from: int, to: int): Option<Series<N>>
    decreases to - from
  {
    if to < from then Some([])
    else
      match (Lookup(cells, (from, xCol)), Lookup(cells, (from, zCol)))
      case (Some(Num(x)), Some(Num(z))) =>
        (match ReadPoints(cells, xCol, zCol, from + 1, to)
         case Some(rest) => Some([Point(x, z)] + rest)
         case None => None)
      case _ => None
  }

  /** The points a chart series plots: its categories as X, its values as Z. */
  ghost function PlottedPoints<N>(cells: map<Pos, Cell<N>>, s: ChartSeries): Option<Series<N>>
  {
    ReadPoints(cells, s.categories.firstCol, s.values.firstCol, s.categories.firstRow, s.categories.lastRow)
  }

  lemma {:induction false} ReadPointsOfEntry<N>(data: seq<Entry<Series<N>>>, title: string, wb: Workbook<N>, i: int, from: int)
    requires IsCombinedLayout(data, title, wb)
    requires 0 <= i < |data| && 1 <= from <= |data[i].value| + 1
    ensures ReadPoints(wb.cells, 2 * i, 2 * i + 1, from, |data[i].value|) == Some(data[i].value[from - 1..])
    decreases |data[i].value| - from
  {
    if from <= |data[i].value| {
      ReadPointsOfEntry(data, title, wb, i, from + 1);
      PointCells(data, title, wb, i, from - 1);
      var pt := data[i].value[from - 1];
      assert Lookup(wb.cells, (from, 2 * i)) == Some(Num(pt.x));
      assert Lookup(wb.cells, (from, 2 * i + 1)) == Some(Num(pt.z));
      assert data[i].value[from - 1..] == [data[i].value[from - 1]] + data[i].value[from..];
    } else {
      assert data[i].value[from - 1..] == [];
    }
  }

  /**
   * The chart plots each entry from its own columns: chart series i is named
   * after entry i and its ranges, read back from the sheet, give exactly that
   * entry's points in order, whatever the lengths of the other entries.
   */
  lemma ChartPlotsEachEntry<N>(data: seq<Entry<Series<N>>>, title: string, wb: Workbook<N>, i: int)
    requires IsCombinedLayout(data, title, wb)
    requires 0 <= i < |data|
    ensures wb.chart.series[i].name == data[i].key
    ensures PlottedPoints(wb.cells, wb.chart.series[i]) == Some(data[i].value)
  {
    ReadPointsOfEntry(data, title, wb, i, 1);
  }

  /** The layout determines the workbook: exporting the same dict with the same title gives the same content. */
  lemma LayoutDeterministic<N>(data: seq<Entry<Series<N>>>, title: string, w1: Workbook<N>, w2: Workbook<N>)
    requires IsCombinedLayout(data, title, w1) && IsCombinedLayout(data, title, w2)
    ensures w1 == w2
  {
    forall p | p in w1.cells ensures p in w2.cells && w1.cells[p] == w2.cells[p] {
      assert Lookup(w1.cells, p) == Lookup(w2.cells, p);
    }
    forall p | p in w2.cells ensures p in w1.cells {
      assert Lookup(w1.cells, p) == Lookup(w2.cells, p);
    }
    assert w1.cells == w2.cells;
    assert w1.chart.series == w2.chart.series;
  }
}
