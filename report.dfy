/**
 * The two exports the report page offers: the general workbook of every
 * parsed file under the global inversion flag, and one workbook per file under
 * that file's own flag.
 */
module Report {
  import opened Wrappers
  import opened Parser
  import opened OrderedDict
  import opened Axes
  import opened Excel

  const GlobalTitle := "Comparativa General"

  /**
   * The general download: `data_export` built with the global flag, then
   * exported in one workbook. An empty series makes it fail either way: the
   * column selection of the inversion or the exporter's column read raises.
   */
  method GlobalExcel<N>(allData: seq<Entry<Series<N>>>, invertGlobal: bool) returns (r: Option<Workbook<N>>)
    requires KeysUnique(allData)
    ensures r.None? <==> exists i :: 0 <= i < |allData| && allData[i].value == []
    ensures r.Some? ==> IsCombinedLayout(InvertEntries(allData, invertGlobal), GlobalTitle, r.value)
  {
    var dataExport := PrepareGlobalExport(allData, invertGlobal);
    if dataExport.None? {
      return None;
    }
    r := GenerateCombinedExcel(dataExport.value, GlobalTitle);
    if r.None? {
      var i :| 0 <= i < |dataExport.value| && dataExport.value[i].value == [];
      assert allData[i].value == [];
    }
  }

  /**
   * The per-file download: the file's series, swapped when its own flag is
   * on, exported alone. Flags of other files play no part.
   */
  method FileExcel<N>(name: string, df: Series<N>, invLocal: bool) returns (r: Option<Workbook<N>>)
    ensures r.None? <==> df == []
    ensures r.Some? ==> IsCombinedLayout([Entry(name, if invLocal then SwapAxes(df) else df)], "Gráfica de " + name, r.value)
  {
    var dfPlot := InvertForExport(df, invLocal);
    if dfPlot.None? {
      return None;
    }
    r := GenerateSingleExcel(dfPlot.value, name);
  }
}
