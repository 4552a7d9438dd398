/**
 * Axis inversion: exchanging the roles of X and Z in a series, as the report
 * does with pandas column renames, both for the whole batch and per file.
 */
module Axes {
  import opened Wrappers
  import opened Parser
  import opened OrderedDict

  /** A point seen with its axes exchanged. */
  function Swapped<N>(p: Point<N>): Point<N>
  {
    Point(p.z, p.x)
  }

  /** `rename(columns={'X': 'Z', 'Z': 'X'})`: every row keeps its place, its two values change columns. */
  function SwapAxes<N>(s: Series<N>): (r: Series<N>)
    ensures |r| == |s|
    ensures forall i :: 0 <= i < |s| ==> r[i].x == s[i].z && r[i].z == s[i].x
  {
    if s == [] then [] else [Swapped(s[0])] + SwapAxes(s[1..])
  }

  /** Swapping twice gives back the original series. */
  lemma SwapAxesInvolution<N>(s: Series<N>)
    ensures SwapAxes(SwapAxes(s)) == s
  {
  }

  /**
   * The rename to temporary names, the rename back and the selection of the
   * columns `X` and `Z` that prepare a series for export. A series without
   * points is a frame without columns, so when `enabled` the selection fails
   * (KeyError) and the result is None.
   */
  function InvertForExport<N>(s: Series<N>, enabled: bool): (r: Option<Series<N>>)
    ensures r.None? <==> enabled && s == []
    ensures !enabled ==> r == Some(s)
    ensures r.Some? && enabled ==> |r.value| == |s| && forall i :: 0 <= i < |s| ==> r.value[i] == Point(s[i].z, s[i].x)
  {
    if !enabled then Some(s)
    else if s == [] then None
    else Some(SwapAxes(s))
  }

  /** Inverting the inverted series for export gives back the original series. */
  lemma InvertForExportRoundTrip<N>(s: Series<N>)
    requires InvertForExport(s, true).Some?
    ensures InvertForExport(InvertForExport(s, true).value, true) == Some(s)
  {
    SwapAxesInvolution(s);
  }

  /** An entry of `data_export`: the same name, the series swapped when `enabled`. */
  function InvertEntry<N>(e: Entry<Series<N>>, enabled: bool): Entry<Series<N>>
  {
    Entry(e.key, if enabled then SwapAxes(e.value) else e.value)
  }

  /** `data_export` as the page means it: the same names in the same order, every series swapped when `enabled`. */
  function InvertEntries<N>(d: seq<Entry<Series<N>>>, enabled: bool): (r: seq<Entry<Series<N>>>)
    ensures |r| == |d|
    ensures forall i :: 0 <= i < |d| ==> r[i].key == d[i].key
    ensures forall i :: 0 <= i < |d| ==> r[i].value == if enabled then SwapAxes(d[i].value) else d[i].value
  {
    if d == [] then []
    else InvertEntries(d[..|d| - 1], enabled) + [InvertEntry(d[|d| - 1], enabled)]
  }

  /** Inversion keeps the names and their order. */
  lemma InvertEntriesKeys<N>(d: seq<Entry<Series<N>>>, enabled: bool)
    ensures Keys(InvertEntries(d, enabled)) == Keys(d)
  {
    var r := InvertEntries(d, enabled);
    assert forall i :: 0 <= i < |d| ==> Keys(r)[i] == Keys(d)[i];
  }

  /** Inverting a whole dict twice gives back the dict. */
  lemma InvertEntriesRoundTrip<N>(d: seq<Entry<Series<N>>>)
    ensures InvertEntries(InvertEntries(d, true), true) == d
  {
    var once := InvertEntries(d, true);
    var r := InvertEntries(once, true);
    forall i | 0 <= i < |d| ensures r[i] == d[i] {
      SwapAxesInvolution(d[i].value);
      assert r[i].key == once[i].key == d[i].key;
      assert r[i].value == SwapAxes(once[i].value);
    }
  }

  /** Assigning the next entry, inverted for export, to the inverted prefix of a dict extends the prefix by that entry. */
  lemma InvertEntriesStep<N>(d: seq<Entry<Series<N>>>, i: int, enabled: bool)
    requires KeysUnique(d)
    requires 0 <= i < |d|
    requires InvertForExport(d[i].value, enabled).Some?
    ensures Put(InvertEntries(d[..i], enabled), d[i].key, InvertForExport(d[i].value, enabled).value) == InvertEntries(d[..i + 1], enabled)
  {
    var prefix := InvertEntries(d[..i], enabled);
    assert InvertForExport(d[i].value, enabled).value == InvertEntry(d[i], enabled).value;
    KeyNotBefore(d, i);
    InvertEntriesKeys(d[..i], enabled);
    assert d[..i + 1][..i] == d[..i];
    assert InvertEntries(d[..i + 1], enabled) == prefix + [InvertEntry(d[i], enabled)];
  }

  /**
   * One pass of the export loop: the entry `d[i]` renamed and selected for
   * export, then assigned under its name to the `data_export` built so far.
   */
  method ExportEntry<N>(d: seq<Entry<Series<N>>>, i: int, enabled: bool, dataExport: seq<Entry<Series<N>>>)
    returns (r: Option<seq<Entry<Series<N>>>>)
    requires KeysUnique(d)
    requires 0 <= i < |d|
    requires dataExport == InvertEntries(d[..i], enabled)
    ensures r.None? <==> enabled && d[i].value == []
    ensures r.Some? ==> r.value == InvertEntries(d[..i + 1], enabled)
  {
    var inverted := InvertForExport(d[i].value, enabled);
    if inverted.None? {
      return None;
    }
    InvertEntriesStep(d, i, enabled);
    return Some(Put(dataExport, d[i].key, inverted.value));
  }

  /**
   * The loop that builds `data_export` from `all_data` with the global flag:
   * same names in the same order, each series inverted or not by that one
   * flag; an empty series under inversion aborts the whole page.
   */
  method PrepareGlobalExport<N>(allData: seq<Entry<Series<N>>>, invertGlobal: bool) returns (r: Option<seq<Entry<Series<N>>>>)
    requires KeysUnique(allData)
    ensures r.None? <==> invertGlobal && exists i :: 0 <= i < |allData| && allData[i].value == []
    ensures r.Some? ==> r.value == InvertEntries(allData, invertGlobal)
  {
    var dataExport: seq<Entry<Series<N>>> := [];
    var i := 0;
    while i < |allData|
      invariant 0 <= i <= |allData|
      invariant dataExport == InvertEntries(allData[..i], invertGlobal)
      invariant !invertGlobal || forall k :: 0 <= k < i ==> allData[k].value != []
    {
      var next := ExportEntry(allData, i, invertGlobal, dataExport);
      if next.None? {
        assert invertGlobal && allData[i].value == [];
        return None;
      }
      dataExport := next.value;
      i := i + 1;
    }
    assert allData[..i] == allData;
    return Some(dataExport);
  }
}
