# Profilometer report: parsing and workbook export

A Dafny model of the engine behind the profilometer report page
(`perfilometro3.py`). The page reads profilometer files (XML text holding
`Data` elements with `X` and `Z` children), collects one ordered series of
(X, Z) points per file, can exchange the roles of X and Z, and exports the
series side by side in one spreadsheet with one chart.

The model covers:

- **Point extraction** (`Parser`, over the element tree of `Xml`).
  `parse_profilometer_data` takes every `Data` element strictly below the root,
  in document order, and reads the text of its first `X` child and its first
  `Z` child as numbers. Any missing child, missing text or bad number makes
  the whole file fail (`None`). A file with no `Data` element gives the empty
  series, which is not a failure. Numbers are opaque: the type parameter `N`
  stands for them, and the caller-supplied partial function `parseNum`
  stands for Python's `float()`. A file that is not well-formed XML is a
  `None` document.
- **The upload loop** (`Batch`, over the insertion-ordered dict of
  `OrderedDict`). Every file is parsed on its own and failures are skipped.
  Successes are assigned under the file name: a repeated name overwrites the
  value and keeps the key's first position.
- **Axis inversion** (`Axes`). The column renames become a pure map
  (x, z) ↦ (z, x) on the points. The export path also selects columns
  `[['X', 'Z']]`. On a series without points that frame has no columns, so
  with inversion on the selection fails.
- **Workbook layout** (`Excel`). The exporter walks the dict with a column
  offset that starts at 0 and grows by 2. For each entry it writes the
  headers `"X - name"`/`"Z - name"` in row 0, then point j in row j + 1, then
  adds one chart series whose ranges run from row 1 to that entry's own
  length. The worksheet and the chart are classes whose methods stand for
  xlsxwriter's `write`, `insert_chart`, `add_series` and the title/axis
  setters. The produced workbook is a value: sheet name, a map (row, col) ↦
  cell, the chart, and the chart's anchor.
- **The two downloads** (`Report`): the general workbook under the global
  inversion flag, and the per-file workbook under that file's own flag.

Behaviour of the page that the model keeps as written:

- A file with no `Data` elements parses to an empty data frame that has no
  `X`/`Z` columns. Exporting it raises `KeyError` at `df['X']`
  (perfilometro3.py:56). Inverting it for export raises `KeyError` at the
  column selection (perfilometro3.py:149 and :183). The model returns `None`
  there; it does not produce a header row with an empty chart range.
- The chart is a `scatter` chart with subtype `straight`, not a line chart.
  Its axis names are always `Eje X` and `Eje Z`. The user's axis labels only
  reach the interactive plot.
- A parse failure carries no cause (missing field, bad number, malformed
  document): the function returns `None` and shows a message.

## Model

| member | source | states |
|---|---|---|
| `Xml.Find` | perfilometro3.py:24-25 | `data.find(tag)` gives the first direct child with that tag; it gives None exactly when no child has the tag |
| `Xml.Tagged` | perfilometro3.py:23 | the filter of `.//Data` keeps exactly the elements with the tag, and no more of them than there were elements |
| `Xml.TaggedSingleton` | perfilometro3.py:23 | one element passes the filter exactly when it carries the tag |
| `Xml.TaggedConcat` | perfilometro3.py:23 | the matches of `s + t` are the matches of `s` followed by those of `t`; with `TaggedSingleton` this fixes the result on every input: every match is kept, once per occurrence, in document order |
| `Xml.TaggedAllMatch` | perfilometro3.py:23 | a run of elements that all carry the tag, repeated identical ones included, is kept whole: nothing is reordered or de-duplicated |
| `Xml.FindAll` | perfilometro3.py:23 | `root.findall('.//Data')` holds exactly the descendants of the root tagged `Data`, and no more elements than there are descendants |
| `Xml.RootNotMatched` | perfilometro3.py:23 | `findall('.//Data')` looks strictly below the root: the root is never a match, whatever its tag |
| `Parser.ReadNumber` | perfilometro3.py:24-25 | `float(data.find(tag).text)` succeeds iff there is a child with the tag, the first such child has text, and that text converts; the value is the conversion of that text |
| `Parser.PointOf` | perfilometro3.py:24-26 | a `Data` element yields a point iff both its X and its Z read; the point holds those two values |
| `Parser.ParseProfilometerData` | perfilometro3.py:15-31 | the appending loop returns exactly the all-or-nothing fold of the points of the `Data` elements in document order; None for a malformed document |
| `Parser.ParsePointsSucceeds` | perfilometro3.py:22-28 | the fold over the `Data` elements succeeds iff every one of them yields a point |
| `Parser.ParsePointsPointwise` | perfilometro3.py:22-28 | a successful fold has one point per `Data` element, point i being the X and Z of element i |
| `Parser.ParseDocumentPointwise` | perfilometro3.py:17-31 | a file parses iff it is well formed and every `Data` element has a readable first `X` and first `Z`; the series then lists those values in document order |
| `Parser.ParsePointsFailsAt` | perfilometro3.py:23-31 | one bad `Data` element anywhere makes the whole result None, never a shorter series |
| `Parser.NoDataParsesEmpty` | perfilometro3.py:22-28 | a tree without any `Data` element below the root gives the empty series, not a failure |
| `OrderedDict.Put` | perfilometro3.py:101 | dict assignment: a present key keeps its position, a new key goes last, appended as the new entry |
| `OrderedDict.PutThenGet` | perfilometro3.py:101 | after `d[k] = v`, `k` maps to `v` and every other key keeps its value |
| `OrderedDict.PutKeepsKeysUnique` | perfilometro3.py:96-101 | assignment keeps the dict's keys distinct |
| `Batch.CollectUploads` | perfilometro3.py:96-101 | the upload loop parses each file in upload order and builds exactly the fold of dict assignments `all_data[name] = df` over the files that parsed |
| `Batch.CollectedKeysUnique` | perfilometro3.py:96-101 | the collected dict never holds a name twice |
| `Batch.CollectedNames` | perfilometro3.py:98-101 | over the per-file parse results, a name is collected iff some upload of that name parsed; failed files leave no trace |
| `Batch.CollectedLastWins` | perfilometro3.py:99-101 | the series under a name is the one from the last upload of that name that parsed |
| `Batch.CollectedKeepsOrder` | perfilometro3.py:101 | names collected from the first k uploads keep their places at the front of the final dict |
| `Axes.SwapAxes` | perfilometro3.py:125 | the rename keeps length and order and exchanges the X and Z value of every point |
| `Axes.SwapAxesInvolution` | perfilometro3.py:147-149 | swapping twice gives back the original series |
| `Axes.InvertForExport` | perfilometro3.py:181-185 | the export-side inversion fails iff inversion is on and the series is empty; off, it returns the series unchanged; on, point i becomes (z_i, x_i) |
| `Axes.InvertForExportRoundTrip` | perfilometro3.py:181-183 | inverting an inverted series for export gives back the original |
| `Axes.InvertEntries` | perfilometro3.py:145-151 | `data_export` as the page intends it (the inversion without its empty-series failure): the same names in the same order, each series swapped exactly when the flag is on |
| `Axes.InvertEntriesRoundTrip` | perfilometro3.py:145-151 | inverting a whole dict twice gives back the dict |
| `Axes.ExportEntry` | perfilometro3.py:147-151 | one pass of the export loop fails iff inversion is on and the entry's series is empty; otherwise it extends the exported prefix by exactly the next inverted entry |
| `Axes.PrepareGlobalExport` | perfilometro3.py:145-151 | the loop fails iff the flag is on and some series is empty; otherwise it builds exactly `InvertEntries` of the dict |
| `Excel.Worksheet.constructor` | perfilometro3.py:41-42 | a new sheet has its name, no cells and no chart |
| `Excel.Worksheet.Write` | perfilometro3.py:52-58 | a write sets one cell and leaves every other cell and the chart anchor alone |
| `Excel.Worksheet.InsertChart` | perfilometro3.py:77 | inserting the chart records its anchor and changes no cell |
| `Excel.Chart.constructor` | perfilometro3.py:45 | a new chart has its type and subtype and no title, axis names or series |
| `Excel.Chart.AddSeries` | perfilometro3.py:62-67 | a new series is plotted after the earlier ones |
| `Excel.Chart.SetNames` | perfilometro3.py:72-74 | the title and axis names are set; the series stay |
| `Excel.GenerateCombinedExcel` | perfilometro3.py:33-79 | fails iff some series is empty; otherwise the sheet is `Datos Combinados` with exactly the layout cells, a scatter/straight chart with the caller's title, axes `Eje X`/`Eje Z`, one series per entry, anchored at `A10` |
| `Excel.GenerateSingleExcel` | perfilometro3.py:81-84 | the single export is the combined export of the one-entry dict `{filename: df}` titled "Gráfica de " + filename |
| `Excel.HeaderCells` | perfilometro3.py:52-53 | entry i's headers are "X - name" at (0, 2i) and "Z - name" at (0, 2i + 1) |
| `Excel.PointCells` | perfilometro3.py:55-58 | point j of entry i is written as x at (j + 1, 2i) and as z at (j + 1, 2i + 1) |
| `Excel.OnlyLayoutCells` | perfilometro3.py:48-69 | every written cell lies in one entry's column pair, between row 0 and that entry's length, and holds that entry's header or point: no other cell is written and no two entries share a column |
| `Excel.ChartPlotsEachEntry` | perfilometro3.py:61-67 | chart series i is named after entry i, and its ranges, read back from the sheet, give exactly entry i's points in order |
| `Excel.LayoutDeterministic` | perfilometro3.py:33-79 | two workbooks with the layout of the same dict and title are equal: the logical content is reproducible |
| `Report.GlobalExcel` | perfilometro3.py:145-153 | the general download fails iff some collected series is empty; otherwise it is the combined layout of the inverted-or-not dict titled "Comparativa General" |
| `Report.FileExcel` | perfilometro3.py:178-188 | the per-file download fails iff the series is empty; otherwise it is the single export of the series, swapped exactly when that file's own flag is on |

## Left out

- The Streamlit page: page setup, uploader, expanders, checkboxes, messages, download buttons, file names and MIME types. These are presentation. The flags and the collected dict are parameters of the model.
- The Plotly figures and the `pd.concat` feeding them. They are a foreign rendering library. Only the point swap of line 125 is modelled, as `Axes.SwapAxes`.
- XML well-formedness and text decoding inside `ET.parse`. A document is an already-parsed tree, or `None` when it is malformed.
- Python's `float()` literal grammar and floating-point values. Numbers are an opaque type, and `parseNum` is a parameter.
- The text of the error shown for a failed file. Only the failure itself is modelled.
- The spreadsheet's binary encoding, the in-memory buffer, the 2.5 chart scale and the 1.25 line width. These are library output and styling.
- Exceptions are not modelled as such. Where the page would stop with an uncaught `KeyError` (an empty series exported or inverted for export), the model returns `None`.
- xlsxwriter's own limits and checks. Writes beyond 1,048,576 rows or 16,384 columns are silently dropped by the library. NaN and infinite numbers are refused by the library. A chart without series never arises: the general export runs only on a non-empty dict (perfilometro3.py:103), and the per-file export always has one entry. The model's sheet is unbounded and its numbers are opaque, so none of these is captured.
- Excel.GenerateCombinedExcel: does not require distinct names. Its input comes from a Python dict, which has them; with a repeated name the model just writes the entries as given.
