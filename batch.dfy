/**
 * The upload loop of the report page: every uploaded file is parsed on its
 * own, failures are skipped, and the successes are gathered in the `all_data`
 * dict under the file's name.
 */
module Batch {
  import opened Wrappers
  import opened Xml
  import opened Parser
  import opened OrderedDict

  /** One uploaded file: its name and its content as an XML tree, None when the content is not well-formed XML. */
  datatype Upload = Upload(name: string, doc: Option<Element>)

  /** A file's name and what parsing it gave; each file is parsed on its own. */
  datatype Parsed<N> = Parsed(name: string, series: Option<Series<N>>)

  function ParseAll<N>(ups: seq<Upload>, parseNum: string -> Option<N>): seq<Parsed<N>>
  {
    seq(|ups|, i requires 0 <= i < |ups| => Parsed(ups[i].name, ParseDocument(ups[i].doc, parseNum)))
  }

  /** The `all_data` dict once the loop has seen `results`: each success assigned under its file's name. */
  function Collected<N>(results: seq<Parsed<N>>): seq<Entry<Series<N>>>
  {
    if results == [] then []
    else
      var prev := Collected(results[..|results| - 1]);
      var last := results[|results| - 1];
      match last.series
      case None => prev
      case Some(s) => Put(prev, last.name, s)
  }

  /** The loop over the uploads: parse each file, keep it under its name when parsing succeeded. */
  method CollectUploads<N>(ups: seq<Upload>, parseNum: string -> Option<N>) returns (allData: seq<Entry<Series<N>>>)
    ensures allData == Collected(ParseAll(ups, parseNum))
  {
    ghost var results := ParseAll(ups, parseNum);
    allData := [];
    var i := 0;
    while i < |ups|
      invariant 0 <= i <= |ups|
      invariant allData == Collected(results[..i])
    {
      assert results[..i + 1][..i] == results[..i];
      var df := ParseProfilometerData(ups[i].doc, parseNum);
      if df.Some? {
        allData := Put(allData, ups[i].name, df.value);
      }
      i := i + 1;
    }
    assert results[..i] == results;
  }

  /** The collected dict never holds a name twice. */
  lemma {:induction false} CollectedKeysUnique<N>(results: seq<Parsed<N>>)
    ensures KeysUnique(Collected(results))
  {
    if results != [] {
      var last := results[|results| - 1];
      CollectedKeysUnique(results[..|results| - 1]);
      if last.series.Some? {
        PutKeepsKeysUnique(Collected(results[..|results| - 1]), last.name, last.series.value);
      }
    }
  }

  /** A name is in the dict exactly when some file of that name parsed; failed files leave no trace. */
  lemma {:induction false} CollectedNames<N>(results: seq<Parsed<N>>, name: string)
    ensures name in Keys(Collected(results)) <==>
              exists i :: 0 <= i < |results| && results[i].name == name && results[i].series.Some?
  {
    if results != [] {
      var init := results[..|results| - 1];
      CollectedNames(init, name);
      if name in Keys(Collected(init)) {
        var i :| 0 <= i < |init| && init[i].name == name && init[i].series.Some?;
        assert results[i] == init[i];
      }
      if exists i :: 0 <= i < |results| && results[i].name == name && results[i].series.Some? {
        var i :| 0 <= i < |results| && results[i].name == name && results[i].series.Some?;
        if i < |init| {
          assert init[i] == results[i];
        }
      }
    }
  }

  /**
   * Last write wins: the series stored under a name is the one parsed from the
   * last file of that name that parsed successfully.
   */
  lemma {:induction false} CollectedLastWins<N>(results: seq<Parsed<N>>, i: nat)
    requires i < |results|
    requires results[i].series.Some?
    requires forall j :: i < j < |results| && results[j].name == results[i].name ==> results[j].series.None?
    ensures Get(Collected(results), results[i].name) == results[i].series
  {
    var init := results[..|results| - 1];
    var last := results[|results| - 1];
    if i < |results| - 1 {
      assert init[i] == results[i];
      CollectedLastWins(init, i);
    }
    if last.series.Some? {
      PutThenGet(Collected(init), last.name, last.series.value, results[i].name);
    }
  }

  /**
   * Insertion order: the names collected from the first `k` files keep their
   * places at the front of the final dict, whatever comes later.
   */
  lemma {:induction false} CollectedKeepsOrder<N>(results: seq<Parsed<N>>, k: nat)
    requires k <= |results|
    ensures Keys(Collected(results[..k])) <= Keys(Collected(results))
  {
    if k < |results| {
      var init := results[..|results| - 1];
      assert init[..k] == results[..k];
      CollectedKeepsOrder(init, k);
    } else {
      assert results[..k] == results;
    }
  }
}
