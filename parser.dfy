/**
 * `parse_profilometer_data`: the ordered (X, Z) series of one profilometer
 * file. The numbers stay opaque (type parameter `N`); converting a text to a
 * number is the caller-supplied partial function `parseNum`, which stands for
 * Python's `float()`.
 */
module Parser {
  import opened Wrappers
  import opened Xml

  /** One measured point: the values of a `Data` element's `X` and `Z` children. */
  datatype Point<N> = Point(x: N, z: N)

  /** The rows of the data frame the parser returns, in document order. */
  type Series<N> = seq<Point<N>>

  /** `float(data.find(tag).text)`: fails when the child is missing, has no text, or its text is not a number. */
  function ReadNumber<N>(data: Element, tag: string, parseNum: string -> Option<N>): (r: Option<N>)
    ensures var k := FirstIndex(data.children, tag);
            r.Some? <==> k < |data.children| && data.children[k].text.Some? && parseNum(data.children[k].text.value).Some?
    ensures var k := FirstIndex(data.children, tag);
            r.Some? ==> r == parseNum(data.children[k].text.value)
  {
    match Find(data, tag)
    case None => None
    case Some(child) =>
      match child.text
      case None => None
      case Some(t) => parseNum(t)
  }

  /** The point one `Data` element contributes, or None when reading its `X` or its `Z` fails. */
  function PointOf<N>(data: Element, parseNum: string -> Option<N>): (r: Option<Point<N>>)
    ensures r.Some? <==> ReadNumber(data, "X", parseNum).Some? && ReadNumber(data, "Z", parseNum).Some?
    ensures r.Some? ==> Some(r.value.x) == ReadNumber(data, "X", parseNum) && Some(r.value.z) == ReadNumber(data, "Z", parseNum)
  {
    var x := ReadNumber(data, "X", parseNum);
    var z := ReadNumber(data, "Z", parseNum);
    if x.Some? && z.Some? then Some(Point(x.value, z.value)) else None
  }

  /** `f` applied to each of `xs` in order; the first element on which `f` fails makes the whole result None. */
  function Traverse<E, P>(xs: seq<E>, f: E -> Option<P>): Option<seq<P>>
  {
    if xs == [] then Some([])
    else
      match Traverse(xs[..|xs| - 1], f)
      case None => None
      case Some(prefix) =>
        match f(xs[|xs| - 1])
        case None => None
        case Some(p) => Some(prefix + [p])
  }

  /** The points of `ds` taken in order; the first element that fails makes the whole result None. */
  function ParsePoints<N>(ds: seq<Element>, parseNum: string -> Option<N>): Option<Series<N>>
  {
    Traverse(ds, d => PointOf(d, parseNum))
  }

  /** What the parser returns for a document: None for a malformed document or any bad `Data` element. */
  function ParseDocument<N>(doc: Option<Element>, parseNum: string -> Option<N>): Option<Series<N>>
  {
    match doc
    case None => None
    case Some(root) => ParsePoints(FindAll(root, "Data"), parseNum)
  }

  /** Traverse succeeds exactly when `f` succeeds on every element. */
  lemma {:induction false} TraverseSucceeds<E, P>(xs: seq<E>, f: E -> Option<P>)
    ensures Traverse(xs, f).Some? <==> forall i :: 0 <= i < |xs| ==> f(xs[i]).Some?
  {
    if xs != [] {
      var init := xs[..|xs| - 1];
      TraverseSucceeds(init, f);
      assert forall i :: 0 <= i < |init| ==> init[i] == xs[i];
    }
  }

  /** A successful Traverse holds one result per element, in the elements' order. */
  lemma {:induction false} TraversePointwise<E, P>(xs: seq<E>, f: E -> Option<P>)
    requires Traverse(xs, f).Some?
    ensures |Traverse(xs, f).value| == |xs|
    ensures forall i :: 0 <= i < |xs| ==> Some(Traverse(xs, f).value[i]) == f(xs[i])
  {
    if xs != [] {
      var init := xs[..|xs| - 1];
      TraversePointwise(init, f);
      assert forall i :: 0 <= i < |init| ==> init[i] == xs[i];
    }
  }

  /** ParsePoints succeeds exactly when every element yields a point. */
  lemma ParsePointsSucceeds<N>(ds: seq<Element>, parseNum: string -> Option<N>)
    ensures ParsePoints(ds, parseNum).Some? <==> forall i :: 0 <= i < |ds| ==> PointOf(ds[i], parseNum).Some?
  {
    TraverseSucceeds(ds, d => PointOf(d, parseNum));
  }

  /** A successful ParsePoints holds one point per element, in the elements' order. */
  lemma ParsePointsPointwise<N>(ds: seq<Element>, parseNum: string -> Option<N>)
    requires ParsePoints(ds, parseNum).Some?
    ensures |ParsePoints(ds, parseNum).value| == |ds|
    ensures forall i :: 0 <= i < |ds| ==> Some(ParsePoints(ds, parseNum).value[i]) == PointOf(ds[i], parseNum)
  {
    TraversePointwise(ds, d => PointOf(d, parseNum));
  }

  /**
   * A document parses exactly when it is well formed and every `Data` element
   * below its root yields a point; the series then has one point per `Data`
   * element, in document order.
   */
  lemma ParseDocumentPointwise<N>(doc: Option<Element>, parseNum: string -> Option<N>)
    ensures ParseDocument(doc, parseNum).Some? <==>
              doc.Some? && forall i :: 0 <= i < |FindAll(doc.value, "Data")| ==> PointOf(FindAll(doc.value, "Data")[i], parseNum).Some?
    ensures ParseDocument(doc, parseNum).Some? ==>
              |ParseDocument(doc, parseNum).value| == |FindAll(doc.value, "Data")| &&
              forall i :: 0 <= i < |FindAll(doc.value, "Data")| ==>
                Some(ParseDocument(doc, parseNum).value[i]) == PointOf(FindAll(doc.value, "Data")[i], parseNum)
  {
    if doc.Some? {
      ParsePointsSucceeds(FindAll(doc.value, "Data"), parseNum);
      if ParseDocument(doc, parseNum).Some? {
        ParsePointsPointwise(FindAll(doc.value, "Data"), parseNum);
      }
    }
  }

  /** One more element that `f` accepts extends a successful Traverse by its result. */
  lemma TraverseStep<E, P>(xs: seq<E>, i: nat, f: E -> Option<P>, prefix: seq<P>, p: P)
    requires i < |xs|
    requires Traverse(xs[..i], f) == Some(prefix)
    requires f(xs[i]) == Some(p)
    ensures Traverse(xs[..i + 1], f) == Some(prefix + [p])
  {
    assert xs[..i + 1][..i] == xs[..i];
  }

  /** All or nothing: one element on which `f` fails makes the whole Traverse fail. */
  lemma {:induction false} TraverseFailsAt<E, P>(xs: seq<E>, k: nat, f: E -> Option<P>)
    requires k < |xs|
    requires f(xs[k]).None?
    ensures Traverse(xs, f) == None
  {
    if k < |xs| - 1 {
      TraverseFailsAt(xs[..|xs| - 1], k, f);
    }
  }

  /** All or nothing: one `Data` element that fails makes the whole series fail, never a shorter series. */
  lemma ParsePointsFailsAt<N>(ds: seq<Element>, k: nat, parseNum: string -> Option<N>)
    requires k < |ds|
    requires PointOf(ds[k], parseNum).None?
    ensures ParsePoints(ds, parseNum) == None
  {
    TraverseFailsAt(ds, k, d => PointOf(d, parseNum));
  }

  /** A document without any `Data` element below its root parses to the empty series, which is not a failure. */
  lemma {:induction false} NoDataParsesEmpty<N>(root: Element, parseNum: string -> Option<N>)
    requires forall d :: d in Descendants(root) ==> d.tag != "Data"
    ensures ParseDocument(Some(root), parseNum) == Some([])
  {
    var s := Descendants(root);
    assert forall i :: 0 <= i < |s| ==> s[i] in s;
  }

  /**
   * parse_profilometer_data: walks the `Data` elements below the root in
   * document order, appending one point per element, and gives up with None
   * at the first element whose `X` or `Z` cannot be read.
   */
  method ParseProfilometerData<N>(doc: Option<Element>, parseNum: string -> Option<N>) returns (r: Option<Series<N>>)
    ensures r == ParseDocument(doc, parseNum)
  {
    if doc.None? {
      return None;
    }
    var ds := FindAll(doc.value, "Data");
    var dataPoints: Series<N> := [];
    var i := 0;
    while i < |ds|
      invariant 0 <= i <= |ds|
      invariant ParsePoints(ds[..i], parseNum) == Some(dataPoints)
    {
      var x := ReadNumber(ds[i], "X", parseNum);
      if x.None? {
        ParsePointsFailsAt(ds, i, parseNum);
        return None;
      }
      var z := ReadNumber(ds[i], "Z", parseNum);
      if z.None? {
        ParsePointsFailsAt(ds, i, parseNum);
        return None;
      }
      TraverseStep(ds, i, d => PointOf(d, parseNum), dataPoints, Point(x.value, z.value));
      dataPoints := dataPoints + [Point(x.value, z.value)];
      i := i + 1;
    }
    assert ds[..i] == ds;
    return Some(dataPoints);
  }
}
