/**
 * An already-parsed XML document, and the two ElementTree queries the
 * profilometer reader uses on it: `find(tag)` (first direct child with a
 * tag) and `findall('.//tag')` (every element below the root with a tag,
 * in document order).
 */
module Xml {
  import opened Wrappers

  /** An element: its tag, its text (None when it has no text) and its children in document order. */
  datatype Element = Element(tag: string, text: Option<string>, children: seq<Element>)

  /** Number of elements in the subtree of `e`, `e` included. */
  function Size(e: Element): (n: nat)
    ensures n >= 1
  {
    1 + ChildrenSize(e, 0)
  }

  /** Number of elements in the subtrees of `e.children[i..]`. */
  function ChildrenSize(e: Element, i: nat): nat
    requires i <= |e.children|
    decreases e, |e.children| - i
  {
    if i == |e.children| then 0
    else 1 + ChildrenSize(e.children[i], 0) + ChildrenSize(e, i + 1)
  }

  /** Index of the first element of `cs` tagged `tag`, or `|cs|` when there is none. */
  function FirstIndex(cs: seq<Element>, tag: string): (k: nat)
    ensures k <= |cs|
    ensures k < |cs| ==> cs[k].tag == tag
    ensures forall j :: 0 <= j < k ==> cs[j].tag != tag
  {
    if cs == [] then 0
    else if cs[0].tag == tag then 0
    else 1 + FirstIndex(cs[1..], tag)
  }

  /** ElementTree's `e.find(tag)`: the first direct child of `e` tagged `tag`, if any. */
  function Find(e: Element, tag: string): (r: Option<Element>)
    ensures r.None? <==> forall j :: 0 <= j < |e.children| ==> e.children[j].tag != tag
    ensures r.Some? ==> exists k :: 0 <= k < |e.children| && e.children[k] == r.value && r.value.tag == tag &&
                                    forall j :: 0 <= j < k ==> e.children[j].tag != tag
  {
    var k := FirstIndex(e.children, tag);
    if k < |e.children| then Some(e.children[k]) else None
  }

  /** The elements below `e.children[i..]`, each followed by its own descendants (pre-order). */
  function DescendantsFrom(e: Element, i: nat): seq<Element>
    requires i <= |e.children|
    decreases e, |e.children| - i
  {
    if i == |e.children| then []
    else [e.children[i]] + DescendantsFrom(e.children[i], 0) + DescendantsFrom(e, i + 1)
  }

  /** Every element strictly below `e`, in document order. */
  function Descendants(e: Element): seq<Element>
  {
    DescendantsFrom(e, 0)
  }

  /** The elements of `s` tagged `tag`, in their order in `s`. */
  function Tagged(s: seq<Element>, tag: string): (r: seq<Element>)
    ensures |r| <= |s|
    ensures forall d :: d in r <==> d in s && d.tag == tag
    ensures r == [] <==> forall i :: 0 <= i < |s| ==> s[i].tag != tag
  {
    if s == [] then []
    else if s[0].tag == tag then [s[0]] + Tagged(s[1..], tag)
    else Tagged(s[1..], tag)
  }

  /** Filtering one element keeps it exactly when it carries the tag. */
  lemma TaggedSingleton(d: Element, tag: string)
    ensures Tagged([d], tag) == if d.tag == tag then [d] else []
  {
    assert [d][1..] == [];
  }

  /**
   * Filtering distributes over concatenation: the matches of `s + t` are the
   * matches of `s` followed by those of `t`. With TaggedSingleton this pins
   * the filter down on every sequence: every match is kept, once per
   * occurrence, in its original order.
   */
  lemma {:induction false} TaggedConcat(s: seq<Element>, t: seq<Element>, tag: string)
    ensures Tagged(s + t, tag) == Tagged(s, tag) + Tagged(t, tag)
  {
    if s != [] {
      var st := s + t;
      assert st != [] && st[0] == s[0] && st[1..] == s[1..] + t;
      TaggedConcat(s[1..], t, tag);
      var rest := Tagged(s[1..], tag);
      if s[0].tag == tag {
        assert Tagged(st, tag) == [s[0]] + (rest + Tagged(t, tag));
        assert Tagged(s, tag) == [s[0]] + rest;
        assert [s[0]] + (rest + Tagged(t, tag)) == ([s[0]] + rest) + Tagged(t, tag);
      } else {
        assert Tagged(st, tag) == rest + Tagged(t, tag);
        assert Tagged(s, tag) == rest;
      }
    } else {
      assert s + t == t;
    }
  }

  /** A sequence whose elements all carry the tag, duplicates included, passes the filter unchanged. */
  lemma {:induction false} TaggedAllMatch(s: seq<Element>, tag: string)
    requires forall i :: 0 <= i < |s| ==> s[i].tag == tag
    ensures Tagged(s, tag) == s
  {
    if s != [] {
      TaggedAllMatch(s[1..], tag);
    }
  }

  /** ElementTree's `root.findall('.//' + tag)`: the descendants of `root` tagged `tag`, in document order. */
  function FindAll(root: Element, tag: string): (r: seq<Element>)
    ensures forall d :: d in r <==> d in Descendants(root) && d.tag == tag
    ensures |r| <= |Descendants(root)|
  {
    Tagged(Descendants(root), tag)
  }

  /** Every element below `e.children[i..]` is smaller than `e`. */
  lemma {:induction false} DescendantsFromSmaller(e: Element, i: nat)
    requires i <= |e.children|
    ensures forall d :: d in DescendantsFrom(e, i) ==> Size(d) <= ChildrenSize(e, i)
    decreases e, |e.children| - i
  {
    if i < |e.children| {
      DescendantsFromSmaller(e.children[i], 0);
      DescendantsFromSmaller(e, i + 1);
    }
  }

  /** `.//tag` looks strictly below the root: the root is never among the matches, whatever its tag. */
  lemma RootNotMatched(root: Element, tag: string)
    ensures root !in FindAll(root, tag)
  {
    DescendantsFromSmaller(root, 0);
  }
}
