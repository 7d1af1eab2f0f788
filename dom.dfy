/** The slice of the DOM that ResizeSensor depends on: what a component
    resolves to, and each element's `parentElement`. */
module Dom {

  datatype Option<+T> = None | Some(value: T)

  /** Elements are compared by reference (`===`), so an element is its identity. */
  type ElementId = nat

  /** What `findDOMNode` hands to the sensor: no node at all, a text node, or an element. */
  datatype Node = NoNode | TextNode | ElementNode(id: ElementId)

  /** A document, seen through `parentElement`. An element without an entry in
      `parentOf` has no parent element (the document element, or a detached one).
      `depth` ranks the elements so that every parent sits strictly above its
      child: the parent relation is finite and acyclic. */
  datatype Document = Document(parentOf: map<ElementId, ElementId>, depth: map<ElementId, nat>)
  {
    predicate Valid() {
      forall e :: e in parentOf ==>
        e in depth && parentOf[e] in depth && depth[parentOf[e]] < depth[e]
    }

    /** `element.parentElement`, with `null` as `None`. */
    function ParentElement(e: ElementId): Option<ElementId> {
      if e in parentOf then Some(parentOf[e]) else None
    }
  }

  /** `s` is what walking `parentElement` upward from `e` visits: `e` first, each
      next element the parent of the one before, and the last one without a parent. */
  ghost predicate IsParentWalk(d: Document, e: ElementId, s: seq<ElementId>)
    decreases |s|
  {
    |s| >= 1 && s[0] == e &&
    if |s| == 1 then d.ParentElement(e) == None
    else d.ParentElement(e) == Some(s[1]) && IsParentWalk(d, s[1], s[1..])
  }

  predicate Distinct(s: seq<ElementId>) {
    forall i, j :: 0 <= i < j < |s| ==> s[i] != s[j]
  }

  /** The element `e` followed by its parent, grandparent, ..., up to the element
      that has no parent element. */
  function Chain(d: Document, e: ElementId): (r: seq<ElementId>)
    requires d.Valid()
    ensures IsParentWalk(d, e, r)
    decreases if e in d.depth then d.depth[e] else 0
  {
    match d.ParentElement(e)
    case None => [e]
    case Some(p) =>
      var rest := Chain(d, p);
      assert ([e] + rest)[1..] == rest;
      [e] + rest
  }

  /** What is still to be walked when the walk's cursor holds `parent`. */
  function WalkFrom(d: Document, parent: Option<ElementId>): (r: seq<ElementId>)
    requires d.Valid()
    ensures parent.None? <==> r == []
    ensures parent.Some? ==> IsParentWalk(d, parent.value, r)
  {
    match parent
    case None => []
    case Some(p) => Chain(d, p)
  }

  /** One step of the walk: the cursor's element, then what lies above it. */
  lemma WalkFromStep(d: Document, p: ElementId)
    requires d.Valid()
    ensures WalkFrom(d, Some(p)) == [p] + WalkFrom(d, d.ParentElement(p))
  {
  }

  /** The ancestor elements of `e`, nearest first. */
  function Ancestors(d: Document, e: ElementId): (r: seq<ElementId>)
    requires d.Valid()
    ensures Chain(d, e) == [e] + r
  {
    WalkFrom(d, d.ParentElement(e))
  }

  /** Every element above `e` in its chain is ranked strictly below `e`. */
  lemma {:induction false} ChainRanked(d: Document, e: ElementId)
    requires d.Valid()
    ensures forall x :: x in Chain(d, e)[1..] ==>
      e in d.depth && x in d.depth && d.depth[x] < d.depth[e]
    decreases if e in d.depth then d.depth[e] else 0
  {
    match d.ParentElement(e)
    case None =>
    case Some(p) =>
      ChainRanked(d, p);
      assert Chain(d, e)[1..] == Chain(d, p);
      forall x | x in Chain(d, p)
        ensures e in d.depth && x in d.depth && d.depth[x] < d.depth[e]
      {
        if x != p {
          assert Chain(d, p) == [p] + Chain(d, p)[1..];
        }
      }
  }

  /** The walk never meets the same element twice. */
  lemma {:induction false} ChainDistinct(d: Document, e: ElementId)
    requires d.Valid()
    ensures Distinct(Chain(d, e))
    decreases if e in d.depth then d.depth[e] else 0
  {
    match d.ParentElement(e)
    case None =>
    case Some(p) =>
      ChainDistinct(d, p);
      ChainRanked(d, e);
      var c := Chain(d, e);
      assert c[1..] == Chain(d, p);
      forall i, j | 0 <= i < j < |c|
        ensures c[i] != c[j]
      {
        if i == 0 {
          assert c[j] in c[1..];
        } else {
          assert c[i] == Chain(d, p)[i - 1] && c[j] == Chain(d, p)[j - 1];
        }
      }
  }

  /** The walk is determined by the document: any parent walk from `e` is `Chain(d, e)`. */
  lemma {:induction false} ChainUnique(d: Document, e: ElementId, s: seq<ElementId>)
    requires d.Valid()
    requires IsParentWalk(d, e, s)
    ensures s == Chain(d, e)
    decreases |s|
  {
    if |s| == 1 {
      assert d.ParentElement(e) == None;
    } else {
      assert d.ParentElement(e) == Some(s[1]);
      var tail := s[1..];
      ChainUnique(d, s[1], tail);
      assert s == [e] + tail;
    }
  }
}
