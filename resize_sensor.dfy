/** ResizeSensor: keeps a size observer subscribed to the element a component
    renders to and, when `observeParents` is set, to all of that element's
    ancestors; the lifecycle hooks decide when to tear down and rebuild. */
module Sensor {
  import opened Dom
  import opened Observer

  /** The elements one rebuild subscribes, in order: `e`, then, when ancestors
      are watched, its parent, grandparent, ... up to the element without one. */
  function Subscriptions(d: Document, e: ElementId, watchAncestors: bool): (r: seq<ElementId>)
    requires d.Valid()
    ensures |r| >= 1 && r[0] == e
    ensures Distinct(r)
    ensures watchAncestors ==> IsParentWalk(d, e, r)
    ensures !watchAncestors ==> |r| == 1
  {
    if watchAncestors then ChainDistinct(d, e); Chain(d, e) else [e]
  }

  /** Turning `observeParents` on adds exactly the ancestors after the element;
      turning it off drops them, and the element itself is never among them. */
  lemma ToggleAncestors(d: Document, e: ElementId)
    requires d.Valid()
    ensures Subscriptions(d, e, true) == Subscriptions(d, e, false) + Ancestors(d, e)
    ensures e !in Ancestors(d, e)
  {
  }

  class ResizeSensor {
    /** `this.element`: the element of the last rebuild, `null` until the first. */
    var element: Option<ElementId>
    /** `this.props.observeParents`; `None` when the prop is omitted. */
    var observeParents: Option<bool>
    /** The single observer the instance owns for its whole life. */
    const observer: ResizeObserver
    /** The document as it stood at the last rebuild. */
    ghost var builtFrom: Document

    /** `if (this.props.observeParents)`: only an explicit `true` is truthy. */
    predicate WatchesAncestors()
      reads this
    {
      observeParents == Some(true)
    }

    /** Either nothing is subscribed, or exactly what a rebuild for the tracked
        element subscribes under the current props, in the document as it stood
        at that rebuild. */
    ghost predicate Valid()
      reads this, observer
    {
      builtFrom.Valid() &&
      (observer.targets == [] ||
       (element.Some? && observer.targets == Subscriptions(builtFrom, element.value, WatchesAncestors())))
    }

    constructor (props: Option<bool>)
      ensures Valid() && fresh(observer)
      ensures element == None && observeParents == props
      ensures observer.targets == [] && observer.calls == []
    {
      element := None;
      observeParents := props;
      observer := new ResizeObserver();
      builtFrom := Document(map[], map[]);
    }

    /** What one call of `observeElement(node, force)` does:
        - on anything but an element: disconnect, keep the tracked element;
        - on the tracked element without `force`: make no call, change nothing;
        - otherwise: disconnect, track `node`, then observe its subscriptions in order. */
    twostate predicate Resolved(node: Node, force: bool, d: Document)
      requires d.Valid()
      reads this, observer
    {
      match node
      case ElementNode(e) =>
        if old(element) == Some(e) && !force then
          element == old(element) &&
          observer.targets == old(observer.targets) &&
          observer.calls == old(observer.calls)
        else
          element == Some(e) &&
          observer.targets == Subscriptions(d, e, WatchesAncestors()) &&
          observer.calls == old(observer.calls) + [DisconnectCall] + ObserveEach(observer.targets)
      case _ =>
        element == old(element) &&
        observer.targets == [] &&
        observer.calls == old(observer.calls) + [DisconnectCall]
    }

    /** `observeElement`. A forced call may start from a sensor whose props
        were just replaced, so it needs only the document part of `Valid()`. */
    method ObserveElement(node: Node, d: Document, force: bool)
      requires d.Valid() && builtFrom.Valid()
      requires force || Valid()
      modifies this, observer
      ensures Valid()
      ensures observeParents == old(observeParents)
      ensures Resolved(node, force, d)
    {
      if !node.ElementNode? {
        observer.Disconnect();
        return;
      }
      var e := node.id;
      if element == Some(e) && !force {
        return;
      }
      observer.Disconnect();
      element := Some(e);
      builtFrom := d;
      observer.Observe(e);
      if WatchesAncestors() {
        ObserveParents(d, e);
        ObserveEachAppend([e], Ancestors(d, e));
      }
    }

    /** The upward walk of `observeElement`: observe `parentElement`, its
        `parentElement`, and so on, until there is none. */
    method ObserveParents(d: Document, e: ElementId)
      requires d.Valid()
      modifies observer
      ensures observer.targets == old(observer.targets) + Ancestors(d, e)
      ensures observer.calls == old(observer.calls) + ObserveEach(Ancestors(d, e))
    {
      ghost var walked: seq<ElementId> := [];
      ghost var targets0, calls0, ancestors := observer.targets, observer.calls, Ancestors(d, e);
      var parent := d.ParentElement(e);
      while parent.Some?
        invariant observer.targets == targets0 + walked
        invariant observer.calls == calls0 + ObserveEach(walked)
        invariant walked + WalkFrom(d, parent) == ancestors
        decreases |WalkFrom(d, parent)|
      {
        var p := parent.value;
        assert (walked + [p]) + WalkFrom(d, d.ParentElement(p)) == ancestors by {
          WalkFromStep(d, p);
        }
        assert ObserveEach(walked + [p]) == ObserveEach(walked) + [ObserveCall(p)] by {
          ObserveEachAppend(walked, [p]);
        }
        observer.Observe(p);
        walked := walked + [p];
        parent := d.ParentElement(p);
      }
      assert walked == ancestors;
    }

    /** `componentDidMount`: resolve the rendered node without forcing. */
    method ComponentDidMount(node: Node, d: Document)
      requires Valid() && d.Valid()
      modifies this, observer
      ensures Valid() && observeParents == old(observeParents)
      ensures Resolved(node, false, d)
    {
      ObserveElement(node, d, false);
    }

    /** `componentDidUpdate`, with the framework's replacement of the props
        folded in: force a rebuild exactly when `observeParents` differs
        (`!==`) from the previous props. */
    method ComponentDidUpdate(props: Option<bool>, node: Node, d: Document)
      requires Valid() && d.Valid()
      modifies this, observer
      ensures Valid() && observeParents == props
      ensures Resolved(node, props != old(observeParents), d)
    {
      var prevProps := observeParents;
      observeParents := props;
      ObserveElement(node, d, observeParents != prevProps);
    }

    /** `componentWillUnmount`: drop every subscription. */
    method ComponentWillUnmount()
      requires Valid()
      modifies observer
      ensures Valid()
      ensures observer.targets == []
      ensures observer.calls == old(observer.calls) + [DisconnectCall]
    {
      observer.Disconnect();
    }
  }
}
