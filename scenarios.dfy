/** Lifecycles of one ResizeSensor, each run on a fresh instance, stating what
    is subscribed and which observer calls were made at the end. */
module Scenarios {
  import opened Dom
  import opened Observer
  import opened Sensor

  /** A fresh instance tracks no element, so mounting on any element subscribes it
      (and its ancestors when `observeParents` is `true`). */
  method MountFresh(d: Document, e: ElementId, props: Option<bool>)
    returns (subscribed: seq<ElementId>, ghost issued: seq<Call>)
    requires d.Valid()
    ensures subscribed == Subscriptions(d, e, props == Some(true))
    ensures issued == [DisconnectCall] + ObserveEach(subscribed)
  {
    var sensor := new ResizeSensor(props);
    sensor.ComponentDidMount(ElementNode(e), d);
    subscribed := sensor.observer.targets;
    issued := sensor.observer.calls;
  }

  /** Re-rendering onto the same element with the same props makes no observer
      call at all, even if the document around it has changed since. */
  method RerenderIsQuiet(d: Document, later: Document, e: ElementId, props: Option<bool>)
    returns (subscribed: seq<ElementId>, ghost issued: seq<Call>)
    requires d.Valid() && later.Valid()
    ensures subscribed == Subscriptions(d, e, props == Some(true))
    ensures issued == []
  {
    var sensor := new ResizeSensor(props);
    sensor.ComponentDidMount(ElementNode(e), d);
    ghost var before := sensor.observer.calls;
    sensor.ComponentDidUpdate(props, ElementNode(e), later);
    subscribed := sensor.observer.targets;
    issued := sensor.observer.calls[|before|..];
  }

  /** Turning `observeParents` on for an unchanged element rebuilds with the
      ancestors added after it; turning it off again rebuilds with the element alone. */
  method ToggleObserveParents(d: Document, e: ElementId)
    returns (withParents: seq<ElementId>, withoutParents: seq<ElementId>)
    requires d.Valid()
    ensures withParents == [e] + Ancestors(d, e)
    ensures withoutParents == [e]
  {
    var sensor := new ResizeSensor(None);
    sensor.ComponentDidMount(ElementNode(e), d);
    sensor.ComponentDidUpdate(Some(true), ElementNode(e), d);
    withParents := sensor.observer.targets;
    sensor.ComponentDidUpdate(Some(false), ElementNode(e), d);
    withoutParents := sensor.observer.targets;
  }

  /** An omitted `observeParents` and an explicit `false` are different props
      (`undefined !== false`), so switching between them forces a full rebuild
      that subscribes the very same list again. */
  method OmittedVersusFalse(d: Document, e: ElementId)
    returns (subscribed: seq<ElementId>, ghost issued: seq<Call>)
    requires d.Valid()
    ensures subscribed == [e]
    ensures issued == [DisconnectCall, ObserveCall(e)]
  {
    var sensor := new ResizeSensor(None);
    sensor.ComponentDidMount(ElementNode(e), d);
    ghost var before := sensor.observer.calls;
    sensor.ComponentDidUpdate(Some(false), ElementNode(e), d);
    subscribed := sensor.observer.targets;
    issued := sensor.observer.calls[|before|..];
  }

  /** A non-element disconnects but leaves the tracked element in place, so when
      the same element comes back without `force` nothing is observed again. */
  method ElementComesBack(d: Document, e: ElementId, props: Option<bool>)
    returns (subscribed: seq<ElementId>, tracked: Option<ElementId>, ghost issued: seq<Call>)
    requires d.Valid()
    ensures subscribed == []
    ensures tracked == Some(e)
    ensures issued == [DisconnectCall]
  {
    var sensor := new ResizeSensor(props);
    sensor.ComponentDidMount(ElementNode(e), d);
    ghost var before := sensor.observer.calls;
    sensor.ComponentDidUpdate(props, TextNode, d);
    sensor.ComponentDidUpdate(props, ElementNode(e), d);
    subscribed, tracked := sensor.observer.targets, sensor.element;
    issued := sensor.observer.calls[|before|..];
  }

  /** Moving to another element drops the old one unless it is an ancestor of
      the new one that is itself being watched. */
  method SwitchElement(d: Document, a: ElementId, b: ElementId, props: Option<bool>)
    returns (subscribed: seq<ElementId>)
    requires d.Valid() && a != b
    ensures subscribed == Subscriptions(d, b, props == Some(true))
    ensures a in subscribed <==> props == Some(true) && a in Ancestors(d, b)
  {
    var sensor := new ResizeSensor(props);
    sensor.ComponentDidMount(ElementNode(a), d);
    sensor.ComponentDidUpdate(props, ElementNode(b), d);
    subscribed := sensor.observer.targets;
    if props == Some(true) {
      assert subscribed == [b] + Ancestors(d, b);
    }
  }

  /** Unmounting leaves nothing subscribed, and a second unmount is harmless. */
  method UnmountTwice(d: Document, e: ElementId, props: Option<bool>)
    returns (afterFirst: seq<ElementId>, afterSecond: seq<ElementId>, ghost issued: seq<Call>)
    requires d.Valid()
    ensures afterFirst == [] && afterSecond == []
    ensures issued == [DisconnectCall, DisconnectCall]
  {
    var sensor := new ResizeSensor(props);
    sensor.ComponentDidMount(ElementNode(e), d);
    ghost var before := sensor.observer.calls;
    sensor.ComponentWillUnmount();
    afterFirst := sensor.observer.targets;
    sensor.ComponentWillUnmount();
    afterSecond := sensor.observer.targets;
    issued := sensor.observer.calls[|before|..];
  }

  /** Element A is mounted without `observeParents`, re-rendered unchanged,
      replaced by B (whose parent is P1, whose parent is P2), then
      `observeParents` is turned on, and the component unmounts. */
  method MountUpdateUnmount()
    returns (mounted: seq<ElementId>, rerendered: seq<ElementId>, ghost rerenderCalls: nat,
             switched: seq<ElementId>, withParents: seq<ElementId>, unmounted: seq<ElementId>)
    ensures mounted == [1]
    ensures rerendered == [1] && rerenderCalls == 0
    ensures switched == [2]
    ensures withParents == [2, 3, 4]
    ensures unmounted == []
  {
    var d := Document(map[1 := 4, 2 := 3, 3 := 4], map[1 := 1, 2 := 2, 3 := 1, 4 := 0]);
    var sensor := new ResizeSensor(None);
    sensor.ComponentDidMount(ElementNode(1), d);
    mounted := sensor.observer.targets;
    ghost var before := |sensor.observer.calls|;
    sensor.ComponentDidUpdate(None, ElementNode(1), d);
    rerendered := sensor.observer.targets;
    rerenderCalls := |sensor.observer.calls| - before;
    sensor.ComponentDidUpdate(None, ElementNode(2), d);
    switched := sensor.observer.targets;
    sensor.ComponentDidUpdate(Some(true), ElementNode(2), d);
    withParents := sensor.observer.targets;
    sensor.ComponentWillUnmount();
    unmounted := sensor.observer.targets;
  }
}
