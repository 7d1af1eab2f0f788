# ResizeSensor observation lifecycle, in Dafny

Blueprint's `ResizeSensor` component keeps one `ResizeObserver` subscribed to
the DOM element that its single child renders to. When the `observeParents`
prop is set, it also subscribes every ancestor of that element. The React
lifecycle hooks (mount, update, unmount) decide when the subscriptions are
torn down and rebuilt. Mount and update go through one private procedure,
`observeElement(element, force)`; unmount disconnects the observer directly.

The model has four modules:

- `Dom` (`dom.dfy`): what the component resolves to (`Node`: nothing, a text node
  or an element). It also holds a `Document`, seen only through
  `parentElement`. A `depth` map ranks the elements so that each parent ranks
  below its child. This makes the parent relation finite and acyclic, so the
  upward walk terminates. `Chain` is that walk as a function. Lemmas prove that
  the walk never repeats an element and that it is the only parent walk from
  the element.
- `Observer` (`resize_observer.dfy`): the `ResizeObserver`, modelled as a class.
  It has an ordered subscription list (`targets`), `Observe` (append) and
  `Disconnect` (clear). A ghost log of the calls made on it (`calls`) is
  specification state only: it lets contracts say which calls were made.
- `Sensor` (`resize_sensor.dfy`): the `ResizeSensor` class. Its fields are
  `element` (`this.element`), `observeParents` (`this.props.observeParents`)
  and the `observer` that the instance owns for its whole life. It has the
  private `ObserveElement` with its upward `while` loop (`ObserveParents`) and
  the three hooks. `Resolved` states the outcome of one `observeElement`
  call. It covers three branches: a non-element, the same element without
  `force`, and a rebuild. The class invariant `Valid()` says that after
  any sequence of calls, the subscription list is either empty or exactly
  what a rebuild for the tracked element subscribes under the current props,
  in the document as it stood at that rebuild (the ghost field `builtFrom`).
- `Scenarios` (`scenarios.dfy`): whole lifecycles run on fresh instances. They
  cover mounting, quiet re-renders, toggling `observeParents`, switching
  elements, an element that disappears and comes back, and unmounting twice.

Two details of the code are kept as written:

- On a non-element, `observeElement` disconnects but does not reset
  `this.element`. If the same element comes back later without `force`, the
  no-op branch is taken and nothing is observed again (`ElementComesBack`).
  One might expect `this.element` to be reset here; the code does not reset
  it, and neither does the model.
- `observeParents` is `boolean | undefined`, and `componentDidUpdate` compares it
  with `!==`. Going from an omitted prop to an explicit `false` therefore forces
  a rebuild that subscribes the same list again (`OmittedVersusFalse`). The
  prop is an `Option<bool>`, and only `Some(true)` is truthy.

React replaces `this.props` before it calls `componentDidUpdate(prevProps)`.
`ComponentDidUpdate(props, node, d)` performs that replacement itself: it
receives the new props, and the props it held before are the previous ones.
The node that `findDOMNode` resolves and the current document are parameters
of each hook.

## Model

| member | source | states |
|---|---|---|
| Dom.Chain | packages/core/src/components/resize-sensor/resizeSensor.tsx:99-107 | the walk from an element visits the element first, then each next element is the `parentElement` of the one before, and it ends at the element that has no parent element |
| Dom.ChainDistinct | packages/core/src/components/resize-sensor/resizeSensor.tsx:102-106 | the upward walk never visits the same element twice, because the parent relation is acyclic |
| Dom.ChainUnique | packages/core/src/components/resize-sensor/resizeSensor.tsx:102-106 | any sequence that starts at the element, follows `parentElement` and stops where there is none is exactly `Chain`, so the walk is determined by the document |
| Dom.Ancestors | packages/core/src/components/resize-sensor/resizeSensor.tsx:102-106 | the ancestors are the walk with the element itself removed from the front |
| Sensor.Subscriptions | packages/core/src/components/resize-sensor/resizeSensor.tsx:99-107 | a rebuild subscribes the candidate first, with no duplicates; with `observeParents` off it subscribes only the candidate, and with it on it subscribes the candidate's full parent walk |
| Sensor.ToggleAncestors | packages/core/src/components/resize-sensor/resizeSensor.tsx:101-107 | the list with `observeParents` on is the list with it off followed by exactly the ancestors, and the element is not among its ancestors |
| Sensor.ResizeSensor.constructor | packages/core/src/components/resize-sensor/resizeSensor.tsx:53-54 | a new instance tracks no element (`null`), owns a fresh observer with nothing subscribed and no calls made, and satisfies the invariant |
| Sensor.ResizeSensor.ObserveElement | packages/core/src/components/resize-sensor/resizeSensor.tsx:81-108 | non-element: exactly one `disconnect`, an empty list, tracked element unchanged; same element without `force`: no call and no change; otherwise: one `disconnect`, then one `observe` per subscribed element in walk order, the candidate tracked, and the list equal to `Subscriptions`; the invariant is kept and the props are untouched |
| Sensor.ResizeSensor.ObserveParents | packages/core/src/components/resize-sensor/resizeSensor.tsx:101-107 | the `while` loop appends exactly the ancestors to the list, nearest first, and makes one `observe` call for each of them, in that order |
| Sensor.ResizeSensor.ComponentDidMount | packages/core/src/components/resize-sensor/resizeSensor.tsx:61-66 | mount resolves the rendered node without `force`, with the outcome that `ObserveElement` states |
| Sensor.ResizeSensor.ComponentDidUpdate | packages/core/src/components/resize-sensor/resizeSensor.tsx:68-70 | update installs the new props and resolves the node with `force` exactly when the new `observeParents` differs from the old one |
| Sensor.ResizeSensor.ComponentWillUnmount | packages/core/src/components/resize-sensor/resizeSensor.tsx:72-74 | unmount makes exactly one `disconnect`, leaves the list empty and keeps the invariant, so repeating it is harmless |
| Observer.ResizeObserver.Observe | packages/core/src/components/resize-sensor/resizeSensor.tsx:99 | `observe` appends its element to the end of the subscription list and logs one call |
| Observer.ResizeObserver.Disconnect | packages/core/src/components/resize-sensor/resizeSensor.tsx:93 | `disconnect` empties the subscription list and logs one call |
| Scenarios.MountFresh | packages/core/src/components/resize-sensor/resizeSensor.tsx:53-66 | mounting a fresh instance (tracked element `null`) on any element subscribes exactly `Subscriptions` for it, after one `disconnect` |
| Scenarios.RerenderIsQuiet | packages/core/src/components/resize-sensor/resizeSensor.tsx:68-70 | an update with the same element and the same props makes no observer call, even if the document changed, and the list is kept |
| Scenarios.ToggleObserveParents | packages/core/src/components/resize-sensor/resizeSensor.tsx:68-70 | turning `observeParents` on for an unchanged element subscribes the element followed by its ancestors; turning it off again subscribes the element alone |
| Scenarios.OmittedVersusFalse | packages/core/src/components/resize-sensor/resizeSensor.tsx:69 | going from an omitted `observeParents` to `false` forces a rebuild: one `disconnect` and one `observe` of the same element |
| Scenarios.ElementComesBack | packages/core/src/components/resize-sensor/resizeSensor.tsx:82-90 | after a text node, the list is empty but the element is still tracked, so when the same element returns nothing is re-observed and only the one `disconnect` was made |
| Scenarios.SwitchElement | packages/core/src/components/resize-sensor/resizeSensor.tsx:88-99 | moving to another element subscribes that element's list, and the old element stays subscribed exactly when ancestors are watched and it is an ancestor of the new one |
| Scenarios.UnmountTwice | packages/core/src/components/resize-sensor/resizeSensor.tsx:72-74 | the list is empty after each of two unmounts, and each makes exactly one `disconnect` |
| Scenarios.MountUpdateUnmount | packages/core/src/components/resize-sensor/resizeSensor.tsx:61-74 | mount A gives [A]; an unchanged update makes no call; switching to B gives [B]; turning `observeParents` on gives [B, P1, P2]; unmount gives [] |

## Left out

- `render` and `React.Children.only` (resizeSensor.tsx:56-59) are React plumbing. The error for a child that is not a single element is raised there, before the sensor's logic runs.
- `findDOMNode` (resizeSensor.tsx:65, 69) is React plumbing. Its result is a `Node` parameter of each hook.
- The observer callback and its forwarding to `onResize` through `safeInvoke` (resizeSensor.tsx:54) are not modelled. The entries are handed over unchanged, and `safeInvoke` is not part of this model.
- The `resize-observer-polyfill` internals are left out. These are per-frame batching of notifications, the asynchronous call of the callback, and the initial notification on `observe`. They are timing, not subscription state. Its `observe` is modelled as a plain append, so the model does not capture that the polyfill ignores an element that is already observed. The model proves that a rebuild never observes the same element twice, so this does not change the result.
- The `contentRect` measurements (resizeSensor.tsx:17) are browser layout values in floating point.
- `Sensor.ResizeSensor.ObserveElement` and `Sensor.ResizeSensor.ComponentDidUpdate` do not model the `Element | Text | null` type test at run time. A node's kind is given by its `Node` constructor.
- packages/core/test/forms/fileUploadTests.tsx tests the `FileUpload` component. It checks rendered class names, and that component is not part of this model.
