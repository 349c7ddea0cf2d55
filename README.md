# react-magazine: the synchronization core, modelled in Dafny

react-magazine wraps an external page-flip engine in a React component (`MagazineBook`) and
a convenience hook (`useFlipBook`). The engine does all rendering and animation. The wrapper
decides three things:

- which pages exist and what density each one gets;
- when the single engine instance is constructed, loaded, updated, cleared and destroyed;
- how engine events are mirrored into the component's state and the hook's state.

This project models those decisions and proves properties about them.

- `types.dfy` (module `Types`): the value types of `src/types/index.ts`, the five engine
  events with their payloads, and the navigation requests of the imperative handle.
- `materialize.dfy` (module `Materialization`): the children effect as pure functions. It
  filters children to valid elements, gives each an ordinal, resolves its density (the
  declared hint or `soft`; in cover mode the first and last are `hard`), writes and compacts
  the positional slot array, and makes the page-set decision.
- `bridge.dfy` (module `Bridge`): the event bridge as values. It says which listeners
  `setHandlers` registers, what each handler does to the mirrored state
  (`currentPage`, `pageCount`, `orientation`), and defines the two button-disable predicates.
- `lifecycle.dfy` (module `Lifecycle`): the stateful component.
  - `Engine` is the engine as the wrapper sees it: a log of the calls made on it, plus the
    answers it gives to queries, which only the engine changes.
  - `Book` is the component. It holds the page set, the slot array, the nullable engine
    reference, the pending next-paint-frame callbacks and the mirrored state. Its methods
    are the effects, the ref callback, the deferred callback, the unmount cleanup, event
    delivery and the imperative handle.
  - The listener registry is derived from the call log: `on` adds a listener, `off(name)`
    drops every listener of that name.
- `hook.dfy` (module `FlipBookHook`): `useFlipBook` as pure reducers on a five-field record,
  with its `canFlip` predicates and its navigation forwarding.
- `scenarios.dfy` (module `Scenarios`): complete runs from mount, driving `Book` with effects,
  ref callbacks, paint frames and engine events. Most follow a simplified order, without the
  re-runs that the effects' dependency arrays add. `LengthOnlyMountAsWritten` and
  `LengthOnlyMountCorrected` follow React's full order.

React scheduling is replaced by explicit calls. Whoever drives a `Book` chooses the order of the
effects, ref callbacks, paint frames and engine events. The next-paint-frame
callback is a queued `Frame`. It re-reads the engine reference when it runs, as the source does.

Some behaviour of the code differs from what a reader might expect. The model follows the code:

- One might expect no event ever to reach two overlapping sets of handlers. The code does
  not guarantee this. When the init/update effect (src/components/MagazineBook.tsx:305-349)
  runs twice before a paint frame, two frames are pending. Each registers the listeners,
  with no `off` in between (`TwoPendingFramesDuplicate`, `Scenarios.DuplicateFlipListeners`).
  The model states only the clean case (`CleanResubscription`).
- One might expect a shrinking page set to be cleared and then loaded afresh. The code calls
  `clear()` in the children effect (src/components/MagazineBook.tsx:246-252). The deferred
  callback (lines 336-345) then calls `updateFromHtml` whenever the engine still reports a
  flip controller, and `loadFromHTML` only otherwise. `Scenarios.ShrinkClearsFirst` allows
  either.
- `PageCover` calls itself a Page "with density=\"hard\" preset"
  (src/components/PageCover.tsx:4-6) and renders `data-density="hard"` (line 14). But it
  declares no `density` prop. So the component resolves a cover to `soft` unless cover mode
  forces its position (src/types/index.ts:48), and the ref callback overwrites the attribute
  with that value (`CoverOverwrittenUnlessForced`).
- One might expect nothing to change when `renderOnlyPageLengthChange` is set and the length
  is unchanged. The code still resets the slot array in that case
  (src/components/MagazineBook.tsx:213; `Book.ChildrenEffect` always leaves `slots == []`).
  On mount, this keeps the engine from ever being constructed (see "## Findings").
- The hook's `onInit` takes the page from the event payload (src/hooks/useFlipBook.ts:125-132).
  The component asks the engine instead (src/components/MagazineBook.tsx:285-290). The two
  agree exactly when payload and engine index coincide (`InitAgreement`).

## Model

| member | source | states |
|---|---|---|
| `Materialization.CompactAt` | src/components/MagazineBook.tsx:303 | a mounted slot's node lands at its rank among the mounted slots in the compacted `validRefs`; an empty slot takes no position |
| `Materialization.ElementOrdinal` | src/components/MagazineBook.tsx:216-219 | a child that is a valid element gets as its index the number of elements before it, and lands there; a non-element child takes no index |
| `Materialization.ResolveDensity` | src/components/MagazineBook.tsx:223-233 | the density is `hard` exactly when cover mode forces the position (first or last) or the hint is `hard`; otherwise it is `soft` |
| `Materialization.Materialize` | src/components/MagazineBook.tsx:216-244 | one descriptor per valid element, in order, each carrying its own index, its element and the density `ResolveDensity` gives its position |
| `Materialization.CoverEndsAreHard` | src/components/MagazineBook.tsx:226-233 | in cover mode, index 0 and index n-1 are `hard`, also when n = 1 |
| `Materialization.NoCoverKeepsHint` | src/components/MagazineBook.tsx:223-224 | without cover mode every density is its declared hint, defaulting to `soft` |
| `Materialization.CoverOverwrittenUnlessForced` | src/components/MagazineBook.tsx:236-241 | a `PageCover` renders `hard`, yet the ref callback writes `hard` on it only where cover mode forces it, and `soft` everywhere else |
| `Materialization.PageKeepsRenderedDensity` | src/components/Page.tsx:9-14 | for a `Page` that cover mode does not force, the value the ref callback writes is the one the page rendered itself |
| `Materialization.SetSlot` | src/components/MagazineBook.tsx:240 | writing slot i sets it to the node, leaves every other slot as it was, and extends a short array with empty slots |
| `Materialization.MountedInPageOrder` | src/components/MagazineBook.tsx:302-303 | once every page has mounted its node, whatever the order, the compacted slots list the nodes in page order |
| `Materialization.Decide` | src/components/MagazineBook.tsx:246-252 | the page set is kept exactly when `renderOnlyPageLengthChange` is set and the length is unchanged; `clear` happens exactly when the set is replaced by a shorter one and an engine exists |
| `Bridge.Subscriptions` | src/components/MagazineBook.tsx:258-300 | `flip`, `changeOrientation` and `init` are always subscribed; `changeState` and `update` are subscribed only when their callback is supplied; each event at most once; a listener forwards exactly when the caller supplied that callback |
| `Bridge.Apply` | src/components/MagazineBook.tsx:263-294 | `flip` sets the page to the payload, `changeOrientation` the orientation, `init` the page count and page from the engine's answers; `changeState` and `update` leave the mirrored state alone |
| `Bridge.InitIgnoresPayload` | src/components/MagazineBook.tsx:285-290 | the `init` payload never reaches the mirrored state |
| `Bridge.ControlsWithoutPages` | src/components/MagazineBook.tsx:412-413 | for a page >= 0 and page count 0, next is disabled; both buttons start disabled |
| `Bridge.ControlsAfterInit` | src/components/MagazineBook.tsx:412-413 | after `init` with the engine index inside the book, next is disabled exactly on the last page and prev exactly on the first |
| `Bridge.PrevDisabled` | src/components/MagazineBook.tsx:412 | for pages >= 0, prev is disabled exactly when no page comes before the current one; below page 0 it is never disabled |
| `Bridge.NextDisabled` | src/components/MagazineBook.tsx:413 | next is disabled exactly when no page comes after the current one |
| `Bridge.InitThenFlip` | src/components/MagazineBook.tsx:263-290 | `init` reporting 3 pages at index 0, then `flip` to 1, gives page 1 of 3 |
| `FlipBookHook.Initial` | src/hooks/useFlipBook.ts:71-77 | page 0, count 0, landscape, no page state, not flipping |
| `FlipBookHook.OnFlip` | src/hooks/useFlipBook.ts:103-108 | the page becomes the payload and no other field changes |
| `FlipBookHook.OnChangeOrientation` | src/hooks/useFlipBook.ts:110-115 | the orientation becomes the payload and no other field changes |
| `FlipBookHook.OnChangeState` | src/hooks/useFlipBook.ts:117-123 | the page state becomes the payload, `isFlipping` holds exactly when it is `flipping`, and the page, count and orientation do not change |
| `FlipBookHook.OnInit` | src/hooks/useFlipBook.ts:125-132 | the page becomes the payload, the count becomes the ref's `getPageCount()` or 0 without a ref, and orientation, page state and `isFlipping` do not change |
| `FlipBookHook.CanFlipNext` | src/hooks/useFlipBook.ts:95-97 | true exactly when a page comes after the current one, which is exactly when the component's next button is enabled |
| `FlipBookHook.CanFlipPrev` | src/hooks/useFlipBook.ts:99-101 | true exactly when the page is past the first; for pages >= 0, exactly when the component's prev button is enabled |
| `FlipBookHook.Step` | src/hooks/useFlipBook.ts:143-148 | the hook hands out handlers for `flip`, `changeOrientation`, `changeState` and `init` and none for `update`, which changes nothing; each step keeps `isFlipping` equal to "the page state is `flipping`"; only `init` changes the count and only `changeState` the page state |
| `FlipBookHook.RunKeepsConsistent` | src/hooks/useFlipBook.ts:103-132 | over any sequence of events, `isFlipping` stays equal to "the page state is `flipping`" |
| `FlipBookHook.HandlersIndependent` | src/hooks/useFlipBook.ts:103-123 | a `flip` and a `changeOrientation` give the same state in either delivery order, since the engine does not order them; `onChangeState` does not change either `canFlip` answer |
| `FlipBookHook.CanFlipMatchesControls` | src/hooks/useFlipBook.ts:95-101 | `canFlipNext` is exactly "next is not disabled"; for pages >= 0, `canFlipPrev` is exactly "prev is not disabled" |
| `FlipBookHook.CanFlipPrevNegativePage` | src/hooks/useFlipBook.ts:99-101 | below page 0 the two disagree: neither can-flip-prev nor prev-disabled holds |
| `FlipBookHook.InitAgreement` | src/hooks/useFlipBook.ts:125-132 | after `init`, the hook and the component agree exactly when the payload equals the engine's index |
| `FlipBookHook.RunsAgree` | src/hooks/useFlipBook.ts:103-132 | fed the same events, the hook and the component keep agreeing on page, count and orientation, as long as each `init` payload is the engine's index at that moment and the ref then reports the engine's count; the engine's answers may change between events (a reload after a shrink) |
| `FlipBookHook.Navigate` | src/hooks/useFlipBook.ts:79-93 | `flipNext`, `flipPrev`, `flipTo` and `turnTo` pass the request on exactly when the book ref is set, unchanged |
| `Lifecycle.WithoutMembers` | src/page-flip.d.ts:67 | `off(name)` keeps exactly the listeners of other events, and every copy of each: the count for `name` drops to 0 and every other count is unchanged |
| `Lifecycle.ListenersOnAll` | src/page-flip.d.ts:61-66 | registering listeners appends them, in order, to those already registered |
| `Lifecycle.ListenersAfterOffAll` | src/components/MagazineBook.tsx:199-209 | after `removeHandlers`, no listener is left, whatever was registered before |
| `Lifecycle.CleanResubscription` | src/components/MagazineBook.tsx:305-345 | a deferred callback that runs right after `removeHandlers` leaves exactly the listeners of one `setHandlers` run |
| `Lifecycle.TwoPendingFramesDuplicate` | src/components/MagazineBook.tsx:336-345 | two deferred callbacks with no `off` between them leave every listener registered twice |
| `Lifecycle.Engine.constructor` | src/components/MagazineBook.tsx:309-331 | a new engine is bound to its container, has received no call and has no flip controller yet |
| `Lifecycle.Book.constructor` | src/components/MagazineBook.tsx:145-152 | no pages, no slots, no engine, page 0 of 0 in landscape |
| `Lifecycle.Book.RefreshOnPageDelete` | src/components/MagazineBook.tsx:193-197 | `clear` is called exactly when an engine exists |
| `Lifecycle.Book.RemoveHandlers` | src/components/MagazineBook.tsx:199-209 | `off` for all five event names, in order, when an engine exists; nothing otherwise |
| `Lifecycle.Book.SetHandlers` | src/components/MagazineBook.tsx:258-300 | when an engine exists, one `on` per listener of `Bridge.Subscriptions`, in order |
| `Lifecycle.Book.ChildrenEffect` | src/components/MagazineBook.tsx:212-254 | the slot array is reset; the page set becomes the materialized children unless the decision keeps it; `clear` is called exactly when the decision says so; a missing children prop changes nothing else |
| `Lifecycle.Book.Mount` | src/components/MagazineBook.tsx:236-241 | the node gets the page's resolved density and fills the slot of the page's ordinal; nothing else changes |
| `Lifecycle.Book.InitEffect` | src/components/MagazineBook.tsx:302-349 | with no pages or no mounted slot, nothing happens; otherwise listeners are dropped, an engine is constructed only when there is a container and none exists, and a frame carrying the compacted slots is queued when an engine exists; at most one engine per mount |
| `Lifecycle.Book.InitEffectCleanup` | src/components/MagazineBook.tsx:351-353 | the effect's cleanup drops all five listeners when an engine exists |
| `Lifecycle.Book.RunFrame` | src/components/MagazineBook.tsx:336-345 | the oldest frame leaves the queue; without an engine nothing else happens; with one, `loadFromHTML` (no flip controller) or `updateFromHtml` (controller present) is called on the frame's nodes, then the listeners are registered |
| `Lifecycle.Book.Unmount` | src/components/MagazineBook.tsx:386-393 | `destroy` is called once on an existing engine and the reference becomes null; a second cleanup finds no engine and calls nothing |
| `Lifecycle.Book.Deliver` | src/components/MagazineBook.tsx:263-298 | a registered listener updates the mirrored state as `Bridge.Apply` says, whether or not a caller callback exists, and forwards the event exactly when it was registered with one |
| `Lifecycle.Book.Navigate` | src/components/MagazineBook.tsx:158-172 | `flipNext`, `flipPrev`, `flip` and `turnToPage` reach the engine when it exists and do nothing otherwise |
| `Lifecycle.Book.CurrentPageIndex` | src/components/MagazineBook.tsx:174-176 | the engine's index, or 0 without an engine |
| `Lifecycle.Book.PageCount` | src/components/MagazineBook.tsx:178-180 | the engine's count, or 0 without an engine |
| `Lifecycle.Book.Orientation` | src/components/MagazineBook.tsx:182-185 | the engine's orientation, or none exactly when there is no engine |
| `Lifecycle.Book.State` | src/components/MagazineBook.tsx:187-190 | the engine's state, or none exactly when there is no engine |
| `Lifecycle.Book.IsPrevDisabled` | src/components/MagazineBook.tsx:412 | for pages >= 0, true exactly when the mirrored page is the first; never below page 0 |
| `Lifecycle.Book.IsNextDisabled` | src/components/MagazineBook.tsx:413 | true exactly when no page comes after the mirrored page |
| `Scenarios.InitThenFlipFromMount` | src/components/MagazineBook.tsx:263-290 | three pages mount and load; `init` reports 3 pages at 0; `flip` to 1 leaves page 1 of 3, both buttons enabled, and no caller callback called |
| `Scenarios.DuplicateFlipListeners` | src/components/MagazineBook.tsx:334-345 | running the init effect twice before the first paint frame leaves two `flip` listeners |
| `Scenarios.ShrinkClearsFirst` | src/components/MagazineBook.tsx:246-252 | shrinking five pages to three calls `clear` before the next frame reloads or updates the engine from the three remaining nodes |
| `Scenarios.FlipBeforeReady` | src/components/MagazineBook.tsx:166-168 | a `flip(2)` before any engine exists does nothing, and the getters still answer 0 |
| `Lifecycle.Book.ChildrenEffectKeepingSlots` | src/components/MagazineBook.tsx:212-254 | corrected children effect: the same page-set decision and `clear` as the source, but the slot array is reset only when the page set is replaced; a kept page set keeps its mounted nodes |
| `Scenarios.LengthOnlyMountAsWritten` | src/components/MagazineBook.tsx:212-254 | with `renderOnlyPageLengthChange` set and React's order (store pages; mount nodes; the children effect re-runs on the changed count; the init effect), no engine is constructed and no frame is pending |
| `Scenarios.LengthOnlyMountCorrected` | src/components/MagazineBook.tsx:305-345 | the same mount with the corrected children effect constructs the engine and queues one frame carrying nodes 1, 2, 3 |
| `Scenarios.UnmountTwice` | src/components/MagazineBook.tsx:386-393 | on unmount, the init effect's cleanup drops the listeners (lines 351-353, declared earlier, so it runs first); then `destroy` is called once; unmounting again calls nothing and leaves no engine |

## Findings

| source | as written | input that shows it | evidently intended | confidence | as-written member | corrected member |
|---|---|---|---|---|---|---|
| src/components/MagazineBook.tsx:213 | the children effect always clears the slot array (`childRef.current = []`), also when it keeps the page set | mount three pages with `renderOnlyPageLengthChange` set: the effect re-runs after the nodes mount, because `pages.length` (a dependency, line 254) changed from 0 to 3; it clears the slots and keeps the pages, so nothing re-renders; the init effect then finds no node and the engine is never constructed | clear the slots only when the page set is replaced, so the mount constructs the engine and loads the mounted nodes | not executed; the input relies on React running ref callbacks before passive effects and effects in declaration order | `Scenarios.LengthOnlyMountAsWritten` | `Lifecycle.Book.ChildrenEffectKeepingSlots`, with `Scenarios.LengthOnlyMountCorrected` |

`Book.ChildrenEffect` stays the model of the code as written. When the page set is replaced,
the two effects agree: both reset the slots. They differ only when the page set is kept.
The other scenarios replace the page set every time, so their results hold for either effect.

## Left out

- JSX rendering, inline styles, SVG icons and the controls markup (`opacity`, pointer events, the page indicator text). These are presentation only.
- What the engine does with `loadFromHTML`, `updateFromHtml`, `clear`, `destroy` and the navigation calls. It is a foreign library. The model records the calls, and treats the engine's answers to queries as values that only the engine changes.
- The reading of `on`/`off` (`on` adds a listener, `off(name)` removes all listeners of that name) comes from the engine's declared API. The engine's own registry code is not part of this model.
- The roughly twenty configuration values passed to the engine constructor. They are passed through uninterpreted, so the model leaves them out. It also does not model whether an update re-reads them.
- React scheduling: dependency arrays, re-render timing, state-update batching and `requestAnimationFrame` timing. Effects are explicit calls. State setters take effect at once. Paint frames run oldest first.
- `React.Children.toArray` flattening and keys: children arrive as a flat sequence of elements and non-elements. A falsy `children` prop is `None`.
- Density hints other than `'hard'`/`'soft'` (and the empty string, which `||` also defaults to `'soft'`): the hint is typed `PageDensity`.
- A ref callback called with `null` does nothing in the source, so it has no operation here. The handle's `pageFlip()` getter only returns the raw reference and is not modelled.
- What caller callbacks do: the model records the events handed to them (`Book.forwarded`) and nothing more.
- Event delivery after unmount is not excluded: `Book.Deliver` may run on any engine that registered the listener.
- Page numbers are JavaScript numbers; they are modelled as mathematical integers (no fractional or non-finite values).
- The `Page` and `PageCover` render functions: only the density each renders is modelled (`RenderedDensity`).
