/** The stateful side of MagazineBook: the page-flip engine seen from the wrapper (the calls
    made on it, and the answers it gives to queries), and the component itself with its page
    set, its positional slot array, its nullable engine reference, the deferred
    (next-paint-frame) load callbacks and the mirrored state its event handlers keep. */
module Lifecycle {
  import opened Types
  import opened Materialization
  import opened Bridge

  /** A call the wrapper makes on the engine. */
  datatype Call =
    | LoadFromHtml(nodes: seq<NodeId>)
    | UpdateFromHtml(nodes: seq<NodeId>)
    | ClearCall
    | DestroyCall
    | On(listener: Listener)
    | Off(event: EventName)
    | NavCall(request: NavRequest)

  /** `listeners` without those for event `n`. */
  function Without(listeners: seq<Listener>, n: EventName): seq<Listener> {
    if listeners == [] then []
    else (if listeners[0].event == n then [] else [listeners[0]]) + Without(listeners[1..], n)
  }

  /** The listeners registered after a log of calls, reading the engine's event API as:
      `on(name, cb)` adds one listener, `off(name)` drops every listener of that name. */
  function Listeners(calls: seq<Call>): seq<Listener>
    decreases |calls|
  {
    if calls == [] then []
    else
      var before := Listeners(calls[..|calls| - 1]);
      match calls[|calls| - 1]
      case On(l) => before + [l]
      case Off(n) => Without(before, n)
      case _ => before
  }

  /** How many listeners in `ls` listen to `n`. */
  function CountFor(ls: seq<Listener>, n: EventName): nat {
    multiset(seq(|ls|, k requires 0 <= k < |ls| => ls[k].event))[n]
  }

  /** removeHandlers: `off` for all five event names, in this order. */
  const OffAll: seq<Call> := [Off(FlipName), Off(ChangeOrientationName), Off(ChangeStateName), Off(InitName), Off(UpdateName)]

  /** The `on` calls that register `ls`, in order. */
  function OnAll(ls: seq<Listener>): (r: seq<Call>)
    ensures |r| == |ls| && forall k :: 0 <= k < |ls| ==> r[k] == On(ls[k])
  {
    seq(|ls|, k requires 0 <= k < |ls| => On(ls[k]))
  }

  lemma ListenersSnoc(a: seq<Call>, c: Call)
    ensures c.On? ==> Listeners(a + [c]) == Listeners(a) + [c.listener]
    ensures c.Off? ==> Listeners(a + [c]) == Without(Listeners(a), c.event)
    ensures !c.On? && !c.Off? ==> Listeners(a + [c]) == Listeners(a)
  {
    assert (a + [c])[..|a + [c]| - 1] == a;
  }

  /** Registering listeners appends them, in order, to those already there. */
  lemma {:induction false} ListenersOnAll(a: seq<Call>, ls: seq<Listener>)
    ensures Listeners(a + OnAll(ls)) == Listeners(a) + ls
    decreases |ls|
  {
    if ls == [] {
      assert a + OnAll(ls) == a;
    } else {
      var init := ls[..|ls| - 1];
      ListenersOnAll(a, init);
      assert OnAll(ls) == OnAll(init) + [On(ls[|ls| - 1])];
      assert a + OnAll(ls) == (a + OnAll(init)) + [On(ls[|ls| - 1])];
      ListenersSnoc(a + OnAll(init), On(ls[|ls| - 1]));
      assert ls == init + [ls[|ls| - 1]];
    }
  }

  /** A call other than on/off leaves the listeners as they were. */
  lemma ListenersOther(a: seq<Call>, c: Call)
    requires !c.On? && !c.Off?
    ensures Listeners(a + [c]) == Listeners(a)
  {
    ListenersSnoc(a, c);
  }

  /** Counting the listeners of `m` splits over a leading listener. */
  lemma CountCons(l: Listener, ls: seq<Listener>, m: EventName)
    ensures CountFor([l] + ls, m) == (if l.event == m then 1 else 0) + CountFor(ls, m)
  {
    var es := seq(|ls|, k requires 0 <= k < |ls| => ls[k].event);
    assert seq(|[l] + ls|, k requires 0 <= k < |[l] + ls| => ([l] + ls)[k].event) == [l.event] + es;
  }

  /** `off(n)` keeps exactly the listeners of other events, every copy of each. */
  lemma {:induction false} WithoutMembers(ls: seq<Listener>, n: EventName)
    ensures forall l :: l in Without(ls, n) <==> l in ls && l.event != n
    ensures forall m :: CountFor(Without(ls, n), m) == if m == n then 0 else CountFor(ls, m)
  {
    if ls == [] {
      forall m ensures CountFor(Without(ls, n), m) == if m == n then 0 else CountFor(ls, m) {
        assert seq(|ls|, k requires 0 <= k < |ls| => ls[k].event) == [];
      }
    } else {
      WithoutMembers(ls[1..], n);
      assert ls == [ls[0]] + ls[1..];
      var rest := Without(ls[1..], n);
      forall m ensures CountFor(Without(ls, n), m) == if m == n then 0 else CountFor(ls, m) {
        CountCons(ls[0], ls[1..], m);
        if ls[0].event != n {
          CountCons(ls[0], rest, m);
        } else {
          assert Without(ls, n) == rest;
        }
      }
    }
  }

  /** A sequence is empty exactly when nothing is in it. */
  lemma NoMemberEmpty(ls: seq<Listener>)
    ensures ls == [] <==> forall l :: l !in ls
  {
    if ls != [] {
      assert ls[0] in ls;
    }
  }

  /** Dropping the listeners of all five events leaves none. */
  lemma WithoutEveryEvent(ls: seq<Listener>)
    ensures Without(Without(Without(Without(Without(ls, FlipName), ChangeOrientationName),
                    ChangeStateName), InitName), UpdateName) == []
  {
    var r1 := Without(ls, FlipName);
    var r2 := Without(r1, ChangeOrientationName);
    var r3 := Without(r2, ChangeStateName);
    var r4 := Without(r3, InitName);
    var r5 := Without(r4, UpdateName);
    WithoutMembers(ls, FlipName);
    WithoutMembers(r1, ChangeOrientationName);
    WithoutMembers(r2, ChangeStateName);
    WithoutMembers(r3, InitName);
    WithoutMembers(r4, UpdateName);
    NoMemberEmpty(r5);
  }

  /** After removeHandlers no listener is left, whatever was registered before. */
  lemma {:induction false} ListenersAfterOffAll(a: seq<Call>)
    ensures Listeners(a + OffAll) == []
  {
    var s1 := a + [Off(FlipName)];
    var s2 := s1 + [Off(ChangeOrientationName)];
    var s3 := s2 + [Off(ChangeStateName)];
    var s4 := s3 + [Off(InitName)];
    var s5 := s4 + [Off(UpdateName)];
    assert s5 == a + OffAll;
    ListenersSnoc(a, Off(FlipName));
    ListenersSnoc(s1, Off(ChangeOrientationName));
    ListenersSnoc(s2, Off(ChangeStateName));
    ListenersSnoc(s3, Off(InitName));
    ListenersSnoc(s4, Off(UpdateName));
    WithoutEveryEvent(Listeners(a));
  }

  /** One deferred callback that runs right after removeHandlers leaves exactly the
      listeners of that run of setHandlers: one per subscribed event. */
  lemma CleanResubscription(a: seq<Call>, load: Call, cb: Callbacks)
    requires load.LoadFromHtml? || load.UpdateFromHtml?
    ensures Listeners(a + OffAll + [load] + OnAll(Subscriptions(cb))) == Subscriptions(cb)
  {
    ListenersAfterOffAll(a);
    ListenersOther(a + OffAll, load);
    ListenersOnAll(a + OffAll + [load], Subscriptions(cb));
  }

  /** Two deferred callbacks pending at once each run setHandlers with no `off` in between,
      so every listener is registered twice: the wrapper does not prevent duplicates. */
  lemma TwoPendingFramesDuplicate(a: seq<Call>, load1: Call, load2: Call, cb: Callbacks)
    requires load1.LoadFromHtml? || load1.UpdateFromHtml?
    requires load2.LoadFromHtml? || load2.UpdateFromHtml?
    ensures Listeners(a + OffAll + [load1] + OnAll(Subscriptions(cb)) + [load2] + OnAll(Subscriptions(cb)))
            == Subscriptions(cb) + Subscriptions(cb)
  {
    var first := a + OffAll + [load1] + OnAll(Subscriptions(cb));
    CleanResubscription(a, load1, cb);
    ListenersOther(first, load2);
    ListenersOnAll(first + [load2], Subscriptions(cb));
  }

  /** The page-flip engine as the wrapper sees it. `calls` records what the wrapper asked of
      it; the other fields are its answers to getFlipController (whether it has loaded
      pages), getCurrentPageIndex, getPageCount, getOrientation and getState, which only the
      engine changes. The model states nothing about what the engine does with a call. */
  class Engine {
    const container: NodeId
    var calls: seq<Call>
    var controller: bool
    var pageIndex: int
    var pageCount: int
    var orientation: PageOrientation
    var state: PageState

    constructor (container: NodeId)
      ensures this.container == container && calls == [] && !controller
    {
      this.container := container;
      calls := [];
      controller := false;
      pageIndex, pageCount := 0, 0;
      orientation, state := Landscape, Read;
    }

    method Call(c: Call)
      modifies this
      ensures calls == old(calls) + [c]
    {
      calls := calls + [c];
    }
  }

  /** A deferred load callback: the compacted slots and the callbacks of the effect run that
      scheduled it. */
  datatype Frame = Frame(refs: seq<NodeId>, callbacks: Callbacks)

  class Book {
    /** The materialized page set (`pages` state). */
    var pages: seq<Descriptor>
    /** The positional slot array of mounted page nodes (`childRef.current`). */
    var slots: seq<Option<NodeId>>
    /** The engine reference (`pageFlip.current`). */
    var engine: Engine?
    /** The container node (`htmlElementRef.current`). */
    const container: Option<NodeId>
    /** currentPage, pageCount and orientation. */
    var mirror: Mirror
    /** The data-density attribute written on each mounted node by its ref callback. */
    var domDensity: map<NodeId, PageDensity>
    /** Next-paint-frame callbacks not yet run, oldest first. */
    var pending: seq<Frame>
    /** Events handed on to the caller's callbacks, in order. */
    var forwarded: seq<Event>
    /** How many engines this component has constructed. */
    ghost var constructions: nat
    /** Set by the unmount cleanup; no effect runs afterwards. */
    ghost var unmounted: bool

    /** At most one engine per mount; while mounted the reference is set exactly when one
        was constructed, and after unmount it is null. */
    ghost predicate Valid()
      reads this
    {
      constructions <= 1 &&
      (unmounted ==> engine == null) &&
      (!unmounted ==> (engine != null <==> constructions == 1)) &&
      (engine != null ==> container == Some(engine.container)) &&
      (forall i :: 0 <= i < |pages| ==> pages[i].index == i)
    }

    constructor (container: Option<NodeId>)
      ensures Valid() && !unmounted && constructions == 0
      ensures this.container == container && engine == null
      ensures pages == [] && slots == [] && pending == [] && forwarded == []
      ensures mirror == InitialMirror && domDensity == map[]
    {
      this.container := container;
      pages, slots, engine := [], [], null;
      mirror := InitialMirror;
      domDensity, pending, forwarded := map[], [], [];
      constructions, unmounted := 0, false;
    }

    // -------------------------------------------------------------------------
    // Engine-side helpers

    /** refreshOnPageDelete: clear the engine, if there is one. */
    method RefreshOnPageDelete()
      modifies engine
      ensures engine != null ==> engine.calls == old(engine.calls) + [ClearCall]
    {
      if engine != null {
        engine.Call(ClearCall);
      }
    }

    /** removeHandlers: `off` for the five event names, if there is an engine. */
    method RemoveHandlers()
      modifies engine
      ensures engine != null ==> engine.calls == old(engine.calls) + OffAll
    {
      if engine != null {
        engine.Call(Off(FlipName));
        engine.Call(Off(ChangeOrientationName));
        engine.Call(Off(ChangeStateName));
        engine.Call(Off(InitName));
        engine.Call(Off(UpdateName));
      }
    }

    /** setHandlers: register the mirroring listeners always, and the 'changeState' and
        'update' listeners only when their callback is supplied. */
    method SetHandlers(cb: Callbacks)
      modifies engine
      ensures engine != null ==> engine.calls == old(engine.calls) + OnAll(Subscriptions(cb))
    {
      if engine != null {
        engine.Call(On(Listener(FlipName, cb.onFlip)));
        engine.Call(On(Listener(ChangeOrientationName, cb.onChangeOrientation)));
        if cb.onChangeState {
          engine.Call(On(Listener(ChangeStateName, true)));
        }
        engine.Call(On(Listener(InitName, cb.onInit)));
        if cb.onUpdate {
          engine.Call(On(Listener(UpdateName, true)));
        }
      }
    }

    // -------------------------------------------------------------------------
    // Effects

    /** The children effect: reset the slot array, materialize the children (when the
        children prop is present) and decide on the page set. */
    method ChildrenEffect(children: Option<seq<Child>>, showCover: bool, renderOnlyPageLengthChange: bool)
      requires Valid() && !unmounted
      modifies this, engine
      ensures Valid() && !unmounted && constructions == old(constructions)
      ensures slots == [] && engine == old(engine)
      ensures children.None? ==> pages == old(pages) && (engine != null ==> engine.calls == old(engine.calls))
      ensures children.Some? ==>
                var list := Materialize(children.value, showCover);
                var d := Decide(renderOnlyPageLengthChange, |old(pages)|, |list|, engine != null);
                pages == (if d.replace then list else old(pages)) &&
                (engine != null ==> engine.calls == old(engine.calls) + (if d.clear then [ClearCall] else []))
      ensures mirror == old(mirror) && domDensity == old(domDensity)
      ensures pending == old(pending) && forwarded == old(forwarded)
    {
      slots := [];
      if children.Some? {
        var list := Materialize(children.value, showCover);
        if !renderOnlyPageLengthChange || |pages| != |list| {
          if |list| < |pages| {
            RefreshOnPageDelete();
          }
          pages := list;
        }
      }
    }

    /** The children effect as evidently intended: the slot array is reset only when the
        page set is replaced, since only then are the pages rendered anew and their ref
        callbacks run again. A kept page set keeps the nodes its pages mounted. */
    method ChildrenEffectKeepingSlots(children: Option<seq<Child>>, showCover: bool, renderOnlyPageLengthChange: bool)
      requires Valid() && !unmounted
      modifies this, engine
      ensures Valid() && !unmounted && constructions == old(constructions) && engine == old(engine)
      ensures children.None? ==>
                pages == old(pages) && slots == old(slots) && (engine != null ==> engine.calls == old(engine.calls))
      ensures children.Some? ==>
                var list := Materialize(children.value, showCover);
                var d := Decide(renderOnlyPageLengthChange, |old(pages)|, |list|, engine != null);
                pages == (if d.replace then list else old(pages)) &&
                slots == (if d.replace then [] else old(slots)) &&
                (engine != null ==> engine.calls == old(engine.calls) + (if d.clear then [ClearCall] else []))
      ensures mirror == old(mirror) && domDensity == old(domDensity)
      ensures pending == old(pending) && forwarded == old(forwarded)
    {
      if children.Some? {
        var list := Materialize(children.value, showCover);
        if !renderOnlyPageLengthChange || |pages| != |list| {
          if |list| < |pages| {
            RefreshOnPageDelete();
          }
          pages := list;
          slots := [];
        }
      }
    }

    /** The ref callback of page `i`, called with its mounted node: write the resolved
        density on the node and record the node in the slot of the page's ordinal. */
    method Mount(i: nat, node: NodeId)
      requires Valid() && !unmounted && i < |pages|
      modifies this
      ensures Valid() && !unmounted && constructions == old(constructions)
      ensures pages == old(pages) && engine == old(engine) && mirror == old(mirror)
      ensures slots == SetSlot(old(slots), i, node)
      ensures domDensity == old(domDensity)[node := pages[i].density]
      ensures pending == old(pending) && forwarded == old(forwarded)
    {
      var d := pages[i];
      domDensity := domDensity[node := d.density];
      slots := SetSlot(slots, d.index, node);
    }

    /** The init/update effect: when there are pages and at least one mounted slot, drop
        the old listeners, construct the engine if there is a container and none exists
        yet, and defer the load to the next paint frame. */
    method InitEffect(cb: Callbacks)
      requires Valid() && !unmounted
      modifies this, engine
      ensures Valid() && !unmounted
      ensures pages == old(pages) && slots == old(slots) && mirror == old(mirror)
      ensures domDensity == old(domDensity) && forwarded == old(forwarded)
      ensures !(|pages| > 0 && |Compact(slots)| > 0) ==>
                engine == old(engine) && pending == old(pending) && constructions == old(constructions) &&
                (engine != null ==> engine.calls == old(engine.calls))
      ensures |pages| > 0 && |Compact(slots)| > 0 && old(engine) != null ==>
                engine == old(engine) && constructions == old(constructions) &&
                engine.calls == old(engine.calls) + OffAll &&
                pending == old(pending) + [Frame(Compact(slots), cb)]
      ensures |pages| > 0 && |Compact(slots)| > 0 && old(engine) == null && container.Some? ==>
                engine != null && fresh(engine) && engine.container == container.value &&
                engine.calls == [] && !engine.controller && constructions == old(constructions) + 1 &&
                pending == old(pending) + [Frame(Compact(slots), cb)]
      ensures |pages| > 0 && |Compact(slots)| > 0 && old(engine) == null && container.None? ==>
                engine == null && pending == old(pending) && constructions == old(constructions)
    {
      var validRefs := Compact(slots);
      if |pages| > 0 && |validRefs| > 0 {
        RemoveHandlers();
        if container.Some? && engine == null {
          engine := new Engine(container.value);
          constructions := constructions + 1;
        }
        if engine != null {
          pending := pending + [Frame(validRefs, cb)];
        } else {
          SetHandlers(cb);
        }
      }
    }

    /** The init/update effect's cleanup, run before each re-run and on unmount. */
    method InitEffectCleanup()
      modifies engine
      ensures engine != null ==> engine.calls == old(engine.calls) + OffAll
    {
      RemoveHandlers();
    }

    /** The oldest deferred callback fires: if the engine is still there, load the pages
        (no flip controller yet) or update them, then register the listeners. */
    method RunFrame()
      requires |pending| > 0
      modifies this, engine
      ensures pending == old(pending)[1..]
      ensures engine == old(engine) && pages == old(pages) && slots == old(slots)
      ensures mirror == old(mirror) && domDensity == old(domDensity) && forwarded == old(forwarded)
      ensures constructions == old(constructions) && unmounted == old(unmounted)
      ensures engine != null ==>
                var f := old(pending)[0];
                engine.calls == old(engine.calls)
                  + [if old(engine.controller) then UpdateFromHtml(f.refs) else LoadFromHtml(f.refs)]
                  + OnAll(Subscriptions(f.callbacks))
    {
      var f := pending[0];
      pending := pending[1..];
      if engine != null {
        if !engine.controller {
          engine.Call(LoadFromHtml(f.refs));
        } else {
          engine.Call(UpdateFromHtml(f.refs));
        }
        SetHandlers(f.callbacks);
      }
    }

    /** The unmount cleanup: destroy the engine, if any, and null the reference. */
    method Unmount()
      requires Valid()
      modifies this, engine
      ensures Valid() && unmounted && engine == null
      ensures old(engine) != null ==> old(engine).calls == old(engine.calls) + [DestroyCall]
      ensures constructions == old(constructions) && pending == old(pending)
      ensures pages == old(pages) && slots == old(slots) && mirror == old(mirror)
      ensures domDensity == old(domDensity) && forwarded == old(forwarded)
    {
      if engine != null {
        engine.Call(DestroyCall);
        engine := null;
      }
      unmounted := true;
    }

    // -------------------------------------------------------------------------
    // Event bridge

    /** The engine `from` calls the registered listener `l` with event `e`: the mirrored
        state follows the event whether or not a caller callback exists, and the event is
        handed on when one does. */
    method Deliver(from: Engine, l: Listener, e: Event)
      requires l in Listeners(from.calls) && l.event == e.Name()
      modifies this
      ensures mirror == Apply(old(mirror), e, from.pageCount, from.pageIndex)
      ensures forwarded == old(forwarded) + (if l.forward then [e] else [])
      ensures engine == old(engine) && pages == old(pages) && slots == old(slots)
      ensures domDensity == old(domDensity) && pending == old(pending)
      ensures constructions == old(constructions) && unmounted == old(unmounted)
    {
      match e {
        case FlipEvent(p) =>
          mirror := mirror.(currentPage := p);
        case OrientationEvent(o) =>
          mirror := mirror.(orientation := o);
        case InitEvent(_) =>
          mirror := mirror.(pageCount := from.pageCount);
          mirror := mirror.(currentPage := from.pageIndex);
        case StateEvent(_) =>
        case UpdateEvent(_) =>
      }
      if l.forward {
        forwarded := forwarded + [e];
      }
    }

    // -------------------------------------------------------------------------
    // Imperative handle and controls

    /** flipNext, flipPrev, flip and turnToPage of the handle, and the two control buttons:
        passed to the engine, or nothing at all while there is none. */
    method Navigate(req: NavRequest)
      modifies engine
      ensures engine != null ==> engine.calls == old(engine.calls) + [NavCall(req)]
    {
      if engine != null {
        engine.Call(NavCall(req));
      }
    }

    /** getCurrentPageIndex: the engine's answer, or 0 without an engine. */
    function CurrentPageIndex(): (r: int)
      reads this, engine
      ensures engine == null ==> r == 0
      ensures engine != null ==> r == engine.pageIndex
    {
      if engine == null then 0 else engine.pageIndex
    }

    /** getPageCount: the engine's answer, or 0 without an engine. */
    function PageCount(): (r: int)
      reads this, engine
      ensures engine == null ==> r == 0
      ensures engine != null ==> r == engine.pageCount
    {
      if engine == null then 0 else engine.pageCount
    }

    /** getOrientation: the engine's answer, or null without an engine. */
    function Orientation(): (r: Option<PageOrientation>)
      reads this, engine
      ensures r.None? <==> engine == null
      ensures engine != null ==> r == Some(engine.orientation)
    {
      if engine == null then None else Some(engine.orientation)
    }

    /** getState: the engine's answer, or null without an engine. */
    function State(): (r: Option<PageState>)
      reads this, engine
      ensures r.None? <==> engine == null
      ensures engine != null ==> r == Some(engine.state)
    {
      if engine == null then None else Some(engine.state)
    }

    /** isPrevDisabled: for pages >= 0, no page comes before the current one. */
    predicate IsPrevDisabled(): (r: bool)
      reads this
      ensures mirror.currentPage >= 0 ==> (r <==> mirror.currentPage < 1)
      ensures mirror.currentPage < 0 ==> !r
    {
      PrevDisabled(mirror)
    }

    /** isNextDisabled: no page comes after the current one. */
    predicate IsNextDisabled(): (r: bool)
      reads this
      ensures r <==> mirror.currentPage + 1 >= mirror.pageCount
    {
      NextDisabled(mirror)
    }
  }
}
