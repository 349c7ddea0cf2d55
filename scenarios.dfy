/** Runs of the component from mount: effects, ref callbacks, paint frames and engine events
    as explicit calls. Most runs leave out the effect re-runs that dependency arrays add;
    the two length-only mounts at the end follow the host framework's full order. */
module Scenarios {
  import opened Types
  import opened Materialization
  import opened Bridge
  import opened Lifecycle

  const NoCallbacks := Callbacks(false, false, false, false, false)
  const PlainPage := ElementChild(Element(PageKind, None))

  /** Three plain pages mounted as nodes 1, 2, 3 in a component whose container is node 100. */
  method MountThree() returns (book: Book)
    ensures fresh(book) && book.Valid() && !book.unmounted
    ensures book.engine != null && fresh(book.engine) && book.engine.container == 100
    ensures book.engine.calls == [LoadFromHtml([1, 2, 3])] + OnAll(Subscriptions(NoCallbacks))
    ensures |book.pages| == 3 && book.mirror == InitialMirror && book.pending == [] && book.forwarded == []
  {
    var children := [PlainPage, PlainPage, PlainPage];
    CompactFull(AsElements(children));
    book := new Book(Some(100));
    book.ChildrenEffect(Some(children), false, false);
    book.Mount(0, 1);
    book.Mount(1, 2);
    book.Mount(2, 3);
    MountedInPageOrder(book.slots, [1, 2, 3]);
    book.InitEffect(NoCallbacks);
    book.RunFrame();
    assert [] + [LoadFromHtml([1, 2, 3])] == [LoadFromHtml([1, 2, 3])];
  }

  /** After the first load the listeners are exactly those setHandlers registered. */
  lemma ListenersAfterFirstLoad(nodes: seq<NodeId>, cb: Callbacks)
    ensures Listeners([LoadFromHtml(nodes)] + OnAll(Subscriptions(cb))) == Subscriptions(cb)
  {
    ListenersOther([], LoadFromHtml(nodes));
    assert [] + [LoadFromHtml(nodes)] == [LoadFromHtml(nodes)];
    ListenersOnAll([LoadFromHtml(nodes)], Subscriptions(cb));
  }

  /** Three pages; 'init' reports 3 pages at index 0; a 'flip' to page 1 follows. The
      mirrored state reads page 1 of 3, and no caller callback sees anything. */
  method InitThenFlipFromMount() returns (m: Mirror, prevDisabled: bool, nextDisabled: bool, forwarded: seq<Event>)
    ensures m == Mirror(1, 3, Landscape)
    ensures !prevDisabled && !nextDisabled
    ensures forwarded == []
  {
    var book := MountThree();
    var engine := book.engine;
    ListenersAfterFirstLoad([1, 2, 3], NoCallbacks);
    assert Subscriptions(NoCallbacks)
        == [Listener(FlipName, false), Listener(ChangeOrientationName, false), Listener(InitName, false)];
    engine.pageCount, engine.pageIndex := 3, 0;
    book.Deliver(engine, Listener(InitName, false), InitEvent(0));
    book.Deliver(engine, Listener(FlipName, false), FlipEvent(1));
    m, prevDisabled, nextDisabled, forwarded := book.mirror, book.IsPrevDisabled(), book.IsNextDisabled(), book.forwarded;
  }

  /** One page mounted, and the init effect run twice before any paint frame: the engine
      is constructed once and two deferred callbacks wait. */
  method MountOneRunTwice() returns (book: Book)
    ensures fresh(book) && book.engine != null && fresh(book.engine)
    ensures book.engine.calls == OffAll + OffAll
    ensures book.pending == [Frame([1], NoCallbacks), Frame([1], NoCallbacks)]
    ensures book.constructions == 1
  {
    var children := [PlainPage];
    CompactFull(AsElements(children));
    book := new Book(Some(100));
    book.ChildrenEffect(Some(children), false, false);
    book.Mount(0, 1);
    MountedInPageOrder(book.slots, [1]);
    book.InitEffect(NoCallbacks);
    book.InitEffectCleanup();
    book.InitEffect(NoCallbacks);
    assert [] + OffAll + OffAll == OffAll + OffAll;
  }

  /** The init effect re-runs before the first paint frame fires: two deferred callbacks are
      pending and each registers the listeners, so 'flip' ends up with two listeners. */
  method DuplicateFlipListeners() returns (flipListeners: nat)
    ensures flipListeners == 2
  {
    var book := MountOneRunTwice();
    var subs := Subscriptions(NoCallbacks);
    var c1 := book.engine.controller;
    book.RunFrame();
    var load1 := if c1 then UpdateFromHtml([1]) else LoadFromHtml([1]);
    var c2 := book.engine.controller;
    book.RunFrame();
    var load2 := if c2 then UpdateFromHtml([1]) else LoadFromHtml([1]);
    assert book.engine.calls == OffAll + OffAll + [load1] + OnAll(subs) + [load2] + OnAll(subs);
    assert OffAll + OffAll == OffAll + OffAll;
    TwoPendingFramesDuplicate(OffAll, load1, load2, NoCallbacks);
    assert subs == [Listener(FlipName, false), Listener(ChangeOrientationName, false), Listener(InitName, false)];
    assert seq(|subs + subs|, k requires 0 <= k < |subs + subs| => (subs + subs)[k].event)
        == [FlipName, ChangeOrientationName, InitName, FlipName, ChangeOrientationName, InitName];
    flipListeners := CountFor(Listeners(book.engine.calls), FlipName);
  }

  /** The ref callbacks of five rendered pages run with nodes 1 to 5. */
  method MountNodesOneToFive(book: Book)
    requires book.Valid() && !book.unmounted && |book.pages| == 5 && book.slots == []
    modifies book
    ensures book.Valid() && !book.unmounted && book.slots == [Some(1), Some(2), Some(3), Some(4), Some(5)]
    ensures book.pages == old(book.pages) && book.engine == old(book.engine) && book.pending == old(book.pending)
    ensures book.constructions == old(book.constructions)
  {
    book.Mount(0, 1);
    assert book.slots == [Some(1)];
    book.Mount(1, 2);
    assert book.slots == [Some(1), Some(2)];
    book.Mount(2, 3);
    assert book.slots == [Some(1), Some(2), Some(3)];
    book.Mount(3, 4);
    assert book.slots == [Some(1), Some(2), Some(3), Some(4)];
    book.Mount(4, 5);
  }

  /** Five plain pages mounted as nodes 1 to 5 and loaded. */
  method MountFive() returns (book: Book)
    ensures fresh(book) && book.Valid() && !book.unmounted
    ensures book.engine != null && fresh(book.engine)
    ensures book.engine.calls == [LoadFromHtml([1, 2, 3, 4, 5])] + OnAll(Subscriptions(NoCallbacks))
    ensures |book.pages| == 5 && book.pending == []
  {
    var five := [PlainPage, PlainPage, PlainPage, PlainPage, PlainPage];
    CompactFull(AsElements(five));
    book := new Book(Some(100));
    book.ChildrenEffect(Some(five), false, false);
    MountNodesOneToFive(book);
    MountedInPageOrder(book.slots, [1, 2, 3, 4, 5]);
    book.InitEffect(NoCallbacks);
    book.RunFrame();
    assert [] + [LoadFromHtml([1, 2, 3, 4, 5])] == [LoadFromHtml([1, 2, 3, 4, 5])];
  }

  /** Five pages shrink to three: the children effect clears the engine, and only then does
      the next paint frame reload (or update) it from the three remaining nodes. */
  method ShrinkClearsFirst() returns (calls: seq<Call>, reload: Call)
    ensures reload == LoadFromHtml([1, 2, 3]) || reload == UpdateFromHtml([1, 2, 3])
    ensures calls == [LoadFromHtml([1, 2, 3, 4, 5])] + OnAll(Subscriptions(NoCallbacks))
                     + [ClearCall] + OffAll + OffAll + [reload] + OnAll(Subscriptions(NoCallbacks))
  {
    var three := [PlainPage, PlainPage, PlainPage];
    CompactFull(AsElements(three));
    var book := MountFive();
    var loaded := book.engine.calls;
    book.ChildrenEffect(Some(three), false, false);
    assert book.engine.calls == loaded + [ClearCall];
    book.Mount(0, 1);
    book.Mount(1, 2);
    book.Mount(2, 3);
    MountedInPageOrder(book.slots, [1, 2, 3]);
    book.InitEffectCleanup();
    book.InitEffect(NoCallbacks);
    assert book.pending == [Frame([1, 2, 3], NoCallbacks)];
    var c := book.engine.controller;
    book.RunFrame();
    reload := if c then UpdateFromHtml([1, 2, 3]) else LoadFromHtml([1, 2, 3]);
    calls := book.engine.calls;
  }

  /** A flip requested through the handle before any engine exists does nothing. */
  method FlipBeforeReady() returns (hasEngine: bool, index: int, count: int)
    ensures !hasEngine && index == 0 && count == 0
  {
    var book := new Book(Some(100));
    book.Navigate(FlipTo(2, None));
    hasEngine, index, count := book.engine != null, book.CurrentPageIndex(), book.PageCount();
  }

  /** Unmounting runs the init effect's cleanup first (effects clean up in declaration order),
      which drops the listeners, and then destroys the engine once; a second unmount cleanup
      finds no engine and calls nothing. */
  method UnmountTwice() returns (calls: seq<Call>, hasEngine: bool)
    ensures calls == [LoadFromHtml([1, 2, 3])] + OnAll(Subscriptions(NoCallbacks)) + OffAll + [DestroyCall]
    ensures !hasEngine
  {
    var book := MountThree();
    var engine := book.engine;
    book.InitEffectCleanup();
    book.Unmount();
    book.Unmount();
    calls, hasEngine := engine.calls, book.engine != null;
  }

  /** Mount with `renderOnlyPageLengthChange` set, in the host framework's order. The first
      commit stores the three pages (the init effect sees no mounted node yet). The second
      commit mounts the nodes and runs the init effect's cleanup before any effect body; then
      the children effect re-runs because the page count changed, resets the slot array and
      keeps the page set; so the init effect finds no
      mounted node. Nothing re-renders afterwards, and the engine is never constructed. */
  method LengthOnlyMountAsWritten() returns (hasEngine: bool, pendingFrames: nat)
    ensures !hasEngine && pendingFrames == 0
  {
    var three := [PlainPage, PlainPage, PlainPage];
    CompactFull(AsElements(three));
    var book := new Book(Some(100));
    book.ChildrenEffect(Some(three), false, true);
    book.InitEffect(NoCallbacks);
    book.Mount(0, 1);
    book.Mount(1, 2);
    book.Mount(2, 3);
    book.InitEffectCleanup();
    book.ChildrenEffect(Some(three), false, true);
    book.InitEffect(NoCallbacks);
    hasEngine, pendingFrames := book.engine != null, |book.pending|;
  }

  /** The same mount with the corrected children effect: the re-run keeps the mounted nodes,
      so the engine is constructed and the three nodes wait for the next paint frame. */
  method LengthOnlyMountCorrected() returns (hasEngine: bool, pending: seq<Frame>)
    ensures hasEngine && pending == [Frame([1, 2, 3], NoCallbacks)]
  {
    var three := [PlainPage, PlainPage, PlainPage];
    CompactFull(AsElements(three));
    var book := new Book(Some(100));
    book.ChildrenEffectKeepingSlots(Some(three), false, true);
    book.InitEffect(NoCallbacks);
    book.Mount(0, 1);
    book.Mount(1, 2);
    book.Mount(2, 3);
    book.InitEffectCleanup();
    book.ChildrenEffectKeepingSlots(Some(three), false, true);
    MountedInPageOrder(book.slots, [1, 2, 3]);
    book.InitEffect(NoCallbacks);
    hasEngine, pending := book.engine != null, book.pending;
  }
}
