/** The event bridge of MagazineBook as values: which listeners it registers, what each
    handler does to the mirrored state, and the control predicates derived from that state. */
module Bridge {
  import opened Types

  /** The mirrored state of the component: currentPage, pageCount and orientation. */
  datatype Mirror = Mirror(currentPage: int, pageCount: int, orientation: PageOrientation)

  /** Which of the five caller callbacks (onFlip, onChangeOrientation, onChangeState,
      onInit, onUpdate) the caller supplied. */
  datatype Callbacks = Callbacks(onFlip: bool, onChangeOrientation: bool, onChangeState: bool,
                                 onInit: bool, onUpdate: bool)

  /** A handler registered with the engine: the event it listens to and whether it
      forwards the event to a caller callback. */
  datatype Listener = Listener(event: EventName, forward: bool)

  const AllEvents: set<EventName> := {FlipName, ChangeOrientationName, ChangeStateName, InitName, UpdateName}

  /** Whether the caller supplied the callback for `n`. */
  function Supplied(cb: Callbacks, n: EventName): bool {
    match n
    case FlipName => cb.onFlip
    case ChangeOrientationName => cb.onChangeOrientation
    case ChangeStateName => cb.onChangeState
    case InitName => cb.onInit
    case UpdateName => cb.onUpdate
  }

  /** The events a sequence of listeners listens to. */
  function EventsOf(ls: seq<Listener>): set<EventName> {
    set l | l in ls :: l.event
  }

  /** The listeners one run of setHandlers registers, in registration order. */
  function Subscriptions(cb: Callbacks): (r: seq<Listener>)
    ensures FlipName in EventsOf(r) && ChangeOrientationName in EventsOf(r) && InitName in EventsOf(r)
    ensures ChangeStateName in EventsOf(r) <==> cb.onChangeState
    ensures UpdateName in EventsOf(r) <==> cb.onUpdate
    ensures forall k :: 0 <= k < |r| ==> r[k].forward == Supplied(cb, r[k].event)
    ensures forall k, l :: 0 <= k < l < |r| ==> r[k].event != r[l].event
  {
    var flip, orientation, init := Listener(FlipName, cb.onFlip),
      Listener(ChangeOrientationName, cb.onChangeOrientation), Listener(InitName, cb.onInit);
    match (cb.onChangeState, cb.onUpdate)
    case (true, true) => [flip, orientation, Listener(ChangeStateName, true), init, Listener(UpdateName, true)]
    case (true, false) => [flip, orientation, Listener(ChangeStateName, true), init]
    case (false, true) => [flip, orientation, init, Listener(UpdateName, true)]
    case (false, false) => [flip, orientation, init]
  }

  /** The mirrored state before any event: page 0 of 0, landscape. */
  const InitialMirror: Mirror := Mirror(0, 0, Landscape)

  /** What the component's handler for `e` does to the mirrored state. `engineCount` and
      `engineIndex` are the engine's answers to getPageCount and getCurrentPageIndex at
      that moment: 'init' takes both from the engine, never from its payload. */
  function Apply(m: Mirror, e: Event, engineCount: int, engineIndex: int): (r: Mirror)
    ensures e.FlipEvent? ==> r.currentPage == e.page && r.pageCount == m.pageCount && r.orientation == m.orientation
    ensures e.OrientationEvent? ==> r.orientation == e.orientation && r.currentPage == m.currentPage && r.pageCount == m.pageCount
    ensures e.InitEvent? ==> r.currentPage == engineIndex && r.pageCount == engineCount && r.orientation == m.orientation
    ensures e.StateEvent? || e.UpdateEvent? ==> r == m
  {
    match e
    case FlipEvent(p) => m.(currentPage := p)
    case OrientationEvent(o) => m.(orientation := o)
    case InitEvent(_) => m.(currentPage := engineIndex, pageCount := engineCount)
    case StateEvent(_) => m
    case UpdateEvent(_) => m
  }

  /** An event as the component receives it, with the engine's answers to getPageCount
      and getCurrentPageIndex at that moment. */
  datatype Tick = Tick(event: Event, engineCount: int, engineIndex: int)

  /** The mirrored state after a run of events, each read against the engine's answers
      at its own moment. */
  function MirrorRun(m: Mirror, ts: seq<Tick>): Mirror
    decreases |ts|
  {
    if ts == [] then m else MirrorRun(Apply(m, ts[0].event, ts[0].engineCount, ts[0].engineIndex), ts[1..])
  }

  /** The 'init' payload never reaches the mirrored state. */
  lemma InitIgnoresPayload(m: Mirror, p: int, q: int, engineCount: int, engineIndex: int)
    ensures Apply(m, InitEvent(p), engineCount, engineIndex) == Apply(m, InitEvent(q), engineCount, engineIndex)
  {
  }

  /** The previous button is disabled on the first page: for pages >= 0, exactly when no
      page comes before the current one; never below page 0. */
  predicate PrevDisabled(m: Mirror): (r: bool)
    ensures m.currentPage >= 0 ==> (r <==> m.currentPage - 1 < 0)
    ensures m.currentPage < 0 ==> !r
  {
    m.currentPage == 0
  }

  /** The next button is disabled exactly when no page comes after the current one: on the
      last page, and whenever no page is known. */
  predicate NextDisabled(m: Mirror): (r: bool)
    ensures r <==> m.currentPage + 1 >= m.pageCount
  {
    m.currentPage >= m.pageCount - 1
  }

  /** Both buttons start disabled, and 'next' stays disabled while the page count is 0. */
  lemma ControlsWithoutPages(m: Mirror)
    requires m.pageCount == 0 && m.currentPage >= 0
    ensures NextDisabled(m)
    ensures PrevDisabled(InitialMirror) && NextDisabled(InitialMirror)
  {
  }

  /** After 'init' with an engine index inside the book, 'next' is disabled exactly on the
      last page and 'prev' exactly on the first. */
  lemma ControlsAfterInit(m: Mirror, p: int, engineCount: int, engineIndex: int)
    requires 0 <= engineIndex < engineCount
    ensures NextDisabled(Apply(m, InitEvent(p), engineCount, engineIndex)) <==> engineIndex == engineCount - 1
    ensures PrevDisabled(Apply(m, InitEvent(p), engineCount, engineIndex)) <==> engineIndex == 0
  {
  }

  /** The mounting scenario: 'init' reports 3 pages at index 0, then 'flip' to 1. */
  lemma InitThenFlip(p: int)
    ensures Apply(Apply(InitialMirror, InitEvent(p), 3, 0), FlipEvent(1), 3, 0) == Mirror(1, 3, Landscape)
    ensures PrevDisabled(Apply(InitialMirror, InitEvent(p), 3, 0))
    ensures !NextDisabled(Apply(InitialMirror, InitEvent(p), 3, 0))
  {
  }
}
