/** The useFlipBook hook: a five-field state record, the reducers its four event handlers
    apply, the canFlip predicates, and navigation that goes nowhere while the book ref is unset. */
module FlipBookHook {
  import opened Types
  import Bridge

  datatype HookState = HookState(currentPage: int, pageCount: int, orientation: PageOrientation,
                                 pageState: Option<PageState>, isFlipping: bool)

  /** The state before any event. */
  function Initial(): (s: HookState)
    ensures s.currentPage == 0 && s.pageCount == 0 && s.orientation == Landscape
    ensures s.pageState == None && !s.isFlipping
  {
    HookState(0, 0, Landscape, None, false)
  }

  /** onFlip: the page becomes the payload; nothing else changes. */
  function OnFlip(s: HookState, page: int): (r: HookState)
    ensures r.currentPage == page
    ensures r.pageCount == s.pageCount && r.orientation == s.orientation
    ensures r.pageState == s.pageState && r.isFlipping == s.isFlipping
  {
    s.(currentPage := page)
  }

  /** onChangeOrientation: the orientation becomes the payload; nothing else changes. */
  function OnChangeOrientation(s: HookState, o: PageOrientation): (r: HookState)
    ensures r.orientation == o
    ensures r.currentPage == s.currentPage && r.pageCount == s.pageCount
    ensures r.pageState == s.pageState && r.isFlipping == s.isFlipping
  {
    s.(orientation := o)
  }

  /** onChangeState: pageState becomes the payload and isFlipping says whether it is 'flipping'. */
  function OnChangeState(s: HookState, st: PageState): (r: HookState)
    ensures r.pageState == Some(st) && (r.isFlipping <==> st == Flipping)
    ensures r.currentPage == s.currentPage && r.pageCount == s.pageCount && r.orientation == s.orientation
  {
    s.(pageState := Some(st), isFlipping := st == Flipping)
  }

  /** onInit: the page comes from the payload and the count from the book ref's
      getPageCount, or 0 while the ref is unset (`refPageCount` is None). */
  function OnInit(s: HookState, page: int, refPageCount: Option<int>): (r: HookState)
    ensures r.currentPage == page
    ensures refPageCount.None? ==> r.pageCount == 0
    ensures refPageCount.Some? ==> r.pageCount == refPageCount.value
    ensures r.orientation == s.orientation && r.pageState == s.pageState && r.isFlipping == s.isFlipping
  {
    s.(currentPage := page, pageCount := refPageCount.GetOr(0))
  }

  /** canFlipNext: a page comes after the current one; the negation of the component's
      next-disabled predicate. */
  predicate CanFlipNext(s: HookState): (r: bool)
    ensures r <==> s.currentPage + 1 < s.pageCount
    ensures r <==> !Bridge.NextDisabled(Bridge.Mirror(s.currentPage, s.pageCount, s.orientation))
  {
    s.currentPage < s.pageCount - 1
  }

  /** canFlipPrev: the page is past the first; for pages >= 0, the negation of the
      component's prev-disabled predicate. */
  predicate CanFlipPrev(s: HookState): (r: bool)
    ensures r <==> s.currentPage >= 1
    ensures s.currentPage >= 0 ==> (r <==> !Bridge.PrevDisabled(Bridge.Mirror(s.currentPage, s.pageCount, s.orientation)))
  {
    s.currentPage > 0
  }

  /** An event as it reaches the hook, with the book ref's page count at that moment. */
  datatype Delivery = Delivery(event: Event, refPageCount: Option<int>)

  /** The handler the hook hands out for each event; it has none for 'update'. */
  function Step(s: HookState, d: Delivery): (r: HookState)
    ensures d.event.UpdateEvent? ==> r == s
    ensures Consistent(s) ==> Consistent(r)
    ensures !d.event.InitEvent? ==> r.pageCount == s.pageCount
    ensures !d.event.StateEvent? ==> r.pageState == s.pageState && r.isFlipping == s.isFlipping
  {
    match d.event
    case FlipEvent(p) => OnFlip(s, p)
    case OrientationEvent(o) => OnChangeOrientation(s, o)
    case StateEvent(st) => OnChangeState(s, st)
    case InitEvent(p) => OnInit(s, p, d.refPageCount)
    case UpdateEvent(_) => s
  }

  function Run(s: HookState, ds: seq<Delivery>): HookState
    decreases |ds|
  {
    if ds == [] then s else Run(Step(s, ds[0]), ds[1..])
  }

  /** isFlipping is derived from pageState. */
  predicate Consistent(s: HookState) {
    s.isFlipping <==> s.pageState == Some(Flipping)
  }

  /** From the initial state, any run of events keeps isFlipping equal to
      "pageState is 'flipping'". */
  lemma {:induction false} RunKeepsConsistent(s: HookState, ds: seq<Delivery>)
    requires Consistent(s)
    ensures Consistent(Run(s, ds))
    decreases |ds|
  {
    if ds != [] {
      RunKeepsConsistent(Step(s, ds[0]), ds[1..]);
    }
  }

  /** The engine may report a flip and an orientation change in either order (a resize
      can switch to portrait in the middle of a flip); the hook ends in the same state
      either way, because the two handlers write different fields. onChangeState leaves
      both canFlip predicates as they were. */
  lemma HandlersIndependent(s: HookState, page: int, o: PageOrientation, st: PageState)
    ensures OnFlip(OnChangeOrientation(s, o), page) == OnChangeOrientation(OnFlip(s, page), o)
    ensures CanFlipNext(OnChangeState(s, st)) == CanFlipNext(s)
    ensures CanFlipPrev(OnChangeState(s, st)) == CanFlipPrev(s)
  {
  }

  /** The hook's predicates against the component's controls: canFlipNext is always the
      negation of next-disabled; canFlipPrev is the negation of prev-disabled for pages >= 0. */
  lemma CanFlipMatchesControls(s: HookState)
    ensures CanFlipNext(s) <==> !Bridge.NextDisabled(Bridge.Mirror(s.currentPage, s.pageCount, s.orientation))
    ensures s.currentPage >= 0 ==>
              (CanFlipPrev(s) <==> !Bridge.PrevDisabled(Bridge.Mirror(s.currentPage, s.pageCount, s.orientation)))
  {
  }

  /** Below page 0 the two disagree: neither "can flip back" nor "prev disabled". */
  lemma CanFlipPrevNegativePage(s: HookState)
    requires s.currentPage < 0
    ensures !CanFlipPrev(s) && !Bridge.PrevDisabled(Bridge.Mirror(s.currentPage, s.pageCount, s.orientation))
  {
  }

  /** The hook state and the component's mirrored state agree on the fields they share. */
  predicate Agree(s: HookState, m: Bridge.Mirror) {
    s.currentPage == m.currentPage && s.pageCount == m.pageCount && s.orientation == m.orientation
  }

  /** The component takes 'init's page from the engine and the hook from the payload:
      they stay in agreement exactly when the two coincide (and the ref reports the
      engine's count). */
  lemma InitAgreement(s: HookState, m: Bridge.Mirror, p: int, engineCount: int, engineIndex: int)
    requires Agree(s, m)
    ensures Agree(OnInit(s, p, Some(engineCount)), Bridge.Apply(m, InitEvent(p), engineCount, engineIndex))
            <==> p == engineIndex
  {
  }

  /** Driven by the same events, the hook and the component keep agreeing, as long as
      every 'init' payload equals the engine's index at that moment and the ref then
      reports the engine's count. The engine's answers may change from event to event,
      as they do when a shrunk page set is reloaded. */
  lemma {:induction false} RunsAgree(s: HookState, m: Bridge.Mirror, ds: seq<Delivery>, ts: seq<Bridge.Tick>)
    requires Agree(s, m)
    requires |ds| == |ts|
    requires forall k :: 0 <= k < |ds| ==> ds[k].event == ts[k].event
    requires forall k :: 0 <= k < |ds| && ds[k].event.InitEvent? ==>
               ds[k].event.page == ts[k].engineIndex && ds[k].refPageCount == Some(ts[k].engineCount)
    ensures Agree(Run(s, ds), Bridge.MirrorRun(m, ts))
    decreases |ds|
  {
    if ds != [] {
      RunsAgree(Step(s, ds[0]), Bridge.Apply(m, ts[0].event, ts[0].engineCount, ts[0].engineIndex), ds[1..], ts[1..]);
    }
  }

  /** flipNext, flipPrev, flipTo and turnTo pass the request to the book ref, and do nothing
      while it is unset. */
  function Navigate(refSet: bool, req: NavRequest): (r: Option<NavRequest>)
    ensures r.Some? <==> refSet
    ensures r.Some? ==> r.value == req
  {
    if refSet then Some(req) else None
  }
}
