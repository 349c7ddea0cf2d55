/** Value types shared by the book component and the state hook
    (src/types/index.ts and the event names of the page-flip engine). */
module Types {

  datatype Option<+T> = None | Some(value: T) {
    function GetOr(default: T): T {
      match this
      case Some(v) => v
      case None => default
    }
  }

  /** Page state reported by the engine: 'user_fold' | 'fold_corner' | 'flipping' | 'read'. */
  datatype PageState = UserFold | FoldCorner | Flipping | Read

  /** 'portrait' | 'landscape' */
  datatype PageOrientation = Portrait | Landscape

  /** Hard pages do not bend. */
  datatype PageDensity = Hard | Soft

  /** 'top' | 'bottom' */
  datatype FlipCorner = Top | Bottom

  /** Identity of a mounted DOM node. */
  type NodeId = nat

  /** The five engine events the component subscribes to. */
  datatype EventName = FlipName | ChangeOrientationName | ChangeStateName | InitName | UpdateName

  /** An engine event with its payload ('data'); 'init' and 'update' carry a page index. */
  datatype Event =
    | FlipEvent(page: int)
    | OrientationEvent(orientation: PageOrientation)
    | StateEvent(state: PageState)
    | InitEvent(page: int)
    | UpdateEvent(page: int)
  {
    function Name(): EventName {
      match this
      case FlipEvent(_) => FlipName
      case OrientationEvent(_) => ChangeOrientationName
      case StateEvent(_) => ChangeStateName
      case InitEvent(_) => InitName
      case UpdateEvent(_) => UpdateName
    }
  }

  /** A navigation request of the imperative handle: flipNext, flipPrev, flip, turnToPage. */
  datatype NavRequest =
    | NextPage(corner: Option<FlipCorner>)
    | PrevPage(corner: Option<FlipCorner>)
    | FlipTo(page: int, corner: Option<FlipCorner>)
    | TurnTo(page: int)
}
