/** The canonical desktop actions. */
module Actions {
  import opened Wrappers

  datatype Action =
    | Screenshot | Zoom | CursorPosition | MouseMove
    | LeftClick | RightClick | MiddleClick | DoubleClick | TripleClick
    | LeftMouseDown | LeftMouseUp | LeftClickDrag | Scroll
    | Key | HoldKey | Type | Wait | ScreenInfo | ListWindows | FocusWindow

  function Named(s: string): Option<Action> {
    match s
    case "screenshot" => Some(Screenshot)
    case "zoom" => Some(Zoom)
    case "cursor_position" => Some(CursorPosition)
    case "mouse_move" => Some(MouseMove)
    case "left_click" => Some(LeftClick)
    case "right_click" => Some(RightClick)
    case "middle_click" => Some(MiddleClick)
    case "double_click" => Some(DoubleClick)
    case "triple_click" => Some(TripleClick)
    case "left_mouse_down" => Some(LeftMouseDown)
    case "left_mouse_up" => Some(LeftMouseUp)
    case "left_click_drag" => Some(LeftClickDrag)
    case "scroll" => Some(Scroll)
    case "key" => Some(Key)
    case "hold_key" => Some(HoldKey)
    case "type" => Some(Type)
    case "wait" => Some(Wait)
    case "screen_info" => Some(ScreenInfo)
    case "list_windows" => Some(ListWindows)
    case "focus_window" => Some(FocusWindow)
    case _ => None
  }

  predicate IsClick(a: Action) { a.LeftClick? || a.RightClick? || a.MiddleClick? || a.DoubleClick? || a.TripleClick? }

  /** Actions that only look, or only wait. */
  predicate Reads(a: Action) {
    a.Screenshot? || a.Zoom? || a.CursorPosition? || a.Wait? || a.ScreenInfo? || a.ListWindows?
  }

  predicate Mutating(a: Action) { !Reads(a) }

  /** The names of the actions that change the user's machine, and no others. */
  const MUTATING := [
    "mouse_move", "left_click", "right_click", "middle_click", "double_click", "triple_click",
    "left_mouse_down", "left_mouse_up", "left_click_drag", "scroll", "key", "hold_key", "type", "focus_window"]

  lemma MutatingNames(s: string)
    requires Named(s).Some?
    ensures Mutating(Named(s).value) <==> s in MUTATING
  {
  }

  predicate TakesImage(a: Action) { a.Screenshot? || a.Zoom? }

  lemma ImageNames(s: string)
    requires Named(s).Some?
    ensures TakesImage(Named(s).value) <==> s == "screenshot" || s == "zoom"
  {
  }
}
