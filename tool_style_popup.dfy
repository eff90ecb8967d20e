/** Placement and dismissal of the tool style popup: it sits one pixel below
    the active tool's button, centred on it, pushed back inside the window
    (12 pixels from the right edge) when it would stick out on the right and
    never past the left edge; it closes on a click that lands outside both
    the tools overlay and the header; and it is placed again when it opens or
    when another tool becomes active, unless it is disabled. Pixel values
    are `real`. */
module ToolStylePopup {
  import opened Wrappers

  /** A `getBoundingClientRect()` result, in window coordinates. */
  datatype Rect = Rect(left: real, top: real, right: real, bottom: real)

  /** The popup's `left`/`top` component state. */
  datatype Position = Position(left: real, top: real)

  /** The gap kept between the popup and the window's right edge when the
      popup is pushed back inside. */
  const RightMargin: real := 12.0

  function Max0(x: real): real {
    if x < 0.0 then 0.0 else x
  }

  function Centre(button: Rect): real {
    (button.left + button.right) / 2.0
  }

  /** `getToolStylePopupPositionBasedOn`, for a button, the popup's width and
      the window's inner width. The popup's top is one pixel below the
      button and its left edge is never negative. When the window has room
      for it, the popup is centred on the button; otherwise it moves left,
      never right, of the centred place. A popup no wider than the window
      never sticks out on the right, and one pushed back from the right edge
      ends 12 pixels before it, or at the left edge when that does not fit. */
  function PopupPosition(button: Rect, popupWidth: real, innerWidth: real): (p: Position)
    ensures p.top == button.bottom + 1.0
    ensures p.left >= 0.0
    ensures p.left <= Max0(Centre(button) - popupWidth / 2.0)
    ensures 0.0 <= Centre(button) - popupWidth / 2.0 && Centre(button) + popupWidth / 2.0 <= innerWidth
            ==> p.left + popupWidth / 2.0 == Centre(button)
    ensures 0.0 <= popupWidth <= innerWidth ==> p.left + popupWidth <= innerWidth
    ensures Centre(button) + popupWidth / 2.0 > innerWidth ==>
      if innerWidth - popupWidth - RightMargin >= 0.0
      then p.left + popupWidth + RightMargin == innerWidth
      else p.left == 0.0
  {
    var buttonCenter := Centre(button);
    var popupTop := button.bottom + 1.0;
    var popupLeft := buttonCenter - popupWidth / 2.0;
    var popupRight := buttonCenter + popupWidth / 2.0;
    var shifted := if popupRight > innerWidth then innerWidth - popupWidth - RightMargin else popupLeft;
    Position(if shifted < 0.0 then 0.0 else shifted, popupTop)
  }

  /** An entry of the store's `toolButtonObjects`, as far as placement uses it. */
  datatype ToolButtonObject = ToolButtonObject(dataElement: string)

  /** What placement reads around the popup: the store's tool buttons, the
      bounding rectangle of the first button in the header or the tools
      overlay with a given `data-element` (a DOM query, so a parameter), the
      popup's width and the window's inner width. */
  datatype Screen = Screen(toolButtonObjects: map<string, ToolButtonObject>, findButton: string -> Option<Rect>,
                           popupWidth: real, innerWidth: real)

  /** The outcome of placing the popup: a position, or the `TypeError` thrown
      when the active tool has no entry in `toolButtonObjects`. */
  datatype Placement = Placed(position: Position) | LookupThrows

  /** `positionToolStylePopup`: looking up the active tool's entry throws when
      there is none; without a button for it on the page the popup stays
      where it is; otherwise it takes the place computed from that button. */
  function Reposition(current: Position, activeToolName: string, screen: Screen): (r: Placement)
    ensures r.LookupThrows? <==> activeToolName !in screen.toolButtonObjects
    ensures activeToolName in screen.toolButtonObjects ==>
      match screen.findButton(screen.toolButtonObjects[activeToolName].dataElement)
      case None => r == Placed(current)
      case Some(button) =>
        && r == Placed(PopupPosition(button, screen.popupWidth, screen.innerWidth))
        && r.position.top == button.bottom + 1.0 && r.position.left >= 0.0
  {
    if activeToolName !in screen.toolButtonObjects then LookupThrows
    else
      match screen.findButton(screen.toolButtonObjects[activeToolName].dataElement)
      case None => Placed(current)
      case Some(button) => Placed(PopupPosition(button, screen.popupWidth, screen.innerWidth))
  }

  /** Placing the popup again from the same button changes nothing. */
  lemma {:induction false} RepositionIdempotent(current: Position, activeToolName: string, screen: Screen)
    requires Reposition(current, activeToolName, screen).Placed?
    ensures Reposition(Reposition(current, activeToolName, screen).position, activeToolName, screen)
         == Reposition(current, activeToolName, screen)
  {
  }

  /** `handleClickOutside`: a click closes the popup unless its target lies
      inside the tools overlay or the header. Either element may be missing
      from the page (optional chaining then yields a falsy value); `contains`
      is the DOM's `Node.contains`. */
  function ClosesOnClickOutside<Node>(toolsOverlay: Option<Node>, header: Option<Node>, target: Node,
                                      contains: (Node, Node) -> bool): (close: bool)
    ensures close <==> (!(toolsOverlay.Some? && contains(toolsOverlay.value, target))
                        && !(header.Some? && contains(header.value, target)))
    ensures toolsOverlay.None? && header.None? ==> close
    ensures contains(target, target) && (toolsOverlay == Some(target) || header == Some(target)) ==> !close
  {
    var clickedToolsOverlay := match toolsOverlay case Some(e) => contains(e, target) case None => false;
    var clickedHeader := match header case Some(e) => contains(e, target) case None => false;
    !clickedToolsOverlay && !clickedHeader
  }

  /** The props `componentDidUpdate` compares. */
  datatype PopupProps = PopupProps(isOpen: bool, isDisabled: bool, activeToolName: string)

  /** The overlays closed when the popup opens. */
  const OverlaysClosedOnOpen: seq<string> :=
    ["viewControlsOverlay", "searchOverlay", "menuOverlay", "signatureOverlay", "zoomOverlay", "redactionOverlay"]

  /** What one `componentDidUpdate` does: the overlays it closes and the
      outcome of placing the popup. */
  datatype Update = Update(closed: seq<string>, outcome: Placement)

  /** `componentDidUpdate`, step by step: on a closed-to-open change of an
      enabled popup, close the other overlays and place the popup; then, if
      the active tool changed and the popup is enabled, place it again. A
      throw in the first placement skips the second. A disabled popup is left
      alone, and a throw happens only when a placement is due and the active
      tool has no entry. */
  function DidUpdate(prev: PopupProps, props: PopupProps, current: Position, screen: Screen): (u: Update)
    ensures props.isDisabled ==> u == Update([], Placed(current))
    ensures u.outcome.LookupThrows? ==>
      ShouldReposition(prev, props) && props.activeToolName !in screen.toolButtonObjects
  {
    var opening := !prev.isOpen && props.isOpen && !props.isDisabled;
    var closed := if opening then OverlaysClosedOnOpen else [];
    var afterOpen := if opening then Reposition(current, props.activeToolName, screen) else Placed(current);
    var selectedAnotherTool := prev.activeToolName != props.activeToolName;
    if afterOpen.LookupThrows? then Update(closed, LookupThrows)
    else if selectedAnotherTool && !props.isDisabled then
      Update(closed, Reposition(afterOpen.position, props.activeToolName, screen))
    else Update(closed, afterOpen)
  }

  /** The popup is placed again exactly when it is enabled and it has just
      opened or another tool became active. */
  predicate ShouldReposition(prev: PopupProps, props: PopupProps) {
    !props.isDisabled && ((!prev.isOpen && props.isOpen) || prev.activeToolName != props.activeToolName)
  }

  /** An update has the outcome of one placement when `ShouldReposition`
      holds and leaves the popup where it was otherwise; a disabled popup
      never moves. The other overlays are closed only on an enabled popup's
      closed-to-open change. */
  lemma {:induction false} DidUpdatePlacesOnce(prev: PopupProps, props: PopupProps, current: Position, screen: Screen)
    ensures var u := DidUpdate(prev, props, current, screen);
      && u.outcome == (if ShouldReposition(prev, props) then Reposition(current, props.activeToolName, screen) else Placed(current))
      && (props.isDisabled ==> u.outcome == Placed(current) && u.closed == [])
      && (u.closed != [] <==> !prev.isOpen && props.isOpen && !props.isDisabled)
  {
    if !prev.isOpen && props.isOpen && !props.isDisabled && Reposition(current, props.activeToolName, screen).Placed? {
      RepositionIdempotent(current, props.activeToolName, screen);
    }
  }
}
