/**
 * The gesture vocabulary of OrbitControls: the eight STATE values, the
 * signals it dispatches, the mouse-button and touch-count bindings, and the
 * gesture a pointer-down selects. The handlers in module Controls follow the
 * source's nested switches; the functions here state the same choice as a
 * table (binding, then modifier swap, then capability gate).
 */
module Gesture {

  datatype State =
    | None | Rotate | Dolly | Pan
    | TouchRotate | TouchPan | TouchDollyPan | TouchDollyRotate

  /** The events dispatched to listeners: 'start', 'change' and 'end'. */
  datatype Signal = Start | Change | End

  /** Values of MOUSE that a button can be bound to; Unbound stands for -1. */
  datatype MouseAction = RotateAction | DollyAction | PanAction | Unbound

  /** Values of TOUCH. */
  datatype TouchAction = RotateTouch | PanTouch | DollyPanTouch | DollyRotateTouch

  /** this.mouseButtons */
  datatype MouseButtons = MouseButtons(left: MouseAction, middle: MouseAction, right: MouseAction)

  /** this.touches */
  datatype Touches = Touches(one: TouchAction, two: TouchAction)

  /** The enableZoom, enableRotate and enablePan flags. */
  datatype Capabilities = Capabilities(enableZoom: bool, enableRotate: bool, enablePan: bool)

  /**
   * The outcome of a pointer-down: Refused when a disabled capability makes
   * the handler return early (state and signals untouched), Enter(s) when
   * the handler assigns state s.
   */
  datatype Decision = Refused | Enter(state: State)

  /** Button 0, 1, 2 read mouseButtons.LEFT, MIDDLE, RIGHT; any other button -1. */
  function ButtonAction(buttons: MouseButtons, button: int): MouseAction {
    if button == 0 then buttons.left
    else if button == 1 then buttons.middle
    else if button == 2 then buttons.right
    else Unbound
  }

  /** The gesture a mouse action asks for; a ctrl, meta or shift key swaps rotate and pan. */
  function MouseGesture(action: MouseAction, modifier: bool): State {
    match action
    case DollyAction => Dolly
    case RotateAction => if modifier then Pan else Rotate
    case PanAction => if modifier then Rotate else Pan
    case Unbound => None
  }

  /** The gesture a touch binding asks for, given how many pointers are down. */
  function TouchGesture(touches: Touches, count: nat): State {
    if count == 1 then
      match touches.one
      case RotateTouch => TouchRotate
      case PanTouch => TouchPan
      case _ => None
    else if count == 2 then
      match touches.two
      case DollyPanTouch => TouchDollyPan
      case DollyRotateTouch => TouchDollyRotate
      case _ => None
    else None
  }

  /**
   * Whether the capabilities allow entering a state. A two-finger gesture
   * needs only one of its two capabilities.
   */
  predicate Permitted(caps: Capabilities, s: State) {
    match s
    case None => true
    case Rotate => caps.enableRotate
    case TouchRotate => caps.enableRotate
    case Dolly => caps.enableZoom
    case Pan => caps.enablePan
    case TouchPan => caps.enablePan
    case TouchDollyPan => caps.enableZoom || caps.enablePan
    case TouchDollyRotate => caps.enableZoom || caps.enableRotate
  }

  function Gate(caps: Capabilities, s: State): Decision {
    if Permitted(caps, s) then Enter(s) else Refused
  }

  function MouseDownDecision(caps: Capabilities, buttons: MouseButtons, button: int, modifier: bool): Decision {
    Gate(caps, MouseGesture(ButtonAction(buttons, button), modifier))
  }

  function TouchStartDecision(caps: Capabilities, touches: Touches, count: nat): Decision {
    Gate(caps, TouchGesture(touches, count))
  }

  /** The state after a pointer-down: unchanged when refused. */
  function StateAfter(previous: State, d: Decision): State {
    if d.Enter? then d.state else previous
  }

  /**
   * A pointer-down dispatches 'start' exactly when it assigns a state other
   * than NONE: at most one signal, always 'start', and without it the state
   * either stays or becomes NONE.
   */
  function StartSignals(d: Decision): (sig: seq<Signal>)
    ensures |sig| <= 1 && forall k :: 0 <= k < |sig| ==> sig[k] == Start
    ensures sig == [] ==> forall previous :: StateAfter(previous, d) == previous || StateAfter(previous, d) == None
  {
    if d.Enter? && d.state != None then [Start] else []
  }

  /** mouseButtons with every rotate binding turned into pan and back. */
  function SwapRotatePan(buttons: MouseButtons): MouseButtons {
    MouseButtons(SwapAction(buttons.left), SwapAction(buttons.middle), SwapAction(buttons.right))
  }

  function SwapAction(a: MouseAction): MouseAction {
    match a
    case RotateAction => PanAction
    case PanAction => RotateAction
    case _ => a
  }

  /** Holding ctrl, meta or shift acts exactly as swapping the rotate and pan bindings. */
  lemma ModifierSwapsRotateAndPan(caps: Capabilities, buttons: MouseButtons, button: int)
    ensures MouseDownDecision(caps, buttons, button, true)
         == MouseDownDecision(caps, SwapRotatePan(buttons), button, false)
  {
  }

  /** A button other than 0, 1 and 2 selects NONE, whatever the flags. */
  lemma OtherButtonsSelectNone(caps: Capabilities, buttons: MouseButtons, button: int, modifier: bool)
    requires button != 0 && button != 1 && button != 2
    ensures MouseDownDecision(caps, buttons, button, modifier) == Enter(None)
  {
  }

  /**
   * A mouse-down is refused exactly when the gesture it asks for needs a
   * disabled capability; otherwise it enters that gesture.
   */
  lemma MouseDownRefusedIffDisabled(caps: Capabilities, buttons: MouseButtons, button: int, modifier: bool)
    ensures var g := MouseGesture(ButtonAction(buttons, button), modifier);
      && (MouseDownDecision(caps, buttons, button, modifier) == Refused <==> !Permitted(caps, g))
      && (Permitted(caps, g) ==> MouseDownDecision(caps, buttons, button, modifier) == Enter(g))
  {
  }

  /** A two-finger gesture is refused only when both of its capabilities are disabled. */
  lemma TwoFingerRefusedOnlyWhenBothDisabled(caps: Capabilities, touches: Touches)
    ensures TouchStartDecision(caps, touches, 2) == Refused <==>
      (touches.two == DollyPanTouch && !caps.enableZoom && !caps.enablePan) ||
      (touches.two == DollyRotateTouch && !caps.enableZoom && !caps.enableRotate)
  {
  }

  /** With no pointer or more than two, a touch start selects NONE. */
  lemma OtherTouchCountsSelectNone(caps: Capabilities, touches: Touches, count: nat)
    requires count != 1 && count != 2
    ensures TouchStartDecision(caps, touches, count) == Enter(None)
  {
  }

  /**
   * A mouse-down dispatches 'start' exactly when its button, after the
   * modifier swap, is bound to a gesture and that gesture's capability is
   * on; otherwise it dispatches nothing.
   */
  lemma MouseDownStartsIffGestureAllowed(caps: Capabilities, buttons: MouseButtons, button: int, modifier: bool)
    ensures var g := MouseGesture(ButtonAction(buttons, button), modifier);
      StartSignals(MouseDownDecision(caps, buttons, button, modifier))
        == if g != None && Permitted(caps, g) then [Start] else []
  {
  }

  /**
   * A touch start dispatches 'start' exactly when one or two pointers are
   * down, that count is bound to a gesture, and the capabilities allow it.
   */
  lemma TouchStartStartsIffGestureAllowed(caps: Capabilities, touches: Touches, count: nat)
    ensures var g := TouchGesture(touches, count);
      && (StartSignals(TouchStartDecision(caps, touches, count))
           == if g != None && Permitted(caps, g) then [Start] else [])
      && (StartSignals(TouchStartDecision(caps, touches, count)) == [Start] ==> count == 1 || count == 2)
  {
  }
}
