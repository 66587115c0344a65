/** The floating toggle button: turns a click into the origin point of a
    transition, and picks which of its two icons is shown. */
module ThemeToggle {
  import opened Wrappers
  import opened Types

  /** The button's bounding client rectangle. */
  datatype Rect = Rect(left: real, top: real, width: real, height: real)

  /** The part of a mouse event the button reads: the pointer's coordinates. */
  datatype MouseEvent = MouseEvent(clientX: real, clientY: real)

  /** `p` is equidistant from the left and right edges and from the top and
      bottom edges of `b`. */
  predicate IsCentreOf(p: Position, b: Rect)
  {
    p.x - b.left == (b.left + b.width) - p.x &&
    p.y - b.top == (b.top + b.height) - p.y
  }

  /** `p` lies within `b`, edges included. */
  predicate Inside(p: Position, b: Rect)
  {
    b.left <= p.x <= b.left + b.width && b.top <= p.y <= b.top + b.height
  }

  /** The click handler. A disabled button reports nothing (the callback is not
      called); otherwise it reports the centre of its rectangle, or the
      pointer's coordinates when no rectangle could be measured. */
  function HandleClick(disabled: bool, rect: Option<Rect>, e: MouseEvent): (r: Option<Position>)
    ensures r.None? <==> disabled
    ensures !disabled && rect.Some? ==> IsCentreOf(r.value, rect.value)
    ensures !disabled && rect.None? ==> r.value == Position(e.clientX, e.clientY)
  {
    if disabled then None
    else
      var x := if rect.Some? then rect.value.left + rect.value.width / 2.0 else e.clientX;
      var y := if rect.Some? then rect.value.top + rect.value.height / 2.0 else e.clientY;
      Some(Position(x, y))
  }

  /** Being the centre pins both coordinates down: half the width right of the
      left edge and half the height below the top edge. */
  lemma CentreCoordinates(p: Position, b: Rect)
    requires IsCentreOf(p, b)
    ensures p.x == b.left + b.width / 2.0
    ensures p.y == b.top + b.height / 2.0
  {
  }

  /** A rectangle has exactly one centre. */
  lemma CentreUnique(p: Position, q: Position, b: Rect)
    requires IsCentreOf(p, b) && IsCentreOf(q, b)
    ensures p == q
  {
    CentreCoordinates(p, b);
    CentreCoordinates(q, b);
  }

  /** For a rectangle of non-negative size the reported origin lies inside the
      button. */
  lemma OriginInsideButton(b: Rect, e: MouseEvent)
    requires b.width >= 0.0 && b.height >= 0.0
    ensures HandleClick(false, Some(b), e).Some?
    ensures Inside(HandleClick(false, Some(b), e).value, b)
  {
    CentreCoordinates(HandleClick(false, Some(b), e).value, b);
  }

  /** The measured rectangle, when there is one, decides the origin: the
      pointer's coordinates are then ignored. */
  lemma OriginIgnoresPointer(b: Rect, e1: MouseEvent, e2: MouseEvent)
    ensures HandleClick(false, Some(b), e1) == HandleClick(false, Some(b), e2)
  {
    CentreUnique(HandleClick(false, Some(b), e1).value, HandleClick(false, Some(b), e2).value, b);
  }

  /** Which of the button's two icons is in its visible state. */
  datatype Icons = Icons(sunVisible: bool, moonVisible: bool)

  /** Exactly one icon is visible, and it is the Sun precisely in the light
      theme. */
  function IconVisibility(t: Theme): (r: Icons)
    ensures r.sunVisible != r.moonVisible
    ensures r.sunVisible <==> t == Light
  {
    var isLight := t == Light;
    Icons(isLight, !isLight)
  }
}
