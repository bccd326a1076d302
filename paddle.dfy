/** The player's paddle: a rectangle that follows the mouse or steps with the
    arrow / A / D keys, clamped to the canvas. Its `position` is the very
    object it was configured with as `startPosition`. */
module Paddles {
  import opened Geometry

  /** Where `move(mouseX)` puts the paddle's left edge. Pinned one stroke
      width inside the right edge, else inside the left edge, else centred
      on the mouse. */
  function MouseTarget(mouseX: real, width: real, lineWidth: real, canvasWidth: real): (r: real)
    ensures canvasWidth >= width + 2.0 * lineWidth ==>
              lineWidth <= r <= canvasWidth - width - lineWidth
    ensures mouseX + width / 2.0 + lineWidth >= canvasWidth ==> r == canvasWidth - width - lineWidth
    ensures mouseX + width / 2.0 + lineWidth < canvasWidth && mouseX - width / 2.0 - lineWidth <= 0.0 ==>
              r == lineWidth
    ensures mouseX + width / 2.0 + lineWidth < canvasWidth && mouseX - width / 2.0 - lineWidth > 0.0 ==>
              r + width / 2.0 == mouseX
  {
    var half := width / 2.0;
    if mouseX + half + lineWidth >= canvasWidth then canvasWidth - width - lineWidth
    else if mouseX - half - lineWidth <= 0.0 then lineWidth
    else mouseX - half
  }

  /** On a canvas wide enough for the paddle, following the mouse is
      monotone: moving the mouse right never moves the paddle left. */
  lemma MouseTargetMonotone(m1: real, m2: real, width: real, lineWidth: real, canvasWidth: real)
    requires m1 <= m2
    requires canvasWidth >= width + 2.0 * lineWidth
    ensures MouseTarget(m1, width, lineWidth, canvasWidth) <= MouseTarget(m2, width, lineWidth, canvasWidth)
  {
  }

  predicate IsLeftKey(keyCode: int) { keyCode == 37 || keyCode == 65 }
  predicate IsRightKey(keyCode: int) { keyCode == 39 || keyCode == 68 }

  /** The unclamped step of `handleKey`: 15 units left for Left arrow / A,
      15 units right for Right arrow / D, no move for any other key. */
  function KeyStep(x: real, keyCode: int): (r: real)
    ensures r == x - 15.0 <==> IsLeftKey(keyCode)
    ensures r == x + 15.0 <==> IsRightKey(keyCode)
    ensures r == x <==> !IsLeftKey(keyCode) && !IsRightKey(keyCode)
  {
    if IsLeftKey(keyCode) then x - 15.0
    else if IsRightKey(keyCode) then x + 15.0
    else x
  }

  /** The clamp `handleKey` applies after stepping. Its bounds differ from
      `move`'s: it pins to 0 and to `canvasWidth - width`, not one stroke
      width inside. */
  function KeyClamp(x: real, width: real, lineWidth: real, canvasWidth: real): (r: real)
    ensures lineWidth >= 0.0 && canvasWidth >= width ==> 0.0 <= r && r + width <= canvasWidth
    ensures lineWidth <= x && x + width + lineWidth <= canvasWidth ==> r == x
    ensures x - lineWidth < 0.0 ==> r == 0.0
    ensures x - lineWidth >= 0.0 && x + width + lineWidth > canvasWidth ==> r == canvasWidth - width
  {
    if x - lineWidth < 0.0 then 0.0
    else if x + width + lineWidth > canvasWidth then canvasWidth - width
    else x
  }

  /** The key clamp can leave the paddle where `move` never puts it: stepped
      left past the stroke margin it lands at 0, left of `lineWidth`. */
  lemma KeyClampBelowMouseRange(x: real, width: real, lineWidth: real, canvasWidth: real, mouseX: real)
    requires lineWidth > 0.0 && x < lineWidth
    requires canvasWidth >= width + 2.0 * lineWidth
    ensures KeyClamp(x, width, lineWidth, canvasWidth) < MouseTarget(mouseX, width, lineWidth, canvasWidth)
  {
  }

  class Paddle {
    const canvas: Canvas
    const startPosition: Vector2
    const startWidth: real
    var width: real
    const height: real
    const position: Vector2
    const lineWidth: real

    /** `this.position = startPosition`: one object under two names. */
    ghost predicate Valid()
    {
      position == startPosition
    }

    constructor (width0: real, height0: real, start: Vector2, lineWidth0: real, canvas0: Canvas)
      ensures Valid() && position == start
      ensures width == width0 && startWidth == width0 && height == height0
      ensures lineWidth == lineWidth0 && canvas == canvas0
    {
      canvas := canvas0;
      startPosition := start;
      startWidth := width0;
      width := width0;
      height := height0;
      position := start;
      lineWidth := lineWidth0;
    }

    /** The paddle's rectangle as a value. */
    function Bounds(): Box
      reads this, position
    {
      Box(position.x, position.y, width, height)
    }

    method Move(mouseX: real)
      modifies position
      ensures position.x == MouseTarget(mouseX, width, lineWidth, canvas.width)
      ensures position.y == old(position.y)
    {
      var paddleSize := width / 2.0;
      if mouseX + paddleSize + lineWidth >= canvas.width {
        position.x := canvas.width - width - lineWidth;
      } else if mouseX - paddleSize - lineWidth <= 0.0 {
        position.x := lineWidth;
      } else {
        position.x := mouseX - paddleSize;
      }
    }

    method HandleKey(keyCode: int)
      modifies position
      ensures position.x == KeyClamp(KeyStep(old(position.x), keyCode), width, lineWidth, canvas.width)
      ensures position.y == old(position.y)
    {
      if keyCode == 37 || keyCode == 65 {
        position.x := position.x - 15.0;
      } else if keyCode == 39 || keyCode == 68 {
        position.x := position.x + 15.0;
      }
      if position.x - lineWidth < 0.0 {
        position.x := 0.0;
      } else if position.x + width + lineWidth > canvas.width {
        position.x := canvas.width - width;
      }
    }

    /** Centres the paddle. The vertical reset reads `startPosition.y`, which
        is the current `position.y` (same object), so it changes nothing;
        and the start position's x is overwritten with the centred x. */
    method ResetPosition()
      requires Valid()
      modifies position
      ensures position.x == (canvas.width - width) / 2.0
      ensures position.y == old(position.y)
      ensures startPosition.Value() == position.Value()
    {
      position.x := (canvas.width - width) / 2.0;
      position.y := startPosition.y;
    }

    method ResetWidth()
      modifies this`width
      ensures width == startWidth
    {
      width := startWidth;
    }
  }
}
