/** The early paddle: fixed size and stroke, a starting point, and a mouse
    clamp against a canvas width passed in. */
module LegacyPaddles {

  const PaddleXPos: real := 325.0
  const PaddleYPos: real := 600.0
  const PaddleWidth: real := 150.0
  const PaddleHeight: real := 25.0
  const LineWidth: real := 2.0

  /** Where `move(mouseX, canvasWidth)` puts the paddle's left edge. The
      right test is strict and leaves out the stroke, the left one includes
      it. On a canvas at least 154 wide the paddle stays within
      [2, canvasWidth - 150]. */
  function MoveTarget(mouseX: real, canvasWidth: real): (r: real)
    ensures canvasWidth >= 154.0 ==> 2.0 <= r <= canvasWidth - 150.0
    ensures mouseX + 75.0 > canvasWidth ==> r == canvasWidth - 152.0
    ensures mouseX + 75.0 <= canvasWidth && mouseX - 77.0 < 0.0 ==> r == 2.0
    ensures mouseX + 75.0 <= canvasWidth && mouseX - 77.0 >= 0.0 ==> r + 75.0 == mouseX
  {
    if mouseX + PaddleWidth / 2.0 > canvasWidth then canvasWidth - PaddleWidth - LineWidth
    else if mouseX - PaddleWidth / 2.0 - LineWidth < 0.0 then LineWidth
    else mouseX - PaddleWidth / 2.0
  }

  /** Near the right edge the clamp is not monotone: the centred branch can
      place the paddle 2 units further right than the pinned branch, so
      moving the mouse one unit right moves the paddle 2 units left. */
  lemma RightEdgeStepBack(canvasWidth: real)
    requires canvasWidth >= 154.0
    ensures MoveTarget(canvasWidth - 75.0, canvasWidth) == canvasWidth - 150.0
    ensures MoveTarget(canvasWidth - 74.0, canvasWidth) == canvasWidth - 152.0
  {
  }

  class Paddle {
    var xPos: real
    var yPos: real

    constructor ()
      ensures xPos == PaddleXPos && yPos == PaddleYPos
    {
      xPos := PaddleXPos;
      yPos := PaddleYPos;
    }

    method Move(mouseX: real, canvasWidth: real)
      modifies this`xPos
      ensures xPos == MoveTarget(mouseX, canvasWidth)
    {
      if mouseX + PaddleWidth / 2.0 > canvasWidth {
        xPos := canvasWidth - PaddleWidth - LineWidth;
      } else if mouseX - PaddleWidth / 2.0 - LineWidth < 0.0 {
        xPos := LineWidth;
      } else {
        xPos := mouseX - PaddleWidth / 2.0;
      }
    }
  }
}
