/** A rectangle that does not move: an inclusive point test and the
    expanded-box test against a ball. `lineWidth` is set by the subclasses,
    never by the static body itself, so here it is an explicit field. */
module StaticBodies {
  import opened Geometry

  datatype StaticBody = StaticBody(width: real, height: real, position: Vec, lineWidth: real)

  /** A body created without a position sits at the origin. */
  function AtOrigin(width: real, height: real, lineWidth: real): (b: StaticBody)
    ensures b.position == Zero && b.width == width && b.height == height
  {
    StaticBody(width, height, Zero, lineWidth)
  }

  /** `contains`: edges and corners count as inside. */
  predicate Contains(b: StaticBody, px: real, py: real)
  {
    InClosedBox(Rect(b), px, py)
  }

  function Rect(b: StaticBody): Box
  {
    Box(b.position.x, b.position.y, b.width, b.height)
  }

  /** `containsBall`: the ball's box (centre plus or minus radius and half
      its stroke) overlaps the block's box (grown by half the block's
      stroke on every side); all four comparisons are strict. */
  predicate ContainsBall(b: StaticBody, ball: Vec, radius: real, ballLineWidth: real)
  {
    var ballLeft := ball.x - radius - ballLineWidth / 2.0;
    var ballRight := ball.x + radius + ballLineWidth / 2.0;
    var ballTop := ball.y - radius - ballLineWidth / 2.0;
    var ballBottom := ball.y + radius + ballLineWidth / 2.0;
    var blockLeft := b.position.x - b.lineWidth / 2.0;
    var blockRight := b.position.x + b.width + b.lineWidth / 2.0;
    var blockTop := b.position.y - b.lineWidth / 2.0;
    var blockBottom := b.position.y + b.height + b.lineWidth / 2.0;
    ballRight > blockLeft && ballLeft < blockRight && ballBottom > blockTop && ballTop < blockBottom
  }

  /** The box test is the same as asking whether the ball's centre lies
      strictly inside the block grown by the ball's size plus half the
      block's stroke on every side. */
  lemma ContainsBallAsGrownBlock(b: StaticBody, ball: Vec, radius: real, ballLineWidth: real)
    ensures var m := radius + ballLineWidth / 2.0 + b.lineWidth / 2.0;
            ContainsBall(b, ball, radius, ballLineWidth) <==>
              b.position.x - m < ball.x < b.position.x + b.width + m &&
              b.position.y - m < ball.y < b.position.y + b.height + m
  {
  }

  /** Boxes that only touch, on any of the four sides, do not overlap. */
  lemma TouchingIsNotContact(b: StaticBody, ball: Vec, radius: real, ballLineWidth: real)
    requires var m := radius + ballLineWidth / 2.0 + b.lineWidth / 2.0;
             ball.x == b.position.x - m || ball.x == b.position.x + b.width + m ||
             ball.y == b.position.y - m || ball.y == b.position.y + b.height + m
    ensures !ContainsBall(b, ball, radius, ballLineWidth)
  {
  }

  /** A ball whose centre is inside the block overlaps it, as long as the
      ball has positive size and the block's stroke is not negative. */
  lemma ContainsImpliesContainsBall(b: StaticBody, ball: Vec, radius: real, ballLineWidth: real)
    requires Contains(b, ball.x, ball.y)
    requires radius + ballLineWidth / 2.0 > 0.0 && b.lineWidth >= 0.0
    ensures ContainsBall(b, ball, radius, ballLineWidth)
  {
  }
}
