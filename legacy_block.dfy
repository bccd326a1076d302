/** The early block: a static rectangle with a destroyed flag that a ball
    centre inside it sets, and that nothing clears. */
module LegacyBlocks {
  import opened Geometry
  import opened StaticBodies

  /** The flag after one `update(ballX, ballY)`. */
  function Hit(destroyed: bool, b: StaticBody, ballX: real, ballY: real): (r: bool)
    ensures destroyed ==> r
    ensures Contains(b, ballX, ballY) ==> r
    ensures !Contains(b, ballX, ballY) ==> r == destroyed
  {
    if Contains(b, ballX, ballY) then true else destroyed
  }

  /** The flag after one update per ball centre, in order. */
  function HitAll(destroyed: bool, b: StaticBody, centres: seq<Vec>): bool
    decreases |centres|
  {
    if centres == [] then destroyed
    else HitAll(Hit(destroyed, b, centres[0].x, centres[0].y), b, centres[1..])
  }

  /** After any run of updates a block is destroyed exactly when it was
      destroyed before or one of the centres fell inside it. */
  lemma {:induction false} HitAllExactly(destroyed: bool, b: StaticBody, centres: seq<Vec>)
    ensures HitAll(destroyed, b, centres) <==>
              destroyed || exists i :: 0 <= i < |centres| && Contains(b, centres[i].x, centres[i].y)
    decreases |centres|
  {
    if centres != [] {
      var d := Hit(destroyed, b, centres[0].x, centres[0].y);
      HitAllExactly(d, b, centres[1..]);
      if exists i :: 0 <= i < |centres[1..]| && Contains(b, centres[1..][i].x, centres[1..][i].y) {
        var i :| 0 <= i < |centres[1..]| && Contains(b, centres[1..][i].x, centres[1..][i].y);
        assert centres[1..][i] == centres[i + 1];
      }
      if exists i :: 0 <= i < |centres| && Contains(b, centres[i].x, centres[i].y) {
        var i :| 0 <= i < |centres| && Contains(b, centres[i].x, centres[i].y);
        if i > 0 {
          assert centres[1..][i - 1] == centres[i];
        }
      }
    }
  }

  /** Once destroyed, a block stays destroyed whatever follows. */
  lemma StaysDestroyed(b: StaticBody, centres: seq<Vec>)
    ensures HitAll(true, b, centres)
  {
  }

  class Block {
    const body: StaticBody
    var isDestroyed: bool

    constructor (width: real, height: real, position: Vec, lineWidth: real)
      ensures body == StaticBody(width, height, position, lineWidth)
      ensures !isDestroyed
    {
      body := StaticBody(width, height, position, lineWidth);
      isDestroyed := false;
    }

    /** Only the flag can change: the rectangle is a constant. */
    method Update(ballX: real, ballY: real)
      modifies this
      ensures isDestroyed == Hit(old(isDestroyed), body, ballX, ballY)
    {
      if Contains(body, ballX, ballY) {
        isDestroyed := true;
      }
    }
  }
}
