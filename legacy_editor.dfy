/** The earlier level editor: a centred click above the middle of the canvas
    places a block, which is then pushed inside the canvas border; blocks
    may be checked for overlap, and the list can be cleared. */
module LegacyEditing {
  import opened Geometry
  import opened Buttons

  /** A placed block: its size and its own position object. */
  class EditorBlock {
    const width: real
    const height: real
    const position: Vector2

    constructor (width0: real, height0: real, x: real, y: real)
      ensures width == width0 && height == height0 && fresh(position)
      ensures position.Value() == Vec(x, y)
    {
      width := width0;
      height := height0;
      position := new Vector2(x, y);
    }

    function Bounds(): Box
      reads position
    {
      Box(position.x, position.y, width, height)
    }
  }

  /** One axis of `snapToEdge`: first the near edge, then the far edge, so
      the far edge wins when both apply. */
  function SnapAxis(p: real, size: real, limit: real, lineWidth: real): (r: real)
    ensures p < lineWidth && lineWidth + size <= limit - lineWidth ==> r == lineWidth
    ensures (if p < lineWidth then lineWidth else p) + size > limit - lineWidth ==> r == limit - size - lineWidth
    ensures lineWidth <= p && p + size <= limit - lineWidth ==> r == p
    ensures size + 2.0 * lineWidth <= limit ==> lineWidth <= r && r + size <= limit - lineWidth
  {
    var q := if p < lineWidth then lineWidth else p;
    if q + size > limit - lineWidth then limit - size - lineWidth else q
  }

  /** Snapping a snapped coordinate changes nothing when the block fits. */
  lemma SnapAxisIdempotent(p: real, size: real, limit: real, lineWidth: real)
    requires size + 2.0 * lineWidth <= limit
    ensures SnapAxis(SnapAxis(p, size, limit, lineWidth), size, limit, lineWidth) == SnapAxis(p, size, limit, lineWidth)
  {
  }

  /** When the block is wider than the room between the borders, the far
      edge wins and the block is left overhanging the near border. */
  lemma SnapAxisTooWide(p: real, size: real, limit: real, lineWidth: real)
    requires size + 2.0 * lineWidth > limit
    ensures SnapAxis(p, size, limit, lineWidth) == limit - size - lineWidth < lineWidth
  {
  }

  /** The test inside `isOverlapping`: the candidate and a stored block come
      closer than `lineWidth` past each other's far edges. */
  predicate Overlaps(candidate: Box, block: Box, lineWidth: real)
  {
    candidate.x < block.x + block.width + lineWidth &&
    candidate.x + candidate.width + lineWidth > block.x &&
    candidate.y < block.y + block.height + lineWidth &&
    candidate.y + candidate.height + lineWidth > block.y
  }

  /** The test reads the same with the two blocks swapped. */
  lemma OverlapSymmetric(a: Box, b: Box, lineWidth: real)
    ensures Overlaps(a, b, lineWidth) <==> Overlaps(b, a, lineWidth)
  {
  }

  /** `blocks.some(...)` over the stored blocks' rectangles. */
  function AnyOverlap(blocks: seq<Box>, candidate: Box, lineWidth: real): (r: bool)
    ensures r <==> exists i :: 0 <= i < |blocks| && Overlaps(candidate, blocks[i], lineWidth)
  {
    if blocks == [] then false
    else
      var rest := AnyOverlap(blocks[..|blocks| - 1], candidate, lineWidth);
      assert forall i :: 0 <= i < |blocks| - 1 ==> blocks[..|blocks| - 1][i] == blocks[i];
      rest || Overlaps(candidate, blocks[|blocks| - 1], lineWidth)
  }

  /** Placing the same block twice always overlaps, whatever the margin
      (when blocks have positive size). */
  lemma SamePlaceOverlaps(b: Box, lineWidth: real)
    requires b.width > 0.0 && b.height > 0.0 && lineWidth >= 0.0
    ensures AnyOverlap([b], b, lineWidth)
  {
  }

  class LevelEditor {
    const canvas: Canvas
    const width: real
    const height: real
    const lineWidth: real
    const buttons: seq<Button>
    var blocks: seq<EditorBlock>

    /** An empty level with the Save, Load and Clear buttons. */
    constructor (canvas0: Canvas, width0: real, height0: real, lineWidth0: real, buttonStyle: ButtonStyle)
      ensures canvas == canvas0 && width == width0 && height == height0 && lineWidth == lineWidth0
      ensures blocks == [] && |buttons| == 3
      ensures buttons[0].text == "Save" && buttons[1].text == "Load" && buttons[2].text == "Clear"
      ensures buttons[0].position == Vec(canvas0.width / 2.0 - 100.0, canvas0.height / 2.0 + 200.0)
      ensures buttons[1].position == Vec(canvas0.width / 2.0 - 100.0, canvas0.height / 2.0 + 275.0)
      ensures buttons[2].position == Vec(canvas0.width / 2.0 - 350.0, canvas0.height / 2.0 + 275.0)
    {
      canvas := canvas0;
      width := width0;
      height := height0;
      lineWidth := lineWidth0;
      blocks := [];
      var save := new Button(buttonStyle, Vec(canvas0.width / 2.0 - 100.0, canvas0.height / 2.0 + 200.0), "Save");
      var load := new Button(buttonStyle, Vec(canvas0.width / 2.0 - 100.0, canvas0.height / 2.0 + 275.0), "Load");
      var clear := new Button(buttonStyle, Vec(canvas0.width / 2.0 - 350.0, canvas0.height / 2.0 + 275.0), "Clear");
      buttons := [save, load, clear];
    }

    /** `snapToEdge`: the four tests in source order, each on the
        coordinate as the one before left it. */
    method SnapToEdge(block: EditorBlock)
      modifies block.position
      ensures block.position.x == SnapAxis(old(block.position.x), block.width, canvas.width, lineWidth)
      ensures block.position.y == SnapAxis(old(block.position.y), block.height, canvas.height, lineWidth)
    {
      if block.position.x < lineWidth {
        block.position.x := lineWidth;
      }
      if block.position.x + block.width > canvas.width - lineWidth {
        block.position.x := canvas.width - block.width - lineWidth;
      }
      if block.position.y < lineWidth {
        block.position.y := lineWidth;
      }
      if block.position.y + block.height > canvas.height - lineWidth {
        block.position.y := canvas.height - block.height - lineWidth;
      }
    }

    /** The stored blocks' rectangles, in order. */
    function Boxes(): (r: seq<Box>)
      reads this, set b | b in blocks :: b.position
      ensures |r| == |blocks| && forall i :: 0 <= i < |blocks| ==> r[i] == blocks[i].Bounds()
    {
      BoxesOf(blocks)
    }

    /** `isOverlapping`. */
    predicate IsOverlapping(candidate: Box)
      reads this, set b | b in blocks :: b.position
    {
      AnyOverlap(Boxes(), candidate, lineWidth)
    }

    /** `addBlock`: a centred click above the middle appends one fresh,
        snapped block; any other click leaves the list alone. The blocks
        already placed do not move. */
    method AddBlock(mouseX: real, mouseY: real)
      modifies this`blocks
      ensures mouseY - height / 2.0 < canvas.height / 2.0 ==>
                |blocks| == |old(blocks)| + 1 && blocks[..|old(blocks)|] == old(blocks) &&
                fresh(blocks[|blocks| - 1].position) &&
                blocks[|blocks| - 1].Bounds() ==
                  Box(SnapAxis(mouseX - width / 2.0, width, canvas.width, lineWidth),
                      SnapAxis(mouseY - height / 2.0, height, canvas.height, lineWidth), width, height)
      ensures mouseY - height / 2.0 >= canvas.height / 2.0 ==> blocks == old(blocks)
    {
      var x := mouseX - width / 2.0;
      var y := mouseY - height / 2.0;
      if y < canvas.height / 2.0 {
        var block := new EditorBlock(width, height, x, y);
        SnapToEdge(block);
        blocks := blocks + [block];
      }
    }

    /** The "Clear" button. */
    method Clear()
      modifies this`blocks
      ensures blocks == []
    {
      blocks := [];
    }
  }

  function BoxesOf(blocks: seq<EditorBlock>): (r: seq<Box>)
    reads set b | b in blocks :: b.position
    ensures |r| == |blocks| && forall i :: 0 <= i < |blocks| ==> r[i] == blocks[i].Bounds()
  {
    if blocks == [] then [] else BoxesOf(blocks[..|blocks| - 1]) + [blocks[|blocks| - 1].Bounds()]
  }
}
