/** The current level editor: blocks are placed on a grid in the upper half
    of the canvas, each with the hit points chosen by the "Block" button or
    the number keys, and the list can be undone, cleared and saved. */
module LevelEditing {
  import opened Geometry
  import opened JsText
  import opened Buttons

  /** A block's hit points: a number, or the string "Unbreakable". */
  datatype Hp = Points(n: int) | Unbreakable

  /** The six values the editor hands out. */
  predicate ValidHp(h: Hp)
  {
    h == Unbreakable || 1 <= h.n <= 5
  }

  /** `changeBlock`'s switch: 1 → 2 → 3 → 4 → 5 → "Unbreakable" → 1; with
      no default case, any other value is kept. */
  function NextHp(h: Hp): (r: Hp)
    ensures ValidHp(h) <==> ValidHp(r)
    ensures ValidHp(h) ==> r != h
    ensures !ValidHp(h) ==> r == h
  {
    match h
    case Unbreakable => Points(1)
    case Points(n) => if n == 5 then Unbreakable else if 1 <= n <= 4 then Points(n + 1) else h
  }

  /** The order of the switch, as a reference sequence. */
  const HpOrder: seq<Hp> := [Points(1), Points(2), Points(3), Points(4), Points(5), Unbreakable]

  /** The six values are exactly those of the order, and each step moves to
      the next one, the last wrapping round to the first. */
  lemma HpOrbit()
    ensures forall h :: ValidHp(h) <==> h in HpOrder
    ensures forall k :: 0 <= k < 6 ==> NextHp(HpOrder[k]) == HpOrder[(k + 1) % 6]
  {
  }

  /** Six changes bring any value back. */
  lemma HpCycle(h: Hp)
    ensures NextHp(NextHp(NextHp(NextHp(NextHp(NextHp(h)))))) == h
  {
  }

  /** A key that compares between "1" and "5" starts with a digit from 1 to
      5, so `parseInt` reads a number at least that digit. */
  lemma DigitKeyParses(key: string)
    requires !LexLess(key, "1") && !LexLess("5", key)
    ensures key != [] && '1' <= key[0] <= '5'
    ensures ParseInt(key).Int? && ParseInt(key).n >= DigitOf(key[0]) >= 1
  {
    var n := DigitRun(key);
    assert n >= 1;
    ValueAtLeastFirstDigit(key[..n]);
  }

  /** `handleKeyPress`: "6" selects "Unbreakable", then a key in the string
      range "1" to "5" selects `parseInt(key)`; the second test runs after
      the first. */
  function KeyHp(key: string, hp: Hp): (r: Hp)
    ensures |key| == 1 && '1' <= key[0] <= '5' ==> r == Points(DigitOf(key[0]))
    ensures key == "6" ==> r == Unbreakable
    ensures key == [] || !('1' <= key[0] <= '5') ==> r == (if key == "6" then Unbreakable else hp)
    ensures r != hp && r.Points? ==> r.n >= 1
  {
    SingleDigitKeyInRange(key);
    SingleDigitParses(key);
    var h := if key == "6" then Unbreakable else hp;
    if !LexLess(key, "1") && !LexLess("5", key) then
      DigitKeyParses(key);
      Points(ParseInt(key).n)
    else h
  }

  /** Each of the keys "1" to "5" lies in that string range. */
  lemma SingleDigitKeyInRange(key: string)
    ensures |key| == 1 && '1' <= key[0] <= '5' ==> !LexLess(key, "1") && !LexLess("5", key)
  {
    if |key| == 1 {
      assert key[1..] == [];
    }
  }

  /** `parseInt` of a one-digit key is that digit. */
  lemma SingleDigitParses(key: string)
    ensures |key| == 1 && IsDigit(key[0]) ==> ParseInt(key) == Int(DigitOf(key[0]))
  {
    if |key| == 1 && IsDigit(key[0]) {
      assert DigitRun(key[1..]) == 0;
      assert DigitRun(key) == 1;
      assert key[..1] == key;
      assert key[..0] == [];
      assert DigitsValue(key) == DigitOf(key[0]);
    }
  }

  /** A single-character key never takes the hit points outside the six
      values. */
  lemma SingleKeyKeepsHpValid(key: string, hp: Hp)
    requires |key| == 1 && ValidHp(hp)
    ensures ValidHp(KeyHp(key, hp))
  {
  }

  /** The `k`-th grid line of cells of `size`. */
  function GridLine(k: int, size: real): real
  {
    k as real * size
  }

  /** `Math.floor(v / size) * size`: the grid line at or left of `v`. */
  function GridSnap(v: real, size: real): (r: real)
    requires size != 0.0
    ensures size > 0.0 ==> r <= v < r + size
    ensures exists k: int :: r == GridLine(k, size)
  {
    var k := (v / size).Floor;
    assert k as real * size == GridLine(k, size);
    if size > 0.0 then FloorScaled(v, size); k as real * size else k as real * size
  }

  /** Multiplying the floor of a quotient back by a positive divisor. */
  lemma FloorScaled(v: real, size: real)
    requires size > 0.0
    ensures (v / size).Floor as real * size <= v < (v / size).Floor as real * size + size
  {
    var q := v / size;
    var k := q.Floor as real;
    assert q * size == v;
    ScaleMonotone(k, q, size);
    ScaleMonotone(q, k + 1.0, size);
    calc {
      v;
    ==
      q * size;
    <
      (k + 1.0) * size;
    ==
      k * size + size;
    }
  }

  /** Multiplying by a positive number keeps the order. */
  lemma ScaleMonotone(a: real, b: real, c: real)
    requires c > 0.0
    ensures a <= b ==> a * c <= b * c
    ensures a < b ==> a * c < b * c
  {
  }

  /** A grid line snaps to itself. */
  lemma GridSnapOnLine(k: int, size: real)
    requires size != 0.0
    ensures GridSnap(k as real * size, size) == k as real * size
  {
    assert k as real * size / size == k as real;
  }

  /** Snapping twice is snapping once. */
  lemma GridSnapIdempotent(v: real, size: real)
    requires size != 0.0
    ensures GridSnap(GridSnap(v, size), size) == GridSnap(v, size)
  {
    var k := (v / size).Floor;
    GridSnapOnLine(k, size);
    calc {
      GridSnap(GridSnap(v, size), size);
    ==
      GridSnap(k as real * size, size);
    ==
      k as real * size;
    ==
      GridSnap(v, size);
    }
  }

  /** `xBlocks` / `yBlocks`: how many whole cells of `size` fit in `length`. */
  function GridCount(length: real, size: real): (r: int)
    requires size != 0.0
    ensures size > 0.0 ==> r as real * size <= length < r as real * size + size
  {
    if size > 0.0 then FloorScaled(length, size); (length / size).Floor else (length / size).Floor
  }

  /** The style every placed block shares. */
  datatype BlockStyle = BlockStyle(width: real, height: real, strokeColor: string, lineWidth: real)

  /** The block config passed to the block's constructor. */
  datatype EditorBlock = EditorBlock(style: BlockStyle, position: Vec, hp: Hp)

  /** `addBlock`: the click, centred on the block, is placed when above the
      middle of the canvas, snapped down to the grid on both axes. */
  function Placement(style: BlockStyle, canvas: Canvas, hp: Hp, mouseX: real, mouseY: real): (r: Option<EditorBlock>)
    requires style.width != 0.0 && style.height != 0.0
    ensures r.Some? <==> mouseY - style.height / 2.0 < canvas.height / 2.0
    ensures r.Some? ==> r.value.style == style && r.value.hp == hp
    ensures r.Some? && style.width > 0.0 ==>
              r.value.position.x <= mouseX - style.width / 2.0 < r.value.position.x + style.width
    ensures r.Some? && style.height > 0.0 ==>
              r.value.position.y <= mouseY - style.height / 2.0 < r.value.position.y + style.height
    ensures r.Some? ==> GridSnap(r.value.position.x, style.width) == r.value.position.x &&
                        GridSnap(r.value.position.y, style.height) == r.value.position.y
  {
    var x := mouseX - style.width / 2.0;
    var y := mouseY - style.height / 2.0;
    if y < canvas.height / 2.0 then
      GridSnapIdempotent(x, style.width);
      GridSnapIdempotent(y, style.height);
      Some(EditorBlock(style, Vec(GridSnap(x, style.width), GridSnap(y, style.height)), hp))
    else None
  }

  /** `blocks.pop()`: drops the last block; nothing on an empty list. */
  function Undo(blocks: seq<EditorBlock>): (r: seq<EditorBlock>)
    ensures blocks == [] ==> r == []
    ensures blocks != [] ==> |r| == |blocks| - 1 && r == blocks[..|r|]
  {
    if blocks == [] then [] else blocks[..|blocks| - 1]
  }

  /** Undo takes back exactly the last placement. */
  lemma UndoAfterAdd(blocks: seq<EditorBlock>, b: EditorBlock)
    ensures Undo(blocks + [b]) == blocks
  {
  }

  /** A saved block: its position and hit points. */
  datatype BlockRecord = BlockRecord(position: Vec, hp: Hp)

  /** One level: `{ block: [...] }`. */
  datatype LevelEntry = LevelEntry(block: seq<BlockRecord>)

  function Records(blocks: seq<EditorBlock>): (r: seq<BlockRecord>)
    ensures |r| == |blocks|
    ensures forall i :: 0 <= i < |blocks| ==> r[i] == BlockRecord(blocks[i].position, blocks[i].hp)
  {
    if blocks == [] then [] else Records(blocks[..|blocks| - 1]) + [BlockRecord(blocks[|blocks| - 1].position, blocks[|blocks| - 1].hp)]
  }

  /** `saveFile`'s data before it is turned into JSON text. */
  function SaveData(blocks: seq<EditorBlock>): (r: seq<LevelEntry>)
    ensures |r| == 1 && |r[0].block| == |blocks|
    ensures forall i :: 0 <= i < |blocks| ==> r[0].block[i].position == blocks[i].position && r[0].block[i].hp == blocks[i].hp
  {
    [LevelEntry(Records(blocks))]
  }

  /** Placing a block adds exactly its record at the end of the saved level. */
  lemma SaveAfterAdd(blocks: seq<EditorBlock>, b: EditorBlock)
    ensures SaveData(blocks + [b]) == [LevelEntry(SaveData(blocks)[0].block + [BlockRecord(b.position, b.hp)])]
  {
  }

  /** Blocks in one style are determined by what is saved of them: nothing
      the editor places is lost in the file. */
  lemma SaveDeterminesBlocks(a: seq<EditorBlock>, b: seq<EditorBlock>, style: BlockStyle)
    requires forall i :: 0 <= i < |a| ==> a[i].style == style
    requires forall i :: 0 <= i < |b| ==> b[i].style == style
    requires SaveData(a) == SaveData(b)
    ensures a == b
  {
  }

  /** The editor's list and hit points. */
  datatype EditorState = EditorState(blocks: seq<EditorBlock>, hp: Hp)

  /** A click on a button labelled `text`: "Undo" pops, "Clear" empties,
      "Save" changes nothing, and a label starting with "Block" steps the
      hit points. */
  function ButtonAction(s: EditorState, text: string): (r: EditorState)
    ensures r.hp == if StartsWith(text, "Block") then NextHp(s.hp) else s.hp
    ensures text == "Undo" ==> r.blocks == Undo(s.blocks)
    ensures text == "Clear" ==> r.blocks == []
    ensures text != "Undo" && text != "Clear" ==> r.blocks == s.blocks
  {
    var blocks := if text == "Undo" then Undo(s.blocks) else if text == "Clear" then [] else s.blocks;
    EditorState(blocks, if StartsWith(text, "Block") then NextHp(s.hp) else s.hp)
  }

  /** Clicks on the buttons labelled `texts`, in order. */
  function ApplyClicks(s: EditorState, texts: seq<string>): EditorState
  {
    if texts == [] then s else ButtonAction(ApplyClicks(s, texts[..|texts| - 1]), texts[|texts| - 1])
  }

  lemma ApplyClicksStep(s: EditorState, texts: seq<string>, text: string)
    ensures ApplyClicks(s, texts + [text]) == ButtonAction(ApplyClicks(s, texts), text)
  {
  }

  /** Clicks never add blocks: what is left is a prefix of the list, and
      the hit points stay among the six values. */
  lemma {:induction false} ClicksKeepPrefix(s: EditorState, texts: seq<string>)
    ensures |ApplyClicks(s, texts).blocks| <= |s.blocks|
    ensures ApplyClicks(s, texts).blocks == s.blocks[..|ApplyClicks(s, texts).blocks|]
    ensures ValidHp(s.hp) ==> ValidHp(ApplyClicks(s, texts).hp)
  {
    if texts != [] {
      var before := ApplyClicks(s, texts[..|texts| - 1]);
      ClicksKeepPrefix(s, texts[..|texts| - 1]);
      var after := ButtonAction(before, texts[|texts| - 1]);
      assert after.blocks == before.blocks[..|after.blocks|];
    }
  }

  class LevelEditor {
    const canvas: Canvas
    const style: BlockStyle
    const buttons: seq<Button>
    const xBlocks: int
    const yBlocks: int
    var hp: Hp
    var blocks: seq<EditorBlock>

    ghost predicate Valid()
    {
      |buttons| == 4 && forall i, j :: 0 <= i < j < |buttons| ==> buttons[i] != buttons[j]
    }

    function State(): EditorState
      reads this
    {
      EditorState(blocks, hp)
    }

    /** An empty level at hit points 1, with the four buttons and the grid
        size. */
    constructor (canvas0: Canvas, style0: BlockStyle, buttonStyle: ButtonStyle)
      requires style0.width != 0.0 && style0.height != 0.0
      ensures Valid() && canvas == canvas0 && style == style0
      ensures blocks == [] && hp == Points(1)
      ensures buttons[0].text == "Save" && buttons[1].text == "Undo" && buttons[2].text == "Clear" && buttons[3].text == "Blocks"
      ensures buttons[0].position == Vec(canvas0.width / 2.0 - 100.0, canvas0.height / 2.0 + 200.0)
      ensures buttons[1].position == Vec(canvas0.width / 2.0 - 350.0, canvas0.height / 2.0 + 200.0)
      ensures buttons[2].position == Vec(canvas0.width / 2.0 - 350.0, canvas0.height / 2.0 + 275.0)
      ensures buttons[3].position == Vec(canvas0.width / 2.0 + 150.0, canvas0.height / 2.0 + 275.0)
      ensures yBlocks == GridCount(canvas0.height / 2.0, style0.height)
      ensures xBlocks == GridCount(canvas0.width, style0.width)
    {
      canvas := canvas0;
      style := style0;
      hp := Points(1);
      blocks := [];
      var save := new Button(buttonStyle, Vec(canvas0.width / 2.0 - 100.0, canvas0.height / 2.0 + 200.0), "Save");
      var undo := new Button(buttonStyle, Vec(canvas0.width / 2.0 - 350.0, canvas0.height / 2.0 + 200.0), "Undo");
      var clear := new Button(buttonStyle, Vec(canvas0.width / 2.0 - 350.0, canvas0.height / 2.0 + 275.0), "Clear");
      var kind := new Button(buttonStyle, Vec(canvas0.width / 2.0 + 150.0, canvas0.height / 2.0 + 275.0), "Blocks");
      buttons := [save, undo, clear, kind];
      yBlocks := GridCount(canvas0.height / 2.0, style0.height);
      xBlocks := GridCount(canvas0.width, style0.width);
    }

    /** `addBlock`: appends the placed block, if any; the hit points stay. */
    method AddBlock(mouseX: real, mouseY: real)
      requires style.width != 0.0 && style.height != 0.0
      modifies this`blocks
      ensures blocks == old(blocks) + match Placement(style, canvas, hp, mouseX, mouseY)
                                       case Some(b) => [b]
                                       case None => []
    {
      var x := mouseX - style.width / 2.0;
      var y := mouseY - style.height / 2.0;
      if y < canvas.height / 2.0 {
        var position := Vec((x / style.width).Floor as real * style.width, (y / style.height).Floor as real * style.height);
        assert position == Vec(GridSnap(x, style.width), GridSnap(y, style.height));
        blocks := blocks + [EditorBlock(style, position, hp)];
      }
    }

    /** `changeBlock`. */
    method ChangeBlock()
      modifies this`hp
      ensures hp == NextHp(old(hp))
    {
      match hp
      case Points(n) =>
        if n == 1 {
          hp := Points(2);
        } else if n == 2 {
          hp := Points(3);
        } else if n == 3 {
          hp := Points(4);
        } else if n == 4 {
          hp := Points(5);
        } else if n == 5 {
          hp := Unbreakable;
        }
      case Unbreakable =>
        hp := Points(1);
    }

    /** `handleKeyPress`, for the key's name. */
    method HandleKeyPress(key: string)
      modifies this`hp
      ensures hp == KeyHp(key, old(hp))
    {
      if key == "6" {
        hp := Unbreakable;
      }
      if !LexLess(key, "1") && !LexLess("5", key) {
        DigitKeyParses(key);
        hp := Points(ParseInt(key).n);
      }
    }

    /** `saveFile`, up to the JSON text and the download. */
    function SaveFile(): (r: seq<LevelEntry>)
      reads this
      ensures r == SaveData(blocks)
    {
      SaveData(blocks)
    }

    /** `handleButtonClick`: every button under the mouse acts, in order. */
    method HandleButtonClick(mouseX: real, mouseY: real)
      modifies this`blocks, this`hp
      ensures State() == ApplyClicks(old(State()), HitTexts(buttons, mouseX, mouseY))
    {
      var i := 0;
      while i < |buttons|
        invariant 0 <= i <= |buttons|
        invariant State() == ApplyClicks(old(State()), HitTexts(buttons[..i], mouseX, mouseY))
      {
        var button := buttons[i];
        HitTextsStep(buttons, i, mouseX, mouseY);
        ghost var hits := HitTexts(buttons[..i], mouseX, mouseY);
        if button.CheckPosition(mouseX, mouseY) {
          ApplyClicksStep(old(State()), HitTexts(buttons[..i], mouseX, mouseY), button.text);
          Click(button.text);
          assert HitTexts(buttons[..i], mouseX, mouseY) == hits;
          assert HitTexts(buttons[..i + 1], mouseX, mouseY) == hits + [button.text];
        } else {
          assert HitTexts(buttons[..i + 1], mouseX, mouseY) == hits;
        }
        i := i + 1;
      }
      assert buttons[..i] == buttons;
    }

    /** The body of `handleButtonClick` for one button under the mouse: the
        `switch` on the label, then the "Block" prefix test. */
    method Click(text: string)
      modifies this`blocks, this`hp
      ensures State() == ButtonAction(old(State()), text)
    {
      if text == "Undo" {
        if blocks != [] {
          blocks := blocks[..|blocks| - 1];
        }
      } else if text == "Clear" {
        blocks := [];
      }
      if StartsWith(text, "Block") {
        ChangeBlock();
      }
    }
  }
}
