/** A clickable rectangle with a label and a hover colour. */
module Buttons {
  import opened Geometry

  /** The button part of the configuration. */
  datatype ButtonStyle = ButtonStyle(width: real, height: real, defaultColor: string, hoverColor: string)

  class Button {
    const position: Vec
    const width: real
    const height: real
    var text: string
    var isHovered: bool
    var color: string
    var defaultColor: string
    var hoverColor: string

    /** A new button is not hovered and shows its default colour. */
    constructor (style: ButtonStyle, position0: Vec, text0: string)
      ensures position == position0 && text == text0
      ensures width == style.width && height == style.height
      ensures !isHovered && color == defaultColor == style.defaultColor && hoverColor == style.hoverColor
    {
      position := position0;
      width := style.width;
      height := style.height;
      text := text0;
      isHovered := false;
      color := style.defaultColor;
      defaultColor := style.defaultColor;
      hoverColor := style.hoverColor;
    }

    /** `checkPosition`: the closed rectangle, edges included. */
    predicate CheckPosition(mouseX: real, mouseY: real)
    {
      InClosedBox(Box(position.x, position.y, width, height), mouseX, mouseY)
    }

    /** Only `isHovered` and `color` change, and both are determined by the
        mouse point and the (unchanged) colours, so hovering twice over the
        same point leaves the button as one hover did. */
    method HandleMouseHover(mouseX: real, mouseY: real)
      modifies this`isHovered, this`color
      ensures isHovered == CheckPosition(mouseX, mouseY)
      ensures color == if isHovered then hoverColor else defaultColor
    {
      isHovered := CheckPosition(mouseX, mouseY);
      if isHovered {
        color := hoverColor;
      } else {
        color := defaultColor;
      }
    }
  }

  /** The labels of the buttons under the mouse, in button order. */
  function HitTexts(bs: seq<Button>, mouseX: real, mouseY: real): (r: seq<string>)
    reads bs
    ensures |r| <= |bs|
  {
    if bs == [] then []
    else
      var last := bs[|bs| - 1];
      HitTexts(bs[..|bs| - 1], mouseX, mouseY) + (if last.CheckPosition(mouseX, mouseY) then [last.text] else [])
  }

  /** A label is among the hit labels exactly when some button under the
      mouse carries it. */
  lemma {:induction false} HitTextsMembers(bs: seq<Button>, mouseX: real, mouseY: real)
    ensures forall t :: t in HitTexts(bs, mouseX, mouseY) <==>
              exists i :: 0 <= i < |bs| && bs[i].CheckPosition(mouseX, mouseY) && bs[i].text == t
  {
    if bs != [] {
      var init := bs[..|bs| - 1];
      HitTextsMembers(init, mouseX, mouseY);
      assert forall i :: 0 <= i < |init| ==> init[i] == bs[i];
    }
  }

  /** Extending the button list by one extends the labels by that button's,
      when it is under the mouse. */
  lemma HitTextsStep(bs: seq<Button>, i: int, mouseX: real, mouseY: real)
    requires 0 <= i < |bs|
    ensures HitTexts(bs[..i + 1], mouseX, mouseY) ==
              HitTexts(bs[..i], mouseX, mouseY) + (if bs[i].CheckPosition(mouseX, mouseY) then [bs[i].text] else [])
  {
    assert bs[..i + 1][..i] == bs[..i];
  }
}
