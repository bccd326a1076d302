/** The options screen: a four-step difficulty cycle and two volume toggles,
    each written through to the page's key-value storage, and the labels and
    colours its render pass gives the three buttons. */
module OptionsMenu {
  import opened Geometry
  import opened JsText
  import opened Buttons

  const Easy := "EASY"
  const Normal := "NORMAL"
  const Hard := "HARD"
  const Nightmare := "NIGHTMARE"

  predicate IsDifficulty(d: Option<string>)
  {
    d == Some(Easy) || d == Some(Normal) || d == Some(Hard) || d == Some(Nightmare)
  }

  /** `String(x)` for a stored string or `null`: what `setItem` writes and
      what string concatenation shows. */
  function Stringify(o: Option<string>): string
  {
    match o
    case None => "null"
    case Some(s) => s
  }

  /** The page's `localStorage`, shared by reference. */
  class Storage {
    var items: map<string, string>

    constructor (items0: map<string, string>)
      ensures items == items0
    {
      items := items0;
    }

    function GetItem(key: string): (r: Option<string>)
      reads this
      ensures r.Some? <==> key in items
      ensures r.Some? ==> r.value == items[key]
    {
      if key in items then Some(items[key]) else None
    }

    method SetItem(key: string, value: string)
      modifies this
      ensures items == old(items)[key := value]
      ensures GetItem(key) == Some(value)
      ensures forall k :: k != key ==> GetItem(k) == old(GetItem(k))
    {
      items := items[key := value];
    }
  }

  /** A volume as the constructor reads it: `parseInt` of the stored text,
      where an absent key reads as the text "null" and so gives NaN. */
  function ReadVolume(items: map<string, string>, key: string): (r: JsNumber)
    ensures key !in items ==> r == NaN
  {
    ParseInt(Stringify(if key in items then Some(items[key]) else None))
  }

  /** `changeDifficulty`'s switch. It has no default case, so a value that
      is none of the four (`null` when nothing is stored, or any other
      string) is kept. */
  function NextDifficulty(d: Option<string>): (r: Option<string>)
    ensures IsDifficulty(d) <==> IsDifficulty(r)
    ensures IsDifficulty(d) ==> r != d
    ensures !IsDifficulty(d) ==> r == d
  {
    if d == Some(Easy) then Some(Normal)
    else if d == Some(Normal) then Some(Hard)
    else if d == Some(Hard) then Some(Nightmare)
    else if d == Some(Nightmare) then Some(Easy)
    else d
  }

  /** The order of the switch, as a reference sequence. */
  const DifficultyOrder: seq<Option<string>> := [Some(Easy), Some(Normal), Some(Hard), Some(Nightmare)]

  /** The four difficulties are exactly those of the order, and each change
      moves to the next one, NIGHTMARE wrapping round to EASY. */
  lemma DifficultyOrbit()
    ensures forall d :: IsDifficulty(d) <==> d in DifficultyOrder
    ensures forall k :: 0 <= k < 4 ==> NextDifficulty(DifficultyOrder[k]) == DifficultyOrder[(k + 1) % 4]
  {
  }

  /** Four changes bring any value back. */
  lemma DifficultyCycle(d: Option<string>)
    ensures NextDifficulty(NextDifficulty(NextDifficulty(NextDifficulty(d)))) == d
  {
  }

  /** `muteMusic` / `muteSound`: 0 when the volume is exactly 1, otherwise
      1; so NaN from an absent key becomes 1. */
  function Toggle(v: JsNumber): (r: JsNumber)
    ensures r == Int(0) || r == Int(1)
    ensures r == Int(0) <==> v == Int(1)
  {
    if v == Int(1) then Int(0) else Int(1)
  }

  /** From 0 or 1, two toggles restore the volume. */
  lemma ToggleTwice(v: JsNumber)
    requires v == Int(0) || v == Int(1)
    ensures Toggle(Toggle(v)) == v
  {
  }

  /** What a toggle writes is what the next reading of the key yields. */
  lemma VolumePersists(items: map<string, string>, key: string, v: JsNumber)
    ensures ReadVolume(items[key := NumberText(v)], key) == v
  {
    NumberTextRoundTrip(v);
  }

  /** A difficulty string survives storage; `null` does not: it is written
      as the text "null" and read back as that string, which the cycle then
      never leaves. */
  lemma DifficultyPersists(items: map<string, string>, d: Option<string>)
    ensures d.Some? ==> Some(items["difficulty" := Stringify(d)]["difficulty"]) == d
    ensures d.None? ==> Some(items["difficulty" := Stringify(d)]["difficulty"]) == Some("null")
    ensures d.None? ==> NextDifficulty(Some("null")) == Some("null")
  {
  }

  /** The text `render` gives a button, by the prefix of its current text. */
  function Relabel(text: string, difficulty: Option<string>, music: JsNumber, sound: JsNumber): string
  {
    if StartsWith(text, "Difficulty") then "Difficulty: " + Stringify(difficulty)
    else if StartsWith(text, "Music") then (if music == Int(1) then "Music: 100%" else "Music: Mute")
    else if StartsWith(text, "Sound") then (if sound == Int(1) then "Sound: 100%" else "Sound: Mute")
    else text
  }

  datatype Palette = Palette(defaultColor: string, hoverColor: string)

  /** The colours `render` gives a button after relabelling it: red only for
      the difficulty button on NIGHTMARE. */
  function PaletteFor(text: string, difficulty: Option<string>): (r: Palette)
    ensures r.defaultColor == "red" <==> difficulty == Some(Nightmare) && StartsWith(text, "Difficulty")
    ensures r.defaultColor == "red" ==> r.hoverColor == "#a32218"
    ensures r.defaultColor != "red" ==> r == Palette("#f8d928", "#998303")
  {
    if difficulty == Some(Nightmare) && StartsWith(text, "Difficulty") then Palette("red", "#a32218")
    else Palette("#f8d928", "#998303")
  }

  /** The music button reads "Music: 100%" exactly when the volume is 1. */
  lemma MusicLabel(music: JsNumber, difficulty: Option<string>, sound: JsNumber)
    ensures Relabel("Music", difficulty, music, sound) == "Music: 100%" <==> music == Int(1)
    ensures Relabel("Music", difficulty, music, sound) != "Music: 100%" ==>
              Relabel("Music", difficulty, music, sound) == "Music: Mute"
  {
  }

  /** The sound button follows the same rule. */
  lemma SoundLabel(sound: JsNumber, difficulty: Option<string>, music: JsNumber)
    ensures Relabel("Sound", difficulty, music, sound) == "Sound: 100%" <==> sound == Int(1)
    ensures Relabel("Sound", difficulty, music, sound) != "Sound: 100%" ==>
              Relabel("Sound", difficulty, music, sound) == "Sound: Mute"
  {
    assert "Sound"[..5][0] != "Music"[0];
  }

  /** A relabelled text keeps its prefix, so rendering again changes
      nothing further: relabelling is idempotent. */
  lemma RelabelIdempotent(text: string, difficulty: Option<string>, music: JsNumber, sound: JsNumber)
    ensures Relabel(Relabel(text, difficulty, music, sound), difficulty, music, sound) ==
              Relabel(text, difficulty, music, sound)
  {
    var d := "Difficulty: " + Stringify(difficulty);
    assert d[..|"Difficulty"|] == "Difficulty";
    assert StartsWith(d, "Difficulty");
    if StartsWith(text, "Difficulty") {
    } else if StartsWith(text, "Music") {
      assert "Music: 100%"[..5] == "Music";
      assert "Music: Mute"[..5] == "Music";
      assert "Music: 100%"[..10][0] != "Difficulty"[0];
      assert "Music: Mute"[..10][0] != "Difficulty"[0];
    } else if StartsWith(text, "Sound") {
      assert "Sound: 100%"[..5] == "Sound";
      assert "Sound: Mute"[..5] == "Sound";
      assert "Sound: 100%"[..10][0] != "Difficulty"[0];
      assert "Sound: Mute"[..10][0] != "Difficulty"[0];
      assert "Sound: 100%"[..5][0] != "Music"[0];
      assert "Sound: Mute"[..5][0] != "Music"[0];
    }
  }

  /** The options and what storage holds, as one value. */
  datatype Settings = Settings(difficulty: Option<string>, music: JsNumber, sound: JsNumber, items: map<string, string>)

  /** The effect of clicking a button labelled `text`: the first matching
      prefix decides, and the changed setting is written back. */
  function Press(s: Settings, text: string): (r: Settings)
    ensures StartsWith(text, "Difficulty") ==>
              r.difficulty == NextDifficulty(s.difficulty) && r.music == s.music && r.sound == s.sound &&
              r.items == s.items["difficulty" := Stringify(r.difficulty)]
    ensures !StartsWith(text, "Difficulty") && StartsWith(text, "Music") ==>
              r.music == Toggle(s.music) && r.difficulty == s.difficulty && r.sound == s.sound &&
              r.items == s.items["musicVolume" := NumberText(r.music)]
    ensures !StartsWith(text, "Difficulty") && !StartsWith(text, "Music") && StartsWith(text, "Sound") ==>
              r.sound == Toggle(s.sound) && r.difficulty == s.difficulty && r.music == s.music &&
              r.items == s.items["soundVolume" := NumberText(r.sound)]
    ensures !StartsWith(text, "Difficulty") && !StartsWith(text, "Music") && !StartsWith(text, "Sound") ==> r == s
  {
    if StartsWith(text, "Difficulty") then
      var d := NextDifficulty(s.difficulty);
      s.(difficulty := d, items := s.items["difficulty" := Stringify(d)])
    else if StartsWith(text, "Music") then
      var m := Toggle(s.music);
      s.(music := m, items := s.items["musicVolume" := NumberText(m)])
    else if StartsWith(text, "Sound") then
      var v := Toggle(s.sound);
      s.(sound := v, items := s.items["soundVolume" := NumberText(v)])
    else s
  }

  /** Clicks on the buttons labelled `texts`, in order. */
  function PressAll(s: Settings, texts: seq<string>): Settings
  {
    if texts == [] then s else Press(PressAll(s, texts[..|texts| - 1]), texts[|texts| - 1])
  }

  lemma PressAllStep(s: Settings, texts: seq<string>, text: string)
    ensures PressAll(s, texts + [text]) == Press(PressAll(s, texts), text)
  {
  }

  /** Storage agrees with a setting: the stored text reads back as it. */
  predicate Persisted(s: Settings, key: string)
  {
    key in s.items &&
    (key == "difficulty" ==> s.items[key] == Stringify(s.difficulty)) &&
    (key == "musicVolume" ==> ReadVolume(s.items, key) == s.music) &&
    (key == "soundVolume" ==> ReadVolume(s.items, key) == s.sound)
  }

  predicate IsSettingKey(key: string)
  {
    key == "difficulty" || key == "musicVolume" || key == "soundVolume"
  }

  /** A click persists the setting it changes and keeps every setting that
      was already persisted. */
  lemma PressPersists(s: Settings, text: string, key: string)
    requires IsSettingKey(key)
    ensures Persisted(s, key) ==> Persisted(Press(s, text), key)
    ensures StartsWith(text, "Difficulty") ==> Persisted(Press(s, text), "difficulty")
    ensures !StartsWith(text, "Difficulty") && StartsWith(text, "Music") ==> Persisted(Press(s, text), "musicVolume")
    ensures !StartsWith(text, "Difficulty") && !StartsWith(text, "Music") && StartsWith(text, "Sound") ==>
              Persisted(Press(s, text), "soundVolume")
  {
    var r := Press(s, text);
    if StartsWith(text, "Difficulty") {
    } else if StartsWith(text, "Music") {
      VolumePersists(s.items, "musicVolume", r.music);
    } else if StartsWith(text, "Sound") {
      VolumePersists(s.items, "soundVolume", r.sound);
    }
  }

  /** Any sequence of clicks keeps storage in step with every setting that
      started in step. */
  lemma {:induction false} PressAllPersists(s: Settings, texts: seq<string>, key: string)
    requires IsSettingKey(key) && Persisted(s, key)
    ensures Persisted(PressAll(s, texts), key)
  {
    if texts != [] {
      PressAllPersists(s, texts[..|texts| - 1], key);
      PressPersists(PressAll(s, texts[..|texts| - 1]), texts[|texts| - 1], key);
    }
  }

  class Options {
    const store: Storage
    const buttons: seq<Button>
    var difficulty: Option<string>
    var musicVolume: JsNumber
    var soundVolume: JsNumber

    /** Three distinct buttons. */
    ghost predicate Valid()
    {
      |buttons| == 3 && forall i, j :: 0 <= i < j < |buttons| ==> buttons[i] != buttons[j]
    }

    /** Reads the stored settings and lays out the three buttons. */
    constructor (canvas: Canvas, style: ButtonStyle, store0: Storage)
      ensures Valid() && store == store0 && fresh(buttons[0]) && fresh(buttons[1]) && fresh(buttons[2])
      ensures buttons[0].text == "Difficulty" && buttons[1].text == "Music" && buttons[2].text == "Sound"
      ensures buttons[0].position == Vec(canvas.width / 2.0 - 100.0, canvas.height / 2.0 - 60.0)
      ensures buttons[1].position == Vec(canvas.width / 2.0 - 100.0, canvas.height / 2.0 + 20.0)
      ensures buttons[2].position == Vec(canvas.width / 2.0 - 100.0, canvas.height / 2.0 + 100.0)
      ensures musicVolume == ReadVolume(store0.items, "musicVolume")
      ensures soundVolume == ReadVolume(store0.items, "soundVolume")
      ensures difficulty == store0.GetItem("difficulty")
    {
      var d := new Button(style, Vec(canvas.width / 2.0 - 100.0, canvas.height / 2.0 - 60.0), "Difficulty");
      var m := new Button(style, Vec(canvas.width / 2.0 - 100.0, canvas.height / 2.0 + 20.0), "Music");
      var s := new Button(style, Vec(canvas.width / 2.0 - 100.0, canvas.height / 2.0 + 100.0), "Sound");
      buttons := [d, m, s];
      store := store0;
      musicVolume := ReadVolume(store0.items, "musicVolume");
      soundVolume := ReadVolume(store0.items, "soundVolume");
      difficulty := store0.GetItem("difficulty");
    }

    function Current(): Settings
      reads this, store
    {
      Settings(difficulty, musicVolume, soundVolume, store.items)
    }

    /** Steps the difficulty and stores it; the volumes are untouched. */
    method ChangeDifficulty()
      modifies this`difficulty, store
      ensures difficulty == NextDifficulty(old(difficulty))
      ensures store.items == old(store.items)["difficulty" := Stringify(difficulty)]
    {
      if difficulty == Some(Easy) {
        difficulty := Some(Normal);
      } else if difficulty == Some(Normal) {
        difficulty := Some(Hard);
      } else if difficulty == Some(Hard) {
        difficulty := Some(Nightmare);
      } else if difficulty == Some(Nightmare) {
        difficulty := Some(Easy);
      }
      store.SetItem("difficulty", Stringify(difficulty));
    }

    /** Toggles the music volume and stores it; nothing else changes. */
    method MuteMusic()
      modifies this`musicVolume, store
      ensures musicVolume == Toggle(old(musicVolume))
      ensures store.items == old(store.items)["musicVolume" := NumberText(musicVolume)]
    {
      if musicVolume == Int(1) {
        musicVolume := Int(0);
      } else {
        musicVolume := Int(1);
      }
      store.SetItem("musicVolume", NumberText(musicVolume));
    }

    /** Toggles the sound volume and stores it; nothing else changes. */
    method MuteSound()
      modifies this`soundVolume, store
      ensures soundVolume == Toggle(old(soundVolume))
      ensures store.items == old(store.items)["soundVolume" := NumberText(soundVolume)]
    {
      if soundVolume == Int(1) {
        soundVolume := Int(0);
      } else {
        soundVolume := Int(1);
      }
      store.SetItem("soundVolume", NumberText(soundVolume));
    }

    /** `handleButtonClick`: every button under the mouse acts, in order. */
    method HandleButtonClick(mouseX: real, mouseY: real)
      modifies this`difficulty, this`musicVolume, this`soundVolume, store
      ensures Current() == PressAll(old(Current()), HitTexts(buttons, mouseX, mouseY))
    {
      var i := 0;
      while i < |buttons|
        invariant 0 <= i <= |buttons|
        invariant Current() == PressAll(old(Current()), HitTexts(buttons[..i], mouseX, mouseY))
      {
        var button := buttons[i];
        HitTextsStep(buttons, i, mouseX, mouseY);
        ghost var hits := HitTexts(buttons[..i], mouseX, mouseY);
        if button.CheckPosition(mouseX, mouseY) {
          PressAllStep(old(Current()), HitTexts(buttons[..i], mouseX, mouseY), button.text);
          Click(button.text);
          assert HitTexts(buttons[..i], mouseX, mouseY) == hits;
          assert HitTexts(buttons[..i + 1], mouseX, mouseY) == hits + [button.text];
        } else {
          assert HitTexts(buttons[..i + 1], mouseX, mouseY) == hits;
        }
        i := i + 1;
      }
      assert buttons[..i] == buttons;
    }

    /** The body of `handleButtonClick` for one button under the mouse. */
    method Click(text: string)
      modifies this`difficulty, this`musicVolume, this`soundVolume, store
      ensures Current() == Press(old(Current()), text)
    {
      if StartsWith(text, "Difficulty") {
        ChangeDifficulty();
      } else if StartsWith(text, "Music") {
        MuteMusic();
      } else if StartsWith(text, "Sound") {
        MuteSound();
      }
    }

    /** One button of `render`'s pass: its label, then its palette; the
        shown `color` is left alone and picks up the new palette on the next
        hover. Drawing is not modelled. */
    method RenderButton(button: Button)
      modifies button
      ensures button.text == Relabel(old(button.text), difficulty, musicVolume, soundVolume)
      ensures Palette(button.defaultColor, button.hoverColor) == PaletteFor(button.text, difficulty)
      ensures button.color == old(button.color) && button.isHovered == old(button.isHovered)
    {
      if StartsWith(button.text, "Difficulty") {
        button.text := "Difficulty: " + Stringify(difficulty);
      } else if StartsWith(button.text, "Music") {
        if musicVolume == Int(1) {
          button.text := "Music: 100%";
        } else {
          button.text := "Music: Mute";
        }
      } else if StartsWith(button.text, "Sound") {
        if soundVolume == Int(1) {
          button.text := "Sound: 100%";
        } else {
          button.text := "Sound: Mute";
        }
      }
      if difficulty == Some(Nightmare) && StartsWith(button.text, "Difficulty") {
        button.defaultColor := "red";
        button.hoverColor := "#a32218";
      } else {
        button.defaultColor := "#f8d928";
        button.hoverColor := "#998303";
      }
    }

    /** `render`'s pass over the buttons, in order. */
    method Render()
      requires Valid()
      modifies buttons
      ensures forall i :: 0 <= i < |buttons| ==>
                buttons[i].text == Relabel(old(buttons[i].text), difficulty, musicVolume, soundVolume) &&
                Palette(buttons[i].defaultColor, buttons[i].hoverColor) == PaletteFor(buttons[i].text, difficulty) &&
                buttons[i].color == old(buttons[i].color) && buttons[i].isHovered == old(buttons[i].isHovered)
    {
      var i := 0;
      while i < |buttons|
        invariant 0 <= i <= |buttons|
        invariant forall k :: 0 <= k < i ==>
                    buttons[k].text == Relabel(old(buttons[k].text), difficulty, musicVolume, soundVolume) &&
                    Palette(buttons[k].defaultColor, buttons[k].hoverColor) == PaletteFor(buttons[k].text, difficulty) &&
                    buttons[k].color == old(buttons[k].color) && buttons[k].isHovered == old(buttons[k].isHovered)
        invariant forall k :: i <= k < |buttons| ==>
                    buttons[k].text == old(buttons[k].text) &&
                    buttons[k].color == old(buttons[k].color) && buttons[k].isHovered == old(buttons[k].isHovered)
      {
        RenderButton(buttons[i]);
        i := i + 1;
      }
    }
  }
}
