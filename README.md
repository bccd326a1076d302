# BrickByBrick: a Dafny model of the game's entities, physics and tools

BrickByBrick is a brick-breaking game for the browser canvas. This project
models its core in Dafny and proves properties of the model:

- **Physics.** The rigid-body integrator (force → acceleration → velocity).
- **Current entities.** The ball's wall and paddle collisions, the paddle's
  mouse and keyboard movement, the falling power-up and its capture test,
  and the static body's point and ball tests.
- **UI pieces.** The buttons, the options screen and the current level
  editor.
- **Earlier iterations** of the ball, block, paddle and level editor, each
  kept as its own module.

Numbers are modelled as mathematical reals, and `Math.floor` as `.Floor`.
Several `{x, y}` objects are shared by reference in the game, so they are a
mutable `Geometry.Vector2` class:

- The paddle's `position` is its `startPosition`.
- A power-up's position is the caller's `startPosition`, moved in place.
- A power-up's velocity is the configuration's velocity object.

Every entity method is proved against a function on values: its `ensures`
says the new state is that function of the old state. The properties are
then proved about those functions.

One module per source file:

| module | source |
|---|---|
| `Geometry` | shared vectors, boxes and the closed-rectangle point test |
| `JsText` | the JavaScript value rules the settings and editor use: `null` as text, `parseInt`, number `toString`, `startsWith`, string `<` |
| `RigidBodies` | src/classes/bodies/rigidBody.js |
| `StaticBodies` | src/classes/bodies/staticBody.js |
| `Balls` | src/classes/entities/ball.js |
| `Paddles` | src/classes/entities/paddle.js |
| `PowerUps` | src/classes/entities/powerUp.js |
| `Buttons` | src/classes/components/button.js |
| `OptionsMenu` | src/classes/tools/options.js |
| `LevelEditing` | src/classes/tools/levelEditor.js |
| `LegacyEditing` | src/classes/levelEditor.js |
| `LegacyBalls` | src/classes/ball.js |
| `LegacyBlocks` | src/classes/block.js |
| `LegacyPaddles` | src/classes/paddle.js |

Inheritance becomes composition. `Ball` and `PowerUp` hold a `RigidBody` in
`body`, and the early `Block` holds a `StaticBody` value.

## Model

| member | source | states |
|---|---|---|
| RigidBodies.Step | src/classes/bodies/rigidBody.js:12-42 | one physics step leaves no pending force; the new acceleration times the mass equals the force that was pending; the velocity moved by exactly acceleration × dt |
| RigidBodies.Pushed | src/classes/bodies/rigidBody.js:34-37 | applying a force adds it to the pending force and leaves velocity and acceleration alone |
| RigidBodies.ForcesAccumulate | src/classes/bodies/rigidBody.js:34-37 | two forces applied in turn act as their sum |
| RigidBodies.StepAtRest | src/classes/bodies/rigidBody.js:24-32 | with no pending force, a step zeroes the acceleration and keeps the velocity |
| RigidBodies.StepSettles | src/classes/bodies/rigidBody.js:12-17 | because the force is reset after each step, a second step no longer changes the velocity |
| RigidBodies.RigidBody.constructor | src/classes/bodies/rigidBody.js:3-9 | the velocity object is kept by reference; acceleration and force start as fresh zero vectors |
| RigidBodies.RigidBody.AtRest | src/classes/bodies/rigidBody.js:3-9 | with every default, all three vectors are fresh zeros |
| RigidBodies.RigidBody.UpdatePhysics | src/classes/bodies/rigidBody.js:12-17 | the new velocity, acceleration and force are `Step` of the old ones |
| RigidBodies.RigidBody.UpdateAccelaration | src/classes/bodies/rigidBody.js:24-27 | acceleration becomes force / mass, per component |
| RigidBodies.RigidBody.UpdateVelocity | src/classes/bodies/rigidBody.js:29-32 | velocity grows by acceleration × dt |
| RigidBodies.RigidBody.ApplyForce | src/classes/bodies/rigidBody.js:34-37 | the state becomes `Pushed` of the old state by the old value of `f`, even when `f` is the force object itself |
| RigidBodies.RigidBody.ResetForce | src/classes/bodies/rigidBody.js:39-42 | the force becomes zero |
| StaticBodies.AtOrigin | src/classes/bodies/staticBody.js:2-6 | a body built without a position sits at the origin |
| StaticBodies.Contains | src/classes/bodies/staticBody.js:9-16 | the inclusive point test: the closed-rectangle test of the body's rectangle, whose corners are inside by `Geometry.ClosedBoxCorners` |
| StaticBodies.ContainsBall | src/classes/bodies/staticBody.js:18-36 | the four strict comparisons of the ball's box against the block's grown box; characterised by `ContainsBallAsGrownBlock` |
| Geometry.ClosedBoxCorners | src/classes/bodies/staticBody.js:9-16 | the closed-rectangle point test (also the button hit test, src/classes/components/button.js:43-50) counts all four corners as inside, and nothing left of or above the box |
| StaticBodies.ContainsBallAsGrownBlock | src/classes/bodies/staticBody.js:18-36 | the ball test holds iff the centre is strictly inside the block grown by radius + half of each stroke |
| StaticBodies.TouchingIsNotContact | src/classes/bodies/staticBody.js:31-35 | boxes that only touch, on any of the four sides, do not count (strict comparisons) |
| StaticBodies.ContainsImpliesContainsBall | src/classes/bodies/staticBody.js:9-36 | a centre inside the block implies contact when the ball has positive size |
| Balls.Reflect | src/classes/entities/ball.js:64-73 | one axis of the wall test: velocity kept or negated; far wall checked first and clamped to limit − s; near wall clamped to s; a ball strictly inside is untouched; on a wide enough canvas the result lies in [s, limit − s] |
| Balls.Walls | src/classes/entities/ball.js:60-86 | after the wall test the centre lies inside the canvas, shrunk by the effective size; a ball strictly inside is unchanged; the absolute velocity components are kept |
| Balls.BottomWallReflects | src/classes/entities/ball.js:64-67 | a ball at the bottom is clamped to height − s and its vertical velocity negated |
| Balls.TopWallReflects | src/classes/entities/ball.js:70-73 | the top wall acts only when the bottom one did not, clamping to s |
| Balls.RightWallWins | src/classes/entities/ball.js:76-79 | the right wall takes precedence over the left |
| Balls.AxesIndependent | src/classes/entities/ball.js:60-86 | each axis's outcome depends only on that axis's position and velocity |
| Balls.BounceVelocity | src/classes/entities/ball.js:47-57 | the vertical velocity is negated; the horizontal one is set to 0 at the paddle's centre, −multiplier and +multiplier at its edges, and at most the multiplier in size across the paddle |
| Balls.BounceLinear | src/classes/entities/ball.js:47-57 | the horizontal velocity changes by (x2 − x1) / (width / 2) × multiplier between any two hit points, so with the zero at the centre it is the offset over half the width times the multiplier |
| Balls.OnPaddle | src/classes/entities/ball.js:93-96 | the ball's vertical extent meets the paddle's and its centre is within the paddle's span, edges included, with no direction test (used by `PaddleResolve` and `RisingBallTurnedDown`) |
| Balls.PaddleResolve | src/classes/entities/ball.js:89-99 | never moves the ball; off the paddle nothing changes; on it the velocity becomes `BounceVelocity` at the ball's x (vertical negated, horizontal bounded by the multiplier) |
| Balls.RisingBallTurnedDown | src/classes/entities/ball.js:93-96 | there is no direction test: a rising ball that touches the paddle is sent downward |
| Balls.Moved | src/classes/entities/ball.js:42-45 | the position advances by the velocity, which is kept |
| Balls.Collide | src/classes/entities/ball.js:22-23 | walls then paddle keep a ball on a large enough canvas inside it |
| Balls.Tick | src/classes/entities/ball.js:21-27 | walls and paddle first, then one physics `Step` from the post-collision velocity, then the ball moves by the new velocity from its post-collision position; no force is left pending; with none pending before, it moves by its post-collision velocity |
| Balls.BottomScenario | src/classes/entities/ball.js:61-66 | a ball 5 units past the bottom of a 600-high canvas (radius 10, stroke 2) is put back at 589 moving up |
| Balls.Ball.constructor | src/classes/entities/ball.js:4-19 | position and velocity are copied into fresh objects; acceleration and force start at zero |
| Balls.Ball.Update | src/classes/entities/ball.js:21-27 | the new state is `Tick` of the old state against the paddle's rectangle |
| Balls.Ball.Move | src/classes/entities/ball.js:42-45 | the state is `Moved` of the old state |
| Balls.Ball.Bounce | src/classes/entities/ball.js:47-57 | the velocity becomes `BounceVelocity` of the old one |
| Balls.Ball.CheckBoundingBox | src/classes/entities/ball.js:60-86 | position and velocity become `Walls` of the old ones |
| Balls.Ball.CheckPaddleBox | src/classes/entities/ball.js:89-99 | position and velocity become `PaddleResolve` of the old ones |
| Paddles.MouseTarget | src/classes/entities/paddle.js:27-42 | the three branches (right pin, left pin, centred on the mouse); the paddle stays one stroke inside both edges when the canvas is wide enough |
| Paddles.MouseTargetMonotone | src/classes/entities/paddle.js:27-42 | moving the mouse right never moves the paddle left |
| Paddles.KeyStep | src/classes/entities/paddle.js:56-61 | 15 left iff Left arrow or A (37, 65); 15 right iff Right arrow or D (39, 68); otherwise no move |
| Paddles.KeyClamp | src/classes/entities/paddle.js:63-67 | the key clamp keeps the paddle within [0, canvas width]; a paddle inside the stroke margins is kept; past the left margin it lands at 0; otherwise, past the right margin, it lands at canvas width − width |
| Paddles.KeyClampBelowMouseRange | src/classes/entities/paddle.js:27-68 | the key clamp can leave the paddle left of where mouse movement ever puts it |
| Paddles.Paddle.constructor | src/classes/entities/paddle.js:2-15 | the position is the configured start-position object itself; the start width is remembered |
| Paddles.Paddle.Move | src/classes/entities/paddle.js:27-42 | x becomes `MouseTarget`; y is kept |
| Paddles.Paddle.HandleKey | src/classes/entities/paddle.js:54-68 | x becomes `KeyClamp(KeyStep(x))`; y is kept |
| Paddles.Paddle.ResetPosition | src/classes/entities/paddle.js:70-73 | the paddle is centred; y does not change, because it is reset from the very same object; the start position now holds the centred x |
| Paddles.Paddle.ResetWidth | src/classes/entities/paddle.js:75-77 | the width returns to the configured width |
| PowerUps.CapturedBand | src/classes/entities/powerUp.js:73-88 | capture holds iff the bottom lies in [paddle top, paddle top + 2 × height], the centre lies within the paddle's span, and the power-up is falling |
| PowerUps.RisingNeverCaptured | src/classes/entities/powerUp.js:83 | a power-up that is not falling is never captured |
| PowerUps.Captured | src/classes/entities/powerUp.js:73-88 | the capture test; characterised as an iff by `CapturedBand` |
| PowerUps.CaptureEdgesInclusive | src/classes/entities/powerUp.js:79 | both horizontal bounds are inclusive |
| PowerUps.Tick | src/classes/entities/powerUp.js:41-43 | physics is one `Step`; the position advances by the new velocity |
| PowerUps.TickAtRest | src/classes/entities/powerUp.js:41-93 | with no force pending, the power-up moves in a straight line at its initial velocity |
| PowerUps.PowerUp.constructor | src/classes/entities/powerUp.js:4-22 | the caller's start position is shifted right by half the block width in place and kept as the position; the configuration's velocity object is kept |
| PowerUps.PowerUp.Update | src/classes/entities/powerUp.js:41-43 | the new state is `Tick` of the old state |
| PowerUps.PowerUp.Move | src/classes/entities/powerUp.js:90-93 | the position advances by the velocity |
| PowerUps.PowerUp.CheckPaddleBox | src/classes/entities/powerUp.js:73-88 | `Captured` of the power-up's centre, vertical velocity and size against the paddle's rectangle; reading state only, it changes nothing |
| Buttons.Button.constructor | src/classes/components/button.js:3-23 | a new button is not hovered and shows its default colour |
| Buttons.Button.CheckPosition | src/classes/components/button.js:43-50 | the inclusive hit test of the button's rectangle (`Geometry.InClosedBox`) |
| Buttons.Button.HandleMouseHover | src/classes/components/button.js:52-64 | `isHovered` is the hit test of the mouse point; the colour is the hover colour iff hovered, else the default; nothing else changes, so hovering twice is hovering once |
| Buttons.HitTexts | src/classes/tools/options.js:123-124 | the labels of the buttons under the mouse, in button order; never more labels than buttons |
| Buttons.HitTextsMembers | src/classes/tools/options.js:123-124 | a label is among the hit labels iff some button under the mouse carries it |
| OptionsMenu.Storage.SetItem | src/classes/tools/options.js:153-163 | the key is bound to the new text, so `GetItem` of it reads the new text back, and `GetItem` of every other key is unchanged |
| OptionsMenu.ReadVolume | src/classes/tools/options.js:30-31 | an absent key reads as NaN |
| OptionsMenu.NextDifficulty | src/classes/tools/options.js:77-94 | the four difficulties map to a different one of the four; any other value (`null` when nothing is stored) is kept |
| OptionsMenu.DifficultyOrbit | src/classes/tools/options.js:77-94 | the four difficulties are exactly EASY, NORMAL, HARD, NIGHTMARE, and each change moves to the next in that order, NIGHTMARE to EASY |
| OptionsMenu.DifficultyCycle | src/classes/tools/options.js:77-94 | four changes restore any value |
| OptionsMenu.Toggle | src/classes/tools/options.js:98-113 | the result is 0 or 1, and it is 0 iff the volume was exactly 1, so NaN becomes 1 |
| OptionsMenu.ToggleTwice | src/classes/tools/options.js:98-113 | from 0 or 1, two toggles restore the volume |
| OptionsMenu.VolumePersists | src/classes/tools/options.js:30-159 | the text a toggle writes reads back as the volume |
| OptionsMenu.DifficultyPersists | src/classes/tools/options.js:32-163 | a difficulty survives storage; `null` is written as the text "null", which the cycle then keeps |
| OptionsMenu.PaletteFor | src/classes/tools/options.js:60-67 | red colours iff the difficulty is NIGHTMARE and the label is the difficulty button's; the red pair hovers in "#a32218", and every other button gets the pair "#f8d928" / "#998303" |
| OptionsMenu.MusicLabel | src/classes/tools/options.js:46-51 | "Music: 100%" iff the music volume is 1, else "Music: Mute" |
| OptionsMenu.SoundLabel | src/classes/tools/options.js:53-58 | "Sound: 100%" iff the sound volume is 1, else "Sound: Mute" |
| OptionsMenu.Relabel | src/classes/tools/options.js:42-58 | the text `render` gives a button by its prefix; read through `MusicLabel`, `SoundLabel` and `RelabelIdempotent` |
| OptionsMenu.RelabelIdempotent | src/classes/tools/options.js:42-58 | a relabelled button keeps its prefix, so rendering twice labels as rendering once |
| OptionsMenu.Press | src/classes/tools/options.js:123-133 | the first matching prefix decides: "Difficulty" moves to `NextDifficulty`, "Music" and "Sound" `Toggle` their volume; the changed setting is written to its storage key and the other two settings are kept; a label with none of the three prefixes changes nothing |
| OptionsMenu.PressAll | src/classes/tools/options.js:117-135 | clicks on the labelled buttons in order, each through `Press`; kept in step with storage by `PressAllPersists` |
| OptionsMenu.Persisted | src/classes/tools/options.js:153-163 | the key is stored; the difficulty is stored as `Stringify` of the field (so `null` as "null"); each volume parses back to its field |
| OptionsMenu.PressPersists | src/classes/tools/options.js:95-113 | a click writes the setting it changes so that it reads back, and keeps every setting already in step with storage |
| OptionsMenu.PressAllPersists | src/classes/tools/options.js:117-135 | any run of clicks keeps storage in step with every setting that started in step |
| OptionsMenu.Options.constructor | src/classes/tools/options.js:11-37 | three fresh buttons at the given offsets; the volumes are `parseInt` of the stored text; the difficulty is the stored value or `null` |
| OptionsMenu.Options.ChangeDifficulty | src/classes/tools/options.js:77-96 | the difficulty becomes `NextDifficulty`; storage binds "difficulty" to its text; the volumes are not touched |
| OptionsMenu.Options.MuteMusic | src/classes/tools/options.js:98-105 | the music volume is toggled and stored; nothing else changes |
| OptionsMenu.Options.MuteSound | src/classes/tools/options.js:107-114 | the sound volume is toggled and stored; nothing else changes |
| OptionsMenu.Options.HandleButtonClick | src/classes/tools/options.js:117-135 | the settings and storage become `PressAll` of the labels under the mouse |
| OptionsMenu.Options.Click | src/classes/tools/options.js:124-133 | one button under the mouse acts: the settings and storage become `Press` of its label |
| OptionsMenu.Options.RenderButton | src/classes/tools/options.js:43-67 | one button's label and palette are set; its shown colour and hover flag are kept |
| OptionsMenu.Options.Render | src/classes/tools/options.js:39-71 | every button gets its label and the palette of that label |
| LevelEditing.NextHp | src/classes/tools/levelEditor.js:153-179 | each of the six values 1–5 and "Unbreakable" maps to a different one of the six; anything else is kept |
| LevelEditing.HpOrbit | src/classes/tools/levelEditor.js:153-179 | the six values are exactly 1, 2, 3, 4, 5, "Unbreakable", and each change moves to the next in that order, "Unbreakable" to 1 |
| LevelEditing.HpCycle | src/classes/tools/levelEditor.js:153-179 | six changes restore any value |
| LevelEditing.KeyHp | src/classes/tools/levelEditor.js:212-219 | key "6" gives "Unbreakable"; keys "1" to "5" give that number; a key not starting with 1–5 keeps the value, apart from "6"; a new number is at least 1 |
| LevelEditing.DigitKeyParses | src/classes/tools/levelEditor.js:216-217 | a key between "1" and "5" in string order starts with one of those digits and parses to a number |
| LevelEditing.SingleKeyKeepsHpValid | src/classes/tools/levelEditor.js:212-219 | no single-character key takes the hit points outside the six values |
| LevelEditing.GridSnap | src/classes/tools/levelEditor.js:111-112 | for a positive cell size, the snapped coordinate is at or before the point and less than one cell before it; for any non-zero size it is a whole multiple of the size |
| LevelEditing.GridSnapOnLine | src/classes/tools/levelEditor.js:111-112 | a grid line snaps to itself |
| LevelEditing.GridSnapIdempotent | src/classes/tools/levelEditor.js:111-112 | snapping twice is snapping once |
| LevelEditing.GridCount | src/classes/tools/levelEditor.js:42-43 | the number of whole cells that fit: count × size ≤ length < (count + 1) × size |
| LevelEditing.Placement | src/classes/tools/levelEditor.js:102-125 | a block is placed iff the centred y is above the canvas middle; it has the current hit points and the editor's style; its corner is the grid line at or before the centred click on both axes |
| LevelEditing.Undo | src/classes/tools/levelEditor.js:195-197 | removes exactly the last block; an empty list stays empty |
| LevelEditing.UndoAfterAdd | src/classes/tools/levelEditor.js:123-196 | undo takes back exactly the last placement |
| LevelEditing.Records | src/classes/tools/levelEditor.js:129-132 | one `{position, hp}` record per block, in list order |
| LevelEditing.SaveData | src/classes/tools/levelEditor.js:128-134 | one level entry whose records carry each block's position and hit points, in order |
| LevelEditing.SaveAfterAdd | src/classes/tools/levelEditor.js:123-134 | placing a block appends exactly its record to the saved data |
| LevelEditing.SaveDeterminesBlocks | src/classes/tools/levelEditor.js:114-132 | blocks in the editor's one style are determined by their saved data |
| LevelEditing.ButtonAction | src/classes/tools/levelEditor.js:188-207 | "Undo" pops; "Clear" empties; any other label keeps the list; a label starting with "Block" steps the hit points |
| LevelEditing.ApplyClicks | src/classes/tools/levelEditor.js:182-209 | clicks on the labelled buttons in order, each through `ButtonAction`; bounded by `ClicksKeepPrefix` |
| LevelEditing.ClicksKeepPrefix | src/classes/tools/levelEditor.js:182-209 | any run of clicks leaves a prefix of the block list and keeps the hit points among the six values |
| LevelEditing.LevelEditor.constructor | src/classes/tools/levelEditor.js:5-44 | an empty level at hit points 1; four buttons at the given offsets; the grid counts are `GridCount` of the canvas |
| LevelEditing.LevelEditor.AddBlock | src/classes/tools/levelEditor.js:102-125 | the list grows by the placed block, if any, at the end |
| LevelEditing.LevelEditor.ChangeBlock | src/classes/tools/levelEditor.js:153-179 | the hit points become `NextHp` |
| LevelEditing.LevelEditor.HandleKeyPress | src/classes/tools/levelEditor.js:212-219 | the hit points become `KeyHp` of the key |
| LevelEditing.LevelEditor.SaveFile | src/classes/tools/levelEditor.js:128-134 | the saved data is `SaveData` of the block list |
| LevelEditing.LevelEditor.HandleButtonClick | src/classes/tools/levelEditor.js:182-209 | the list and hit points become `ApplyClicks` of the labels under the mouse |
| LevelEditing.LevelEditor.Click | src/classes/tools/levelEditor.js:189-206 | one button under the mouse acts: the list and hit points become `ButtonAction` of its label |
| LegacyEditing.EditorBlock.constructor | src/classes/levelEditor.js:75-82 | a block with its own fresh position object |
| LegacyEditing.SnapAxis | src/classes/levelEditor.js:134-154 | past the near border the coordinate snaps to `lineWidth`; past the far border it snaps to limit − size − lineWidth, and that test runs second, so it wins; a block already inside is kept; when the block fits, it ends within the borders |
| LegacyEditing.SnapAxisIdempotent | src/classes/levelEditor.js:134-154 | when the block fits, snapping twice is snapping once |
| LegacyEditing.SnapAxisTooWide | src/classes/levelEditor.js:144-153 | a block too large for the borders ends up over the near border |
| LegacyEditing.OverlapSymmetric | src/classes/levelEditor.js:161-166 | the overlap test reads the same with the two blocks swapped |
| LegacyEditing.Overlaps | src/classes/levelEditor.js:161-166 | the four strict comparisons of `isOverlapping`, each grown by the stroke width; symmetric by `OverlapSymmetric` |
| LegacyEditing.AnyOverlap | src/classes/levelEditor.js:157-168 | false on an empty list; true iff some stored block overlaps the candidate |
| LegacyEditing.SamePlaceOverlaps | src/classes/levelEditor.js:157-168 | a block overlaps itself |
| LegacyEditing.LevelEditor.constructor | src/classes/levelEditor.js:5-36 | an empty level with the Save, Load and Clear buttons at their offsets |
| LegacyEditing.LevelEditor.SnapToEdge | src/classes/levelEditor.js:134-154 | each coordinate becomes `SnapAxis` of its old value |
| LegacyEditing.LevelEditor.Boxes | src/classes/levelEditor.js:160 | the rectangles of the stored blocks, in order |
| LegacyEditing.LevelEditor.IsOverlapping | src/classes/levelEditor.js:157-168 | `AnyOverlap` of the stored blocks' rectangles, so true iff some stored block overlaps the candidate |
| LegacyEditing.LevelEditor.AddBlock | src/classes/levelEditor.js:66-94 | a centred click above the middle appends exactly one fresh, snapped block after the old list; any other click changes nothing |
| LegacyEditing.LevelEditor.Clear | src/classes/levelEditor.js:235-236 | the list becomes empty |
| LegacyBalls.Flip | src/classes/ball.js:34-43 | top or bottom hit: only vertical velocity flips; at most one component flips; absolute values kept; strictly inside keeps the velocity; a left or right hit without a top or bottom hit flips only the horizontal velocity; a horizontal flip means no vertical hit |
| LegacyBalls.CornerFlipsOnlyY | src/classes/ball.js:32-41 | in a corner only the vertical component flips |
| LegacyBalls.Tick | src/classes/ball.js:20-30 | for any pending force, the motion is one physics `Step` from the `Flip`ped velocity and the position advances by the new velocity; no force is left pending; with none pending before, the new velocity is `Flip` of the old one |
| LegacyBalls.Ball.constructor | src/classes/ball.js:4-18 | position and velocity copied into fresh objects |
| LegacyBalls.Ball.Update | src/classes/ball.js:20-25 | the new position and motion are `Tick` of the old ones |
| LegacyBalls.Ball.Move | src/classes/ball.js:27-30 | the position advances by the velocity |
| LegacyBalls.Ball.CheckBoundingBox | src/classes/ball.js:34-43 | only the velocity changes, to `Flip` of the old one; the position is never clamped |
| LegacyBlocks.Hit | src/classes/block.js:16-19 | a destroyed block stays destroyed; a centre inside destroys it; a centre outside changes nothing |
| LegacyBlocks.HitAll | src/classes/block.js:15-18 | the flag after one update per ball centre, in order; characterised by `HitAllExactly` |
| LegacyBlocks.HitAllExactly | src/classes/block.js:13-19 | after any run of updates, the block is destroyed iff it was before or some centre fell inside it |
| LegacyBlocks.StaysDestroyed | src/classes/block.js:13-19 | nothing resets the flag |
| LegacyBlocks.Block.constructor | src/classes/block.js:4-14 | a new block is not destroyed |
| LegacyBlocks.Block.Update | src/classes/block.js:16-19 | the flag becomes `Hit` of the old flag; the rectangle is constant |
| LegacyPaddles.MoveTarget | src/classes/paddle.js:31-41 | the right test is strict and pins to width − 152; otherwise mouse − 77 < 0 pins to 2; otherwise the paddle is centred on the mouse; with a canvas at least 154 wide the paddle stays within [2, width − 150] |
| LegacyPaddles.RightEdgeStepBack | src/classes/paddle.js:33-40 | near the right edge, moving the mouse one unit right moves the paddle two units left |
| LegacyPaddles.Paddle.constructor | src/classes/paddle.js:2-15 | the paddle starts at (325, 600) |
| LegacyPaddles.Paddle.Move | src/classes/paddle.js:31-41 | x becomes `MoveTarget`; y is kept |
| JsText.NumberTextRoundTrip | src/classes/tools/options.js:153-159 | `parseInt` of the plain decimal text of an integer gives the integer back (`toString`'s exponent form from 1e21 on is not modelled; the game writes only 0 and 1) |

## Notes on the code

- **Bottom wall.** The bottom wall is tested first and is clamped and
  reflected like the other three (src/classes/entities/ball.js:64-67;
  `Balls.BottomWallReflects`, `Balls.BottomScenario`).
- **Paddle: direction of travel.** The ball's paddle test has no test of
  the direction of travel (src/classes/entities/ball.js:93-96), so a
  rising ball that touches the paddle is turned down
  (`Balls.RisingBallTurnedDown`).
- **Paddle: vertical band.** The ball's paddle band is its vertical extent
  meeting the paddle's: [paddle top − s, paddle bottom + s]. The band that
  reaches one extra paddle height below the paddle is the power-up's
  capture test, src/classes/entities/powerUp.js:79-83
  (`PowerUps.CapturedBand`).

## Left out

- Drawing: all `render`, `renderGrid`, `renderPreviewBlock` and `clear` calls, canvas contexts, stroke and fill colours of blocks, images, fonts.
- DOM and events: `getBoundingClientRect`, the listeners and the `bind` calls. Event handlers take the mouse point or the key as parameters.
- The level editor's button labels `"Block: " + hp` set by its `render` (src/classes/tools/levelEditor.js:55-58); they are drawing-time text only.
- The JSON text and the download (`JSON.stringify`, `dowloadJson`), and `loadLevel`'s fetch: I/O. `SaveData` is the value that is turned into text.
- `localStorage` is a `Storage` object with a map. Its sharing with the rest of the page is not modelled.
- The power-up's glow pulse (src/classes/entities/powerUp.js:45-48): a cosmetic floating-point oscillation.
- The power-up's image choice by `power`: asset loading only.
- `previewBlock` in src/classes/levelEditor.js:97-120: it passes the previous preview (or, the first time, the method itself) to `isOverlapping`, so its colour rule is not well defined.
- src/classes/game.js and src/main.js: orchestration only. Win and lose, score, hit-point loss on a hit, power-up spawning and the first-hit choice among blocks are implemented in no file shown, so nothing of them is modelled.
- The empty `update()` of src/classes/paddle.js and its `handleMouse`, which refers to fields the class never sets.
- Floating point: numbers are exact reals, so rounding in divisions and in the power-up's x shift is not modelled.
- Division by zero: `RigidBodies.Step` and the methods that call it require a non-zero mass. `Balls.BounceVelocity` and the paddle collisions require a non-zero paddle width. The editor's grid functions and constructor require a non-zero block size. JavaScript would produce Infinity or NaN in those cases.
- LevelEditing.KeyHp: keys are compared with string order as the source does. A multi-character key starting with 1–4 would parse to its whole leading number; browsers send no such key, and the model keeps the general result without restricting it.
- Buttons.HitTexts: its own contract states only a length bound, and `HitTextsMembers` states which labels it holds; their order is carried by its definition and `HitTextsStep`, through which the click loops are proved equal to the click functions.
- JavaScript's `parseInt` without a radix reads "0x" as hexadecimal. `JsText.ParseInt` reads decimal only; every string the game parses is decimal text or a key name.
- JsText.NumberText: writes every integer in plain decimal. JavaScript's `toString` switches to exponent form ("1e+21") from 1e21 in size on, which parses back as a different number; the game only ever writes the volumes 0 and 1.
