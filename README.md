# Side-scrolling platformer core, modelled in Dafny

The repository holds two small pygame scripts of a "Super Mario Bros" style demo:

- `mariogpttest.py` has a level-select menu and two levels.
- `client.py` has one level and no menu.

Both share a small integer game core:
- a tile colour table;
- a tile renderer that culls to the 17 columns around the camera;
- Mario's per-tick physics: held keys, jump impulse, move, gravity, snap to the ground line at y = 176;
- a camera centred on Mario and clamped to the level;
- sprite visibility.

`mariogpttest.py` adds a menu/game state machine driven by key events. This project models that core and proves its properties.

Files and modules:

- `events.dfy` (`Events`): what a pass of either loop reads, namely the pending window events and the held LEFT, RIGHT and SPACE keys.
- `render.dfy` (`Render`): `get_tile_color` and `draw_level` are the same code in both scripts (`client.py:35-57` and `mariogpttest.py:70-92`), so they are modelled once here. A draw call becomes a `Rect(x, y, w, h, color)` in a returned sequence. `DrawLevel` keeps the nested loops of the source and is proved equal to the specification `LevelRects`. The lemmas show that every visible non-empty tile gets exactly one square, in reading order, and nothing else is drawn. Mario and enemy visibility (`0 <= x - camera_x < 256`) is modelled here too.
- `physics.dfy` (`Physics`): one tick of each variant as a function. `GameTick` clamps x to the level, as `mariogpttest.py` does, and its contract carries the level bounds. `ClientTick` does not clamp, as in `client.py`. The camera is a separate function. The lemmas cover:
  - the jump guard;
  - the grounded fixed point;
  - where the two variants agree;
  - a jump from rest landing on exactly its 21st tick;
  - steady walking.
- `menu_game.dfy` (`MenuGame`): the module globals of `mariogpttest.py` are the fields of class `Game` (the `"game"` value of `game_state` is the constructor `Playing`). Its methods update them in place, following `reset_game` and `update_loop`, and the `main` loop appears as `RunMain`. Each method is proved against a pure function on a `Session` value: `Reset`, `HandleEvent`, `HandleEvents`, `Advance`, `DrawFrame`, `Run`. Both scripts draw a play-field pass the same way, so `Render.PlayfieldRects` is shared. The state machine's properties are lemmas about those functions.
- `client.dfy` (`Client`): the globals of `client.py` are the fields of class `ClientGame`. `Pass` is one iteration of the top-level `while running` loop and `RunLoop` is the loop. They are proved against `Step`, `Draw` and `Run`. `RunFollowsTicks` ties `Run` to the tick fold `ClientTicks`, so the walking scenarios are stated over the loop itself, from the globals' initial values.

Behaviour kept as the code has it:

- `reset_game` declares `global marhoria_x` (`mariogpttest.py:106`), so its `mario_x = 32` only binds a local. The model keeps that behaviour: `Game.ResetGame` assigns a local `marioX` that shadows the field, and `Reset` keeps Mario's x. `SpawnNotRestored` shows Mario re-entering level 1-1 two pixels right of the spawn point.
- `client.py` has no boundary check on x, so Mario can walk off either end of the level (`WalkOffLeftEdge`, `WalkRightScenario`).
- Rows are not checked to be the same length. The level width comes from row 0, and each row is cut at its own length when drawn.
- Both scripts move y, then add gravity, then check the ground, in that order. The only difference between the two ticks is the x clamp (`VariantsAgree`).
- A QUIT event does not stop the pass it arrives in. The rest of that pass's events are still handled, and physics and drawing still run. The loop stops before the next pass (`MenuGame.QuitEndsRun`, `Client.QuitEndsRun`).

## Model

| member | source | states |
|---|---|---|
| Render.TileColor | mariogpttest.py:70-79 | '#', 'B', '?' and 'P' map to brown, gray, yellow and green; a character gets black exactly when it is none of those four |
| Render.RowRectsExact | mariogpttest.py:86-92 | one row emits a square for exactly the non-'.' columns from `camera_x//16` up to the bound, placed at `(col*16 - camera_x, row*16)`, left to right |
| Render.LevelRectsSound | mariogpttest.py:85-92 | every emitted square is the square of a non-'.' tile of an existing row, in that row's window `[camera_x//16, min(camera_x//16+17, len(row)))` |
| Render.LevelRectsComplete | mariogpttest.py:85-92 | every non-'.' tile in the window of every row has its square emitted |
| Render.LevelRectsOrdered | mariogpttest.py:85-86 | squares come out row by row, top to bottom, and left to right within a row |
| Render.DrawnExactlyOnce | mariogpttest.py:82-92 | exactly one square per visible non-empty tile: all are drawn, nothing else is, none twice |
| Render.DrawnNearScreen | client.py:47-57 | every tile square is 16x16, lies within the screen plus one column of overscan (`-16 < x <= 256`), within the level's rows, and is never sky- or Mario-coloured |
| Render.ShortRowDrawsNothing | client.py:50-51 | a row whose length is at most `camera_x//16` draws nothing |
| Render.DrawLevel | mariogpttest.py:82-92 | the nested-loop renderer returns exactly `LevelRects` for any camera offset `>= 0` |
| Render.MarioSprite | mariogpttest.py:194-196 | Mario's 16x16 red square at `(x - camera_x, y)` is drawn if and only if `0 <= x - camera_x < 256` |
| Render.EnemySpritesExact | mariogpttest.py:197-200 | an enemy square `(e.x - camera_x, e.y, 16, 16)` is emitted if and only if `0 <= e.x - camera_x < 256`; at most one square per enemy |
| Render.DrawEnemies | client.py:143-146 | the enemy loop returns exactly the on-screen enemies' squares in list order |
| Render.PlayfieldRects | mariogpttest.py:191-200 | the drawing of a play-field pass (level, then Mario, then enemies) holds only 16x16 squares near the screen and never in the sky colour, and a red square appears exactly when Mario's left edge is on screen |
| Physics.HandleInput | mariogpttest.py:163-172 | the input block keeps the position, sets vx to the steering speed, sets the jump flag exactly when it was set or space is held, and sets vy to -10 only when a jump starts |
| Physics.Steer | mariogpttest.py:164-169 | speed is -2 exactly when LEFT is held (RIGHT or not); +2 exactly when only RIGHT is held; 0 exactly when neither is |
| Physics.ClampX | mariogpttest.py:176-179 | with `level_width >= 16`, x ends in `[0, level_width-16]`, is unchanged when already there, and is the nearest point of that range |
| Physics.Fall | mariogpttest.py:180-185 | after the vertical step `y <= 176`; the tick ends with `y=176, vy=0`, not jumping, exactly when `y+vy >= 176`; otherwise y moves by vy and vy grows by gravity |
| Physics.Camera | mariogpttest.py:188-189 | camera is in `[0, max(0, level_width-256)]`; it is `x-128` when that lies in range, 0 below, the upper bound above |
| Physics.GameTick | mariogpttest.py:162-185 | after a game tick x is the clamp of `x + speed` to the level, so `0 <= x <= level_width-16` for `level_width >= 16`; vx is the steering speed and `y <= 176` |
| Physics.ClientTick | client.py:112-130 | a client tick moves x by exactly the steering speed, with no bound, sets vx to that speed and keeps `y <= 176` |
| Physics.LeftEdgeBehaviour | client.py:113-124 | holding LEFT at x=0: client.py reaches x=-2, mariogpttest.py stays at 0 |
| Physics.VariantsAgree | client.py:123-130 | the two ticks always agree on y, both velocities and the jump flag; inside the level they are equal |
| Physics.JumpGuard | client.py:119-130 | with space held and no jump under way, the tick ends 10 px higher with vy=-9, jumping; otherwise, unless landing, vy changes only by gravity |
| Physics.AirborneIgnoresSpace | mariogpttest.py:170-172 | while a jump is under way, holding space changes nothing in either variant |
| Physics.GroundedIdleIsFixed | mariogpttest.py:180-185 | standing at rest without space stays grounded at rest; with no arrow held the whole state is a fixed point of both ticks |
| Physics.ClientTicksFromFront | client.py:105-130 | running ticks over a key list equals the first tick followed by the ticks of the rest, so the per-pass loop and the fold over the keys agree |
| Physics.JumpArc | client.py:124-130 | on tick k (1..20) of a jump from rest Mario is airborne, `10+9+...+(11-k)` above the ground, with vy = k-10 |
| Physics.JumpLandsOnTick21 | client.py:119-130 | a jump from rest is airborne and above ground on ticks 1-20 and lands (y=176, vy=0, not jumping) on tick 21, whatever keys follow |
| Physics.WalkSteady | client.py:112-130 | holding the same arrows (no space) from rest on the ground moves x by the steering speed every tick and stays grounded |
| MenuGame.LevelDataShape | mariogpttest.py:16-44 | levels 1-1 and 1-2 are 12 rows of 40 tiles, 640 px wide |
| MenuGame.Reset | mariogpttest.py:105-112 | reset puts Mario on the ground at rest at his current x (the spawn x is not restored), sets the camera to 0, leaves every other global as it was and keeps the session well-formed |
| MenuGame.EnterLevel | mariogpttest.py:141-152 | selecting a level loads its map and enemies, switches to play with the sound on, puts Mario at rest on the ground at his current x with camera 0, leaves `running` as it was, and gives a well-formed session for a non-empty level at least 16 px wide |
| MenuGame.HandleEvent | mariogpttest.py:136-156 | QUIT clears `running` in any state; in the menu K_1/K_2 load 1-1/1-2, reset, enter the game and start the sound, other keys do nothing; in the game K_m returns to the menu and stops the sound, other keys (K_1/K_2 too) do nothing; other events do nothing |
| MenuGame.HandleEvents | mariogpttest.py:136-156 | handling a pass's events in order keeps the session well-formed (a level loaded whenever in the game) and never sets `running` again |
| MenuGame.Advance | mariogpttest.py:134-189 | `running` and the mode are what the events leave; physics runs only in the game: if the events leave the menu showing, the pass changes nothing else; in the game Mario ends inside the level, not below ground, with the camera computed from his new x |
| MenuGame.DrawFrame | mariogpttest.py:158-200 | the menu screen is drawn exactly in the menu; a play frame holds only 16x16 squares near the screen, never sky-coloured, and shows a red square exactly when Mario is on screen |
| MenuGame.Run | mariogpttest.py:205-209 | the main loop keeps the session well-formed, does nothing once `running` is false, and is still running at the end only if no QUIT arrived in any pass |
| MenuGame.RunFrames | mariogpttest.py:205-209 | the main loop draws at most one frame per input and none once `running` is false |
| MenuGame.FramesMatchRun | mariogpttest.py:205-209 | a loop still running at the end drew a frame for every input, and the last frame is the drawing of the session the loop ends in |
| MenuGame.SelectFromMenu | mariogpttest.py:140-152 | K_1/K_2 in the menu: game mode, sound on, chosen level and enemies, `y=176, vx=vy=0`, not jumping, camera 0, and Mario's x kept |
| MenuGame.QuitIsFinal | mariogpttest.py:136-138 | a QUIT anywhere in a pass's events leaves `running` false after all of them |
| MenuGame.SpawnNotRestored | mariogpttest.py:105-107 | enter 1-1, walk right one pass, return to the menu and enter 1-1 again: Mario stands at x=34, not the spawn x 32 |
| MenuGame.FrameContents | mariogpttest.py:191-200 | a game frame holds each drawn tile's square, Mario's square exactly when he is on screen, and each on-screen enemy's square, and nothing else |
| MenuGame.QuitEndsRun | mariogpttest.py:205-209 | a QUIT in a pass ends the main loop after that pass, which is still drawn |
| MenuGame.Game.constructor | mariogpttest.py:53-67 | the globals start in the menu, with no level, Mario at (32, 176) at rest, camera 0, running, sound off |
| MenuGame.Game.ResetGame | mariogpttest.py:105-112 | reset sets y, both velocities, the jump flag and the camera, and leaves Mario's x as it was |
| MenuGame.Game.PollEvents | mariogpttest.py:136-156 | the event loop updates the globals exactly as `HandleEvents` says |
| MenuGame.Game.UpdateLoop | mariogpttest.py:134-202 | one `update_loop` updates the globals exactly as `Advance` says and returns the frame `DrawFrame` gives |
| MenuGame.Game.MoveMario | mariogpttest.py:160-189 | the game branch sets Mario to `GameTick` of his old state and the camera to `Camera` of his new x |
| MenuGame.Game.ReadInput | mariogpttest.py:162-172 | the input block sets vx from the arrows and applies the jump guard |
| MenuGame.Game.MoveWithBoundaryChecks | mariogpttest.py:174-185 | move x and clamp it, move y, add gravity, snap to the ground |
| MenuGame.Game.FollowMario | mariogpttest.py:187-189 | the camera is `Camera(mario_x, level_width)` |
| MenuGame.Game.DrawPlayfield | mariogpttest.py:191-200 | the drawing is the level's squares, then Mario's, then the enemies', as `DrawFrame` says |
| MenuGame.Game.RunMain | mariogpttest.py:205-209 | the main loop leaves the globals at `Run` of the inputs and returns the frames of every pass |
| Client.LevelShape | client.py:15-29 | the level is 13 rows of 40 tiles, 640 px wide |
| Client.Step | client.py:106-135 | after a pass `running` holds exactly when it held and no QUIT arrived; the camera is never negative |
| Client.Draw | client.py:137-146 | a pass draws only 16x16 squares near the screen, never sky-coloured, and a red square exactly when Mario's left edge is on screen |
| Client.Run | client.py:105-149 | the loop does nothing once `running` is false; still running at the end means no QUIT arrived; after any pass the camera is `Camera(mario_x, 640)` and never negative |
| Client.RunFrames | client.py:105-149 | the loop draws at most one frame per input and none once `running` is false |
| Client.FramesMatchRun | client.py:105-149 | a loop still running at the end drew a frame for every input, and the last frame is the drawing of the state the loop ends in |
| Client.RunUnfolds | client.py:105-146 | a running loop with input left makes one pass, draws that pass's state and continues from it |
| Client.RunFollowsTicks | client.py:105-130 | with no QUIT the loop keeps running and Mario ends at the client tick applied once per pass to the held keys, in order |
| Client.QuitEndsRun | client.py:107-109 | a QUIT in a pass ends the loop after that pass, which still moves Mario and is still drawn: one frame, final state that pass's `Step` |
| Client.CameraFollows | client.py:132-135 | after a pass the camera is in `[0, 384]`; it is `x-128` for `128 <= x <= 512`, 0 below, 384 above |
| Client.WalkRightScenario | client.py:105-135 | running the loop from the start for k QUIT-free passes holding RIGHT: still running, x = 32+2k; camera 0 until k=48, then 2k-96, then 384 from k=240; past k=304 Mario has left the level and is off screen |
| Client.WalkRightLeavesScreen | client.py:105-146 | the same run draws k frames, and from k=305 on the last frame has no Mario square |
| Client.WalkOffLeftEdge | client.py:105-142 | running the loop from the start for 17 QUIT-free passes holding LEFT: still running, Mario at x=-2, camera 0, 17 frames, and the last has no Mario square |
| Client.ClientGame.constructor | client.py:86-105 | the globals start with Mario at (32, 176) at rest, camera 0, running |
| Client.ClientGame.Pass | client.py:106-146 | one loop iteration updates the globals exactly as `Step` says and returns the squares `Draw` gives |
| Client.ClientGame.PollQuit | client.py:107-109 | after the event loop `running` holds exactly when it held before and no QUIT arrived |
| Client.ClientGame.ReadInput | client.py:112-121 | the input block sets vx from the arrows and applies the jump guard |
| Client.ClientGame.Move | client.py:123-130 | move x with no bound, move y, add gravity, snap to the ground |
| Client.ClientGame.FollowMario | client.py:132-135 | the camera is `Camera(mario_x, 640)` |
| Client.ClientGame.DrawPass | client.py:137-146 | the drawing is the level's squares, then Mario's, then the goomba's |
| Client.ClientGame.RunLoop | client.py:105-149 | the top-level loop leaves the globals at `Run` of the inputs and returns every pass's squares |

## Left out

- Rendering I/O is not modelled: pygame set-up, `screen.fill` with the sky colour, `display.flip`, `clock.tick` and the window caption. Each frame is the list of squares drawn over the sky.
- `draw_menu` (`mariogpttest.py:95-102`) only renders text, so a menu pass yields the `MenuScreen` frame and nothing more.
- Scheduling glue is not modelled: the asyncio `main` coroutine, `asyncio.sleep`, the Emscripten dispatch (`mariogpttest.py:205-216`) and the 60 FPS timing. Both loops run over a finite list of inputs and stop when the list ends or `running` is false.
- Audio is not modelled: `generate_sound` (numpy floating-point waveform), `sound.play`/`sound.stop`, `play_audio`, the pyaudio/wave stream, the audio thread, the `audio_playing` flag and `join` (`client.py:59-78`, `client.py:100-102`, `client.py:151-154`). For `mariogpttest.py`, whether the looping sound is playing is kept as a boolean field.
- Input is given, not polled. `pygame.event.get` and `pygame.key.get_pressed` are replaced by a sequence of events and a record of the three held keys the code reads. Key codes other than 1, 2 and M are one `OtherKey` case, and event types other than QUIT and KEYDOWN are one `OtherEvent` case.
- Render.DrawLevel: requires a camera offset `>= 0`. Python's `//` and negative indexing would differ for a negative offset, and the game never produces one because its camera is clamped at 0.
- Enemies are static records. The `"type"` key is kept as the `kind` string and is never read.
