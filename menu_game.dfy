/**
 * The menu-and-levels game of mariogpttest.py. Its module globals become the
 * fields of class Game; every method of that class is proved against a pure
 * function on a Session value, and the properties of the game are lemmas about
 * those functions. Sound is a flag that records whether the looping sound was
 * started or stopped.
 */
module MenuGame {
  import opened Render
  import opened Physics
  import opened Events

  datatype Option<T> = None | Some(value: T)

  /** The two values `game_state` takes: "menu", and "game" (play under way). */
  datatype GameState = Menu | Playing

  /** What one pass draws: the menu (text only), or the squares of the play field. */
  datatype Frame = MenuScreen | Playfield(rects: seq<Rect>)

  const LEVEL_MAP_1_1: LevelMap := [
    "........................................",
    "........................................",
    "........................................",
    "........................................",
    "........................................",
    "............?B?.........................",
    "........................................",
    "........................................",
    "....................P...................",
    "....................P...................",
    "########################################",
    "########################################"
  ]

  const LEVEL_MAP_1_2: LevelMap := [
    "........................................",
    "........................................",
    "........................................",
    "........................................",
    "........................................",
    "............?B?.........?B?.............",
    "........................................",
    "........................................",
    "....................P.....P.............",
    "....................P.....P.............",
    "########################################",
    "########################################"
  ]

  const ENEMIES_1_1: seq<Enemy> := [Enemy("goomba", 320, 176)]
  const ENEMIES_1_2: seq<Enemy> := [Enemy("goomba", 320, 176), Enemy("goomba", 400, 176)]

  /** The module globals that the loop reads and writes. */
  datatype Session = Session(
    running: bool,
    gameState: GameState,
    levelMap: Option<LevelMap>,
    enemies: Option<seq<Enemy>>,
    mario: Mario,
    cameraX: int,
    soundPlaying: bool)

  /** The globals at start-up: in the menu, no level loaded, Mario at the spawn point. */
  const INITIAL: Session := Session(true, Menu, None, None, Standing(SPAWN_X), 0, false)

  /** Level width in pixels, taken from the first row as the game does. */
  function LevelWidth(levelMap: LevelMap): int
    requires |levelMap| > 0
  {
    |levelMap[0]| * TILE_SIZE
  }

  /** Every row of the level has `width` tiles. */
  predicate Rectangular(levelMap: LevelMap, width: nat)
  {
    forall row :: 0 <= row < |levelMap| ==> |levelMap[row]| == width
  }

  /** What the game relies on: in play a non-empty level and an enemy list are loaded; the camera is never negative. */
  predicate Valid(s: Session)
  {
    && s.cameraX >= 0
    && (s.gameState == Playing ==>
          s.levelMap.Some? && |s.levelMap.value| > 0 && LevelWidth(s.levelMap.value) >= MARIO_WIDTH && s.enemies.Some?)
  }

  /**
   * reset_game. Its global statement names `marhoria_x` instead of `mario_x`,
   * so the assignment of the spawn x binds a local and Mario's x is kept.
   */
  function Reset(s: Session): (r: Session)
    ensures r.mario == Standing(s.mario.x) && r.cameraX == 0
    ensures r.(mario := s.mario, cameraX := s.cameraX) == s
    ensures Valid(s) ==> Valid(r)
  {
    s.(mario := Mario(s.mario.x, GROUND_Y, 0, 0, false), cameraX := 0)
  }

  /** Selecting a level from the menu: load it, reset, switch to play, start the sound. */
  function EnterLevel(s: Session, levelMap: LevelMap, enemies: seq<Enemy>): (r: Session)
    ensures r.running == s.running && r.gameState == Playing && r.soundPlaying
    ensures r.levelMap == Some(levelMap) && r.enemies == Some(enemies)
    ensures r.mario == Standing(s.mario.x) && r.cameraX == 0
    ensures |levelMap| > 0 && LevelWidth(levelMap) >= MARIO_WIDTH ==> Valid(r)
  {
    Reset(s.(levelMap := Some(levelMap), enemies := Some(enemies))).(gameState := Playing, soundPlaying := true)
  }

  /** The event handler: QUIT in any state; level keys in the menu; M in play; all else ignored. */
  function HandleEvent(s: Session, e: Event): (r: Session)
    ensures e == Quit ==> r == s.(running := false)
    ensures e.OtherEvent? ==> r == s
    ensures s.gameState == Menu && e == KeyDown(KeyOne) ==> r == EnterLevel(s, LEVEL_MAP_1_1, ENEMIES_1_1)
    ensures s.gameState == Menu && e == KeyDown(KeyTwo) ==> r == EnterLevel(s, LEVEL_MAP_1_2, ENEMIES_1_2)
    ensures s.gameState == Menu && e.KeyDown? && e.key != KeyOne && e.key != KeyTwo ==> r == s
    ensures s.gameState == Playing && e == KeyDown(KeyM) ==> r == s.(gameState := Menu, soundPlaying := false)
    ensures s.gameState == Playing && e.KeyDown? && e.key != KeyM ==> r == s
  {
    match e
    case Quit => s.(running := false)
    case KeyDown(key) =>
      if s.gameState == Menu then
        if key == KeyOne then EnterLevel(s, LEVEL_MAP_1_1, ENEMIES_1_1)
        else if key == KeyTwo then EnterLevel(s, LEVEL_MAP_1_2, ENEMIES_1_2)
        else s
      else if key == KeyM then s.(gameState := Menu, soundPlaying := false)
      else s
    case OtherEvent => s
  }

  /** The events of one pass, handled in the order they arrived. */
  function HandleEvents(s: Session, events: seq<Event>): (r: Session)
    ensures Valid(s) ==> Valid(r)
    ensures !s.running ==> !r.running
  {
    if events == [] then s
    else
      var before := HandleEvents(s, events[..|events| - 1]);
      LevelDataShape();
      HandleEvent(before, events[|events| - 1])
  }

  /** One pass of the loop: events, then (in play only) physics and camera. */
  function Advance(s: Session, events: seq<Event>, keys: Keys): (r: Session)
    requires Valid(s)
    ensures Valid(r)
    ensures r.running == HandleEvents(s, events).running && r.gameState == HandleEvents(s, events).gameState
    ensures HandleEvents(s, events).gameState == Menu ==> r == HandleEvents(s, events)
    ensures r.gameState == Playing ==>
      && r.levelMap == HandleEvents(s, events).levelMap
      && 0 <= r.mario.x <= LevelWidth(r.levelMap.value) - MARIO_WIDTH
      && r.mario.y <= GROUND_Y
      && r.cameraX == Camera(r.mario.x, LevelWidth(r.levelMap.value))
  {
    var t := HandleEvents(s, events);
    if t.gameState == Menu then t
    else
      var width := LevelWidth(t.levelMap.value);
      var m := GameTick(t.mario, keys, width);
      t.(mario := m, cameraX := Camera(m.x, width))
  }

  /** What a pass draws once its state is updated. */
  function DrawFrame(s: Session): (r: Frame)
    requires Valid(s)
    ensures r.MenuScreen? <==> s.gameState == Menu
    ensures r.Playfield? ==>
      && (forall q :: q in r.rects ==> NearScreen(q))
      && (ShowsMario(r.rects) <==> OnScreen(s.mario.x, s.cameraX))
  {
    if s.gameState == Menu then MenuScreen
    else Playfield(PlayfieldRects(s.levelMap.value, s.cameraX, s.mario.x, s.mario.y, s.enemies.value))
  }

  /** The main loop over a list of inputs: a pass for each while `running` holds. */
  function Run(s: Session, inputs: seq<Input>): (r: Session)
    requires Valid(s)
    ensures Valid(r)
    ensures !s.running ==> r == s
    ensures r.running ==> forall i :: 0 <= i < |inputs| ==> Quit !in inputs[i].events
    decreases |inputs|
  {
    if !s.running || inputs == [] then s
    else
      var next := Advance(s, inputs[0].events, inputs[0].keys);
      if Quit in inputs[0].events then
        QuitIsFinal(s, inputs[0].events);
        Run(next, inputs[1..])
      else
        Run(next, inputs[1..])
  }

  /** The frames that main loop draws, one per pass. */
  function RunFrames(s: Session, inputs: seq<Input>): (frames: seq<Frame>)
    requires Valid(s)
    ensures |frames| <= |inputs|
    ensures !s.running ==> frames == []
    decreases |inputs|
  {
    if !s.running || inputs == [] then []
    else
      var next := Advance(s, inputs[0].events, inputs[0].keys);
      [DrawFrame(next)] + RunFrames(next, inputs[1..])
  }

  /** Both levels are 12 rows of 40 tiles, 640 pixels wide. */
  lemma LevelDataShape()
    ensures |LEVEL_MAP_1_1| == 12 && Rectangular(LEVEL_MAP_1_1, 40) && LevelWidth(LEVEL_MAP_1_1) == 640
    ensures |LEVEL_MAP_1_2| == 12 && Rectangular(LEVEL_MAP_1_2, 40) && LevelWidth(LEVEL_MAP_1_2) == 640
  {
  }

  /** Selecting a level from the menu: play starts on that level with the sound on and Mario reset, except his x. */
  lemma SelectFromMenu(s: Session, key: Key)
    requires s.gameState == Menu && (key == KeyOne || key == KeyTwo)
    ensures var r := HandleEvent(s, KeyDown(key));
      && r.gameState == Playing && r.soundPlaying && r.running == s.running
      && r.levelMap == Some(if key == KeyOne then LEVEL_MAP_1_1 else LEVEL_MAP_1_2)
      && r.enemies == Some(if key == KeyOne then ENEMIES_1_1 else ENEMIES_1_2)
      && r.mario == Mario(s.mario.x, GROUND_Y, 0, 0, false) && r.cameraX == 0
  {
  }

  /** Once a QUIT is among a pass's events, `running` is false after the pass, whatever follows it. */
  lemma {:induction false} QuitIsFinal(s: Session, events: seq<Event>)
    requires Quit in events
    ensures !HandleEvents(s, events).running
  {
    var last := |events| - 1;
    if events[last] != Quit {
      assert Quit in events[..last];
      QuitIsFinal(s, events[..last]);
    }
  }

  /**
   * The spawn x is not restored on level entry: walk right for one pass in
   * 1-1, go back to the menu and enter 1-1 again, and Mario is still 2 pixels
   * right of the spawn point.
   */
  lemma SpawnNotRestored()
    ensures var s1 := Advance(INITIAL, [KeyDown(KeyOne)], Keys(false, true, false));
      var s2 := Advance(s1, [KeyDown(KeyM), KeyDown(KeyOne)], Keys(false, false, false));
      s2.gameState == Playing && s2.mario == Standing(SPAWN_X + WALK_SPEED)
  {
    LevelDataShape();
    var entered := EnterLevel(INITIAL, LEVEL_MAP_1_1, ENEMIES_1_1);
    assert [KeyDown(KeyOne)][..0] == [];
    assert HandleEvents(INITIAL, [KeyDown(KeyOne)]) == entered;
    var walked := Mario(SPAWN_X + WALK_SPEED, GROUND_Y, WALK_SPEED, 0, false);
    assert GameTick(entered.mario, Keys(false, true, false), 640) == walked;
    var s1 := Advance(INITIAL, [KeyDown(KeyOne)], Keys(false, true, false));
    assert s1.mario == walked;
    var evs := [KeyDown(KeyM), KeyDown(KeyOne)];
    assert evs[..1] == [KeyDown(KeyM)] && evs[..1][..0] == [];
    var back := s1.(gameState := Menu, soundPlaying := false);
    assert HandleEvents(s1, evs[..1]) == back;
    var again := EnterLevel(back, LEVEL_MAP_1_1, ENEMIES_1_1);
    assert HandleEvents(s1, evs) == again;
    assert again.mario == Standing(SPAWN_X + WALK_SPEED);
    assert GameTick(again.mario, Keys(false, false, false), 640) == Standing(SPAWN_X + WALK_SPEED);
  }

  /**
   * A frame in play holds the squares of the drawn tiles, Mario's square
   * exactly when he is on screen, and a square for each enemy on screen;
   * nothing else.
   */
  lemma FrameContents(s: Session)
    requires Valid(s) && s.gameState == Playing
    ensures var rects := DrawFrame(s).rects; var level := s.levelMap.value; var es := s.enemies.value;
      && (Rect(s.mario.x - s.cameraX, s.mario.y, SPRITE_SIZE, SPRITE_SIZE, MARIO_COLOR) in rects <==> OnScreen(s.mario.x, s.cameraX))
      && (forall i :: 0 <= i < |es| && OnScreen(es[i].x, s.cameraX) ==> EnemyRect(es[i], s.cameraX) in rects)
      && (forall row, col :: IsDrawnTile(level, s.cameraX, row, col) ==> TileRect(level[row][col], row, col, s.cameraX) in rects)
      && (forall r :: r in rects ==>
            || (exists row, col :: IsDrawnTile(level, s.cameraX, row, col) && r == TileRect(level[row][col], row, col, s.cameraX))
            || (r == Rect(s.mario.x - s.cameraX, s.mario.y, SPRITE_SIZE, SPRITE_SIZE, MARIO_COLOR) && OnScreen(s.mario.x, s.cameraX))
            || (exists i :: 0 <= i < |es| && OnScreen(es[i].x, s.cameraX) && r == EnemyRect(es[i], s.cameraX)))
  {
    var level := s.levelMap.value;
    var es := s.enemies.value;
    var tiles := LevelRects(level, s.cameraX, |level|);
    var goombas := EnemySprites(es, s.cameraX, |es|);
    var marioRect := Rect(s.mario.x - s.cameraX, s.mario.y, SPRITE_SIZE, SPRITE_SIZE, MARIO_COLOR);
    DrawnExactlyOnce(level, s.cameraX);
    DrawnNearScreen(level, s.cameraX);
    EnemySpritesExact(es, s.cameraX, |es|);
    assert DrawFrame(s).rects == tiles + MarioSprite(s.mario.x, s.mario.y, s.cameraX) + goombas;
    assert marioRect !in tiles;
    assert marioRect !in goombas;
  }

  /**
   * The main loop draws one frame per pass it makes: every input's when it is
   * still running at the end, and the last frame is the drawing of the session
   * it stops in.
   */
  lemma {:induction false} FramesMatchRun(s: Session, inputs: seq<Input>)
    requires Valid(s) && s.running
    ensures Run(s, inputs).running ==> |RunFrames(s, inputs)| == |inputs|
    ensures inputs != [] ==> RunFrames(s, inputs) != [] && RunFrames(s, inputs)[|RunFrames(s, inputs)| - 1] == DrawFrame(Run(s, inputs))
    decreases |inputs|
  {
    if inputs != [] {
      var next := Advance(s, inputs[0].events, inputs[0].keys);
      if next.running {
        FramesMatchRun(next, inputs[1..]);
      }
    }
  }

  /** A QUIT in a pass ends the main loop after that pass, which is still drawn. */
  lemma QuitEndsRun(s: Session, inputs: seq<Input>)
    requires Valid(s) && s.running && inputs != [] && Quit in inputs[0].events
    ensures |RunFrames(s, inputs)| == 1
    ensures !Run(s, inputs).running
  {
    QuitIsFinal(s, inputs[0].events);
    var next := Advance(s, inputs[0].events, inputs[0].keys);
    assert !next.running;
  }

  /** The module globals of mariogpttest.py, updated in place by the loop. */
  class Game {
    var running: bool
    var gameState: GameState
    var levelMap: Option<LevelMap>
    var enemies: Option<seq<Enemy>>
    var marioX: int
    var marioY: int
    var marioVelX: int
    var marioVelY: int
    var isJumping: bool
    var cameraX: int
    var soundPlaying: bool

    /** The globals as one Session value. */
    function Snapshot(): Session
      reads this
    {
      Session(running, gameState, levelMap, enemies,
              Mario(marioX, marioY, marioVelX, marioVelY, isJumping), cameraX, soundPlaying)
    }

    constructor ()
      ensures Snapshot() == INITIAL
    {
      running := true;
      gameState := Menu;
      levelMap := None;
      enemies := None;
      marioX := SPAWN_X;
      marioY := GROUND_Y;
      marioVelX := 0;
      marioVelY := 0;
      isJumping := false;
      cameraX := 0;
      soundPlaying := false;
    }

    method ResetGame()
      modifies this
      ensures Snapshot() == Reset(old(Snapshot()))
    {
      // The global statement of reset_game misspells mario_x, so this is a local.
      var marioX := SPAWN_X;
      marioY := GROUND_Y;
      marioVelX := 0;
      marioVelY := 0;
      isJumping := false;
      cameraX := 0;
    }

    /** The event loop at the top of update_loop. */
    method PollEvents(events: seq<Event>)
      modifies this
      ensures Snapshot() == HandleEvents(old(Snapshot()), events)
    {
      var i := 0;
      while i < |events|
        invariant 0 <= i <= |events|
        invariant Snapshot() == HandleEvents(old(Snapshot()), events[..i])
      {
        ghost var before := Snapshot();
        match events[i] {
        case Quit =>
          running := false;
        case KeyDown(key) =>
          if gameState == Menu {
            if key == KeyOne {
              levelMap := Some(LEVEL_MAP_1_1);
              enemies := Some(ENEMIES_1_1);
              ResetGame();
              gameState := Playing;
              soundPlaying := true;
            } else if key == KeyTwo {
              levelMap := Some(LEVEL_MAP_1_2);
              enemies := Some(ENEMIES_1_2);
              ResetGame();
              gameState := Playing;
              soundPlaying := true;
            }
          } else if gameState == Playing {
            if key == KeyM {
              gameState := Menu;
              soundPlaying := false;
            }
          }
        case OtherEvent =>
        }
        assert Snapshot() == HandleEvent(before, events[i]);
        assert events[..i + 1][..i] == events[..i];
        i := i + 1;
      }
      assert events[..i] == events;
    }

    /** update_loop: handle the events, then in play move Mario and the camera; return what is drawn. */
    method UpdateLoop(events: seq<Event>, keys: Keys) returns (frame: Frame)
      requires Valid(Snapshot())
      modifies this
      ensures Valid(Snapshot())
      ensures Snapshot() == Advance(old(Snapshot()), events, keys)
      ensures frame == DrawFrame(Snapshot())
    {
      PollEvents(events);
      if gameState == Menu {
        frame := MenuScreen;
      } else {
        MoveMario(keys);
        frame := DrawPlayfield();
      }
    }

    /** The play branch of update_loop up to the camera: input, movement with boundary checks, camera. */
    method MoveMario(keys: Keys)
      requires Valid(Snapshot()) && gameState == Playing
      modifies this`marioX, this`marioY, this`marioVelX, this`marioVelY, this`isJumping, this`cameraX
      ensures Snapshot().mario == GameTick(old(Snapshot()).mario, keys, LevelWidth(levelMap.value))
      ensures cameraX == Camera(marioX, LevelWidth(levelMap.value))
    {
      var levelWidth := |levelMap.value[0]| * TILE_SIZE;
      ReadInput(keys);
      MoveWithBoundaryChecks(levelWidth);
      FollowMario(levelWidth);
    }

    /** Held keys set the horizontal speed; space starts a jump unless one is under way. */
    method ReadInput(keys: Keys)
      modifies this`marioVelX, this`marioVelY, this`isJumping
      ensures Snapshot().mario == HandleInput(old(Snapshot()).mario, keys)
    {
      if keys.left {
        marioVelX := -WALK_SPEED;
      } else if keys.right {
        marioVelX := WALK_SPEED;
      } else {
        marioVelX := 0;
      }
      if keys.space && !isJumping {
        marioVelY := JUMP_STRENGTH;
        isJumping := true;
      }
    }

    /** Move x and clamp it to the level, move y, apply gravity, land on the ground line. */
    method MoveWithBoundaryChecks(levelWidth: int)
      modifies this`marioX, this`marioY, this`marioVelY, this`isJumping
      ensures var m := old(Snapshot()).mario;
        Snapshot().mario == Fall(m.(x := ClampX(m.x + m.velX, levelWidth)))
    {
      marioX := marioX + marioVelX;
      if marioX < 0 {
        marioX := 0;
      } else if marioX > levelWidth - MARIO_WIDTH {
        marioX := levelWidth - MARIO_WIDTH;
      }
      marioY := marioY + marioVelY;
      marioVelY := marioVelY + GRAVITY;
      if marioY >= GROUND_Y {
        marioY := GROUND_Y;
        marioVelY := 0;
        isJumping := false;
      }
    }

    /** Centre the camera on Mario, clamped to the level. */
    method FollowMario(levelWidth: int)
      modifies this`cameraX
      ensures cameraX == Camera(marioX, levelWidth)
    {
      var desiredCameraX := marioX - SCREEN_WIDTH / 2;
      cameraX := Max(0, Min(desiredCameraX, levelWidth - SCREEN_WIDTH));
    }

    /** The play branch's drawing: the level, then Mario, then the enemies. */
    method DrawPlayfield() returns (frame: Frame)
      requires Valid(Snapshot()) && gameState == Playing
      ensures frame == DrawFrame(Snapshot())
    {
      var tiles := DrawLevel(levelMap.value, cameraX);
      var marioScreenX := marioX - cameraX;
      var sprite := [];
      if 0 <= marioScreenX < SCREEN_WIDTH {
        sprite := [Rect(marioScreenX, marioY, MARIO_WIDTH, MARIO_HEIGHT, MARIO_COLOR)];
      }
      var goombas := DrawEnemies(enemies.value, cameraX);
      frame := Playfield(tiles + sprite + goombas);
    }

    /** The main coroutine: one update_loop per input while `running` holds. */
    method RunMain(inputs: seq<Input>) returns (frames: seq<Frame>)
      requires Valid(Snapshot())
      modifies this
      ensures Snapshot() == Run(old(Snapshot()), inputs)
      ensures frames == RunFrames(old(Snapshot()), inputs)
    {
      frames := [];
      var i := 0;
      while running && i < |inputs|
        invariant 0 <= i <= |inputs|
        invariant Valid(Snapshot())
        invariant Run(Snapshot(), inputs[i..]) == Run(old(Snapshot()), inputs)
        invariant frames + RunFrames(Snapshot(), inputs[i..]) == RunFrames(old(Snapshot()), inputs)
        decreases |inputs| - i
      {
        assert inputs[i..][1..] == inputs[i + 1..];
        var frame := UpdateLoop(inputs[i].events, inputs[i].keys);
        frames := frames + [frame];
        i := i + 1;
      }
    }
  }
}
