/**
 * The single-level script client.py: no menu, no boundary check on x, and the
 * loop body runs at the top level of the script. Its globals become the fields
 * of class ClientGame, proved against pure functions on a ClientState value.
 */
module Client {
  import opened Render
  import opened Physics
  import opened Events

  const LEVEL_MAP: LevelMap := [
    "........................................",
    "........................................",
    "........................................",
    "........................................",
    "........................................",
    "........................................",
    "............?B?.........................",
    "........................................",
    "........................................",
    "....................P...................",
    "....................P...................",
    "########################################",
    "########################################"
  ]

  const ENEMIES: seq<Enemy> := [Enemy("goomba", 320, 176)]

  /** The level width the loop computes from the first row on every pass. */
  const LEVEL_WIDTH: int := |LEVEL_MAP[0]| * TILE_SIZE

  /** The globals the loop updates: `running`, Mario, the camera. */
  datatype ClientState = ClientState(running: bool, mario: Mario, cameraX: int)

  /** The globals before the loop starts. */
  const INITIAL: ClientState := ClientState(true, Standing(SPAWN_X), 0)

  /** The level is 13 rows of 40 tiles, 640 pixels wide. */
  lemma LevelShape()
    ensures |LEVEL_MAP| == 13 && LEVEL_WIDTH == 640
    ensures forall row :: 0 <= row < |LEVEL_MAP| ==> |LEVEL_MAP[row]| == 40
  {
  }

  /** One pass of the loop body: events, input, physics without a clamp, camera. */
  function Step(s: ClientState, events: seq<Event>, keys: Keys): (r: ClientState)
    ensures r.running <==> s.running && Quit !in events
    ensures r.cameraX >= 0
  {
    var m := ClientTick(s.mario, keys);
    ClientState(s.running && Quit !in events, m, Camera(m.x, LEVEL_WIDTH))
  }

  /**
   * The squares one pass draws: the level, Mario when on screen, the goomba
   * when on screen. Nothing is drawn far off screen, and Mario's red square is
   * there exactly when his left edge is on screen.
   */
  function Draw(s: ClientState): (rects: seq<Rect>)
    requires s.cameraX >= 0
    ensures forall r :: r in rects ==> NearScreen(r)
    ensures ShowsMario(rects) <==> OnScreen(s.mario.x, s.cameraX)
  {
    PlayfieldRects(LEVEL_MAP, s.cameraX, s.mario.x, s.mario.y, ENEMIES)
  }

  /**
   * The loop over a list of inputs, one pass each while `running` holds. A
   * run that is still going saw no QUIT; after any pass the camera follows
   * Mario.
   */
  function Run(s: ClientState, inputs: seq<Input>): (r: ClientState)
    ensures !s.running ==> r == s
    ensures r.running ==> forall i :: 0 <= i < |inputs| ==> Quit !in inputs[i].events
    ensures s.running && inputs != [] ==> r.cameraX == Camera(r.mario.x, LEVEL_WIDTH)
    ensures s.cameraX >= 0 ==> r.cameraX >= 0
    decreases |inputs|
  {
    if !s.running || inputs == [] then s
    else Run(Step(s, inputs[0].events, inputs[0].keys), inputs[1..])
  }

  /** What that loop draws, one list of squares per pass. */
  function RunFrames(s: ClientState, inputs: seq<Input>): (frames: seq<seq<Rect>>)
    requires s.cameraX >= 0
    ensures |frames| <= |inputs|
    ensures !s.running ==> frames == []
    decreases |inputs|
  {
    if !s.running || inputs == [] then []
    else
      var next := Step(s, inputs[0].events, inputs[0].keys);
      [Draw(next)] + RunFrames(next, inputs[1..])
  }

  /**
   * The loop draws one frame per pass it makes: every input's when it is
   * still running at the end, and the last frame is the drawing of the state
   * it stops in.
   */
  lemma {:induction false} FramesMatchRun(s: ClientState, inputs: seq<Input>)
    requires s.running && s.cameraX >= 0
    ensures Run(s, inputs).running ==> |RunFrames(s, inputs)| == |inputs|
    ensures inputs != [] ==> RunFrames(s, inputs) != [] && RunFrames(s, inputs)[|RunFrames(s, inputs)| - 1] == Draw(Run(s, inputs))
    decreases |inputs|
  {
    if inputs != [] {
      var next := Step(s, inputs[0].events, inputs[0].keys);
      if next.running {
        FramesMatchRun(next, inputs[1..]);
      }
    }
  }

  /** A running loop with input left makes one pass, draws it, and carries on from its result. */
  lemma RunUnfolds(s: ClientState, inputs: seq<Input>)
    requires s.running && s.cameraX >= 0 && inputs != []
    ensures var next := Step(s, inputs[0].events, inputs[0].keys);
      && Run(s, inputs) == Run(next, inputs[1..])
      && RunFrames(s, inputs) == [Draw(next)] + RunFrames(next, inputs[1..])
  {
  }

  /**
   * The camera after a pass lies between 0 and 384 (640 - 256) and keeps
   * Mario 128 pixels from the screen's left edge whenever that fits.
   */
  lemma CameraFollows(s: ClientState, events: seq<Event>, keys: Keys)
    ensures var r := Step(s, events, keys);
      && 0 <= r.cameraX <= 384
      && (128 <= r.mario.x <= 512 ==> r.cameraX == r.mario.x - 128)
      && (r.mario.x < 128 ==> r.cameraX == 0)
      && (r.mario.x > 512 ==> r.cameraX == 384)
  {
    LevelShape();
  }

  /**
   * While no QUIT arrives the loop keeps running, and Mario's state after it
   * is the client tick applied once per pass to the held keys, in order.
   */
  lemma {:induction false} RunFollowsTicks(s: ClientState, inputs: seq<Input>)
    requires s.running
    requires forall i :: 0 <= i < |inputs| ==> Quit !in inputs[i].events
    ensures Run(s, inputs).running
    ensures Run(s, inputs).mario == ClientTicks(s.mario, KeysOf(inputs))
    decreases |inputs|
  {
    if inputs != [] {
      var next := Step(s, inputs[0].events, inputs[0].keys);
      var rest := inputs[1..];
      assert forall i :: 0 <= i < |rest| ==> rest[i] == inputs[i + 1];
      RunFollowsTicks(next, rest);
      assert KeysOf(inputs) == [inputs[0].keys] + KeysOf(rest);
      ClientTicksFromFront(s.mario, inputs[0].keys, KeysOf(rest));
    }
  }

  /** A QUIT in a pass ends the loop after that pass, which still moves Mario and is still drawn. */
  lemma QuitEndsRun(s: ClientState, inputs: seq<Input>)
    requires s.running && s.cameraX >= 0 && inputs != [] && Quit in inputs[0].events
    ensures Run(s, inputs) == Step(s, inputs[0].events, inputs[0].keys)
    ensures !Run(s, inputs).running
    ensures RunFrames(s, inputs) == [Draw(Step(s, inputs[0].events, inputs[0].keys))]
  {
  }

  /**
   * Walking right from the spawn point for k passes without a QUIT: Mario is
   * at 32 + 2k; the camera stays at 0 up to k = 48, then tracks him, and holds
   * at 384 from k = 240 on. With no boundary check he walks on past the
   * level's end.
   */
  lemma {:induction false} WalkRightScenario(inputs: seq<Input>)
    requires forall i :: 0 <= i < |inputs| ==> inputs[i].keys == Keys(false, true, false) && Quit !in inputs[i].events
    ensures var r := Run(INITIAL, inputs); var k := |inputs|;
      && r.running
      && r.mario == Mario(SPAWN_X + WALK_SPEED * k, GROUND_Y, if k == 0 then 0 else WALK_SPEED, 0, false)
      && (k <= 48 ==> r.cameraX == 0)
      && (48 <= k <= 240 ==> r.cameraX == 2 * k - 96)
      && (k >= 240 ==> r.cameraX == 384)
      && (k > 304 ==> r.mario.x > LEVEL_WIDTH - MARIO_WIDTH && !OnScreen(r.mario.x, r.cameraX))
  {
    LevelShape();
    var k := |inputs|;
    RunFollowsTicks(INITIAL, inputs);
    WalkSteady(Standing(SPAWN_X), KeysOf(inputs), Keys(false, true, false));
    var r := Run(INITIAL, inputs);
    assert r.mario.x == SPAWN_X + 2 * k;
    if k > 0 {
      assert r.cameraX == Camera(r.mario.x, 640);
      assert k >= 240 ==> r.cameraX == 384;
      assert 48 <= k <= 240 ==> r.cameraX == 2 * k - 96;
      assert k > 304 ==> !OnScreen(r.mario.x, r.cameraX);
    }
  }

  /** The same walk draws a frame for every pass, and from pass 305 on the frame has no Mario square. */
  lemma WalkRightLeavesScreen(inputs: seq<Input>)
    requires forall i :: 0 <= i < |inputs| ==> inputs[i].keys == Keys(false, true, false) && Quit !in inputs[i].events
    ensures var fs := RunFrames(INITIAL, inputs); var k := |inputs|;
      |fs| == k && (k > 304 ==> !ShowsMario(fs[k - 1]))
  {
    WalkRightScenario(inputs);
    FramesMatchRun(INITIAL, inputs);
  }

  /** Walking left from the spawn point for 17 passes: Mario is left of the level, the camera at 0, and he is not drawn. */
  lemma {:induction false} WalkOffLeftEdge(inputs: seq<Input>)
    requires |inputs| == 17
    requires forall i :: 0 <= i < |inputs| ==> inputs[i].keys == Keys(true, false, false) && Quit !in inputs[i].events
    ensures var r := Run(INITIAL, inputs);
      r.running && r.mario.x == -2 && r.cameraX == 0
    ensures var fs := RunFrames(INITIAL, inputs);
      |fs| == 17 && !ShowsMario(fs[16])
  {
    LevelShape();
    RunFollowsTicks(INITIAL, inputs);
    WalkSteady(Standing(SPAWN_X), KeysOf(inputs), Keys(true, false, false));
    var r := Run(INITIAL, inputs);
    assert r.cameraX == 0;
    FramesMatchRun(INITIAL, inputs);
    assert RunFrames(INITIAL, inputs)[16] == Draw(r);
  }

  /** The globals of client.py, updated in place by the top-level loop. */
  class ClientGame {
    var running: bool
    var marioX: int
    var marioY: int
    var marioVelX: int
    var marioVelY: int
    var isJumping: bool
    var cameraX: int

    function Snapshot(): ClientState
      reads this
    {
      ClientState(running, Mario(marioX, marioY, marioVelX, marioVelY, isJumping), cameraX)
    }

    constructor ()
      ensures Snapshot() == INITIAL
    {
      marioX := SPAWN_X;
      marioY := GROUND_Y;
      marioVelX := 0;
      marioVelY := 0;
      isJumping := false;
      cameraX := 0;
      running := true;
    }

    /** One pass of the loop body; returns the squares it draws. */
    method Pass(events: seq<Event>, keys: Keys) returns (rects: seq<Rect>)
      modifies this
      ensures Snapshot() == Step(old(Snapshot()), events, keys)
      ensures rects == Draw(Snapshot())
    {
      PollQuit(events);
      ReadInput(keys);
      Move();
      FollowMario();
      rects := DrawPass();
    }

    /** The event loop: a QUIT event clears `running`. */
    method PollQuit(events: seq<Event>)
      modifies this`running
      ensures running <==> old(running) && Quit !in events
    {
      var i := 0;
      while i < |events|
        invariant 0 <= i <= |events|
        invariant running <==> old(running) && Quit !in events[..i]
      {
        if events[i] == Quit {
          running := false;
        }
        assert events[..i + 1] == events[..i] + [events[i]];
        i := i + 1;
      }
      assert events[..i] == events;
    }

    /** Held keys set the horizontal speed; space starts a jump unless one is under way. */
    method ReadInput(keys: Keys)
      modifies this`marioVelX, this`marioVelY, this`isJumping
      ensures Snapshot().mario == HandleInput(old(Snapshot()).mario, keys)
    {
      if keys.left {
        marioVelX := -WALK_SPEED;
      } else if keys.right {
        marioVelX := WALK_SPEED;
      } else {
        marioVelX := 0;
      }
      if keys.space && !isJumping {
        marioVelY := JUMP_STRENGTH;
        isJumping := true;
      }
    }

    /** Move x (no boundary check here), move y, apply gravity, land on the ground line. */
    method Move()
      modifies this`marioX, this`marioY, this`marioVelY, this`isJumping
      ensures var m := old(Snapshot()).mario; Snapshot().mario == Fall(m.(x := m.x + m.velX))
    {
      marioX := marioX + marioVelX;
      marioY := marioY + marioVelY;
      marioVelY := marioVelY + GRAVITY;
      if marioY >= GROUND_Y {
        marioY := GROUND_Y;
        marioVelY := 0;
        isJumping := false;
      }
    }

    /** Centre the camera on Mario, clamped to the level. */
    method FollowMario()
      modifies this`cameraX
      ensures cameraX == Camera(marioX, LEVEL_WIDTH)
    {
      var levelWidth := |LEVEL_MAP[0]| * TILE_SIZE;
      var desiredCameraX := marioX - SCREEN_WIDTH / 2;
      cameraX := Max(0, Min(desiredCameraX, levelWidth - SCREEN_WIDTH));
    }

    /** The drawing at the end of the pass: the level, then Mario, then the goomba. */
    method DrawPass() returns (rects: seq<Rect>)
      requires cameraX >= 0
      ensures rects == Draw(Snapshot())
    {
      var tiles := DrawLevel(LEVEL_MAP, cameraX);
      var marioScreenX := marioX - cameraX;
      var sprite := [];
      if 0 <= marioScreenX < SCREEN_WIDTH {
        sprite := [Rect(marioScreenX, marioY, MARIO_WIDTH, MARIO_HEIGHT, MARIO_COLOR)];
      }
      var goombas := DrawEnemies(ENEMIES, cameraX);
      rects := tiles + sprite + goombas;
    }

    /** The top-level `while running` loop, over a list of inputs. */
    method RunLoop(inputs: seq<Input>) returns (frames: seq<seq<Rect>>)
      requires cameraX >= 0
      modifies this
      ensures Snapshot() == Run(old(Snapshot()), inputs)
      ensures frames == RunFrames(old(Snapshot()), inputs)
    {
      frames := [];
      var i := 0;
      while running && i < |inputs|
        invariant 0 <= i <= |inputs|
        invariant cameraX >= 0
        invariant Run(Snapshot(), inputs[i..]) == Run(old(Snapshot()), inputs)
        invariant frames + RunFrames(Snapshot(), inputs[i..]) == RunFrames(old(Snapshot()), inputs)
        decreases |inputs| - i
      {
        assert inputs[i..][1..] == inputs[i + 1..];
        RunUnfolds(Snapshot(), inputs[i..]);
        var rects := Pass(inputs[i].events, inputs[i].keys);
        frames := frames + [rects];
        i := i + 1;
      }
    }
  }
}
