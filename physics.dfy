/**
 * Mario's per-tick physics and the camera that follows him. Both scripts run
 * the same steps in the same order (input, move x, move y, gravity, ground
 * snap); mariogpttest.py also clamps x to the level, client.py does not.
 */
module Physics {
  import opened Render
  import opened Events

  const GRAVITY: int := 1
  const JUMP_STRENGTH: int := -10
  /** The single ground line: Mario's y when standing. */
  const GROUND_Y: int := 176
  const WALK_SPEED: int := 2
  const MARIO_WIDTH: int := 16
  const MARIO_HEIGHT: int := 16
  const SPAWN_X: int := 32

  /** Mario's globals: position, velocity and whether a jump is under way. */
  datatype Mario = Mario(x: int, y: int, velX: int, velY: int, isJumping: bool)

  /** Mario standing on the ground at x, at rest. */
  function Standing(x: int): Mario { Mario(x, GROUND_Y, 0, 0, false) }

  function Max(a: int, b: int): int { if a >= b then a else b }

  function Dist(a: int, b: int): nat { if a >= b then a - b else b - a }

  /** Horizontal speed from the held arrows; LEFT wins when both are held. */
  function Steer(keys: Keys): (velX: int)
    ensures velX == -WALK_SPEED <==> keys.left
    ensures velX == WALK_SPEED <==> !keys.left && keys.right
    ensures velX == 0 <==> !keys.left && !keys.right
  {
    if keys.left then -WALK_SPEED
    else if keys.right then WALK_SPEED
    else 0
  }

  /** The input block: set the horizontal speed, start a jump if none is under way. */
  function HandleInput(m: Mario, keys: Keys): (r: Mario)
    ensures r.x == m.x && r.y == m.y && r.velX == Steer(keys)
    ensures r.isJumping <==> m.isJumping || keys.space
    ensures r.velY == (if !m.isJumping && keys.space then JUMP_STRENGTH else m.velY)
  {
    var steered := m.(velX := Steer(keys));
    if keys.space && !m.isJumping then steered.(velY := JUMP_STRENGTH, isJumping := true)
    else steered
  }

  /** The boundary check of mariogpttest.py: keep Mario's box inside the level. */
  function ClampX(x: int, levelWidth: int): (cx: int)
    ensures x < 0 ==> cx == 0
    ensures levelWidth >= MARIO_WIDTH ==> 0 <= cx <= levelWidth - MARIO_WIDTH
    ensures 0 <= x <= levelWidth - MARIO_WIDTH ==> cx == x
    ensures levelWidth >= MARIO_WIDTH ==>
      forall z :: 0 <= z <= levelWidth - MARIO_WIDTH ==> Dist(cx, x) <= Dist(z, x)
  {
    if x < 0 then 0
    else if x > levelWidth - MARIO_WIDTH then levelWidth - MARIO_WIDTH
    else x
  }

  /** Vertical step: move by the velocity, add gravity, snap to the ground line. */
  function Fall(m: Mario): (n: Mario)
    ensures n.x == m.x && n.velX == m.velX
    ensures n.y <= GROUND_Y
    ensures m.y + m.velY >= GROUND_Y <==> n.y == GROUND_Y && n.velY == 0 && !n.isJumping
    ensures m.y + m.velY < GROUND_Y ==>
      n.y == m.y + m.velY && n.velY == m.velY + GRAVITY && n.isJumping == m.isJumping
  {
    var y := m.y + m.velY;
    var velY := m.velY + GRAVITY;
    if y >= GROUND_Y then m.(y := GROUND_Y, velY := 0, isJumping := false)
    else m.(y := y, velY := velY)
  }

  /** One tick of client.py: x moves by the steering speed with no bound at all. */
  function ClientTick(m: Mario, keys: Keys): (r: Mario)
    ensures r.x == m.x + Steer(keys) && r.velX == Steer(keys)
    ensures r.y <= GROUND_Y
  {
    var moved := HandleInput(m, keys);
    Fall(moved.(x := moved.x + moved.velX))
  }

  /**
   * One tick of mariogpttest.py in a level `levelWidth` pixels wide: x is
   * clamped before y moves, so Mario stays inside the level.
   */
  function GameTick(m: Mario, keys: Keys, levelWidth: int): (r: Mario)
    ensures levelWidth >= MARIO_WIDTH ==> 0 <= r.x <= levelWidth - MARIO_WIDTH
    ensures r.x == ClampX(m.x + Steer(keys), levelWidth) && r.velX == Steer(keys)
    ensures r.y <= GROUND_Y
  {
    var moved := HandleInput(m, keys);
    Fall(moved.(x := ClampX(moved.x + moved.velX, levelWidth)))
  }

  /** The camera: Mario at the centre of the screen, clamped to the level. */
  function Camera(x: int, levelWidth: int): (c: int)
    ensures 0 <= c <= Max(0, levelWidth - SCREEN_WIDTH)
    ensures 0 <= x - SCREEN_WIDTH / 2 <= levelWidth - SCREEN_WIDTH ==> c == x - SCREEN_WIDTH / 2
    ensures x - SCREEN_WIDTH / 2 < 0 ==> c == 0
    ensures x - SCREEN_WIDTH / 2 > levelWidth - SCREEN_WIDTH ==> c == Max(0, levelWidth - SCREEN_WIDTH)
  {
    Max(0, Min(x - SCREEN_WIDTH / 2, levelWidth - SCREEN_WIDTH))
  }

  /** Holding LEFT at the level's left edge: client.py walks off it, mariogpttest.py stays on it. */
  lemma LeftEdgeBehaviour(levelWidth: int)
    requires levelWidth >= MARIO_WIDTH
    ensures ClientTick(Standing(0), Keys(true, false, false)).x == -WALK_SPEED
    ensures GameTick(Standing(0), Keys(true, false, false), levelWidth).x == 0
  {
  }

  /** The two variants differ only in the clamp: inside the level they compute the same tick. */
  lemma VariantsAgree(m: Mario, keys: Keys, levelWidth: int)
    ensures var g := GameTick(m, keys, levelWidth); var c := ClientTick(m, keys);
      g.y == c.y && g.velX == c.velX && g.velY == c.velY && g.isJumping == c.isJumping
    ensures 0 <= m.x + Steer(keys) <= levelWidth - MARIO_WIDTH ==> GameTick(m, keys, levelWidth) == ClientTick(m, keys)
  {
  }

  /**
   * The jump guard: a jump starts only when space is held and no jump is
   * under way. Otherwise the tick changes the vertical speed by gravity alone,
   * unless Mario lands.
   */
  lemma JumpGuard(m: Mario, keys: Keys)
    requires m.y <= GROUND_Y
    ensures var t := ClientTick(m, keys);
      keys.space && !m.isJumping ==>
        t.y == m.y + JUMP_STRENGTH && t.velY == JUMP_STRENGTH + GRAVITY && t.isJumping
    ensures var t := ClientTick(m, keys);
      !(keys.space && !m.isJumping) && m.y + m.velY < GROUND_Y ==>
        t.velY == m.velY + GRAVITY && t.isJumping == m.isJumping
  {
  }

  /** While a jump is under way, holding space makes no difference, in either variant. */
  lemma AirborneIgnoresSpace(m: Mario, keys: Keys, levelWidth: int)
    requires m.isJumping
    ensures ClientTick(m, keys.(space := true)) == ClientTick(m, keys.(space := false))
    ensures GameTick(m, keys.(space := true), levelWidth) == GameTick(m, keys.(space := false), levelWidth)
  {
  }

  /** Standing on the ground without space held is kept: no drift, no bounce. */
  lemma GroundedIdleIsFixed(x: int, keys: Keys, levelWidth: int)
    requires !keys.space
    ensures var t := ClientTick(Standing(x), keys);
      t.y == GROUND_Y && t.velY == 0 && !t.isJumping
    ensures !keys.left && !keys.right ==> ClientTick(Standing(x), keys) == Standing(x)
    ensures !keys.left && !keys.right && 0 <= x <= levelWidth - MARIO_WIDTH ==>
      GameTick(Standing(x), keys, levelWidth) == Standing(x)
  {
  }

  /** The state after running client.py's tick once per entry of `ks`, in order. */
  function ClientTicks(m: Mario, ks: seq<Keys>): Mario
  {
    if ks == [] then m
    else ClientTick(ClientTicks(m, ks[..|ks| - 1]), ks[|ks| - 1])
  }

  /** Running the ticks from the front: the first tick, then the rest from its result. */
  lemma {:induction false} ClientTicksFromFront(m: Mario, k: Keys, ks: seq<Keys>)
    ensures ClientTicks(m, [k] + ks) == ClientTicks(ClientTick(m, k), ks)
  {
    if ks == [] {
      assert ([k] + ks)[..0] == [];
    } else {
      var n := |ks| - 1;
      ClientTicksFromFront(m, k, ks[..n]);
      assert ([k] + ks)[..|ks|] == [k] + ks[..n];
    }
  }

  /** How far above the ground a jump is after k ticks: 10 + 9 + ... + (11 - k). */
  function Rise(k: nat): int
  {
    if k == 0 then 0 else Rise(k - 1) + (-JUMP_STRENGTH) - (k - 1) * GRAVITY
  }

  lemma {:induction false} RiseClosedForm(k: nat)
    ensures 2 * Rise(k) == k * (21 - k)
  {
    if k > 0 {
      RiseClosedForm(k - 1);
    }
  }

  lemma RisePositive(k: nat)
    requires 1 <= k <= 20
    ensures Rise(k) > 0
  {
    RiseClosedForm(k);
    var j := 21 - k;
    assert k * j >= j by {
      assert (k - 1) * j >= 0;
    }
  }

  /** Ticks 1 to 20 of a jump from rest: in the air, Rise(k) above the ground. */
  lemma {:induction false} JumpArc(m: Mario, ks: seq<Keys>, k: nat)
    requires m.y == GROUND_Y && m.velY == 0 && !m.isJumping
    requires |ks| >= 1 && ks[0].space
    requires 1 <= k <= 20 && k <= |ks|
    ensures var t := ClientTicks(m, ks[..k]);
      t.isJumping && t.y == GROUND_Y - Rise(k) && t.velY == k + JUMP_STRENGTH
  {
    if k == 1 {
      assert ks[..1][..0] == [];
    } else {
      JumpArc(m, ks, k - 1);
      RisePositive(k);
      assert ks[..k][..k - 1] == ks[..k - 1];
    }
  }

  /**
   * A jump from rest lands on its 21st tick and not before: whatever keys are
   * held afterwards, Mario is airborne and above the ground for ticks 1 to 20,
   * and back on the ground at rest after tick 21.
   */
  lemma JumpLandsOnTick21(m: Mario, ks: seq<Keys>)
    requires m.y == GROUND_Y && m.velY == 0 && !m.isJumping
    requires |ks| >= 21 && ks[0].space
    ensures forall k :: 1 <= k <= 20 ==>
      ClientTicks(m, ks[..k]).isJumping && ClientTicks(m, ks[..k]).y < GROUND_Y
    ensures var t := ClientTicks(m, ks[..21]);
      t.y == GROUND_Y && t.velY == 0 && !t.isJumping
  {
    forall k | 1 <= k <= 20
      ensures ClientTicks(m, ks[..k]).isJumping && ClientTicks(m, ks[..k]).y < GROUND_Y
    {
      JumpArc(m, ks, k);
      RisePositive(k);
    }
    JumpArc(m, ks, 20);
    RiseClosedForm(20);
    assert ks[..21][..20] == ks[..20];
  }

  /** Holding the same keys without space from rest on the ground: a steady walk at the steering speed. */
  lemma {:induction false} WalkSteady(m: Mario, ks: seq<Keys>, keys: Keys)
    requires m.y == GROUND_Y && m.velY == 0 && !m.isJumping && !keys.space
    requires forall i :: 0 <= i < |ks| ==> ks[i] == keys
    ensures ClientTicks(m, ks) ==
      Mario(m.x + Steer(keys) * |ks|, GROUND_Y, if ks == [] then m.velX else Steer(keys), 0, false)
  {
    if ks != [] {
      var n := |ks| - 1;
      WalkSteady(m, ks[..n], keys);
      assert ks[n] == keys;
      assert Steer(keys) * n + Steer(keys) == Steer(keys) * |ks|;
    }
  }
}
