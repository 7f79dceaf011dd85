/**
 * Drawing of the level and of the sprites. Both game scripts carry the same
 * tile colour table and the same tile renderer; they are modelled once here.
 * A draw call is not sent to a screen: every operation returns the rectangles
 * it would have filled, in the order it would have filled them.
 */
module Render {

  const SCREEN_WIDTH: int := 256
  const SCREEN_HEIGHT: int := 224
  const TILE_SIZE: int := 16
  /** Columns walked from the first visible one: a screenful plus one of overscan. */
  const WINDOW_COLUMNS: int := SCREEN_WIDTH / TILE_SIZE + 1
  /** Mario and every enemy are drawn as a 16 x 16 square. */
  const SPRITE_SIZE: int := 16

  datatype Color = RGB(r: int, g: int, b: int)

  const SKY_COLOR: Color := RGB(135, 206, 235)
  const MARIO_COLOR: Color := RGB(255, 0, 0)
  const GOOMBA_COLOR: Color := RGB(139, 69, 19)
  const GROUND_BROWN: Color := RGB(139, 69, 19)
  const BRICK_GRAY: Color := RGB(169, 169, 169)
  const QUESTION_YELLOW: Color := RGB(255, 255, 0)
  const PIPE_GREEN: Color := RGB(0, 128, 0)
  const UNKNOWN_BLACK: Color := RGB(0, 0, 0)

  /** One filled rectangle, in screen pixels with the origin at the top left. */
  datatype Rect = Rect(x: int, y: int, w: int, h: int, color: Color)

  /** A static enemy: its kind tag and its position in level pixels. */
  datatype Enemy = Enemy(kind: string, x: int, y: int)

  /** A level is a list of rows of tile characters; '.' is an empty tile. */
  type LevelMap = seq<string>

  function Min(a: int, b: int): int { if a <= b then a else b }

  /** The colour of a tile: four known symbols, black for anything else. */
  function TileColor(tile: char): (c: Color)
    ensures tile == '#' ==> c == GROUND_BROWN
    ensures tile == 'B' ==> c == BRICK_GRAY
    ensures tile == '?' ==> c == QUESTION_YELLOW
    ensures tile == 'P' ==> c == PIPE_GREEN
    ensures c == UNKNOWN_BLACK <==> tile !in "#B?P"
  {
    if tile == '#' then GROUND_BROWN
    else if tile == 'B' then BRICK_GRAY
    else if tile == '?' then QUESTION_YELLOW
    else if tile == 'P' then PIPE_GREEN
    else UNKNOWN_BLACK
  }

  /** First column drawn for a camera offset (floor division, the offset is never negative). */
  function StartCol(cameraX: nat): nat { cameraX / TILE_SIZE }

  /** One past the last column drawn in a row of the given length. */
  function EndCol(cameraX: nat, rowLength: nat): nat { Min(StartCol(cameraX) + WINDOW_COLUMNS, rowLength) }

  /** The tile at (row, col) lies in the drawn window and is not empty. */
  predicate IsDrawnTile(level: LevelMap, cameraX: nat, row: int, col: int)
  {
    && 0 <= row < |level|
    && StartCol(cameraX) <= col < EndCol(cameraX, |level[row]|)
    && level[row][col] != '.'
  }

  /** The square a tile fills on screen. */
  function TileRect(tile: char, row: int, col: int, cameraX: int): Rect
  {
    Rect(col * TILE_SIZE - cameraX, row * TILE_SIZE, TILE_SIZE, TILE_SIZE, TileColor(tile))
  }

  /** The squares of one row, for the columns from StartCol up to hi. */
  function RowRects(line: string, row: nat, cameraX: nat, hi: nat): seq<Rect>
    requires hi <= StartCol(cameraX) || hi <= |line|
    decreases hi
  {
    if hi <= StartCol(cameraX) then []
    else
      RowRects(line, row, cameraX, hi - 1)
      + (if line[hi - 1] != '.' then [TileRect(line[hi - 1], row, hi - 1, cameraX)] else [])
  }

  /** The squares of the first `rows` rows of a level, row after row. */
  function LevelRects(level: LevelMap, cameraX: nat, rows: nat): seq<Rect>
    requires rows <= |level|
  {
    if rows == 0 then []
    else
      LevelRects(level, cameraX, rows - 1)
      + RowRects(level[rows - 1], rows - 1, cameraX, EndCol(cameraX, |level[rows - 1]|))
  }

  /** `a` is drawn before `b` in reading order: an earlier row, or the same row further left. */
  predicate Precedes(a: Rect, b: Rect)
  {
    a.y < b.y || (a.y == b.y && a.x < b.x)
  }

  lemma {:induction false} RowRectsExact(line: string, row: nat, cameraX: nat, hi: nat)
    requires hi <= StartCol(cameraX) || hi <= |line|
    ensures forall r :: r in RowRects(line, row, cameraX, hi) <==>
      exists col :: StartCol(cameraX) <= col < hi && line[col] != '.' && r == TileRect(line[col], row, col, cameraX)
    ensures forall r :: r in RowRects(line, row, cameraX, hi) ==> r.y == row * TILE_SIZE && r.x < hi * TILE_SIZE - cameraX
    ensures forall i, j :: 0 <= i < j < |RowRects(line, row, cameraX, hi)| ==>
      RowRects(line, row, cameraX, hi)[i].x < RowRects(line, row, cameraX, hi)[j].x
    decreases hi
  {
    if hi > StartCol(cameraX) {
      RowRectsExact(line, row, cameraX, hi - 1);
      var prefix := RowRects(line, row, cameraX, hi - 1);
      var rs := RowRects(line, row, cameraX, hi);
      var last := TileRect(line[hi - 1], row, hi - 1, cameraX);
      assert rs == prefix + (if line[hi - 1] != '.' then [last] else []);
      forall r | r in rs
        ensures exists col :: StartCol(cameraX) <= col < hi && line[col] != '.' && r == TileRect(line[col], row, col, cameraX)
      {
        if r !in prefix {
          assert r == last;
        }
      }
      forall col | StartCol(cameraX) <= col < hi && line[col] != '.'
        ensures TileRect(line[col], row, col, cameraX) in rs
      {
        if col < hi - 1 {
          assert TileRect(line[col], row, col, cameraX) in prefix;
        }
      }
    }
  }

  /** Each square of the first `rows` rows belongs to a drawn tile of those rows. */
  lemma {:induction false} LevelRectsSound(level: LevelMap, cameraX: nat, rows: nat)
    requires rows <= |level|
    ensures forall r :: r in LevelRects(level, cameraX, rows) ==>
      exists row, col :: row < rows && IsDrawnTile(level, cameraX, row, col) && r == TileRect(level[row][col], row, col, cameraX)
  {
    if rows > 0 {
      var k := rows - 1;
      LevelRectsSound(level, cameraX, k);
      var end := EndCol(cameraX, |level[k]|);
      RowRectsExact(level[k], k, cameraX, end);
      var prefix := LevelRects(level, cameraX, k);
      forall r | r in LevelRects(level, cameraX, rows)
        ensures exists row, col :: row < rows && IsDrawnTile(level, cameraX, row, col) && r == TileRect(level[row][col], row, col, cameraX)
      {
        if r !in prefix {
          var col :| StartCol(cameraX) <= col < end && level[k][col] != '.' && r == TileRect(level[k][col], k, col, cameraX);
          assert IsDrawnTile(level, cameraX, k, col);
        }
      }
    }
  }

  /** Each drawn tile of the first `rows` rows has its square among theirs. */
  lemma {:induction false} LevelRectsComplete(level: LevelMap, cameraX: nat, rows: nat)
    requires rows <= |level|
    ensures forall row, col :: row < rows && IsDrawnTile(level, cameraX, row, col) ==>
      TileRect(level[row][col], row, col, cameraX) in LevelRects(level, cameraX, rows)
  {
    if rows > 0 {
      var k := rows - 1;
      LevelRectsComplete(level, cameraX, k);
      var end := EndCol(cameraX, |level[k]|);
      RowRectsExact(level[k], k, cameraX, end);
      var prefix := LevelRects(level, cameraX, k);
      var tail := RowRects(level[k], k, cameraX, end);
      assert LevelRects(level, cameraX, rows) == prefix + tail;
      forall row, col | row < rows && IsDrawnTile(level, cameraX, row, col)
        ensures TileRect(level[row][col], row, col, cameraX) in LevelRects(level, cameraX, rows)
      {
        if row < k {
          assert TileRect(level[row][col], row, col, cameraX) in prefix;
        } else {
          assert TileRect(level[row][col], row, col, cameraX) in tail;
        }
      }
    }
  }

  /** The squares come out in reading order, each row below the rows before it. */
  lemma {:induction false} LevelRectsOrdered(level: LevelMap, cameraX: nat, rows: nat)
    requires rows <= |level|
    ensures forall r :: r in LevelRects(level, cameraX, rows) ==> 0 <= r.y < rows * TILE_SIZE
    ensures forall i, j :: 0 <= i < j < |LevelRects(level, cameraX, rows)| ==>
      Precedes(LevelRects(level, cameraX, rows)[i], LevelRects(level, cameraX, rows)[j])
  {
    if rows > 0 {
      var k := rows - 1;
      LevelRectsOrdered(level, cameraX, k);
      var end := EndCol(cameraX, |level[k]|);
      RowRectsExact(level[k], k, cameraX, end);
      var prefix := LevelRects(level, cameraX, k);
      var tail := RowRects(level[k], k, cameraX, end);
      var rs := LevelRects(level, cameraX, rows);
      assert rs == prefix + tail;
      forall i, j | 0 <= i < j < |rs| ensures Precedes(rs[i], rs[j]) {
        if j < |prefix| {
          assert rs[i] == prefix[i] && rs[j] == prefix[j];
        } else if i < |prefix| {
          assert rs[i] in prefix && rs[j] in tail;
        } else {
          assert rs[i] == tail[i - |prefix|] && rs[j] == tail[j - |prefix|];
        }
      }
    }
  }

  /**
   * The renderer's contract: a level draws exactly one square per visible,
   * non-empty tile, and nothing else, with no square drawn twice.
   */
  lemma DrawnExactlyOnce(level: LevelMap, cameraX: nat)
    ensures forall row, col :: IsDrawnTile(level, cameraX, row, col) ==>
      TileRect(level[row][col], row, col, cameraX) in LevelRects(level, cameraX, |level|)
    ensures forall r :: r in LevelRects(level, cameraX, |level|) ==>
      exists row, col :: IsDrawnTile(level, cameraX, row, col) && r == TileRect(level[row][col], row, col, cameraX)
    ensures forall i, j :: 0 <= i < j < |LevelRects(level, cameraX, |level|)| ==>
      LevelRects(level, cameraX, |level|)[i] != LevelRects(level, cameraX, |level|)[j]
  {
    LevelRectsSound(level, cameraX, |level|);
    LevelRectsComplete(level, cameraX, |level|);
    LevelRectsOrdered(level, cameraX, |level|);
    var rs := LevelRects(level, cameraX, |level|);
    forall i, j | 0 <= i < j < |rs| ensures rs[i] != rs[j] {
      assert Precedes(rs[i], rs[j]);
    }
  }

  /**
   * Every drawn square overlaps the screen or the one column of overscan on
   * its right, and has a tile colour: never the sky's, never Mario's red.
   */
  lemma DrawnNearScreen(level: LevelMap, cameraX: nat)
    ensures forall r :: r in LevelRects(level, cameraX, |level|) ==>
      && -TILE_SIZE < r.x <= SCREEN_WIDTH && 0 <= r.y < |level| * TILE_SIZE
      && r.w == TILE_SIZE && r.h == TILE_SIZE
      && r.color != SKY_COLOR && r.color != MARIO_COLOR
  {
    LevelRectsSound(level, cameraX, |level|);
    LevelRectsOrdered(level, cameraX, |level|);
    forall r | r in LevelRects(level, cameraX, |level|)
      ensures -TILE_SIZE < r.x <= SCREEN_WIDTH && r.w == TILE_SIZE && r.h == TILE_SIZE
      ensures r.color != SKY_COLOR && r.color != MARIO_COLOR
    {
      var row, col :| IsDrawnTile(level, cameraX, row, col) && r == TileRect(level[row][col], row, col, cameraX);
      assert StartCol(cameraX) * TILE_SIZE <= cameraX < StartCol(cameraX) * TILE_SIZE + TILE_SIZE;
    }
  }

  /** A row whose length does not reach the first drawn column contributes nothing. */
  lemma {:induction false} ShortRowDrawsNothing(level: LevelMap, cameraX: nat, row: nat)
    requires row < |level| && StartCol(cameraX) >= |level[row]|
    ensures forall r :: r in LevelRects(level, cameraX, |level|) ==> r.y != row * TILE_SIZE
  {
    LevelRectsSound(level, cameraX, |level|);
    forall r | r in LevelRects(level, cameraX, |level|) ensures r.y != row * TILE_SIZE {
      var rw, col :| IsDrawnTile(level, cameraX, rw, col) && r == TileRect(level[rw][col], rw, col, cameraX);
      assert rw != row;
    }
  }

  /** The tile renderer: for each row, for each column of the window cut at the row's end. */
  method DrawLevel(levelMap: LevelMap, cameraX: int) returns (rects: seq<Rect>)
    requires cameraX >= 0
    ensures rects == LevelRects(levelMap, cameraX, |levelMap|)
  {
    var startCol := cameraX / TILE_SIZE;
    var endCol := startCol + SCREEN_WIDTH / TILE_SIZE + 1;
    rects := [];
    var row := 0;
    while row < |levelMap|
      invariant 0 <= row <= |levelMap|
      invariant rects == LevelRects(levelMap, cameraX, row)
    {
      var line := levelMap[row];
      var stop := Min(endCol, |line|);
      assert startCol == StartCol(cameraX) && stop == EndCol(cameraX, |line|);
      var col := startCol;
      ghost var before := rects;
      while col < stop
        invariant startCol <= col
        invariant col == startCol || col <= stop
        invariant rects == before + RowRects(line, row, cameraX, col)
      {
        var tile := line[col];
        ghost var drawn := RowRects(line, row, cameraX, col + 1);
        assert drawn == RowRects(line, row, cameraX, col) + (if tile != '.' then [TileRect(tile, row, col, cameraX)] else []);
        if tile != '.' {
          var x := col * TILE_SIZE - cameraX;
          var y := row * TILE_SIZE;
          rects := rects + [Rect(x, y, TILE_SIZE, TILE_SIZE, TileColor(tile))];
        }
        col := col + 1;
      }
      assert rects == before + RowRects(line, row, cameraX, stop) by {
        assert col == startCol || col == stop;
      }
      row := row + 1;
    }
  }

  /** Whether a sprite at level position x is drawn for this camera offset. */
  predicate OnScreen(x: int, cameraX: int)
  {
    0 <= x - cameraX < SCREEN_WIDTH
  }

  /** Mario's square, drawn only when his left edge is on screen. */
  function MarioSprite(x: int, y: int, cameraX: int): (rs: seq<Rect>)
    ensures |rs| <= 1
    ensures rs != [] <==> OnScreen(x, cameraX)
    ensures forall r :: r in rs ==> r == Rect(x - cameraX, y, SPRITE_SIZE, SPRITE_SIZE, MARIO_COLOR) && 0 <= r.x < SCREEN_WIDTH
  {
    if 0 <= x - cameraX < SCREEN_WIDTH then [Rect(x - cameraX, y, SPRITE_SIZE, SPRITE_SIZE, MARIO_COLOR)] else []
  }

  function EnemyRect(e: Enemy, cameraX: int): Rect
  {
    Rect(e.x - cameraX, e.y, SPRITE_SIZE, SPRITE_SIZE, GOOMBA_COLOR)
  }

  /** The squares of the first n enemies, skipping those off screen. */
  function EnemySprites(enemies: seq<Enemy>, cameraX: int, n: nat): seq<Rect>
    requires n <= |enemies|
  {
    if n == 0 then []
    else
      EnemySprites(enemies, cameraX, n - 1)
      + (if OnScreen(enemies[n - 1].x, cameraX) then [EnemyRect(enemies[n - 1], cameraX)] else [])
  }

  lemma {:induction false} EnemySpritesExact(enemies: seq<Enemy>, cameraX: int, n: nat)
    requires n <= |enemies|
    ensures |EnemySprites(enemies, cameraX, n)| <= n
    ensures forall r :: r in EnemySprites(enemies, cameraX, n) <==>
      exists i :: 0 <= i < n && OnScreen(enemies[i].x, cameraX) && r == EnemyRect(enemies[i], cameraX)
    ensures forall r :: r in EnemySprites(enemies, cameraX, n) ==> 0 <= r.x < SCREEN_WIDTH
  {
    if n > 0 {
      EnemySpritesExact(enemies, cameraX, n - 1);
      var prefix := EnemySprites(enemies, cameraX, n - 1);
      var rs := EnemySprites(enemies, cameraX, n);
      forall r | r in rs
        ensures exists i :: 0 <= i < n && OnScreen(enemies[i].x, cameraX) && r == EnemyRect(enemies[i], cameraX)
      {
        if r !in prefix {
          assert r == EnemyRect(enemies[n - 1], cameraX);
        }
      }
      forall i | 0 <= i < n && OnScreen(enemies[i].x, cameraX)
        ensures EnemyRect(enemies[i], cameraX) in rs
      {
        if i < n - 1 {
          assert EnemyRect(enemies[i], cameraX) in prefix;
        }
      }
    }
  }

  /** The enemy loop: one square per enemy whose left edge is on screen. */
  method DrawEnemies(enemies: seq<Enemy>, cameraX: int) returns (rects: seq<Rect>)
    ensures rects == EnemySprites(enemies, cameraX, |enemies|)
  {
    rects := [];
    var i := 0;
    while i < |enemies|
      invariant 0 <= i <= |enemies|
      invariant rects == EnemySprites(enemies, cameraX, i)
    {
      var enemyScreenX := enemies[i].x - cameraX;
      if 0 <= enemyScreenX < SCREEN_WIDTH {
        rects := rects + [Rect(enemyScreenX, enemies[i].y, SPRITE_SIZE, SPRITE_SIZE, GOOMBA_COLOR)];
      }
      i := i + 1;
    }
  }

  /** A 16x16 square that overlaps the screen or its one column of overscan, painted in a colour other than the sky's. */
  predicate NearScreen(r: Rect)
  {
    && -TILE_SIZE < r.x <= SCREEN_WIDTH
    && r.w == 16 && r.h == 16
    && r.color != SKY_COLOR
  }

  /** Whether a red square, Mario's colour, is among the drawn squares. */
  predicate ShowsMario(rects: seq<Rect>)
  {
    exists r :: r in rects && r.color == MARIO_COLOR
  }

  /**
   * The drawing of a play-field pass: the level's tiles, then Mario's square,
   * then the enemies'. Every square is a 16x16 square near the screen, and a
   * red square appears exactly when Mario is on screen: tiles and goombas
   * never take his colour.
   */
  function PlayfieldRects(level: LevelMap, cameraX: nat, marioX: int, marioY: int, enemies: seq<Enemy>): (rs: seq<Rect>)
    ensures forall r :: r in rs ==> NearScreen(r)
    ensures ShowsMario(rs) <==> OnScreen(marioX, cameraX)
  {
    DrawnNearScreen(level, cameraX);
    EnemySpritesExact(enemies, cameraX, |enemies|);
    var rs := LevelRects(level, cameraX, |level|) + MarioSprite(marioX, marioY, cameraX) + EnemySprites(enemies, cameraX, |enemies|);
    assert OnScreen(marioX, cameraX) ==> Rect(marioX - cameraX, marioY, SPRITE_SIZE, SPRITE_SIZE, MARIO_COLOR) in rs;
    rs
  }
}
