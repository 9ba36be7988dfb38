/**
 * The achievement atlas screen: the achievement flag bitset held in the
 * second save block, the joypad-driven cursor and scroll state machine,
 * the background window refreshed from the 64x64 atlas tilemap, the cursor
 * sprite callback, and the lookup of the achievement under the cursor.
 *
 * The header that defines ACH_FLAGS_COUNT is not part of this model: the
 * count is taken to be the number of bits the flag bytes hold.
 */
module Atlas {
  import opened Common

  // ---------------------------------------------------------------------
  // Screen geometry and timing constants.
  // ---------------------------------------------------------------------

  const ATLAS_WIDTH := 64
  const ATLAS_HEIGHT := 64
  const ATLAS_SIZE := ATLAS_WIDTH * ATLAS_HEIGHT
  /** Highest tilemap origin: the visible window is 30 tiles wide and 20 tall. */
  const MAX_POS_X := ATLAS_WIDTH - 30
  const MAX_POS_Y := ATLAS_HEIGHT - 20
  const MAX_CURSOR_X := ATLAS_WIDTH - 2
  const MAX_CURSOR_Y := ATLAS_HEIGHT - 2
  const VISIBLE_COLS := 30
  const VISIBLE_ROWS := 20
  /** UpdateAtlasScroll refreshes 22 rows of 32 entries of the background buffer. */
  const SCROLL_ROWS := 22
  const SCROLL_COLS := 32
  /** The background buffer holds BG_SCREEN_SIZE bytes, that is 1024 u16 entries. */
  const BG_MAP_ENTRIES := 1024

  const WAIT_FAST_SCROLL := 60
  const WAIT_SLOW_SCROLL := 15
  /** The highest value cursorHeldCounter reaches from its zero start. */
  const MAX_HELD_COUNTER := WAIT_FAST_SCROLL + 1
  /** Task_HandleAtlasInput moves by speed / 8 tiles and the sprite by speed pixels. */
  const SPEED := 8

  const DISPLAY_WIDTH := 240
  const DISPLAY_HEIGHT := 160

  // ---------------------------------------------------------------------
  // Achievement flags: GiveAchievement, CheckAchievement, TakeAchievement.
  // ---------------------------------------------------------------------

  /** ACH_FLAGS_COUNT, the number of achievement ids the flag bytes hold. */
  function FlagsCount(flags: seq<bv8>): nat { 8 * |flags| }

  /** The ids whose bit exists in the flag bytes. */
  predicate InRange(flags: seq<bv8>, id: nat) { id < FlagsCount(flags) }

  /** The mask of bit k of a flag byte. */
  function Bit(k: nat): bv8
    requires k < 8
  {
    1 << k
  }

  /** Bit k of byte b is 1. */
  predicate BitIsSet(b: bv8, k: nat)
    requires k < 8
  {
    (b >> k) & 1 == 1
  }

  /** Bit `id % 8` of byte `id / 8`. */
  predicate HasFlag(flags: seq<bv8>, id: nat)
    requires InRange(flags, id)
  {
    BitIsSet(flags[id / 8], id % 8)
  }

  /** CheckAchievement: an id outside the flag bytes reads as not achieved. */
  predicate CheckAchievement(flags: seq<bv8>, id: nat)
  {
    InRange(flags, id) && HasFlag(flags, id)
  }

  /** The flag bytes after GiveAchievement(id): the id's bit is set, other bits and the length are kept. */
  function WithFlag(flags: seq<bv8>, id: nat): (r: seq<bv8>)
    ensures |r| == |flags|
    ensures !InRange(flags, id) ==> r == flags
    ensures forall k | 0 <= k < |flags| && k != id / 8 :: r[k] == flags[k]
  {
    if !InRange(flags, id) then flags
    else flags[id / 8 := flags[id / 8] | Bit(id % 8)]
  }

  /** The flag bytes after TakeAchievement(id): the id's bit is cleared, other bits and the length are kept. */
  function WithoutFlag(flags: seq<bv8>, id: nat): (r: seq<bv8>)
    ensures |r| == |flags|
    ensures !InRange(flags, id) ==> r == flags
    ensures forall k | 0 <= k < |flags| && k != id / 8 :: r[k] == flags[k]
  {
    if !InRange(flags, id) then flags
    else flags[id / 8 := flags[id / 8] & !Bit(id % 8)]
  }

  /** Setting bit k of a byte leaves every other bit as it was. */
  lemma BitOfSet(b: bv8, k: nat, j: nat)
    requires k < 8 && j < 8
    ensures BitIsSet(b | Bit(k), j) <==> j == k || BitIsSet(b, j)
  {
  }

  /** Clearing bit k of a byte leaves every other bit as it was. */
  lemma BitOfClear(b: bv8, k: nat, j: nat)
    requires k < 8 && j < 8
    ensures BitIsSet(b & !Bit(k), j) <==> j != k && BitIsSet(b, j)
  {
  }

  /** Two ids are equal exactly when they share both their byte and their bit. */
  lemma SameByteAndBit(a: nat, b: nat)
    ensures a == b <==> a / 8 == b / 8 && a % 8 == b % 8
  {
    assert a == 8 * (a / 8) + a % 8 && b == 8 * (b / 8) + b % 8;
  }

  /** After GiveAchievement(id) exactly the bit of id is added to the achieved set. */
  lemma GiveThenCheck(flags: seq<bv8>, id: nat, other: nat)
    requires InRange(flags, id)
    ensures CheckAchievement(WithFlag(flags, id), other) <==> other == id || CheckAchievement(flags, other)
  {
    if InRange(flags, other) {
      SameByteAndBit(id, other);
      if other / 8 == id / 8 {
        BitOfSet(flags[id / 8], id % 8, other % 8);
        assert WithFlag(flags, id)[other / 8] == flags[id / 8] | Bit(id % 8);
      }
    }
  }

  /** After TakeAchievement(id) exactly the bit of id is removed from the achieved set. */
  lemma TakeThenCheck(flags: seq<bv8>, id: nat, other: nat)
    requires InRange(flags, id)
    ensures CheckAchievement(WithoutFlag(flags, id), other) <==> other != id && CheckAchievement(flags, other)
  {
    if InRange(flags, other) {
      SameByteAndBit(id, other);
      if other / 8 == id / 8 {
        BitOfClear(flags[id / 8], id % 8, other % 8);
        assert WithoutFlag(flags, id)[other / 8] == flags[id / 8] & !Bit(id % 8);
      }
    }
  }

  /** Ids the flag bytes cannot hold are ignored by all three operations. */
  lemma OutOfRangeIgnored(flags: seq<bv8>, id: nat)
    requires !InRange(flags, id)
    ensures WithFlag(flags, id) == flags && WithoutFlag(flags, id) == flags
    ensures !CheckAchievement(flags, id)
  {
  }

  /** Giving twice is giving once; taking twice is taking once. */
  lemma GiveTakeIdempotent(flags: seq<bv8>, id: nat)
    ensures WithFlag(WithFlag(flags, id), id) == WithFlag(flags, id)
    ensures WithoutFlag(WithoutFlag(flags, id), id) == WithoutFlag(flags, id)
  {
  }

  /**
   * The range guard of lines 773, 781 and 789 as written: an id is turned
   * away only when it EXCEEDS the flag count.
   */
  predicate GuardAsWritten(flags: seq<bv8>, id: nat) { !(id > FlagsCount(flags)) }

  /**
   * The guard as written lets the id equal to the flag count through, and
   * that id's byte index is one past the last flag byte.
   */
  lemma GuardAsWrittenAdmitsOnePastEnd(flags: seq<bv8>)
    ensures GuardAsWritten(flags, FlagsCount(flags))
    ensures FlagsCount(flags) / 8 == |flags|
    ensures !InRange(flags, FlagsCount(flags))
  {
  }

  /** GiveAchievement, with the range guard rejecting every id outside the flag bytes. */
  method GiveAchievement(achFlags: array<bv8>, id: nat)
    modifies achFlags
    ensures achFlags[..] == WithFlag(old(achFlags[..]), id)
  {
    if id >= 8 * achFlags.Length {
      return;
    }
    achFlags[id / 8] := achFlags[id / 8] | Bit(id % 8);
  }

  /** TakeAchievement, with the range guard rejecting every id outside the flag bytes. */
  method TakeAchievement(achFlags: array<bv8>, id: nat)
    modifies achFlags
    ensures achFlags[..] == WithoutFlag(old(achFlags[..]), id)
  {
    if id >= 8 * achFlags.Length {
      return;
    }
    achFlags[id / 8] := achFlags[id / 8] & !Bit(id % 8);
  }

  /** The flag bytes after the debug combination gives achievements 0 to 4 (lines 635-642). */
  function CheatFlags(flags: seq<bv8>): (r: seq<bv8>)
    ensures |r| == |flags|
  {
    WithFlag(WithFlag(WithFlag(WithFlag(WithFlag(flags, 0), 1), 2), 3), 4)
  }

  /** The debug combination achieves ids 0 to 4 and touches no other id. */
  lemma CheatAchievesFirstFive(flags: seq<bv8>, other: nat)
    requires |flags| > 0
    ensures CheckAchievement(CheatFlags(flags), other) <==> other < 5 || CheckAchievement(flags, other)
  {
    var f1 := WithFlag(flags, 0);
    var f2 := WithFlag(f1, 1);
    var f3 := WithFlag(f2, 2);
    var f4 := WithFlag(f3, 3);
    GiveThenCheck(flags, 0, other);
    GiveThenCheck(f1, 1, other);
    GiveThenCheck(f2, 2, other);
    GiveThenCheck(f3, 3, other);
    GiveThenCheck(f4, 4, other);
  }

  // ---------------------------------------------------------------------
  // Joypad decisions: DecideActionFromInput.
  // ---------------------------------------------------------------------

  datatype Button = ButtonA | ButtonB | Select | DpadLeft | DpadRight | DpadUp | DpadDown

  /** The buttons newly pressed this frame (JOY_NEW) and those held (JOY_HELD). */
  datatype Keys = Keys(newKeys: set<Button>, heldKeys: set<Button>)

  /** Action codes: 0 none, 1 left, 2 right, 3 up, 4 down, 5 confirm (A), 6 back (B). */
  const ACTION_NONE := 0
  const ACTION_CONFIRM := 5
  const ACTION_BACK := 6

  /** The action chosen for one frame and the held counter after it. */
  datatype Decision = Decision(action: int, counter: int)

  /** One frame of a held direction: the action fires or not, and the counter moves on. */
  function HeldRepeat(code: int, counter: int): (r: Decision)
    ensures counter > WAIT_FAST_SCROLL ==> r == Decision(code, WAIT_FAST_SCROLL - 1)
    ensures 0 <= counter <= WAIT_FAST_SCROLL ==> r.counter == counter + 1
    ensures 0 <= counter <= WAIT_FAST_SCROLL && code != ACTION_NONE ==>
      (r.action == code <==> counter % WAIT_SLOW_SCROLL == 0)
    ensures r.action == code || r.action == ACTION_NONE
  {
    if counter > WAIT_FAST_SCROLL then Decision(code, WAIT_FAST_SCROLL - 1)
    else if CRem(counter, WAIT_SLOW_SCROLL) == 0 then Decision(code, S8(counter + 1))
    else Decision(ACTION_NONE, S8(counter + 1))
  }

  /** The counter after a frame with no direction pressed or held. */
  function Released(counter: int): (r: int)
    ensures 10 + 5 <= counter < 0x80 ==> r == counter - 5
    ensures r >= 10 || r == 1
  {
    var c := S8(counter - 5);
    if c < 10 then 1 else c
  }

  /** One direction of the if-chain: new press fires at once, a held button repeats. */
  function Direction(keys: Keys, counter: int, button: Button, code: int, otherwise: Decision): Decision
  {
    if button in keys.newKeys then Decision(code, counter)
    else if button in keys.heldKeys then HeldRepeat(code, counter)
    else otherwise
  }

  predicate AnyDirection(keys: Keys)
  {
    DpadLeft in keys.newKeys + keys.heldKeys || DpadRight in keys.newKeys + keys.heldKeys
    || DpadUp in keys.newKeys + keys.heldKeys || DpadDown in keys.newKeys + keys.heldKeys
  }

  /** The debug combination: SELECT newly pressed with B and A held. */
  predicate Cheat(keys: Keys)
  {
    Select in keys.newKeys && ButtonB in keys.heldKeys && ButtonA in keys.heldKeys
  }

  /** The action and counter DecideActionFromInput produces. */
  function DecideAction(keys: Keys, counter: int): (r: Decision)
    ensures 0 <= r.action <= 6
    ensures ButtonA in keys.newKeys ==> r.action == ACTION_CONFIRM
    ensures ButtonA !in keys.newKeys && ButtonB in keys.newKeys ==> r.action == ACTION_BACK
    ensures !AnyDirection(keys) ==> r.counter == Released(counter)
    ensures 0 <= counter <= MAX_HELD_COUNTER ==> 0 <= r.counter <= MAX_HELD_COUNTER
    ensures DpadLeft in keys.newKeys && ButtonA !in keys.newKeys && ButtonB !in keys.newKeys ==>
      r == Decision(1, counter)
  {
    var d :=
      Direction(keys, counter, DpadLeft, 1,
      Direction(keys, counter, DpadRight, 2,
      Direction(keys, counter, DpadUp, 3,
      Direction(keys, counter, DpadDown, 4,
      Decision(ACTION_NONE, Released(counter))))));
    if ButtonA in keys.newKeys then d.(action := ACTION_CONFIRM)
    else if ButtonB in keys.newKeys then d.(action := ACTION_BACK)
    else d
  }

  /** Holding left only, the fast repeat fires on two frames of every three, forever. */
  lemma FastRepeatCycle(keys: Keys)
    requires keys == Keys({}, {DpadLeft})
    ensures var d1 := DecideAction(keys, WAIT_FAST_SCROLL - 1);
            var d2 := DecideAction(keys, d1.counter);
            var d3 := DecideAction(keys, d2.counter);
            d1.action == ACTION_NONE && d2.action == 1 && d3.action == 1 && d3.counter == WAIT_FAST_SCROLL - 1
  {
  }

  // ---------------------------------------------------------------------
  // Cursor and tilemap origin moves: the switch of Task_HandleAtlasInput.
  // ---------------------------------------------------------------------

  /** The cursor tile and the tilemap origin (the scrolled window's top left tile). */
  datatype Position = Position(x: int, y: int, posX: int, posY: int)

  predicate InBounds(p: Position)
  {
    1 <= p.x <= MAX_CURSOR_X && 1 <= p.y <= MAX_CURSOR_Y
    && 0 <= p.posX <= MAX_POS_X && 0 <= p.posY <= MAX_POS_Y
  }

  /**
   * The outcome of one move: the new position, whether the origin scrolled
   * (shouldUpdateTilemap), and the action handed to the cursor sprite.
   */
  datatype Moved = Moved(pos: Position, scrolled: bool, spriteAction: int)

  /** Action 1: one tile left, scrolling the origin left when the cursor nears the left edge of the window. */
  function MoveLeft(p: Position): (r: Moved)
    ensures r.pos.y == p.y && r.pos.posY == p.posY
    ensures r.spriteAction == (if r.scrolled then 0 else 1)
    ensures InBounds(p) ==> InBounds(r.pos) && r.pos.x <= p.x && r.pos.posX <= p.posX
    ensures InBounds(p) ==> (r.scrolled <==> r.pos.posX != p.posX)
  {
    var x := S8(p.x - SPEED / 8);
    var x := if x < 1 then 1 else x;
    if p.posX != 0 && x <= 10 + p.posX then
      var px := S8(p.posX - SPEED / 8);
      Moved(p.(x := x, posX := if px < 0 then 0 else px), true, 0)
    else Moved(p.(x := x), false, 1)
  }

  /** Action 2: one tile right, scrolling the origin right when the cursor nears the right edge of the window. */
  function MoveRight(p: Position): (r: Moved)
    ensures r.pos.y == p.y && r.pos.posY == p.posY
    ensures r.spriteAction == (if r.scrolled then 0 else 2)
    ensures InBounds(p) ==> InBounds(r.pos) && r.pos.x >= p.x && r.pos.posX >= p.posX
    ensures InBounds(p) ==> (r.scrolled <==> r.pos.posX != p.posX)
  {
    var x := S8(p.x + SPEED / 8);
    var x := if x >= MAX_CURSOR_X then MAX_CURSOR_X else x;
    if p.posX != MAX_POS_X && x >= 20 + p.posX then
      var px := S8(p.posX + SPEED / 8);
      Moved(p.(x := x, posX := if px >= MAX_POS_X then MAX_POS_X else px), true, 0)
    else Moved(p.(x := x), false, 2)
  }

  /** Action 3: one tile up, scrolling the origin up when the cursor nears the top of the window. */
  function MoveUp(p: Position): (r: Moved)
    ensures r.pos.x == p.x && r.pos.posX == p.posX
    ensures r.spriteAction == (if r.scrolled then 0 else 3)
    ensures InBounds(p) ==> InBounds(r.pos) && r.pos.y <= p.y && r.pos.posY <= p.posY
    ensures InBounds(p) ==> (r.scrolled <==> r.pos.posY != p.posY)
  {
    var y := S8(p.y - SPEED / 8);
    var y := if y < 1 then 1 else y;
    if p.posY != 0 && y <= 5 + p.posY then
      var py := S8(p.posY - SPEED / 8);
      Moved(p.(y := y, posY := if py < 0 then 0 else py), true, 0)
    else Moved(p.(y := y), false, 3)
  }

  /** Action 4: one tile down, scrolling the origin down when the cursor nears the bottom of the window. */
  function MoveDown(p: Position): (r: Moved)
    ensures r.pos.x == p.x && r.pos.posX == p.posX
    ensures r.spriteAction == (if r.scrolled then 0 else 4)
    ensures InBounds(p) ==> InBounds(r.pos) && r.pos.y >= p.y && r.pos.posY >= p.posY
    ensures InBounds(p) ==> (r.scrolled <==> r.pos.posY != p.posY)
  {
    var y := S8(p.y + SPEED / 8);
    var y := if y >= MAX_CURSOR_Y then MAX_CURSOR_Y else y;
    if p.posY != MAX_POS_Y && y >= 15 + p.posY then
      var py := S8(p.posY + SPEED / 8);
      Moved(p.(y := y, posY := if py >= MAX_POS_Y then MAX_POS_Y else py), true, 0)
    else Moved(p.(y := y), false, 4)
  }

  /** A move of one tile for actions 1 to 4; every other action leaves the position alone. */
  function Move(p: Position, action: int): (r: Moved)
    ensures action !in {1, 2, 3, 4} ==> r.pos == p && !r.scrolled
    ensures InBounds(p) ==> InBounds(r.pos)
    ensures InBounds(p) ==> (r.scrolled <==> (r.pos.posX, r.pos.posY) != (p.posX, p.posY))
    ensures action in {1, 2} ==> r.pos.y == p.y && r.pos.posY == p.posY
    ensures action in {3, 4} ==> r.pos.x == p.x && r.pos.posX == p.posX
    ensures InBounds(p) && action == 1 ==> r.pos.x <= p.x && r.pos.posX <= p.posX
    ensures InBounds(p) && action == 2 ==> r.pos.x >= p.x && r.pos.posX >= p.posX
    ensures InBounds(p) && action == 3 ==> r.pos.y <= p.y && r.pos.posY <= p.posY
    ensures InBounds(p) && action == 4 ==> r.pos.y >= p.y && r.pos.posY >= p.posY
    ensures action in {1, 2, 3, 4} ==> r.spriteAction == (if r.scrolled then 0 else action)
  {
    if action == 1 then MoveLeft(p)
    else if action == 2 then MoveRight(p)
    else if action == 3 then MoveUp(p)
    else if action == 4 then MoveDown(p)
    else Moved(p, false, 0)
  }

  /** Cursor, origin, refresh request and sprite motion after the move step of the input task. */
  datatype Motion = Motion(pos: Position, scrolled: bool, spriteAction: int, spriteSpeed: int)

  /**
   * The move step of Task_HandleAtlasInput: nothing moves while the
   * description is open; otherwise the cursor moves by Move and a
   * direction sets the sprite going at full speed.
   */
  function CursorMotion(p: Position, descOpen: bool, action: int, spriteAction: int, spriteSpeed: int): (r: Motion)
    ensures InBounds(p) ==> InBounds(r.pos)
    ensures 0 <= spriteSpeed <= SPEED ==> 0 <= r.spriteSpeed <= SPEED
    ensures descOpen || action !in {1, 2, 3, 4} ==> r.pos == p && !r.scrolled
    ensures descOpen || action !in {1, 2, 3, 4} ==> r.spriteAction == spriteAction && r.spriteSpeed == spriteSpeed
    ensures !descOpen && action in {1, 2, 3, 4} ==> r.spriteSpeed == SPEED
    ensures !descOpen && InBounds(p) ==> (r.scrolled <==> (r.pos.posX, r.pos.posY) != (p.posX, p.posY))
  {
    if descOpen then Motion(p, false, spriteAction, spriteSpeed)
    else
      var m := Move(p, action);
      if action in {1, 2, 3, 4} then Motion(m.pos, m.scrolled, m.spriteAction, SPEED)
      else Motion(m.pos, m.scrolled, spriteAction, spriteSpeed)
  }

  // ---------------------------------------------------------------------
  // UpdateAtlasScroll: which atlas tile lands in each background entry.
  // ---------------------------------------------------------------------

  /** The tilemap index the refresh loop reads for row i, column j, as written (line 730). */
  function ScrollIndexAsWritten(posX: int, posY: int, i: int, j: int): int
  {
    (posY + i) * ATLAS_WIDTH + (posX + j)
  }

  /**
   * At the origin clamps the refresh loop reads row 65, column 65 of a
   * 64x64 tilemap: its last index lies past the end of the table, and the
   * columns past 63 wrap into the following row.
   */
  lemma ScrollAsWrittenReadsPastAtlas()
    ensures InBounds(Position(MAX_CURSOR_X, MAX_CURSOR_Y, MAX_POS_X, MAX_POS_Y))
    ensures MAX_POS_X + SCROLL_COLS - 1 == 65 && MAX_POS_Y + SCROLL_ROWS - 1 == 65
    ensures ScrollIndexAsWritten(MAX_POS_X, MAX_POS_Y, SCROLL_ROWS - 1, SCROLL_COLS - 1) >= ATLAS_SIZE
  {
  }

  /**
   * The atlas tile for row i, column j of the window at origin (posX,
   * posY), with tiles beyond the atlas edge read as entry 0 instead of
   * past the table.
   */
  function ScrollTile(tilemap: seq<int>, posX: int, posY: int, i: int, j: int): (r: int)
    requires |tilemap| == ATLAS_SIZE
    ensures 0 <= posX + j < ATLAS_WIDTH && 0 <= posY + i < ATLAS_HEIGHT ==>
      r == tilemap[ScrollIndexAsWritten(posX, posY, i, j)]
    ensures !(0 <= posX + j < ATLAS_WIDTH && 0 <= posY + i < ATLAS_HEIGHT) ==> r == 0
  {
    var tileX, tileY := posX + j, posY + i;
    if 0 <= tileX < ATLAS_WIDTH && 0 <= tileY < ATLAS_HEIGHT then tilemap[tileY * ATLAS_WIDTH + tileX]
    else 0
  }

  /**
   * The visible 30x20 part of the window never reaches the atlas edge, so
   * there the corrected refresh shows the very tiles the written loop reads.
   */
  lemma VisibleWindowInsideAtlas(tilemap: seq<int>, p: Position, i: int, j: int)
    requires |tilemap| == ATLAS_SIZE && InBounds(p)
    requires 0 <= i < VISIBLE_ROWS && 0 <= j < VISIBLE_COLS
    ensures 0 <= ScrollIndexAsWritten(p.posX, p.posY, i, j) < ATLAS_SIZE
    ensures ScrollTile(tilemap, p.posX, p.posY, i, j) == tilemap[ScrollIndexAsWritten(p.posX, p.posY, i, j)]
  {
  }

  // ---------------------------------------------------------------------
  // AtlasCursorSpriteCB.
  // ---------------------------------------------------------------------

  /** The cursor sprite position after one callback with action data[0] and speed data[1]. */
  function SpriteStep(x: int, y: int, action: int, speed: int): (r: (int, int))
    ensures action == 1 ==> r.0 >= 8 && r.1 == y
    ensures action == 2 ==> r.0 <= DISPLAY_WIDTH - 12 && r.1 == y
    ensures action == 3 ==> r.1 >= 8 && r.0 == x
    ensures action == 4 ==> r.1 <= DISPLAY_HEIGHT - 12 && r.0 == x
    ensures action !in {1, 2, 3, 4} ==> r == (x, y)
    ensures 8 <= x <= DISPLAY_WIDTH - 12 && 8 <= y <= DISPLAY_HEIGHT - 12 && 0 <= speed <= SPEED ==>
      8 <= r.0 <= DISPLAY_WIDTH - 12 && 8 <= r.1 <= DISPLAY_HEIGHT - 12
  {
    if action == 1 then
      var nx := S16(x - speed);
      (if nx < 8 then 12 else nx, y)
    else if action == 2 then
      var nx := S16(x + speed);
      (if nx > DISPLAY_WIDTH - 12 then DISPLAY_WIDTH - 12 else nx, y)
    else if action == 3 then
      var ny := S16(y - speed);
      (x, if ny < 8 then 12 else ny)
    else if action == 4 then
      var ny := S16(y + speed);
      (x, if ny > DISPLAY_HEIGHT - 12 then DISPLAY_HEIGHT - 12 else ny)
    else (x, y)
  }

  // ---------------------------------------------------------------------
  // The achievement points and the lookup of Task_UpdateAtlasStatus.
  // ---------------------------------------------------------------------

  datatype Category = Exploration | BattleCategory | Companions | Questing

  /** An entry of sTestAtlasData: its tile and category. */
  datatype AtlasPoint = AtlasPoint(x: int, y: int, category: Category)

  const ACH_POINTS: seq<AtlasPoint> := [
    AtlasPoint(12, 55, Exploration),
    AtlasPoint(28, 55, BattleCategory),
    AtlasPoint(57, 55, Companions),
    AtlasPoint(43, 55, Questing),
    AtlasPoint(57, 52, Companions),
    AtlasPoint(59, 48, Companions),
    AtlasPoint(59, 50, Companions),
    AtlasPoint(59, 52, Companions),
    AtlasPoint(61, 48, Companions),
    AtlasPoint(61, 50, Companions),
    AtlasPoint(61, 52, Companions),
    AtlasPoint(60, 46, Companions)
  ]

  predicate At(p: AtlasPoint, x: int, y: int) { p.x == x && p.y == y }

  /** Whether some achievement point lies on tile (x, y). */
  predicate OnAchTile(x: int, y: int)
  {
    exists k | 0 <= k < |ACH_POINTS| :: At(ACH_POINTS[k], x, y)
  }

  /** The first achievement point on tile (x, y), or None (the source's -1u). */
  method LookupAchTile(x: int, y: int) returns (achTileId: Option<nat>)
    ensures achTileId.Some? <==> OnAchTile(x, y)
    ensures achTileId.Some? ==> achTileId.value < |ACH_POINTS| && At(ACH_POINTS[achTileId.value], x, y)
    ensures achTileId.Some? ==> forall k | 0 <= k < achTileId.value :: !At(ACH_POINTS[k], x, y)
  {
    var i := 0;
    while i < |ACH_POINTS|
      invariant 0 <= i <= |ACH_POINTS|
      invariant forall k | 0 <= k < i :: !At(ACH_POINTS[k], x, y)
    {
      if At(ACH_POINTS[i], x, y) {
        return Some(i);
      }
      i := i + 1;
    }
    return None;
  }

  /** Every achievement point is a tile the cursor can reach. */
  lemma AchPointsReachable(k: nat)
    requires k < |ACH_POINTS|
    ensures 1 <= ACH_POINTS[k].x <= MAX_CURSOR_X && 1 <= ACH_POINTS[k].y <= MAX_CURSOR_Y
  {
  }

  // ---------------------------------------------------------------------
  // The screen: sAchAtlas, the cursor sprite and the input task.
  // ---------------------------------------------------------------------

  /** The function the atlas task runs on its next frame. */
  datatype AtlasTask = HandleAtlasInput | UpdateAtlasStatus

  /** The description the screen shows after Task_UpdateAtlasStatus for a given action. */
  function StatusAfter(isOnAchTile: bool, descOpen: bool, action: int, x: int, y: int): (r: (bool, bool))
    ensures isOnAchTile && action == ACTION_BACK ==> r == (true, false)
    ensures isOnAchTile && action == ACTION_CONFIRM && !descOpen ==> r == (true, OnAchTile(x, y))
    ensures isOnAchTile && descOpen ==> r.0 && (r.1 <==> action != ACTION_BACK)
    ensures !(isOnAchTile && (descOpen || action == ACTION_CONFIRM || action == ACTION_BACK)) ==>
      r == (OnAchTile(x, y), descOpen)
  {
    if isOnAchTile && (descOpen || action == ACTION_CONFIRM || action == ACTION_BACK) then
      (true,
       if action == ACTION_BACK then false
       else if action == ACTION_CONFIRM && !descOpen then OnAchTile(x, y)
       else descOpen)
    else (OnAchTile(x, y), descOpen)
  }

  class AtlasScreen {
    /** The achievement flag bytes of the second save block. */
    const achFlags: array<bv8>
    /** sAchievementAtlasTilemap, the 64x64 atlas. */
    const tilemap: seq<int>
    /** The tilemap buffer of background 3. */
    const bgMap: array<int>

    var cursorX: int
    var cursorY: int
    var cursorHeldCounter: int
    var tilemapPosX: int
    var tilemapPosY: int
    var shouldUpdateTilemap: bool
    var isOnAchTile: bool

    /** The cursor sprite's pos1 and its data[0] (action) and data[1] (speed). */
    var spriteX: int
    var spriteY: int
    var spriteAction: int
    var spriteSpeed: int

    /** The atlas task: its function, data[0] (pending action) and data[1] (description open). */
    var taskFunc: AtlasTask
    var taskAction: int
    var descOpen: bool

    function Pos(): Position
      reads this
    {
      Position(cursorX, cursorY, tilemapPosX, tilemapPosY)
    }

    ghost predicate Valid()
      reads this
    {
      |tilemap| == ATLAS_SIZE && bgMap.Length == BG_MAP_ENTRIES
      && achFlags as object != bgMap
      && InBounds(Pos())
      && 0 <= cursorHeldCounter <= MAX_HELD_COUNTER
      && 8 <= spriteX <= DISPLAY_WIDTH - 12 && 8 <= spriteY <= DISPLAY_HEIGHT - 12
      && 0 <= spriteSpeed <= SPEED
    }

    /** Background buffer entries 0 to 703 show the 32x22 window at the current origin. */
    ghost predicate ShowsWindow()
      reads this, bgMap
      requires |tilemap| == ATLAS_SIZE && bgMap.Length == BG_MAP_ENTRIES
    {
      forall i, j | 0 <= i < SCROLL_ROWS && 0 <= j < SCROLL_COLS ::
        bgMap[i * SCROLL_COLS + j] == ScrollTile(tilemap, tilemapPosX, tilemapPosY, i, j)
    }

    /**
     * The screen as the input task first sees it after the atlas opens:
     * cursor (15, 10), origin (0, 0), a new sprite at the centre, and a new
     * task with its data at 0. `sAchAtlas` is static, so the held counter and
     * the tile flag are what the last visit left (0 and false the first time);
     * the scroll flag is cleared before it is read.
     */
    constructor (achFlags: array<bv8>, tilemap: seq<int>, heldCounter: int, onAchTile: bool)
      requires |tilemap| == ATLAS_SIZE && 0 <= heldCounter <= MAX_HELD_COUNTER
      ensures Valid() && ShowsWindow()
      ensures this.achFlags == achFlags && this.tilemap == tilemap && fresh(bgMap)
      ensures Pos() == Position(15, 10, 0, 0)
      ensures cursorHeldCounter == heldCounter && isOnAchTile == onAchTile && !shouldUpdateTilemap
      ensures spriteX == DISPLAY_WIDTH / 2 + 4 && spriteY == DISPLAY_HEIGHT / 2 + 4
      ensures spriteAction == 0 && spriteSpeed == 0
      ensures taskFunc == HandleAtlasInput && taskAction == 0 && !descOpen
    {
      this.achFlags := achFlags;
      this.tilemap := tilemap;
      bgMap := new int[BG_MAP_ENTRIES](_ => 0);
      cursorX, cursorY := 15, 10;
      tilemapPosX, tilemapPosY := 0, 0;
      cursorHeldCounter := heldCounter;
      shouldUpdateTilemap, isOnAchTile := false, onAchTile;
      spriteX, spriteY := DISPLAY_WIDTH / 2 + 4, DISPLAY_HEIGHT / 2 + 4;
      spriteAction, spriteSpeed := 0, 0;
      taskFunc, taskAction, descOpen := HandleAtlasInput, 0, false;
      new;
      FillWindow();
    }

    /** The nested refresh loop: 22 rows of 32 entries from the atlas at the current origin. */
    method FillWindow()
      requires |tilemap| == ATLAS_SIZE && bgMap.Length == BG_MAP_ENTRIES
      modifies bgMap
      ensures ShowsWindow()
      ensures forall k | SCROLL_ROWS * SCROLL_COLS <= k < BG_MAP_ENTRIES :: bgMap[k] == old(bgMap[k])
    {
      var i := 0;
      while i < SCROLL_ROWS
        invariant 0 <= i <= SCROLL_ROWS
        invariant forall r, c | 0 <= r < i && 0 <= c < SCROLL_COLS ::
          bgMap[r * SCROLL_COLS + c] == ScrollTile(tilemap, tilemapPosX, tilemapPosY, r, c)
        invariant forall k | i * SCROLL_COLS <= k < BG_MAP_ENTRIES :: bgMap[k] == old(bgMap[k])
      {
        var j := 0;
        while j < SCROLL_COLS
          invariant 0 <= j <= SCROLL_COLS
          invariant forall r, c | 0 <= r < i && 0 <= c < SCROLL_COLS ::
            bgMap[r * SCROLL_COLS + c] == ScrollTile(tilemap, tilemapPosX, tilemapPosY, r, c)
          invariant forall c | 0 <= c < j ::
            bgMap[i * SCROLL_COLS + c] == ScrollTile(tilemap, tilemapPosX, tilemapPosY, i, c)
          invariant forall k | i * SCROLL_COLS + j <= k < BG_MAP_ENTRIES :: bgMap[k] == old(bgMap[k])
        {
          bgMap[i * SCROLL_COLS + j] := ScrollTile(tilemap, tilemapPosX, tilemapPosY, i, j);
          j := j + 1;
        }
        i := i + 1;
      }
    }

    /** UpdateAtlasScroll: refresh the window only when the origin moved this frame. */
    method UpdateAtlasScroll()
      requires |tilemap| == ATLAS_SIZE && bgMap.Length == BG_MAP_ENTRIES
      modifies bgMap
      ensures shouldUpdateTilemap ==> ShowsWindow()
      ensures shouldUpdateTilemap ==>
        forall k | SCROLL_ROWS * SCROLL_COLS <= k < BG_MAP_ENTRIES :: bgMap[k] == old(bgMap[k])
      ensures !shouldUpdateTilemap ==> bgMap[..] == old(bgMap[..])
    {
      if shouldUpdateTilemap {
        FillWindow();
      }
    }

    /** A frame with a direction held: the action fires or not and the counter moves on. */
    method HeldTick(code: int) returns (action: int)
      modifies this`cursorHeldCounter
      ensures Decision(action, cursorHeldCounter) == HeldRepeat(code, old(cursorHeldCounter))
    {
      if cursorHeldCounter > WAIT_FAST_SCROLL {
        action := code;
        cursorHeldCounter := WAIT_FAST_SCROLL - 1;
      } else if CRem(cursorHeldCounter, WAIT_SLOW_SCROLL) == 0 {
        action := code;
        cursorHeldCounter := S8(cursorHeldCounter + 1);
      } else {
        action := ACTION_NONE;
        cursorHeldCounter := S8(cursorHeldCounter + 1);
      }
    }

    /** DecideActionFromInput: the debug combination, the direction chain, then A and B. */
    method DecideActionFromInput(keys: Keys) returns (action: int)
      modifies this`cursorHeldCounter, achFlags
      ensures Decision(action, cursorHeldCounter) == DecideAction(keys, old(cursorHeldCounter))
      ensures achFlags[..] == if Cheat(keys) then CheatFlags(old(achFlags[..])) else old(achFlags[..])
    {
      if Cheat(keys) {
        GiveAchievement(achFlags, 0);
        GiveAchievement(achFlags, 1);
        GiveAchievement(achFlags, 2);
        GiveAchievement(achFlags, 3);
        GiveAchievement(achFlags, 4);
      }
      action := ACTION_NONE;
      if DpadLeft in keys.newKeys {
        action := 1;
      } else if DpadLeft in keys.heldKeys {
        action := HeldTick(1);
      } else if DpadRight in keys.newKeys {
        action := 2;
      } else if DpadRight in keys.heldKeys {
        action := HeldTick(2);
      } else if DpadUp in keys.newKeys {
        action := 3;
      } else if DpadUp in keys.heldKeys {
        action := HeldTick(3);
      } else if DpadDown in keys.newKeys {
        action := 4;
      } else if DpadDown in keys.heldKeys {
        action := HeldTick(4);
      } else {
        cursorHeldCounter := S8(cursorHeldCounter - 5);
        if cursorHeldCounter < 10 {
          cursorHeldCounter := 1;
        }
      }
      if ButtonA in keys.newKeys {
        action := ACTION_CONFIRM;
      } else if ButtonB in keys.newKeys {
        action := ACTION_BACK;
      }
    }

    function CurrentMotion(): Motion
      reads this
    {
      Motion(Pos(), shouldUpdateTilemap, spriteAction, spriteSpeed)
    }

    /** The switch of Task_HandleAtlasInput: one move, skipped while the description is open. */
    method MoveCursor(action: int)
      modifies this`cursorX, this`cursorY, this`tilemapPosX, this`tilemapPosY
      modifies this`shouldUpdateTilemap, this`spriteAction, this`spriteSpeed
      ensures CurrentMotion() == CursorMotion(old(Pos()), descOpen, action, old(spriteAction), old(spriteSpeed))
    {
      shouldUpdateTilemap := false;
      if !descOpen {
        var m := Move(Pos(), action);
        cursorX, cursorY, tilemapPosX, tilemapPosY := m.pos.x, m.pos.y, m.pos.posX, m.pos.posY;
        shouldUpdateTilemap := m.scrolled;
        if action in {1, 2, 3, 4} {
          spriteAction, spriteSpeed := m.spriteAction, SPEED;
        }
      }
    }

    /** Task_HandleAtlasInput: decide, move unless the description is open, refresh, hand over. */
    method HandleInput(keys: Keys)
      requires Valid()
      modifies this`cursorX, this`cursorY, this`tilemapPosX, this`tilemapPosY, this`cursorHeldCounter
      modifies this`shouldUpdateTilemap, this`spriteAction, this`spriteSpeed, this`taskAction, this`taskFunc
      modifies achFlags, bgMap
      ensures Valid()
      ensures var d := DecideAction(keys, old(cursorHeldCounter));
        cursorHeldCounter == d.counter
        && CurrentMotion() == CursorMotion(old(Pos()), descOpen, d.action, old(spriteAction), old(spriteSpeed))
        && (d.action != ACTION_NONE ==> taskAction == d.action && taskFunc == UpdateAtlasStatus)
        && (d.action == ACTION_NONE ==> taskAction == old(taskAction) && taskFunc == old(taskFunc))
      ensures achFlags[..] == if Cheat(keys) then CheatFlags(old(achFlags[..])) else old(achFlags[..])
      ensures shouldUpdateTilemap ==> ShowsWindow()
      ensures shouldUpdateTilemap ==>
        forall k | SCROLL_ROWS * SCROLL_COLS <= k < BG_MAP_ENTRIES :: bgMap[k] == old(bgMap[k])
      ensures !shouldUpdateTilemap ==> bgMap[..] == old(bgMap[..])
      ensures spriteX == old(spriteX) && spriteY == old(spriteY)
    {
      var action := DecideActionFromInput(keys);
      MoveCursor(action);
      UpdateAtlasScroll();
      if action != ACTION_NONE {
        taskAction := action;
        taskFunc := UpdateAtlasStatus;
      }
    }

    /** Task_UpdateAtlasStatus: open or close the description, or track the tile under the cursor. */
    method UpdateStatus()
      modifies this`isOnAchTile, this`descOpen, this`taskFunc
      ensures (isOnAchTile, descOpen) == StatusAfter(old(isOnAchTile), old(descOpen), taskAction, cursorX, cursorY)
      ensures taskFunc == HandleAtlasInput
    {
      var action := taskAction;
      if isOnAchTile {
        if action == ACTION_BACK && descOpen {
          descOpen := false;
          taskFunc := HandleAtlasInput;
          return;
        } else if action == ACTION_CONFIRM && !descOpen {
          var hit := LookupAchTile(cursorX, cursorY);
          if hit.Some? {
            descOpen := true;
          }
          taskFunc := HandleAtlasInput;
          return;
        } else if (action == ACTION_BACK && !descOpen) || (action == ACTION_CONFIRM && descOpen) {
          taskFunc := HandleAtlasInput;
          return;
        } else if descOpen {
          taskFunc := HandleAtlasInput;
          return;
        }
      }
      var achTileId := LookupAchTile(cursorX, cursorY);
      isOnAchTile := achTileId.Some?;
      taskFunc := HandleAtlasInput;
    }

    /** AtlasCursorSpriteCB: move the sprite by its action and speed, then clear the action. */
    method CursorSpriteCallback()
      requires Valid()
      modifies this`spriteX, this`spriteY, this`spriteAction
      ensures Valid()
      ensures (spriteX, spriteY) == SpriteStep(old(spriteX), old(spriteY), old(spriteAction), spriteSpeed)
      ensures spriteAction == 0
    {
      var p := SpriteStep(spriteX, spriteY, spriteAction, spriteSpeed);
      spriteX, spriteY := p.0, p.1;
      spriteAction := 0;
    }
  }
}
