/**
 * The player tank: its level ladder and the bullet stats each level gives,
 * the four blocking moves, and the shot.
 */
module Players {
  import opened Geometry
  import opened Wall
  import opened Bullets

  /** The three level sheets of a player tank (tank_T<n>_0, _1, _2). */
  datatype TankSheet = L0 | L1 | L2

  /** The sheet shown at a level: level 3 reuses the level-2 sheet. */
  function SheetOf(level: int): TankSheet {
    if level <= 0 then L0 else if level == 1 then L1 else L2
  }

  // ---------------------------------------------------------------------------
  // Level rules

  /** The level after `levelUp`: one step, and only from below 2. */
  function Raised(level: int): int {
    if level < 2 then level + 1 else level
  }

  /** The level after `levelDown`: one step, and only from above 0. */
  function Lowered(level: int): int {
    if level > 0 then level - 1 else level
  }

  /** The level after `n` calls of `levelUp`. */
  function Raise(level: int, n: nat): int {
    if n == 0 then level else Raised(Raise(level, n - 1))
  }

  /** The level after `n` calls of `levelDown`. */
  function Lower(level: int, n: nat): int {
    if n == 0 then level else Lowered(Lower(level, n - 1))
  }

  /**
   * `levelUp` alone climbs one level per call up to 2 and never past it;
   * a level of 2 or more (3 is reached only through the K_3 shortcut) stays put.
   */
  lemma {:induction false} RaiseClamps(level: int, n: nat)
    ensures 0 <= level <= 2 ==> Raise(level, n) == (if level + n < 2 then level + n else 2)
    ensures 2 <= level ==> Raise(level, n) == level
  {
    if n > 0 {
      RaiseClamps(level, n - 1);
    }
  }

  /** `levelDown` descends one level per call and stops at 0, never below. */
  lemma {:induction false} LowerClamps(level: int, n: nat)
    requires 0 <= level
    ensures Lower(level, n) == (if n < level then level - n else 0)
  {
    if n > 0 {
      LowerClamps(level, n - 1);
    }
  }

  /** The bullet (speed, strong) a shot leaves: level 1 gives (16, plain), 2 gives (16, strong), 3 gives (48, strong), 0 keeps what the bullet had. */
  function ShotStats(level: int, speed: int, strong: bool): (int, bool) {
    if level == 1 then (16, false)
    else if level == 2 then (16, true)
    else if level == 3 then (48, true)
    else (speed, strong)
  }

  /**
   * Level 0 keeps whatever the bullet had; above 0 the stats depend on the
   * level alone, strong exactly from level 2, and never slower at a higher level.
   */
  lemma ShotStatsByLevel(level: int, speed: int, strong: bool, speed2: int, strong2: bool)
    requires 0 <= level <= 3
    ensures level == 0 ==> ShotStats(level, speed, strong) == (speed, strong)
    ensures level > 0 ==> ShotStats(level, speed, strong) == ShotStats(level, speed2, strong2)
    ensures level > 0 ==> (ShotStats(level, speed, strong).1 <==> level >= 2)
    ensures 0 < level < 3 ==> ShotStats(level, speed, strong).0 <= ShotStats(level + 1, speed, strong).0
  {
  }

  // ---------------------------------------------------------------------------
  // Moves

  /** The one edge test a move towards `h` makes (moveUp tests only the top, and so on). */
  predicate Crosses(r: Rect, h: Heading) {
    match h
    case Up => PastTop(r)
    case Down => PastBottom(r)
    case Left => PastLeft(r)
    case Right => PastRight(r)
  }

  /** The box overlaps a brick, an iron or one of the other tanks' boxes. */
  predicate Obstructed(r: Rect, tanks: seq<Rect>, bricks: seq<Cell>, irons: seq<Cell>) {
    HitsTile(r, bricks) || HitsTile(r, irons) || HitsAny(r, tanks)
  }

  /**
   * A player move towards `h`: the box shifted by `speed` steps, or the old
   * box and `true` (blocked) when the shifted one crosses the edge it moves
   * towards or is obstructed.
   */
  function PlayerStep(r: Rect, h: Heading, speed: int, tanks: seq<Rect>, bricks: seq<Cell>, irons: seq<Cell>): (Rect, bool) {
    var shifted := r.Move(speed * h.DX(), speed * h.DY());
    if Crosses(shifted, h) || Obstructed(shifted, tanks, bricks, irons) then (r, true) else (shifted, false)
  }

  /**
   * For a tank inside the field, testing only the edge it moves towards is
   * the whole margin test: the step is blocked exactly when the shifted box
   * leaves the field or is obstructed, a blocked step restores the box, and
   * an unblocked one moves it by exactly speed * dir.
   */
  lemma PlayerStepSpec(r: Rect, h: Heading, speed: int, tanks: seq<Rect>, bricks: seq<Cell>, irons: seq<Cell>)
    requires !OutOfField(r) && speed >= 0
    ensures var shifted := r.Move(speed * h.DX(), speed * h.DY());
      var (box, blocked) := PlayerStep(r, h, speed, tanks, bricks, irons);
      (blocked <==> OutOfField(shifted) || Obstructed(shifted, tanks, bricks, irons)) &&
      (blocked ==> box == r) && (!blocked ==> box == shifted)
  {
  }

  /**
   * A tank inside the field that overlaps nothing stays so after a step,
   * whether the step is blocked or not.
   */
  lemma PlayerStepKeepsClear(r: Rect, h: Heading, speed: int, tanks: seq<Rect>, bricks: seq<Cell>, irons: seq<Cell>)
    requires !OutOfField(r) && !Obstructed(r, tanks, bricks, irons) && speed >= 0
    ensures var box := PlayerStep(r, h, speed, tanks, bricks, irons).0;
      !OutOfField(box) && !Obstructed(box, tanks, bricks, irons)
  {
    PlayerStepSpec(r, h, speed, tanks, bricks, irons);
  }

  /** A player tank (myTank.MyTank). */
  class MyTank {
    /** 1 or 2. */
    const player: int
    /** The one bullet the tank owns and reuses. */
    const bullet: Bullet
    var rect: Rect
    var level: int
    var life: int
    var speed: int
    var dirX: int
    var dirY: int
    var bulletNotCooling: bool
    var sheet: TankSheet

    ghost predicate Valid()
      reads this
    {
      (player == 1 || player == 2) && 0 <= level <= 3 && sheet == SheetOf(level) &&
      (speed == 3 || speed == 6) && Cardinal(dirX, dirY) &&
      rect.width == TankSize && rect.height == TankSize
    }

    /** MyTank(player): level 0, life 3, speed 3, facing up, at its base spawn. */
    constructor (player: int)
      requires player == 1 || player == 2
      ensures this.player == player && Valid() && fresh(bullet)
      ensures rect == TankBox(if player == 1 then 3 + 24 * 8 else 3 + 24 * 16, 3 + 24 * 24)
      ensures level == 0 && life == 3 && speed == 3 && dirX == 0 && dirY == -1 && bulletNotCooling
      ensures bullet.dirX == 0 && bullet.dirY == 0 && bullet.speed == 6 && !bullet.life && !bullet.strong
      ensures bullet.rect == Parked(Rect(0, 0, BulletWidth, BulletHeight))
    {
      this.player := player;
      level := 0;
      sheet := L0;
      rect := TankBox(if player == 1 then 3 + 24 * 8 else 3 + 24 * 16, 3 + 24 * 24);
      speed := 3;
      dirX, dirY := 0, -1;
      life := 3;
      bulletNotCooling := true;
      bullet := new Bullet();
    }

    /**
     * shoot(): the bullet comes alive heading where the tank faces, placed
     * at the muzzle, with the stats of the tank's level.
     */
    method Shoot()
      modifies bullet
      ensures bullet.life && bullet.dirX == dirX && bullet.dirY == dirY
      ensures bullet.rect == Muzzle(rect, dirX, dirY, old(bullet.rect))
      ensures (bullet.speed, bullet.strong) == ShotStats(level, old(bullet.speed), old(bullet.strong))
      ensures Cardinal(dirX, dirY) ==> bullet.sprite == HeadingOf(dirX, dirY).value
      ensures !Cardinal(dirX, dirY) ==> bullet.sprite == old(bullet.sprite)
    {
      bullet.life := true;
      bullet.ChangeImage(dirX, dirY);
      bullet.rect := Muzzle(rect, dirX, dirY, bullet.rect);
      if level == 1 {
        bullet.speed, bullet.strong := 16, false;
      }
      if level == 2 {
        bullet.speed, bullet.strong := 16, true;
      }
      if level == 3 {
        bullet.speed, bullet.strong := 48, true;
      }
    }

    /** levelUp(): one level up, only from below 2; the sheet follows the level. */
    method LevelUp()
      requires Valid()
      modifies this
      ensures Valid() && level == Raised(old(level))
      ensures rect == old(rect) && life == old(life) && speed == old(speed)
      ensures dirX == old(dirX) && dirY == old(dirY) && bulletNotCooling == old(bulletNotCooling)
    {
      if level < 2 {
        level := level + 1;
      }
      sheet := SheetOf(level);
    }

    /**
     * levelDown(): one level down, only from above 0; whenever the level it
     * leaves is 0, the bullet goes back to speed 6 and plain.
     */
    method LevelDown()
      requires Valid()
      modifies this, bullet
      ensures Valid() && level == Lowered(old(level))
      ensures level == 0 ==> bullet.speed == 6 && !bullet.strong
      ensures level != 0 ==> bullet.speed == old(bullet.speed) && bullet.strong == old(bullet.strong)
      ensures bullet.rect == old(bullet.rect) && bullet.life == old(bullet.life)
      ensures bullet.dirX == old(bullet.dirX) && bullet.dirY == old(bullet.dirY) && bullet.sprite == old(bullet.sprite)
      ensures rect == old(rect) && life == old(life) && speed == old(speed)
      ensures dirX == old(dirX) && dirY == old(dirY) && bulletNotCooling == old(bulletNotCooling)
    {
      if level > 0 {
        level := level - 1;
      }
      if level == 0 {
        sheet := L0;
        bullet.speed, bullet.strong := 6, false;
      }
      if level == 1 {
        sheet := L1;
      }
      if level == 2 {
        sheet := L2;
      }
    }

    /**
     * moveUp / moveDown / moveLeft / moveRight: shift by `speed` towards `h`,
     * face `h` even when blocked, and roll back and report `true` if the
     * shifted box crosses that edge, overlaps a brick or iron, or overlaps
     * one of `tanks` (the other tanks; the caller leaves this one out).
     */
    method Move(h: Heading, tanks: seq<Rect>, bricks: seq<Cell>, irons: seq<Cell>) returns (blocked: bool)
      requires Valid()
      modifies this
      ensures Valid() && (rect, blocked) == PlayerStep(old(rect), h, speed, tanks, bricks, irons)
      ensures dirX == h.DX() && dirY == h.DY()
      ensures level == old(level) && life == old(life) && speed == old(speed)
      ensures bulletNotCooling == old(bulletNotCooling) && sheet == old(sheet)
    {
      rect := rect.Move(speed * h.DX(), speed * h.DY());
      dirX, dirY := h.DX(), h.DY();
      if Crosses(rect, h) {
        rect := rect.Move(-speed * h.DX(), -speed * h.DY());
        return true;
      }
      if HitsTile(rect, bricks) || HitsTile(rect, irons) {
        rect := rect.Move(-speed * h.DX(), -speed * h.DY());
        return true;
      }
      if HitsAny(rect, tanks) {
        rect := rect.Move(-speed * h.DX(), -speed * h.DY());
        return true;
      }
      return false;
    }
  }
}
