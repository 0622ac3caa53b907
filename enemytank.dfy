/**
 * The enemy tank: how its kind, lane and red flag are chosen, the stats the
 * kind gives, its wandering move with the margin fix and obstacle rollback,
 * and its shot.
 */
module Enemies {
  import opened Geometry
  import opened Wall
  import opened Bullets
  import opened Players

  /** A random choice among 1, 2, 3 (`random.choice([1, 2, 3])`). */
  type Lane = x: int | 1 <= x <= 3 witness 1
  /** A random choice among 1, 2, 3, 4 (`random.choice([1, 2, 3, 4])`). */
  type EnemyKind = k: int | 1 <= k <= 4 witness 1

  /** The sheet enemy_<kind>_<variant>.png an enemy is drawn from. */
  datatype EnemySheet = EnemySheet(kind: int, variant: int)

  /** `enemy_x_0`, the plain sheet of a kind; the heavy kind 3 uses enemy_3_1. */
  function PlainSheet(kind: int): EnemySheet {
    if kind == 3 then EnemySheet(3, 1) else EnemySheet(kind, 0)
  }

  /** `enemy_x_3`, the red sheet of a kind; the heavy kind 3 uses enemy_3_0. */
  function RedSheet(kind: int): EnemySheet {
    if kind == 3 then EnemySheet(3, 0) else EnemySheet(kind, 3)
  }

  /** `given if given else roll`: a falsy (0) argument is replaced by the roll. */
  function Pick(given: int, roll: int): int {
    if given != 0 then given else roll
  }

  /** Speed of a kind: the fast kind 2 moves 3 pixels a step, every other kind 1. */
  function KindSpeed(kind: int): int {
    if kind == 2 then 3 else 1
  }

  /** Hit points of a kind: the heavy kind 3 has 3, every other kind 1. */
  function KindLife(kind: int): int {
    if kind == 3 then 3 else 1
  }

  /** Where an enemy is after a move: its box and its direction. */
  datatype Pose = Pose(box: Rect, dirX: int, dirY: int)

  /** The fields of an enemy that change during a round, as one value. */
  datatype EnemyState = EnemyState(pose: Pose, life: int, flash: bool, times: int, sheet: EnemySheet, bulletNotCooling: bool)

  /**
   * The margin fix of `_handle_collision`: the first crossed edge, in the
   * order top, bottom, left, right, is pushed back by `speed`; the flag says
   * whether one was (and so whether the direction was re-rolled).
   */
  function MarginFix(r: Rect, speed: int): (Rect, bool) {
    if PastTop(r) then (r.Move(0, speed), true)
    else if PastBottom(r) then (r.Move(0, -speed), true)
    else if PastLeft(r) then (r.Move(speed, 0), true)
    else if PastRight(r) then (r.Move(-speed, 0), true)
    else (r, false)
  }

  /**
   * `_handle_collision` on the already translated box `moved` with direction
   * (dx, dy): the margin fix (re-rolling the direction to `turn1`), then, if
   * the box overlaps a brick, an iron or a tank, a step back along the
   * direction it has by then and a re-roll to `turn2`.
   */
  function Settle(moved: Rect, dx: int, dy: int, speed: int, tanks: seq<Rect>, bricks: seq<Cell>, irons: seq<Cell>,
                  turn1: Heading, turn2: Heading): Pose
  {
    var (fixed, turned) := MarginFix(moved, speed);
    var d := if turned then Pose(fixed, turn1.DX(), turn1.DY()) else Pose(fixed, dx, dy);
    if Obstructed(fixed, tanks, bricks, irons) then
      Pose(fixed.Move(-speed * d.dirX, -speed * d.dirY), turn2.DX(), turn2.DY())
    else d
  }

  /** `move`: translate by speed * dir, then `_handle_collision`. */
  function EnemyStep(r: Rect, dx: int, dy: int, speed: int, tanks: seq<Rect>, bricks: seq<Cell>, irons: seq<Cell>,
                     turn1: Heading, turn2: Heading): Pose
  {
    Settle(r.Move(speed * dx, speed * dy), dx, dy, speed, tanks, bricks, irons, turn1, turn2)
  }

  /**
   * At most one edge is corrected, by `speed` on that edge's axis only, and
   * one is corrected exactly when the box is out of the field; a box past
   * the top and the left is fixed at the top only.
   */
  lemma MarginFixOneEdge(r: Rect, speed: int)
    ensures var (fixed, turned) := MarginFix(r, speed);
      (turned <==> OutOfField(r)) &&
      (!turned ==> fixed == r) &&
      (turned ==> fixed == r.Move(0, speed) || fixed == r.Move(0, -speed) ||
                  fixed == r.Move(speed, 0) || fixed == r.Move(-speed, 0)) &&
      (PastTop(r) && PastLeft(r) ==> PastLeft(fixed))
  {
  }

  /** The direction after a move is always one of the four unit vectors, whatever the rolls. */
  lemma EnemyStepCardinal(r: Rect, dx: int, dy: int, speed: int, tanks: seq<Rect>, bricks: seq<Cell>, irons: seq<Cell>,
                          turn1: Heading, turn2: Heading)
    requires Cardinal(dx, dy)
    ensures var p := EnemyStep(r, dx, dy, speed, tanks, bricks, irons, turn1, turn2);
      Cardinal(p.dirX, p.dirY) && p.box.width == r.width && p.box.height == r.height
  {
  }

  /** A move that stays in the field and meets nothing translates by speed * dir and keeps the direction. */
  lemma EnemyFreeStep(r: Rect, dx: int, dy: int, speed: int, tanks: seq<Rect>, bricks: seq<Cell>, irons: seq<Cell>,
                      turn1: Heading, turn2: Heading)
    requires var moved := r.Move(speed * dx, speed * dy);
      !OutOfField(moved) && !Obstructed(moved, tanks, bricks, irons)
    ensures EnemyStep(r, dx, dy, speed, tanks, bricks, irons, turn1, turn2) == Pose(r.Move(speed * dx, speed * dy), dx, dy)
  {
  }

  /** A move that stays in the field but meets an obstacle restores the box and takes the second roll. */
  lemma EnemyBlockedStep(r: Rect, dx: int, dy: int, speed: int, tanks: seq<Rect>, bricks: seq<Cell>, irons: seq<Cell>,
                         turn1: Heading, turn2: Heading)
    requires var moved := r.Move(speed * dx, speed * dy);
      !OutOfField(moved) && Obstructed(moved, tanks, bricks, irons)
    ensures EnemyStep(r, dx, dy, speed, tanks, bricks, irons, turn1, turn2) == Pose(r, turn2.DX(), turn2.DY())
  {
  }

  /**
   * A tank inside the field that moves across the margin is pushed back to
   * where it was; if it overlaps something there, the rollback steps back
   * along the re-rolled direction, so it ends `speed` away from where it was.
   */
  lemma EnemyMarginStep(r: Rect, h: Heading, speed: int, tanks: seq<Rect>, bricks: seq<Cell>, irons: seq<Cell>,
                        turn1: Heading, turn2: Heading)
    requires !OutOfField(r) && speed >= 0
    requires OutOfField(r.Move(speed * h.DX(), speed * h.DY()))
    ensures var p := EnemyStep(r, h.DX(), h.DY(), speed, tanks, bricks, irons, turn1, turn2);
      if Obstructed(r, tanks, bricks, irons)
      then p == Pose(r.Move(-speed * turn1.DX(), -speed * turn1.DY()), turn2.DX(), turn2.DY())
      else p == Pose(r, turn1.DX(), turn1.DY())
  {
    var moved := r.Move(speed * h.DX(), speed * h.DY());
    assert MarginFix(moved, speed).0 == r;
  }

  /**
   * The rollback does not always undo the move: an enemy in the top-left
   * corner that moves up, is turned right and overlaps a tank ends one pixel
   * left of where it was, outside the margin.
   */
  lemma EnemyRollbackDrifts()
    ensures var p := EnemyStep(TankBox(3, 3), 0, -1, 1, [TankBox(40, 3)], [], [], Right, Down);
      p.box == TankBox(2, 3) && p.box != TankBox(3, 3) && OutOfField(p.box)
  {
    var tanks := [TankBox(40, 3)];
    assert TankBox(3, 3).Collides(tanks[0]);
    assert HitsAny(TankBox(3, 3), [TankBox(40, 3)]);
  }

  /** An enemy tank (enemyTank.EnemyTank). */
  class EnemyTank {
    const kind: int
    /** The red enemy carries the power-up: killing it relocates the food. */
    const isred: bool
    /** The lane index 0..2 of the spawn, `self.x`. */
    const x: int
    const speed: int
    const bullet: Bullet
    /** The appearance animation is over (the tank moves and its bullet flies). */
    var flash: bool
    /** Ticks of appearance animation left. */
    var times: int
    var sheet: EnemySheet
    var rect: Rect
    var dirX: int
    var dirY: int
    var life: int
    var bulletNotCooling: bool

    ghost predicate Valid()
      reads this, bullet
    {
      1 <= kind <= 4 && speed == KindSpeed(kind) && 1 <= life <= KindLife(kind) &&
      Cardinal(dirX, dirY) && rect.width == TankSize && rect.height == TankSize &&
      0 <= times <= 90 && (flash <==> times == 0) &&
      bullet.speed == 6 && !bullet.strong
    }

    /** The tank's changing fields. */
    function State(): EnemyState
      reads this
    {
      EnemyState(Pose(rect, dirX, dirY), life, flash, times, sheet, bulletNotCooling)
    }

    /** Since the old state nothing of the tank has changed but, perhaps, its cooldown. */
    twostate predicate Idle()
      reads this
    {
      rect == old(rect) && dirX == old(dirX) && dirY == old(dirY) && life == old(life) &&
      flash == old(flash) && times == old(times) && sheet == old(sheet)
    }

    /**
     * EnemyTank(x, kind, isred): a falsy lane or kind (0 here) is replaced by
     * its roll, an absent red flag by `redRoll` (a given False is kept); the
     * tank starts in its lane at the top, facing down, with 90 ticks of
     * appearance animation ahead.
     */
    constructor (lane: int, kind: int, isred: Option<bool>, laneRoll: Lane, kindRoll: EnemyKind, redRoll: bool)
      requires 0 <= kind <= 4
      ensures this.kind == Pick(kind, kindRoll) && this.x == Pick(lane, laneRoll) - 1
      ensures this.isred == (if isred.Some? then isred.value else redRoll)
      ensures Valid() && fresh(bullet)
      ensures rect == TankBox(3 + this.x * 12 * 24, 3)
      ensures speed == KindSpeed(this.kind) && life == KindLife(this.kind)
      ensures !flash && times == 90 && dirX == 0 && dirY == 1 && bulletNotCooling
      ensures sheet == (if this.isred then RedSheet(this.kind) else PlainSheet(this.kind))
      ensures !bullet.life && bullet.dirX == 0 && bullet.dirY == 0
      ensures bullet.rect == Parked(Rect(0, 0, BulletWidth, BulletHeight))
    {
      flash := false;
      times := 90;
      var k := if kind != 0 then kind else kindRoll;
      this.kind := k;
      var red := if isred.Some? then isred.value else redRoll;
      this.isred := red;
      sheet := if red then RedSheet(k) else PlainSheet(k);
      var x := (if lane != 0 then lane else laneRoll) - 1;
      this.x := x;
      rect := TankBox(3 + x * 12 * 24, 3);
      speed := if k == 2 then 3 else 1;
      dirX, dirY := 0, 1;
      life := if k == 3 then 3 else 1;
      bulletNotCooling := true;
      bullet := new Bullet();
    }

    /** shoot(): as the player's shot, placed at the muzzle, but the bullet keeps its speed and strength. */
    method Shoot()
      requires Valid()
      modifies bullet
      ensures Valid()
      ensures bullet.life && bullet.dirX == dirX && bullet.dirY == dirY
      ensures bullet.rect == Muzzle(rect, dirX, dirY, old(bullet.rect))
      ensures bullet.sprite == HeadingOf(dirX, dirY).value
      ensures bullet.speed == old(bullet.speed) && bullet.strong == old(bullet.strong)
    {
      bullet.life := true;
      bullet.ChangeImage(dirX, dirY);
      bullet.rect := Muzzle(rect, dirX, dirY, bullet.rect);
    }

    /** _change_direction(): the roll `h`, always one of the four unit vectors. */
    method ChangeDirection(h: Heading)
      modifies this
      ensures dirX == h.DX() && dirY == h.DY() && Cardinal(dirX, dirY)
      ensures rect == old(rect) && life == old(life) && flash == old(flash) && times == old(times)
      ensures sheet == old(sheet) && bulletNotCooling == old(bulletNotCooling)
    {
      dirX, dirY := h.DX(), h.DY();
    }

    /** The margin part of `_handle_collision`: the `if`/`elif` chain over the four edges. */
    method FixMargin(turn1: Heading)
      requires Valid()
      modifies this
      ensures Valid()
      ensures var (fixed, turned) := MarginFix(old(rect), speed);
        rect == fixed &&
        (if turned then dirX == turn1.DX() && dirY == turn1.DY() else dirX == old(dirX) && dirY == old(dirY))
      ensures life == old(life) && flash == old(flash) && times == old(times)
      ensures sheet == old(sheet) && bulletNotCooling == old(bulletNotCooling)
    {
      if rect.top < Margin {
        rect := rect.Move(0, speed);
        ChangeDirection(turn1);
      } else if rect.Bottom() > Arena - Margin {
        rect := rect.Move(0, -speed);
        ChangeDirection(turn1);
      } else if rect.left < Margin {
        rect := rect.Move(speed, 0);
        ChangeDirection(turn1);
      } else if rect.Right() > Arena - Margin {
        rect := rect.Move(-speed, 0);
        ChangeDirection(turn1);
      }
    }

    /**
     * `_handle_collision` on the translated box: at most one margin edge is
     * fixed, then an overlapping box steps back along the current direction.
     */
    method HandleCollision(tanks: seq<Rect>, bricks: seq<Cell>, irons: seq<Cell>, turn1: Heading, turn2: Heading)
      requires Valid()
      modifies this
      ensures Valid()
      ensures Pose(rect, dirX, dirY) == Settle(old(rect), old(dirX), old(dirY), speed, tanks, bricks, irons, turn1, turn2)
      ensures life == old(life) && flash == old(flash) && times == old(times)
      ensures sheet == old(sheet) && bulletNotCooling == old(bulletNotCooling)
    {
      ghost var settled := Settle(rect, dirX, dirY, speed, tanks, bricks, irons, turn1, turn2);
      FixMargin(turn1);
      assert settled == if Obstructed(rect, tanks, bricks, irons)
        then Pose(rect.Move(-speed * dirX, -speed * dirY), turn2.DX(), turn2.DY())
        else Pose(rect, dirX, dirY);
      if Obstructed(rect, tanks, bricks, irons) {
        rect := rect.Move(-speed * dirX, -speed * dirY);
        ChangeDirection(turn2);
      }
    }

    /** Since the old state the tank has made the move EnemyStep gives against these obstacles and re-rolls. */
    twostate predicate Stepped(tanks: seq<Rect>, bricks: seq<Cell>, irons: seq<Cell>, turn1: Heading, turn2: Heading)
      reads this
    {
      Pose(rect, dirX, dirY) == EnemyStep(old(rect), old(dirX), old(dirY), speed, tanks, bricks, irons, turn1, turn2)
    }

    /** move(): translate by speed * dir, then handle collisions; `turn1` and `turn2` are the two possible re-rolls. */
    method Move(tanks: seq<Rect>, bricks: seq<Cell>, irons: seq<Cell>, turn1: Heading, turn2: Heading)
      requires Valid()
      modifies this
      ensures Valid()
      ensures Stepped(tanks, bricks, irons, turn1, turn2)
      ensures life == old(life) && flash == old(flash) && times == old(times)
      ensures sheet == old(sheet) && bulletNotCooling == old(bulletNotCooling)
    {
      rect := rect.Move(speed * dirX, speed * dirY);
      HandleCollision(tanks, bricks, irons, turn1, turn2);
    }
  }
}
