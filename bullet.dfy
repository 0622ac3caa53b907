/**
 * The bullet every tank owns and reuses: its flight by `speed * dir` per tick,
 * the margin test that ends it, and where a shot places it in front of a tank.
 */
module Bullets {
  import opened Geometry

  /**
   * The box left after `rect.left, rect.right = 3 + 12 * 24, 3 + 24 * 24`:
   * the second assignment moves the box again, so only the right edge, 579,
   * survives; the top and the size are kept.
   */
  function Parked(r: Rect): (p: Rect)
    ensures p.Right() == 3 + 24 * 24 && p.top == r.top
    ensures p.width == r.width && p.height == r.height
  {
    Rect(3 + 24 * 24 - r.width, r.top, r.width, r.height)
  }

  /** Parking forgets where the bullet was, except for its row. */
  lemma ParkedForgetsColumn(r: Rect, s: Rect)
    requires r.top == s.top && r.width == s.width && r.height == s.height
    ensures Parked(r) == Parked(s)
    ensures r.width != 24 * 12 ==> Parked(r).left != 3 + 12 * 24
  {
  }

  /**
   * Where `shoot` puts the bullet box `b` for a tank with box `tank` facing
   * (dx, dy): up puts its left at tank.left + 20 and its bottom at tank.top + 1,
   * down its left at tank.left + 20 and its top at tank.bottom - 1, left its
   * right at tank.left - 1 and its top at tank.top + 20, right its left at
   * tank.right + 1 and its top at tank.top + 20. Any other vector leaves it.
   */
  function Muzzle(tank: Rect, dx: int, dy: int, b: Rect): (r: Rect)
    ensures r.width == b.width && r.height == b.height
  {
    if dx == 0 && dy == -1 then Rect(tank.left + 20, tank.top + 1 - b.height, b.width, b.height)
    else if dx == 0 && dy == 1 then Rect(tank.left + 20, tank.Bottom() - 1, b.width, b.height)
    else if dx == -1 && dy == 0 then Rect(tank.left - 1 - b.width, tank.top + 20, b.width, b.height)
    else if dx == 1 && dy == 0 then Rect(tank.Right() + 1, tank.top + 20, b.width, b.height)
    else b
  }

  /**
   * A fresh shot starts ahead of the tank in the firing direction, 20 pixels
   * in from the tank's edge across it; fired up or down it still overlaps
   * the tank by one pixel row, fired left or right it starts one pixel clear
   * of it.
   */
  lemma MuzzleAhead(tank: Rect, h: Heading, b: Rect)
    requires tank.width == TankSize && tank.height == TankSize
    requires b.width == BulletWidth && b.height == BulletHeight
    ensures var r := Muzzle(tank, h.DX(), h.DY(), b);
      (h == Up ==> r.top < tank.top && r.Bottom() == tank.top + 1) &&
      (h == Down ==> r.Bottom() > tank.Bottom() && r.top == tank.Bottom() - 1) &&
      (h == Left ==> r.Right() == tank.left - 1) &&
      (h == Right ==> r.left == tank.Right() + 1) &&
      (h == Up || h == Down ==> r.left == tank.left + 20) &&
      (h == Left || h == Right ==> r.top == tank.top + 20) &&
      (r.Collides(tank) <==> h == Up || h == Down)
  {
  }

  /** A tank's bullet (bulletClass.Bullet). */
  class Bullet {
    var rect: Rect
    var dirX: int
    var dirY: int
    var speed: int
    var life: bool
    var strong: bool
    /** Which of the four sprites (bullet_up, _down, _left, _right) is shown. */
    var sprite: Heading

    /** Bullet(): parked, not alive, plain, speed 6, standing still. */
    constructor ()
      ensures dirX == 0 && dirY == 0 && speed == 6 && !life && !strong && sprite == Up
      ensures rect == Parked(Rect(0, 0, BulletWidth, BulletHeight))
    {
      dirX, dirY := 0, 0;
      speed := 6;
      life := false;
      strong := false;
      sprite := Up;
      var r := Rect(0, 0, BulletWidth, BulletHeight);
      r := r.(left := 3 + 12 * 24);
      r := r.(left := 3 + 24 * 24 - r.width);
      rect := r;
    }

    /** changeImage(dx, dy): take the direction; the sprite follows only a cardinal one. */
    method ChangeImage(dx: int, dy: int)
      modifies this
      ensures dirX == dx && dirY == dy
      ensures sprite == (if Cardinal(dx, dy) then HeadingOf(dx, dy).value else old(sprite))
      ensures rect == old(rect) && speed == old(speed) && life == old(life) && strong == old(strong)
    {
      dirX, dirY := dx, dy;
      if dirX == 0 && dirY == -1 {
        sprite := Up;
      } else if dirX == 0 && dirY == 1 {
        sprite := Down;
      } else if dirX == -1 && dirY == 0 {
        sprite := Left;
      } else if dirX == 1 && dirY == 0 {
        sprite := Right;
      }
    }

    /**
     * move(): translate by (speed * dir_x, speed * dir_y); a bullet whose new
     * box leaves the field on any side dies, and nothing brings it back.
     */
    method Move()
      modifies this
      ensures rect == old(rect).Move(old(speed) * old(dirX), old(speed) * old(dirY))
      ensures life == (old(life) && !OutOfField(rect))
      ensures dirX == old(dirX) && dirY == old(dirY) && speed == old(speed)
      ensures strong == old(strong) && sprite == old(sprite)
    {
      rect := rect.Move(speed * dirX, speed * dirY);
      if rect.top < Margin {
        life := false;
      }
      if rect.Bottom() > Arena - Margin {
        life := false;
      }
      if rect.left < Margin {
        life := false;
      }
      if rect.Right() > Arena - Margin {
        life := false;
      }
    }
  }
}
