/**
 * Integer box geometry of the 630 x 630 arena: pygame's Rect reduced to the
 * four integers the rules use, its `move` and `colliderect`, the 3-pixel wall
 * margin, and the four cardinal headings a tank or bullet can face.
 */
module Geometry {

  /** Side of the square play field, in pixels. */
  const Arena := 630
  /** Width of the wall margin on every side. */
  const Margin := 3
  /** Pitch of the tile grid (and side of a tile). */
  const TileSize := 24
  /** Side of every tank box (the 48 x 48 sub-surfaces of the tank sheets). */
  const TankSize := 48
  /** Bullet sprite size; the images are not part of this model, so fixed here. */
  const BulletWidth := 12
  const BulletHeight := 12

  /** An axis-aligned box: pygame's Rect(left, top, width, height). */
  datatype Rect = Rect(left: int, top: int, width: int, height: int) {

    function Right(): int { left + width }

    function Bottom(): int { top + height }

    /** Rect.move: a translated copy of the same size. */
    function Move(dx: int, dy: int): (r: Rect)
      ensures r.width == width && r.height == height
      ensures r.left - left == dx && r.top - top == dy
    {
      Rect(left + dx, top + dy, width, height)
    }

    /** Rect.colliderect on boxes of positive size: the interiors overlap. */
    predicate Collides(other: Rect) {
      left < other.Right() && other.left < Right() &&
      top < other.Bottom() && other.top < Bottom()
    }

    /** The box has the positive size every sprite of the game has. */
    predicate Solid() { width > 0 && height > 0 }
  }

  /** A box of side `TankSize` with its top-left corner at (left, top). */
  function TankBox(left: int, top: int): (r: Rect)
    ensures r.Solid() && r.Right() == left + TankSize && r.Bottom() == top + TankSize
  {
    Rect(left, top, TankSize, TankSize)
  }

  /** The four edge tests of the margin, each on its own (the source tests them one by one). */
  predicate PastTop(r: Rect) { r.top < Margin }
  predicate PastBottom(r: Rect) { r.Bottom() > Arena - Margin }
  predicate PastLeft(r: Rect) { r.left < Margin }
  predicate PastRight(r: Rect) { r.Right() > Arena - Margin }

  /** The box leaves the play field on at least one side. */
  predicate OutOfField(r: Rect) {
    PastTop(r) || PastBottom(r) || PastLeft(r) || PastRight(r)
  }

  /** True of a box that overlaps some box of `boxes`. */
  predicate HitsAny(r: Rect, boxes: seq<Rect>) {
    exists k :: 0 <= k < |boxes| && r.Collides(boxes[k])
  }

  /** The four directions of travel; dir_x, dir_y of the source. */
  datatype Heading = Up | Down | Left | Right {

    function DX(): int {
      match this
      case Left => -1
      case Right => 1
      case _ => 0
    }

    function DY(): int {
      match this
      case Up => -1
      case Down => 1
      case _ => 0
    }
  }

  /** (dx, dy) is one of the four unit vectors (0,-1), (0,1), (-1,0), (1,0). */
  predicate Cardinal(dx: int, dy: int) {
    (dx == 0 && (dy == -1 || dy == 1)) || (dy == 0 && (dx == -1 || dx == 1))
  }

  /** The heading a direction vector names, if it is one of the four. */
  function HeadingOf(dx: int, dy: int): (h: Option<Heading>)
    ensures h.Some? <==> Cardinal(dx, dy)
    ensures h.Some? ==> h.value.DX() == dx && h.value.DY() == dy
  {
    if dx == 0 && dy == -1 then Some(Up)
    else if dx == 0 && dy == 1 then Some(Down)
    else if dx == -1 && dy == 0 then Some(Left)
    else if dx == 1 && dy == 0 then Some(Right)
    else None
  }

  datatype Option<T> = None | Some(value: T)

  /** Reading a heading back from its own vector gives the heading. */
  lemma HeadingRoundTrip(h: Heading)
    ensures Cardinal(h.DX(), h.DY())
    ensures HeadingOf(h.DX(), h.DY()) == Some(h)
  {
  }

  /** Collision is symmetric, and a box of positive size collides with itself. */
  lemma CollidesSymmetric(a: Rect, b: Rect)
    ensures a.Collides(b) <==> b.Collides(a)
    ensures a.Solid() ==> a.Collides(a)
  {
  }

  /** Moving there and back restores the box exactly. */
  lemma MoveBack(r: Rect, dx: int, dy: int)
    ensures r.Move(dx, dy).Move(-dx, -dy) == r
  {
  }
}
