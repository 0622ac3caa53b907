/**
 * The power-up: seven kinds, each shown with its own image, placed on the
 * diagonal left == top somewhere in [100, 500].
 */
module Foods {
  import opened Geometry

  /** A random choice among the seven kinds (`random.choice([1, ..., 7])`). */
  type FoodKind = k: int | 1 <= k <= 7 witness 1
  /** A random position (`random.randint(100, 500)`, both ends included). */
  type FoodSpot = p: int | 100 <= p <= 500 witness 100

  /** Side of the power-up images; the images are not part of this model, so fixed here. */
  const FoodSize := 30

  /** The seven power-up images, food_boom .. food_tank. */
  datatype FoodImage = Boom | Clock | Gun | IronWall | Protect | Star | ExtraTank

  /** The `_update_image` dispatch: kinds 1..7 each have their image, any other kind none. */
  function ImageFor(kind: int): Option<FoodImage> {
    if kind == 1 then Some(Boom)
    else if kind == 2 then Some(Clock)
    else if kind == 3 then Some(Gun)
    else if kind == 4 then Some(IronWall)
    else if kind == 5 then Some(Protect)
    else if kind == 6 then Some(Star)
    else if kind == 7 then Some(ExtraTank)
    else None
  }

  /** The kind an image stands for. */
  function KindOf(image: FoodImage): (k: FoodKind) {
    match image
    case Boom => 1
    case Clock => 2
    case Gun => 3
    case IronWall => 4
    case Protect => 5
    case Star => 6
    case ExtraTank => 7
  }

  /**
   * The dispatch is total on the valid kinds and one-to-one: every kind
   * 1..7 has an image, the image gives the kind back, every image belongs to
   * exactly one kind, and no other kind has an image.
   */
  lemma ImageDispatch(kind: int, image: FoodImage)
    ensures ImageFor(kind).Some? <==> 1 <= kind <= 7
    ensures ImageFor(kind).Some? ==> KindOf(ImageFor(kind).value) == kind
    ensures ImageFor(KindOf(image)) == Some(image)
  {
  }

  /** The power-up (food.Food). */
  class Food {
    var kind: int
    var image: FoodImage
    var rect: Rect
    /** The power-up is on the field and can be picked up. */
    var life: bool

    ghost predicate Valid()
      reads this
    {
      1 <= kind <= 7 && ImageFor(kind) == Some(image) &&
      100 <= rect.left <= 500 && rect.top == rect.left &&
      rect.width == FoodSize && rect.height == FoodSize
    }

    /** Food(): a rolled kind at a rolled spot on the diagonal, not yet on the field. */
    constructor (kind: FoodKind, spot: FoodSpot)
      ensures Valid() && this.kind == kind && !life
      ensures rect == Rect(spot, spot, FoodSize, FoodSize)
    {
      this.kind := kind;
      image := Boom;
      rect := Rect(0, 0, FoodSize, FoodSize);
      life := false;
      new;
      UpdateImage();
      rect := rect.(left := spot);
      rect := rect.(top := spot);
    }

    /** _update_image(): show the kind's image; a kind outside 1..7 keeps the old one. */
    method UpdateImage()
      modifies this
      ensures image == (if ImageFor(kind).Some? then ImageFor(kind).value else old(image))
      ensures kind == old(kind) && rect == old(rect) && life == old(life)
    {
      if kind == 1 {
        image := Boom;
      } else if kind == 2 {
        image := Clock;
      } else if kind == 3 {
        image := Gun;
      } else if kind == 4 {
        image := IronWall;
      } else if kind == 5 {
        image := Protect;
      } else if kind == 6 {
        image := Star;
      } else if kind == 7 {
        image := ExtraTank;
      }
    }

    /**
     * change(): a new rolled kind with its image, a new rolled spot on the
     * diagonal, and the power-up is on the field; the box keeps its size.
     */
    method Change(kind: FoodKind, spot: FoodSpot)
      requires Valid()
      modifies this
      ensures Valid() && this.kind == kind && life
      ensures rect == old(rect).(left := spot, top := spot)
    {
      this.kind := kind;
      UpdateImage();
      rect := rect.(left := spot);
      rect := rect.(top := spot);
      life := true;
    }
  }
}
