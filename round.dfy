/**
 * A round of the game inside `main()`: the state `reset_game` builds, and the
 * work one tick of the main loop does on it -- the event queue, the two
 * players' moves and shots, the enemies' appearance and moves, the three
 * kinds of bullets and what they hit, and the power-up.
 */
module Round {
  import opened Geometry
  import opened Wall
  import opened Bullets
  import opened Players
  import opened Enemies
  import opened Foods
  import opened Rules

  // ---------------------------------------------------------------------------
  // Level keys and the level loss

  /** K_3 / KP3: two `levelUp` calls, then the level is forced to 3; the sheet stays the level-2 one. */
  method Maximise(t: MyTank)
    requires t.Valid()
    modifies t
    ensures t.Valid() && t.level == 3 && t.sheet == L2
    ensures t.rect == old(t.rect) && t.life == old(t.life) && t.speed == old(t.speed)
    ensures t.dirX == old(t.dirX) && t.dirY == old(t.dirY) && t.bulletNotCooling == old(t.bulletNotCooling)
  {
    t.LevelUp();
    t.LevelUp();
    t.level := 3;
  }

  /**
   * What a cheat key does to one player's tank: E / KP1 raises the level,
   * Q / KP2 lowers it, 3 / KP3 sets it to 3, 2 / KP4 toggles the speed. A
   * lowering that ends at level 0 makes the bullet plain with speed 6; every
   * other key keeps the bullet's speed and strength. Nothing else of the tank
   * or its bullet moves.
   */
  twostate predicate Adjusted(t: MyTank, k: Key)
    reads t, t.bullet
  {
    var raise, lower, max, toggle := k == KeyE || k == Pad1, k == KeyQ || k == Pad2, k == Key3 || k == Pad3, k == Key2 || k == Pad4;
    t.level == (if raise then Raised(old(t.level)) else if lower then Lowered(old(t.level)) else if max then 3 else old(t.level)) &&
    t.speed == (if toggle then (if old(t.speed) == 3 then 6 else 3) else old(t.speed)) &&
    (if lower && t.level == 0 then t.bullet.speed == 6 && !t.bullet.strong
     else t.bullet.speed == old(t.bullet.speed) && t.bullet.strong == old(t.bullet.strong)) &&
    t.rect == old(t.rect) && t.life == old(t.life) && t.dirX == old(t.dirX) && t.dirY == old(t.dirY) &&
    t.bulletNotCooling == old(t.bulletNotCooling) &&
    t.bullet.rect == old(t.bullet.rect) && t.bullet.life == old(t.bullet.life) && t.bullet.sprite == old(t.bullet.sprite) &&
    t.bullet.dirX == old(t.bullet.dirX) && t.bullet.dirY == old(t.bullet.dirY)
  }

  /** A cheat key on one player's tank; any key but the eight cheat keys leaves the tank alone. */
  method Adjust(t: MyTank, k: Key)
    requires t.Valid()
    modifies t, t.bullet
    ensures t.Valid() && Adjusted(t, k)
    ensures !(k in {KeyE, Pad1, KeyQ, Pad2, Key3, Pad3, Key2, Pad4}) ==> unchanged(t, t.bullet)
  {
    if k == KeyE || k == Pad1 {
      t.LevelUp();
    } else if k == KeyQ || k == Pad2 {
      t.LevelDown();
    } else if k == Key3 || k == Pad3 {
      Maximise(t);
    } else if k == Key2 || k == Pad4 {
      ToggleSpeed(t);
    }
  }

  /**
   * What one enemy's part of the tick makes of its state `was`, with `thawed` whether
   * enemies may move: its life, sheet and cooldown stay; one still appearing
   * stays put and counts down; one that has appeared stays appeared; and
   * while the enemies are frozen it stays put and flashes exactly when it
   * had, or had one tick of animation left.
   */
  predicate Animates(was: EnemyState, now: EnemyState, thawed: bool) {
    now.life == was.life && now.sheet == was.sheet && now.bulletNotCooling == was.bulletNotCooling &&
    (!was.flash ==> (now.times, now.flash) == Appear(was.times, false) && now.pose == was.pose) &&
    (was.flash ==> now.flash && now.times == was.times) &&
    (!thawed ==> now.pose.box == was.pose.box && now.flash == (was.flash || was.times == 1))
  }

  /** The states of a sequence of enemies, in order. */
  ghost function States(es: seq<EnemyTank>): (ss: seq<EnemyState>)
    reads set e | e in es
    ensures |ss| == |es|
    ensures forall k :: 0 <= k < |es| ==> ss[k] == es[k].State()
    decreases |es|
  {
    if es == [] then [] else States(es[..|es| - 1]) + [es[|es| - 1].State()]
  }

  /** K_2 / KP4: the speed toggles between 3 and 6. */
  method ToggleSpeed(t: MyTank)
    requires t.Valid()
    modifies t
    ensures t.Valid() && t.speed == (if old(t.speed) == 3 then 6 else 3)
    ensures t.rect == old(t.rect) && t.level == old(t.level) && t.life == old(t.life)
    ensures t.dirX == old(t.dirX) && t.dirY == old(t.dirY) && t.bulletNotCooling == old(t.bulletNotCooling)
  {
    if t.speed == 3 {
      t.speed := 6;
    } else {
      t.speed := 3;
    }
  }

  /**
   * The `levelDown` loop after an enemy bullet hits player 1, run level + 1
   * times: whatever the level was, the tank ends at level 0 with a plain
   * bullet of speed 6.
   */
  method Demote(t: MyTank)
    requires t.Valid()
    modifies t, t.bullet
    ensures t.Valid() && t.level == 0 && t.bullet.speed == 6 && !t.bullet.strong
    ensures t.rect == old(t.rect) && t.life == old(t.life) && t.speed == old(t.speed)
    ensures t.dirX == old(t.dirX) && t.dirY == old(t.dirY) && t.bulletNotCooling == old(t.bulletNotCooling)
    ensures t.bullet.rect == old(t.bullet.rect) && t.bullet.life == old(t.bullet.life)
  {
    var n := t.level + 1;
    for i := 0 to n
      invariant t.Valid() && t.level == Lower(old(t.level), i)
      invariant i > 0 && t.level == 0 ==> t.bullet.speed == 6 && !t.bullet.strong
      invariant t.rect == old(t.rect) && t.life == old(t.life) && t.speed == old(t.speed)
      invariant t.dirX == old(t.dirX) && t.dirY == old(t.dirY) && t.bulletNotCooling == old(t.bulletNotCooling)
      invariant t.bullet.rect == old(t.bullet.rect) && t.bullet.life == old(t.bullet.life)
    {
      t.LevelDown();
    }
    LowerClamps(old(t.level), n);
  }

  /** An enemy as `EnemyTank(lane)` leaves it: in column `x`, at the top, with the roll's kind and colour, appearing. */
  ghost predicate Fresh(e: EnemyTank, x: int, roll: SpawnRoll)
    reads e, e.bullet
  {
    e.x == x && e.kind == roll.kind && e.isred == roll.red &&
    e.rect == TankBox(3 + x * 12 * 24, 3) && !e.flash && e.times == 90 &&
    e.life == KindLife(e.kind) && e.dirX == 0 && e.dirY == 1 && e.bulletNotCooling && !e.bullet.life
  }

  /** A player tank as `MyTank(player)` leaves it. */
  ghost predicate Rookie(t: MyTank, spawn: Rect)
    reads t, t.bullet
  {
    t.rect == spawn && t.level == 0 && t.life == 3 && t.speed == 3 && t.dirX == 0 && t.dirY == -1 &&
    t.bulletNotCooling && !t.bullet.life && t.bullet.speed == 6 && !t.bullet.strong
  }

  /**
   * One heavy enemy of the snapshot under player 1's bullet: if the bullet
   * overlaps it, it loses a hit point (3 to 2 with sheet enemy_3_2, 2 to 1
   * with enemy_3_0), and one found at 1 is reported, not wounded.
   */
  method WoundGreen(e: EnemyTank, box: Rect) returns (last: bool)
    requires e.Valid() && BandOf(e) == GreenBand
    modifies e
    ensures e.Valid() && last == (box.Collides(e.rect) && old(e.life) == 1)
    ensures e.life == (if box.Collides(e.rect) then Wounded(old(e.life)) else old(e.life))
    ensures e.sheet == (if box.Collides(e.rect) then WoundedSheet(old(e.life), old(e.sheet)) else old(e.sheet))
    ensures e.rect == old(e.rect) && e.dirX == old(e.dirX) && e.dirY == old(e.dirY) &&
      e.flash == old(e.flash) && e.times == old(e.times) && e.bulletNotCooling == old(e.bulletNotCooling)
  {
    last := false;
    if box.Collides(e.rect) {
      if e.life == 1 {
        last := true;
      } else if e.life == 2 {
        e.life := 1;
        e.sheet := EnemySheet(3, 0);
      } else if e.life == 3 {
        e.life := 2;
        e.sheet := EnemySheet(3, 2);
      }
    }
  }

  /**
   * The loop over greenEnemyGroup under player 1's bullet, on the group's
   * snapshot: every heavy enemy the bullet overlaps is wounded, and the
   * number of them found at 1 is returned.
   */
  method WoundGreens(greens: seq<EnemyTank>, box: Rect) returns (loss: nat)
    requires Distinct(greens)
    requires forall e | e in greens :: e.Valid() && BandOf(e) == GreenBand
    modifies set e | e in greens
    ensures loss == |old(Finished(greens, box))|
    ensures forall e | e in greens :: e.Valid()
    ensures forall e | e in greens ::
      e.life == (if box.Collides(e.rect) then Wounded(old(e.life)) else old(e.life)) &&
      e.sheet == (if box.Collides(e.rect) then WoundedSheet(old(e.life), old(e.sheet)) else old(e.sheet))
    ensures forall e | e in greens ::
      e.rect == old(e.rect) && e.dirX == old(e.dirX) && e.dirY == old(e.dirY) &&
      e.flash == old(e.flash) && e.times == old(e.times) && e.bulletNotCooling == old(e.bulletNotCooling)
  {
    ghost var done := Finished(greens, box);
    ghost var visited: set<EnemyTank> := {};
    loss := 0;
    for i := 0 to |greens|
      invariant forall k | 0 <= k < i :: greens[k] in visited
      invariant forall k | i <= k < |greens| :: greens[k] !in visited
      invariant forall e | e in greens ::
        e.life == (if box.Collides(e.rect) && e in visited then Wounded(old(e.life)) else old(e.life)) &&
        e.sheet == (if box.Collides(e.rect) && e in visited then WoundedSheet(old(e.life), old(e.sheet)) else old(e.sheet))
      invariant forall e | e in greens ::
        e.rect == old(e.rect) && e.dirX == old(e.dirX) && e.dirY == old(e.dirY) &&
        e.flash == old(e.flash) && e.times == old(e.times) && e.bulletNotCooling == old(e.bulletNotCooling)
      invariant forall e | e in greens :: e.Valid()
      invariant loss == Count(greens[..i], done)
    {
      var e := greens[i];
      var last := WoundGreen(e, box);
      if last {
        loss := loss + 1;
      }
      CountPrefix(greens, done, i);
      visited := visited + {e};
    }
    assert greens[..|greens|] == greens;
    CountDistinct(greens, done);
    assert done * Members(greens) == done;
  }

  /**
   * A player's bullet against the map, after the enemies: every brick it
   * overlaps goes and parks the bullet; then the irons are checked with the
   * box it has now, a strong bullet removing those it overlaps, and a hit
   * parks it too. Both tests run whether or not the bullet is still alive.
   */
  method PlayerTiles(board: Map, b: Bullet)
    modifies board, b
    ensures var brick := HitsTile(old(b.rect), old(board.bricks));
      var r := if brick then Parked(old(b.rect)) else old(b.rect);
      var iron := HitsTile(r, old(board.irons));
      board.bricks == Unhit(old(board.bricks), old(b.rect)) &&
      board.irons == (if old(b.strong) then Unhit(old(board.irons), r) else old(board.irons)) &&
      b.rect == (if brick || iron then Parked(old(b.rect)) else old(b.rect)) &&
      b.life == (old(b.life) && !brick && !iron)
    ensures forall c | c in board.bricks :: c in old(board.bricks)
    ensures forall c | c in board.irons :: c in old(board.irons)
    ensures b.dirX == old(b.dirX) && b.dirY == old(b.dirY) && b.speed == old(b.speed) &&
      b.strong == old(b.strong) && b.sprite == old(b.sprite)
  {
    var brick := board.Shatter(b.rect);
    if brick {
      b.life := false;
      b.rect := Parked(b.rect);
    }
    ghost var r := b.rect;
    var iron := board.Strike(b.rect, b.strong);
    if iron {
      b.life := false;
      b.rect := Parked(b.rect);
    }
    forall c | c in board.bricks ensures c in old(board.bricks) {
      UnhitMembers(old(board.bricks), old(b.rect), c);
    }
    forall c | c in board.irons ensures c in old(board.irons) {
      UnhitMembers(old(board.irons), r, c);
    }
  }

  /**
   * An enemy's bullet against the map: every brick it overlaps goes, and
   * irons stop it; an enemy bullet is never strong, so no iron goes. The
   * bullet is not moved.
   */
  method EnemyTiles(board: Map, b: Bullet)
    requires !b.strong
    modifies board, b
    ensures board.bricks == Unhit(old(board.bricks), old(b.rect)) && board.irons == old(board.irons)
    ensures forall c | c in board.bricks :: c in old(board.bricks)
    ensures b.life == (old(b.life) && !HitsTile(b.rect, old(board.bricks)) && !HitsTile(b.rect, old(board.irons)))
    ensures b.rect == old(b.rect) && b.dirX == old(b.dirX) && b.dirY == old(b.dirY) && b.speed == old(b.speed) &&
      b.strong == old(b.strong) && b.sprite == old(b.sprite)
  {
    var brick := board.Shatter(b.rect);
    if brick {
      b.life := false;
    }
    var iron := board.Strike(b.rect, b.strong);
    if iron {
      b.life := false;
    }
    forall c | c in board.bricks ensures c in old(board.bricks) {
      UnhitMembers(old(board.bricks), b.rect, c);
    }
  }

  /**
   * One tick of an enemy's appearance animation: the countdown steps down
   * and the tank flashes (becomes active) when it reaches 0, which is after
   * exactly the tick that finds it at 1.
   */
  method CountDown(e: EnemyTank)
    requires e.Valid() && !e.flash
    modifies e
    ensures e.Valid() && (e.times, e.flash) == Appear(old(e.times), false) && e.flash == (old(e.times) == 1)
    ensures e.rect == old(e.rect) && e.dirX == old(e.dirX) && e.dirY == old(e.dirY) && e.life == old(e.life)
    ensures e.sheet == old(e.sheet) && e.bulletNotCooling == old(e.bulletNotCooling)
  {
    if e.times > 0 {
      e.times := e.times - 1;
    }
    if e.times == 0 {
      e.flash := true;
    }
  }

  /**
   * The bomb's loop over a snapshot of allEnemyGroup: each enemy of the
   * snapshot kills every enemy still alive whose box overlaps its own, one
   * loss for each step that kills anything. A tank of positive size overlaps
   * itself, so nobody survives.
   */
  method Bombard(all: seq<EnemyTank>) returns (alive: seq<EnemyTank>, loss: nat)
    requires forall e | e in all :: e.rect.Solid()
    ensures alive == [] && loss == Sweep(all, all)
  {
    alive, loss := all, 0;
    assert all[0..] == all;
    for i := 0 to |all|
      invariant forall e | e in alive :: e in all[i..]
      invariant loss + Sweep(all[i..], alive) == Sweep(all, all)
    {
      var e := all[i];
      var kill := Overlapping(alive, e.rect);
      SweepStep(all, i, alive);
      CollidesSymmetric(e.rect, e.rect);
      assert e in alive ==> e in kill;
      if kill != {} {
        RemoveSubset(alive, kill);
        alive, loss := Remove(alive, kill), loss + 1;
      } else {
        RemoveNothing(alive);
      }
      StillAhead(all, i, alive);
    }
    NoneLeft(alive, all[|all|..]);
  }

  /** One round: everything `main()` keeps between ticks. */
  class Game {
    /** Two-player mode (`player_selection == 2`). */
    const twoPlayer: bool
    /** bgMap */
    var board: Map
    var prop: Food
    var p1: MyTank
    /** Present exactly in two-player mode. */
    var p2: MyTank?
    /**
     * allEnemyGroup, in the order the enemies joined. redEnemyGroup,
     * greenEnemyGroup and otherEnemyGroup are its bands (see BandOf), in the
     * same order, since an enemy joins its band when it joins this group and
     * `kill` takes it out of all of them at once.
     */
    var enemies: seq<EnemyTank>
    /** enemyBulletGroup: bullets of enemies, dead or alive, once fired. */
    var enemyBullets: set<Bullet>
    /** The spawn counter: new enemies come while it is below 4, each kill takes one off. */
    var enemyNumber: int
    var moving: int
    var movdir: int
    var moving2: int
    var movdir2: int
    var enemyCouldMove: bool
    var homeSurvive: bool
    var gameOver: bool

    /** The enemies on the field, as a set. */
    ghost function Squad(): set<EnemyTank>
      reads this
    {
      set e | e in enemies
    }

    /** The bullets the enemies on the field own. */
    ghost function Magazine(): set<Bullet>
      reads this
    {
      set e | e in enemies :: e.bullet
    }

    /** The enemies: distinct, each a valid tank with its own bullet, none of them a player's. */
    ghost predicate Crew()
      reads this, Squad(), Magazine()
    {
      Distinct(enemies) &&
      (forall e | e in enemies :: e.Valid() && e.bullet != p1.bullet && (p2 != null ==> e.bullet != p2.bullet)) &&
      (forall e, f | e in enemies && f in enemies && e != f :: e.bullet != f.bullet)
    }

    /**
     * The round invariant. Besides the objects being well formed and
     * unaliased, the spawn counter is never below the number of enemies on
     * the field and never above 4, so there are never more than 4 enemies;
     * the move counters stay in range, and a lost base means the game is over.
     */
    ghost predicate Valid()
      reads this, p1, p2, prop, Squad(), Magazine()
    {
      (twoPlayer <==> p2 != null) &&
      p1.player == 1 && p1.Valid() && p1.bullet !in enemyBullets &&
      (p2 != null ==> p2.bullet != p1.bullet && p2.player == 2 && p2.Valid() && p2.bullet !in enemyBullets) &&
      prop.Valid() && Crew() &&
      |enemies| <= enemyNumber <= 4 &&
      0 <= moving <= 7 && 0 <= movdir <= 3 && 0 <= moving2 <= 7 && 0 <= movdir2 <= 3 &&
      (p2 == null ==> moving2 == 0 && movdir2 == 0) &&
      (!homeSurvive ==> gameOver)
    }

    /** The state `reset_game` (and the start of `main()`) leaves, for the given rolls. */
    ghost predicate Started(rolls: ResetRolls)
      requires Valid()
      reads this, board, p1, p1.bullet, p2, if p2 != null then {p2.bullet} else {}, prop, Squad(), Magazine()
    {
      board.Pristine() &&
      prop.kind == rolls.foodKind && prop.rect == Rect(rolls.foodSpot, rolls.foodSpot, FoodSize, FoodSize) && !prop.life &&
      Rookie(p1, SpawnOne) && (p2 != null ==> Rookie(p2, SpawnTwo)) &&
      |enemies| == 3 && Fresh(enemies[0], 0, rolls.first) && Fresh(enemies[1], 1, rolls.second) && Fresh(enemies[2], 2, rolls.third) &&
      enemyNumber == 3 && enemyBullets == {} &&
      moving == 0 && movdir == 0 && moving2 == 0 && movdir2 == 0 &&
      enemyCouldMove && homeSurvive && !gameOver
    }

    /** The start of `main()` once the mode is chosen: a fresh map, power-up, players and three enemies. */
    constructor (twoPlayer: bool, rolls: ResetRolls)
      ensures Valid() && this.twoPlayer == twoPlayer && Started(rolls)
    {
      this.twoPlayer := twoPlayer;
      board := new Map();
      prop := new Food(rolls.foodKind, rolls.foodSpot);
      p1 := new MyTank(1);
      if twoPlayer {
        p2 := new MyTank(2);
      } else {
        p2 := null;
      }
      moving, movdir, moving2, movdir2 := 0, 0, 0, 0;
      enemyCouldMove, homeSurvive, gameOver := true, true, false;
      enemies, enemyBullets, enemyNumber := [], {}, 0;
      new;
      Populate(rolls);
    }

    /** The three starting enemies, one per lane 1..3, and the spawn counter at 3. */
    method Populate(rolls: ResetRolls)
      requires Valid() && enemies == []
      modifies this
      ensures Valid() && |enemies| == 3 && enemyNumber == 3
      ensures forall e | e in enemies :: fresh(e) && fresh(e.bullet)
      ensures Fresh(enemies[0], 0, rolls.first) && Fresh(enemies[1], 1, rolls.second) && Fresh(enemies[2], 2, rolls.third)
      ensures board == old(board) && prop == old(prop) && p1 == old(p1) && p2 == old(p2) && enemyBullets == old(enemyBullets)
      ensures moving == old(moving) && movdir == old(movdir) && moving2 == old(moving2) && movdir2 == old(movdir2)
      ensures enemyCouldMove == old(enemyCouldMove) && homeSurvive == old(homeSurvive) && gameOver == old(gameOver)
    {
      enemyNumber := 3;
      var picks := [rolls.first, rolls.second, rolls.third];
      for i := 1 to 4
        invariant Valid() && |enemies| == i - 1 && enemyNumber == 3
        invariant forall e | e in enemies :: fresh(e) && fresh(e.bullet)
        invariant forall k :: 0 <= k < i - 1 ==> Fresh(enemies[k], k, picks[k])
        invariant board == old(board) && prop == old(prop) && p1 == old(p1) && p2 == old(p2) && enemyBullets == old(enemyBullets)
        invariant moving == old(moving) && movdir == old(movdir) && moving2 == old(moving2) && movdir2 == old(movdir2)
        invariant enemyCouldMove == old(enemyCouldMove) && homeSurvive == old(homeSurvive) && gameOver == old(gameOver)
      {
        var e := new EnemyTank(i, 0, None, picks[i - 1].lane, picks[i - 1].kind, picks[i - 1].red);
        Enlist(e);
      }
    }

    /** An enemy joins allTankGroup, allEnemyGroup and its band; the caller has made room on the counter. */
    method Enlist(e: EnemyTank)
      requires Valid() && e.Valid() && e !in enemies && e.bullet !in Magazine() && |enemies| < enemyNumber
      requires e.bullet != p1.bullet && (p2 != null ==> e.bullet != p2.bullet)
      modifies this
      ensures Valid() && enemies == old(enemies) + [e]
      ensures board == old(board) && prop == old(prop) && p1 == old(p1) && p2 == old(p2) && enemyBullets == old(enemyBullets)
      ensures enemyNumber == old(enemyNumber)
      ensures moving == old(moving) && movdir == old(movdir) && moving2 == old(moving2) && movdir2 == old(movdir2)
      ensures enemyCouldMove == old(enemyCouldMove) && homeSurvive == old(homeSurvive) && gameOver == old(gameOver)
    {
      enemies := enemies + [e];
    }

    /** reset_game(): everything rebuilt as at the start of the round, the game no longer over. */
    method Reset(rolls: ResetRolls)
      requires Valid()
      modifies this
      ensures Valid() && Started(rolls)
      ensures fresh(board) && fresh(prop) && fresh(p1) && fresh(p1.bullet) && (p2 != null ==> fresh(p2) && fresh(p2.bullet))
      ensures forall e | e in enemies :: fresh(e) && fresh(e.bullet)
    {
      Clear();
      NewBoard();
      NewProp(rolls.foodKind, rolls.foodSpot);
      NewPlayers();
      Populate(rolls);
    }

    /** The groups emptied, the move counters and flags back to their start values, the game no longer over. */
    method Clear()
      requires Valid()
      modifies this
      ensures Valid() && enemies == [] && enemyBullets == {}
      ensures moving == 0 && movdir == 0 && moving2 == 0 && movdir2 == 0
      ensures enemyCouldMove && homeSurvive && !gameOver
      ensures board == old(board) && prop == old(prop) && p1 == old(p1) && p2 == old(p2)
    {
      Disband();
      Rewind();
    }

    /** allEnemyGroup and enemyBulletGroup emptied. */
    method Disband()
      requires Valid()
      modifies this
      ensures Valid() && enemies == [] && enemyBullets == {}
      ensures board == old(board) && prop == old(prop) && p1 == old(p1) && p2 == old(p2)
    {
      enemies, enemyBullets := [], {};
    }

    /** The move counters and the flags back to their start values. */
    method Rewind()
      requires Valid()
      modifies this
      ensures Valid() && moving == 0 && movdir == 0 && moving2 == 0 && movdir2 == 0
      ensures enemyCouldMove && homeSurvive && !gameOver
      ensures board == old(board) && prop == old(prop) && p1 == old(p1) && p2 == old(p2)
      ensures enemies == old(enemies) && enemyBullets == old(enemyBullets)
    {
      Halt();
      enemyCouldMove, homeSurvive, gameOver := true, true, false;
    }

    /** Both players' committed moves cancelled. */
    method Halt()
      requires Valid()
      modifies this
      ensures Valid() && moving == 0 && movdir == 0 && moving2 == 0 && movdir2 == 0
      ensures board == old(board) && prop == old(prop) && p1 == old(p1) && p2 == old(p2)
      ensures enemies == old(enemies) && enemyBullets == old(enemyBullets)
    {
      moving, movdir, moving2, movdir2 := 0, 0, 0, 0;
    }

    /** A new map with the fixed layout. */
    method NewBoard()
      requires Valid()
      modifies this
      ensures Valid() && board.Pristine() && fresh(board)
      ensures prop == old(prop) && p1 == old(p1) && p2 == old(p2) && enemies == old(enemies) && enemyBullets == old(enemyBullets)
      ensures enemyNumber == old(enemyNumber) && moving == old(moving) && movdir == old(movdir) && moving2 == old(moving2) && movdir2 == old(movdir2)
      ensures enemyCouldMove == old(enemyCouldMove) && homeSurvive == old(homeSurvive) && gameOver == old(gameOver)
    {
      board := new Map();
    }

    /** A new power-up, rolled but not yet on the field. */
    method NewProp(kind: FoodKind, spot: FoodSpot)
      requires Valid()
      modifies this
      ensures Valid() && fresh(prop) && prop.kind == kind && prop.rect == Rect(spot, spot, FoodSize, FoodSize) && !prop.life
      ensures board == old(board) && p1 == old(p1) && p2 == old(p2) && enemies == old(enemies) && enemyBullets == old(enemyBullets)
      ensures enemyNumber == old(enemyNumber) && moving == old(moving) && movdir == old(movdir) && moving2 == old(moving2) && movdir2 == old(movdir2)
      ensures enemyCouldMove == old(enemyCouldMove) && homeSurvive == old(homeSurvive) && gameOver == old(gameOver)
    {
      prop := new Food(kind, spot);
    }

    /** New player tanks at their spawns: player 1 always, player 2 in two-player mode. */
    method NewPlayers()
      requires Valid() && enemies == [] && enemyBullets == {}
      modifies this
      ensures Valid() && Rookie(p1, SpawnOne) && (p2 != null ==> Rookie(p2, SpawnTwo))
      ensures fresh(p1) && fresh(p1.bullet) && (p2 != null ==> fresh(p2) && fresh(p2.bullet))
      ensures board == old(board) && prop == old(prop) && enemies == old(enemies) && enemyBullets == old(enemyBullets)
      ensures enemyNumber == old(enemyNumber) && moving == old(moving) && movdir == old(movdir) && moving2 == old(moving2) && movdir2 == old(movdir2)
      ensures enemyCouldMove == old(enemyCouldMove) && homeSurvive == old(homeSurvive) && gameOver == old(gameOver)
    {
      p1 := new MyTank(1);
      if twoPlayer {
        p2 := new MyTank(2);
      }
    }

    // -------------------------------------------------------------------------
    // Frames and the tank boxes

    /** Everything a tick may change: the round, the map, the power-up, the tanks and all bullets in play. */
    /** Since the old state the round has the same objects and none of them has changed. */
    twostate predicate Unmoved()
      reads this, Footprint()
    {
      Footprint() == old(Footprint()) && unchanged(old(Footprint()))
    }

    ghost function Footprint(): set<object>
      reads this
    {
      var second: set<object> := if p2 != null then {p2, p2.bullet} else {};
      {this, board, prop, p1, p1.bullet} + second + Squad() + Magazine() + enemyBullets
    }

    /** The second player's box, if there is a second player. */
    function SecondBox(): (bs: seq<Rect>)
      reads this, p2
      ensures |bs| <= 1 && (bs != [] <==> p2 != null)
    {
      if p2 != null then [p2.rect] else []
    }

    /** allTankGroup: the boxes of both players and of every enemy, appearing or not. */
    function AllBoxes(): (bs: seq<Rect>)
      reads this, p1, p2, Squad()
      ensures |bs| == 1 + |SecondBox()| + |enemies|
    {
      [p1.rect] + SecondBox() + Boxes(enemies)
    }

    // -------------------------------------------------------------------------
    // The event queue

    /**
     * The DELAYEVENT timer: below 4 on the counter, a candidate enemy is
     * rolled; if it overlaps any tank it is dropped and the rest of the queue
     * is skipped, otherwise it joins and the counter goes up by one.
     */
    method Spawn(roll: SpawnRoll) returns (skip: bool)
      requires Valid()
      modifies this
      ensures Valid()
      ensures var box := TankBox(3 + (roll.lane - 1) * 12 * 24, 3);
        skip <==> old(enemyNumber) < 4 && HitsAny(box, old(AllBoxes()))
      ensures var joins := old(enemyNumber) < 4 && !skip;
        (joins ==> |enemies| == |old(enemies)| + 1 && enemies[..|old(enemies)|] == old(enemies) &&
                   Fresh(enemies[|old(enemies)|], roll.lane - 1, roll) && enemyNumber == old(enemyNumber) + 1 &&
                   fresh(enemies[|old(enemies)|]) && fresh(enemies[|old(enemies)|].bullet)) &&
        (!joins ==> enemies == old(enemies) && enemyNumber == old(enemyNumber))
      ensures board == old(board) && prop == old(prop) && p1 == old(p1) && p2 == old(p2) && enemyBullets == old(enemyBullets)
      ensures moving == old(moving) && movdir == old(movdir) && moving2 == old(moving2) && movdir2 == old(movdir2)
      ensures enemyCouldMove == old(enemyCouldMove) && homeSurvive == old(homeSurvive) && gameOver == old(gameOver)
      ensures forall o | o in Footprint() :: o in old(Footprint()) || fresh(o)
    {
      skip := false;
      if enemyNumber < 4 {
        var e := new EnemyTank(0, 0, None, roll.lane, roll.kind, roll.red);
        if HitsAny(e.rect, AllBoxes()) {
          return true;
        }
        enemyNumber := enemyNumber + 1;
        Enlist(e);
      }
    }

    /** The player tanks and their bullets. */
    ghost function Crews(): set<object>
      reads this
    {
      var second: set<object> := if p2 != null then {p2, p2.bullet} else {};
      {p1, p1.bullet} + second
    }

    /** ENEMYBULLETNOTCOOLINGEVENT: every enemy on the field may fire again. */
    method CoolEnemies()
      requires Valid()
      modifies Squad()
      ensures Valid() && forall e | e in enemies :: e.bulletNotCooling && e.Idle()
    {
      for i := 0 to |enemies|
        invariant Valid()
        invariant forall k | 0 <= k < i :: enemies[k].bulletNotCooling
        invariant forall e | e in enemies :: e.Idle()
      {
        enemies[i].bulletNotCooling := true;
      }
    }

    /** The key presses of a round in play; the keypad keys act on player 2. */
    method HandleKey(k: Key)
      requires Valid() && (k.ForPlayerTwo() ==> p2 != null)
      modifies board, Crews()
      ensures Valid()
      ensures k == Key1 ==> board.bricks == old(board.bricks) + X0Y0 && board.irons == old(board.irons)
      ensures k == Key4 ==> board.irons == old(board.irons) + X0Y0 && board.bricks == old(board.bricks)
      ensures k == Key1 || k == Key4 ==> unchanged(p1, p1.bullet) && (p2 != null ==> unchanged(p2, p2.bullet))
      ensures k.ForPlayerTwo() ==> Adjusted(p2, k) && unchanged(board, p1, p1.bullet)
      ensures k != Key1 && k != Key4 && !k.ForPlayerTwo() ==>
        Adjusted(p1, k) && unchanged(board) && (p2 != null ==> unchanged(p2, p2.bullet))
      ensures k.KeyR? || k == OtherKey ==> unchanged(board, p1, p1.bullet) && (p2 != null ==> unchanged(p2, p2.bullet))
    {
      if k == Key1 {
        board.PlaceBricks(X0Y0);
      } else if k == Key4 {
        board.PlaceIrons(X0Y0);
      } else if k.ForPlayerTwo() {
        Adjust(p2, k);
      } else {
        Adjust(p1, k);
      }
    }

    /**
     * One event of the queue. Once the game is over only R acts, rebuilding
     * the round; otherwise PlayEvent handles it.
     */
    method HandleEvent(ev: Event) returns (skip: bool)
      requires Valid() && (ev.ForPlayerTwo() ==> twoPlayer)
      modifies Footprint()
      ensures Valid()
      ensures old(gameOver) && ev.IsReset() ==> Started(ev.key.rolls)
      ensures old(gameOver) && !ev.IsReset() ==> Unmoved()
      ensures forall o | o in Footprint() :: o in old(Footprint()) || fresh(o)
      ensures skip <==>
        !old(gameOver) && ev.Delay? && old(enemyNumber) < 4 && HitsAny(TankBox(3 + (ev.roll.lane - 1) * 12 * 24, 3), old(AllBoxes()))
      ensures !old(gameOver) ==> !gameOver
    {
      skip := false;
      if gameOver {
        Restart(ev);
      } else {
        skip := PlayEvent(ev);
      }
    }

    /** Once the game is over, only R does anything: it resets the game. */
    method Restart(ev: Event)
      requires Valid() && gameOver
      modifies this
      ensures Valid()
      ensures ev.IsReset() ==> Started(ev.key.rolls)
      ensures !ev.IsReset() ==> unchanged(this)
      ensures forall o | o in Footprint() :: o in old(Footprint()) || fresh(o)
    {
      if ev.IsReset() {
        Reset(ev.key.rolls);
        FreshFootprint();
      }
    }

    /** A round rebuilt from scratch touches nothing but itself and new objects. */
    twostate lemma FreshFootprint()
      requires fresh(board) && fresh(prop) && fresh(p1) && fresh(p1.bullet) && (p2 != null ==> fresh(p2) && fresh(p2.bullet))
      requires (forall e | e in enemies :: fresh(e) && fresh(e.bullet)) && enemyBullets == {}
      ensures forall o | o in Footprint() :: o == this || fresh(o)
    {
    }

    /**
     * One event while the round is in play: the timers go to Timer, the
     * spawn timer may add an enemy (or ask to skip the rest of the queue),
     * and key presses go to HandleKey.
     */
    method PlayEvent(ev: Event) returns (skip: bool)
      requires Valid() && !gameOver && (ev.ForPlayerTwo() ==> twoPlayer)
      modifies Footprint()
      ensures Valid() && !gameOver
      ensures forall o | o in Footprint() :: o in old(Footprint()) || fresh(o)
      ensures skip <==> ev.Delay? && old(enemyNumber) < 4 && HitsAny(TankBox(3 + (ev.roll.lane - 1) * 12 * 24, 3), old(AllBoxes()))
    {
      skip := false;
      match ev
      case Delay(roll) => skip := Spawn(roll);
      case KeyDown(k) => HandleKey(k);
      case _ => Timer(ev);
    }

    /** The three timers: MYBULLETNOTCOOLINGEVENT, ENEMYBULLETNOTCOOLINGEVENT and NOTMOVEEVENT. */
    method Timer(ev: Event)
      requires Valid() && !gameOver
      modifies this, p1, Squad()
      ensures Valid() && !gameOver && Footprint() == old(Footprint())
      ensures ev == MyBulletCooled ==> p1.bulletNotCooling
      ensures ev == EnemyBulletsCooled ==> forall e | e in enemies :: e.bulletNotCooling
      ensures ev == Thaw ==> enemyCouldMove
      ensures board == old(board) && prop == old(prop) && p1 == old(p1) && p2 == old(p2)
      ensures enemies == old(enemies) && enemyBullets == old(enemyBullets) && enemyNumber == old(enemyNumber)
      ensures moving == old(moving) && movdir == old(movdir) && moving2 == old(moving2) && movdir2 == old(movdir2)
      ensures homeSurvive == old(homeSurvive)
      ensures ev != Thaw ==> enemyCouldMove == old(enemyCouldMove)
      ensures p1.rect == old(p1.rect) && p1.level == old(p1.level) && p1.life == old(p1.life) && p1.speed == old(p1.speed)
      ensures p1.dirX == old(p1.dirX) && p1.dirY == old(p1.dirY) && p1.sheet == old(p1.sheet)
      ensures ev != MyBulletCooled ==> p1.bulletNotCooling == old(p1.bulletNotCooling)
      ensures forall e | e in enemies :: e.Idle()
      ensures ev != EnemyBulletsCooled ==> forall e | e in enemies :: e.bulletNotCooling == old(e.bulletNotCooling)
    {
      match ev
      case MyBulletCooled => p1.bulletNotCooling := true;
      case EnemyBulletsCooled => CoolEnemies();
      case Thaw => enemyCouldMove := true;
      case _ =>
    }

    /**
     * `for event in pygame.event.get()`: the events in order, until the
     * spawn timer asks to skip the rest; `handled` is how far the queue was
     * read. A queue cut short stops at a spawn timer, in play; a game-over
     * round without an R in the queue reads it all and stays as it was.
     */
    method ProcessEvents(events: seq<Event>) returns (ghost handled: nat)
      requires Valid() && forall k | 0 <= k < |events| :: events[k].ForPlayerTwo() ==> twoPlayer
      modifies Footprint()
      ensures Valid() && forall o | o in Footprint() :: o in old(Footprint()) || fresh(o)
      ensures handled <= |events| && (handled < |events| ==> events[handled].Delay? && !gameOver)
      ensures old(gameOver) && (forall k | 0 <= k < |events| :: !events[k].IsReset()) ==>
        handled == |events| && gameOver && Unmoved()
    {
      ghost var calm := gameOver && forall k | 0 <= k < |events| :: !events[k].IsReset();
      var i := 0;
      while i < |events|
        invariant 0 <= i <= |events| && Valid()
        invariant forall o | o in Footprint() :: o in old(Footprint()) || fresh(o)
        invariant calm ==> gameOver && Unmoved()
      {
        var skip := HandleEvent(events[i]);
        if skip {
          return i;
        }
        i := i + 1;
      }
      return i;
    }

    // -------------------------------------------------------------------------
    // The players

    /** The tanks player 1 can run into: player 2 and every enemy (allTankGroup without player 1). */
    function OthersOfOne(): (bs: seq<Rect>)
      reads this, p2, Squad()
      ensures |bs| == |SecondBox()| + |enemies|
    {
      SecondBox() + Boxes(enemies)
    }

    /** The tanks player 2 can run into: player 1 and every enemy. */
    function OthersOfTwo(): (bs: seq<Rect>)
      reads this, p1, Squad()
      ensures |bs| == 1 + |enemies|
    {
      [p1.rect] + Boxes(enemies)
    }

    /** Player 1's drive: its box, facing and committed-move counters. */
    function DriveOfOne(): Drive
      reads this, p1
    {
      Drive(p1.rect, p1.dirX, p1.dirY, moving, movdir)
    }

    /** Player 2's drive. */
    function DriveOfTwo(): Drive
      requires p2 != null
      reads this, p2
    {
      Drive(p2.rect, p2.dirX, p2.dirY, moving2, movdir2)
    }

    /**
     * Player 1's movement in a tick: a committed move steps on (a blocked
     * step gives the count back), and once the count is 0 the first held
     * key of W, S, A, D starts a new move of 7, cancelled if its first step
     * is blocked. The result is DriveOne of the drive before the tick.
     */
    method MoveOne(keys: Held)
      requires Valid()
      modifies this, p1
      ensures Valid()
      ensures DriveOfOne() == DriveOne(old(DriveOfOne()), p1.speed, IntentOne(keys), old(OthersOfOne()), board.bricks, board.irons)
      ensures p1.level == old(p1.level) && p1.life == old(p1.life) && p1.speed == old(p1.speed) && p1.bulletNotCooling == old(p1.bulletNotCooling)
      ensures board == old(board) && prop == old(prop) && p1 == old(p1) && p2 == old(p2)
      ensures enemies == old(enemies) && enemyBullets == old(enemyBullets) && enemyNumber == old(enemyNumber)
      ensures moving2 == old(moving2) && movdir2 == old(movdir2)
      ensures enemyCouldMove == old(enemyCouldMove) && homeSurvive == old(homeSurvive) && gameOver == old(gameOver)
    {
      var tanks := OthersOfOne();
      ContinueMoveOne(tanks);
      StartMoveOne(IntentOne(keys), tanks);
    }

    /** The committed part of player 1's move, against the other tanks' boxes `tanks`. */
    method ContinueMoveOne(tanks: seq<Rect>)
      requires Valid()
      modifies this, p1
      ensures Valid()
      ensures DriveOfOne() == ContinueOne(old(DriveOfOne()), p1.speed, tanks, board.bricks, board.irons)
      ensures p1.level == old(p1.level) && p1.life == old(p1.life) && p1.speed == old(p1.speed) && p1.bulletNotCooling == old(p1.bulletNotCooling)
      ensures board == old(board) && prop == old(prop) && p1 == old(p1) && p2 == old(p2)
      ensures enemies == old(enemies) && enemyBullets == old(enemyBullets) && enemyNumber == old(enemyNumber)
      ensures moving2 == old(moving2) && movdir2 == old(movdir2)
      ensures enemyCouldMove == old(enemyCouldMove) && homeSurvive == old(homeSurvive) && gameOver == old(gameOver)
    {
      if moving != 0 {
        moving := moving - 1;
        var h := MovdirHeading(movdir);
        if h.Some? {
          var blocked := p1.Move(h.value, tanks, board.bricks, board.irons);
          if blocked {
            moving := moving + 1;
          }
        }
      }
    }

    /** The new-move part of player 1's move, for the first held key `key`. */
    method StartMoveOne(key: Option<Heading>, tanks: seq<Rect>)
      requires Valid()
      modifies this, p1
      ensures Valid()
      ensures DriveOfOne() == StartOne(old(DriveOfOne()), p1.speed, key, tanks, board.bricks, board.irons)
      ensures p1.level == old(p1.level) && p1.life == old(p1.life) && p1.speed == old(p1.speed) && p1.bulletNotCooling == old(p1.bulletNotCooling)
      ensures board == old(board) && prop == old(prop) && p1 == old(p1) && p2 == old(p2)
      ensures enemies == old(enemies) && enemyBullets == old(enemyBullets) && enemyNumber == old(enemyNumber)
      ensures moving2 == old(moving2) && movdir2 == old(movdir2)
      ensures enemyCouldMove == old(enemyCouldMove) && homeSurvive == old(homeSurvive) && gameOver == old(gameOver)
    {
      if moving == 0 && key.Some? {
        moving, movdir := 7, MovdirOf(key.value);
        var blocked := p1.Move(key.value, tanks, board.bricks, board.irons);
        if blocked {
          moving := 0;
        }
      }
    }

    /**
     * Player 2's movement in a tick: the same steps, but blocked steps are
     * ignored. The result is DriveTwo of the drive before the tick.
     */
    method MoveTwo(keys: Held)
      requires Valid() && p2 != null
      modifies this, p2
      ensures Valid()
      ensures DriveOfTwo() == DriveTwo(old(DriveOfTwo()), p2.speed, IntentTwo(keys), old(OthersOfTwo()), board.bricks, board.irons)
      ensures p2.level == old(p2.level) && p2.life == old(p2.life) && p2.speed == old(p2.speed) && p2.bulletNotCooling == old(p2.bulletNotCooling)
      ensures board == old(board) && prop == old(prop) && p1 == old(p1) && p2 == old(p2)
      ensures enemies == old(enemies) && enemyBullets == old(enemyBullets) && enemyNumber == old(enemyNumber)
      ensures moving == old(moving) && movdir == old(movdir)
      ensures enemyCouldMove == old(enemyCouldMove) && homeSurvive == old(homeSurvive) && gameOver == old(gameOver)
    {
      var tanks := OthersOfTwo();
      ContinueMoveTwo(tanks);
      StartMoveTwo(IntentTwo(keys), tanks);
    }

    /** The committed part of player 2's move. */
    method ContinueMoveTwo(tanks: seq<Rect>)
      requires Valid() && p2 != null
      modifies this, p2
      ensures Valid()
      ensures DriveOfTwo() == ContinueTwo(old(DriveOfTwo()), p2.speed, tanks, board.bricks, board.irons)
      ensures p2.level == old(p2.level) && p2.life == old(p2.life) && p2.speed == old(p2.speed) && p2.bulletNotCooling == old(p2.bulletNotCooling)
      ensures board == old(board) && prop == old(prop) && p1 == old(p1) && p2 == old(p2)
      ensures enemies == old(enemies) && enemyBullets == old(enemyBullets) && enemyNumber == old(enemyNumber)
      ensures moving == old(moving) && movdir == old(movdir)
      ensures enemyCouldMove == old(enemyCouldMove) && homeSurvive == old(homeSurvive) && gameOver == old(gameOver)
    {
      if moving2 != 0 {
        moving2 := moving2 - 1;
        var h := MovdirHeading(movdir2);
        if h.Some? {
          var _ := p2.Move(h.value, tanks, board.bricks, board.irons);
        }
      }
    }

    /** The new-move part of player 2's move. */
    method StartMoveTwo(key: Option<Heading>, tanks: seq<Rect>)
      requires Valid() && p2 != null
      modifies this, p2
      ensures Valid()
      ensures DriveOfTwo() == StartTwo(old(DriveOfTwo()), p2.speed, key, tanks, board.bricks, board.irons)
      ensures p2.level == old(p2.level) && p2.life == old(p2.life) && p2.speed == old(p2.speed) && p2.bulletNotCooling == old(p2.bulletNotCooling)
      ensures board == old(board) && prop == old(prop) && p1 == old(p1) && p2 == old(p2)
      ensures enemies == old(enemies) && enemyBullets == old(enemyBullets) && enemyNumber == old(enemyNumber)
      ensures moving == old(moving) && movdir == old(movdir)
      ensures enemyCouldMove == old(enemyCouldMove) && homeSurvive == old(homeSurvive) && gameOver == old(gameOver)
    {
      if moving2 == 0 && key.Some? {
        var _ := p2.Move(key.value, tanks, board.bricks, board.irons);
        moving2, movdir2 := 7, MovdirOf(key.value);
      }
    }

    /** J: player 1 fires when its bullet is not in flight and its cooldown is over, and the cooldown starts. */
    method FireOne(keys: Held)
      requires Valid()
      modifies p1, p1.bullet
      ensures Valid()
      ensures var fires := keys.j && !old(p1.bullet.life) && old(p1.bulletNotCooling);
        (fires ==> p1.bullet.life && !p1.bulletNotCooling && p1.bullet.dirX == p1.dirX && p1.bullet.dirY == p1.dirY &&
                   p1.bullet.rect == Muzzle(p1.rect, p1.dirX, p1.dirY, old(p1.bullet.rect)) &&
                   (p1.bullet.speed, p1.bullet.strong) == ShotStats(p1.level, old(p1.bullet.speed), old(p1.bullet.strong))) &&
        (!fires ==> unchanged(p1, p1.bullet))
      ensures p1.rect == old(p1.rect) && p1.level == old(p1.level) && p1.dirX == old(p1.dirX) && p1.dirY == old(p1.dirY)
      ensures p1.speed == old(p1.speed) && p1.life == old(p1.life)
    {
      if keys.j && !p1.bullet.life && p1.bulletNotCooling {
        p1.Shoot();
        p1.bulletNotCooling := false;
      }
    }

    /** KP0: player 2 fires whenever its bullet is not in flight; it has no cooldown. */
    method FireTwo(keys: Held)
      requires Valid() && p2 != null
      modifies p2.bullet
      ensures Valid()
      ensures var fires := keys.pad0 && !old(p2.bullet.life);
        (fires ==> p2.bullet.life && p2.bullet.dirX == p2.dirX && p2.bullet.dirY == p2.dirY &&
                   p2.bullet.rect == Muzzle(p2.rect, p2.dirX, p2.dirY, old(p2.bullet.rect)) &&
                   (p2.bullet.speed, p2.bullet.strong) == ShotStats(p2.level, old(p2.bullet.speed), old(p2.bullet.strong))) &&
        (!fires ==> unchanged(p2.bullet))
    {
      if keys.pad0 && !p2.bullet.life {
        p2.Shoot();
      }
    }

    // -------------------------------------------------------------------------
    // The enemies

    /** The tanks enemy `k` can run into: both players and every other enemy (allTankGroup without it). */
    function OthersOfEnemy(k: int): (bs: seq<Rect>)
      requires 0 <= k < |enemies|
      reads this, p1, p2, Squad()
      ensures |bs| == |AllBoxes()| - 1
    {
      [p1.rect] + SecondBox() + Boxes(enemies[..k]) + Boxes(enemies[k + 1..])
    }

    /**
     * One enemy's part of the tick: a tank whose appearance is over moves
     * (only while enemies may move), one still appearing counts down and
     * flashes at 0.
     */
    method AnimateEnemy(k: int, turn: Turn)
      requires Valid() && 0 <= k < |enemies|
      modifies enemies[k]
      ensures Valid()
      ensures var e := enemies[k];
        (old(e.flash) && enemyCouldMove ==> e.Stepped(old(OthersOfEnemy(k)), board.bricks, board.irons, turn.first, turn.second)) &&
        (old(e.flash) && !enemyCouldMove ==> unchanged(e))
      ensures Animates(old(enemies[k].State()), enemies[k].State(), enemyCouldMove)
    {
      var e := enemies[k];
      assert e in enemies;
      if e.flash {
        if enemyCouldMove {
          e.Move(OthersOfEnemy(k), board.bricks, board.irons, turn.first, turn.second);
        }
      } else {
        CountDown(e);
      }
    }

    /**
     * The enemies' part of the tick, in the order they joined, each moving
     * against the boxes the others have at that moment (see March and
     * MarchEntry): the tanks still appearing count down (a new one flashes
     * after exactly 90 ticks, see AppearanceLasts), and while the enemies are
     * frozen none moves.
     */
    method AnimateEnemies(turns: nat -> Turn)
      requires Valid()
      modifies Squad()
      ensures Valid() && board.bricks == old(board.bricks)
      ensures forall j | 0 <= j < |enemies| :: Animates(old(enemies[j].State()), enemies[j].State(), enemyCouldMove)
      ensures Poses(enemies) == March(old(Poses(enemies)), old(Ready(enemies)), Speeds(enemies), [p1.rect] + SecondBox(),
                                      board.bricks, board.irons, turns, enemyCouldMove, |enemies|)
    {
      ghost var from, ready, players, was := Poses(enemies), Ready(enemies), [p1.rect] + SecondBox(), States(enemies);
      ghost var marched := March(from, ready, Speeds(enemies), players, board.bricks, board.irons, turns, enemyCouldMove, |enemies|);
      for i := 0 to |enemies|
        invariant Valid() && players == [p1.rect] + SecondBox()
        invariant forall j | 0 <= j < i :: enemies[j].State().pose == marched[j] && Animates(was[j], enemies[j].State(), enemyCouldMove)
        invariant forall j | i <= j < |enemies| :: enemies[j].State() == was[j]
      {
        TakeTurn(i, turns, from, ready, players, was, marched);
      }
      assert Poses(enemies) == marched;
    }

    /**
     * Enemy `i`'s turn in AnimateEnemies: with the poses `from` and flags
     * `ready` the enemies had before the tick, and the enemies before `i`
     * already where the march puts them, enemy `i` goes there too.
     */
    method TakeTurn(i: int, turns: nat -> Turn, ghost from: seq<Pose>, ghost ready: seq<bool>, ghost players: seq<Rect>,
                    ghost was: seq<EnemyState>, ghost marched: seq<Pose>)
      requires Valid() && 0 <= i < |enemies| == |from| == |ready| == |was| && players == [p1.rect] + SecondBox()
      requires marched == March(from, ready, Speeds(enemies), players, board.bricks, board.irons, turns, enemyCouldMove, |enemies|)
      requires forall j | 0 <= j < i :: enemies[j].State().pose == marched[j]
      requires forall j | i <= j < |enemies| :: enemies[j].State() == was[j] && from[j] == was[j].pose && ready[j] == was[j].flash
      modifies enemies[i]
      ensures Valid()
      ensures enemies[i].State().pose == marched[i]
      ensures Animates(was[i], enemies[i].State(), enemyCouldMove)
      ensures forall j | 0 <= j < |enemies| && j != i :: enemies[j].State() == old(enemies[j].State())
      ensures players == [p1.rect] + SecondBox()
    {
      assert Boxes(enemies[i + 1..]) == Spots(from[i + 1..]);
      MarchTurn(from, ready, Speeds(enemies), players, board.bricks, board.irons, turns, enemyCouldMove, i, Boxes(enemies[..i]));
      AnimateEnemy(i, turns(i));
    }

    // -------------------------------------------------------------------------
    // The bullets

    /**
     * `kill` on the enemies in `v`, which leave every group at once, and
     * `loss` off the spawn counter, which still covers the enemies left.
     */
    method Kill(v: set<EnemyTank>, loss: nat)
      requires Valid() && |enemies| - Count(enemies, v) <= enemyNumber - loss
      modifies this
      ensures Valid() && enemies == Remove(old(enemies), v) && enemyNumber == old(enemyNumber) - loss
      ensures forall e | e in enemies :: e in old(enemies) && e !in v
      ensures board == old(board) && prop == old(prop) && p1 == old(p1) && p2 == old(p2) && enemyBullets == old(enemyBullets)
      ensures moving == old(moving) && movdir == old(movdir) && moving2 == old(moving2) && movdir2 == old(movdir2)
      ensures enemyCouldMove == old(enemyCouldMove) && homeSurvive == old(homeSurvive) && gameOver == old(gameOver)
    {
      ghost var kept := Remove(enemies, v);
      RemoveLength(enemies, v);
      Disperse(v);
      assert enemies == kept && |kept| <= enemyNumber - loss;
      enemyNumber := enemyNumber - loss;
    }

    /** The enemies in `v` leave allEnemyGroup, allTankGroup and their bands. */
    method Disperse(v: set<EnemyTank>)
      requires Valid()
      modifies this
      ensures Valid() && enemies == Remove(old(enemies), v)
      ensures forall e | e in enemies :: e in old(enemies) && e !in v
      ensures board == old(board) && prop == old(prop) && p1 == old(p1) && p2 == old(p2) && enemyBullets == old(enemyBullets)
      ensures enemyNumber == old(enemyNumber) && moving == old(moving) && movdir == old(movdir) && moving2 == old(moving2) && movdir2 == old(movdir2)
      ensures enemyCouldMove == old(enemyCouldMove) && homeSurvive == old(homeSurvive) && gameOver == old(gameOver)
    {
      var rest := Remove(enemies, v);
      if enemies != [] {
        RemoveFacts(enemies, v, enemies[0]);
      }
      RemoveDistinct(enemies, v);
      forall e | e in rest ensures e in enemies && e !in v {
        RemoveFacts(enemies, v, e);
      }
      CrewSubset(rest);
      enemies := rest;
    }

    /** Any distinct selection of the enemies on the field is again a well-formed crew. */
    lemma CrewSubset(rest: seq<EnemyTank>)
      requires Crew() && Distinct(rest) && forall e | e in rest :: e in enemies
      ensures forall e | e in rest :: e.Valid() && e.bullet != p1.bullet && (p2 != null ==> e.bullet != p2.bullet)
      ensures forall e, f | e in rest && f in rest && e != f :: e.bullet != f.bullet
    {
    }

    /** The enemy bullets player 1's bullet overlaps. */
    function Touching(): set<Bullet>
      reads this, p1, p1.bullet, enemyBullets
    {
      set b | b in enemyBullets && p1.bullet.rect.Collides(b.rect)
    }

    /**
     * The clash of player 1's bullet with the enemy bullets: if it overlaps
     * a live one, it dies, every live enemy bullet it overlaps dies, and
     * every enemy bullet it overlaps leaves enemyBulletGroup; the boxes stay.
     */
    method ClashOne()
      requires Valid()
      modifies this, p1.bullet, enemyBullets
      ensures Valid()
      ensures var clash := exists b | b in old(Touching()) :: old(b.life);
        (clash ==> !p1.bullet.life && enemyBullets == old(enemyBullets - Touching())) &&
        (!clash ==> p1.bullet.life == old(p1.bullet.life) && enemyBullets == old(enemyBullets))
      ensures forall b | b in old(enemyBullets) :: b.life == (old(b.life) && b !in old(Touching()))
      ensures forall b | b in old(enemyBullets) :: b.rect == old(b.rect) && b.speed == old(b.speed) && b.strong == old(b.strong)
      ensures p1.bullet.rect == old(p1.bullet.rect) && p1.bullet.speed == old(p1.bullet.speed) && p1.bullet.strong == old(p1.bullet.strong)
      ensures board == old(board) && prop == old(prop) && p1 == old(p1) && p2 == old(p2) && enemies == old(enemies) && enemyNumber == old(enemyNumber)
      ensures moving == old(moving) && movdir == old(movdir) && moving2 == old(moving2) && movdir2 == old(movdir2)
      ensures enemyCouldMove == old(enemyCouldMove) && homeSurvive == old(homeSurvive) && gameOver == old(gameOver)
    {
      var touching := Touching();
      var struck := set b | b in touching && b.life;
      if struck != {} {
        p1.bullet.life := false;
        forall b | b in struck {
          b.life := false;
        }
        enemyBullets := enemyBullets - touching;
      } else {
        forall b | b in touching ensures !b.life {
          assert b.life ==> b in struck;
        }
      }
    }

    /** What a hit on greenEnemyGroup relies on: the group, the struck and the finished enemies. */
    lemma GreensFacts(box: Rect)
      requires Valid()
      ensures Distinct(InBand(enemies, GreenBand))
      ensures forall e | e in InBand(enemies, GreenBand) :: e in enemies && e.Valid() && BandOf(e) == GreenBand
      ensures Finished(enemies, box) <= Struck(enemies, box, GreenBand)
      ensures forall e | e in Struck(enemies, box, GreenBand) :: e in InBand(enemies, GreenBand)
      ensures |Finished(enemies, box)| <= |Struck(enemies, box, GreenBand)| == Count(enemies, Struck(enemies, box, GreenBand))
    {
      var hit, done := Struck(enemies, box, GreenBand), Finished(enemies, box);
      InBandDistinct(enemies, GreenBand);
      forall e | e in enemies ensures e in InBand(enemies, GreenBand) <==> BandOf(e) == GreenBand {
        BandsPartition(enemies, e);
      }
      forall e | e in InBand(enemies, GreenBand) ensures e in enemies && BandOf(e) == GreenBand {
        BandsPartition(enemies, e);
      }
      CountDistinct(enemies, hit);
      assert hit * Members(enemies) == hit;
      assert hit == done + (hit - done) && done * (hit - done) == {};
    }

    /**
     * Player 1's bullet in greenEnemyGroup, visited in order: every heavy
     * enemy it overlaps loses a hit point (down to 1) with its sheet; if one
     * of them was already at 1, every heavy enemy it overlaps is killed, and
     * the counter drops once for each of them that was at 1.
     */
    method HitGreens(box: Rect)
      requires Valid()
      modifies this, Squad()
      ensures Valid()
      ensures old(Finished(enemies, box)) == {} ==> enemies == old(enemies)
      ensures old(Finished(enemies, box)) != {} ==> enemies == Remove(old(enemies), old(Struck(enemies, box, GreenBand)))
      ensures enemyNumber == old(enemyNumber) - |old(Finished(enemies, box))|
      ensures forall e | e in enemies :: e in old(enemies)
      ensures forall e | e in old(enemies) ::
        e.life == (if e in old(Struck(enemies, box, GreenBand)) then Wounded(old(e.life)) else old(e.life)) &&
        e.sheet == (if e in old(Struck(enemies, box, GreenBand)) then WoundedSheet(old(e.life), old(e.sheet)) else old(e.sheet))
      ensures forall e | e in old(enemies) ::
        e.rect == old(e.rect) && e.dirX == old(e.dirX) && e.dirY == old(e.dirY) &&
        e.flash == old(e.flash) && e.times == old(e.times) && e.bulletNotCooling == old(e.bulletNotCooling)
      ensures board == old(board) && prop == old(prop) && p1 == old(p1) && p2 == old(p2) && enemyBullets == old(enemyBullets)
      ensures moving == old(moving) && movdir == old(movdir) && moving2 == old(moving2) && movdir2 == old(movdir2)
      ensures enemyCouldMove == old(enemyCouldMove) && homeSurvive == old(homeSurvive) && gameOver == old(gameOver)
    {
      var greens := InBand(enemies, GreenBand);
      var hit := Struck(enemies, box, GreenBand);
      GreensFacts(box);
      assert Struck(greens, box, GreenBand) == hit;
      assert Finished(greens, box) == Finished(enemies, box);
      var loss := WoundGreens(greens, box);
      if loss != 0 {
        Kill(hit, loss);
      }
    }

    /**
     * Any bullet against the base, alive or not: while the base stands, a
     * bullet overlapping it destroys it, dies, and ends the game.
     */
    method HomeHit(b: Bullet)
      requires Valid()
      modifies this, b
      ensures Valid()
      ensures old(homeSurvive) && b.rect.Collides(Home) ==> !homeSurvive && gameOver && !b.life
      ensures !(old(homeSurvive) && b.rect.Collides(Home)) ==>
        homeSurvive == old(homeSurvive) && gameOver == old(gameOver) && b.life == old(b.life)
      ensures b.rect == old(b.rect) && b.dirX == old(b.dirX) && b.dirY == old(b.dirY) && b.speed == old(b.speed) &&
        b.strong == old(b.strong) && b.sprite == old(b.sprite)
      ensures board == old(board) && prop == old(prop) && p1 == old(p1) && p2 == old(p2)
      ensures enemies == old(enemies) && enemyBullets == old(enemyBullets) && enemyNumber == old(enemyNumber)
      ensures moving == old(moving) && movdir == old(movdir) && moving2 == old(moving2) && movdir2 == old(movdir2)
      ensures enemyCouldMove == old(enemyCouldMove)
    {
      if homeSurvive && b.rect.Collides(Home) {
        homeSurvive := false;
        b.life := false;
        gameOver := true;
      }
    }

    /** Player 1's bullet overlaps a member of redEnemyGroup. */
    ghost predicate RedHit()
      reads this, p1, p1.bullet, Squad()
    {
      Struck(enemies, p1.bullet.rect, RedBand) != {}
    }

    /** Player 1's bullet overlaps a member of greenEnemyGroup. */
    ghost predicate GreenHit()
      reads this, p1, p1.bullet, Squad()
    {
      Struck(enemies, p1.bullet.rect, GreenBand) != {}
    }

    /** Player 1's bullet overlaps a member of otherEnemyGroup. */
    ghost predicate OtherHit()
      reads this, p1, p1.bullet, Squad()
    {
      Struck(enemies, p1.bullet.rect, OtherBand) != {}
    }

    /**
     * Player 1's bullet against the groups, red first: a red enemy hit
     * kills every red one it overlaps, moves the power-up and takes one off
     * the counter; else a heavy enemy hit goes through the heavy group;
     * else an other enemy hit kills every other one it overlaps and takes
     * one off. Any of the three hits ends the bullet.
     */
    method ShootEnemiesOne(kind: FoodKind, spot: FoodSpot)
      requires Valid()
      modifies this, Squad(), prop, p1.bullet
      ensures Valid()
      ensures old(RedHit()) ==>
        enemies == Remove(old(enemies), old(Struck(enemies, p1.bullet.rect, RedBand))) && enemyNumber == old(enemyNumber) - 1 &&
        prop.kind == kind && prop.life && prop.rect == old(prop.rect).(left := spot, top := spot)
      ensures !old(RedHit()) ==> prop.kind == old(prop.kind) && prop.life == old(prop.life) && prop.rect == old(prop.rect)
      ensures !old(RedHit()) && old(GreenHit()) ==>
        enemyNumber == old(enemyNumber) - |old(Finished(enemies, p1.bullet.rect))| &&
        enemies == if old(Finished(enemies, p1.bullet.rect)) == {} then old(enemies)
          else Remove(old(enemies), old(Struck(enemies, p1.bullet.rect, GreenBand)))
      ensures !old(RedHit()) && !old(GreenHit()) && old(OtherHit()) ==>
        enemies == Remove(old(enemies), old(Struck(enemies, p1.bullet.rect, OtherBand))) && enemyNumber == old(enemyNumber) - 1
      ensures !old(RedHit()) && !old(GreenHit()) && !old(OtherHit()) ==>
        enemies == old(enemies) && enemyNumber == old(enemyNumber)
      ensures p1.bullet.life == (old(p1.bullet.life) && !old(RedHit()) && !old(GreenHit()) && !old(OtherHit()))
      ensures forall e | e in enemies :: e in old(enemies)
      ensures !old(RedHit()) && old(GreenHit()) ==> forall e | e in old(enemies) ::
        e.life == (if e in old(Struck(enemies, p1.bullet.rect, GreenBand)) then Wounded(old(e.life)) else old(e.life)) &&
        e.sheet == (if e in old(Struck(enemies, p1.bullet.rect, GreenBand)) then WoundedSheet(old(e.life), old(e.sheet)) else old(e.sheet))
      ensures old(RedHit()) || !old(GreenHit()) ==> forall e | e in old(enemies) :: e.life == old(e.life) && e.sheet == old(e.sheet)
      ensures forall e | e in old(enemies) ::
        e.rect == old(e.rect) && e.dirX == old(e.dirX) && e.dirY == old(e.dirY) &&
        e.flash == old(e.flash) && e.times == old(e.times) && e.bulletNotCooling == old(e.bulletNotCooling)
      ensures p1.bullet.rect == old(p1.bullet.rect) && p1.bullet.strong == old(p1.bullet.strong) && p1.bullet.speed == old(p1.bullet.speed)
      ensures board == old(board) && prop == old(prop) && p1 == old(p1) && p2 == old(p2) && enemyBullets == old(enemyBullets)
      ensures moving == old(moving) && movdir == old(movdir) && moving2 == old(moving2) && movdir2 == old(movdir2)
      ensures enemyCouldMove == old(enemyCouldMove) && homeSurvive == old(homeSurvive) && gameOver == old(gameOver)
    {
      var red := Struck(enemies, p1.bullet.rect, RedBand);
      if red != {} {
        KillOne(red);
        prop.Change(kind, spot);
        p1.bullet.life := false;
      } else {
        ShootRestOne();
      }
    }

    /** Player 1's bullet past an untouched red group: the heavy group, else the other group. */
    method ShootRestOne()
      requires Valid() && !RedHit()
      modifies this, Squad(), p1.bullet
      ensures Valid()
      ensures old(GreenHit()) ==>
        enemyNumber == old(enemyNumber) - |old(Finished(enemies, p1.bullet.rect))| &&
        enemies == if old(Finished(enemies, p1.bullet.rect)) == {} then old(enemies)
          else Remove(old(enemies), old(Struck(enemies, p1.bullet.rect, GreenBand)))
      ensures !old(GreenHit()) && old(OtherHit()) ==>
        enemies == Remove(old(enemies), old(Struck(enemies, p1.bullet.rect, OtherBand))) && enemyNumber == old(enemyNumber) - 1
      ensures !old(GreenHit()) && !old(OtherHit()) ==> enemies == old(enemies) && enemyNumber == old(enemyNumber)
      ensures p1.bullet.life == (old(p1.bullet.life) && !old(GreenHit()) && !old(OtherHit()))
      ensures forall e | e in enemies :: e in old(enemies)
      ensures old(GreenHit()) ==> forall e | e in old(enemies) ::
        e.life == (if e in old(Struck(enemies, p1.bullet.rect, GreenBand)) then Wounded(old(e.life)) else old(e.life)) &&
        e.sheet == (if e in old(Struck(enemies, p1.bullet.rect, GreenBand)) then WoundedSheet(old(e.life), old(e.sheet)) else old(e.sheet))
      ensures !old(GreenHit()) ==> forall e | e in old(enemies) :: e.life == old(e.life) && e.sheet == old(e.sheet)
      ensures forall e | e in old(enemies) ::
        e.rect == old(e.rect) && e.dirX == old(e.dirX) && e.dirY == old(e.dirY) &&
        e.flash == old(e.flash) && e.times == old(e.times) && e.bulletNotCooling == old(e.bulletNotCooling)
      ensures p1.bullet.rect == old(p1.bullet.rect) && p1.bullet.strong == old(p1.bullet.strong) && p1.bullet.speed == old(p1.bullet.speed)
      ensures board == old(board) && prop == old(prop) && p1 == old(p1) && p2 == old(p2) && enemyBullets == old(enemyBullets)
      ensures moving == old(moving) && movdir == old(movdir) && moving2 == old(moving2) && movdir2 == old(movdir2)
      ensures enemyCouldMove == old(enemyCouldMove) && homeSurvive == old(homeSurvive) && gameOver == old(gameOver)
    {
      var box := p1.bullet.rect;
      if Struck(enemies, box, GreenBand) != {} {
        HitGreens(box);
        p1.bullet.life := false;
      } else {
        var other := Struck(enemies, box, OtherBand);
        if other != {} {
          KillOne(other);
          p1.bullet.life := false;
        }
      }
    }

    /** A `spritecollide(..., True)` that found someone: the enemies in `v` are killed and one comes off the counter. */
    method KillOne(v: set<EnemyTank>)
      requires Valid() && v != {} && forall e | e in v :: e in enemies
      modifies this
      ensures Valid() && enemies == Remove(old(enemies), v) && enemyNumber == old(enemyNumber) - 1
      ensures forall e | e in enemies :: e in old(enemies) && e !in v
      ensures board == old(board) && prop == old(prop) && p1 == old(p1) && p2 == old(p2) && enemyBullets == old(enemyBullets)
      ensures moving == old(moving) && movdir == old(movdir) && moving2 == old(moving2) && movdir2 == old(movdir2)
      ensures enemyCouldMove == old(enemyCouldMove) && homeSurvive == old(homeSurvive) && gameOver == old(gameOver)
    {
      ghost var x :| x in v;
      RemoveFacts(enemies, v, x);
      Kill(v, 1);
    }

    /** What a bullet's flight through one tick can do to the round, whatever it hits. */
    twostate predicate Wears()
      reads this, board, Squad()
    {
      (forall e | e in enemies :: e in old(enemies)) && enemyNumber <= old(enemyNumber) &&
      (forall c | c in board.bricks :: c in old(board.bricks)) && (forall c | c in board.irons :: c in old(board.irons)) &&
      (homeSurvive ==> old(homeSurvive)) && (gameOver <==> old(gameOver) || (old(homeSurvive) && !homeSurvive))
    }

    /**
     * Player 1's bullet, if it is alive: it moves, meets the enemy bullets,
     * the enemy groups, the map and the base, in that order.
     */
    method ResolveOne(kind: FoodKind, spot: FoodSpot)
      requires Valid()
      modifies this, Squad(), prop, board, p1.bullet, enemyBullets
      ensures Valid() && Wears()
      ensures !old(p1.bullet.life) ==>
        enemies == old(enemies) && enemyNumber == old(enemyNumber) && enemyBullets == old(enemyBullets) &&
        board.bricks == old(board.bricks) && board.irons == old(board.irons) &&
        homeSurvive == old(homeSurvive) && gameOver == old(gameOver) && p1.bullet.rect == old(p1.bullet.rect)
      ensures board == old(board) && prop == old(prop) && p1 == old(p1) && p2 == old(p2)
      ensures moving == old(moving) && movdir == old(movdir) && moving2 == old(moving2) && movdir2 == old(movdir2)
      ensures enemyCouldMove == old(enemyCouldMove)
    {
      if p1.bullet.life {
        p1.bullet.Move();
        StrikeOne(kind, spot);
        Land(p1.bullet);
      }
    }

    /** Player 1's bullet against the enemy bullets, then the enemy groups. */
    method StrikeOne(kind: FoodKind, spot: FoodSpot)
      requires Valid()
      modifies this, Squad(), prop, p1.bullet, enemyBullets
      ensures Valid()
      ensures (forall e | e in enemies :: e in old(enemies)) && enemyNumber <= old(enemyNumber)
      ensures p1.bullet.rect == old(p1.bullet.rect) && p1.bullet.strong == old(p1.bullet.strong)
      ensures board == old(board) && prop == old(prop) && p1 == old(p1) && p2 == old(p2)
      ensures moving == old(moving) && movdir == old(movdir) && moving2 == old(moving2) && movdir2 == old(movdir2)
      ensures enemyCouldMove == old(enemyCouldMove) && homeSurvive == old(homeSurvive) && gameOver == old(gameOver)
    {
      ClashOne();
      ShootEnemiesOne(kind, spot);
    }

    /** A player's bullet against the map, then the base. */
    method Land(b: Bullet)
      requires Valid() && (b == p1.bullet || (p2 != null && b == p2.bullet))
      modifies this, board, b
      ensures Valid()
      ensures var brick := HitsTile(old(b.rect), old(board.bricks));
        var r := if brick then Parked(old(b.rect)) else old(b.rect);
        var iron := HitsTile(r, old(board.irons));
        var landed := if brick || iron then Parked(old(b.rect)) else old(b.rect);
        var home := old(homeSurvive) && landed.Collides(Home);
        board.bricks == Unhit(old(board.bricks), old(b.rect)) &&
        board.irons == (if old(b.strong) then Unhit(old(board.irons), r) else old(board.irons)) &&
        b.rect == landed && b.life == (old(b.life) && !brick && !iron && !home) &&
        homeSurvive == (old(homeSurvive) && !home) && gameOver == (old(gameOver) || home)
      ensures (forall c | c in board.bricks :: c in old(board.bricks)) && (forall c | c in board.irons :: c in old(board.irons))
      ensures (homeSurvive ==> old(homeSurvive)) && (gameOver <==> old(gameOver) || (old(homeSurvive) && !homeSurvive))
      ensures board == old(board) && prop == old(prop) && p1 == old(p1) && p2 == old(p2)
      ensures enemies == old(enemies) && enemyBullets == old(enemyBullets) && enemyNumber == old(enemyNumber)
      ensures moving == old(moving) && movdir == old(movdir) && moving2 == old(moving2) && movdir2 == old(movdir2)
      ensures enemyCouldMove == old(enemyCouldMove)
    {
      PlayerTiles(board, b);
      HomeHit(b);
    }

    /**
     * Player 2's bullet, in a two-player round and if it is alive: it moves,
     * kills every enemy of any group it overlaps, taking one off the counter,
     * then meets the map and the base. It does not meet the enemy bullets.
     */
    method ResolveTwo()
      requires Valid()
      modifies this, board, if p2 != null then {p2.bullet} else {}
      ensures Valid() && Wears()
      ensures p2 == null || !old(p2.bullet.life) ==>
        enemies == old(enemies) && enemyNumber == old(enemyNumber) &&
        board.bricks == old(board.bricks) && board.irons == old(board.irons) &&
        homeSurvive == old(homeSurvive) && gameOver == old(gameOver)
      ensures board == old(board) && prop == old(prop) && p1 == old(p1) && p2 == old(p2) && enemyBullets == old(enemyBullets)
      ensures moving == old(moving) && movdir == old(movdir) && moving2 == old(moving2) && movdir2 == old(movdir2)
      ensures enemyCouldMove == old(enemyCouldMove)
    {
      if p2 != null && p2.bullet.life {
        p2.bullet.Move();
        StrikeTwo();
        Land(p2.bullet);
      }
    }

    /** Player 2's bullet against allEnemyGroup: every enemy it overlaps is killed, one off the counter, and the bullet ends. */
    method StrikeTwo()
      requires Valid() && p2 != null
      modifies this, p2.bullet
      ensures Valid()
      ensures old(Overlapping(enemies, p2.bullet.rect)) != {} ==>
        enemies == Remove(old(enemies), old(Overlapping(enemies, p2.bullet.rect))) &&
        enemyNumber == old(enemyNumber) - 1 && !p2.bullet.life
      ensures old(Overlapping(enemies, p2.bullet.rect)) == {} ==>
        enemies == old(enemies) && enemyNumber == old(enemyNumber) && p2.bullet.life == old(p2.bullet.life)
      ensures forall e | e in enemies :: e in old(enemies)
      ensures p2.bullet.rect == old(p2.bullet.rect) && p2.bullet.strong == old(p2.bullet.strong) && p2.bullet.speed == old(p2.bullet.speed)
      ensures board == old(board) && prop == old(prop) && p1 == old(p1) && p2 == old(p2) && enemyBullets == old(enemyBullets)
      ensures moving == old(moving) && movdir == old(movdir) && moving2 == old(moving2) && movdir2 == old(movdir2)
      ensures enemyCouldMove == old(enemyCouldMove) && homeSurvive == old(homeSurvive) && gameOver == old(gameOver)
    {
      var hit := Overlapping(enemies, p2.bullet.rect);
      if hit != {} {
        KillOne(hit);
        p2.bullet.life := false;
      }
    }

    /**
     * The first test of the enemy-bullet loop: while enemies may move, an
     * enemy whose bullet is dead and who is not cooling down fires again,
     * its bullet re-enters enemyBulletGroup, and it starts cooling down.
     */
    method Reload(e: EnemyTank)
      requires Valid() && e in enemies
      modifies this, e, e.bullet
      ensures Valid()
      ensures old(!e.bullet.life && e.bulletNotCooling && enemyCouldMove) ==>
        e.bullet.life && e.bullet.dirX == e.dirX && e.bullet.dirY == e.dirY &&
        e.bullet.rect == Muzzle(e.rect, e.dirX, e.dirY, old(e.bullet.rect)) &&
        !e.bulletNotCooling && enemyBullets == old(enemyBullets) + {e.bullet}
      ensures !old(!e.bullet.life && e.bulletNotCooling && enemyCouldMove) ==>
        e.bullet.life == old(e.bullet.life) && e.bullet.rect == old(e.bullet.rect) &&
        e.bullet.dirX == old(e.bullet.dirX) && e.bullet.dirY == old(e.bullet.dirY) &&
        e.bulletNotCooling == old(e.bulletNotCooling) && enemyBullets == old(enemyBullets)
      ensures e.rect == old(e.rect) && e.dirX == old(e.dirX) && e.dirY == old(e.dirY) && e.life == old(e.life) &&
        e.flash == old(e.flash) && e.times == old(e.times) && e.sheet == old(e.sheet)
      ensures board == old(board) && prop == old(prop) && p1 == old(p1) && p2 == old(p2)
      ensures enemies == old(enemies) && enemyNumber == old(enemyNumber)
      ensures moving == old(moving) && movdir == old(movdir) && moving2 == old(moving2) && movdir2 == old(movdir2)
      ensures enemyCouldMove == old(enemyCouldMove) && homeSurvive == old(homeSurvive) && gameOver == old(gameOver)
    {
      if !e.bullet.life && e.bulletNotCooling && enemyCouldMove {
        enemyBullets := enemyBullets - {e.bullet};
        e.Shoot();
        enemyBullets := enemyBullets + {e.bullet};
        e.bulletNotCooling := false;
      }
    }

    /**
     * An enemy bullet against the players, alive or not: over player 1, the
     * tank goes back to its spawn with its committed move cancelled and its
     * level lost, and the bullet dies; over player 2, in a two-player round,
     * the tank goes back to its spawn and the bullet dies. No life is lost.
     */
    method HitPlayers(b: Bullet)
      requires Valid() && b in Magazine()
      modifies this, b, Crews()
      ensures Valid()
      ensures old(b.rect.Collides(p1.rect)) ==>
        p1.rect == SpawnOne && moving == 0 && p1.level == 0 && !b.life && p1.bullet.speed == 6 && !p1.bullet.strong
      ensures !old(b.rect.Collides(p1.rect)) ==>
        p1.rect == old(p1.rect) && moving == old(moving) && p1.level == old(p1.level) &&
        p1.bullet.speed == old(p1.bullet.speed) && p1.bullet.strong == old(p1.bullet.strong)
      ensures p1.speed == old(p1.speed) && p1.dirX == old(p1.dirX) && p1.dirY == old(p1.dirY) && p1.bulletNotCooling == old(p1.bulletNotCooling)
      ensures p2 != null && old(b.rect.Collides(p2.rect)) ==> p2.rect == SpawnTwo && !b.life
      ensures p2 != null && !old(b.rect.Collides(p2.rect)) ==> p2.rect == old(p2.rect)
      ensures !old(b.rect.Collides(p1.rect)) && !(p2 != null && old(b.rect.Collides(p2.rect))) ==> b.life == old(b.life)
      ensures b.rect == old(b.rect) && b.dirX == old(b.dirX) && b.dirY == old(b.dirY) && b.speed == old(b.speed) && b.strong == old(b.strong)
      ensures p1.life == old(p1.life) && p1.bullet.life == old(p1.bullet.life) && p1.bullet.rect == old(p1.bullet.rect)
      ensures p2 != null ==> p2.life == old(p2.life) && p2.level == old(p2.level) && p2.speed == old(p2.speed)
      ensures p2 != null ==> p2.dirX == old(p2.dirX) && p2.dirY == old(p2.dirY) && p2.bulletNotCooling == old(p2.bulletNotCooling)
      ensures board == old(board) && prop == old(prop) && p1 == old(p1) && p2 == old(p2)
      ensures p2 != null ==> unchanged(p2.bullet)
      ensures enemies == old(enemies) && enemyBullets == old(enemyBullets) && enemyNumber == old(enemyNumber)
      ensures movdir == old(movdir) && moving2 == old(moving2) && movdir2 == old(movdir2)
      ensures enemyCouldMove == old(enemyCouldMove) && homeSurvive == old(homeSurvive) && gameOver == old(gameOver)
    {
      HitOne(b);
      if p2 != null {
        HitTwo(b);
      }
    }

    /** An enemy bullet over player 1: back to the spawn, no committed move, level 0; the bullet dies. */
    method HitOne(b: Bullet)
      requires Valid() && b in Magazine()
      modifies this, b, p1, p1.bullet
      ensures Valid()
      ensures old(b.rect.Collides(p1.rect)) ==>
        p1.rect == SpawnOne && moving == 0 && p1.level == 0 && !b.life && p1.bullet.speed == 6 && !p1.bullet.strong
      ensures !old(b.rect.Collides(p1.rect)) ==>
        p1.rect == old(p1.rect) && moving == old(moving) && p1.level == old(p1.level) && b.life == old(b.life) &&
        p1.bullet.speed == old(p1.bullet.speed) && p1.bullet.strong == old(p1.bullet.strong)
      ensures b.rect == old(b.rect) && b.dirX == old(b.dirX) && b.dirY == old(b.dirY) && b.speed == old(b.speed) && b.strong == old(b.strong)
      ensures p1.life == old(p1.life) && p1.bullet.life == old(p1.bullet.life) && p1.bullet.rect == old(p1.bullet.rect)
      ensures p1.speed == old(p1.speed) && p1.dirX == old(p1.dirX) && p1.dirY == old(p1.dirY) && p1.bulletNotCooling == old(p1.bulletNotCooling)
      ensures board == old(board) && prop == old(prop) && p1 == old(p1) && p2 == old(p2)
      ensures enemies == old(enemies) && enemyBullets == old(enemyBullets) && enemyNumber == old(enemyNumber)
      ensures movdir == old(movdir) && moving2 == old(moving2) && movdir2 == old(movdir2)
      ensures enemyCouldMove == old(enemyCouldMove) && homeSurvive == old(homeSurvive) && gameOver == old(gameOver)
    {
      if b.rect.Collides(p1.rect) {
        p1.rect := p1.rect.(left := 3 + 8 * 24, top := 3 + 24 * 24);
        b.life := false;
        moving := 0;
        Demote(p1);
      }
    }

    /** An enemy bullet over player 2: back to the spawn; the bullet dies. */
    method HitTwo(b: Bullet)
      requires Valid() && b in Magazine() && p2 != null
      modifies p2, b
      ensures Valid()
      ensures old(b.rect.Collides(p2.rect)) ==> p2.rect == SpawnTwo && !b.life
      ensures !old(b.rect.Collides(p2.rect)) ==> p2.rect == old(p2.rect) && b.life == old(b.life)
      ensures b.rect == old(b.rect) && b.dirX == old(b.dirX) && b.dirY == old(b.dirY) && b.speed == old(b.speed) && b.strong == old(b.strong)
      ensures p2.life == old(p2.life) && p2.level == old(p2.level) && p2.speed == old(p2.speed)
      ensures p2.dirX == old(p2.dirX) && p2.dirY == old(p2.dirY) && p2.bulletNotCooling == old(p2.bulletNotCooling)
      ensures unchanged(p2.bullet)
    {
      if b.rect.Collides(p2.rect) {
        p2.rect := p2.rect.(left := 3 + 16 * 24, top := 3 + 24 * 24);
        b.life := false;
      }
    }

    /**
     * The rest of the enemy-bullet loop for one enemy: once it has appeared
     * and while its bullet is alive, the bullet moves if enemies may move,
     * then meets the players, the map and the base.
     */
    method FlyEnemy(e: EnemyTank)
      requires Valid() && e in enemies
      modifies this, board, Crews(), e.bullet
      ensures Valid()
      ensures (forall c | c in board.bricks :: c in old(board.bricks)) && board.irons == old(board.irons)
      ensures (homeSurvive ==> old(homeSurvive)) && (gameOver <==> old(gameOver) || (old(homeSurvive) && !homeSurvive))
      ensures !old(e.flash && e.bullet.life) ==>
        board.bricks == old(board.bricks) && homeSurvive == old(homeSurvive) && gameOver == old(gameOver) &&
        p1.rect == old(p1.rect) && p1.level == old(p1.level) && moving == old(moving) &&
        (p2 != null ==> p2.rect == old(p2.rect)) &&
        e.bullet.life == old(e.bullet.life) && e.bullet.rect == old(e.bullet.rect)
      ensures !enemyCouldMove ==> e.bullet.rect == old(e.bullet.rect)
      ensures (p1.rect == old(p1.rect) || p1.rect == SpawnOne) && (p1.level == old(p1.level) || p1.level == 0)
      ensures (moving == old(moving) || moving == 0) && p1.life == old(p1.life)
      ensures p2 != null ==> (p2.rect == old(p2.rect) || p2.rect == SpawnTwo) && p2.life == old(p2.life)
      ensures e.bullet.dirX == old(e.bullet.dirX) && e.bullet.dirY == old(e.bullet.dirY)
      ensures p1.bullet.life == old(p1.bullet.life) && p1.bullet.rect == old(p1.bullet.rect)
      ensures board == old(board) && prop == old(prop) && p1 == old(p1) && p2 == old(p2)
      ensures enemies == old(enemies) && enemyBullets == old(enemyBullets) && enemyNumber == old(enemyNumber)
      ensures movdir == old(movdir) && moving2 == old(moving2) && movdir2 == old(movdir2) && enemyCouldMove == old(enemyCouldMove)
    {
      if e.flash && e.bullet.life {
        if enemyCouldMove {
          e.bullet.Move();
        }
        Impact(e.bullet);
      }
    }

    /** An enemy bullet, moved or not, against the players, then the map and the base. */
    method Impact(b: Bullet)
      requires Valid() && b in Magazine()
      modifies this, board, Crews(), b
      ensures Valid()
      ensures (forall c | c in board.bricks :: c in old(board.bricks)) && board.irons == old(board.irons)
      ensures (homeSurvive ==> old(homeSurvive)) && (gameOver <==> old(gameOver) || (old(homeSurvive) && !homeSurvive))
      ensures (p1.rect == old(p1.rect) || p1.rect == SpawnOne) && (p1.level == old(p1.level) || p1.level == 0)
      ensures (moving == old(moving) || moving == 0) && p1.life == old(p1.life)
      ensures p2 != null ==> (p2.rect == old(p2.rect) || p2.rect == SpawnTwo) && p2.life == old(p2.life)
      ensures b.rect == old(b.rect) && b.dirX == old(b.dirX) && b.dirY == old(b.dirY)
      ensures p1.bullet.life == old(p1.bullet.life) && p1.bullet.rect == old(p1.bullet.rect)
      ensures board == old(board) && prop == old(prop) && p1 == old(p1) && p2 == old(p2)
      ensures enemies == old(enemies) && enemyBullets == old(enemyBullets) && enemyNumber == old(enemyNumber)
      ensures movdir == old(movdir) && moving2 == old(moving2) && movdir2 == old(movdir2) && enemyCouldMove == old(enemyCouldMove)
    {
      HitPlayers(b);
      LandEnemy(b);
    }

    /** An enemy bullet against the map, then the base. */
    method LandEnemy(b: Bullet)
      requires Valid() && b in Magazine()
      modifies this, board, b
      ensures Valid()
      ensures board.bricks == Unhit(old(board.bricks), old(b.rect))
      ensures var home := old(homeSurvive) && old(b.rect).Collides(Home);
        b.life == (old(b.life) && !HitsTile(old(b.rect), old(board.bricks)) && !HitsTile(old(b.rect), old(board.irons)) && !home) &&
        homeSurvive == (old(homeSurvive) && !home) && gameOver == (old(gameOver) || home)
      ensures (forall c | c in board.bricks :: c in old(board.bricks)) && board.irons == old(board.irons)
      ensures (homeSurvive ==> old(homeSurvive)) && (gameOver <==> old(gameOver) || (old(homeSurvive) && !homeSurvive))
      ensures b.rect == old(b.rect) && b.dirX == old(b.dirX) && b.dirY == old(b.dirY)
      ensures board == old(board) && prop == old(prop) && p1 == old(p1) && p2 == old(p2)
      ensures enemies == old(enemies) && enemyBullets == old(enemyBullets) && enemyNumber == old(enemyNumber)
      ensures moving == old(moving) && movdir == old(movdir) && moving2 == old(moving2) && movdir2 == old(movdir2)
      ensures enemyCouldMove == old(enemyCouldMove)
    {
      EnemyTiles(board, b);
      HomeHit(b);
    }

    /**
     * The enemy-bullet loop over allEnemyGroup: each enemy may fire again,
     * then its bullet flies. No enemy moves or leaves, the counter stays,
     * tiles only go, the base only falls, a player hit goes back to its
     * spawn; an enemy only starts cooling down, and while enemies are frozen
     * no enemy bullet fires or moves.
     */
    method EnemyFire()
      requires Valid()
      modifies this, board, Crews(), Squad(), Magazine()
      ensures Valid()
      ensures enemies == old(enemies) && enemyNumber == old(enemyNumber)
      ensures (forall c | c in board.bricks :: c in old(board.bricks)) && board.irons == old(board.irons)
      ensures (homeSurvive ==> old(homeSurvive)) && (gameOver <==> old(gameOver) || (old(homeSurvive) && !homeSurvive))
      ensures (p1.rect == old(p1.rect) || p1.rect == SpawnOne) && (p1.level == old(p1.level) || p1.level == 0)
      ensures (moving == old(moving) || moving == 0) && p1.life == old(p1.life)
      ensures p2 != null ==> (p2.rect == old(p2.rect) || p2.rect == SpawnTwo) && p2.life == old(p2.life)
      ensures forall e | e in enemies :: e.rect == old(e.rect) && e.life == old(e.life) && (e.bulletNotCooling ==> old(e.bulletNotCooling))
      ensures !enemyCouldMove ==> forall e | e in enemies ::
        e.bullet.rect == old(e.bullet.rect) && e.bulletNotCooling == old(e.bulletNotCooling)
      ensures board == old(board) && prop == old(prop) && p1 == old(p1) && p2 == old(p2)
      ensures movdir == old(movdir) && moving2 == old(moving2) && movdir2 == old(movdir2) && enemyCouldMove == old(enemyCouldMove)
    {
      var all := enemies;
      for i := 0 to |all|
        invariant Valid()
        invariant enemies == all == old(enemies) && enemyNumber == old(enemyNumber)
        invariant (forall c | c in board.bricks :: c in old(board.bricks)) && board.irons == old(board.irons)
        invariant (homeSurvive ==> old(homeSurvive)) && (gameOver <==> old(gameOver) || (old(homeSurvive) && !homeSurvive))
        invariant (p1.rect == old(p1.rect) || p1.rect == SpawnOne) && (p1.level == old(p1.level) || p1.level == 0)
        invariant (moving == old(moving) || moving == 0) && p1.life == old(p1.life)
        invariant p2 != null ==> (p2.rect == old(p2.rect) || p2.rect == SpawnTwo) && p2.life == old(p2.life)
        invariant forall e | e in enemies :: e.rect == old(e.rect) && e.life == old(e.life) && (e.bulletNotCooling ==> old(e.bulletNotCooling))
        invariant !enemyCouldMove ==> forall e | e in enemies ::
          e.bullet.rect == old(e.bullet.rect) && e.bulletNotCooling == old(e.bulletNotCooling)
        invariant board == old(board) && prop == old(prop) && p1 == old(p1) && p2 == old(p2)
        invariant movdir == old(movdir) && moving2 == old(moving2) && movdir2 == old(movdir2) && enemyCouldMove == old(enemyCouldMove)
      {
        Serve(all[i]);
      }
    }

    /** One pass of the enemy-bullet loop: the enemy may fire again, then its bullet flies. */
    method Serve(e: EnemyTank)
      requires Valid() && e in enemies
      modifies this, board, Crews(), e, e.bullet
      ensures Valid()
      ensures enemies == old(enemies) && enemyNumber == old(enemyNumber)
      ensures (forall c | c in board.bricks :: c in old(board.bricks)) && board.irons == old(board.irons)
      ensures (homeSurvive ==> old(homeSurvive)) && (gameOver <==> old(gameOver) || (old(homeSurvive) && !homeSurvive))
      ensures (p1.rect == old(p1.rect) || p1.rect == SpawnOne) && (p1.level == old(p1.level) || p1.level == 0)
      ensures (moving == old(moving) || moving == 0) && p1.life == old(p1.life)
      ensures p2 != null ==> (p2.rect == old(p2.rect) || p2.rect == SpawnTwo) && p2.life == old(p2.life)
      ensures forall f | f in enemies :: f.rect == old(f.rect) && f.life == old(f.life) && (f.bulletNotCooling ==> old(f.bulletNotCooling))
      ensures !enemyCouldMove ==> forall f | f in enemies ::
        f.bullet.rect == old(f.bullet.rect) && f.bulletNotCooling == old(f.bulletNotCooling)
      ensures board == old(board) && prop == old(prop) && p1 == old(p1) && p2 == old(p2)
      ensures movdir == old(movdir) && moving2 == old(moving2) && movdir2 == old(movdir2) && enemyCouldMove == old(enemyCouldMove)
    {
      Reload(e);
      FlyEnemy(e);
    }

    /**
     * The bomb: for each enemy of allEnemyGroup's snapshot, every enemy
     * still in the group that its box overlaps is killed, one off the
     * counter for each such kill. Every enemy overlaps itself, so the field
     * ends empty.
     */
    method ClearEnemies()
      requires Valid()
      modifies this
      ensures Valid() && enemies == []
      ensures enemyNumber == old(enemyNumber - Sweep(enemies, enemies))
      ensures board == old(board) && prop == old(prop) && p1 == old(p1) && p2 == old(p2) && enemyBullets == old(enemyBullets)
      ensures moving == old(moving) && movdir == old(movdir) && moving2 == old(moving2) && movdir2 == old(movdir2)
      ensures enemyCouldMove == old(enemyCouldMove) && homeSurvive == old(homeSurvive) && gameOver == old(gameOver)
    {
      var alive, loss := Bombard(enemies);
      SweepBounds(enemies, enemies);
      enemies := alive;
      enemyNumber := enemyNumber - loss;
    }

    /**
     * Player 1 picks up the power-up on the field: the bomb clears the
     * field, the clock freezes the enemies, the gun makes player 1's bullet
     * strong, the shovel walls the base with iron, the helmet does nothing
     * here, the star raises player 1's level, the tank adds a life; the
     * power-up leaves the field.
     */
    method CollectProp()
      requires Valid()
      modifies this, prop, p1, p1.bullet, board
      ensures Valid()
      ensures var got := old(prop.life && p1.rect.Collides(prop.rect));
        (got ==> !prop.life) && (!got ==> prop.life == old(prop.life))
      ensures var kind := if old(prop.life && p1.rect.Collides(prop.rect)) then prop.kind else 0;
        (kind == 1 ==> enemies == [] && enemyNumber == old(enemyNumber - Sweep(enemies, enemies))) &&
        (kind != 1 ==> enemies == old(enemies) && enemyNumber == old(enemyNumber)) &&
        enemyCouldMove == (old(enemyCouldMove) && kind != 2) &&
        p1.bullet.strong == (old(p1.bullet.strong) || kind == 3) &&
        board.irons == old(board.irons) + (if kind == 4 then X0Y0 else []) &&
        p1.level == (if kind == 6 then Raised(old(p1.level)) else old(p1.level)) &&
        p1.life == old(p1.life) + (if kind == 7 then 1 else 0)
      ensures board.bricks == old(board.bricks) && p1.rect == old(p1.rect) && p1.bullet.speed == old(p1.bullet.speed)
      ensures p1.speed == old(p1.speed) && p1.dirX == old(p1.dirX) && p1.dirY == old(p1.dirY) && p1.bulletNotCooling == old(p1.bulletNotCooling)
      ensures p1.bullet.life == old(p1.bullet.life) && p1.bullet.rect == old(p1.bullet.rect) && p1.bullet.sprite == old(p1.bullet.sprite)
      ensures p1.bullet.dirX == old(p1.bullet.dirX) && p1.bullet.dirY == old(p1.bullet.dirY)
      ensures prop.kind == old(prop.kind) && prop.rect == old(prop.rect)
      ensures board == old(board) && prop == old(prop) && p1 == old(p1) && p2 == old(p2) && enemyBullets == old(enemyBullets)
      ensures moving == old(moving) && movdir == old(movdir) && moving2 == old(moving2) && movdir2 == old(movdir2)
      ensures homeSurvive == old(homeSurvive) && gameOver == old(gameOver)
    {
      if prop.life && p1.rect.Collides(prop.rect) {
        if prop.kind == 1 {
          ClearEnemies();
        } else {
          ApplyProp(prop.kind);
        }
        prop.life := false;
      }
    }

    /** The power-ups other than the bomb, by kind. */
    method ApplyProp(kind: int)
      requires Valid() && kind != 1
      modifies this, p1, p1.bullet, board
      ensures Valid()
      ensures enemyCouldMove == (old(enemyCouldMove) && kind != 2)
      ensures p1.bullet.strong == (old(p1.bullet.strong) || kind == 3)
      ensures board.irons == old(board.irons) + (if kind == 4 then X0Y0 else [])
      ensures p1.level == (if kind == 6 then Raised(old(p1.level)) else old(p1.level))
      ensures p1.life == old(p1.life) + (if kind == 7 then 1 else 0)
      ensures board.bricks == old(board.bricks) && p1.rect == old(p1.rect) && p1.bullet.speed == old(p1.bullet.speed)
      ensures p1.speed == old(p1.speed) && p1.dirX == old(p1.dirX) && p1.dirY == old(p1.dirY) && p1.bulletNotCooling == old(p1.bulletNotCooling)
      ensures p1.bullet.life == old(p1.bullet.life) && p1.bullet.rect == old(p1.bullet.rect) && p1.bullet.sprite == old(p1.bullet.sprite)
      ensures p1.bullet.dirX == old(p1.bullet.dirX) && p1.bullet.dirY == old(p1.bullet.dirY)
      ensures board == old(board) && prop == old(prop) && p1 == old(p1) && p2 == old(p2) && enemyBullets == old(enemyBullets)
      ensures enemies == old(enemies) && enemyNumber == old(enemyNumber)
      ensures moving == old(moving) && movdir == old(movdir) && moving2 == old(moving2) && movdir2 == old(movdir2)
      ensures homeSurvive == old(homeSurvive) && gameOver == old(gameOver)
    {
      if kind == 2 {
        enemyCouldMove := false;
      } else if kind == 3 {
        p1.bullet.strong := true;
      } else if kind == 4 {
        board.PlaceIrons(X0Y0);
      } else if kind == 6 {
        p1.LevelUp();
      } else if kind == 7 {
        p1.life := p1.life + 1;
      }
    }

    // -------------------------------------------------------------------------
    // The frame

    /** The keyboard part of a tick: player 1 moves and fires, then player 2 if there is one. */
    method Steer(keys: Held)
      requires Valid() && !gameOver
      modifies this, Crews()
      ensures Valid() && !gameOver && homeSurvive
      ensures board == old(board) && board.bricks == old(board.bricks) && prop == old(prop) && p1 == old(p1) && p2 == old(p2)
      ensures enemies == old(enemies) && enemyBullets == old(enemyBullets) && enemyNumber == old(enemyNumber)
    {
      MoveOne(keys);
      FireOne(keys);
      if p2 != null {
        MoveTwo(keys);
        FireTwo(keys);
      }
    }

    /**
     * The body of the main loop once the events are handled, while the
     * round is on: the players steer, the enemies move, the bullets fly and
     * the power-up is collected. Enemies only leave, the counter only falls,
     * bricks only break, and the round is over after the tick exactly when
     * the base has fallen in it.
     */
    method Play(keys: Held, turns: nat -> Turn, kind: FoodKind, spot: FoodSpot)
      requires Valid() && !gameOver
      modifies Footprint()
      ensures Valid()
      ensures (forall e | e in enemies :: e in old(enemies)) && enemyNumber <= old(enemyNumber)
      ensures forall c | c in board.bricks :: c in old(board.bricks)
      ensures gameOver <==> !homeSurvive
      ensures board == old(board) && p1 == old(p1) && p2 == old(p2)
    {
      Steer(keys);
      AnimateEnemies(turns);
      Volley(kind, spot);
    }

    /** Everything in a tick after the tanks have moved: the bullets fly and the power-up is collected. */
    method Volley(kind: FoodKind, spot: FoodSpot)
      requires Valid() && !gameOver
      modifies Footprint()
      ensures Valid()
      ensures (forall e | e in enemies :: e in old(enemies)) && enemyNumber <= old(enemyNumber)
      ensures forall c | c in board.bricks :: c in old(board.bricks)
      ensures gameOver <==> !homeSurvive
      ensures board == old(board) && p1 == old(p1) && p2 == old(p2)
    {
      PlayerShots(kind, spot);
      EnemyFire();
      CollectProp();
    }

    /** The players' bullets fly, player 1's first. */
    method PlayerShots(kind: FoodKind, spot: FoodSpot)
      requires Valid() && !gameOver
      modifies this, Squad(), prop, board, p1.bullet, if p2 != null then {p2.bullet} else {}, enemyBullets
      ensures Valid() && (forall e | e in enemies :: e in old(enemies)) && enemyNumber <= old(enemyNumber)
      ensures forall c | c in board.bricks :: c in old(board.bricks)
      ensures gameOver <==> !homeSurvive
      ensures board == old(board) && prop == old(prop) && p1 == old(p1) && p2 == old(p2)
    {
      ResolveOne(kind, spot);
      ResolveTwo();
    }

    /**
     * One pass of the main loop: the events of the frame are handled, and
     * then, unless the round is over, the round is played for a tick.
     */
    method Tick(events: seq<Event>, keys: Held, turns: nat -> Turn, kind: FoodKind, spot: FoodSpot)
      requires Valid() && forall k | 0 <= k < |events| :: events[k].ForPlayerTwo() ==> twoPlayer
      modifies Footprint()
      ensures Valid()
      ensures old(gameOver) && (forall k | 0 <= k < |events| :: !events[k].IsReset()) ==> gameOver && Unmoved()
    {
      ghost var handled := ProcessEvents(events);
      if !gameOver {
        Play(keys, turns, kind, spot);
      }
    }
  }
}
