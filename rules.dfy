/**
 * The pure rules of a round inside `main()`: the inputs of a tick, the
 * committed-move counters of the two players, the appearance countdown, the
 * red / green / other enemy groups, and the removal of killed sprites.
 */
module Rules {
  import opened Geometry
  import opened Wall
  import opened Players
  import opened Enemies
  import opened Foods

  /** The base, Rect(3 + 12 * 24, 3 + 24 * 24, 48, 48). */
  const Home := Rect(3 + 12 * 24, 3 + 24 * 24, 48, 48)

  /** Where player 1 and player 2 are put back when an enemy bullet hits them. */
  const SpawnOne := TankBox(3 + 8 * 24, 3 + 24 * 24)
  const SpawnTwo := TankBox(3 + 16 * 24, 3 + 24 * 24)

  // ---------------------------------------------------------------------------
  // Inputs of a tick

  /** The three rolls of `EnemyTank()`: lane, kind and red flag. */
  datatype SpawnRoll = SpawnRoll(lane: Lane, kind: EnemyKind, red: bool)

  /** The rolls `reset_game` consumes: the new power-up's kind and spot, and the three enemies' rolls. */
  datatype ResetRolls = ResetRolls(foodKind: FoodKind, foodSpot: FoodSpot, first: SpawnRoll, second: SpawnRoll, third: SpawnRoll)

  /** The keys the event loop reacts to; R carries the rolls of the reset it may trigger. */
  datatype Key =
    | KeyE | KeyQ | Key3 | Key2 | Key1 | Key4
    | Pad1 | Pad2 | Pad3 | Pad4
    | KeyR(rolls: ResetRolls)
    | OtherKey
  {
    /** The keypad keys act on player 2. */
    predicate ForPlayerTwo() {
      this == Pad1 || this == Pad2 || this == Pad3 || this == Pad4
    }
  }

  /**
   * One event of the queue: the three cooldown / freeze timers, the spawn
   * timer (carrying the rolls of the candidate enemy), and a key press.
   */
  datatype Event =
    | MyBulletCooled
    | EnemyBulletsCooled
    | Thaw
    | Delay(roll: SpawnRoll)
    | KeyDown(key: Key)
    | OtherEvent
  {
    predicate IsReset() {
      KeyDown? && key.KeyR?
    }

    predicate ForPlayerTwo() {
      KeyDown? && key.ForPlayerTwo()
    }
  }

  /** The two direction rolls an enemy's `move` may take: after a margin fix and after a rollback. */
  datatype Turn = Turn(first: Heading, second: Heading)

  /** The keys held down during the tick (`pygame.key.get_pressed()`). */
  datatype Held = Held(w: bool, s: bool, a: bool, d: bool, j: bool,
                       up: bool, down: bool, left: bool, right: bool, pad0: bool)

  /** Player 1's movement keys in the order they are checked: W, S, A, D. */
  function IntentOne(k: Held): Option<Heading> {
    if k.w then Some(Up) else if k.s then Some(Down) else if k.a then Some(Left) else if k.d then Some(Right) else None
  }

  /** Player 2's movement keys in the order they are checked: the arrows up, down, left, right. */
  function IntentTwo(k: Held): Option<Heading> {
    if k.up then Some(Up) else if k.down then Some(Down) else if k.left then Some(Left) else if k.right then Some(Right) else None
  }

  // ---------------------------------------------------------------------------
  // Committed moves

  /** `movdir` of a heading: 0 up, 1 down, 2 left, 3 right. */
  function MovdirOf(h: Heading): int {
    match h
    case Up => 0
    case Down => 1
    case Left => 2
    case Right => 3
  }

  /** The heading a `movdir` value names, if it is one of 0..3. */
  function MovdirHeading(m: int): Option<Heading> {
    if m == 0 then Some(Up) else if m == 1 then Some(Down) else if m == 2 then Some(Left) else if m == 3 then Some(Right) else None
  }

  /** `movdir` and heading name each other. */
  lemma MovdirRoundTrip(h: Heading, m: int)
    ensures MovdirHeading(MovdirOf(h)) == Some(h)
    ensures MovdirHeading(m).Some? <==> 0 <= m <= 3
    ensures MovdirHeading(m).Some? ==> MovdirOf(MovdirHeading(m).value) == m
  {
  }

  /** A player's part of a tick: its box and facing, and its committed-move counter and direction. */
  datatype Drive = Drive(box: Rect, dirX: int, dirY: int, moving: int, movdir: int)

  /** One `move*` call on the drive: the box after PlayerStep, the tank faces `h`, and whether it was blocked. */
  function Attempt(d: Drive, h: Heading, speed: int, tanks: seq<Rect>, bricks: seq<Cell>, irons: seq<Cell>): (Drive, bool) {
    var (box, blocked) := PlayerStep(d.box, h, speed, tanks, bricks, irons);
    (d.(box := box, dirX := h.DX(), dirY := h.DY()), blocked)
  }

  /**
   * The first half of player 1's tick: a committed move steps on in its
   * direction and counts down, but a blocked step gives the count back.
   */
  function ContinueOne(d: Drive, speed: int, tanks: seq<Rect>, bricks: seq<Cell>, irons: seq<Cell>): Drive {
    if d.moving == 0 then d
    else if MovdirHeading(d.movdir).None? then d.(moving := d.moving - 1)
    else
      var (e, blocked) := Attempt(d.(moving := d.moving - 1), MovdirHeading(d.movdir).value, speed, tanks, bricks, irons);
      if blocked then e.(moving := e.moving + 1) else e
  }

  /**
   * The second half of player 1's tick: when the count is 0, a held key
   * starts a new move of 7 whose first step, if blocked, cancels it at once.
   */
  function StartOne(d: Drive, speed: int, key: Option<Heading>, tanks: seq<Rect>, bricks: seq<Cell>, irons: seq<Cell>): Drive {
    if d.moving != 0 || key.None? then d
    else
      var (e, blocked) := Attempt(d.(moving := 7, movdir := MovdirOf(key.value)), key.value, speed, tanks, bricks, irons);
      if blocked then e.(moving := 0) else e
  }

  /** Player 1's movement in a tick: both halves, the second reading the counter the first leaves. */
  function DriveOne(d: Drive, speed: int, key: Option<Heading>, tanks: seq<Rect>, bricks: seq<Cell>, irons: seq<Cell>): Drive {
    StartOne(ContinueOne(d, speed, tanks, bricks, irons), speed, key, tanks, bricks, irons)
  }

  /** The first half of player 2's tick: the same, except that a blocked step does not give the count back. */
  function ContinueTwo(d: Drive, speed: int, tanks: seq<Rect>, bricks: seq<Cell>, irons: seq<Cell>): Drive {
    if d.moving == 0 then d
    else if MovdirHeading(d.movdir).None? then d.(moving := d.moving - 1)
    else Attempt(d.(moving := d.moving - 1), MovdirHeading(d.movdir).value, speed, tanks, bricks, irons).0
  }

  /** The second half of player 2's tick: a new move is not cancelled by a blocked first step. */
  function StartTwo(d: Drive, speed: int, key: Option<Heading>, tanks: seq<Rect>, bricks: seq<Cell>, irons: seq<Cell>): Drive {
    if d.moving != 0 || key.None? then d
    else Attempt(d.(moving := 7, movdir := MovdirOf(key.value)), key.value, speed, tanks, bricks, irons).0
  }

  /** Player 2's movement in a tick. */
  function DriveTwo(d: Drive, speed: int, key: Option<Heading>, tanks: seq<Rect>, bricks: seq<Cell>, irons: seq<Cell>): Drive {
    StartTwo(ContinueTwo(d, speed, tanks, bricks, irons), speed, key, tanks, bricks, irons)
  }

  /** The counters stay in range: moving in 0..7, movdir in 0..3. */
  predicate InRange(d: Drive) {
    0 <= d.moving <= 7 && 0 <= d.movdir <= 3
  }

  /** Both drives keep the counters in range. */
  lemma DrivesInRange(d: Drive, speed: int, key: Option<Heading>, tanks: seq<Rect>, bricks: seq<Cell>, irons: seq<Cell>)
    requires InRange(d)
    ensures InRange(DriveOne(d, speed, key, tanks, bricks, irons))
    ensures InRange(DriveTwo(d, speed, key, tanks, bricks, irons))
  {
  }

  /**
   * Player 1, mid-move with more than one step left: the counter falls by
   * one exactly when the step goes through, and stays put exactly when it
   * is blocked; the key held is not read.
   */
  lemma DriveOneCountsSteps(d: Drive, speed: int, key: Option<Heading>, tanks: seq<Rect>, bricks: seq<Cell>, irons: seq<Cell>)
    requires InRange(d) && d.moving > 1
    ensures var h := MovdirHeading(d.movdir).value;
      var blocked := PlayerStep(d.box, h, speed, tanks, bricks, irons).1;
      var e := DriveOne(d, speed, key, tanks, bricks, irons);
      (e.moving == d.moving - 1 <==> !blocked) && (e.moving == d.moving <==> blocked) &&
      (blocked ==> e.box == d.box) && e.movdir == d.movdir &&
      e == DriveOne(d, speed, None, tanks, bricks, irons)
  {
  }

  /** A new move whose first step is blocked is cancelled: counter 0, box unchanged, facing the key's direction. */
  lemma DriveOneCancels(d: Drive, speed: int, h: Heading, tanks: seq<Rect>, bricks: seq<Cell>, irons: seq<Cell>)
    requires d.moving == 0 && PlayerStep(d.box, h, speed, tanks, bricks, irons).1
    ensures DriveOne(d, speed, Some(h), tanks, bricks, irons) == Drive(d.box, h.DX(), h.DY(), 0, MovdirOf(h))
  {
  }

  /** A new move whose first step goes through commits 7 ticks in that direction. */
  lemma DriveOneCommits(d: Drive, speed: int, h: Heading, tanks: seq<Rect>, bricks: seq<Cell>, irons: seq<Cell>)
    requires d.moving == 0 && !PlayerStep(d.box, h, speed, tanks, bricks, irons).1
    ensures var e := DriveOne(d, speed, Some(h), tanks, bricks, irons);
      e.moving == 7 && e.movdir == MovdirOf(h) && e.box == d.box.Move(speed * h.DX(), speed * h.DY())
  {
  }

  /** Player 1's drive over a run of ticks with the keys held in each. */
  function RunOne(d: Drive, speed: int, keys: seq<Option<Heading>>, tanks: seq<Rect>, bricks: seq<Cell>, irons: seq<Cell>): Drive
    decreases |keys|
  {
    if keys == [] then d else RunOne(DriveOne(d, speed, keys[0], tanks, bricks, irons), speed, keys[1..], tanks, bricks, irons)
  }

  /**
   * A committed move that runs into an obstacle holds player 1 in place for
   * as long as the obstacle stays: the counter never falls, so no key is
   * ever read again.
   */
  lemma {:induction false} DriveOneStuck(d: Drive, speed: int, keys: seq<Option<Heading>>, tanks: seq<Rect>, bricks: seq<Cell>, irons: seq<Cell>)
    requires InRange(d) && d.moving > 0
    requires var h := MovdirHeading(d.movdir).value;
      PlayerStep(d.box, h, speed, tanks, bricks, irons).1 && d.dirX == h.DX() && d.dirY == h.DY()
    ensures RunOne(d, speed, keys, tanks, bricks, irons) == d
    decreases |keys|
  {
    if keys != [] {
      assert DriveOne(d, speed, keys[0], tanks, bricks, irons) == d;
      DriveOneStuck(d, speed, keys[1..], tanks, bricks, irons);
    }
  }

  /** Player 2's drive over a run of ticks with the keys held in each. */
  function RunTwo(d: Drive, speed: int, keys: seq<Option<Heading>>, tanks: seq<Rect>, bricks: seq<Cell>, irons: seq<Cell>): Drive
    decreases |keys|
  {
    if keys == [] then d else RunTwo(DriveTwo(d, speed, keys[0], tanks, bricks, irons), speed, keys[1..], tanks, bricks, irons)
  }

  /**
   * Player 2's committed move always runs out: with no key held, the
   * counter falls by one every tick, blocked or not, down to 0.
   */
  lemma {:induction false} DriveTwoRunsOut(d: Drive, speed: int, keys: seq<Option<Heading>>, tanks: seq<Rect>, bricks: seq<Cell>, irons: seq<Cell>)
    requires InRange(d)
    requires forall k :: 0 <= k < |keys| ==> keys[k].None?
    ensures var e := RunTwo(d, speed, keys, tanks, bricks, irons);
      e.moving == (if |keys| < d.moving then d.moving - |keys| else 0) && e.movdir == d.movdir
    decreases |keys|
  {
    if keys != [] {
      DriveTwoRunsOut(DriveTwo(d, speed, keys[0], tanks, bricks, irons), speed, keys[1..], tanks, bricks, irons);
    }
  }

  // ---------------------------------------------------------------------------
  // Appearance countdown

  /**
   * One tick of the appearance animation of an enemy: a tank that has not
   * flashed counts `times` down to 0 and flashes when it gets there.
   */
  function Appear(times: int, flash: bool): (int, bool) {
    if flash then (times, flash)
    else
      var t := if times > 0 then times - 1 else times;
      (t, t == 0)
  }

  /** The countdown after `n` ticks. */
  function AppearFor(times: int, flash: bool, n: nat): (int, bool) {
    if n == 0 then (times, flash)
    else var (t, f) := AppearFor(times, flash, n - 1); Appear(t, f)
  }

  /** A new enemy (times 90, not flashed) flashes after exactly 90 ticks and then stays flashed. */
  lemma {:induction false} AppearanceLasts(n: nat)
    ensures AppearFor(90, false, n) == (if n < 90 then (90 - n, false) else (0, true))
  {
    if n > 0 {
      AppearanceLasts(n - 1);
    }
  }

  // ---------------------------------------------------------------------------
  // Enemy groups

  /** The three enemy groups: redEnemyGroup, greenEnemyGroup, otherEnemyGroup. */
  datatype Band = RedBand | GreenBand | OtherBand

  /** The group an enemy joins: red if it carries the power-up, else green if heavy, else other. */
  function BandOf(e: EnemyTank): Band {
    if e.isred then RedBand else if e.kind == 3 then GreenBand else OtherBand
  }

  /** The members of one group, in the order they joined. */
  function InBand(es: seq<EnemyTank>, b: Band): (g: seq<EnemyTank>)
    decreases |es|
  {
    if es == [] then []
    else InBand(es[..|es| - 1], b) + (if BandOf(es[|es| - 1]) == b then [es[|es| - 1]] else [])
  }

  /**
   * Every enemy is in exactly one of the three groups, the one BandOf
   * names; together the groups hold exactly the enemies, as many as there are.
   */
  lemma {:induction false} BandsPartition(es: seq<EnemyTank>, e: EnemyTank)
    ensures e in InBand(es, RedBand) <==> e in es && e.isred
    ensures e in InBand(es, GreenBand) <==> e in es && !e.isred && e.kind == 3
    ensures e in InBand(es, OtherBand) <==> e in es && !e.isred && e.kind != 3
    ensures |InBand(es, RedBand)| + |InBand(es, GreenBand)| + |InBand(es, OtherBand)| == |es|
    decreases |es|
  {
    if es != [] {
      BandsPartition(es[..|es| - 1], e);
      assert es == es[..|es| - 1] + [es[|es| - 1]];
    }
  }

  /** A group of distinct enemies holds each of its members once. */
  lemma {:induction false} InBandDistinct(es: seq<EnemyTank>, b: Band)
    requires Distinct(es)
    ensures Distinct(InBand(es, b))
    decreases |es|
  {
    if es != [] {
      var init, last := es[..|es| - 1], es[|es| - 1];
      assert Distinct(init);
      InBandDistinct(init, b);
      if BandOf(last) == b {
        BandsPartition(init, last);
        assert last !in init by {
          forall k | 0 <= k < |init| ensures init[k] != last {
            assert es[k] == init[k];
          }
        }
      }
    }
  }

  // ---------------------------------------------------------------------------
  // Killing sprites

  /** What is left of `s` once the members of `v` are killed (`kill` removes a sprite from every group). */
  function Remove<T(==)>(s: seq<T>, v: set<T>): seq<T>
    decreases |s|
  {
    if s == [] then [] else Remove(s[..|s| - 1], v) + (if s[|s| - 1] in v then [] else [s[|s| - 1]])
  }

  /** How many entries of `s` belong to `v`. */
  function Count<T(==)>(s: seq<T>, v: set<T>): nat
    decreases |s|
  {
    if s == [] then 0 else Count(s[..|s| - 1], v) + (if s[|s| - 1] in v then 1 else 0)
  }

  /** Killing keeps exactly the entries outside `v`, in order, and removes one entry per member hit. */
  lemma RemoveFacts<T>(s: seq<T>, v: set<T>, x: T)
    ensures x in Remove(s, v) <==> x in s && x !in v
    ensures |Remove(s, v)| + Count(s, v) == |s|
    ensures (x in s && x in v) ==> Count(s, v) > 0
    ensures Count(s, v) == 0 ==> Remove(s, v) == s
  {
    RemoveMember(s, v, x);
    RemoveLength(s, v);
  }

  /** An entry survives a kill exactly when it was there and is not in `v`; a member hit is counted. */
  lemma {:induction false} RemoveMember<T>(s: seq<T>, v: set<T>, x: T)
    ensures x in Remove(s, v) <==> x in s && x !in v
    ensures (x in s && x in v) ==> Count(s, v) > 0
    decreases |s|
  {
    if s != [] {
      RemoveMember(s[..|s| - 1], v, x);
      assert s == s[..|s| - 1] + [s[|s| - 1]];
    }
  }

  /** A kill shortens a group by the number of its members hit, and by nothing when none is. */
  lemma {:induction false} RemoveLength<T>(s: seq<T>, v: set<T>)
    ensures |Remove(s, v)| + Count(s, v) == |s|
    ensures Count(s, v) == 0 ==> Remove(s, v) == s
    decreases |s|
  {
    if s != [] {
      RemoveLength(s[..|s| - 1], v);
      assert s == s[..|s| - 1] + [s[|s| - 1]];
    }
  }

  /** Killing nobody leaves a group as it is. */
  lemma {:induction false} RemoveNothing<T>(s: seq<T>)
    ensures Count(s, {}) == 0 && Remove(s, {}) == s
    decreases |s|
  {
    if s != [] {
      RemoveNothing(s[..|s| - 1]);
      assert s == s[..|s| - 1] + [s[|s| - 1]];
    }
  }

  /** Killing keeps a group free of duplicates. */
  lemma {:induction false} RemoveDistinct<T>(s: seq<T>, v: set<T>)
    requires Distinct(s)
    ensures Distinct(Remove(s, v))
    decreases |s|
  {
    if s != [] {
      var init := s[..|s| - 1];
      assert Distinct(init);
      RemoveDistinct(init, v);
      if s[|s| - 1] !in v {
        RemoveFacts(init, v, s[|s| - 1]);
        assert s[|s| - 1] !in Remove(init, v);
      }
    }
  }

  /** Counting a smaller set, or within one group, counts no more. */
  lemma {:induction false} CountBounds(es: seq<EnemyTank>, v: set<EnemyTank>, w: set<EnemyTank>, b: Band)
    requires v <= w
    ensures Count(es, v) <= Count(es, w)
    ensures Count(InBand(es, b), v) <= Count(es, v)
    decreases |es|
  {
    if es != [] {
      var init := es[..|es| - 1];
      CountBounds(init, v, w, b);
      if BandOf(es[|es| - 1]) == b {
        assert (InBand(init, b) + [es[|es| - 1]])[..|InBand(init, b)|] == InBand(init, b);
      } else {
        assert InBand(es, b) == InBand(init, b) + [] == InBand(init, b);
      }
    }
  }

  /** Counting along a prefix: one more entry adds one exactly when it belongs to the set. */
  lemma CountPrefix<T>(s: seq<T>, v: set<T>, i: nat)
    requires i < |s|
    ensures Count(s[..i + 1], v) == Count(s[..i], v) + (if s[i] in v then 1 else 0)
  {
    assert s[..i + 1][..i] == s[..i];
  }

  /** A prefix counts no more than the whole sequence. */
  lemma {:induction false} CountPrefixBound<T>(s: seq<T>, v: set<T>, i: nat)
    requires i <= |s|
    ensures Count(s[..i], v) <= Count(s, v)
    decreases |s| - i
  {
    if i < |s| {
      CountPrefix(s, v, i);
      CountPrefixBound(s, v, i + 1);
    } else {
      assert s[..i] == s;
    }
  }

  /** The entries of a sequence, as a set. */
  ghost function Members<T>(s: seq<T>): set<T> {
    set x | x in s
  }

  /** In a sequence without duplicates, the count of a set is the number of its members that occur. */
  lemma {:induction false} CountDistinct<T>(s: seq<T>, v: set<T>)
    requires Distinct(s)
    ensures Count(s, v) == |v * Members(s)|
    decreases |s|
  {
    if s == [] {
      assert v * Members(s) == {};
    } else {
      var init, last := s[..|s| - 1], s[|s| - 1];
      SplitLast(s);
      CountDistinct(init, v);
      var before := v * Members(init);
      assert last !in before;
      if last in v {
        assert v * Members(s) == before + {last};
      } else {
        assert v * Members(s) == before;
      }
    }
  }

  /** Taking the last entry off a sequence without duplicates. */
  lemma SplitLast<T>(s: seq<T>)
    requires Distinct(s) && s != []
    ensures Distinct(s[..|s| - 1]) && s[|s| - 1] !in s[..|s| - 1]
    ensures Members(s) == Members(s[..|s| - 1]) + {s[|s| - 1]}
  {
    var init, last := s[..|s| - 1], s[|s| - 1];
    assert s == init + [last];
    forall k | 0 <= k < |init| ensures init[k] != last {
      assert s[k] == init[k];
    }
  }

  // ---------------------------------------------------------------------------
  // Boxes of the tanks

  /** The boxes of a sequence of enemies, in order. */
  function Boxes(es: seq<EnemyTank>): (bs: seq<Rect>)
    reads set e | e in es
    ensures |bs| == |es|
    ensures forall k :: 0 <= k < |es| ==> bs[k] == es[k].rect
    decreases |es|
  {
    if es == [] then [] else Boxes(es[..|es| - 1]) + [es[|es| - 1].rect]
  }

  /** The poses (box and direction) of a sequence of enemies, in order. */
  function Poses(es: seq<EnemyTank>): (ps: seq<Pose>)
    reads set e | e in es
    ensures |ps| == |es|
    ensures forall k :: 0 <= k < |es| ==> ps[k] == Pose(es[k].rect, es[k].dirX, es[k].dirY)
    decreases |es|
  {
    if es == [] then [] else Poses(es[..|es| - 1]) + [Pose(es[|es| - 1].rect, es[|es| - 1].dirX, es[|es| - 1].dirY)]
  }

  /** Which of a sequence of enemies have appeared (their `flash`), in order. */
  function Ready(es: seq<EnemyTank>): (rs: seq<bool>)
    reads set e | e in es
    ensures |rs| == |es|
    ensures forall k :: 0 <= k < |es| ==> rs[k] == es[k].flash
    decreases |es|
  {
    if es == [] then [] else Ready(es[..|es| - 1]) + [es[|es| - 1].flash]
  }

  /** The speeds of a sequence of enemies, in order. */
  function Speeds(es: seq<EnemyTank>): (ss: seq<int>)
    ensures |ss| == |es|
    ensures forall k :: 0 <= k < |es| ==> ss[k] == es[k].speed
    decreases |es|
  {
    if es == [] then [] else Speeds(es[..|es| - 1]) + [es[|es| - 1].speed]
  }

  /** The boxes of some poses, in order. */
  function Spots(ps: seq<Pose>): (bs: seq<Rect>)
    ensures |bs| == |ps|
    ensures forall k :: 0 <= k < |ps| ==> bs[k] == ps[k].box
    decreases |ps|
  {
    if ps == [] then [] else Spots(ps[..|ps| - 1]) + [ps[|ps| - 1].box]
  }

  /**
   * The enemies' moves of one tick, worked out on values: `from` holds the
   * poses before the tick, `ready` which tanks have appeared, `speeds` their
   * speeds. The first `n` tanks take their turns in order; tank k, if it has
   * appeared and enemies may move (`thawed`), makes the EnemyStep against
   * `players`, the tanks before it where they have moved to and the tanks
   * after it where they were; any other tank stays where it is.
   */
  function March(from: seq<Pose>, ready: seq<bool>, speeds: seq<int>, players: seq<Rect>, bricks: seq<Cell>, irons: seq<Cell>,
                 turns: nat -> Turn, thawed: bool, n: nat): (after: seq<Pose>)
    requires n <= |from| == |ready| == |speeds|
    ensures |after| == n
    decreases n
  {
    if n == 0 then []
    else
      var before := March(from, ready, speeds, players, bricks, irons, turns, thawed, n - 1);
      var k, p := n - 1, from[n - 1];
      before + [if ready[k] && thawed
                then EnemyStep(p.box, p.dirX, p.dirY, speeds[k], players + Spots(before) + Spots(from[n..]),
                               bricks, irons, turns(k).first, turns(k).second)
                else p]
  }

  /** Marching the first `m` tanks is the start of marching the first `n`: a tank's move does not depend on the ones after it. */
  lemma {:induction false} MarchPrefix(from: seq<Pose>, ready: seq<bool>, speeds: seq<int>, players: seq<Rect>,
                                       bricks: seq<Cell>, irons: seq<Cell>, turns: nat -> Turn, thawed: bool, m: nat, n: nat)
    requires m <= n <= |from| == |ready| == |speeds|
    ensures March(from, ready, speeds, players, bricks, irons, turns, thawed, n)[..m] ==
            March(from, ready, speeds, players, bricks, irons, turns, thawed, m)
    decreases n
  {
    if m < n {
      MarchPrefix(from, ready, speeds, players, bricks, irons, turns, thawed, m, n - 1);
      var shorter := March(from, ready, speeds, players, bricks, irons, turns, thawed, n - 1);
      assert March(from, ready, speeds, players, bricks, irons, turns, thawed, n)[..m] == shorter[..m];
    }
  }

  /**
   * Tank i's turn of the march, seen from the boxes on the field: once the
   * tanks before it stand where the march puts them (`before`), tank i's
   * place in the march is its EnemyStep against the players, those boxes and
   * the old boxes of the tanks after it, if it has appeared and enemies may
   * move, and its old pose otherwise.
   */
  lemma MarchTurn(from: seq<Pose>, ready: seq<bool>, speeds: seq<int>, players: seq<Rect>, bricks: seq<Cell>, irons: seq<Cell>,
                  turns: nat -> Turn, thawed: bool, i: nat, before: seq<Rect>)
    requires i < |from| == |ready| == |speeds| && |before| == i
    requires forall j | 0 <= j < i :: before[j] == March(from, ready, speeds, players, bricks, irons, turns, thawed, |from|)[j].box
    ensures March(from, ready, speeds, players, bricks, irons, turns, thawed, |from|)[i] ==
            if ready[i] && thawed
            then EnemyStep(from[i].box, from[i].dirX, from[i].dirY, speeds[i], players + before + Spots(from[i + 1..]),
                           bricks, irons, turns(i).first, turns(i).second)
            else from[i]
  {
    var marched := March(from, ready, speeds, players, bricks, irons, turns, thawed, |from|);
    var done := March(from, ready, speeds, players, bricks, irons, turns, thawed, i);
    MarchPrefix(from, ready, speeds, players, bricks, irons, turns, thawed, i, |from|);
    MarchPrefix(from, ready, speeds, players, bricks, irons, turns, thawed, i + 1, |from|);
    assert marched[..i] == done;
    assert Spots(done) == before;
    assert marched[i] == marched[..i + 1][i];
  }

  /** The enemies of one group whose boxes overlap `box`: what `spritecollide(sprite, group, ...)` finds. */
  function Struck(es: seq<EnemyTank>, box: Rect, band: Band): set<EnemyTank>
    reads set e | e in es
  {
    set e | e in es && BandOf(e) == band && box.Collides(e.rect)
  }

  /** The enemies of any group whose boxes overlap `box`. */
  function Overlapping(es: seq<EnemyTank>, box: Rect): set<EnemyTank>
    reads set e | e in es
  {
    set e | e in es && box.Collides(e.rect)
  }

  /** The struck heavy enemies that are down to their last hit point. */
  function Finished(es: seq<EnemyTank>, box: Rect): set<EnemyTank>
    reads set e | e in es
  {
    set e | e in es && BandOf(e) == GreenBand && box.Collides(e.rect) && e.life == 1
  }

  /** Hit points of a heavy enemy after a hit that does not kill it: 3 to 2, 2 to 1. */
  function Wounded(life: int): int {
    if life == 2 then 1 else if life == 3 then 2 else life
  }

  /** The sheet a heavy enemy shows after such a hit: enemy_3_0 at 1 left, enemy_3_2 at 2 left. */
  function WoundedSheet(life: int, sheet: EnemySheet): EnemySheet {
    if life == 2 then EnemySheet(3, 0) else if life == 3 then EnemySheet(3, 2) else sheet
  }

  // ---------------------------------------------------------------------------
  // The bomb power-up

  /** Killing keeps only entries that were there. */
  lemma RemoveSubset<T>(s: seq<T>, v: set<T>)
    ensures forall x | x in Remove(s, v) :: x in s && x !in v
  {
    forall x | x in Remove(s, v) ensures x in s && x !in v {
      RemoveFacts(s, v, x);
    }
  }

  /**
   * What the bomb costs the enemy counter: each enemy of the snapshot, in
   * order, kills every enemy still `alive` whose box overlaps its own, and
   * costs one when it killed someone.
   */
  ghost function Sweep(snapshot: seq<EnemyTank>, alive: seq<EnemyTank>): (loss: nat)
    reads set e | e in snapshot, set e | e in alive
    decreases |snapshot|
  {
    if snapshot == [] then 0
    else
      var kill := Overlapping(alive, snapshot[0].rect);
      RemoveSubset(alive, kill);
      (if kill != {} then 1 else 0) + Sweep(snapshot[1..], Remove(alive, kill))
  }

  /**
   * The bomb costs the counter at least one when the first enemy is still
   * alive with a solid box, since it overlaps itself, and never more than
   * the number of enemies it kills.
   */
  lemma {:induction false} SweepBounds(snapshot: seq<EnemyTank>, alive: seq<EnemyTank>)
    ensures Sweep(snapshot, alive) <= |alive|
    ensures snapshot != [] && snapshot[0] in alive && snapshot[0].rect.Solid() ==> Sweep(snapshot, alive) >= 1
    decreases |snapshot|
  {
    if snapshot != [] {
      var kill := Overlapping(alive, snapshot[0].rect);
      RemoveSubset(alive, kill);
      SweepBounds(snapshot[1..], Remove(alive, kill));
      if kill != {} {
        var x :| x in kill;
        assert x in alive;
        RemoveFacts(alive, kill, x);
      } else {
        RemoveFacts(alive, kill, snapshot[0]);
      }
      if snapshot[0] in alive && snapshot[0].rect.Solid() {
        assert snapshot[0] in kill;
      }
    }
  }

  /** Killing a set that holds the first entry and no other drops exactly the first entry. */
  lemma {:induction false} RemoveHead<T>(s: seq<T>, v: set<T>)
    requires s != [] && s[0] in v && forall k | 1 <= k < |s| :: s[k] !in v
    ensures Remove(s, v) == s[1..]
    decreases |s|
  {
    if |s| > 1 {
      RemoveHead(s[..|s| - 1], v);
      assert s[..|s| - 1][1..] + [s[|s| - 1]] == s[1..];
    }
  }

  /**
   * Enemies that are distinct, solid and pairwise apart each kill only
   * themselves: the bomb costs the counter one per enemy.
   */
  lemma {:induction false} SweepDisjoint(s: seq<EnemyTank>)
    requires Distinct(s) && forall k | 0 <= k < |s| :: s[k].rect.Solid()
    requires forall i, j | 0 <= i < |s| && 0 <= j < |s| && i != j :: !s[i].rect.Collides(s[j].rect)
    ensures Sweep(s, s) == |s|
    decreases |s|
  {
    if s != [] {
      var kill := Overlapping(s, s[0].rect);
      assert kill == {s[0]} by {
        forall e | e in kill ensures e == s[0] {
          var k :| 0 <= k < |s| && s[k] == e;
          assert k == 0;
        }
      }
      RemoveHead(s, kill);
      SweepDisjoint(s[1..]);
    }
  }

  /** Two enemies whose solid boxes overlap cost the bomb only one: the first kills both. */
  lemma SweepOverlap(a: EnemyTank, b: EnemyTank)
    requires a != b && a.rect.Solid() && b.rect.Solid() && a.rect.Collides(b.rect)
    ensures Sweep([a, b], [a, b]) == 1
  {
    var kill := Overlapping([a, b], a.rect);
    assert kill == {a, b};
    assert Remove([a, b], kill) == [] by {
      assert Remove([a, b], kill) == Remove([a], kill) + [];
      assert Remove([a], kill) == Remove([], kill) + [];
    }
    assert [a, b][1..] == [b];
    assert Sweep([b], []) == 0 by {
      assert Overlapping([], b.rect) == {};
      assert Remove([], Overlapping([], b.rect)) == [];
    }
  }

  /** Unfolding the sweep at position i of a snapshot. */
  lemma SweepStep(snapshot: seq<EnemyTank>, i: nat, alive: seq<EnemyTank>)
    requires i < |snapshot|
    ensures var kill := Overlapping(alive, snapshot[i].rect);
      Sweep(snapshot[i..], alive) == (if kill != {} then 1 else 0) + Sweep(snapshot[i + 1..], Remove(alive, kill))
  {
    assert snapshot[i..][0] == snapshot[i] && snapshot[i..][1..] == snapshot[i + 1..];
  }

  /** Once the i-th enemy of the snapshot is gone, the survivors all lie further on. */
  lemma StillAhead(snapshot: seq<EnemyTank>, i: nat, alive: seq<EnemyTank>)
    requires i < |snapshot| && snapshot[i] !in alive && forall e | e in alive :: e in snapshot[i..]
    ensures forall e | e in alive :: e in snapshot[i + 1..]
  {
    forall e | e in alive
      ensures e in snapshot[i + 1..]
    {
      var k :| 0 <= k < |snapshot[i..]| && snapshot[i..][k] == e;
      assert k != 0 && snapshot[i + 1..][k - 1] == e;
    }
  }

  /** A sequence whose members all lie in another is empty when that one is. */
  lemma NoneLeft<T>(s: seq<T>, t: seq<T>)
    requires forall x | x in s :: x in t
    ensures s != [] ==> t != []
  {
    if s != [] {
      assert s[0] in t;
    }
  }
}
