# Tank war: the rules engine of a round

This project models the game rules of tank-war, a two-player clone of the
classic tank-battle arcade game written with pygame. The model covers the
integer geometry of the 630 x 630 arena and its 3-pixel margin, the fixed map
of bricks and irons, the bullets, the player and enemy tanks, and the power-up.
It also covers the round that `main()` runs: the state `reset_game` builds,
and the work one pass of the main loop does on that state. That work is:

- handling the event queue (timers, the spawn timer, cheat and reset keys);
- the players' committed moves and shots;
- the enemies' appearance countdown and moves;
- the three kinds of bullet resolution, in the source's order;
- collecting the power-up.

Every entity whose fields the game updates in place is a Dafny class:

- `Wall.Map`;
- `Bullets.Bullet`;
- `Players.MyTank`;
- `Enemies.EnemyTank`;
- `Foods.Food`;
- `Round.Game`, which holds what `main()` keeps between frames.

Boxes (`Geometry.Rect`) are values, as pygame's `Rect.move` returns a new box.
The sprite groups are fields:

- the brick and iron groups are sequences of cells, in insertion order;
- `allEnemyGroup` is a sequence of enemies in joining order;
- the red, green and other groups are the bands of that sequence (`Rules.InBand`);
- `enemyBulletGroup` is a set of bullets.

A kill removes an enemy from every group at once (`Rules.Remove`).
`colliderect` is strict overlap of integer boxes.

Randomness is passed in as parameters with subset types, and every property
holds for every allowed roll. The rolls are:

- lane 1..3, enemy kind 1..4 and the red flag;
- power-up kind 1..7 and spot 100..500;
- the direction rolls of an enemy move.

The spawn rolls ride on the spawn-timer event, and the reset rolls ride on the
R key.

The round invariant `Round.Game.Valid` says:

- the objects are well formed and not aliased;
- `|enemies| <= enemyNumber <= 4`;
- the move counters stay in 0..7 and 0..3;
- a lost base means the game is over.

Every operation of the round keeps this invariant.

Some proved properties show behaviour of the code as written that a reader
might not expect:

- `Enemies.EnemyRollbackDrifts`: an enemy whose margin fix re-rolls its
  direction and then meets a tank is rolled back along the new direction. It
  ends one pixel outside the field.
- `Round.Game.KillOne`: a red or other enemy hit kills every enemy of that
  group the bullet overlaps, but takes only one off the spawn counter.
  `Round.Game.HitGreens` behaves the same way: it kills every heavy enemy the
  bullet overlaps, but takes off one per enemy found at 1 hit point. The
  counter can therefore stay above the number of enemies on the field, and
  fewer enemies then spawn.
- `Round.Bombard`: the bomb also takes off one per step of its loop that
  kills, not one per enemy killed.
- `Rules.DriveOneStuck`: player 1's committed move that runs into an obstacle
  never counts down. Player 1 stays stuck, ignoring the keys, as long as the
  obstacle stays.
- `Rules.DriveTwoRunsOut`: player 2's committed move always runs out.

Behaviour of the code worth noting:

- **Appearing enemies.** An enemy that is still appearing is already in
  allTankGroup and in its band. Tanks run into it, and bullets hit it.
- **The kind-4 power-up (irons around the base).** It adds 8 irons around
  the base and removes no brick.
- **Bomb power-up (kind 1).** It takes one off the counter per loop step that
  kills, as above, not one per enemy.
- **Enemy moves.** After a move an enemy is not always clear of the margin:
  see `Enemies.EnemyRollbackDrifts`.

## Model

| member | source | states |
|---|---|---|
| Geometry.Rect.Move | src/bulletClass.py:67-68 | the moved box keeps its size and is offset by exactly (dx, dy) |
| Geometry.TankBox | src/myTank.py:62-68 | a tank box is the solid 48 x 48 box with its top-left corner at the given point |
| Geometry.HeadingOf | src/bulletClass.py:51-59 | a direction vector names a heading exactly when it is one of the four unit vectors, and that heading has that vector |
| Geometry.HeadingRoundTrip | src/enemyTank.py:178 | every heading is a unit vector, and HeadingOf gives the heading back from its vector |
| Geometry.CollidesSymmetric | src/main.py:681 | overlap is symmetric, and a box of positive size overlaps itself |
| Geometry.MoveBack | src/myTank.py:157-172 | moving a box by (dx, dy) and then by (-dx, -dy) restores it exactly (the player's rollback) |
| Wall.TilePlacement | src/wall.py:105-127 | the tile for cell (x, y) is the 24 x 24 box at (3 + 24x, 3 + 24y), and the cell can be read back from the box |
| Wall.ColumnFacts | src/wall.py:77-79 | the inner loop places one brick per y, in order, at (x, y) |
| Wall.GridSize | src/wall.py:76-94 | a nested placement loop places exactly \|xs\| * \|ys\| bricks |
| Wall.GridMembers | src/wall.py:76-94 | a nested loop places cell c exactly when c.x is in xs and c.y is in ys |
| Wall.GridDistinct | src/wall.py:76-94 | with duplicate-free lists, a nested loop places no cell twice |
| Wall.BrickLayoutMembers | src/wall.py:62-98 | a cell holds a brick exactly when it is in one of the four blocks or the eight base cells |
| Wall.LayoutCount | src/wall.py:62-103 | the map has exactly 216 bricks and 8 irons |
| Wall.LayoutDistinct | src/wall.py:62-103 | no two bricks share a cell, no two irons share a cell, and no cell holds both |
| Wall.LayoutInBounds | src/wall.py:62-103 | every tile cell has 0 <= x, y <= 25, so every tile lies inside the margin |
| Wall.LayoutMirror | src/wall.py:62-103 | the brick layout and the iron layout are each symmetric under x -> 25 - x |
| Wall.HomeUncovered | src/wall.py:62-103 | no tile covers the base cells (12..13, 24..25) |
| Wall.SpawnsUncovered | src/wall.py:62-103 | neither player spawn box nor any of the three enemy lane boxes overlaps a tile |
| Wall.UnhitMembers | src/main.py:569 | a kill by overlap keeps exactly the tiles the box does not overlap |
| Wall.UnhitShrinks | src/main.py:569 | a kill by overlap removes something exactly when the box overlaps a tile, and otherwise leaves the group as it is |
| Wall.UnhitDistinct | src/main.py:569 | a kill by overlap keeps the tiles free of duplicates |
| Wall.Map.constructor | src/wall.py:51-103 | `Map()` builds exactly the fixed brick layout and iron layout |
| Wall.Map.PlaceBrick | src/wall.py:105-115 | one brick is appended at (x, y), and the irons are unchanged |
| Wall.Map.PlaceIron | src/wall.py:117-127 | one iron is appended at (x, y), and the bricks are unchanged |
| Wall.Map.PlaceBrickGrid | src/wall.py:76-94 | the nested loops append Grid(xs, ys), and the irons are unchanged |
| Wall.Map.PlaceBricks | src/wall.py:96-98 | a list loop appends exactly those cells as bricks |
| Wall.Map.PlaceIrons | src/wall.py:100-103 | a list loop appends exactly those cells as irons |
| Wall.Map.Shatter | src/main.py:569 | every brick the box overlaps is removed, the irons stay, and the result says whether any brick was overlapped |
| Wall.Map.Strike | src/main.py:574-581 | a strong bullet removes every iron it overlaps, a plain one none, and the result says whether it overlapped any |
| Bullets.Parked | src/bulletClass.py:41 | after setting left and then right, the right edge is 579 and the top and size are kept |
| Bullets.ParkedForgetsColumn | src/main.py:571 | the parked box depends only on the row and size, and its left edge is 291 only for a bullet 288 pixels wide |
| Bullets.MuzzleAhead | src/myTank.py:88-100 | a shot starts 20 pixels in from the tank's edge: up, bottom at tank.top + 1; down, top at tank.bottom - 1; left, right edge at tank.left - 1; right, left edge at tank.right + 1. It overlaps the tank exactly when fired up or down |
| Bullets.Bullet.constructor | src/bulletClass.py:19-41 | a new bullet is dead, plain, of speed 6, has direction (0, 0) and the up sprite, and is parked |
| Bullets.Bullet.ChangeImage | src/bulletClass.py:43-59 | the direction becomes exactly (dx, dy), and the sprite changes only for the four unit vectors |
| Bullets.Bullet.Move | src/bulletClass.py:61-78 | the box moves by exactly speed * dir, the bullet is alive after only if it was and is inside the margin, and nothing else changes |
| Players.RaiseClamps | src/myTank.py:118-119 | n level-ups from a level in 0..2 give min(level + n, 2), and level 3 stays 3 |
| Players.LowerClamps | src/myTank.py:134-135 | n level-downs from a level >= 0 give max(level - n, 0) |
| Players.ShotStatsByLevel | src/myTank.py:102-111 | level 0 keeps the bullet's speed and strength; above 0 they depend on the level alone, strong exactly from level 2, never slower at a higher level |
| Players.PlayerStepSpec | src/myTank.py:145-263 | for a tank inside the field, testing only the edge it moves towards is the whole margin test: a step is blocked exactly when the shifted box leaves the field or overlaps a tank, brick or iron; a blocked step restores the box and a free one moves it by speed * dir |
| Players.PlayerStepKeepsClear | src/myTank.py:145-263 | a tank inside the field that overlaps nothing still overlaps nothing after a step, blocked or not |
| Players.MyTank.constructor | src/myTank.py:35-77 | a new tank is at (195, 579) for player 1 or (387, 579) for player 2, with level 0, life 3, speed 3, direction (0, -1), not cooling, and a new bullet |
| Players.MyTank.Shoot | src/myTank.py:79-111 | the bullet comes alive with the tank's direction, at the muzzle, with the level's speed and strength |
| Players.MyTank.LevelUp | src/myTank.py:113-127 | the level rises by one, stopping at 2, and level 3 stays 3; the box, life, speed and direction are unchanged |
| Players.MyTank.LevelDown | src/myTank.py:129-143 | the level falls by one, stopping at 0; at level 0, even one reached before, the bullet gets speed 6 and is plain; otherwise the bullet is untouched |
| Players.MyTank.Move | src/myTank.py:145-263 | the box and the blocked flag are PlayerStep's, the tank faces the heading even when blocked, and level, life, speed and the bullet are unchanged |
| Enemies.MarginFixOneEdge | src/enemyTank.py:153-165 | at most one edge is fixed, by speed on that edge's axis, and one is fixed exactly when the box is out of the field; a box past the top and the left is fixed at the top only |
| Enemies.EnemyStepCardinal | src/enemyTank.py:109-178 | after a move the direction is always one of the four unit vectors, and the box keeps its size |
| Enemies.EnemyFreeStep | src/enemyTank.py:119 | a move that stays in the field and meets nothing translates by speed * dir and keeps the direction |
| Enemies.EnemyBlockedStep | src/enemyTank.py:167-172 | a move that stays in the field but meets an obstacle restores the box and takes the second roll as direction |
| Enemies.EnemyMarginStep | src/enemyTank.py:153-172 | a tank that moves across the margin is put back; if it then overlaps something, the rollback uses the re-rolled direction |
| Enemies.EnemyRollbackDrifts | src/enemyTank.py:163-172 | a concrete move in which the rollback leaves the tank one pixel outside the field, not where it was |
| Enemies.EnemyTank.constructor | src/enemyTank.py:26-64 | a falsy lane or kind takes the roll, an explicit red flag (False too) is kept; the box is at (3 + 288x, 3); speed is 3 for kind 2 and else 1; life is 3 for kind 3 and else 1; appearing, times 90, direction (0, 1), not cooling |
| Enemies.EnemyTank.Shoot | src/enemyTank.py:87-107 | the bullet comes alive with the tank's direction at the muzzle, and keeps its speed and strength |
| Enemies.EnemyTank.ChangeDirection | src/enemyTank.py:174-178 | the direction becomes the roll, always a unit vector, and nothing else changes |
| Enemies.EnemyTank.FixMargin | src/enemyTank.py:153-165 | the box becomes MarginFix's, and the direction is re-rolled exactly when an edge was fixed |
| Enemies.EnemyTank.HandleCollision | src/enemyTank.py:144-172 | the box and direction become Settle's: the margin fix, then the obstacle rollback along the current direction with a new roll |
| Enemies.EnemyTank.Move | src/enemyTank.py:109-125 | the box and direction after a move are EnemyStep of the box and direction before |
| Foods.ImageDispatch | src/food.py:53-70 | kinds 1..7 each map to exactly one image and back, and no other kind has an image |
| Foods.Food.constructor | src/food.py:28-51 | a new power-up is dead, has a kind in 1..7, and has its box at left == top in 100..500 |
| Foods.Food.UpdateImage | src/food.py:53-70 | the image becomes the one for the kind, and only the image changes |
| Foods.Food.Change | src/food.py:72-80 | the power-up comes alive with the new kind and its box moved to left == top == spot, and the size is kept |
| Rules.MovdirRoundTrip | src/main.py:326-385 | `movdir` 0..3 and the four headings name each other both ways, and no other value names a heading |
| Rules.DrivesInRange | src/main.py:326-446 | both players' moves keep `moving` in 0..7 and `movdir` in 0..3 |
| Rules.DriveOneCountsSteps | src/main.py:326-351 | with more than one step left, player 1's counter falls by one exactly when the step goes through, stays exactly when blocked, and the keys are not read |
| Rules.DriveOneCancels | src/main.py:353-385 | a new move whose first step is blocked ends with counter 0, box unchanged, facing the key |
| Rules.DriveOneCommits | src/main.py:353-385 | a new move whose first step goes through commits 7 in that direction and moves by speed * dir |
| Rules.DriveOneStuck | src/main.py:326-351 | a committed move blocked by a standing obstacle holds player 1 in place for any run of ticks, whatever keys are held |
| Rules.DriveTwoRunsOut | src/main.py:394-416 | with no key held, player 2's counter falls by one every tick, blocked or not, down to 0 |
| Rules.AppearanceLasts | src/main.py:504-527 | a new enemy flashes after exactly 90 ticks and stays flashed |
| Rules.BandsPartition | src/main.py:196-206 | every enemy is in exactly one of the red, green and other groups, the one its flag and kind choose, and the group sizes add up to the enemy count |
| Rules.InBandDistinct | src/main.py:196-206 | a group drawn from distinct enemies has no duplicates |
| Rules.RemoveFacts | src/main.py:544 | a kill keeps exactly the sprites outside the killed set, shortens the group by the number killed, and changes nothing when none is hit |
| Rules.RemoveDistinct | src/main.py:544 | a kill keeps a group free of duplicates |
| Rules.SweepBounds | src/main.py:679-684 | the bomb costs the counter at most one per enemy alive, and at least one when the first enemy is alive |
| Rules.SweepDisjoint | src/main.py:679-684 | enemies that are distinct, solid and pairwise apart cost the bomb one each, so the counter drops by their number |
| Rules.SweepOverlap | src/main.py:679-684 | two enemies whose solid boxes overlap cost the bomb only one, since the first kills both |
| Round.Maximise | src/main.py:286-289 | key 3 leaves the tank at level 3 with the level-2 sheet, and nothing else changes |
| Round.Adjust | src/main.py:282-318 | E/KP1 raise the level, Q/KP2 lower it (at 0 the bullet becomes a plain speed-6 one, otherwise its speed and strength stay), 3/KP3 set it to 3, 2/KP4 toggle the speed between 3 and 6; the tank keeps its box, life, direction and cooldown, the bullet its box, life, sprite and direction, and any other key changes nothing |
| Round.ToggleSpeed | src/main.py:290-294 | the speed toggles, 3 to 6 and anything else to 3 |
| Round.Demote | src/main.py:648-649 | level + 1 level-downs leave the tank at level 0 with a plain bullet of speed 6, whatever the level was |
| Round.WoundGreen | src/main.py:550-561 | an overlapped heavy enemy loses a hit point, 3 to 2 or 2 to 1, with the matching sheet; one found at 1 is reported |
| Round.WoundGreens | src/main.py:550-561 | the loop wounds every overlapped heavy enemy and counts exactly those found at 1 |
| Round.PlayerTiles | src/main.py:568-581 | every overlapped brick goes; the irons are then checked against the box as it now is, and a strong bullet removes them; a hit kills and parks the bullet; tiles only go |
| Round.EnemyTiles | src/main.py:655-665 | every overlapped brick goes, irons stop the bullet and stay, and the bullet is not moved |
| Round.CountDown | src/main.py:504-527 | the countdown is the Appear step, and the tank flashes exactly when the countdown was at 1 |
| Round.Bombard | src/main.py:679-684 | the bomb's loop leaves no enemy alive and costs exactly Sweep of the snapshot |
| Round.Game.constructor | src/main.py:177-206 | the round starts as `reset_game` leaves it: a new map, power-up and players, and three new enemies on lanes 1..3 |
| Round.Game.Populate | src/main.py:160-172 | three enemies, one per lane, join in order, and the counter is 3 |
| Round.Game.Enlist | src/main.py:264-273 | an enemy joins the end of allEnemyGroup (and so its band), and nothing else changes |
| Round.Game.Reset | src/main.py:112-175 | `reset_game` rebuilds everything from new objects as at the start, and the game is no longer over |
| Round.Game.Clear | src/main.py:121-158 | the groups are emptied, the move counters are 0, and the flags are back to their start values |
| Round.Game.Disband | src/main.py:121-128 | allEnemyGroup and enemyBulletGroup are empty |
| Round.Game.Rewind | src/main.py:145-158 | the counters and the freeze, base and game-over flags are back to their start values |
| Round.Game.Halt | src/main.py:145-151 | both players' committed moves are cancelled |
| Round.Game.NewBoard | src/main.py:131 | a new map with the fixed layout |
| Round.Game.NewProp | src/main.py:134 | a new, dead power-up with the rolled kind and spot |
| Round.Game.NewPlayers | src/main.py:136-147 | new player tanks at their spawns, player 2 only in two-player mode |
| Round.Game.AllBoxes | src/main.py:263 | allTankGroup holds one box per player and per enemy |
| Round.Game.Spawn | src/main.py:260-273 | below 4, a rolled enemy that overlaps no tank joins and the counter rises by one; an overlapping one is dropped and the rest of the queue is skipped; at 4 nothing happens |
| Round.Game.CoolEnemies | src/main.py:251-253 | every enemy may fire again, and nothing else of any enemy changes |
| Round.Game.HandleKey | src/main.py:276-318 | E, Q, 3 and 2 act on player 1 as Adjust says, the keypad keys on player 2, 1 appends the 8 base bricks and 4 the 8 base irons; each key leaves the other player, its bullet and (but for 1 and 4) the map unchanged, and R and other keys change nothing |
| Round.Game.HandleEvent | src/main.py:231-318 | once the game is over only R acts, and it rebuilds the round; otherwise the event is played and does not end the game, and the rest of the queue is skipped exactly when a spawn candidate below 4 enemies overlaps a tank |
| Round.Game.Restart | src/main.py:236-244 | R rebuilds the round, and any other event leaves it untouched |
| Round.Game.PlayEvent | src/main.py:246-318 | a timer, spawn or key event keeps the round valid and not over, and the rest of the queue is skipped exactly when the spawn timer's candidate, below 4 enemies, overlaps a tank |
| Round.Game.Timer | src/main.py:246-257 | the cooldown timers let player 1 or every enemy fire again, and the freeze timer lets enemies move; player 1 keeps its box, level, life, speed, direction and sheet, the enemies keep all but the cooldown the event resets, and the other fields stay |
| Round.Game.ProcessEvents | src/main.py:231-318 | the events are handled in order; a queue cut short stops at a spawn timer while the round is in play; a game-over round whose queue holds no R handles it all and stays over with every object unchanged; the round stays valid |
| Round.Game.MoveOne | src/main.py:326-385 | player 1's box, facing and counters after the tick are DriveOne of those before, against the other tanks' boxes |
| Round.Game.ContinueMoveOne | src/main.py:326-351 | the committed step is ContinueOne: count down, and give the count back if blocked |
| Round.Game.StartMoveOne | src/main.py:353-385 | a new move is StartOne: 7 in the key's direction, cancelled if the first step is blocked |
| Round.Game.MoveTwo | src/main.py:394-446 | player 2's box, facing and counters after the tick are DriveTwo of those before |
| Round.Game.ContinueMoveTwo | src/main.py:395-416 | the committed step is ContinueTwo: count down, blocked or not |
| Round.Game.StartMoveTwo | src/main.py:418-446 | a new move is StartTwo: 7 in the key's direction, never cancelled |
| Round.Game.FireOne | src/main.py:387-391 | J fires exactly when the bullet is dead and the cooldown is over, and the cooldown starts; otherwise nothing changes; player 1 keeps its speed and life |
| Round.Game.FireTwo | src/main.py:448-450 | KP0 fires exactly when player 2's bullet is dead, with no cooldown |
| Round.Game.AnimateEnemy | src/main.py:488-527 | a flashed enemy takes an EnemyStep against the other tanks while enemies may move and is unchanged while frozen; an appearing one counts down in place and flashes at 0; one that has appeared stays appeared; its life, sheet and cooldown stay |
| Round.Game.AnimateEnemies | src/main.py:488-527 | the enemies end at the March of their old poses: in order, each that has appeared takes, while enemies may move, its EnemyStep against the players, the new boxes of the enemies before it and the old boxes of those after it; each changes as Animates says (counting down in place, still while frozen, life, sheet and cooldown kept); the bricks stay |
| Round.Game.TakeTurn | src/main.py:488-527 | enemy i ends where the March puts it and changes as Animates says, while every other enemy and the players' boxes stay |
| Rules.MarchTurn | src/main.py:488-527 | once the tanks before it are where the march put them, tank i's place is its EnemyStep against the players, those boxes and the old boxes of the tanks after it if it has appeared and enemies may move, and its old pose otherwise |
| Rules.MarchPrefix | src/main.py:488-527 | a tank's move does not depend on the tanks after it: marching the first m tanks is the start of marching the first n |
| Round.Game.Kill | src/main.py:544-547 | the killed enemies leave every group, in order, and the counter falls by the given loss |
| Round.Game.Disperse | src/main.py:544 | the enemies in the set leave allEnemyGroup and its bands, and the rest keep their order |
| Round.Game.KillOne | src/main.py:544-547 | a kill that found someone removes all of them and takes exactly one off the counter |
| Round.Game.ClashOne | src/main.py:536-541 | if player 1's bullet overlaps a live enemy bullet, it dies, every live enemy bullet it overlaps dies, and every one it overlaps leaves enemyBulletGroup; otherwise nothing changes |
| Round.Game.HitGreens | src/main.py:549-562 | every overlapped heavy enemy is wounded; if one was at 1, every overlapped heavy enemy is killed; the counter falls by the number found at 1 |
| Round.Game.HomeHit | src/main.py:584-588 | while the base stands, a bullet over it destroys it, dies and ends the game; otherwise nothing changes |
| Round.Game.ShootEnemiesOne | src/main.py:544-566 | red first: a red hit kills the overlapped reds, moves and re-rolls the power-up, and takes one off the counter; else a heavy hit wounds exactly the struck heavy enemies as HitGreens says; else an other hit kills the overlapped others and takes one off; any hit ends the bullet; outside the heavy case no enemy loses life, and no enemy moves, turns or changes its appearance or cooldown |
| Round.Game.ShootRestOne | src/main.py:549-566 | past an untouched red group: a heavy hit goes through HitGreens, wounding exactly the struck heavy enemies, else an other hit kills and takes one off, and the bullet ends on either; otherwise no enemy loses life, and no enemy moves, turns or changes its appearance or cooldown |
| Round.Game.ResolveOne | src/main.py:530-588 | a dead player-1 bullet changes nothing; a live one can only remove enemies and tiles and lower the counter, and the game ends exactly when the base falls |
| Round.Game.StrikeOne | src/main.py:535-566 | the clash and the group tests only remove enemies and lower the counter, and do not move the bullet |
| Round.Game.Land | src/main.py:568-588 | the bricks the bullet overlaps go, then a strong bullet removes the irons under the box it has now; a tile hit parks and kills the bullet; a bullet over the standing base destroys it, dies and ends the game; tiles only go |
| Round.Game.ResolveTwo | src/main.py:591-622 | with no player 2 or a dead bullet nothing changes; otherwise enemies and tiles can only go and the counter only fall, and the game ends exactly when the base falls |
| Round.Game.StrikeTwo | src/main.py:597-600 | player 2's bullet kills every enemy of any group it overlaps, takes one off the counter and ends; with no overlap nothing changes |
| Round.Game.Reload | src/main.py:627-631 | while enemies may move, an enemy with a dead bullet that is not cooling fires at the muzzle, its bullet re-enters enemyBulletGroup, and it starts cooling; otherwise nothing changes |
| Round.Game.HitPlayers | src/main.py:643-653 | a bullet over player 1 sends it to its spawn with no committed move and level 0 and resets its bullet to a plain speed-6 one, and a bullet over player 2 sends it to its spawn; either kills the bullet, no life is lost, the players keep speed, direction and cooldown, and player 2's bullet is unchanged |
| Round.Game.HitOne | src/main.py:643-649 | a bullet over player 1 sends it to (195, 579), cancels its move, sets level 0, resets its bullet to a plain speed-6 one and dies; otherwise nothing changes; player 1 keeps its speed, direction and cooldown |
| Round.Game.HitTwo | src/main.py:650-653 | a bullet over player 2 sends it to (387, 579) and dies; otherwise nothing changes; player 2 keeps its speed, direction and cooldown, and its bullet is unchanged |
| Round.Game.FlyEnemy | src/main.py:633-672 | only a flashed enemy's live bullet acts; it moves only while enemies may move, then it can only send players to their spawns, remove bricks and fell the base |
| Round.Game.Impact | src/main.py:642-672 | the players, map and base tests can only send players to their spawns, remove bricks and fell the base, and never remove an iron |
| Round.Game.LandEnemy | src/main.py:655-672 | the bricks the bullet overlaps go and the irons stay; the bullet dies on a tile or on the standing base, which falls and ends the game; the bullet is not moved |
| Round.Game.EnemyFire | src/main.py:624-672 | no enemy moves or leaves and the counter stays; bricks only go and irons stay; the base only falls; players hit go to their spawns; while frozen no enemy bullet moves and no cooldown changes |
| Round.Game.Serve | src/main.py:625-672 | one pass of the enemy-bullet loop keeps the same guarantees for the whole field |
| Round.Game.ClearEnemies | src/main.py:679-684 | the bomb empties the field and takes exactly Sweep of the field off the counter |
| Round.Game.CollectProp | src/main.py:675-705 | a live power-up under player 1 is used up; bomb, freeze, strong bullet, 8 base irons, level-up or +1 life by kind, and kind 5 changes nothing else; player 1 keeps its speed, direction and cooldown, its bullet its box, life, sprite and direction |
| Round.Game.ApplyProp | src/main.py:685-705 | each non-bomb kind does exactly its own effect and nothing else; player 1 keeps its speed, direction and cooldown, its bullet its box, life, sprite and direction |
| Round.Game.Steer | src/main.py:326-450 | the players' moves and shots change neither the enemies nor the map, and the game stays on |
| Round.Game.Play | src/main.py:324-705 | in a tick in play enemies only leave, the counter only falls, bricks only break, and the game is over exactly when the base has fallen |
| Round.Game.Volley | src/main.py:529-705 | the bullets and the power-up only remove enemies and bricks, and the game is over exactly when the base has fallen |
| Round.Game.PlayerShots | src/main.py:529-622 | both players' bullets only remove enemies and bricks, and the game is over exactly when the base has fallen |
| Round.Game.Tick | src/main.py:229-711 | one pass of the main loop keeps the round invariant, whatever the events, keys and rolls; in a game-over round whose events hold no R nothing moves, fires or changes |

## Left out

- Drawing and windowing are left out because they are I/O: asset loading, the window, fonts, the mixer and sounds, every `blit`/`flip`, and the game-over picture.
- The player-selection screen is left out; the chosen mode is the `twoPlayer` parameter of the round.
- The animation state is left out because it only affects rendering: `delay`, `switch_R1_R2_image`, `running_T1/T2`, and the sprite-frame `subsurface` choices. The tank sheet is kept only as the level or kind it shows.
- Quitting is left out because it is process control: the window's close event, and any press of C. The source tests `event.key == pygame.K_c and pygame.KMOD_CTRL` (src/main.py:239 and 277); `KMOD_CTRL` is a non-zero constant, so the Ctrl modifier is never checked and a plain C quits. The model treats a C press as an ordinary key (`OtherKey`), which changes nothing, where the source would end the process. `traceback` and `input()` are left out for the same reason.
- The clock and pygame's timers are left out. Each timer firing is an event in the tick's input queue.
- The `random` draws are left out. Each draw is a parameter, and every property holds for every allowed value.
- The keypad handlers dereference player 2 without a check, so the source would crash in one-player mode. The model requires that keypad events occur only in two-player mode.
- Round.Game.ClashOne: the source's loop over the enemy bullets is stated by its net effect, applied to the bullets all at once. Dead bullets that are overlapped also leave the group. The loop order cannot change the result.
- The bullet and tile images are not part of the source. The bullet size is fixed at 12 x 12, the tile size at 24 x 24, and the power-up size at 30 x 30.
- Round.Game.Tick: states the round invariant and that a game-over round without R stays unchanged. What a tick in play does is stated by the members it calls.
- Round.Game.Play: states the monotone effects (enemies only leave, the counter only falls, bricks only break, game over exactly when the base falls), not the full new state.
- Round.Game.Volley: states the same monotone effects as Play, not the full new state.
- Round.Game.PlayerShots: states the same monotone effects as Play, not the full new state.
- Round.Game.ResolveOne: states the monotone effects of a live bullet, not its full new state. The steps are stated exactly by ClashOne, ShootEnemiesOne, PlayerTiles and HomeHit.
- Round.Game.ResolveTwo: states the monotone effects of a live bullet, not its full new state. The steps are stated exactly by StrikeTwo, PlayerTiles and HomeHit.
- Round.Game.StrikeOne: states the monotone effects only. ClashOne and ShootEnemiesOne state the exact ones.
- Round.Game.Steer: states only what the players' part of the tick leaves alone. MoveOne, MoveTwo, FireOne and FireTwo state the exact effects.
- Round.Game.EnemyFire: states the monotone effects of the enemy-bullet loop, not the exact positions of the bullets. Reload, HitPlayers, EnemyTiles and HomeHit state the exact step.
- Round.Game.Serve: states the monotone effects of one pass of the enemy-bullet loop, not its exact effect.
- Round.Game.FlyEnemy: states the monotone effects of the bullet's flight, not its exact effect.
- Round.Game.Impact: states the monotone effects of the impact, not its exact effect.
- Round.Game.ProcessEvents: states where the queue stops and that a game-over round without R stays unchanged, not the net effect of a queue in play. Each event's effect is stated by HandleEvent, Restart, PlayEvent, Timer, Spawn and HandleKey.
- Round.Game.PlayEvent: states validity and exactly when the queue is skipped. Timer, Spawn and HandleKey state each event's effect, which is not repeated here.
- Round.Game.HandleEvent: in play, states validity and exactly when the queue is skipped. Timer, Spawn and HandleKey state each event's effect, which is not repeated here.
- The `life` field that `MyTank.__init__` sets first to True and then to 3 is modelled as its final value, 3. The power-up of kind 7 adds one to it, and nothing in the round reads it.
- The power-up of kind 5 (invincibility) has no effect in the source, and so none in the model; it only uses the power-up up.
- The R key while the round is in play is modelled as doing nothing. The source tests `game_over` there, which is False at that point, so it never resets.
- The commented-out collision code of the bullet class is not part of this model.
