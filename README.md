# Two-player shooter: a verified model of the frame step

`game.js` is a browser game. Two paddles face each other across a canvas. Player 1 is on
the left and fires right; player 2 is on the right and fires left. Each player moves up
and down and fires bullets, with a 300 ms cooldown between shots. A bullet that reaches
the opponent takes one health point and leaves a short-lived ring effect. The first player
to reach zero health loses. The script keeps its state in globals: two `Player` objects and
the `bullets` and `effects` arrays. It advances that state once per animation frame in
`update()`.

This project models that frame step in Dafny and proves what it guarantees.

- `collision.dfy` (module `Collision`): `isColliding`, the strict overlap test of two
  axis-aligned rectangles.
- `splice.dfy` (module `ArraySplice`): `splice(i, 1)` on a sequence.
- `entities.dfy` (module `Entities`): the game's constants and value views of the three
  entities (`PlayerV`, `BulletV`, `EffectV`). It holds the rules for `move`, `shoot`,
  `Bullet.update` and `Effect.update`. `Bullet` and `Effect` are classes whose `Update`
  methods change their fields in place.
- `rules.dfy` (module `Rules`): the value-level meaning of one frame.
  - `BulletLoop` and `EffectLoop` are the two `forEach` loops.
  - `Frame` is one call of `update()`.
  - `Play` is the sequence of frames the browser runs.
- `properties.dfy` (module `Properties`): lemmas about `Rules`. They cover health, effects,
  removal, the timing of a hit, the win check and the end of the game.
- `game.dfy` (module `Game`): the objects themselves.
  - `Player` has `Move` and `Shoot`.
  - `GameState` holds the globals. `Update` runs one frame in place, with `while` loops that
    mirror the `forEach` index, and returns whether the frame reschedules itself.
  - Each method is proved to compute exactly what the matching value-level function says.

The two `forEach` loops splice their array while iterating. They are modelled as
`Array.prototype.forEach` behaves (section 23.1.3.15 of ECMA-262, 2023 edition):

- The visit range is fixed at the length the array has when the loop starts.
- An index that no longer exists is skipped.
- Each index sees the element present there at that moment. After a splice at `idx`, the
  element that shifts into `idx` is not visited this frame. `Properties.ShiftedBulletIsSkipped`
  proves this for every input where the visited bullet is removed once, and
  `Properties.ShiftedBulletExample` shows one such frame.

In the bullet callback, a bullet removed by a hit (game.js:152 or 156) is tested again at
game.js:160. When its x is off-screen, a second `splice(idx, 1)` removes whichever bullet
shifted into `idx`. The model keeps this double splice exactly as written.
`Properties.DoubleSpliceAfterNarrowing` gives an input where it happens: the canvas has
been narrowed below player 2's position. `Properties.VisitBulletRemovesAtMostOne` shows it
cannot happen when each player's rectangle starts at least 12 (a bullet's width) from the
left edge and ends at or before the right edge. That condition fails from the start on a
canvas narrower than 112, and it can fail after a resize.

Inputs the script reads from the browser are parameters of the model:

- The set of held keys. A key that is not in the set counts as not held.
- One clock reading per `shoot` call (`now1`, `now2`), because `Date.now()` is called
  separately in each.
- The canvas width and height for each frame.
- The initial height `y` of both players.

When the two players stand level on a canvas wider than 150, player 1's bullet spawns at
x = 100 and moves 12 per update. Player 2 sits at x = W - 100. The bullet first overlaps
player 2 after the least k with 12k > W - 212, which is 50 updates for W = 800
(`Properties.HitAfterUpdates`, `Properties.FirstHitOnWideCanvas`). On a canvas 150 or
less wide, player 2 starts at or left of x = 50 and player 1's bullets never reach it.

## Model

| member | source | states |
|---|---|---|
| Collision.CollidingIsSymmetric | game.js:110-115 | the overlap test gives the same answer with its arguments swapped |
| Collision.TouchingIsNotColliding | game.js:110-115 | rectangles that only share an edge, on either axis, do not collide (the test is strict) |
| Collision.SeparatedIsNotColliding | game.js:110-115 | rectangles separated on either axis do not collide |
| Collision.CollidingIffSharedCell | game.js:110-115 | for rectangles of positive size, colliding holds exactly when both contain a common unit cell |
| ArraySplice.Splice | game.js:152 | `splice(i, 1)` shortens the array by one when i is an index and leaves it unchanged otherwise |
| ArraySplice.SpliceElements | game.js:160 | after `splice(i, 1)`, the elements before i keep their indices and those after i move down by one |
| ArraySplice.SpliceKeepsOrder | game.js:166 | what remains after `splice(i, 1)` is a subsequence of the original: relative order is kept |
| Entities.MoveChangesOnlyY | game.js:37-40 | `move` changes only y, by -5, 0 or +5; with neither key held the player is unchanged |
| Entities.MoveSteps | game.js:37-40 | with both keys held the down test sees the y the up test left: a player clear of both edges stays put; one whose bottom is 5 or more below the canvas bottom (possible only on a canvas 90 or less high at load, or after it shrinks) moves up 5; one at or above the top moves down 5 if there is room |
| Entities.MoveKeepsTopBound | game.js:37-40 | y > -5 is preserved by every move |
| Entities.MoveKeepsNearField | game.js:37-40 | on a fixed canvas, a player within 5 of the playfield vertically stays within 5 of it |
| Entities.ShootEffect | game.js:42-49 | a shot appends exactly one bullet at the end and stamps lastShot with now, exactly when the key is held and now - lastShot > 300; otherwise bullets and player are unchanged |
| Entities.OneShotPerInstant | game.js:42-49 | two shoot calls with the same clock reading add at most one bullet |
| Entities.ShotsRespectCooldown | game.js:42-49 | two successful shots are more than 300 ms apart |
| Entities.SpawnedFromShooter | game.js:45-46 | the new bullet is at x + 50 (facing right) or x - 12 (facing left) and y + 25, with the shooter's direction and colour, is 12 by 5, and does not overlap its shooter |
| Entities.BulletAfterUpdates | game.js:66-68 | after k updates a bullet has moved 12k along its direction; y, colour and direction are unchanged |
| Entities.EffectAfterUpdates | game.js:76-86 | a new effect after k updates has radius 10 + 2k and life 20 - k |
| Entities.EffectExpiresAtTwenty | game.js:83-86 | a new effect's life is at or below zero exactly from its 20th update on |
| Entities.Bullet.constructor | game.js:57-64 | a new bullet has the given position, direction and colour |
| Entities.Bullet.Update | game.js:66-68 | `update` moves the bullet one step (12) along its direction and changes nothing else |
| Entities.Effect.constructor | game.js:76-81 | a new effect has radius 10 and life 20 at the given position |
| Entities.Effect.Update | game.js:83-86 | `update` grows the radius by 2 and lowers the life by 1 |
| Game.Player.constructor | game.js:26-35 | a new player has full health (5), no shot taken, and the given position, colour and controls |
| Game.Player.Move | game.js:37-40 | the player's new value is the move rule applied to the old one; only y may change |
| Game.Player.Shoot | game.js:42-49 | player and bullet array after the call are the shoot rule applied to the old ones; any new bullet is freshly allocated and appended after the old ones |
| Game.GameState.constructor | game.js:118-130 | player 1 at x = 50 is blue, fires right and uses w/s/space; player 2 at W - 100 is red, fires left and uses the arrow keys and Enter; both start at the given y; no bullets, no effects |
| Game.GameState.Update | game.js:133-182 | the new state and the reschedule flag are exactly one `Frame` of the old state; it reschedules exactly when both healths are above zero, and otherwise the banner names the winner |
| Game.GameState.Simulate | game.js:136-167 | the new state is the state part of one `Frame` of the old state |
| Game.GameState.MovePlayers | game.js:136-142 | both players move and shoot in order, giving `AfterPlayers` of the old state; existing bullets keep their places |
| Game.GameState.Turn | game.js:136-137 | one player moves and then shoots; the other player and the effects are unchanged |
| Game.GameState.UpdateBullets | game.js:144-161 | the bullets, effects and healths after the loop are `BulletLoop` of the old ones over the starting length; no bullet is added |
| Game.GameState.VisitBulletAt | game.js:145-160 | one callback: the bullet moves, the hit test runs, then the off-screen test on that same bullet splices index idx (`VisitBullet`) |
| Game.GameState.HitTest | game.js:149-157 | a right-facing bullet overlapping player 2, or a left-facing one overlapping player 1, costs that player one health point, pushes an effect at the bullet and splices idx |
| Game.GameState.AdvanceBullet | game.js:145 | only the bullet at idx moves one step |
| Game.GameState.Strike | game.js:150-152 | the target loses one health point, one new effect at (x, y) is appended and index idx is spliced |
| Game.GameState.RemoveBullet | game.js:160 | the bullet array becomes its splice at idx; nothing else changes |
| Game.GameState.AddEffect | game.js:151 | exactly one new effect at (x, y) is appended and the old ones keep their places |
| Game.GameState.UpdateEffects | game.js:163-167 | the effects after the loop are `EffectLoop` of the old ones over the starting length; the bullets are untouched |
| Game.GameState.VisitEffectAt | game.js:164-166 | one callback: the effect at idx ages and is spliced out when its life is at or below zero (`VisitEffect`) |
| Properties.VisitBulletAccounting | game.js:149-160 | one callback loses at most one health point; it appends exactly one new effect per point lost, keeping the old effects; it removes at most two bullets and adds none |
| Properties.BulletLoopAccounting | game.js:144-161 | over the whole loop health never rises, the effects appended are new ones and exactly as many as the points lost, at most one point is lost per visited index, and the bullets never grow |
| Properties.VisitBulletRemovesAtMostOne | game.js:149-160 | with both players inside the canvas, a callback removes exactly one bullet when the moved bullet hits or is off-screen, and otherwise only moves it |
| Properties.DoubleSpliceAfterNarrowing | game.js:149-160 | after the canvas is narrowed, a hit beyond the right edge removes the struck bullet and the next one as well |
| Properties.VisitBulletKeepsPrefix | game.js:145-160 | one callback at idx leaves every bullet before idx in place |
| Properties.BulletLoopKeepsPrefix | game.js:144-161 | for each index k before idx, the loop from idx on leaves the bullet at k in place and unchanged |
| Properties.ShiftedBulletIsSkipped | game.js:144-161 | for every input where the bullet visited at idx is removed (both players inside the canvas), the bullet behind it ends the frame at idx exactly as it was: neither moved nor tested |
| Properties.ShiftedBulletExample | game.js:144-161 | a right-facing and a left-facing bullet would both leave the screen this frame; the first is removed and the second stays unmoved until the next frame |
| Properties.HitAfterUpdates | game.js:45-68 | a bullet from a right-facing player overlaps a level opponent after k updates exactly when gap - 62 < 12k < gap, where gap = q.x - p.x is the distance between the two players' left edges |
| Properties.FirstHitOnWideCanvas | game.js:118-130 | on an 800-wide canvas, player 1's bullet first overlaps player 2 at its 50th update |
| Properties.VisitEffectRemovesExpired | game.js:163-167 | a callback removes the visited effect exactly when its life after its own update is at or below zero, and otherwise only ages it |
| Properties.EffectLoopKeepsLifePositive | game.js:163-167 | the loop never grows the effects, and if all lives are positive before, every surviving effect has positive life |
| Properties.EffectLoopAgesAll | game.js:163-167 | when no effect expires, the loop removes nothing and ages every effect exactly once |
| Properties.FrameHealthNonIncreasing | game.js:136-167 | a frame never raises either health, and leaves each player's x, colour and controls alone |
| Properties.FrameReschedulesIffBothAlive | game.js:174-182 | a frame reschedules exactly when both healths are above zero afterwards |
| Properties.GameOverIsAbsorbing | game.js:174-182 | from a finished state every further frame is finished and does not reschedule |
| Properties.WinnerIsTheSurvivor | game.js:178 | the banner names "Player 2" exactly when player 1's health is gone, so player 1 loses a simultaneous knockout |
| Properties.PlayRunsUntilGameOver | game.js:179-182 | the browser runs at most one frame per input and stops early only when the game is over; `Play` applied to a state that is already finished runs exactly one frame (the browser itself never calls `update` again from such a state) |
| Properties.PlayHealthNonIncreasing | game.js:133-182 | over any sequence of frames the browser runs, neither player's health rises |
| Collision.IsColliding | game.js:110-115 | defines the overlap test: strict inequalities on both axes |
| Entities.Moved | game.js:37-40 | defines `move`: the up test and step first, then the down test on the updated y |
| Entities.CanShoot | game.js:44 | defines the guard of `shoot`: the key is held and now - lastShot > 300 |
| Entities.Spawned | game.js:45-46 | defines the bullet `shoot` pushes: at x + 50 or x - 12 by direction, at y + 25, with the shooter's direction and colour |
| Entities.AfterShot | game.js:44-48 | defines the player after `shoot`: lastShot becomes now when the guard holds |
| Entities.BulletsAfterShot | game.js:44-48 | defines the bullets after `shoot`: the spawned bullet is pushed at the end when the guard holds |
| Entities.BulletV.Moved | game.js:66-68 | defines `Bullet.update`: x moves 12 along the direction |
| Entities.EffectV.Aged | game.js:83-86 | defines `Effect.update`: radius grows by 2, life drops by 1 |
| Entities.NewEffect | game.js:76-81 | defines `new Effect(x, y)`: radius 10, life 20 |
| Rules.AfterHit | game.js:149-157 | defines the hit test on the moved bullet: the struck player loses a point, an effect is pushed at the bullet, index idx is spliced |
| Rules.VisitBullet | game.js:145-160 | defines one bullet callback: move, hit test, then the off-screen test on that same bullet, splicing idx again |
| Rules.BulletLoop | game.js:144-161 | defines the bullet `forEach`: indices from idx up to the starting length, skipping those no longer present |
| Rules.VisitEffect | game.js:164-166 | defines one effect callback: age the effect and splice it out when its life is at or below zero |
| Rules.EffectLoop | game.js:163-167 | defines the effect `forEach` over the starting length |
| Rules.AfterPlayers | game.js:136-142 | defines the two turns: player 1 moves and shoots, then player 2 |
| Rules.Frame | game.js:133-182 | defines one call of `update()`: the turns, the bullet loop, the effect loop, and rescheduling exactly when neither health is at or below zero |
| Entities.Held | game.js:38-44 | defines the `keys[...]` test: a key is held exactly when it is in the set of pressed keys |
| Rules.HitsPlayer2 | game.js:149 | defines the first hit test: a right-facing bullet overlapping player 2 |
| Rules.HitsPlayer1 | game.js:153 | defines the second hit test: a left-facing bullet overlapping player 1 |
| Rules.OffScreen | game.js:160 | defines the off-screen test: x below 0 or beyond the canvas width |
| Rules.GameOver | game.js:174 | defines the win test: either health at or below zero |
| Rules.Winner | game.js:178 | defines the banner's winner: "Player 2" when player 1's health is gone, else "Player 1" |
| Rules.Play | game.js:179-182 | defines the frames the browser runs: another frame only after one that rescheduled |

## Left out

- Drawing (`draw` methods, `drawRect`, `drawHealthBar`, `clearRect`, the banner's font and position) has no effect on the game state. `Update` returns the banner text but does not draw it.
- Canvas setup, `resizeCanvas` and the resize listener are browser I/O. The canvas size is a parameter of each frame instead.
- The key listeners are asynchronous event wiring. The held keys are a parameter: a set of key names.
- `Date.now()` is a clock call. Each `shoot` receives its own clock reading.
- The `requestAnimationFrame` call is represented by `Update`'s boolean result and the function `Rules.Play`. There is no method that drives frames, because the browser does that.
- The unused `score` variable is not modelled.
- `canvas.height / 2` for the initial y can be fractional, and player 2's x is fixed from the canvas width at load (game.js:125), as `resizeCanvas` never moves it. Coordinates are integers here, and the initial y is a parameter.
- Direction strings 'right' and 'left' are the enum `Entities.Dir`, since the game uses no other values.
- `Effect.draw` computes an rgba alpha as a float division. It is drawing only and is not modelled.
