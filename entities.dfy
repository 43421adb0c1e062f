/**
 * The game's entities: their settings, their value views and the per-frame rules
 * that update them (Player movement and firing, Bullet flight, Effect growth).
 */
module Entities {
  import opened Collision

  const PLAYER_SPEED := 5
  const BULLET_SPEED := 12
  const SHOOT_COOLDOWN := 300

  const PLAYER_WIDTH := 50
  const PLAYER_HEIGHT := 50
  const START_HEALTH := 5
  const BULLET_WIDTH := 12
  const BULLET_HEIGHT := 5
  const EFFECT_RADIUS := 10
  const EFFECT_LIFE := 20

  /** Firing direction; the game only ever uses 'right' (player 1) and 'left' (player 2). */
  datatype Dir = Right | Left

  /** A player's key bindings and firing direction. */
  datatype Controls = Controls(up: string, down: string, shoot: string, dir: Dir)

  /** The value of a Player object. */
  datatype PlayerV = PlayerV(x: int, y: int, color: string, health: int, lastShot: int, controls: Controls)
  {
    function Bounds(): Rect {
      Rect(x, y, PLAYER_WIDTH, PLAYER_HEIGHT)
    }
  }

  /** The value of a Bullet object. */
  datatype BulletV = BulletV(x: int, y: int, color: string, dir: Dir)
  {
    function Bounds(): Rect {
      Rect(x, y, BULLET_WIDTH, BULLET_HEIGHT)
    }

    /** `Bullet.update`: one step along the firing direction. */
    function Moved(): BulletV {
      this.(x := x + if dir == Right then BULLET_SPEED else -BULLET_SPEED)
    }
  }

  /** The value of an Effect object. */
  datatype EffectV = EffectV(x: int, y: int, radius: int, life: int)
  {
    /** `Effect.update`: the ring grows and its remaining life shrinks. */
    function Aged(): EffectV {
      this.(radius := radius + 2, life := life - 1)
    }
  }

  /** `new Effect(x, y)`. */
  function NewEffect(x: int, y: int): EffectV {
    EffectV(x, y, EFFECT_RADIUS, EFFECT_LIFE)
  }

  /** A held key is one in the set; a key that was never pressed is not held. */
  predicate Held(keys: set<string>, key: string) {
    key in keys
  }

  /** `Player.move`: the up test first, then the down test on the updated y. */
  function Moved(p: PlayerV, keys: set<string>, canvasHeight: int): PlayerV {
    var y1 := if Held(keys, p.controls.up) && p.y > 0 then p.y - PLAYER_SPEED else p.y;
    var y2 := if Held(keys, p.controls.down) && y1 + PLAYER_HEIGHT < canvasHeight then y1 + PLAYER_SPEED else y1;
    p.(y := y2)
  }

  /** The guard of `Player.shoot`. */
  predicate CanShoot(p: PlayerV, keys: set<string>, now: int) {
    Held(keys, p.controls.shoot) && now - p.lastShot > SHOOT_COOLDOWN
  }

  /** The bullet `Player.shoot` pushes: at the leading edge, at half the player's height. */
  function Spawned(p: PlayerV): BulletV {
    BulletV(p.x + (if p.controls.dir == Right then PLAYER_WIDTH else -12),
            p.y + PLAYER_HEIGHT / 2, p.color, p.controls.dir)
  }

  /** The player after `Player.shoot`. */
  function AfterShot(p: PlayerV, keys: set<string>, now: int): PlayerV {
    if CanShoot(p, keys, now) then p.(lastShot := now) else p
  }

  /** The bullets after `Player.shoot`. */
  function BulletsAfterShot(p: PlayerV, keys: set<string>, now: int, bullets: seq<BulletV>): seq<BulletV> {
    if CanShoot(p, keys, now) then bullets + [Spawned(p)] else bullets
  }

  /** Within PLAYER_SPEED of the playfield vertically. */
  predicate NearField(p: PlayerV, canvasHeight: int) {
    -PLAYER_SPEED < p.y && p.y + PLAYER_HEIGHT < canvasHeight + PLAYER_SPEED
  }

  // ----- Player.move -----

  /** Only y changes, by -5, 0 or +5; neither key held leaves it unchanged. */
  lemma MoveChangesOnlyY(p: PlayerV, keys: set<string>, canvasHeight: int)
    ensures var q := Moved(p, keys, canvasHeight);
      q == p.(y := q.y) &&
      q.y - p.y in {-PLAYER_SPEED, 0, PLAYER_SPEED} &&
      (!Held(keys, p.controls.up) && !Held(keys, p.controls.down) ==> q == p)
  {
  }

  /** The down test sees the y the up test left. With both keys held: a player clear of
      both edges ends where it started, one whose bottom is 5 or more below the canvas
      bottom (possible only on a canvas 90 or less high at load, or after it shrinks) ends
      5 higher, and one at or above the top ends 5 lower if there is room below. */
  lemma MoveSteps(p: PlayerV, keys: set<string>, canvasHeight: int)
    requires Held(keys, p.controls.up) && Held(keys, p.controls.down)
    ensures 0 < p.y && p.y + PLAYER_HEIGHT - PLAYER_SPEED < canvasHeight ==> Moved(p, keys, canvasHeight) == p
    ensures 0 < p.y && canvasHeight <= p.y + PLAYER_HEIGHT - PLAYER_SPEED ==> Moved(p, keys, canvasHeight) == p.(y := p.y - PLAYER_SPEED)
    ensures p.y <= 0 && p.y + PLAYER_HEIGHT < canvasHeight ==> Moved(p, keys, canvasHeight) == p.(y := p.y + PLAYER_SPEED)
    ensures p.y <= 0 && canvasHeight <= p.y + PLAYER_HEIGHT ==> Moved(p, keys, canvasHeight) == p
  {
  }

  /** y > -5 survives every move. */
  lemma MoveKeepsTopBound(p: PlayerV, keys: set<string>, canvasHeight: int)
    requires p.y > -PLAYER_SPEED
    ensures Moved(p, keys, canvasHeight).y > -PLAYER_SPEED
  {
  }

  /** On a canvas of fixed height, a player near the field stays near it. */
  lemma MoveKeepsNearField(p: PlayerV, keys: set<string>, canvasHeight: int)
    requires NearField(p, canvasHeight)
    ensures NearField(Moved(p, keys, canvasHeight), canvasHeight)
  {
  }

  // ----- Player.shoot -----

  /** A shot appends exactly one bullet and stamps the time; no shot changes nothing. */
  lemma ShootEffect(p: PlayerV, keys: set<string>, now: int, bullets: seq<BulletV>)
    ensures var bs := BulletsAfterShot(p, keys, now, bullets);
      var q := AfterShot(p, keys, now);
      (|bs| == |bullets| + 1 <==> Held(keys, p.controls.shoot) && now - p.lastShot > 300) &&
      (|bs| == |bullets| + 1 ==> bs[..|bullets|] == bullets && bs[|bullets|] == Spawned(p) && q == p.(lastShot := now)) &&
      (|bs| != |bullets| + 1 ==> bs == bullets && q == p)
  {
  }

  /** Two shoot calls at the same instant spawn at most one bullet. */
  lemma OneShotPerInstant(p: PlayerV, keys: set<string>, now: int, bullets: seq<BulletV>)
    ensures var q := AfterShot(p, keys, now);
      |BulletsAfterShot(q, keys, now, BulletsAfterShot(p, keys, now, bullets))| <= |bullets| + 1
  {
  }

  /** Two successful shots are more than the cooldown apart. */
  lemma ShotsRespectCooldown(p: PlayerV, keys1: set<string>, keys2: set<string>, t1: int, t2: int)
    requires CanShoot(p, keys1, t1)
    requires CanShoot(AfterShot(p, keys1, t1), keys2, t2)
    ensures t2 - t1 > SHOOT_COOLDOWN
  {
  }

  /** The spawned bullet takes position, direction and colour from its shooter, starts
      flush against the shooter's leading edge and never overlaps the shooter. */
  lemma SpawnedFromShooter(p: PlayerV)
    ensures var b := Spawned(p);
      b.x == (if p.controls.dir == Right then p.x + 50 else p.x - 12) &&
      b.y == p.y + 25 && b.dir == p.controls.dir && b.color == p.color &&
      b.Bounds().width == 12 && b.Bounds().height == 5 &&
      !IsColliding(b.Bounds(), p.Bounds())
  {
  }

  // ----- Bullet.update and Effect.update -----

  /** The bullet after k calls of `update`. */
  function MovedTimes(b: BulletV, k: nat): BulletV {
    if k == 0 then b else MovedTimes(b, k - 1).Moved()
  }

  /** After k updates a bullet is 12k further along its direction; y, colour and direction stay. */
  lemma {:induction false} BulletAfterUpdates(b: BulletV, k: nat)
    ensures MovedTimes(b, k) == b.(x := b.x + if b.dir == Right then BULLET_SPEED * k else -BULLET_SPEED * k)
  {
    if k > 0 {
      BulletAfterUpdates(b, k - 1);
    }
  }

  /** The effect after k calls of `update`. */
  function AgedTimes(e: EffectV, k: nat): EffectV {
    if k == 0 then e else AgedTimes(e, k - 1).Aged()
  }

  /** A new effect after k updates has radius 10 + 2k and life 20 - k. */
  lemma {:induction false} EffectAfterUpdates(x: int, y: int, k: nat)
    ensures AgedTimes(NewEffect(x, y), k) == EffectV(x, y, 10 + 2 * k, 20 - k)
  {
    if k > 0 {
      EffectAfterUpdates(x, y, k - 1);
    }
  }

  /** A new effect's life reaches zero at exactly its 20th update. */
  lemma {:induction false} EffectExpiresAtTwenty(x: int, y: int, k: nat)
    ensures AgedTimes(NewEffect(x, y), k).life <= 0 <==> k >= 20
  {
    EffectAfterUpdates(x, y, k);
  }

  // ----- The objects -----

  /** A projectile; x is the only field that changes after it is built. */
  class Bullet {
    var x: int
    const y: int
    const width: int := BULLET_WIDTH
    const height: int := BULLET_HEIGHT
    const color: string
    const dir: Dir

    function Value(): BulletV
      reads this
    {
      BulletV(x, y, color, dir)
    }

    constructor (x: int, y: int, dir: Dir, color: string)
      ensures Value() == BulletV(x, y, color, dir)
    {
      this.x := x;
      this.y := y;
      this.color := color;
      this.dir := dir;
    }

    method Update()
      modifies this
      ensures Value() == old(Value()).Moved()
    {
      x := x + if dir == Right then BULLET_SPEED else -BULLET_SPEED;
    }
  }

  /** A hit marker: a growing ring whose life counts down. */
  class Effect {
    const x: int
    const y: int
    var radius: int
    var life: int

    function Value(): EffectV
      reads this
    {
      EffectV(x, y, radius, life)
    }

    constructor (x: int, y: int)
      ensures Value() == NewEffect(x, y)
    {
      this.x := x;
      this.y := y;
      radius := EFFECT_RADIUS;
      life := EFFECT_LIFE;
    }

    method Update()
      modifies this
      ensures Value() == old(Value()).Aged()
    {
      radius := radius + 2;
      life := life - 1;
    }
  }
}
