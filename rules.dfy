/**
 * The value-level specification of one call of `update()` (drawing left out):
 * both players move and shoot, the bullets and then the effects are walked with
 * `forEach` while being spliced, and the health check decides whether to reschedule.
 *
 * `forEach` fixes its visit range at the length the array has when it starts, skips
 * an index that is no longer present, and visits `array[idx]` as it is at that moment;
 * so after a splice at idx the element that shifts into idx is not visited this frame.
 */
module Rules {
  import opened Collision
  import opened ArraySplice
  import opened Entities

  /** What the bullet loop reads and writes. */
  datatype BulletPass = BulletPass(bullets: seq<BulletV>, effects: seq<EffectV>, health1: int, health2: int)

  /** The whole game state. */
  datatype World = World(player1: PlayerV, player2: PlayerV, bullets: seq<BulletV>, effects: seq<EffectV>)

  /** A hit at game.js:149 (player 2 struck) or game.js:153 (player 1 struck). */
  predicate HitsPlayer2(b: BulletV, r2: Rect) {
    b.dir == Right && IsColliding(b.Bounds(), r2)
  }

  predicate HitsPlayer1(b: BulletV, r1: Rect) {
    b.dir == Left && IsColliding(b.Bounds(), r1)
  }

  predicate OffScreen(b: BulletV, canvasWidth: int) {
    b.x < 0 || b.x > canvasWidth
  }

  /** The hit test of the bullet callback for the moved bullet b at index idx: the struck
      player loses one health point, an effect is pushed at b and b is spliced out. */
  function AfterHit(s: BulletPass, idx: nat, b: BulletV, r1: Rect, r2: Rect): BulletPass {
    if HitsPlayer2(b, r2) then
      BulletPass(Splice(s.bullets, idx), s.effects + [NewEffect(b.x, b.y)], s.health1, s.health2 - 1)
    else if HitsPlayer1(b, r1) then
      BulletPass(Splice(s.bullets, idx), s.effects + [NewEffect(b.x, b.y)], s.health1 - 1, s.health2)
    else
      s
  }

  /** One call of the bullet callback at index idx. The off-screen test uses the bullet
      just updated, even when it was already spliced out by a hit, and then splices
      whatever sits at idx by then. */
  function VisitBullet(s: BulletPass, idx: nat, r1: Rect, r2: Rect, canvasWidth: int): BulletPass
    requires idx < |s.bullets|
  {
    var b := s.bullets[idx].Moved();
    var hit := AfterHit(s.(bullets := s.bullets[idx := b]), idx, b, r1, r2);
    if OffScreen(b, canvasWidth) then hit.(bullets := Splice(hit.bullets, idx)) else hit
  }

  /** `bullets.forEach(...)` from index idx on, with the visit range fixed at len. */
  function BulletLoop(s: BulletPass, idx: nat, len: nat, r1: Rect, r2: Rect, canvasWidth: int): BulletPass
    decreases len - idx
  {
    if idx >= len then s
    else
      var next := if idx < |s.bullets| then VisitBullet(s, idx, r1, r2, canvasWidth) else s;
      BulletLoop(next, idx + 1, len, r1, r2, canvasWidth)
  }

  /** The first step of the bullet loop, on its own. */
  lemma BulletLoopStep(s: BulletPass, idx: nat, len: nat, r1: Rect, r2: Rect, canvasWidth: int)
    requires idx < len
    ensures BulletLoop(s, idx, len, r1, r2, canvasWidth)
         == BulletLoop(if idx < |s.bullets| then VisitBullet(s, idx, r1, r2, canvasWidth) else s, idx + 1, len, r1, r2, canvasWidth)
  {
  }

  /** One call of the effect callback at index idx. */
  function VisitEffect(effects: seq<EffectV>, idx: nat): seq<EffectV>
    requires idx < |effects|
  {
    var e := effects[idx].Aged();
    var es := effects[idx := e];
    if e.life <= 0 then Splice(es, idx) else es
  }

  /** `effects.forEach(...)` from index idx on, with the visit range fixed at len. */
  function EffectLoop(effects: seq<EffectV>, idx: nat, len: nat): seq<EffectV>
    decreases len - idx
  {
    if idx >= len then effects
    else
      var next := if idx < |effects| then VisitEffect(effects, idx) else effects;
      EffectLoop(next, idx + 1, len)
  }

  /** The first step of the effect loop, on its own. */
  lemma EffectLoopStep(effects: seq<EffectV>, idx: nat, len: nat)
    requires idx < len
    ensures EffectLoop(effects, idx, len)
         == EffectLoop(if idx < |effects| then VisitEffect(effects, idx) else effects, idx + 1, len)
  {
  }

  /** The game is over once either health is at or below zero. */
  predicate GameOver(health1: int, health2: int) {
    health1 <= 0 || health2 <= 0
  }

  /** The banner's winner: "Player 2" exactly when player 1's health is gone. */
  function Winner(health1: int, health2: int): string
    requires GameOver(health1, health2)
  {
    if health1 <= 0 then "Player 2" else "Player 1"
  }

  /** The state just before the bullet loop: both players have moved and shot. */
  function AfterPlayers(w: World, keys: set<string>, now1: int, now2: int, canvasHeight: int): World {
    var m1 := Moved(w.player1, keys, canvasHeight);
    var bs1 := BulletsAfterShot(m1, keys, now1, w.bullets);
    var p1 := AfterShot(m1, keys, now1);
    var m2 := Moved(w.player2, keys, canvasHeight);
    var bs2 := BulletsAfterShot(m2, keys, now2, bs1);
    var p2 := AfterShot(m2, keys, now2);
    World(p1, p2, bs2, w.effects)
  }

  /** One frame: the new state, and whether `update` reschedules itself. */
  function Frame(w: World, keys: set<string>, now1: int, now2: int, canvasWidth: int, canvasHeight: int): (World, bool)
  {
    var a := AfterPlayers(w, keys, now1, now2, canvasHeight);
    var s := BulletLoop(BulletPass(a.bullets, a.effects, a.player1.health, a.player2.health),
                        0, |a.bullets|, a.player1.Bounds(), a.player2.Bounds(), canvasWidth);
    var es := EffectLoop(s.effects, 0, |s.effects|);
    var w' := World(a.player1.(health := s.health1), a.player2.(health := s.health2), s.bullets, es);
    (w', !GameOver(s.health1, s.health2))
  }

  /** One frame's input: the held keys, each player's clock reading and the canvas size. */
  datatype Tick = Tick(keys: set<string>, now1: int, now2: int, canvasWidth: int, canvasHeight: int)

  /** The frames the browser runs for the given inputs: `update` is called again only after
      a frame that rescheduled it. The result is the final state and the number of frames run. */
  function Play(w: World, ticks: seq<Tick>): (World, nat)
    decreases |ticks|
  {
    if ticks == [] then (w, 0)
    else
      var t := ticks[0];
      var (w', again) := Frame(w, t.keys, t.now1, t.now2, t.canvasWidth, t.canvasHeight);
      if again then
        var (final, n) := Play(w', ticks[1..]);
        (final, n + 1)
      else (w', 1)
  }
}
