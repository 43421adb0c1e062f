/**
 * The game objects and the main loop: Player objects that move and shoot, the state the
 * script keeps in globals (two players, the `bullets` and `effects` arrays), and `update()`
 * as a method that runs one frame in place and returns whether it reschedules itself.
 */
module Game {
  import opened Collision
  import opened ArraySplice
  import opened Entities
  import opened Rules
  import opened Properties

  /** No object occurs twice. */
  predicate Distinct<T(==)>(s: seq<T>) {
    forall i, j :: 0 <= i < j < |s| ==> s[i] != s[j]
  }

  lemma SpliceKeepsDistinct<T>(s: seq<T>, i: nat)
    requires Distinct(s)
    ensures Distinct(Splice(s, i))
  {
    var r := Splice(s, i);
    SpliceElements(s, i);
    forall a, b | 0 <= a < b < |r|
      ensures r[a] != r[b]
    {
      var a' := if a < i then a else a + 1;
      var b' := if b < i then b else b + 1;
      assert r[a] == s[a'] && r[b] == s[b'];
    }
  }

  /** The values of a sequence of bullets. */
  function BulletValues(bs: seq<Bullet>): (r: seq<BulletV>)
    reads bs
    ensures |r| == |bs| && forall i :: 0 <= i < |bs| ==> r[i] == bs[i].Value()
  {
    seq(|bs|, i reads bs requires 0 <= i < |bs| => bs[i].Value())
  }

  lemma BulletValuesSplice(bs: seq<Bullet>, i: nat)
    ensures BulletValues(Splice(bs, i)) == Splice(BulletValues(bs), i)
  {
    SpliceElements(bs, i);
    SpliceElements(BulletValues(bs), i);
  }

  /** The values of a sequence of effects. */
  function EffectValues(es: seq<Effect>): (r: seq<EffectV>)
    reads es
    ensures |r| == |es| && forall i :: 0 <= i < |es| ==> r[i] == es[i].Value()
  {
    seq(|es|, i reads es requires 0 <= i < |es| => es[i].Value())
  }

  lemma EffectValuesSplice(es: seq<Effect>, i: nat)
    ensures EffectValues(Splice(es, i)) == Splice(EffectValues(es), i)
  {
    SpliceElements(es, i);
    SpliceElements(EffectValues(es), i);
  }

  /** A paddle; y, health and the time of its last shot change during play. */
  class Player {
    const x: int
    var y: int
    const width: int := PLAYER_WIDTH
    const height: int := PLAYER_HEIGHT
    const color: string
    var health: int
    var lastShot: int
    const controls: Controls

    function Value(): PlayerV
      reads this
    {
      PlayerV(x, y, color, health, lastShot, controls)
    }

    /** The rectangle used in the collision test; it depends on nothing that a hit changes. */
    function Bounds(): Rect
      reads this`y
    {
      Rect(x, y, width, height)
    }

    /** A player at x, starting at height y with full health and no shot taken. */
    constructor (x: int, color: string, controls: Controls, y: int)
      ensures Value() == PlayerV(x, y, color, START_HEALTH, 0, controls)
    {
      this.x := x;
      this.y := y;
      this.color := color;
      health := START_HEALTH;
      lastShot := 0;
      this.controls := controls;
    }

    method Move(keys: set<string>, canvasHeight: int)
      modifies this`y
      ensures Value() == Moved(old(Value()), keys, canvasHeight)
    {
      if Held(keys, controls.up) && y > 0 {
        y := y - PLAYER_SPEED;
      }
      if Held(keys, controls.down) && y + height < canvasHeight {
        y := y + PLAYER_SPEED;
      }
    }

    /** Pushes onto the game's `bullets`; `now` is the clock reading taken by this call. */
    method Shoot(keys: set<string>, now: int, game: GameState)
      requires game.Valid()
      modifies this`lastShot, game`bullets
      ensures game.Valid()
      ensures Value() == AfterShot(old(Value()), keys, now)
      ensures BulletValues(game.bullets) == BulletsAfterShot(old(Value()), keys, now, old(BulletValues(game.bullets)))
      ensures |game.bullets| >= |old(game.bullets)| && game.bullets[..|old(game.bullets)|] == old(game.bullets)
      ensures forall i :: |old(game.bullets)| <= i < |game.bullets| ==> fresh(game.bullets[i])
    {
      ghost var values := BulletValues(game.bullets);
      if Held(keys, controls.shoot) && now - lastShot > SHOOT_COOLDOWN {
        var b := new Bullet(x + (if controls.dir == Right then width else -12), y + height / 2, controls.dir, color);
        assert b.Value() == Spawned(old(Value()));
        ghost var before := game.bullets;
        game.bullets := game.bullets + [b];
        lastShot := now;
        assert BulletValues(game.bullets) == values + [b.Value()] by {
          assert forall i :: 0 <= i < |before| ==> game.bullets[i] == before[i];
        }
      }
    }
  }

  /** The script's global state. */
  class GameState {
    const player1: Player
    const player2: Player
    var bullets: seq<Bullet>
    var effects: seq<Effect>

    ghost predicate Valid()
      reads this
    {
      player1 != player2 && Distinct(bullets) && Distinct(effects)
    }

    function State(): World
      reads this, player1, player2, bullets, effects
    {
      World(player1.Value(), player2.Value(), BulletValues(bullets), EffectValues(effects))
    }

    function Pass(): BulletPass
      reads this, player1, player2, bullets, effects
    {
      BulletPass(BulletValues(bullets), EffectValues(effects), player1.health, player2.health)
    }

    /** Player 1 at x = 50 facing right, player 2 at 100 from the right edge facing left,
        both at the initial height y; no bullets, no effects. */
    constructor (canvasWidth: int, y: int)
      ensures Valid() && fresh(player1) && fresh(player2)
      ensures State() == World(PlayerV(50, y, "deepskyblue", START_HEALTH, 0, Controls("w", "s", " ", Right)),
                               PlayerV(canvasWidth - 100, y, "crimson", START_HEALTH, 0, Controls("ArrowUp", "ArrowDown", "Enter", Left)),
                               [], [])
    {
      player1 := new Player(50, "deepskyblue", Controls("w", "s", " ", Right), y);
      player2 := new Player(canvasWidth - 100, "crimson", Controls("ArrowUp", "ArrowDown", "Enter", Left), y);
      bullets := [];
      effects := [];
    }

    /** `update()` without its drawing: both players move and shoot, the bullets and then
        the effects are updated, and the health check decides whether to call
        `requestAnimationFrame(update)` again; when it does not, the banner names the winner. */
    method Update(keys: set<string>, now1: int, now2: int, canvasWidth: int, canvasHeight: int)
      returns (reschedule: bool, banner: string)
      requires Valid()
      modifies this, player1, player2, bullets, effects
      ensures Valid()
      ensures (State(), reschedule) == Frame(old(State()), keys, now1, now2, canvasWidth, canvasHeight)
      ensures reschedule <==> !GameOver(player1.health, player2.health)
      ensures banner == if reschedule then "" else Winner(player1.health, player2.health) + " Wins!"
    {
      ghost var w := State();
      Simulate(keys, now1, now2, canvasWidth, canvasHeight);
      FrameReschedulesIffBothAlive(w, keys, now1, now2, canvasWidth, canvasHeight);
      if player1.health <= 0 || player2.health <= 0 {
        return false, (if player1.health <= 0 then "Player 2" else "Player 1") + " Wins!";
      }
      return true, "";
    }

    /** The state changes of `update()`: game.js:136-167 without the drawing. */
    method Simulate(keys: set<string>, now1: int, now2: int, canvasWidth: int, canvasHeight: int)
      requires Valid()
      modifies this, player1, player2, bullets, effects
      ensures Valid()
      ensures State() == Frame(old(State()), keys, now1, now2, canvasWidth, canvasHeight).0
    {
      ghost var a := AfterPlayers(State(), keys, now1, now2, canvasHeight);
      MovePlayers(keys, now1, now2, canvasHeight);
      ghost var r1, r2 := player1.Bounds(), player2.Bounds();
      assert State() == a && r1 == a.player1.Bounds() && r2 == a.player2.Bounds();
      UpdateBullets(canvasWidth);
      ghost var s := Pass();
      assert s == BulletLoop(BulletPass(a.bullets, a.effects, a.player1.health, a.player2.health), 0, |a.bullets|, r1, r2, canvasWidth);
      assert State() == World(a.player1.(health := s.health1), a.player2.(health := s.health2), s.bullets, s.effects);
      UpdateEffects();
    }

    /** game.js:136-142 without the drawing: each player moves, then shoots. */
    method MovePlayers(keys: set<string>, now1: int, now2: int, canvasHeight: int)
      requires Valid()
      modifies this`bullets, player1`y, player1`lastShot, player2`y, player2`lastShot
      ensures Valid()
      ensures State() == AfterPlayers(old(State()), keys, now1, now2, canvasHeight)
      ensures |bullets| >= |old(bullets)| && bullets[..|old(bullets)|] == old(bullets)
      ensures forall i :: |old(bullets)| <= i < |bullets| ==> fresh(bullets[i])
    {
      ghost var b0 := bullets;
      Turn(player1, keys, now1, canvasHeight);
      ghost var b1 := bullets;
      Turn(player2, keys, now2, canvasHeight);
      assert bullets[..|b1|] == b1 && b1[..|b0|] == b0;
      assert bullets[..|b0|] == b0;
    }

    /** `p.move(); p.shoot();` */
    method Turn(p: Player, keys: set<string>, now: int, canvasHeight: int)
      requires Valid() && (p == player1 || p == player2)
      modifies this`bullets, p`y, p`lastShot
      ensures Valid()
      ensures var w := old(State());
        var m := Moved(old(p.Value()), keys, canvasHeight);
        State() == World(if p == player1 then AfterShot(m, keys, now) else w.player1,
                         if p == player2 then AfterShot(m, keys, now) else w.player2,
                         BulletsAfterShot(m, keys, now, w.bullets), w.effects)
      ensures |bullets| >= |old(bullets)| && bullets[..|old(bullets)|] == old(bullets)
      ensures forall i :: |old(bullets)| <= i < |bullets| ==> fresh(bullets[i])
    {
      p.Move(keys, canvasHeight);
      p.Shoot(keys, now, this);
    }

    /** `bullets.forEach(...)` at game.js:144-161, index by index. */
    method UpdateBullets(canvasWidth: int)
      requires Valid()
      modifies this`bullets, this`effects, player1`health, player2`health, bullets
      ensures Valid()
      ensures Pass() == BulletLoop(old(Pass()), 0, old(|bullets|), old(player1.Bounds()), old(player2.Bounds()), canvasWidth)
      ensures forall b :: b in bullets ==> b in old(bullets)
      ensures forall i :: 0 <= i < |effects| ==> effects[i] in old(effects) || fresh(effects[i])
    {
      var r1, r2 := player1.Bounds(), player2.Bounds();
      var len := |bullets|;
      ghost var cur := Pass();
      ghost var target := BulletLoop(cur, 0, len, r1, r2, canvasWidth);
      var idx := 0;
      while idx < len
        invariant Valid() && idx <= len
        invariant forall b :: b in bullets ==> b in old(bullets)
        invariant forall i :: 0 <= i < |effects| ==> effects[i] in old(effects) || fresh(effects[i])
        invariant Pass() == cur
        invariant BulletLoop(cur, idx, len, r1, r2, canvasWidth) == target
      {
        BulletLoopStep(cur, idx, len, r1, r2, canvasWidth);
        if idx < |bullets| {
          assert bullets[idx] in bullets;
          VisitBulletAt(idx, canvasWidth);
          cur := VisitBullet(cur, idx, r1, r2, canvasWidth);
        }
        idx := idx + 1;
      }
    }

    /** The `forEach` callback for the bullet at index idx. */
    method VisitBulletAt(idx: nat, canvasWidth: int)
      requires Valid() && idx < |bullets|
      modifies this`bullets, this`effects, player1`health, player2`health, bullets[idx]
      ensures Valid()
      ensures Pass() == VisitBullet(old(Pass()), idx, old(player1.Bounds()), old(player2.Bounds()), canvasWidth)
      ensures forall b :: b in bullets ==> b in old(bullets)
      ensures forall i :: 0 <= i < |effects| ==> effects[i] in old(effects) || fresh(effects[i])
    {
      var bullet := bullets[idx];
      AdvanceBullet(idx);
      HitTest(bullet, idx);
      if bullet.x < 0 || bullet.x > canvasWidth {
        RemoveBullet(idx);
      }
    }

    /** game.js:149-157: a bullet facing right tested against player 2, one facing left
        against player 1. */
    method HitTest(bullet: Bullet, idx: nat)
      requires Valid()
      modifies this`bullets, this`effects, player1`health, player2`health
      ensures Valid()
      ensures Pass() == AfterHit(old(Pass()), idx, bullet.Value(), old(player1.Bounds()), old(player2.Bounds()))
      ensures forall b :: b in bullets ==> b in old(bullets)
      ensures forall i :: 0 <= i < |effects| ==> effects[i] in old(effects) || fresh(effects[i])
    {
      if bullet.dir == Right && IsColliding(bullet.Value().Bounds(), player2.Bounds()) {
        Strike(player2, bullet.x, bullet.y, idx);
      } else if bullet.dir == Left && IsColliding(bullet.Value().Bounds(), player1.Bounds()) {
        Strike(player1, bullet.x, bullet.y, idx);
      }
    }

    /** `bullet.update()` on the bullet at index idx. */
    method AdvanceBullet(idx: nat)
      requires Valid() && idx < |bullets|
      modifies bullets[idx]
      ensures Pass() == old(Pass()).(bullets := old(Pass()).bullets[idx := old(Pass()).bullets[idx].Moved()])
      ensures bullets[idx].Value() == old(bullets[idx].Value()).Moved()
    {
      bullets[idx].Update();
      assert BulletValues(bullets) == old(BulletValues(bullets))[idx := bullets[idx].Value()];
    }

    /** A hit on target at game.js:150-152 or 154-156: one health point off, a new effect
        pushed at (x, y), and `bullets.splice(idx, 1)`. */
    method Strike(target: Player, x: int, y: int, idx: nat)
      requires Valid() && (target == player1 || target == player2)
      modifies this`bullets, this`effects, target`health
      ensures Valid()
      ensures var s := old(Pass());
        Pass() == BulletPass(Splice(s.bullets, idx), s.effects + [NewEffect(x, y)],
                             if target == player1 then s.health1 - 1 else s.health1,
                             if target == player2 then s.health2 - 1 else s.health2)
      ensures forall b :: b in bullets ==> b in old(bullets)
      ensures forall i :: 0 <= i < |effects| ==> effects[i] in old(effects) || fresh(effects[i])
    {
      target.health := target.health - 1;
      AddEffect(x, y);
      RemoveBullet(idx);
    }

    /** `bullets.splice(idx, 1)`. */
    method RemoveBullet(idx: nat)
      requires Valid()
      modifies this`bullets
      ensures Valid()
      ensures Pass() == old(Pass()).(bullets := Splice(old(Pass()).bullets, idx))
      ensures forall b :: b in bullets ==> b in old(bullets)
    {
      SpliceKeepsDistinct(bullets, idx);
      BulletValuesSplice(bullets, idx);
      bullets := Splice(bullets, idx);
    }

    /** `effects.push(new Effect(x, y))`. */
    method AddEffect(x: int, y: int)
      requires Valid()
      modifies this`effects
      ensures Valid()
      ensures EffectValues(effects) == old(EffectValues(effects)) + [NewEffect(x, y)]
      ensures forall i :: 0 <= i < |effects| ==> effects[i] in old(effects) || fresh(effects[i])
    {
      var e := new Effect(x, y);
      ghost var before := effects;
      effects := effects + [e];
      assert forall i :: 0 <= i < |before| ==> effects[i] == before[i];
    }

    /** `effects.forEach(...)` at game.js:163-167, index by index. */
    method UpdateEffects()
      requires Valid()
      modifies this`effects, effects
      ensures Valid()
      ensures EffectValues(effects) == EffectLoop(old(EffectValues(effects)), 0, old(|effects|))
      ensures unchanged(bullets)
    {
      var len := |effects|;
      ghost var cur := EffectValues(effects);
      ghost var target := EffectLoop(cur, 0, len);
      var idx := 0;
      while idx < len
        invariant Valid() && idx <= len
        invariant forall e :: e in effects ==> e in old(effects)
        invariant EffectValues(effects) == cur
        invariant unchanged(bullets)
        invariant EffectLoop(cur, idx, len) == target
      {
        EffectLoopStep(cur, idx, len);
        if idx < |effects| {
          assert effects[idx] in effects;
          VisitEffectAt(idx);
          cur := VisitEffect(cur, idx);
        }
        idx := idx + 1;
      }
    }

    /** The `forEach` callback for the effect at index idx. */
    method VisitEffectAt(idx: nat)
      requires Valid() && idx < |effects|
      modifies this`effects, effects[idx]
      ensures Valid()
      ensures EffectValues(effects) == VisitEffect(old(EffectValues(effects)), idx)
      ensures forall e :: e in effects ==> e in old(effects)
    {
      ghost var before := EffectValues(effects);
      var effect := effects[idx];
      effect.Update();
      assert EffectValues(effects) == before[idx := effect.Value()];
      if effect.life <= 0 {
        SpliceKeepsDistinct(effects, idx);
        EffectValuesSplice(effects, idx);
        effects := Splice(effects, idx);
      }
    }
  }
}
