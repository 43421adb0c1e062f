/** What one frame guarantees: health only falls, every hit leaves one effect, the loops
    never grow their arrays, and the end of the match is absorbing. */
module Properties {
  import opened Collision
  import opened ArraySplice
  import opened Entities
  import opened Rules

  /** Health lost in going from s to t. */
  function Lost(s: BulletPass, t: BulletPass): int {
    (s.health1 - t.health1) + (s.health2 - t.health2)
  }

  /** Every effect of es from index `from` on is a freshly created one. */
  predicate FreshFrom(es: seq<EffectV>, from: nat) {
    forall i :: from <= i < |es| ==> es[i].radius == EFFECT_RADIUS && es[i].life == EFFECT_LIFE
  }

  // ----- The bullet loop -----

  /** Going from s to t, health never rises, the effects appended are new ones and as many
      as the health points lost, and the bullets never grow. */
  predicate Accounts(s: BulletPass, t: BulletPass) {
    t.health1 <= s.health1 && t.health2 <= s.health2 &&
    |t.effects| == |s.effects| + Lost(s, t) &&
    t.effects[..|s.effects|] == s.effects && FreshFrom(t.effects, |s.effects|) &&
    |t.bullets| <= |s.bullets|
  }

  lemma AccountsCompose(s: BulletPass, m: BulletPass, t: BulletPass)
    requires Accounts(s, m) && Accounts(m, t)
    ensures Accounts(s, t)
  {
    assert t.effects[..|s.effects|] == t.effects[..|m.effects|][..|s.effects|];
  }

  /** One callback: at most one health point is lost, on one side, exactly one effect is
      appended per point lost, and at most two bullets are removed. */
  lemma VisitBulletAccounting(s: BulletPass, idx: nat, r1: Rect, r2: Rect, canvasWidth: int)
    requires idx < |s.bullets|
    ensures var t := VisitBullet(s, idx, r1, r2, canvasWidth);
      Accounts(s, t) && Lost(s, t) <= 1 && |s.bullets| - 2 <= |t.bullets|
  {
  }

  /** The whole loop keeps the accounts, and loses at most one health point per visited index. */
  lemma {:induction false} BulletLoopAccounting(s: BulletPass, idx: nat, len: nat, r1: Rect, r2: Rect, canvasWidth: int)
    ensures var t := BulletLoop(s, idx, len, r1, r2, canvasWidth);
      Accounts(s, t) && (idx <= len ==> Lost(s, t) <= len - idx)
    decreases len - idx
  {
    var t := BulletLoop(s, idx, len, r1, r2, canvasWidth);
    if idx < len {
      var next := if idx < |s.bullets| then VisitBullet(s, idx, r1, r2, canvasWidth) else s;
      assert t == BulletLoop(next, idx + 1, len, r1, r2, canvasWidth);
      if idx < |s.bullets| {
        VisitBulletAccounting(s, idx, r1, r2, canvasWidth);
      } else {
        assert Accounts(s, next);
      }
      BulletLoopAccounting(next, idx + 1, len, r1, r2, canvasWidth);
      AccountsCompose(s, next, t);
    } else {
      assert t == s;
      assert Accounts(s, t);
    }
  }

  /** Both players lie horizontally inside the canvas, each at least a bullet's width (12)
      from its left edge. */
  predicate PlayersInside(r1: Rect, r2: Rect, canvasWidth: int) {
    BULLET_WIDTH <= r1.x && r1.x + r1.width <= canvasWidth &&
    BULLET_WIDTH <= r2.x && r2.x + r2.width <= canvasWidth
  }

  /** With both players inside the canvas a bullet that hits is on screen, so the second
      splice at game.js:160 never follows the first: a callback removes exactly one
      bullet when the bullet hits or leaves the screen, and none otherwise. */
  lemma VisitBulletRemovesAtMostOne(s: BulletPass, idx: nat, r1: Rect, r2: Rect, canvasWidth: int)
    requires idx < |s.bullets|
    requires PlayersInside(r1, r2, canvasWidth)
    ensures var b := s.bullets[idx].Moved();
      var t := VisitBullet(s, idx, r1, r2, canvasWidth);
      var removed := HitsPlayer2(b, r2) || HitsPlayer1(b, r1) || OffScreen(b, canvasWidth);
      |t.bullets| == |s.bullets| - (if removed then 1 else 0) &&
      (!removed ==> t.bullets == s.bullets[idx := b])
  {
    var b := s.bullets[idx].Moved();
    if HitsPlayer2(b, r2) || HitsPlayer1(b, r1) {
      assert !OffScreen(b, canvasWidth);
    }
  }

  /** Without that geometry the double splice is real: after the canvas is narrowed to 50
      a bullet that strikes player 2 beyond the right edge takes the next bullet with it. */
  lemma DoubleSpliceAfterNarrowing()
    ensures var b0 := BulletV(98, 10, "deepskyblue", Right);
      var b1 := BulletV(30, 10, "crimson", Left);
      var t := VisitBullet(BulletPass([b0, b1], [], 5, 5), 0, Rect(50, 0, 50, 50), Rect(100, 0, 50, 50), 50);
      t.bullets == [] && t.health2 == 4 && |t.effects| == 1
  {
    var b0 := BulletV(98, 10, "deepskyblue", Right);
    var b1 := BulletV(30, 10, "crimson", Left);
    assert HitsPlayer2(b0.Moved(), Rect(100, 0, 50, 50));
    assert [b0, b1][0 := b0.Moved()] == [b0.Moved(), b1];
    assert Splice([b0.Moved(), b1], 0) == [b1];
  }

  /** One callback leaves every bullet before idx where it was. */
  lemma VisitBulletKeepsPrefix(s: BulletPass, idx: nat, r1: Rect, r2: Rect, canvasWidth: int)
    requires idx < |s.bullets|
    ensures var t := VisitBullet(s, idx, r1, r2, canvasWidth);
      idx <= |t.bullets| && forall k :: 0 <= k < idx ==> t.bullets[k] == s.bullets[k]
  {
    var b := s.bullets[idx].Moved();
    var bs := s.bullets[idx := b];
    var hit := AfterHit(s.(bullets := bs), idx, b, r1, r2);
    SpliceElements(bs, idx);
    SpliceElements(hit.bullets, idx);
  }

  /** The loop from idx on never touches the bullet at any index k before idx. */
  lemma {:induction false} BulletLoopKeepsPrefix(s: BulletPass, idx: nat, len: nat, r1: Rect, r2: Rect, canvasWidth: int, k: nat)
    requires k < idx && k < |s.bullets|
    ensures k < |BulletLoop(s, idx, len, r1, r2, canvasWidth).bullets|
    ensures BulletLoop(s, idx, len, r1, r2, canvasWidth).bullets[k] == s.bullets[k]
    decreases len - idx
  {
    if idx < len {
      var next := if idx < |s.bullets| then VisitBullet(s, idx, r1, r2, canvasWidth) else s;
      BulletLoopStep(s, idx, len, r1, r2, canvasWidth);
      if idx < |s.bullets| {
        VisitBulletKeepsPrefix(s, idx, r1, r2, canvasWidth);
      }
      BulletLoopKeepsPrefix(next, idx + 1, len, r1, r2, canvasWidth, k);
    }
  }

  /** When the bullet visited at idx is removed, the one behind it shifts into idx and the
      loop moves on to idx + 1: that bullet ends the frame at idx exactly as it was,
      neither moved nor tested. */
  lemma ShiftedBulletIsSkipped(s: BulletPass, idx: nat, len: nat, r1: Rect, r2: Rect, canvasWidth: int)
    requires idx < len && idx + 1 < |s.bullets|
    requires PlayersInside(r1, r2, canvasWidth)
    requires var b := s.bullets[idx].Moved();
      HitsPlayer2(b, r2) || HitsPlayer1(b, r1) || OffScreen(b, canvasWidth)
    ensures var t := BulletLoop(s, idx, len, r1, r2, canvasWidth);
      idx < |t.bullets| && t.bullets[idx] == s.bullets[idx + 1]
  {
    var b := s.bullets[idx].Moved();
    var bs := s.bullets[idx := b];
    var next := VisitBullet(s, idx, r1, r2, canvasWidth);
    VisitBulletRemovesAtMostOne(s, idx, r1, r2, canvasWidth);
    SpliceElements(bs, idx);
    assert next.bullets == Splice(bs, idx);
    assert idx < |next.bullets| && next.bullets[idx] == s.bullets[idx + 1];
    BulletLoopStep(s, idx, len, r1, r2, canvasWidth);
    var t := BulletLoop(next, idx + 1, len, r1, r2, canvasWidth);
    BulletLoopKeepsPrefix(next, idx + 1, len, r1, r2, canvasWidth, idx);
    assert idx < |t.bullets| && t.bullets[idx] == next.bullets[idx];
  }

  /** An instance: a bullet of each player that would both leave the screen this frame. The
      right-facing one is visited first and removed; the left-facing one behind it stays,
      unmoved, until the next frame. */
  lemma ShiftedBulletExample()
    ensures var b0 := BulletV(795, 10, "deepskyblue", Right);
      var b1 := BulletV(5, 10, "crimson", Left);
      var t := BulletLoop(BulletPass([b0, b1], [], 5, 5), 0, 2, Rect(50, 300, 50, 50), Rect(700, 300, 50, 50), 800);
      t.bullets == [b1]
  {
    var b0 := BulletV(795, 10, "deepskyblue", Right);
    var b1 := BulletV(5, 10, "crimson", Left);
    var r1, r2 := Rect(50, 300, 50, 50), Rect(700, 300, 50, 50);
    var s := BulletPass([b0, b1], [], 5, 5);
    assert [b0, b1][0 := b0.Moved()] == [b0.Moved(), b1];
    assert Splice([b0.Moved(), b1], 0) == [b1];
    assert VisitBullet(s, 0, r1, r2, 800) == BulletPass([b1], [], 5, 5);
  }

  /** A bullet fired by a right-facing player at an opponent level with it overlaps the
      opponent after k updates exactly while 12k lies strictly between the gap to the
      opponent less 62 (the shooter's and the bullet's widths) and the gap itself. */
  lemma HitAfterUpdates(p: PlayerV, q: PlayerV, k: nat)
    requires p.controls.dir == Right && q.y == p.y
    ensures IsColliding(MovedTimes(Spawned(p), k).Bounds(), q.Bounds()) <==>
      q.x - p.x - PLAYER_WIDTH - BULLET_WIDTH < BULLET_SPEED * k < q.x - p.x
  {
    BulletAfterUpdates(Spawned(p), k);
  }

  /** On an 800-wide canvas player 1's bullet first overlaps player 2 after its 50th update
      (the least k with 12k > 800 - 212). */
  lemma FirstHitOnWideCanvas(p: PlayerV, q: PlayerV)
    requires p.controls.dir == Right && p.x == 50 && q.x == 800 - 100 && q.y == p.y
    ensures IsColliding(MovedTimes(Spawned(p), 50).Bounds(), q.Bounds())
    ensures forall k: nat :: k < 50 ==> !IsColliding(MovedTimes(Spawned(p), k).Bounds(), q.Bounds())
  {
    HitAfterUpdates(p, q, 50);
    forall k: nat | k < 50
      ensures !IsColliding(MovedTimes(Spawned(p), k).Bounds(), q.Bounds())
    {
      HitAfterUpdates(p, q, k);
    }
  }

  // ----- The effect loop -----

  /** One callback removes the visited effect exactly when its life, after its own
      update, is at or below zero. */
  lemma VisitEffectRemovesExpired(effects: seq<EffectV>, idx: nat)
    requires idx < |effects|
    ensures var t := VisitEffect(effects, idx);
      (|t| == |effects| - 1 <==> effects[idx].Aged().life <= 0) &&
      (|t| != |effects| - 1 ==> t == effects[idx := effects[idx].Aged()])
  {
  }

  /** The effects never grow, and if every live effect has positive life, so does every
      effect that survives the loop. */
  lemma {:induction false} EffectLoopKeepsLifePositive(effects: seq<EffectV>, idx: nat, len: nat)
    requires forall i :: 0 <= i < |effects| ==> effects[i].life > 0
    ensures var t := EffectLoop(effects, idx, len);
      |t| <= |effects| && forall i :: 0 <= i < |t| ==> t[i].life > 0
    decreases len - idx
  {
    if idx < len {
      var next := if idx < |effects| then VisitEffect(effects, idx) else effects;
      EffectLoopKeepsLifePositive(next, idx + 1, len);
    }
  }

  /** When no effect from idx on expires this frame, the loop from idx removes nothing,
      ages each of those effects once and leaves the ones before idx alone. */
  lemma {:induction false} EffectLoopAgesAll(effects: seq<EffectV>, idx: nat)
    requires idx <= |effects|
    requires forall i :: idx <= i < |effects| ==> effects[i].life > 1
    ensures var r := EffectLoop(effects, idx, |effects|);
      |r| == |effects| && forall i :: 0 <= i < |r| ==> r[i] == if i < idx then effects[i] else effects[i].Aged()
    decreases |effects| - idx
  {
    if idx < |effects| {
      var next := effects[idx := effects[idx].Aged()];
      assert VisitEffect(effects, idx) == next;
      EffectLoopStep(effects, idx, |effects|);
      EffectLoopAgesAll(next, idx + 1);
    }
  }

  // ----- The frame -----

  /** A frame never raises either player's health and leaves each player's position on the
      x axis, colour and controls alone. */
  lemma {:induction false} FrameHealthNonIncreasing(w: World, keys: set<string>, now1: int, now2: int, canvasWidth: int, canvasHeight: int)
    ensures var w' := Frame(w, keys, now1, now2, canvasWidth, canvasHeight).0;
      w'.player1.health <= w.player1.health && w'.player2.health <= w.player2.health &&
      w'.player1.x == w.player1.x && w'.player1.color == w.player1.color && w'.player1.controls == w.player1.controls &&
      w'.player2.x == w.player2.x && w'.player2.color == w.player2.color && w'.player2.controls == w.player2.controls
  {
    var a := AfterPlayers(w, keys, now1, now2, canvasHeight);
    BulletLoopAccounting(BulletPass(a.bullets, a.effects, a.player1.health, a.player2.health),
                         0, |a.bullets|, a.player1.Bounds(), a.player2.Bounds(), canvasWidth);
  }

  /** A frame reschedules exactly when both players still have health afterwards. */
  lemma FrameReschedulesIffBothAlive(w: World, keys: set<string>, now1: int, now2: int, canvasWidth: int, canvasHeight: int)
    ensures var (w', again) := Frame(w, keys, now1, now2, canvasWidth, canvasHeight);
      again <==> w'.player1.health > 0 && w'.player2.health > 0
  {
  }

  /** The end is absorbing: from a finished state, any further frame is finished too. */
  lemma {:induction false} GameOverIsAbsorbing(w: World, keys: set<string>, now1: int, now2: int, canvasWidth: int, canvasHeight: int)
    requires GameOver(w.player1.health, w.player2.health)
    ensures var (w', again) := Frame(w, keys, now1, now2, canvasWidth, canvasHeight);
      !again && GameOver(w'.player1.health, w'.player2.health)
  {
    FrameHealthNonIncreasing(w, keys, now1, now2, canvasWidth, canvasHeight);
  }

  /** The banner names player 2 exactly when player 1's health is gone, so player 1 loses
      a simultaneous knockout. */
  lemma WinnerIsTheSurvivor(health1: int, health2: int)
    requires GameOver(health1, health2)
    ensures Winner(health1, health2) == "Player 2" <==> health1 <= 0
    ensures Winner(health1, health2) == "Player 1" <==> health1 > 0 && health2 <= 0
  {
  }

  // ----- The browser's frames -----

  /** `update` runs at most one frame per input and stops early only once the game is
      over; from a state that is already over it runs exactly one more frame. */
  lemma {:induction false} PlayRunsUntilGameOver(w: World, ticks: seq<Tick>)
    ensures var (final, n) := Play(w, ticks);
      n <= |ticks| && (ticks != [] ==> 1 <= n) &&
      (n < |ticks| ==> GameOver(final.player1.health, final.player2.health)) &&
      (ticks != [] && GameOver(w.player1.health, w.player2.health) ==> n == 1)
    decreases |ticks|
  {
    if ticks != [] {
      var t := ticks[0];
      FrameReschedulesIffBothAlive(w, t.keys, t.now1, t.now2, t.canvasWidth, t.canvasHeight);
      if GameOver(w.player1.health, w.player2.health) {
        GameOverIsAbsorbing(w, t.keys, t.now1, t.now2, t.canvasWidth, t.canvasHeight);
      }
      var (w', again) := Frame(w, t.keys, t.now1, t.now2, t.canvasWidth, t.canvasHeight);
      if again {
        PlayRunsUntilGameOver(w', ticks[1..]);
      }
    }
  }

  /** Health never rises over any sequence of frames the browser runs. */
  lemma {:induction false} PlayHealthNonIncreasing(w: World, ticks: seq<Tick>)
    ensures var final := Play(w, ticks).0;
      final.player1.health <= w.player1.health && final.player2.health <= w.player2.health
    decreases |ticks|
  {
    if ticks != [] {
      var t := ticks[0];
      FrameHealthNonIncreasing(w, t.keys, t.now1, t.now2, t.canvasWidth, t.canvasHeight);
      var (w', again) := Frame(w, t.keys, t.now1, t.now2, t.canvasWidth, t.canvasHeight);
      if again {
        PlayHealthNonIncreasing(w', ticks[1..]);
      }
    }
  }
}
