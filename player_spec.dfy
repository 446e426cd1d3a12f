/**
 * The player's gameplay state (the fields of the `move` behaviour that the
 * scripts read and write) and the effect of each of its operations, as
 * functions on values. The `Move` class in module Actors updates its fields
 * in place and proves that each method matches the function here.
 *
 * Health, score and diamond count are C# `int`s; the model uses unbounded
 * integers (no script value gets near 2^31). Times are C# `float`s, modelled
 * as reals.
 */
module PlayerSpec {

  datatype PlayerState = PlayerState(
    maxHealth: int,           // inspector setting, never written by the scripts
    invincibilityTime: real,  // inspector setting, never written by the scripts
    health: int,              // currentHealth
    score: int,               // currentScore
    diamonds: int,            // diamondCount
    invincible: bool,         // isInvincible
    timer: real,              // invincibilityTimer
    dead: bool,               // isDead
    colliderEnabled: bool)    // the player's Collider2D.enabled

  /**
   * The relations between the fields that every operation keeps, given a
   * positive invincibility window: a dead player has no health left and no
   * enabled collider, an invincible player has time left on the timer, and
   * health never exceeds its maximum.
   */
  predicate Consistent(s: PlayerState) {
    && s.invincibilityTime > 0.0
    && s.health <= s.maxHealth
    && (s.dead ==> s.health <= 0)
    && (s.invincible ==> s.timer > 0.0)
    && (s.colliderEnabled <==> !s.dead)
  }

  /** The fields as the object is created: C# defaults and field initialisers. */
  function Created(maxHealth: int, invincibilityTime: real): PlayerState {
    PlayerState(maxHealth, invincibilityTime, 0, 0, 0, false, 0.0, false, true)
  }

  /** `Start`: full health, score and diamonds reset. */
  function Start(s: PlayerState): PlayerState {
    s.(health := s.maxHealth, score := 0, diamonds := 0)
  }

  /** The state in which a level begins: creation followed by `Start`. */
  function Initial(maxHealth: int, invincibilityTime: real): (r: PlayerState)
    ensures r.health == r.maxHealth == maxHealth && r.invincibilityTime == invincibilityTime
    ensures r.score == 0 && r.diamonds == 0
    ensures !r.invincible && !r.dead && r.colliderEnabled
    ensures Consistent(r) <==> invincibilityTime > 0.0
  {
    Start(Created(maxHealth, invincibilityTime))
  }

  /**
   * `Die`: a no-op once dead; otherwise marks the player dead and switches its
   * collider off. Nothing else of the gameplay state changes.
   */
  function Die(s: PlayerState): (r: PlayerState)
    ensures r.dead
    ensures s.dead ==> r == s
    ensures !s.dead ==> !r.colliderEnabled
    ensures r.(dead := s.dead, colliderEnabled := s.colliderEnabled) == s
  {
    if s.dead then s else s.(dead := true, colliderEnabled := false)
  }

  /**
   * `TakeDamage`: ignored while invincible or dead; otherwise health drops by
   * exactly `damage` (no clamping), the invincibility window opens with a
   * full timer, and the player dies when health reaches 0 or below.
   */
  function TakeDamage(s: PlayerState, damage: int): (r: PlayerState)
    ensures s.invincible || s.dead ==> r == s
    ensures !s.invincible && !s.dead ==>
      && r.health == s.health - damage
      && r.invincible && r.timer == s.invincibilityTime
      && (r.dead <==> r.health <= 0)
      && r.score == s.score && r.diamonds == s.diamonds
      && r.maxHealth == s.maxHealth && r.invincibilityTime == s.invincibilityTime
    ensures Consistent(s) && damage >= 0 ==> Consistent(r)
  {
    if s.invincible || s.dead then s
    else
      var hurt := s.(health := s.health - damage, invincible := true, timer := s.invincibilityTime);
      if hurt.health <= 0 then Die(hurt) else hurt
  }

  /**
   * The part of `Update` that touches gameplay state, for a frame lasting
   * `deltaTime`: nothing once dead; while invincible, the timer runs down and
   * the window closes exactly when the timer reaches 0 or below.
   */
  function Tick(s: PlayerState, deltaTime: real): (r: PlayerState)
    ensures s.dead || !s.invincible ==> r == s
    ensures !s.dead && s.invincible ==>
      && r.timer == s.timer - deltaTime
      && (r.invincible <==> r.timer > 0.0)
      && r.(timer := s.timer, invincible := s.invincible) == s
    ensures Consistent(s) ==> Consistent(r)
  {
    if s.dead then s
    else if s.invincible then
      var t := s.timer - deltaTime;
      if t <= 0.0 then s.(timer := t, invincible := false) else s.(timer := t)
    else s
  }

  /** `AddScore`: the score grows by exactly `points`; nothing else changes, dead or alive. */
  function AddScore(s: PlayerState, points: int): (r: PlayerState)
    ensures r.score - s.score == points
    ensures r.(score := s.score) == s
    ensures Consistent(s) ==> Consistent(r)
  {
    s.(score := s.score + points)
  }

  /** `AddDiamond`: the diamond count grows by exactly `amount`; nothing else changes. */
  function AddDiamond(s: PlayerState, amount: int): (r: PlayerState)
    ensures r.diamonds - s.diamonds == amount
    ensures r.(diamonds := s.diamonds) == s
    ensures Consistent(s) ==> Consistent(r)
  {
    s.(diamonds := s.diamonds + amount)
  }

  /**
   * `AddHealth`: health becomes the smaller of `health + amount` and the
   * maximum. Not guarded by death: a dead player healed above 0 breaks
   * `Consistent`, so consistency is promised only when that cannot happen.
   */
  function AddHealth(s: PlayerState, amount: int): (r: PlayerState)
    ensures r.health <= s.maxHealth
    ensures r.health <= s.health + amount
    ensures r.health == s.health + amount || r.health == s.maxHealth
    ensures r.(health := s.health) == s
    ensures Consistent(s) && (!s.dead || s.health + amount <= 0) ==> Consistent(r)
  {
    var h := s.health + amount;
    s.(health := if h < s.maxHealth then h else s.maxHealth)
  }

  /**
   * The player's own share of `HandleEnemyCollision`: a stomp leaves the
   * player untouched; any other enemy contact deals 1 damage unless the
   * player is invincible or dead.
   */
  function HitByEnemy(s: PlayerState, stomped: bool): (r: PlayerState)
    ensures stomped ==> r == s
    ensures !stomped ==> r == TakeDamage(s, 1)
  {
    if !stomped && !s.invincible && !s.dead then TakeDamage(s, 1) else s
  }

  /** The public operations other scripts and the frame loop apply to the player. */
  datatype PlayerOp =
    | TakeDamageOp(damage: int)
    | UpdateOp(deltaTime: real)
    | AddScoreOp(points: int)
    | AddDiamondOp(amount: int)
    | AddHealthOp(amount: int)
    | EnemyContactOp(stomped: bool)

  function Apply(s: PlayerState, op: PlayerOp): PlayerState {
    match op
    case TakeDamageOp(damage) => TakeDamage(s, damage)
    case UpdateOp(deltaTime) => Tick(s, deltaTime)
    case AddScoreOp(points) => AddScore(s, points)
    case AddDiamondOp(amount) => AddDiamond(s, amount)
    case AddHealthOp(amount) => AddHealth(s, amount)
    case EnemyContactOp(stomped) => HitByEnemy(s, stomped)
  }

  function ApplyAll(s: PlayerState, ops: seq<PlayerOp>): PlayerState
    decreases |ops|
  {
    if ops == [] then s else ApplyAll(Apply(s, ops[0]), ops[1..])
  }

  /**
   * Death is final: no sequence of operations sets `dead` back to false, and
   * none of them touches health through damage once dead (only `AddHealth`,
   * which is not guarded, still can).
   */
  lemma {:induction false} DeadStaysDead(s: PlayerState, ops: seq<PlayerOp>)
    requires s.dead
    ensures ApplyAll(s, ops).dead
    ensures ApplyAll(s, ops).colliderEnabled == s.colliderEnabled
    ensures (forall i :: 0 <= i < |ops| ==> !ops[i].AddHealthOp?) ==> ApplyAll(s, ops).health == s.health
    decreases |ops|
  {
    if ops != [] {
      DeadStaysDead(Apply(s, ops[0]), ops[1..]);
    }
  }

  /** A run of `TakeDamage` calls, in order. */
  function TakeDamageAll(s: PlayerState, damages: seq<int>): PlayerState
    decreases |damages|
  {
    if damages == [] then s else TakeDamageAll(TakeDamage(s, damages[0]), damages[1..])
  }

  /** A run of frames, each applying `Tick` with its own frame time. */
  function TickAll(s: PlayerState, deltaTimes: seq<real>): PlayerState
    decreases |deltaTimes|
  {
    if deltaTimes == [] then s else TickAll(Tick(s, deltaTimes[0]), deltaTimes[1..])
  }

  function Sum(xs: seq<real>): real
    decreases |xs|
  {
    if xs == [] then 0.0 else xs[0] + Sum(xs[1..])
  }

  lemma {:induction false} SumNonNegative(xs: seq<real>)
    requires forall i :: 0 <= i < |xs| ==> xs[i] >= 0.0
    ensures Sum(xs) >= 0.0
    decreases |xs|
  {
    if xs != [] {
      SumNonNegative(xs[1..]);
    }
  }

  /** `Die` is idempotent, and death is never undone by it. */
  lemma DieIdempotent(s: PlayerState)
    ensures Die(Die(s)) == Die(s)
  {
  }

  /**
   * A second damage call straight after the first (the same collision
   * delivering damage twice) is absorbed by the invincibility guard.
   */
  lemma SecondHitAbsorbed(s: PlayerState, first: int, second: int)
    ensures TakeDamage(TakeDamage(s, first), second) == TakeDamage(s, first)
  {
  }

  /** Any run of damage calls while invincible or dead changes nothing at all. */
  lemma {:induction false} ShieldedAgainstAll(s: PlayerState, damages: seq<int>)
    requires s.invincible || s.dead
    ensures TakeDamageAll(s, damages) == s
    decreases |damages|
  {
    if damages != [] {
      ShieldedAgainstAll(TakeDamage(s, damages[0]), damages[1..]);
    }
  }

  /** Frames change nothing once the invincibility window is closed. */
  lemma {:induction false} TicksIdleWhenVulnerable(s: PlayerState, deltaTimes: seq<real>)
    requires s.dead || !s.invincible
    ensures TickAll(s, deltaTimes) == s
    decreases |deltaTimes|
  {
    if deltaTimes != [] {
      TicksIdleWhenVulnerable(Tick(s, deltaTimes[0]), deltaTimes[1..]);
    }
  }

  /**
   * The countdown over several frames: with non-negative frame times, the
   * player is still invincible exactly when the frame times sum to less than
   * the timer, and then the timer has run down by that sum. Health, score and
   * everything else are untouched.
   */
  lemma {:induction false} Countdown(s: PlayerState, deltaTimes: seq<real>)
    requires !s.dead && s.invincible && s.timer > 0.0
    requires forall i :: 0 <= i < |deltaTimes| ==> deltaTimes[i] >= 0.0
    ensures TickAll(s, deltaTimes).invincible <==> s.timer - Sum(deltaTimes) > 0.0
    ensures TickAll(s, deltaTimes).invincible ==> TickAll(s, deltaTimes).timer == s.timer - Sum(deltaTimes)
    ensures TickAll(s, deltaTimes).(timer := s.timer, invincible := s.invincible) == s
    decreases |deltaTimes|
  {
    if deltaTimes != [] {
      var next := Tick(s, deltaTimes[0]);
      assert TickAll(s, deltaTimes) == TickAll(next, deltaTimes[1..]);
      assert Sum(deltaTimes) == deltaTimes[0] + Sum(deltaTimes[1..]);
      SumNonNegative(deltaTimes[1..]);
      if next.invincible {
        Countdown(next, deltaTimes[1..]);
      } else {
        TicksIdleWhenVulnerable(next, deltaTimes[1..]);
      }
    }
  }

  /**
   * A scripted encounter: 3 health, hit for 1, hit again at
   * once (ignored), then after the window has run out hit for 1 more.
   */
  lemma HurtTwiceThroughWindow(frameTimes: seq<real>)
    requires forall i :: 0 <= i < |frameTimes| ==> frameTimes[i] >= 0.0
    requires Sum(frameTimes) >= 1.0
    ensures var s0 := Initial(3, 1.0);
            var s1 := TakeDamage(s0, 1);
            var s2 := TakeDamage(s1, 1);
            var s3 := TakeDamage(TickAll(s2, frameTimes), 1);
            && s1.health == 2 && s1.invincible
            && s2.health == 2
            && s3.health == 1 && !s3.dead
  {
    var s2 := TakeDamage(TakeDamage(Initial(3, 1.0), 1), 1);
    Countdown(s2, frameTimes);
  }

  /**
   * Damage is not clamped: 5 damage on 3 health leaves health at -2, and the
   * player dead.
   */
  lemma OverkillGoesNegative()
    ensures TakeDamage(Initial(3, 1.0), 5).health == -2
    ensures TakeDamage(Initial(3, 1.0), 5).dead
  {
  }
}
