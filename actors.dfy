/**
 * The two behaviours that fight each other: the player (`move`) and the
 * enemy (`EnemyController`). They live in one module because each calls the
 * other's public methods: the player's stomp calls the enemy's
 * `GetJumpedOn`, and the enemy's side contact calls the player's
 * `TakeDamage`.
 *
 * Each class keeps the source's fields and updates them in place; `State()`
 * reads them as a value of the matching spec datatype, and every method
 * states its new state as the spec function of its old state.
 */
module Actors {
  import opened Tags
  import opened Contacts
  import PlayerSpec
  import EnemySpec
  import Encounter

  /** The player behaviour. */
  class Move {
    const maxHealth: int
    const invincibilityTime: real
    var currentHealth: int
    var currentScore: int
    var diamondCount: int
    var isInvincible: bool
    var invincibilityTimer: real
    var isDead: bool
    var colliderEnabled: bool

    function State(): PlayerSpec.PlayerState
      reads this
    {
      PlayerSpec.PlayerState(maxHealth, invincibilityTime, currentHealth, currentScore,
                             diamondCount, isInvincible, invincibilityTimer, isDead, colliderEnabled)
    }

    /** The object as the engine creates it, before `Start`. */
    constructor (maxHealth: int, invincibilityTime: real)
      ensures State() == PlayerSpec.Created(maxHealth, invincibilityTime)
    {
      this.maxHealth := maxHealth;
      this.invincibilityTime := invincibilityTime;
      currentHealth := 0;
      currentScore := 0;
      diamondCount := 0;
      isInvincible := false;
      invincibilityTimer := 0.0;
      isDead := false;
      colliderEnabled := true;
    }

    method Start()
      modifies this
      ensures State() == PlayerSpec.Start(old(State()))
    {
      currentHealth := maxHealth;
      currentScore := 0;
      diamondCount := 0;
    }

    /** One frame of `Update`; only the invincibility countdown changes gameplay state. */
    method Update(deltaTime: real)
      modifies this
      ensures State() == PlayerSpec.Tick(old(State()), deltaTime)
    {
      if isDead {
        return;
      }
      if isInvincible {
        invincibilityTimer := invincibilityTimer - deltaTime;
        if invincibilityTimer <= 0.0 {
          isInvincible := false;
        }
      }
    }

    /**
     * The player's trigger handler only decides whether to play the collect
     * sound: for a diamond or cherry, while alive. It changes no state; the
     * collectible grants the points itself.
     */
    method OnTriggerEnter2D(other: Tag) returns (playsCollectSound: bool)
      ensures playsCollectSound <==> !isDead && (other == Diamond || other == Cherry)
    {
      if isDead {
        return false;
      }
      playsCollectSound := other == Diamond || other == Cherry;
    }

    method AddScore(points: int)
      modifies this
      ensures State() == PlayerSpec.AddScore(old(State()), points)
    {
      currentScore := currentScore + points;
    }

    method AddDiamond(amount: int)
      modifies this
      ensures State() == PlayerSpec.AddDiamond(old(State()), amount)
    {
      diamondCount := diamondCount + amount;
    }

    /** Enemy contacts are routed to `HandleEnemyCollision`; anything else is ignored. */
    method OnCollisionEnter2D(other: Tag, normalsY: seq<real>, enemy: EnemyController?)
      modifies this, enemy
      ensures other != Enemy ==> State() == old(State())
      ensures other != Enemy && enemy != null ==> enemy.State() == old(enemy.State())
      ensures other == Enemy ==> State() == PlayerSpec.HitByEnemy(old(State()), AnyStomp(PlayerSide, normalsY))
      ensures other == Enemy && enemy != null ==>
        enemy.State() == if AnyStomp(PlayerSide, normalsY) then EnemySpec.GetJumpedOn(old(enemy.State())) else old(enemy.State())
    {
      if other == Enemy {
        HandleEnemyCollision(normalsY, enemy);
      }
    }

    /**
     * A stomp (some contact normal pointing up) is passed on to the enemy;
     * otherwise, unless invincible or dead, the player takes 1 damage.
     * `enemy` is null when the enemy object has no `EnemyController`; such an
     * object is destroyed outright, which is outside the model.
     */
    method HandleEnemyCollision(normalsY: seq<real>, enemy: EnemyController?)
      modifies this, enemy
      ensures State() == PlayerSpec.HitByEnemy(old(State()), AnyStomp(PlayerSide, normalsY))
      ensures enemy != null ==>
        enemy.State() == if AnyStomp(PlayerSide, normalsY) then EnemySpec.GetJumpedOn(old(enemy.State())) else old(enemy.State())
    {
      var jumpedOnEnemy, _ := FindStompContact(PlayerSide, normalsY);
      if jumpedOnEnemy {
        DestroyEnemy(enemy);
      }
      if !jumpedOnEnemy && !isInvincible && !isDead {
        TakeDamage(1);
      }
    }

    method DestroyEnemy(enemy: EnemyController?)
      modifies enemy
      ensures enemy != null ==> enemy.State() == EnemySpec.GetJumpedOn(old(enemy.State()))
    {
      if enemy != null {
        enemy.GetJumpedOn();
      }
    }

    method TakeDamage(damage: int)
      modifies this
      ensures State() == PlayerSpec.TakeDamage(old(State()), damage)
    {
      if isInvincible || isDead {
        return;
      }
      currentHealth := currentHealth - damage;
      isInvincible := true;
      invincibilityTimer := invincibilityTime;
      if currentHealth <= 0 {
        Die();
      }
    }

    method Die()
      modifies this
      ensures State() == PlayerSpec.Die(old(State()))
    {
      if isDead {
        return;
      }
      isDead := true;
      colliderEnabled := false;
    }

    method GetCurrentHealth() returns (h: int)
      ensures h == currentHealth
    {
      h := currentHealth;
    }

    method GetMaxHealth() returns (h: int)
      ensures h == maxHealth
    {
      h := maxHealth;
    }

    method IsDead() returns (d: bool)
      ensures d == isDead
    {
      d := isDead;
    }

    method GetCurrentScore() returns (s: int)
      ensures s == currentScore
    {
      s := currentScore;
    }

    method GetDiamondCount() returns (n: int)
      ensures n == diamondCount
    {
      n := diamondCount;
    }

    method AddHealth(amount: int)
      modifies this
      ensures State() == PlayerSpec.AddHealth(old(State()), amount)
    {
      currentHealth := if currentHealth + amount < maxHealth then currentHealth + amount else maxHealth;
    }
  }

  /** The enemy behaviour. */
  class EnemyController {
    const enemyType: EnemySpec.EnemyType
    var health: int
    const damage: int
    const moveSpeed: real
    const animationSpeed: real
    var facingRight: bool
    var isDead: bool
    var isAttacking: bool
    var velocityX: real
    var colliderEnabled: bool
    var removalScheduled: bool

    function State(): EnemySpec.EnemyState
      reads this
    {
      EnemySpec.EnemyState(enemyType, health, damage, moveSpeed, facingRight, isDead,
                           isAttacking, velocityX, colliderEnabled, removalScheduled)
    }

    /** The enemy as it spawns, from its inspector settings. */
    constructor (enemyType: EnemySpec.EnemyType, health: int, damage: int, moveSpeed: real, animationSpeed: real)
      ensures State() == EnemySpec.Spawned(enemyType, health, damage, moveSpeed)
      ensures this.animationSpeed == animationSpeed
    {
      this.enemyType := enemyType;
      this.health := health;
      this.damage := damage;
      this.moveSpeed := moveSpeed;
      this.animationSpeed := animationSpeed;
      facingRight := false;
      isDead := false;
      isAttacking := false;
      velocityX := 0.0;
      colliderEnabled := true;
      removalScheduled := false;
    }

    method FixedUpdate(probes: EnemySpec.Probes, view: EnemySpec.FlightView)
      modifies this
      ensures State() == EnemySpec.FixedUpdate(old(State()), probes, view)
    {
      if isDead {
        return;
      }
      match enemyType
      case Ground => UpdateGroundEnemy(probes);
      case Flying => UpdateFlyingEnemy(view);
    }

    method UpdateGroundEnemy(probes: EnemySpec.Probes)
      modifies this
      ensures State() == EnemySpec.UpdateGroundEnemy(old(State()), probes)
    {
      var moveDirection := if facingRight then moveSpeed else -moveSpeed;
      velocityX := moveDirection;
      if velocityX > 0.0 && !facingRight {
        Flip();
      } else if velocityX < 0.0 && facingRight {
        Flip();
      }
      CheckGroundCollisions(probes);
    }

    method UpdateFlyingEnemy(view: EnemySpec.FlightView)
      modifies this
      ensures State() == EnemySpec.UpdateFlyingEnemy(old(State()), view)
    {
      match view
      case NoPlayer =>
      case PlayerSeen(inAttackRange, playerDx) =>
        if inAttackRange {
          isAttacking := true;
          if playerDx > 0.0 && !facingRight {
            Flip();
          } else if playerDx < 0.0 && facingRight {
            Flip();
          }
        } else {
          // The patrol's direction test reads newX - transform.position.x
          // right after setting x to newX: it is zero and never flips.
          isAttacking := false;
        }
    }

    method CheckGroundCollisions(probes: EnemySpec.Probes)
      modifies this
      ensures State() == EnemySpec.CheckGroundCollisions(old(State()), probes)
    {
      if probes.groundCheck.Some? {
        var isGrounded := probes.groundCheck.value;
        if !isGrounded {
          Flip();
        }
      }
      if probes.wallCheck.Some? {
        var isTouchingWall := probes.wallCheck.value;
        if isTouchingWall {
          Flip();
        }
      }
    }

    method Flip()
      modifies this
      ensures State() == EnemySpec.Flip(old(State()))
    {
      facingRight := !facingRight;
    }

    /**
     * The frame loop of the `PlayAnimation` coroutine over an array of
     * `spriteCount` sprites, for `resumptions` passes of its loop while the
     * enemy lives. It stops at once without sprites or a renderer; otherwise
     * it shows frame 0 first and then advances by one modulo the array
     * length, so every index shown lies inside the array. Between frames it
     * waits `delay`: half the configured time while moving or attacking.
     */
    method PlayAnimation(spriteCount: nat, hasRenderer: bool, resumptions: nat) returns (delay: real, shown: seq<nat>)
      ensures spriteCount == 0 || !hasRenderer ==> shown == []
      ensures spriteCount > 0 && hasRenderer ==> |shown| == resumptions
      ensures |shown| > 0 ==> shown[0] == 0
      ensures forall k :: 0 <= k < |shown| ==> shown[k] < spriteCount
      ensures forall k :: 0 <= k < |shown| - 1 ==> shown[k + 1] == (shown[k] + 1) % spriteCount
      ensures spriteCount > 0 && hasRenderer ==>
        delay == if Abs(velocityX) > 0.1 || isAttacking then animationSpeed * 0.5 else animationSpeed
    {
      delay := animationSpeed;
      shown := [];
      if spriteCount == 0 || !hasRenderer {
        return;
      }
      var index := 0;
      if Abs(velocityX) > 0.1 || isAttacking {
        delay := animationSpeed * 0.5;
      }
      while |shown| < resumptions
        invariant |shown| <= resumptions
        invariant index < spriteCount
        invariant |shown| == 0 ==> index == 0
        invariant |shown| > 0 ==> shown[0] == 0 && index == (shown[|shown| - 1] + 1) % spriteCount
        invariant forall k :: 0 <= k < |shown| ==> shown[k] < spriteCount
        invariant forall k :: 0 <= k < |shown| - 1 ==> shown[k + 1] == (shown[k] + 1) % spriteCount
      {
        shown := shown + [index];
        index := (index + 1) % spriteCount;
      }
    }

    method GetJumpedOn()
      modifies this
      ensures State() == EnemySpec.GetJumpedOn(old(State()))
    {
      if isDead {
        return;
      }
      health := health - 1;
      if health <= 0 {
        Die();
      }
    }

    method Die()
      modifies this
      ensures State() == EnemySpec.Die(old(State()))
    {
      if isDead {
        return;
      }
      isDead := true;
      colliderEnabled := false;
      if enemyType == EnemySpec.Ground {
        velocityX := 0.0;
      }
      removalScheduled := true;
    }

    /**
     * A contact with the player: a stomp (some normal pointing down) runs
     * `GetJumpedOn`; otherwise a live enemy deals its damage through the
     * player's `TakeDamage`. `player` is null when the player object has no
     * `move` behaviour.
     */
    method OnCollisionEnter2D(other: Tag, normalsY: seq<real>, player: Move?)
      modifies this, player
      ensures other != Player ==> State() == old(State())
      ensures other != Player && player != null ==> player.State() == old(player.State())
      ensures other == Player && player != null ==>
        (player.State(), State()) == Encounter.EnemyHandler(old(player.State()), old(State()), normalsY)
      ensures other == Player ==>
        State() == if AnyStomp(EnemySide, normalsY) then EnemySpec.GetJumpedOn(old(State())) else old(State())
    {
      if other == Player {
        var isPlayerAbove, _ := FindStompContact(EnemySide, normalsY);
        if isPlayerAbove {
          GetJumpedOn();
        }
        if !isPlayerAbove && !isDead {
          if player != null {
            player.TakeDamage(damage);
          }
        }
      }
    }
  }

  function Abs(x: real): real {
    if x < 0.0 then -x else x
  }
}
