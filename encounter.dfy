/**
 * One collision between the player and an enemy, as both scripts handle it.
 * The engine calls `OnCollisionEnter2D` on both bodies for the same contact,
 * in an order it does not promise, so the contact is modelled for either
 * order. The normals are given as the player sees them; the enemy sees them
 * reversed.
 */
module Encounter {
  import opened Contacts
  import opened PlayerSpec
  import opened EnemySpec

  /**
   * The player's `HandleEnemyCollision`: a stomp passes the stomp on to the
   * enemy's `GetJumpedOn` and leaves the player alone; any other contact
   * hurts the player (when not shielded) and leaves the enemy alone. Never
   * both.
   */
  function PlayerHandler(p: PlayerState, e: EnemyState, normalsY: seq<real>): (r: (PlayerState, EnemyState))
    ensures AnyStomp(PlayerSide, normalsY) ==> r == (p, GetJumpedOn(e))
    ensures !AnyStomp(PlayerSide, normalsY) ==> r == (TakeDamage(p, 1), e)
  {
    var stomped := AnyStomp(PlayerSide, normalsY);
    (HitByEnemy(p, stomped), if stomped then GetJumpedOn(e) else e)
  }

  /**
   * The enemy's `OnCollisionEnter2D` with the player: a stomp runs its own
   * `GetJumpedOn` and leaves the player alone; otherwise a live enemy calls
   * the player's `TakeDamage` with its configured damage. Never both.
   */
  function EnemyHandler(p: PlayerState, e: EnemyState, enemyNormalsY: seq<real>): (r: (PlayerState, EnemyState))
    ensures AnyStomp(EnemySide, enemyNormalsY) ==> r == (p, GetJumpedOn(e))
    ensures !AnyStomp(EnemySide, enemyNormalsY) && !e.dead ==> r == (TakeDamage(p, e.damage), e)
    ensures !AnyStomp(EnemySide, enemyNormalsY) && e.dead ==> r == (p, e)
    ensures r.0 == p || r.1 == e
  {
    if AnyStomp(EnemySide, enemyNormalsY) then (p, GetJumpedOn(e))
    else if !e.dead then (TakeDamage(p, e.damage), e)
    else (p, e)
  }

  /**
   * A contact as the scripts are written: when both colliders are enabled the
   * engine runs both handlers, in either order.
   */
  function ContactAsWritten(p: PlayerState, e: EnemyState, normalsY: seq<real>, playerFirst: bool): (PlayerState, EnemyState)
  {
    if !(p.colliderEnabled && e.colliderEnabled) then (p, e)
    else if playerFirst then
      var (p1, e1) := PlayerHandler(p, e, normalsY);
      EnemyHandler(p1, e1, Opposite(normalsY))
    else
      var (p1, e1) := EnemyHandler(p, e, Opposite(normalsY));
      PlayerHandler(p1, e1, normalsY)
  }

  /**
   * The same contact with the engine's enabled check made again before the
   * second handler, which is how callbacks are delivered.
   */
  function ContactRechecked(p: PlayerState, e: EnemyState, normalsY: seq<real>, playerFirst: bool): (PlayerState, EnemyState)
  {
    if !(p.colliderEnabled && e.colliderEnabled) then (p, e)
    else
      var (p1, e1) := if playerFirst then PlayerHandler(p, e, normalsY)
                      else EnemyHandler(p, e, Opposite(normalsY));
      if !(p1.colliderEnabled && e1.colliderEnabled) then (p1, e1)
      else if playerFirst then EnemyHandler(p1, e1, Opposite(normalsY))
      else PlayerHandler(p1, e1, normalsY)
  }

  /**
   * The second check never changes the outcome: a collider is switched off
   * only by a death, and the second handler is then a no-op on the dead body.
   */
  lemma RecheckChangesNothing(p: PlayerState, e: EnemyState, normalsY: seq<real>, playerFirst: bool)
    ensures ContactRechecked(p, e, normalsY, playerFirst) == ContactAsWritten(p, e, normalsY, playerFirst)
  {
    SidesAgree(normalsY);
  }

  /**
   * A side contact with an unshielded player and a live enemy hurts the
   * player exactly once: the second handler's damage call is absorbed by the
   * invincibility the first one opened. Which amount is dealt depends on the
   * order: 1 when the player's handler runs first, the enemy's damage
   * otherwise. The enemy is untouched.
   */
  lemma LateralContactHurtsOnce(p: PlayerState, e: EnemyState, normalsY: seq<real>, playerFirst: bool)
    requires !AnyStomp(PlayerSide, normalsY)
    requires p.colliderEnabled && e.colliderEnabled
    requires !p.invincible && !p.dead && !e.dead
    ensures ContactAsWritten(p, e, normalsY, playerFirst) == (TakeDamage(p, if playerFirst then 1 else e.damage), e)
  {
    SidesAgree(normalsY);
  }

  /**
   * As written, a stomp contact reaches `GetJumpedOn` twice: once through
   * the player's handler and once through the enemy's own.
   */
  lemma StompContactHitsTwice(p: PlayerState, e: EnemyState, normalsY: seq<real>, playerFirst: bool)
    requires AnyStomp(PlayerSide, normalsY)
    requires p.colliderEnabled && e.colliderEnabled
    ensures ContactAsWritten(p, e, normalsY, playerFirst) == (p, GetJumpedOn(GetJumpedOn(e)))
  {
    SidesAgree(normalsY);
  }

  /** The smallest input that shows it: an enemy with 2 health dies from one stomp contact. */
  lemma TwoHealthEnemyDiesInOneContact(p: PlayerState, playerFirst: bool)
    requires p.colliderEnabled
    ensures var e := Spawned(Ground, 2, 1, 2.0);
            ContactAsWritten(p, e, [1.0], playerFirst).1.dead
  {
    var normalsY := [1.0];
    assert IsStomp(PlayerSide, normalsY[0]);
    StompContactHitsTwice(p, Spawned(Ground, 2, 1, 2.0), normalsY, playerFirst);
  }

  /**
   * The player's handler with the stomp left to the enemy's own handler: the
   * player bounces but no longer calls `GetJumpedOn` on an enemy that has a
   * controller (objects without one are still destroyed outright).
   */
  function PlayerHandlerCorrected(p: PlayerState, e: EnemyState, normalsY: seq<real>): (r: (PlayerState, EnemyState))
    ensures r.1 == e
    ensures r.0 == PlayerHandler(p, e, normalsY).0
  {
    (HitByEnemy(p, AnyStomp(PlayerSide, normalsY)), e)
  }

  /** A contact with the corrected player handler. */
  function ContactCorrected(p: PlayerState, e: EnemyState, normalsY: seq<real>, playerFirst: bool): (PlayerState, EnemyState)
  {
    if !(p.colliderEnabled && e.colliderEnabled) then (p, e)
    else if playerFirst then
      var (p1, e1) := PlayerHandlerCorrected(p, e, normalsY);
      EnemyHandler(p1, e1, Opposite(normalsY))
    else
      var (p1, e1) := EnemyHandler(p, e, Opposite(normalsY));
      PlayerHandlerCorrected(p1, e1, normalsY)
  }

  /** With the correction, a stomp contact is exactly one stomp, in either order. */
  lemma StompContactHitsOnce(p: PlayerState, e: EnemyState, normalsY: seq<real>, playerFirst: bool)
    requires AnyStomp(PlayerSide, normalsY)
    requires p.colliderEnabled && e.colliderEnabled
    ensures ContactCorrected(p, e, normalsY, playerFirst) == (p, GetJumpedOn(e))
  {
    SidesAgree(normalsY);
  }

  /** One collision: the normals as the player sees them, and which handler the engine runs first. */
  datatype Contact = Contact(normalsY: seq<real>, playerFirst: bool)

  /** A run of contacts with the corrected player handler. */
  function RunCorrected(p: PlayerState, e: EnemyState, contacts: seq<Contact>): (PlayerState, EnemyState)
    decreases |contacts|
  {
    if contacts == [] then (p, e)
    else
      var (p1, e1) := ContactCorrected(p, e, contacts[0].normalsY, contacts[0].playerFirst);
      RunCorrected(p1, e1, contacts[1..])
  }

  /**
   * With the correction, a run of stomp contacts on a consistent enemy is the
   * same number of stomps, whatever the order of the handlers in each.
   */
  lemma {:induction false} StompRunIsStomps(p: PlayerState, e: EnemyState, contacts: seq<Contact>)
    requires p.colliderEnabled && EnemySpec.Consistent(e)
    requires forall i :: 0 <= i < |contacts| ==> AnyStomp(PlayerSide, contacts[i].normalsY)
    ensures RunCorrected(p, e, contacts) == (p, GetJumpedOnTimes(e, |contacts|))
    decreases |contacts|
  {
    if contacts != [] {
      var c := contacts[0];
      if e.colliderEnabled {
        StompContactHitsOnce(p, e, c.normalsY, c.playerFirst);
      } else {
        DeadStaysPut(e, |contacts|);
        DeadStaysPut(GetJumpedOn(e), |contacts| - 1);
      }
      StompRunIsStomps(p, GetJumpedOn(e), contacts[1..]);
    }
  }

  /**
   * The evidently intended property: an enemy spawned with health h >= 1 is
   * killed by exactly h stomp contacts, never fewer, and the player is not
   * hurt by any of them.
   */
  lemma StompContactsToKill(p: PlayerState, e: EnemyState, contacts: seq<Contact>)
    requires p.colliderEnabled && !e.dead && EnemySpec.Consistent(e)
    requires forall i :: 0 <= i < |contacts| ==> AnyStomp(PlayerSide, contacts[i].normalsY)
    ensures RunCorrected(p, e, contacts).0 == p
    ensures RunCorrected(p, e, contacts).1.dead <==> |contacts| >= e.health
  {
    StompRunIsStomps(p, e, contacts);
    StompsToKill(e, |contacts|);
  }
}
