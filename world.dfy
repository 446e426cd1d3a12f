/**
 * The engine's side of the interactions, as this model assumes it: a
 * collision or trigger callback is delivered only while both bodies'
 * colliders are enabled, the check is made again before each callback, and
 * each body has a single collider (the one `Die` and `Collect` switch off).
 * Under these assumptions a consumed collectible and a dead player or enemy
 * are inert; the scripts themselves have no "consumed" guard.
 */
module World {
  import opened Tags
  import opened PlayerSpec
  import Contacts
  import Encounter
  import Actors
  import Collectible

  /** The player's collider touches an item's trigger. */
  function Touch(p: PlayerState, it: Collectible.ItemState): (PlayerState, Collectible.ItemState) {
    if p.colliderEnabled && it.hasCollider && it.colliderEnabled
    then (Collectible.Granted(p, it), Collectible.Consumed(it))
    else (p, it)
  }

  /** The same item touched `n` times in a row. */
  function TouchTimes(p: PlayerState, it: Collectible.ItemState, n: nat): (PlayerState, Collectible.ItemState)
    decreases n
  {
    if n == 0 then (p, it)
    else
      var (p1, it1) := Touch(p, it);
      TouchTimes(p1, it1, n - 1)
  }

  /** A touch can collect the item: both colliders are there and enabled. */
  predicate CanCollect(p: PlayerState, it: Collectible.ItemState) {
    p.colliderEnabled && it.hasCollider && it.colliderEnabled
  }

  /** Once consumed, further touches change nothing. */
  lemma {:induction false} ConsumedIsInert(p: PlayerState, it: Collectible.ItemState, n: nat)
    requires it.hasCollider && !it.colliderEnabled
    ensures TouchTimes(p, it, n) == (p, it)
    decreases n
  {
    if n > 0 {
      ConsumedIsInert(p, it, n - 1);
    }
  }

  /**
   * However many overlap events reach an item, its score and diamond are
   * granted at most once: exactly once if the first touch could collect it,
   * never otherwise. Nothing else of the player changes, and afterwards the
   * item is consumed.
   */
  lemma {:induction false} PickupAtMostOnce(p: PlayerState, it: Collectible.ItemState, n: nat)
    ensures var (p', it') := TouchTimes(p, it, n);
            var granted := n > 0 && CanCollect(p, it);
            && p'.score == p.score + (if granted then it.scoreValue else 0)
            && p'.diamonds == p.diamonds + (if granted && it.isDiamond then 1 else 0)
            && p'.(score := p.score, diamonds := p.diamonds) == p
            && (granted ==> !it'.colliderEnabled && it'.removalScheduled)
    decreases n
  {
    if n > 0 {
      var (p1, it1) := Touch(p, it);
      if CanCollect(p, it) {
        ConsumedIsInert(p1, it1, n - 1);
      } else {
        assert (p1, it1) == (p, it);
        PickupAtMostOnce(p, it, n - 1);
      }
    }
  }

  /** A dead player (its collider off) collects nothing. */
  lemma DeadPlayerCollectsNothing(p: PlayerState, it: Collectible.ItemState)
    requires Consistent(p) && p.dead
    ensures Touch(p, it) == (p, it)
  {
  }

  /** Two pickups: a fresh player picks up a 10-point diamond, or a 5-point cherry. */
  lemma PickupExamples()
    ensures var it := Collectible.Started(Collectible.Created(true, 10, true, true));
            var p := Touch(Initial(3, 1.0), it).0;
            p.score == 10 && p.diamonds == 1
    ensures var it := Collectible.Started(Collectible.Created(false, 5, true, true));
            var p := Touch(Initial(3, 1.0), it).0;
            p.score == 5 && p.diamonds == 0
  {
  }

  /**
   * The player's collider enters an item's trigger: both trigger handlers
   * run (the player's only picks a sound). Reports whether the collect
   * sound plays.
   */
  method TouchItem(player: Actors.Move, item: Collectible.Collectibleitem) returns (collectSound: bool)
    modifies player, item
    ensures (player.State(), item.State()) == Touch(old(player.State()), old(item.State()))
    ensures collectSound <==>
      CanCollect(old(player.State()), old(item.State())) && !old(player.isDead) && old(item.tag) in {Diamond, Cherry}
  {
    collectSound := false;
    if player.colliderEnabled && item.hasCollider && item.colliderEnabled {
      collectSound := player.OnTriggerEnter2D(item.tag);
      item.OnTriggerEnter2D(Player, player);
    }
  }

  /**
   * A collision between the player and an enemy, with the normals as the
   * player sees them: both handlers run, in the order the engine picks, and
   * the colliders are checked again before the second one.
   */
  method Collide(player: Actors.Move, enemy: Actors.EnemyController, normalsY: seq<real>, playerFirst: bool)
    modifies player, enemy
    ensures (player.State(), enemy.State()) ==
            Encounter.ContactAsWritten(old(player.State()), old(enemy.State()), normalsY, playerFirst)
  {
    Encounter.RecheckChangesNothing(old(player.State()), old(enemy.State()), normalsY, playerFirst);
    if player.colliderEnabled && enemy.colliderEnabled {
      if playerFirst {
        player.OnCollisionEnter2D(Enemy, normalsY, enemy);
      } else {
        enemy.OnCollisionEnter2D(Player, Contacts.Opposite(normalsY), player);
      }
      if player.colliderEnabled && enemy.colliderEnabled {
        if playerFirst {
          enemy.OnCollisionEnter2D(Player, Contacts.Opposite(normalsY), player);
        } else {
          player.OnCollisionEnter2D(Enemy, normalsY, enemy);
        }
      }
    }
  }
}
