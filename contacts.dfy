/**
 * Classification of the contact points of one collision. The engine reports,
 * for each contact, a normal relative to the body receiving the callback, so
 * the player and the enemy see opposite normals for the same contact. Only the
 * y component of each normal matters to the scripts.
 */
module Contacts {

  /** Which script's collision handler is reading the contacts. */
  datatype Side = PlayerSide | EnemySide

  /**
   * The threshold each handler applies to a contact normal's y component: the
   * player treats a normal pointing up (y > 0.5) as having landed on the
   * enemy, the enemy treats a normal pointing down (y < -0.5) as having been
   * landed on.
   */
  predicate IsStomp(side: Side, normalY: real) {
    match side
    case PlayerSide => normalY > 0.5
    case EnemySide => normalY < -0.5
  }

  /** Some contact of the collision passes the side's stomp threshold. */
  predicate AnyStomp(side: Side, normalsY: seq<real>) {
    exists i :: 0 <= i < |normalsY| && IsStomp(side, normalsY[i])
  }

  /** The same contacts as seen from the other body. */
  function Opposite(normalsY: seq<real>): (r: seq<real>)
    ensures |r| == |normalsY|
    ensures forall i :: 0 <= i < |r| ==> r[i] == -normalsY[i]
  {
    seq(|normalsY|, i requires 0 <= i < |normalsY| => -normalsY[i])
  }

  /**
   * The `foreach ... break` over `collision.contacts`: stops at the first
   * contact that passes the threshold. `found` says whether the stomp branch
   * runs; `k` is the contact that triggered it.
   */
  method FindStompContact(side: Side, normalsY: seq<real>) returns (found: bool, k: nat)
    ensures found <==> AnyStomp(side, normalsY)
    ensures found ==> k < |normalsY| && IsStomp(side, normalsY[k])
    ensures found ==> forall j :: 0 <= j < k ==> !IsStomp(side, normalsY[j])
  {
    k := 0;
    while k < |normalsY|
      invariant k <= |normalsY|
      invariant forall j :: 0 <= j < k ==> !IsStomp(side, normalsY[j])
    {
      if IsStomp(side, normalsY[k]) {
        return true, k;
      }
      k := k + 1;
    }
    return false, k;
  }

  /**
   * Both handlers classify one contact the same way: the player sees a stomp
   * exactly when the enemy, reading the opposite normals, sees one.
   */
  lemma SidesAgree(normalsY: seq<real>)
    ensures AnyStomp(PlayerSide, normalsY) <==> AnyStomp(EnemySide, Opposite(normalsY))
  {
  }
}
