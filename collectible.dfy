/**
 * The pickup behaviour (`Collectibleitem`): a diamond or a cherry that, on
 * its first contact with the player, grants its score value (and one
 * diamond, for a diamond) and then switches its own renderer and collider
 * off and schedules its removal.
 */
module Collectible {
  import opened Tags
  import PlayerSpec
  import Actors

  datatype ItemState = ItemState(
    isDiamond: bool,          // inspector setting
    scoreValue: int,          // inspector setting
    tag: Tag,                 // gameObject.tag
    hasCollider: bool,        // a Collider2D component exists
    colliderEnabled: bool,    // its enabled flag: the consumed marker
    hasRenderer: bool,        // a SpriteRenderer component exists
    rendererEnabled: bool,    // its enabled flag
    removalScheduled: bool)   // Destroy(gameObject, 0.3f) has been issued

  /** The item as the scene loads it, before `Start`. */
  function Created(isDiamond: bool, scoreValue: int, hasCollider: bool, hasRenderer: bool): ItemState {
    ItemState(isDiamond, scoreValue, Untagged, hasCollider, hasCollider, hasRenderer, hasRenderer, false)
  }

  /**
   * `Start`: tags the item "Diamond" exactly when it is a diamond and
   * "Cherry" otherwise, and makes sure a collider exists by adding a fresh
   * (enabled) one when there is none.
   */
  function Started(it: ItemState): (r: ItemState)
    ensures r.tag == Diamond <==> it.isDiamond
    ensures r.tag == Cherry <==> !it.isDiamond
    ensures r.hasCollider
    ensures it.hasCollider ==> r.colliderEnabled == it.colliderEnabled
    ensures !it.hasCollider ==> r.colliderEnabled
    ensures r.(tag := it.tag, hasCollider := it.hasCollider, colliderEnabled := it.colliderEnabled) == it
  {
    var tagged := it.(tag := if it.isDiamond then Diamond else Cherry);
    if it.hasCollider then tagged else tagged.(hasCollider := true, colliderEnabled := true)
  }

  /**
   * What `Collect` does to the player: the score grows by the item's score
   * value, the diamond count by 1 for a diamond and by 0 for a cherry, and
   * nothing else changes.
   */
  function Granted(p: PlayerSpec.PlayerState, it: ItemState): (r: PlayerSpec.PlayerState)
    ensures r.score == p.score + it.scoreValue
    ensures r.diamonds == p.diamonds + (if it.isDiamond then 1 else 0)
    ensures r.(score := p.score, diamonds := p.diamonds) == p
    ensures PlayerSpec.Consistent(p) ==> PlayerSpec.Consistent(r)
  {
    if it.isDiamond then PlayerSpec.AddDiamond(PlayerSpec.AddScore(p, it.scoreValue), 1)
    else PlayerSpec.AddScore(p, it.scoreValue)
  }

  /**
   * What `Collect` does to the item, whether or not the player had a `move`
   * behaviour: whichever of renderer and collider exist are disabled, and
   * removal is scheduled.
   */
  function Consumed(it: ItemState): (r: ItemState)
    ensures it.hasRenderer ==> !r.rendererEnabled
    ensures it.hasCollider ==> !r.colliderEnabled
    ensures r.removalScheduled
    ensures r.(rendererEnabled := it.rendererEnabled, colliderEnabled := it.colliderEnabled,
               removalScheduled := it.removalScheduled) == it
  {
    var hidden := if it.hasRenderer then it.(rendererEnabled := false) else it;
    var inert := if it.hasCollider then hidden.(colliderEnabled := false) else hidden;
    inert.(removalScheduled := true)
  }

  class Collectibleitem {
    const isDiamond: bool
    const scoreValue: int
    var tag: Tag
    var hasCollider: bool
    var colliderEnabled: bool
    const hasRenderer: bool
    var rendererEnabled: bool
    var removalScheduled: bool

    function State(): ItemState
      reads this
    {
      ItemState(isDiamond, scoreValue, tag, hasCollider, colliderEnabled, hasRenderer, rendererEnabled, removalScheduled)
    }

    constructor (isDiamond: bool, scoreValue: int, hasCollider: bool, hasRenderer: bool)
      ensures State() == Created(isDiamond, scoreValue, hasCollider, hasRenderer)
    {
      this.isDiamond := isDiamond;
      this.scoreValue := scoreValue;
      tag := Untagged;
      this.hasCollider := hasCollider;
      colliderEnabled := hasCollider;
      this.hasRenderer := hasRenderer;
      rendererEnabled := hasRenderer;
      removalScheduled := false;
    }

    method Start()
      modifies this
      ensures State() == Started(old(State()))
    {
      if isDiamond {
        tag := Diamond;
      } else {
        tag := Cherry;
      }
      if !hasCollider {
        hasCollider := true;
        colliderEnabled := true;
      }
    }

    /** Only the player's collider collects the item; any other tag changes nothing. */
    method OnTriggerEnter2D(other: Tag, player: Actors.Move?)
      modifies this, player
      ensures other != Player ==> State() == old(State())
      ensures other != Player && player != null ==> player.State() == old(player.State())
      ensures other == Player ==> State() == Consumed(old(State()))
      ensures other == Player && player != null ==> player.State() == Granted(old(player.State()), old(State()))
    {
      if other == Player {
        Collect(player);
      }
    }

    /**
     * `player` is null when the player object has no `move` behaviour: then
     * no points are granted, but the item is consumed all the same.
     */
    method Collect(player: Actors.Move?)
      modifies this, player
      ensures State() == Consumed(old(State()))
      ensures player != null ==> player.State() == Granted(old(player.State()), old(State()))
    {
      if player != null {
        if isDiamond {
          player.AddScore(scoreValue);
          player.AddDiamond(1);
        } else {
          player.AddScore(scoreValue);
        }
      }
      if hasRenderer {
        rendererEnabled := false;
      }
      if hasCollider {
        colliderEnabled := false;
      }
      removalScheduled := true;
    }
  }
}
