# SunnyLand gameplay state, modelled in Dafny

A model of the gameplay state machines in the SunnyLand 2D platformer's
behaviour scripts, and proofs of what they promise:

- the **player** (`move`): health, score, diamond count, an invincibility
  window with a countdown timer, and a terminal death flag;
- the **enemy** (`EnemyController`): health lost one stomp at a time, a
  terminal death flag, the facing of its ground patrol and flying pursuit,
  and the sprite-frame cycling of its animation coroutine;
- the **collectible** (`Collectibleitem`): a one-shot diamond or cherry
  pickup;
- the **world**: how the engine calls both bodies' handlers for one contact,
  and only while both colliders are enabled.

Each script becomes a class (`Actors.Move`, `Actors.EnemyController`,
`Collectible.Collectibleitem`) whose fields are the script's fields and whose
methods update them in place. `State()` reads the fields as a value, and each
method's postcondition gives its new state as a function of the old one in
`PlayerSpec`, `EnemySpec` or `Collectible`. The properties are proved about
those functions, as their postconditions and as lemmas. `Encounter` and
`World` combine the classes into contacts and pickups.

Engine inputs become parameters:
- a physics probe (`Physics2D.OverlapCircle`) is a boolean, or `None` when its
  transform is not assigned;
- a collision's contacts are the sequence of their normals' y components;
- a frame's `Time.deltaTime` is a real;
- a missing `move` or `EnemyController` component is a null reference.

C# `int`s are unbounded integers here; no value the scripts compute comes near
2^31. C# `float`s are reals.

Where the game's intended design and its code disagree, the model follows the code:
- Health is not clamped at 0. Five damage on three health leaves -2
  (`PlayerSpec.OverkillGoesNegative`).
- `AddScore`, `AddDiamond` and `AddHealth` are not guarded by death. Healing
  a dead player can leave it dead with positive health, so
  `PlayerSpec.Consistent` is kept by `AddHealth` only when that cannot happen.
  In the model a dead player collects nothing (`World.DeadPlayerCollectsNothing`),
  but only as a consequence of the engine assumptions listed under
  "## Left out"; the scripts themselves do not guard against it.
- A stomp contact costs the enemy two health, not one. See Findings.

## Model

| member | source | states |
|---|---|---|
| Contacts.FindStompContact | Assets/scripts/move.cs:262-277 | the contact loop with `break` finds a contact past the threshold iff one exists (y > 0.5 for the player, y < -0.5 for the enemy); the one it reports is the first |
| Contacts.SidesAgree | Assets/scripts/EnemyController.cs:357-361 | with the normals reversed for the other body, the enemy sees a stomp exactly when the player does |
| PlayerSpec.Initial | Assets/scripts/move.cs:40-61 | after creation and `Start`: health = maxHealth, score 0, diamonds 0, not invincible, not dead; consistent iff invincibilityTime > 0 |
| PlayerSpec.Die | Assets/scripts/move.cs:347-368 | the player ends up dead; dying again changes nothing; a first death also disables the collider and changes nothing else |
| PlayerSpec.TakeDamage | Assets/scripts/move.cs:298-324 | no change at all when invincible or dead; otherwise health drops by exactly `damage` (unclamped), the window opens with timer = invincibilityTime, and the player dies iff health <= 0; non-negative damage preserves `Consistent` |
| PlayerSpec.Tick | Assets/scripts/move.cs:95-124 | nothing when dead or not invincible; otherwise the timer drops by dt and the window stays open iff the timer is still > 0; preserves `Consistent` |
| PlayerSpec.AddScore | Assets/scripts/move.cs:215-220 | the score grows by exactly `points`; every other field unchanged, dead or alive |
| PlayerSpec.AddDiamond | Assets/scripts/move.cs:222-227 | the diamond count grows by exactly `amount`; every other field unchanged |
| PlayerSpec.AddHealth | Assets/scripts/move.cs:458-461 | health becomes min(health + amount, maxHealth), so never above the maximum; nothing else changes |
| PlayerSpec.HitByEnemy | Assets/scripts/move.cs:279-282 | a stomp leaves the player alone; otherwise the result equals a plain `TakeDamage(1)`, so the extra invincible/dead test changes nothing |
| PlayerSpec.DeadStaysDead | Assets/scripts/move.cs:300 | from a dead state, no run of operations revives the player or re-enables its collider; without `AddHealth`, health does not change either |
| PlayerSpec.DieIdempotent | Assets/scripts/move.cs:349 | dying twice is dying once |
| PlayerSpec.SecondHitAbsorbed | Assets/scripts/move.cs:300-304 | a damage call right after another is absorbed by the window the first one opened |
| PlayerSpec.ShieldedAgainstAll | Assets/scripts/move.cs:300 | any run of damage calls while invincible or dead changes nothing |
| PlayerSpec.TicksIdleWhenVulnerable | Assets/scripts/move.cs:116 | frames change nothing while the window is closed |
| PlayerSpec.Countdown | Assets/scripts/move.cs:116-124 | with non-negative frame times, the player stays invincible iff the frame times sum to less than the timer, which has then run down by that sum; nothing else changes |
| PlayerSpec.HurtTwiceThroughWindow | Assets/scripts/move.cs:298-304 | 3 health, hit for 1, hit again at once (ignored), then hit after the window runs out: 2, 2, 1 |
| PlayerSpec.OverkillGoesNegative | Assets/scripts/move.cs:302 | 5 damage on 3 health leaves health -2 and the player dead |
| EnemySpec.Spawned | Assets/scripts/EnemyController.cs:7-39 | a spawned enemy is alive, faces left, is not attacking, has its collider, and is consistent iff its health is at least 1 |
| EnemySpec.Flip | Assets/scripts/EnemyController.cs:213-219 | the facing is reversed; nothing else changes |
| EnemySpec.FlipTwice | Assets/scripts/EnemyController.cs:215 | two flips restore the original facing |
| EnemySpec.FaceTowards | Assets/scripts/EnemyController.cs:96-103 | after the direction test the enemy faces any non-zero direction; a zero direction changes nothing |
| EnemySpec.CheckGroundCollisions | Assets/scripts/EnemyController.cs:190-211 | the facing changes iff exactly one of "no ground ahead" and "wall ahead" holds; when both hold the flips cancel; an unassigned probe never fires |
| EnemySpec.UpdateGroundEnemy | Assets/scripts/EnemyController.cs:89-126 | the velocity becomes the move speed in the facing direction; the new facing is the old one, flipped iff the speed is negative (a zero speed never flips), then flipped again iff exactly one probe fires; only facing and velocity change |
| EnemySpec.PositiveSpeedFollowsFacing | Assets/scripts/EnemyController.cs:92-103 | with moveSpeed > 0 the velocity sign matches the facing, so only the probes change the facing |
| EnemySpec.NegativeSpeedFlipsEveryStep | Assets/scripts/EnemyController.cs:92-103 | with moveSpeed < 0 the velocity test flips the enemy on every step before the probes |
| EnemySpec.UpdateFlyingEnemy | Assets/scripts/EnemyController.cs:128-188 | in range the enemy attacks and turns to face the player, keeping its facing when the player is level with it (zero offset); out of range it patrols without turning; without a player nothing changes |
| EnemySpec.FixedUpdate | Assets/scripts/EnemyController.cs:73-87 | nothing once dead; movement never changes health, death, collider or removal; preserves `Consistent` |
| EnemySpec.Die | Assets/scripts/EnemyController.cs:308-347 | the enemy ends up dead; dying again changes nothing; a first death disables the collider, schedules removal and zeroes a ground enemy's velocity; no other field (health, facing, speed, `isAttacking`, ...) changes |
| EnemySpec.GetJumpedOn | Assets/scripts/EnemyController.cs:293-306 | no change when dead; otherwise health drops by exactly 1 and the enemy dies iff health <= 0, a death switching the collider off, scheduling removal and zeroing a ground enemy's velocity; a survivor changes only in health; no other field changes; preserves `Consistent` |
| EnemySpec.DieIdempotent | Assets/scripts/EnemyController.cs:310 | dying twice is dying once |
| EnemySpec.StompsToKill | Assets/scripts/EnemyController.cs:293-306 | from health h >= 1, n < h stomps leave it alive with h - n health, and n >= h stomps leave it dead at 0 |
| EnemySpec.DeadStaysPut | Assets/scripts/EnemyController.cs:295 | stomps on a dead enemy change nothing |
| Encounter.PlayerHandler | Assets/scripts/move.cs:260-296 | a stomp applies `GetJumpedOn` to the enemy and leaves the player alone; otherwise the player takes `TakeDamage(1)` and the enemy is untouched |
| Encounter.EnemyHandler | Assets/scripts/EnemyController.cs:350-386 | a stomp (some contact with y < -0.5) gives (player unchanged, `GetJumpedOn(e)`); otherwise a live enemy gives (`TakeDamage(p, damage)`, enemy unchanged) and a dead one changes nothing; never both |
| Encounter.RecheckChangesNothing | Assets/scripts/move.cs:347-368 | checking both colliders again before the second handler gives the same outcome as running both: a collider goes off only with a death (move.cs:351-368, EnemyController.cs:308-347), and the second handler is then a no-op |
| Encounter.LateralContactHurtsOnce | Assets/scripts/EnemyController.cs:376-384 | a side contact with an unshielded player and a live enemy deals damage once, in either order: 1 if the player's handler runs first, the enemy's damage otherwise |
| Encounter.StompContactHitsTwice | Assets/scripts/move.cs:285-296 | as written, a stomp contact applies `GetJumpedOn` twice, in either order |
| Encounter.TwoHealthEnemyDiesInOneContact | Assets/scripts/EnemyController.cs:357-365 | as written, an enemy with 2 health dies from a single stomp contact |
| Encounter.PlayerHandlerCorrected | Assets/scripts/move.cs:285-296 | the corrected player handler leaves the enemy to its own handler and treats the player exactly as before |
| Encounter.StompContactHitsOnce | Assets/scripts/EnemyController.cs:357-365 | with the correction, a stomp contact is exactly one `GetJumpedOn`, in either order |
| Encounter.StompRunIsStomps | Assets/scripts/EnemyController.cs:293-306 | with the correction, n stomp contacts are n stomps |
| Encounter.StompContactsToKill | Assets/scripts/EnemyController.cs:293-306 | with the correction, an enemy with health h >= 1 dies iff it takes at least h stomp contacts, and the player is never hurt by them |
| Actors.Move.constructor | Assets/scripts/move.cs:40-45 | the field initialisers: score, diamonds and timer 0, not invincible, not dead, collider enabled |
| Actors.Move.Start | Assets/scripts/move.cs:50-61 | sets health to the maximum and resets score and diamonds |
| Actors.Move.Update | Assets/scripts/move.cs:95-124 | updates the fields as `PlayerSpec.Tick` |
| Actors.Move.OnTriggerEnter2D | Assets/scripts/move.cs:153-163 | changes no state; the collect sound plays iff the player is alive and the other object is a diamond or cherry |
| Actors.Move.AddScore | Assets/scripts/move.cs:215-220 | updates the fields as `PlayerSpec.AddScore` |
| Actors.Move.AddDiamond | Assets/scripts/move.cs:222-227 | updates the fields as `PlayerSpec.AddDiamond` |
| Actors.Move.OnCollisionEnter2D | Assets/scripts/move.cs:252-258 | only an object tagged Enemy is handled; anything else changes nothing |
| Actors.Move.HandleEnemyCollision | Assets/scripts/move.cs:260-283 | the player changes as `HitByEnemy`; the enemy changes only on a stomp, by `GetJumpedOn` |
| Actors.Move.DestroyEnemy | Assets/scripts/move.cs:285-296 | an enemy with a controller receives `GetJumpedOn` |
| Actors.Move.TakeDamage | Assets/scripts/move.cs:298-325 | updates the fields as `PlayerSpec.TakeDamage` |
| Actors.Move.Die | Assets/scripts/move.cs:347-368 | updates the fields as `PlayerSpec.Die` |
| Actors.Move.GetCurrentHealth | Assets/scripts/move.cs:452 | returns the current health |
| Actors.Move.GetMaxHealth | Assets/scripts/move.cs:453 | returns the maximum health |
| Actors.Move.IsDead | Assets/scripts/move.cs:454 | returns the death flag |
| Actors.Move.GetCurrentScore | Assets/scripts/move.cs:455 | returns the score |
| Actors.Move.GetDiamondCount | Assets/scripts/move.cs:456 | returns the diamond count |
| Actors.Move.AddHealth | Assets/scripts/move.cs:458-461 | updates the fields as `PlayerSpec.AddHealth` |
| Actors.EnemyController.constructor | Assets/scripts/EnemyController.cs:7-39 | the spawned state of `EnemySpec.Spawned` |
| Actors.EnemyController.FixedUpdate | Assets/scripts/EnemyController.cs:73-87 | updates the fields as `EnemySpec.FixedUpdate` |
| Actors.EnemyController.UpdateGroundEnemy | Assets/scripts/EnemyController.cs:89-126 | updates the fields as `EnemySpec.UpdateGroundEnemy` |
| Actors.EnemyController.UpdateFlyingEnemy | Assets/scripts/EnemyController.cs:128-188 | updates the fields as `EnemySpec.UpdateFlyingEnemy` |
| Actors.EnemyController.CheckGroundCollisions | Assets/scripts/EnemyController.cs:190-211 | updates the fields as `EnemySpec.CheckGroundCollisions` |
| Actors.EnemyController.Flip | Assets/scripts/EnemyController.cs:213-219 | updates the fields as `EnemySpec.Flip` |
| Actors.EnemyController.PlayAnimation | Assets/scripts/EnemyController.cs:231-251 | shows no frame without sprites or a renderer; otherwise one frame per pass, starting at 0, each inside [0, spriteCount), each the previous + 1 mod spriteCount; the delay is halved while moving or attacking |
| Actors.EnemyController.GetJumpedOn | Assets/scripts/EnemyController.cs:293-306 | updates the fields as `EnemySpec.GetJumpedOn` |
| Actors.EnemyController.Die | Assets/scripts/EnemyController.cs:308-347 | updates the fields as `EnemySpec.Die` |
| Actors.EnemyController.OnCollisionEnter2D | Assets/scripts/EnemyController.cs:350-386 | only the Player tag is handled; then both states change as `Encounter.EnemyHandler`, the enemy's only by its own `GetJumpedOn` on a stomp |
| Collectible.Started | Assets/scripts/CollectibleItem.cs:17-43 | the tag is Diamond iff the item is a diamond, Cherry otherwise; a collider always exists afterwards (a fresh, enabled one if none did) |
| Collectible.Granted | Assets/scripts/CollectibleItem.cs:74-91 | the player's score grows by the score value, its diamonds by 1 for a diamond and 0 for a cherry; nothing else changes |
| Collectible.Consumed | Assets/scripts/CollectibleItem.cs:97-108 | the item's renderer and collider (where present) are disabled and its removal is scheduled; nothing else changes |
| Collectible.Collectibleitem.constructor | Assets/scripts/CollectibleItem.cs:5-9 | the item as loaded: untagged, components enabled, not scheduled for removal |
| Collectible.Collectibleitem.Start | Assets/scripts/CollectibleItem.cs:17-43 | updates the fields as `Collectible.Started` |
| Collectible.Collectibleitem.OnTriggerEnter2D | Assets/scripts/CollectibleItem.cs:61-68 | only the Player tag collects; any other tag changes nothing |
| Collectible.Collectibleitem.Collect | Assets/scripts/CollectibleItem.cs:70-109 | the item is consumed in every case; a player with a `move` behaviour is granted the item, a missing one changes nothing |
| World.ConsumedIsInert | Assets/scripts/CollectibleItem.cs:102-105 | once the item's collider is off, further touches change nothing |
| World.PickupAtMostOnce | Assets/scripts/CollectibleItem.cs:61-109 | under the engine-delivery assumptions, any number of touches grants the score (and diamond) exactly once if the first touch could collect, never otherwise; nothing else of the player changes |
| World.DeadPlayerCollectsNothing | Assets/scripts/move.cs:367-368 | a dead player, whose collider is off, collects nothing |
| World.PickupExamples | Assets/scripts/CollectibleItem.cs:77-90 | a 10-point diamond gives a fresh player score 10 and 1 diamond; a 5-point cherry gives score 5 and no diamond |
| World.TouchItem | Assets/scripts/CollectibleItem.cs:61-68 | both trigger handlers run iff both colliders are enabled; the states change as `World.Touch`; the collect sound plays iff the player is alive and the item is a diamond or cherry |
| World.Collide | Assets/scripts/EnemyController.cs:350-386 | the first collision handler runs iff both colliders are enabled, the second iff they still are, in either order; the states change as `Encounter.ContactAsWritten` |

## Left out

- Input polling, `controller.Move`, animator calls, audio playback and audio source setup: engine calls that hold no gameplay state. The one audio decision kept is whether the player's trigger plays the collect sound.
- UI text, the game-over panel, its buttons, scene loads, `Time.timeScale` and `QuitGame`: user interface and scene handling.
- Knockback, bounce and death impulses, gravity changes, `isKinematic`, velocity resets of the player, and `Instantiate` of effects: physics and object lifecycle. `TakeDamage` therefore drops its `damageSource` parameter, which only sets the knockback direction. The one velocity kept is the ground enemy's horizontal velocity, which its facing logic reads.
- The physics probes and `Vector2.Distance`: their results are inputs.
- The flying enemy's positions, its sine patrol and its `MoveTowards` pursuit: floating-point motion driven by `Time.time`. Only the facing and `isAttacking` logic is modelled.
- `Destroy` with a delay is recorded as a flag; removing the object is left to the engine. An enemy object without an `EnemyController` that the player stomps is destroyed outright, which is also not modelled.
- Blink, hurt-flash and death-fade coroutines, `StopBlinking`, and the choice of which sprite array `StartAnimation` plays. Only the frame-index arithmetic of `PlayAnimation` is kept. The number of passes its loop makes before the enemy dies or the coroutine is replaced is an input.
- Engine delivery is assumed, not taken from the scripts: each body has exactly one Collider2D (the one `GetComponent<Collider2D>()` returns in the player's `Die` and in `Collect`), and the engine checks that both colliders are enabled again before every queued callback, so a second overlap event in the same physics step is dropped once `Collect` has disabled the item's collider. The scripts have no "consumed" guard of their own, and the player's trigger handler tests `isDead`, as if triggers after death were expected. `World.Touch`, `World.TouchItem`, `World.Collide`, `Encounter.ContactAsWritten`, `World.ConsumedIsInert`, `World.PickupAtMostOnce` and `World.DeadPlayerCollectsNothing` rely on these assumptions; without them an item could pay out more than once and a dead player could still collect.
- Every engine reference is assumed assigned: the player's `animator` and a Rigidbody2D on every enemy. The scripts use them with no null test at move.cs:100, 316 and 365 and at EnemyController.cs:93, 240, 335 and 342, although `Start` tests `rb != null` for a flying enemy (EnemyController.cs:54). Without the assignment those lines throw: a player with no animator stays alive at health <= 0 after a hit (316 runs before `Die` at 323) and never closes its invincibility window (100 runs before the countdown), and a flying enemy with no Rigidbody2D never plays a frame (240) and is never removed after death (342 runs before `Destroy` at 347). `PlayerSpec.TakeDamage`, `PlayerSpec.Tick`, `PlayerSpec.Die`, `EnemySpec.Die`, `EnemySpec.GetJumpedOn`, `Actors.EnemyController.PlayAnimation` and the class methods that follow them rely on this assumption.
- Which body's `OnCollisionEnter2D` runs first is an input (`playerFirst`). No order is assumed.
- The collectible's float and rotate animation, and the `isTrigger` setting of its collider.
- Floating-point rounding: times and velocities are reals.
- PlayerSpec.AddHealth: promises `Consistent` only when the player is alive or stays at health <= 0, because the source lets a dead player be healed.

## Findings

| source | as written | input that shows it | evidently intended | confidence | as-written member | corrected member |
|---|---|---|---|---|---|---|
| Assets/scripts/move.cs:285-296 | a stomp contact reaches `GetJumpedOn` twice. The player's `HandleEnemyCollision` calls it through `DestroyEnemy`, and the enemy's own `OnCollisionEnter2D` calls it again for the same contact. | an enemy with `health = 2`, one contact whose normal has y = 1.0 as the player sees it: the enemy dies from one stomp | one health per stomp, so an enemy with health h takes h stomps | medium, not executed; assumes the engine calls both bodies' handlers for one contact with opposite normals, as both scripts' thresholds expect | Encounter.StompContactHitsTwice | Encounter.StompContactsToKill |
