# Zombie platformer systems in Dafny

This project models the per-frame game logic of a small side-scrolling game. The player
runs, jumps (with coyote time, a jump buffer and one double jump per airborne spell),
dodge-rolls and swings an attack hitbox. Zombies patrol, chase and lunge. Damage is resolved
from the contact pairs the physics engine reports. A locked prison door opens once no zombie
is left.

The model covers three parts of the game:

- `Constants.js`: the collision categories and masks, the distances, the timings and the hp.
- `Entities.js`: the level's bodies and their game data, the input and game-state records,
  and the factory that returns the entity registry.
- `Systems.js`: the five systems the game engine runs every frame, in this order:
  physics, player control, zombie AI, damage and win condition.

The project is built in two layers:

- **Value layer.** A `Scene` holds every body record ever created, keyed by identity. Next to
  the records it holds:
  - the set of identities currently in the physics world;
  - the registry (the factory's keys, in order, each holding a body);
  - the input record and the game-state record;
  - the next identity to hand out.

  Each system is a function on scenes. Its contract and the lemmas beside it state what the
  system promises.
- **Imperative layer.** Module `Systems` has a class `Shared` for the module-level objects of
  `Entities.js` and a class `Entities` for the object the factory returns. Each system is a
  method of `Entities` that updates these fields in place, with loops where the source loops.
  Each method is proved to leave exactly the state the value-level function describes.

Modules: `Constants`, `Model` (data model and the invariant `Wf`), `Setup` (`Entities.js`),
`Physics`, `PlayerControl`, `ZombieAI`, `Damage`, `WinCondition`, `Frame` (one frame, the
restart and the deferred hit-marker clear), and `Systems` (the classes and their methods).

The game-over overlay's "Try Again" button (`App.js:207`) and the victory overlay's "Play
Again" button (`App.js:218`) both call `resetGame` (`App.js:172-176`), which is evidently
meant to start a new game. The code does not rebuild the game. `Entities.js` creates the
bodies, the input record and the game state once, at module level. The factory
(`Entities.js:200-215`) returns a new object that refers to those same objects, and
`App.js:174` only swaps that object in. So the model follows the code: a restart replaces
the registry alone (`Frame.Reset`, `Systems.Entities.Restart`). As a result, a defeated
zombie comes back into the registry with the hp it died with, still out of the world, and a
game that is over stays over (`Frame.ResetRestoresRegistryOnly`,
`Frame.ResetAfterGameOver`). The restart the buttons evidently mean is `Frame.FreshReset`,
which builds every entity again; it is listed under "## Findings".

## Model

| member | source | states |
|---|---|---|
| Constants.CategoriesAreDistinctBits | Constants.js:32-37 | the four collision categories are the distinct single bits 1, 2, 4 and 8 |
| Constants.PlayerMasks | Constants.js:41 | the player's mask includes the environment and enemy categories, never the player or its own attack; the dodge mask (environment alone, set at `Systems.js:67`) leaves enemies out |
| Constants.FilterPairs | Constants.js:31-44 | under the two-sided filter (each body's mask must include the other's category) the player and the zombies meet the geometry and the attack meets the zombies, while player and zombie, player and attack, attack and geometry, two zombies, and the door with the player or a zombie never meet |
| Constants.AttackAndEnemyMasks | Constants.js:42-43 | the attack hitbox sees only enemies; enemies see geometry and attacks, not the player |
| Constants.EnvironmentMask | Constants.js:44 | geometry collides with the player and enemies, not with attacks or other geometry |
| Constants.DistancesOrdered | Constants.js:21-22 | 0 < ATTACK_DISTANCE < AGGRO_DISTANCE, so the three zombie states partition the distances |
| Constants.TimingsOrdered | Constants.js:13-17 | every duration is positive and JUMP_BUFFER_TIME <= COYOTE_TIME < DODGE_DURATION |
| Constants.HitsToDefeatIsCeiling | Constants.js:26-29 | the number of hits to bring hp to zero or below is the least n with n * damage >= hp |
| Constants.HitCounts | Constants.js:26-29 | a zombie falls to the second player hit, the player to the tenth zombie hit |
| Model.FindIn | Systems.js:40-46 | a key lookup in the registry returns the body of an entry that holds that key |
| Model.FindEntry | Systems.js:40-46 | with distinct keys, the lookup of an entry's key returns that entry's body |
| Model.Unlink | Systems.js:335-339 | deleting the keys that hold a body keeps exactly the other entries, in order, and keeps keys distinct |
| Model.UnlinkStep | Systems.js:335-339 | the key-by-key deletion loop: what survives of the first j keys plus the filtered rest is the whole filtered registry |
| Setup.Geometry | Entities.js:56-127 | floor, walls and platforms are non-sensor environment bodies with the environment mask, the static flag set and no game data |
| Setup.CreateZombie | Entities.js:130-155 | a new zombie is at the given position with the enemy filter, full hp (30 of 30), Patrol state, the given patrol bounds, heading right and no lunge yet |
| Setup.InitialZombies | Entities.js:157-160 | exactly bodies 7 and 8 are zombies, both at full hp |
| Setup.InitialStatic | Entities.js:28-180 | of the level's bodies, all but the player and the two zombies are static |
| Setup.InitialBodies | Entities.js:27-180 | the level has bodies 1 to 9, in creation order |
| Setup.Initial | Entities.js:53-197 | at load, every body is in the world and the next identity follows the door |
| Setup.InitialWf | Entities.js:200-215 | the loaded state satisfies the invariant: the player and door keys hold the player and the door, and every zombie is alive |
| Setup.InitialPlayer | Entities.js:40-51 | the player starts at full hp, vulnerable, facing right, with no hitbox, no dodge, an empty jump buffer and no hit recorded |
| Setup.InitialDoorLocked | Entities.js:176-178 | the door starts locked |
| Setup.InitialFlags | Entities.js:183-197 | no input is held or latched; not paused, not over, not won, no hit-stop |
| Setup.ZombiesStartInBounds | Entities.js:157-158 | both zombies start strictly inside their patrol bounds |
| Setup.InitialRegistry | Entities.js:200-215 | the factory's nine body keys, distinct, holding bodies 1 to 9 in creation order |
| Setup.InitialRegistryKinds | Entities.js:200-215 | the factory's keys hold, in order: the player, the floor, two walls, two platforms, two zombies and the door |
| Setup.InitialCounts | Entities.js:200-215 | the registry holds one player, two zombies and one door |
| Setup.InitialRegistryKeys | Entities.js:200-215 | the factory's keys are distinct; `player` holds body 1 and `door` holds body 9 |
| Setup.InitialZombieKeys | Entities.js:209-210 | `zombie1` and `zombie2` hold bodies 7 and 8 |
| Setup.FindFirst | Entities.js:200-215 | a lookup returns the body of the first entry holding the key |
| Physics.Physics | Systems.js:24-36 | the engine steps unless a hit-stop runs; a step changes only position, velocity and force of bodies in the world, so the invariant and every label and payload are kept |
| Physics.PhysicsGate | Systems.js:28-33 | the engine steps exactly when hitStopEndTime <= now; pause and game over do not stop it |
| Physics.StaticStill | Systems.js:33 | a static body (floor, wall, platform, door) comes out of every physics step unchanged; over a whole frame the win check may still unlock the door |
| Physics.MovedWf | Systems.js:33 | a step that only moves bodies keeps the invariant and the player and door keys |
| PlayerControl.TargetVelocity | Systems.js:74-83 | the target speed is +PLAYER_SPEED when right is held (right wins), -PLAYER_SPEED for left alone, 0 otherwise |
| PlayerControl.Facing | Systems.js:76-83 | facing follows the held direction, right applied after left; unchanged with no direction held |
| PlayerControl.Clamp | Systems.js:90 | max(-bound, min(bound, v)) lies in [-bound, bound] and is v when v is in range |
| PlayerControl.SmoothedVelocity | Systems.js:86-91 | the new horizontal speed is 0.8 v + 0.2 target, clamped to the player's speed; with no input it decays toward 0 without overshooting |
| PlayerControl.JumpFor | Systems.js:105-130 | a buffered press jumps from the ground or the coyote window, else spends the double jump if one is left, else does nothing |
| PlayerControl.Grounded | Systems.js:50 | the player counts as grounded exactly when its vertical speed lies strictly between -0.5 and 0.5 |
| PlayerControl.Drive | Systems.js:50-145 | the controller's first six steps keep the player's label, position and hitbox reference |
| PlayerControl.DriveFrame | Systems.js:50-58 | grounding records isGrounded and the grounded time; hp, hit marker, position and the other latches are untouched |
| PlayerControl.DodgeWindow | Systems.js:64-71 | invulnerable with the environment-only mask exactly while a dodge from an earlier frame runs; otherwise the full player mask |
| PlayerControl.DodgeTrigger | Systems.js:133-145 | a dodge starts exactly on a roll press-edge outside a running dodge and lasts DODGE_DURATION; the roll latch is held only while roll is held and a dodge has started |
| PlayerControl.Steering | Systems.js:74-92 | the new horizontal velocity is the smoothed, clamped one and facing follows the held direction |
| PlayerControl.JumpLatch | Systems.js:95-102 | the jump latch ends equal to the jump intent; the buffer holds 0, now or its old value |
| PlayerControl.JumpRules | Systems.js:105-130 | a jump happens exactly when a buffered press meets the ground, coyote time or a spare double jump; every jump clears the buffer and pushes up by JUMP_FORCE; only a double jump zeroes the vertical velocity and spends the double jump |
| PlayerControl.DodgeImpulse | Systems.js:134-138 | a dodge pushes by 0.12 in the direction faced after steering; no dodge, no push |
| PlayerControl.SpawnHitbox | Systems.js:150-173 | the hitbox is a sensor with the attack filter, 35 units ahead of the player at its height, with PLAYER_DAMAGE, now and ATTACK_DURATION and not yet spent |
| PlayerControl.WithPlayer | Systems.js:46-47 | replacing the player's body and data keeps the invariant and the player key |
| PlayerControl.WithBody | Systems.js:175 | a new body gets the next identity and enters the world; the invariant is kept |
| PlayerControl.Steer | Systems.js:50-145 | the first six steps replace only the player's body and the input record |
| PlayerControl.Attack | Systems.js:148-185 | on an attack press-edge a fresh hitbox enters the world and becomes the player's (the old one is not released); the latch then follows the intent; nothing else changes |
| PlayerControl.Expire | Systems.js:188-194 | the owned hitbox leaves the world and is released exactly when older than its duration; otherwise nothing changes |
| PlayerControl.Control | Systems.js:39-197 | nothing while paused or over; otherwise only the player's body, the input latches, a new hitbox and the owned hitbox's membership change, and the invariant holds |
| PlayerControl.AttackThenExpire | Systems.js:148-194 | after steering, the attack and expiry steps touch only the hitbox reference, the attack latch and new bodies |
| PlayerControl.AfterAttack | Systems.js:148-185 | the same for the attack step alone |
| PlayerControl.AttackPress | Systems.js:148-181 | an attack press-edge creates exactly one fresh hitbox in the world, beside the steered player, and the player owns it |
| PlayerControl.HitboxExpiry | Systems.js:183-194 | without a press-edge no body is created; the owned hitbox leaves the world exactly when expired |
| PlayerControl.EarlierHitboxStays | Systems.js:175-178 | pressing attack while a hitbox is owned leaves the earlier body in the world, unchanged and no longer owned |
| PlayerControl.DoubleJumpOncePerAirborneSpell | Systems.js:117-129 | after a double jump, a later airborne frame past coyote time cannot jump again |
| PlayerControl.BufferedJumpOnLanding | Systems.js:95-116 | a press in the air with no jump left is remembered and performed on landing within JUMP_BUFFER_TIME |
| PlayerControl.DodgeLagsOneFrame | Systems.js:64-71 | the frame that starts a dodge is not yet invulnerable; later frames are, until DODGE_DURATION has passed |
| PlayerControl.ClearedBufferNearTimeZero | Systems.js:105-115 | a cleared buffer holds 0, so before JUMP_BUFFER_TIME a standing player jumps with no press |
| PlayerControl.ControlAsWritten | Systems.js:39-197 | the controller as written: it throws at the world add and at the world remove because `physics` is not bound; the invariant still holds |
| PlayerControl.AttackPressThrows | Systems.js:175 | as written every attack press-edge throws before the hitbox is stored or the latch is set |
| PlayerControl.AsWrittenAgrees | Systems.js:39-197 | with no press-edge and no expiring hitbox, the code as written and the corrected controller agree |
| PlayerControl.SteeredExpiry | Systems.js:188-190 | the first six steps do not change whether the owned hitbox has expired |
| PlayerControl.NoEdgeControl | Systems.js:183-194 | with no press-edge and nothing expiring, control is steering plus the latch |
| PlayerControl.AsWrittenNeverArms | Systems.js:175 | as written, a player without a hitbox never gets one into the world |
| PlayerControl.AttackPressArms | Systems.js:148-181 | corrected, an attack press-edge puts an owned hitbox into the world |
| ZombieAI.Distance | Systems.js:216 | the horizontal distance is non-negative and equals one of the two differences |
| ZombieAI.Toward | Systems.js:217 | +1 exactly when the player is strictly to the right, -1 otherwise |
| ZombieAI.StateFor | Systems.js:220-242 | Attack below ATTACK_DISTANCE, Aggro from there up to AGGRO_DISTANCE, Patrol from AGGRO_DISTANCE on (strict thresholds) |
| ZombieAI.PatrolDirection | Systems.js:245-249 | turn right at or past the left bound, turn left at or past the right bound, keep going in between |
| ZombieAI.Think | Systems.js:213-255 | the state follows the distance; a lunge happens exactly in Attack with the cooldown run out and pushes toward the player; Aggro chases at ZOMBIE_SPEED; Patrol walks in the bounced direction; hp, bounds and position are untouched |
| ZombieAI.ThinkIdempotent | Systems.js:220-255 | updating a zombie twice in a frame is updating it once |
| ZombieAI.PatrolBounce | Systems.js:245-254 | a patrolling zombie at its left bound walks right, at its right bound walks left |
| ZombieAI.Visit | Systems.js:211-212 | visiting a key updates its body when it is a zombie and changes no other body |
| ZombieAI.ThinkAll | Systems.js:210-257 | the pass over the keys keeps every body and its label and payload kind |
| ZombieAI.ThinkAllEffect | Systems.js:210-257 | every zombie the registry holds gets exactly one update, even if two keys hold it; every other body keeps its record |
| ZombieAI.ThinkAllStep | Systems.js:210-212 | one key of the pass: the rest of the keys see the bodies after that key |
| ZombieAI.ZombieAI | Systems.js:200-260 | nothing while paused or over; otherwise only bodies change, as the pass over the registry against the player's x makes them |
| ZombieAI.ThoughtWf | Systems.js:210-257 | the pass keeps the invariant and the player and door keys |
| ZombieAI.ZombieAIFrame | Systems.js:210-257 | the pass changes no hp, no non-zombie body, no membership; each registered zombie is updated once |
| Damage.StrikeZombie | Systems.js:285-299 | a fresh hitbox costs the zombie its damage, is spent, starts a hit-stop and queues the zombie at hp <= 0; a spent one does nothing |
| Damage.Truthy | Systems.js:310 | JavaScript truthiness of `lastHitTime`: false exactly when it is absent or 0 |
| Damage.StrikePlayer | Systems.js:307-326 | a zombie contact costs ZOMBIE_DAMAGE unless the player is invulnerable or a hit is pending; it records the hit time, starts a hit-stop and ends the game at hp <= 0 |
| Damage.ResolvePair | Systems.js:278-327 | both checks of one pair, the hitbox check first, keep every body and label |
| Damage.ResolveAll | Systems.js:277-328 | the pair loop keeps every body and label |
| Damage.LoopProgress | Systems.js:277-328 | the loop changes only zombie hp, a hitbox's hasHit (set, never cleared), player hp and hit time, the hit-stop end and game over (set only), and appends to the queue |
| Damage.LoopHpDown | Systems.js:289 | no zombie gains hp during the loop |
| Damage.LoopQueueSound | Systems.js:296-298 | the queue gains only zombies the loop brought to hp <= 0 |
| Damage.LoopQueueComplete | Systems.js:296-298 | every zombie the loop brought to hp <= 0 is queued |
| Damage.LoopPlayerIdle | Systems.js:303-310 | with no zombie contact, or while no hit can land, the player is untouched |
| Damage.LoopPlayerHit | Systems.js:310-325 | while a hit can land, the player takes one hit (one per contact at time 0), and the game ends exactly when that takes its last hp |
| Damage.LoopHitStop | Systems.js:293-315 | the loop sets the hit-stop end to now + HIT_STOP_DURATION exactly when it damaged something |
| Damage.OneStrikePerHitbox | Systems.js:288-290 | a fresh hitbox touching two zombies damages only the zombie of the first pair |
| Damage.SpentPair | Systems.js:288 | a spent hitbox against a zombie changes nothing |
| Damage.PairOnHitbox | Systems.js:281-299 | one pair keeps a hitbox's damage, and the hitbox is fresh after it exactly when it was fresh before and the pair did not set it against a zombie |
| Damage.PairOnZombie | Systems.js:281-299 | one pair lowers a zombie's hp by the hitbox's damage exactly when it sets a fresh hitbox against that zombie, and by nothing otherwise |
| Damage.FirstSlashOnce | Systems.js:288-290 | two different pairs cannot both be the first pair of the same hitbox against a zombie |
| Damage.Run | Systems.js:277-328 | the body maps the pair loop passes through, one per pair, start with the bodies before the loop and end with the loop's result, every label kept |
| Damage.RunTrace | Systems.js:277-328 | along the run every payload matches its label, and each pair does to every hitbox and zombie what `PairOnHitbox` and `PairOnZombie` say |
| Damage.LoopStrikes | Systems.js:277-299 | after the loop each zombie's hp is its hp before less the damage of the hitboxes, fresh before the loop, whose first pair against a zombie names it; a hitbox ends fresh exactly when it began fresh and no pair set it against a zombie |
| Damage.DealtNone | Systems.js:288 | when every hitbox the pairs set against a zombie is spent, no zombie is owed damage |
| Damage.LoopUnarmed | Systems.js:281-299 | with no hitbox in any pair, no body but the player changes and nothing is queued |
| Damage.ResolveStep | Systems.js:277 | one pair of the loop: the rest of the pairs see the tally after that pair |
| Damage.RemoveDead | Systems.js:331-340 | each queued zombie leaves the world and every key that holds it; nothing else changes |
| Damage.RemoveStep | Systems.js:331 | one queued zombie of the removal loop |
| Damage.Damage | Systems.js:263-343 | nothing while paused or over; otherwise input and identities are kept, every body keeps its label, and the invariant and the player and door keys hold |
| Damage.DamageKeepsWf | Systems.js:263-343 | resolution then removal keeps the invariant; neither the player nor the door is ever queued |
| Damage.QueuedIffFelled | Systems.js:289-298 | a zombie is queued exactly when it lost hp this frame and ended at 0 or below |
| Damage.DamageRemovesFelled | Systems.js:296-339 | a key or world entry disappears exactly when its zombie was felled this frame, so no zombie without hp stays in the world |
| Damage.FelledGone | Systems.js:331-332 | removing the felled zombies leaves only zombies with hp in the world |
| Damage.DamageProgress | Systems.js:263-343 | over the whole system, records change only as the loop allows |
| Damage.DamageHurtsPlayer | Systems.js:303-326 | the player is hit once (once per contact at time 0) when open to a hit and touched, and the game ends exactly at hp <= 0 |
| Damage.DamageHitStop | Systems.js:293-315 | hit-stop starts exactly when something took damage; pause and victory are untouched |
| Damage.DamageStrikes | Systems.js:263-299 | over the whole system, each hitbox lowers hp at most once, by exactly its damage, on the zombie of its first pair against a zombie, and a hitbox ends fresh exactly when it began fresh and met no zombie |
| Damage.DamageSpentHarmless | Systems.js:281-299 | when every hitbox in the pairs has already struck, every zombie keeps its hp |
| Damage.DamageWithoutHitbox | Systems.js:281-299 | with no attack hitbox in the world, no zombie is hurt and nothing leaves the world or the registry |
| WinCondition.Unlock | Systems.js:359-362 | the door opens and victory is declared; nothing else changes |
| WinCondition.Win | Systems.js:346-365 | only the door and the game state may change, and the invariant holds |
| WinCondition.WinUnlocks | Systems.js:349-362 | the door opens exactly when the system runs with no zombie key left and the door locked; it never locks again and victory is never withdrawn |
| WinCondition.WinIdempotent | Systems.js:354-362 | running the win check twice is running it once |
| WinCondition.ZombieBlocksVictory | Systems.js:354-359 | while a key holds a zombie nothing changes |
| Frame.BeforeDamage | App.js:185-191 | physics, control and the zombie pass keep the invariant and the player and door keys |
| Frame.Frame | App.js:185-191 | the five systems in order keep the invariant and the player and door keys |
| Frame.FrameHalted | Systems.js:42-44 | while paused or over only the physics engine runs: the controller's gate here and the same gate of the enemy, damage and win systems (`Systems.js:203-205`, `:266-268`, `:349-351`) all return early |
| Frame.FrameFlags | Systems.js:293-361 | no system touches the pause flag; game over and victory, once set, stay set |
| Frame.SpentStaysSpent | Systems.js:287-289 | a hitbox that has struck is still a spent hitbox with the same damage after a whole frame, so it lowers hp at most once in its lifetime |
| Frame.FrameKeepsZombiesAlive | Systems.js:263-343 | no zombie without hp stays in the world from one frame to the next |
| Frame.ControlKeepsAlive | Systems.js:39-197 | the controller keeps every zombie in the world alive |
| Frame.ThinkKeepsAlive | Systems.js:200-260 | the zombie pass keeps every zombie in the world alive |
| Frame.WinKeepsAlive | Systems.js:346-365 | the win check keeps every zombie in the world alive |
| Frame.InitialLevel | Entities.js:27-215 | the loaded level has its nine bodies with their labels under the player and door keys |
| Frame.FrameKeepsLevel | App.js:185-191 | no frame forgets a level body or changes its label |
| Frame.Reset | App.js:172-176 | a restart replaces only the registry, with the factory's keys over the same bodies, input and game state |
| Frame.ResetAfterGameOver | App.js:172-176 | after a game over a restart leaves the game over: every later frame only runs physics |
| Frame.ResetRestoresRegistryOnly | Entities.js:200-215 | after a restart both zombie keys are back; a defeated zombie stays out of the world with its hp, and a declared victory stays |
| Frame.FreshReset | Entities.js:200-215 | corrected restart: the new scene is the level as first built and satisfies the level invariant |
| Frame.FreshResetPlays | App.js:172-176 | after a corrected restart the game is neither paused, over nor won, and both zombies are registered, in the world and at full hp |
| Frame.ResetsPartAfterGameOver | App.js:172-176 | after a game over the as-written restart leaves the game over, the corrected one does not |
| Frame.ClearHitMarker | Systems.js:318-320 | the deferred callback clears the player's hit marker and changes nothing else |
| Frame.ClearReopens | Systems.js:310 | once the marker is cleared the player can be hit again exactly when not dodging |
| Systems.Shared.Load | Entities.js:14-197 | loading builds the initial bodies, world, input and game state |
| Systems.Entities.Create | Entities.js:200-215 | the factory returns the level's keys over the shared objects |
| Systems.Entities.Restart | App.js:172-176 | a restart's new registry object gives the reset state |
| Systems.Entities.PhysicsSystem | Systems.js:24-36 | updates the shared state to what `Physics.Physics` describes |
| Systems.Entities.PlayerControlSystem | Systems.js:39-197 | updates the shared state to what `PlayerControl.Control` describes |
| Systems.Entities.Steer | Systems.js:50-145 | the first six steps, in place |
| Systems.Entities.Arm | Systems.js:148-185 | the attack step, in place |
| Systems.Entities.Disarm | Systems.js:188-194 | the expiry step, in place |
| Systems.Entities.ZombieAISystem | Systems.js:200-260 | updates the shared state to what `ZombieAI.ZombieAI` describes |
| Systems.Entities.Pass | Systems.js:210-257 | the loop over the keys leaves the bodies the pass describes and nothing else changed |
| Systems.Entities.Visit | Systems.js:211-256 | one key of the pass, in place |
| Systems.Entities.DamageSystem | Systems.js:263-343 | updates the shared state and registry to what `Damage.Damage` describes |
| Systems.Entities.ResolvePairs | Systems.js:275-328 | the pair loop leaves the tally the loop describes |
| Systems.Entities.ResolveOne | Systems.js:278-327 | one pair's two checks, in place |
| Systems.Entities.Slash | Systems.js:285-299 | one hitbox strike, in place |
| Systems.Entities.Bite | Systems.js:307-326 | one zombie bite, in place |
| Systems.Entities.RemoveAll | Systems.js:331-340 | the removal loop leaves the state the removal describes |
| Systems.Entities.Delete | Systems.js:335-339 | the key deletion loop leaves the filtered registry |
| Systems.Entities.ZombiesRemaining | Systems.js:354-357 | the scan is true exactly when some key holds a zombie |
| Systems.Entities.WinConditionSystem | Systems.js:346-365 | updates the shared state to what `WinCondition.Win` describes |
| Systems.Entities.RunFrame | App.js:185-191 | the five systems in order leave the state `Frame.Frame` describes |
| Systems.Entities.ClearHitMarker | Systems.js:318-320 | the deferred clear, in place |
| Systems.SteerPlayer | Systems.js:50-145 | the imperative first six steps give the body and input `PlayerControl.Drive` describes |
| Systems.ThinkZombie | Systems.js:213-255 | the imperative state machine gives the body `ZombieAI.Think` describes |
| Systems.Prepare | Systems.js:50-83 | grounding, the coyote window, the dodge mask and steering |
| Systems.Turn | Systems.js:74-83 | the target speed and the facing |
| Systems.Jump | Systems.js:95-130 | jump buffering and the jump |
| Systems.Buffer | Systems.js:95-102 | a press-edge records its time and the latch follows the key |
| Systems.DodgeTrigger | Systems.js:133-145 | the dodge trigger, its push and the roll latch |

## Left out

- Constants.PlayerMasks: states which categories the player's own mask includes. Whether two
  bodies meet also depends on the other body's mask, which `Constants.FilterPairs` states.
- Rigid-body integration (`Matter.Engine.update`, gravity, friction, restitution and time
  deltas) belongs to the physics library. `Physics.Physics` takes the stepped bodies as a
  parameter, constrained only to move bodies in the world.
- Contact detection (`Matter.Detector.collisions`) belongs to the physics library too.
  `Damage.Damage` takes the contact pairs as a parameter, with both bodies of each pair in
  the world. The engine's two-sided category and mask filter is not applied to these pairs,
  so a zombie and player pair the model accepts may never be reported by the engine:
  `Constants.FilterPairs` shows that the enemy mask leaves the player category out.
- Forces are accumulated in each body's `force` field. Turning them into motion is the
  engine's work.
- Speeds and positions are mathematical reals. Floating-point rounding is not modelled.
- The 500 ms `setTimeout` that clears the player's hit marker is modelled as an operation of
  its own (`Frame.ClearHitMarker`), which the caller invokes. The clock is not modelled.
- The entity registry holds body keys only. The `physics`, `inputState` and `gameState` keys
  of the factory's object are modelled as the scene's other fields. Renderers and sizes are
  left out.
- Body identities are abstract numbers that grow by one per created body. Matter's own ids
  and the engine object are not modelled.
- A body outside the world keeps its record in `bodies`, because JavaScript keeps the object
  alive while something refers to it. Garbage collection is not modelled.
- `PlayerControl.ControlAsWritten` throws at `Systems.js:175` and `:191`, and it stops there.
  It does not model the hitbox body that was created just before the throw and then dropped,
  since nothing can refer to it. It also does not model the rest of the frame's systems being
  skipped when the exception escapes the game engine's system loop.
- PlayerControl.Control: the controller with `physics` taken from the entities, as the other
  systems do, not the code as written (see "## Findings"). `PlayerControl.Attack`,
  `PlayerControl.Expire`, `Frame.BeforeDamage`, `Frame.Frame` and the `Systems` methods
  (`PlayerControlSystem`, `Arm`, `Disarm`, `RunFrame`) are built on it, so they describe the
  corrected game. The code as written is `PlayerControl.ControlAsWritten`.
- `Systems.Shared.Load` assigns the world membership as one set. The order of the separate
  `World.add` calls does not matter here.
- Rendering, touch controls, screen layout and colours (`App.js`) are not part of this model.

## Findings

| source | as written | input that shows it | evidently intended | confidence | as-written member | corrected member |
|---|---|---|---|---|---|---|
| Systems.js:175 | `PlayerControlSystem` binds only `player`, `inputState` and `gameState` from the entities, so `physics.world` refers to an unbound name. Adding the hitbox throws, and so does removing an expired one at line 191. No hitbox ever enters the world, so zombies can never be hurt and the door can never open. | any frame, not paused and not over, with `attack` held and `attackHandled` clear | take `physics` from the entities, as the other systems do, so the hitbox is added to the world, stored as the player's and the latch is set | not executed | PlayerControl.AttackPressThrows | PlayerControl.AttackPressArms, PlayerControl.Control |
| App.js:172-176 | `resetGame` swaps in the factory's new object, but the factory (`Entities.js:200-215`) returns the same module-level bodies, input record and `gameState` (`Entities.js:192-197`). `isGameOver` stays set, so every later frame runs the physics engine alone and the game-over overlay stays up. | a game over, then "Try Again" | build every entity again, so the new game is neither over nor won and both zombies are back at full hp | not executed | Frame.ResetAfterGameOver | Frame.FreshReset |
