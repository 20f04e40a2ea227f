/** Tunables and collision bit assignments of the game (Constants.js). */
module Constants {

  /** Collision categories and masks are 32-bit words in the physics engine. */
  type Bits = bv32

  // Screen and physics
  const SCREEN_WIDTH: real := 375.0
  const SCREEN_HEIGHT: real := 812.0
  const GRAVITY: real := 0.8
  const PLAYER_SPEED: real := 5.0
  const JUMP_FORCE: real := 0.12
  const DODGE_IMPULSE: real := 12.0

  // Durations, in milliseconds
  const DODGE_DURATION: int := 300
  const HIT_STOP_DURATION: int := 50
  const ATTACK_DURATION: int := 150
  const COYOTE_TIME: int := 100
  const JUMP_BUFFER_TIME: int := 50

  // Enemy behaviour
  const ZOMBIE_SPEED: real := 2.0
  const AGGRO_DISTANCE: real := 200.0
  const ATTACK_DISTANCE: real := 40.0
  const LUNGE_SPEED: real := 8.0

  // Health
  const PLAYER_MAX_HP: int := 100
  const ZOMBIE_MAX_HP: int := 30
  const PLAYER_DAMAGE: int := 20
  const ZOMBIE_DAMAGE: int := 10

  // Collision categories: one bit per kind of body
  const CATEGORY_PLAYER: Bits := 0x0001
  const CATEGORY_PLAYER_ATTACK: Bits := 0x0002
  const CATEGORY_ENEMY: Bits := 0x0004
  const CATEGORY_ENVIRONMENT: Bits := 0x0008

  // Collision masks: the categories each kind of body collides with
  const MASK_PLAYER: Bits := CATEGORY_ENVIRONMENT | CATEGORY_ENEMY
  const MASK_PLAYER_ATTACK: Bits := CATEGORY_ENEMY
  const MASK_ENEMY: Bits := CATEGORY_ENVIRONMENT | CATEGORY_PLAYER_ATTACK
  const MASK_ENVIRONMENT: Bits := CATEGORY_PLAYER | CATEGORY_ENEMY

  /** The filter the physics engine gives a body created without one (the door). */
  const DEFAULT_CATEGORY: Bits := 0x0001
  const DEFAULT_MASK: Bits := 0xFFFF_FFFF

  predicate SingleBit(b: Bits) {
    b != 0 && b & (b - 1) == 0
  }

  /** Whether `mask` lets a body of `category` through. */
  predicate Includes(mask: Bits, category: Bits) {
    mask & category != 0
  }

  lemma CategoriesAreDistinctBits()
    ensures CATEGORY_PLAYER == 1 && CATEGORY_PLAYER_ATTACK == 2
    ensures CATEGORY_ENEMY == 4 && CATEGORY_ENVIRONMENT == 8
    ensures SingleBit(CATEGORY_PLAYER) && SingleBit(CATEGORY_PLAYER_ATTACK)
    ensures SingleBit(CATEGORY_ENEMY) && SingleBit(CATEGORY_ENVIRONMENT)
    ensures CATEGORY_PLAYER & CATEGORY_PLAYER_ATTACK == 0 && CATEGORY_PLAYER & CATEGORY_ENEMY == 0
    ensures CATEGORY_PLAYER & CATEGORY_ENVIRONMENT == 0 && CATEGORY_PLAYER_ATTACK & CATEGORY_ENEMY == 0
    ensures CATEGORY_PLAYER_ATTACK & CATEGORY_ENVIRONMENT == 0 && CATEGORY_ENEMY & CATEGORY_ENVIRONMENT == 0
  {
  }

  /** The player's mask includes geometry and enemies, never the player or its own attack;
      while dodging its mask is the environment category alone, which leaves enemies out. */
  lemma PlayerMasks()
    ensures Includes(MASK_PLAYER, CATEGORY_ENVIRONMENT) && Includes(MASK_PLAYER, CATEGORY_ENEMY)
    ensures !Includes(MASK_PLAYER, CATEGORY_PLAYER) && !Includes(MASK_PLAYER, CATEGORY_PLAYER_ATTACK)
    ensures Includes(CATEGORY_ENVIRONMENT, CATEGORY_ENVIRONMENT)
    ensures !Includes(CATEGORY_ENVIRONMENT, CATEGORY_ENEMY)
  {
  }

  /** The attack hitbox sees enemies only; enemies see geometry and attacks but not the player. */
  lemma AttackAndEnemyMasks()
    ensures MASK_PLAYER_ATTACK == CATEGORY_ENEMY
    ensures Includes(MASK_ENEMY, CATEGORY_ENVIRONMENT) && Includes(MASK_ENEMY, CATEGORY_PLAYER_ATTACK)
    ensures !Includes(MASK_ENEMY, CATEGORY_PLAYER) && !Includes(MASK_ENEMY, CATEGORY_ENEMY)
  {
  }

  /** The physics engine pairs two bodies only when each one's mask includes the other's
      category. */
  predicate CanCollide(categoryA: Bits, maskA: Bits, categoryB: Bits, maskB: Bits) {
    Includes(maskA, categoryB) && Includes(maskB, categoryA)
  }

  /** Under the two-sided rule, the player and the zombies meet the geometry and the attack meets
      the zombies; the player never meets a zombie, because the enemy mask leaves the player out,
      nor its own attack, nor a body with the engine's default filter such as the door. */
  lemma FilterPairs()
    ensures CanCollide(CATEGORY_PLAYER, MASK_PLAYER, CATEGORY_ENVIRONMENT, MASK_ENVIRONMENT)
    ensures CanCollide(CATEGORY_ENEMY, MASK_ENEMY, CATEGORY_ENVIRONMENT, MASK_ENVIRONMENT)
    ensures CanCollide(CATEGORY_PLAYER_ATTACK, MASK_PLAYER_ATTACK, CATEGORY_ENEMY, MASK_ENEMY)
    ensures !CanCollide(CATEGORY_PLAYER, MASK_PLAYER, CATEGORY_ENEMY, MASK_ENEMY)
    ensures !CanCollide(CATEGORY_PLAYER, CATEGORY_ENVIRONMENT, CATEGORY_ENEMY, MASK_ENEMY)
    ensures !CanCollide(CATEGORY_PLAYER, MASK_PLAYER, CATEGORY_PLAYER_ATTACK, MASK_PLAYER_ATTACK)
    ensures !CanCollide(CATEGORY_PLAYER_ATTACK, MASK_PLAYER_ATTACK, CATEGORY_ENVIRONMENT, MASK_ENVIRONMENT)
    ensures !CanCollide(CATEGORY_ENEMY, MASK_ENEMY, CATEGORY_ENEMY, MASK_ENEMY)
    ensures !CanCollide(CATEGORY_PLAYER, MASK_PLAYER, DEFAULT_CATEGORY, DEFAULT_MASK)
    ensures !CanCollide(CATEGORY_ENEMY, MASK_ENEMY, DEFAULT_CATEGORY, DEFAULT_MASK)
  {
  }

  lemma EnvironmentMask()
    ensures MASK_ENVIRONMENT == CATEGORY_PLAYER | CATEGORY_ENEMY
    ensures Includes(MASK_ENVIRONMENT, CATEGORY_PLAYER) && Includes(MASK_ENVIRONMENT, CATEGORY_ENEMY)
    ensures !Includes(MASK_ENVIRONMENT, CATEGORY_PLAYER_ATTACK)
    ensures !Includes(MASK_ENVIRONMENT, CATEGORY_ENVIRONMENT)
  {
  }

  /** The attack radius lies strictly inside the aggro radius. */
  lemma DistancesOrdered()
    ensures 0.0 < ATTACK_DISTANCE < AGGRO_DISTANCE
  {
  }

  lemma TimingsOrdered()
    ensures DODGE_DURATION > 0 && HIT_STOP_DURATION > 0 && ATTACK_DURATION > 0
    ensures COYOTE_TIME > 0 && JUMP_BUFFER_TIME > 0
    ensures JUMP_BUFFER_TIME <= COYOTE_TIME < DODGE_DURATION
  {
  }

  /** How many hits of `damage` bring `hp` to zero or below. */
  function HitsToDefeat(hp: int, damage: int): nat
    requires damage > 0
    decreases hp
  {
    if hp <= 0 then 0 else 1 + HitsToDefeat(hp - damage, damage)
  }

  /** `HitsToDefeat` is the least n with n * damage >= hp. */
  lemma {:induction false} HitsToDefeatIsCeiling(hp: int, damage: int)
    requires damage > 0
    ensures hp <= 0 ==> HitsToDefeat(hp, damage) == 0
    ensures hp > 0 ==> var n := HitsToDefeat(hp, damage);
      (n - 1) * damage < hp <= n * damage
    decreases hp
  {
    if hp > 0 {
      var m := HitsToDefeat(hp - damage, damage);
      HitsToDefeatIsCeiling(hp - damage, damage);
      assert (m + 1) * damage == m * damage + damage;
    }
  }

  /** A zombie falls to the second player hit, the player to the tenth zombie hit. */
  lemma HitCounts()
    ensures HitsToDefeat(ZOMBIE_MAX_HP, PLAYER_DAMAGE) == 2
    ensures HitsToDefeat(PLAYER_MAX_HP, ZOMBIE_DAMAGE) == 10
  {
    HitsToDefeatIsCeiling(ZOMBIE_MAX_HP, PLAYER_DAMAGE);
    HitsToDefeatIsCeiling(PLAYER_MAX_HP, ZOMBIE_DAMAGE);
  }
}
