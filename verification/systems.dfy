/**
 * The five systems as the game engine runs them: procedures that update the shared records
 * in place. Each is proved to leave the state its value-level definition describes, so
 * every property proved about those definitions holds of the procedures.
 */
module Systems {
  import opened Constants
  import opened Model
  import Physics
  import PlayerControl
  import ZombieAI
  import Damage
  import WinCondition
  import Frame
  import Setup

  /** The module-level objects of the entities file, shared by every registry the factory
      returns: the body objects, the physics world's membership, the input record and the
      game-state record. */
  class Shared {
    var bodies: map<BodyId, Body>
    var world: set<BodyId>
    var input: Input
    var game: GameState
    /** Identity the next created body gets. */
    var nextId: nat

    /** The scene these objects form under the registry `reg`. */
    function With(reg: seq<Entry>): Scene
      reads this
    {
      Scene(bodies, world, reg, input, game, nextId)
    }

    /** Loading the entities file: the level's bodies, all in the world, and the initial
        input and game-state records. */
    constructor Load()
      ensures With(Setup.InitialRegistry()) == Setup.Initial()
    {
      bodies := Setup.InitialBodies();
      world := Setup.InitialBodies().Keys;
      input := Setup.INITIAL_INPUT;
      game := Setup.INITIAL_GAME;
      nextId := Setup.DOOR_ID + 1;
    }
  }

  /** The object the factory returns: its keys, over the shared objects. */
  class Entities {
    const shared: Shared
    var registry: seq<Entry>

    function State(): Scene
      reads this, shared
    {
      shared.With(registry)
    }

    predicate Valid()
      reads this, shared
    {
      Wf(State())
    }

    /** The factory: a fresh registry of the level's keys over the same shared objects,
        whatever state they are in. */
    constructor Create(sh: Shared)
      ensures shared == sh && registry == Setup.InitialRegistry()
    {
      shared := sh;
      registry := Setup.InitialRegistry();
    }

    /** A restart: the factory is called again and its registry replaces this one. */
    method Restart() returns (e: Entities)
      requires Frame.Level(State())
      ensures fresh(e) && e.shared == shared
      ensures e.State() == Frame.Reset(State())
    {
      e := new Entities.Create(shared);
    }

    /** The physics system: the engine steps, into `stepped`, unless a hit-stop runs. */
    method PhysicsSystem(now: int, stepped: map<BodyId, Body>)
      requires Valid() && Physics.Moves(State(), stepped)
      modifies shared
      ensures State() == Physics.Physics(old(State()), now, stepped)
    {
      if shared.game.hitStopEndTime > now {
        return;
      }
      shared.bodies := stepped;
    }
  
    /** The player controller: steering, jumping and dodging, then the attack press and
        the hitbox's expiry; nothing while paused or after game over. */
    method PlayerControlSystem(now: int)
      requires Valid()
      modifies shared
      ensures State() == PlayerControl.Control(old(State()), now)
    {
      if shared.game.isPaused || shared.game.isGameOver {
        return;
      }
      Steer(now);
      Arm(now);
      Disarm(now);
    }

    /** The controller's first six steps on the player's record and the input latches. */
    method Steer(now: int)
      requires Valid()
      modifies shared
      ensures State() == PlayerControl.Steer(old(State()), now)
    {
      var pid := Find(registry, PLAYER_KEY).value;
      var b, input := SteerPlayer(shared.bodies[pid], shared.input, now);
      shared.bodies := shared.bodies[pid := b];
      shared.input := input;
    }

    /** The attack press-edge creates a hitbox beside the player, adds it to the world and
        makes it the owned one; the latch follows the attack intent. */
    method Arm(now: int)
      requires Valid()
      modifies shared
      ensures State() == PlayerControl.Attack(old(State()), now)
    {
      PlayerControl.AttackScene(State(), now);
      var pid := Find(registry, PLAYER_KEY).value;
      if shared.input.attack && !shared.input.attackHandled {
        var b := shared.bodies[pid];
        var h := shared.nextId;
        shared.bodies := shared.bodies[h := PlayerControl.SpawnHitbox(b, now)];
        shared.nextId := h + 1;
        shared.world := shared.world + {h};
        shared.bodies := shared.bodies[pid := b.(data := OfPlayer(b.data.player.(attackHitbox := Some(h))))];
        shared.input := shared.input.(attackHandled := true);
      }
      if !shared.input.attack {
        shared.input := shared.input.(attackHandled := false);
      }
    }

    /** The owned hitbox leaves the world and is released once older than its duration. */
    method Disarm(now: int)
      requires Valid()
      modifies shared
      ensures State() == PlayerControl.Expire(old(State()), now)
    {
      var pid := Find(registry, PLAYER_KEY).value;
      var b := shared.bodies[pid];
      var owned := b.data.player.attackHitbox;
      if owned.Some? {
        var hitbox := shared.bodies[owned.value];
        if hitbox.data.OfHitbox? && now - hitbox.data.hitbox.createdTime > hitbox.data.hitbox.duration {
          shared.world := shared.world - {owned.value};
          shared.bodies := shared.bodies[pid := b.(data := OfPlayer(b.data.player.(attackHitbox := None)))];
        }
      }
    }

    /** The enemy system: every key of the registry, in order, whose body is a zombie. */
    method ZombieAISystem(now: int)
      requires Valid()
      modifies shared
      ensures State() == ZombieAI.ZombieAI(old(State()), now)
    {
      if shared.game.isPaused || shared.game.isGameOver {
        return;
      }
      var px := shared.bodies[Find(registry, PLAYER_KEY).value].position.x;
      Pass(px, now);
    }

    /** The pass over the registry's keys, in order, against the player's position `px`. */
    method Pass(px: real, now: int)
      requires Valid()
      modifies shared
      ensures shared.bodies == ZombieAI.ThinkAll(old(shared.bodies), registry, px, now)
      ensures shared.world == old(shared.world) && shared.input == old(shared.input)
      ensures shared.game == old(shared.game) && shared.nextId == old(shared.nextId)
    {
      var keys := registry;
      var i := 0;
      while i < |keys|
        invariant 0 <= i <= |keys|
        invariant forall e :: e in keys ==> e.body in shared.bodies
        invariant forall id {:trigger shared.bodies[id]} :: id in shared.bodies ==> DataMatches(shared.bodies[id])
        invariant ZombieAI.ThinkAll(shared.bodies, keys[i..], px, now) == ZombieAI.ThinkAll(old(shared.bodies), keys, px, now)
        invariant shared.world == old(shared.world) && shared.input == old(shared.input)
        invariant shared.game == old(shared.game) && shared.nextId == old(shared.nextId)
      {
        ZombieAI.ThinkAllStep(shared.bodies, keys, i, px, now);
        Visit(keys[i].body, px, now);
        i := i + 1;
      }
    }

    /** One key of the pass: a zombie body runs its state machine; any other body is skipped. */
    method Visit(id: BodyId, px: real, now: int)
      requires id in shared.bodies && DataMatches(shared.bodies[id])
      modifies shared
      ensures shared.bodies == ZombieAI.Visit(old(shared.bodies), id, px, now)
      ensures shared.world == old(shared.world) && shared.input == old(shared.input)
      ensures shared.game == old(shared.game) && shared.nextId == old(shared.nextId)
    {
      if shared.bodies[id].kind == Zombie {
        var z := ThinkZombie(shared.bodies[id], px, now);
        shared.bodies := shared.bodies[id := z];
      }
    }

    /** The damage system over the contact pairs the broad phase reports: every pair is
        resolved in order, then every zombie queued for removal leaves the world and the
        registry. */
    method DamageSystem(pairs: seq<Damage.Pair>, now: int)
      requires Valid() && Damage.PairsIn(pairs, shared.world)
      modifies this, shared
      ensures State() == Damage.Damage(old(State()), pairs, now)
    {
      if shared.game.isPaused || shared.game.isGameOver {
        return;
      }
      var pid := Find(registry, PLAYER_KEY).value;
      var toRemove := ResolvePairs(pairs, pid, now);
      RemoveAll(toRemove);
    }

    /** The pair loop, collecting the zombies to remove. */
    method ResolvePairs(pairs: seq<Damage.Pair>, pid: BodyId, now: int) returns (toRemove: seq<BodyId>)
      requires Damage.PairsIn(pairs, shared.bodies.Keys) && pid in shared.bodies
      modifies shared
      ensures Damage.Tally(shared.bodies, shared.game, toRemove) ==
        Damage.ResolveAll(Damage.Tally(old(shared.bodies), old(shared.game), []), pairs, pid, now)
      ensures shared.world == old(shared.world) && shared.input == old(shared.input) && shared.nextId == old(shared.nextId)
    {
      toRemove := [];
      var i := 0;
      while i < |pairs|
        invariant 0 <= i <= |pairs|
        invariant Damage.PairsIn(pairs, shared.bodies.Keys) && pid in shared.bodies
        invariant Damage.ResolveAll(Damage.Tally(shared.bodies, shared.game, toRemove), pairs[i..], pid, now) ==
          Damage.ResolveAll(Damage.Tally(old(shared.bodies), old(shared.game), []), pairs, pid, now)
        invariant shared.world == old(shared.world) && shared.input == old(shared.input) && shared.nextId == old(shared.nextId)
      {
        Damage.ResolveStep(Damage.Tally(shared.bodies, shared.game, toRemove), pairs, i, pid, now);
        toRemove := ResolveOne(pairs[i], pid, now, toRemove);
        i := i + 1;
      }
    }

    /** Both checks of one contact pair. */
    method ResolveOne(p: Damage.Pair, pid: BodyId, now: int, toRemove0: seq<BodyId>) returns (toRemove: seq<BodyId>)
      requires p.a in shared.bodies && p.b in shared.bodies && pid in shared.bodies
      modifies shared
      ensures Damage.Tally(shared.bodies, shared.game, toRemove) ==
        Damage.ResolvePair(Damage.Tally(old(shared.bodies), old(shared.game), toRemove0), p, pid, now)
      ensures shared.world == old(shared.world) && shared.input == old(shared.input) && shared.nextId == old(shared.nextId)
    {
      toRemove := toRemove0;
      var ka, kb := shared.bodies[p.a].kind, shared.bodies[p.b].kind;
      // a player hitbox against a zombie
      if (ka == PlayerHitbox && kb == Zombie) || (kb == PlayerHitbox && ka == Zombie) {
        var hitbox := if ka == PlayerHitbox then p.a else p.b;
        var enemy := if ka == Zombie then p.a else p.b;
        toRemove := Slash(hitbox, enemy, now, toRemove);
      }
      // a zombie against the player
      if (ka == Zombie && kb == Player) || (kb == Zombie && ka == Player) {
        Bite(pid, now, toRemove);
      }
    }

    /** The hitbox `h` strikes the zombie `z` unless it has struck before. */
    method Slash(h: BodyId, z: BodyId, now: int, toRemove0: seq<BodyId>) returns (toRemove: seq<BodyId>)
      requires h in shared.bodies && z in shared.bodies && h != z
      modifies shared
      ensures Damage.Tally(shared.bodies, shared.game, toRemove) ==
        Damage.StrikeZombie(Damage.Tally(old(shared.bodies), old(shared.game), toRemove0), h, z, now)
      ensures shared.world == old(shared.world) && shared.input == old(shared.input) && shared.nextId == old(shared.nextId)
    {
      toRemove := toRemove0;
      var hitbox, enemy := shared.bodies[h], shared.bodies[z];
      if hitbox.data.OfHitbox? && !hitbox.data.hitbox.hasHit && enemy.data.OfZombie? {
        var zombie := enemy.data.zombie.(hp := enemy.data.zombie.hp - hitbox.data.hitbox.damage);
        shared.bodies := shared.bodies[z := enemy.(data := OfZombie(zombie))];
        shared.bodies := shared.bodies[h := hitbox.(data := OfHitbox(hitbox.data.hitbox.(hasHit := true)))];
        shared.game := shared.game.(hitStopEndTime := now + HIT_STOP_DURATION);
        if zombie.hp <= 0 {
          toRemove := toRemove + [z];
        }
      }
    }

    /** A zombie touches the player `pid`. */
    method Bite(pid: BodyId, now: int, ghost toRemove: seq<BodyId>)
      requires pid in shared.bodies
      modifies shared
      ensures Damage.Tally(shared.bodies, shared.game, toRemove) ==
        Damage.StrikePlayer(Damage.Tally(old(shared.bodies), old(shared.game), toRemove), pid, now)
      ensures shared.world == old(shared.world) && shared.input == old(shared.input) && shared.nextId == old(shared.nextId)
    {
      var b := shared.bodies[pid];
      if b.data.OfPlayer? && !b.data.player.isInvulnerable && !Damage.Truthy(b.data.player.lastHitTime) {
        var player := b.data.player.(hp := b.data.player.hp - ZOMBIE_DAMAGE, lastHitTime := Some(now));
        shared.bodies := shared.bodies[pid := b.(data := OfPlayer(player))];
        shared.game := shared.game.(hitStopEndTime := now + HIT_STOP_DURATION);
        if player.hp <= 0 {
          shared.game := shared.game.(isGameOver := true);
        }
      }
    }

    /** The removal loop: each queued zombie leaves the world and every key holding it. */
    method RemoveAll(dead: seq<BodyId>)
      modifies this, shared
      ensures State() == Damage.RemoveDead(old(State()), dead)
    {
      var k := 0;
      while k < |dead|
        invariant 0 <= k <= |dead|
        invariant Damage.RemoveDead(State(), dead[k..]) == Damage.RemoveDead(old(State()), dead)
      {
        Damage.RemoveStep(State(), dead, k);
        shared.world := shared.world - {dead[k]};
        Delete(dead[k]);
        k := k + 1;
      }
    }

    /** Deletes every key whose body is `id`. */
    method Delete(id: BodyId)
      modifies this
      ensures registry == Unlink(old(registry), id)
    {
      var keys := registry;
      var kept := [];
      var j := 0;
      while j < |keys|
        invariant 0 <= j <= |keys|
        invariant kept + Unlink(keys[j..], id) == Unlink(keys, id)
      {
        UnlinkStep(kept, keys, j, id);
        if keys[j].body != id {
          kept := kept + [keys[j]];
        }
        j := j + 1;
      }
      registry := kept;
    }

    /** Whether some key of the registry holds a zombie; the scan stops at the first. */
    method ZombiesRemaining() returns (found: bool)
      ensures found == HasZombie(State())
    {
      found := false;
      var i := 0;
      while i < |registry| && !found
        invariant 0 <= i <= |registry|
        invariant found ==> HasZombie(State())
        invariant !found ==> forall j :: 0 <= j < i ==>
          !(registry[j].body in shared.bodies && shared.bodies[registry[j].body].kind == Zombie)
      {
        var e := registry[i];
        if e.body in shared.bodies && shared.bodies[e.body].kind == Zombie {
          found := true;
        }
        i := i + 1;
      }
    }

    /** The win condition: with no zombie left and the door locked, the door opens and the
        game is won. */
    method WinConditionSystem()
      requires Valid()
      modifies shared
      ensures State() == WinCondition.Win(old(State()))
    {
      if shared.game.isPaused || shared.game.isGameOver {
        return;
      }
      var remaining := ZombiesRemaining();
      var did := Find(registry, DOOR_KEY).value;
      var door := shared.bodies[did];
      if !remaining && !door.data.isUnlocked {
        shared.bodies := shared.bodies[did := door.(data := OfDoor(true))];
        shared.game := shared.game.(isVictory := true);
      }
    }

    /** One frame: the five systems in the order the engine runs them. */
    method RunFrame(now: int, stepped: map<BodyId, Body>, pairs: seq<Damage.Pair>)
      requires Valid() && Physics.Moves(State(), stepped)
      requires Damage.PairsIn(pairs, Frame.BeforeDamage(State(), now, stepped).world)
      modifies this, shared
      ensures State() == Frame.Frame(old(State()), now, stepped, pairs)
    {
      PhysicsSystem(now, stepped);
      PlayerControlSystem(now);
      ZombieAISystem(now);
      DamageSystem(pairs, now);
      WinConditionSystem();
    }

    /** The deferred callback a landed zombie hit schedules: it clears the hit marker of the
        player record it captured. */
    method ClearHitMarker()
      requires Valid()
      modifies shared
      ensures State() == Frame.ClearHitMarker(old(State()))
    {
      var pid := Find(registry, PLAYER_KEY).value;
      var b := shared.bodies[pid];
      shared.bodies := shared.bodies[pid := b.(data := OfPlayer(b.data.player.(lastHitTime := None)))];
    }
  }

  /** The controller's first six steps on the player's body and the input record. */
  method SteerPlayer(b: Body, input0: Input, now: int) returns (r: Body, input: Input)
    requires b.data.OfPlayer?
    ensures PlayerControl.Controlled(r, input) == PlayerControl.Drive(b, input0, now)
  {
    var grounded := PlayerControl.Grounded(b.velocity.y);
    var p, coyote, mask, target := Prepare(b.data.player, input0, grounded, now);
    var vx := PlayerControl.SmoothedVelocity(b.velocity.x, target);
    var kind, vy, fy;
    p, input, kind, vy, fy := Jump(p, input0, grounded, coyote, b.velocity.y, b.force.y, now);
    var fx;
    p, input, fx := DodgeTrigger(p, input, b.force.x, now);
    r := b.(mask := mask, velocity := Vec(vx, vy), force := Vec(fx, fy), data := OfPlayer(p));
  }

  /** One zombie's state machine for one frame. */
  method ThinkZombie(b: Body, px: real, now: int) returns (r: Body)
    requires b.data.OfZombie?
    ensures r == ZombieAI.Think(b, px, now)
  {
    var z := b.data.zombie;
    var distance := ZombieAI.Distance(b.position.x, px);
    var direction := if px > b.position.x then 1.0 else -1.0;
    r := b;
    if distance < ATTACK_DISTANCE {
      z := z.(state := Attack);
      // one lunge per cooldown
      if now - z.lastAttackTime > ZombieAI.LUNGE_COOLDOWN {
        r := r.(force := Vec(r.force.x + LUNGE_SPEED * direction * ZombieAI.LUNGE_SCALE, r.force.y));
        z := z.(lastAttackTime := now);
      }
    } else if distance < AGGRO_DISTANCE {
      z := z.(state := Aggro);
      r := r.(velocity := Vec(ZOMBIE_SPEED * direction, r.velocity.y));
    } else {
      z := z.(state := Patrol);
      if b.position.x <= z.patrolLeft {
        z := z.(patrolDirection := 1);
      } else if b.position.x >= z.patrolRight {
        z := z.(patrolDirection := -1);
      }
      r := r.(velocity := Vec(ZOMBIE_SPEED * z.patrolDirection as real, r.velocity.y));
    }
    r := r.(data := OfZombie(z));
  }

  /** Grounding, the coyote window, the dodge window and steering. */
  method Prepare(p0: PlayerData, input: Input, grounded: bool, now: int)
    returns (p: PlayerData, coyote: bool, mask: Bits, target: real)
    ensures var p1 := if grounded then p0.(lastGroundedTime := now, canDoubleJump := true) else p0;
      p == p1.(isGrounded := grounded, isInvulnerable := p1.dodgeEndTime > now,
               facingRight := PlayerControl.Facing(p1.facingRight, input))
    ensures coyote == (now - p.lastGroundedTime < COYOTE_TIME)
    ensures mask == PlayerControl.MaskFor(p.dodgeEndTime > now)
    ensures target == PlayerControl.TargetVelocity(input)
  {
    p := p0;
    if grounded {
      p := p.(lastGroundedTime := now, canDoubleJump := true);
    }
    p := p.(isGrounded := grounded);
    coyote := now - p.lastGroundedTime < COYOTE_TIME;
    // the dodge window decides invulnerability and the collision mask
    mask := MASK_PLAYER;
    if p.dodgeEndTime > now {
      p := p.(isInvulnerable := true);
      mask := CATEGORY_ENVIRONMENT;
    } else {
      p := p.(isInvulnerable := false);
    }
    p, target := Turn(p, input);
  }

  /** Steering: the target speed and the facing, right applied after left. */
  method Turn(p0: PlayerData, input: Input) returns (p: PlayerData, target: real)
    ensures p == p0.(facingRight := PlayerControl.Facing(p0.facingRight, input))
    ensures target == PlayerControl.TargetVelocity(input)
  {
    p, target := p0, 0.0;
    if input.left {
      target := -PLAYER_SPEED;
      p := p.(facingRight := false);
    }
    if input.right {
      target := PLAYER_SPEED;
      p := p.(facingRight := true);
    }
  }

  /** Jump buffering and the jump itself. */
  method Jump(p0: PlayerData, input0: Input, grounded: bool, coyote: bool, vy0: real, fy0: real, now: int)
    returns (p: PlayerData, input: Input, kind: PlayerControl.JumpKind, vy: real, fy: real)
    ensures kind == PlayerControl.JumpFor(now - PlayerControl.BufferedAt(p0, input0, now) < JUMP_BUFFER_TIME,
                                          grounded, coyote, p0.canDoubleJump)
    ensures var p4 := p0.(jumpBufferTime := PlayerControl.BufferedAt(p0, input0, now));
      p == match kind
        case NoJump => p4
        case GroundJump => p4.(jumpBufferTime := 0, canDoubleJump := true)
        case AirJump => p4.(jumpBufferTime := 0, canDoubleJump := false)
    ensures input == input0.(jumpHandled := input0.jump)
    ensures vy == PlayerControl.JumpVelocity(kind, vy0) && fy == PlayerControl.JumpPush(kind, fy0)
  {
    p, input := Buffer(p0, input0, now);
    vy, fy := vy0, fy0;
    kind := PlayerControl.NoJump;
    if now - p.jumpBufferTime < JUMP_BUFFER_TIME {
      if grounded || coyote {
        kind := PlayerControl.GroundJump;
        fy := fy - JUMP_FORCE;
        p := p.(jumpBufferTime := 0, canDoubleJump := true);
      } else if p.canDoubleJump {
        kind := PlayerControl.AirJump;
        vy := 0.0;
        fy := fy - JUMP_FORCE;
        p := p.(jumpBufferTime := 0, canDoubleJump := false);
      }
    }
  }

  /** Jump buffering: a press-edge records its time, and the latch follows the key. */
  method Buffer(p0: PlayerData, input0: Input, now: int) returns (p: PlayerData, input: Input)
    ensures p == p0.(jumpBufferTime := PlayerControl.BufferedAt(p0, input0, now))
    ensures input == input0.(jumpHandled := input0.jump)
  {
    p, input := p0, input0;
    if input.jump && !input.jumpHandled {
      p := p.(jumpBufferTime := now);
      input := input.(jumpHandled := true);
    }
    if !input.jump {
      input := input.(jumpHandled := false);
    }
  }

  /** The dodge trigger and the roll latch. */
  method DodgeTrigger(p0: PlayerData, input0: Input, fx0: real, now: int) returns (p: PlayerData, input: Input, fx: real)
    ensures var start := PlayerControl.DodgeStarts(p0, input0, now);
      && p == (if start then p0.(dodgeEndTime := now + DODGE_DURATION) else p0)
      && fx == PlayerControl.DodgePush(start, p0.facingRight, fx0)
      && input == input0.(rollHandled := input0.roll && (input0.rollHandled || start))
  {
    p, input, fx := p0, input0, fx0;
    if input.roll && !input.rollHandled && p.dodgeEndTime <= now {
      var direction := if p.facingRight then 1.0 else -1.0;
      fx := fx + DODGE_IMPULSE * direction * PlayerControl.DODGE_SCALE;
      p := p.(dodgeEndTime := now + DODGE_DURATION);
      input := input.(rollHandled := true);
    }
    if !input.roll {
      input := input.(rollHandled := false);
    }
  }
}
