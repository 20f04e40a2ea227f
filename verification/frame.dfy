/**
 * One frame of the game loop: the five systems in the order the game engine runs them
 * (physics, player control, enemy behaviour, damage, win condition), the deferred clear of
 * the player's hit marker, and the restart that swaps in a fresh registry from the factory.
 */
module Frame {
  import opened Constants
  import opened Model
  import Physics
  import PlayerControl
  import ZombieAI
  import Damage
  import WinCondition
  import Setup

  /** The scene the damage system sees: physics, the controller and the enemies have run. */
  function BeforeDamage(s: Scene, now: int, stepped: map<BodyId, Body>): (r: Scene)
    requires Wf(s) && Physics.Moves(s, stepped)
    ensures Wf(r) && PlayerId(r) == PlayerId(s) && DoorId(r) == DoorId(s)
  {
    ZombieAI.ZombieAI(PlayerControl.Control(Physics.Physics(s, now, stepped), now), now)
  }

  /** One frame. `stepped` is what the engine makes of the bodies; `pairs` are the contacts
      the detector reports among the bodies in the world when the damage system runs. */
  function Frame(s: Scene, now: int, stepped: map<BodyId, Body>, pairs: seq<Damage.Pair>): (r: Scene)
    requires Wf(s) && Physics.Moves(s, stepped)
    requires Damage.PairsIn(pairs, BeforeDamage(s, now, stepped).world)
    ensures Wf(r) && PlayerId(r) == PlayerId(s) && DoorId(r) == DoorId(s)
  {
    WinCondition.Win(Damage.Damage(BeforeDamage(s, now, stepped), pairs, now))
  }

  /** While paused or after game over only the physics engine runs. */
  lemma FrameHalted(s: Scene, now: int, stepped: map<BodyId, Body>, pairs: seq<Damage.Pair>)
    requires Wf(s) && Physics.Moves(s, stepped) && Halted(s.game)
    requires Damage.PairsIn(pairs, BeforeDamage(s, now, stepped).world)
    ensures Frame(s, now, stepped, pairs) == Physics.Physics(s, now, stepped)
  {
    var p := Physics.Physics(s, now, stepped);
    assert p.game == s.game;
    assert PlayerControl.Control(p, now) == p;
    assert ZombieAI.ZombieAI(p, now) == p;
  }

  /** No system touches the pause flag; game over and victory, once set, stay set. */
  lemma FrameFlags(s: Scene, now: int, stepped: map<BodyId, Body>, pairs: seq<Damage.Pair>)
    requires Wf(s) && Physics.Moves(s, stepped)
    requires Damage.PairsIn(pairs, BeforeDamage(s, now, stepped).world)
    ensures var r := Frame(s, now, stepped, pairs);
      && r.game.isPaused == s.game.isPaused
      && (s.game.isGameOver ==> r.game.isGameOver)
      && (s.game.isVictory ==> r.game.isVictory)
  {
    var m := BeforeDamage(s, now, stepped);
    assert m.game == s.game;
    var d := Damage.Damage(m, pairs, now);
    Damage.DamageProgress(m, pairs, now);
    if !Halted(m.game) {
      Damage.DamageHitStop(m, pairs, now);
    }
    WinCondition.WinUnlocks(d);
  }

  /** The body `id` is a hitbox that has struck, with damage `dmg`. */
  predicate Spent(bodies: map<BodyId, Body>, id: BodyId, dmg: int) {
    id in bodies && bodies[id].data.OfHitbox? && bodies[id].data.hitbox.hasHit
    && bodies[id].data.hitbox.damage == dmg
  }

  /** A hitbox that has struck is still spent, with the same damage, after a whole frame, so
      it lowers a zombie's hp at most once in its lifetime. */
  lemma SpentStaysSpent(s: Scene, now: int, stepped: map<BodyId, Body>, pairs: seq<Damage.Pair>, id: BodyId)
    requires Wf(s) && Physics.Moves(s, stepped)
    requires Damage.PairsIn(pairs, BeforeDamage(s, now, stepped).world)
    requires id in s.bodies && s.bodies[id].data.OfHitbox? && s.bodies[id].data.hitbox.hasHit
    ensures var r := Frame(s, now, stepped, pairs);
      && id in r.bodies && r.bodies[id].data.OfHitbox? && r.bodies[id].data.hitbox.hasHit
      && r.bodies[id].data.hitbox.damage == s.bodies[id].data.hitbox.damage
  {
    var dmg := s.bodies[id].data.hitbox.damage;
    var m := BeforeDamage(s, now, stepped);
    SpentBeforeDamage(s, now, stepped, id, dmg);
    SpentThroughDamage(m, pairs, now, id, dmg);
    SpentThroughWin(Damage.Damage(m, pairs, now), id, dmg);
  }

  /** Physics, the controller and the enemies leave a spent hitbox spent. */
  lemma SpentBeforeDamage(s: Scene, now: int, stepped: map<BodyId, Body>, id: BodyId, dmg: int)
    requires Wf(s) && Physics.Moves(s, stepped) && Spent(s.bodies, id, dmg)
    ensures Spent(BeforeDamage(s, now, stepped).bodies, id, dmg)
  {
    var p := Physics.Physics(s, now, stepped);
    assert p.bodies[id].data == s.bodies[id].data;
    var c := PlayerControl.Control(p, now);
    assert DataMatches(p.bodies[PlayerId(p)]);
    assert c.bodies[id] == p.bodies[id];
    if !Halted(c.game) {
      ZombieAI.ZombieAIFrame(c, now);
      assert DataMatches(c.bodies[id]);
    }
  }

  /** The damage system may set a hitbox's latch but never clears it. */
  lemma SpentThroughDamage(s: Scene, pairs: seq<Damage.Pair>, now: int, id: BodyId, dmg: int)
    requires Wf(s) && Damage.PairsIn(pairs, s.world) && Spent(s.bodies, id, dmg)
    ensures Spent(Damage.Damage(s, pairs, now).bodies, id, dmg)
  {
    var d := Damage.Damage(s, pairs, now);
    Damage.DamageProgress(s, pairs, now);
    assert Damage.Evolves(s.bodies[id].data, d.bodies[id].data);
  }

  /** The win check changes the door alone. */
  lemma SpentThroughWin(s: Scene, id: BodyId, dmg: int)
    requires Wf(s) && Spent(s.bodies, id, dmg)
    ensures Spent(WinCondition.Win(s).bodies, id, dmg)
  {
    assert DataMatches(s.bodies[DoorId(s)]);
  }

  /** No zombie without hp stays in the world from one frame to the next. */
  lemma FrameKeepsZombiesAlive(s: Scene, now: int, stepped: map<BodyId, Body>, pairs: seq<Damage.Pair>)
    requires Wf(s) && Physics.Moves(s, stepped) && ZombiesInWorldAlive(s)
    requires Damage.PairsIn(pairs, BeforeDamage(s, now, stepped).world)
    ensures ZombiesInWorldAlive(Frame(s, now, stepped, pairs))
  {
    var p := Physics.Physics(s, now, stepped);
    var c := PlayerControl.Control(p, now);
    ControlKeepsAlive(p, now);
    var z := ZombieAI.ZombieAI(c, now);
    ThinkKeepsAlive(c, now);
    if !Halted(z.game) {
      Damage.DamageRemovesFelled(z, pairs, now);
    }
    WinKeepsAlive(Damage.Damage(z, pairs, now));
  }

  lemma WinKeepsAlive(s: Scene)
    requires Wf(s) && ZombiesInWorldAlive(s)
    ensures ZombiesInWorldAlive(WinCondition.Win(s))
  {
    var r := WinCondition.Win(s);
    forall id | id in r.world && id in r.bodies && r.bodies[id].data.OfZombie?
      ensures r.bodies[id].data.zombie.hp > 0
    {
      assert id != DoorId(s) by {
        assert DataMatches(r.bodies[id]);
      }
    }
  }

  lemma ControlKeepsAlive(s: Scene, now: int)
    requires Wf(s) && ZombiesInWorldAlive(s)
    ensures ZombiesInWorldAlive(PlayerControl.Control(s, now))
  {
    if !Halted(s.game) {
      if s.input.attack && !s.input.attackHandled {
        PlayerControl.AttackPress(s, now);
      } else {
        PlayerControl.HitboxExpiry(s, now);
      }
      ControlAlive(s, now);
    }
  }

  lemma ControlAlive(s: Scene, now: int)
    requires Wf(s) && ZombiesInWorldAlive(s) && !Halted(s.game)
    requires var r := PlayerControl.Control(s, now);
      r.world <= s.world + {s.nextId} && (s.nextId in r.bodies ==> r.bodies[s.nextId].kind == PlayerHitbox)
    ensures ZombiesInWorldAlive(PlayerControl.Control(s, now))
  {
    var r := PlayerControl.Control(s, now);
    forall id | id in r.world && id in r.bodies && r.bodies[id].data.OfZombie?
      ensures r.bodies[id].data.zombie.hp > 0
    {
      assert DataMatches(r.bodies[id]);
      assert id != PlayerId(s);
    }
  }

  lemma ThinkKeepsAlive(s: Scene, now: int)
    requires Wf(s) && ZombiesInWorldAlive(s)
    ensures ZombiesInWorldAlive(ZombieAI.ZombieAI(s, now))
  {
    if !Halted(s.game) {
      var r := ZombieAI.ZombieAI(s, now);
      ZombieAI.ZombieAIFrame(s, now);
      forall id | id in r.world && id in r.bodies && r.bodies[id].data.OfZombie?
        ensures r.bodies[id].data.zombie.hp > 0
      {
        assert DataMatches(r.bodies[id]) && DataMatches(s.bodies[id]);
      }
    }
  }

  /** The labels of the level's bodies 1 to 9, in creation order. */
  function LevelKinds(): (ks: seq<Label>)
    ensures |ks| == 9
  {
    [Player, Floor, Wall, Wall, Floor, Floor, Zombie, Zombie, Door]
  }

  /** The bodies the level created are all still there, with their labels, and the player
      and door keys still hold the first and the last of them. */
  predicate Level(s: Scene) {
    && Wf(s) && PlayerId(s) == Setup.PLAYER_ID && DoorId(s) == Setup.DOOR_ID
    && forall id :: Setup.PLAYER_ID <= id <= Setup.DOOR_ID ==>
         id in s.bodies && s.bodies[id].kind == LevelKinds()[id - 1]
  }

  lemma InitialLevel()
    ensures Level(Setup.Initial())
  {
    Setup.InitialWf();
    Setup.InitialKinds(LevelKinds());
  }

  /** Bodies are never forgotten and never change label. */
  predicate KindsKept(b: map<BodyId, Body>, c: map<BodyId, Body>) {
    forall id :: id in b ==> id in c && c[id].kind == b[id].kind
  }

  lemma FrameKeepsLevel(s: Scene, now: int, stepped: map<BodyId, Body>, pairs: seq<Damage.Pair>)
    requires Level(s) && Physics.Moves(s, stepped)
    requires Damage.PairsIn(pairs, BeforeDamage(s, now, stepped).world)
    ensures Level(Frame(s, now, stepped, pairs))
  {
    var p := Physics.Physics(s, now, stepped);
    var c := PlayerControl.Control(p, now);
    ControlKinds(p, now);
    var z := ZombieAI.ZombieAI(c, now);
    var d := Damage.Damage(z, pairs, now);
    var r := WinCondition.Win(d);
    WinKinds(d);
    assert KindsKept(s.bodies, r.bodies);
  }

  lemma ControlKinds(s: Scene, now: int)
    requires Wf(s)
    ensures KindsKept(s.bodies, PlayerControl.Control(s, now).bodies)
  {
  }

  lemma WinKinds(s: Scene)
    requires Wf(s)
    ensures KindsKept(s.bodies, WinCondition.Win(s).bodies)
  {
  }

  /** A restart: the factory builds a new registry over the same module-level body, input
      and game-state objects, so only the registry is replaced. */
  function Reset(s: Scene): (r: Scene)
    requires Level(s)
    ensures Level(r)
    ensures r.registry == Setup.InitialRegistry()
    ensures r.bodies == s.bodies && r.world == s.world && r.input == s.input && r.game == s.game
  {
    ResetLevel(s);
    s.(registry := Setup.InitialRegistry())
  }

  lemma ResetLevel(s: Scene)
    requires Level(s)
    ensures Level(s.(registry := Setup.InitialRegistry()))
  {
    var r := s.(registry := Setup.InitialRegistry());
    Setup.InitialRegistryKeys();
    Setup.InitialRegistryHeld();
    assert s.bodies[Setup.PLAYER_ID].kind == Player && s.bodies[Setup.DOOR_ID].kind == Door;
    assert DataMatches(s.bodies[Setup.PLAYER_ID]) && DataMatches(s.bodies[Setup.DOOR_ID]);
    assert PlayerIdOk(r) && DoorIdOk(r);
  }

  /** After a game over a restart changes nothing that matters: the flag is still set, so
      from then on every frame runs the physics engine alone. */
  lemma ResetAfterGameOver(s: Scene, now: int, stepped: map<BodyId, Body>, pairs: seq<Damage.Pair>)
    requires Level(s) && s.game.isGameOver && Physics.Moves(s, stepped) && Damage.PairsIn(pairs, s.world)
    ensures Frame(Reset(s), now, stepped, pairs) == Physics.Physics(Reset(s), now, stepped)
    ensures Frame(Reset(s), now, stepped, pairs).game.isGameOver
  {
    FrameHalted(Reset(s), now, stepped, pairs);
  }

  /** After a restart the registry holds both zombies again, defeated or not; one that was
      defeated stays out of the physics world with the hp it died with, and a victory already
      declared stays declared. */
  lemma ResetRestoresRegistryOnly(s: Scene)
    requires Level(s)
    ensures var r := Reset(s);
      && HasZombie(r)
      && Find(r.registry, zombie1) == Some(Setup.ZOMBIE1_ID)
      && Find(r.registry, zombie2) == Some(Setup.ZOMBIE2_ID)
      && (Setup.ZOMBIE1_ID in r.world <==> Setup.ZOMBIE1_ID in s.world)
      && r.bodies[Setup.ZOMBIE1_ID] == s.bodies[Setup.ZOMBIE1_ID]
      && (s.game.isVictory ==> r.game.isVictory && (DoorUnlocked(r) <==> DoorUnlocked(s)))
  {
    Setup.InitialZombieKeys();
    assert s.bodies[Setup.ZOMBIE1_ID].kind == Zombie;
  }

  /** The restart the "Try Again" and "Play Again" buttons evidently mean: every entity is
      built again, so the bodies, the input record and the game state are new as well. */
  function FreshReset(s: Scene): (r: Scene)
    ensures Level(r) && r == Setup.Initial()
  {
    InitialLevel();
    Setup.Initial()
  }

  /** After a fresh restart the game runs again whatever state it was left in: it is neither
      paused, over nor won, and both zombies are back in the registry and in the world with
      full hp. */
  lemma FreshResetPlays(s: Scene)
    ensures var r := FreshReset(s);
      && !Halted(r.game) && !r.game.isVictory
      && Find(r.registry, zombie1) == Some(Setup.ZOMBIE1_ID)
      && Find(r.registry, zombie2) == Some(Setup.ZOMBIE2_ID)
      && Setup.ZOMBIE1_ID in r.world && Setup.ZOMBIE2_ID in r.world
      && r.bodies[Setup.ZOMBIE1_ID].data.OfZombie?
      && r.bodies[Setup.ZOMBIE1_ID].data.zombie.hp == ZOMBIE_MAX_HP
      && r.bodies[Setup.ZOMBIE2_ID].data.OfZombie?
      && r.bodies[Setup.ZOMBIE2_ID].data.zombie.hp == ZOMBIE_MAX_HP
  {
    Setup.InitialFlags();
    Setup.InitialZombies();
    Setup.InitialZombieKeys();
    Setup.InitialRegistryKeys();
  }

  /** The two restarts part after a game over: the module-level game state keeps the flag
      through `Reset`, while `FreshReset` clears it. */
  lemma ResetsPartAfterGameOver(s: Scene)
    requires Level(s) && s.game.isGameOver
    ensures Reset(s).game.isGameOver && !FreshReset(s).game.isGameOver
  {
    Setup.InitialFlags();
  }

  /** The deferred callback a landed hit schedules: it clears the player's hit marker. */
  function ClearHitMarker(s: Scene): (r: Scene)
    requires Wf(s)
    ensures Wf(r) && PlayerId(r) == PlayerId(s) && DoorId(r) == DoorId(s)
    ensures PlayerOf(r) == PlayerOf(s).(lastHitTime := None)
    ensures r == s.(bodies := r.bodies) && r.bodies.Keys == s.bodies.Keys
    ensures forall id :: id in s.bodies && id != PlayerId(s) ==> r.bodies[id] == s.bodies[id]
  {
    var pid := PlayerId(s);
    var r := s.(bodies := s.bodies[pid := s.bodies[pid].(data := OfPlayer(PlayerOf(s).(lastHitTime := None)))]);
    assert DoorId(s) != pid;
    r
  }

  /** Once the marker is cleared the player can be hit again exactly when not dodging. */
  lemma ClearReopens(s: Scene)
    requires Wf(s)
    ensures var r := ClearHitMarker(s);
      Damage.Open(r.bodies[PlayerId(r)].data) <==> !PlayerOf(s).isInvulnerable
  {
  }
}
