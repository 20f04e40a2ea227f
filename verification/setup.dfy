/**
 * The initial state built when Entities.js is loaded: the bodies added to the physics
 * world, their game data, the input and game-state records, and the registry the factory
 * returns.
 */
module Setup {
  import opened Constants
  import opened Model

  const PLAYER_ID: BodyId := 1
  const FLOOR_ID: BodyId := 2
  const LEFT_WALL_ID: BodyId := 3
  const RIGHT_WALL_ID: BodyId := 4
  const PLATFORM1_ID: BodyId := 5
  const PLATFORM2_ID: BodyId := 6
  const ZOMBIE1_ID: BodyId := 7
  const ZOMBIE2_ID: BodyId := 8
  const DOOR_ID: BodyId := 9

  const FLOOR_HEIGHT: real := 50.0
  const WALL_THICKNESS: real := 20.0
  const DOOR_HEIGHT: real := 80.0

  const STILL: Vec := Vec(0.0, 0.0)

  /** A static piece of level geometry. */
  function Geometry(kind: Label, x: real, y: real): (b: Body)
    requires kind == Floor || kind == Wall
    ensures b.kind == kind && DataMatches(b) && !b.isSensor && b.isStatic
    ensures b.category == CATEGORY_ENVIRONMENT && b.mask == MASK_ENVIRONMENT
  {
    Body(kind, CATEGORY_ENVIRONMENT, MASK_ENVIRONMENT, false, true, Vec(x, y), STILL, STILL, NoData)
  }

  /** A zombie at (x, y) patrolling between the two bounds, at full health, heading right. */
  function CreateZombie(x: real, y: real, patrolLeft: real, patrolRight: real): (b: Body)
    ensures b.kind == Zombie && DataMatches(b) && !b.isSensor && !b.isStatic
    ensures b.category == CATEGORY_ENEMY && b.mask == MASK_ENEMY
    ensures b.position == Vec(x, y) && b.velocity == STILL && b.force == STILL
    ensures var z := b.data.zombie;
      && z.hp == z.maxHp == ZOMBIE_MAX_HP && z.state == Patrol
      && z.patrolLeft == patrolLeft && z.patrolRight == patrolRight
      && z.patrolDirection == 1 && z.lastAttackTime == 0
  {
    Body(Zombie, CATEGORY_ENEMY, MASK_ENEMY, false, false, Vec(x, y), STILL, STILL,
         OfZombie(ZombieData(ZOMBIE_MAX_HP, ZOMBIE_MAX_HP, Patrol, patrolLeft, patrolRight, 1, 0)))
  }

  const INITIAL_PLAYER: PlayerData :=
    PlayerData(PLAYER_MAX_HP, PLAYER_MAX_HP, false, false, false, 0, 0, true, None, 0, None)

  /** The bodies of the level, numbered in creation order. */
  function InitialBody(id: BodyId): (b: Body)
    requires PLAYER_ID <= id <= DOOR_ID
    ensures DataMatches(b)
  {
    if id == PLAYER_ID then
      Body(Player, CATEGORY_PLAYER, MASK_PLAYER, false, false, Vec(100.0, SCREEN_HEIGHT - 200.0), STILL, STILL,
           OfPlayer(INITIAL_PLAYER))
    else if id == FLOOR_ID then Geometry(Floor, SCREEN_WIDTH / 2.0, SCREEN_HEIGHT - FLOOR_HEIGHT / 2.0)
    else if id == LEFT_WALL_ID then Geometry(Wall, -WALL_THICKNESS / 2.0, SCREEN_HEIGHT / 2.0)
    else if id == RIGHT_WALL_ID then Geometry(Wall, SCREEN_WIDTH + WALL_THICKNESS / 2.0, SCREEN_HEIGHT / 2.0)
    else if id == PLATFORM1_ID then Geometry(Floor, 200.0, SCREEN_HEIGHT - 300.0)
    else if id == PLATFORM2_ID then Geometry(Floor, 320.0, SCREEN_HEIGHT - 450.0)
    else if id == ZOMBIE1_ID then CreateZombie(250.0, SCREEN_HEIGHT - 150.0, 200.0, 300.0)
    else if id == ZOMBIE2_ID then CreateZombie(320.0, SCREEN_HEIGHT - 500.0, 280.0, 360.0)
    else
      // created without a collision filter, so it gets the engine's default one
      Body(Door, DEFAULT_CATEGORY, DEFAULT_MASK, true, true,
           Vec(SCREEN_WIDTH - 100.0, SCREEN_HEIGHT - FLOOR_HEIGHT - DOOR_HEIGHT / 2.0), STILL, STILL,
           OfDoor(false))
  }

  /** The two zombies are bodies 7 and 8, both at full health. */
  lemma InitialZombies()
    ensures forall id :: PLAYER_ID <= id <= DOOR_ID ==>
      (InitialBody(id).data.OfZombie? <==> id == ZOMBIE1_ID || id == ZOMBIE2_ID)
    ensures InitialBody(ZOMBIE1_ID).data.zombie.hp == ZOMBIE_MAX_HP
    ensures InitialBody(ZOMBIE2_ID).data.zombie.hp == ZOMBIE_MAX_HP
  {
    forall id | PLAYER_ID <= id <= DOOR_ID
      ensures InitialBody(id).data.OfZombie? <==> id == ZOMBIE1_ID || id == ZOMBIE2_ID
    {
      if id == PLAYER_ID {} else if id == FLOOR_ID {} else if id == LEFT_WALL_ID {}
      else if id == RIGHT_WALL_ID {} else if id == PLATFORM1_ID {} else if id == PLATFORM2_ID {}
    }
  }

  /** The floor, the walls, the platforms and the door are static; the player and the zombies
      are not. */
  lemma InitialStatic()
    ensures forall id :: PLAYER_ID <= id <= DOOR_ID ==>
      (InitialBody(id).isStatic <==> id != PLAYER_ID && id != ZOMBIE1_ID && id != ZOMBIE2_ID)
  {
    forall id | PLAYER_ID <= id <= DOOR_ID
      ensures InitialBody(id).isStatic <==> id != PLAYER_ID && id != ZOMBIE1_ID && id != ZOMBIE2_ID
    {
      if id == PLAYER_ID {} else if id == FLOOR_ID {} else if id == LEFT_WALL_ID {}
      else if id == RIGHT_WALL_ID {} else if id == PLATFORM1_ID {} else if id == PLATFORM2_ID {}
    }
  }

  function InitialBodies(): (m: map<BodyId, Body>)
    ensures forall id :: id in m <==> PLAYER_ID <= id <= DOOR_ID
    ensures forall id :: id in m ==> m[id] == InitialBody(id)
  {
    map id | PLAYER_ID <= id <= DOOR_ID :: InitialBody(id)
  }

  /** The keys of the object the factory returns that hold a body, in order. */
  function InitialRegistry(): (r: seq<Entry>)
    ensures |r| == DOOR_ID && forall i :: 0 <= i < |r| ==> r[i].body == i + 1
    ensures forall i, j :: 0 <= i < j < |r| ==> r[i].key != r[j].key
  {
    [Entry(player, PLAYER_ID), Entry(floor, FLOOR_ID), Entry(leftWall, LEFT_WALL_ID),
     Entry(rightWall, RIGHT_WALL_ID), Entry(platform1, PLATFORM1_ID), Entry(platform2, PLATFORM2_ID),
     Entry(zombie1, ZOMBIE1_ID), Entry(zombie2, ZOMBIE2_ID), Entry(door, DOOR_ID)]
  }

  const INITIAL_INPUT: Input := Input(false, false, false, false, false, false, false, false)
  const INITIAL_GAME: GameState := GameState(false, false, false, 0)

  /** The state right after loading: every body in the world, nothing pressed, nothing won. */
  function Initial(): (s: Scene)
    ensures s.world == s.bodies.Keys && s.nextId == DOOR_ID + 1
    ensures forall id :: id in s.bodies <==> PLAYER_ID <= id <= DOOR_ID
    ensures forall id :: id in s.bodies ==> s.bodies[id] == InitialBody(id)
  {
    Scene(InitialBodies(), InitialBodies().Keys, InitialRegistry(), INITIAL_INPUT, INITIAL_GAME, DOOR_ID + 1)
  }

  /** The initial state satisfies the invariant every system keeps, with the player and the
      door under their keys and every zombie alive. */
  lemma InitialWf()
    ensures var s := Initial();
      && Wf(s) && ZombiesInWorldAlive(s)
      && PlayerId(s) == PLAYER_ID && DoorId(s) == DOOR_ID
  {
    InitialKeysDistinct();
    InitialIds();
    InitialBodiesOk();
    InitialAlive();
  }

  lemma InitialAlive()
    ensures ZombiesInWorldAlive(Initial())
  {
    InitialZombies();
    var s := Initial();
    forall id | id in s.world && id in s.bodies && s.bodies[id].data.OfZombie?
      ensures s.bodies[id].data.zombie.hp > 0
    {
      assert s.bodies[id] == InitialBody(id);
    }
  }

  lemma InitialBodiesOk()
    ensures var s := Initial();
      && (forall id :: id in s.bodies ==> id < s.nextId && DataMatches(s.bodies[id]))
      && (forall e :: e in s.registry ==> e.body in s.bodies)
      && OwnedHitboxOk(s)
  {
    InitialIds();
    InitialRegistryHeld();
  }

  lemma InitialRegistryHeld()
    ensures forall e :: e in InitialRegistry() ==> PLAYER_ID <= e.body <= DOOR_ID
  {
    InitialRegistryBodies();
  }

  /** Entry i of the registry holds body i + 1. */
  lemma InitialRegistryBodies()
    ensures |InitialRegistry()| == 9
    ensures forall i :: 0 <= i < |InitialRegistry()| ==> InitialRegistry()[i].body == i + 1
  {
  }

  /** The player and door keys hold bodies of the right kind. */
  lemma InitialKeysOk()
    ensures PlayerIdOk(Initial()) && DoorIdOk(Initial())
  {
    InitialPlayerKeyOk();
    InitialDoorKeyOk();
  }

  lemma InitialPlayerKeyOk()
    ensures PlayerIdOk(Initial())
  {
    InitialRegistryKeys();
    var s := Initial();
    assert s.bodies[PLAYER_ID] == InitialBody(PLAYER_ID);
    assert InitialBody(PLAYER_ID).kind == Player;
  }

  lemma InitialDoorKeyOk()
    ensures DoorIdOk(Initial())
  {
    InitialRegistryKeys();
    var s := Initial();
    DoorBody();
    assert s.bodies[DOOR_ID] == InitialBody(DOOR_ID);
  }

  lemma InitialIds()
    ensures PlayerIdOk(Initial()) && DoorIdOk(Initial())
    ensures PlayerId(Initial()) == PLAYER_ID && DoorId(Initial()) == DOOR_ID
    ensures PlayerOf(Initial()) == INITIAL_PLAYER
  {
    InitialKeysOk();
    InitialRegistryKeys();
    var s := Initial();
    assert s.bodies[PLAYER_ID] == InitialBody(PLAYER_ID);
    assert InitialBody(PLAYER_ID).data == OfPlayer(INITIAL_PLAYER);
  }

  lemma InitialRegistryKeys()
    ensures KeysDistinct(InitialRegistry())
    ensures Find(InitialRegistry(), PLAYER_KEY) == Some(PLAYER_ID)
    ensures Find(InitialRegistry(), DOOR_KEY) == Some(DOOR_ID)
  {
    InitialKeysDistinct();
    var r := InitialRegistry();
    FindFirst(r, PLAYER_KEY, 0);
    FindFirst(r, DOOR_KEY, 8);
  }

  lemma InitialKeysDistinct()
    ensures KeysDistinct(InitialRegistry())
  {
    var r := InitialRegistry();
    var keys := [player, floor, leftWall, rightWall, platform1, platform2, zombie1, zombie2, door];
    assert forall i :: 0 <= i < |r| ==> r[i].key == keys[i];
  }

  lemma InitialZombieKeys()
    ensures Find(InitialRegistry(), zombie1) == Some(ZOMBIE1_ID)
    ensures Find(InitialRegistry(), zombie2) == Some(ZOMBIE2_ID)
    ensures Entry(zombie1, ZOMBIE1_ID) in InitialRegistry()
  {
    var r := InitialRegistry();
    FindFirst(r, zombie1, 6);
    FindFirst(r, zombie2, 7);
    assert r[6] == Entry(zombie1, ZOMBIE1_ID);
  }

  /** `Find` returns the body of the first entry holding the key. */
  lemma {:induction false} FindFirst(reg: seq<Entry>, key: Key, k: nat)
    requires k < |reg| && reg[k].key == key
    requires forall i :: 0 <= i < k ==> reg[i].key != key
    ensures Find(reg, key) == Some(reg[k].body)
  {
    if k > 0 {
      FindFirst(reg[1..], key, k - 1);
    }
  }

  /** The player starts at full health, vulnerable, facing right, with no hitbox, no dodge,
      an empty jump buffer and no hit recorded. */
  lemma InitialPlayer()
    ensures PlayerIdOk(Initial())
    ensures var p := PlayerOf(Initial());
      && p.hp == p.maxHp == PLAYER_MAX_HP && !p.isInvulnerable && p.attackHitbox == None
      && p.dodgeEndTime == 0 && p.jumpBufferTime == 0 && p.facingRight && p.lastHitTime == None
  {
    InitialIds();
  }

  /** The door starts locked. */
  lemma InitialDoorLocked()
    ensures DoorIdOk(Initial()) && !DoorUnlocked(Initial())
  {
    DoorBody();
    InitialIds();
    assert Initial().bodies[DOOR_ID] == InitialBody(DOOR_ID);
  }

  lemma DoorBody()
    ensures InitialBody(DOOR_ID).kind == Door && InitialBody(DOOR_ID).data == OfDoor(false)
  {
  }

  /** Every flag of the game state is off with no hit-stop, and no input is held or latched. */
  lemma InitialFlags()
    ensures var s := Initial();
      && !s.game.isPaused && !s.game.isGameOver && !s.game.isVictory && s.game.hitStopEndTime == 0
      && !s.input.left && !s.input.right && !s.input.jump && !s.input.attack && !s.input.roll
      && !s.input.jumpHandled && !s.input.rollHandled && !s.input.attackHandled
  {
  }

  /** Both zombies start strictly inside their patrol bounds. */
  lemma ZombiesStartInBounds()
    ensures forall id :: id in Initial().bodies && Initial().bodies[id].kind == Zombie ==>
      var b := Initial().bodies[id];
      b.data.zombie.patrolLeft < b.position.x < b.data.zombie.patrolRight
  {
    var m := Initial().bodies;
    forall id | id in m && m[id].kind == Zombie
      ensures m[id].data.zombie.patrolLeft < m[id].position.x < m[id].data.zombie.patrolRight
    {
      assert id == ZOMBIE1_ID || id == ZOMBIE2_ID;
    }
  }

  /** The kinds of the bodies the registry holds, entry by entry; a helper for
      `InitialRegistryKinds` below. */
  function RegistryKinds(s: Scene): (ks: seq<Label>)
    requires forall e :: e in s.registry ==> e.body in s.bodies
    ensures |ks| == |s.registry|
    ensures forall i :: 0 <= i < |ks| ==> ks[i] == s.bodies[s.registry[i].body].kind
  {
    seq(|s.registry|, i requires 0 <= i < |s.registry| => s.bodies[s.registry[i].body].kind)
  }

  /** The registry holds, in order, the player, the floor, two walls, two platforms, two
      zombies and the door. */
  lemma InitialRegistryKinds()
    ensures forall e :: e in Initial().registry ==> e.body in Initial().bodies
    ensures RegistryKinds(Initial()) == [Player, Floor, Wall, Wall, Floor, Floor, Zombie, Zombie, Door]
  {
    InitialBodiesOk();
    InitialRegistryBodies();
    var s := Initial();
    var ks := RegistryKinds(s);
    var want := [Player, Floor, Wall, Wall, Floor, Floor, Zombie, Zombie, Door];
    InitialKinds(want);
    forall i | 0 <= i < 9 ensures ks[i] == want[i] {
      assert s.bodies[i + 1] == InitialBody(i + 1);
    }
  }

  lemma InitialKinds(want: seq<Label>)
    requires want == [Player, Floor, Wall, Wall, Floor, Floor, Zombie, Zombie, Door]
    ensures forall i :: 0 <= i < 9 ==> InitialBody(i + 1).kind == want[i]
  {
    forall i | 0 <= i < 9 ensures InitialBody(i + 1).kind == want[i] {
      if i < 3 { } else if i < 6 { } else { }
    }
  }

  /** How many times `k` occurs in `ks`. */
  function Occurrences(ks: seq<Label>, k: Label): nat {
    if ks == [] then 0 else (if ks[0] == k then 1 else 0) + Occurrences(ks[1..], k)
  }

  /** One player, two zombies and one door. */
  lemma InitialCounts()
    ensures forall e :: e in Initial().registry ==> e.body in Initial().bodies
    ensures var ks := RegistryKinds(Initial());
      Occurrences(ks, Player) == 1 && Occurrences(ks, Zombie) == 2 && Occurrences(ks, Door) == 1
  {
    InitialRegistryKinds();
    LevelCounts();
  }

  lemma LevelCounts()
    ensures var ks := [Player, Floor, Wall, Wall, Floor, Floor, Zombie, Zombie, Door];
      Occurrences(ks, Player) == 1 && Occurrences(ks, Zombie) == 2 && Occurrences(ks, Door) == 1
  {
  }
}
