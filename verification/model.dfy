/**
 * The shared state the per-frame systems read and write: body records with their
 * per-kind game data, the physics world's membership, the entity registry, the
 * input record and the game-state record.
 *
 * Body records are kept in `bodies`, keyed by identity, for as long as anything can
 * reach them: removing a body from the physics world only takes its identity out of
 * `world`, as with a JavaScript object that is still referenced after removal.
 */
module Model {
  import opened Constants

  datatype Option<T> = None | Some(value: T)

  /** Identity of a body object. */
  type BodyId = nat

  datatype Vec = Vec(x: real, y: real)

  /** The `label` a body carries. */
  datatype Label = Player | Zombie | Floor | Wall | Door | PlayerHitbox

  datatype ZombieState = Patrol | Aggro | Attack

  datatype PlayerData = PlayerData(
    hp: int,
    maxHp: int,
    isInvulnerable: bool,
    canDoubleJump: bool,
    isGrounded: bool,
    lastGroundedTime: int,
    jumpBufferTime: int,
    facingRight: bool,
    attackHitbox: Option<BodyId>,
    dodgeEndTime: int,
    /** Absent until the first hit, and absent again once the deferred clear has run. */
    lastHitTime: Option<int>)

  datatype ZombieData = ZombieData(
    hp: int,
    maxHp: int,
    state: ZombieState,
    patrolLeft: real,
    patrolRight: real,
    patrolDirection: int,
    lastAttackTime: int)

  /** `hasHit` is absent (false) when the hitbox is created. */
  datatype HitboxData = HitboxData(damage: int, createdTime: int, duration: int, hasHit: bool)

  /** The `gameData` payload, one variant per kind of body; geometry carries none. */
  datatype GameData =
    | NoData
    | OfPlayer(player: PlayerData)
    | OfZombie(zombie: ZombieData)
    | OfDoor(isUnlocked: bool)
    | OfHitbox(hitbox: HitboxData)

  /** A body as the systems see it. `force` accumulates the forces applied since creation;
      integrating them is the physics engine's business. */
  datatype Body = Body(
    kind: Label,
    category: Bits,
    mask: Bits,
    isSensor: bool,
    isStatic: bool,
    position: Vec,
    velocity: Vec,
    force: Vec,
    data: GameData)

  /** The keys of the entities object that hold a body; no other key is ever added. */
  datatype Key = player | floor | leftWall | rightWall | platform1 | platform2 | zombie1 | zombie2 | door

  /** One key of the entities object that holds a body. */
  datatype Entry = Entry(key: Key, body: BodyId)

  /** The level-triggered intents and the press-edge latches the controller stores beside them. */
  datatype Input = Input(
    left: bool, right: bool, jump: bool, attack: bool, roll: bool,
    jumpHandled: bool, rollHandled: bool, attackHandled: bool)

  datatype GameState = GameState(isPaused: bool, isGameOver: bool, isVictory: bool, hitStopEndTime: int)

  /** Everything the systems read and write in one frame. */
  datatype Scene = Scene(
    bodies: map<BodyId, Body>,
    world: set<BodyId>,
    registry: seq<Entry>,
    input: Input,
    game: GameState,
    nextId: nat)

  const PLAYER_KEY: Key := player
  const DOOR_KEY: Key := door

  /** The systems other than physics do nothing while paused or after game over. */
  predicate Halted(g: GameState) {
    g.isPaused || g.isGameOver
  }

  /** Labels and payloads agree; every attack hitbox carries the player's damage. */
  predicate DataMatches(b: Body) {
    match b.kind
    case Player => b.data.OfPlayer?
    case Zombie => b.data.OfZombie?
    case Door => b.data.OfDoor?
    case PlayerHitbox => b.data.OfHitbox? && b.data.hitbox.damage == PLAYER_DAMAGE
    case Floor => b.data.NoData?
    case Wall => b.data.NoData?
  }

  /** The body stored under `key`, if any. */
  function Find(reg: seq<Entry>, key: Key): (r: Option<BodyId>)
  {
    if reg == [] then None
    else if reg[0].key == key then Some(reg[0].body)
    else
      Find(reg[1..], key)
  }

  /** What `Find` returns is the body of an entry holding the key. */
  lemma {:induction false} FindIn(reg: seq<Entry>, key: Key)
    ensures Find(reg, key).Some? ==> Entry(key, Find(reg, key).value) in reg
  {
    if reg != [] && reg[0].key != key {
      FindIn(reg[1..], key);
    }
  }

  predicate KeysDistinct(reg: seq<Entry>) {
    forall i, j :: 0 <= i < j < |reg| ==> reg[i].key != reg[j].key
  }

  /** With distinct keys, `Find` returns the body of the one entry holding the key. */
  lemma {:induction false} FindEntry(reg: seq<Entry>, e: Entry)
    requires KeysDistinct(reg)
    requires e in reg
    ensures Find(reg, e.key) == Some(e.body)
  {
    if reg[0] != e {
      assert e in reg[1..];
      FindEntry(reg[1..], e);
    }
  }

  /** The registry without the keys that hold body `id`. */
  function Unlink(reg: seq<Entry>, id: BodyId): (r: seq<Entry>)
    ensures forall e :: e in r <==> e in reg && e.body != id
    ensures |r| <= |reg|
    ensures KeysDistinct(reg) ==> KeysDistinct(r)
  {
    if reg == [] then []
    else
      var rest := Unlink(reg[1..], id);
      assert forall e :: e in reg <==> e == reg[0] || e in reg[1..];
      if reg[0].body == id then rest
      else
        assert KeysDistinct(reg) ==> forall e :: e in rest ==> e.key != reg[0].key;
        [reg[0]] + rest
  }

  /** Filtering the keys one at a time: `kept` holds what survives of the first `j` keys. */
  lemma UnlinkStep(kept: seq<Entry>, reg: seq<Entry>, j: nat, id: BodyId)
    requires j < |reg| && kept + Unlink(reg[j..], id) == Unlink(reg, id)
    ensures (if reg[j].body == id then kept else kept + [reg[j]]) + Unlink(reg[j + 1..], id) == Unlink(reg, id)
  {
    assert reg[j..][1..] == reg[j + 1..];
    if reg[j].body != id {
      assert kept + [reg[j]] + Unlink(reg[j + 1..], id) == kept + ([reg[j]] + Unlink(reg[j + 1..], id));
    }
  }

  predicate OwnedHitboxOk(s: Scene)
    requires PlayerIdOk(s)
  {
    var owned := s.bodies[Find(s.registry, PLAYER_KEY).value].data.player.attackHitbox;
    owned.Some? ==> owned.value in s.bodies && s.bodies[owned.value].kind == PlayerHitbox
  }

  predicate PlayerIdOk(s: Scene) {
    var p := Find(s.registry, PLAYER_KEY);
    p.Some? && p.value in s.bodies && s.bodies[p.value].kind == Player
    && s.bodies[p.value].data.OfPlayer?
  }

  predicate DoorIdOk(s: Scene) {
    var d := Find(s.registry, DOOR_KEY);
    d.Some? && d.value in s.bodies && s.bodies[d.value].kind == Door
    && s.bodies[d.value].data.OfDoor?
  }

  /** The invariant every system keeps. */
  predicate Wf(s: Scene) {
    s.world <= s.bodies.Keys
    && (forall id :: id in s.bodies ==> id < s.nextId && DataMatches(s.bodies[id]))
    && (forall e :: e in s.registry ==> e.body in s.bodies)
    && KeysDistinct(s.registry)
    && PlayerIdOk(s)
    && DoorIdOk(s)
    && OwnedHitboxOk(s)
  }

  function PlayerId(s: Scene): BodyId
    requires PlayerIdOk(s)
  {
    Find(s.registry, PLAYER_KEY).value
  }

  function PlayerOf(s: Scene): PlayerData
    requires PlayerIdOk(s)
  {
    s.bodies[PlayerId(s)].data.player
  }

  function DoorId(s: Scene): BodyId
    requires DoorIdOk(s)
  {
    Find(s.registry, DOOR_KEY).value
  }

  predicate DoorUnlocked(s: Scene)
    requires DoorIdOk(s)
  {
    s.bodies[DoorId(s)].data.isUnlocked
  }

  /** Whether an entry of the registry holds a body labelled ZOMBIE. */
  predicate HasZombie(s: Scene) {
    exists e :: e in s.registry && e.body in s.bodies && s.bodies[e.body].kind == Zombie
  }

  /** Every zombie still in the physics world has hp left. */
  predicate ZombiesInWorldAlive(s: Scene) {
    forall id :: id in s.world && id in s.bodies && s.bodies[id].data.OfZombie? ==>
      s.bodies[id].data.zombie.hp > 0
  }
}
