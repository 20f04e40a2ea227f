/**
 * The enemy behaviour (ZombieAISystem in Systems.js): every registry entry whose body is a
 * zombie re-evaluates its state from its horizontal distance to the player, lunges in the
 * attack state at most once per cooldown, chases in the aggro state and walks between its
 * patrol bounds otherwise.
 */
module ZombieAI {
  import opened Constants
  import opened Model

  /** Milliseconds between two lunges. */
  const LUNGE_COOLDOWN: int := 1000
  /** Scale applied to the lunge speed when it is applied as a force. */
  const LUNGE_SCALE: real := 0.01

  function Distance(zx: real, px: real): (d: real)
    ensures d >= 0.0 && (d == zx - px || d == px - zx)
  {
    if zx - px < 0.0 then px - zx else zx - px
  }

  /** +1 when the player is strictly to the right, -1 otherwise. */
  function Toward(zx: real, px: real): (dir: real)
    ensures dir == 1.0 <==> px > zx
    ensures dir == -1.0 <==> px <= zx
  {
    if px > zx then 1.0 else -1.0
  }

  /** The state chosen for a distance: strict thresholds, so exactly ATTACK_DISTANCE is
      aggro and exactly AGGRO_DISTANCE is patrol. */
  function StateFor(d: real): (st: ZombieState)
    ensures st == Attack <==> d < ATTACK_DISTANCE
    ensures st == Aggro <==> ATTACK_DISTANCE <= d < AGGRO_DISTANCE
    ensures st == Patrol <==> AGGRO_DISTANCE <= d
  {
    if d < ATTACK_DISTANCE then Attack else if d < AGGRO_DISTANCE then Aggro else Patrol
  }

  /** The patrol direction after the bound check: turn right at or past the left bound,
      turn left at or past the right bound, keep going in between. */
  function PatrolDirection(x: real, z: ZombieData): (dir: int)
    ensures x <= z.patrolLeft ==> dir == 1
    ensures z.patrolLeft < x && z.patrolRight <= x ==> dir == -1
    ensures z.patrolLeft < x < z.patrolRight ==> dir == z.patrolDirection
  {
    if x <= z.patrolLeft then 1 else if x >= z.patrolRight then -1 else z.patrolDirection
  }

  /** Whether the lunge cooldown has run out. */
  predicate LungeReady(z: ZombieData, now: int) {
    now - z.lastAttackTime > LUNGE_COOLDOWN
  }

  /** One zombie's update for one frame, given the player's horizontal position. */
  function Think(b: Body, px: real, now: int): (r: Body)
    requires b.data.OfZombie?
    ensures r.data.OfZombie?
    ensures var z, y := b.data.zombie, r.data.zombie;
      var st := StateFor(Distance(b.position.x, px));
      && r == b.(velocity := r.velocity, force := r.force, data := r.data)
      && r.velocity.y == b.velocity.y && r.force.y == b.force.y
      && y == z.(state := y.state, patrolDirection := y.patrolDirection, lastAttackTime := y.lastAttackTime)
      && y.state == st
      // a lunge happens in the attack state once the cooldown has run out, and only then
      && (y.lastAttackTime != z.lastAttackTime <==> st == Attack && LungeReady(z, now))
      && (y.lastAttackTime != z.lastAttackTime ==>
            y.lastAttackTime == now
            && r.force.x == b.force.x + LUNGE_SPEED * Toward(b.position.x, px) * LUNGE_SCALE)
      && (y.lastAttackTime == z.lastAttackTime ==> r.force.x == b.force.x)
      // attacking leaves the velocity alone; chasing heads for the player
      && (st == Attack ==> r.velocity == b.velocity)
      && (st == Aggro ==> r.velocity.x == ZOMBIE_SPEED * Toward(b.position.x, px))
      // patrolling bounces between the bounds
      && (st != Patrol ==> y.patrolDirection == z.patrolDirection)
      && (st == Patrol ==>
            y.patrolDirection == PatrolDirection(b.position.x, z)
            && r.velocity.x == ZOMBIE_SPEED * y.patrolDirection as real)
  {
    var z := b.data.zombie;
    var d := Distance(b.position.x, px);
    var dir := Toward(b.position.x, px);
    match StateFor(d)
    case Attack =>
      if LungeReady(z, now) then
        b.(force := Vec(b.force.x + LUNGE_SPEED * dir * LUNGE_SCALE, b.force.y),
           data := OfZombie(z.(state := Attack, lastAttackTime := now)))
      else b.(data := OfZombie(z.(state := Attack)))
    case Aggro =>
      b.(velocity := Vec(ZOMBIE_SPEED * dir, b.velocity.y), data := OfZombie(z.(state := Aggro)))
    case Patrol =>
      var pd := PatrolDirection(b.position.x, z);
      b.(velocity := Vec(ZOMBIE_SPEED * pd as real, b.velocity.y),
         data := OfZombie(z.(state := Patrol, patrolDirection := pd)))
  }

  /** Re-running the update in the same frame changes nothing more: the state depends on
      distance alone, the cooldown has just been reset and the bound check is stable. */
  lemma ThinkIdempotent(b: Body, px: real, now: int)
    requires b.data.OfZombie?
    ensures Think(Think(b, px, now), px, now) == Think(b, px, now)
  {
    var r := Think(b, px, now);
    var z, y := b.data.zombie, r.data.zombie;
    if StateFor(Distance(b.position.x, px)) == Attack && LungeReady(z, now) {
      assert !LungeReady(y, now);
    }
  }

  /** A zombie standing at its left bound after walking left turns right, and symmetrically
      at its right bound. */
  lemma PatrolBounce(b: Body, px: real, now: int)
    requires b.data.OfZombie? && b.data.zombie.patrolLeft < b.data.zombie.patrolRight
    requires AGGRO_DISTANCE <= Distance(b.position.x, px)
    ensures b.position.x == b.data.zombie.patrolLeft ==>
      Think(b, px, now).data.zombie.patrolDirection == 1 && Think(b, px, now).velocity.x == ZOMBIE_SPEED
    ensures b.position.x == b.data.zombie.patrolRight ==>
      Think(b, px, now).data.zombie.patrolDirection == -1 && Think(b, px, now).velocity.x == -ZOMBIE_SPEED
  {
  }

  /** The bodies the entries of `reg` hold. */
  function Held(reg: seq<Entry>): set<BodyId> {
    set e | e in reg :: e.body
  }

  /** The bodies after the entry holding `id` is visited: a zombie is updated, any other
      body is skipped. */
  function Visit(bodies: map<BodyId, Body>, id: BodyId, px: real, now: int): (r: map<BodyId, Body>)
    requires id in bodies && DataMatches(bodies[id])
    ensures r.Keys == bodies.Keys
    ensures DataMatches(r[id]) && r[id].kind == bodies[id].kind
    ensures forall k :: k in bodies && k != id ==> r[k] == bodies[k]
  {
    if bodies[id].kind == Zombie then bodies[id := Think(bodies[id], px, now)] else bodies
  }

  /** The zombies of the registry entries, updated one entry after the other. */
  function ThinkAll(bodies: map<BodyId, Body>, reg: seq<Entry>, px: real, now: int): (r: map<BodyId, Body>)
    requires forall e :: e in reg ==> e.body in bodies
    requires forall id {:trigger bodies[id]} :: id in bodies ==> DataMatches(bodies[id])
    ensures r.Keys == bodies.Keys
    ensures forall id :: id in bodies ==> DataMatches(r[id]) && r[id].kind == bodies[id].kind
    decreases |reg|
  {
    if reg == [] then bodies
    else
      var next := Visit(bodies, reg[0].body, px, now);
      assert forall e :: e in reg[1..] ==> e in reg;
      ThinkAll(next, reg[1..], px, now)
  }

  /** Every zombie the registry holds gets exactly one frame's update, even if two keys hold
      it; every other body keeps its record. */
  lemma {:induction false} ThinkAllEffect(bodies: map<BodyId, Body>, reg: seq<Entry>, px: real, now: int)
    requires forall e :: e in reg ==> e.body in bodies
    requires forall id {:trigger bodies[id]} :: id in bodies ==> DataMatches(bodies[id])
    ensures var r := ThinkAll(bodies, reg, px, now);
      && (forall e :: e in reg && bodies[e.body].kind == Zombie ==>
            bodies[e.body].data.OfZombie? && r[e.body] == Think(bodies[e.body], px, now))
      && (forall id :: id in bodies && bodies[id].kind != Zombie ==> r[id] == bodies[id])
      && (forall id :: id in bodies && id !in Held(reg) ==> r[id] == bodies[id])
    decreases |reg|
  {
    if reg != [] {
      var id := reg[0].body;
      var next := Visit(bodies, id, px, now);
      assert forall e :: e in reg[1..] ==> e in reg;
      assert Held(reg) == {id} + Held(reg[1..]);
      ThinkAllEffect(next, reg[1..], px, now);
      assert DataMatches(bodies[id]);
      if bodies[id].kind == Zombie {
        ThinkIdempotent(bodies[id], px, now);
      }
    }
  }

  /** One entry of the pass: the rest of the registry sees the bodies after that entry. */
  lemma ThinkAllStep(bodies: map<BodyId, Body>, reg: seq<Entry>, i: nat, px: real, now: int)
    requires i < |reg|
    requires forall e :: e in reg ==> e.body in bodies
    requires forall id {:trigger bodies[id]} :: id in bodies ==> DataMatches(bodies[id])
    ensures reg[i].body in bodies && DataMatches(bodies[reg[i].body])
    ensures var next := Visit(bodies, reg[i].body, px, now);
      && (forall id {:trigger next[id]} :: id in next ==> DataMatches(next[id]))
      && ThinkAll(bodies, reg[i..], px, now) == ThinkAll(next, reg[i + 1..], px, now)
  {
    assert reg[i] in reg;
    assert DataMatches(bodies[reg[i].body]);
    assert reg[i..][1..] == reg[i + 1..];
  }

  /** The enemy system over the scene: every registry entry holding a zombie is updated
      against the player's horizontal position; nothing else changes. */
  function ZombieAI(s: Scene, now: int): (r: Scene)
    requires Wf(s)
    ensures Wf(r) && PlayerId(r) == PlayerId(s) && DoorId(r) == DoorId(s)
    ensures r == s.(bodies := r.bodies)
    ensures Halted(s.game) ==> r == s
    ensures !Halted(s.game) ==>
      r.bodies == ThinkAll(s.bodies, s.registry, s.bodies[PlayerId(s)].position.x, now)
  {
    if Halted(s.game) then s
    else
      ThoughtWf(s, s.bodies[PlayerId(s)].position.x, now);
      s.(bodies := ThinkAll(s.bodies, s.registry, s.bodies[PlayerId(s)].position.x, now))
  }

  lemma ThoughtWf(s: Scene, px: real, now: int)
    requires Wf(s)
    ensures var r := s.(bodies := ThinkAll(s.bodies, s.registry, px, now));
      Wf(r) && PlayerId(r) == PlayerId(s) && DoorId(r) == DoorId(s)
  {
    var r := s.(bodies := ThinkAll(s.bodies, s.registry, px, now));
    var p, d := PlayerId(s), DoorId(s);
    ThinkAllEffect(s.bodies, s.registry, px, now);
    assert r.bodies[p] == s.bodies[p] && r.bodies[d] == s.bodies[d];
  }

  /** The enemy system never changes hp, the physics world, the registry or any body that
      is not a zombie, and each zombie changes by exactly one update. */
  lemma ZombieAIFrame(s: Scene, now: int)
    requires Wf(s) && !Halted(s.game)
    ensures var r, px := ZombieAI(s, now), s.bodies[PlayerId(s)].position.x;
      && r.bodies.Keys == s.bodies.Keys
      && (forall id :: id in s.bodies && s.bodies[id].kind != Zombie ==> r.bodies[id] == s.bodies[id])
      && (forall e :: e in s.registry && s.bodies[e.body].kind == Zombie ==>
            r.bodies[e.body] == Think(s.bodies[e.body], px, now))
      && (forall id :: id in s.bodies && s.bodies[id].data.OfZombie? ==>
            r.bodies[id].data.OfZombie? && r.bodies[id].data.zombie.hp == s.bodies[id].data.zombie.hp)
  {
    var r, px := ZombieAI(s, now), s.bodies[PlayerId(s)].position.x;
    ThinkAllEffect(s.bodies, s.registry, px, now);
    forall id | id in s.bodies && s.bodies[id].data.OfZombie?
      ensures r.bodies[id].data.OfZombie? && r.bodies[id].data.zombie.hp == s.bodies[id].data.zombie.hp
    {
      assert DataMatches(s.bodies[id]);
      if id in Held(s.registry) {
        var e :| e in s.registry && e.body == id;
      }
    }
  }
}
