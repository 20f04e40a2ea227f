/**
 * Damage resolution (DamageSystem in Systems.js): every contact pair between a fresh attack
 * hitbox and a zombie costs the zombie the hitbox's damage and spends the hitbox; every
 * contact pair between a zombie and the player costs the player ZOMBIE_DAMAGE unless the
 * player is dodging or a hit is still pending; zombies brought to zero hp are then taken
 * out of the physics world and off every registry key that holds them.
 */
module Damage {
  import opened Constants
  import opened Model

  /** A contact pair the broad phase reports; both bodies are in the physics world. */
  datatype Pair = Pair(a: BodyId, b: BodyId)

  /** What the pair loop has changed so far: the body records, the game state and the
      zombies queued for removal (a zombie can be queued more than once). */
  datatype Tally = Tally(bodies: map<BodyId, Body>, game: GameState, toRemove: seq<BodyId>)

  /** JavaScript truthiness of `lastHitTime`: absent and zero are both falsy. */
  function Truthy(t: Option<int>): (b: bool)
    ensures b <==> t != None && t != Some(0)
  {
    t.Some? && t.value != 0
  }

  predicate PairsIn(pairs: seq<Pair>, ids: set<BodyId>) {
    forall p :: p in pairs ==> p.a in ids && p.b in ids
  }

  /** A hitbox against a zombie, in either order. */
  predicate Slash(bodies: map<BodyId, Body>, p: Pair)
    requires p.a in bodies && p.b in bodies
  {
    var ka, kb := bodies[p.a].kind, bodies[p.b].kind;
    (ka == PlayerHitbox && kb == Zombie) || (kb == PlayerHitbox && ka == Zombie)
  }

  /** A zombie against the player, in either order. */
  predicate Bite(bodies: map<BodyId, Body>, p: Pair)
    requires p.a in bodies && p.b in bodies
  {
    var ka, kb := bodies[p.a].kind, bodies[p.b].kind;
    (ka == Zombie && kb == Player) || (kb == Zombie && ka == Player)
  }

  /** Same bodies, same labels. */
  predicate SameKinds(b: map<BodyId, Body>, c: map<BodyId, Body>) {
    c.Keys == b.Keys && forall id :: id in b ==> c[id].kind == b[id].kind
  }

  /** The hitbox `h` strikes the zombie `z`, unless it has struck before. */
  function StrikeZombie(t: Tally, h: BodyId, z: BodyId, now: int): (r: Tally)
    requires h in t.bodies && z in t.bodies && h != z
    ensures SameKinds(t.bodies, r.bodies)
  {
    var hd, zd := t.bodies[h].data, t.bodies[z].data;
    if hd.OfHitbox? && !hd.hitbox.hasHit && zd.OfZombie? then
      var zombie := zd.zombie.(hp := zd.zombie.hp - hd.hitbox.damage);
      Tally(t.bodies[z := t.bodies[z].(data := OfZombie(zombie))]
                    [h := t.bodies[h].(data := OfHitbox(hd.hitbox.(hasHit := true)))],
            t.game.(hitStopEndTime := now + HIT_STOP_DURATION),
            if zombie.hp <= 0 then t.toRemove + [z] else t.toRemove)
    else t
  }

  /** A zombie touches the player `pid`: a hit lands unless the player is invulnerable or a
      hit is still pending, and the game ends when it takes the last hp. */
  function StrikePlayer(t: Tally, pid: BodyId, now: int): (r: Tally)
    requires pid in t.bodies
    ensures SameKinds(t.bodies, r.bodies)
  {
    var pd := t.bodies[pid].data;
    if pd.OfPlayer? && !pd.player.isInvulnerable && !Truthy(pd.player.lastHitTime) then
      var player := pd.player.(hp := pd.player.hp - ZOMBIE_DAMAGE, lastHitTime := Some(now));
      Tally(t.bodies[pid := t.bodies[pid].(data := OfPlayer(player))],
            t.game.(hitStopEndTime := now + HIT_STOP_DURATION,
                    isGameOver := if player.hp <= 0 then true else t.game.isGameOver),
            t.toRemove)
    else t
  }

  /** Both checks of one pair, in the order the loop body makes them. */
  function ResolvePair(t: Tally, p: Pair, pid: BodyId, now: int): (r: Tally)
    requires p.a in t.bodies && p.b in t.bodies && pid in t.bodies
    ensures SameKinds(t.bodies, r.bodies)
  {
    var ka := t.bodies[p.a].kind;
    var t1 := if Slash(t.bodies, p) then
        StrikeZombie(t, if ka == PlayerHitbox then p.a else p.b, if ka == Zombie then p.a else p.b, now)
      else t;
    if Bite(t.bodies, p) then StrikePlayer(t1, pid, now) else t1
  }

  /** The pair loop. */
  function ResolveAll(t: Tally, pairs: seq<Pair>, pid: BodyId, now: int): (r: Tally)
    requires PairsIn(pairs, t.bodies.Keys) && pid in t.bodies
    ensures SameKinds(t.bodies, r.bodies)
    decreases |pairs|
  {
    if pairs == [] then t
    else
      var t1 := ResolvePair(t, pairs[0], pid, now);
      assert PairsIn(pairs[1..], t1.bodies.Keys) by {
        forall p | p in pairs[1..] ensures p.a in t1.bodies && p.b in t1.bodies {
          assert p in pairs;
        }
      }
      ResolveAll(t1, pairs[1..], pid, now)
  }

  /** What the pair loop may change in a payload: zombie hp, a hitbox's `hasHit` (set,
      never cleared), player hp and `lastHitTime`; nothing else. */
  predicate Evolves(d: GameData, e: GameData) {
    match d
    case OfZombie(z) => e.OfZombie? && e.zombie == z.(hp := e.zombie.hp)
    case OfHitbox(h) => e.OfHitbox? && e.hitbox == h.(hasHit := e.hitbox.hasHit) && (h.hasHit ==> e.hitbox.hasHit)
    case OfPlayer(p) => e.OfPlayer? && e.player == p.(hp := e.player.hp, lastHitTime := e.player.lastHitTime)
    case _ => e == d
  }

  /** What the pair loop may change: payloads along `Evolves`, the hit-stop end time, the
      game-over flag (set only) and the removal queue (appended to only). */
  predicate Progress(t: Tally, r: Tally) {
    && r.bodies.Keys == t.bodies.Keys
    && (forall id :: id in t.bodies ==>
          && r.bodies[id] == t.bodies[id].(data := r.bodies[id].data)
          && Evolves(t.bodies[id].data, r.bodies[id].data))
    && r.game == t.game.(hitStopEndTime := r.game.hitStopEndTime, isGameOver := r.game.isGameOver)
    && (t.game.isGameOver ==> r.game.isGameOver)
    && t.toRemove <= r.toRemove
  }

  lemma EvolvesRefl(d: GameData)
    ensures Evolves(d, d)
  {
    match d
    case OfZombie(z) =>
    case OfHitbox(h) =>
    case OfPlayer(p) =>
    case _ =>
  }

  lemma ProgressTrans(t: Tally, m: Tally, r: Tally)
    requires Progress(t, m) && Progress(m, r)
    ensures Progress(t, r)
  {
    forall id | id in t.bodies
      ensures r.bodies[id] == t.bodies[id].(data := r.bodies[id].data)
      ensures Evolves(t.bodies[id].data, r.bodies[id].data)
    {
      assert Evolves(t.bodies[id].data, m.bodies[id].data) && Evolves(m.bodies[id].data, r.bodies[id].data);
    }
  }

  /** Changing one body's payload along `Evolves` is progress. */
  lemma ProgressOne(t: Tally, id: BodyId, d: GameData, r: Tally)
    requires id in t.bodies && Evolves(t.bodies[id].data, d)
    requires r.bodies == t.bodies[id := t.bodies[id].(data := d)]
    requires r.game == t.game.(hitStopEndTime := r.game.hitStopEndTime, isGameOver := r.game.isGameOver)
    requires t.game.isGameOver ==> r.game.isGameOver
    requires t.toRemove <= r.toRemove
    ensures Progress(t, r)
  {
    forall j | j in t.bodies && j != id
      ensures Evolves(t.bodies[j].data, r.bodies[j].data)
    {
      EvolvesRefl(t.bodies[j].data);
    }
  }

  lemma StrikeZombieProgress(t: Tally, h: BodyId, z: BodyId, now: int)
    requires h in t.bodies && z in t.bodies && h != z
    ensures Progress(t, StrikeZombie(t, h, z, now))
  {
    var hd, zd := t.bodies[h].data, t.bodies[z].data;
    if hd.OfHitbox? && !hd.hitbox.hasHit && zd.OfZombie? {
      StrikeHitProgress(t, h, z, now);
    } else {
      EvolvesRefl(hd);
      ProgressOne(t, h, hd, t);
    }
  }

  lemma StrikeHitProgress(t: Tally, h: BodyId, z: BodyId, now: int)
    requires h in t.bodies && z in t.bodies && h != z
    requires t.bodies[h].data.OfHitbox? && !t.bodies[h].data.hitbox.hasHit && t.bodies[z].data.OfZombie?
    ensures Progress(t, StrikeZombie(t, h, z, now))
  {
    var r := StrikeZombie(t, h, z, now);
    forall id | id in t.bodies
      ensures r.bodies[id] == t.bodies[id].(data := r.bodies[id].data)
      ensures Evolves(t.bodies[id].data, r.bodies[id].data)
    {
      if id != h && id != z {
        EvolvesRefl(t.bodies[id].data);
      }
    }
  }

  lemma StrikePlayerProgress(t: Tally, pid: BodyId, now: int)
    requires pid in t.bodies
    ensures Progress(t, StrikePlayer(t, pid, now))
  {
    var r := StrikePlayer(t, pid, now);
    var pd := t.bodies[pid].data;
    if pd.OfPlayer? && !pd.player.isInvulnerable && !Truthy(pd.player.lastHitTime) {
      ProgressOne(t, pid, r.bodies[pid].data, r);
    } else {
      EvolvesRefl(pd);
      ProgressOne(t, pid, pd, r);
    }
  }

  lemma PairProgress(t: Tally, p: Pair, pid: BodyId, now: int)
    requires p.a in t.bodies && p.b in t.bodies && pid in t.bodies
    ensures Progress(t, ResolvePair(t, p, pid, now))
  {
    var ka := t.bodies[p.a].kind;
    var t1 := t;
    EvolvesRefl(t.bodies[pid].data);
    ProgressOne(t, pid, t.bodies[pid].data, t);
    if Slash(t.bodies, p) {
      var h, z := if ka == PlayerHitbox then p.a else p.b, if ka == Zombie then p.a else p.b;
      t1 := StrikeZombie(t, h, z, now);
      StrikeZombieProgress(t, h, z, now);
    }
    if Bite(t.bodies, p) {
      StrikePlayerProgress(t1, pid, now);
      ProgressTrans(t, t1, StrikePlayer(t1, pid, now));
    }
  }

  /** The whole loop changes only what `Progress` allows. */
  lemma {:induction false} LoopProgress(t: Tally, pairs: seq<Pair>, pid: BodyId, now: int)
    requires PairsIn(pairs, t.bodies.Keys) && pid in t.bodies
    ensures Progress(t, ResolveAll(t, pairs, pid, now))
    decreases |pairs|
  {
    if pairs == [] {
      EvolvesRefl(t.bodies[pid].data);
      ProgressOne(t, pid, t.bodies[pid].data, t);
    } else {
      var t1 := ResolvePair(t, pairs[0], pid, now);
      PairProgress(t, pairs[0], pid, now);
      assert PairsIn(pairs[1..], t1.bodies.Keys) by {
        forall p | p in pairs[1..] ensures p.a in t1.bodies && p.b in t1.bodies {
          assert p in pairs;
        }
      }
      LoopProgress(t1, pairs[1..], pid, now);
      ProgressTrans(t, t1, ResolveAll(t1, pairs[1..], pid, now));
    }
  }

  /** Every hitbox payload deals positive damage. */
  predicate Armed(bodies: map<BodyId, Body>) {
    forall id :: id in bodies && bodies[id].data.OfHitbox? ==> bodies[id].data.hitbox.damage > 0
  }

  lemma ArmedKept(t: Tally, r: Tally)
    requires Progress(t, r) && Armed(t.bodies)
    ensures Armed(r.bodies)
  {
    forall id | id in r.bodies && r.bodies[id].data.OfHitbox?
      ensures r.bodies[id].data.hitbox.damage > 0
    {
      assert Evolves(t.bodies[id].data, r.bodies[id].data);
    }
  }

  function ZombieHp(b: Body): int
    requires b.data.OfZombie?
  {
    b.data.zombie.hp
  }

  /** No zombie gains hp. */
  predicate HpDown(t: Tally, r: Tally) {
    && r.bodies.Keys == t.bodies.Keys
    && forall id :: id in t.bodies ==>
         && (r.bodies[id].data.OfZombie? <==> t.bodies[id].data.OfZombie?)
         && (t.bodies[id].data.OfZombie? ==> ZombieHp(r.bodies[id]) <= ZombieHp(t.bodies[id]))
  }

  /** The zombie `id` lost hp between `t` and `r`. */
  predicate Dropped(t: Tally, r: Tally, id: BodyId) {
    && id in t.bodies && t.bodies[id].data.OfZombie?
    && id in r.bodies && r.bodies[id].data.OfZombie?
    && ZombieHp(r.bodies[id]) < ZombieHp(t.bodies[id])
  }

  /** Everything the queue gained is a zombie whose hp went down to zero or below. */
  predicate QueueSound(t: Tally, r: Tally) {
    && t.toRemove <= r.toRemove
    && forall i :: |t.toRemove| <= i < |r.toRemove| ==>
         Dropped(t, r, r.toRemove[i]) && ZombieHp(r.bodies[r.toRemove[i]]) <= 0
  }

  /** Every zombie whose hp went down to zero or below is queued. */
  predicate QueueComplete(t: Tally, r: Tally) {
    forall id :: id in t.bodies && Dropped(t, r, id) && ZombieHp(r.bodies[id]) <= 0 ==> id in r.toRemove
  }

  predicate QueueExact(t: Tally, r: Tally) {
    QueueSound(t, r) && QueueComplete(t, r)
  }

  lemma PairArmed(t: Tally, p: Pair, pid: BodyId, now: int)
    requires p.a in t.bodies && p.b in t.bodies && pid in t.bodies && Armed(t.bodies)
    ensures Armed(ResolvePair(t, p, pid, now).bodies)
  {
    PairProgress(t, p, pid, now);
    ArmedKept(t, ResolvePair(t, p, pid, now));
  }

  lemma StrikeZombieQueue(t: Tally, h: BodyId, z: BodyId, now: int)
    requires h in t.bodies && z in t.bodies && h != z && Armed(t.bodies)
    ensures var r := StrikeZombie(t, h, z, now); HpDown(t, r) && QueueExact(t, r)
  {
  }

  lemma StrikePlayerQueue(t: Tally, pid: BodyId, now: int)
    requires pid in t.bodies
    ensures var r := StrikePlayer(t, pid, now);
      && r.toRemove == t.toRemove
      && forall id :: id in t.bodies && t.bodies[id].data.OfZombie? ==> r.bodies[id] == t.bodies[id]
  {
  }

  lemma PairQueue(t: Tally, p: Pair, pid: BodyId, now: int)
    requires p.a in t.bodies && p.b in t.bodies && pid in t.bodies && Armed(t.bodies)
    ensures var r := ResolvePair(t, p, pid, now); HpDown(t, r) && QueueExact(t, r)
  {
    var ka := t.bodies[p.a].kind;
    var t1 := t;
    if Slash(t.bodies, p) {
      var h, z := if ka == PlayerHitbox then p.a else p.b, if ka == Zombie then p.a else p.b;
      t1 := StrikeZombie(t, h, z, now);
      StrikeZombieQueue(t, h, z, now);
    }
    assert HpDown(t, t1) && QueueExact(t, t1);
    if Bite(t.bodies, p) {
      var r := StrikePlayer(t1, pid, now);
      StrikePlayerQueue(t1, pid, now);
      assert forall id :: Dropped(t, r, id) <==> Dropped(t, t1, id);
    }
  }

  lemma PairHpDown(t: Tally, p: Pair, pid: BodyId, now: int)
    requires p.a in t.bodies && p.b in t.bodies && pid in t.bodies && Armed(t.bodies)
    ensures var r := ResolvePair(t, p, pid, now); HpDown(t, r) && t.toRemove <= r.toRemove
  {
    PairQueue(t, p, pid, now);
  }

  lemma PairQueueSound(t: Tally, p: Pair, pid: BodyId, now: int)
    requires p.a in t.bodies && p.b in t.bodies && pid in t.bodies && Armed(t.bodies)
    ensures QueueSound(t, ResolvePair(t, p, pid, now))
  {
    PairQueue(t, p, pid, now);
  }

  lemma PairQueueComplete(t: Tally, p: Pair, pid: BodyId, now: int)
    requires p.a in t.bodies && p.b in t.bodies && pid in t.bodies && Armed(t.bodies)
    ensures QueueComplete(t, ResolvePair(t, p, pid, now))
  {
    PairQueue(t, p, pid, now);
  }

  /** The loop's first step and the rest. */
  lemma LoopUnroll(t: Tally, pairs: seq<Pair>, pid: BodyId, now: int)
    requires PairsIn(pairs, t.bodies.Keys) && pid in t.bodies && pairs != []
    ensures var t1 := ResolvePair(t, pairs[0], pid, now);
      && PairsIn(pairs[1..], t1.bodies.Keys)
      && ResolveAll(t, pairs, pid, now) == ResolveAll(t1, pairs[1..], pid, now)
  {
    var t1 := ResolvePair(t, pairs[0], pid, now);
    forall p | p in pairs[1..] ensures p.a in t1.bodies && p.b in t1.bodies {
      assert p in pairs;
    }
  }

  /** Over the whole loop no zombie gains hp and the queue is only appended to. */
  lemma {:induction false} LoopHpDown(t: Tally, pairs: seq<Pair>, pid: BodyId, now: int)
    requires PairsIn(pairs, t.bodies.Keys) && pid in t.bodies && Armed(t.bodies)
    ensures var r := ResolveAll(t, pairs, pid, now); HpDown(t, r) && t.toRemove <= r.toRemove
    decreases |pairs|
  {
    if pairs != [] {
      var t1 := ResolvePair(t, pairs[0], pid, now);
      LoopUnroll(t, pairs, pid, now);
      PairHpDown(t, pairs[0], pid, now);
      PairArmed(t, pairs[0], pid, now);
      LoopHpDown(t1, pairs[1..], pid, now);
    }
  }

  /** Over the whole loop the queue gains only zombies the loop brought to zero hp or below. */
  lemma {:induction false} LoopQueueSound(t: Tally, pairs: seq<Pair>, pid: BodyId, now: int)
    requires PairsIn(pairs, t.bodies.Keys) && pid in t.bodies && Armed(t.bodies)
    ensures QueueSound(t, ResolveAll(t, pairs, pid, now))
    decreases |pairs|
  {
    if pairs != [] {
      var t1 := ResolvePair(t, pairs[0], pid, now);
      LoopUnroll(t, pairs, pid, now);
      PairQueueSound(t, pairs[0], pid, now);
      PairHpDown(t, pairs[0], pid, now);
      PairArmed(t, pairs[0], pid, now);
      LoopQueueSound(t1, pairs[1..], pid, now);
      LoopHpDown(t1, pairs[1..], pid, now);
      SoundTrans(t, t1, ResolveAll(t1, pairs[1..], pid, now));
    }
  }

  lemma SoundTrans(t: Tally, m: Tally, r: Tally)
    requires QueueSound(t, m) && QueueSound(m, r) && HpDown(t, m) && HpDown(m, r)
    ensures QueueSound(t, r)
  {
    forall i | |t.toRemove| <= i < |r.toRemove|
      ensures Dropped(t, r, r.toRemove[i]) && ZombieHp(r.bodies[r.toRemove[i]]) <= 0
    {
      var id := r.toRemove[i];
      if i < |m.toRemove| {
        assert id == m.toRemove[i];
        assert Dropped(t, m, id) && ZombieHp(m.bodies[id]) <= 0;
      } else {
        assert Dropped(m, r, id) && ZombieHp(r.bodies[id]) <= 0;
      }
    }
  }

  /** Over the whole loop every zombie it brought to zero hp or below is queued. */
  lemma {:induction false} LoopQueueComplete(t: Tally, pairs: seq<Pair>, pid: BodyId, now: int)
    requires PairsIn(pairs, t.bodies.Keys) && pid in t.bodies && Armed(t.bodies)
    ensures QueueComplete(t, ResolveAll(t, pairs, pid, now))
    decreases |pairs|
  {
    if pairs != [] {
      var t1 := ResolvePair(t, pairs[0], pid, now);
      LoopUnroll(t, pairs, pid, now);
      PairQueueComplete(t, pairs[0], pid, now);
      PairHpDown(t, pairs[0], pid, now);
      PairArmed(t, pairs[0], pid, now);
      LoopQueueComplete(t1, pairs[1..], pid, now);
      LoopHpDown(t1, pairs[1..], pid, now);
      var r := ResolveAll(t1, pairs[1..], pid, now);
      forall id | id in t.bodies && Dropped(t, r, id) && ZombieHp(r.bodies[id]) <= 0
        ensures id in r.toRemove
      {
        if !Dropped(t1, r, id) {
          assert Dropped(t, t1, id);
        }
      }
    }
  }

  /** The number of zombie-player pairs. */
  function Bites(bodies: map<BodyId, Body>, pairs: seq<Pair>): nat
    requires PairsIn(pairs, bodies.Keys)
  {
    if pairs == [] then 0
    else (if Bite(bodies, pairs[0]) then 1 else 0) + Bites(bodies, pairs[1..])
  }

  lemma {:induction false} BitesSameKinds(b: map<BodyId, Body>, c: map<BodyId, Body>, pairs: seq<Pair>)
    requires SameKinds(b, c) && PairsIn(pairs, b.Keys)
    ensures PairsIn(pairs, c.Keys) && Bites(c, pairs) == Bites(b, pairs)
  {
    if pairs != [] {
      assert PairsIn(pairs[1..], b.Keys) by {
        forall p | p in pairs[1..] ensures p.a in b && p.b in b {
          assert p in pairs;
        }
      }
      BitesSameKinds(b, c, pairs[1..]);
    }
  }

  /** A zombie's touch lands on this payload: the player is neither invulnerable nor has a
      hit pending. */
  predicate Open(d: GameData) {
    d.OfPlayer? && !d.player.isInvulnerable && !Truthy(d.player.lastHitTime)
  }

  /** The player's record after one more landed hit at `now`. */
  function Hit(b: Body, now: int): Body
    requires b.data.OfPlayer?
  {
    b.(data := OfPlayer(b.data.player.(hp := b.data.player.hp - ZOMBIE_DAMAGE, lastHitTime := Some(now))))
  }

  lemma PairPlayer(t: Tally, p: Pair, pid: BodyId, now: int)
    requires p.a in t.bodies && p.b in t.bodies && pid in t.bodies && t.bodies[pid].kind == Player
    ensures var r, b := ResolvePair(t, p, pid, now), t.bodies[pid];
      && (Bite(t.bodies, p) && Open(b.data) ==>
            r.bodies[pid] == Hit(b, now)
            && (r.game.isGameOver <==> t.game.isGameOver || Hit(b, now).data.player.hp <= 0))
      && (!(Bite(t.bodies, p) && Open(b.data)) ==>
            r.bodies[pid] == b && r.game.isGameOver == t.game.isGameOver)
  {
  }

  /** With no zombie contact, or while no hit can land, the loop leaves the player alone. */
  lemma {:induction false} LoopPlayerIdle(t: Tally, pairs: seq<Pair>, pid: BodyId, now: int)
    requires PairsIn(pairs, t.bodies.Keys) && pid in t.bodies && t.bodies[pid].kind == Player
    requires Bites(t.bodies, pairs) == 0 || !Open(t.bodies[pid].data)
    ensures var r := ResolveAll(t, pairs, pid, now);
      r.bodies[pid] == t.bodies[pid] && r.game.isGameOver == t.game.isGameOver
    decreases |pairs|
  {
    if pairs != [] {
      var t1 := ResolvePair(t, pairs[0], pid, now);
      LoopUnroll(t, pairs, pid, now);
      PairPlayer(t, pairs[0], pid, now);
      BitesSameKinds(t.bodies, t1.bodies, pairs[1..]);
      LoopPlayerIdle(t1, pairs[1..], pid, now);
    }
  }

  /** The player's record after `hits` landed hits, the last at `now`. */
  function AfterHits(b: Body, hits: int, now: int): Body
    requires b.data.OfPlayer?
  {
    b.(data := OfPlayer(b.data.player.(hp := b.data.player.hp - ZOMBIE_DAMAGE * hits, lastHitTime := Some(now))))
  }

  /** While a hit can land, the player takes one hit per zombie contact at time zero (a hit
      recorded at time zero does not block the next), and exactly one otherwise (the hit it
      records blocks the rest); the game ends exactly when a hit takes the last hp. */
  lemma {:induction false} LoopPlayerHit(t: Tally, pairs: seq<Pair>, pid: BodyId, now: int)
    requires PairsIn(pairs, t.bodies.Keys) && pid in t.bodies && t.bodies[pid].kind == Player
    requires Bites(t.bodies, pairs) > 0 && Open(t.bodies[pid].data)
    ensures PlayerHitOutcome(t, ResolveAll(t, pairs, pid, now), pid, Bites(t.bodies, pairs), now)
    decreases |pairs|, 2
  {
    if !Bite(t.bodies, pairs[0]) {
      MissThenHit(t, pairs, pid, now);
    } else {
      HitFirst(t, pairs, pid, now);
    }
  }

  /** The outcome `LoopPlayerHit` states, for `n` zombie contacts. */
  predicate PlayerHitOutcome(t: Tally, r: Tally, pid: BodyId, n: int, now: int)
    requires pid in t.bodies && t.bodies[pid].data.OfPlayer? && pid in r.bodies
  {
    var hits := if now == 0 then n else 1;
    && r.bodies[pid] == AfterHits(t.bodies[pid], hits, now)
    && (r.game.isGameOver <==> t.game.isGameOver || AfterHits(t.bodies[pid], hits, now).data.player.hp <= 0)
  }

  lemma {:induction false} MissThenHit(t: Tally, pairs: seq<Pair>, pid: BodyId, now: int)
    requires PairsIn(pairs, t.bodies.Keys) && pid in t.bodies && t.bodies[pid].kind == Player
    requires Bites(t.bodies, pairs) > 0 && Open(t.bodies[pid].data) && !Bite(t.bodies, pairs[0])
    ensures PlayerHitOutcome(t, ResolveAll(t, pairs, pid, now), pid, Bites(t.bodies, pairs), now)
    decreases |pairs|, 0
  {
    var t1 := ResolvePair(t, pairs[0], pid, now);
    LoopUnroll(t, pairs, pid, now);
    PairPlayer(t, pairs[0], pid, now);
    BitesSameKinds(t.bodies, t1.bodies, pairs[1..]);
    LoopPlayerHit(t1, pairs[1..], pid, now);
  }

  lemma HitFirst(t: Tally, pairs: seq<Pair>, pid: BodyId, now: int)
    requires PairsIn(pairs, t.bodies.Keys) && pid in t.bodies && t.bodies[pid].kind == Player
    requires Bites(t.bodies, pairs) > 0 && Open(t.bodies[pid].data) && Bite(t.bodies, pairs[0])
    ensures PlayerHitOutcome(t, ResolveAll(t, pairs, pid, now), pid, Bites(t.bodies, pairs), now)
    decreases |pairs|, 1
  {
    if now != 0 || Bites(t.bodies, pairs) == 1 {
      HitOnce(t, pairs, pid, now);
    } else {
      HitAgain(t, pairs, pid, now);
    }
  }

  lemma HitOnce(t: Tally, pairs: seq<Pair>, pid: BodyId, now: int)
    requires PairsIn(pairs, t.bodies.Keys) && pid in t.bodies && t.bodies[pid].kind == Player
    requires Bites(t.bodies, pairs) > 0 && Open(t.bodies[pid].data) && Bite(t.bodies, pairs[0])
    requires now != 0 || Bites(t.bodies, pairs) == 1
    ensures PlayerHitOutcome(t, ResolveAll(t, pairs, pid, now), pid, Bites(t.bodies, pairs), now)
  {
    var t1 := ResolvePair(t, pairs[0], pid, now);
    LoopUnroll(t, pairs, pid, now);
    PairPlayer(t, pairs[0], pid, now);
    BitesSameKinds(t.bodies, t1.bodies, pairs[1..]);
    assert Hit(t.bodies[pid], now) == AfterHits(t.bodies[pid], 1, now);
    LoopPlayerIdle(t1, pairs[1..], pid, now);
  }

  lemma {:induction false} HitAgain(t: Tally, pairs: seq<Pair>, pid: BodyId, now: int)
    requires PairsIn(pairs, t.bodies.Keys) && pid in t.bodies && t.bodies[pid].kind == Player
    requires Bites(t.bodies, pairs) > 1 && Open(t.bodies[pid].data) && Bite(t.bodies, pairs[0])
    requires now == 0
    ensures PlayerHitOutcome(t, ResolveAll(t, pairs, pid, now), pid, Bites(t.bodies, pairs), now)
    decreases |pairs|, 0
  {
    var t1 := ResolvePair(t, pairs[0], pid, now);
    LoopUnroll(t, pairs, pid, now);
    PairPlayer(t, pairs[0], pid, now);
    BitesSameKinds(t.bodies, t1.bodies, pairs[1..]);
    var b, n := t.bodies[pid], Bites(t.bodies, pairs);
    assert t1.bodies[pid] == Hit(b, now);
    assert Bites(t1.bodies, pairs[1..]) == n - 1;
    LoopPlayerHit(t1, pairs[1..], pid, now);
    AfterHitsShift(b, n, now);
  }

  lemma AfterHitsShift(b: Body, n: int, now: int)
    requires b.data.OfPlayer?
    ensures AfterHits(Hit(b, now), n - 1, now) == AfterHits(b, n, now)
    ensures AfterHits(b, n, now).data.player.hp == Hit(b, now).data.player.hp - ZOMBIE_DAMAGE * (n - 1)
  {
  }

  function PlayerHp(b: Body): int
    requires b.data.OfPlayer?
  {
    b.data.player.hp
  }

  /** Something was damaged between `t` and `r`: a zombie or the player lost hp. */
  predicate Struck(t: Tally, r: Tally, pid: BodyId)
    requires pid in t.bodies && t.bodies[pid].data.OfPlayer?
    requires pid in r.bodies && r.bodies[pid].data.OfPlayer?
  {
    (exists id :: id in t.bodies && Dropped(t, r, id)) || PlayerHp(r.bodies[pid]) < PlayerHp(t.bodies[pid])
  }

  /** The player loses no hp and keeps its payload kind. */
  predicate PlayerDown(t: Tally, r: Tally, pid: BodyId) {
    && pid in t.bodies && t.bodies[pid].data.OfPlayer?
    && pid in r.bodies && r.bodies[pid].data.OfPlayer?
    && PlayerHp(r.bodies[pid]) <= PlayerHp(t.bodies[pid])
  }

  lemma LoopPlayerDown(t: Tally, pairs: seq<Pair>, pid: BodyId, now: int)
    requires PairsIn(pairs, t.bodies.Keys) && pid in t.bodies
    requires t.bodies[pid].kind == Player && t.bodies[pid].data.OfPlayer?
    ensures PlayerDown(t, ResolveAll(t, pairs, pid, now), pid)
  {
    if Bites(t.bodies, pairs) == 0 || !Open(t.bodies[pid].data) {
      LoopPlayerIdle(t, pairs, pid, now);
    } else {
      LoopPlayerHit(t, pairs, pid, now);
    }
  }

  lemma PairHitStop(t: Tally, p: Pair, pid: BodyId, now: int)
    requires p.a in t.bodies && p.b in t.bodies && pid in t.bodies && Armed(t.bodies)
    requires t.bodies[pid].kind == Player && t.bodies[pid].data.OfPlayer?
    ensures var r := ResolvePair(t, p, pid, now);
      && PlayerDown(t, r, pid)
      && r.game.hitStopEndTime == if Struck(t, r, pid) then now + HIT_STOP_DURATION else t.game.hitStopEndTime
  {
    var r := ResolvePair(t, p, pid, now);
    PairPlayer(t, p, pid, now);
    PairQueue(t, p, pid, now);
    var ka := t.bodies[p.a].kind;
    var t1 := t;
    if Slash(t.bodies, p) {
      var h, z := if ka == PlayerHitbox then p.a else p.b, if ka == Zombie then p.a else p.b;
      t1 := StrikeZombie(t, h, z, now);
      var hd, zd := t.bodies[h].data, t.bodies[z].data;
      if hd.OfHitbox? && !hd.hitbox.hasHit && zd.OfZombie? {
        assert Dropped(t, t1, z);
        StrikePlayerQueue(t1, pid, now);
        assert Dropped(t, r, z);
      } else {
        assert t1 == t;
      }
    }
  }

  lemma StruckTrans(t: Tally, m: Tally, r: Tally, pid: BodyId)
    requires HpDown(t, m) && HpDown(m, r) && PlayerDown(t, m, pid) && PlayerDown(m, r, pid)
    ensures Struck(t, r, pid) <==> Struck(t, m, pid) || Struck(m, r, pid)
  {
    if Struck(t, r, pid) && PlayerHp(r.bodies[pid]) >= PlayerHp(t.bodies[pid]) {
      var id :| id in t.bodies && Dropped(t, r, id);
      if !Dropped(t, m, id) {
        assert Dropped(m, r, id);
      }
    }
    if Struck(t, m, pid) && PlayerHp(m.bodies[pid]) >= PlayerHp(t.bodies[pid]) {
      var id :| id in t.bodies && Dropped(t, m, id);
      assert Dropped(t, r, id);
    }
    if Struck(m, r, pid) && PlayerHp(r.bodies[pid]) >= PlayerHp(m.bodies[pid]) {
      var id :| id in m.bodies && Dropped(m, r, id);
      assert Dropped(t, r, id);
    }
  }

  /** Hit-stop: the loop sets the hit-stop end to `now + HIT_STOP_DURATION` exactly when it
      damages something, and leaves it alone otherwise. */
  lemma {:induction false} LoopHitStop(t: Tally, pairs: seq<Pair>, pid: BodyId, now: int)
    requires PairsIn(pairs, t.bodies.Keys) && pid in t.bodies && Armed(t.bodies)
    requires t.bodies[pid].kind == Player && t.bodies[pid].data.OfPlayer?
    ensures var r := ResolveAll(t, pairs, pid, now);
      && PlayerDown(t, r, pid)
      && r.game.hitStopEndTime == if Struck(t, r, pid) then now + HIT_STOP_DURATION else t.game.hitStopEndTime
    decreases |pairs|
  {
    LoopPlayerDown(t, pairs, pid, now);
    if pairs != [] {
      var t1 := ResolvePair(t, pairs[0], pid, now);
      LoopUnroll(t, pairs, pid, now);
      PairHitStop(t, pairs[0], pid, now);
      PairHpDown(t, pairs[0], pid, now);
      PairArmed(t, pairs[0], pid, now);
      LoopHitStop(t1, pairs[1..], pid, now);
      LoopHpDown(t1, pairs[1..], pid, now);
      StruckTrans(t, t1, ResolveAll(t1, pairs[1..], pid, now), pid);
    } else {
      assert !Struck(t, t, pid);
    }
  }

  /** `hasHit` belongs to the hitbox, not to the pair: a fresh hitbox touching two zombies
      damages only the zombie of the first pair processed. */
  lemma OneStrikePerHitbox(t: Tally, h: BodyId, z1: BodyId, z2: BodyId, pid: BodyId, now: int)
    requires h in t.bodies && z1 in t.bodies && z2 in t.bodies && pid in t.bodies
    requires h != z1 && h != z2 && z1 != z2
    requires t.bodies[h].kind == PlayerHitbox && t.bodies[h].data.OfHitbox? && !t.bodies[h].data.hitbox.hasHit
    requires t.bodies[z1].kind == Zombie && t.bodies[z1].data.OfZombie?
    requires t.bodies[z2].kind == Zombie && t.bodies[z2].data.OfZombie?
    requires t.bodies[pid].kind == Player
    ensures var r := ResolveAll(t, [Pair(h, z1), Pair(z2, h)], pid, now);
      && r.bodies[z1].data.OfZombie?
      && ZombieHp(r.bodies[z1]) == ZombieHp(t.bodies[z1]) - t.bodies[h].data.hitbox.damage
      && r.bodies[z2] == t.bodies[z2]
      && r.bodies[h].data.OfHitbox? && r.bodies[h].data.hitbox.hasHit
  {
    var pairs := [Pair(h, z1), Pair(z2, h)];
    var t1 := ResolvePair(t, pairs[0], pid, now);
    LoopUnroll(t, pairs, pid, now);
    assert t1 == StrikeZombie(t, h, z1, now);
    SpentPair(t1, h, z2, pid, now);
    LoopUnroll(t1, pairs[1..], pid, now);
    assert pairs[1..][1..] == [];
  }

  /** A spent hitbox against a zombie changes nothing. */
  lemma SpentPair(t: Tally, h: BodyId, z: BodyId, pid: BodyId, now: int)
    requires h in t.bodies && z in t.bodies && pid in t.bodies && h != z
    requires t.bodies[h].kind == PlayerHitbox && t.bodies[h].data.OfHitbox? && t.bodies[h].data.hitbox.hasHit
    requires t.bodies[z].kind == Zombie
    ensures ResolvePair(t, Pair(z, h), pid, now) == t
  {
  }

  /** A hitbox that has not struck yet. */
  predicate Fresh(bodies: map<BodyId, Body>, h: BodyId)
    requires h in bodies
  {
    bodies[h].data.OfHitbox? && !bodies[h].data.hitbox.hasHit
  }

  /** The hitbox side of a pair. */
  function HitboxOf(bodies: map<BodyId, Body>, p: Pair): BodyId
    requires p.a in bodies && p.b in bodies
  {
    if bodies[p.a].kind == PlayerHitbox then p.a else p.b
  }

  /** The zombie side of a pair. */
  function ZombieOf(bodies: map<BodyId, Body>, p: Pair): BodyId
    requires p.a in bodies && p.b in bodies
  {
    if bodies[p.a].kind == Zombie then p.a else p.b
  }

  /** A strike by `g` on `z` spends `g` if it was fresh and leaves every other hitbox alone. */
  lemma StrikeOnHitbox(t: Tally, g: BodyId, z: BodyId, now: int, h: BodyId)
    requires g in t.bodies && z in t.bodies && g != z && t.bodies[z].data.OfZombie?
    requires h in t.bodies && h != z && t.bodies[h].data.OfHitbox?
    ensures var b := StrikeZombie(t, g, z, now).bodies;
      && h in b && b[h].data.OfHitbox?
      && b[h].data.hitbox.damage == t.bodies[h].data.hitbox.damage
      && (Fresh(b, h) <==> Fresh(t.bodies, h) && h != g)
  {
  }

  /** A strike by `g` on `z` costs `z` the damage of `g` if `g` was fresh, and leaves every
      other zombie alone. */
  lemma StrikeOnZombie(t: Tally, g: BodyId, z: BodyId, now: int, y: BodyId)
    requires g in t.bodies && z in t.bodies && g != z && t.bodies[z].data.OfZombie?
    requires y in t.bodies && y != g && t.bodies[y].data.OfZombie?
    ensures var b := StrikeZombie(t, g, z, now).bodies;
      && y in b && b[y].data.OfZombie?
      && ZombieHp(b[y]) == ZombieHp(t.bodies[y]) -
           if y == z && Fresh(t.bodies, g) then t.bodies[g].data.hitbox.damage else 0
  {
  }

  /** What one pair does to a hitbox: it is spent by a pair that sets it against a zombie,
      left alone by every other pair, and its damage never changes. */
  lemma PairOnHitbox(t: Tally, p: Pair, pid: BodyId, now: int, h: BodyId)
    requires p.a in t.bodies && p.b in t.bodies && pid in t.bodies && t.bodies[pid].kind == Player
    requires h in t.bodies && t.bodies[h].kind == PlayerHitbox && t.bodies[h].data.OfHitbox?
    requires Slash(t.bodies, p) ==> t.bodies[ZombieOf(t.bodies, p)].data.OfZombie?
    ensures var b := ResolvePair(t, p, pid, now).bodies;
      && h in b && b[h].data.OfHitbox?
      && b[h].data.hitbox.damage == t.bodies[h].data.hitbox.damage
      && (Fresh(b, h) <==> Fresh(t.bodies, h) && !(Slash(t.bodies, p) && HitboxOf(t.bodies, p) == h))
  {
    if Slash(t.bodies, p) {
      StrikeOnHitbox(t, HitboxOf(t.bodies, p), ZombieOf(t.bodies, p), now, h);
    }
  }

  /** What one pair does to a zombie: a pair that sets a fresh hitbox against it costs it that
      hitbox's damage; every other pair leaves its hp alone. */
  lemma PairOnZombie(t: Tally, p: Pair, pid: BodyId, now: int, z: BodyId)
    requires p.a in t.bodies && p.b in t.bodies && pid in t.bodies && t.bodies[pid].kind == Player
    requires z in t.bodies && t.bodies[z].kind == Zombie && t.bodies[z].data.OfZombie?
    requires Slash(t.bodies, p) ==> t.bodies[ZombieOf(t.bodies, p)].data.OfZombie?
    ensures var b := ResolvePair(t, p, pid, now).bodies;
      && z in b && b[z].data.OfZombie?
      && ZombieHp(b[z]) == ZombieHp(t.bodies[z]) -
           if Slash(t.bodies, p) && ZombieOf(t.bodies, p) == z && Fresh(t.bodies, HitboxOf(t.bodies, p))
           then t.bodies[HitboxOf(t.bodies, p)].data.hitbox.damage else 0
  {
    if Slash(t.bodies, p) {
      StrikeOnZombie(t, HitboxOf(t.bodies, p), ZombieOf(t.bodies, p), now, z);
    }
  }

  /** One of the first `n` pairs sets the hitbox `h` against a zombie. */
  predicate Named(bodies: map<BodyId, Body>, pairs: seq<Pair>, h: BodyId, n: nat)
    requires PairsIn(pairs, bodies.Keys) && n <= |pairs|
  {
    exists j :: 0 <= j < n && Slash(bodies, pairs[j]) && HitboxOf(bodies, pairs[j]) == h
  }

  /** Pair `i` is the first to set its hitbox against a zombie. */
  predicate FirstSlash(bodies: map<BodyId, Body>, pairs: seq<Pair>, i: nat)
    requires PairsIn(pairs, bodies.Keys) && i < |pairs|
  {
    Slash(bodies, pairs[i]) && !Named(bodies, pairs, HitboxOf(bodies, pairs[i]), i)
  }

  /** The hp the zombie `z` is owed over the first `n` pairs: every hitbox fresh in `bodies`
      deals its damage once, to the zombie of the first pair that sets it against one. */
  function Dealt(bodies: map<BodyId, Body>, pairs: seq<Pair>, z: BodyId, n: nat): int
    requires PairsIn(pairs, bodies.Keys) && n <= |pairs|
  {
    if n == 0 then 0 else Dealt(bodies, pairs, z, n - 1) + Gain(bodies, pairs, z, n - 1)
  }

  /** What pair `i` owes the zombie `z`: the damage of its hitbox, when the pair is the first to
      set that hitbox, fresh in `bodies`, against a zombie, and that zombie is `z`. */
  function Gain(bodies: map<BodyId, Body>, pairs: seq<Pair>, z: BodyId, i: nat): int
    requires PairsIn(pairs, bodies.Keys) && i < |pairs|
  {
    var p := pairs[i];
    var h := HitboxOf(bodies, p);
    if FirstSlash(bodies, pairs, i) && ZombieOf(bodies, p) == z && Fresh(bodies, h)
    then bodies[h].data.hitbox.damage else 0
  }

  /** A hitbox has at most one first pair, so it deals damage at most once. */
  lemma FirstSlashOnce(bodies: map<BodyId, Body>, pairs: seq<Pair>, i: nat, j: nat)
    requires PairsIn(pairs, bodies.Keys) && i < j < |pairs|
    requires FirstSlash(bodies, pairs, i) && FirstSlash(bodies, pairs, j)
    ensures HitboxOf(bodies, pairs[i]) != HitboxOf(bodies, pairs[j])
  {
  }

  /** Pair `n - 1` names `h` exactly when it sets `h` against a zombie. */
  lemma NamedNext(bodies: map<BodyId, Body>, pairs: seq<Pair>, n: nat, h: BodyId)
    requires PairsIn(pairs, bodies.Keys) && 0 < n <= |pairs|
    ensures pairs[n - 1].a in bodies && pairs[n - 1].b in bodies
    ensures Named(bodies, pairs, h, n) <==>
      Named(bodies, pairs, h, n - 1) || (Slash(bodies, pairs[n - 1]) && HitboxOf(bodies, pairs[n - 1]) == h)
  {
    assert pairs[n - 1] in pairs;
    if Named(bodies, pairs, h, n) {
      var j :| 0 <= j < n && Slash(bodies, pairs[j]) && HitboxOf(bodies, pairs[j]) == h;
      if j < n - 1 {
        assert Named(bodies, pairs, h, n - 1);
      }
    }
    if Slash(bodies, pairs[n - 1]) && HitboxOf(bodies, pairs[n - 1]) == h {
      assert Named(bodies, pairs, h, n);
    }
  }

  /** Every payload matches its body's label. */
  predicate Typed(bodies: map<BodyId, Body>) {
    forall id :: id in bodies ==> DataMatches(bodies[id])
  }

  /** One pair keeps every payload matching its label. */
  lemma PairTyped(t: Tally, p: Pair, pid: BodyId, now: int)
    requires p.a in t.bodies && p.b in t.bodies && pid in t.bodies && Typed(t.bodies)
    ensures Typed(ResolvePair(t, p, pid, now).bodies)
  {
    var r := ResolvePair(t, p, pid, now);
    PairProgress(t, p, pid, now);
    forall id | id in r.bodies ensures DataMatches(r.bodies[id]) {
      assert DataMatches(t.bodies[id]);
      assert Evolves(t.bodies[id].data, r.bodies[id].data);
    }
  }

  /** From `b` to `c`, the pair `p` did to the hitbox `h` what `PairOnHitbox` says. */
  predicate HitboxStep(b: map<BodyId, Body>, p: Pair, c: map<BodyId, Body>, h: BodyId)
    requires p.a in b && p.b in b && h in b && b[h].data.OfHitbox?
  {
    && h in c && c[h].data.OfHitbox?
    && c[h].data.hitbox.damage == b[h].data.hitbox.damage
    && (Fresh(c, h) <==> Fresh(b, h) && !(Slash(b, p) && HitboxOf(b, p) == h))
  }

  /** From `b` to `c`, the pair `p` did to the zombie `z` what `PairOnZombie` says. */
  predicate ZombieStep(b: map<BodyId, Body>, p: Pair, c: map<BodyId, Body>, z: BodyId)
    requires p.a in b && p.b in b && z in b && b[z].data.OfZombie?
  {
    && z in c && c[z].data.OfZombie?
    && ZombieHp(c[z]) == ZombieHp(b[z]) -
         if Slash(b, p) && ZombieOf(b, p) == z && Fresh(b, HitboxOf(b, p))
         then b[HitboxOf(b, p)].data.hitbox.damage else 0
  }

  /** From `b` to `c`, the pair `p` did to every hitbox and zombie what it does to each. */
  predicate Step(b: map<BodyId, Body>, p: Pair, c: map<BodyId, Body>)
    requires p.a in b && p.b in b
  {
    && (forall h {:trigger HitboxStep(b, p, c, h)} :: h in b && b[h].data.OfHitbox? ==> HitboxStep(b, p, c, h))
    && (forall z {:trigger ZombieStep(b, p, c, z)} :: z in b && b[z].data.OfZombie? ==> ZombieStep(b, p, c, z))
  }

  /** One pair of the loop is a step. */
  lemma PairStep(t: Tally, p: Pair, pid: BodyId, now: int)
    requires p.a in t.bodies && p.b in t.bodies && pid in t.bodies && t.bodies[pid].kind == Player
    requires Typed(t.bodies)
    ensures Step(t.bodies, p, ResolvePair(t, p, pid, now).bodies)
  {
    var c := ResolvePair(t, p, pid, now).bodies;
    if Slash(t.bodies, p) {
      assert DataMatches(t.bodies[ZombieOf(t.bodies, p)]);
    }
    forall h | h in t.bodies && t.bodies[h].data.OfHitbox? ensures HitboxStep(t.bodies, p, c, h) {
      assert DataMatches(t.bodies[h]);
      PairOnHitbox(t, p, pid, now, h);
    }
    forall z | z in t.bodies && t.bodies[z].data.OfZombie? ensures ZombieStep(t.bodies, p, c, z) {
      assert DataMatches(t.bodies[z]);
      PairOnZombie(t, p, pid, now, z);
    }
  }

  /** The body maps the pair loop passes through, `tr[i]` before pair `i`, each the step of its
      pair from the one before. */
  predicate Trace(b0: map<BodyId, Body>, pairs: seq<Pair>, tr: seq<map<BodyId, Body>>)
    requires PairsIn(pairs, b0.Keys)
  {
    && |tr| == |pairs| + 1 && tr[0] == b0
    && (forall i :: 0 <= i < |tr| ==> SameKinds(b0, tr[i]) && Typed(tr[i]))
    && (forall i :: 0 <= i < |pairs| ==> pairs[i] in pairs && Step(tr[i], pairs[i], tr[i + 1]))
  }

  /** The pair loop, body map by body map; the last is the loop's result. */
  function Run(t: Tally, pairs: seq<Pair>, pid: BodyId, now: int): (tr: seq<map<BodyId, Body>>)
    requires PairsIn(pairs, t.bodies.Keys) && pid in t.bodies
    ensures |tr| == |pairs| + 1 && tr[0] == t.bodies && tr[|pairs|] == ResolveAll(t, pairs, pid, now).bodies
    ensures forall i :: 0 <= i < |tr| ==> SameKinds(t.bodies, tr[i])
    decreases |pairs|
  {
    if pairs == [] then [t.bodies]
    else
      var t1 := ResolvePair(t, pairs[0], pid, now);
      LoopUnroll(t, pairs, pid, now);
      [t.bodies] + Run(t1, pairs[1..], pid, now)
  }

  /** The run of the loop is a trace of it. */
  lemma {:induction false} RunTrace(t: Tally, pairs: seq<Pair>, pid: BodyId, now: int)
    requires PairsIn(pairs, t.bodies.Keys) && pid in t.bodies && t.bodies[pid].kind == Player
    requires Typed(t.bodies)
    ensures Trace(t.bodies, pairs, Run(t, pairs, pid, now))
    decreases |pairs|
  {
    if pairs != [] {
      var t1 := ResolvePair(t, pairs[0], pid, now);
      LoopUnroll(t, pairs, pid, now);
      PairTyped(t, pairs[0], pid, now);
      PairStep(t, pairs[0], pid, now);
      RunTrace(t1, pairs[1..], pid, now);
      var tr, rest := Run(t, pairs, pid, now), Run(t1, pairs[1..], pid, now);
      assert tr == [t.bodies] + rest;
      forall i | 0 <= i < |tr| ensures Typed(tr[i]) {
        if i > 0 {
          assert tr[i] == rest[i - 1];
        }
      }
      forall i | 0 <= i < |pairs|
        ensures pairs[i] in pairs && Step(tr[i], pairs[i], tr[i + 1])
      {
        if i > 0 {
          assert pairs[1..][i - 1] == pairs[i];
          assert Step(rest[i - 1], pairs[1..][i - 1], rest[i]);
        }
      }
    }
  }

  /** After the first `n` pairs, starting from `b0`, now `b`: the zombie `z` has lost exactly
      what it is owed. */
  predicate ZombieAt(b0: map<BodyId, Body>, pairs: seq<Pair>, n: nat, b: map<BodyId, Body>, z: BodyId)
    requires PairsIn(pairs, b0.Keys) && n <= |pairs| && z in b0 && b0[z].data.OfZombie?
  {
    z in b && b[z].data.OfZombie? && ZombieHp(b[z]) == ZombieHp(b0[z]) - Dealt(b0, pairs, z, n)
  }

  /** After the first `n` pairs, starting from `b0`, now `b`: the hitbox `h` is fresh exactly
      when it was fresh at the start and none of those pairs set it against a zombie, and its
      damage has not changed. */
  predicate HitboxAt(b0: map<BodyId, Body>, pairs: seq<Pair>, n: nat, b: map<BodyId, Body>, h: BodyId)
    requires PairsIn(pairs, b0.Keys) && n <= |pairs| && h in b0 && b0[h].data.OfHitbox?
  {
    && h in b && b[h].data.OfHitbox?
    && b[h].data.hitbox.damage == b0[h].data.hitbox.damage
    && (Fresh(b, h) <==> Fresh(b0, h) && !Named(b0, pairs, h, n))
  }

  /** Every zombie and every hitbox of `b0` is accounted for in `b`. */
  predicate Accounted(b0: map<BodyId, Body>, pairs: seq<Pair>, n: nat, b: map<BodyId, Body>)
    requires PairsIn(pairs, b0.Keys) && n <= |pairs|
  {
    && (forall z :: z in b0 && b0[z].data.OfZombie? ==> ZombieAt(b0, pairs, n, b, z))
    && (forall h :: h in b0 && b0[h].data.OfHitbox? ==> HitboxAt(b0, pairs, n, b, h))
  }

  /** Pair `n - 1` keeps the account of the hitbox `h`. */
  lemma SpentNext(b0: map<BodyId, Body>, pairs: seq<Pair>, n: nat, b: map<BodyId, Body>, c: map<BodyId, Body>, h: BodyId)
    requires PairsIn(pairs, b0.Keys) && 0 < n <= |pairs| && pairs[n - 1] in pairs && SameKinds(b0, b)
    requires h in b0 && b0[h].data.OfHitbox? && HitboxAt(b0, pairs, n - 1, b, h)
    requires HitboxStep(b, pairs[n - 1], c, h)
    ensures HitboxAt(b0, pairs, n, c, h)
  {
    NamedNext(b0, pairs, n, h);
  }

  /** Along a trace, every hitbox keeps its account pair by pair. */
  lemma {:induction false} HitboxIn(b0: map<BodyId, Body>, pairs: seq<Pair>, tr: seq<map<BodyId, Body>>, n: nat, h: BodyId)
    requires PairsIn(pairs, b0.Keys) && n <= |pairs| && Trace(b0, pairs, tr)
    requires h in b0 && b0[h].data.OfHitbox?
    ensures HitboxAt(b0, pairs, n, tr[n], h)
  {
    if n > 0 {
      HitboxIn(b0, pairs, tr, n - 1, h);
      assert pairs[n - 1] in pairs && Step(tr[n - 1], pairs[n - 1], tr[n]);
      SpentNext(b0, pairs, n, tr[n - 1], tr[n], h);
    }
  }

  /** Pair `i` costs the zombie `z`, from `b` to `c`, what it owes it, given the account,
      before it, of the hitbox it sets against a zombie. */
  lemma GainStep(b0: map<BodyId, Body>, pairs: seq<Pair>, i: nat, b: map<BodyId, Body>, c: map<BodyId, Body>, z: BodyId)
    requires PairsIn(pairs, b0.Keys) && i < |pairs| && pairs[i] in pairs && SameKinds(b0, b)
    requires z in b0 && b0[z].data.OfZombie? && z in b && b[z].data.OfZombie?
    requires Slash(b0, pairs[i]) ==>
      var h := HitboxOf(b0, pairs[i]);
      b0[h].data.OfHitbox? && HitboxAt(b0, pairs, i, b, h)
    requires ZombieStep(b, pairs[i], c, z)
    ensures z in c && c[z].data.OfZombie? && ZombieHp(c[z]) == ZombieHp(b[z]) - Gain(b0, pairs, z, i)
  {
  }

  /** Along the trace `tr`, pair `i` costs the zombie `z` what it owes it. */
  predicate Loss(b0: map<BodyId, Body>, pairs: seq<Pair>, tr: seq<map<BodyId, Body>>, z: BodyId, i: nat)
    requires PairsIn(pairs, b0.Keys) && |tr| == |pairs| + 1 && i < |pairs|
  {
    && z in tr[i] && tr[i][z].data.OfZombie? && z in tr[i + 1] && tr[i + 1][z].data.OfZombie?
    && ZombieHp(tr[i + 1][z]) == ZombieHp(tr[i][z]) - Gain(b0, pairs, z, i)
  }

  /** Losses pair by pair add up to what the first `n` pairs owe. */
  lemma {:induction false} LossSum(b0: map<BodyId, Body>, pairs: seq<Pair>, tr: seq<map<BodyId, Body>>, z: BodyId, n: nat)
    requires PairsIn(pairs, b0.Keys) && |tr| == |pairs| + 1 && tr[0] == b0 && n <= |pairs|
    requires z in b0 && b0[z].data.OfZombie?
    requires forall i :: 0 <= i < n ==> Loss(b0, pairs, tr, z, i)
    ensures ZombieAt(b0, pairs, n, tr[n], z)
  {
    if n > 0 {
      LossSum(b0, pairs, tr, z, n - 1);
      assert Loss(b0, pairs, tr, z, n - 1);
    }
  }

  /** Along a trace, every zombie ends having lost what the pairs owe it. */
  lemma ZombieIn(b0: map<BodyId, Body>, pairs: seq<Pair>, tr: seq<map<BodyId, Body>>, z: BodyId)
    requires PairsIn(pairs, b0.Keys) && Trace(b0, pairs, tr)
    requires z in b0 && b0[z].data.OfZombie?
    ensures ZombieAt(b0, pairs, |pairs|, tr[|pairs|], z)
  {
    forall i | 0 <= i < |pairs| ensures Loss(b0, pairs, tr, z, i) {
      assert pairs[i] in pairs && Step(tr[i], pairs[i], tr[i + 1]);
      assert DataMatches(b0[z]) && DataMatches(tr[i][z]);
      if Slash(b0, pairs[i]) {
        var h := HitboxOf(b0, pairs[i]);
        assert DataMatches(b0[h]);
        HitboxIn(b0, pairs, tr, i, h);
      }
      GainStep(b0, pairs, i, tr[i], tr[i + 1], z);
    }
    LossSum(b0, pairs, tr, z, |pairs|);
  }

  /** The whole loop: every zombie ends with its starting hp less the damage of the hitboxes,
      fresh at the start, whose first pair against a zombie names it; a hitbox ends fresh exactly
      when it started fresh and no pair set it against a zombie. */
  lemma LoopStrikes(t: Tally, pairs: seq<Pair>, pid: BodyId, now: int)
    requires PairsIn(pairs, t.bodies.Keys) && pid in t.bodies && t.bodies[pid].kind == Player
    requires forall id :: id in t.bodies ==> DataMatches(t.bodies[id])
    ensures Accounted(t.bodies, pairs, |pairs|, ResolveAll(t, pairs, pid, now).bodies)
  {
    var tr := Run(t, pairs, pid, now);
    RunTrace(t, pairs, pid, now);
    forall z | z in t.bodies && t.bodies[z].data.OfZombie? ensures ZombieAt(t.bodies, pairs, |pairs|, tr[|pairs|], z) {
      ZombieIn(t.bodies, pairs, tr, z);
    }
    forall h | h in t.bodies && t.bodies[h].data.OfHitbox? ensures HitboxAt(t.bodies, pairs, |pairs|, tr[|pairs|], h) {
      HitboxIn(t.bodies, pairs, tr, |pairs|, h);
    }
  }

  /** The removal loop: each queued zombie leaves the physics world and every key holding it. */
  function RemoveDead(s: Scene, dead: seq<BodyId>): (r: Scene)
    ensures r == s.(world := r.world, registry := r.registry)
    ensures forall id :: id in r.world <==> id in s.world && id !in dead
    ensures forall e :: e in r.registry <==> e in s.registry && e.body !in dead
    ensures KeysDistinct(s.registry) ==> KeysDistinct(r.registry)
    decreases |dead|
  {
    if dead == [] then s
    else
      var r := RemoveDead(s.(world := s.world - {dead[0]}, registry := Unlink(s.registry, dead[0])), dead[1..]);
      assert forall id :: id in dead <==> id == dead[0] || id in dead[1..];
      r
  }

  /** One pair of the loop: the rest of the pairs see the tally after that pair. */
  lemma ResolveStep(t: Tally, pairs: seq<Pair>, i: nat, pid: BodyId, now: int)
    requires i < |pairs| && PairsIn(pairs, t.bodies.Keys) && pid in t.bodies
    ensures pairs[i].a in t.bodies && pairs[i].b in t.bodies
    ensures var t1 := ResolvePair(t, pairs[i], pid, now);
      && PairsIn(pairs, t1.bodies.Keys)
      && ResolveAll(t, pairs[i..], pid, now) == ResolveAll(t1, pairs[i + 1..], pid, now)
  {
    assert pairs[i] in pairs;
    assert pairs[i..][1..] == pairs[i + 1..];
  }

  /** One queued body of the removal loop. */
  lemma RemoveStep(s: Scene, dead: seq<BodyId>, k: nat)
    requires k < |dead|
    ensures RemoveDead(s, dead[k..]) ==
      RemoveDead(s.(world := s.world - {dead[k]}, registry := Unlink(s.registry, dead[k])), dead[k + 1..])
  {
    assert dead[k..][1..] == dead[k + 1..];
  }

  /** With distinct keys, a key whose entry survives a filtering is still found. */
  lemma FindKept(reg: seq<Entry>, reg': seq<Entry>, key: Key)
    requires KeysDistinct(reg) && KeysDistinct(reg') && Find(reg, key).Some?
    requires Entry(key, Find(reg, key).value) in reg'
    ensures Find(reg', key) == Find(reg, key)
  {
    FindEntry(reg', Entry(key, Find(reg, key).value));
  }

  lemma LoopTyped(t: Tally, pairs: seq<Pair>, pid: BodyId, now: int)
    requires PairsIn(pairs, t.bodies.Keys) && pid in t.bodies
    requires forall id :: id in t.bodies ==> DataMatches(t.bodies[id])
    ensures var r := ResolveAll(t, pairs, pid, now);
      && Progress(t, r)
      && forall id :: id in r.bodies ==> DataMatches(r.bodies[id])
  {
    var r := ResolveAll(t, pairs, pid, now);
    LoopProgress(t, pairs, pid, now);
    forall id | id in r.bodies ensures DataMatches(r.bodies[id]) {
      assert DataMatches(t.bodies[id]);
      assert Evolves(t.bodies[id].data, r.bodies[id].data);
    }
  }

  lemma Armament(s: Scene)
    requires Wf(s)
    ensures Armed(s.bodies)
  {
    forall id | id in s.bodies && s.bodies[id].data.OfHitbox?
      ensures s.bodies[id].data.hitbox.damage > 0
    {
      assert DataMatches(s.bodies[id]);
    }
  }

  /** The loop's result for a scene. */
  function Resolve(s: Scene, pairs: seq<Pair>, now: int): (t: Tally)
    requires Wf(s) && PairsIn(pairs, s.world)
  {
    ResolveAll(Tally(s.bodies, s.game, []), pairs, PlayerId(s), now)
  }

  /** The damage system over the scene. */
  function Damage(s: Scene, pairs: seq<Pair>, now: int): (r: Scene)
    requires Wf(s) && PairsIn(pairs, s.world)
    ensures Wf(r)
    ensures Halted(s.game) ==> r == s
    ensures r.input == s.input && r.nextId == s.nextId && SameKinds(s.bodies, r.bodies)
    ensures PlayerId(r) == PlayerId(s) && DoorId(r) == DoorId(s)
  {
    if Halted(s.game) then s
    else
      var t := Resolve(s, pairs, now);
      var r := RemoveDead(s.(bodies := t.bodies, game := t.game), t.toRemove);
      DamageKeepsWf(s, pairs, now);
      r
  }

  lemma DamageKeepsWf(s: Scene, pairs: seq<Pair>, now: int)
    requires Wf(s) && PairsIn(pairs, s.world)
    ensures var t := Resolve(s, pairs, now);
      var r := RemoveDead(s.(bodies := t.bodies, game := t.game), t.toRemove);
      Wf(r) && PlayerId(r) == PlayerId(s) && DoorId(r) == DoorId(s)
  {
    var t0 := Tally(s.bodies, s.game, []);
    var pid := PlayerId(s);
    var t := Resolve(s, pairs, now);
    LoopTyped(t0, pairs, pid, now);
    Armament(s);
    LoopQueueSound(t0, pairs, pid, now);
    var r := RemoveDead(s.(bodies := t.bodies, game := t.game), t.toRemove);
    var did := DoorId(s);
    assert DataMatches(s.bodies[pid]) && DataMatches(s.bodies[did]);
    assert pid !in t.toRemove && did !in t.toRemove by {
      forall i | 0 <= i < |t.toRemove| ensures t.toRemove[i] != pid && t.toRemove[i] != did {
        assert Dropped(t0, t, t.toRemove[i]);
      }
    }
    FindIn(s.registry, PLAYER_KEY);
    FindIn(s.registry, DOOR_KEY);
    FindKept(s.registry, r.registry, PLAYER_KEY);
    FindKept(s.registry, r.registry, DOOR_KEY);
    assert PlayerOf(r) == t.bodies[pid].data.player;
    assert Evolves(s.bodies[pid].data, t.bodies[pid].data);
  }

  /** The zombie `id` lost hp in this frame and has none left. */
  predicate Felled(s: Scene, r: Scene, id: BodyId) {
    && id in s.bodies && s.bodies[id].data.OfZombie?
    && id in r.bodies && r.bodies[id].data.OfZombie?
    && ZombieHp(r.bodies[id]) < ZombieHp(s.bodies[id]) && ZombieHp(r.bodies[id]) <= 0
  }

  /** A zombie leaves the registry (every key holding it) and the physics world exactly when
      a hit in this frame took its hp to zero or below; as a consequence no zombie without hp
      stays in the world. */
  lemma DamageRemovesFelled(s: Scene, pairs: seq<Pair>, now: int)
    requires Wf(s) && PairsIn(pairs, s.world) && !Halted(s.game)
    ensures var r := Damage(s, pairs, now);
      && (forall e :: e in r.registry <==> e in s.registry && !Felled(s, r, e.body))
      && (forall id :: id in r.world <==> id in s.world && !Felled(s, r, id))
      && (ZombiesInWorldAlive(s) ==> ZombiesInWorldAlive(r))
  {
    var t := Resolve(s, pairs, now);
    var r := Damage(s, pairs, now);
    assert r.bodies == t.bodies;
    QueuedIffFelled(s, pairs, now);
    assert forall id :: id in t.toRemove <==> Felled(s, r, id);
    if ZombiesInWorldAlive(s) {
      FelledGone(s, r);
    }
  }

  lemma QueuedIffFelled(s: Scene, pairs: seq<Pair>, now: int)
    requires Wf(s) && PairsIn(pairs, s.world)
    ensures var t := Resolve(s, pairs, now);
      && HpDown(Tally(s.bodies, s.game, []), t)
      && forall id :: id in t.toRemove <==> Felled(s, s.(bodies := t.bodies), id)
  {
    var t0 := Tally(s.bodies, s.game, []);
    var t := Resolve(s, pairs, now);
    var r := s.(bodies := t.bodies);
    Armament(s);
    LoopHpDown(t0, pairs, PlayerId(s), now);
    LoopQueueSound(t0, pairs, PlayerId(s), now);
    LoopQueueComplete(t0, pairs, PlayerId(s), now);
    forall id ensures id in t.toRemove <==> Felled(s, r, id) {
      if id in t.toRemove {
        var i :| 0 <= i < |t.toRemove| && t.toRemove[i] == id;
        assert Dropped(t0, t, id);
      }
      if Felled(s, r, id) {
        assert Dropped(t0, t, id);
      }
    }
  }

  /** Removing the felled zombies leaves only zombies with hp in the world. */
  lemma FelledGone(s: Scene, r: Scene)
    requires ZombiesInWorldAlive(s) && r.bodies.Keys == s.bodies.Keys
    requires forall id :: id in s.bodies ==>
      (r.bodies[id].data.OfZombie? <==> s.bodies[id].data.OfZombie?)
      && (s.bodies[id].data.OfZombie? ==> ZombieHp(r.bodies[id]) <= ZombieHp(s.bodies[id]))
    requires forall id :: id in r.world <==> id in s.world && !Felled(s, r, id)
    ensures ZombiesInWorldAlive(r)
  {
    forall id | id in r.world && id in r.bodies && r.bodies[id].data.OfZombie?
      ensures r.bodies[id].data.zombie.hp > 0
    {
      assert s.bodies[id].data.OfZombie?;
    }
  }

  /** Body records change only in their payloads, as `Evolves` allows: a zombie only in hp,
      a hitbox only by latching `hasHit`, the player only in hp and hit time; the game state
      changes only in its hit-stop end and by ending the game. */
  lemma DamageProgress(s: Scene, pairs: seq<Pair>, now: int)
    requires Wf(s) && PairsIn(pairs, s.world)
    ensures var r := Damage(s, pairs, now);
      Progress(Tally(s.bodies, s.game, []), Tally(r.bodies, r.game, []))
  {
    if !Halted(s.game) {
      LoopProgress(Tally(s.bodies, s.game, []), pairs, PlayerId(s), now);
    } else {
      var t := Tally(s.bodies, s.game, []);
      forall id | id in t.bodies ensures Evolves(t.bodies[id].data, t.bodies[id].data) {
        EvolvesRefl(t.bodies[id].data);
      }
    }
  }

  /** Zombie contact: with no zombie touching the player, or while the player is invulnerable
      or has a hit pending, the player is untouched; otherwise it takes one hit (one per
      contact at time zero) and the game ends exactly when that takes its last hp. */
  lemma DamageHurtsPlayer(s: Scene, pairs: seq<Pair>, now: int)
    requires Wf(s) && PairsIn(pairs, s.world) && !Halted(s.game)
    ensures var r, b := Damage(s, pairs, now), s.bodies[PlayerId(s)];
      var n := Bites(s.bodies, pairs);
      var hits := if now == 0 then n else 1;
      && (n == 0 || !Open(b.data) ==> PlayerOf(r) == PlayerOf(s) && !r.game.isGameOver)
      && (n > 0 && Open(b.data) ==>
            r.bodies[PlayerId(r)] == AfterHits(b, hits, now)
            && (r.game.isGameOver <==> AfterHits(b, hits, now).data.player.hp <= 0))
  {
    var t0 := Tally(s.bodies, s.game, []);
    var pid := PlayerId(s);
    assert DataMatches(s.bodies[pid]);
    if Bites(s.bodies, pairs) == 0 || !Open(s.bodies[pid].data) {
      LoopPlayerIdle(t0, pairs, pid, now);
    } else {
      LoopPlayerHit(t0, pairs, pid, now);
    }
  }

  /** The frame's damage: some zombie or the player lost hp. */
  predicate Wounded(s: Scene, r: Scene)
    requires PlayerIdOk(s) && PlayerId(s) in r.bodies && r.bodies[PlayerId(s)].data.OfPlayer?
  {
    Struck(Tally(s.bodies, s.game, []), Tally(r.bodies, r.game, []), PlayerId(s))
  }

  /** Hit-stop starts (ends at `now + HIT_STOP_DURATION`) exactly when something took damage;
      pause and victory flags are never touched. */
  lemma DamageHitStop(s: Scene, pairs: seq<Pair>, now: int)
    requires Wf(s) && PairsIn(pairs, s.world) && !Halted(s.game)
    ensures var r := Damage(s, pairs, now);
      && r.game.isPaused == s.game.isPaused && r.game.isVictory == s.game.isVictory
      && r.game.hitStopEndTime == if Wounded(s, r) then now + HIT_STOP_DURATION else s.game.hitStopEndTime
  {
    var t0 := Tally(s.bodies, s.game, []);
    var pid := PlayerId(s);
    assert DataMatches(s.bodies[pid]);
    Armament(s);
    LoopHitStop(t0, pairs, pid, now);
    LoopProgress(t0, pairs, pid, now);
  }

  /** No pair involves an attack hitbox. */
  predicate Unarmed(bodies: map<BodyId, Body>, pairs: seq<Pair>)
    requires PairsIn(pairs, bodies.Keys)
  {
    forall p :: p in pairs ==> bodies[p.a].kind != PlayerHitbox && bodies[p.b].kind != PlayerHitbox
  }

  lemma {:induction false} LoopUnarmed(t: Tally, pairs: seq<Pair>, pid: BodyId, now: int)
    requires PairsIn(pairs, t.bodies.Keys) && pid in t.bodies && Unarmed(t.bodies, pairs)
    ensures var r := ResolveAll(t, pairs, pid, now);
      && r.toRemove == t.toRemove
      && forall id :: id in t.bodies && id != pid ==> r.bodies[id] == t.bodies[id]
    decreases |pairs|
  {
    if pairs != [] {
      var t1 := ResolvePair(t, pairs[0], pid, now);
      LoopUnroll(t, pairs, pid, now);
      assert !Slash(t.bodies, pairs[0]);
      assert Unarmed(t1.bodies, pairs[1..]) by {
        forall p | p in pairs[1..]
          ensures t1.bodies[p.a].kind != PlayerHitbox && t1.bodies[p.b].kind != PlayerHitbox
        {
          assert p in pairs;
        }
      }
      LoopUnarmed(t1, pairs[1..], pid, now);
    }
  }

  /** With no attack hitbox in the physics world the damage system cannot hurt a zombie:
      every body but the player keeps its record, and nothing leaves the world or the
      registry. */
  lemma DamageWithoutHitbox(s: Scene, pairs: seq<Pair>, now: int)
    requires Wf(s) && PairsIn(pairs, s.world)
    requires forall id :: id in s.world ==> s.bodies[id].kind != PlayerHitbox
    ensures var r := Damage(s, pairs, now);
      && r.registry == s.registry && r.world == s.world
      && forall id :: id in s.bodies && id != PlayerId(s) ==> r.bodies[id] == s.bodies[id]
  {
    if !Halted(s.game) {
      LoopUnarmed(Tally(s.bodies, s.game, []), pairs, PlayerId(s), now);
    }
  }

  /** When every hitbox the pairs set against a zombie has already struck, no zombie is owed
      anything. */
  lemma {:induction false} DealtNone(bodies: map<BodyId, Body>, pairs: seq<Pair>, z: BodyId, n: nat)
    requires PairsIn(pairs, bodies.Keys) && n <= |pairs|
    requires forall i :: 0 <= i < |pairs| && Slash(bodies, pairs[i]) ==> !Fresh(bodies, HitboxOf(bodies, pairs[i]))
    ensures Dealt(bodies, pairs, z, n) == 0
  {
    if n > 0 {
      DealtNone(bodies, pairs, z, n - 1);
    }
  }

  /** One damage pass: each zombie loses exactly the damage of the hitboxes, fresh before the
      pass, whose first pair against a zombie names it, so a hitbox lowers hp at most once and
      by exactly its damage; a hitbox is fresh after the pass exactly when it was fresh before
      and no pair set it against a zombie. */
  lemma DamageStrikes(s: Scene, pairs: seq<Pair>, now: int)
    requires Wf(s) && PairsIn(pairs, s.world) && !Halted(s.game)
    ensures PairsIn(pairs, s.bodies.Keys)
    ensures Accounted(s.bodies, pairs, |pairs|, Damage(s, pairs, now).bodies)
  {
    assert DataMatches(s.bodies[PlayerId(s)]);
    LoopStrikes(Tally(s.bodies, s.game, []), pairs, PlayerId(s), now);
  }

  /** Hitboxes that have already struck are harmless: when every hitbox the pairs set against a
      zombie is spent, every zombie keeps its hp. */
  lemma DamageSpentHarmless(s: Scene, pairs: seq<Pair>, now: int)
    requires Wf(s) && PairsIn(pairs, s.world)
    requires forall p :: p in pairs && s.bodies[p.a].kind == PlayerHitbox ==> !Fresh(s.bodies, p.a)
    requires forall p :: p in pairs && s.bodies[p.b].kind == PlayerHitbox ==> !Fresh(s.bodies, p.b)
    ensures var r := Damage(s, pairs, now);
      forall z :: z in s.bodies && s.bodies[z].data.OfZombie? ==>
        r.bodies[z].data.OfZombie? && ZombieHp(r.bodies[z]) == ZombieHp(s.bodies[z])
  {
    if !Halted(s.game) {
      DamageStrikes(s, pairs, now);
      forall i | 0 <= i < |pairs| && Slash(s.bodies, pairs[i])
        ensures !Fresh(s.bodies, HitboxOf(s.bodies, pairs[i]))
      {
        assert pairs[i] in pairs;
      }
      forall z | z in s.bodies && s.bodies[z].data.OfZombie? ensures Dealt(s.bodies, pairs, z, |pairs|) == 0 {
        DealtNone(s.bodies, pairs, z, |pairs|);
      }
    }
  }
}
