/**
 * The physics step (PhysicsSystem in Systems.js). The engine's integration is not part of
 * this model: the bodies it produces are a parameter, constrained to differ from the
 * current ones only in motion and only for bodies in the world.
 */
module Physics {
  import opened Model

  /** What one engine step may change: position, velocity and the force accumulator of
      bodies in the world that are not static. */
  predicate Moves(s: Scene, stepped: map<BodyId, Body>) {
    && stepped.Keys == s.bodies.Keys
    && forall id :: id in s.bodies ==>
         && stepped[id] == s.bodies[id].(position := stepped[id].position, velocity := stepped[id].velocity,
                                          force := stepped[id].force)
         && (id !in s.world || s.bodies[id].isStatic ==> stepped[id] == s.bodies[id])
  }

  /** Whether a hit-stop is still running at `now`. */
  predicate HitStopActive(g: GameState, now: int) {
    g.hitStopEndTime > now
  }

  /** One physics frame: frozen while a hit-stop runs, stepped otherwise. */
  function Physics(s: Scene, now: int, stepped: map<BodyId, Body>): (r: Scene)
    requires Wf(s) && Moves(s, stepped)
    ensures Wf(r) && PlayerId(r) == PlayerId(s) && DoorId(r) == DoorId(s)
    ensures r == s.(bodies := r.bodies)
    ensures r.bodies.Keys == s.bodies.Keys
    ensures forall id :: id in s.bodies ==> r.bodies[id].kind == s.bodies[id].kind && r.bodies[id].data == s.bodies[id].data
  {
    if HitStopActive(s.game, now) then s
    else
      MovedWf(s, stepped);
      s.(bodies := stepped)
  }

  lemma MovedWf(s: Scene, stepped: map<BodyId, Body>)
    requires Wf(s) && Moves(s, stepped)
    ensures var r := s.(bodies := stepped);
      Wf(r) && PlayerId(r) == PlayerId(s) && DoorId(r) == DoorId(s)
  {
    var r := s.(bodies := stepped);
    forall id | id in stepped ensures DataMatches(stepped[id]) {
      assert DataMatches(s.bodies[id]);
    }
    assert PlayerIdOk(r);
    assert DoorIdOk(r);
  }

  /** A static body, such as the floor, a wall or the door, comes out of every physics step as
      it went in; the win check may still unlock the door later in the same frame. */
  lemma StaticStill(s: Scene, now: int, stepped: map<BodyId, Body>, id: BodyId)
    requires Wf(s) && Moves(s, stepped) && id in s.bodies && s.bodies[id].isStatic
    ensures Physics(s, now, stepped).bodies[id] == s.bodies[id]
  {
  }

  /** The engine steps exactly when no hit-stop runs; pausing and game over do not stop it. */
  lemma PhysicsGate(s: Scene, now: int, stepped: map<BodyId, Body>)
    requires Wf(s) && Moves(s, stepped)
    ensures Physics(s, now, stepped) == if s.game.hitStopEndTime > now then s else s.(bodies := stepped)
    ensures Halted(s.game) && s.game.hitStopEndTime <= now ==> Physics(s, now, stepped).bodies == stepped
  {
  }
}
