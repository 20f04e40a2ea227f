/**
 * The win condition (WinConditionSystem in Systems.js): once no registry entry holds a
 * zombie, the locked door opens and the game is won.
 */
module WinCondition {
  import opened Model

  /** The scene with the door opened and victory declared. */
  function Unlock(s: Scene): (r: Scene)
    requires Wf(s)
    ensures Wf(r) && PlayerId(r) == PlayerId(s) && DoorId(r) == DoorId(s)
    ensures r.registry == s.registry && r.world == s.world && r.input == s.input && r.nextId == s.nextId
    ensures r.bodies.Keys == s.bodies.Keys && DoorUnlocked(r)
    ensures forall id :: id in s.bodies && id != DoorId(s) ==> r.bodies[id] == s.bodies[id]
  {
    var did := DoorId(s);
    var r := s.(bodies := s.bodies[did := s.bodies[did].(data := OfDoor(true))], game := s.game.(isVictory := true));
    assert PlayerId(s) != did;
    r
  }

  /** One run of the win condition. */
  function Win(s: Scene): (r: Scene)
    requires Wf(s)
    ensures Wf(r) && PlayerId(r) == PlayerId(s) && DoorId(r) == DoorId(s)
    ensures r.registry == s.registry && r.world == s.world && r.input == s.input && r.nextId == s.nextId
    ensures r.bodies.Keys == s.bodies.Keys
    ensures forall id :: id in s.bodies && id != DoorId(s) ==> r.bodies[id] == s.bodies[id]
  {
    if Halted(s.game) then s
    else if !HasZombie(s) && !DoorUnlocked(s) then Unlock(s)
    else s
  }

  /** The door opens, and victory is declared, exactly when the system runs with no zombie
      left in the registry and the door still locked; the door never locks again and victory
      is never withdrawn. */
  lemma WinUnlocks(s: Scene)
    requires Wf(s)
    ensures var r, fire := Win(s), !Halted(s.game) && !HasZombie(s) && !DoorUnlocked(s);
      && (DoorUnlocked(r) <==> DoorUnlocked(s) || fire)
      && r.game == (if fire then s.game.(isVictory := true) else s.game)
      && (s.game.isVictory ==> r.game.isVictory)
      && (!Halted(s.game) && !HasZombie(s) ==> DoorUnlocked(r))
  {
  }

  /** Running the win condition twice in a frame is running it once. */
  lemma WinIdempotent(s: Scene)
    requires Wf(s)
    ensures Win(Win(s)) == Win(s)
  {
    var r := Win(s);
    if !Halted(s.game) && !HasZombie(s) && !DoorUnlocked(s) {
      assert !HasZombie(r);
    }
  }

  /** While a registry entry still holds a zombie, nothing changes. */
  lemma ZombieBlocksVictory(s: Scene)
    requires Wf(s) && HasZombie(s)
    ensures Win(s) == s
  {
  }
}
