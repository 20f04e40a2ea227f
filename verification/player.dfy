/**
 * The player controller (PlayerControlSystem in Systems.js): grounding and coyote time,
 * the dodge window, smoothed horizontal motion, buffered and double jumps, the dodge
 * trigger, and the attack hitbox's creation and expiry.
 */
module PlayerControl {
  import opened Constants
  import opened Model

  /** Vertical speed below which the player counts as standing. */
  const GROUNDED_SPEED: real := 0.5
  /** Share of the current horizontal velocity kept each frame, and share of the target. */
  const KEEP: real := 0.8
  const STEER: real := 0.2
  /** Scale applied to the dodge impulse when it is applied as a force. */
  const DODGE_SCALE: real := 0.01
  const PLAYER_SIZE: real := 40.0
  const HITBOX_WIDTH: real := 30.0
  const HITBOX_HEIGHT: real := 40.0

  function Abs(x: real): (r: real)
    ensures r >= 0.0 && (r == x || r == -x)
  {
    if x < 0.0 then -x else x
  }

  function Grounded(vy: real): (g: bool)
    ensures g <==> -GROUNDED_SPEED < vy < GROUNDED_SPEED
  {
    Abs(vy) < GROUNDED_SPEED
  }

  /** The speed the held direction asks for; right wins when both are held. */
  function TargetVelocity(input: Input): (t: real)
    ensures t == PLAYER_SPEED <==> input.right
    ensures t == -PLAYER_SPEED <==> input.left && !input.right
    ensures t == 0.0 <==> !input.left && !input.right
  {
    if input.right then PLAYER_SPEED else if input.left then -PLAYER_SPEED else 0.0
  }

  /** Facing follows the last direction applied: left first, then right over it. */
  function Facing(facingRight: bool, input: Input): (r: bool)
    ensures input.right ==> r
    ensures input.left && !input.right ==> !r
    ensures !input.left && !input.right ==> r == facingRight
  {
    if input.right then true else if input.left then false else facingRight
  }

  /** `max(-bound, min(bound, v))`. */
  function Clamp(v: real, bound: real): (r: real)
    requires bound >= 0.0
    ensures -bound <= r <= bound
    ensures -bound <= v <= bound ==> r == v
    ensures v > bound ==> r == bound
    ensures v < -bound ==> r == -bound
  {
    if v > bound then bound else if v < -bound then -bound else v
  }

  /** 80% of the current velocity plus 20% of the target, kept within the player's speed. */
  function SmoothedVelocity(vx: real, target: real): (v: real)
    ensures Abs(v) <= PLAYER_SPEED
    ensures Abs(vx) <= PLAYER_SPEED && Abs(target) <= PLAYER_SPEED ==> v == KEEP * vx + STEER * target
    ensures target == 0.0 && vx >= 0.0 ==> 0.0 <= v <= vx
    ensures target == 0.0 && vx <= 0.0 ==> vx <= v <= 0.0
  {
    Clamp(KEEP * vx + STEER * target, PLAYER_SPEED)
  }

  datatype JumpKind = NoJump | GroundJump | AirJump

  /** Which jump a frame performs: a buffered press jumps from the ground or within the
      coyote window, and otherwise spends the double jump if one is left. */
  function JumpFor(buffered: bool, grounded: bool, coyote: bool, canDoubleJump: bool): (k: JumpKind)
    ensures k != NoJump <==> buffered && (grounded || coyote || canDoubleJump)
    ensures k == GroundJump <==> buffered && (grounded || coyote)
    ensures k == AirJump <==> buffered && !grounded && !coyote && canDoubleJump
  {
    if !buffered then NoJump
    else if grounded || coyote then GroundJump
    else if canDoubleJump then AirJump
    else NoJump
  }

  /** The player's body and the input record after the controller's first six steps. */
  datatype Controlled = Controlled(body: Body, input: Input)

  /** Whether a dodge starts: a fresh roll press while no dodge is running. */
  predicate DodgeStarts(p: PlayerData, input: Input, now: int) {
    input.roll && !input.rollHandled && p.dodgeEndTime <= now
  }

  /** The jump-buffer time after the buffering step: refreshed only on a jump press-edge. */
  function BufferedAt(p: PlayerData, input: Input, now: int): int {
    if input.jump && !input.jumpHandled then now else p.jumpBufferTime
  }

  /** The jump the controller performs in this frame. */
  function JumpOf(b: Body, input: Input, now: int): JumpKind
    requires b.data.OfPlayer?
  {
    var p := b.data.player;
    var grounded := Grounded(b.velocity.y);
    var coyote := grounded || now - p.lastGroundedTime < COYOTE_TIME;
    JumpFor(now - BufferedAt(p, input, now) < JUMP_BUFFER_TIME, grounded, coyote, p.canDoubleJump || grounded)
  }

  /** The collision mask for the dodge window. */
  function MaskFor(dodging: bool): Bits {
    if dodging then CATEGORY_ENVIRONMENT else MASK_PLAYER
  }

  /** Vertical velocity and force after a jump of the given kind. */
  function JumpVelocity(kind: JumpKind, vy: real): real {
    if kind == AirJump then 0.0 else vy
  }

  function JumpPush(kind: JumpKind, fy: real): real {
    if kind != NoJump then fy - JUMP_FORCE else fy
  }

  /** Horizontal force after the dodge trigger. */
  function DodgePush(start: bool, facingRight: bool, fx: real): real {
    if start then fx + DODGE_IMPULSE * (if facingRight then 1.0 else -1.0) * DODGE_SCALE else fx
  }

  /** The input latches after the jump and dodge steps. */
  function Latched(input: Input, start: bool): Input {
    input.(jumpHandled := input.jump, rollHandled := input.roll && (input.rollHandled || start))
  }

  /** Grounding, dodge state, steering, jump buffering, jumping and the dodge trigger. */
  function Drive(b: Body, input: Input, now: int): (r: Controlled)
    requires b.data.OfPlayer?
    ensures r.body.kind == b.kind && r.body.position == b.position && r.body.data.OfPlayer?
    ensures r.body.data.player.attackHitbox == b.data.player.attackHitbox
  {
    var p0 := b.data.player;
    var grounded := Grounded(b.velocity.y);
    var p1 := if grounded then p0.(lastGroundedTime := now, canDoubleJump := true) else p0;
    var p2 := p1.(isGrounded := grounded, isInvulnerable := p1.dodgeEndTime > now, facingRight := Facing(p1.facingRight, input));
    var kind := JumpFor(now - BufferedAt(p2, input, now) < JUMP_BUFFER_TIME, grounded,
                        now - p2.lastGroundedTime < COYOTE_TIME, p2.canDoubleJump);
    var p3 := p2.(jumpBufferTime := BufferedAt(p2, input, now));
    var p4 := match kind
      case NoJump => p3
      case GroundJump => p3.(jumpBufferTime := 0, canDoubleJump := true)
      case AirJump => p3.(jumpBufferTime := 0, canDoubleJump := false);
    var start := DodgeStarts(p4, input, now);
    var p5 := if start then p4.(dodgeEndTime := now + DODGE_DURATION) else p4;
    Controlled(
      b.(mask := MaskFor(p2.dodgeEndTime > now),
         velocity := Vec(SmoothedVelocity(b.velocity.x, TargetVelocity(input)), JumpVelocity(kind, b.velocity.y)),
         force := Vec(DodgePush(start, p4.facingRight, b.force.x), JumpPush(kind, b.force.y)),
         data := OfPlayer(p5)),
      Latched(input, start))
  }

  /** Grounding, hp and the hitbox reference: what the first six steps leave alone. */
  lemma DriveFrame(b: Body, input: Input, now: int)
    requires b.data.OfPlayer?
    ensures var p, r := b.data.player, Drive(b, input, now);
      var q := r.body.data.player;
      && r.body == b.(mask := r.body.mask, velocity := r.body.velocity, force := r.body.force, data := r.body.data)
      && q.hp == p.hp && q.maxHp == p.maxHp && q.lastHitTime == p.lastHitTime
      && r.input == input.(jumpHandled := r.input.jumpHandled, rollHandled := r.input.rollHandled)
      && q.isGrounded == Grounded(b.velocity.y)
      && q.lastGroundedTime == (if Grounded(b.velocity.y) then now else p.lastGroundedTime)
  {
  }

  /** While a dodge that began in an earlier frame is running, the player is invulnerable
      and collides with the environment only; otherwise the full player mask is restored. */
  lemma DodgeWindow(b: Body, input: Input, now: int)
    requires b.data.OfPlayer?
    ensures var p, r := b.data.player, Drive(b, input, now);
      && (r.body.data.player.isInvulnerable <==> p.dodgeEndTime > now)
      && r.body.mask == (if p.dodgeEndTime > now then CATEGORY_ENVIRONMENT else MASK_PLAYER)
  {
  }

  /** A dodge starts exactly on a roll press-edge outside a running dodge and lasts
      DODGE_DURATION from now; a held roll is latched only once a dodge has started. */
  lemma DodgeTrigger(b: Body, input: Input, now: int)
    requires b.data.OfPlayer?
    ensures var p, r := b.data.player, Drive(b, input, now);
      var q := r.body.data.player;
      && q.dodgeEndTime == (if DodgeStarts(p, input, now) then now + DODGE_DURATION else p.dodgeEndTime)
      && (q.dodgeEndTime != p.dodgeEndTime ==> input.roll && !input.rollHandled && p.dodgeEndTime <= now)
      && (r.input.rollHandled <==> input.roll && (input.rollHandled || DodgeStarts(p, input, now)))
  {
  }

  /** The new horizontal velocity is the smoothed, clamped one, and facing follows the
      held direction with right winning. */
  lemma Steering(b: Body, input: Input, now: int)
    requires b.data.OfPlayer?
    ensures var p, r := b.data.player, Drive(b, input, now);
      && r.body.velocity.x == SmoothedVelocity(b.velocity.x, TargetVelocity(input))
      && Abs(r.body.velocity.x) <= PLAYER_SPEED
      && r.body.data.player.facingRight == Facing(p.facingRight, input)
  {
  }

  /** The jump latch ends up equal to the jump intent: set on a press, cleared on release. */
  lemma JumpLatch(b: Body, input: Input, now: int)
    requires b.data.OfPlayer?
    ensures var r := Drive(b, input, now);
      && r.input.jumpHandled == input.jump
      && r.body.data.player.jumpBufferTime in {0, now, b.data.player.jumpBufferTime}
  {
  }

  /** What jumping does to the player: a jump happens exactly when a buffered press meets
      the ground, the coyote window or a spare double jump; every jump clears the buffer
      and pushes up by the jump force; only a double jump zeroes the vertical velocity and
      spends the double jump. */
  lemma JumpRules(b: Body, input: Input, now: int)
    requires b.data.OfPlayer?
    ensures var p, r := b.data.player, Drive(b, input, now);
      var q := r.body.data.player;
      var grounded := Grounded(b.velocity.y);
      var coyote := grounded || now - p.lastGroundedTime < COYOTE_TIME;
      var buffered := now - BufferedAt(p, input, now) < JUMP_BUFFER_TIME;
      var k := JumpOf(b, input, now);
      && (k != NoJump <==> buffered && (coyote || p.canDoubleJump))
      && (k != NoJump ==> q.jumpBufferTime == 0 && r.body.force.y == b.force.y - JUMP_FORCE)
      && (k == NoJump ==> q.jumpBufferTime == BufferedAt(p, input, now) && r.body.force.y == b.force.y)
      && (k == AirJump ==> !coyote && p.canDoubleJump && !q.canDoubleJump && r.body.velocity.y == 0.0)
      && (k != AirJump ==> r.body.velocity.y == b.velocity.y)
      && (k == GroundJump ==> q.canDoubleJump)
      && (k == NoJump ==> (q.canDoubleJump <==> p.canDoubleJump || grounded))
      && (q.canDoubleJump && !p.canDoubleJump ==> grounded || k == GroundJump)
  {
  }

  /** The dodge impulse pushes in the direction the player faces after steering. */
  lemma DodgeImpulse(b: Body, input: Input, now: int)
    requires b.data.OfPlayer?
    ensures var p, r := b.data.player, Drive(b, input, now);
      && (DodgeStarts(p, input, now) ==>
           r.body.force.x == b.force.x + (if r.body.data.player.facingRight then 0.12 else -0.12))
      && (!DodgeStarts(p, input, now) ==> r.body.force.x == b.force.x)
  {
  }

  /** The sensor body an attack press creates beside the player. */
  function SpawnHitbox(b: Body, now: int): (h: Body)
    requires b.data.OfPlayer?
    ensures h.kind == PlayerHitbox && h.isSensor && !h.isStatic && DataMatches(h)
    ensures h.data.hitbox == HitboxData(PLAYER_DAMAGE, now, ATTACK_DURATION, false)
    ensures h.category == CATEGORY_PLAYER_ATTACK && h.mask == MASK_PLAYER_ATTACK
    ensures h.position.y == b.position.y
    ensures h.position.x == b.position.x + (if b.data.player.facingRight then 35.0 else -35.0)
  {
    var offsetX := if b.data.player.facingRight then PLAYER_SIZE / 2.0 + HITBOX_WIDTH / 2.0
                   else -(PLAYER_SIZE / 2.0 + HITBOX_WIDTH / 2.0);
    Body(PlayerHitbox, CATEGORY_PLAYER_ATTACK, MASK_PLAYER_ATTACK, true, false,
         Vec(b.position.x + offsetX, b.position.y), Vec(0.0, 0.0), Vec(0.0, 0.0),
         OfHitbox(HitboxData(PLAYER_DAMAGE, now, ATTACK_DURATION, false)))
  }

  /** Whether the owned hitbox has outlived its duration. */
  predicate Expired(owned: Option<BodyId>, bodies: map<BodyId, Body>, now: int) {
    owned.Some? && owned.value in bodies && bodies[owned.value].data.OfHitbox?
    && now - bodies[owned.value].data.hitbox.createdTime > bodies[owned.value].data.hitbox.duration
  }

  /** The scene with the player's body and its data replaced. */
  function WithPlayer(s: Scene, body: Body, p: PlayerData): (r: Scene)
    requires Wf(s)
    requires body.kind == Player
    requires p.attackHitbox.Some? ==>
      p.attackHitbox.value in s.bodies && s.bodies[p.attackHitbox.value].kind == PlayerHitbox
    ensures Wf(r) && PlayerId(r) == PlayerId(s) && PlayerOf(r) == p
    ensures r.bodies == s.bodies[PlayerId(s) := body.(data := OfPlayer(p))]
    ensures r == s.(bodies := r.bodies)
  {
    var r := s.(bodies := s.bodies[PlayerId(s) := body.(data := OfPlayer(p))]);
    assert Find(r.registry, PLAYER_KEY) == Find(s.registry, PLAYER_KEY);
    assert DoorId(s) != PlayerId(s);
    r
  }

  /** The scene with one more body, added to the world. */
  function WithBody(s: Scene, b: Body): (r: Scene)
    requires Wf(s) && DataMatches(b)
    ensures Wf(r) && PlayerId(r) == PlayerId(s) && PlayerOf(r) == PlayerOf(s)
    ensures r == s.(bodies := s.bodies[s.nextId := b], world := s.world + {s.nextId}, nextId := s.nextId + 1)
  {
    var r := s.(bodies := s.bodies[s.nextId := b], world := s.world + {s.nextId}, nextId := s.nextId + 1);
    assert s.nextId !in s.bodies;
    r
  }

  function WithInput(s: Scene, input: Input): (r: Scene)
    requires Wf(s)
    ensures Wf(r) && PlayerId(r) == PlayerId(s) && PlayerOf(r) == PlayerOf(s)
    ensures r == s.(input := input)
  {
    s.(input := input)
  }

  /** Steps one to six (grounding to the dodge trigger) applied to the scene. */
  function Steer(s: Scene, now: int): (r: Scene)
    requires Wf(s)
    ensures Wf(r) && PlayerId(r) == PlayerId(s)
    ensures var d := Drive(s.bodies[PlayerId(s)], s.input, now);
      r == s.(bodies := s.bodies[PlayerId(s) := d.body], input := d.input)
  {
    var d := Drive(s.bodies[PlayerId(s)], s.input, now);
    WithInput(WithPlayer(s, d.body, d.body.data.player), d.input)
  }

  /** On an attack press-edge a fresh hitbox beside the player becomes the owned one (the
      one owned before is not released); the attack latch then follows the intent. */
  function Attack(s: Scene, now: int): (r: Scene)
    requires Wf(s)
    ensures Wf(r) && PlayerId(r) == PlayerId(s)
    ensures r.registry == s.registry && r.game == s.game
    ensures s.bodies.Keys <= r.bodies.Keys
    ensures forall id :: id in s.bodies && id != PlayerId(s) ==> r.bodies[id] == s.bodies[id]
    ensures r.bodies[PlayerId(s)] == s.bodies[PlayerId(s)].(data := OfPlayer(PlayerOf(r)))
    ensures PlayerOf(r) == PlayerOf(s).(attackHitbox := PlayerOf(r).attackHitbox)
    ensures r.input == s.input.(attackHandled := s.input.attack)
    ensures var pid, edge := PlayerId(s), s.input.attack && !s.input.attackHandled;
      && (edge ==>
           && r.nextId == s.nextId + 1
           && r.world == s.world + {s.nextId}
           && r.bodies == s.bodies[s.nextId := SpawnHitbox(s.bodies[pid], now)]
                                  [pid := s.bodies[pid].(data := OfPlayer(PlayerOf(s).(attackHitbox := Some(s.nextId))))])
      && (!edge ==> r == s.(input := r.input))
  {
    var pid := PlayerId(s);
    var s1 := if s.input.attack && !s.input.attackHandled then
        var s0 := WithBody(s, SpawnHitbox(s.bodies[pid], now));
        WithPlayer(s0, s.bodies[pid], PlayerOf(s).(attackHitbox := Some(s.nextId)))
      else s;
    WithInput(s1, s1.input.(attackHandled := s.input.attack))
  }

  /** The owned hitbox is taken out of the world and released once it is older than its
      duration; otherwise nothing changes. */
  function Expire(s: Scene, now: int): (r: Scene)
    requires Wf(s)
    ensures Wf(r) && PlayerId(r) == PlayerId(s)
    ensures r.registry == s.registry && r.game == s.game
    ensures s.bodies.Keys <= r.bodies.Keys
    ensures forall id :: id in s.bodies && id != PlayerId(s) ==> r.bodies[id] == s.bodies[id]
    ensures r.bodies[PlayerId(s)] == s.bodies[PlayerId(s)].(data := OfPlayer(PlayerOf(r)))
    ensures PlayerOf(r) == PlayerOf(s).(attackHitbox := PlayerOf(r).attackHitbox)
    ensures r.input == s.input
    ensures var pid, owned := PlayerId(s), PlayerOf(s).attackHitbox;
      && (Expired(owned, s.bodies, now) ==>
            r == s.(bodies := s.bodies[pid := s.bodies[pid].(data := OfPlayer(PlayerOf(s).(attackHitbox := None)))],
                    world := s.world - {owned.value}))
      && (!Expired(owned, s.bodies, now) ==> r == s)
  {
    var owned := PlayerOf(s).attackHitbox;
    if Expired(owned, s.bodies, now) then
      var s1 := WithPlayer(s, s.bodies[PlayerId(s)], PlayerOf(s).(attackHitbox := None));
      s1.(world := s1.world - {owned.value})
    else s
  }

  /** One run of the player controller over the scene. */
  function Control(s: Scene, now: int): (r: Scene)
    requires Wf(s)
    ensures Wf(r)
    ensures Halted(s.game) ==> r == s
    // outside a halt only the player's body, the input latches, a new hitbox and the owned
    // hitbox's world membership change; the other existing bodies keep their records
    ensures !Halted(s.game) ==>
      var pid := PlayerId(s);
      var d := Drive(s.bodies[pid], s.input, now);
      && r.registry == s.registry && r.game == s.game
      && PlayerId(r) == pid
      && r.bodies[pid] == d.body.(data := OfPlayer(PlayerOf(r)))
      && PlayerOf(r) == d.body.data.player.(attackHitbox := PlayerOf(r).attackHitbox)
      && r.input == d.input.(attackHandled := s.input.attack)
      && s.bodies.Keys <= r.bodies.Keys
      && (forall id :: id in s.bodies && id != pid ==> r.bodies[id] == s.bodies[id])
  {
    if Halted(s.game) then s
    else
      var pid := PlayerId(s);
      var d := Drive(s.bodies[pid], s.input, now);
      var s1 := Steer(s, now);
      var r := Expire(Attack(s1, now), now);
      AttackThenExpire(s, s1, d.body, d.input, now);
      r
  }

  /** The attack and expiry steps after steering touch only the player's hitbox reference,
      the attack latch and the bodies other than the existing ones. */
  lemma AttackThenExpire(s: Scene, s1: Scene, b: Body, input: Input, now: int)
    requires Wf(s) && Wf(s1) && PlayerIdOk(s1) && PlayerId(s1) == PlayerId(s)
    requires s1 == s.(bodies := s.bodies[PlayerId(s) := b], input := input)
    ensures var pid, r := PlayerId(s), Expire(Attack(s1, now), now);
      && r.registry == s.registry && r.game == s.game
      && PlayerId(r) == pid
      && r.bodies[pid] == b.(data := OfPlayer(PlayerOf(r)))
      && PlayerOf(r) == b.data.player.(attackHitbox := PlayerOf(r).attackHitbox)
      && r.input == input.(attackHandled := input.attack)
      && s.bodies.Keys <= r.bodies.Keys
      && (forall id :: id in s.bodies && id != pid ==> r.bodies[id] == s.bodies[id])
  {
    AfterAttack(s, s1, b, input, now);
  }

  lemma AfterAttack(s: Scene, s1: Scene, b: Body, input: Input, now: int)
    requires Wf(s) && Wf(s1) && PlayerIdOk(s1) && PlayerId(s1) == PlayerId(s)
    requires s1 == s.(bodies := s.bodies[PlayerId(s) := b], input := input)
    ensures var pid, r := PlayerId(s), Attack(s1, now);
      && r.registry == s.registry && r.game == s.game
      && PlayerId(r) == pid
      && r.bodies[pid] == b.(data := OfPlayer(PlayerOf(r)))
      && PlayerOf(r) == b.data.player.(attackHitbox := PlayerOf(r).attackHitbox)
      && r.input == input.(attackHandled := input.attack)
      && s.bodies.Keys <= r.bodies.Keys
      && (forall id :: id in s.bodies && id != pid ==> r.bodies[id] == s.bodies[id])
  {
  }

  /** A proof helper: the ensures of `Attack` gathered into one scene equation, in the form
      the `Systems` methods compare their new state against. */
  lemma AttackScene(s: Scene, now: int)
    requires Wf(s)
    ensures var pid, p := PlayerId(s), PlayerOf(s);
      Attack(s, now) ==
        if s.input.attack && !s.input.attackHandled then
          s.(bodies := s.bodies[s.nextId := SpawnHitbox(s.bodies[pid], now)]
                               [pid := s.bodies[pid].(data := OfPlayer(p.(attackHitbox := Some(s.nextId))))],
             world := s.world + {s.nextId}, nextId := s.nextId + 1, input := s.input.(attackHandled := true))
        else s.(input := s.input.(attackHandled := s.input.attack))
  {
  }

  /** An attack press-edge creates exactly one fresh hitbox, owned by the player, even when
      one is already owned: the earlier one stays in the world. */
  lemma AttackPress(s: Scene, now: int)
    requires Wf(s) && !Halted(s.game)
    requires s.input.attack && !s.input.attackHandled
    ensures var r, pid := Control(s, now), PlayerId(s);
      && r.nextId == s.nextId + 1
      && r.bodies.Keys == s.bodies.Keys + {s.nextId}
      && r.bodies[s.nextId] == SpawnHitbox(Drive(s.bodies[pid], s.input, now).body, now)
      && r.world == s.world + {s.nextId}
      && PlayerOf(r).attackHitbox == Some(s.nextId)
  {
    var s1 := Steer(s, now);
    assert s1.input.attack && !s1.input.attackHandled;
    var s2 := Attack(s1, now);
    assert !Expired(PlayerOf(s2).attackHitbox, s2.bodies, now);
  }

  /** Without an attack press-edge no body is created, and the owned hitbox leaves the world
      and is released exactly when it is older than its duration. */
  lemma HitboxExpiry(s: Scene, now: int)
    requires Wf(s) && !Halted(s.game)
    requires !(s.input.attack && !s.input.attackHandled)
    ensures var r, owned := Control(s, now), PlayerOf(s).attackHitbox;
      && r.nextId == s.nextId && r.bodies.Keys == s.bodies.Keys
      && (Expired(owned, s.bodies, now) ==>
            PlayerOf(r).attackHitbox == None && r.world == s.world - {owned.value})
      && (!Expired(owned, s.bodies, now) ==>
            PlayerOf(r).attackHitbox == owned && r.world == s.world)
  {
  }

  /** Pressing attack while a hitbox is owned does not release it: the earlier body keeps
      its record and stays in the world, no longer owned. */
  lemma EarlierHitboxStays(s: Scene, now: int, h: BodyId)
    requires Wf(s) && !Halted(s.game)
    requires s.input.attack && !s.input.attackHandled
    requires PlayerOf(s).attackHitbox == Some(h) && h in s.world
    ensures var r := Control(s, now);
      h in r.world && r.bodies[h] == s.bodies[h] && PlayerOf(r).attackHitbox != Some(h)
  {
    AttackPress(s, now);
  }

  /** A double jump is spent once per airborne spell: after it, a later frame that is still
      airborne and past the coyote window performs no jump, whatever the input. */
  lemma DoubleJumpOncePerAirborneSpell(b: Body, input: Input, now: int, b2: Body, input2: Input, later: int)
    requires b.data.OfPlayer? && JumpOf(b, input, now) == AirJump
    requires b2.data.OfPlayer?
    requires b2.data.player == Drive(b, input, now).body.data.player
    requires !Grounded(b2.velocity.y)
    requires later - b2.data.player.lastGroundedTime >= COYOTE_TIME
    ensures JumpOf(b2, input2, later) == NoJump
    ensures !Drive(b2, input2, later).body.data.player.canDoubleJump
    ensures Drive(b2, input2, later).body.force.y == b2.force.y
  {
    JumpRules(b, input, now);
    JumpRules(b2, input2, later);
  }

  /** A jump pressed in the air with no jump left is remembered and performed on landing
      if the landing frame comes less than JUMP_BUFFER_TIME after the press. */
  lemma BufferedJumpOnLanding(b: Body, input: Input, pressed: int, b2: Body, landed: int)
    requires b.data.OfPlayer? && !b.data.player.canDoubleJump
    requires !Grounded(b.velocity.y) && pressed - b.data.player.lastGroundedTime >= COYOTE_TIME
    requires input.jump && !input.jumpHandled
    requires b2.data.OfPlayer?
    requires b2.data.player == Drive(b, input, pressed).body.data.player
    requires Grounded(b2.velocity.y)
    requires pressed <= landed < pressed + JUMP_BUFFER_TIME
    ensures JumpOf(b, input, pressed) == NoJump
    ensures Drive(b, input, pressed).body.data.player.jumpBufferTime == pressed
    ensures var held := Drive(b, input, pressed).input;
      held.jumpHandled && JumpOf(b2, held, landed) == GroundJump
  {
    JumpRules(b, input, pressed);
  }

  /** The frame that starts a dodge is not yet invulnerable (the window is checked before the
      trigger); the following frames are, until DODGE_DURATION has passed. */
  lemma DodgeLagsOneFrame(b: Body, input: Input, now: int, b2: Body, input2: Input, later: int)
    requires b.data.OfPlayer? && b.data.player.dodgeEndTime <= now
    requires input.roll && !input.rollHandled
    requires b2.data.OfPlayer?
    requires b2.data.player == Drive(b, input, now).body.data.player
    requires now < later
    ensures !Drive(b, input, now).body.data.player.isInvulnerable
    ensures Drive(b, input, now).body.mask == MASK_PLAYER
    ensures Drive(b2, input2, later).body.data.player.isInvulnerable <==> later < now + DODGE_DURATION
    ensures Drive(b2, input2, later).body.mask ==
              (if later < now + DODGE_DURATION then CATEGORY_ENVIRONMENT else MASK_PLAYER)
  {
    DodgeWindow(b, input, now);
    DodgeTrigger(b, input, now);
    DodgeWindow(b2, input2, later);
  }

  /** A cleared jump buffer holds time 0, so while the clock reads less than
      JUMP_BUFFER_TIME a standing player jumps without any press. */
  lemma ClearedBufferNearTimeZero(b: Body, input: Input, now: int)
    requires b.data.OfPlayer? && b.data.player.jumpBufferTime == 0
    requires 0 <= now < JUMP_BUFFER_TIME && Grounded(b.velocity.y)
    ensures JumpOf(b, input, now) == GroundJump
  {
  }

  /** How one run of the controller ends. */
  datatype Outcome = Completed(scene: Scene) | Threw(scene: Scene)

  /** The controller exactly as written. The names it binds from the entities are the
      player, the input record and the game state, not `physics`, so adding the new hitbox
      to the world and removing the expired one both throw; the first six steps have run by
      then, and neither the hitbox reference nor the attack latch has been updated. */
  function ControlAsWritten(s: Scene, now: int): (o: Outcome)
    requires Wf(s)
    ensures Wf(o.scene) && PlayerId(o.scene) == PlayerId(s)
  {
    if Halted(s.game) then Completed(s)
    else
      var s1 := Steer(s, now);
      if s.input.attack && !s.input.attackHandled then Threw(s1)
      else
        var s2 := WithInput(s1, s1.input.(attackHandled := s.input.attack));
        if Expired(PlayerOf(s2).attackHitbox, s2.bodies, now) then Threw(s2)
        else Completed(s2)
  }

  /** As written, every attack press-edge throws: no hitbox enters the world or becomes the
      player's, and the latch stays clear, so the next frame that runs with the button held
      would throw again. */
  lemma AttackPressThrows(s: Scene, now: int)
    requires Wf(s) && !Halted(s.game) && s.input.attack && !s.input.attackHandled
    ensures var o := ControlAsWritten(s, now);
      && o.Threw?
      && o.scene.world == s.world && o.scene.bodies.Keys == s.bodies.Keys && o.scene.nextId == s.nextId
      && PlayerOf(o.scene).attackHitbox == PlayerOf(s).attackHitbox
      && o.scene.input.attack && !o.scene.input.attackHandled
  {
  }

  /** Without a press-edge or an expiring hitbox the code as written does what the
      corrected controller does. */
  lemma AsWrittenAgrees(s: Scene, now: int)
    requires Wf(s) && !(s.input.attack && !s.input.attackHandled)
    requires !Expired(PlayerOf(s).attackHitbox, s.bodies, now)
    ensures ControlAsWritten(s, now) == Completed(Control(s, now))
  {
    if !Halted(s.game) {
      SteeredExpiry(s, now);
      NoEdgeControl(s, now);
    }
  }

  /** Steps one to six and the latch leave the hitbox reference and the hitbox alone. */
  lemma SteeredExpiry(s: Scene, now: int)
    requires Wf(s)
    ensures var s1 := Steer(s, now);
      var s2 := WithInput(s1, s1.input.(attackHandled := s.input.attack));
      Expired(PlayerOf(s2).attackHitbox, s2.bodies, now) <==> Expired(PlayerOf(s).attackHitbox, s.bodies, now)
  {
    var owned := PlayerOf(s).attackHitbox;
    if owned.Some? {
      assert owned.value != PlayerId(s);
    }
  }

  lemma NoEdgeControl(s: Scene, now: int)
    requires Wf(s) && !Halted(s.game) && !(s.input.attack && !s.input.attackHandled)
    requires !Expired(PlayerOf(s).attackHitbox, s.bodies, now)
    ensures var s1 := Steer(s, now);
      Control(s, now) == WithInput(s1, s1.input.(attackHandled := s.input.attack))
  {
    SteeredExpiry(s, now);
    var s1 := Steer(s, now);
    var s2 := Attack(s1, now);
    assert s2 == WithInput(s1, s1.input.(attackHandled := s.input.attack));
    assert Expire(s2, now) == s2;
  }

  /** The player owns no hitbox and none is in the world. */
  predicate HitboxFree(s: Scene)
    requires PlayerIdOk(s)
  {
    PlayerOf(s).attackHitbox == None
    && forall id :: id in s.world && id in s.bodies ==> s.bodies[id].kind != PlayerHitbox
  }

  /** Starting without a hitbox, the code as written never gets one into the world. */
  lemma AsWrittenNeverArms(s: Scene, now: int)
    requires Wf(s) && HitboxFree(s)
    ensures HitboxFree(ControlAsWritten(s, now).scene)
  {
    var r := ControlAsWritten(s, now).scene;
    forall id | id in r.world && id in r.bodies
      ensures r.bodies[id].kind != PlayerHitbox
    {
      if id == PlayerId(s) {
        assert r.bodies[id].kind == Player;
      }
    }
  }

  /** The corrected controller: an attack press-edge puts a hitbox into the world. */
  lemma AttackPressArms(s: Scene, now: int)
    requires Wf(s) && !Halted(s.game) && s.input.attack && !s.input.attackHandled
    ensures var r := Control(s, now);
      && s.nextId in r.world && r.bodies[s.nextId].kind == PlayerHitbox
      && PlayerOf(r).attackHitbox == Some(s.nextId)
  {
    AttackPress(s, now);
  }
}
