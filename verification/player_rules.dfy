/**
 * The player controller's rules as functions on a snapshot of its fields: what
 * one frame's `Update`, each collision and trigger callback, `UserSkill`,
 * `UserItem` and `ResetPosition` do to the fields, and what follows for a run of
 * frames. The `PlayerController` class in module `Player` is proved to follow
 * these functions.
 */
module PlayerRules {
  import opened Dragon
  import SM = StateMachines

  /** The controller's own mode flag, kept beside the state machine's current state. */
  datatype PlayerState = Flying | Failing | Running | Burning | Slowing | FallInWater

  /** The items a player can use. */
  datatype Item = Shield | Energy | SpeedUp | Rocket

  /** A world position. */
  datatype Vec3 = Vec3(x: real, y: real, z: real)

  const Origin: Vec3 := Vec3(0.0, 0.0, 0.0)

  /** Below this height the body is put back at its safe position. */
  const KillPlaneY: real := -10.0
  /** Seconds between two samples of the safe position. */
  const SafePosInterval: real := 2.0
  /** The factor the SpeedUp item multiplies the speed angle by. */
  const SpeedUpFactor: real := 1.5
  /** Initial value of `maxSpeedAngle`. */
  const DefaultMaxSpeedAngle: real := 20.0

  /** Collider tags the callbacks react to. */
  const PlatformTag: string := "Platform"
  const WaterTag: string := "Water"
  const IceAgeTag: string := "IceAge"

  /** The states `Awake` registers after the initial one. */
  const PlayerTags: set<SM.StateTag> :=
    {SM.Waiting, SM.Fly, SM.Fall, SM.Run, SM.Burning, SM.ThunderBoost, SM.FallInWater}

  /** Every state tag is one of the seven player states or the initial one. */
  lemma EveryTagRegistered(t: SM.StateTag)
    ensures t in PlayerTags + {SM.Init}
  {
    match t
    case Init =>
    case Waiting =>
    case Fly =>
    case Fall =>
    case Run =>
    case Burning =>
    case ThunderBoost =>
    case FallInWater =>
  }

  /** The controller's fields, the state machine's current state and the body's position. */
  datatype Snapshot = Snapshot(
    controlable: bool,
    speedAngle: real,
    maxSpeedAngle: real,
    dragon: DragonProperty,
    hasShield: bool,
    playerState: PlayerState,
    safePos: Vec3,
    isSlow: bool,
    timer: real,
    pos: Vec3,
    state: SM.StateTag,
    playerId: int)

  function Min(a: real, b: real): (m: real)
    ensures m <= a && m <= b && (m == a || m == b)
  {
    if a <= b then a else b
  }

  /** The engine's time scale while `Update` runs: halved while the player is slowed. */
  function TimeScaleFor(isSlow: bool): (scale: real)
    ensures 0.0 < scale <= 1.0
    ensures scale < 1.0 <==> isSlow
  {
    if isSlow then 0.5 else 1.0
  }

  /**
   * The controller right after its field initialisers and `Awake`: not yet
   * controllable, in the Waiting state, with everything else at its default.
   * The initial speed angle, the dragon record, the network owner id and the
   * spawn position are set by code outside the controller and are parameters.
   */
  function Initial(speedAngle: real, dragon: DragonProperty, playerId: int, pos: Vec3): (s: Snapshot)
    ensures !s.controlable && s.state == SM.Waiting
    ensures s.speedAngle == speedAngle && s.maxSpeedAngle == DefaultMaxSpeedAngle
    ensures !s.hasShield && !s.isSlow && s.timer == 0.0 && s.safePos == Origin
    ensures s.playerState == Flying && s.dragon == dragon && s.playerId == playerId && s.pos == pos
  {
    Snapshot(false, speedAngle, DefaultMaxSpeedAngle, dragon, false, Flying, Origin, false, 0.0,
             pos, SM.Waiting, playerId)
  }

  /**
   * `ResetPosition`: the body goes back to the safe position and the machine to
   * Waiting; nothing else changes.
   */
  function ResetPosition(s: Snapshot): (r: Snapshot)
    ensures r.pos == s.safePos && r.state == SM.Waiting
    ensures r == s.(pos := r.pos, state := r.state)
  {
    s.(pos := s.safePos, state := SM.Waiting)
  }

  /**
   * `UserSkill`, on the controller's own fields: only a Thunder dragon changes
   * state, to ThunderBoost. The networked objects every element spawns are not
   * part of this model.
   */
  function UserSkill(s: Snapshot): (r: Snapshot)
    ensures s.dragon.element == Thunder ==> r.state == SM.ThunderBoost
    ensures s.dragon.element != Thunder ==> r == s
    ensures r == s.(state := r.state)
  {
    if s.dragon.element == Thunder then s.(state := SM.ThunderBoost) else s
  }

  /** `UserItem`, on the controller's own fields. */
  function UserItem(s: Snapshot, item: Item): (r: Snapshot)
    ensures r.hasShield <==> s.hasShield || item == Shield
    ensures r.speedAngle == if item == SpeedUp then s.speedAngle * SpeedUpFactor else s.speedAngle
    ensures r == s.(hasShield := r.hasShield, speedAngle := r.speedAngle)
  {
    match item
    case Shield => s.(hasShield := true)
    case Energy => s
    case SpeedUp => s.(speedAngle := s.speedAngle * SpeedUpFactor)
    case Rocket => s
  }

  /** `OnCollisionEnter2D`: touching a platform switches to Run. */
  function OnCollisionEnter(s: Snapshot, tag: string): (r: Snapshot)
    ensures r.state == if tag == PlatformTag then SM.Run else s.state
    ensures r == s.(state := r.state)
  {
    if tag == PlatformTag then s.(state := SM.Run) else s
  }

  /**
   * `OnTriggerEnter2D`: another player's IceAge zone slows the player unless a
   * shield is up; water switches to FallInWater. `ownerId` is the id of the
   * player who cast the zone.
   */
  function OnTriggerEnter(s: Snapshot, tag: string, ownerId: int): (r: Snapshot)
    ensures r.isSlow <==> s.isSlow || (tag == IceAgeTag && ownerId != s.playerId && !s.hasShield)
    ensures r.state == if tag == WaterTag then SM.FallInWater else s.state
    ensures r == s.(isSlow := r.isSlow, state := r.state)
  {
    if tag == IceAgeTag then
      if ownerId != s.playerId && !s.hasShield then s.(isSlow := true) else s
    else if tag == WaterTag then
      s.(state := SM.FallInWater)
    else
      s
  }

  /** `OnTriggerExit2D`: leaving another player's IceAge zone ends the slow-down, shield or not. */
  function OnTriggerExit(s: Snapshot, tag: string, ownerId: int): (r: Snapshot)
    ensures r.isSlow <==> s.isSlow && !(tag == IceAgeTag && ownerId != s.playerId)
    ensures r == s.(isSlow := r.isSlow)
  {
    if tag == IceAgeTag && ownerId != s.playerId then s.(isSlow := false) else s
  }

  /**
   * What the current state's own per-frame behaviour, which the state machine
   * runs in the middle of `Update`, leaves behind. The per-state classes are not
   * part of this model, so this is an input: the player-state flag they leave,
   * the state they switch to if any, and the speed angle they set if any.
   */
  datatype StateStep = StateStep(playerState: PlayerState, switchTo: Option<SM.StateTag>, speedAngle: Option<real>)

  /** Applies the current state's per-frame behaviour, as `step` reports it. */
  function StateUpdate(s: Snapshot, step: StateStep): (r: Snapshot)
    ensures r.playerState == step.playerState
    ensures r.state == if step.switchTo.Some? then step.switchTo.value else s.state
    ensures r.speedAngle == if step.speedAngle.Some? then step.speedAngle.value else s.speedAngle
    ensures r == s.(playerState := r.playerState, state := r.state, speedAngle := r.speedAngle)
  {
    s.(playerState := step.playerState,
       state := if step.switchTo.Some? then step.switchTo.value else s.state,
       speedAngle := if step.speedAngle.Some? then step.speedAngle.value else s.speedAngle)
  }

  /** Whether a frame that ends with timer value `timer` records the safe position. */
  predicate SamplesSafePos(playerState: PlayerState, pos: Vec3, timer: real) {
    timer >= SafePosInterval && playerState == Flying && pos.y > 0.0
  }

  /**
   * `Update` for one frame of `dt` seconds, `skillKey` telling whether the skill
   * key went down this frame and `step` what the current state's own behaviour
   * did. A frozen controller changes nothing. Otherwise the skill fires, the
   * current state runs, the speed angle is capped, the timer advances and the
   * safe position is sampled, and a body below the kill plane is reset.
   */
  function Tick(s: Snapshot, dt: real, skillKey: bool, step: StateStep): (r: Snapshot)
    ensures !s.controlable ==> r == s
    ensures s.controlable ==> r.playerState == step.playerState
    ensures s.controlable ==> r.speedAngle <= r.maxSpeedAngle
    ensures s.controlable ==>
              r.speedAngle == Min(if step.speedAngle.Some? then step.speedAngle.value else s.speedAngle,
                                  s.maxSpeedAngle)
    ensures s.controlable && step.speedAngle.None? && s.speedAngle <= s.maxSpeedAngle ==> r.speedAngle == s.speedAngle
    ensures (s.controlable && SamplesSafePos(step.playerState, s.pos, s.timer + dt))
              ==> r.safePos == s.pos && r.timer == 0.0
    ensures (s.controlable && !SamplesSafePos(step.playerState, s.pos, s.timer + dt))
              ==> r.safePos == s.safePos && r.timer == s.timer + dt
    ensures s.controlable ==> r.pos == if s.pos.y < KillPlaneY then s.safePos else s.pos
    ensures s.controlable ==> r.state == if s.pos.y < KillPlaneY then SM.Waiting
                                         else if step.switchTo.Some? then step.switchTo.value
                                         else if skillKey && s.dragon.element == Thunder then SM.ThunderBoost
                                         else s.state
    ensures r == s.(speedAngle := r.speedAngle, safePos := r.safePos, timer := r.timer, pos := r.pos,
                    state := r.state, playerState := r.playerState)
  {
    if !s.controlable then s
    else
      var skilled := if skillKey then UserSkill(s) else s;
      var stepped := StateUpdate(skilled, step);
      var capped := stepped.(speedAngle := Min(stepped.speedAngle, stepped.maxSpeedAngle));
      var timer := capped.timer + dt;
      var sampled := if SamplesSafePos(capped.playerState, capped.pos, timer)
                     then capped.(timer := 0.0, safePos := capped.pos)
                     else capped.(timer := timer);
      if sampled.pos.y < KillPlaneY then ResetPosition(sampled) else sampled
  }

  /**
   * One frame as the engine presents it: where the body is when `Update` reads
   * its position, the elapsed time, the skill key, and what the current state's
   * own behaviour did.
   */
  datatype Frame = Frame(pos: Vec3, dt: real, skillKey: bool, step: StateStep)

  /** Runs `Update` over a sequence of frames, placing the body where each frame says first. */
  function Play(s: Snapshot, frames: seq<Frame>): Snapshot
    decreases |frames|
  {
    if frames == [] then s
    else Play(Tick(s.(pos := frames[0].pos), frames[0].dt, frames[0].skillKey, frames[0].step), frames[1..])
  }

  /** The fields no frame of `Update` writes. */
  predicate SameSettings(a: Snapshot, b: Snapshot) {
    a.controlable == b.controlable && a.maxSpeedAngle == b.maxSpeedAngle && a.dragon == b.dragon
    && a.hasShield == b.hasShield && a.isSlow == b.isSlow && a.playerId == b.playerId
  }

  /**
   * `Update` never writes the control gate, the cap, the dragon, the shield or the
   * slow flag: only items and triggers change those.
   */
  lemma {:induction false} PlayKeepsSettings(s: Snapshot, frames: seq<Frame>)
    ensures SameSettings(Play(s, frames), s)
    decreases |frames|
  {
    if frames != [] {
      PlayKeepsSettings(Tick(s.(pos := frames[0].pos), frames[0].dt, frames[0].skillKey, frames[0].step), frames[1..]);
    }
  }

  /** A frozen controller ignores every frame: only the engine moves its body. */
  lemma {:induction false} FrozenPlay(s: Snapshot, frames: seq<Frame>)
    requires !s.controlable && frames != []
    ensures Play(s, frames) == s.(pos := frames[|frames| - 1].pos)
    decreases |frames|
  {
    var next := Tick(s.(pos := frames[0].pos), frames[0].dt, frames[0].skillKey, frames[0].step);
    if |frames| > 1 {
      FrozenPlay(next, frames[1..]);
    }
  }

  /** After any frame of a controllable run, the speed angle is within the cap. */
  lemma {:induction false} PlayCapsSpeed(s: Snapshot, frames: seq<Frame>)
    requires s.controlable && frames != []
    ensures Play(s, frames).speedAngle <= s.maxSpeedAngle
    decreases |frames|
  {
    var next := Tick(s.(pos := frames[0].pos), frames[0].dt, frames[0].skillKey, frames[0].step);
    if |frames| > 1 {
      PlayCapsSpeed(next, frames[1..]);
    }
  }

  /**
   * The safe position is only ever overwritten with a position that was above
   * ground: at every point of a run it is the one it started with or the body's
   * position in some frame with `y > 0`.
   */
  lemma {:induction false} SafePosWasAboveGround(s: Snapshot, frames: seq<Frame>)
    ensures var r := Play(s, frames);
            r.safePos == s.safePos
            || exists i :: 0 <= i < |frames| && r.safePos == frames[i].pos && frames[i].pos.y > 0.0
    decreases |frames|
  {
    if frames != [] {
      var next := Tick(s.(pos := frames[0].pos), frames[0].dt, frames[0].skillKey, frames[0].step);
      SafePosWasAboveGround(next, frames[1..]);
      var r := Play(s, frames);
      if r.safePos != s.safePos {
        if r.safePos == next.safePos {
          assert next.safePos == frames[0].pos && frames[0].pos.y > 0.0;
        } else {
          var i :| 0 <= i < |frames[1..]| && r.safePos == frames[1..][i].pos && frames[1..][i].pos.y > 0.0;
          assert frames[i + 1] == frames[1..][i];
        }
      }
    }
  }

  /** Running one more frame is one more `Tick` on where the run stopped. */
  lemma {:induction false} PlayAppend(s: Snapshot, frames: seq<Frame>, f: Frame)
    ensures Play(s, frames + [f]) == Tick(Play(s, frames).(pos := f.pos), f.dt, f.skillKey, f.step)
    decreases |frames|
  {
    if frames == [] {
      assert [] + [f] == [f];
    } else {
      var next := Tick(s.(pos := frames[0].pos), frames[0].dt, frames[0].skillKey, frames[0].step);
      assert (frames + [f])[0] == frames[0];
      assert (frames + [f])[1..] == frames[1..] + [f];
      PlayAppend(next, frames[1..], f);
    }
  }

  /**
   * Falling below the kill plane puts a controllable body back in the Waiting
   * state at the start's safe position or at a position it held above ground.
   */
  lemma KillPlaneLandsAboveGround(s: Snapshot, frames: seq<Frame>, f: Frame)
    requires s.controlable && f.pos.y < KillPlaneY
    ensures var r := Play(s, frames + [f]);
            r.state == SM.Waiting
            && (r.pos == s.safePos
                || exists i :: 0 <= i < |frames| && r.pos == frames[i].pos && frames[i].pos.y > 0.0)
  {
    PlayAppend(s, frames, f);
    PlayKeepsSettings(s, frames);
    SafePosWasAboveGround(s, frames);
  }

  /**
   * While no frame goes below the kill plane, no reset happens: the body ends
   * where the last frame put it, whatever the state.
   */
  lemma {:induction false} NoResetAboveKillPlane(s: Snapshot, frames: seq<Frame>)
    requires frames != []
    requires forall i :: 0 <= i < |frames| ==> frames[i].pos.y >= KillPlaneY
    ensures Play(s, frames).pos == frames[|frames| - 1].pos
    decreases |frames|
  {
    var next := Tick(s.(pos := frames[0].pos), frames[0].dt, frames[0].skillKey, frames[0].step);
    if |frames| > 1 {
      assert forall i :: 0 <= i < |frames[1..]| ==> frames[1..][i] == frames[i + 1];
      NoResetAboveKillPlane(next, frames[1..]);
    }
  }
}
