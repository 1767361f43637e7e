/**
 * The player controller as the object the engine calls back: its fields are
 * updated in place by `Update`, the collision and trigger callbacks, `UserSkill`,
 * `UserItem` and `ResetPosition`. Every method is proved to change the fields
 * exactly as the matching function of module `PlayerRules` says.
 */
module Player {
  import opened Dragon
  import SM = StateMachines
  import opened PlayerRules

  /** The engine's global clock setting that `Update` writes. */
  class EngineTime {
    var timeScale: real

    constructor ()
      ensures timeScale == 1.0
    {
      timeScale := 1.0;
    }
  }

  class PlayerController {
    const stateMachine: SM.StateMachine
    /** `photonView.ownerId`, fixed for the life of the controller. */
    const playerId: int

    var controlable: bool
    var speedAngle: real
    var maxSpeedAngle: real
    var dragonPropertie: DragonProperty
    var hasShield: bool
    var playerState: PlayerState
    var safePos: Vec3
    var isSlow: bool
    var timer: real
    /** The body's position, which the physics engine also moves between frames. */
    var position: Vec3

    /** Every state tag is registered with the machine, so no switch is refused. */
    ghost predicate Valid()
      reads this, stateMachine
    {
      stateMachine.Valid() && PlayerTags + {SM.Init} <= stateMachine.registered
    }

    /** The fields as one value, the machine's current state included. */
    function Snap(): Snapshot
      reads this, stateMachine
    {
      Snapshot(controlable, speedAngle, maxSpeedAngle, dragonPropertie, hasShield, playerState,
               safePos, isSlow, timer, position, stateMachine.current, playerId)
    }

    /**
     * The field initialisers followed by `Awake`: a machine started in its
     * initial state, the seven player states registered, then Waiting.
     */
    constructor (speedAngleDefault: real, dragon: DragonProperty, ownerId: int, spawn: Vec3)
      ensures Valid() && fresh(stateMachine)
      ensures stateMachine.registered == PlayerTags + {SM.Init}
      ensures Snap() == Initial(speedAngleDefault, dragon, ownerId, spawn)
    {
      stateMachine := new SM.StateMachine(SM.Init);
      playerId := ownerId;
      controlable := false;
      speedAngle := speedAngleDefault;
      maxSpeedAngle := DefaultMaxSpeedAngle;
      dragonPropertie := dragon;
      hasShield := false;
      playerState := Flying;
      safePos := Origin;
      isSlow := false;
      timer := 0.0;
      position := spawn;
      new;
      var _ := stateMachine.AddState(SM.Waiting);
      var _ := stateMachine.AddState(SM.Fly);
      var _ := stateMachine.AddState(SM.Fall);
      var _ := stateMachine.AddState(SM.Run);
      var _ := stateMachine.AddState(SM.Burning);
      var _ := stateMachine.AddState(SM.ThunderBoost);
      var _ := stateMachine.AddState(SM.FallInWater);
      var _ := stateMachine.ChangeState(SM.Waiting);
    }

    /**
     * One frame of the engine's update loop; `step` is what the current state's
     * own per-frame behaviour does.
     */
    method Update(time: EngineTime, deltaTime: real, skillKey: bool, step: StateStep)
      requires Valid()
      modifies this, stateMachine, time
      ensures Valid() && stateMachine.registered == old(stateMachine.registered)
      ensures Snap() == Tick(old(Snap()), deltaTime, skillKey, step)
      ensures time.timeScale == if old(controlable) then TimeScaleFor(old(isSlow)) else old(time.timeScale)
    {
      if !controlable {
        return;
      }

      if isSlow {
        time.timeScale := 0.5;
      } else {
        time.timeScale := 1.0;
      }

      if skillKey {
        UserSkill();
      }

      // The facing rotation is not part of this model.

      RunCurrentState(step);

      speedAngle := Min(speedAngle, maxSpeedAngle);

      timer := timer + deltaTime;
      if timer >= SafePosInterval && playerState == Flying && position.y > 0.0 {
        timer := 0.0;
        safePos := position;
      }

      if position.y < KillPlaneY {
        ResetPosition();
      }
    }

    /**
     * `stateMachine.Update(deltaTime)`: the current state's own per-frame
     * behaviour, as `step` reports it.
     */
    method RunCurrentState(step: StateStep)
      requires Valid()
      modifies this, stateMachine
      ensures Valid() && stateMachine.registered == old(stateMachine.registered)
      ensures Snap() == StateUpdate(old(Snap()), step)
    {
      playerState := step.playerState;
      if step.switchTo.Some? {
        EveryTagRegistered(step.switchTo.value);
        var _ := stateMachine.ChangeState(step.switchTo.value);
      }
      if step.speedAngle.Some? {
        speedAngle := step.speedAngle.value;
      }
    }

    method OnCollisionEnter2D(tag: string)
      requires Valid()
      modifies stateMachine
      ensures Valid() && stateMachine.registered == old(stateMachine.registered)
      ensures Snap() == OnCollisionEnter(old(Snap()), tag)
    {
      if tag == PlatformTag {
        var _ := stateMachine.ChangeState(SM.Run);
      }
    }

    /** `ownerId` is the id of the player who cast the IceAge zone entered. */
    method OnTriggerEnter2D(tag: string, ownerId: int)
      requires Valid()
      modifies this, stateMachine
      ensures Valid() && stateMachine.registered == old(stateMachine.registered)
      ensures Snap() == OnTriggerEnter(old(Snap()), tag, ownerId)
    {
      if tag == IceAgeTag {
        if ownerId != playerId && hasShield == false {
          isSlow := true;
        }
      } else if tag == WaterTag {
        var _ := stateMachine.ChangeState(SM.FallInWater);
      }
    }

    method OnTriggerExit2D(tag: string, ownerId: int)
      requires Valid()
      modifies this
      ensures Valid()
      ensures Snap() == OnTriggerExit(old(Snap()), tag, ownerId)
    {
      if tag == IceAgeTag {
        if ownerId != playerId {
          isSlow := false;
        }
      }
    }

    method UserSkill()
      requires Valid()
      modifies stateMachine
      ensures Valid() && stateMachine.registered == old(stateMachine.registered)
      ensures Snap() == PlayerRules.UserSkill(old(Snap()))
    {
      if dragonPropertie.element == Thunder {
        var _ := stateMachine.ChangeState(SM.ThunderBoost);
      }
    }

    method UserItem(item: Item)
      requires Valid()
      modifies this
      ensures Valid()
      ensures Snap() == PlayerRules.UserItem(old(Snap()), item)
    {
      if item == Shield {
        hasShield := true;
      }
      if item == SpeedUp {
        speedAngle := speedAngle * SpeedUpFactor;
      }
    }

    method ResetPosition()
      requires Valid()
      modifies this, stateMachine
      ensures Valid() && stateMachine.registered == old(stateMachine.registered)
      ensures Snap() == PlayerRules.ResetPosition(old(Snap()))
    {
      position := safePos;
      var _ := stateMachine.ChangeState(SM.Waiting);
    }
  }
}
