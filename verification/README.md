# Race of Dragons: player controller model

A Dafny model of the core of the game's player script, `Assets/Scripts/Player/PlayerController.cs`.
It covers two parts.

The first part is the dragon's resource record, `DragonPropertie`. It has a level, energy, experience,
an element (Fire, Ice or Thunder), a skill cooldown and an energy regeneration rate. The model covers
its constructors and the flat string-keyed record it is saved to (`ToDictionary`) and loaded from (the
dictionary constructor). This part is pure and lives in module `Dragon` (`dragon.dfy`).

The second part is the `PlayerController`. It is the object the engine calls once per frame
(`Update`) and on collisions and triggers. It also uses items and skills and resets a fallen player.
It drives a state machine that holds one state per movement mode.
- Module `StateMachines` (`state_machine.dfy`) reduces that machine to a set of registered state tags
  and a current tag.
- Module `PlayerRules` (`player_rules.dfy`) states each operation as a function on a snapshot of the
  controller's fields. It also proves what holds over a run of frames.
- Module `Player` (`player.dfy`) holds the `PlayerController` class. Its fields are updated in place,
  and each method is proved to change them exactly as the matching `PlayerRules` function says.

Modelling choices:
- The stored record is a `map<string, int>`. Loading reports the first failing key, in the order the
  constructor reads them: level, energy, exp, element. A missing key, a value outside the 32-bit
  `int` range, and an element code outside 0..2 are each an explicit error.
- Durations, angles and positions are `real`. Only comparison, addition and multiplication by 1.5
  occur on them.
- Engine inputs are parameters: the frame's `deltaTime`, whether the skill key went down this frame,
  the random roll for the element, the network owner id, and the owner id of an IceAge zone. The
  engine's global `Time.timeScale` is an `EngineTime` object that `Update` writes.
- `playerState` is a field of its own, separate from the state machine's current state. The
  controller only reads it; the per-state classes write it. Those classes are not part of this
  model, so what the current state does in the middle of `Update` (line 194) is an input of each
  frame, a `StateStep`. It gives the player-state flag the state leaves, the state it switches to
  if any, and the speed angle it sets if any.

## Model

| member | source | states |
|---|---|---|
| Dragon.ElementCode | Assets/Scripts/Player/PlayerController.cs:6-11 | the stored codes are Fire = 0, Ice = 1, Thunder = 2 |
| Dragon.ElementOfCode | Assets/Scripts/Player/PlayerController.cs:48 | a code names an element exactly when it is in 0..2, and then it is that element's code |
| Dragon.ElementCodeRoundTrip | Assets/Scripts/Player/PlayerController.cs:6-11 | converting an element to its code and back gives the same element |
| Dragon.WithElement | Assets/Scripts/Player/PlayerController.cs:26-41 | `DragonPropertie(ele)` keeps the element and leaves level 1, energy 100, exp 0, cooldown 30 s, regeneration 3 |
| Dragon.WithRandomElement | Assets/Scripts/Player/PlayerController.cs:33-36 | the default constructor's element is the one coded by the roll in 0..2; every other field is at its default |
| Dragon.ToDictionary | Assets/Scripts/Player/PlayerController.cs:51-60 | the record has exactly the keys level, energy, exp and element, holds the three integers, and holds the element as its code 0, 1 or 2 |
| Dragon.ParseInt32 | Assets/Scripts/Player/PlayerController.cs:45-48 | reading one field fails for a missing key or a value outside the 32-bit range; otherwise it gives the stored value |
| Dragon.FromDictionary | Assets/Scripts/Player/PlayerController.cs:43-49 | loading succeeds exactly when all four keys are present, in range, and the element code is 0..2; it then gives the stored values with cooldown and regeneration at their defaults; the first failing key in read order is the error reported |
| Dragon.RoundTrip | Assets/Scripts/Player/PlayerController.cs:43-60 | saving then loading gives back level, energy, exp and element; cooldown and regeneration come back at their defaults |
| Dragon.RoundTripConstructed | Assets/Scripts/Player/PlayerController.cs:38-60 | a record made by `DragonPropertie(ele)` survives saving and loading unchanged |
| Dragon.LoadThenSave | Assets/Scripts/Player/PlayerController.cs:43-60 | loading then saving gives back exactly the input's four stored fields |
| Dragon.IceRecordExample | Assets/Scripts/Player/PlayerController.cs:43-60 | the record {level 3, energy 50, exp 10, element 1} loads as an Ice dragon and saves back to itself |
| StateMachines.StateMachine.constructor | Assets/Scripts/Player/PlayerController.cs:145 | a new machine is in its initial state, which is the only state registered |
| StateMachines.StateMachine.AddState | Assets/Scripts/Player/PlayerController.cs:148-154 | registering adds the tag, leaves the current state alone, and reports a tag registered twice |
| StateMachines.StateMachine.ChangeState | Assets/Scripts/Player/PlayerController.cs:156 | a registered tag becomes current; an unregistered one is refused and nothing changes; the machine never leaves its registered states |
| PlayerRules.TimeScaleFor | Assets/Scripts/Player/PlayerController.cs:177-180 | the time scale is below 1 exactly when the player is slowed |
| PlayerRules.Initial | Assets/Scripts/Player/PlayerController.cs:70-90 | a new controller is not controllable, is Waiting, has no shield and no slow-down, has timer 0, safe position at the origin and cap 20 |
| PlayerRules.ResetPosition | Assets/Scripts/Player/PlayerController.cs:303-307 | the body moves to the safe position and the state becomes Waiting; nothing else changes |
| PlayerRules.UserSkill | Assets/Scripts/Player/PlayerController.cs:249-273 | a Thunder dragon switches to ThunderBoost; Fire and Ice dragons change none of the controller's fields |
| PlayerRules.UserItem | Assets/Scripts/Player/PlayerController.cs:275-301 | Shield raises the shield, SpeedUp multiplies the speed angle by 1.5, and nothing else changes |
| PlayerRules.OnCollisionEnter | Assets/Scripts/Player/PlayerController.cs:213-219 | a Platform contact makes the state Run; any other tag changes nothing |
| PlayerRules.OnTriggerEnter | Assets/Scripts/Player/PlayerController.cs:221-234 | the player becomes slowed only by another player's IceAge zone while unshielded; Water makes the state FallInWater; nothing else changes |
| PlayerRules.OnTriggerExit | Assets/Scripts/Player/PlayerController.cs:236-244 | leaving another player's IceAge zone clears the slow flag, shield or not; every other exit changes nothing |
| PlayerRules.StateUpdate | Assets/Scripts/Player/PlayerController.cs:194 | the player-state flag becomes the one the step reports; the state and the speed angle take the step's values when it gives them; nothing else changes |
| PlayerRules.Tick | Assets/Scripts/Player/PlayerController.cs:172-211 | frozen: nothing changes; otherwise the player-state flag is the one the current state left, the speed angle ends capped and a value under the cap that the state did not touch is kept, the timer grows by the frame time, the safe position is resampled and the timer zeroed only after 2 s while the flag is Flying above ground, and below y = -10 the body goes back to the safe position in Waiting |
| PlayerRules.PlayKeepsSettings | Assets/Scripts/Player/PlayerController.cs:172-211 | no run of frames changes the control gate, the cap, the dragon, the shield or the slow flag |
| PlayerRules.FrozenPlay | Assets/Scripts/Player/PlayerController.cs:174-175 | while not controllable, any run of frames leaves every field as it was; only the engine moves the body |
| PlayerRules.PlayCapsSpeed | Assets/Scripts/Player/PlayerController.cs:196 | after any frame of a controllable run, the speed angle is within the cap |
| PlayerRules.SafePosWasAboveGround | Assets/Scripts/Player/PlayerController.cs:200-205 | the safe position is always the starting one or a position some frame had above ground |
| PlayerRules.KillPlaneLandsAboveGround | Assets/Scripts/Player/PlayerController.cs:200-210 | a controllable body that falls below the kill plane is put back, in Waiting, at the start's safe position or at a position it held above ground |
| PlayerRules.NoResetAboveKillPlane | Assets/Scripts/Player/PlayerController.cs:207-210 | while no frame is below the kill plane, no reset happens: the body ends where the last frame put it, whatever the state |
| Player.PlayerController.constructor | Assets/Scripts/Player/PlayerController.cs:142-165 | the field initialisers and `Awake` register the seven player states and leave the controller in its initial snapshot, in Waiting |
| Player.PlayerController.Update | Assets/Scripts/Player/PlayerController.cs:172-211 | the fields change as `Tick` says, and the time scale is set from the slow flag only when controllable |
| Player.PlayerController.RunCurrentState | Assets/Scripts/Player/PlayerController.cs:194 | the current state's per-frame step sets the player-state flag, switches state and sets the speed angle as reported, and changes nothing else |
| Player.PlayerController.OnCollisionEnter2D | Assets/Scripts/Player/PlayerController.cs:213-219 | the fields change as `OnCollisionEnter` says |
| Player.PlayerController.OnTriggerEnter2D | Assets/Scripts/Player/PlayerController.cs:221-234 | the fields change as `OnTriggerEnter` says |
| Player.PlayerController.OnTriggerExit2D | Assets/Scripts/Player/PlayerController.cs:236-244 | the fields change as `OnTriggerExit` says |
| Player.PlayerController.UserSkill | Assets/Scripts/Player/PlayerController.cs:249-273 | the fields change as `PlayerRules.UserSkill` says |
| Player.PlayerController.UserItem | Assets/Scripts/Player/PlayerController.cs:275-301 | the fields change as `PlayerRules.UserItem` says |
| Player.PlayerController.ResetPosition | Assets/Scripts/Player/PlayerController.cs:303-307 | the fields change as `PlayerRules.ResetPosition` says |

## Left out

- Dragon.FromDictionary: an element code outside 0..2 is reported as `BadElement`. The C# cast at line 48 does no range check and would store an enum value that names no element.
- Dragon.FromDictionary: stored values are integers. A value whose text is not a number (`FormatException`) and a null dictionary are not modelled.
- `CalculateAlpha` and the facing rotation (lines 133-139, 188-192) are left out. They use floating-point trigonometry and engine transforms.
- The per-state classes and the generic `StateMachine<T>` are not part of this model, and neither is the empty state-change listener (lines 158-161). The refusal of an unknown or duplicate tag is this model's choice for that unseen class.
- PlayerRules.PlayKeepsSettings: the current state's per-frame step (line 194) is taken to write only the player-state flag, the current state and the speed angle. Writes it could make to the other public fields (control gate, cap, shield, safe position, dragon) or to the position are not modelled. `isSlow` and `timer` are private, so only the controller writes them.
- The entry and exit actions that `ChangeState` runs (lines 156, 217, 231, 263, 306) are not modelled; the switch only changes the current state.
- Networked object spawns (`PhotonNetwork.Instantiate` for Fireball, ThunderBoost, IceAge, BubbleShield and Rocket) and the IceAge zone's 15 s lifetime are left out. They are network SDK calls.
- The Energy item's `skillController.ReduceTimeCoolDown(5)` (line 288) is left out. `SkillController` is not part of this model; the item changes none of the controller's own fields.
- The networked `PosX` and `PrevPos` properties (lines 107-130) are left out. They are network property store accesses.
- `PlayerId` is the constant `playerId`. An IceAge zone's owner id is a parameter. The zone lookup through `GetComponent`, which could be null, is not modelled.
- `Time.deltaTime`, `Input.GetKeyDown` and `Random.Range` are parameters. `GameConsts.PLAYER_SPEED_ANGLE_DEFAULT` is a constructor parameter, since its value is not given.
- `float` rounding is not modelled: arithmetic is exact on `real`.
- The `Animator` and `Rigidbody2D` lookups, the empty `Start`, the `GetStateMachine` accessor and the debug log in `UserItem` carry no logic and are left out.
- `Assets/Scripts/Utility/NameInPlaceHolderController.cs` (UI text display) and `Assets/Scripts/Common/GameConsts.cs` (UI message strings) are not part of this model.
- The cooldown and energy economy described for the resource record (skill use blocked while cooling down, energy regeneration) is not in `PlayerController.cs`. The record here only carries `timeCooldown` and `speedRecoverEnergy` as values.
- A corrupt stored record is an error result, as the code throws. There is no fallback to a default record with a random element.
