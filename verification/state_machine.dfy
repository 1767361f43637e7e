/**
 * The generic state machine the player controller drives. Its implementation and
 * the per-state behaviours are not part of this model: a state is reduced to the
 * tag of its class, and the machine to the set of registered tags and the tag of
 * the current state.
 */
module StateMachines {

  /** One tag per state class the player controller registers. */
  datatype StateTag = Init | Waiting | Fly | Fall | Run | Burning | ThunderBoost | FallInWater

  class StateMachine {
    var registered: set<StateTag>
    var current: StateTag

    /** The machine is never in a state that was not registered. */
    ghost predicate Valid()
      reads this
    {
      current in registered
    }

    /** A machine that starts in `initial`, the only state registered so far. */
    constructor (initial: StateTag)
      ensures Valid()
      ensures registered == {initial} && current == initial
    {
      registered := {initial};
      current := initial;
    }

    /** Registers a state; a state registered twice is refused and nothing changes. */
    method AddState(tag: StateTag) returns (ok: bool)
      requires Valid()
      modifies this
      ensures Valid()
      ensures ok == (tag !in old(registered))
      ensures registered == old(registered) + {tag}
      ensures current == old(current)
    {
      ok := tag !in registered;
      registered := registered + {tag};
    }

    /** Makes `tag` the current state; an unregistered tag is refused and nothing changes. */
    method ChangeState(tag: StateTag) returns (ok: bool)
      requires Valid()
      modifies this
      ensures Valid()
      ensures ok == (tag in old(registered))
      ensures current == (if ok then tag else old(current))
      ensures registered == old(registered)
    {
      ok := tag in registered;
      if ok {
        current := tag;
      }
    }
  }
}
