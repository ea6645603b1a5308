/** The watchdog feed policy (apps/rover_controller/src/safety/watchdog.c). */
module Watchdog {

  const SAFETY := 0
  const CONTROL := 1
  const COUNT := 2

  class Checkins {
    const checkins: array<bool>

    predicate Valid()
    {
      checkins.Length == COUNT
    }

    constructor ()
      ensures Valid() && fresh(checkins) && !checkins[SAFETY] && !checkins[CONTROL]
    {
      checkins := new bool[COUNT](_ => false);
    }

    /** Reports whether every subsystem has checked in since the last attempt, and starts a new window. */
    method Feed() returns (fed: bool)
      requires Valid()
      modifies checkins
      ensures fed <==> old(checkins[SAFETY] && checkins[CONTROL])
      ensures forall i | 0 <= i < COUNT :: !checkins[i]
    {
      fed := true;
      var i := 0;
      while i < COUNT
        invariant 0 <= i <= COUNT && checkins[..] == old(checkins[..])
        invariant fed && forall k | 0 <= k < i :: checkins[k]
      {
        if !checkins[i] {
          fed := false;
          break;
        }
        i := i + 1;
      }
      i := 0;
      while i < COUNT
        invariant 0 <= i <= COUNT
        invariant forall k | 0 <= k < i :: !checkins[k]
      {
        checkins[i] := false;
        i := i + 1;
      }
    }

    /** Marks a subsystem as alive; an unknown identifier is ignored. */
    method CheckIn(id: nat)
      requires Valid()
      modifies checkins
      ensures forall k | 0 <= k < COUNT :: checkins[k] == (old(checkins[k]) || k == id)
    {
      if id < COUNT {
        checkins[id] := true;
      }
    }
  }
}
