/** Kernel time helpers (apps/rover_controller/src/common/time_utils.c), with the clock reading as a parameter. */
module TimeUtils {

  /** True if the stamp is missing, or at least `timeout` ms old at `now`. */
  predicate IsExpired(now: int, stamp: int, timeout: int) {
    stamp <= 0 || timeout <= 0 || now - stamp >= timeout
  }

  function Elapsed(now: int, stamp: int): nat {
    if now - stamp > 0 then now - stamp else 0
  }

  /** For a real stamp and a real timeout the two agree, a stamp from the future included. */
  lemma ExpiredByElapsed(now: int, stamp: int, timeout: int)
    requires 0 < stamp && 0 < timeout
    ensures IsExpired(now, stamp, timeout) <==> timeout <= Elapsed(now, stamp)
  {
  }
}
