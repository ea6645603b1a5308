/** The odometry stub (apps/rover_controller/src/app/odometry.c): it stamps the wheel state and integrates nothing. */
module Odometry {

  class Tracker {
    var x: real
    var y: real
    var theta: real
    var linear: real
    var angular: real
    var stamp: int
    var valid: bool

    constructor ()
      ensures x == y == theta == linear == angular == 0.0 && stamp == 0 && !valid
    {
      x, y, theta, linear, angular, stamp, valid := 0.0, 0.0, 0.0, 0.0, 0.0, 0, false;
    }

    /** Takes over the stamp and validity of the wheel state; the pose stays where it is. */
    method Update(wheelStamp: int, wheelValid: bool)
      modifies this
      ensures linear == 0.0 && angular == 0.0 && stamp == wheelStamp && valid == wheelValid
      ensures x == old(x) && y == old(y) && theta == old(theta)
    {
      linear := 0.0;
      angular := 0.0;
      stamp := wheelStamp;
      valid := wheelValid;
    }
  }
}
