/** The controller task: it sets the gains once, then every cycle takes a copy
    of accelerometer A's buffer, averages it and runs the PI step, which
    publishes the two motor signals. Accelerometer B's buffer is never read. */
module TaskController {
  import opened CArith
  import opened Shares
  import opened Controller

  class ControllerTask {
    var controller: Balance
    var accelA: Share<AccelBuf>
    var accelB: Share<AccelBuf>
    /** The local `buffer` of `run`, kept from one cycle to the next. */
    var buffer: AccelBuf
    /** Whether the part of `run` before the loop has executed. */
    var started: bool
    var runs: nat

    /** The motor shares are distinct, the setpoints keep their default 0
        (nothing sets them), and once started the gains are those of
        `set_gains`. */
    predicate Valid()
      reads this, controller
    {
      && controller.motorA != controller.motorB
      && controller.setX == 0.0 && controller.setY == 0.0
      && (started ==> controller.kp == Kp && controller.ki == Ki)
    }

    constructor (controller: Balance, accelA: Share<AccelBuf>, accelB: Share<AccelBuf>)
      requires controller.motorA != controller.motorB
      requires controller.setX == 0.0 && controller.setY == 0.0
      ensures Valid() && !started && runs == 0
      ensures this.controller == controller && this.accelA == accelA && this.accelB == accelB
    {
      this.controller := controller;
      this.accelA := accelA;
      this.accelB := accelB;
      buffer := accelA.value;
      started := false;
      runs := 0;
    }

    /** The start of `run`: one `get` of accelerometer A's buffer, then the
        single `set_gains` call. */
    method Start()
      requires Valid() && !started
      modifies this`buffer, this`started, controller`kp, controller`ki
      ensures Valid() && started
      ensures buffer == accelA.value
      ensures controller.kp == Kp && controller.ki == Ki
    {
      buffer := accelA.Get();
      controller.SetGains();
      started := true;
    }

    /** The averages and integral sums the next cycle will work with, and the
        condition that its float-to-`int16_t` conversions are defined. */
    predicate CycleDefined()
      reads this, controller, accelA
    {
      && ConvertDefined(accelA.value)
      && FitsInt16(controller.SignalX(Average(accelA.value, 0) as real))
      && FitsInt16(controller.SignalY(Average(accelA.value, 1) as real))
    }

    /** One iteration of the `run` loop: `get`, `convert`, `control`. */
    method Cycle()
      requires Valid() && started && CycleDefined()
      modifies this`buffer, this`runs
      modifies controller`xAccel, controller`yAccel, controller`zAccel
      modifies controller`esumX, controller`esumY, controller.motorA, controller.motorB
      ensures Valid()
      ensures buffer == accelA.value
      ensures controller.xAccel == Average(buffer, 0) as real
      ensures controller.yAccel == Average(buffer, 1) as real
      ensures controller.zAccel == Average(buffer, 2) as real
      ensures controller.esumX == old(controller.esumX) + (0.0 - controller.xAccel) * DtX
      ensures controller.esumY == old(controller.esumY) + (0.0 - controller.yAccel) * DtY
      ensures controller.motorA.value
              == Trunc((0.0 - controller.xAccel) * Kp + controller.esumX * Ki)
      ensures controller.motorB.value
              == Trunc((0.0 - controller.yAccel) * Kp + controller.esumY * Ki)
      ensures accelA.value == old(accelA.value) && accelB.value == old(accelB.value)
      ensures runs == old(runs) + 1
    {
      buffer := accelA.Get();
      controller.Convert(buffer);
      controller.Control();
      runs := runs + 1;
    }
  }
}
