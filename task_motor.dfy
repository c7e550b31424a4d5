/** The motor task: every cycle it reads the actuation share its `motor_val`
    selects and hands the value to its motor driver. It never writes a share. */
module TaskMotor {
  import opened CArith
  import opened Shares
  import opened MotorDriver

  class MotorTask {
    var motor: Motor
    /** `motor_val`: 0 selects motor A's share, anything else motor B's. */
    var motorVal: int
    var shareA: Share<Int16>
    var shareB: Share<Int16>
    var runs: nat

    constructor (motor: Motor, motorNum: int, shareA: Share<Int16>, shareB: Share<Int16>)
      requires 0 <= motorNum < 256
      ensures this.motor == motor && motorVal == motorNum
      ensures this.shareA == shareA && this.shareB == shareB && runs == 0
    {
      this.motor := motor;
      motorVal := motorNum;
      this.shareA := shareA;
      this.shareB := shareB;
      runs := 0;
    }

    /** One iteration of the `run` loop: exactly one `setActuation` call, with
        the value just read from the selected share. */
    method Cycle()
      modifies this`runs, motor
      ensures motor.Current() == Drive(old(if motorVal == 0 then shareA.value else shareB.value))
      ensures motor.writes == old(motor.writes)
              + ActuationWrites(old(if motorVal == 0 then shareA.value else shareB.value),
                                motor.in1Chan, motor.in2Chan)
      ensures motor.in1Chan == old(motor.in1Chan) && motor.in2Chan == old(motor.in2Chan)
      ensures shareA.value == old(shareA.value) && shareB.value == old(shareB.value)
      ensures runs == old(runs) + 1
    {
      if motorVal == 0 {
        var v := shareA.Get();
        motor.SetActuation(v);
      } else {
        var v := shareB.Get();
        motor.SetActuation(v);
      }
      runs := runs + 1;
    }
  }
}
