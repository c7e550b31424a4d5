/** The motor driver: a signed actuation signal becomes two PWM duty cycles,
    one per motor lead. A positive signal drives lead IN1, zero or a negative
    signal drives lead IN2, and the other lead is held at 0%. */
module MotorDriver {
  import opened CArith

  /** Largest duty cycle the PWM channels are configured for. */
  const MaxDuty := 100

  datatype Lead = In1 | In2

  /** One `set_duty_cycle(channel, duty)` call on the PWM object of a lead. */
  datatype DutyWrite = DutyWrite(lead: Lead, chan: int, duty: int)

  /** The duty cycles of the two leads. */
  datatype Duties = Duties(in1: int, in2: int)

  /** At most one lead is driven. */
  predicate Exclusive(d: Duties) {
    d.in1 == 0 || d.in2 == 0
  }

  /** The saturation step of `setActuation`. */
  function Clamp(s: int): (c: int)
    ensures -MaxDuty <= c <= MaxDuty
    ensures -MaxDuty <= s <= MaxDuty ==> c == s
    ensures s > MaxDuty ==> c == MaxDuty
    ensures s < -MaxDuty ==> c == -MaxDuty
  {
    var s1 := if s > MaxDuty then MaxDuty else s;
    if s1 < -MaxDuty then -MaxDuty else s1
  }

  /** The duties `setActuation(s)` leaves on the two leads. The signal can be
      read back from them (`in1 - in2`), both lie in [0, 100], and the lead
      that is driven is the one the sign of `s` selects. */
  function Drive(s: int): (d: Duties)
    ensures 0 <= d.in1 <= MaxDuty && 0 <= d.in2 <= MaxDuty
    ensures Exclusive(d)
    ensures d.in1 - d.in2 == Clamp(s)
    ensures d.in1 > 0 <==> s > 0
    ensures d.in2 > 0 <==> s < 0
  {
    var c := Clamp(s);
    if c > 0 then Duties(c, 0) else Duties(0, -1 * c)
  }

  /** Saturation: every signal above 100 acts as 100, every signal below -100
      as -100, and the two extremes drive one lead fully. */
  lemma Saturation(s: int)
    ensures s >= MaxDuty ==> Drive(s) == Drive(MaxDuty) == Duties(MaxDuty, 0)
    ensures s <= -MaxDuty ==> Drive(s) == Drive(-MaxDuty) == Duties(0, MaxDuty)
    ensures s == 0 ==> Drive(s) == Duties(0, 0)
  {
  }

  /** Two signals give the same duties exactly when they clamp to the same
      value: the duty pair encodes the clamped signal without loss. */
  lemma DriveEncodesClamp(s: int, t: int)
    ensures Drive(s) == Drive(t) <==> Clamp(s) == Clamp(t)
  {
  }

  /** The two `set_duty_cycle` calls of `setActuation(s)`, in the order they
      are made: the idle lead is zeroed first, then the driven lead is set. */
  function ActuationWrites(s: int, in1Chan: int, in2Chan: int): (w: seq<DutyWrite>)
    ensures |w| == 2 && w[0].duty == 0 && w[1].lead != w[0].lead
    ensures w[1].lead == (if s > 0 then In1 else In2)
    ensures 0 <= w[1].duty <= MaxDuty
  {
    var c := Clamp(s);
    if c > 0 then [DutyWrite(In2, in2Chan, 0), DutyWrite(In1, in1Chan, c)]
    else [DutyWrite(In1, in1Chan, 0), DutyWrite(In2, in2Chan, -1 * c)]
  }

  /** The effect of one `set_duty_cycle` call on the duty pair: the written
      lead takes the new duty, the other lead keeps its own, and a zeroing
      write leaves at most one lead driven whatever the duties were. */
  function Apply(d: Duties, w: DutyWrite): (r: Duties)
    ensures (if w.lead == In1 then r.in1 else r.in2) == w.duty
    ensures (if w.lead == In1 then r.in2 == d.in2 else r.in1 == d.in1)
    ensures w.duty == 0 ==> Exclusive(r)
  {
    match w.lead
    case In1 => d.(in1 := w.duty)
    case In2 => d.(in2 := w.duty)
  }

  /** Whatever the duties were before, the two writes of `setActuation(s)`
      leave exactly `Drive(s)`, and at most one lead is driven after each of
      them: the first write zeroes a lead, so the leads are never both driven
      even between the two writes. */
  lemma WritesKeepExclusive(d0: Duties, s: int, in1Chan: int, in2Chan: int)
    ensures var w := ActuationWrites(s, in1Chan, in2Chan);
      Apply(Apply(d0, w[0]), w[1]) == Drive(s)
    ensures var w := ActuationWrites(s, in1Chan, in2Chan);
      Exclusive(Apply(d0, w[0])) && Exclusive(Apply(Apply(d0, w[0]), w[1]))
  {
  }

  /** Repeating `setActuation(s)` on a motor already at `Drive(s)` changes
      nothing, not even between its two writes. */
  lemma RepeatChangesNothing(s: int, in1Chan: int, in2Chan: int)
    ensures var w := ActuationWrites(s, in1Chan, in2Chan);
      Apply(Drive(s), w[0]) == Drive(s) && Apply(Drive(s), w[1]) == Drive(s)
  {
  }

  /** `Motor`: the duty cycle currently on each lead's PWM channel, the
      channel numbers, and the log of `set_duty_cycle` calls made. */
  class Motor {
    var in1Duty: int
    var in2Duty: int
    var in1Chan: int
    var in2Chan: int
    var writes: seq<DutyWrite>

    function Current(): Duties
      reads this
    {
      Duties(in1Duty, in2Duty)
    }

    /** The field assignments of the constructor. The PWM channels are set up
        elsewhere, so their duties are whatever they were configured with. */
    constructor (in1Chan: int, in2Chan: int, in1Duty: int, in2Duty: int)
      ensures this.in1Chan == in1Chan && this.in2Chan == in2Chan
      ensures Current() == Duties(in1Duty, in2Duty) && writes == []
    {
      this.in1Duty := in1Duty;
      this.in2Duty := in2Duty;
      this.in2Chan := in2Chan;
      this.in1Chan := in1Chan;
      writes := [];
    }

    /** `hw_pwm::set_duty_cycle` on one lead. */
    method SetDutyCycle(lead: Lead, chan: int, duty: int)
      modifies this
      ensures Current() == Apply(old(Current()), DutyWrite(lead, chan, duty))
      ensures writes == old(writes) + [DutyWrite(lead, chan, duty)]
      ensures in1Chan == old(in1Chan) && in2Chan == old(in2Chan)
    {
      match lead {
        case In1 => in1Duty := duty;
        case In2 => in2Duty := duty;
      }
      writes := writes + [DutyWrite(lead, chan, duty)];
    }

    /** `Motor::setActuation`: saturate the signal to [-100, 100], then zero
        the idle lead and drive the other one. */
    method SetActuation(actuationSignal: Int16)
      modifies this
      ensures Current() == Drive(actuationSignal)
      ensures writes == old(writes) + ActuationWrites(actuationSignal, in1Chan, in2Chan)
      ensures in1Chan == old(in1Chan) && in2Chan == old(in2Chan)
    {
      var signal: int := actuationSignal;
      if signal > MaxDuty {
        signal := MaxDuty;
      }
      if signal < -MaxDuty {
        signal := -MaxDuty;
      }
      // the clamped signal is within [-100, 100], so its negation is a valid int16_t
      assert InInt16(-1 * signal);
      if signal > 0 {
        SetDutyCycle(In2, in2Chan, 0);
        SetDutyCycle(In1, in1Chan, signal);
      } else {
        SetDutyCycle(In1, in1Chan, 0);
        SetDutyCycle(In2, in2Chan, -1 * signal);
      }
    }
  }
}
