/** The balance controller: `convert` averages the five buffered samples of
    each axis in 16-bit integer arithmetic, and `control` runs one
    proportional-integral step per axis and publishes the two motor signals. */
module Controller {
  import opened CArith
  import opened Shares

  /** Gains written by `set_gains`. */
  const Kp: real := 0.15
  const Ki: real := 0.1

  /** Time steps `control` integrates the x and y errors with. */
  const DtX: real := 0.005
  const DtY: real := 0.01

  // ---------------------------------------------------------------- convert

  /** The `int16_t` running total of `convert` after adding slots 0..n-1 of
      one axis: each `tot += data` adds a float and truncates the result, so
      the new total is the previous total plus the slot with its fraction
      discarded toward zero. */
  function Accumulate(buf: AccelBuf, axis: Axis, n: nat): (t: int)
    requires n <= BufferSize
    ensures n == 0 ==> t == 0
    ensures n > 0 ==> var p := Accumulate(buf, axis, n - 1) as real + buf[n - 1][axis];
      (0.0 <= p ==> t as real <= p < t as real + 1.0) && (p < 0.0 ==> t as real - 1.0 < p <= t as real)
  {
    if n == 0 then 0 else Trunc(Accumulate(buf, axis, n - 1) as real + buf[n - 1][axis])
  }

  /** The exact sum of slots 0..n-1 of one axis (reference definition). */
  function Sum(buf: AccelBuf, axis: Axis, n: nat): real
    requires n <= BufferSize
  {
    if n == 0 then 0.0 else Sum(buf, axis, n - 1) + buf[n - 1][axis]
  }

  /** Every partial total fits in the 16-bit accumulator, so each
      float-to-`int16_t` conversion in the loop is defined. */
  predicate TotalsFit(buf: AccelBuf, axis: Axis) {
    forall n :: 1 <= n <= BufferSize ==> InInt16(Accumulate(buf, axis, n))
  }

  predicate ConvertDefined(buf: AccelBuf) {
    TotalsFit(buf, 0) && TotalsFit(buf, 1) && TotalsFit(buf, 2)
  }

  /** The average `convert` stores for one axis: the truncated total divided
      by the fixed 5 with C division, whatever the slots hold. */
  function Average(buf: AccelBuf, axis: Axis): (a: int)
    requires TotalsFit(buf, axis)
    ensures -6553 <= a <= 6553
    ensures var t := Accumulate(buf, axis, BufferSize);
      if t >= 0 then 0 <= t - a * BufferSize < BufferSize
      else 0 <= a * BufferSize - t < BufferSize
  {
    CDiv(Accumulate(buf, axis, BufferSize), BufferSize)
  }

  /** Each truncation loses less than one, so after n additions the 16-bit
      total is within n of the exact sum. */
  lemma {:induction false} AccumulateNearSum(buf: AccelBuf, axis: Axis, n: nat)
    requires n <= BufferSize
    ensures Sum(buf, axis, n) - n as real <= Accumulate(buf, axis, n) as real <= Sum(buf, axis, n) + n as real
  {
    if n > 0 {
      AccumulateNearSum(buf, axis, n - 1);
      var p := Accumulate(buf, axis, n - 1) as real + buf[n - 1][axis];
      assert p - 1.0 <= Trunc(p) as real <= p + 1.0;
    }
  }

  predicate IsInteger(r: real) {
    r.Floor as real == r
  }

  /** When the slots hold whole numbers, no truncation happens and the total
      is the exact sum. */
  lemma {:induction false} AccumulateOfIntegers(buf: AccelBuf, axis: Axis, n: nat)
    requires n <= BufferSize
    requires forall j :: 0 <= j < n ==> IsInteger(buf[j][axis])
    ensures Accumulate(buf, axis, n) as real == Sum(buf, axis, n)
  {
    if n > 0 {
      AccumulateOfIntegers(buf, axis, n - 1);
      var v := buf[n - 1][axis].Floor;
      TruncOfInteger(Accumulate(buf, axis, n - 1) + v);
    }
  }

  /** A buffer holding the same whole value `v` in every slot of an axis
      averages to exactly `v`. */
  lemma AverageOfConstant(buf: AccelBuf, axis: Axis, v: int)
    requires -6553 <= v <= 6553
    requires forall j :: 0 <= j < BufferSize ==> buf[j][axis] == v as real
    ensures TotalsFit(buf, axis) && Average(buf, axis) == v
  {
    forall n | 1 <= n <= BufferSize
      ensures Accumulate(buf, axis, n) == n * v
    {
      ConstantPrefix(buf, axis, v, n);
    }
  }

  lemma {:induction false} ConstantPrefix(buf: AccelBuf, axis: Axis, v: int, n: nat)
    requires n <= BufferSize
    requires forall j :: 0 <= j < BufferSize ==> buf[j][axis] == v as real
    ensures Accumulate(buf, axis, n) == n * v
  {
    if n > 0 {
      ConstantPrefix(buf, axis, v, n - 1);
      var m := (n - 1) * v + v;
      assert Accumulate(buf, axis, n) == m by {
        TruncOfInteger(m);
      }
      assert m == n * v;
    }
  }

  /** The divisor stays 5 while the buffer still holds its initial zeros: a
      single reading `v` in slot 0 averages to `v / 5` (truncated). */
  lemma StartupTransient(buf: AccelBuf, axis: Axis, v: int)
    requires InInt16(v)
    requires buf[0][axis] == v as real
    requires forall j :: 1 <= j < BufferSize ==> buf[j][axis] == 0.0
    ensures TotalsFit(buf, axis) && Average(buf, axis) == CDiv(v, BufferSize)
  {
    TruncOfInteger(v);
    assert Accumulate(buf, axis, 1) == v;
    assert Accumulate(buf, axis, 2) == v;
    assert Accumulate(buf, axis, 3) == v;
    assert Accumulate(buf, axis, 4) == v;
  }

  // ---------------------------------------------------------------- control

  /** The integral update: the error times the time step is added to the sum.
      With a positive time step the sum grows exactly when the error is
      positive and stays put exactly when the error is zero. */
  function Integrate(esum: real, err: real, dt: real): (r: real)
    ensures dt > 0.0 ==> (r > esum <==> err > 0.0) && (r == esum <==> err == 0.0)
  {
    esum + err * dt
  }

  /** The PI output, formed from the already updated integral. With
      non-negative gains it does not oppose an error and an integral that
      agree in sign. */
  function PiSignal(err: real, esum: real, kp: real, ki: real): (r: real)
    ensures 0.0 <= kp && 0.0 <= ki && 0.0 <= err && 0.0 <= esum ==> 0.0 <= r
    ensures 0.0 <= kp && 0.0 <= ki && err <= 0.0 && esum <= 0.0 ==> r <= 0.0
  {
    err * kp + esum * ki
  }

  /** The error of this cycle is integrated before the output is formed, so
      the output exceeds the PI output on the previous integral by ki·e·dt;
      at the setpoint the integral does not move and alone makes up the
      output. */
  lemma IntegrateFirst(err: real, esum: real, dt: real, kp: real, ki: real)
    ensures PiSignal(err, Integrate(esum, err, dt), kp, ki) == PiSignal(err, esum, kp, ki) + ki * err * dt
    ensures err == 0.0 ==> PiSignal(err, Integrate(esum, err, dt), kp, ki) == esum * ki
  {
  }

  /** The integral after n control cycles with the same error each cycle. */
  function IntegralAfter(esum0: real, err: real, dt: real, n: nat): real {
    if n == 0 then esum0 else Integrate(IntegralAfter(esum0, err, dt, n - 1), err, dt)
  }

  /** The integral is never reset or clamped: with a constant error it grows
      linearly with the number of cycles. */
  lemma {:induction false} ConstantErrorIntegral(esum0: real, err: real, dt: real, n: nat)
    ensures IntegralAfter(esum0, err, dt, n) == esum0 + n as real * err * dt
  {
    if n > 0 {
      ConstantErrorIntegral(esum0, err, dt, n - 1);
    }
  }

  /** With the gains of `set_gains`, setpoint 0 and a constant x average of
      -10, the x output of the k-th cycle (k = 1, 2, ...) is 1.5 + 0.005 k;
      its `int16_t` value stays 1 for the first 99 cycles. */
  lemma ConstantErrorOutput(k: nat)
    requires k >= 1
    ensures PiSignal(0.0 - (-10.0), IntegralAfter(0.0, 0.0 - (-10.0), DtX, k), Kp, Ki)
            == 1.5 + 0.005 * k as real
    ensures k < 100 ==> Trunc(1.5 + 0.005 * k as real) == 1
  {
    ConstantErrorIntegral(0.0, 10.0, DtX, k);
  }

  /** `Balance`: gains, setpoints, integral sums and the latest averages. The
      two motor shares it writes are global in the firmware; here they are
      references it holds. */
  class Balance {
    var kp: real
    var ki: real
    var setX: real
    var setY: real
    var esumX: real
    var esumY: real
    var xAccel: real
    var yAccel: real
    var zAccel: real
    var motorA: Share<Int16>
    var motorB: Share<Int16>

    /** The declared defaults: gains, setpoints and integral sums start at 0;
        the averages are not initialised. */
    constructor (motorA: Share<Int16>, motorB: Share<Int16>)
      ensures kp == 0.0 && ki == 0.0 && setX == 0.0 && setY == 0.0
      ensures esumX == 0.0 && esumY == 0.0
      ensures this.motorA == motorA && this.motorB == motorB
    {
      kp, ki := 0.0, 0.0;
      setX, setY := 0.0, 0.0;
      esumX, esumY := 0.0, 0.0;
      this.motorA := motorA;
      this.motorB := motorB;
    }

    /** `set_gains`: only the two gains change. */
    method SetGains()
      modifies this`kp, this`ki
      ensures kp == Kp && ki == Ki
    {
      kp := 0.15;
      ki := 0.1;
    }

    /** `convert`: the buffer is taken by value; only the averages change. */
    method Convert(buffer: AccelBuf)
      requires ConvertDefined(buffer)
      modifies this`xAccel, this`yAccel, this`zAccel
      ensures xAccel == Average(buffer, 0) as real
      ensures yAccel == Average(buffer, 1) as real
      ensures zAccel == Average(buffer, 2) as real
    {
      var xTot: Int16 := 0;
      var yTot: Int16 := 0;
      var zTot: Int16 := 0;
      var i := 0;
      while i < BufferSize
        invariant 0 <= i <= BufferSize
        invariant xTot == Accumulate(buffer, 0, i)
        invariant yTot == Accumulate(buffer, 1, i)
        invariant zTot == Accumulate(buffer, 2, i)
      {
        assert InInt16(Accumulate(buffer, 0, i + 1)) && InInt16(Accumulate(buffer, 1, i + 1))
          && InInt16(Accumulate(buffer, 2, i + 1));
        xTot := Trunc(xTot as real + buffer[i][0]);
        yTot := Trunc(yTot as real + buffer[i][1]);
        zTot := Trunc(zTot as real + buffer[i][2]);
        i := i + 1;
      }
      xAccel := CDiv(xTot, BufferSize) as real;
      yAccel := CDiv(yTot, BufferSize) as real;
      zAccel := CDiv(zTot, BufferSize) as real;
    }

    /** The x output `control` forms when the x average is `avgX`: the PI
        output on the integral after this cycle's update (see
        `IntegrateFirst`). */
    function SignalX(avgX: real): real
      reads this
    {
      PiSignal(setX - avgX, Integrate(esumX, setX - avgX, DtX), kp, ki)
    }

    /** The y output, likewise with the y time step. */
    function SignalY(avgY: real): real
      reads this
    {
      PiSignal(setY - avgY, Integrate(esumY, setY - avgY, DtY), kp, ki)
    }

    /** Both outputs convert to `int16_t` without undefined behaviour. */
    predicate ControlDefined()
      reads this
    {
      FitsInt16(SignalX(xAccel)) && FitsInt16(SignalY(yAccel))
    }

    /** `control`: each integral is updated first, then the output is formed
        from it, truncated to `int16_t` and put in the motor's share. */
    method Control()
      requires ControlDefined() && motorA != motorB
      modifies this`esumX, this`esumY, motorA, motorB
      ensures esumX == Integrate(old(esumX), setX - xAccel, DtX)
      ensures esumY == Integrate(old(esumY), setY - yAccel, DtY)
      ensures motorA.value == Trunc(PiSignal(setX - xAccel, esumX, kp, ki))
      ensures motorB.value == Trunc(PiSignal(setY - yAccel, esumY, kp, ki))
    {
      ghost var sx, sy := SignalX(xAccel), SignalY(yAccel);
      esumX := esumX + (setX - xAccel) * 0.005;
      var out := (setX - xAccel) * kp + esumX * ki;
      assert out == sx;
      TruncFits(out);
      var signalVal: Int16 := Trunc(out);
      motorA.Put(signalVal);

      esumY := esumY + (setY - yAccel) * 0.01;
      out := (setY - yAccel) * kp + esumY * ki;
      assert out == sy;
      TruncFits(out);
      signalVal := Trunc(out);
      motorB.Put(signalVal);
    }
  }
}
