/** The IMU task: every cycle it reads the shared sample buffer, calibrates the
    three axis readings into the slot at the cursor `dataIndex`, advances the
    cursor and puts the buffer back. The cursor is reset only once it exceeds
    5, so every sixth cycle targets slot 5 of the five-slot buffer. */
module TaskImu {
  import opened CArith
  import opened Shares

  /** Per-axis offsets and scale factors (`offsetA`, `calibrateA`). */
  const OffsetA: seq<int> := [-500, 300, 50]
  const CalibrateA: seq<real> := [16.425, 16.1, 16.15]

  /** Calibration of one raw axis reading to mG. It is undone by scaling
      back and adding the offset, and it is positive exactly when the
      reading is above the offset. */
  function Calibrate(raw: int, axis: Axis): (r: real)
    ensures r * CalibrateA[axis] + OffsetA[axis] as real == raw as real
    ensures r > 0.0 <==> raw > OffsetA[axis]
    ensures r == 0.0 <==> raw == OffsetA[axis]
  {
    (raw - OffsetA[axis]) as real / CalibrateA[axis]
  }

  /** The sample a cycle writes for the three raw readings: scaling each axis
      back and adding its offset recovers the raw reading. */
  function Calibrated(raw: seq<int>): (s: Sample)
    requires |raw| == 3
    ensures forall i :: 0 <= i < 3 ==> s[i] * CalibrateA[i] + OffsetA[i] as real == raw[i] as real
  {
    [Calibrate(raw[0], 0), Calibrate(raw[1], 1), Calibrate(raw[2], 2)]
  }

  /** Largest cursor value: the cursor is reset when it exceeds this. */
  const CursorLimit := 5

  /** The cursor advance as written: `dataIndex++`, then back to 0 if it
      exceeds 5. */
  function NextCursor(c: nat): (n: nat)
    requires c <= CursorLimit
    ensures n <= CursorLimit
  {
    var n := c + 1;
    if n > CursorLimit then 0 else n
  }

  /** The slot write of one cycle: slot `c` receives `s` when it exists; the
      write to slot 5 falls outside the five slots and changes none of them. */
  function Store(buf: AccelBuf, c: nat, s: Sample): (r: AccelBuf)
    ensures forall j :: 0 <= j < BufferSize && j != c ==> r[j] == buf[j]
    ensures c < BufferSize ==> r[c] == s
  {
    if c < BufferSize then buf[c := s] else buf
  }

  /** The buffer contents together with the cursor that says where the next
      sample goes. */
  datatype Window = Window(slots: AccelBuf, cursor: nat)

  /** One cycle of the task as written. */
  function Append(w: Window, s: Sample): (r: Window)
    requires w.cursor <= CursorLimit
    ensures r.cursor <= CursorLimit
  {
    Window(Store(w.slots, w.cursor, s), NextCursor(w.cursor))
  }

  /** Consecutive cycles appending `ss` in order, with no other writer. */
  function AppendAll(w: Window, ss: seq<Sample>): (r: Window)
    requires w.cursor <= CursorLimit
    ensures r.cursor <= CursorLimit
  {
    if ss == [] then w else Append(AppendAll(w, ss[..|ss| - 1]), ss[|ss| - 1])
  }

  /** From the initial cursor 0 the cursor runs 0, 1, 2, 3, 4, 5, 0, ...:
      its period is six, not five. */
  lemma {:induction false} CursorPeriodSix(buf: AccelBuf, ss: seq<Sample>)
    ensures AppendAll(Window(buf, 0), ss).cursor == |ss| % 6
  {
    if ss != [] {
      CursorPeriodSix(buf, ss[..|ss| - 1]);
    }
  }

  /** The samples of cycles 0..4, 6..10, ... land in slot `t % 6`; the
      latest of them for each slot is what the buffer holds. */
  lemma {:induction false} AsWrittenSlots(buf: AccelBuf, ss: seq<Sample>, t: nat)
    requires |ss| - 6 <= t < |ss| && t % 6 < BufferSize
    ensures AppendAll(Window(buf, 0), ss).slots[t % 6] == ss[t]
  {
    var n := |ss| - 1;
    var prefix := ss[..n];
    CursorPeriodSix(buf, prefix);
    if t < n {
      AsWrittenSlots(buf, prefix, t);
    }
  }

  /** Seven appends starting at cursor 0: the sixth sample goes to the
      missing slot 5 and is lost, the seventh overwrites the first. */
  lemma SixthSampleLost(buf: AccelBuf, s1: Sample, s2: Sample, s3: Sample, s4: Sample,
                        s5: Sample, s6: Sample, s7: Sample)
    ensures AppendAll(Window(buf, 0), [s1, s2, s3, s4, s5, s6, s7]) == Window([s7, s2, s3, s4, s5], 1)
    ensures s6 !in [s1, s2, s3, s4, s5, s7] ==> s6 !in AppendAll(Window(buf, 0), [s1, s2, s3, s4, s5, s6, s7]).slots
  {
    var ss := [s1, s2, s3, s4, s5, s6, s7];
    var r := AppendAll(Window(buf, 0), ss);
    CursorPeriodSix(buf, ss);
    AsWrittenSlots(buf, ss, 6);
    AsWrittenSlots(buf, ss, 1);
    AsWrittenSlots(buf, ss, 2);
    AsWrittenSlots(buf, ss, 3);
    AsWrittenSlots(buf, ss, 4);
    assert r.slots == [s7, s2, s3, s4, s5];
  }

  // ------------------------------------------------ the intended cursor

  /** The cursor advance that keeps it inside the five slots. */
  function NextCursorWrapped(c: nat): (n: nat)
    requires c < BufferSize
    ensures n < BufferSize
  {
    var n := c + 1;
    if n > BufferSize - 1 then 0 else n
  }

  function AppendWrapped(w: Window, s: Sample): (r: Window)
    requires w.cursor < BufferSize
    ensures r.cursor < BufferSize
  {
    Window(w.slots[w.cursor := s], NextCursorWrapped(w.cursor))
  }

  function AppendAllWrapped(w: Window, ss: seq<Sample>): (r: Window)
    requires w.cursor < BufferSize
    ensures r.cursor < BufferSize
  {
    if ss == [] then w else AppendWrapped(AppendAllWrapped(w, ss[..|ss| - 1]), ss[|ss| - 1])
  }

  lemma {:induction false} WrappedCursor(buf: AccelBuf, ss: seq<Sample>)
    ensures AppendAllWrapped(Window(buf, 0), ss).cursor == |ss| % BufferSize
  {
    if ss != [] {
      WrappedCursor(buf, ss[..|ss| - 1]);
    }
  }

  /** Circular overwrite: with the wrapped cursor the buffer holds the last
      five samples, sample `t` in slot `t % 5`, and none is lost. */
  lemma {:induction false} WrappedKeepsLatestFive(buf: AccelBuf, ss: seq<Sample>, t: nat)
    requires |ss| - BufferSize <= t < |ss|
    ensures AppendAllWrapped(Window(buf, 0), ss).slots[t % BufferSize] == ss[t]
  {
    var n := |ss| - 1;
    var prefix := ss[..n];
    WrappedCursor(buf, prefix);
    if t < n {
      WrappedKeepsLatestFive(buf, prefix, t);
    }
  }

  /** The raw source of readings: the value each axis reads right now, and
      the axes requested so far, in order. */
  class Accelerometer {
    var axes: seq<Int16>
    var requests: seq<int>

    constructor (axes: seq<Int16>)
      requires |axes| == 3
      ensures this.axes == axes && requests == []
    {
      this.axes := axes;
      requests := [];
    }

    /** `get_one_axis(axis)` */
    method GetOneAxis(axis: Axis) returns (raw: Int16)
      requires |axes| == 3
      modifies this`requests
      ensures raw == axes[axis]
      ensures requests == old(requests) + [axis]
    {
      raw := axes[axis];
      requests := requests + [axis];
    }
  }

  /** What a cycle did with its sample. */
  datatype SlotWrite = Wrote(slot: nat) | PastEnd

  /** `task_imu`: the share it fills, its accelerometer, the cursor and the
      cycle count. */
  class ImuTask {
    var accelA: Share<AccelBuf>
    var sensor: Accelerometer
    var dataIndex: nat
    var runs: nat

    predicate Valid()
      reads this, sensor
    {
      dataIndex <= CursorLimit && |sensor.axes| == 3
    }

    /** The constructor together with the start of `run`: the cursor begins
        at slot 0. */
    constructor (accelA: Share<AccelBuf>, sensor: Accelerometer)
      requires |sensor.axes| == 3
      ensures Valid() && this.accelA == accelA && this.sensor == sensor
      ensures dataIndex == 0 && runs == 0
    {
      this.accelA := accelA;
      this.sensor := sensor;
      dataIndex := 0;
      runs := 0;
    }

    /** One iteration of the `run` loop. */
    method Step() returns (w: SlotWrite)
      requires Valid()
      modifies this`dataIndex, this`runs, accelA, sensor`requests
      ensures Valid()
      ensures sensor.requests == old(sensor.requests) + [0, 1, 2]
      ensures Window(accelA.value, dataIndex)
              == Append(old(Window(accelA.value, dataIndex)), Calibrated(sensor.axes))
      ensures w == if old(dataIndex) < BufferSize then Wrote(old(dataIndex)) else PastEnd
      ensures runs == old(runs) + 1
    {
      var buffer := accelA.Get();
      ghost var start := buffer;
      var i := 0;
      while i < 3
        modifies sensor`requests
        invariant 0 <= i <= 3
        invariant sensor.requests == old(sensor.requests) + [0, 1, 2][..i]
        invariant dataIndex >= BufferSize ==> buffer == start
        invariant forall j :: 0 <= j < BufferSize && j != dataIndex ==> buffer[j] == start[j]
        invariant dataIndex < BufferSize ==>
          buffer[dataIndex][..i] == Calibrated(sensor.axes)[..i] &&
          buffer[dataIndex][i..] == start[dataIndex][i..]
      {
        var raw := sensor.GetOneAxis(i);
        if dataIndex < BufferSize {
          buffer := buffer[dataIndex := buffer[dataIndex][i := Calibrate(raw, i)]];
        }
        // otherwise the target is `accel_buffer[5]`, past the end of the five
        // slots: the write lands outside the buffer and is not modelled
        i := i + 1;
      }
      if dataIndex < BufferSize {
        assert buffer[dataIndex] == buffer[dataIndex][..3];
        assert Calibrated(sensor.axes)[..3] == Calibrated(sensor.axes);
        w := Wrote(dataIndex);
      } else {
        w := PastEnd;
      }
      assert buffer == Store(start, dataIndex, Calibrated(sensor.axes));
      dataIndex := dataIndex + 1;
      if dataIndex > CursorLimit {
        dataIndex := 0;
      }
      accelA.Put(buffer);
      runs := runs + 1;
    }
  }
}
