/** The data exchanged between the tasks: the accelerometer sample buffer
    (`accelData`, `accelBuf`) and the task share that carries a value from one
    task to another. */
module Shares {

  /** One calibrated reading: `data[0]` is the x axis, `data[1]` y, `data[2]` z. */
  type Sample = s: seq<real> | |s| == 3 witness [0.0, 0.0, 0.0]

  type Axis = i: int | 0 <= i < 3

  /** Number of slots in the buffer; also the divisor of the average. */
  const BufferSize := 5

  const ZeroSample: Sample := [0.0, 0.0, 0.0]

  /** `accelBuf`: five samples, copied by value. */
  type AccelBuf = b: seq<Sample> | |b| == BufferSize
    witness [ZeroSample, ZeroSample, ZeroSample, ZeroSample, ZeroSample]

  /** A task share: a cell with last-write-wins semantics. `Get` returns a
      copy of the value most recently `Put`. */
  class Share<T> {
    var value: T

    constructor (init: T)
      ensures value == init
    {
      value := init;
    }

    method Get() returns (v: T)
      ensures v == value
    {
      v := value;
    }

    method Put(v: T)
      modifies this
      ensures value == v
    {
      value := v;
    }
  }

  /** A `put` followed by a `get`, with no write in between, returns the value put. */
  method PutThenGet<T>(share: Share<T>, v: T) returns (r: T)
    modifies share
    ensures r == v && share.value == v
  {
    share.Put(v);
    r := share.Get();
  }
}
