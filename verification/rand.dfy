/** `System.Random` as an object over a fixed stream of samples in [0, 1).
    A generator constructed with a seed always produces the same stream, so
    the whole of .NET's generator is a family `streams(seed)` of such
    streams, given as a parameter; its internal algorithm is not modelled.
    Every draw consumes one sample. */
module Rand {

  const IntMaxValue: nat := 0x7FFF_FFFF

  /** One sample of the generator, `Random.Sample()`. */
  type Sample = x: real | 0.0 <= x < 1.0

  /** `Next(maxValue)` scales one sample: the result lies in [0, maxValue),
      and is 0 when maxValue is 0. */
  function Scale(sample: Sample, maxValue: nat): (r: nat)
    ensures maxValue == 0 ==> r == 0
    ensures maxValue > 0 ==> r < maxValue
  {
    var scaled := sample * maxValue as real;
    assert scaled < maxValue as real || maxValue == 0 by {
      if maxValue > 0 {
        assert sample * maxValue as real < 1.0 * maxValue as real;
      }
    }
    scaled.Floor
  }

  /** Sample i of a stream. */
  function SampleAt(stream: nat -> Sample, i: nat): Sample
  {
    stream(i)
  }

  class Random {
    const stream: nat -> Sample
    var drawn: nat

    constructor (stream: nat -> Sample)
      ensures this.stream == stream && drawn == 0
    {
      this.stream := stream;
      drawn := 0;
    }

    /** `NextDouble()`: the next sample. */
    method NextDouble() returns (r: real)
      modifies this
      ensures drawn == old(drawn) + 1
      ensures r == SampleAt(stream, old(drawn)) && 0.0 <= r < 1.0
    {
      r := stream(drawn);
      drawn := drawn + 1;
    }

    /** `Next(maxValue)`: an index in [0, maxValue), or 0 when maxValue is 0. */
    method Next(maxValue: nat) returns (r: nat)
      modifies this
      ensures drawn == old(drawn) + 1
      ensures r == Scale(SampleAt(stream, old(drawn)), maxValue)
      ensures maxValue == 0 ==> r == 0
      ensures maxValue > 0 ==> r < maxValue
    {
      r := Scale(stream(drawn), maxValue);
      drawn := drawn + 1;
    }

    /** `Next()`: a non-negative integer below `int.MaxValue`. */
    method NextUnbounded() returns (r: nat)
      modifies this
      ensures drawn == old(drawn) + 1
      ensures r == Scale(SampleAt(stream, old(drawn)), IntMaxValue) && r < IntMaxValue
    {
      r := Scale(stream(drawn), IntMaxValue);
      drawn := drawn + 1;
    }
  }
}
