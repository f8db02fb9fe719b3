/** The Arduino A2DP sketch's audio callback: the mean absolute amplitude of
    every 16-bit sample in the delivered buffer, both channels alike. */
module ArduinoFace {
  import opened CTypes
  import opened Pcm

  type int32 = x: int | -0x8000_0000 <= x <= INT32_MAX

  /** A `float` result: a finite value, or the NaN of `0.0f / 0`. */
  datatype Level = Finite(value: real) | NaN

  /** The sum of `abs(sample)` over all 2-byte samples. */
  function SumAbs(data: seq<byte>): int
    requires |data| % 2 == 0
  {
    if |data| == 0 then 0
    else SumAbs(data[..|data| - 2]) + Abs(DecodeInt16(data[|data| - 2], data[|data| - 1]))
  }

  /** `audio_level` after the callback: sum / (length/2) / 32768. */
  function LevelOf(data: seq<byte>): (level: Level)
    requires |data| % 2 == 0
    ensures level.NaN? <==> |data| == 0
    ensures level.Finite? ==> 0.0 <= level.value <= 1.0
  {
    if |data| / 2 == 0 then NaN
    else
      SumAbsBounds(data);
      MeanBound(SumAbs(data), |data| / 2);
      Finite(SumAbs(data) as real / (|data| / 2) as real / 32768.0)
  }

  /** The sketch's global `audio_level`. */
  class Sketch {
    var audioLevel: Level

    constructor ()
      ensures audioLevel == Finite(0.0)
    {
      audioLevel := Finite(0.0);
    }

    /** `audio_data_callback`. An odd length would read one byte past the
        buffer, a length above `INT32_MAX` would overflow the `int` loop
        counter, and a sum above `INT32_MAX` would overflow the `int32_t`;
        all three are excluded. */
    method AudioDataCallback(data: seq<byte>)
      requires |data| % 2 == 0 && |data| <= INT32_MAX
      requires SumAbs(data) <= INT32_MAX
      modifies this
      ensures audioLevel == LevelOf(data)
    {
      var sum: int32 := 0;
      var i: int32 := 0;
      while i < |data|
        invariant 0 <= i <= |data| && i % 2 == 0
        invariant sum == SumAbs(data[..i])
      {
        SumAbsStep(data, i);
        var sample: int16 := DecodeInt16(data[i], data[i + 1]);
        sum := sum + Abs(sample);
        i := i + 2;
      }
      assert data[..i] == data;
      audioLevel := if |data| / 2 == 0 then NaN else Finite(sum as real / (|data| / 2) as real / 32768.0);
    }
  }

  // ---------------------------------------------------------------------
  // Properties

  lemma {:induction false} SumAbsBounds(data: seq<byte>)
    requires |data| % 2 == 0
    ensures 0 <= SumAbs(data) <= |data| / 2 * 32768
  {
    if |data| > 0 {
      SumAbsBounds(data[..|data| - 2]);
    }
  }

  /** One more sample adds its absolute value to the running sum, which
      stays within the total. */
  lemma SumAbsStep(data: seq<byte>, i: nat)
    requires |data| % 2 == 0 && i % 2 == 0 && i < |data|
    ensures i + 2 <= |data| && (i + 2) % 2 == 0
    ensures SumAbs(data[..i + 2]) == SumAbs(data[..i]) + Abs(DecodeInt16(data[i], data[i + 1]))
    ensures SumAbs(data[..i + 2]) <= SumAbs(data)
  {
    assert data[..i + 2][..i] == data[..i];
    SumAbsPrefix(data, i + 2);
  }

  /** The mean of `n` samples, each at most 32768 in magnitude, scaled by
      1/32768, lies in [0, 1]. */
  lemma MeanBound(sum: int, n: int)
    requires n > 0 && 0 <= sum <= n * 32768
    ensures 0.0 <= sum as real / n as real / 32768.0 <= 1.0
  {
    QuotientBound(sum as real / n as real, sum as real, n);
  }

  lemma QuotientBound(q: real, sum: real, n: nat)
    requires n >= 1 && q * n as real == sum && 0.0 <= sum <= 32768.0 * n as real
    ensures 0.0 <= q <= 32768.0
  {
    if q > 32768.0 { ScaleAbove(q, n); }
    if q < 0.0 { ScaleBelow(q, n); }
  }

  lemma {:induction false} ScaleAbove(x: real, n: nat)
    requires x > 32768.0 && n >= 1
    ensures x * n as real > 32768.0 * n as real
  {
    if n > 1 {
      ScaleAbove(x, n - 1);
      var m := (n - 1) as real;
      assert n as real == m + 1.0;
      assert x * n as real == x * m + x;
    }
  }

  lemma {:induction false} ScaleBelow(x: real, n: nat)
    requires x < 0.0 && n >= 1
    ensures x * n as real < 0.0
  {
    if n > 1 {
      ScaleBelow(x, n - 1);
      var m := (n - 1) as real;
      assert n as real == m + 1.0;
      assert x * n as real == x * m + x;
    }
  }

  /** The running sum never decreases, so no prefix exceeds the total. */
  lemma {:induction false} SumAbsPrefix(data: seq<byte>, i: nat)
    requires |data| % 2 == 0 && i <= |data| && i % 2 == 0
    ensures SumAbs(data[..i]) <= SumAbs(data)
  {
    if i < |data| {
      var shorter := data[..|data| - 2];
      assert shorter[..i] == data[..i];
      SumAbsPrefix(shorter, i);
    } else {
      assert data[..i] == data;
    }
  }

  /** Silence: an all-zero buffer of at least one sample gives level 0. */
  lemma {:induction false} SilenceIsZero(data: seq<byte>)
    requires |data| % 2 == 0 && |data| >= 2
    requires forall k :: 0 <= k < |data| ==> data[k] == 0
    ensures SumAbs(data) == 0 && LevelOf(data) == Finite(0.0)
  {
    ZeroSum(data);
  }

  lemma {:induction false} ZeroSum(data: seq<byte>)
    requires |data| % 2 == 0
    requires forall k :: 0 <= k < |data| ==> data[k] == 0
    ensures SumAbs(data) == 0
  {
    if |data| > 0 {
      ZeroSum(data[..|data| - 2]);
    }
  }

  /** Buffers of up to 65535 samples cannot overflow the `int32_t` sum. */
  lemma NoOverflowUpTo65535Samples(data: seq<byte>)
    requires |data| % 2 == 0 && |data| / 2 <= 65535
    ensures SumAbs(data) <= INT32_MAX
  {
    SumAbsBounds(data);
  }

  /** Every sample at full negative scale: -32768, the bytes 0x00 0x80. */
  predicate FullScale(data: seq<byte>) {
    forall k :: 0 <= k < |data| ==> data[k] == (if k % 2 == 0 then 0x00 else 0x80)
  }

  lemma {:induction false} FullScaleSum(data: seq<byte>)
    requires |data| % 2 == 0 && FullScale(data)
    ensures SumAbs(data) == |data| / 2 * 32768
  {
    if |data| > 0 {
      var shorter := data[..|data| - 2];
      assert FullScale(shorter);
      FullScaleSum(shorter);
      assert data[|data| - 2] == 0x00 && data[|data| - 1] == 0x80;
      assert Abs(DecodeInt16(0x00, 0x80)) == 32768;
    }
  }

  /** 65536 samples at full scale overflow the sum, so the length bound is
      needed; one such sample gives the top level. */
  lemma OverflowAt65536Samples(data: seq<byte>)
    requires |data| == 2 * 65536 && FullScale(data)
    ensures SumAbs(data) > INT32_MAX
    ensures LevelOf(data[..2]) == Finite(1.0)
  {
    FullScaleSum(data);
    assert FullScale(data[..2]);
    FullScaleSum(data[..2]);
  }
}
