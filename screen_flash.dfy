/** The backlight demo: a brightness percentage becomes a 13-bit LEDC duty,
    and the main loop sweeps the brightness up and down in steps of 10. */
module ScreenFlash {
  import opened CTypes

  /** The largest duty of the 13-bit LEDC resolution, 2^13 - 1. */
  const MAX_DUTY: nat := 8191

  /** `set_backlight`'s `(8191 * brightness) / 100` for a `uint8_t` brightness:
      a percentage maps onto the 13-bit range, and only a percentage does. */
  function Duty(brightness: byte): (duty: uint32)
    ensures duty <= MAX_DUTY <==> brightness <= 100
    ensures duty == 0 <==> brightness == 0
    ensures brightness == 100 ==> duty == MAX_DUTY
    ensures duty <= 20887
  {
    (8191 * brightness) / 100
  }

  lemma DutyMonotone(a: byte, b: byte)
    requires a <= b
    ensures Duty(a) <= Duty(b)
  {
    assert 8191 * a <= 8191 * b;
  }

  /** One pass of `app_main`'s endless loop: the brightness values given to
      `set_backlight`, and the duties written to the LEDC channel. */
  method SweepCycle() returns (levels: seq<byte>, duties: seq<uint32>)
    ensures |levels| == 22 && |duties| == 22
    ensures forall k :: 0 <= k < 11 ==> levels[k] == 10 * k
    ensures forall k :: 11 <= k < 22 ==> levels[k] == 100 - 10 * (k - 11)
    ensures levels[0] == 0 && levels[21] == 0
    ensures forall k :: 0 <= k < 22 ==> levels[k] % 10 == 0 && levels[k] <= 100
    ensures forall k :: 0 <= k < 22 ==> duties[k] == Duty(levels[k]) && duties[k] <= MAX_DUTY
  {
    levels, duties := [], [];
    var i: int := 0;
    while i <= 100
      invariant 0 <= i <= 110 && i % 10 == 0
      invariant |levels| == i / 10 && |duties| == |levels|
      invariant forall k :: 0 <= k < |levels| ==> levels[k] == 10 * k
      invariant forall k :: 0 <= k < |levels| ==> duties[k] == Duty(levels[k])
    {
      levels := levels + [i];
      duties := duties + [Duty(i)];
      i := i + 10;
    }
    i := 100;
    while i >= 0
      invariant -10 <= i <= 100 && i % 10 == 0
      invariant |levels| == 11 + (100 - i) / 10 && |duties| == |levels|
      invariant forall k :: 0 <= k < 11 ==> levels[k] == 10 * k
      invariant forall k :: 11 <= k < |levels| ==> levels[k] == 100 - 10 * (k - 11)
      invariant forall k :: 0 <= k < |levels| ==> duties[k] == Duty(levels[k])
    {
      levels := levels + [i];
      duties := duties + [Duty(i)];
      i := i - 10;
    }
  }
}
