/** The host-side check of the level-to-brightness table. */
module FlashTest {

  const TEST_LEVELS: seq<real> := [0.0, 0.03, 0.08, 0.15, 0.25, 0.4, 0.6, 0.8]

  /** The script's `if`/`elif` chain: strict `>` bands. */
  function Brightness(level: real): (b: int)
    ensures b in {10, 40, 70, 100}
    ensures b == 100 <==> level > 0.3
    ensures b == 70 <==> 0.1 < level <= 0.3
    ensures b == 40 <==> 0.05 < level <= 0.1
    ensures b == 10 <==> level <= 0.05
  {
    if level > 0.3 then 100
    else if level > 0.1 then 70
    else if level > 0.05 then 40
    else 10
  }

  lemma BrightnessMonotone(a: real, b: real)
    requires a <= b
    ensures Brightness(a) <= Brightness(b)
  {
  }

  /** A level exactly on a boundary belongs to the band below it. */
  lemma BoundariesAreStrict()
    ensures Brightness(0.3) == 70 && Brightness(0.1) == 40 && Brightness(0.05) == 10
  {
  }

  /** The table the script prints. */
  lemma TestTable()
    ensures seq(|TEST_LEVELS|, k requires 0 <= k < |TEST_LEVELS| => Brightness(TEST_LEVELS[k]))
              == [10, 10, 40, 70, 70, 100, 100, 100]
  {
  }
}
