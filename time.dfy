/** Ages measured in whole days, as the pages compute them from two timestamps. */
module Time {
  const MillisPerDay := 1000 * 60 * 60 * 24

  /** `Math.floor(diffMs / (1000 * 60 * 60 * 24))` for a difference of whole
      milliseconds: the largest day count whose length does not exceed `diffMs`,
      rounding down for negative differences too. */
  function WholeDays(diffMs: int): (r: int)
    ensures r * MillisPerDay <= diffMs < (r + 1) * MillisPerDay
    ensures diffMs >= 0 <==> r >= 0
  {
    diffMs / MillisPerDay
  }

  /** A later timestamp never gives a smaller age. */
  lemma WholeDaysMonotone(a: int, b: int)
    requires a <= b
    ensures WholeDays(a) <= WholeDays(b)
  {
  }
}
