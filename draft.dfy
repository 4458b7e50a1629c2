/**
  The draft of the `Method` trait kept at the top of the repository. Its
  `is_normalized` is an associated function without a receiver, so the flag
  belongs to the implementing type, not to a value, and the default
  `normalize` takes only the raw value and the scale.
 */
module Draft {
  import StringCompare

  /** The draft's default `normalize`, for an implementing type whose static
      `is_normalized()` is `isNormalized`. The result depends on nothing but
      the flag, the value and the scale. As in the crate, no guard protects
      the division, so the unnormalized branch needs `max != 0`. */
  function Normalize(isNormalized: bool, value: real, max: real): (r: real)
    requires isNormalized || max != 0.0
    ensures isNormalized ==> r == value
    ensures !isNormalized ==> r * max == value
  {
    if isNormalized then value else value / max
  }

  /** For a normalized type the scale is ignored and normalising is
      idempotent. */
  lemma NormalizeIdempotent(value: real, max: real, other: real)
    ensures Normalize(true, value, max) == Normalize(true, value, other)
    ensures Normalize(true, Normalize(true, value, max), max) == Normalize(true, value, max)
  {
  }

  /** For an unnormalized type, a count no larger than a positive scale is
      brought into the unit interval. */
  lemma NormalizeWithinUnitInterval(value: real, max: real)
    requires 0.0 <= value <= max && max > 0.0
    ensures 0.0 <= Normalize(false, value, max) <= 1.0
  {
  }

  /** The static draft and the crate's receiver-based `normalize` agree
      whenever the draft's flag is the receiver's `is_normalized`. */
  lemma AgreesWithCrateNormalize<S>(isNormalized: S -> bool, self: S, value: real, max: real)
    requires isNormalized(self) || max != 0.0
    ensures Normalize(isNormalized(self), value, max)
         == StringCompare.Normalize(isNormalized, self, value, max)
  {
  }
}
