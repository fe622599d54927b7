/** Constants of ESPBattery.h: the five state/threshold values, the pin sentinel
    and the default arguments of `begin`. */
module Thresholds {

  /** Arduino `byte`: an unsigned 8-bit value. */
  newtype Byte = x: int | 0 <= x < 256

  /** Each state is identified by the raw-reading threshold it is named after. */
  const CHARGING: int := 840  // lower boundary
  const FULL: int := 645      // lower boundary
  const OK: int := 620        // picked value, not a boundary
  const LOW: int := 561       // upper boundary
  const CRITICAL: int := 526  // upper boundary

  /** The pin value that disables sampling. */
  const UNDEFINED_PIN: Byte := 255

  /** Default arguments of `begin` and of the pin constructor. */
  const DEFAULT_INTERVAL_MS: int := 500
  const DEFAULT_MIN_LEVEL: int := CRITICAL
  const DEFAULT_MAX_LEVEL: int := FULL

  /** The five values a classification can produce. */
  predicate IsState(s: int) {
    s == CHARGING || s == FULL || s == OK || s == LOW || s == CRITICAL
  }

  /** The thresholds are strictly increasing, so the five states are pairwise distinct. */
  lemma ThresholdsStrictlyOrdered()
    ensures CRITICAL < LOW < OK < FULL < CHARGING
    ensures |{CRITICAL, LOW, OK, FULL, CHARGING}| == 5
  {
  }

  /** The default bounds give the percentage map a non-zero, positive denominator. */
  lemma DefaultBoundsUsable()
    ensures DEFAULT_MAX_LEVEL - DEFAULT_MIN_LEVEL == 119
    ensures DEFAULT_MIN_LEVEL < DEFAULT_MAX_LEVEL
    ensures DEFAULT_INTERVAL_MS == 500
  {
  }

  /** The sentinel is the largest `byte`: every other pin value is below it. */
  lemma UndefinedPinIsByteMaximum(b: Byte)
    ensures b <= UNDEFINED_PIN
  {
  }
}
