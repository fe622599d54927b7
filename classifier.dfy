/** The pure parts of ESPBattery.cpp: the threshold cascade of `getState`, the
    percentage computed by `_readData`, and `stateToString`. */
module Classifier {
  import opened Thresholds
  import opened ArduinoMath

  /** The cascade of `getState`: tested top-down, the first matching test wins.
      The contract states the same classification as five disjoint bands. */
  function Classify(level: nat): (s: int)
    ensures IsState(s)
    ensures s == CHARGING <==> level >= 840
    ensures s == FULL <==> 645 <= level <= 839
    ensures s == OK <==> 562 <= level <= 644
    ensures s == LOW <==> 527 <= level <= 561
    ensures s == CRITICAL <==> level <= 526
  {
    if level >= CHARGING then CHARGING
    else if level >= FULL then FULL
    else if level <= CRITICAL then CRITICAL
    else if level <= LOW then LOW
    else OK
  }

  /** The "picked value" of OK lies strictly inside its own band, and each
      threshold classifies as the state named after it. */
  lemma ThresholdsClassifyAsThemselves()
    ensures Classify(OK) == OK
    ensures Classify(CHARGING) == CHARGING && Classify(FULL) == FULL
    ensures Classify(LOW) == LOW && Classify(CRITICAL) == CRITICAL
  {
  }

  /** Position of a state among the bands, lowest reading first; 0 for a non-state. */
  function Rank(s: int): (r: nat)
    ensures IsState(s) ==> r >= 1
  {
    if s == CRITICAL then 1
    else if s == LOW then 2
    else if s == OK then 3
    else if s == FULL then 4
    else if s == CHARGING then 5
    else 0
  }

  /** The bands follow the level: a higher reading never yields a state of a lower band. */
  lemma ClassifyMonotone(x: nat, y: nat)
    requires x <= y
    ensures Rank(Classify(x)) <= Rank(Classify(y))
  {
  }

  /** `stateToString`: the name of each of the five states, "UNK" for every other value. */
  function StateToString(state: int): (name: string)
    ensures name in {"OK", "FULL", "CHARGING", "CRITICAL", "LOW", "UNK"}
    ensures name == "UNK" <==> !IsState(state)
    ensures state == OK <==> name == "OK"
    ensures state == FULL <==> name == "FULL"
    ensures state == CHARGING <==> name == "CHARGING"
    ensures state == CRITICAL <==> name == "CRITICAL"
    ensures state == LOW <==> name == "LOW"
  {
    if state == OK then "OK"
    else if state == FULL then "FULL"
    else if state == CHARGING then "CHARGING"
    else if state == CRITICAL then "CRITICAL"
    else if state == LOW then "LOW"
    else "UNK"
  }

  /** Distinct states get distinct names, so the name identifies the state. */
  lemma StateToStringInjective(s: int, t: int)
    requires IsState(s) && IsState(t) && s != t
    ensures StateToString(s) != StateToString(t)
  {
  }

  /** The percentage of `_readData`: `map(level, minLevel, maxLevel, 0, 100)`
      limited to [0, 100]. */
  function Percentage(level: nat, minLevel: int, maxLevel: int): (p: int)
    requires minLevel != maxLevel
    ensures 0 <= p <= 100
    ensures level == minLevel ==> p == 0
  {
    Clamp(Map(level, minLevel, maxLevel, 0, 100), 0, 100)
  }

  /** The upper bound reads as 100 percent. */
  lemma {:induction false} PercentageAtMaxLevel(minLevel: int, maxLevel: nat)
    requires minLevel != maxLevel
    ensures Percentage(maxLevel, minLevel, maxLevel) == 100
  {
    MapUpperEnd(minLevel, maxLevel, 0, 100);
  }

  /** With increasing bounds, a higher reading never gives a lower percentage. */
  lemma {:induction false} PercentageMonotone(x: nat, y: nat, minLevel: int, maxLevel: int)
    requires minLevel < maxLevel && x <= y
    ensures Percentage(x, minLevel, maxLevel) <= Percentage(y, minLevel, maxLevel)
  {
    MapMonotone(x, y, minLevel, maxLevel, 0, 100);
  }

  /** With increasing bounds, readings at or below the lower bound give 0 and
      readings at or above the upper bound give 100. */
  lemma {:induction false} PercentageSaturates(level: nat, minLevel: int, maxLevel: int)
    requires minLevel < maxLevel
    ensures level <= minLevel ==> Percentage(level, minLevel, maxLevel) == 0
    ensures level >= maxLevel ==> Percentage(level, minLevel, maxLevel) == 100
  {
    if level <= minLevel {
      MapMonotone(level, minLevel, minLevel, maxLevel, 0, 100);
    }
    if level >= maxLevel {
      MapMonotone(maxLevel, level, minLevel, maxLevel, 0, 100);
      MapUpperEnd(minLevel, maxLevel, 0, 100);
    }
  }

  /** With the default bounds (526 and 645), CRITICAL readings give 0 and FULL or
      CHARGING readings give 100. */
  lemma {:induction false} DefaultPercentageEnds(level: nat)
    ensures level <= CRITICAL ==> Percentage(level, DEFAULT_MIN_LEVEL, DEFAULT_MAX_LEVEL) == 0
    ensures level >= FULL ==> Percentage(level, DEFAULT_MIN_LEVEL, DEFAULT_MAX_LEVEL) == 100
    ensures Classify(level) == CRITICAL ==> Percentage(level, DEFAULT_MIN_LEVEL, DEFAULT_MAX_LEVEL) == 0
  {
    PercentageSaturates(level, DEFAULT_MIN_LEVEL, DEFAULT_MAX_LEVEL);
  }
}
