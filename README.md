# ESPBattery in Dafny

A model of `ESPBattery`, an Arduino/ESP-IDF class that estimates a LiPo
battery's charge from raw ADC readings. On every poll it stores the reading,
rescales it to a percentage between 0 and 100, and classifies it. The five
states CRITICAL, LOW, OK, FULL and CHARGING are identified by the threshold
integers themselves. When the classification changes, it calls the registered
callbacks.

Modules, one per concern of the source:

- `Thresholds` (`thresholds.dfy`): the constants of `ESPBattery.h`. These are
  the five state/threshold values, the `UNDEFINED_PIN` sentinel, the `byte`
  type and the default arguments of `begin`.
- `ArduinoMath` (`arduino_math.dfy`): C/C++ integer division, which truncates
  toward zero, plus Arduino's `map` and the clamp to [0, 100].
- `Classifier` (`classifier.dfy`): the threshold cascade of `getState`, the
  percentage of `_readData`, and `stateToString`. These are pure functions.
- `Callbacks` (`callbacks.dfy`): the four callback slots. `Notifications` gives
  the exact sequence of callback calls that one `getState` makes.
- `Battery` (`esp_battery.dfy`): the class `ESPBattery` and its fields. Its
  methods update those fields in place, as the source does: `begin`,
  `_readData`, `loop`, `getState` and the four setters; the getters only read. The
  callback calls are appended to a ghost log, `Trace`. Each method states the
  new state of the object in terms of the pure functions above.

Modelling decisions:

- Arduino's `map` is not among the source files. It is modelled as the usual
  integer formula `(x - in_min) * (out_max - out_min) / (in_max - in_min) + out_min`,
  with C's truncating `/`. This is an assumption. Sampling therefore requires
  `min_level != max_level` on a bound pin. This is the class invariant `Valid()`.
- The ADC reading and `millis()` are method parameters (`reading`, `now`).
- A callback is identified by an opaque `HandlerId`. A slot is
  `Option<HandlerId>`, where `None` is NULL. Calling a callback appends
  `Notify(slot, handler)` to `Trace`.
- The source leaves `state` and `last_state` uninitialised. Both constructors
  take the initial `state` as an argument, `initialState`, and fix no policy
  for it. So the first sample may count as a change or may not.
- `stateToString` returns "UNK" for any value other than the five states.
- The percentage is the truncated integer quotient from `map`, not a rounded value.
- `getState` is not a pure getter. Each call reclassifies the stored level, overwrites
  `last_state`, and can call callbacks.
- `getVoltage` returns the field `v`, which nothing writes; it is not modelled.

## Model

| member | source | states |
|---|---|---|
| `Thresholds.ThresholdsStrictlyOrdered` | ESPBattery.h:19-23 | CRITICAL 526 < LOW 561 < OK 620 < FULL 645 < CHARGING 840, so the five state values are pairwise distinct |
| `Thresholds.DefaultBoundsUsable` | ESPBattery.h:50-52 | the default interval is 500; the default bounds 526 and 645 are increasing, and their difference (the `map` denominator) is 119 |
| `Thresholds.UndefinedPinIsByteMaximum` | ESPBattery.h:25-31 | `UNDEFINED_PIN` (255) is the largest `byte`, so every other pin value is smaller |
| `ArduinoMath.TruncDiv` | ESPBattery.cpp:90 | C division: the magnitude of the quotient is the quotient of the magnitudes; a non-zero quotient is negative exactly when the operand signs differ |
| `ArduinoMath.TruncDivRemainder` | ESPBattery.cpp:90 | the remainder of C division is smaller in magnitude than the divisor, and it is zero or has the dividend's sign |
| `ArduinoMath.TruncDivOfMultiple` | ESPBattery.cpp:90 | C division gives back k from k*d for any signs of k and d |
| `ArduinoMath.TruncDivMonotone` | ESPBattery.cpp:90 | C division by a positive divisor is monotone in the dividend |
| `ArduinoMath.Map` | ESPBattery.cpp:90 | `map` sends the lower end of the input range to the lower end of the output range |
| `ArduinoMath.MapUpperEnd` | ESPBattery.cpp:90 | `map` sends the upper end of the input range to the upper end of the output range |
| `ArduinoMath.MapMonotone` | ESPBattery.cpp:90 | with an increasing input range and a non-decreasing output range, `map` is monotone |
| `ArduinoMath.Clamp` | ESPBattery.cpp:92-96 | the result lies in [lo, hi]; a value below lo becomes lo, one above hi becomes hi, and one inside is kept |
| `Classifier.Classify` | ESPBattery.cpp:131-141 | the first-match cascade yields a state, described as five disjoint bands (each an if-and-only-if): >= 840 CHARGING, 645..839 FULL, 562..644 OK, 527..561 LOW, <= 526 CRITICAL |
| `Classifier.ThresholdsClassifyAsThemselves` | ESPBattery.cpp:131-141 | the picked value 620 classifies as OK, and each boundary value classifies as its own state |
| `Classifier.ClassifyMonotone` | ESPBattery.cpp:131-141 | a higher reading never falls into a lower band (CRITICAL < LOW < OK < FULL < CHARGING) |
| `Classifier.StateToString` | ESPBattery.cpp:162-176 | each of the five states maps to its own name (in both directions), and every other int maps to "UNK" |
| `Classifier.StateToStringInjective` | ESPBattery.cpp:162-176 | distinct states get distinct names |
| `Classifier.Percentage` | ESPBattery.cpp:90-96 | the percentage is always in [0, 100], and a reading equal to min_level gives 0 |
| `Classifier.PercentageAtMaxLevel` | ESPBattery.cpp:90-96 | a reading equal to max_level gives 100 |
| `Classifier.PercentageMonotone` | ESPBattery.cpp:90-96 | when min_level < max_level, the percentage is non-decreasing in the level |
| `Classifier.PercentageSaturates` | ESPBattery.cpp:90-96 | when min_level < max_level, levels at or below min_level give 0 and levels at or above max_level give 100 |
| `Classifier.DefaultPercentageEnds` | ESPBattery.cpp:90-96 | with the default bounds, a level <= 526 (every CRITICAL reading) gives 0 and a level >= 645 gives 100 |
| `Callbacks.Call` | ESPBattery.cpp:144-153 | calling through a slot notifies its handler once when the slot is set, and nobody when it is NULL |
| `Callbacks.Notifications` | ESPBattery.cpp:143-156 | at most two calls; when there are two, "changed" comes first and a state slot second; every call goes to the handler registered in its slot; a slot fires exactly when the state changed, the slot is set, and the slot concerns the new state ("changed": any; low/critical/charging: that state; no slot for OK or FULL) |
| `Callbacks.SameStateIsSilent` | ESPBattery.cpp:143 | an unchanged state notifies nobody |
| `Callbacks.NoHandlersNoNotifications` | ESPBattery.h:43-46 | with all slots NULL, as declared, no notification can occur |
| `Callbacks.OkToLow` | ESPBattery.cpp:143-156 | OK to LOW calls "changed" and then "low", once each |
| `Callbacks.LowToOk` | ESPBattery.cpp:143-156 | LOW to OK calls only "changed" |
| `Battery.ESPBattery.Unbound` | ESPBattery.cpp:45-47 | the default constructor binds no pin and leaves all four slots NULL, with an empty log |
| `Battery.ESPBattery.constructor` | ESPBattery.cpp:51-53 | the pin constructor stores the configuration (defaults 500, 526, 645) and, on a bound pin, takes the first sample; the previous state is then the initial state |
| `Battery.ESPBattery.Begin` | ESPBattery.cpp:59-68 | stores pin, interval and bounds, then has exactly the effect of `_readData` |
| `Battery.ESPBattery.ReadData` | ESPBattery.cpp:80-99 | on `UNDEFINED_PIN` no field changes and nothing is notified; on any other pin: `last_read` becomes now, `level` becomes the reading, `percentage` becomes the clamped map (so it is in [0,100]), and `state` is classified with the previous state saved and the notifications logged |
| `Battery.ESPBattery.Loop` | ESPBattery.cpp:103-107 | samples exactly when now > last_read + interval (strictly); otherwise changes nothing |
| `Battery.ESPBattery.GetState` | ESPBattery.cpp:129-158 | returns the new state, which is the classification of `level`; `last_state` holds the state on entry; the log grows by exactly `Notifications(old state, new state, slots)` |
| `Battery.ESPBattery.GetPercentage` | ESPBattery.cpp:117-119 | returns the stored percentage and changes nothing |
| `Battery.ESPBattery.GetLevel` | ESPBattery.cpp:123-125 | returns the stored raw level and changes nothing |
| `Battery.ESPBattery.GetPreviousState` | ESPBattery.cpp:180-182 | returns the state held before the last classification and changes nothing |
| `Battery.ESPBattery.SetLevelChangedHandler` | ESPBattery.cpp:186-188 | replaces the "changed" slot and no other slot or field |
| `Battery.ESPBattery.SetLevelLowHandler` | ESPBattery.cpp:192-194 | replaces the "low" slot and no other slot or field |
| `Battery.ESPBattery.SetLevelCriticalHandler` | ESPBattery.cpp:198-200 | replaces the "critical" slot and no other slot or field |
| `Battery.ESPBattery.SetLevelChargingHandler` | ESPBattery.cpp:204-206 | replaces the "charging" slot and no other slot or field |
| `Battery.GetStateTwice` | ESPBattery.cpp:129-158 | two `getState` calls with no new reading return the same state; the second call notifies nobody; afterwards `last_state == state`; only `state`, `last_state` and the log change |
| `Battery.LoopTwiceAtOnce` | ESPBattery.cpp:103-107 | with a non-negative interval, two `loop` calls at the same instant have the effect of the first alone (pin, bounds, interval and slots untouched); the second call's reading is never used |

## Left out

- ADC driver set-up and calibration (`InitADC`, `adc_oneshot_read`, `adc_cali_raw_to_voltage`): these are foreign ESP-IDF calls that abort on error. The raw reading is a parameter instead.
- `getRaw`: it always reads ADC channel 1, whatever the pin is. The pin therefore only switches sampling on or off, and that is all the model keeps of it.
- Voltage: `_readData` computes an integer calibrated voltage, doubles it with `<< 1`, and discards it. `getVoltage` returns the float field `v`, which nothing writes. Neither one affects a modelled field, so neither is modelled.
- `millis()`: the clock is the parameter `now`, an unbounded integer. Unsigned-long wrap-around and the mixed signed/unsigned comparison in `loop` are not modelled. One `now` stands for both `millis()` reads of a sampling `loop`: the gate and the `last_read` stamp.
- Battery.ESPBattery.ReadData: `level` is an unbounded natural. The 32-bit `unsigned int` conversion is not modelled, and neither is 32-bit `long` overflow in `map`'s product `(x - in_min) * (out_max - out_min)` or its difference `in_max - in_min`. That overflow depends on the bounds as well as the reading: with `begin(pin, 500, -30000000, 645)` and a reading of 600, the source's product overflows while the model computes 99. Neither occurs while the reading and both bounds stay well below 2^31/100 in magnitude, for example within the ADC's range.
- Battery.ESPBattery.Begin: requires `min_lvl != max_lvl` when the pin is bound, because the model of `map` is undefined for an empty input range. The pin constructor `Battery.ESPBattery.constructor` has the same requirement, and `Battery.ESPBattery.ReadData`, `Battery.ESPBattery.Loop` and `Battery.LoopTwiceAtOnce` have it through `Valid()`.
- Callback bodies are user code. The model records which slot was called, with which handler, and in what order. It does not record what the callback does. Re-entry from a callback is not modelled.
- Arduino `String` is a Dafny `string`, and `byte` is the bounded type `Byte`.
