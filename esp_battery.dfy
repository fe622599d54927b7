/** The ESPBattery class: the fields declared in ESPBattery.h and the methods of
    ESPBattery.cpp that update them. The ADC reading and the clock (`millis()`)
    are parameters of the methods that use them. */
module Battery {
  import opened Thresholds
  import opened Classifier
  import opened Callbacks

  class ESPBattery {
    var pin: Byte
    var level: nat
    var percentage: int
    var minLevel: int
    var maxLevel: int
    var interval: int
    var lastRead: int
    var state: int
    var lastState: int

    var changedCb: Option<HandlerId>
    var lowCb: Option<HandlerId>
    var criticalCb: Option<HandlerId>
    var chargingCb: Option<HandlerId>

    /** Every callback invocation so far, oldest first. */
    ghost var Trace: seq<Notification>

    /** A bound pin needs distinct bounds, or the percentage map would divide by zero. */
    predicate Valid()
      reads this
    {
      pin == UNDEFINED_PIN || minLevel != maxLevel
    }

    /** The contents of the four callback slots. */
    function Registered(): Handlers
      reads this
    {
      Handlers(changedCb, lowCb, criticalCb, chargingCb)
    }

    /** The new state a completed sample leaves: time stamp, reading, percentage,
        classification, the state before it, and the notifications it sent. */
    twostate predicate Sampled(now: int, reading: nat)
      reads this
      requires minLevel != maxLevel
    {
      && lastRead == now
      && level == reading
      && percentage == Percentage(reading, minLevel, maxLevel)
      && state == Classify(reading)
      && lastState == old(state)
      && Trace == old(Trace) + Notifications(old(state), state, Registered())
    }

    /** The effect of `_readData`: nothing at all on the undefined pin, a sample otherwise. */
    twostate predicate ReadDataEffect(now: int, reading: nat)
      reads this
      requires Valid()
    {
      if pin == UNDEFINED_PIN then
        && lastRead == old(lastRead) && level == old(level) && percentage == old(percentage)
        && state == old(state) && lastState == old(lastState) && Trace == old(Trace)
      else
        Sampled(now, reading)
    }

    /** The default constructor: no pin bound, all slots NULL. The state field is
        not initialised by the source; `initialState` stands for whatever it holds. */
    constructor Unbound(initialState: int)
      ensures Valid()
      ensures pin == UNDEFINED_PIN && state == initialState
      ensures Registered() == NoHandlers && Trace == []
    {
      pin := UNDEFINED_PIN;
      state := initialState;
      changedCb, lowCb, criticalCb, chargingCb := None, None, None, None;
      Trace := [];
    }

    /** The pin constructor, which runs `begin` with the same arguments. */
    constructor (analogPin: Byte, now: int, reading: nat, initialState: int,
                 pollingIntervalMs: int := DEFAULT_INTERVAL_MS,
                 minLvl: int := DEFAULT_MIN_LEVEL, maxLvl: int := DEFAULT_MAX_LEVEL)
      requires analogPin == UNDEFINED_PIN || minLvl != maxLvl
      ensures Valid()
      ensures pin == analogPin && interval == pollingIntervalMs
      ensures minLevel == minLvl && maxLevel == maxLvl
      ensures Registered() == NoHandlers && Trace == []
      ensures analogPin == UNDEFINED_PIN ==> state == initialState
      ensures analogPin != UNDEFINED_PIN ==>
        && lastRead == now && level == reading
        && percentage == Percentage(reading, minLvl, maxLvl)
        && state == Classify(reading) && lastState == initialState
    {
      state := initialState;
      changedCb, lowCb, criticalCb, chargingCb := None, None, None, None;
      Trace := [];
      new;
      Begin(analogPin, now, reading, pollingIntervalMs, minLvl, maxLvl);
      NoHandlersNoNotifications(initialState, state);
    }

    /** `begin`: store the configuration, then take one sample at once. */
    method Begin(analogPin: Byte, now: int, reading: nat,
                 pollingIntervalMs: int := DEFAULT_INTERVAL_MS,
                 minLvl: int := DEFAULT_MIN_LEVEL, maxLvl: int := DEFAULT_MAX_LEVEL)
      requires analogPin == UNDEFINED_PIN || minLvl != maxLvl
      modifies this`pin, this`interval, this`minLevel, this`maxLevel
      modifies this`lastRead, this`level, this`percentage, this`state, this`lastState, this`Trace
      ensures Valid()
      ensures pin == analogPin && interval == pollingIntervalMs
      ensures minLevel == minLvl && maxLevel == maxLvl
      ensures ReadDataEffect(now, reading)
    {
      pin := analogPin;
      interval := pollingIntervalMs;
      minLevel := minLvl;
      maxLevel := maxLvl;
      ReadData(now, reading);
    }

    /** `_readData`: on a bound pin, stamp the time, store the reading, compute
        the clamped percentage and classify. */
    method ReadData(now: int, reading: nat)
      requires Valid()
      modifies this`lastRead, this`level, this`percentage, this`state, this`lastState, this`Trace
      ensures Valid()
      ensures ReadDataEffect(now, reading)
      ensures pin != UNDEFINED_PIN ==> 0 <= percentage <= 100 && IsState(state)
    {
      if pin != UNDEFINED_PIN {
        lastRead := now;
        level := reading;
        var p := ArduinoMath.Map(level, minLevel, maxLevel, 0, 100);
        if p < 0 {
          p := 0;
        } else if p > 100 {
          p := 100;
        }
        percentage := p;
        var _ := GetState();
      }
    }

    /** `loop`: sample only once more than `interval` milliseconds have passed
        since the last sample. */
    method Loop(now: int, reading: nat)
      requires Valid()
      modifies this`lastRead, this`level, this`percentage, this`state, this`lastState, this`Trace
      ensures Valid()
      ensures if now > old(lastRead) + interval then ReadDataEffect(now, reading)
              else unchanged(this)
    {
      if now > lastRead + interval {
        ReadData(now, reading);
      }
    }

    /** `getState`: classify the stored level, remember the state it replaces,
        and on a change call "changed" and then the slot for the new state. */
    method GetState() returns (s: int)
      modifies this`state, this`lastState, this`Trace
      ensures s == state && state == Classify(level) && IsState(state)
      ensures lastState == old(state)
      ensures Trace == old(Trace) + Notifications(old(state), state, Registered())
    {
      lastState := state;
      if level >= CHARGING {
        state := CHARGING;
      } else if level >= FULL {
        state := FULL;
      } else if level <= CRITICAL {
        state := CRITICAL;
      } else if level <= LOW {
        state := LOW;
      } else {
        state := OK;
      }
      if state != lastState {
        if changedCb.Some? {
          Trace := Trace + [Notify(LevelChanged, changedCb.value)];
        }
        if state == CHARGING {
          if chargingCb.Some? {
            Trace := Trace + [Notify(LevelCharging, chargingCb.value)];
          }
        } else if state == CRITICAL {
          if criticalCb.Some? {
            Trace := Trace + [Notify(LevelCritical, criticalCb.value)];
          }
        } else if state == LOW {
          if lowCb.Some? {
            Trace := Trace + [Notify(LevelLow, lowCb.value)];
          }
        }
      }
      s := state;
    }

    method GetPercentage() returns (p: int)
      ensures p == percentage
    {
      p := percentage;
    }

    method GetLevel() returns (l: nat)
      ensures l == level
    {
      l := level;
    }

    method GetPreviousState() returns (s: int)
      ensures s == lastState
    {
      s := lastState;
    }

    method SetLevelChangedHandler(f: Option<HandlerId>)
      modifies this`changedCb
      ensures Registered() == old(Registered()).(changed := f)
    {
      changedCb := f;
    }

    method SetLevelLowHandler(f: Option<HandlerId>)
      modifies this`lowCb
      ensures Registered() == old(Registered()).(low := f)
    {
      lowCb := f;
    }

    method SetLevelCriticalHandler(f: Option<HandlerId>)
      modifies this`criticalCb
      ensures Registered() == old(Registered()).(critical := f)
    {
      criticalCb := f;
    }

    method SetLevelChargingHandler(f: Option<HandlerId>)
      modifies this`chargingCb
      ensures Registered() == old(Registered()).(charging := f)
    {
      chargingCb := f;
    }
  }

  /** Calling `getState` twice without a new reading: the second call notifies
      nobody and leaves the previous state equal to the current one. */
  method GetStateTwice(b: ESPBattery) returns (first: int, second: int)
    modifies b`state, b`lastState, b`Trace
    ensures first == second == b.state == b.lastState == Classify(b.level)
    ensures b.Trace == old(b.Trace) + Notifications(old(b.state), b.state, b.Registered())
  {
    first := b.GetState();
    second := b.GetState();
    SameStateIsSilent(b.state, b.Registered());
  }

  /** Two `loop` calls at the same instant: the first sample stamps `lastRead`
      with that instant, so with a non-negative interval the second call is a
      no-op and its reading is never used. */
  method LoopTwiceAtOnce(b: ESPBattery, now: int, reading: nat, ignored: nat)
    requires b.Valid() && b.interval >= 0
    modifies b`lastRead, b`level, b`percentage, b`state, b`lastState, b`Trace
    ensures b.Valid() && b.interval == old(b.interval)
    ensures if now > old(b.lastRead) + b.interval then b.ReadDataEffect(now, reading)
            else unchanged(b)
  {
    b.Loop(now, reading);
    b.Loop(now, ignored);
  }
}
