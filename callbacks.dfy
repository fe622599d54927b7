/** The four callback slots of ESPBattery and the notifications `getState`
    sends through them. A callback's body is user code; the model records only
    which slot was called and which registered function it held. */
module Callbacks {
  import opened Thresholds

  datatype Option<T> = None | Some(value: T)

  /** Identity of a registered callback function (the function pointer). */
  type HandlerId = nat

  /** The four slots, named after their setters. */
  datatype Slot = LevelChanged | LevelLow | LevelCritical | LevelCharging

  /** The contents of the four slots; `None` is a NULL pointer. */
  datatype Handlers = Handlers(
    changed: Option<HandlerId>,
    low: Option<HandlerId>,
    critical: Option<HandlerId>,
    charging: Option<HandlerId>)
  {
    function Get(slot: Slot): Option<HandlerId> {
      match slot
      case LevelChanged => changed
      case LevelLow => low
      case LevelCritical => critical
      case LevelCharging => charging
    }
  }

  /** All slots NULL, as the class declares them. */
  const NoHandlers: Handlers := Handlers(None, None, None, None)

  /** One call of a registered callback. */
  datatype Notification = Notify(slot: Slot, handler: HandlerId)

  predicate Fires(log: seq<Notification>, slot: Slot) {
    exists i :: 0 <= i < |log| && log[i].slot == slot
  }

  /** Which slot is meant for entering which state: "changed" for any change,
      the other three for one state each. No slot is meant for OK or FULL alone. */
  predicate Concerns(slot: Slot, current: int) {
    match slot
    case LevelChanged => true
    case LevelLow => current == LOW
    case LevelCritical => current == CRITICAL
    case LevelCharging => current == CHARGING
  }

  /** Calling through a slot: one notification when it holds a function, none when it is NULL. */
  function Call(slot: Slot, h: Handlers): (log: seq<Notification>)
    ensures |log| <= 1
    ensures forall i :: 0 <= i < |log| ==> log[i].slot == slot && h.Get(slot) == Some(log[i].handler)
    ensures log == [] <==> h.Get(slot).None?
    ensures forall t :: Fires(log, t) <==> t == slot && h.Get(slot).Some?
  {
    match h.Get(slot)
    case None => []
    case Some(f) =>
      assert [Notify(slot, f)][0].slot == slot;
      [Notify(slot, f)]
  }

  /** The notifications `getState` sends when the state goes from `previous` to
      `current` with the slots holding `h`. */
  function Notifications(previous: int, current: int, h: Handlers): (log: seq<Notification>)
    ensures |log| <= 2
    ensures |log| == 2 ==> log[0].slot == LevelChanged && log[1].slot != LevelChanged
    ensures forall i :: 0 <= i < |log| ==> h.Get(log[i].slot) == Some(log[i].handler)
    ensures forall slot :: Fires(log, slot) <==> previous != current && h.Get(slot).Some? && Concerns(slot, current)
  {
    if current == previous then []
    else
      var changed := Call(LevelChanged, h);
      var specific :=
        if current == CHARGING then Call(LevelCharging, h)
        else if current == CRITICAL then Call(LevelCritical, h)
        else if current == LOW then Call(LevelLow, h)
        else [];
      assert forall slot :: Fires(changed + specific, slot) <==> Fires(changed, slot) || Fires(specific, slot) by {
        forall slot ensures Fires(changed + specific, slot) <==> Fires(changed, slot) || Fires(specific, slot) {
          FiresAppend(changed, specific, slot);
        }
      }
      changed + specific
  }

  lemma FiresAppend(a: seq<Notification>, b: seq<Notification>, slot: Slot)
    ensures Fires(a + b, slot) <==> Fires(a, slot) || Fires(b, slot)
  {
    if Fires(a, slot) {
      var i :| 0 <= i < |a| && a[i].slot == slot;
      assert (a + b)[i] == a[i];
    }
    if Fires(b, slot) {
      var i :| 0 <= i < |b| && b[i].slot == slot;
      assert (a + b)[|a| + i] == b[i];
    }
    if Fires(a + b, slot) && !Fires(a, slot) {
      var i :| 0 <= i < |a + b| && (a + b)[i].slot == slot;
      assert b[i - |a|] == (a + b)[i];
    }
  }

  /** An unchanged state notifies nobody: classifying the same level twice in a
      row is silent the second time. */
  lemma SameStateIsSilent(s: int, h: Handlers)
    ensures Notifications(s, s, h) == []
  {
  }

  /** Before any handler is registered nothing can be notified. */
  lemma NoHandlersNoNotifications(previous: int, current: int)
    ensures Notifications(previous, current, NoHandlers) == []
  {
  }

  /** Going from OK to LOW calls "changed" and then "low", once each. */
  lemma OkToLow(h: Handlers)
    requires h.changed.Some? && h.low.Some?
    ensures Notifications(OK, LOW, h) == [Notify(LevelChanged, h.changed.value), Notify(LevelLow, h.low.value)]
  {
  }

  /** Going from LOW back to OK calls only "changed". */
  lemma LowToOk(h: Handlers)
    ensures Notifications(LOW, OK, h) == Call(LevelChanged, h)
  {
  }
}
