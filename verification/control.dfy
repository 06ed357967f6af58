/**
 The configuration and lifecycle operations of one channel: duty/period
 configuration, polarity, enable, disable, request and free. Each runs
 atomically, as under the channel mutex, and returns the new record, the
 events it emitted and, where the driver returns one, its status code.
 */
module PwmControl {
  import opened PwmChannel
  import opened PwmEngine

  /** Linux error number returned, negated, when enabling a running channel. */
  const EBUSY: int := 16

  /** The polarity values the PWM core passes to the driver. */
  datatype PwmPolarity = PolarityNormal | PolarityInversed

  /** Result of an operation that returns a status code (0 on success). */
  datatype Outcome = Outcome(ch: Channel, events: seq<Event>, ret: int)

  /** Kernel error pointers encode -4095 .. -1. */
  type Errno = e: int | -4095 <= e <= -1 witness -1

  /** What the pin lookup at request time yields. */
  datatype GpioLookup = GpioFound | GpioMissing(err: Errno)

  /** Result of requesting a channel. */
  datatype Requested = Granted(ch: Channel, events: seq<Event>) | Refused(ret: Errno)

  /**
   Store the duty cycle as the on time and the rest of the period as the
   off time. There is no validation: both values go through the conversion
   to `unsigned int`, so a negative duty or a duty beyond the period wraps.
   */
  function Config(ch: Channel, dutyNs: Int32, periodNs: Int32): (r: Outcome)
    ensures r.ret == 0 && r.events == []
    ensures r.ch.isRunning == ch.isRunning && r.ch.polarity == ch.polarity && r.ch.pinOn == ch.pinOn
    ensures r.ch.onTime % UINT32_MODULUS == dutyNs % UINT32_MODULUS
    ensures (r.ch.onTime + r.ch.offTime) % UINT32_MODULUS == periodNs % UINT32_MODULUS
  {
    var on := ToUInt32(dutyNs);
    var off := ToUInt32(periodNs - dutyNs);
    ModularSum(dutyNs, periodNs - dutyNs);
    Outcome(ch.(onTime := on, offTime := off), [], 0)
  }

  lemma ModularSum(a: int, b: int)
    ensures (a % UINT32_MODULUS + b % UINT32_MODULUS) % UINT32_MODULUS == (a + b) % UINT32_MODULUS
  {
  }

  /** For a duty within the period, the two phases add up to exactly the period. */
  lemma ConfigSplitsPeriod(ch: Channel, dutyNs: Int32, periodNs: Int32)
    requires 0 <= dutyNs <= periodNs
    ensures Config(ch, dutyNs, periodNs).ch.onTime == dutyNs
    ensures Config(ch, dutyNs, periodNs).ch.onTime + Config(ch, dutyNs, periodNs).ch.offTime == periodNs
  {
  }

  /** A duty beyond the period is accepted, and the off time wraps around. */
  lemma ConfigWrapsOverlongDuty(ch: Channel, dutyNs: Int32, periodNs: Int32)
    requires 0 <= periodNs < dutyNs
    ensures Config(ch, dutyNs, periodNs).ret == 0
    ensures Config(ch, dutyNs, periodNs).ch.offTime == UINT32_MODULUS - (dutyNs - periodNs)
  {
  }

  /** A new configuration is what the next firing arms the timer with. */
  lemma ConfigTakesEffectAtNextFiring(ch: Channel, dutyNs: Int32, periodNs: Int32)
    requires 0 <= dutyNs <= periodNs
    ensures !ch.pinOn ==> Fire(Config(ch, dutyNs, periodNs).ch).events[1] == Arm(dutyNs)
    ensures ch.pinOn ==> Fire(Config(ch, dutyNs, periodNs).ch).events[1] == Arm(periodNs - dutyNs)
  {
  }

  /** Record whether the polarity is inverted; nothing is written to the pin. */
  function SetPolarity(ch: Channel, polarity: PwmPolarity): (r: Outcome)
    ensures r.ret == 0 && r.events == []
    ensures r.ch.polarity <==> polarity == PolarityInversed
    ensures r.ch == ch.(polarity := r.ch.polarity)
  {
    Outcome(ch.(polarity := polarity != PolarityNormal), [], 0)
  }

  /**
   Start a stopped channel by arming the timer to fire at once; a running
   channel is refused with -EBUSY and left alone.
   */
  function Enable(ch: Channel): (r: Outcome)
    ensures ch.isRunning ==> r == Outcome(ch, [], -EBUSY)
    ensures !ch.isRunning ==> r.ret == 0 && r.ch == ch.(isRunning := true) && r.events == [Arm(0)]
    ensures r.ch.isRunning
  {
    if ch.isRunning then Outcome(ch, [], -EBUSY)
    else Outcome(ch.(isRunning := true), [Arm(0)], 0)
  }

  /**
   Stop a running channel: cancel the timer, drive the pin to the off level
   of the current polarity, clear the running flag. A stopped channel is
   left untouched.
   */
  function Disable(ch: Channel): (t: Transition)
    ensures !ch.isRunning ==> t == Transition(ch, [])
    ensures ch.isRunning ==> t.events == [Cancel, SetLevel(ElectricalLevel(false, ch.polarity))]
    ensures t.ch == ch.(isRunning := false, pinOn := ch.pinOn && !ch.isRunning)
  {
    if !ch.isRunning then Transition(ch, [])
    else
      var off := SwitchOff(ch);
      Transition(off.ch.(isRunning := false), [Cancel] + off.events)
  }

  /**
   Set up a fresh channel: a zero-filled record whose pin is claimed as an
   output driven low. A failed pin lookup is returned as its error code.
   */
  function Request(lookup: GpioLookup): (r: Requested)
    ensures lookup.GpioMissing? <==> r.Refused?
    ensures r.Refused? ==> r.ret == lookup.err
    ensures r.Granted? ==> !r.ch.isRunning && !r.ch.pinOn && !r.ch.polarity
    ensures r.Granted? ==> r.ch.onTime == 0 && r.ch.offTime == 0
    ensures r.Granted? ==> r.events == [SetLevel(0)]
  {
    match lookup
    case GpioMissing(err) => Refused(err)
    case GpioFound => Granted(Channel(false, false, false, 0, 0), [SetLevel(0)])
  }

  /** Disable the channel, then give the pin back. */
  function Free(ch: Channel): (t: Transition)
    ensures !t.ch.isRunning
    ensures t.events == Disable(ch).events + [ReleasePin]
    ensures t.ch == Disable(ch).ch
  {
    var stopped := Disable(ch);
    Transition(stopped.ch, stopped.events + [ReleasePin])
  }

  /** A second enable is refused and changes nothing the first one did. */
  lemma EnableTwiceIsBusy(ch: Channel)
    ensures Enable(Enable(ch).ch) == Outcome(Enable(ch).ch, [], -EBUSY)
  {
  }

  /** Disabling twice is the same as disabling once. */
  lemma DisableIdempotent(ch: Channel)
    ensures Disable(Disable(ch).ch) == Transition(Disable(ch).ch, [])
  {
  }

  /** Enabling an idle channel that rests in the off phase and disabling it again restores it. */
  lemma DisableUndoesEnable(ch: Channel)
    requires !ch.isRunning && !ch.pinOn
    ensures Disable(Enable(ch).ch).ch == ch
    ensures Enable(ch).events + Disable(Enable(ch).ch).events
            == [Arm(0), Cancel, SetLevel(OffLevel(ch.polarity))]
  {
  }

  /** After a disable the channel can be enabled again. */
  lemma EnableAfterDisableSucceeds(ch: Channel)
    ensures Enable(Disable(ch).ch).ret == 0
  {
  }

  /** Freeing an idle channel only releases the pin. */
  lemma FreeIdleOnlyReleases(ch: Channel)
    requires !ch.isRunning
    ensures Free(ch) == Transition(ch, [ReleasePin])
  {
  }
}
