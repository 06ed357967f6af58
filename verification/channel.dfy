/**
 The per-channel state of the GPIO bit-banged PWM driver, the events the
 driver sends to the pin and to its one-shot timer, and the two helpers that
 map a logical phase (on/off) and a polarity to an electrical pin level.
 */
module PwmChannel {

  /** Width of the record's `unsigned int` duration fields. */
  const UINT32_MODULUS: int := 0x1_0000_0000

  type UInt32 = x: int | 0 <= x < UINT32_MODULUS
  type Int32 = x: int | -0x8000_0000 <= x < 0x8000_0000

  /** An electrical pin level as written to the GPIO: 0 (low) or 1 (high). */
  type Bit = b: int | 0 <= b <= 1

  /**
   Value conversion of a C integer into `unsigned int`: a value in range is
   kept, a negative one within one modulus gains 2^32.
   */
  function ToUInt32(x: int): (r: UInt32)
    ensures 0 <= x < UINT32_MODULUS ==> r == x
    ensures -UINT32_MODULUS <= x < 0 ==> r == x + UINT32_MODULUS
  {
    x % UINT32_MODULUS
  }

  /**
   The channel record, restricted to the fields with behaviour: `polarity`
   is false for normal and true for inverted polarity, `pinOn` says which
   phase the pin is driven in, `onTime`/`offTime` are the phase durations in
   nanoseconds.
   */
  datatype Channel = Channel(
    isRunning: bool,
    polarity: bool,
    pinOn: bool,
    onTime: UInt32,
    offTime: UInt32
  )

  /** What the driver does to the world outside its record. */
  datatype Event =
    | SetLevel(level: Bit)   // write an electrical level to the pin
    | Arm(delayNs: nat)      // (re)arm the one-shot timer to fire after delayNs
    | Cancel                 // cancel the timer, waiting for a running callback
    | ReleasePin             // hand the pin back

  /** A state change together with the events it emitted, in order. */
  datatype Transition = Transition(ch: Channel, events: seq<Event>)

  /**
   Reference meaning of polarity: the pin is high exactly when the logical
   phase and the inversion flag differ.
   */
  function ElectricalLevel(phaseOn: bool, inverted: bool): Bit {
    if phaseOn != inverted then 1 else 0
  }

  /** Level driven for the "on" phase. */
  function OnLevel(inverted: bool): (l: Bit)
    ensures l == ElectricalLevel(true, inverted)
    ensures l == 1 <==> !inverted
  {
    if inverted then 0 else 1
  }

  /** Level driven for the "off" phase. */
  function OffLevel(inverted: bool): (l: Bit)
    ensures l == ElectricalLevel(false, inverted)
    ensures l == 1 <==> inverted
  {
    if inverted then 1 else 0
  }

  /** The on and off levels are complementary under either polarity. */
  lemma LevelsComplementary(inverted: bool)
    ensures OnLevel(inverted) + OffLevel(inverted) == 1
    ensures OnLevel(!inverted) == OffLevel(inverted)
  {
  }

  /** Drive the pin to its off level and record the off phase. */
  function SwitchOff(ch: Channel): (t: Transition)
    ensures t.ch == ch.(pinOn := false)
    ensures t.events == [SetLevel(ElectricalLevel(false, ch.polarity))]
  {
    Transition(ch.(pinOn := false), [SetLevel(OffLevel(ch.polarity))])
  }

  /** Drive the pin to its on level and record the on phase. */
  function SwitchOn(ch: Channel): (t: Transition)
    ensures t.ch == ch.(pinOn := true)
    ensures t.events == [SetLevel(ElectricalLevel(true, ch.polarity))]
  {
    Transition(ch.(pinOn := true), [SetLevel(OnLevel(ch.polarity))])
  }

  /** Complement a pin level; timer and release events are left alone. */
  function InvertEvent(e: Event): (r: Event)
    ensures r.SetLevel? <==> e.SetLevel?
    ensures e.SetLevel? ==> r.level + e.level == 1
    ensures !e.SetLevel? ==> r == e
  {
    match e
    case SetLevel(l) => SetLevel(1 - l)
    case _ => e
  }

  /** Complement every pin level of a trace. */
  function InvertLevels(events: seq<Event>): (r: seq<Event>)
    ensures |r| == |events|
    ensures forall i :: 0 <= i < |r| ==> r[i] == InvertEvent(events[i])
  {
    if events == [] then []
    else [InvertEvent(events[0])] + InvertLevels(events[1..])
  }
}
