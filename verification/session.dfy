/**
 A channel together with the outside world it drives: the pin, the one-shot
 timer and the record of every event, from request to free. The world only
 receives events; an expiry of the timer is a call like any other, and it
 can happen only while the timer is armed.
 */
module PwmSession {
  import opened PwmChannel
  import opened PwmEngine
  import opened PwmControl

  datatype TimerState = Disarmed | ArmedFor(delayNs: nat)

  /** The state of the event sinks: pin level, timer, whether the pin is still held. */
  datatype Sinks = Sinks(pin: Bit, timer: TimerState, pinHeld: bool)

  /** The channel, its sinks, and the log of all events so far. */
  datatype System = System(ch: Channel, sinks: Sinks, log: seq<Event>)

  /** The calls that reach a channel: the PWM core's operations and timer expiry. */
  datatype Call =
    | Configure(dutyNs: Int32, periodNs: Int32)
    | Polarize(polarity: PwmPolarity)
    | Start
    | Stop
    | Expiry

  function Deliver(s: Sinks, e: Event): Sinks {
    match e
    case SetLevel(l) => s.(pin := l)
    case Arm(d) => s.(timer := ArmedFor(d))
    case Cancel => s.(timer := Disarmed)
    case ReleasePin => s.(pinHeld := false)
  }

  function DeliverAll(s: Sinks, events: seq<Event>): Sinks
    decreases |events|
  {
    if events == [] then s else DeliverAll(Deliver(s, events[0]), events[1..])
  }

  lemma DeliverSingle(s: Sinks, a: Event)
    ensures DeliverAll(s, [a]) == Deliver(s, a)
  {
  }

  lemma DeliverPair(s: Sinks, a: Event, b: Event)
    ensures DeliverAll(s, [a, b]) == Deliver(Deliver(s, a), b)
  {
    assert [a, b][1..] == [b];
    DeliverSingle(Deliver(s, a), b);
  }

  lemma {:induction false} DeliverAllAppend(s: Sinks, a: seq<Event>, b: seq<Event>)
    ensures DeliverAll(s, a + b) == DeliverAll(DeliverAll(s, a), b)
    decreases |a|
  {
    if a != [] {
      assert (a + b)[1..] == a[1..] + b;
      DeliverAllAppend(Deliver(s, a[0]), a[1..], b);
    } else {
      assert a + b == b;
    }
  }

  function Apply(sys: System, t: Transition): System {
    System(t.ch, DeliverAll(sys.sinks, t.events), sys.log + t.events)
  }

  /** The channel as requested with its pin found; the pin is driven low. */
  function Boot(): (sys: System)
    ensures !sys.ch.isRunning && !sys.ch.pinOn
    ensures sys.sinks == Sinks(0, Disarmed, true)
    ensures Invariant(sys) && PinReflectsPhase(sys)
  {
    var g := Request(GpioFound);
    System(g.ch, DeliverAll(Sinks(0, Disarmed, true), g.events), g.events)
  }

  function Step(sys: System, call: Call): System {
    match call
    case Configure(d, p) =>
      var o := Config(sys.ch, d, p);
      Apply(sys, Transition(o.ch, o.events))
    case Polarize(pol) =>
      var o := SetPolarity(sys.ch, pol);
      Apply(sys, Transition(o.ch, o.events))
    case Start =>
      var o := Enable(sys.ch);
      Apply(sys, Transition(o.ch, o.events))
    case Stop => Apply(sys, Disable(sys.ch))
    case Expiry => if sys.sinks.timer.ArmedFor? then Apply(sys, Fire(sys.ch)) else sys
  }

  /** The calls applied in order, the first one first. */
  function Replay(sys: System, calls: seq<Call>): System
    decreases |calls|
  {
    if calls == [] then sys else Replay(Step(sys, calls[0]), calls[1..])
  }

  /** The end of the channel's life: free it. */
  function Shutdown(sys: System): System {
    Apply(sys, Free(sys.ch))
  }

  /**
   What holds between calls: the timer is armed exactly while the channel
   runs, and an idle channel rests in the off phase.
   */
  ghost predicate Invariant(sys: System) {
    && (sys.sinks.timer.ArmedFor? <==> sys.ch.isRunning)
    && (!sys.ch.isRunning ==> !sys.ch.pinOn)
  }

  /** The pin shows the level that the recorded phase has under the current polarity. */
  ghost predicate PinReflectsPhase(sys: System) {
    sys.sinks.pin == ElectricalLevel(sys.ch.pinOn, sys.ch.polarity)
  }

  /** No call of the sequence changes the polarity. */
  predicate NoPolarize(calls: seq<Call>) {
    forall i :: 0 <= i < |calls| ==> !calls[i].Polarize?
  }

  lemma StepPreservesInvariant(sys: System, call: Call)
    requires Invariant(sys)
    ensures Invariant(Step(sys, call))
    ensures PinReflectsPhase(sys) && !call.Polarize? ==> PinReflectsPhase(Step(sys, call))
  {
    match call
    case Stop =>
      if sys.ch.isRunning {
        DeliverPair(sys.sinks, Cancel, SetLevel(OffLevel(sys.ch.polarity)));
      }
    case Expiry =>
      if sys.sinks.timer.ArmedFor? {
        var t := Fire(sys.ch);
        DeliverPair(sys.sinks, t.events[0], t.events[1]);
      }
    case Start =>
      if !sys.ch.isRunning {
        DeliverSingle(sys.sinks, Arm(0));
      }
    case _ =>
  }

  /**
   Whatever the pin showed before, stopping a running channel or an expiry
   of the armed timer makes it show the recorded phase again.
   */
  lemma PinResyncs(sys: System, call: Call)
    requires Invariant(sys) && sys.ch.isRunning
    requires call == Stop || call == Expiry
    ensures PinReflectsPhase(Step(sys, call))
    ensures call == Stop ==> Step(sys, call).sinks.pin == OffLevel(sys.ch.polarity)
  {
    if call == Stop {
      DeliverPair(sys.sinks, Cancel, SetLevel(OffLevel(sys.ch.polarity)));
    } else {
      var t := Fire(sys.ch);
      DeliverPair(sys.sinks, t.events[0], t.events[1]);
    }
  }

  /**
   Every call sequence keeps the invariant; one that never changes the
   polarity also keeps the pin showing the recorded phase.
   */
  lemma {:induction false} ReplayPreservesInvariant(sys: System, calls: seq<Call>)
    requires Invariant(sys)
    ensures Invariant(Replay(sys, calls))
    ensures PinReflectsPhase(sys) && NoPolarize(calls) ==> PinReflectsPhase(Replay(sys, calls))
    decreases |calls|
  {
    if calls != [] {
      StepPreservesInvariant(sys, calls[0]);
      assert NoPolarize(calls) ==> NoPolarize(calls[1..]) by {
        if NoPolarize(calls) {
          forall i | 0 <= i < |calls[1..]|
            ensures !calls[1..][i].Polarize?
          {
            assert calls[1..][i] == calls[i + 1];
          }
        }
      }
      ReplayPreservesInvariant(Step(sys, calls[0]), calls[1..]);
    }
  }

  /**
   Whatever was done to it since the request, a channel keeps the
   invariant; as long as its polarity was never set, its pin shows the
   recorded phase, so an idle pin is at its off level.
   */
  lemma ReachableInvariant(calls: seq<Call>)
    ensures Invariant(Replay(Boot(), calls))
    ensures NoPolarize(calls) ==> PinReflectsPhase(Replay(Boot(), calls))
    ensures NoPolarize(calls) && !Replay(Boot(), calls).ch.isRunning
            ==> Replay(Boot(), calls).sinks.pin == OffLevel(Replay(Boot(), calls).ch.polarity)
  {
    ReplayPreservesInvariant(Boot(), calls);
  }

  /**
   Enabling an idle channel makes the first expiry drive the on level of
   the current polarity and arm the timer for the on time.
   */
  lemma FirstFiringDrivesOn(sys: System)
    requires Invariant(sys) && !sys.ch.isRunning
    ensures Replay(sys, [Start, Expiry]).sinks.pin == OnLevel(sys.ch.polarity)
    ensures Replay(sys, [Start, Expiry]).sinks.timer == ArmedFor(sys.ch.onTime)
    ensures Replay(sys, [Start, Expiry]).log
            == sys.log + [Arm(0), SetLevel(OnLevel(sys.ch.polarity)), Arm(sys.ch.onTime)]
  {
    var s1 := Step(sys, Start);
    DeliverSingle(sys.sinks, Arm(0));
    var t := Fire(s1.ch);
    DeliverPair(s1.sinks, t.events[0], t.events[1]);
    assert Replay(sys, [Start, Expiry]) == Replay(s1, [Expiry]);
    assert Replay(s1, [Expiry]) == Step(s1, Expiry);
  }

  function Expiries(n: nat): seq<Call> {
    seq(n, _ => Expiry)
  }

  /** Once the timer is armed, n expiries in a row are exactly n firings of the engine. */
  lemma {:induction false} ExpiriesRunEngine(sys: System, n: nat)
    requires sys.sinks.timer.ArmedFor?
    ensures Replay(sys, Expiries(n)).ch == Run(sys.ch, n).ch
    ensures Replay(sys, Expiries(n)).log == sys.log + Run(sys.ch, n).events
    decreases n
  {
    if n == 0 {
      assert sys.log + [] == sys.log;
    } else {
      var t := Fire(sys.ch);
      var s1 := Step(sys, Expiry);
      assert s1 == Apply(sys, t);
      DeliverPair(sys.sinks, t.events[0], t.events[1]);
      assert Expiries(n)[1..] == Expiries(n - 1);
      ExpiriesRunEngine(s1, n - 1);
      assert sys.log + t.events + Run(t.ch, n - 1).events == sys.log + (t.events + Run(t.ch, n - 1).events);
    }
  }

  /**
   Freeing a channel in any reachable state leaves the timer disarmed and
   the pin released; if it was running, the pin was driven to its off level.
   */
  lemma FreeQuiesces(sys: System)
    requires Invariant(sys)
    ensures !Shutdown(sys).ch.isRunning
    ensures Shutdown(sys).sinks.timer == Disarmed && !Shutdown(sys).sinks.pinHeld
    ensures sys.ch.isRunning ==> Shutdown(sys).sinks.pin == OffLevel(sys.ch.polarity)
    ensures !sys.ch.isRunning ==> Shutdown(sys).sinks.pin == sys.sinks.pin
    ensures Step(Shutdown(sys), Expiry) == Shutdown(sys)
  {
    var stop := Disable(sys.ch);
    DeliverAllAppend(sys.sinks, stop.events, [ReleasePin]);
    if sys.ch.isRunning {
      DeliverPair(sys.sinks, Cancel, SetLevel(OffLevel(sys.ch.polarity)));
    }
    DeliverSingle(DeliverAll(sys.sinks, stop.events), ReleasePin);
  }

  /**
   The driver does not drive the pin when only the polarity changes, so an
   idle channel switched to inverted polarity rests at its on level; a stop
   of the idle channel writes nothing and leaves it there.
   */
  lemma IdleInvertedPinRestsAtOnLevel()
    ensures !Replay(Boot(), [Polarize(PolarityInversed)]).ch.isRunning
    ensures Replay(Boot(), [Polarize(PolarityInversed)]).sinks.pin == OnLevel(true)
    ensures Replay(Boot(), [Polarize(PolarityInversed), Stop]).sinks.pin == OnLevel(true)
  {
  }

  /**
   Nor does it drive the pin on a running channel: after the first firing
   and a switch to inverted polarity, the pin still shows the normal on
   level, not the inverted one, until the next firing.
   */
  lemma RunningPinStaleAfterPolarize()
    ensures Replay(Boot(), [Start, Expiry, Polarize(PolarityInversed)]).ch.isRunning
    ensures Replay(Boot(), [Start, Expiry, Polarize(PolarityInversed)]).ch.pinOn
    ensures Replay(Boot(), [Start, Expiry, Polarize(PolarityInversed)]).sinks.pin == 1
    ensures OnLevel(true) == 0
  {
  }

  /**
   A 20 ms period with a 1.5 ms duty cycle at normal polarity: high at once,
   low 1.5 ms later, high again after a further 18.5 ms.
   */
  lemma ServoScenario()
    ensures Replay(Boot(), [Configure(1_500_000, 20_000_000), Start, Expiry, Expiry, Expiry]).log
            == [SetLevel(0), Arm(0), SetLevel(1), Arm(1_500_000), SetLevel(0), Arm(18_500_000),
                SetLevel(1), Arm(1_500_000)]
  {
    var s := Replay(Boot(), [Configure(1_500_000, 20_000_000), Start]);
    assert s.ch == Channel(true, false, false, 1_500_000, 18_500_000);
    assert s.sinks.timer.ArmedFor?;
    assert [Configure(1_500_000, 20_000_000), Start, Expiry, Expiry, Expiry]
        == [Configure(1_500_000, 20_000_000), Start] + Expiries(3);
    ReplayAppend(Boot(), [Configure(1_500_000, 20_000_000), Start], Expiries(3));
    ExpiriesRunEngine(s, 3);
  }

  lemma {:induction false} ReplayAppend(sys: System, a: seq<Call>, b: seq<Call>)
    ensures Replay(sys, a + b) == Replay(Replay(sys, a), b)
    decreases |a|
  {
    if a != [] {
      assert (a + b)[1..] == a[1..] + b;
      ReplayAppend(Step(sys, a[0]), a[1..], b);
    } else {
      assert a + b == b;
    }
  }
}
