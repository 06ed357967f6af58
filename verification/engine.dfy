/**
 The toggle engine: the timer callback that flips the phase, writes the
 pin and re-arms the timer for the duration of the phase it just entered,
 and the trace of a run of consecutive firings.
 */
module PwmEngine {
  import opened PwmChannel

  /**
   One firing of the timer callback. The callback never looks at
   `isRunning` and always asks to be restarted, so the firing re-arms the
   timer whatever the channel's state.
   */
  function Fire(ch: Channel): (t: Transition)
    ensures t.ch == ch.(pinOn := !ch.pinOn)
    ensures t.events == [SetLevel(ElectricalLevel(t.ch.pinOn, ch.polarity)),
                         Arm(PhaseDuration(ch, t.ch.pinOn))]
  {
    if !ch.pinOn then
      var on := SwitchOn(ch);
      Transition(on.ch, on.events + [Arm(ch.onTime)])
    else
      var off := SwitchOff(ch);
      Transition(off.ch, off.events + [Arm(ch.offTime)])
  }

  /** How long the channel stays in the given phase. */
  function PhaseDuration(ch: Channel, phaseOn: bool): UInt32 {
    if phaseOn then ch.onTime else ch.offTime
  }

  /** The phase the pin is in just before firing number k (counted from 0). */
  function PhaseBefore(ch: Channel, k: nat): bool {
    ch.pinOn != (k % 2 == 1)
  }

  /** n consecutive firings with no other operation in between. */
  function Run(ch: Channel, n: nat): (t: Transition)
    ensures |t.events| == 2 * n
    ensures t.ch == ch.(pinOn := PhaseBefore(ch, n))
    decreases n
  {
    if n == 0 then Transition(ch, [])
    else
      var first := Fire(ch);
      var rest := Run(first.ch, n - 1);
      Transition(rest.ch, first.events + rest.events)
  }

  /** Two consecutive firings put the channel back where it started. */
  lemma FireTwiceRestores(ch: Channel)
    ensures Fire(Fire(ch).ch).ch == ch
    ensures Fire(ch).events[0].level + Fire(Fire(ch).ch).events[0].level == 1
  {
  }

  /**
   Firing number k of a run writes the level of the phase it enters and
   arms the timer for that phase's duration.
   */
  lemma {:induction false} RunEventAt(ch: Channel, n: nat, k: nat)
    requires k < n
    ensures Run(ch, n).events[2 * k] == SetLevel(ElectricalLevel(!PhaseBefore(ch, k), ch.polarity))
    ensures Run(ch, n).events[2 * k + 1] == Arm(PhaseDuration(ch, !PhaseBefore(ch, k)))
    decreases n
  {
    var first := Fire(ch);
    var rest := Run(first.ch, n - 1);
    var all := Run(ch, n).events;
    assert all == first.events + rest.events;
    if k == 0 {
      assert all[0] == first.events[0] && all[1] == first.events[1];
    } else {
      RunEventAt(first.ch, n - 1, k - 1);
      PhaseBeforeShift(ch, k);
      assert all[2 * k] == rest.events[2 * k - 2];
      assert all[2 * k + 1] == rest.events[2 * k - 1];
    }
  }

  /** After one firing, firing k - 1 starts from the phase firing k started from. */
  lemma PhaseBeforeShift(ch: Channel, k: nat)
    requires k > 0
    ensures PhaseBefore(Fire(ch).ch, k - 1) == PhaseBefore(ch, k)
  {
  }

  /** The levels written by consecutive firings are complementary. */
  lemma RunLevelsAlternate(ch: Channel, n: nat, k: nat)
    requires k + 1 < n
    ensures Run(ch, n).events[2 * k].SetLevel? && Run(ch, n).events[2 * k + 2].SetLevel?
    ensures Run(ch, n).events[2 * k].level + Run(ch, n).events[2 * k + 2].level == 1
  {
    RunEventAt(ch, n, k);
    RunEventAt(ch, n, k + 1);
    assert 2 * (k + 1) == 2 * k + 2;
  }

  /** Two consecutive firings arm the timer for one whole period. */
  lemma RunCycleIsPeriod(ch: Channel, n: nat, k: nat)
    requires k + 1 < n
    ensures Run(ch, n).events[2 * k + 1].Arm? && Run(ch, n).events[2 * k + 3].Arm?
    ensures Run(ch, n).events[2 * k + 1].delayNs + Run(ch, n).events[2 * k + 3].delayNs
            == ch.onTime + ch.offTime
  {
    RunEventAt(ch, n, k);
    RunEventAt(ch, n, k + 1);
    assert 2 * (k + 1) + 1 == 2 * k + 3;
  }

  /**
   Inverting the polarity complements every level a run writes and changes
   nothing else: the same timer delays, the same final phase.
   */
  lemma RunPolarityComplement(ch: Channel, n: nat)
    ensures Run(ch.(polarity := !ch.polarity), n).events == InvertLevels(Run(ch, n).events)
    ensures Run(ch.(polarity := !ch.polarity), n).ch == Run(ch, n).ch.(polarity := !ch.polarity)
  {
    var a := Run(ch.(polarity := !ch.polarity), n).events;
    var b := InvertLevels(Run(ch, n).events);
    assert |a| == |b| == 2 * n;
    forall i | 0 <= i < 2 * n
      ensures a[i] == b[i]
    {
      var k := i / 2;
      FiringPolarityComplement(ch, n, k);
      if i % 2 == 0 {
        assert i == 2 * k;
      } else {
        assert i == 2 * k + 1;
      }
    }
    assert a == b;
  }

  /** Firing k of a run under inverted polarity writes the complemented level and arms the same delay. */
  lemma FiringPolarityComplement(ch: Channel, n: nat, k: nat)
    requires k < n
    ensures Run(ch.(polarity := !ch.polarity), n).events[2 * k]
            == InvertEvent(Run(ch, n).events[2 * k])
    ensures Run(ch.(polarity := !ch.polarity), n).events[2 * k + 1]
            == InvertEvent(Run(ch, n).events[2 * k + 1])
            == Run(ch, n).events[2 * k + 1]
  {
    var inv := ch.(polarity := !ch.polarity);
    RunEventAt(ch, n, k);
    RunEventAt(inv, n, k);
    assert PhaseBefore(inv, k) == PhaseBefore(ch, k);
  }
}
