# GPIO bit-banged PWM channel, modelled in Dafny

The driver `pwm-gpio.c` emulates a PWM output on a plain GPIO pin. A
high-resolution one-shot timer fires. Its callback flips the logical phase
(on/off), writes the pin level the polarity gives that phase, and re-arms the
timer for the duration of the new phase. The PWM core drives the channel
through six operations: config, set_polarity, enable, disable, request and
free.

This project models one channel as an immutable record (`PwmChannel.Channel`):
`isRunning`, `polarity`, `pinOn`, `onTime`, `offTime`. Every operation is a
pure function returning the new record and the ordered list of events it
sends to the outside world:

- `SetLevel(0|1)`: a `gpiod_set_value_cansleep` call, or the initial `GPIOD_OUT_LOW` of `gpiod_get` in request.
- `Arm(delayNs)`: `hrtimer_start`, or `hrtimer_forward_now` plus `HRTIMER_RESTART`.
- `Cancel`: `hrtimer_cancel`.
- `ReleasePin`: `gpiod_put`.

Status codes (0, `-EBUSY`, a failed lookup's error) are returned values, not events.

Modules, one per component:

- `PwmChannel` (`channel.dfy`) holds the record and the events. It also holds `gpio_pwm_on`/`gpio_pwm_off` and a reference definition of polarity: the pin is high exactly when the phase and the inversion flag differ.
- `PwmEngine` (`engine.dfy`) holds the timer callback `Fire` and `Run`, which is n firings in a row.
- `PwmControl` (`control.dfy`) holds config, set_polarity, enable, disable, request and free.
- `PwmSession` (`session.dfy`) adds the world: a pin, a timer, and a log of events. Calls replay one after another from request. A timer expiry is a call that can only happen while the timer is armed. It proves the lifecycle invariant and the behaviour of free.

Every operation runs atomically, as if under the channel mutex. The timer
callback takes no lock in the source, and none is modelled.

Points where the code behaves differently from what a PWM output is usually expected to do; the model follows the code:

- config performs no validation and always returns 0. `duty_ns` and `period_ns` are C `int`s, and `on_time`/`off_time` are `unsigned int`. The model reduces the duty and the difference `period - duty` modulo 2^32. A duty larger than the period is accepted, and the off time wraps to a huge value (`ConfigWrapsOverlongDuty`). There is no "invalid configuration" error.
- The callback does not check `is_running`. A firing toggles and re-arms whatever the state. Only the session model's rule, that a disarmed timer never fires, keeps firings away from idle channels.
- set_polarity does not touch the pin, whether the channel is idle or running. An idle channel switched to inverted polarity keeps its pin at 0, which is that polarity's *on* level (`IdleInvertedPinRestsAtOnLevel`). A running channel in its on phase switched to inverted polarity keeps its pin at 1 until the next firing, although the inverted on level is 0 (`RunningPinStaleAfterPolarize`). Neither "an idle pin is at its off level" nor "a running pin shows its phase" is therefore an invariant of the code.
- What is proved instead: the timer is armed exactly while the channel runs, and an idle channel's phase flag is off, after any calls. The pin shows the level of the recorded phase under the current polarity after any calls that never set the polarity, so then an idle pin is at its off level. After a polarity change, stopping a running channel or the next firing restores that relation (`PinResyncs`); an idle channel stays out of step, even through a stop, until the first firing after enable (`IdleInvertedPinRestsAtOnLevel`).
- Zero-length phases are not special-cased. With a zero duty the callback still toggles and asks for a 0 ns interval, modelled as `Arm(0)`; how the timer rounds such an interval up to its resolution is a real-time effect left out.

## Model

| member | source | states |
|---|---|---|
| PwmChannel.OnLevel | pwm-gpio.c:57-62 | the on phase drives 1 under normal polarity and 0 under inverted, i.e. the reference level for phase "on" |
| PwmChannel.OffLevel | pwm-gpio.c:50-55 | the off phase drives 1 exactly when the polarity is inverted, i.e. the reference level for phase "off" |
| PwmChannel.LevelsComplementary | pwm-gpio.c:50-62 | the on and off levels of one polarity always add to 1; the on level of one polarity is the off level of the other |
| PwmChannel.SwitchOff | pwm-gpio.c:50-55 | writes exactly one level, the off level of the current polarity, and clears `pinOn`; no other field changes |
| PwmChannel.SwitchOn | pwm-gpio.c:57-62 | writes exactly one level, the on level of the current polarity, and sets `pinOn`; no other field changes |
| PwmEngine.Fire | pwm-gpio.c:64-81 | a firing flips `pinOn`. It writes the level of the phase it enters, then re-arms for that phase's duration. Durations, polarity and `isRunning` are untouched, and it re-arms even on an idle channel |
| PwmEngine.Run | pwm-gpio.c:64-81 | n firings emit 2n events. They leave the phase flipped n times and every other field as it was |
| PwmEngine.FireTwiceRestores | pwm-gpio.c:70-80 | two consecutive firings return the record to its start and write complementary levels |
| PwmEngine.RunEventAt | pwm-gpio.c:70-80 | firing k of a run writes the level of the phase opposite to the one before it. It then arms for the on time after entering on and for the off time after entering off |
| PwmEngine.RunLevelsAlternate | pwm-gpio.c:50-80 | consecutive firings of a run write complementary levels |
| PwmEngine.RunCycleIsPeriod | pwm-gpio.c:70-80 | two consecutive re-arm delays add up to `onTime + offTime` |
| PwmEngine.FiringPolarityComplement | pwm-gpio.c:50-80 | under inverted polarity, firing k of a run writes the complement of the level it writes under normal polarity and arms the same delay |
| PwmEngine.RunPolarityComplement | pwm-gpio.c:50-81 | with the polarity inverted, the same firings write the complement of every level. They arm the same delays and end in the same phase |
| PwmControl.Config | pwm-gpio.c:83-94 | always returns 0 with no event and leaves polarity, phase and running flag alone. The on time equals the duty modulo 2^32, and on time plus off time equals the period modulo 2^32 |
| PwmControl.ConfigSplitsPeriod | pwm-gpio.c:89-90 | for `0 <= duty <= period`: the on time is the duty and on plus off time is exactly the period |
| PwmControl.ConfigWrapsOverlongDuty | pwm-gpio.c:88-93 | a duty beyond the period is accepted with status 0, and the off time wraps to 2^32 minus the excess |
| PwmControl.ConfigTakesEffectAtNextFiring | pwm-gpio.c:64-94 | after a config, the next firing arms for the new duty from off, or for the new period minus duty from on |
| PwmControl.SetPolarity | pwm-gpio.c:96-106 | returns 0 with no event. `polarity` becomes true exactly when the requested polarity is inversed, and nothing else changes |
| PwmControl.Enable | pwm-gpio.c:108-126 | on a running channel: -EBUSY, no event, state identical. Otherwise: status 0, exactly one `Arm(0)`, only `isRunning` changes. Either way the channel ends running |
| PwmControl.Disable | pwm-gpio.c:128-144 | on an idle channel: no event and no change. On a running one: `Cancel` then the off level of the current polarity, ending with `isRunning` and `pinOn` false. Durations and polarity are kept |
| PwmControl.Request | pwm-gpio.c:146-174 | a failed pin lookup is refused with its own error code. Otherwise the channel is zero-filled (idle, off phase, normal polarity, zero durations) and the pin is driven low |
| PwmControl.Free | pwm-gpio.c:176-183 | performs exactly disable's events then releases the pin; the channel ends not running whatever its start state |
| PwmControl.EnableTwiceIsBusy | pwm-gpio.c:112-121 | a second enable returns -EBUSY and leaves the state of the first untouched |
| PwmControl.DisableIdempotent | pwm-gpio.c:132-141 | disabling a disabled channel emits nothing and changes nothing |
| PwmControl.DisableUndoesEnable | pwm-gpio.c:108-144 | enable then disable on an idle channel resting in the off phase gives back the same record. The events are `Arm(0)`, `Cancel`, off level |
| PwmControl.EnableAfterDisableSucceeds | pwm-gpio.c:114-141 | after any disable, enable succeeds |
| PwmControl.FreeIdleOnlyReleases | pwm-gpio.c:176-183 | freeing an idle channel only releases the pin |
| PwmSession.Boot | pwm-gpio.c:151-171 | the requested channel is idle in the off phase, with the pin held at 0 and the timer disarmed, so it satisfies the invariant and its pin shows its phase |
| PwmSession.StepPreservesInvariant | pwm-gpio.c:64-144 | every call keeps the invariant: the timer is armed iff the channel runs, and an idle channel is in the off phase. Every call except set_polarity also keeps the pin at the level of the recorded phase under the current polarity |
| PwmSession.PinResyncs | pwm-gpio.c:64-144 | from any pin level, stopping a running channel or an expiry of its armed timer leaves the pin at the level of the recorded phase; a stop leaves it at the off level |
| PwmSession.ReplayPreservesInvariant | pwm-gpio.c:64-144 | any sequence of calls keeps that invariant; a sequence that never sets the polarity also keeps the pin at the level of the recorded phase |
| PwmSession.ReachableInvariant | pwm-gpio.c:64-174 | every state reachable from request satisfies the invariant. If the polarity was never set, the pin shows the recorded phase, and an idle pin is at its off level |
| PwmSession.FirstFiringDrivesOn | pwm-gpio.c:64-126 | enabling an idle channel makes the first firing drive the on level of the current polarity and arm for the on time |
| PwmSession.ExpiriesRunEngine | pwm-gpio.c:64-81 | with the timer armed, n expiries in a row log exactly the events of n engine firings and reach the same record |
| PwmSession.FreeQuiesces | pwm-gpio.c:128-183 | freeing any reachable channel leaves it not running, the timer disarmed and the pin released. A running channel's pin ends at its off level, an idle channel's pin is untouched, and no expiry can fire afterwards |
| PwmSession.IdleInvertedPinRestsAtOnLevel | pwm-gpio.c:96-106 | after request and set_polarity(inversed), the idle channel's pin is at the inverted on level, and a following stop writes nothing, so it stays there |
| PwmSession.RunningPinStaleAfterPolarize | pwm-gpio.c:96-106 | after enable, one firing and set_polarity(inversed), the channel runs in its on phase with the pin still at 1, while the inverted on level is 0 |
| PwmSession.ServoScenario | pwm-gpio.c:64-126 | period 20 ms, duty 1.5 ms, normal polarity, enable and three firings. The pin goes high at once, low after 1.5 ms, then high again after 18.5 ms |

## Left out

- ReplayPreservesInvariant: the pin-level relation is promised only for call sequences that never set the polarity, because set_polarity does not write the pin (`RunningPinStaleAfterPolarize`); `PinResyncs` covers the recovery.
- ReachableInvariant: the pin-level relation, and with it "an idle pin is at its off level", is promised only when the polarity was never set, for the same reason.
- The channel mutex and all concurrency: each operation is one atomic step, and the race between the callback and a concurrent config is not modelled.
- Real time: `hrtimer_forward_now` catch-up, drift and `ktime` conversion are reduced to the `Arm(delay)` value; the delay is always the duration of the new phase.
- The `HRTIMER_RESTART` return value is folded into the `Arm` event of each firing rather than returned separately.
- Signed overflow of `period_ns - duty_ns` is undefined behaviour in C; the model takes the mathematical difference modulo 2^32, as a wrapping machine would.
- Memory allocation in request (`kzalloc`, `-ENOMEM`), `kfree` in free, and the leak on the pin-lookup error path: no record is modelled for a refused request.
- The pin lookup itself (`gpiod_get`) is a parameter of `Request` that says whether it found the pin; the logical-to-physical GPIO active-low mapping is outside the model.
- Request's success status: a granted request carries no status code, although the source returns the result of `pwm_set_chip_data`, a PWM-core call outside this model.
- The low-resolution timer warning in request is a log message with no effect on the state.
- The `container_of` back-pointer, the `pwm_ops` table, probe/remove, the device-tree match table and module registration (lines 185-245): glue with no logic.
