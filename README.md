# TMOC shift-register sequencer, modelled in Dafny

TMOC is a Eurorack module built around a 16-bit shift register in the
style of the "Turing Machine" random looping sequencer. On every clock the
register rotates by one bit. The bit that wraps around is passed through a
coin toss that keeps it, flips it, or flips it at random, depending on a
knob and a CV input. The low byte drives eight faders and a set of
trigger and LED outputs. A rotary encoder drives a small mode machine that
changes the pattern length and loads or saves patterns in an eight-slot
bank.

This project models:

- the shift engine (`TuringRegister`, `TransportParams`, `ShiftParams`):
  - the length table and the signed step offset;
  - staged bank loads and pending resets;
  - the per-step shift configuration and `rotateToZero`;
  - `norm`, `savePattern`, `pulseIt`/`markov` and the drunken walk;
- the coin toss (`Stochasticizer::stochasticize`);
- the encoder mode controller (`ModeControl`);
- the older self-contained register class with `Casino::coinToss`;
- the panel helpers:
  - `wrapConstrain`;
  - the output latch (`OutputRegister`: byte splice, byte rotation, bit remap);
  - the fader controls (`HardwareCtrl` ring buffer, `LockingCtrl` lock machine, `ArrayCtrl`, `ModalCtrl`);
  - the LED byte selection, the toggle-button priority decision and the blink timer;
  - the fader voltage partition of `expandVoltages`.

Registers are sequences of booleans, least significant bit first (`Bits.Word`
has 16, `Bits.Byte` 8). The C++ operators are written out on them:

- shifts truncate back to the register width;
- `%` truncates toward zero (`Bits.TRem`);
- `int8_t`/`int16_t` stores wrap (`Bits.Int8`, `Bits.Int16`).

Hardware reads are parameters and hardware writes are returned values:

- ADC millivolts and CV;
- the draws of `random()`;
- button states;
- fader readings.

Objects whose fields the firmware updates in place are classes. Three of
them have a `State()` snapshot: `ModeControl`, `ShiftParams` and
`TransportParams`. Their methods state the new state as the old snapshot
with named fields replaced. The other classes state each field they change,
and the fields they keep, one by one.

## Model

| member | source | states |
|---|---|---|
| Stoch.Stochasticize | src/stoch.cpp:15-43 | Above 3125 mV the bit is kept unless the CV is above 500 mV. Below 265 mV it is flipped unless the CV is above 500 mV. In between it flips exactly when the draw exceeds the knob reading. |
| Stoch.FlipIndependentOfBit | src/stoch.cpp:15-43 | Whether the toss flips does not depend on the bit being tossed. |
| Stoch.BandsPartition | src/stoch.cpp:6-7 | Every knob reading lies in exactly one of the three bands. |
| Stoch.RandomBandFlipCount | src/stoch.cpp:36-42 | In the random band, of the draws 0 .. n-1 exactly those above the knob reading flip. |
| Stoch.RandomBandFlipChance | src/stoch.cpp:36-42 | Over the 3135 possible draws, the random band flips 3134 - knob of them. |
| Stoch.LockedBandsIgnoreDraw | src/stoch.cpp:17-34 | Outside the random band the draw has no influence on the result. |
| Stoch.Stochasticizer.constructor | src/stoch.cpp:3-10 | The forced-set and forced-clear flags start lowered. |
| Transport.LengthTable | src/TransportParams.cpp:5 | The length table has 13 strictly increasing entries between 2 and 16, and the initial position gives length 8. |
| Transport.ShiftIsOneBitRotation | src/ShiftParams.cpp:30-50 | The two shift amounts sum to 16, so the shift is a one-bit rotation: left going forward, right going backward. |
| Transport.NextOffset | src/ShiftParams.cpp:51-52 | The next offset lies strictly inside (-length, length). From an offset already inside, it is the offset moved one step, returning to 0 on reaching plus or minus the length. |
| Transport.TapAndWritePositions | src/ShiftParams.cpp:30-50 | Forward taps bit 1 + length and writes bit 0; at lengths 15 and 16 the tap lies outside the register and reads 0. Backward taps bit (8 - length) mod 16 and writes bit 7. |
| Transport.InPlaceStepIsRotation | src/TuringRegister.cpp:95-112 | An in-place step is exactly the rotation; no bit is written. |
| Transport.ForwardStepBits | src/TuringRegister.cpp:95-112 | After a forward step, bit i holds old bit i - 1, and bit 0 holds the toss of old bit 1 + length. |
| Transport.BackwardStepBits | src/TuringRegister.cpp:95-112 | After a backward step, bit i holds old bit i + 1 (mod 16), and bit 7 holds the toss of old bit (8 - length) mod 16. |
| Transport.ZeroImageRotates | src/ShiftParams.cpp:56-81 | `rotateToZero` rotates right by a positive offset and left by a negative one, and keeps the number of set bits. |
| Transport.ZeroImageInverse | src/ShiftParams.cpp:56-81 | Rotating to zero from offset k and then from offset -k restores the register. |
| Transport.ZeroImageAtOffsetZero | src/ShiftParams.cpp:59-81 | At offset 0 the stale amounts decide: 0/0 after construction leaves the register alone, while the amounts of any configured step rotate it by one bit. |
| Transport.ForwardWindowCycles | src/ShiftParams.cpp:30-37 | With a forward tap t and tosses that keep their bit, bits 0 .. t cycle with period t + 1. |
| Transport.ForwardTapLoopAsWritten | src/ShiftParams.cpp:35 | With the tap as written, eight keeping forward steps at length 8 do not bring the low byte of 0x0001 back. |
| Transport.CorrectedForwardLoopRepeats | src/ShiftParams.cpp:30-37 | With the tap at length - 1, length keeping forward steps restore the low length bits. |
| Transport.BackwardWindowCycles | src/ShiftParams.cpp:38-50 | Going backward with keeping tosses and length ≤ 8, bits 8 - length .. 7 cycle with period length. |
| Transport.BackwardLoopRepeats | src/ShiftParams.cpp:38-50 | Length keeping backward steps restore bits 8 - length .. 7. |
| Transport.ShiftParams.constructor | src/ShiftParams.cpp:5-12 | Every shift field starts at 0. |
| Transport.ShiftParams.GetShiftParams | src/ShiftParams.cpp:14-53 | A pending reset is consumed only when not in place: the offset becomes 0 and the flag drops. `wasReset` is false afterwards. The shifter then holds the configuration for the resulting offset, and the next offset is inside (-length, length). |
| Transport.ShiftParams.Configure | src/ShiftParams.cpp:30-52 | The direction-dependent half: amounts, tap, write index and next offset as the step configuration, with the next offset inside (-length, length). |
| Transport.ShiftParams.RotateToZero | src/ShiftParams.cpp:56-81 | Returns the zero image of the register. Only the two shift amounts change: they are set from the offset, or kept when the offset is 0. |
| Transport.TransportParams.constructor | src/TransportParams.cpp:7-20 | Length 8, offset 0, bank 0, nothing staged or pending, and both offsets inside the length. |
| Transport.TransportParams.LengthMinus | src/TransportParams.cpp:24-32 | No change at the first entry. Otherwise the length moves down one entry and the offset is re-reduced into the new length; the next offset is left alone. |
| Transport.TransportParams.LengthMinusCorrected | src/TransportParams.cpp:24-32 | As `lengthMINUS`, and the next offset is re-reduced too, so both offsets stay inside the length. |
| Transport.TransportParams.LengthPlus | src/TransportParams.cpp:35-42 | No change at the last entry. Otherwise the length moves up one entry and nothing else changes; the offsets stay inside the length. |
| Transport.TransportParams.ReAnchor | src/TransportParams.cpp:45-48 | Only the offset changes, to 0. |
| Transport.TransportParams.SetNextPattern | src/TransportParams.cpp:81-85 | Only the load flag and the staged slot change. |
| Transport.TransportParams.FlagForReset | include/TransportParams.h:45 | Only the reset-pending flag changes, to true. |
| Transport.TransportParams.PreIterate | src/TransportParams.cpp:88-102 | The committed offset is the old one in place and the previous next otherwise. The load flag rises exactly when the call is not in place, a load is pending and the committed offset is 0. The shifter is configured for the resulting offset, and the offsets stay inside the length. |
| Transport.TransportParams.Iterate | src/TuringRegister.cpp:95-112 | After a reset the register is returned unchanged. Otherwise the result is the step image (the rotation, with the write bit replaced by the toss of the tap unless in place), and the loaded flag is cleared. |
| Transport.TransportParams.LoadPattern | src/TuringRegister.cpp:115-126 | Returns the staged bank slot. The current slot becomes the staged one, both load flags drop, and the offset is reduced modulo the length. |
| Transport.TransportParams.RotateToZero | src/TuringRegister.cpp:166-169 | The shifter's zero image for the current offset. |
| Transport.OffsetEscapesAfterShortening | src/TransportParams.cpp:24-32 | From power-up: seven forward steps, one `lengthMINUS`, then one step. The committed offset is then 7 at length 7, outside the length. |
| Turing.Norm | src/TuringRegister.cpp:67-92 | `norm` returns the register whose bit i is bit i mod len of the input. |
| Turing.NormalizedKeepsLowBits | src/TuringRegister.cpp:67-92 | The low len bits of `norm` are those of the input. |
| Turing.NormalizedIdempotent | src/TuringRegister.cpp:67-92 | Normalising twice equals normalising once. |
| Turing.NormalizedIsPeriodic | src/TuringRegister.cpp:67-92 | The result of `norm` repeats with period len. |
| Turing.NormalizedUnique | src/TuringRegister.cpp:67-92 | Any register that agrees on the low len bits and has period len is the result of `norm`. |
| Turing.Markov | src/TuringRegister.cpp:231-242 | Bit n of the result is bit n or bit n + 8 of the seed times the n-th multiplier in {2,3,5,7,11,13,17,23}. |
| Turing.MarkovLowBitIsTopSeedBit | src/TuringRegister.cpp:231-242 | For every seed, output bit 0 equals seed bit 7: the first multiplier is 2, so bit 0 of its product is clear and bit 8 is seed bit 7. |
| Turing.MarkovProductFits | src/TuringRegister.cpp:231-242 | The 16-bit product never truncates for a byte seed. |
| Turing.InitialBankDistinct | src/TuringRegister.cpp:51-64 | Initial slot k is clear exactly at bit k, so the eight initial patterns are pairwise different. |
| Turing.TuringRegister.constructor | src/TuringRegister.cpp:51-64 | The bank holds `~(1 << k)` in slot k, the working register is slot 0, and the transport is in its initial state. |
| Turing.TuringRegister.GetOutput | src/TuringRegister.cpp:39-42 | The output byte's value is the register's value modulo 256. |
| Turing.TuringRegister.SetBit | src/TuringRegister.cpp:13-18 | Raises the forced-set flag and lowers the forced-clear one. |
| Turing.TuringRegister.ClearBit | src/TuringRegister.cpp:19-24 | Raises the forced-clear flag and lowers the forced-set one. |
| Turing.TuringRegister.Iterate | src/TuringRegister.cpp:129-154 | Commits the step. On the downbeat it first loads the staged slot, then it steps. The bank is never written, the loaded flag ends false, and the offsets stay inside the length. |
| Turing.TuringRegister.SetNextPattern | src/TuringRegister.cpp:157-163 | Stages slot `s % 8`; the register and the bank are untouched. |
| Turing.TuringRegister.RotateToZero | src/TuringRegister.cpp:166-169 | The register becomes its zero image; only the shift amounts change beside it. |
| Turing.TuringRegister.Reset | src/TuringRegister.cpp:172-186 | A staged load is applied at once with offset 0. Without a pending reset, the register is rotated to zero and a reset is flagged. With one, the register is left as loaded. Afterwards a reset is pending and nothing is staged, so a repeated reset does not rotate. |
| Turing.TuringRegister.ChangeLen | src/TuringRegister.cpp:189-209 | 0 changes nothing. A positive amount moves up one table entry and a negative one moves down one. The register and the bank are never touched. |
| Turing.TuringRegister.SavePattern | src/TuringRegister.cpp:212-223 | Exactly slot `b % 8` of the bank changes, to the zero image of the register. The working register is restored. |
| Turing.TuringRegister.PulseIt | src/TuringRegister.cpp:243-263 | The trigger byte: bit 0 is register bit 0 and bit 1 its complement. With m the `markov` of the low byte: bit 2 is m0 & m3, bit 3 is m2 & m7, and bits 4 .. 7 are m6, m4, m7, m5. |
| Turing.TuringRegister.GetDrunkenIndex | src/TuringRegister.cpp:269-303 | The walk index moves by ±1, ±2 or ±3 as drawn, modulo 8, and stays in 0 .. 7. |
| ModeCtrl.SlotMoves | src/modeCtrl.cpp:107-146 | Moving a slot up or down keeps it in 0 .. 7, each move undoes the other, and the moves are ±1 modulo 8. |
| ModeCtrl.NextKeepsSlots | src/modeCtrl.cpp:179-221 | Every event keeps both slots in range. |
| ModeCtrl.ClickToggles | src/modeCtrl.cpp:37-54 | A click toggles PERFORMANCE and CHANGE_LENGTH with {CHANGEMODE, 1} (two clicks return) and is ignored elsewhere. |
| ModeCtrl.LoadOnlyFromLoadMode | src/modeCtrl.cpp:57-74 | A LOAD command is issued if and only if a double click arrives in LOAD mode. It carries the load slot and returns to PERFORMANCE. |
| ModeCtrl.SaveOnlyFromSaveMode | src/modeCtrl.cpp:77-94 | A SAVE command is issued if and only if a hold arrives in SAVE mode. It carries the save slot and returns to PERFORMANCE. |
| ModeCtrl.TurnsKeepMode | src/modeCtrl.cpp:97-152 | Turns never change the mode (apart from leaving CANCEL). In LOAD or SAVE they move only that mode's slot. |
| ModeCtrl.RightThenLeftRestores | src/modeCtrl.cpp:97-152 | In LOAD or SAVE, a right turn followed by a left turn restores the state. |
| ModeCtrl.UnusedEventsIgnored | src/modeCtrl.cpp:155-176 | `clickhold`, `shiftleft`, `shiftright` and `press` change nothing and issue no command. |
| ModeCtrl.CancelReturnsToPerformance | src/modeCtrl.cpp:179-185 | From CANCEL any event returns to PERFORMANCE with {LEDS, 1}, and no slot is active. |
| ModeCtrl.ActiveSlotRange | src/modeCtrl.cpp:9-24 | The active slot is a valid slot exactly in LOAD and SAVE, and -1 otherwise. |
| ModeCtrl.ModeControl.constructor | src/setup.cpp:24 | The controller starts in PERFORMANCE with both slots 0. |
| ModeCtrl.ModeControl.GetActiveSlot | src/modeCtrl.cpp:9-24 | Agrees with the transition table's active slot. |
| ModeCtrl.ModeControl.DoCancel | src/modeCtrl.cpp:27-30 | Only the mode changes, to CANCEL. |
| ModeCtrl.ModeControl.DoClick | src/modeCtrl.cpp:37-54 | New state and command follow the transition table for a click. |
| ModeCtrl.ModeControl.DoDoubleClick | src/modeCtrl.cpp:57-74 | New state and command follow the transition table for a double click. |
| ModeCtrl.ModeControl.DoHold | src/modeCtrl.cpp:77-94 | New state and command follow the transition table for a hold. |
| ModeCtrl.ModeControl.DoRight | src/modeCtrl.cpp:97-120 | New state and command follow the transition table for a right turn. |
| ModeCtrl.ModeControl.DoLeft | src/modeCtrl.cpp:123-152 | New state and command follow the transition table for a left turn. |
| ModeCtrl.ModeControl.Update | src/modeCtrl.cpp:179-221 | New state and command follow the transition table for the event; the slots stay valid. |
| Legacy.CoinToss | include/TuringRegister.h:33-64 | Active toggles decide first, up before down. Otherwise above 3125 mV the bit is kept, below 265 mV it is flipped, and in between it is flipped when the draw exceeds the reading. |
| Legacy.CoinTossIsStochasticizeWithGateLow | include/TuringRegister.h:27 | With the toggles inactive (nothing sets them), the legacy toss is the newer toss with the CV gate low, and the buttons play no part. |
| Legacy.StepCount | include/TuringRegister.h:94-118 | The loop runs `steps` times for positive steps and -steps times otherwise; at -128 the `int8_t` negation wraps and it never runs. |
| Legacy.ForwardStepBits | include/TuringRegister.h:102-131 | After a forward step, bits 1 .. 15 are the old bits 0 .. 14, and bit 0 is the toss of old bit length - 1. |
| Legacy.BackwardStepBits | include/TuringRegister.h:109-131 | After a backward step, bits move down by one, and bit length - 1 is the toss of old bit 0. |
| Legacy.ForwardWindowRotates | include/TuringRegister.h:102-131 | With keeping tosses, forward steps rotate the low length bits up. |
| Legacy.ForwardLoopRepeats | include/TuringRegister.h:102-131 | Length keeping forward steps restore the low length bits. |
| Legacy.BackwardWindowRotates | include/TuringRegister.h:109-131 | With keeping tosses, backward steps rotate the low length bits down. |
| Legacy.BackwardLoopRepeats | include/TuringRegister.h:109-131 | Length keeping backward steps restore the low length bits. |
| Legacy.Casino.constructor | include/TuringRegister.h:10-31 | The toggles start inactive. |
| Legacy.LegacyRegister.constructor | include/TuringRegister.h:71-83 | Length 8, an empty register and inactive toggles. |
| Legacy.LegacyRegister.SetLength | include/TuringRegister.h:85-92 | The length changes exactly when the request is in 2 .. 32. The register, program counter, starting step and offset keep their values. |
| Legacy.LegacyRegister.Iterate | include/TuringRegister.h:94-132 | The register after `StepCount(steps)` loop passes, one toss each; forward for positive steps, backward otherwise. The length, program counter, starting step and offset keep their values. |
| Legacy.LegacyRegister.IterateZeroIsNoOp | include/TuringRegister.h:109-118 | `iterate(0)` and `iterate(-128)` leave the register alone. |
| Legacy.LegacyRegister.GetOutput | include/TuringRegister.h:134-137 | The low byte, whose value is the register's value modulo 256. |
| Legacy.LegacyRegister.Jam | include/TuringRegister.h:139-142 | The register takes the given value and the other fields are unchanged. |
| RatFuncs.WrapConstrain | lib/RatFuncs/RatFuncs.cpp:95-111 | An in-range value is returned unchanged, and the result is an `int16_t`. |
| RatFuncs.WrapConstrainStaysInRange | lib/RatFuncs/RatFuncs.cpp:95-111 | For nMin ≤ nMax the result lies in [nMin, nMax], even when the range wraps. |
| RatFuncs.WrapConstrainNarrowAgrees | lib/RatFuncs/RatFuncs.cpp:99-110 | Up to a width of 32767 the code as written computes the corrected result. |
| RatFuncs.WrapConstrainWideIntervalCounterexample | lib/RatFuncs/RatFuncs.cpp:99 | 30000 wrapped into [-20000, 20000] gives 4465 as written. That is not congruent to 30000 modulo 40001; the corrected result is -10001. |
| RatFuncs.WrapConstrainWide | lib/RatFuncs/RatFuncs.cpp:95-111 | The same with the range computed without overflow: in-range values unchanged, and the result is an `int16_t`. |
| RatFuncs.WrapConstrainWideWraps | lib/RatFuncs/RatFuncs.cpp:99-110 | For nMin ≤ nMax the corrected result lies in the interval and is congruent to N modulo its width. |
| RatFuncs.WrapConstrainWideIdempotent | lib/RatFuncs/RatFuncs.cpp:95-111 | Wrapping twice equals wrapping once. |
| RatFuncs.WrapConstrainBy | lib/RatFuncs/RatFuncs.cpp:89-93 | Adds dN within [nMin, nMax]; with the bounds reversed, subtracts dN within the swapped bounds. |
| RatFuncs.WrapConstrainByInRange | lib/RatFuncs/RatFuncs.cpp:89-93 | Whichever way round the bounds come, the result lies between them. |
| RatFuncs.WrapConstrainIn16 | lib/RatFuncs/RatFuncs.cpp:77-80 | The variable is replaced by its wrapped value. |
| RatFuncs.WrapConstrainIn8 | lib/RatFuncs/RatFuncs.cpp:82-87 | The variable takes the low byte of the `int16_t` result; for bounds inside `int8_t` that is the result itself. |
| OutputReg.SplicedReadsBack | include/OutputRegister.h:50-70 | After a splice, byte b reads back the new value and every other byte is unchanged. |
| OutputReg.SpliceOwnByte | include/OutputRegister.h:50-70 | Splicing a byte's own value changes nothing. |
| OutputReg.SpliceByMask | include/OutputRegister.h:50-70 | The mask-and-or expression of `setReg` is the byte splice. |
| OutputReg.ByteRotationRoundTrip | include/OutputRegister.h:72-106 | Rotating a byte by amt and then by -amt restores it. |
| OutputReg.RotateRoundTrip | include/OutputRegister.h:72-106 | `rotateRight(k, b)` followed by `rotateRight(-k, b)` restores the latch. |
| OutputReg.RotatePopCount | include/OutputRegister.h:72-106 | A byte rotation keeps the number of set bits. |
| OutputReg.RotateByte | include/OutputRegister.h:80-100 | The shift pair rotates the byte right by amt mod 8 when amt > 0, and left by (-amt) mod 8 when amt < 0. |
| OutputReg.TrgMapIsPermutation | include/TMOC_HW.h:41 | The trigger map is a permutation of 0 .. 7. |
| OutputReg.RegMapIsPermutation | include/TMOC_HW.h:42 | The LED map is a permutation of 0 .. 15. |
| OutputReg.RemappedBits | include/OutputRegister.h:127-133 | Output bit MAP[i] is Q bit i, and bits no processed index maps to are clear. |
| OutputReg.RemapLosesNoBit | include/OutputRegister.h:127-133 | Under a permutation, different latches give different remapped outputs. |
| OutputReg.OutputRegister.constructor | include/OutputRegister.h:22-32 | The latch has one or two bytes, both latch halves start at zero, and the map is the given one. |
| OutputReg.OutputRegister.SetReg | include/OutputRegister.h:50-70 | D has byte b replaced by the value; Q and the shifted-out register are unchanged. |
| OutputReg.OutputRegister.RotateRight | include/OutputRegister.h:72-106 | D has byte b rotated and no other byte changed; Q is unchanged. |
| OutputReg.OutputRegister.WriteOutputRegister | include/OutputRegister.h:127-141 | The shifted-out register is Q remapped through the map; D and Q are unchanged. |
| OutputReg.OutputRegister.Clock | include/OutputRegister.h:41-48 | Q takes D and the remapped Q is shifted out. |
| SharedCtrl.Constrain | include/SharedCtrl.h:36 | Arduino `constrain`: the result lies in the bounds and equals the input when it already does. |
| SharedCtrl.SeqMin | include/SharedCtrl.h:84-115 | The least element: a member of the sequence that no element is below. |
| SharedCtrl.SeqMax | include/SharedCtrl.h:84-115 | The greatest element: a member of the sequence that no element is above. |
| SharedCtrl.SumBounds | include/SharedCtrl.h:106-112 | The sum of n elements lies between n times the least and n times the greatest. |
| SharedCtrl.TDivBetween | include/SharedCtrl.h:114 | Truncating division of a sum in [n·lo, n·hi] by n lies in [lo, hi]. |
| SharedCtrl.MeanBetween | include/SharedCtrl.h:106-114 | The integer mean of a window lies between its least and greatest element. |
| SharedCtrl.HardwareCtrl.constructor | include/SharedCtrl.h:31-48 | The window size is the sample count clamped to 1 .. 127. Every slot takes a first reading, the write index starts at the window size, and the buffer is not ready. |
| SharedCtrl.HardwareCtrl.Service | include/SharedCtrl.h:52-68 | Exactly the slot at the write index takes the reading. The index advances and wraps to 0 at the window size, staying below it. The ready flag is set on the wrap and never cleared. |
| SharedCtrl.HardwareCtrl.IsReady | include/SharedCtrl.h:72-79 | Reports the ready flag, which tells whether `read` returns the first slot or the mean. |
| SharedCtrl.HardwareCtrl.Read | include/SharedCtrl.h:84-115 | Before the buffer is ready, returns the first slot. Afterwards, the integer mean of the window, which lies between its least and greatest sample. Nothing changes. |
| SharedCtrl.LockingCtrl.constructor | include/SharedCtrl.h:171-185 | The control starts unlocked, or locked at the initial value when asked to. |
| SharedCtrl.LockingCtrl.Sample | include/SharedCtrl.h:219-253 | Locked (or not ready): returns the lock value. Unlocked: returns the reading. Unlock-requested: becomes unlocked only when the reading is within the threshold. It never enters LOCKED. |
| SharedCtrl.LockingCtrl.Jam | include/SharedCtrl.h:257-278 | Ends LOCKED with the jammed value as lock value, so repeating it changes nothing. |
| SharedCtrl.LockingCtrl.Lock | include/SharedCtrl.h:282-301 | Reports whether it was not yet locked, ends LOCKED, and keeps the previous lock value. |
| SharedCtrl.LockingCtrl.ReqUnlock | include/SharedCtrl.h:305-317 | LOCKED becomes UNLOCK_REQUESTED; the other two states are kept. |
| SharedCtrl.ArrayCtrl.constructor | include/SharedCtrl.h:482-488 | The index starts at the given start index as a `uint8_t`. |
| SharedCtrl.ArrayCtrl.Sample | include/SharedCtrl.h:492-502 | The index is the slice clamped into 0 .. size-1, and the value is the array element there. |
| SharedCtrl.SelectAsWritten | include/SharedCtrl.h:550-562 | As written, the object at the unreduced selector, which is missing exactly when the selector is past the last mode. |
| SharedCtrl.SelectCorrected | include/SharedCtrl.h:550-562 | The object at the selector reduced modulo the mode count. |
| SharedCtrl.SelectAsWrittenAgreesInRange | include/SharedCtrl.h:555 | Below the mode count both agree. With 8 modes, selector 8 reads past the array. |
| SharedCtrl.ModalCtrl.constructor | include/SharedCtrl.h:519-524 | Mode 0 is selected and active. |
| SharedCtrl.ModalCtrl.Select | include/SharedCtrl.h:550-562 | The selected mode is `sel % numModes`. The previously active control is locked and keeps its value. The newly active one is asked to unlock if it is locked. Every other control is unchanged. |
| SharedCtrl.ModalCtrl.Peek | include/SharedCtrl.h:566-570 | Records mode `sel % numModes` as selected, leaves the active control alone, and returns that mode's held value. |
| Leds.MainLeds | src/leds.cpp:18-91 | PERFORMANCE shows the DAC byte. CHANGE_LENGTH lights only bit len-1 for len ≤ 8, and every bit but len-9 otherwise. LOAD and SAVE light only the slot's bit, while flash bit 0 (LOAD) or bit 1 (SAVE) is set. CANCEL writes nothing. |
| Leds.LengthDisplayIdentifies | src/leds.cpp:27-40 | Different lengths give different CHANGE_LENGTH displays. |
| Leds.FaderLeds | src/leds.cpp:7-15 | Fader bit fd of the mask is set if and only if fader fd is UNLOCKED, and the LED byte is the DAC byte masked by it. |
| Toggle.UpdateToggle | src/toggle.cpp:9-47 | Each command is characterised by an if-and-only-if over the two buttons. A down double click wins. Then an up double click. Then a down click or hold. Then an up click or hold, which gives SET_BIT when performing and EXIT otherwise. NO only when both are idle. |
| Timers.FlashBits | src/timers.cpp:27-44 | Bit 0 is (t/4) mod 2, bit 1 is (t/25) mod 2, and no other bit is set. |
| Timers.FastBitToggles | src/timers.cpp:34-37 | Bit 0 changes every 4 flash ticks. |
| Timers.SlowBitToggles | src/timers.cpp:39-42 | Bit 1 changes every 25 flash ticks. |
| Timers.MillisAfterWraps | src/timers.cpp:60-64 | n ticks from m give (m + n) mod 1000. |
| Timers.MillisClock.constructor | src/timers.cpp:7-8 | Both counters start at 0. |
| Timers.MillisClock.Tick | src/timers.cpp:60-65 | The millisecond counter advances modulo 1000, and the flash counter is a tenth of it, in 0 .. 99. |
| Timers.MillisClock.GetFlashTimer | src/timers.cpp:27-44 | The flash bits of the current flash counter. In milliseconds, the fast bit is the parity of millis / 40 and the slow bit the parity of millis / 250. |
| HwIo.PartitionSums | src/hwio.cpp:74-88 | The faders with their bit set and those with it clear together sum to the total. |
| HwIo.WrappedPartition | src/hwio.cpp:74-88 | The same holds for the 16-bit wrapped sums, modulo 2^16. |
| HwIo.SplitSums | src/hwio.cpp:74-88 | The two accumulators are the sums of the set-bit and clear-bit faders, wrapped to 16 bits. |
| HwIo.VoltageExpander.constructor | src/hwio.cpp:101 | The static latch has not been initialised yet. |
| HwIo.VoltageExpander.ExpandVoltages | src/hwio.cpp:69-117 | The four notes are in 0 .. 65535, and the first two partition the total modulo 2^16. The third is their absolute difference. The fourth is the latch, which takes note 0 on the first call or when bit 0 is set. The internal DAC gets the complement of the register. |

## Left out

- Hardware I/O is not modelled; these reads and writes are parameters and results:
  - ADC, CV and fader reads;
  - DAC writes, `FastShiftOut` and `digitalWrite`;
  - the fader bank switch and the trigger and LED clocking called from `iterate` and `savePattern`.
- Interrupts are modelled sequentially: `cli`/`sei` and the concurrency between `onTimer1` and the main loop are not.
- Randomness: each `random()` draw is a parameter (the toss draw, the legacy toss draw, and the drunken walk's `random(101)` and `random(2)`).
- Floating point: knob and CV readings are integer millivolts.
- `LockingCtrl`'s threshold is a given integer; the `double` computation that derives it is not modelled.
- The `VirtualCtrl` slice mapping uses Arduino `map()`, which is not part of this model:
  - `ArrayCtrl.Sample` takes the slice as a parameter;
  - `ModalCtrl` holds `LockingCtrl` objects, so its lock jams the lock value rather than a slice.
- `ModalCtrl` `readActiveCtrl`, `lock`, `lockSel` and `jam` are not modelled: they only forward to the active control's `LockingCtrl` operations, which are.
- `Transport.TransportParams.FlagForReset`: the firmware only declares `flagForReset`; the model assumes it sets the reset-pending flag and nothing else.
- The `.cpp` files use members that the engine headers do not declare (`transport_`, `registersBank`, `load`). The state is taken from the `.cpp` bodies, with `load` and `readyToLoad_` treated as one flag.
- `Stoch.Stochasticizer.constructor`: the firmware never initialises the forced-bit flags; the model starts them lowered. They have no effect either way: the toss never reads them.
- `ModeCtrl.ModeControl.constructor`: the class constructor leaves the fields unset. The model starts from the zero-initialised global controller (PERFORMANCE, slots 0).
- `SharedCtrl.LockingCtrl.constructor`: when not created locked, the firmware leaves the state unset; the model starts it UNLOCKED.
- `SharedCtrl.HardwareCtrl.Read`: the running sum is a local rather than a member.
- `SharedCtrl.HardwareCtrl.Service`: the early return when the ADC handle is null is not modelled. The model has no handle; the reading is a parameter, so the method always stores it.
- Default arguments: the firmware gives defaults to `iterate(steps = -1)`, `setReg(.., bytenum = 0)`, `rotateRight(amt = 1, bytenum = 0)`, `HardwareCtrl(.., numSamps = 1)` and `LockingCtrl(.., inVal = 0, createLocked = true)`. Dafny has no default arguments, so every argument is explicit in the model.
- `getReg` of the Turing register is not modelled: it only reads a bank slot.
- Button states other than clicked, double-clicked and held are a single idle state. `performing()` is not defined in the firmware shown, so it is an input of `Toggle.UpdateToggle`.
- `Leds.MainLeds` requires a length in 1 .. 16 and slots in 0 .. 7, which the engine and the mode controller guarantee. The "negative slot" early return therefore cannot happen and is not modelled.
- `updateRegLeds`, the LED controller object and the clock of the latches are not modelled.
- The latch clock of `OutputRegister` copies D into Q; the `Latchable` base class is not part of this model.
- Not modelled at all:
  - `GateIn`, the rhythm tables, the older sketch in `main.cpp`, `setup.cpp` glue, the encoder wrapper;
  - flash persistence (commented out);
  - debug printing.
- `Transport.TransportParams.LengthMinus` and the engine's `Iterate` follow the code as written. They do not keep the next offset inside the length; the corrected `LengthMinusCorrected` does (see Findings).
- `Turing.TuringRegister.SavePattern` stores the pattern as the code does: not normalised, and with no length stored alongside it.

## Findings

| source | as written | input that shows it | evidently intended | confidence | as-written member | corrected member |
|---|---|---|---|---|---|---|
| src/TransportParams.cpp:24-32 | `lengthMINUS` re-reduces `offset_` but not the already computed `shifter_.next`, which the next step commits | from power-up, 7 forward steps, `lengthMINUS`, 1 step: the offset is 7 at length 7 | both offsets stay strictly inside the new length | not executed | Transport.OffsetEscapesAfterShortening | Transport.TransportParams.LengthMinusCorrected |
| src/ShiftParams.cpp:35 | the forward tap is bit `1 + length` | 0x0001 at length 8, eight forward steps that keep every bit: the low byte is not restored | tap at bit `length - 1`, so the pattern loops with period `length` | not executed | Transport.ForwardTapLoopAsWritten | Transport.CorrectedForwardLoopRepeats |
| lib/RatFuncs/RatFuncs.cpp:99 | `range = nMax - nMin + 1` is stored in an `int16_t` and wraps for widths above 32767 | N = 30000, nMin = -20000, nMax = 20000 gives 4465 | a result congruent to N modulo the width (-10001) | not executed | RatFuncs.WrapConstrainWideIntervalCounterexample | RatFuncs.WrapConstrainWideWraps |
| include/SharedCtrl.h:555 | `select` indexes the controls with the unreduced selector | 8 modes, `select(8)` reads one past the array | index with `sel % numModes`, as the stored selection does | not executed | SharedCtrl.SelectAsWrittenAgreesInRange | SharedCtrl.ModalCtrl.Select |
