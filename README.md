# Keypad-sync supervisor firmware, modelled in Dafny

The firmware runs on an STC8G microcontroller. It keeps an external
keypad-emulation device (an HMBC09P) in step with a few digital inputs:

- a human-presence sensor and a phone-presence sensor;
- the LED1 and LED2 feedback of the device;
- the Relay3 feedback and the supply voltage.

When what should be on differs from what the device reports, the firmware
sends a 50 ms low pulse on one of the Key lines (Key1, Key2, Key3). The
project models this decision core, `src/main.c`, and proves properties about it:

- `config.dfy` (module `Config`): the build-time constants (threshold 3000 mV,
  band-gap reference 1190 mV, 12-bit ADC, 50 ms pulse, 500 ms settle, 10 ms
  poll, recheck every 100 iterations, active levels) and the `byte` and
  `uint16` types.
- `trace.dfy` (module `Trace`): the output as a sequence of events. An event
  drives a line high or low, waits, feeds the watchdog or converts the
  voltage. It defines `Output_KeyN_Pulse`, the level a line ends at, and
  event counting.
- `rules.dfy` (module `Rules`): the `Check_*_Status` level comparisons and
  the three mismatch rules of `Process_Key1/2/3_Logic`.
- `voltage.dfy` (module `Voltage`): the conversion arithmetic of
  `Get_VCC_Voltage` and the classification of `Detect_Voltage_Status`. It
  includes the zero-reading guard and the 32-bit quotient stored into a
  `uint16_t`.
- `voltage_text.dfy` (module `VoltageText`): the `"VCC:dddd" "mV\r\n"` buffer
  of `UART1_Send_Voltage`, and a parser that reads it back.
- `supervision.dfy` (module `Supervision`): start-up, `Check_State_Changes`
  and one loop iteration as pure transition functions on the globals. Each
  returns the new globals and the events emitted. The properties of the
  supervisor are proved about these functions.
- `firmware.dfy` (module `Firmware`): class `Supervisor`, which holds the
  globals (the five-field snapshot, the two voltage flags, the static
  `voltage_check_counter`) and the output written so far. Its methods follow
  the C functions statement by statement. Each is proved to perform the
  matching transition of `Supervision`, so the properties carry over to
  the imperative code.

Inputs are values: each tick receives a `Reading` (the pin levels and the ADC
result registers). The model assumes the inputs are stable within one tick.
`Check_State_Changes` samples the pins into `current_*`, and the
`Process_KeyN_Logic` functions read the pins again. The model gives both
reads the same sample.

## Model

| member | source | states |
|---|---|---|
| Rules.CheckStatus | src/main.c:571-599 | a feedback reads as on exactly when its pin is at the active level; with every level configured high, the status equals the pin level |
| Rules.MismatchRule | src/main.c:236-296 | rules 1 and 2 fire exactly when the desired input (human / phone presence) differs from the LED feedback, and stay silent when they agree |
| Rules.Key3Rule | src/main.c:298-327 | rule 3 never fires with both flags clear (the initial globals); with exactly one flag set it fires iff Relay3 disagrees with "open when low"; with both set it always fires |
| Voltage.AdcValue | src/main.c:506-507 | the ADC value is below 4096; its upper eight bits are ADC_RES and its low nibble is ADC_RESL's low nibble |
| Voltage.VccMillivolts | src/main.c:509-517 | a zero reading gives 0; for any reading of 75 or more the result is 1190*4096/adc exactly (no uint16 truncation), and at least the 1190 mV reference |
| Voltage.TruncationBelow75 | src/main.c:511 | below 75 the 32-bit quotient does not fit uint16_t and is truncated: a reading of 74 gives 332 mV instead of 65868 |
| Voltage.Classify | src/main.c:524-537 | exactly one of (low, high) is set, and low holds iff the millivolts are below 3000 |
| Voltage.ThresholdBoundary | src/main.c:524 | 2999 mV is Low; 3000 and 3001 mV are High |
| Voltage.ZeroReadingIsLow | src/main.c:514-516 | a zero ADC reading is classified Low |
| Voltage.LowIffLargeReading | src/main.c:509-537 | for a real reading (75..4095), Low holds iff the ADC value is at least 1625 |
| VoltageText.VoltageMessage | src/main.c:438-443 | the message is 12 characters: "VCC:", four characters at buf[4..8] (decimal digits below 10000, see VoltageRoundTrip), "mV\r\n", none of them NUL |
| VoltageText.DigitValue | src/main.c:439-442 | a character has a digit value iff it lies in '0'..'9'; that value is below 10 and encodes back to the same character |
| VoltageText.DigitStoreNoWrap | src/main.c:439-442 | each digit character is the digit value plus '0', with no uint8_t wrap-around |
| VoltageText.VoltageRoundTrip | src/main.c:438-443 | below 10000 the four characters are decimal digits and parse back to the voltage; at 10000 or above buf[4] lies past '9' and the message does not parse |
| VoltageText.SendVoltage | src/main.c:435-446 | fills a fresh 16-byte buffer whose first 13 bytes are the message followed by NUL |
| Trace.Pulse | src/main.c:547-568 | definition of Output_KeyN_Pulse as events (low, 50 ms wait, high); properties in PulseCount, PulseShape, TwoPulsesDoNotMerge |
| VoltageText.DigitChar | src/main.c:439-442 | definition of the uint8_t store digit + '0'; properties in DigitStoreNoWrap, DigitValue |
| VoltageText.DigitValues | src/main.c:439-442 | definition of the four digit values volt/1000, (volt%1000)/100, (volt%100)/10, volt%10; properties in DecimalDecomposition, VoltageRoundTrip |
| VoltageText.ParseVoltage | src/main.c:438-443 | independent reader of the line, the partner of VoltageMessage; the round trip is VoltageRoundTrip |
| Supervision.Observe | src/main.c:169-173 | definition of the current_* sample; properties in SnapshotTracksInputs, StartupSyncs |
| Supervision.Key1Logic | src/main.c:236-265 | definition of rule 1's output (a Key1 pulse iff MismatchRule fires); properties in PulseIfCount, PulseIfRestores, EdgeACount |
| Supervision.Key2Logic | src/main.c:267-296 | definition of rule 2's output; properties in PulseIfCount, PulseIfRestores, EdgeBCount |
| Supervision.Key3Logic | src/main.c:298-327 | definition of rule 3's output on the given flags; properties in PulseIfCount, PulseIfRestores, EdgeCCount, TickCount |
| Supervision.ReadVcc | src/main.c:499-518 | definition of Get_VCC_Voltage on the result registers (AdcValue then VccMillivolts); properties in those functions' contracts and LowIffLargeReading |
| Supervision.DetectVoltage | src/main.c:521-544 | definition of Detect_Voltage_Status as a transition; properties in DetectExclusive |
| Supervision.EdgeA | src/main.c:176-191 | definition of the first block's output; properties in EdgeACount, EdgesRestore |
| Supervision.EdgeB | src/main.c:194-209 | definition of the second block's output; properties in EdgeBCount, EdgesRestore |
| Supervision.EdgeC | src/main.c:212-221 | definition of the third block's output, on the flags before any recheck; properties in EdgeCCount, EdgesRestore |
| Supervision.Edges | src/main.c:176-221 | definition of the three blocks' output in order; properties in EdgesCount, EdgesRestore |
| Supervision.Resample | src/main.c:176-221 | definition of the snapshot after the three blocks; properties in SnapshotTracksInputs |
| Supervision.Recheck | src/main.c:224-232 | definition of the periodic recheck (reclassify, then rule 3 on the new flags); properties in TickCount, TickCounter |
| Supervision.CheckStateChanges | src/main.c:164-233 | definition of Check_State_Changes as a transition; properties in TickPulses, SnapshotTracksInputs, QuietTick, TickCounter, TickRestores |
| Supervision.Startup | src/main.c:122-145 | definition of main's start-up as a transition; properties in StartupSyncs, StartupCount, StartupRestores |
| Supervision.Iteration | src/main.c:148-160 | definition of one loop body (check, feed, 10 ms delay); properties in IterationFeedsOnce |
| Supervision.RunLoop | src/main.c:148-160 | definition of the first n loop iterations; properties in RunCadence, RunKeepsFlagsExclusive, RunRestores |
| Supervision.Boot | src/main.c:104-160 | definition of start-up followed by n iterations from the zeroed globals; properties in BootInvariant, TwoRechecksIn250, BootLeavesKeysHigh |
| Trace.CountAppend | src/main.c:547-568 | counting the events of a concatenated output adds the counts of its parts |
| Trace.PulseCount | src/main.c:547-568 | a pulse holds its line's low drive, the 50 ms wait and its line's high drive, once each |
| Trace.LevelAfterQuietSuffix | src/main.c:547-568 | events that do not drive a line leave its level unchanged |
| Trace.LevelAfterAppend | src/main.c:547-568 | the level after a concatenation is the second part's level started from the first part's |
| Trace.PulseShape | src/main.c:547-568 | a pulse adds exactly one low phase to its line, leaves the line high and leaves every other line as it was |
| Trace.TwoPulsesDoNotMerge | src/main.c:212-232 | two consecutive pulses on one line are two separate low phases and end high |
| Supervision.PulseIfCount | src/main.c:247-257 | a rule's output holds one low drive of its own line if it fired, and none otherwise |
| Supervision.SnapshotTracksInputs | src/main.c:176-221 | after Check_State_Changes the snapshot equals the inputs just sampled; a group whose inputs did not change keeps its snapshot fields |
| Supervision.QuietTick | src/main.c:176-232 | with no input change and no recheck due, a call emits nothing and only advances the counter |
| Supervision.EdgeACount | src/main.c:176-191 | the first block emits rule 1's pulse iff human presence or LED1 changed and rule 1 fires |
| Supervision.EdgeBCount | src/main.c:194-209 | the second block emits rule 2's pulse iff phone presence or LED2 changed and rule 2 fires |
| Supervision.EdgeCCount | src/main.c:212-221 | the third block emits rule 3's pulse iff Relay3 changed and rule 3 fires on the old flags |
| Supervision.EdgesCount | src/main.c:176-221 | the three blocks together emit exactly the pulses of the groups that changed and whose rules fire |
| Supervision.TickCount | src/main.c:224-232 | the recheck adds one conversion and a rule-3 pulse on the new flags, and only on the hundredth call |
| Supervision.TickPulses | src/main.c:164-232 | the Key1, Key2 and Key3 pulse counts of one call; Key3 can pulse once for a Relay3 change and once more after a recheck |
| Supervision.Key3TwiceInOneTick | src/main.c:212-232 | an input exists on which rule 3 pulses twice in one call |
| Supervision.TickCounter | src/main.c:224-232 | the counter stays in 0..99, becoming (c+1) mod 100; a call converts the voltage iff c+1 reaches 100; it never feeds the watchdog |
| Supervision.IterationFeedsOnce | src/main.c:148-160 | one loop iteration feeds the watchdog exactly once and converts the voltage only on the hundredth iteration |
| Supervision.RunCadence | src/main.c:148-160 | n iterations feed the watchdog n times and recheck the voltage (c+n) div 100 times, leaving the counter at (c+n) mod 100 |
| Supervision.TwoRechecksIn250 | src/main.c:224-232 | 250 iterations after start-up recheck the voltage exactly twice and feed the watchdog 250 times |
| Supervision.DetectExclusive | src/main.c:521-544 | after Detect_Voltage_Status exactly one flag is set, low iff VCC is below 3000 mV, and nothing else changes |
| Supervision.StartupCount | src/main.c:122-145 | start-up emits one conversion and, per Key line, one pulse iff that rule is mismatched at seed time |
| Supervision.PowerUpCount | src/main.c:122-128 | powering the device and converting the voltage emits one conversion and no low drive |
| Supervision.StartupSyncs | src/main.c:122-145 | start-up seeds all five snapshot fields from the live inputs, sets exactly one flag, and runs rules 1, 2 and 3 once each |
| Supervision.RunKeepsFlagsExclusive | src/main.c:148-160 | once one flag is set, every loop iteration keeps exactly one flag set |
| Supervision.BootInvariant | src/main.c:104-160 | every state that start-up plus n loop iterations reach, without the LVD interrupt, has exactly one voltage flag, the counter at the iteration count mod 100, and the snapshot equal to the last inputs |
| Supervision.RestoredAppend | src/main.c:547-568 | outputs that each leave every Key line high still do so when concatenated |
| Supervision.QuietRestores | src/main.c:148-160 | output that drives no Key line leaves every Key line high |
| Supervision.PulseIfRestores | src/main.c:547-568 | a rule's output leaves every Key line high |
| Supervision.EdgesRestore | src/main.c:176-221 | the change-detection blocks leave every Key line high |
| Supervision.TickRestores | src/main.c:164-232 | one Check_State_Changes call leaves every Key line high |
| Supervision.RunRestores | src/main.c:148-160 | any number of loop iterations leave every Key line high |
| Supervision.StartupRestores | src/main.c:122-145 | start-up leaves every Key line high |
| Supervision.BootLeavesKeysHigh | src/main.c:467-471 | after System_Init's defaults, start-up and any number of iterations, every Key line is high again: no pulse is left hanging |
| Firmware.Supervisor.constructor | src/main.c:61-67 | the globals start zeroed; System_Init's output defaults switch the supply on and set Key1-3 high |
| Firmware.Supervisor.OutputPulse | src/main.c:547-568 | Output_KeyN_Pulse appends exactly one pulse to the output |
| Firmware.Supervisor.ProcessKey1Logic | src/main.c:236-265 | Process_Key1_Logic emits exactly rule 1's output for the sampled inputs |
| Firmware.Supervisor.ProcessKey2Logic | src/main.c:267-296 | Process_Key2_Logic emits exactly rule 2's output |
| Firmware.Supervisor.ProcessKey3Logic | src/main.c:298-327 | Process_Key3_Logic emits exactly rule 3's output on the current flags |
| Firmware.Supervisor.DetectVoltageStatus | src/main.c:521-544 | performs the Detect_Voltage_Status transition, leaving exactly one flag set |
| Firmware.Supervisor.CheckGroupA | src/main.c:176-191 | the first block moves the human and LED1 snapshot fields to the inputs and emits that block's output |
| Firmware.Supervisor.CheckGroupB | src/main.c:194-209 | the second block moves the phone and LED2 snapshot fields to the inputs and emits that block's output |
| Firmware.Supervisor.CheckGroupC | src/main.c:212-221 | the third block moves the Relay3 snapshot field to the input and emits that block's output |
| Firmware.Supervisor.CheckGroups | src/main.c:168-221 | the three blocks together resample the snapshot and emit the outputs of the changed groups |
| Firmware.Supervisor.CountAndRecheck | src/main.c:224-232 | below the hundredth call, only counts; on the hundredth, resets the counter, reclassifies the voltage and runs rule 3; the counter stays below 100 |
| Firmware.Supervisor.CheckStateChanges | src/main.c:164-233 | performs the Check_State_Changes transition and keeps the counter below 100 |
| Firmware.Supervisor.Startup | src/main.c:122-145 | performs main's start-up: power on, settle, classify, seed the snapshot, run the three rules |
| Firmware.Supervisor.LoopIteration | src/main.c:148-160 | one loop body: Check_State_Changes, one watchdog feed, the 10 ms delay |
| Firmware.Supervisor.Run | src/main.c:148-160 | the first n iterations of the while(1) loop perform the RunLoop transition |
| Firmware.Supervisor.LowVoltageInterrupt | src/main.c:602-613 | the low-voltage interrupt sets the low flag when LVDF is raised and leaves the high flag alone |
| Firmware.Boot | src/main.c:104-160 | the program from power-on for n iterations reaches the Boot state and output, so BootInvariant and BootLeavesKeysHigh hold of the object |

## Left out

- Register configuration (`System_Init`'s port modes, `LVD_ADC_Init`, `UART1_Init`, `WDT_Init`): these are pure SFR writes. Only System_Init's output defaults are kept, as the constructor's first events.
- The ADC start/poll handshake of `Get_VCC_Voltage`: the converted result registers are an input (`AdcSample`).
- `Delay_ms`'s calibration loop: each delay in the modelled code is one `Wait(ms)` event. The 2 ms delay in `LVD_ADC_Init` and the 10 ms delay in `WDT_Init` are left out with those functions.
- `UART1_Send_String`'s byte loop and every debug message: the model builds `UART1_Send_Voltage`'s buffer, but no text is sent. This covers `Debug_Output_Status`, the messages in the rule functions, the voltage print inside `Detect_Voltage_Status`, and the extra `Get_VCC_Voltage` conversion main performs to print the voltage after start-up. None of these affects a control decision. The extra conversion does not appear as a `VoltageRead` event.
- The watchdog reset itself: only each feed is recorded, as an event.
- `Firmware.Supervisor.LowVoltageInterrupt`: the interrupt is modelled as one atomic step between other steps. Interleaving inside a C function is not modelled, and no lemma claims flag exclusivity after an interrupt, because the handler never clears the high flag.
- `Firmware.Supervisor.Run`: `while(1)` never ends. The model covers every finite prefix of the loop, one `Reading` per iteration.
- `Firmware.Supervisor.CheckStateChanges`: `voltage_check_counter` is a `uint16_t`, modelled as a natural number kept below 100. It is reset at 100, so the 16-bit width never matters.
- Stable inputs within one tick: the rule functions reuse the sample taken at the top of `Check_State_Changes`, instead of re-reading pins that could have changed in between.
- `Voltage.VccMillivolts`: its ensures gives the exact quotient only for readings of 75 or more. Below that the result is the truncated value, fixed by its definition and shown by `Voltage.TruncationBelow75`. A nonzero reading below 75 would mean a supply above 65 V, which the hardware cannot produce.
