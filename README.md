# ATX rail tester: control-cycle model

This project models the decision logic of an ATX power-supply tester. The tester runs on an Arduino. Each pass of its control loop does the following, in order:

1. Samples the 12 V, 5 V and 3.3 V rails through resistive dividers.
2. Reconstructs and calibrates the three rail voltages.
3. Decides whether the supply is present.
4. Switches the test load off when the supply is absent.
5. Turns rising edges of the menu, load and spare buttons into actions.
6. Shows one of two pages: the voltages page, or a PASS/FAIL status page that names the failing rails.

The model has five modules:

- `Conditioning`: the sampler `ReadAnalogAveraged`, a loop over the raw converter codes. Also the divider reconstruction `DividerToRail`, the per-rail calibration multipliers and the presence threshold. The resistor values, calibration factors, reference voltage, full-scale divisor 1023 and threshold 1.0 are those of the source. Voltages are exact `real`s.
- `Debounce`: the rising-edge rule `ButtonPressed`. The source passes its stored level by reference; here the method takes it in and hands the new value back, and the caller stores it. `CountEdges` counts the presses reported over a trace of levels.
- `Display`: the tolerance bands, `InRange`, the PASS verdict and the two status lines. `ShowStatus` builds the second line token by token, as the source does. A page is recorded as the values and fixed strings it shows.
- `Tester`: the controller's globals and the three gate levels.
  - `State` is the datatype of those values.
  - `Step` is the specification of one cycle, composed of one function per block of `loop()` in source order: presence, interlock, menu button, load button, spare button.
  - The class `RailTester` holds the globals as fields. Its methods mirror the source's procedures: `SetLoad` and one method per block of `loop()`. `Decide` runs the blocks in order. `Loop` reads the rails, runs `Decide` and shows the current page.
  - Each method is proved against the function for its block, and `Loop` against `Cycle`. The safety, page and load properties are lemmas about `Step`, and about `Run`, which runs a sequence of cycles.
- `Scenario`: a concrete session. A healthy supply passes, the status page is selected, the load is enabled, and then the 12 V rail collapses.

The hardware primitives are parameters of a cycle:
- the converter reads are one sequence of codes per rail (`Inputs`);
- the button levels are three booleans (`Levels`);
- the three gate outputs are fields of the state.

Presence is decided from the uncalibrated 12 V value, as the code does. The display and the classification use the calibrated values. Presence could instead be decided from the calibrated value; the model follows the code.

## Model

| member | source | states |
|---|---|---|
| Conditioning.ReadAnalogAveraged | Code.cpp:71-78 | The result is the mean of the codes times 5.0/1023. When every code is in 0..1023 it lies in [0, 5.0]. |
| Conditioning.SumBounds | Code.cpp:72-75 | The accumulated sum of in-range codes lies between 0 and 1023 times the sample count. |
| Conditioning.SumConstant | Code.cpp:72-75 | N samples of the same code sum to N times that code. |
| Conditioning.PinVoltageBounds | Code.cpp:71-78 | With all codes in range, the pin voltage lies in [0, ADC reference]. |
| Conditioning.DividerToRail | Code.cpp:80-82 | The rail voltage times rBottom equals the pin voltage times rTop + rBottom. With non-negative resistors it is never below the pin voltage. Its requirement `rBottom != 0.0` holds at every call, since the resistors are the nonzero constants of Code.cpp:31-38 passed at Code.cpp:163-165. |
| Conditioning.PsuPresent | Code.cpp:171-172 | Presence is a strict threshold on the uncalibrated 12 V value: exactly 1.0 V or a dead rail counts as absent. |
| Conditioning.DividerMonotonic | Code.cpp:80-82 | With positive resistances, a higher pin voltage never gives a lower rail voltage. |
| Conditioning.DividerInverse | Code.cpp:80-82 | Scaling the reconstructed rail voltage by rBottom/(rTop+rBottom) gives back the pin voltage. |
| Conditioning.MeasureMonotonic | Code.cpp:159-169 | For every rail, a larger code total over the same number of samples never measures lower after divider and calibration. |
| Debounce.ButtonPressed | Code.cpp:64-69 | Reports a press exactly when the level is pressed and the stored level was not. The stored level becomes the current level in every case. |
| Debounce.CountEdgesAppend | Code.cpp:64-69 | The presses over a concatenated trace are those of the first part plus those of the second, which starts from the level the first part left. |
| Debounce.ReleasedReportsNothing | Code.cpp:64-69 | A released button reports no press, whatever level was stored. |
| Debounce.HeldReportsNothing | Code.cpp:64-69 | A button held since before the trace reports no press, however long it is held. |
| Debounce.PressReportsOnce | Code.cpp:64-69 | Pressing a released button and holding it for K >= 1 cycles reports exactly one press. |
| Debounce.SinglePress | Code.cpp:64-69 | Idle, then pressed for K >= 1 cycles, then released: exactly one press over the whole trace. |
| Display.InRange | Code.cpp:84-86 | Only a non-empty band holds a value, and both bounds of a non-empty band are in range. |
| Display.InRangeInclusive | Code.cpp:84-86 | Both bounds of a band are in range; a value below the minimum or above the maximum is not. |
| Display.FailingAmongMembers | Code.cpp:126-129 | A rail appears in the failing list exactly when it is one of the rails checked and is out of band. |
| Display.FailingAmongShorter | Code.cpp:126-129 | The failing list is no longer than the rail list. It is empty exactly when every rail is in band. |
| Display.LabelsAppend | Code.cpp:126-129 | The tokens printed for two lists of rails, one after the other, are the tokens of their concatenation. |
| Display.PassIffNoneFailing | Code.cpp:113-124 | The verdict is PASS exactly when no rail is out of band. |
| Display.DetailAllOkIffPass | Code.cpp:126-130 | The second line is "all ok" exactly on PASS. Which rails the line names otherwise is stated by `Display.FailingAmongMembers`. |
| Display.DetailByTokens | Code.cpp:126-130 | The second line is "12 ", "5 ", "3.3 " for each failing rail, in that order, followed by "all ok" exactly when all pass. |
| Display.VoltagesPage | Code.cpp:96-111 | The voltages page carries the calibrated readings, shows "P:Y" exactly when the supply is present and "L:Y" exactly when the load is on. |
| Display.ShowStatus | Code.cpp:113-131 | Builds the status page: "ATX: PASS" exactly when all three calibrated values are in band, then the failing-rail line. |
| Display.ClassificationExamples | Code.cpp:41-46 | 11.40/5.00/3.30 passes. 11.39 on the 12 V rail fails and the line reads "12 ". 12.60/5.25/3.465 passes. |
| Tester.ReadRails | Code.cpp:158-169 | Returns the uncalibrated 12 V reconstruction and the three calibrated values. The calibrated 12 V value is the uncalibrated one times 1.0025. |
| Tester.RailTester.constructor | Code.cpp:54-61 | The globals start with load off, page 0 and no button seen. setup's setLoad(false) drives all gates low (Code.cpp:154). |
| Tester.RailTester.SetLoad | Code.cpp:88-93 | Sets the load flag and all three gates to the argument. Nothing else changes. |
| Tester.RailTester.SensePsu | Code.cpp:171-172 | Presence becomes "uncalibrated 12 V above 1.0". Nothing else changes. |
| Tester.RailTester.ApplyInterlock | Code.cpp:174-177 | With the supply absent and the load on, the load and all gates go off. Otherwise nothing changes. |
| Tester.RailTester.PollMenu | Code.cpp:179-182 | A menu press moves to page (page + 1) mod 2. The menu button's stored level becomes its current level. |
| Tester.RailTester.PollLoad | Code.cpp:184-190 | A load press sets the load to its negation while the supply is present and to off otherwise, gates included. The load button's stored level is updated. |
| Tester.RailTester.PollSpare | Code.cpp:192-193 | Only the spare button's stored level changes. |
| Tester.RailTester.Decide | Code.cpp:171-193 | The decision blocks in source order give the state `Step` specifies. |
| Tester.RailTester.ShowPage | Code.cpp:195-200 | Page 0 shows the voltages page with the presence and load indicators. Any other page shows the status page. |
| Tester.RailTester.Loop | Code.cpp:157-200 | One cycle leaves the state `Cycle` specifies, keeps the class invariant, and shows the page of the new state over the calibrated readings. |
| Tester.StepPreservesInv | Code.cpp:171-193 | A cycle keeps the invariant: page 0 or 1, gates equal to the load flag, load off while the supply is absent. |
| Tester.InterlockSafety | Code.cpp:172-190 | If gates follow the load flag beforehand, then whatever the previous load flag and buttons, a cycle ending with the supply absent ends with load off and all three gates low. |
| Tester.LoadDecision | Code.cpp:174-190 | The final load flag is off without the supply, flipped by a load press with it, and otherwise unchanged. |
| Tester.LoadOnlyEnabledByPress | Code.cpp:174-190 | The load goes from off to on only when the supply is present and the load button has a rising edge. |
| Tester.LoadToggle | Code.cpp:184-190 | With the supply present, a load press flips the load and no press keeps it. The gates end at the flag's level. |
| Tester.PageToggle | Code.cpp:179-193 | The page stays in {0, 1} and changes exactly on a menu rising edge. All three stored button levels become this cycle's levels. |
| Tester.CycleObservations | Code.cpp:163-200 | Presence comes from the uncalibrated 12 V value. Page 0 shows the voltages page over all three calibrated readings, with the new state's presence and load indicators; its 12 V value is the uncalibrated one times 1.0025. Any other page shows the status page over the calibrated readings. |
| Tester.RunPreservesInv | Code.cpp:157-200 | Every sequence of cycles from a good state ends in a good state. |
| Tester.RunPageParity | Code.cpp:179-182 | After a sequence of cycles, the page has moved by the number of menu presses, modulo 2. |
| Tester.PagesFromStart | Code.cpp:56 | From start-up, N menu presses leave the page at N mod 2. |
| Tester.SafeFromStart | Code.cpp:134-200 | From start-up, no sequence of cycles ever ends with the supply absent and the load or any gate on. |
| Tester.OnePressShowsStatus | Code.cpp:179-182 | From start-up, one menu press, held for any number of cycles and then released, leaves the status page shown. |
| Scenario.HealthyReadings | Code.cpp:159-172 | Codes 796/511/337 give a present supply and calibrated values inside every band. |
| Scenario.CollapsedReadings | Code.cpp:159-172 | A 12 V rail reading zero is an absent supply. |
| Scenario.PresenceIgnoresCalibration | Code.cpp:163-172 | For one reachable cycle (nine codes of 66 and one of 70), the supply counts as absent while the calibrated 12 V value shown is above the 1.0 V threshold. |
| Scenario.Session | Code.cpp:157-200 | Three concrete cycles. A menu press shows "ATX: PASS"/"all ok". A load press turns the load and gates on. When the 12 V rail collapses, the interlock turns everything off. |

## Left out

- LCD output: clearing, cursor placement, the printed labels of the voltages page and the two-decimal number formatting. A page is recorded as the values and indicator strings it shows.
- setup(): the pin modes and the splash text. The constructor models only what remains afterwards: globals at their initial values and all gates driven low.
- The 250 ms end-of-cycle delay. It has no logical content.
- The primitives analogRead, digitalRead and digitalWrite. They are inputs and outputs of a cycle, not modelled code.
- Float rounding: voltages are exact reals. Boundary cases that float rounding could move, such as a reading of exactly 11.40, are decided exactly here.
- Conditioning.ReadAnalogAveraged: requires at least one sample. With zero samples the source divides 0 by 0.0. The loop always uses the default of ten, and cycles require exactly ten codes per rail.
- The spare button: it has no effect. Only its stored level is carried along.
- The page number is a natural number in the model. The source's `int` page only ever holds 0 or 1, so C++'s truncating `%` and Dafny's `%` agree on it.
- The `long` accumulator of the sampler is unbounded here. Ten codes of at most 1023 cannot overflow it.
