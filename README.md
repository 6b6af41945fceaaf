# STM32 motor-control firmware, modelled in Dafny

This project models the integer core of an STM32 firmware repository. That repository holds the six-step
motor-control library of the ST Motor Control SDK (MCSDK 6.4.1) and the hand-written firmware around it.

**Library components**
- the speed-reliability counter;
- Hall-sensor feedback;
- initial position detection (IPD);
- the rev-up sequencer;
- on-the-fly restart;
- the bus-voltage filter;
- the regular-conversion manager.

**Firmware**
- three ring-buffer FIFOs;
- the UART platform driver's software rings;
- three command-line line editors and tokenizers;
- the FMAC statistics logger;
- a PI duty controller with its command parser;
- the breathing LED task;
- the triangle PWM sweep;
- the internal temperature-sensor conversion.

There is one Dafny module per source file (`CInt`, `CText` and `Ring` hold what several of them share), and the modules follow the C code's own shape:
- Handles and static state become `class`es. Their fields are the C fields. Their methods update those fields, with `modifies` clauses.
- Each method that changes state is proved against a pure specification function of the old state, and lemmas state what the source promises about that function.
- Code that only computes becomes functions and lemmas.

C integer semantics is written out explicitly in `CInt`:
- wrap-around through `U8`…`I32`;
- C's truncating division as `CDiv`;
- arithmetic right shift as `Asr`.

Hardware is not modelled; method parameters stand in for it:
- every register read becomes a parameter (the Hall pins, captures, timer counter and auto-reload, DMA position, ADC data, FMAC output, HAL tick);
- every call into a component whose source is not part of this model becomes a parameter or a returned command (`BADC_*`, `SDC_*`, `VBS_*`, `PWMC_*`).


## Model

| member | source | states |
|---|---|---|
| SpeedFeedback.AbsSpeedUnit | fmc/MCSDK_v6.4.1-Full/MotorControl/MCSDK/MCLib/Any/Src/speed_pos_fdbk_sixstep.c:113-124 | the uint16_t magnitude of an int16_t speed is its absolute value, including 32768 for -32768 |
| SpeedFeedback.NextErrorCountCases | fmc/MCSDK_v6.4.1-Full/MotorControl/MCSDK/MCLib/Any/Src/speed_pos_fdbk_sixstep.c:141-162 | the counter stays in [0, maximum]; it reaches the maximum exactly when it was there already or an error lifts it there; a good report below the maximum clears it |
| SpeedFeedback.ErrorCountStaysBounded | fmc/MCSDK_v6.4.1-Full/MotorControl/MCSDK/MCLib/Any/Src/speed_pos_fdbk_sixstep.c:141-162 | any sequence of reports keeps the error counter within [0, maximum] |
| SpeedFeedback.UnreliableIsSticky | fmc/MCSDK_v6.4.1-Full/MotorControl/MCSDK/MCLib/Any/Src/speed_pos_fdbk_sixstep.c:141-162 | once the counter equals the maximum, no sequence of reports changes it again |
| SpeedFeedback.ConsecutiveErrorsReachMaximum | fmc/MCSDK_v6.4.1-Full/MotorControl/MCSDK/MCLib/Any/Src/speed_pos_fdbk_sixstep.c:141-150 | maximum - count consecutive out-of-range reports bring the counter to the maximum |
| SpeedFeedback.SpeedPosFdbk.constructor | fmc/MCSDK_v6.4.1-Full/MotorControl/MCSDK/MCLib/Any/Inc/speed_pos_fdbk_sixstep.h:50-68 | the handle fields take the configured values, with the error count and average speed at 0 |
| SpeedFeedback.SpeedPosFdbk.SetElToMecRatio | fmc/MCSDK_v6.4.1-Full/MotorControl/MCSDK/MCLib/Any/Src/speed_pos_fdbk_sixstep.c:189-221 | after a set, the getter returns the value set, and only bElToMecRatio is written |
| SpeedFeedback.SpeedPosFdbk.GetAvrgMecSpeedUnit | fmc/MCSDK_v6.4.1-Full/MotorControl/MCSDK/MCLib/Any/Src/speed_pos_fdbk_sixstep.c:57-64 | the stored average mechanical speed, read without change |
| SpeedFeedback.SpeedPosFdbk.GetElToMecRatio | fmc/MCSDK_v6.4.1-Full/MotorControl/MCSDK/MCLib/Any/Src/speed_pos_fdbk_sixstep.c:189-196 | the stored pole-pair ratio, read without change |
| SpeedFeedback.SpeedPosFdbk.IsMecSpeedReliable | fmc/MCSDK_v6.4.1-Full/MotorControl/MCSDK/MCLib/Any/Src/speed_pos_fdbk_sixstep.c:93-173 | only the error counter is written, and it becomes NextErrorCount of the old one; the result is true exactly when the counter is not at the maximum, which is what SPD_Check reports right afterwards |
| HallFeedback.HallCode | fmc/MCSDK_v6.4.1-Full/MotorControl/MCSDK/MCLib/Any/Src/hall_speed_pos_fdbk_sixstep.c:733-750 | the code is H3·4+H2·2+H1 for 120-degree placement and (not H2)·4+H3·2+H1 otherwise, in 0..7 |
| HallFeedback.PositiveIndex | fmc/MCSDK_v6.4.1-Full/MotorControl/MCSDK/MCLib/Any/Src/hall_speed_pos_fdbk_sixstep.c:752-795 | a valid code's place in the positive cycle 4,5,1,3,2,6 is in 0..5 |
| HallFeedback.StepOffset | fmc/MCSDK_v6.4.1-Full/MotorControl/MCSDK/MCLib/Any/Src/hall_speed_pos_fdbk_sixstep.c:554-725 | the step offset of a valid code is in 0..5 |
| HallFeedback.SectorStep | fmc/MCSDK_v6.4.1-Full/MotorControl/MCSDK/MCLib/Any/Src/hall_speed_pos_fdbk_sixstep.c:554-725 | the step written for a valid code stays a uint8_t value |
| HallFeedback.OffsetsFollowRotation | fmc/MCSDK_v6.4.1-Full/MotorControl/MCSDK/MCLib/Any/Src/hall_speed_pos_fdbk_sixstep.c:554-725 | each positive offset is the code's place in the positive cycle, and each negative offset is that place plus 3 mod 6 |
| HallFeedback.SectorStepInRange | fmc/MCSDK_v6.4.1-Full/MotorControl/MCSDK/MCLib/Any/Src/hall_speed_pos_fdbk_sixstep.c:554-725 | with StepShift at most 5 the step is (StepShift + offset) mod 6, in 0..5 |
| HallFeedback.PositiveTransitionAdvancesStep | fmc/MCSDK_v6.4.1-Full/MotorControl/MCSDK/MCLib/Any/Src/hall_speed_pos_fdbk_sixstep.c:554-839 | along an accepted positive transition the step increases by exactly 1 mod 6 |
| HallFeedback.NegativeTransitionRetreatsStep | fmc/MCSDK_v6.4.1-Full/MotorControl/MCSDK/MCLib/Any/Src/hall_speed_pos_fdbk_sixstep.c:554-839 | along an accepted negative transition the step decreases by exactly 1 mod 6 |
| HallFeedback.RejectedReadings | fmc/MCSDK_v6.4.1-Full/MotorControl/MCSDK/MCLib/Any/Src/hall_speed_pos_fdbk_sixstep.c:752-849 | a repeated code, code 0 or 7, and a direction other than ±1 are never accepted; from every valid code, each direction has an accepted successor |
| HallFeedback.CaptureScale | fmc/MCSDK_v6.4.1-Full/MotorControl/MCSDK/MCLib/Any/Src/hall_speed_pos_fdbk_sixstep.c:357-401 | the capture scale is prsc+2 on the no-overflow capture right after a decrement, and prsc+1 otherwise |
| HallFeedback.ScaledCapture | fmc/MCSDK_v6.4.1-Full/MotorControl/MCSDK/MCLib/Any/Src/hall_speed_pos_fdbk_sixstep.c:357-422 | the overflow-extended, scaled capture is a uint32_t value |
| HallFeedback.NextPrescaler | fmc/MCSDK_v6.4.1-Full/MotorControl/MCSDK/MCLib/Any/Src/hall_speed_pos_fdbk_sixstep.c:361-422 | the prescaler stays in [0, HALLMaxRatio] and changes by at most one; it rises exactly on an overflow capture with RatioInc clear below the maximum, and falls exactly on a no-overflow capture below 0x5500 with RatioDec clear above 0; the flags toggle as in the source |
| HallFeedback.StoredPeriod | fmc/MCSDK_v6.4.1-Full/MotorControl/MCSDK/MCLib/Any/Src/hall_speed_pos_fdbk_sixstep.c:438-445 | an accepted period is stored as min(capture, MaxPeriod) times Direction |
| HallFeedback.ResetPeriod | fmc/MCSDK_v6.4.1-Full/MotorControl/MCSDK/MCLib/Any/Src/hall_speed_pos_fdbk_sixstep.c:213-217 | the refill value is MaxPeriod times Direction when MaxPeriod fits int32_t |
| HallFeedback.ResetSumIsSum | fmc/MCSDK_v6.4.1-Full/MotorControl/MCSDK/MCLib/Any/Src/hall_speed_pos_fdbk_sixstep.c:213-220 | the refilled ElPeriodSum is the int32_t sum of the refilled slots |
| HallFeedback.SlotReplaceKeepsSum | fmc/MCSDK_v6.4.1-Full/MotorControl/MCSDK/MCLib/Any/Src/hall_speed_pos_fdbk_sixstep.c:437-447 | subtracting the old slot and adding the new one keeps ElPeriodSum equal to the int32_t sum of the slots |
| HallFeedback.SumExactWithoutOverflow | fmc/MCSDK_v6.4.1-Full/MotorControl/MCSDK/MCLib/Any/Src/hall_speed_pos_fdbk_sixstep.c:437-447 | when size·MaxPeriod fits int32_t, the stored sum is the exact sum of the slots |
| HallFeedback.SumBounded | fmc/MCSDK_v6.4.1-Full/MotorControl/MCSDK/MCLib/Any/Src/hall_speed_pos_fdbk_sixstep.c:437-447 | a sum of n slots each bounded by b in magnitude is bounded by n·b |
| HallFeedback.StationaryAverageIsInstantaneous | fmc/MCSDK_v6.4.1-Full/MotorControl/MCSDK/MCLib/Any/Src/hall_speed_pos_fdbk_sixstep.c:258-297 | over a buffer of equal periods the averaged speed equals the instantaneous speed |
| HallFeedback.MinMeasurableElSpeed | fmc/MCSDK_v6.4.1-Full/MotorControl/MCSDK/MCLib/Any/Src/hall_speed_pos_fdbk_sixstep.c:97-103 | the minimum measurable electrical speed is a uint16_t value no greater than the reliable minimum |
| HallFeedback.MaxMeasurableElSpeed | fmc/MCSDK_v6.4.1-Full/MotorControl/MCSDK/MCLib/Any/Src/hall_speed_pos_fdbk_sixstep.c:98-107 | the maximum measurable electrical speed is twice the reliable maximum, wrapped to uint16_t |
| HallFeedback.SectorTimeout | fmc/MCSDK_v6.4.1-Full/MotorControl/MCSDK/MCLib/Any/Src/hall_speed_pos_fdbk_sixstep.c:111-123 | the Hall timeout is 150 ms when the minimum measurable speed is 0 |
| HallFeedback.SectorTimeoutIsFloor | fmc/MCSDK_v6.4.1-Full/MotorControl/MCSDK/MCLib/Any/Src/hall_speed_pos_fdbk_sixstep.c:118-123 | otherwise the timeout is the floor of 1000·SPEED_UNIT/(6·minimum speed) |
| HallFeedback.MaxRatio | fmc/MCSDK_v6.4.1-Full/MotorControl/MCSDK/MCLib/Any/Src/hall_speed_pos_fdbk_sixstep.c:126 | HALLMaxRatio is a uint16_t congruent to timeout·OvfFreq/1000 modulo 2^16 (the uint32_t product never wraps), and when that quotient fits it is the whole number of thousandths: r·1000 ≤ timeout·OvfFreq < (r+1)·1000 |
| HallFeedback.MinPeriodTicks | fmc/MCSDK_v6.4.1-Full/MotorControl/MCSDK/MCLib/Any/Src/hall_speed_pos_fdbk_sixstep.c:131-138 | MinPeriod without a maximum speed is SPEED_UNIT·(clock/6) in uint32_t |
| HallFeedback.MinPeriodTicksIsFloor | fmc/MCSDK_v6.4.1-Full/MotorControl/MCSDK/MCLib/Any/Src/hall_speed_pos_fdbk_sixstep.c:135-138 | with a maximum speed, MinPeriod is the floor of those ticks divided by it |
| HallFeedback.Hall.constructor | fmc/MCSDK_v6.4.1-Full/MotorControl/MCSDK/MCLib/Any/Inc/hall_speed_pos_fdbk_sixstep.h:59-128 | a zero-initialised handle with the configured placement, shift, buffer size and clock, and a buffer of HALL_SPEED_FIFO_SIZE slots |
| HallFeedback.Hall.SetDirection | fmc/MCSDK_v6.4.1-Full/MotorControl/MCSDK/MCLib/Any/Inc/hall_speed_pos_fdbk_sixstep.h:150-153 | only Direction is written, with the given value |
| HallFeedback.Hall.GetStep | fmc/MCSDK_v6.4.1-Full/MotorControl/MCSDK/MCLib/Any/Inc/hall_speed_pos_fdbk_sixstep.h:136-142 | the stored commutation step, read without change |
| HallFeedback.Hall.Init | fmc/MCSDK_v6.4.1-Full/MotorControl/MCSDK/MCLib/Any/Src/hall_speed_pos_fdbk_sixstep.c:85-142 | OvfFreq, HallTimeout, HALLMaxRatio, MaxPeriod and MinPeriod take the derived values; the sensor is reliable and the prescaler is HALLMaxRatio |
| HallFeedback.Hall.ReadState | fmc/MCSDK_v6.4.1-Full/MotorControl/MCSDK/MCLib/Any/Src/hall_speed_pos_fdbk_sixstep.c:733-849 | HallState becomes the decoded code, and SensorIsReliable is overwritten with whether this transition alone is accepted |
| HallFeedback.Hall.State2Step | fmc/MCSDK_v6.4.1-Full/MotorControl/MCSDK/MCLib/Any/Src/hall_speed_pos_fdbk_sixstep.c:554-725 | after the read, a valid code sets Step to SectorStep for the direction; codes 0 and 7 leave Step unchanged |
| HallFeedback.Hall.RefillBuffer | fmc/MCSDK_v6.4.1-Full/MotorControl/MCSDK/MCLib/Any/Src/hall_speed_pos_fdbk_sixstep.c:213-220 | slots [0, size) hold MaxPeriod·Direction, later slots are unchanged, and the sum matches |
| HallFeedback.Hall.ResetMeasurement | fmc/MCSDK_v6.4.1-Full/MotorControl/MCSDK/MCLib/Any/Src/hall_speed_pos_fdbk_sixstep.c:187-206 | the flags, counters, index and error count are reset, and the prescaler is HALLMaxRatio |
| HallFeedback.Hall.Clear | fmc/MCSDK_v6.4.1-Full/MotorControl/MCSDK/MCLib/Any/Src/hall_speed_pos_fdbk_sixstep.c:175-224 | everything is reset and refilled, and the sensors are re-read; the reliability flag set at line 191 is overwritten, so it ends true only when the sector moved one place in Direction |
| HallFeedback.Hall.CalcAvrgMecSpeedUnit | fmc/MCSDK_v6.4.1-Full/MotorControl/MCSDK/MCLib/Any/Src/hall_speed_pos_fdbk_sixstep.c:246-315 | a period below MinPeriod gives 0 (buffer not filled) or keeps the old average (filled); otherwise the speed is conv/slot, or conv/(sum/size) once filled; the result then goes through the reliability counter |
| HallFeedback.Hall.ScaleCapture | fmc/MCSDK_v6.4.1-Full/MotorControl/MCSDK/MCLib/Any/Src/hall_speed_pos_fdbk_sixstep.c:355-422 | the capture is extended and scaled by CaptureScale, and the prescaler and flags change as NextPrescaler says |
| HallFeedback.Hall.StorePeriod | fmc/MCSDK_v6.4.1-Full/MotorControl/MCSDK/MCLib/Any/Src/hall_speed_pos_fdbk_sixstep.c:426-447 | a capture below MinPeriod changes nothing; otherwise the index advances mod size and that slot becomes StoredPeriod, with the sum kept consistent |
| HallFeedback.Hall.MeasureEdge | fmc/MCSDK_v6.4.1-Full/MotorControl/MCSDK/MCLib/Any/Src/hall_speed_pos_fdbk_sixstep.c:343-461 | an accepted later edge bumps BufferFilled twice (saturating), scales the capture, stores the period and zeroes OVFCounter |
| HallFeedback.Hall.CcIrqHandler | fmc/MCSDK_v6.4.1-Full/MotorControl/MCSDK/MCLib/Any/Src/hall_speed_pos_fdbk_sixstep.c:316-461 | a rejected edge changes only the sector state; the first accepted edge only sets FirstCapt; later accepted edges are measured |
| HallFeedback.Hall.UpIrqHandler | fmc/MCSDK_v6.4.1-Full/MotorControl/MCSDK/MCLib/Any/Src/hall_speed_pos_fdbk_sixstep.c:493-538 | while unreliable nothing changes; otherwise OVFCounter counts up, and at the timeout count the counters and index are zeroed and the buffer is refilled, leaving SensorIsReliable alone |
| Ipd.Average | fmc/MCSDK_v6.4.1-Full/MotorControl/MCSDK/MCLib/Any/Src/ipd_sixstep.c:292-298 | the int32_t mean of the six samples is truncated: total − 6·avg lies strictly between −6 and 6 and has the total's sign |
| Ipd.CDivRemainder | fmc/MCSDK_v6.4.1-Full/MotorControl/MCSDK/MCLib/Any/Src/ipd_sixstep.c:298 | C division by 2 or 6 leaves a remainder with the dividend's sign, smaller than the divisor |
| Ipd.MidBetween | fmc/MCSDK_v6.4.1-Full/MotorControl/MCSDK/MCLib/Any/Src/ipd_sixstep.c:309-314 | the truncated mean of two neighbours lies between them |
| Ipd.FluxTable | fmc/MCSDK_v6.4.1-Full/MotorControl/MCSDK/MCLib/Any/Src/ipd_sixstep.c:300-314 | the flux table has twelve bins |
| Ipd.Bins | fmc/MCSDK_v6.4.1-Full/MotorControl/MCSDK/MCLib/Any/Src/ipd_sixstep.c:300-314 | the bin layout: even bins 0,2,4,6,8,10 from samples 0,2,4,1,3,5, odd bins the truncated means of their cyclic neighbours |
| Ipd.BinsBounded | fmc/MCSDK_v6.4.1-Full/MotorControl/MCSDK/MCLib/Any/Src/ipd_sixstep.c:309-314 | odd bins stay within the even bins' 17-bit range, so no window sum overflows |
| Ipd.EvenBinsNearZeroMean | fmc/MCSDK_v6.4.1-Full/MotorControl/MCSDK/MCLib/Any/Src/ipd_sixstep.c:292-306 | the six even bins sum to a value strictly between −6 and 6 |
| Ipd.Scan | fmc/MCSDK_v6.4.1-Full/MotorControl/MCSDK/MCLib/Any/Src/ipd_sixstep.c:317-383 | the window kept after scanning n windows is one of them |
| Ipd.ScanSum | fmc/MCSDK_v6.4.1-Full/MotorControl/MCSDK/MCLib/Any/Src/ipd_sixstep.c:317-383 | the kept maximum is the sum of the kept window |
| Ipd.BestWindow | fmc/MCSDK_v6.4.1-Full/MotorControl/MCSDK/MCLib/Any/Src/ipd_sixstep.c:317-383 | the winning window is one of those scanned |
| Ipd.BestWindowStep | fmc/MCSDK_v6.4.1-Full/MotorControl/MCSDK/MCLib/Any/Src/ipd_sixstep.c:322-335 | a later window replaces the kept one only when its sum is strictly larger |
| Ipd.BestWindowIsFirstMaximum | fmc/MCSDK_v6.4.1-Full/MotorControl/MCSDK/MCLib/Any/Src/ipd_sixstep.c:317-383 | the scan returns the first window of maximal sum |
| Ipd.FirstMaximumIsBestWindow | fmc/MCSDK_v6.4.1-Full/MotorControl/MCSDK/MCLib/Any/Src/ipd_sixstep.c:317-383 | a window is the first maximum exactly when it is the scan's winner |
| Ipd.RotorSector | fmc/MCSDK_v6.4.1-Full/MotorControl/MCSDK/MCLib/Any/Src/ipd_sixstep.c:317-383 | the winning sector is in 0..11 |
| Ipd.RotorAngle | fmc/MCSDK_v6.4.1-Full/MotorControl/MCSDK/MCLib/Any/Src/ipd_sixstep.c:317-385 | the returned angle lies in [−180, 150] |
| Ipd.FluxAngle | fmc/MCSDK_v6.4.1-Full/MotorControl/MCSDK/MCLib/Any/Src/ipd_sixstep.c:317-385 | the angle computed from a flux table lies in [−180, 150] |
| Ipd.RotorAngleSector | fmc/MCSDK_v6.4.1-Full/MotorControl/MCSDK/MCLib/Any/Src/ipd_sixstep.c:317-385 | the returned angle is 30·sector − 180, a multiple of 30 |
| Ipd.StepOfAngle | fmc/MCSDK_v6.4.1-Full/MotorControl/MCSDK/MCLib/Any/Src/ipd_sixstep.c:192-229 | the angle-to-step chain always yields STEP_1..STEP_6 |
| Ipd.StepOfDetectedAngle | fmc/MCSDK_v6.4.1-Full/MotorControl/MCSDK/MCLib/Any/Src/ipd_sixstep.c:192-229 | for every computed angle the step is the 60-degree sector shifted back by one (−180,−150 to STEP_6, …, 120,150 to STEP_5), so the final else is never taken |
| Ipd.ExampleFluxTable | fmc/MCSDK_v6.4.1-Full/MotorControl/MCSDK/MCLib/Any/Src/ipd_sixstep.c:292-314 | samples [100,100,100,500,100,100] give mean 166 and the listed flux table, with bin 8 at 334 |
| Ipd.ExampleBestWindow | fmc/MCSDK_v6.4.1-Full/MotorControl/MCSDK/MCLib/Any/Src/ipd_sixstep.c:317-383 | for that table the window starting at bin 7 wins |
| Ipd.ExampleSector | fmc/MCSDK_v6.4.1-Full/MotorControl/MCSDK/MCLib/Any/Src/ipd_sixstep.c:317-383 | for those samples the winning sector is 8 |
| Ipd.WorkedExample | fmc/MCSDK_v6.4.1-Full/MotorControl/MCSDK/MCLib/Any/Src/ipd_sixstep.c:208-211 | for those samples the angle is 60 and the step is STEP_4 |
| Ipd.IpdHandle.constructor | fmc/MCSDK_v6.4.1-Full/MotorControl/MCSDK/MCLib/Any/Inc/ipd_sixstep.h:54-73 | a handle with the configured thresholds and debug flag and fresh sample and flux arrays |
| Ipd.IpdHandle.Clear | fmc/MCSDK_v6.4.1-Full/MotorControl/MCSDK/MCLib/Any/Src/ipd_sixstep.c:85-110 | all counters, PreviousStep, the six samples and the twelve bins are 0; ElecAngle is −1, IPDRunning is false and IPDBEMFMeasured is true |
| Ipd.IpdHandle.Task | fmc/MCSDK_v6.4.1-Full/MotorControl/MCSDK/MCLib/Any/Src/ipd_sixstep.c:121-258 | the step counting runs first; the pulse and angle block runs only while running with a measurement pending, and it clears that flag and the pulse state; debug mode skips the angle and stops; the result equals IPDRunning |
| Ipd.IpdHandle.DetectedAngle | fmc/MCSDK_v6.4.1-Full/MotorControl/MCSDK/MCLib/Any/Src/ipd_sixstep.c:192-229 | after a detection the stored angle is the samples' angle and the step is the one that angle selects |
| Ipd.IpdHandle.CountValidStep | fmc/MCSDK_v6.4.1-Full/MotorControl/MCSDK/MCLib/Any/Src/ipd_sixstep.c:133-157 | only on STEP_2/4/6 with enough zero-speed samples does the valid count increment, the sample count reset and PreviousStep take the step; running stops once the count reaches its threshold |
| Ipd.IpdHandle.Detect | fmc/MCSDK_v6.4.1-Full/MotorControl/MCSDK/MCLib/Any/Src/ipd_sixstep.c:169-257 | entered with a measurement pending: the flags are cleared, and outside debug mode the angle and step are detected |
| Ipd.IpdHandle.DetectStep | fmc/MCSDK_v6.4.1-Full/MotorControl/MCSDK/MCLib/Any/Src/ipd_sixstep.c:185-229 | the angle check runs and the step is StepOfAngle of its result, which previous_angle keeps |
| Ipd.IpdHandle.ZeroSpeedRotorAngleCheck | fmc/MCSDK_v6.4.1-Full/MotorControl/MCSDK/MCLib/Any/Src/ipd_sixstep.c:269-385 | the samples are stored, the flux table is FluxTable of them, and the result is FluxAngle of that table |
| Ipd.IpdHandle.Average6 | fmc/MCSDK_v6.4.1-Full/MotorControl/MCSDK/MCLib/Any/Src/ipd_sixstep.c:292-298 | the loop computes the truncated mean |
| Ipd.IpdHandle.FillFlux | fmc/MCSDK_v6.4.1-Full/MotorControl/MCSDK/MCLib/Any/Src/ipd_sixstep.c:300-314 | the flux array becomes FluxTable of the samples |
| Ipd.IpdHandle.ScanWindows | fmc/MCSDK_v6.4.1-Full/MotorControl/MCSDK/MCLib/Any/Src/ipd_sixstep.c:317-383 | the twelve-window scan returns FluxAngle of the table |
| Ipd.IpdHandle.ScanTen | fmc/MCSDK_v6.4.1-Full/MotorControl/MCSDK/MCLib/Any/Src/ipd_sixstep.c:322-350 | the loop over windows 0..9 keeps the first maximum and its angle |
| RevUp.Follow | fmc/MCSDK_v6.4.1-Full/MotorControl/MCSDK/MCLib/Any/Src/revup_ctrl_sixstep.c:90-108 | following links from phase 0 always stays inside the phase table or reaches null |
| RevUp.CountFrom | fmc/MCSDK_v6.4.1-Full/MotorControl/MCSDK/MCLib/Any/Src/revup_ctrl_sixstep.c:90-108 | Clear's walk counts between its start and RUC_MAX_PHASE_NUMBER links |
| RevUp.PhaseCount | fmc/MCSDK_v6.4.1-Full/MotorControl/MCSDK/MCLib/Any/Src/revup_ctrl_sixstep.c:90-108 | Clear counts between 1 and 5 phases |
| RevUp.CountFromIsChainLength | fmc/MCSDK_v6.4.1-Full/MotorControl/MCSDK/MCLib/Any/Src/revup_ctrl_sixstep.c:90-108 | every counted phase is reached along the chain, and the chain ends right after them unless the walk was cut at 5 |
| RevUp.ClearedLinks | fmc/MCSDK_v6.4.1-Full/MotorControl/MCSDK/MCLib/Any/Src/revup_ctrl_sixstep.c:104-108 | the table after Clear has five well-linked slots |
| RevUp.SequentialFollow | fmc/MCSDK_v6.4.1-Full/MotorControl/MCSDK/MCLib/Any/Src/revup_ctrl_sixstep.c:90-108 | with links i to i+1, the j-th phase reached is slot j |
| RevUp.ClearedFollow | fmc/MCSDK_v6.4.1-Full/MotorControl/MCSDK/MCLib/Any/Src/revup_ctrl_sixstep.c:104-108 | after Clear, with sequential links, each counted phase is still reached in order |
| RevUp.ClearEndsChain | fmc/MCSDK_v6.4.1-Full/MotorControl/MCSDK/MCLib/Any/Src/revup_ctrl_sixstep.c:90-108 | after Clear the chain visits exactly the counted phases in order and then ends, so at most five phases run |
| RevUp.SpeedRefOf | fmc/MCSDK_v6.4.1-Full/MotorControl/MCSDK/MCLib/Any/Src/revup_ctrl_sixstep.c:207 | the 16.16 target reference of an int16_t speed is a uint32_t value |
| RevUp.SpeedRefOfNonNegative | fmc/MCSDK_v6.4.1-Full/MotorControl/MCSDK/MCLib/Any/Src/revup_ctrl_sixstep.c:207 | for a non-negative speed the reference is speed·65536 and its upper half is the speed |
| RevUp.SpeedRefOfNegative | fmc/MCSDK_v6.4.1-Full/MotorControl/MCSDK/MCLib/Any/Src/revup_ctrl_sixstep.c:207 | for a negative speed the widening wraps, and the upper half is 65536 + speed |
| RevUp.CommandPulse | fmc/MCSDK_v6.4.1-Full/MotorControl/MCSDK/MCLib/Any/Src/revup_ctrl_sixstep.c:202-204 | the commanded pulse is hFinalPulse·PulseUpdateFactor/10, stored as uint16_t and passed on as an int16_t value |
| RevUp.PhaseTicks | fmc/MCSDK_v6.4.1-Full/MotorControl/MCSDK/MCLib/Any/Src/revup_ctrl_sixstep.c:218-220 | the tick count of a timed phase (duration·freq/1000 stored as uint16_t, then incremented, so 65535 wraps to 0) is a uint16_t value |
| RevUp.StartPhase | fmc/MCSDK_v6.4.1-Full/MotorControl/MCSDK/MCLib/Any/Src/revup_ctrl_sixstep.c:200-235 | a new phase bumps the stage; zero duration applies the target at once with the count at 0; a timed phase gets its ticks and, for a non-zero target, the uint32_t increment AsWrittenIncrement of the target and current reference, or speed and increment 0 for a zero target |
| RevUp.AsWrittenIncrement | fmc/MCSDK_v6.4.1-Full/MotorControl/MCSDK/MCLib/Any/Src/revup_ctrl_sixstep.c:229-230 | the increment is a uint32_t value: the plain quotient (target − current)/ticks toward a higher target, and (2^32 − d)/ticks toward a target d lower |
| RevUp.CorrectedStartPhase | fmc/MCSDK_v6.4.1-Full/MotorControl/MCSDK/MCLib/Any/Src/revup_ctrl_sixstep.c:229-230 | the intended start differs from StartPhase only in the increment, which is SignedIncrement for a timed phase, and equals StartPhase for an accelerating phase |
| RevUp.NextPhase | fmc/MCSDK_v6.4.1-Full/MotorControl/MCSDK/MCLib/Any/Src/revup_ctrl_sixstep.c:188-192 | the phase an advancing call moves to is in the table, or null |
| RevUp.Tick | fmc/MCSDK_v6.4.1-Full/MotorControl/MCSDK/MCLib/Any/Src/revup_ctrl_sixstep.c:173-187 | within a countdown only the count (down by one) and the reference change |
| RevUp.ExecRamp | fmc/MCSDK_v6.4.1-Full/MotorControl/MCSDK/MCLib/Any/Src/revup_ctrl_sixstep.c:160-240 | a call within a countdown is a Tick and returns true; an advancing call starts the next phase with StartPhase (the uint32_t increment as written); the result always stays in the phase table with a uint32_t reference |
| RevUp.ExecFailsExactlyWithoutPhase | fmc/MCSDK_v6.4.1-Full/MotorControl/MCSDK/MCLib/Any/Src/revup_ctrl_sixstep.c:188-240 | Exec returns false exactly when it advances and finds no phase; the rev-up is then completed, with nothing commanded and the reference kept; a ramp command is issued exactly when a phase starts |
| RevUp.Run | fmc/MCSDK_v6.4.1-Full/MotorControl/MCSDK/MCLib/Any/Src/revup_ctrl_sixstep.c:173-187 | k calls within a countdown lower the count by k and keep the phase, stage and increment |
| RevUp.RunAccumulates | fmc/MCSDK_v6.4.1-Full/MotorControl/MCSDK/MCLib/Any/Src/revup_ctrl_sixstep.c:173-179 | before the last tick each call adds the increment modulo 2^32 |
| RevUp.RampReachesTarget | fmc/MCSDK_v6.4.1-Full/MotorControl/MCSDK/MCLib/Any/Src/revup_ctrl_sixstep.c:180-187 | a countdown ends with the count at 0 and the reference exactly at target·65536 |
| RevUp.StartAcceleratingPhase | fmc/MCSDK_v6.4.1-Full/MotorControl/MCSDK/MCLib/Any/Src/revup_ctrl_sixstep.c:229-230 | an accelerating phase's increment is (target − current)/ticks, with no wrap-around |
| RevUp.AcceleratingRampStaysBelowTarget | fmc/MCSDK_v6.4.1-Full/MotorControl/MCSDK/MCLib/Any/Src/revup_ctrl_sixstep.c:173-225 | an accelerating ramp never overshoots: every reference before the snap lies between the start and the target |
| RevUp.StepsWithin | fmc/MCSDK_v6.4.1-Full/MotorControl/MCSDK/MCLib/Any/Src/revup_ctrl_sixstep.c:229-230 | fewer than ticks steps of d/ticks stay within d |
| RevUp.DeceleratingRampWraps | fmc/MCSDK_v6.4.1-Full/MotorControl/MCSDK/MCLib/Any/Src/revup_ctrl_sixstep.c:229-230 | from 2000 to 1000 over two ticks the uint32_t increment wraps, and after one tick the reference's upper half reads 34268 |
| RevUp.DeceleratingRampRisesFirst | fmc/MCSDK_v6.4.1-Full/MotorControl/MCSDK/MCLib/Any/Src/revup_ctrl_sixstep.c:173-230 | as written, every decelerating timed phase of two or more ticks between non-negative speeds has a positive increment, and its first tick moves the reference above where it started, away from the target |
| RevUp.WrappedIncrementRises | fmc/MCSDK_v6.4.1-Full/MotorControl/MCSDK/MCLib/Any/Src/revup_ctrl_sixstep.c:229-230 | the wrapped increment of a decrease below 2^31 over 2 to 65535 ticks is at least 1 and does not carry the reference past 2^32 |
| RevUp.SignedIncrement | fmc/MCSDK_v6.4.1-Full/MotorControl/MCSDK/MCLib/Any/Src/revup_ctrl_sixstep.c:229-230 | the corrected increment is no larger in magnitude than the speed difference, is the same quotient as the one written for an accelerating phase, and is the negated quotient for a decelerating one |
| RevUp.DeceleratingRampCountsDown | fmc/MCSDK_v6.4.1-Full/MotorControl/MCSDK/MCLib/Any/Src/revup_ctrl_sixstep.c:173-230 | with the intended increment (CorrectedStartPhase) the same 2000-to-1000 phase takes the reference to 1500 after one tick and to 1000 after the second
| RevUp.PhaseRampStaysBetween | fmc/MCSDK_v6.4.1-Full/MotorControl/MCSDK/MCLib/Any/Src/revup_ctrl_sixstep.c:173-230 | with the intended increment (CorrectedStartPhase), every reference of a timed phase before its final snap lies between the starting reference and the target, whichever way the phase goes, with no wrap-around
| RevUp.SignedRampStaysBetween | fmc/MCSDK_v6.4.1-Full/MotorControl/MCSDK/MCLib/Any/Src/revup_ctrl_sixstep.c:173-230 | with the corrected signed increment every reference before the snap lies between the start and the target, in either direction |
| RevUp.TimerDpp | fmc/MCSDK_v6.4.1-Full/MotorControl/MCSDK/MCLib/Any/Src/revup_ctrl_sixstep.c:242-256 | ElSpeedTimerDpp is the conversion factor while the upper half is 0, and conv/(ref>>16) otherwise; never more than the factor |
| RevUp.AverageSpeed | fmc/MCSDK_v6.4.1-Full/MotorControl/MCSDK/MCLib/Any/Src/revup_ctrl_sixstep.c:242-261 | hAvrMecSpeedUnit is kept while the reference is 0, and is otherwise conv/(dpp·direction) as int16_t |
| RevUp.SpeedEstimateAtTarget | fmc/MCSDK_v6.4.1-Full/MotorControl/MCSDK/MCLib/Any/Src/revup_ctrl_sixstep.c:242-261 | at a target reference s·65536 with s dividing the factor, the period is conv/s and the reported speed is s signed by the direction |
| RevUp.DppAtSpeed | fmc/MCSDK_v6.4.1-Full/MotorControl/MCSDK/MCLib/Any/Src/revup_ctrl_sixstep.c:248-256 | at reference s·65536 the timer period is conv/s |
| RevUp.AverageWithPeriod | fmc/MCSDK_v6.4.1-Full/MotorControl/MCSDK/MCLib/Any/Src/revup_ctrl_sixstep.c:257-260 | with a period q where conv = q·s, the average speed is direction·s |
| RevUp.PulseUpdateFactorOf | fmc/MCSDK_v6.4.1-Full/MotorControl/MCSDK/MCLib/Any/Src/revup_ctrl_sixstep.c:137-150 | the pulse factor 10·nominal/Vbus is a uint16_t value |
| RevUp.NominalBusKeepsPulse | fmc/MCSDK_v6.4.1-Full/MotorControl/MCSDK/MCLib/Any/Src/revup_ctrl_sixstep.c:137-150 | above the nominal voltage the factor is at most 10; at the nominal voltage it is 10, and each phase commands its programmed pulse |
| RevUp.SpeedReachedAtTarget | fmc/MCSDK_v6.4.1-Full/MotorControl/MCSDK/MCLib/Any/Src/revup_ctrl_sixstep.c:312-332 | at a target reference the observer check holds exactly when the target reaches the minimum (a negative target reads as 65536 + speed) |
| RevUp.ExampleStart | fmc/MCSDK_v6.4.1-Full/MotorControl/MCSDK/MCLib/Any/Src/revup_ctrl_sixstep.c:193-235 | at 1000 Hz the first call after Clear starts phase 0 with 101 ticks, increment 648871 and pulse 200 |
| RevUp.ExampleJump | fmc/MCSDK_v6.4.1-Full/MotorControl/MCSDK/MCLib/Any/Src/revup_ctrl_sixstep.c:200-214 | phase 1, with zero duration, applies 2000·65536 at once |
| RevUp.ExampleEnd | fmc/MCSDK_v6.4.1-Full/MotorControl/MCSDK/MCLib/Any/Src/revup_ctrl_sixstep.c:236-240 | phase 1 has no successor, so the next call returns false |
| RevUp.WorkedSequence | fmc/MCSDK_v6.4.1-Full/MotorControl/MCSDK/MCLib/Any/Src/revup_ctrl_sixstep.c:160-240 | the whole example: snap to 1000·65536 after 101 ticks, then 2000·65536, then false |
| RevUp.RevUpCtrl.constructor | fmc/MCSDK_v6.4.1-Full/MotorControl/MCSDK/MCLib/Any/Inc/revup_ctrl_sixstep.h:77-102 | the handle with the configured factor, frequency, minimum speed, pulse factor and phase table, before any Clear |
| RevUp.RevUpCtrl.Clear | fmc/MCSDK_v6.4.1-Full/MotorControl/MCSDK/MCLib/Any/Src/revup_ctrl_sixstep.c:80-126 | the last counted link is nulled and the sequencer restarts at phase 0 with counters, increment and average 0, Dpp at the factor and bPhaseNbr 1, leaving CurrentSpeedRefUnit unchanged |
| RevUp.RevUpCtrl.CountPhases | fmc/MCSDK_v6.4.1-Full/MotorControl/MCSDK/MCLib/Any/Src/revup_ctrl_sixstep.c:90-103 | the while loop counts PhaseCount phases |
| RevUp.RevUpCtrl.UpdatePulse | fmc/MCSDK_v6.4.1-Full/MotorControl/MCSDK/MCLib/Any/Src/revup_ctrl_sixstep.c:137-150 | PulseUpdateFactor becomes 10·nominal/Vbus |
| RevUp.RevUpCtrl.Exec | fmc/MCSDK_v6.4.1-Full/MotorControl/MCSDK/MCLib/Any/Src/revup_ctrl_sixstep.c:160-263 | the new sequencer state, result and command are ExecRamp of the old state, with the uint32_t increment as written; the timer period and average speed are then recomputed |
| RevUp.RevUpCtrl.Sequence | fmc/MCSDK_v6.4.1-Full/MotorControl/MCSDK/MCLib/Any/Src/revup_ctrl_sixstep.c:173-240 | the sequencing half equals ExecRamp |
| RevUp.RevUpCtrl.Start | fmc/MCSDK_v6.4.1-Full/MotorControl/MCSDK/MCLib/Any/Src/revup_ctrl_sixstep.c:200-235 | starting the current phase gives StartPhase (the uint32_t difference divided by the ticks, as written) and the SDC_ExecRamp command (pulse, duration) |
| RevUp.RevUpCtrl.UpdateSpeedEstimate | fmc/MCSDK_v6.4.1-Full/MotorControl/MCSDK/MCLib/Any/Src/revup_ctrl_sixstep.c:242-261 | the timer period and average speed are TimerDpp and AverageSpeed of the reference |
| RevUp.RevUpCtrl.IsAlignStageNow | fmc/MCSDK_v6.4.1-Full/MotorControl/MCSDK/MCLib/Any/Src/revup_ctrl_sixstep.c:285-292 | true exactly when the current phase targets speed 0 (its GetPhaseFinalMecSpeedUnit is 0) |
| RevUp.RevUpCtrl.ObserverSpeedReached | fmc/MCSDK_v6.4.1-Full/MotorControl/MCSDK/MCLib/Any/Src/revup_ctrl_sixstep.c:324-332 | true exactly when the speed reference is at least the minimum start-up speed times 65536, that is, its upper half reaches the minimum |
| RevUp.RevUpCtrl.Stop | fmc/MCSDK_v6.4.1-Full/MotorControl/MCSDK/MCLib/Any/Inc/revup_ctrl_sixstep.h:125-141 | the current phase is null and the count and increment are 0; the reference is kept and Completed holds |
| RevUp.RevUpCtrl.Completed | fmc/MCSDK_v6.4.1-Full/MotorControl/MCSDK/MCLib/Any/Inc/revup_ctrl_sixstep.h:148-172 | true exactly when no current phase is left |
| RevUp.RevUpCtrl.SetPhase | fmc/MCSDK_v6.4.1-Full/MotorControl/MCSDK/MCLib/Any/Inc/revup_ctrl_sixstep.h:179-203 | a null pointer changes nothing; otherwise only pulse, speed and duration of slot n are copied, keeping its link, and GetPhase reads them back; the result is whether data was given |
| RevUp.RevUpCtrl.GetPhase | fmc/MCSDK_v6.4.1-Full/MotorControl/MCSDK/MCLib/Any/Inc/revup_ctrl_sixstep.h:219-240 | slot n's duration, target speed and pulse, the same values the single-field getters return |
| RevUp.RevUpCtrl.GetNumberOfPhases | fmc/MCSDK_v6.4.1-Full/MotorControl/MCSDK/MCLib/Any/Inc/revup_ctrl_sixstep.h:205-212 | the phase count recorded by Clear |
| RevUp.RevUpCtrl.GetDirection | fmc/MCSDK_v6.4.1-Full/MotorControl/MCSDK/MCLib/Any/Inc/revup_ctrl_sixstep.h:364-371 | the int8_t direction widened to int16_t, so in −128..127 |
| RevUp.RevUpCtrl.GetPhaseDurationms | fmc/MCSDK_v6.4.1-Full/MotorControl/MCSDK/MCLib/Any/Inc/revup_ctrl_sixstep.h:318-325 | slot n's duration |
| RevUp.RevUpCtrl.GetPhaseFinalMecSpeedUnit | fmc/MCSDK_v6.4.1-Full/MotorControl/MCSDK/MCLib/Any/Inc/revup_ctrl_sixstep.h:334-341 | slot n's target speed |
| RevUp.RevUpCtrl.SetPhaseDurationms | fmc/MCSDK_v6.4.1-Full/MotorControl/MCSDK/MCLib/Any/Inc/revup_ctrl_sixstep.h:248-270 | only slot n's duration changes, and the getter returns it |
| RevUp.RevUpCtrl.SetPhaseFinalMecSpeedUnit | fmc/MCSDK_v6.4.1-Full/MotorControl/MCSDK/MCLib/Any/Inc/revup_ctrl_sixstep.h:272-293 | only slot n's speed changes, and the getter returns it |
| RevUp.RevUpCtrl.SetPhaseFinalPulse | fmc/MCSDK_v6.4.1-Full/MotorControl/MCSDK/MCLib/Any/Inc/revup_ctrl_sixstep.h:295-316 | only slot n's pulse changes, and the getter returns it reinterpreted as int16_t |
| RevUp.RevUpCtrl.GetPhaseFinalPulse | fmc/MCSDK_v6.4.1-Full/MotorControl/MCSDK/MCLib/Any/Inc/revup_ctrl_sixstep.h:350-362 | the uint16_t pulse read as int16_t: equal to it, or 65536 less |
| OnTheFly.InitialStep | fmc/MCSDK_v6.4.1-Full/MotorControl/MCSDK/MCLib/Any/Src/otf_sixstep.c:96-103 | the starting step is STEP_2 for a positive direction and STEP_1 otherwise |
| OnTheFly.NextOtfStep | fmc/MCSDK_v6.4.1-Full/MotorControl/MCSDK/MCLib/Any/Src/otf_sixstep.c:192-225 | the step after a zero crossing is always one of STEP_1..STEP_6 |
| OnTheFly.OtfStepCycles | fmc/MCSDK_v6.4.1-Full/MotorControl/MCSDK/MCLib/Any/Src/otf_sixstep.c:192-225 | the step map consists of the two 3-cycles 1→5→3→1 and 2→4→6→2, and each triple is closed under it |
| OnTheFly.StepsStayInTriple | fmc/MCSDK_v6.4.1-Full/MotorControl/MCSDK/MCLib/Any/Src/otf_sixstep.c:96-103 | a positive start only ever visits STEP_2, STEP_4 and STEP_6, and any other start only STEP_1, STEP_3 and STEP_5 |
| OnTheFly.BemfPeriod | fmc/MCSDK_v6.4.1-Full/MotorControl/MCSDK/MCLib/Any/Src/otf_sixstep.c:146-156 | the half period across one counter wrap is a non-negative int32_t value |
| OnTheFly.BemfPeriodIsModular | fmc/MCSDK_v6.4.1-Full/MotorControl/MCSDK/MCLib/Any/Src/otf_sixstep.c:146-156 | with both readings in the counter range, the period is ((counter − last) mod (ARR+1))/2 |
| OnTheFly.ModWindow | fmc/MCSDK_v6.4.1-Full/MotorControl/MCSDK/MCLib/Any/Src/otf_sixstep.c:146-156 | a difference of two counter readings reduced mod the counter period adds the period exactly when it is negative |
| OnTheFly.Measured | fmc/MCSDK_v6.4.1-Full/MotorControl/MCSDK/MCLib/Any/Src/otf_sixstep.c:146-167 | measuring keeps the buffer length and latches the counter on every call |
| OnTheFly.Locked | fmc/MCSDK_v6.4.1-Full/MotorControl/MCSDK/MCLib/Any/Src/otf_sixstep.c:169-191 | locking keeps the speed buffer's length |
| OnTheFly.TaskSpec | fmc/MCSDK_v6.4.1-Full/MotorControl/MCSDK/MCLib/Any/Src/otf_sixstep.c:137-227 | one task call keeps the speed buffer's length |
| OnTheFly.GlitchOnlyCountsError | fmc/MCSDK_v6.4.1-Full/MotorControl/MCSDK/MCLib/Any/Src/otf_sixstep.c:157-166 | a glitch (period·psc < 3·PWM period) counts one BEMF error, latches the counter and leaves the buffer, index and last good period unchanged; it never completes the lock |
| OnTheFly.TaskOutcome | fmc/MCSDK_v6.4.1-Full/MotorControl/MCSDK/MCLib/Any/Src/otf_sixstep.c:169-225 | Task returns true exactly when a good period makes the index pass the required count; otherwise it commutates along the 3-cycle while errors remain below the budget, and aborts without commutating once they do not |
| OnTheFly.LockSeedsBuffer | fmc/MCSDK_v6.4.1-Full/MotorControl/MCSDK/MCLib/Any/Src/otf_sixstep.c:169-191 | after the lock every slot holds the last period·direction, the index is 0, BufferFilled is the size, ElPeriodSum is period·size when that fits, and both average speeds are conv/period |
| OnTheFly.DutyRatio | fmc/MCSDK_v6.4.1-Full/MotorControl/MCSDK/MCLib/Any/Src/otf_sixstep.c:246-250 | one duty/speed sample (duty·65536)/\|speed\| is a uint32_t value |
| OnTheFly.WindowMean | fmc/MCSDK_v6.4.1-Full/MotorControl/MCSDK/MCLib/Any/Src/otf_sixstep.c:251-262 | the conversion factor, the truncated mean of the first BW samples, is a uint32_t value |
| OnTheFly.NextSample | fmc/MCSDK_v6.4.1-Full/MotorControl/MCSDK/MCLib/Any/Src/otf_sixstep.c:263-267 | the sample index advances cyclically mod BW |
| OnTheFly.SpeedReference | fmc/MCSDK_v6.4.1-Full/MotorControl/MCSDK/MCLib/Any/Src/otf_sixstep.c:359-373 | the speed reference factor·\|speed\|/65536 is a uint16_t value |
| OnTheFly.UniformMean | fmc/MCSDK_v6.4.1-Full/MotorControl/MCSDK/MCLib/Any/Src/otf_sixstep.c:251-262 | a window of equal samples averages to that sample |
| OnTheFly.DutyRoundTrip | fmc/MCSDK_v6.4.1-Full/MotorControl/MCSDK/MCLib/Any/Src/otf_sixstep.c:238-268 | the speed reference computed from a ratio learnt at the same speed gets the duty back, rounded down by at most one |
| OnTheFly.RoundTripBounds | fmc/MCSDK_v6.4.1-Full/MotorControl/MCSDK/MCLib/Any/Src/otf_sixstep.c:359-373 | a 16.16 product that brackets the duty gives it back within one count |
| OnTheFly.SensingThreshold | fmc/MCSDK_v6.4.1-Full/MotorControl/MCSDK/MCLib/Any/Src/otf_sixstep.c:88-89 | the sensing threshold programmed at Init is a uint16_t value |
| OnTheFly.OnTheFlyCtrl.constructor | fmc/MCSDK_v6.4.1-Full/MotorControl/MCSDK/MCLib/Any/Inc/otf_sixstep.h:60-81 | the handle with the configured prescaler, transition count, error budget, filter width, factor and buffer, not running |
| OnTheFly.OnTheFlyCtrl.Init | fmc/MCSDK_v6.4.1-Full/MotorControl/MCSDK/MCLib/Any/Src/otf_sixstep.c:80-109 | the threshold is programmed, the counter latched, the step set from the direction; OTFongoing is true, OTFabort false and BemfErrors 0 |
| OnTheFly.OnTheFlyCtrl.Clear | fmc/MCSDK_v6.4.1-Full/MotorControl/MCSDK/MCLib/Any/Src/otf_sixstep.c:120-135 | OTFongoing is false and the filter index is 0 |
| OnTheFly.OnTheFlyCtrl.SwitchOver | fmc/MCSDK_v6.4.1-Full/MotorControl/MCSDK/MCLib/Any/Src/otf_sixstep.c:343-357 | OTFongoing is false |
| OnTheFly.OnTheFlyCtrl.IsOngoing | fmc/MCSDK_v6.4.1-Full/MotorControl/MCSDK/MCLib/Any/Inc/otf_sixstep.h:109-112 | true exactly when the procedure is running |
| OnTheFly.OnTheFlyCtrl.IsAborted | fmc/MCSDK_v6.4.1-Full/MotorControl/MCSDK/MCLib/Any/Inc/otf_sixstep.h:119-122 | true exactly when the procedure was aborted |
| OnTheFly.OnTheFlyCtrl.Task | fmc/MCSDK_v6.4.1-Full/MotorControl/MCSDK/MCLib/Any/Src/otf_sixstep.c:137-227 | the new state and result are TaskSpec of the old state and the timer readings |
| OnTheFly.OnTheFlyCtrl.Measure | fmc/MCSDK_v6.4.1-Full/MotorControl/MCSDK/MCLib/Any/Src/otf_sixstep.c:146-167 | the period is BemfPeriod and the state becomes Measured |
| OnTheFly.OnTheFlyCtrl.Period | fmc/MCSDK_v6.4.1-Full/MotorControl/MCSDK/MCLib/Any/Src/otf_sixstep.c:146-156 | the period read from the timer is BemfPeriod |
| OnTheFly.OnTheFlyCtrl.Lock | fmc/MCSDK_v6.4.1-Full/MotorControl/MCSDK/MCLib/Any/Src/otf_sixstep.c:169-191 | the state becomes Locked |
| OnTheFly.OnTheFlyCtrl.Fill | fmc/MCSDK_v6.4.1-Full/MotorControl/MCSDK/MCLib/Any/Src/otf_sixstep.c:179-182 | the first SpeedBufferSize slots hold the period and the rest are unchanged |
| OnTheFly.OnTheFlyCtrl.UpdateDutyConv | fmc/MCSDK_v6.4.1-Full/MotorControl/MCSDK/MCLib/Any/Src/otf_sixstep.c:230-268 | at zero duty or zero speed nothing changes; otherwise the sample at the index becomes DutyRatio, the factor becomes WindowMean and the index advances mod BW |
| OnTheFly.OnTheFlyCtrl.WindowSum | fmc/MCSDK_v6.4.1-Full/MotorControl/MCSDK/MCLib/Any/Src/otf_sixstep.c:251-258 | the loop's accumulator is the uint32_t sum of the first BW samples |
| OnTheFly.OnTheFlyCtrl.CalcSpeedReference | fmc/MCSDK_v6.4.1-Full/MotorControl/MCSDK/MCLib/Any/Src/otf_sixstep.c:359-373 | the reference is SpeedReference of the stored factor and average speed, read without changing anything |
| BusVoltage.InitialAverage | fmc/MCSDK_v6.4.1-Full/MotorControl/MCSDK/MCLib/Any/Src/r_divider_bus_voltage_sensor.c:52-66 | the initial average is (OV + UV)/2, truncated, between the thresholds |
| BusVoltage.Filtered | fmc/MCSDK_v6.4.1-Full/MotorControl/MCSDK/MCLib/Any/Src/r_divider_bus_voltage_sensor.c:93-95 | one filter step avg += (raw − avg)>>8, with an arithmetic shift, stays a uint16_t value |
| BusVoltage.FilterSteps | fmc/MCSDK_v6.4.1-Full/MotorControl/MCSDK/MCLib/Any/Src/r_divider_bus_voltage_sensor.c:93-95 | the new average lies between the old one and the reading; it stays put 0..255 above the average, rises for readings 256 or more above it, and drops by at least one for any reading below it |
| BusVoltage.FilterRun | fmc/MCSDK_v6.4.1-Full/MotorControl/MCSDK/MCLib/Any/Src/r_divider_bus_voltage_sensor.c:93-95 | the average after k equal readings stays a uint16_t value |
| BusVoltage.FilterConverges | fmc/MCSDK_v6.4.1-Full/MotorControl/MCSDK/MCLib/Any/Src/r_divider_bus_voltage_sensor.c:93-95 | under a constant reading the average moves monotonically toward it and never overshoots |
| BusVoltage.SingleThreshold | fmc/MCSDK_v6.4.1-Full/MotorControl/MCSDK/MCLib/Any/Src/r_divider_bus_voltage_sensor.c:109-127 | in single-threshold mode: OVER exactly above OV, UNDER exactly below UV when not over, NO_ERROR otherwise, with the hysteresis flag untouched |
| BusVoltage.Hysteresis | fmc/MCSDK_v6.4.1-Full/MotorControl/MCSDK/MCLib/Any/Src/r_divider_bus_voltage_sensor.c:128-157 | in hysteresis mode UNDER takes precedence and keeps the flag; with UpDir false the result stays OVER until avg < OVLow, which sets UpDir; with UpDir true it stays NO_ERROR until avg > OV, which clears it |
| BusVoltage.CheckSettles | fmc/MCSDK_v6.4.1-Full/MotorControl/MCSDK/MCLib/Any/Src/r_divider_bus_voltage_sensor.c:109-157 | checking the same average again gives the same result and flag |
| BusVoltage.RDivider.constructor | fmc/MCSDK_v6.4.1-Full/MotorControl/MCSDK/MCLib/Any/Src/r_divider_bus_voltage_sensor.c:52-66 | the handle with the configured thresholds and flag, the average 0 and no fault |
| BusVoltage.RDivider.Init | fmc/MCSDK_v6.4.1-Full/MotorControl/MCSDK/MCLib/Any/Src/r_divider_bus_voltage_sensor.c:52-66 | AvBusVoltage_d becomes InitialAverage |
| BusVoltage.RDivider.CalcAvVbus | fmc/MCSDK_v6.4.1-Full/MotorControl/MCSDK/MCLib/Any/Src/r_divider_bus_voltage_sensor.c:74-101 | a reading of 0xFFFF changes nothing and returns 0; otherwise the average becomes Filtered, and the fault state and flag become FaultCheck of it, with the fault returned |
| BusVoltage.RDivider.CheckFaultState | fmc/MCSDK_v6.4.1-Full/MotorControl/MCSDK/MCLib/Any/Src/r_divider_bus_voltage_sensor.c:109-159 | the fault and the new flag are FaultCheck of the current average and the old flag |
| RegConvManager.NextIndex | fmc/Src/regular_conversion_manager.c:254-261 | the index after a read is (index+1) mod count |
| RegConvManager.IndexAfter | fmc/Src/regular_conversion_manager.c:254-261 | after any number of reads the index is below the count |
| RegConvManager.IndexAfterIsModular | fmc/Src/regular_conversion_manager.c:254-261 | after k reads the index has advanced by k mod count |
| RegConvManager.EachEntryServiced | fmc/Src/regular_conversion_manager.c:254-261 | every registered entry comes up once in every count consecutive reads |
| RegConvManager.RegConv.constructor | fmc/Inc/regular_conversion_manager.h:49-56 | a conversion with the given ADC, sampling time and channel, data and id 0 |
| RegConvManager.RegConv.GetRegularConv | fmc/Inc/regular_conversion_manager.h:75-82 | the stored data field, read without changes |
| RegConvManager.Rcm.constructor | fmc/Src/regular_conversion_manager.c:96-98 | an empty table with count and index 0 |
| RegConvManager.Rcm.RegisterRegConv | fmc/Src/regular_conversion_manager.c:122-176 | registration succeeds exactly when count < 4, storing the handle at slot count with id = count and incrementing count; a full table changes nothing; ids stay 0..count−1 in registration order |
| RegConvManager.Rcm.ExecNextConv | fmc/Src/regular_conversion_manager.c:198-230 | with nothing registered nothing starts; otherwise the current entry's channel is started |
| RegConvManager.Rcm.ExecRegularConv | fmc/Src/regular_conversion_manager.c:278-317 | the given channel is started and the data register is returned |
| RegConvManager.Rcm.ReadOngoingConv | fmc/Src/regular_conversion_manager.c:235-263 | with nothing registered nothing changes; otherwise only the current entry's data is updated, and only on end of conversion; the index then advances cyclically |
| Ring.Next | proje/firmware/FIRST_uart_dma_idle/Common/Src/ringbuf.c:3-8 | the index after i in a ring of n slots is (i+1) mod n, within 0..n−1 |
| Ring.MaskedNextIsNext | proje/Utils/ringbuf.c:9-14 | for a power-of-two size, (x+1) & mask is the same as the compare-and-reset next |
| Ring.MaskedDistance | proje/Utils/ringbuf.c:55-59 | (head − tail) & mask is the distance modulo the power-of-two size |
| Ring.WindowSize | proje/firmware/FIRST_uart_dma_idle/Common/Src/ringbuf.c:18-24 | the fill level computed either way equals the number of unread bytes: (head − tail) mod size, at most size − 1, zero exactly when head == tail |
| Ring.WindowFull | proje/firmware/FIRST_uart_dma_idle/Common/Src/ringbuf.c:29-31 | the ring counts as full (next(head) == tail) exactly when size − 1 bytes are unread |
| Ring.WindowPush | proje/firmware/FIRST_uart_dma_idle/Common/Src/ringbuf.c:32-33 | storing at head and advancing it appends the byte to the unread bytes |
| Ring.WindowPop | proje/firmware/FIRST_uart_dma_idle/Common/Src/ringbuf.c:42-44 | the byte at tail is the oldest unread byte, and advancing tail removes exactly it |
| Ring.WalkIsWindow | proje/firmware/FIRST_uart_dma_idle/Common/Src/ringbuf.c:38-47 | reading until empty yields the unread bytes in order |
| Ring.Accepted | proje/firmware/FIRST_uart_dma_idle/Common/Src/ringbuf.c:26-36 | a write keeps the longest prefix of the data that fits in the free slots |
| Ring.Taken | proje/firmware/FIRST_uart_dma_idle/Common/Src/ringbuf.c:38-47 | a read of up to len bytes takes the oldest min(len, fill) bytes |
| Ring.After | proje/firmware/FIRST_uart_dma_idle/Common/Src/ringbuf.c:26-47 | any run of writes and reads leaves at most size − 1 bytes queued |
| Ring.FifoConservation | proje/firmware/FIRST_uart_dma_idle/Common/Src/ringbuf.c:26-47 | over any run of writes and reads, the bytes read followed by those still queued are the initial bytes followed by all bytes accepted, in order |
| FifoRing.RingBuf.constructor | proje/firmware/FIRST_uart_dma_idle/Common/Src/ringbuf.c:10-16 | ringbuf_init adopts the buffer and size, with an empty queue |
| FifoRing.RingBuf.Available | proje/firmware/FIRST_uart_dma_idle/Common/Src/ringbuf.c:18-24 | the result is the number of unread bytes, (head − tail) mod size, at most size − 1 |
| FifoRing.RingBuf.Push | proje/firmware/FIRST_uart_dma_idle/Common/Src/ringbuf.c:30-33 | storing one byte when not full appends it to the contents |
| FifoRing.RingBuf.Pop | proje/firmware/FIRST_uart_dma_idle/Common/Src/ringbuf.c:42-44 | taking one byte when not empty returns the oldest and removes it |
| FifoRing.RingBuf.Write | proje/firmware/FIRST_uart_dma_idle/Common/Src/ringbuf.c:26-36 | the count written is min(len, free slots), and exactly those first bytes of the data are appended; unread bytes are never overwritten |
| FifoRing.RingBuf.Read | proje/firmware/FIRST_uart_dma_idle/Common/Src/ringbuf.c:38-47 | the count read is min(len, fill); the output starts with the oldest bytes, the rest of it is unchanged, and they leave the queue |
| MaskRing.RbNext | proje/Utils/ringbuf.c:11-14 | (x + 1) & RB_MASK is the index after x modulo RB_SIZE |
| MaskRing.RingBuf.constructor | proje/Utils/ringbuf.c:16-22 | an empty ring with a zero drop counter |
| MaskRing.RingBuf.Init | proje/Utils/ringbuf.c:16-22 | rb_init empties the ring and clears the drop counter |
| MaskRing.RingBuf.WriteIsr | proje/Utils/ringbuf.c:24-37 | returns 0 exactly when RB_SIZE − 1 bytes are queued, then counting a (wrapping uint32_t) drop and changing nothing else; otherwise appends the byte and returns 1 |
| MaskRing.RingBuf.Read | proje/Utils/ringbuf.c:39-48 | returns 0 exactly on an empty ring, leaving the output alone; otherwise returns 1 and the oldest byte, which leaves the ring |
| MaskRing.RingBuf.DropCount | proje/Utils/ringbuf.c:50-53 | the drop counter |
| MaskRing.RingBuf.Available | proje/Utils/ringbuf.c:55-59 | (head − tail) & RB_MASK is the number of unread bytes, below RB_SIZE |
| UartPlatform.UartRing.constructor | proje/Platform/platform_uart.c:16-22 | rb_init adopts the power-of-two memory, mask = cap − 1, empty |
| UartPlatform.UartRing.Reset | proje/Platform/platform_uart.c:16-22 | re-initialising the ring empties it |
| UartPlatform.UartRing.WriteByte | proje/Platform/platform_uart.c:24-32 | returns 0 exactly when cap − 1 bytes are queued (one slot kept free), changing nothing; otherwise returns 1 with the byte appended |
| UartPlatform.UartRing.ReadByte | proje/Platform/platform_uart.c:34-41 | returns 0 exactly on an empty ring, leaving the output alone; otherwise returns 1 and the oldest byte, which leaves the ring |
| UartPlatform.UartRing.Offer | proje/Platform/platform_uart.c:69-71 | one received byte is kept exactly when the ring has room; otherwise the drop counter goes up by one with uint32_t wrap-around |
| UartPlatform.UartRing.Absorb | proje/Platform/platform_uart.c:64-72 | every byte of the circular DMA window from the last position to the new one is offered in order; the ring receives the ones that fit and the drop count rises (wrapping) by the number refused |
| UartPlatform.UartRing.ReadInto | proje/Platform/platform_uart.c:113-118 | the chunk gets the min(64, fill) oldest bytes, which leave the ring |
| UartPlatform.FedIsAccepted | proje/Platform/platform_uart.c:64-72 | offering bytes one at a time keeps exactly the longest prefix that fits, and refuses the rest, which is what one bulk write would keep |
| UartPlatform.DmaPosition | proje/Platform/platform_uart.c:55-58 | UART_RX_DMA_SZ − counter lies in the DMA buffer |
| UartPlatform.PlatformUart.constructor | proje/Platform/platform_uart.c:43-95 | the statics' initial values over two distinct ring buffers: empty rings, no transfer, zero drop counters and position |
| UartPlatform.PlatformUart.Init | proje/Platform/platform_uart.c:149-164 | both rings become empty; when the DMA receive starts the result is 0 and the poll position is the current DMA position, otherwise −1 with the position kept |
| UartPlatform.PlatformUart.RxPoll | proje/Platform/platform_uart.c:60-73 | every byte the DMA wrote since the last poll, in order, is appended to the receive ring as far as it fits; the drop counter rises (wrapping) by the rest; the position becomes the DMA position; the transmit ring's bytes are unchanged
| UartPlatform.PlatformUart.ReadByte | proje/Platform/platform_uart.c:75-79 | the oldest received byte and 1, or 0 when nothing is queued |
| UartPlatform.PlatformUart.RxDropCount | proje/Platform/platform_uart.c:81-84 | the receive drop counter |
| UartPlatform.PlatformUart.TxDropCount | proje/Platform/platform_uart.c:97-100 | the transmit drop counter |
| UartPlatform.PlatformUart.TxKick | proje/Platform/platform_uart.c:109-125 | while a transfer is under way nothing happens; otherwise the min(64, fill) oldest bytes move into the chunk and the busy flag is set exactly when the chunk is non-empty and the HAL accepts it |; the receive ring is unchanged
| UartPlatform.PlatformUart.TxQueue | proje/Platform/platform_uart.c:133-141 | the longest prefix of the data that fits is appended and its length returned; one drop is counted (wrapping) when some bytes did not fit; the receive ring is unchanged |
| UartPlatform.PlatformUart.Write | proje/Platform/platform_uart.c:127-145 | an empty write returns 0 and leaves the queue, counter, busy flag and chunk alone; otherwise the fitting prefix is queued and counted, one drop is recorded when bytes were left, the first chunk of the queue is handed to the transmitter unless it was busy, and the flag ends busy if it was or the new chunk started; the receive ring is unchanged |
| UartPlatform.PlatformUart.TxComplete | proje/Platform/platform_uart.c:166-172 | on transfer complete the next chunk of up to 64 oldest bytes is sent and the busy flag reflects whether it started |; the receive ring is unchanged
| UtilsCli.WordEnd | proje/Utils/cli.c:55 | the word scan stops at the first space or the end, and moves when it starts on a non-space |
| UtilsCli.WordsAreWords | proje/Utils/cli.c:49-57 | every token is non-empty and holds no space |
| UtilsCli.BlankHasNoWords | proje/Utils/cli.c:49-58 | a line of spaces yields no tokens |
| UtilsCli.SingleWord | proje/Utils/cli.c:49-57 | a non-empty line without spaces is one token |
| UtilsCli.SkipSpaces | proje/Utils/cli.c:51 | skipping spaces stops at a non-space or the end and loses no token |
| UtilsCli.ScanWord | proje/Utils/cli.c:55 | the in-place scan stops where WordEnd does |
| UtilsCli.Tokenize | proje/Utils/cli.c:43-57 | argv is the first eight space-separated words of the line, and the only change to the line is a NUL written over the space after each word taken |
| UtilsCli.FirstFromIsFirst | proje/Utils/cli.c:60-65 | the command search finds the first entry with the name, and finds none exactly when no entry has it |
| UtilsCli.DispatchMeaning | proje/Utils/cli.c:43-68 | a blank line does nothing; otherwise the first registered command named by the first word runs with the first eight words, and the line is unknown exactly when no command has that name |
| UtilsCli.Cli.constructor | proje/Utils/cli.c:26-30 | no commands and an empty line |
| UtilsCli.Cli.Init | proje/Utils/cli.c:70-77 | cli_init: no commands, s_len 0 and a zeroed line buffer |
| UtilsCli.Cli.Register | proje/Utils/cli.c:79-89 | −2 exactly when an argument is null, −1 exactly when all are given and the table holds CLI_CMD_MAX commands, otherwise 0 with the command appended; failures change nothing |
| UtilsCli.Cli.ExecLine | proje/Utils/cli.c:43-68 | the outcome is dispatching the line's words over the registered commands |
| UtilsCli.Cli.Feed | proje/Utils/cli.c:91-115 | CR or LF dispatches the line and clears it, zeroing the buffer; backspace or DEL drops the last character if any; a printable byte is appended while s_len + 1 < CLI_LINE_MAX; any other byte changes nothing; commands are untouched |
| PlatCli.RxByte | fmc/STM32CubeIDE/plat/cli.c:452-477 | a received byte keeps the line state well formed (length within the buffer) |
| PlatCli.InitialLine | fmc/STM32CubeIDE/plat/cli.c:452-477 | the static line starts empty, NUL-terminated and not ready |
| PlatCli.RxByteMeaning | fmc/STM32CubeIDE/plat/cli.c:452-477 | typed characters stay printable; CR or LF marks the line ready exactly when something was typed (or it was ready); backspace and DEL shorten a non-empty line without touching the buffer; other control bytes and bytes above 0x7E are ignored; a printable byte is appended and terminated while it fits and otherwise discards the line |
| PlatCli.CopiedLine | fmc/STM32CubeIDE/plat/cli.c:784-797 | the copied command begins with the typed characters and is exactly them when the NUL sits at linelen |
| PlatCli.BackspaceKeepsErased | fmc/STM32CubeIDE/plat/cli.c:458-461 | backspace only moves linelen: a character typed then erased is still in the command copied at the next CR or LF |
| PlatCli.LineBuffer.State | fmc/STM32CubeIDE/plat/cli.c:452-477 | the buffer's abstract state is well formed |
| PlatCli.LineBuffer.constructor | fmc/STM32CubeIDE/plat/cli.c:452-477 | the zero-initialised static buffer is InitialLine |
| PlatCli.LineBuffer.OnRxByte | fmc/STM32CubeIDE/plat/cli.c:452-477 | the in-place update is RxByte of the old state |
| PlatCli.LineBuffer.Poll | fmc/STM32CubeIDE/plat/cli.c:784-797 | without a ready line nothing happens; with one, the strncpy copy of the buffer is returned, the flag cleared and linelen reset, the buffer untouched |
| PlatCli.MovingAverageFits | fmc/STM32CubeIDE/plat/cli.c:271-289 | the average of int16_t samples is an int16_t, so the saturation never changes it |
| PlatCli.ConstantResponse | fmc/STM32CubeIDE/plat/cli.c:271-289 | for a constant input c, output i is ((i+1)·c) >> 5 while the 32-tap window fills, and c from output 31 on |
| PlatCli.ImpulseResponse | fmc/STM32CubeIDE/plat/cli.c:271-289 | for an impulse of 16384 the output is 512 for the first 32 samples and 0 after |
| PlatCli.FirSoftQ15Ma32 | fmc/STM32CubeIDE/plat/cli.c:271-289 | y[i] is the saturated 32-tap moving average of x at i for i < n; the rest of y is untouched |
| PlatCli.LcgNext | fmc/STM32CubeIDE/plat/cli.c:260 | the generator step 1664525·s + 1013904223 is a uint32_t value |
| PlatCli.LcgIterAdd | fmc/STM32CubeIDE/plat/cli.c:256-263 | stepping k then m times is stepping k + m times |
| PlatCli.PrngSampleRange | fmc/STM32CubeIDE/plat/cli.c:257-263 | the sample is the state's bits 17..31 shifted to [−16384, 16383], and both ends are reached |
| PlatCli.Bench.constructor | fmc/STM32CubeIDE/plat/cli.c:252-256 | seed 1 and zeroed buffers |
| PlatCli.Bench.PrngQ15 | fmc/STM32CubeIDE/plat/cli.c:257-263 | the state takes one generator step and the sample of the new state, in [−16384, 16383], is returned |
| PlatCli.Bench.GenInput | fmc/STM32CubeIDE/plat/cli.c:265-269 | the first min(n, 5000) inputs get successive generator samples, the state advances that many steps, and the rest of the input is untouched |
| PlatCli.Bench.BenchSoftFir | fmc/STM32CubeIDE/plat/cli.c:291-297 | the first n outputs are the moving average of the input; the rest is untouched |
| PlatCli.Bench.FmacDbgConstant | fmc/STM32CubeIDE/plat/cli.c:691-699 | 64 inputs of 1000 give outputs ((i+1)·1000) >> 5 for i < 31 and 1000 after |
| PlatCli.Bench.FmacDbgImpulse | fmc/STM32CubeIDE/plat/cli.c:710-715 | an impulse of 16384 then 63 zeros gives outputs 512 for i < 32 and 0 after |
| PlatCli.DumpCount | fmc/STM32CubeIDE/plat/cli.c:560-569 | adcdump lists min(arg or 32 when 0, 256, log index) entries |
| PlatCli.DumpSlot | fmc/STM32CubeIDE/plat/cli.c:575-576 | each listed slot (end − n + i) mod 256 lies in the log |
| PlatCli.AdcDump | fmc/STM32CubeIDE/plat/cli.c:560-580 | the listed rows are DumpCount many, row i being the log slot DumpSlot of i |
| PlatCli.DumpIsLatest | fmc/STM32CubeIDE/plat/cli.c:560-580 | after a reset and fewer than 2^32 feeds, the dump lists exactly the last n samples fed, oldest first |
| FmacRt.RawQ15 | fmc/STM32CubeIDE/plat/fmac_rt.c:110 | ((adc − 2048) << 4) cast to int16_t is an int16_t |
| FmacRt.RawQ15Range | fmc/STM32CubeIDE/plat/fmac_rt.c:107-110 | a 12-bit reading never wraps: it maps to 16·(adc − 2048) between −32768 and 32752, monotone, 0 at mid-scale |
| FmacRt.Column | fmc/STM32CubeIDE/plat/fmac_rt.c:125-128 | one field of every sample, in order |
| FmacRt.SettledCounts | fmc/STM32CubeIDE/plat/fmac_rt.c:121-124 | after a reset and N < 2^32 feeds, count is N and valid_count is the number past the settle samples; before that only count moved |
| FmacRt.SettledSums | fmc/STM32CubeIDE/plat/fmac_rt.c:121-128 | after a reset the four sums are those of the settled samples only |
| FmacRt.SettledBounds | fmc/STM32CubeIDE/plat/fmac_rt.c:130-133 | after a reset the minima and maxima bound every settled sample |
| FmacRt.Logged | fmc/STM32CubeIDE/plat/fmac_rt.c:136-140 | the log stays 256 entries after any feeds |
| FmacRt.LogHoldsLatest | fmc/STM32CubeIDE/plat/fmac_rt.c:136-140 | the log holds the last 256 samples fed: feed j sits at slot (idx + j) mod 256, with the uint32_t index wrap |
| FmacRt.FmacRt.constructor | fmc/STM32CubeIDE/plat/fmac_rt.c:27-33 | the zero-initialised statics |
| FmacRt.FmacRt.Init | fmc/STM32CubeIDE/plat/fmac_rt.c:80-91 | fresh statistics, log index 0, inactive |
| FmacRt.FmacRt.Feed | fmc/STM32CubeIDE/plat/fmac_rt.c:107-143 | the filter output is returned, the statistics take one Counted step, the sample goes to slot log_idx mod 256 and the index advances with uint32_t wrap |
| FmacRt.FmacRt.UpdateStats | fmc/STM32CubeIDE/plat/fmac_rt.c:121-134 | the statistics take one Counted step |
| FmacRt.FmacRt.GetStats | fmc/STM32CubeIDE/plat/fmac_rt.c:151-158 | a copy of the statistics |
| FmacRt.FmacRt.ResetStats | fmc/STM32CubeIDE/plat/fmac_rt.c:160-170 | the statistics become zero with min 32767 and max −32768, and the log index 0 |
| FmacRt.FmacRt.SetActive | fmc/STM32CubeIDE/plat/fmac_rt.c:172-177 | the flag is 1 exactly when the argument is non-zero |
| FmacRt.FmacRt.IsActive | fmc/STM32CubeIDE/plat/fmac_rt.c:179-182 | the active flag |
| PwmControl.Clampi | PWM_git/Core/Src/main.c:18-22 | the value below lo gives lo, above hi gives hi, in range itself, and with lo <= hi the result is within [lo, hi] |
| PwmControl.ParseNum2 | PWM_git/Core/Src/main.c:47-51 | succeeds exactly when the first two characters are digits, with their decimal value 0..99 |
| PwmControl.ParseNum4 | PWM_git/Core/Src/main.c:52-57 | succeeds exactly when the first four characters are digits, with their decimal value 0..9999 |
| PwmControl.TickMeaning | PWM_git/Core/Src/main.c:60-103 | the tick keeps the bounds; outside RUN the output is 0 and nothing else changes; open-loop RUN outputs the duty command; closed-loop RUN outputs the new duty command, within 5..95, leaving the state and target alone |
| PwmControl.IntegratorMoves | PWM_git/Core/Src/main.c:60-103 | the integrator stays within ±4095·8, moves by at most the error in its direction, and is held when the anti-windup condition freezes it |
| PwmControl.DutyFollowsError | PWM_git/Core/Src/main.c:60-103 | the duty does not fall when the error and integrator are non-negative, does not rise when both are non-positive, and stays with zero error and an empty integrator |
| PwmControl.CommandMeaning | PWM_git/Core/Src/main.c:107-145 | commands keep the bounds and never fault: c/C/k/K go idle with output 0; e/E run exactly when armed (or already running); dXX sets the open-loop duty to XX clamped to 5..95 and tXXXX the closed-loop target to min(XXXX, 4095), each then trying to run; malformed numbers change nothing |
| PwmControl.CommandBounded | PWM_git/Core/Src/main.c:107-145 | every command keeps the controller's bounds |
| PwmControl.Controller.constructor | PWM_git/Core/Src/main.c:26-39 | the statics' initial values with the 10 % boot duty |
| PwmControl.Controller.ControlTick | PWM_git/Core/Src/main.c:60-103 | the in-place tick is Tick of the old state |
| PwmControl.Controller.TimerElapsed | PWM_git/Core/Src/main.c:167-172 | a TIM4 update advances the millisecond count (wrapping) and runs the tick; other timers change nothing |
| PwmControl.Controller.EnterIdle | PWM_git/Core/Src/main.c:42 | the state becomes IDLE with the output at 0 |
| PwmControl.Controller.EnterRunning | PWM_git/Core/Src/main.c:43 | the state becomes RUN exactly when armed and not faulted |
| PwmControl.Controller.ProcessCommandLine | PWM_git/Core/Src/main.c:107-145 | the in-place command handling is Command of the old state |
| PwmControl.Controller.UartPollCmd | PWM_git/Core/Src/main.c:147-164 | no byte changes nothing; CR or LF runs a non-empty pending line as a C string and starts a new one; any other byte is stored while fewer than 31 are pending, and otherwise discards the line |
| CText.CStr | PWM_git/Core/Src/main.c:147-164 | a C string is the buffer's characters up to the first NUL, which holds no NUL and is followed by one when shorter than the buffer |
| CText.CStrPrefix | PWM_git/Core/Src/main.c:147-164 | a buffer whose first n characters are not NUL starts with them as a string |
| CText.CStrCut | PWM_git/Core/Src/main.c:147-164 | cutting the buffer at a NUL keeps its string |
| CText.CStrTerminated | PWM_git/Core/Src/main.c:147-164 | a NUL-free run followed by a NUL is the buffer's string |
| CText.DecimalBound | PWM_git/Core/Src/main.c:47-57 | n digits make a number below 10^n |
| CText.DecimalDigits | PWM_git/Core/Src/main.c:47-57 | the value of two and four digits, written out by place |
| CText.Strlen | proje/firmware/FIRST_uart_dma_idle/App/Src/app_cli.c:33-39 | the position of the first NUL, before which no character is NUL, as trim measures the string and its remainder |
| AppCli.TrimEnd | proje/firmware/FIRST_uart_dma_idle/App/Src/app_cli.c:33-34 | the string less a suffix made only of blanks (space, tab), ending in a non-blank unless empty |
| AppCli.TrimStart | proje/firmware/FIRST_uart_dma_idle/App/Src/app_cli.c:37-39 | the string less a prefix made only of blanks, starting with a non-blank unless empty |
| AppCli.TrimmedShape | proje/firmware/FIRST_uart_dma_idle/App/Src/app_cli.c:30-40 | the trimmed string is a slice of the original with only blanks cut from either side, and has no blank at either end |
| AppCli.TrimmedFixed | proje/firmware/FIRST_uart_dma_idle/App/Src/app_cli.c:30-40 | a string without a blank at either end is its own trim |
| AppCli.TrimIdempotent | proje/firmware/FIRST_uart_dma_idle/App/Src/app_cli.c:30-40 | trimming twice is trimming once |
| AppCli.TrimmedNoNul | proje/firmware/FIRST_uart_dma_idle/App/Src/app_cli.c:30-40 | trimming a C string leaves no NUL inside it |
| AppCli.TrimTrailing | proje/firmware/FIRST_uart_dma_idle/App/Src/app_cli.c:33-34 | the in-place loop leaves TrimEnd of the string before a NUL |
| AppCli.LeadingBlanks | proje/firmware/FIRST_uart_dma_idle/App/Src/app_cli.c:37-38 | the scan counts exactly the leading blanks |
| AppCli.MoveLeft | proje/firmware/FIRST_uart_dma_idle/App/Src/app_cli.c:39 | memmove moves the rest of the string and its NUL to the front |
| AppCli.ShiftOutLeading | proje/firmware/FIRST_uart_dma_idle/App/Src/app_cli.c:37-39 | the buffer starts with TrimStart of the string, then a NUL |
| AppCli.Trim | proje/firmware/FIRST_uart_dma_idle/App/Src/app_cli.c:30-40 | the buffer afterwards holds the trimmed C string followed by a NUL |
| AppCli.SkipSpace | proje/firmware/FIRST_uart_dma_idle/App/Src/app_cli.c:94 | atoi skips a prefix of white space, stopping at a non-space |
| AppCli.LeadingDigits | proje/firmware/FIRST_uart_dma_idle/App/Src/app_cli.c:94 | the longest prefix of decimal digits |
| AppCli.SatInt | proje/firmware/FIRST_uart_dma_idle/App/Src/app_cli.c:94 | the saturation is an int and leaves int values alone |
| AppCli.LeadingDigitsAll | proje/firmware/FIRST_uart_dma_idle/App/Src/app_cli.c:94 | a string of digits is its own digit prefix |
| AppCli.AtoiDigits | proje/firmware/FIRST_uart_dma_idle/App/Src/app_cli.c:94 | a string of digits reads as its decimal value, capped at INT_MAX |
| AppCli.DutyArg | proje/firmware/FIRST_uart_dma_idle/App/Src/app_cli.c:95-96 | the pwm value clamped to 0..999 |
| AppCli.PwmCommand | proje/firmware/FIRST_uart_dma_idle/App/Src/app_cli.c:93-100 | "pwm " followed by anything sends exactly one duty: DutyArg of atoi of the rest |
| AppCli.PwmDigits | proje/firmware/FIRST_uart_dma_idle/App/Src/app_cli.c:93-100 | "pwm " and digits sends one duty command of min(value, 999) |
| AppCli.ParseWords | proje/firmware/FIRST_uart_dma_idle/App/Src/app_cli.c:64-110 | each exact command word maps to its command; "save" (named by help) and a bare "pwm" are unknown |
| AppCli.SendInRange | proje/firmware/FIRST_uart_dma_idle/App/Src/app_cli.c:75-109 | every duty sent is at most 999 and every enable 0 or 1, and no command sends more than five messages |
| AppCli.HandleLine | proje/firmware/FIRST_uart_dma_idle/App/Src/app_cli.c:64-110 | the line is trimmed in place and the messages sent are those of the trimmed line's command |
| AppCli.SentAppend | proje/firmware/FIRST_uart_dma_idle/App/Src/app_cli.c:123-147 | the messages of two runs of lines are those of each run in turn |
| AppCli.KeysBounded | proje/firmware/FIRST_uart_dma_idle/App/Src/app_cli.c:141-146 | the pending line never grows past 63 characters |
| AppCli.TypedLine | proje/firmware/FIRST_uart_dma_idle/App/Src/app_cli.c:133-146 | ordinary characters that fit followed by CR or LF complete exactly the typed line and leave the line empty |
| AppCli.FullLineDrops | proje/firmware/FIRST_uart_dma_idle/App/Src/app_cli.c:144-146 | on a full line ordinary bytes are dropped and the line is kept |
| AppCli.CliTask.constructor | proje/firmware/FIRST_uart_dma_idle/App/Src/app_cli.c:11-13 | an empty line |
| AppCli.CliTask.OnByte | proje/firmware/FIRST_uart_dma_idle/App/Src/app_cli.c:128-146 | one byte updates the pending line as Key does and sends the messages of any completed line |
| AppCli.CliTask.OnBytes | proje/firmware/FIRST_uart_dma_idle/App/Src/app_cli.c:125-147 | the bytes of one read are handled first to last: the pending line and the messages sent are those of the whole run |
| AppCli.Chars | proje/firmware/FIRST_uart_dma_idle/App/Src/app_cli.c:128 | each byte read becomes the character of the same code |
| AppCli.RunStep | proje/firmware/FIRST_uart_dma_idle/App/Src/app_cli.c:126-147 | handling one more byte keeps the loop's account of the run |
| AppMain.HandleCmdMeaning | proje/App/app_main.c:21-38 | an empty command logs nothing; "help" logs the help and "status" the uptime, each exactly for that word; anything else is reported unknown |
| AppMain.CatchUp | proje/App/app_main.c:50-56 | with the tick k seconds or more past the last beat, k calls advance uptime by k and the last beat by k seconds, both wrapping as uint32_t |
| AppMain.BeatStep | proje/App/app_main.c:52-54 | one more due beat after j caught-up ones advances both counters once more |
| AppMain.Bump | proje/App/app_main.c:53-54 | adding to a wrapped counter wraps like adding to the unwrapped value |
| AppMain.CaughtUp | proje/App/app_main.c:50-56 | after k due beats the gap to the tick is k seconds smaller |
| AppMain.Fires | proje/App/app_main.c:52-55 | a beat is due when 1000 ms or more (unsigned difference) have passed, and it advances uptime and the last beat |
| AppMain.Gap | proje/App/app_main.c:52-53 | moving the last beat k seconds forward shrinks the unsigned gap by k seconds |
| AppMain.StripSpaces | proje/App/app_main.c:64-67 | the line less its trailing spaces, tabs kept |
| AppMain.StripIdempotent | proje/App/app_main.c:64-67 | stripping twice is stripping once |
| AppMain.RxCharMeaning | proje/App/app_main.c:61-78 | the pending line stays within 63 characters; CR or LF empties it; any other byte on a full line empties it and warns of the overflow |
| AppMain.TypedCommand | proje/App/app_main.c:61-78 | a line that fits, then CR or LF, runs the line without its trailing spaces and leaves the line empty |
| AppMain.App.constructor | proje/App/app_main.c:14-19 | zero uptime and last beat, empty line |
| AppMain.App.AppInit | proje/App/app_main.c:40-46 | the heartbeat starts from the current tick |
| AppMain.App.Beat1 | proje/App/app_main.c:50-56 | the in-place heartbeat is Heartbeat of the old state |
| AppMain.App.StripLine | proje/App/app_main.c:63-67 | the buffer holds the line without trailing spaces, NUL-terminated |
| AppMain.App.Rx | proje/App/app_main.c:61-78 | the in-place byte handling is RxChar of the old line |
| AppMain.App.AppLoop | proje/App/app_main.c:48-83 | one pass runs the heartbeat and, when a byte arrived, handles it with the new uptime |
| Breathe.StepMeaning | proje/firmware/FIRST_uart_dma_idle/App/Src/app_breathe.c:71-78 | a step lands in 0..999, keeps a unit direction, moves by 5 away from the bounds and turns at them |
| Breathe.SetDutyMeaning | proje/firmware/FIRST_uart_dma_idle/App/Src/app_breathe.c:59-66 | a duty command clamps to 999, turns breathing off and writes the duty to the PWM; no step follows |
| Breathe.SetEnableMeaning | proje/firmware/FIRST_uart_dma_idle/App/Src/app_breathe.c:56-58 | an enable command sets the flag to value != 0; enabling steps in the same pass, disabling changes nothing else |
| Breathe.IterationKeeps | proje/firmware/FIRST_uart_dma_idle/App/Src/app_breathe.c:44-79 | a pass keeps a unit direction and a 16-bit duty, a duty in 0..999 stays there, and a changed duty is written to the PWM |
| Breathe.StepsAdd | proje/firmware/FIRST_uart_dma_idle/App/Src/app_breathe.c:71-78 | k then m steps are k + m steps |
| Breathe.Rising | proje/firmware/FIRST_uart_dma_idle/App/Src/app_breathe.c:71-78 | from the bottom, k <= 199 steps climb by 5 each |
| Breathe.Falling | proje/firmware/FIRST_uart_dma_idle/App/Src/app_breathe.c:71-78 | from the top, j <= 199 steps fall by 5 each |
| Breathe.BreathePeriod | proje/firmware/FIRST_uart_dma_idle/App/Src/app_breathe.c:71-78 | 200 steps from the bottom reach 999 turned down, and 200 more return to 0 turned up |
| Breathe.BreatheTask.constructor | proje/firmware/FIRST_uart_dma_idle/App/Src/app_breathe.c:6-7 | the statics start at duty 0, enabled, direction up |
| Breathe.BreatheTask.Init | proje/firmware/FIRST_uart_dma_idle/App/Src/app_breathe.c:12-17 | both values are stored unclamped and the duty is written to the PWM |
| Breathe.BreatheTask.GetDuty | proje/firmware/FIRST_uart_dma_idle/App/Src/app_breathe.c:30 | the stored duty |
| Breathe.BreatheTask.GetEnable | proje/firmware/FIRST_uart_dma_idle/App/Src/app_breathe.c:31 | the stored enable flag |
| Breathe.BreatheTask.Iterate | proje/firmware/FIRST_uart_dma_idle/App/Src/app_breathe.c:44-79 | the in-place pass is Iteration of the old state |
| Sweep.StepInRange | FOC_F411_Base/FOC_F411_Base/App/app_main.c:37-39 | the step keeps the duty in 0..100 with a unit direction, moves by one inside and turns at each end |
| Sweep.OffsetsInRange | FOC_F411_Base/FOC_F411_Base/App/app_main.c:42-44 | channels 2 and 3 lie in 1..100 and are the duty shifted by 33 and 66 modulo 100 |
| Sweep.SweepsAdd | FOC_F411_Base/FOC_F411_Base/App/app_main.c:37-39 | k then m steps are k + m steps |
| Sweep.Up | FOC_F411_Base/FOC_F411_Base/App/app_main.c:37-39 | from 0 going up, k <= 99 steps reach k |
| Sweep.Down | FOC_F411_Base/FOC_F411_Base/App/app_main.c:37-39 | from 100 going down, k <= 99 steps reach 100 − k |
| Sweep.SweepPeriod | FOC_F411_Base/FOC_F411_Base/App/app_main.c:37-39 | 100 steps from 0 reach 100 turned down, and 100 more return to 0 turned up |
| Sweep.LoopKeeps | FOC_F411_Base/FOC_F411_Base/App/app_main.c:31-49 | the loop keeps the triangle and all three channels in range, and before 10 ms (unsigned difference) have passed changes nothing |
| Sweep.SweepApp.constructor | FOC_F411_Base/FOC_F411_Base/App/app_main.c:11-13 | the statics' initial values |
| Sweep.SweepApp.AppInit | FOC_F411_Base/FOC_F411_Base/App/app_main.c:25-28 | all three channels start at 0 percent |
| Sweep.SweepApp.AppLoop | FOC_F411_Base/FOC_F411_Base/App/app_main.c:31-49 | the in-place loop is Loop of the old state |
| TempAdc.VsenseMv | proje/Platform/platform_adc.c:50 | raw·3300/4095 truncated: the largest v with v·4095 <= raw·3300 |
| TempAdc.TempC10 | proje/Platform/platform_adc.c:55-56 | the value stored is an int16_t |
| TempAdc.VsenseMono | proje/Platform/platform_adc.c:50 | Vsense never decreases as raw grows |
| TempAdc.TempRange | proje/Platform/platform_adc.c:50-56 | for 12-bit readings the int16_t cast changes nothing, the result lies in −2790..10410, and 944 (760 mV) reads 25.0 °C |
| TempAdc.TempMono | proje/Platform/platform_adc.c:50-56 | the temperature never decreases as raw grows within 12 bits |
| TempAdc.AdcPort.constructor | proje/Platform/platform_adc.c:9 | no ADC handle bound |
| TempAdc.AdcPort.Bind | proje/Platform/platform_adc.c:11-14 | the handle is bound as given |
| TempAdc.AdcPort.AdcReadOnce | proje/Platform/platform_adc.c:16-36 | 0 exactly when an output and a handle are given and the conversion completes, storing the value; −1 otherwise with the output untouched |
| TempAdc.AdcPort.TempReadC10 | proje/Platform/platform_adc.c:38-58 | 0 exactly when an output and a handle are given and the conversion completes, storing TempC10 of the reading; −1 otherwise with the output untouched |
| CInt.U8 | fmc/MCSDK_v6.4.1-Full/MotorControl/MCSDK/MCLib/Any/Src/revup_ctrl_sixstep.c:234 | conversion to uint8_t is the unique value 0..255 congruent modulo 2^8, and leaves uint8_t values alone |
| CInt.U16 | proje/firmware/FIRST_uart_dma_idle/App/Src/app_breathe.c:76 | conversion to uint16_t is the unique value 0..65535 congruent modulo 2^16, and leaves uint16_t values alone |
| CInt.U32 | proje/App/app_main.c:52 | uint32_t arithmetic is the unique value 0..2^32−1 congruent modulo 2^32, and leaves uint32_t values alone |
| CInt.I8 | fmc/MCSDK_v6.4.1-Full/MotorControl/MCSDK/MCLib/Any/Src/revup_ctrl_sixstep.c:114 | conversion to int8_t is the two's-complement value congruent modulo 2^8, and leaves int8_t values alone |
| CInt.I16 | proje/Platform/platform_adc.c:56 | conversion to int16_t is the two's-complement value congruent modulo 2^16, and leaves int16_t values alone |
| CInt.I32 | fmc/MCSDK_v6.4.1-Full/MotorControl/MCSDK/MCLib/Any/Src/revup_ctrl_sixstep.c:251-252 | conversion to int32_t is the two's-complement value congruent modulo 2^32, and leaves int32_t values alone |
| CInt.CDiv | fmc/MCSDK_v6.4.1-Full/MotorControl/MCSDK/MCLib/Any/Src/ipd_sixstep.c:298 | C's signed division truncates toward zero: it is Euclidean division for non-negative operands and never exceeds the dividend in size |
| CInt.SDiv32 | fmc/MCSDK_v6.4.1-Full/MotorControl/MCSDK/MCLib/Any/Src/revup_ctrl_sixstep.c:251-252 | the Cortex-M signed division gives an int32_t, 0 for a zero divisor, and C's quotient whenever that fits |
| CInt.UDiv | fmc/MCSDK_v6.4.1-Full/MotorControl/MCSDK/MCLib/Any/Src/revup_ctrl_sixstep.c:230 | the Cortex-M unsigned division gives the floor quotient, 0 for a zero divisor |
| CInt.Asr | fmc/MCSDK_v6.4.1-Full/MotorControl/MCSDK/MCLib/Any/Src/r_divider_bus_voltage_sensor.c:93 | a right shift of a signed value rounds toward minus infinity |

## Left out

- Hardware is not modelled: register programming, GPIO and timer set-up, DMA, ADC and FMAC peripherals. Each register read becomes a method parameter. This covers the Hall timer set-up and the phase-shift compare, `OTF_6S_TurnOnLowSides`/`Brake` and the switch-over register writes, the IPD one-pulse sequence, and the FMAC configuration and restart.
- `RCM_WaitForConv` and the ADC calibration of the regular-conversion manager are left out: they are busy-wait loops on the end-of-conversion flag and change no state.
- The ICS current-sensing driver is left out: it is register-level configuration.
- Components whose source is not part of this model appear only as parameters or returned commands: `BADC_*` (including its speed-buffer sizing), `SDC_*`, `VBS_GetAvBusVoltage_*` and `PWMC_*`. The same holds for the fault codes of `mc_type.h`; the values OVER_VOLT = 2 and UNDER_VOLT = 4 are assumed.
- Serial output, logging and echo are left out: `LOGI`/`LOGW`, `cli_puts`, `cli_printf`, the help and status text, the prompt, and the fmacdbg and adcdump prints. Commands that print are modelled by which message they choose (`Log` values, `Outcome`), not by the characters sent.
- Concurrency is not modelled: interrupt masking (`__disable_irq`), `volatile`, and the interrupt priorities between the Hall capture and overflow handlers. Handlers are sequential methods.
- The RTOS is not modelled: queues, `osDelay` and the task loops. One iteration of each task loop is modelled, with the received message as a parameter. `App_Breathe_SendCmd` is the list of messages a command sends; a message dropped by a full queue is not modelled.
- Boot code is left out: `main`, `SystemClock_Config`, `Error_Handler`, and the forever-loops around each modelled iteration.
- Floating point is left out: the CORDIC and `sinf` benchmarks, `fmaccmp`, the `adcstat` means and variance ratio, and the float unit conversions. So are the DWT cycle counter around the benchmarks and every `exec_cmd` command other than the software halves of `adcdump` and `fmacdbg`.
- The 64-bit sums of the FMAC statistics are unbounded integers: an `int64_t` overflow would need more than 2^32 feeds. The 32-bit `count` is proved exact only for fewer than 2^32 feeds since a reset.
- `strtoul` in adcdump is a parameter (the value it read, 0 when there is none).
- `atoi` in the pwm command saturates at `INT_MAX`/`INT_MIN` in this model; C leaves overflow undefined.
- "save" is listed by the help text of `app_cli.c` but has no handler, so it is the unknown command (`AppCli.ParseWords`).
- Null pointers are not modelled: the null handle and null output guards of the ring buffers, `platform_uart_read_byte`(NULL) and `platform_uart_write`(NULL) return 0 in C. Dafny references are non-null, except the output pointers of `platform_adc.c`, which are modelled as `array?`.
- The HAL calls inside `adc_read_once` (configure, start, poll with a 10 ms timeout, stop) are one parameter: the value read, or none when any step fails. The channel and sampling-time arguments are not modelled.
- UartPlatform.PlatformUart.RxPoll: the DMA counter is required to be 1..256. A counter of 0 would give position 256, and the C loop would not end; circular DMA reloads the counter before it reads 0.
- `HAL_UART_ErrorCallback` only clears the overrun flag, which is a register write, and is left out.
- TempAdc.TempC10: for a raw value above 4095 the `int16_t` cast is modelled as two's-complement wrap-around. The range lemma covers 12-bit readings only, which is all the ADC delivers.
- RevUp.RevUpCtrl.Exec requires a current phase whenever the countdown is 0 past stage 0. The C code dereferences a null pointer in that state, which is the call after `RUC_6S_Exec` returned false.
- RevUp.RevUpCtrl.Clear keeps `bPhaseNbr` forced to 1 and leaves `CurrentSpeedRefUnit` unchanged, as the source does.
- HallFeedback: `HALL_Clear` sets `SensorIsReliable`, but the state read that follows overwrites it, as the source does. After a reset the flag is true only when the sector moved one step in the current direction.

## Findings

| source | as written | input that shows it | evidently intended | confidence | as-written member | corrected member |
|---|---|---|---|---|---|---|
| fmc/MCSDK_v6.4.1-Full/MotorControl/MCSDK/MCLib/Any/Src/revup_ctrl_sixstep.c:229-230 | the per-tick increment of a timed phase is the uint32_t difference (target − current) divided as unsigned by the tick count, so a phase whose target is below the current reference gets a huge positive increment | a phase from 2000 to 1000 lasting 1 ms at 1000 Hz: 2 ticks, increment 2114715648, and after the first tick the reference's upper half reads 34268 instead of lying between 1000 and 2000 | a signed quotient, so that a decelerating phase counts down toward its target | medium, not executed | RevUp.DeceleratingRampWraps, RevUp.DeceleratingRampRisesFirst | RevUp.CorrectedStartPhase, RevUp.PhaseRampStaysBetween |

The operations (`RevUp.StartPhase`, `RevUp.ExecRamp`, `RevUp.RevUpCtrl.Start` and `RevUp.RevUpCtrl.Exec`) keep the uint32_t increment as written, so that the model reproduces the wrap. The intended increment is `RevUp.SignedIncrement`, used by `RevUp.CorrectedStartPhase`, which differs from `StartPhase` in the increment only; for accelerating phases the two coincide (`RevUp.StartAcceleratingPhase`).
