# Slave BMS core: LTC6811 driver, battery record, CAN messaging, interlock

This project models the core of the firmware of a low-voltage "slave" battery
management board. The board reads twelve cell voltages and four auxiliary
(temperature) codes from an LTC6811 analog front end over SPI. It keeps a
battery record of the cells and their aggregates, and sends that record on CAN.
It also drives a safety interlock pin, high only while every reading is within
limits.

The model is split into these modules:

- `Checksum` (checksum.dfy): the LTC6811 15-bit packet error code (PEC).
  - The lookup-table CRC is modelled, seeded with 16 and shifted left once at the end.
  - The loop that computes it is a method.
  - Every table entry is proved to be eight polynomial-division steps of its index.
- `Ltc` (ltc6811.dfy): the LTC6811 driver.
  - The command constants and their PECs.
  - The six-byte configuration register: byte 0, the packed under/over-voltage thresholds and the 12-bit discharge bitmap.
  - `init_cfg` with its signed-16-bit discharge rule, and `_balance_cells` with its in-place bit updates.
  - `write_config`, cell-register decoding (little-endian) and auxiliary-register decoding (big-endian).
  - `read_temperatures` and `update`.
  - The driver is a class whose `config` register is an array updated in place.
- `BmsState` (bms.dfy): the `BMS` record.
  - Twelve cells plus total, maximum, minimum, rounded average and temperature.
  - Aggregates are recomputed after every cell write.
  - It is a class whose methods update its fields.
- `Types` (types.dfy): the CAN identifiers and the voltage and temperature limits.
- `CanFrames` (can_frame.dfy): `CanFrame::new` and `CanFrame::from_envelope`, both zero-padded 8-byte buffers.
- `CanManagement` (can_management.dfy): the `get_byte!` macro, the voltage, temperature and per-cell payloads, the `TEMP` cycle counter, and the error mapping of `can_operation` and `can_operation_tech`.
- `Supervisor` (supervisor.dfy): the interlock decision of `check_err_check` and the mode reset of `read_can`.
- `Bits` (bits.dfy): bit-level helpers (set, clear, pack) on naturals, and byte joins.

Bytes that travel over SPI and are protected by the PEC are `bv8`. The
configuration register, CAN payloads and record fields are integers with explicit
ranges (`U8`, `U16`, `U32`). Rust's wrapping arithmetic is written out where it
occurs:

- the `as i16` casts and the subtraction in `init_cfg`;
- the `u16` subtraction in `_balance_cells`;
- the 32-bit wrapping add of the total;
- the truncating `as u16` of the total divided by 100;
- the `usize` wrapping add of `TEMP`.

Release-mode (wrapping) semantics are used throughout.

Notes on what the code does:

- The voltage frame carries maximum, minimum, average, total, in that order.
- `set_mode` only records the mode; it does not rebuild or rewrite the register.
- Balancing in `_balance_cells` compares each cell with the record's maximum.
- The record keeps only the latest readings (no history), and temperatures are raw ADC codes (no conversion to degrees).
- A received CAN frame is not decoded: any frame restores normal mode.

## Model

| member | source | states |
|---|---|---|
| Checksum.CalculatePec | src/ltc_management/ltc6811.rs:127-139 | the table-driven loop returns exactly the PEC of its input (specification function `Pec`) |
| Checksum.Pec | src/ltc_management/ltc6811.rs:127-139 | a PEC is two bytes whose least significant bit is always zero |
| Checksum.PecOfEmpty | src/ltc_management/ltc6811.rs:127-139 | with no data the seed 16 shifted left gives the bytes 00 20 |
| Checksum.TableIsGenerated | src/ltc_management/ltc6811.rs:62-82 | every one of the 256 table entries (15 bits) equals eight steps of division by the CRC-15 polynomial 0x4599 applied to its index |
| Ltc.CommandFrame | src/ltc_management/ltc6811.rs:17-41 | a command frame is the two opcode bytes followed by their PEC, and is PEC-valid |
| Ltc.PrepareCommand | src/ltc_management/ltc6811.rs:151-153 | the prepared command is the 4-byte constant unchanged |
| Ltc.CommandPecsMatch | src/ltc_management/ltc6811.rs:17-39 | WRCFGA, RDCFGA, RDCVA-D, RDAUXA, RDAUXB and ADCV each carry the correct PEC of their opcode |
| Ltc.AdaxPecMismatch | src/ltc_management/ltc6811.rs:41 | the ADAX constant as written carries F1 B2, but the PEC of 04 30 is E7 48, so the constant is not PEC-valid |
| Ltc.AdaxFrameBytes | src/ltc_management/ltc6811.rs:41 | the corrected ADAX frame is 04 30 E7 48: same opcode, valid PEC |
| Ltc.ConfigByte0Value | src/ltc_management/ltc6811.rs:51-59 | GPIOS or ADCOPT or REFON is 0x7D |
| Ltc.ThresholdConstants | src/ltc_management/ltc6811.rs:156-162 | uv_val is 186 and ov_val 262, their packed bytes are BA 60 10, and those bytes unpack back to them |
| Ltc.ThresholdsRoundTrip | src/ltc_management/ltc6811.rs:160-162 | packing two 12-bit thresholds into bytes 1-3 and unpacking gives them back |
| Ltc.ThresholdBytesOfUnpack | src/ltc_management/ltc6811.rs:160-162 | every three-byte threshold field is the packing of what it unpacks to |
| Ltc.AsI16 | src/ltc_management/ltc6811.rs:171 | `as i16` keeps the value modulo 2^16 and lands in the signed 16-bit range |
| Ltc.AboveMinMeaning | src/ltc_management/ltc6811.rs:171 | for a cell at or above the minimum the wrapped signed difference exceeds 50 exactly when the true difference is above 50 and below 32768 |
| Ltc.BitmapBytes | src/ltc_management/ltc6811.rs:176-177 | bit i of byte 4 (i < 8) and bit i-8 of byte 5 (i >= 8) are the i-th discharge flag |
| Ltc.InitConfigDischarge | src/ltc_management/ltc6811.rs:166-182 | a cell's discharge bit is set exactly when the mode is balancing, min and max are nonzero and the cell passes the signed discharge rule; byte 5 has no high bits |
| Ltc.InitConfigFixedBytes | src/ltc_management/ltc6811.rs:159-162 | the register is six bytes starting 7D BA 60 10 |
| Ltc.BalanceFlagsOfRecord | src/ltc_management/ltc6811.rs:437-447 | on a consistent record a cell is flagged exactly when the maximum exceeds it by more than the threshold |
| Ltc.BalancedBits | src/ltc_management/ltc6811.rs:447-461 | after balancing, each cell's bit is its flag, bytes 0-3 and the high nibble of byte 5 are unchanged |
| Ltc.BalancedIdempotent | src/ltc_management/ltc6811.rs:432-470 | balancing twice with the same readings gives the same register as once |
| Ltc.BalanceFlagsDischargeLowest | src/ltc_management/ltc6811.rs:440-457 | as written, with one cell at 30000 and the rest at 40000, only the lowest cell is discharged and every high cell is spared |
| Ltc.CorrectedBalancedBits | src/ltc_management/ltc6811.rs:443-445 | under the rule the comment states, a discharge bit is set exactly when its cell is more than the threshold above the minimum; the lowest cell is never discharged and the highest is whenever the spread exceeds the threshold |
| Ltc.DecodeCellsLayout | src/ltc_management/ltc6811.rs:311-330 | cell 3g+k is the little-endian pair at bytes 2k (low) and 2k+1 (high) of register group g |
| Ltc.TempCodesLayout | src/ltc_management/ltc6811.rs:391-396 | codes 0-2 are big-endian pairs of AUXA and code 3 the first big-endian pair of AUXB |
| Ltc.ConfigFrame | src/ltc_management/ltc6811.rs:239-243 | the data sent by write_config is the six register bytes followed by their PEC |
| Ltc.Ltc6811.constructor | src/ltc_management/ltc6811.rs:99-124 | a new driver is in normal mode with register 00 00 04 00 00 00 |
| Ltc.Ltc6811.SetMode | src/ltc_management/ltc6811.rs:141-143 | sets the mode and leaves the register alone |
| Ltc.Ltc6811.WriteConfig | src/ltc_management/ltc6811.rs:235-254 | sends WRCFGA, then the register with its PEC |
| Ltc.Ltc6811.InitCfg | src/ltc_management/ltc6811.rs:155-188 | the register becomes `InitConfig` of the mode and the record, and that register is written out |
| Ltc.Ltc6811.DischargeBitmap | src/ltc_management/ltc6811.rs:166-174 | the loop builds the packed bitmap of the discharge flags |
| Ltc.Ltc6811.BalanceCells | src/ltc_management/ltc6811.rs:432-470 | the register becomes the old register with each cell's bit set or cleared by the wrapping u16 rule against the maximum, then is written out |
| Ltc.Ltc6811.ReadCellVoltages | src/ltc_management/ltc6811.rs:272-341 | sends ADCV and the four read commands; the record's cells become the decoded codes, its aggregates are consistent, its temperature is untouched |
| Ltc.Ltc6811.ReadTemperatures | src/ltc_management/ltc6811.rs:359-409 | sends the ADAX constant as declared (04 30 F1 B2, whose PEC is invalid), then RDAUXA and RDAUXB; reports each group's PEC validity; returns the four codes and the update_temp arguments (10, 10, 10, code 3) |
| Ltc.Ltc6811.Update | src/ltc_management/ltc6811.rs:414-429 | resets the record, then reads cells and temperatures: cells decoded, aggregates consistent, temperature zero, the eight commands in order with the declared ADAX constant (invalid PEC) sixth |
| BmsState.Bms.constructor | src/types/bms.rs:35-44 | a new record is all zero and consistent |
| BmsState.Bms.Reset | src/types/bms.rs:135-137 | reset returns the record to the all-zero state |
| BmsState.Bms.UpdateTemp | src/types/bms.rs:51-53 | sets the temperature and nothing else |
| BmsState.Bms.UpdateCell | src/types/bms.rs:62-65 | writes cell i, keeps the others and the temperature, and makes the aggregates consistent |
| BmsState.Bms.Update | src/types/bms.rs:68-87 | the loop makes total, maximum, minimum and rounded average agree with the cells |
| BmsState.Bms.AvgVolt | src/types/bms.rs:94-96 | the average is the rounded mean of the cells' total |
| BmsState.Bms.TotVolt | src/types/bms.rs:103-105 | the total is the wrapped sum of the cells |
| BmsState.Bms.MinVolt | src/types/bms.rs:112-114 | the minimum is at most every cell and equals one of them |
| BmsState.Bms.MaxVolt | src/types/bms.rs:121-123 | the maximum is at least every cell and equals one of them |
| BmsState.Bms.Temp | src/types/bms.rs:130-132 | returns the stored temperature |
| BmsState.MaxOfSpec | src/types/bms.rs:74 | the running maximum bounds every cell and is attained |
| BmsState.MinOfSpec | src/types/bms.rs:75 | the running minimum bounds every cell and is attained |
| BmsState.SumBound | src/types/bms.rs:73 | n 16-bit cells sum to at most 65535 n, so the 32-bit wrapping add of twelve never wraps |
| BmsState.SumAtLeast | src/types/bms.rs:73 | the sum is at least the count times the minimum |
| BmsState.SumAtMost | src/types/bms.rs:73 | the sum is at most the count times the maximum |
| BmsState.RoundedAverageIsNearest | src/types/bms.rs:78-82 | the average is the integer nearest to the total over 12 |
| BmsState.AverageBetweenMinAndMax | src/types/bms.rs:68-87 | the average lies between the minimum and the maximum |
| BmsState.ZeroAggregates | src/types/bms.rs:35-44 | all-zero cells have zero total, maximum, minimum and average |
| Types.CanMsg.AsRaw | src/types/mod.rs:25-31 | both identifiers are standard 11-bit CAN identifiers |
| Types.Voltages.AsRaw | src/types/mod.rs:33-48 | the maximum cell voltage is 42800 and the minimum 32000 |
| Types.Temperatures.AsRaw | src/types/mod.rs:54-69 | the maximum temperature is 60 and the minimum 10 |
| Types.CanMsgIds | src/types/mod.rs:12-31 | the voltage frame is 0x57, the temperature frame 0x58, and distinct kinds have distinct ids |
| Types.VoltageLimits | src/types/mod.rs:33-52 | the cell window is 32000 to 42800, non-empty |
| Types.TemperatureLimits | src/types/mod.rs:54-69 | the temperature window is 10 to 60, non-empty |
| CanFrames.Padded | src/can_management/frame.rs:13-16 | the buffer has eight bytes: the payload's, then zeros |
| CanFrames.CanFrame.Bytes | src/can_management/frame.rs:55-57 | returns the stored 8-byte buffer |
| CanFrames.CanFrame.Byte | src/can_management/frame.rs:59-61 | returns the buffer byte at the index; an index past the eighth byte is excluded, where the source panics |
| CanFrames.CanFrame.Id | src/can_management/frame.rs:63-65 | returns the stored identifier |
| CanFrames.CanFrame.Len | src/can_management/frame.rs:67-69 | returns the stored length, which is not clipped to eight |
| CanFrames.NewFrame | src/can_management/frame.rs:12-29 | the copy loop builds the frame `Outgoing` specifies |
| CanFrames.FromEnvelope | src/can_management/frame.rs:31-49 | the copy loop builds the frame `Received` specifies |
| CanFrames.OutgoingReadsBack | src/can_management/frame.rs:12-29 | an outgoing frame reads back its id, its clipped length, and its payload bytes, zero beyond them |
| CanFrames.OutgoingOfBytes | src/can_management/frame.rs:55-57 | building a frame from an 8-byte payload and rebuilding from its bytes gives the same frame |
| CanFrames.ReceivedReadsBack | src/can_management/frame.rs:31-49 | a received frame keeps the header length and the first min(len, 8) data bytes, zero beyond |
| CanManagement.GetByte | src/can_management/mod.rs:11-13 | byte n of a value is zero whenever the value is non-negative and below 2^(8n) |
| CanManagement.GetByteOf | src/can_management/mod.rs:15-17 | the slice form yields the byte at the index, or 0 past the end |
| CanManagement.GetByteRoundTrip16 | src/can_management/mod.rs:11-13 | bytes 0 and 1 of a u16 are its low and high byte and reassemble it |
| CanManagement.GetByteRoundTrip32 | src/can_management/mod.rs:11-13 | bytes 0-3 of any integer reassemble it modulo 2^32 (two's complement for negatives) |
| CanManagement.PairsRoundTrip | src/can_management/mod.rs:24-33 | four u16 values laid out little-endian decode back to themselves |
| CanManagement.VoltagePayloadDecodes | src/can_management/mod.rs:21-33 | the voltage payload decodes to maximum, minimum, average and the total over 100 truncated to 16 bits |
| CanManagement.TemperaturePayloadDecodes | src/can_management/mod.rs:54-63 | the temperature payload decodes to maximum and minimum temperature and the current's four bytes modulo 2^32 |
| CanManagement.TechPayloadsDecode | src/can_management/mod.rs:83-190 | the three cell frames decode to the twelve cells in order and the fourth to the four temperatures |
| CanManagement.NextTempModulo | src/can_management/mod.rs:34-37 | from below 12 the counter steps to its successor modulo 12 |
| CanManagement.IterateStaysBelow12 | src/can_management/mod.rs:34-37 | however many cycles run, a counter starting below 12 stays below 12 |
| CanManagement.TempCounter.constructor | src/can_management/mod.rs:22 | the counter starts at 0 |
| CanManagement.TempCounter.Tick | src/can_management/mod.rs:34-37 | one step of the wrapping counter with reset at 12 |
| CanManagement.MapError | src/can_management/mod.rs:42-50 | a timeout maps to Timeout and any other failure to WriteError |
| CanManagement.ResultOf | src/can_management/mod.rs:65-78 | a write is Ok exactly when it succeeded, else the mapped error |
| CanManagement.FirstFailure | src/can_management/mod.rs:83-190 | the index of the first failed write: all before it succeeded |
| CanManagement.CanOperation | src/can_management/mod.rs:20-79 | advances the counter; a failed voltage write stops with its error and sends nothing else; otherwise both frames go out and the result is the temperature write's |
| CanManagement.CanOperationTech | src/can_management/mod.rs:83-190 | sends the four diagnostic frames up to and including the first failed write and returns that write's error, or Ok |
| Supervisor.InLimitsIffNoViolation | src/main.rs:173-182 | the interlock may close exactly when no cell is below 32000 or above 42800 and the temperature is not below 10 or above 60 |
| Supervisor.LimitsInclusive | src/main.rs:173-182 | readings equal to a limit are in range, one step beyond is not |
| Supervisor.TemperatureOverrides | src/main.rs:180-182 | an out-of-range temperature opens the interlock whatever the cells read |
| Supervisor.ErrCheckClose | src/main.rs:170-182 | the early-exit scan and the temperature test decide `InLimits` exactly |
| Supervisor.Pin.constructor | src/main.rs:73 | the interlock pin starts low (open), the fail-safe level |
| Supervisor.Pin.SetHigh | src/main.rs:186-187 | drives the interlock pin high |
| Supervisor.Pin.SetLow | src/main.rs:188-189 | drives the interlock pin low |
| Supervisor.CheckErrCheck | src/main.rs:165-195 | the pin is high exactly when every reading is within limits |
| Supervisor.ReadCan | src/main.rs:136-161 | a received frame sets normal mode and restarts the silence timer; an error changes neither; the register is untouched |

## Left out

- SPI transport, wake-up pulses, delays, mutexes and task scheduling are not modelled. The driver's methods return the command frames they would send and take the register groups they would read as parameters.
- `init` (init_cfg, wake-up, a delay and one unchecked read-back of the configuration) is not modelled: it only sequences I/O calls.
- USB and serial logging are not modelled.
- `spi_device.rs` is not part of this model.
- The `defmt` logging is not modelled.
- The embassy `Frame`, `StandardId` and `Envelope` types are abstracted as the datatypes `CanFrames.FrameId` and `CanFrames.Envelope` (identifier, header length, data buffer); the embassy frame a `CanFrame` carries is not kept. `CanFrames.NewFrame` requires an id of at most 0x7FF and at most eight bytes, where the source would panic in `unwrap`.
- The CAN controller's read and write are not part of this model; write outcomes and read outcomes are parameters.
- The `SLAVEBMS` record used by `can_operation` is not part of this model. Its fields are the `CanManagement.Snapshot` parameter, and the `Tech1`-`Tech4` identifiers are parameters.
- `BmsState.Bms.Update`: the average uses `(total + 6) / 12` in place of `roundf(total / 12.0)`. The two agree because totals stay below 2^24, but the floating-point path is not modelled.
- `Ltc.Ltc6811.ReadTemperatures`: `update_temp(index, value)` is called with two arguments against a one-argument method, so the calls are returned as values and not applied.
- `Ltc.Ltc6811.ReadCellVoltages`: the register PECs are not checked, as in the source.
- `Ltc.Ltc6811.Update`: its `temp == 0` holds only because the `update_temp(index, value)` calls of `read_temperatures` are not applied; the temperature stays at the value `reset` gave it.
- `Ltc.AboveMinMeaning`: the `i16` subtraction in `init_cfg` and the `u16` subtraction `max - cell` in `_balance_cells` use release-mode (wrapping) semantics. In a debug build either subtraction panics on overflow; that panic is not modelled. The `as i16` casts themselves never panic.
- `Checksum.Pec`: there is no bit-serial reference of the whole-message CRC. Each table entry is proved against the polynomial instead.
- The main loop's clock (the 10-second silence branch of `read_can`, which does nothing) is a parameter.
- The `CanError` variants other than timeout are collapsed into `WriteError`, as the source does.
- The corrected ADAX frame (`Ltc.AdaxFrame`) is stated and proved valid, but the driver methods send the declared constant, as the firmware does.

## Findings

| source | as written | input that shows it | evidently intended | confidence | as-written member | corrected member |
|---|---|---|---|---|---|---|
| src/ltc_management/ltc6811.rs:41 | ADAX is sent as 04 30 F1 B2 | the PEC of opcode 04 30 is E7 48, so the device rejects the command | 04 30 E7 48, the opcode with its own PEC; the intended opcode is itself uncertain, since the earlier commented-out ADAX definition uses 04 60 | not executed | Ltc.AdaxPecMismatch | Ltc.AdaxFrameBytes |
| src/ltc_management/ltc6811.rs:440-457 | `_balance_cells` switches a cell's discharge on when `max_volt - cell_volt > threshold` | one cell at 30000 and eleven at 40000 with threshold 50: only the 30000 cell, the lowest, is discharged | discharge a cell when `cell_volt - min_volt > threshold`, as the comment above the test says, so the high cells are drained towards the lowest | not executed | Ltc.BalanceFlagsDischargeLowest | Ltc.CorrectedBalancedBits |
