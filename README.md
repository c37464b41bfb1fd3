# Relay and motor-board test scripts — a verified Dafny model

This project models the three parts of the scooter test-script repository that hold
self-contained logic:

- **The ppx command byte** (`libs/libs_lcb/ppx_packet.h`). A packet's `cmd` byte carries a
  command type in its two high bits and a message code in its low nibble. The macros
  `PPX_CMD_IS_REQ/RSP/EXCP/MSG` classify a byte. Module `PpxPacket` models them on 8-bit
  vectors, with the header's delimiter, escape, id, type, message and size constants.
- **The Hall-sensor diagnostic of the motor control board** (`libs/libcs_mcb/libs/mcb_V1.4.7.py`).
  `read_reg` builds a read request for one register and turns the reply into a value or
  None. `main` checks the bus voltage and then watches the Hall state: `last_hall` and
  `change_count` are updated per reading, and the sensor is judged working when it changed
  more than five times. This is module `McbHall`. The monitoring loop is the method
  `MonitorHall`, proved against the left fold `Scan`.
- **The relay scripts** (`Tool/TestTurnSignals/…`, `Tool/TestHeadlights/…`). These scripts
  drive a serial relay board with 4-byte frames `[0xA0, channel, state, checksum]`. Module
  `Relay` models the board: a channel map, a `RelayPort` class that records every frame
  written, and the board's state history over that trace. Modules `LeftTurnSignals`,
  `HeadlightsBlink` and `HeadlightsRightLamp` follow the three scripts step by step. The
  ordering, all-off and never-both-on properties are proved against the trace.

External inputs are parameters:
- The relay board's channel states before a script starts (`board`).
- The reply to each `read_reg` exchange (`Reply`), or the value `read_reg` returned.

## Model

| member | source | states |
|---|---|---|
| `PpxPacket.IsReq` | libs/libs_lcb/ppx_packet.h:155 | a request byte is exactly one of 0x01..0x0F; its response bit is clear |
| `PpxPacket.IsRsp` | libs/libs_lcb/ppx_packet.h:156 | a byte is a response exactly when bit 7 is set (the byte is at least 0x80) |
| `PpxPacket.IsExcp` | libs/libs_lcb/ppx_packet.h:157 | a byte is an exception exactly when bits 7 and 6 are set (at least 0xC0); every exception is also a response |
| `PpxPacket.Msg` | libs/libs_lcb/ppx_packet.h:158 | the message code is the low nibble: never above PPX_MSG_MASK, and equal to the byte itself for a request |
| `PpxPacket.CommandByte` | libs/libs_lcb/ppx_packet.h:130-158 | composing a command type and a message code, then applying the macros, gives back the code and the type; a REQ byte is a request unless the code is the reserved 0x00 |
| `PpxPacket.RequestResponseDisjoint` | libs/libs_lcb/ppx_packet.h:155-156 | no byte is both a request and a response; PPX_MSG_RSVD is neither |
| `PpxPacket.ResponseCodes` | libs/libs_lcb/ppx_packet.h:141-158 | for each code READ..NOTIFY, the code or-ed with PPX_CMD_RSP is a response, not an exception, and carries the code |
| `PpxPacket.EscapesAvoidDelimiters` | libs/libs_lcb/ppx_packet.h:81-92 | no escape byte equals the frame head 0xA5 or the frame end 0x55 |
| `McbHall.ReadRequest` | libs/libcs_mcb/libs/mcb_V1.4.7.py:90-96 | the request is addressed to the motor board (id 0x20, PPX_ID_MCB). Its cmd is a request byte whose message is READ. It reads one register, the requested one modulo 256 |
| `McbHall.ReadResult` | libs/libcs_mcb/libs/mcb_V1.4.7.py:98-105 | a value comes back exactly when a reply was received, parse returned 1, and the register is 15 (the Hall state, 0..255) or 10 (the bus voltage, 0..65535). Otherwise the result is None |
| `McbHall.TestEngine.ReadReg` | libs/libcs_mcb/libs/mcb_V1.4.7.py:90-105 | exactly one request, the single-register read, is sent per call; the result is the rule above |
| `McbHall.HallLabel` | libs/libcs_mcb/libs/mcb_V1.4.7.py:137-141 | a reading is labelled abnormal exactly when it is 0 or 7; every other value, including ones above 7, is labelled normal |
| `McbHall.MissingReadingIgnored` | libs/libcs_mcb/libs/mcb_V1.4.7.py:136 | a None reading leaves `last_hall`, `change_count` and the printed lines unchanged |
| `McbHall.StepEffect` | libs/libcs_mcb/libs/mcb_V1.4.7.py:144-147 | after any present reading, `last_hall` equals it, even for 0, 7 or out-of-range values. `change_count` grows by one exactly when the reading differs and lies in 1..6. A line with the reading and its label is printed exactly when the reading differs from `last_hall` |
| `McbHall.LastHallIsLatest` | libs/libcs_mcb/libs/mcb_V1.4.7.py:130-147 | `last_hall` is always the latest present reading, or -1 before the first one |
| `McbHall.ChangeCountBound` | libs/libcs_mcb/libs/mcb_V1.4.7.py:130-147 | `change_count` never exceeds the number of present readings in 1..6 |
| `McbHall.NoValidReadingNoChange` | libs/libcs_mcb/libs/mcb_V1.4.7.py:133-153 | a sensor that only reports 0, 7 or other invalid codes never changes the count, so it is judged broken |
| `McbHall.StuckSensorFails` | libs/libcs_mcb/libs/mcb_V1.4.7.py:133-153 | a sensor stuck at one value is counted at most once, from the initial -1, so it is judged broken |
| `McbHall.LogIsChanges` | libs/libcs_mcb/libs/mcb_V1.4.7.py:130-147 | the printed lines are exactly the present readings, in order, with every reading equal to the one before it dropped (a first reading of -1 included), each with its label; `last_hall` is the last present reading, or -1 |
| `McbHall.LogRecordsChanges` | libs/libcs_mcb/libs/mcb_V1.4.7.py:136-147 | consequences for the printed lines: each carries its reading's label, no two consecutive lines repeat a reading, the last line shows the current `last_hall`, and the count never exceeds the number of lines |
| `McbHall.WorkingNeedsValidReadings` | libs/libcs_mcb/libs/mcb_V1.4.7.py:147-153 | a "working" verdict (`change_count > 5`) needs at least six readings in 1..6 |
| `McbHall.MonitorHall` | libs/libcs_mcb/libs/mcb_V1.4.7.py:129-149 | the loop ends with `last_hall`, `change_count` and the printed lines equal to the fold of the per-reading step over all readings; the count is bounded by the valid readings |
| `McbHall.RunDiagnostic` | libs/libcs_mcb/libs/mcb_V1.4.7.py:116-160 | a missing or zero bus voltage stops the tool before monitoring. Otherwise the verdict is working iff `change_count > 5`, with the count taken from the monitoring loop |
| `Relay.Command` | Tool/TestHeadlights/test_HeadlightsNoSpecificationIntervals.py:1-5 | the command frame for a channel is well formed: 0xA0, the channel, 1 for on or 0 for off, then the checksum |
| `Relay.PressEffect` | Tool/TestTurnSignals/test_LeftTurnSignalsNoSpecificationIntervals.py:18-22 | an ON frame then an OFF frame for one channel: the channel is on in between and off after, whatever it was before; no other channel changes |
| `Relay.RelayPort.Open` | Tool/TestTurnSignals/test_LeftTurnSignalsNoSpecificationIntervals.py:4 | a freshly opened port has written nothing |
| `Relay.RelayPort.Write` | Tool/TestTurnSignals/test_LeftTurnSignalsNoSpecificationIntervals.py:15 | `ser.write` appends exactly the frame to the trace; the board takes the frame's effect |
| `Relay.RelayPort.Close` | Tool/TestTurnSignals/test_LeftTurnSignalsNoSpecificationIntervals.py:39 | closing changes neither the trace nor the board |
| `LeftTurnSignals.LookupCmd` | Tool/TestTurnSignals/test_LeftTurnSignalsNoSpecificationIntervals.py:6-11 | the table has frames only for channels 2 and 3, and each is the well-formed ON or OFF frame of its channel |
| `LeftTurnSignals.TableFramesWellFormed` | Tool/TestTurnSignals/test_LeftTurnSignalsNoSpecificationIntervals.py:6-11 | every table frame is `[0xA0, channel, state, checksum]`, with state 1 for ON and 0 for OFF and a correct checksum |
| `LeftTurnSignals.SendCmd` | Tool/TestTurnSignals/test_LeftTurnSignalsNoSpecificationIntervals.py:13-16 | writes exactly one frame per call |
| `LeftTurnSignals.PressButton` | Tool/TestTurnSignals/test_LeftTurnSignalsNoSpecificationIntervals.py:18-23 | writes ON(ch) then OFF(ch) and nothing else. The channel ends off and the others are unchanged. Any channel other than 2 or 3 fails the lookup before anything is written |
| `LeftTurnSignals.LeftRightCycle` | Tool/TestTurnSignals/test_LeftTurnSignalsNoSpecificationIntervals.py:25-33 | channel 2 is pressed before channel 3; both end off whatever their prior state |
| `LeftTurnSignals.CyclesLeaveBothOff` | Tool/TestTurnSignals/test_LeftTurnSignalsNoSpecificationIntervals.py:35-37 | after one or more cycles, channels 2 and 3 are off and every other channel is as it started |
| `LeftTurnSignals.RunScript` | Tool/TestTurnSignals/test_LeftTurnSignalsNoSpecificationIntervals.py:4-39 | ten cycles write 40 frames, in cycle order. The port is then closed with channels 2 and 3 off |
| `HeadlightsBlink.FramesAreCommands` | Tool/TestHeadlights/test_HeadlightsNoSpecificationIntervals.py:1-5 | the four frames written are the ON/OFF frames the suite's description lists, each with a correct checksum; one test run is a press of 2 then a press of 3 |
| `HeadlightsBlink.ReleaseBoth` | Tool/TestHeadlights/test_HeadlightsNoSpecificationIntervals.py:19-20 | the two OFF frames leave channels 2 and 3 off from any state; after the first one channel 2 is already off |
| `HeadlightsBlink.OneBlink` | Tool/TestHeadlights/test_HeadlightsNoSpecificationIntervals.py:46-58 | starting from both off, a test run never has both channels on and ends with both off |
| `HeadlightsBlink.BlinksNeverOverlap` | Tool/TestHeadlights/test_HeadlightsNoSpecificationIntervals.py:39-58 | across any number of runs from both off, both channels are never on together, and all-off holds after every run |
| `HeadlightsBlink.RunNeverOverlaps` | Tool/TestHeadlights/test_HeadlightsNoSpecificationIntervals.py:13-58 | setup, the runs and teardown together: the two channels are never on together after the first setup frame, and both end off |
| `HeadlightsBlink.SetupModule` | Tool/TestHeadlights/test_HeadlightsNoSpecificationIntervals.py:13-21 | setup opens the port and writes OFF for 2 and 3, so both are off before the first run |
| `HeadlightsBlink.TestLeftRightBlink` | Tool/TestHeadlights/test_HeadlightsNoSpecificationIntervals.py:40-58 | each run writes exactly K2 ON, K2 OFF, K3 ON, K3 OFF, in that order |
| `HeadlightsBlink.TeardownModule` | Tool/TestHeadlights/test_HeadlightsNoSpecificationIntervals.py:24-31 | only when the port was opened: writes both OFF frames, then closes it |
| `HeadlightsBlink.RunSuite` | Tool/TestHeadlights/test_HeadlightsNoSpecificationIntervals.py:11-58 | exactly 10 runs, 44 frames in order. Channels 2 and 3 end off and no other channel changes; the two are never on together after the first setup frame |
| `HeadlightsRightLamp.FramesAreCommands` | Tool/TestHeadlights/test_HeadlightsSpecificationIntervals.py:12-17 | the binary literals are the frames A0 03 01 A4 and A0 03 00 A3, and both checksums are right |
| `HeadlightsRightLamp.PressesAlternate` | Tool/TestHeadlights/test_HeadlightsSpecificationIntervals.py:9-17 | channel 3 is on after each ON frame and off after each iteration. No other channel ever changes |
| `HeadlightsRightLamp.RunScript` | Tool/TestHeadlights/test_HeadlightsSpecificationIntervals.py:5-21 | ten iterations of ON then OFF for channel 3 only: 20 frames. Channel 3 is off after every iteration and at exit, and the port is closed |

## Left out

- The ppx codec: `ppx_com_packet_crc/parse/format/verchk`, and the region, BLE, factory, IAP and log `*_parse`/`*_format` functions. Only their declarations are in the repository; their bodies are in a vendor DLL. The CRC, the byte-stuffing algorithm and the wire layout are therefore not modelled. `McbHall` records the message handed to the codec and takes the parse result as an input.
- The packet struct `ppx_packet_data_t` and the status and format enums of `ppx_packet.h` carry no behaviour of their own. Only their constants are kept.
- An endurance-test harness is not part of this model: none of the modelled files contains one. That means no sliding-window fault counting, no power-cycle state machine and no port reconnection.
- The declaration-only headers `ppx_factory.h`, `ppx_region.h`, `ppx_ble.h`, `ppx_iap.h` and `ppx_log.h` hold only enums, structs and globals, with no behaviour. The bit-field layout of `ppx_led_msg_t` depends on the compiler's packing rules.
- `PpxPacket.IsReq`, `PpxPacket.IsRsp`, `PpxPacket.IsExcp`, `PpxPacket.Msg`: the C macros accept any integer. The model takes them on the 8-bit `cmd` field only.
- `McbHall.ReadResult`: the register image the DLL's parse leaves in `g_ppx_region_data` is taken from the reply. Which fields parse updates is the DLL's business and is not modelled.
- ctypes struct mirrors and DLL loading (`setup`), serial open/read/write/flush, `reset_input_buffer` and `in_waiting` are I/O. They are replaced by the frame trace of `RelayPort` and by the `Reply` of each exchange. The ctypes exception triple `reg_excp` of the request is always zero and is not carried.
- Timing: every `time.sleep` and the button `press_time` are left out. So is the 20-second wall-clock bound of the Hall loop, which is modelled over a finite sequence of readings instead.
- The floating-point voltage display `v * 0.1` and all printed text except the Hall report lines are left out.
- `McbHall.RunDiagnostic`: on the early return for a missing voltage, `main` does not close the serial port. On the other path it does. The port's open state is not part of the model.
- pytest and allure decorators are test-framework metadata. The parametrised run is modelled as a loop over `NUMBERS` in list order. `TeardownModule` accepts a null port to mirror the script's `if ser is not None` guard; in that case it writes and closes nothing, which is also the outcome when a failed setup means the teardown never runs.
- The relay board's response to an ill-formed frame is not defined anywhere in the repository. `Relay.Apply` lets such a frame change nothing. Every frame the scripts write is proved well formed, so this choice never affects them.
- The horn scripts and the right-turn script write fixed single bytes (0x4F, 0x50, 0x51, 0x41) whose meaning the code never defines. Nothing can be stated about them beyond the literal byte order.
