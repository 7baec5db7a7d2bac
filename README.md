# M5Scribe firmware core in Dafny

M5Scribe streams microphone audio from an M5Stack Core2 to an Android phone over Bluetooth Serial (SPP). This project models the sequential logic of the Core2 firmware (`src/main.cpp`) and proves properties of that model:

- **Audio level meter** (`calculateAudioLevel`). A frame of little-endian 16-bit samples is reduced to a 0..100 level. The steps are the mean magnitude, the peak magnitude, a 3:1 blend, Arduino `map` from 100..2000 onto 0..100, `constrain`, and 7:3 smoothing against the persistent `lastLevel`. Module `AudioLevel` holds the specification functions and the lemmas. Class `AudioMeter` holds the two globals it updates. C truncating division, `map` and `constrain` are in module `Arduino`.
- **Connection mode** (`btCallback`, the touch and timeout part of `loop`, the display state of `updateDisplay`). The state is `btConnected`, `btDiscoverable`, `discoverableStartTime` and `lastTouchState`. Pure transition functions on the `BtState` datatype specify it. The methods of class `Connection` are proved against them. The 60 s timeout uses wrapping 32-bit subtraction on `millis()`.
- **Chunked send loop**. `SerialBT.write` may queue fewer bytes than it is offered, and the link may close while the loop runs. Both are an input script of turns. `SendLoop` specifies the loop and `SendFrame` implements it.
- **One pass of `loop()`** (`MainLoop.Firmware.Loop`) puts the three parts together.

Each file is one module: `Arduino.dfy`, `AudioLevel.dfy`, `ConnectionMode.dfy`, `BluetoothSend.dfy`, `MainLoop.dfy`.

The comment at `src/main.cpp:103` mentions a 500-3000 input range. The code maps 100..2000, and the model follows the code.

## Model

| member | source | states |
|---|---|---|
| `Arduino.Abs` | src/main.cpp:92 | the magnitude is non-negative and equals the sample or its negation |
| `Arduino.TruncDivRemainder` | src/main.cpp:100-109 | C division truncates toward zero: the remainder is smaller than the divisor and has the numerator's sign |
| `Arduino.ArduinoMap` | src/main.cpp:104 | `map` sends the input endpoints to the output endpoints, keeps in-range inputs in the output range, and keeps inputs beyond either end beyond that end |
| `Arduino.Constrain` | src/main.cpp:105 | `constrain` returns the point of `[low, high]` nearest to its argument, and the argument itself when it is in range |
| `Arduino.ElapsedAcrossRollover` | src/main.cpp:533 | the wrapping `unsigned long` difference `now - start` is the true elapsed time below 2^32 ms, across a clock rollover too |
| `AudioLevel.SampleAt` | src/main.cpp:85 | the `int16_t` view of the buffer gives a value in int16 range that is congruent mod 2^16 to the little-endian byte pair |
| `AudioLevel.Samples` | src/main.cpp:85-86 | a buffer of `length` bytes has `length / 2` samples, the i-th read from bytes 2i and 2i+1 |
| `AudioLevel.PeakAbs` | src/main.cpp:89-97 | the running maximum starting at 0 bounds every sample magnitude and is one of them (or 0) |
| `AudioLevel.SumAtMostCountTimesPeak` | src/main.cpp:88-97 | the accumulated `sum` is at most the sample count times `maxSample` |
| `AudioLevel.AverageAtMostPeak` | src/main.cpp:100 | `avg = sum / sampleCount` lies between 0 and `maxSample` |
| `AudioLevel.Blend` | src/main.cpp:101 | `(avg * 3 + maxSample) / 4` lies between `avg` and `maxSample` whenever `avg <= maxSample` |
| `AudioLevel.CombinedBetweenAverageAndPeak` | src/main.cpp:91-101 | for every frame, `0 <= avg <= combined <= maxSample` |
| `AudioLevel.RawLevel` | src/main.cpp:104-105 | the mapped and clamped level is in [0, 100], is 0 when `combined <= 100` and 100 when `combined >= 2000` |
| `AudioLevel.RawLevelMonotone` | src/main.cpp:104-105 | a larger `combined` never gives a lower raw level |
| `AudioLevel.Smooth` | src/main.cpp:109 | the smoothed level lies between the new and the previous level, and equals the level when the two agree |
| `AudioLevel.Level` | src/main.cpp:84-110 | the published level is in [0, 100] whenever `lastLevel` is |
| `AudioLevel.FrameArithmeticFitsInt32` | src/main.cpp:86-109 | for frames of at most `DATA_SIZE` bytes, `sum`, the blend numerator, the `map` product and the smoothing numerator all fit a 32-bit `int`/`long` |
| `AudioLevel.ScanFrame` | src/main.cpp:86-97 | the sample loop leaves `sum` equal to the total magnitude and `maxSample` equal to the peak magnitude of the frame |
| `AudioLevel.AudioMeter.constructor` | src/main.cpp:40 | `audioLevel` (line 40) and the function-local `static int lastLevel` (line 108) start at 0 |
| `AudioLevel.AudioMeter.Calculate` | src/main.cpp:84-111 | after the sample loop, `audioLevel` becomes `Level(buf, old lastLevel)`, `lastLevel` is overwritten with it, and both stay in [0, 100] |
| `ConnectionMode.DisplayState` | src/main.cpp:281 | the state is 2 iff connected, 1 iff discoverable and not connected, 0 iff neither |
| `ConnectionMode.TouchStep` | src/main.cpp:491-529 | CONNECT and STOP never both fire; CONNECT fires only on a rising edge in its button while idle, sets discoverable and the start time, and leaves `btConnected` alone; STOP fires only on a rising edge in its button while connected and clears both flags; otherwise only `lastTouchState` changes, and it becomes the current touch |
| `ConnectionMode.TouchStepInterleaved` | src/main.cpp:496-529 | with a callback event arriving during the CONNECT branch's delays: no event, or no CONNECT press, gives `TouchStep`; SRV_OPEN then lets STOP fire on the same tap, so a tap inside both buttons leaves the device neither connected nor discoverable, and one outside STOP leaves it connected and discoverable; CLOSE leaves CONNECT's effect alone |
| `ConnectionMode.TimeoutStep` | src/main.cpp:531-538 | discoverable is cleared iff discoverable, not connected and the wrapped elapsed time exceeds 60000 ms; nothing else changes; afterwards a discoverable unconnected device is within its window |
| `ConnectionMode.SppStep` | src/main.cpp:422-432 | SRV_OPEN sets and CLOSE clears `btConnected`; no event touches `btDiscoverable`, the start time or the touch state; other events change nothing |
| `ConnectionMode.HeldTouchNeverReopensDiscovery` | src/main.cpp:491-538 | once a touch is seen, holding it through any number of passes and callbacks never makes the device discoverable |
| `ConnectionMode.TapOpensDiscovery` | src/main.cpp:496-509 | a fresh tap on CONNECT when idle opens the window at the tap time and shows the searching screen |
| `ConnectionMode.WindowClosesAfterTimeout` | src/main.cpp:532-537 | a discoverable, unconnected device leaves discovery once more than 60 s have passed, even across a `millis()` rollover |
| `ConnectionMode.Connection.constructor` | src/main.cpp:31-33 | the firmware boots not connected and not discoverable (lines 31-33), with no touch seen (`static bool lastTouchState = false`, line 491) |
| `ConnectionMode.Connection.OnSppEvent` | src/main.cpp:422-432 | the globals change as `SppStep` says |
| `ConnectionMode.Connection.HandleTouch` | src/main.cpp:491-529 | the globals change as `TouchStep` says |
| `ConnectionMode.Connection.CheckTimeout` | src/main.cpp:531-538 | the globals change as `TimeoutStep` says |
| `BluetoothSend.Accepted` | src/main.cpp:563 | a write queues no more than offered and no more than fits, and it is all of one or the other |
| `BluetoothSend.SendLoop` | src/main.cpp:561-569 | `totalWritten` never decreases and never exceeds `bytesRead`; the loop ends only with the frame fully queued or the link down; the link goes down only on a close event |
| `BluetoothSend.CompletesWhenRoomSuffices` | src/main.cpp:561-569 | with the link up and enough total queue room, the whole frame is queued and the loop ends connected |
| `BluetoothSend.SendFrame` | src/main.cpp:561-573 | the loop's outcome is `SendLoop`'s, and the queued bytes are exactly the first `totalWritten` bytes of the frame, in order |
| `MainLoop.Firmware.constructor` | src/main.cpp:31-41 | globals start at their boot values |
| `MainLoop.Firmware.Loop` | src/main.cpp:484-579 | the connection state follows touch then timeout; while connected with a non-empty read, the frame's queued prefix is appended to the transmitted stream and a dropped link clears `btConnected`; `exhausted` is reported exactly when the send loop's script ran out with the link up and the frame not fully queued, so a pass that ends connected and not exhausted has queued the whole frame or nothing was read; the level is recomputed only when more than 50 ms have passed since the last update |

## Left out

- I2S microphone setup (`InitMicrophone`) and `i2s_read` are hardware driver calls. The read result and the frame bytes are inputs of `Loop`.
- All LCD rendering is left out: gradients, visualiser, buttons, status bar, battery readout, animation and the countdown of line 384. So are the redraw flags `needsFullRedraw` and `lastDisplayState`. Only the display-state selection of line 281 is modelled.
- `setup()` is left out: boot, LDO power, the halt loops on init failure and `register_callback`. So are all `delay` calls and serial logging, including the shortfall warning at line 572. `Loop` returns `totalWritten` instead. `SerialBT.begin`, `enableSSP` and `disconnect` are modelled only by their effect on the flags.
- The Bluetooth callback task runs concurrently with `loop()` on the device. Here its events are discrete steps between passes (`Run`), or `Drop` turns inside the send loop.
- The Android app is not part of this model: speech recognition restarts, the audio relay and the session store.
- `MainLoop.Firmware.Loop`: one `now` stands for every `millis()` read in a pass. The 100 ms and 200 ms delays inside the button branches are not modelled.
- `MainLoop.Firmware.Loop`: requires a frame of at most `DATA_SIZE` bytes that is not exactly one byte long. Line 553 only checks `bytesRead > 0`. A one-byte read would make `sampleCount` 0, and line 100 would divide by zero. The model relies on the 16-bit I2S driver returning whole samples. Odd frames of three bytes or more are handled as the firmware does: the trailing byte is not a sample, but it is sent.
- `MainLoop.Firmware.Loop`: when the send loop's script runs out while the link is up and the frame is only partly queued, the pass returns with `exhausted` set. The firmware never returns from such a pass: it keeps spinning at line 562. A caller must read `exhausted` before treating the pass as finished; only non-exhausted passes are passes the firmware completes.
- `AudioLevel.AudioMeter.Calculate`: requires at least two bytes, for the same reason.
- `BluetoothSend.SendFrame`: the firmware loop can spin forever while the queue stays full and the link stays up. The model runs one turn per pass from a finite script. When the script runs out first, it stops and reports `exhausted`.
- `ConnectionMode.TouchStep`: "CONNECT and STOP never both fire" assumes no callback runs during the CONNECT branch's delays (lines 500 and 508). The device is connectable from boot, so SRV_OPEN can arrive then, and a tap in the overlap [195, 250] x [190, 230] of the two buttons also fires STOP. `TouchStepInterleaved` states that case; `HandleTouch`, `LoopStep` and the lemmas over `Run` use the atomic `TouchStep`.
- `Arduino.ArduinoMap`: requires `inMin < inMax`, the only case the firmware uses.
- `Arduino.TruncDiv`: requires a positive divisor, the only case the firmware uses.
- Integer widths are not modelled as wrap-around for the audio path. `FrameArithmeticFitsInt32` proves that no intermediate value leaves the 32-bit range (`long` is 32 bits on the ESP32). Only the `millis()` difference wraps, and the model writes that wrap out.
