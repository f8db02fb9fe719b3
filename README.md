# ESP32 audio-reactive face: a verified model

This project models the logic of an ESP32-S3 firmware. The firmware draws a cartoon face on a
round LCD and makes the face react to music streamed over Bluetooth A2DP. The model
covers five parts:

- **`FaceEmote`** (`main/face_emote.c`) holds the face record, with eye and mouth centres and sizes,
  the emotion, the audio level and the speaking flag. It also holds the eye and mouth colour
  globals and the per-emotion partial updates. The strict `>` audio bands choose an emotion
  (0.1 / 0.3 / 0.6). The blink timer winks once more than 3000 ms have passed since the last wink,
  measured in unsigned 32-bit ticks, and schedules a one-shot restore of the emotion held before the wink. The canvas draws rectangles
  whose corners use integer halves.
- **`BluetoothFace`** (`main/bluetooth_face.c`) is the A2DP sink. Interleaved stereo 16-bit PCM
  is mixed to mono as `(L+R)/2`, truncated toward zero. The mono samples are appended to a
  1024-entry `int16_t` buffer until it is full. Once 512 samples are present, one window is
  analysed: its RMS level, clamped to 1, drives the face. The buffer then slides left by 256.
  The connection callback maps each A2DP connection state to `bt_connected` and an emotion.
  The audio callback passes data on only while connected.
- **`ArduinoFace`** (`main/main.cpp`) is the Arduino sketch's audio callback. It decodes every
  little-endian two's-complement sample, both channels alike, and stores
  `sum |sample| / (length/2) / 32768` in `audio_level`.
- **`ScreenFlash`** (`main/main.c`) is the backlight demo. It maps a brightness percentage to the
  13-bit duty `(8191 * brightness) / 100`, and its main loop sweeps 0, 10, …, 100, 100, …, 0.
- **`FlashTest`** (`test_flash.py`) is the host-side level-to-brightness table with strict bands.

Two helper modules serve them:

- `CTypes` holds the C integer types and the C operations whose meaning differs from Dafny's
  unbounded integers: truncating `/ 2`, the `int16_t` cast modulo 2^16, and `uint32_t` wrap-around.
- `Pcm` decodes and encodes little-endian int16 samples.

Stateful C code is modelled as classes over the C statics:

- `FaceEmote.Face` holds the face record, the colours, the blink statics and the pending restore timers.
- `BluetoothFace.FaceSink` holds `audio_buffer` as an `array<int16>`, plus `buffer_index`,
  `bt_connected` and `current_audio_level`.
- `ArduinoFace.Sketch` holds `audio_level`.

Each method is proved against a pure function of its inputs and old state:

- `WithEmotion`, `Recoloured` and `WithAudioLevel` specify the face updates.
- `Fill`, `Slide` and `Receive` specify the analysis buffer as a value `Window(buffer, index)`.
- `SumSquares`/`AudioLevel` and `SumAbs`/`LevelOf` specify the two level computations.

The properties are then proved about those functions.

Audio levels are `real`: float rounding is not modelled. `sqrtf` is a parameter
`sqrt: real -> real`, of which only non-negativity on non-negative inputs is assumed. With that
assumption the clamped RMS is in [0, 1] whatever the root returns.

Three behaviours of the firmware are worth stating plainly:

- The restore timer re-applies the emotion cached before the wink. It does not recompute it
  from the current level (`FaceEmote.RestoreUsesCachedEmotion`).
- A disconnect does not reset the audio level.
- Nothing decays the level while no audio arrives.

## Model

| member | source | states |
|---|---|---|
| CTypes.CHalf | main/bluetooth_face.c:126 | C's signed `/ 2` truncates toward zero: for a non-negative operand 2q ≤ a ≤ 2q+1, for a negative one 2q−1 ≤ a ≤ 2q |
| CTypes.ToInt16 | main/bluetooth_face.c:127 | the `(int16_t)` cast keeps the value modulo 2^16 and leaves every in-range value unchanged |
| CTypes.Wrap32 | main/face_emote.c:227 | `uint32_t` arithmetic reduces modulo 2^32 and leaves in-range values unchanged |
| Pcm.DecodeInt16 | main/main.cpp:21 | `(hi << 8) \| lo` read as `int16_t` equals lo + 256·hi modulo 2^16, and is negative exactly when the high byte's top bit is set |
| Pcm.EncodeInt16 | main/main.cpp:21 | the two bytes, low first, whose little-endian value is the two's-complement image of the sample |
| Pcm.DecodeEncode | main/main.cpp:21 | decoding the encoding of any int16 gives it back |
| Pcm.EncodeDecode | main/main.cpp:21 | encoding the decoded sample gives back the same two bytes, so the decoding is a bijection |
| FaceEmote.WithEmotion | main/face_emote.c:40-90 | sets the emotion and never moves eyes or mouth nor touches level or speaking; Happy sets only eye height 20 and mouth height 25, Sleepy 8 / 20×10, Excited 30, 30, 50, 30, Surprised 35, 35, 15, 25, Wink no size, Neutral resets to 25, 25, 40, 20 |
| FaceEmote.Recoloured | main/face_emote.c:43-90 | the background never changes; Happy sets only the mouth colour to 0xFF4444; Neutral restores the start-up green eyes and red mouth |
| FaceEmote.Band | main/face_emote.c:100-111 | each band in both directions: Excited iff level > 0.6, Happy iff 0.3 < level ≤ 0.6, Neutral iff 0.1 < level ≤ 0.3, Sleepy iff level ≤ 0.1 |
| FaceEmote.WithAudioLevel | main/face_emote.c:96-112 | stores the level verbatim, takes the band's emotion, speaks iff level > 0.1 and moves nothing |
| FaceEmote.Elapsed | main/face_emote.c:227 | the unsigned difference `now - blink_start`: plain when now ≥ start, otherwise taken across the 2^32 wrap |
| FaceEmote.EyeAreas | main/face_emote.c:129-163 | both eye rectangles are centred on their eye; each spans eye_width−1 to eye_width because of integer halves; in Wink the left eye is the slit y−2..y+2, otherwise both eyes have the same height |
| FaceEmote.MouthArea | main/face_emote.c:171-182 | the mouth rectangle is centred on the mouth, displaced vertically by the wave offset only while speaking, with the same integer-half spans |
| FaceEmote.Face.constructor | main/face_emote.c:4-12 | zero-initialised statics before `face_emote_init`: the face record and colours (lines 4-12), and the blink statics `is_blinking = false`, `blink_start = 0` (lines 224-225) with no restore pending |
| FaceEmote.Face.Init | main/face_emote.c:15-37 | eyes at (60,80) and (120,80), 25×25, mouth at (90,130), 40×20, Neutral, level 0, not speaking; black, green, red; blink state untouched |
| FaceEmote.Face.UpdateEmotion | main/face_emote.c:40-93 | the new record is `WithEmotion` of the old and the colours are `Recoloured`; blink state untouched |
| FaceEmote.Face.UpdateAudioLevel | main/face_emote.c:96-115 | the new record is `WithAudioLevel` of the old and the colours are those of the band's emotion |
| FaceEmote.Face.AnimateSpeaking | main/face_emote.c:215-220 | only the speaking flag changes |
| FaceEmote.Face.BlinkTick | main/face_emote.c:223-244 | when more than 3000 ms have passed since the last blink in unsigned arithmetic, the face winks, `blink_start` becomes now and a restore of the prior emotion is queued 200 ms later; otherwise nothing changes; `is_blinking` is false on exit |
| FaceEmote.Face.RestoreTimerFired | main/face_emote.c:236-239 | the oldest pending restore re-applies its cached emotion and is removed; with none pending nothing changes |
| FaceEmote.WithEmotionIdempotent | main/face_emote.c:43-90 | applying an emotion twice gives the same record, and from any colours the same colours, as applying it once |
| FaceEmote.BandMonotone | main/face_emote.c:100-111 | a louder level never picks a lower band in the order Sleepy < Neutral < Happy < Excited |
| FaceEmote.FullResetForgetsHistory | main/face_emote.c:50-89 | Neutral, Excited and Surprised write all four sizes, so the result does not depend on the previous sizes |
| FaceEmote.WinkLeavesNoGeometry | main/face_emote.c:76-80 | any emotion applied after a wink gives the record it would have given without the wink |
| FaceEmote.HappyAfterWinkKeepsMagentaEyes | main/face_emote.c:44-48 | restoring Happy after a wink leaves the eyes magenta, since Happy sets only the mouth colour |
| FaceEmote.UpdatesSettle | main/face_emote.c:15-29 | the initial record and every record an update produces have sizes matching their emotion |
| FaceEmote.RestoreUsesCachedEmotion | main/face_emote.c:232-239 | a level that reaches the Excited band during the wink is overridden by the cached Happy when the restore fires |
| FaceEmote.BlinkDueAcrossWrap | main/face_emote.c:227 | a tick counter that wrapped past zero still triggers a blink; exactly 3000 ms does not, 3001 ms does |
| FaceEmote.ElapsedSince | main/face_emote.c:227-229 | d ms after a blink, across the wrap too, the guard measures exactly d, so the blink is due iff d > 3000 |
| BluetoothFace.Mix | main/bluetooth_face.c:126-127 | the mono sample lies between the two channels and is their sum halved toward zero, so the `int16_t` cast never changes it |
| BluetoothFace.MonoSamples | main/bluetooth_face.c:120-127 | one mono sample per whole 4-byte frame: `len / 4` samples, sample k mixing bytes 4k..4k+3 |
| BluetoothFace.Stored | main/bluetooth_face.c:124 | the fill stores `min(frames, 1024 - index)` samples: it stops at the end of the input or at a full buffer |
| BluetoothFace.Fill | main/bluetooth_face.c:124-128 | positions before the old index are unchanged, positions [old index, new index) hold the mono samples in order, later positions are unchanged |
| BluetoothFace.Slide | main/bluetooth_face.c:139-141 | new[k] = old[k+256] for k < 768, the last 256 entries keep their values, the index drops by exactly 256 and the buffered samples lose their oldest 256 |
| BluetoothFace.Receive | main/bluetooth_face.c:118-145 | one call keeps the buffer well formed: exactly 1024 entries and an index of at most 1024 |
| BluetoothFace.MeanSquare | main/bluetooth_face.c:107-113 | the mean of the squared normalised samples lies in [0, 1], and is 0 for an empty window |
| BluetoothFace.AudioLevel | main/bluetooth_face.c:104-115 | 0 for an empty window; otherwise the root of the mean square clamped to 1; never negative, never above 1 |
| BluetoothFace.CalculateAudioLevel | main/bluetooth_face.c:104-115 | the loop over the first `count` samples returns `AudioLevel` of them, so 0 for no samples and in [0, 1] otherwise |
| BluetoothFace.ReceivedLevel | main/bluetooth_face.c:131-132 | an analysis happens iff the fill reaches 512 samples, and the analysed level is in [0, 1] |
| BluetoothFace.Emoted | main/bluetooth_face.c:135-136 | after the band update and `face_animate_speaking(level > 0.05)` the level and band emotion are set and speaking is exactly level > 0.05 |
| BluetoothFace.ConnectedAfter | main/bluetooth_face.c:149-175 | DISCONNECTED clears `bt_connected`, CONNECTED sets it, every other state leaves it unchanged |
| BluetoothFace.Announced | main/bluetooth_face.c:149-175 | the four known states show an emotion; any other state, a code outside 0-3, shows none |
| BluetoothFace.FaceSink.constructor | main/bluetooth_face.c:6-11 | buffer of 1024 zeros, index 0, not connected, level 0, after `face_emote_init` |
| BluetoothFace.FaceSink.AppendMono | main/bluetooth_face.c:120-128 | the fill loop leaves buffer and index equal to `Fill` of the old window with the frame samples |
| BluetoothFace.FaceSink.ShiftWindow | main/bluetooth_face.c:139-141 | the `memmove` loop and `buffer_index -= 256` leave buffer and index equal to `Slide` of the old window |
| BluetoothFace.FaceSink.AudioAnalyzeAndEmote | main/bluetooth_face.c:118-145 | the new window is `Receive` of the old; an analysis, exactly when 512 samples are present, sets the level and the face; `bt_connected` and the blink state are unchanged |
| BluetoothFace.FaceSink.ConnectionCallback | main/bluetooth_face.c:148-176 | `bt_connected` follows `ConnectedAfter`; the four known states apply Sleepy, Surprised, Happy, Neutral; other states change nothing; the audio state is unchanged |
| BluetoothFace.FaceSink.AudioCallback | main/bluetooth_face.c:179-183 | with no connection, a null pointer or zero length nothing changes; otherwise it behaves as `audio_analyze_and_emote`: new window, level, face and colours, with `bt_connected` and the blink and restore state unchanged |
| BluetoothFace.FillStep | main/bluetooth_face.c:127 | storing the next mono sample at the index extends the fill by exactly one position |
| BluetoothFace.FillStops | main/bluetooth_face.c:124 | a loop that stopped at the end of the input or at a full buffer has stored what `Fill` stores |
| BluetoothFace.MonoAt | main/bluetooth_face.c:126 | frame i of the loop reads samples 2i and 2i+1, and they lie inside the buffer |
| BluetoothFace.SumSquaresBounds | main/bluetooth_face.c:108-111 | each normalised square is at most 1, so the sum over n samples lies in [0, n] |
| BluetoothFace.SilenceIsZeroLevel | main/bluetooth_face.c:104-115 | an all-zero window has sum of squares 0 and level 0 when sqrt(0) = 0 |
| BluetoothFace.TrailingBytesIgnored | main/bluetooth_face.c:120 | 1-3 trailing bytes that do not make a whole frame add no mono sample |
| BluetoothFace.SameFrame | main/bluetooth_face.c:126 | a frame's mono value depends only on its four bytes |
| BluetoothFace.MonoSamplesConcat | main/bluetooth_face.c:120-127 | mixing is frame by frame: data split at a frame boundary mixes to the two parts' samples concatenated |
| BluetoothFace.ReceiveAsQueue | main/bluetooth_face.c:124-141 | the buffered samples form a queue: a call appends the samples that fit and, after an analysis, drops the oldest 256 |
| BluetoothFace.ReceiveIndexBound | main/bluetooth_face.c:131-141 | from at most 768 buffered samples a call never leaves more than 768, and an analysis lowers the index by exactly 256 |
| BluetoothFace.ExcessFramesDropped | main/bluetooth_face.c:124 | once the buffer is full, further frames in the same call change nothing |
| BluetoothFace.SpeakingOverridesLowBand | main/bluetooth_face.c:135-136 | a level in (0.05, 0.1] gives Sleepy yet speaking |
| BluetoothFace.DisconnectClosesGate | main/bluetooth_face.c:180 | after DISCONNECTED no audio passes the gate; after CONNECTED all non-empty data does; other states leave the gate as it was |
| ArduinoFace.LevelOf | main/main.cpp:24 | NaN exactly for an empty buffer (0.0f / 0); otherwise a finite level in [0, 1] |
| ArduinoFace.Sketch.constructor | main/main.cpp:14 | `audio_level` starts at 0 |
| ArduinoFace.Sketch.AudioDataCallback | main/main.cpp:17-25 | with an even length of at most `INT32_MAX`, the step-2 loop with its `int` counter sums `abs(sample)` of every 2-byte sample in an `int32_t` without overflow, and `audio_level` becomes `LevelOf(data)` |
| ArduinoFace.SumAbsBounds | main/main.cpp:19-23 | the sum of absolute samples lies in [0, (length/2)·32768] |
| ArduinoFace.SumAbsStep | main/main.cpp:20-22 | one more loop iteration adds the absolute value of the sample at i, and the running sum stays within the total |
| ArduinoFace.MeanBound | main/main.cpp:24 | sum / n / 32768 lies in [0, 1] when 0 ≤ sum ≤ 32768·n |
| ArduinoFace.SumAbsPrefix | main/main.cpp:19-23 | no running sum exceeds the final sum, so bounding the total bounds the whole loop |
| ArduinoFace.SilenceIsZero | main/main.cpp:19-24 | an all-zero buffer of at least one sample gives sum 0 and level 0 |
| ArduinoFace.ZeroSum | main/main.cpp:19-23 | all-zero bytes sum to 0 |
| ArduinoFace.NoOverflowUpTo65535Samples | main/main.cpp:19-22 | up to 65535 samples the sum always fits `int32_t` |
| ArduinoFace.FullScaleSum | main/main.cpp:21-22 | a buffer of full-scale −32768 samples sums to 32768 per sample |
| ArduinoFace.OverflowAt65536Samples | main/main.cpp:19-24 | 65536 full-scale samples exceed `INT32_MAX`, so the length bound is needed; one full-scale sample gives level 1 |
| ScreenFlash.Duty | main/main.c:38-39 | duty ≤ 8191 exactly for brightness ≤ 100; duty 0 exactly for 0; 100 gives 8191; no `uint8_t` exceeds 20887 |
| ScreenFlash.DutyMonotone | main/main.c:39 | duty is monotone non-decreasing in brightness |
| ScreenFlash.SweepCycle | main/main.c:53-60 | one pass makes 22 calls, 0, 10, …, 100 then 100, 90, …, 0; all multiples of 10 within [0, 100]; first and last 0; every duty fits 13 bits |
| FlashTest.Brightness | test_flash.py:6-13 | always one of 10, 40, 70, 100, each band in both directions: 100 iff > 0.3, 70 iff (0.1, 0.3], 40 iff (0.05, 0.1], 10 iff ≤ 0.05 |
| FlashTest.BrightnessMonotone | test_flash.py:6-13 | brightness is monotone non-decreasing in level |
| FlashTest.BoundariesAreStrict | test_flash.py:6-10 | exactly 0.3 gives 70, 0.1 gives 40, 0.05 gives 10 |
| FlashTest.TestTable | test_flash.py:2-13 | the listed levels map to 10, 10, 40, 70, 70, 100, 100, 100 |

## Left out

- Bluetooth stack work (`main/bluetooth_face.c:13-101`): controller and Bluedroid set-up, GAP, A2DP registration and scan modes are calls into ESP-IDF and are not modelled.
- LVGL work: canvas, timer and label creation, the draw calls and the audio text label (`main/face_emote.c:117-212,266-277`). Colours are plain 24-bit hex integers instead of `lv_color_hex`.
- `main/face_demo_integration.c` is UI glue with delegating calls and is not part of this model.
- The speaking mouth offset `(int)(sin(lv_tick_get() / 100.0) * 5)` is a parameter `wave` in [−5, 5] of `FaceEmote.MouthArea`. `sin` and the clock are not modelled.
- The float triangle-wave audio simulator `audio_timer_cb` (`main/face_emote.c:247-264`) and the float face scaling of `draw_face` in `main/main.cpp:27-38` are float numerics and are left out.
- `sqrtf` is a parameter of `BluetoothFace.AudioLevel` and `CalculateAudioLevel`. Only non-negativity is assumed of it.
- Float rounding is not modelled: levels are exact reals, so a float level that rounds across a band boundary is not modelled.
- `BluetoothFace.AudioLevel`: states the clamped RMS over reals. It does not capture that `sum / count` and the squares are computed in single precision.
- Concurrency: the A2DP callbacks and the LVGL timers share the statics without locks. Each call is modelled as one atomic, sequential step.
- Timer objects: the blink's one-shot restore timer is modelled as a pending `(emotion, deadline)` record in `Face.restores`, fired by `RestoreTimerFired`. `lv_timer_create` and `lv_timer_del` are not modelled, and neither is the clock that decides when a deadline is reached.
- `FaceEmote.Face.BlinkTick`: the two `lv_tick_get()` calls at `main/face_emote.c:227` and `:229` are taken as one instant `now`.
- `ArduinoFace.Sketch.AudioDataCallback`: requires an even length, because an odd length reads one byte past the buffer. It requires a length of at most `INT32_MAX`, because the `int i` loop counter of `main/main.cpp:20` overflows on its last `i += 2` for longer buffers. It also requires a sum within `INT32_MAX`, because the `int32_t` sum would overflow. Signed overflow is undefined in C, so none of these error paths is modelled.
- The A2DP stream wiring, `setup()` and `loop()` of `main/main.cpp` are hardware glue and are left out.
- `main/main.c`: the LEDC configuration (`main/main.c:16-36`), the `ledc_set_duty`/`ledc_update_duty` calls and `vTaskDelay` are hardware. `ScreenFlash.SweepCycle` returns the brightness and duty sequence of one pass of the endless `while (1)` instead of driving the pin.
- The prints of `test_flash.py` are left out.
- Host tooling (`setup.py`, `auto_flash.py`) is subprocess and filesystem work and is not part of this model.
