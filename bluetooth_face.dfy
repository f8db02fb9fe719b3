/** The A2DP sink that drives the face: stereo PCM is mixed to mono into a
    1024-sample buffer, a 512-sample window is analysed once it is full, the
    buffer then slides by half a window, and connection events pick emotions. */
module BluetoothFace {
  import opened CTypes
  import opened Pcm
  import opened FaceEmote

  const AUDIO_BUFFER_SIZE: nat := 1024
  const AUDIO_ANALYSIS_WINDOW: nat := 512
  const HALF_WINDOW: nat := 256
  /** `face_animate_speaking` is told to speak above this level. */
  const SPEAKING_LEVEL: real := 0.05

  datatype Option<T> = None | Some(value: T)

  /** A value of `esp_a2dp_connection_state_t` outside the four named states 0-3. */
  type OtherStateCode = c: int | c < 0 || c > 3 witness 4

  /** `esp_a2dp_connection_state_t`; `Unknown` stands for any other value. */
  datatype ConnectionState = Disconnected | Connecting | Connected | Disconnecting | Unknown(code: OtherStateCode)

  // ---------------------------------------------------------------------
  // Stereo to mono

  /** `((int32_t)left + (int32_t)right) / 2`, truncated toward zero, cast to
      `int16_t`: the mean of the two channels, which never leaves their range,
      so the cast never changes the value. */
  function Mix(left: int16, right: int16): (m: int16)
    ensures Min(left, right) <= m <= Max(left, right)
    ensures left + right >= 0 ==> 2 * m <= left + right <= 2 * m + 1
    ensures left + right < 0 ==> 2 * m - 1 <= left + right <= 2 * m
  {
    ToInt16(CHalf(left + right))
  }

  /** The mono value of stereo frame `k`: bytes 4k..4k+3, left sample first. */
  function FrameMix(data: seq<byte>, k: nat): int16
    requires 4 * k + 3 < |data|
  {
    Mix(SampleAt(data, 2 * k), SampleAt(data, 2 * k + 1))
  }

  /** One mono sample per whole 4-byte frame; a trailing partial frame is ignored. */
  function MonoSamples(data: seq<byte>): (mono: seq<int16>)
    ensures |mono| == |data| / 4
    ensures forall k :: 0 <= k < |mono| ==> mono[k] == FrameMix(data, k)
  {
    seq(|data| / 4, k requires 0 <= k < |data| / 4 => FrameMix(data, k))
  }

  // ---------------------------------------------------------------------
  // The analysis buffer as a value

  /** `audio_buffer` and `buffer_index`. */
  datatype Window = Window(buffer: seq<int16>, index: nat)

  predicate WindowValid(w: Window) {
    |w.buffer| == AUDIO_BUFFER_SIZE && w.index <= AUDIO_BUFFER_SIZE
  }

  /** The samples buffered so far, oldest first. */
  function Buffered(w: Window): seq<int16>
    requires WindowValid(w)
  {
    w.buffer[..w.index]
  }

  /** The number of mono samples the fill loop stores: it stops at the end of
      the input or when the buffer is full, whichever comes first. */
  function Stored(w: Window, frames: nat): (n: nat)
    requires WindowValid(w)
    ensures n <= frames && w.index + n <= AUDIO_BUFFER_SIZE
    ensures n == frames || w.index + n == AUDIO_BUFFER_SIZE
  {
    Min(frames, AUDIO_BUFFER_SIZE - w.index)
  }

  /** The buffer after the fill loop: positions [index, index + n) receive
      the first n mono samples, every other position keeps its value. */
  function Fill(w: Window, mono: seq<int16>): (r: Window)
    requires WindowValid(w)
    ensures WindowValid(r)
    ensures r.index == w.index + Stored(w, |mono|)
    ensures forall k :: 0 <= k < w.index ==> r.buffer[k] == w.buffer[k]
    ensures forall k :: w.index <= k < r.index ==> r.buffer[k] == mono[k - w.index]
    ensures forall k :: r.index <= k < AUDIO_BUFFER_SIZE ==> r.buffer[k] == w.buffer[k]
  {
    var n := Stored(w, |mono|);
    Window(w.buffer[..w.index] + mono[..n] + w.buffer[w.index + n..], w.index + n)
  }

  /** The `memmove` by half a window and `buffer_index -= 256`: the first 768
      entries take the values 256 places further on, the last 256 keep theirs. */
  function Slide(w: Window): (r: Window)
    requires WindowValid(w) && w.index >= AUDIO_ANALYSIS_WINDOW
    ensures WindowValid(r) && r.index == w.index - HALF_WINDOW
    ensures forall k :: 0 <= k < AUDIO_BUFFER_SIZE - HALF_WINDOW ==> r.buffer[k] == w.buffer[k + HALF_WINDOW]
    ensures forall k :: AUDIO_BUFFER_SIZE - HALF_WINDOW <= k < AUDIO_BUFFER_SIZE ==> r.buffer[k] == w.buffer[k]
    ensures Buffered(r) == Buffered(w)[HALF_WINDOW..]
  {
    Window(w.buffer[HALF_WINDOW..] + w.buffer[AUDIO_BUFFER_SIZE - HALF_WINDOW..], w.index - HALF_WINDOW)
  }

  /** The buffer after one call of `audio_analyze_and_emote`. */
  function Receive(w: Window, data: seq<byte>): (r: Window)
    requires WindowValid(w)
    ensures WindowValid(r)
  {
    var filled := Fill(w, MonoSamples(data));
    if filled.index >= AUDIO_ANALYSIS_WINDOW then Slide(filled) else filled
  }

  // ---------------------------------------------------------------------
  // The level of the analysis window

  /** A sample scaled to [-1, 1). */
  function Normalised(x: int16): real {
    x as real / 32768.0
  }

  /** The sum of the squared normalised samples. */
  function SumSquares(w: seq<int16>): real {
    if |w| == 0 then 0.0
    else SumSquares(w[..|w| - 1]) + Normalised(w[|w| - 1]) * Normalised(w[|w| - 1])
  }

  function MeanSquare(w: seq<int16>): (m: real)
    ensures 0.0 <= m <= 1.0
    ensures |w| == 0 ==> m == 0.0
  {
    if |w| == 0 then 0.0
    else
      SumSquaresBounds(w);
      SumSquares(w) / |w| as real
  }

  /** What is assumed of `sqrtf`: it is never negative on a non-negative input. */
  ghost predicate NonNegativeRoot(sqrt: real -> real) {
    forall x: real :: 0.0 <= x ==> 0.0 <= sqrt(x)
  }

  /** `calculate_audio_level`: 0 for an empty window, else the root of the mean
      square clamped to at most 1. */
  function AudioLevel(w: seq<int16>, sqrt: real -> real): (level: real)
    requires NonNegativeRoot(sqrt)
    ensures |w| == 0 ==> level == 0.0
    ensures 0.0 <= level <= 1.0
    ensures |w| > 0 && sqrt(MeanSquare(w)) <= 1.0 ==> level == sqrt(MeanSquare(w))
  {
    if |w| == 0 then 0.0 else MinReal(sqrt(MeanSquare(w)), 1.0)
  }

  /** The loop of `calculate_audio_level` over the first `count` samples. */
  method CalculateAudioLevel(samples: array<int16>, count: nat, sqrt: real -> real) returns (level: real)
    requires count <= samples.Length
    requires NonNegativeRoot(sqrt)
    ensures level == AudioLevel(samples[..count], sqrt)
    ensures 0.0 <= level <= 1.0
    ensures count == 0 ==> level == 0.0
  {
    if count == 0 {
      return 0.0;
    }
    var sum := 0.0;
    var i := 0;
    while i < count
      invariant 0 <= i <= count
      invariant sum == SumSquares(samples[..i])
    {
      var sample := samples[i] as real / 32768.0;
      sum := sum + sample * sample;
      assert samples[..i + 1][..i] == samples[..i];
      i := i + 1;
    }
    assert samples[..count] == samples[..i];
    var rms := sqrt(sum / count as real);
    level := MinReal(rms, 1.0);
  }

  /** The level one call analyses, if its fill reaches a full window. */
  function ReceivedLevel(w: Window, data: seq<byte>, sqrt: real -> real): (level: Option<real>)
    requires WindowValid(w) && NonNegativeRoot(sqrt)
    ensures level.Some? <==> w.index + Stored(w, |data| / 4) >= AUDIO_ANALYSIS_WINDOW
    ensures level.Some? ==> 0.0 <= level.value <= 1.0
  {
    var filled := Fill(w, MonoSamples(data));
    if filled.index >= AUDIO_ANALYSIS_WINDOW then Some(AudioLevel(filled.buffer[..AUDIO_ANALYSIS_WINDOW], sqrt))
    else None
  }

  /** The face after `face_update_audio_level(level)` followed by
      `face_animate_speaking(level > 0.05)`: the second overrides the speaking
      flag the first set from the 0.1 band. */
  function Emoted(s: FaceState, level: real): (r: FaceState)
    ensures r.audioLevel == level && r.emotion == Band(level)
    ensures r.isSpeaking <==> level > SPEAKING_LEVEL
    ensures SamePlacement(s, r)
  {
    WithAudioLevel(s, level).(isSpeaking := level > SPEAKING_LEVEL)
  }

  function FaceAfter(s: FaceState, level: Option<real>): FaceState {
    match level
    case Some(l) => Emoted(s, l)
    case None => s
  }

  function ColoursAfter(p: Palette, level: Option<real>): Palette {
    match level
    case Some(l) => Recoloured(p, Band(l))
    case None => p
  }

  // ---------------------------------------------------------------------
  // Connection events

  /** `bt_connected` after a connection event. */
  function ConnectedAfter(connected: bool, state: ConnectionState): (c: bool)
    ensures state == Disconnected ==> !c
    ensures state == Connected ==> c
    ensures state != Disconnected && state != Connected ==> c == connected
  {
    match state
    case Disconnected => false
    case Connected => true
    case _ => connected
  }

  /** The emotion a connection event shows, if any. */
  function Announced(state: ConnectionState): (e: Option<Emotion>)
    ensures e.None? <==> state.Unknown?
  {
    match state
    case Disconnected => Some(Sleepy)
    case Connecting => Some(Surprised)
    case Connected => Some(Happy)
    case Disconnecting => Some(Neutral)
    case Unknown(_) => None
  }

  /** Whether `bluetooth_audio_callback` passes the data on. */
  predicate AudioGate(connected: bool, data: Option<seq<byte>>) {
    connected && data.Some? && |data.value| > 0
  }

  // ---------------------------------------------------------------------
  // The module's static state

  class FaceSink {
    const audioBuffer: array<int16>
    const face: Face
    var bufferIndex: nat
    var btConnected: bool
    var currentAudioLevel: real

    ghost predicate Valid()
      reads this, face
    {
      audioBuffer.Length == AUDIO_BUFFER_SIZE && bufferIndex <= AUDIO_BUFFER_SIZE && face.Valid()
    }

    function Current(): Window
      reads this, audioBuffer
    {
      Window(audioBuffer[..], bufferIndex)
    }

    /** The statics at start-up, after `bluetooth_face_init` has run
        `face_emote_init`. */
    constructor ()
      ensures Valid() && fresh(audioBuffer) && fresh(face)
      ensures Current() == Window(seq(AUDIO_BUFFER_SIZE, _ => 0), 0)
      ensures !btConnected && currentAudioLevel == 0.0
      ensures face.state == INITIAL_FACE && face.Colours() == INITIAL_PALETTE
      ensures face.blinkStart == 0 && face.restores == []
    {
      audioBuffer := new int16[AUDIO_BUFFER_SIZE](_ => 0);
      bufferIndex := 0;
      btConnected := false;
      currentAudioLevel := 0.0;
      face := new Face();
      new;
      face.Init();
    }

    /** The fill loop of `audio_analyze_and_emote`. */
    method AppendMono(data: seq<byte>)
      requires Valid()
      modifies this`bufferIndex, audioBuffer
      ensures Valid()
      ensures Current() == Fill(old(Current()), MonoSamples(data))
    {
      ghost var w0 := Current();
      ghost var mono := MonoSamples(data);
      var sampleCount := |data| / 4;
      var i := 0;
      while i < sampleCount && bufferIndex < AUDIO_BUFFER_SIZE
        invariant 0 <= i <= sampleCount
        invariant bufferIndex == w0.index + i <= AUDIO_BUFFER_SIZE
        invariant audioBuffer[..] == Fill(w0, mono[..i]).buffer
      {
        MonoAt(data, i);
        FillStep(w0, mono, i);
        audioBuffer[bufferIndex] := Mix(SampleAt(data, 2 * i), SampleAt(data, 2 * i + 1));
        bufferIndex := bufferIndex + 1;
        i := i + 1;
      }
      FillStops(w0, mono, i);
    }

    /** The `memmove` and `buffer_index -= AUDIO_ANALYSIS_WINDOW/2`. */
    method ShiftWindow()
      requires Valid() && bufferIndex >= AUDIO_ANALYSIS_WINDOW
      modifies this`bufferIndex, audioBuffer
      ensures Valid()
      ensures Current() == Slide(old(Current()))
    {
      ghost var w0 := Current();
      var k := 0;
      while k < AUDIO_BUFFER_SIZE - HALF_WINDOW
        invariant 0 <= k <= AUDIO_BUFFER_SIZE - HALF_WINDOW
        invariant forall j :: 0 <= j < k ==> audioBuffer[j] == w0.buffer[j + HALF_WINDOW]
        invariant forall j :: k <= j < AUDIO_BUFFER_SIZE ==> audioBuffer[j] == w0.buffer[j]
        invariant bufferIndex == w0.index
      {
        audioBuffer[k] := audioBuffer[k + HALF_WINDOW];
        k := k + 1;
      }
      bufferIndex := bufferIndex - HALF_WINDOW;
      assert audioBuffer[..] == Slide(w0).buffer;
    }

    /** `audio_analyze_and_emote`. */
    method AudioAnalyzeAndEmote(data: seq<byte>, sqrt: real -> real)
      requires Valid() && |data| < UINT32_MODULUS && NonNegativeRoot(sqrt)
      modifies this, audioBuffer, face
      ensures Valid()
      ensures Current() == Receive(old(Current()), data)
      ensures btConnected == old(btConnected)
      ensures var level := ReceivedLevel(old(Current()), data, sqrt);
              && face.state == FaceAfter(old(face.state), level)
              && face.Colours() == ColoursAfter(old(face.Colours()), level)
              && currentAudioLevel == (if level.Some? then level.value else old(currentAudioLevel))
      ensures face.blinkStart == old(face.blinkStart) && face.restores == old(face.restores)
    {
      AppendMono(data);
      if bufferIndex >= AUDIO_ANALYSIS_WINDOW {
        currentAudioLevel := CalculateAudioLevel(audioBuffer, AUDIO_ANALYSIS_WINDOW, sqrt);
        face.UpdateAudioLevel(currentAudioLevel);
        face.AnimateSpeaking(currentAudioLevel > SPEAKING_LEVEL);
        ShiftWindow();
      }
    }

    /** `bluetooth_connection_callback`. */
    method ConnectionCallback(state: ConnectionState)
      requires Valid()
      modifies this, face
      ensures Valid()
      ensures btConnected == ConnectedAfter(old(btConnected), state)
      ensures Announced(state).Some? ==>
        face.state == WithEmotion(old(face.state), Announced(state).value) &&
        face.Colours() == Recoloured(old(face.Colours()), Announced(state).value)
      ensures Announced(state).None? ==> face.state == old(face.state) && face.Colours() == old(face.Colours())
      ensures Current() == old(Current()) && currentAudioLevel == old(currentAudioLevel)
      ensures face.blinkStart == old(face.blinkStart) && face.restores == old(face.restores)
    {
      match state {
        case Disconnected =>
          btConnected := false;
          face.UpdateEmotion(Sleepy);
        case Connecting =>
          face.UpdateEmotion(Surprised);
        case Connected =>
          btConnected := true;
          face.UpdateEmotion(Happy);
        case Disconnecting =>
          face.UpdateEmotion(Neutral);
        case Unknown(_) =>
      }
    }

    /** `bluetooth_audio_callback`: `data` is `None` for a null pointer, and
        otherwise holds the `len` bytes delivered. */
    method AudioCallback(data: Option<seq<byte>>, sqrt: real -> real)
      requires Valid() && NonNegativeRoot(sqrt)
      requires data.Some? ==> |data.value| < UINT32_MODULUS
      modifies this, audioBuffer, face
      ensures Valid()
      ensures !AudioGate(old(btConnected), data) ==>
        unchanged(this) && unchanged(audioBuffer) && unchanged(face)
      ensures AudioGate(old(btConnected), data) ==>
        var level := ReceivedLevel(old(Current()), data.value, sqrt);
        && Current() == Receive(old(Current()), data.value)
        && face.state == FaceAfter(old(face.state), level)
        && face.Colours() == ColoursAfter(old(face.Colours()), level)
        && currentAudioLevel == (if level.Some? then level.value else old(currentAudioLevel))
        && btConnected == old(btConnected)
        && face.blinkStart == old(face.blinkStart) && face.restores == old(face.restores)
    {
      if btConnected && data.Some? && |data.value| > 0 {
        AudioAnalyzeAndEmote(data.value, sqrt);
      }
    }
  }

  // ---------------------------------------------------------------------
  // Properties

  /** Storing the next mono sample extends the fill by one position. */
  lemma FillStep(w: Window, mono: seq<int16>, i: nat)
    requires WindowValid(w) && i < |mono| && w.index + i < AUDIO_BUFFER_SIZE
    ensures Fill(w, mono[..i + 1]) == Window(Fill(w, mono[..i]).buffer[w.index + i := mono[i]], w.index + i + 1)
  {
    var before := Fill(w, mono[..i]);
    var after := Fill(w, mono[..i + 1]);
    assert after.buffer == before.buffer[w.index + i := mono[i]];
  }

  /** The fill loop stops at the end of the input or at a full buffer; either
      way it has stored everything `Fill` stores. */
  lemma FillStops(w: Window, mono: seq<int16>, i: nat)
    requires WindowValid(w) && i <= |mono| && w.index + i <= AUDIO_BUFFER_SIZE
    requires i == |mono| || w.index + i == AUDIO_BUFFER_SIZE
    ensures Fill(w, mono[..i]) == Fill(w, mono)
  {
    var part := Fill(w, mono[..i]);
    var whole := Fill(w, mono);
    assert part.buffer == whole.buffer;
  }

  /** Frame `i` of the input, read as the fill loop reads it. */
  lemma MonoAt(data: seq<byte>, i: nat)
    requires i < |data| / 4
    ensures 4 * i + 3 < |data|
    ensures MonoSamples(data)[i] == Mix(SampleAt(data, 2 * i), SampleAt(data, 2 * i + 1))
  {
    assert |data| / 4 * 4 <= |data|;
  }

  lemma {:induction false} SumSquaresBounds(w: seq<int16>)
    ensures 0.0 <= SumSquares(w) <= |w| as real
  {
    if |w| > 0 {
      SumSquaresBounds(w[..|w| - 1]);
      var x := Normalised(w[|w| - 1]);
      assert -1.0 <= x <= 1.0;
      if x >= 0.0 {
        assert x * x <= x * 1.0;
      } else {
        assert x * x <= (-x) * 1.0;
      }
    }
  }

  /** An all-zero window has level sqrt(0), which is 0 for a true root. */
  lemma {:induction false} SilenceIsZeroLevel(w: seq<int16>, sqrt: real -> real)
    requires NonNegativeRoot(sqrt) && sqrt(0.0) == 0.0
    requires forall k :: 0 <= k < |w| ==> w[k] == 0
    ensures SumSquares(w) == 0.0
    ensures AudioLevel(w, sqrt) == 0.0
  {
    if |w| > 0 {
      SilenceIsZeroLevel(w[..|w| - 1], sqrt);
    }
  }

  /** Trailing bytes that do not make a whole frame add no sample. */
  lemma TrailingBytesIgnored(data: seq<byte>, extra: seq<byte>)
    requires |data| % 4 == 0 && |extra| < 4
    ensures MonoSamples(data + extra) == MonoSamples(data)
  {
    MonoSamplesConcat(data, extra);
    assert MonoSamples(extra) == [];
  }

  /** A frame's mono value depends only on its four bytes. */
  lemma SameFrame(x: seq<byte>, k: nat, y: seq<byte>, j: nat)
    requires 4 * k + 3 < |x| && 4 * j + 3 < |y|
    requires x[4 * k] == y[4 * j] && x[4 * k + 1] == y[4 * j + 1]
    requires x[4 * k + 2] == y[4 * j + 2] && x[4 * k + 3] == y[4 * j + 3]
    ensures FrameMix(x, k) == FrameMix(y, j)
  {
  }

  /** Mixing is frame by frame: a buffer split at a frame boundary mixes to
      the two halves' samples one after the other. */
  lemma MonoSamplesConcat(a: seq<byte>, b: seq<byte>)
    requires |a| % 4 == 0
    ensures MonoSamples(a + b) == MonoSamples(a) + MonoSamples(b)
  {
    var ab := a + b;
    var qa := |a| / 4;
    assert |a| == 4 * qa;
    var l, r := MonoSamples(ab), MonoSamples(a) + MonoSamples(b);
    assert |l| == |r|;
    forall k | 0 <= k < |l| ensures l[k] == r[k] {
      if k < qa {
        SameFrame(ab, k, a, k);
      } else {
        var j := k - qa;
        assert 4 * k == |a| + 4 * j;
        SameFrame(ab, k, b, j);
      }
    }
  }

  /** The buffered samples behave as a queue: a call appends the samples
      that fit and, when a window was analysed, drops the oldest 256. */
  lemma ReceiveAsQueue(w: Window, data: seq<byte>)
    requires WindowValid(w)
    ensures var arrived := MonoSamples(data)[..Stored(w, |data| / 4)];
            var queued := Buffered(w) + arrived;
            Buffered(Receive(w, data)) ==
              if |queued| >= AUDIO_ANALYSIS_WINDOW then queued[HALF_WINDOW..] else queued
  {
    var mono := MonoSamples(data);
    var filled := Fill(w, mono);
    var queued := Buffered(w) + mono[..Stored(w, |data| / 4)];
    assert Buffered(filled) == queued;
  }

  /** Starting from at most 768 buffered samples, a call never leaves more
      than 768, and an analysis lowers the count by exactly 256. */
  lemma ReceiveIndexBound(w: Window, data: seq<byte>)
    requires WindowValid(w) && w.index <= AUDIO_BUFFER_SIZE - HALF_WINDOW
    ensures Receive(w, data).index <= AUDIO_BUFFER_SIZE - HALF_WINDOW
    ensures var filled := w.index + Stored(w, |data| / 4);
            Receive(w, data).index == if filled >= AUDIO_ANALYSIS_WINDOW then filled - HALF_WINDOW else filled
  {
  }

  /** Frames that arrive once the buffer is full are dropped. */
  lemma ExcessFramesDropped(w: Window, data: seq<byte>, extra: seq<byte>)
    requires WindowValid(w) && |data| % 4 == 0 && w.index + |data| / 4 >= AUDIO_BUFFER_SIZE
    ensures Receive(w, data + extra) == Receive(w, data)
    ensures Stored(w, |data + extra| / 4) == AUDIO_BUFFER_SIZE - w.index
  {
    MonoSamplesConcat(data, extra);
    var n := AUDIO_BUFFER_SIZE - w.index;
    assert (MonoSamples(data) + MonoSamples(extra))[..n] == MonoSamples(data)[..n];
  }

  /** A level in (0.05, 0.1] falls in the Sleepy band but the face speaks. */
  lemma SpeakingOverridesLowBand(s: FaceState, level: real)
    requires SPEAKING_LEVEL < level <= THRESHOLD_LOW
    ensures Emoted(s, level).emotion == Sleepy && Emoted(s, level).isSpeaking
  {
  }

  /** After a disconnect no audio reaches the analysis until a connect. */
  lemma DisconnectClosesGate(connected: bool, data: Option<seq<byte>>, state: ConnectionState)
    ensures !AudioGate(ConnectedAfter(connected, Disconnected), data)
    ensures AudioGate(ConnectedAfter(connected, Connected), data) <==> data.Some? && |data.value| > 0
    ensures state != Connected && state != Disconnected ==>
              AudioGate(ConnectedAfter(connected, state), data) == AudioGate(connected, data)
  {
  }
}
