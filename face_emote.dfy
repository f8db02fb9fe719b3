/** The cartoon face: one record of geometry, emotion and audio state, three
    colour globals, the audio-level bands that choose an emotion, the blink
    timer with its one-shot restore, and the rectangles the canvas draws. */
module FaceEmote {
  import opened CTypes

  datatype Emotion = Neutral | Happy | Excited | Sleepy | Surprised | Wink

  /** Strict lower bounds of the audio bands. */
  const THRESHOLD_LOW: real := 0.1
  const THRESHOLD_MID: real := 0.3
  const THRESHOLD_HIGH: real := 0.6

  /** Milliseconds between blinks, and how long a wink is shown. */
  const BLINK_INTERVAL: int := 3000
  const WINK_DURATION: int := 200

  /** Colours, as 24-bit RGB hex values. */
  const BLACK: int := 0x000000
  const GREEN: int := 0x00FF00
  const RED: int := 0xFF0000
  const BRIGHT_RED: int := 0xFF4444
  const CYAN: int := 0x00FFFF
  const PINK: int := 0xFF0088
  const BLUE: int := 0x0088FF
  const GRAY: int := 0x888888
  const YELLOW: int := 0xFFFF00
  const ORANGE: int := 0xFF8800
  const MAGENTA: int := 0xFF00FF
  const MINT: int := 0x00FF88

  /** The face record: eye and mouth centres and sizes, emotion, level, speaking. */
  datatype FaceState = FaceState(
    eyeLeftX: int, eyeLeftY: int,
    eyeRightX: int, eyeRightY: int,
    eyeWidth: int, eyeHeight: int,
    mouthX: int, mouthY: int,
    mouthWidth: int, mouthHeight: int,
    emotion: Emotion,
    audioLevel: real,
    isSpeaking: bool)

  /** The background, eye and mouth colours. */
  datatype Palette = Palette(background: int, eye: int, mouth: int)

  /** A pending one-shot restore timer: the emotion it puts back and when. */
  datatype Restore = Restore(emotion: Emotion, deadline: uint32)

  /** An `lv_area_t`: the corners of a rectangle, both inclusive. */
  datatype Area = Area(x1: int, y1: int, x2: int, y2: int)

  const INITIAL_FACE: FaceState :=
    FaceState(60, 80, 120, 80, 25, 25, 90, 130, 40, 20, Neutral, 0.0, false)
  const INITIAL_PALETTE: Palette := Palette(BLACK, GREEN, RED)

  /** Eye width, eye height, mouth width, mouth height. */
  function Sizes(s: FaceState): (int, int, int, int) {
    (s.eyeWidth, s.eyeHeight, s.mouthWidth, s.mouthHeight)
  }

  predicate SamePlacement(s: FaceState, t: FaceState) {
    && s.eyeLeftX == t.eyeLeftX && s.eyeLeftY == t.eyeLeftY
    && s.eyeRightX == t.eyeRightX && s.eyeRightY == t.eyeRightY
    && s.mouthX == t.mouthX && s.mouthY == t.mouthY
  }

  /** The face after `face_update_emotion(e)`: each case overwrites only the
      sizes it names; Neutral (the default case) resets all four. */
  function WithEmotion(s: FaceState, e: Emotion): (r: FaceState)
    ensures r.emotion == e
    ensures SamePlacement(s, r)
    ensures r.audioLevel == s.audioLevel && r.isSpeaking == s.isSpeaking
    ensures e == Wink ==> Sizes(r) == Sizes(s)
    ensures e == Happy ==> Sizes(r) == (s.eyeWidth, 20, s.mouthWidth, 25)
    ensures e == Sleepy ==> Sizes(r) == (s.eyeWidth, 8, 20, 10)
    ensures e == Excited ==> Sizes(r) == (30, 30, 50, 30)
    ensures e == Surprised ==> Sizes(r) == (35, 35, 15, 25)
    ensures e == Neutral ==> Sizes(r) == Sizes(INITIAL_FACE)
  {
    match e
    case Happy => s.(emotion := e, eyeHeight := 20, mouthHeight := 25)
    case Excited => s.(emotion := e, eyeWidth := 30, eyeHeight := 30, mouthWidth := 50, mouthHeight := 30)
    case Sleepy => s.(emotion := e, eyeHeight := 8, mouthWidth := 20, mouthHeight := 10)
    case Surprised => s.(emotion := e, eyeWidth := 35, eyeHeight := 35, mouthWidth := 15, mouthHeight := 25)
    case Wink => s.(emotion := e)
    case Neutral => s.(emotion := e, eyeWidth := 25, eyeHeight := 25, mouthWidth := 40, mouthHeight := 20)
  }

  /** The colours after `face_update_emotion(e)`: Happy sets only the mouth,
      every other case both eye and mouth; the background never changes. */
  function Recoloured(p: Palette, e: Emotion): (r: Palette)
    ensures r.background == p.background
    ensures e == Happy ==> r.eye == p.eye && r.mouth == BRIGHT_RED
    ensures e == Neutral ==> r == Palette(p.background, INITIAL_PALETTE.eye, INITIAL_PALETTE.mouth)
  {
    match e
    case Happy => p.(mouth := BRIGHT_RED)
    case Excited => p.(eye := CYAN, mouth := PINK)
    case Sleepy => p.(eye := BLUE, mouth := GRAY)
    case Surprised => p.(eye := YELLOW, mouth := ORANGE)
    case Wink => p.(eye := MAGENTA, mouth := MINT)
    case Neutral => p.(eye := GREEN, mouth := RED)
  }

  /** The emotion `face_update_audio_level` picks: strict `>` bands. */
  function Band(level: real): (e: Emotion)
    ensures e == Excited <==> level > THRESHOLD_HIGH
    ensures e == Happy <==> THRESHOLD_MID < level <= THRESHOLD_HIGH
    ensures e == Neutral <==> THRESHOLD_LOW < level <= THRESHOLD_MID
    ensures e == Sleepy <==> level <= THRESHOLD_LOW
  {
    if level > THRESHOLD_HIGH then Excited
    else if level > THRESHOLD_MID then Happy
    else if level > THRESHOLD_LOW then Neutral
    else Sleepy
  }

  /** Position of a band emotion in the order Sleepy < Neutral < Happy < Excited. */
  function BandRank(e: Emotion): nat {
    match e
    case Sleepy => 0
    case Neutral => 1
    case Happy => 2
    case Excited => 3
    case _ => 0
  }

  /** The face after `face_update_audio_level(level)`. */
  function WithAudioLevel(s: FaceState, level: real): (r: FaceState)
    ensures r.audioLevel == level
    ensures r.emotion == Band(level)
    ensures r.isSpeaking <==> level > THRESHOLD_LOW
    ensures SamePlacement(s, r)
  {
    WithEmotion(s.(audioLevel := level), Band(level)).(isSpeaking := level > THRESHOLD_LOW)
  }

  /** `lv_tick_get() - blink_start` in `uint32_t` arithmetic. */
  function Elapsed(now: uint32, start: uint32): (d: uint32)
    ensures now >= start ==> d == now - start
    ensures now < start ==> d == now + UINT32_MODULUS - start
  {
    Wrap32(now - start)
  }

  predicate BlinkDue(now: uint32, start: uint32) {
    Elapsed(now, start) > BLINK_INTERVAL
  }

  /** Centred(a, x, y): the rectangle's midpoint is (x, y). */
  predicate Centred(a: Area, x: int, y: int) {
    a.x1 + a.x2 == 2 * x && a.y1 + a.y2 == 2 * y
  }

  /** The left and right eye rectangles `draw_face_on_canvas` fills. */
  function EyeAreas(s: FaceState): (eyes: (Area, Area))
    ensures Centred(eyes.0, s.eyeLeftX, s.eyeLeftY) && Centred(eyes.1, s.eyeRightX, s.eyeRightY)
    ensures s.eyeWidth >= 0 ==> s.eyeWidth - 1 <= eyes.1.x2 - eyes.1.x1 <= s.eyeWidth
    ensures s.eyeHeight >= 0 ==> s.eyeHeight - 1 <= eyes.1.y2 - eyes.1.y1 <= s.eyeHeight
    ensures eyes.0.x2 - eyes.0.x1 == eyes.1.x2 - eyes.1.x1
    ensures s.emotion == Wink ==> eyes.0.y1 == s.eyeLeftY - 2 && eyes.0.y2 == s.eyeLeftY + 2
    ensures s.emotion != Wink ==> eyes.0.y2 - eyes.0.y1 == eyes.1.y2 - eyes.1.y1
  {
    var halfW := CHalf(s.eyeWidth);
    var halfH := CHalf(s.eyeHeight);
    var right := Area(s.eyeRightX - halfW, s.eyeRightY - halfH, s.eyeRightX + halfW, s.eyeRightY + halfH);
    if s.emotion == Wink then
      (Area(s.eyeLeftX - halfW, s.eyeLeftY - 2, s.eyeLeftX + halfW, s.eyeLeftY + 2), right)
    else
      (Area(s.eyeLeftX - halfW, s.eyeLeftY - halfH, s.eyeLeftX + halfW, s.eyeLeftY + halfH), right)
  }

  /** The mouth rectangle; `wave` is the truncated `sin(...) * 5` offset,
      applied only while speaking. */
  function MouthArea(s: FaceState, wave: int): (a: Area)
    requires -5 <= wave <= 5
    ensures !s.isSpeaking ==> Centred(a, s.mouthX, s.mouthY)
    ensures s.isSpeaking ==> Centred(a, s.mouthX, s.mouthY + wave)
    ensures s.mouthWidth >= 0 ==> s.mouthWidth - 1 <= a.x2 - a.x1 <= s.mouthWidth
    ensures s.mouthHeight >= 0 ==> s.mouthHeight - 1 <= a.y2 - a.y1 <= s.mouthHeight
  {
    var offset := if s.isSpeaking then wave else 0;
    var halfW := CHalf(s.mouthWidth);
    var halfH := CHalf(s.mouthHeight);
    Area(s.mouthX - halfW, s.mouthY - halfH + offset, s.mouthX + halfW, s.mouthY + halfH + offset)
  }

  /** The face module's static state. */
  class Face {
    var state: FaceState
    var backgroundColor: int
    var eyeColor: int
    var mouthColor: int
    // static locals of blink_timer_cb
    var isBlinking: bool
    var blinkStart: uint32
    // one-shot restore timers not yet fired, oldest first
    var restores: seq<Restore>

    function Colours(): Palette
      reads this
    {
      Palette(backgroundColor, eyeColor, mouthColor)
    }

    ghost predicate Valid()
      reads this
    {
      !isBlinking
    }

    /** Static storage before `face_emote_init`: everything zero. */
    constructor ()
      ensures Valid()
      ensures state == FaceState(0, 0, 0, 0, 0, 0, 0, 0, 0, 0, Neutral, 0.0, false)
      ensures Colours() == Palette(0, 0, 0)
      ensures blinkStart == 0 && restores == []
    {
      state := FaceState(0, 0, 0, 0, 0, 0, 0, 0, 0, 0, Neutral, 0.0, false);
      backgroundColor, eyeColor, mouthColor := 0, 0, 0;
      isBlinking, blinkStart, restores := false, 0, [];
    }

    /** `face_emote_init`. */
    method Init()
      modifies this
      ensures state == INITIAL_FACE && Colours() == INITIAL_PALETTE
      ensures isBlinking == old(isBlinking) && blinkStart == old(blinkStart) && restores == old(restores)
    {
      state := state.(eyeLeftX := 60, eyeLeftY := 80);
      state := state.(eyeRightX := 120, eyeRightY := 80);
      state := state.(eyeWidth := 25, eyeHeight := 25);
      state := state.(mouthX := 90, mouthY := 130);
      state := state.(mouthWidth := 40, mouthHeight := 20);
      state := state.(emotion := Neutral, audioLevel := 0.0, isSpeaking := false);
      backgroundColor := BLACK;
      eyeColor := GREEN;
      mouthColor := RED;
    }

    /** `face_update_emotion`. */
    method UpdateEmotion(emotion: Emotion)
      modifies this
      ensures state == WithEmotion(old(state), emotion)
      ensures Colours() == Recoloured(old(Colours()), emotion)
      ensures isBlinking == old(isBlinking) && blinkStart == old(blinkStart) && restores == old(restores)
    {
      state := state.(emotion := emotion);
      match emotion {
        case Happy =>
          state := state.(eyeHeight := 20);
          state := state.(mouthHeight := 25);
          mouthColor := BRIGHT_RED;
        case Excited =>
          state := state.(eyeWidth := 30);
          state := state.(eyeHeight := 30);
          state := state.(mouthWidth := 50);
          state := state.(mouthHeight := 30);
          eyeColor := CYAN;
          mouthColor := PINK;
        case Sleepy =>
          state := state.(eyeHeight := 8);
          state := state.(mouthWidth := 20);
          state := state.(mouthHeight := 10);
          eyeColor := BLUE;
          mouthColor := GRAY;
        case Surprised =>
          state := state.(eyeWidth := 35);
          state := state.(eyeHeight := 35);
          state := state.(mouthWidth := 15);
          state := state.(mouthHeight := 25);
          eyeColor := YELLOW;
          mouthColor := ORANGE;
        case Wink =>
          eyeColor := MAGENTA;
          mouthColor := MINT;
        case Neutral =>
          state := state.(eyeWidth := 25);
          state := state.(eyeHeight := 25);
          state := state.(mouthWidth := 40);
          state := state.(mouthHeight := 20);
          eyeColor := GREEN;
          mouthColor := RED;
      }
    }

    /** `face_update_audio_level`. */
    method UpdateAudioLevel(level: real)
      modifies this
      ensures state == WithAudioLevel(old(state), level)
      ensures Colours() == Recoloured(old(Colours()), Band(level))
      ensures isBlinking == old(isBlinking) && blinkStart == old(blinkStart) && restores == old(restores)
    {
      state := state.(audioLevel := level);
      if level > THRESHOLD_HIGH {
        UpdateEmotion(Excited);
        state := state.(isSpeaking := true);
      } else if level > THRESHOLD_MID {
        UpdateEmotion(Happy);
        state := state.(isSpeaking := true);
      } else if level > THRESHOLD_LOW {
        UpdateEmotion(Neutral);
        state := state.(isSpeaking := true);
      } else {
        UpdateEmotion(Sleepy);
        state := state.(isSpeaking := false);
      }
    }

    /** `face_animate_speaking`. */
    method AnimateSpeaking(speaking: bool)
      modifies this
      ensures state == old(state).(isSpeaking := speaking)
      ensures Colours() == old(Colours())
      ensures isBlinking == old(isBlinking) && blinkStart == old(blinkStart) && restores == old(restores)
    {
      state := state.(isSpeaking := speaking);
    }

    /** One run of `blink_timer_cb` at tick `now`: when more than 3000 ms
        (unsigned) have passed since the last blink, wink and schedule a
        restore of the emotion held just before, 200 ms later. */
    method BlinkTick(now: uint32)
      requires Valid()
      modifies this
      ensures Valid()
      ensures BlinkDue(now, old(blinkStart)) ==>
        && state == WithEmotion(old(state), Wink)
        && Colours() == Recoloured(old(Colours()), Wink)
        && blinkStart == now
        && restores == old(restores) + [Restore(old(state).emotion, Wrap32(now + WINK_DURATION))]
      ensures !BlinkDue(now, old(blinkStart)) ==>
        && state == old(state) && Colours() == old(Colours())
        && blinkStart == old(blinkStart) && restores == old(restores)
    {
      if !isBlinking && Elapsed(now, blinkStart) > BLINK_INTERVAL {
        isBlinking := true;
        blinkStart := now;
        var currentEmotion := state.emotion;
        UpdateEmotion(Wink);
        restores := restores + [Restore(currentEmotion, Wrap32(now + WINK_DURATION))];
        isBlinking := false;
      }
    }

    /** The oldest pending restore timer fires: it re-applies the emotion it
        captured and deletes itself. With no timer pending nothing happens. */
    method RestoreTimerFired()
      modifies this
      ensures old(restores) == [] ==>
        state == old(state) && Colours() == old(Colours()) && restores == []
      ensures old(restores) != [] ==>
        && state == WithEmotion(old(state), old(restores)[0].emotion)
        && Colours() == Recoloured(old(Colours()), old(restores)[0].emotion)
        && restores == old(restores)[1..]
      ensures isBlinking == old(isBlinking) && blinkStart == old(blinkStart)
    {
      if restores != [] {
        var r := restores[0];
        UpdateEmotion(r.emotion);
        restores := restores[1..];
      }
    }
  }

  // ---------------------------------------------------------------------
  // Properties of the face state machine

  lemma WithEmotionIdempotent(s: FaceState, p: Palette, e: Emotion)
    ensures WithEmotion(WithEmotion(s, e), e) == WithEmotion(s, e)
    ensures Recoloured(Recoloured(p, e), e) == Recoloured(p, e)
  {
  }

  /** The bands are monotone: a louder level never picks a lower band. */
  lemma BandMonotone(a: real, b: real)
    requires a <= b
    ensures BandRank(Band(a)) <= BandRank(Band(b))
  {
  }

  /** Neutral, Excited and Surprised overwrite all four sizes, so the result
      does not depend on what the face looked like before. */
  lemma FullResetForgetsHistory(s: FaceState, t: FaceState, e: Emotion)
    requires e == Neutral || e == Excited || e == Surprised
    ensures Sizes(WithEmotion(s, e)) == Sizes(WithEmotion(t, e))
  {
  }

  /** A wink changes no geometry, so any emotion applied after it gives the
      same face as if the wink had not happened. */
  lemma WinkLeavesNoGeometry(s: FaceState, e: Emotion)
    ensures WithEmotion(WithEmotion(s, Wink), e) == WithEmotion(s, e)
  {
  }

  /** Restoring Happy after a wink does not restore the eye colour: Happy
      sets only the mouth colour, so the eyes stay magenta. */
  lemma HappyAfterWinkKeepsMagentaEyes(p: Palette)
    ensures Recoloured(Recoloured(p, Wink), Happy).eye == MAGENTA
  {
  }

  /** A face whose sizes agree with its emotion: what every update leaves. */
  predicate Settled(s: FaceState) {
    WithEmotion(s, s.emotion) == s
  }

  lemma UpdatesSettle(s: FaceState, e: Emotion, level: real)
    ensures Settled(INITIAL_FACE)
    ensures Settled(WithEmotion(s, e))
    ensures Settled(WithAudioLevel(s, level))
  {
  }

  /** The restore re-applies the cached emotion: if the level rose into the
      Excited band while the wink was showing, the face goes back to the
      old emotion although the level still says Excited. */
  lemma RestoreUsesCachedEmotion(s: FaceState)
    requires s.emotion == Happy
    ensures var winked := WithEmotion(s, Wink);
            var loud := WithAudioLevel(winked, 0.7);
            var restored := WithEmotion(loud, s.emotion);
            loud.emotion == Excited && restored.emotion == Happy && Band(restored.audioLevel) == Excited
  {
  }

  /** The blink guard uses unsigned subtraction, so a tick counter that has
      wrapped past zero still triggers the blink. */
  lemma BlinkDueAcrossWrap()
    ensures BlinkDue(0x100, 0xFFFF_F000)
    ensures !BlinkDue(3000, 0) && BlinkDue(3001, 0)
  {
  }

  /** Exactly `d` milliseconds after a blink the guard sees `d`, so the next
      blink comes exactly when more than 3000 ms have passed. */
  lemma {:induction false} ElapsedSince(start: uint32, d: uint32)
    ensures Elapsed(Wrap32(start + d), start) == d
    ensures BlinkDue(Wrap32(start + d), start) <==> d > BLINK_INTERVAL
  {
    var now := Wrap32(start + d);
    if start + d < UINT32_MODULUS {
      assert now == start + d;
    } else {
      assert now == start + d - UINT32_MODULUS;
    }
  }
}
