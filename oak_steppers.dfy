/** The counter tasks of Professor Oak's introduction, as pure step
    functions: each function is one call of a task handler, from the task
    data it reads to the task data it leaves. Calls the handlers make into
    graphics, sound and text code are recorded as `Event`s in a log. The
    scene's methods are proved against these functions; the schedules below
    (how many calls each countdown takes, what it emits and when) are proved
    about them. */
module OakSteppers {
  import opened FixedPoint

  /** The calls into code outside this model whose order and number matter. */
  datatype Event =
    | PrintInhabitedMessage      // the "inhabited far and wide" text
    | PikachuCry                 // PlayCry_Normal(INTRO_SPECIES, 0)
    | WarpInSound                // PlaySE(SE_WARP_IN)
    | DestroyPikachuSprite
    | DestroyPokeBallSprite
    | BlendWhite(coefficient: int)  // BlendPalette(BG_PLTT_ID(4), 0x20, c, RGB_WHITE)

  // ---------------------------------------------------------------------
  // Task_NewGameScene: the gMain.state stepping of the scene setup.

  const SCENE_FREE_TEMP_STATE: nat := 6
  const SCENE_LAST_STATE: nat := 10

  /** `gMain.state`, and whether the task function has been switched to
      `Task_OakSpeech_Init`. */
  datatype Scene = Scene(state: nat, handedOff: bool)

  /** One call. `tempPending` is what `FreeTempTileDataBuffersIfPossible`
      answers: TRUE while the temporary buffers cannot be freed yet. */
  function SceneStep(v: Scene, tempPending: bool): (r: Scene)
    requires v.state <= SCENE_LAST_STATE && !v.handedOff
    ensures r.state <= SCENE_LAST_STATE
    ensures r.handedOff ==> r.state == 0
  {
    if v.state == SCENE_FREE_TEMP_STATE && tempPending then v
    else if v.state == SCENE_LAST_STATE then Scene(0, true)
    else v.(state := v.state + 1)
  }

  /** Successive calls, one per answer, until the task function changes. */
  function SceneRun(v: Scene, pending: seq<bool>): (r: Scene)
    requires v.state <= SCENE_LAST_STATE
    ensures r.state <= SCENE_LAST_STATE
    decreases |pending|
  {
    if |pending| == 0 || v.handedOff then v
    else SceneRun(SceneStep(v, pending[0]), pending[1..])
  }

  /** Below state 10 every call counts `gMain.state` up by one (the empty
      states 8 and 9 included), except the call at state 6 while the
      temporary buffers are still pending. */
  lemma {:induction false} SceneClimbs(s: nat, pending: seq<bool>)
    requires s + |pending| <= SCENE_LAST_STATE
    requires s <= SCENE_FREE_TEMP_STATE < s + |pending| ==> !pending[SCENE_FREE_TEMP_STATE - s]
    ensures SceneRun(Scene(s, false), pending) == Scene(s + |pending|, false)
    decreases |pending|
  {
    if |pending| > 0 {
      SceneClimbs(s + 1, pending[1..]);
    }
  }

  /** At state 6 the scene waits, without progress, for as long as the
      temporary buffers stay pending. */
  lemma {:induction false} SceneWaitsAtSix(pending: seq<bool>)
    requires forall i :: 0 <= i < |pending| ==> pending[i]
    ensures SceneRun(Scene(SCENE_FREE_TEMP_STATE, false), pending) == Scene(SCENE_FREE_TEMP_STATE, false)
    decreases |pending|
  {
    if |pending| > 0 {
      SceneWaitsAtSix(pending[1..]);
    }
  }

  /** With the buffers freed at the first try, the eleventh call switches the
      task function and resets `gMain.state` to 0. */
  lemma SceneSchedule(pending: seq<bool>)
    requires |pending| == SCENE_LAST_STATE + 1 && !pending[SCENE_FREE_TEMP_STATE]
    ensures SceneRun(Scene(0, false), pending[..SCENE_LAST_STATE]) == Scene(SCENE_LAST_STATE, false)
    ensures SceneRun(Scene(0, false), pending) == Scene(0, true)
  {
    var p := pending[..SCENE_LAST_STATE];
    SceneClimbs(0, p);
    SceneRunAppend(Scene(0, false), p, [pending[SCENE_LAST_STATE]]);
    assert p + [pending[SCENE_LAST_STATE]] == pending;
  }

  lemma {:induction false} SceneRunAppend(v: Scene, a: seq<bool>, b: seq<bool>)
    requires v.state <= SCENE_LAST_STATE
    ensures SceneRun(v, a + b) == SceneRun(SceneRun(v, a), b)
    decreases |a|
  {
    if |a| > 0 && !v.handedOff {
      assert (a + b)[1..] == a[1..] + b;
      SceneRunAppend(SceneStep(v, a[0]), a[1..], b);
    } else if |a| == 0 {
      assert a + b == b;
    }
  }

  // ---------------------------------------------------------------------
  // Task_SlowFadeIn / Task_SlowFadeOut: the alpha blend between Oak's
  // picture and the background.

  const BLEND_FULL: int := 16
  const FADE_OUT_STEP: int := 2

  /** The `BLDALPHA` value for two blend coefficients. */
  function BlendAlpha(target1: int, target2: int): int
  {
    target2 * 256 + target1
  }

  /** A fade task's data and the registers it writes: the two blend targets
      (`data[1]`, `data[2]`), the countdown (`data[4]`), the reload period it
      reads from `data[3]`, the last `BLDALPHA` written, the parent task's
      `tTrainerPicFadeState` and whether the task has destroyed itself. */
  datatype Fade = Fade(target1: int, target2: int, fadeTimer: int, period: int,
                       alpha: int, parentState: int, destroyed: bool)

  /** The fade-in task as `CreateFadeInTask` leaves it: `data[3]` and
      `data[4]` both hold the delay. */
  function FadeInCreated(delay: nat): Fade
  {
    Fade(BLEND_FULL, 0, delay, delay, BlendAlpha(BLEND_FULL, 0), 0, false)
  }

  /** The targets always sum to 16 and agree with the register. */
  predicate FadeInOk(v: Fade)
  {
    && 0 <= v.target1 <= BLEND_FULL && v.target1 + v.target2 == BLEND_FULL
    && v.alpha == BlendAlpha(v.target1, v.target2)
    && 0 <= v.fadeTimer <= v.period
    && (v.destroyed ==> v.target1 == 0 && v.parentState == 1)
  }

  /** One call of `Task_SlowFadeIn`. */
  function FadeInTick(v: Fade): (r: Fade)
    ensures FadeInOk(v) ==> FadeInOk(r)
    ensures r.period == v.period
    ensures r.target1 == v.target1 || r.target1 == v.target1 - 1
  {
    if v.target1 == 0 then v.(parentState := 1, destroyed := true)
    else if v.fadeTimer != 0 then v.(fadeTimer := v.fadeTimer - 1)
    else v.(fadeTimer := v.period, target1 := v.target1 - 1, target2 := v.target2 + 1,
            alpha := BlendAlpha(v.target1 - 1, v.target2 + 1))
  }

  /** n calls, or fewer if the task destroys itself. */
  function FadeInRun(v: Fade, n: nat): (r: Fade)
    requires FadeInOk(v)
    ensures FadeInOk(r) && r.period == v.period
    decreases n
  {
    if n == 0 || v.destroyed then v else FadeInRun(FadeInTick(v), n - 1)
  }

  lemma {:induction false} FadeInRunSplit(v: Fade, a: nat, b: nat, n: nat)
    requires FadeInOk(v) && n == a + b
    ensures FadeInRun(v, n) == FadeInRun(FadeInRun(v, a), b)
    decreases a
  {
    if a > 0 && !v.destroyed {
      FadeInRunSplit(FadeInTick(v), a - 1, b, n - 1);
    }
  }

  /** Calls left until the task destroys itself, the destroying call
      included. */
  function FadeInLeft(v: Fade): nat
    requires FadeInOk(v)
  {
    if v.destroyed then 0
    else if v.target1 == 0 then 1
    else (v.target1 - 1) * (v.period + 1) + v.fadeTimer + 2
  }

  /** Every call brings the end exactly one call closer. */
  lemma FadeInCountsDown(v: Fade)
    requires FadeInOk(v) && !v.destroyed
    ensures FadeInLeft(FadeInTick(v)) == FadeInLeft(v) - 1
  {
    if v.target1 > 1 && v.fadeTimer == 0 {
      calc {
        (v.target1 - 2) * (v.period + 1) + v.period + 2;
        (v.target1 - 1) * (v.period + 1) - (v.period + 1) + v.period + 2;
        (v.target1 - 1) * (v.period + 1) + 1;
      }
    }
  }

  /** The task is gone after n calls exactly when n reaches the calls left,
      and it told its parent so. */
  lemma {:induction false} FadeInEndsAfter(v: Fade, n: nat)
    requires FadeInOk(v)
    ensures FadeInRun(v, n).destroyed <==> n >= FadeInLeft(v)
    ensures FadeInRun(v, n).destroyed ==> FadeInRun(v, n).parentState == 1
    decreases n
  {
    if n > 0 && !v.destroyed {
      FadeInCountsDown(v);
      FadeInEndsAfter(FadeInTick(v), n - 1);
    }
  }

  /** While target 1 is not yet 0, a countdown of j runs out in j calls. */
  lemma {:induction false} FadeInWaits(v: Fade, j: nat)
    requires FadeInOk(v) && !v.destroyed && v.target1 != 0 && v.fadeTimer == j
    ensures FadeInRun(v, j) == v.(fadeTimer := 0)
    decreases j
  {
    if j > 0 {
      FadeInWaits(FadeInTick(v), j - 1);
    }
  }

  /** A countdown of j, then the step of the targets. */
  lemma FadeInStepsAfter(v: Fade, j: nat)
    requires FadeInOk(v) && !v.destroyed && v.target1 != 0 && v.fadeTimer == j
    ensures FadeInRun(v, j + 1) == FadeInTick(v.(fadeTimer := 0))
  {
    FadeInRunSplit(v, j, 1, j + 1);
    FadeInWaits(v, j);
  }

  /** The fade-in task after k steps of the targets. */
  function FadeInAt(delay: nat, k: nat): Fade
    requires k <= BLEND_FULL
  {
    Fade(BLEND_FULL - k, k, delay, delay, BlendAlpha(BLEND_FULL - k, k), 0, false)
  }

  lemma FadeInOneStep(delay: nat, k: nat)
    requires 1 <= k <= BLEND_FULL
    ensures FadeInRun(FadeInAt(delay, k - 1), delay + 1) == FadeInAt(delay, k)
  {
    FadeInStepsAfter(FadeInAt(delay, k - 1), delay);
  }

  /** Calls that k steps of the targets take: `delay + 1` each. */
  function FadeCalls(delay: nat, k: nat): (r: nat)
    ensures r == k * (delay + 1)
  {
    if k == 0 then 0 else FadeCalls(delay, k - 1) + delay + 1
  }

  /** Target 1 steps down by one every `delay + 1` calls (the period is
      re-read from `data[3]`, which the creator set to the delay), target 2
      up by one, and the register follows. */
  lemma {:induction false} FadeInSchedule(delay: nat, k: nat)
    requires k <= BLEND_FULL
    ensures FadeInRun(FadeInCreated(delay), FadeCalls(delay, k)) == FadeInAt(delay, k)
    decreases k
  {
    if k > 0 {
      FadeInSchedule(delay, k - 1);
      FadeInRunSplit(FadeInCreated(delay), FadeCalls(delay, k - 1), delay + 1, FadeCalls(delay, k));
      FadeInOneStep(delay, k);
    }
  }

  /** From creation the task lives exactly `16 * (delay + 1)` calls and
      destroys itself, setting the parent's fade state to 1, on the next. */
  lemma FadeInLasts(delay: nat, n: nat)
    ensures FadeInRun(FadeInCreated(delay), n).destroyed <==> n > BLEND_FULL * (delay + 1)
    ensures FadeInRun(FadeInCreated(delay), n).destroyed ==> FadeInRun(FadeInCreated(delay), n).parentState == 1
  {
    FadeInEndsAfter(FadeInCreated(delay), n);
    assert FadeInLeft(FadeInCreated(delay)) == (BLEND_FULL - 1) * (delay + 1) + delay + 2;
  }

  /** The fade-out task as `CreateFadeOutTask` leaves it. */
  function FadeOutCreated(delay: nat): Fade
  {
    Fade(0, BLEND_FULL, delay, delay, BlendAlpha(0, BLEND_FULL), 0, false)
  }

  /** The targets always sum to 16, target 1 stays even, and the register
      agrees with them. */
  predicate FadeOutOk(v: Fade)
  {
    && 0 <= v.target1 <= BLEND_FULL && v.target1 % FADE_OUT_STEP == 0
    && v.target1 + v.target2 == BLEND_FULL
    && v.alpha == BlendAlpha(v.target1, v.target2)
    && 0 <= v.fadeTimer <= v.period
    && (v.destroyed ==> v.target1 == BLEND_FULL && v.parentState == 1)
  }

  /** One call of `Task_SlowFadeOut`; `paletteFading` is
      `gPaletteFade.active`. */
  function FadeOutTick(v: Fade, paletteFading: bool): (r: Fade)
    ensures FadeOutOk(v) ==> FadeOutOk(r)
    ensures r.period == v.period
    ensures r.target1 == v.target1 || r.target1 == v.target1 + FADE_OUT_STEP
  {
    if v.target1 == BLEND_FULL then
      if !paletteFading then v.(parentState := 1, destroyed := true) else v
    else if v.fadeTimer != 0 then v.(fadeTimer := v.fadeTimer - 1)
    else v.(fadeTimer := v.period, target1 := v.target1 + FADE_OUT_STEP,
            target2 := v.target2 - FADE_OUT_STEP,
            alpha := BlendAlpha(v.target1 + FADE_OUT_STEP, v.target2 - FADE_OUT_STEP))
  }

  /** One call per palette-fade answer, until the task destroys itself. */
  function FadeOutRun(v: Fade, fading: seq<bool>): (r: Fade)
    requires FadeOutOk(v)
    ensures FadeOutOk(r) && r.period == v.period
    decreases |fading|
  {
    if |fading| == 0 || v.destroyed then v else FadeOutRun(FadeOutTick(v, fading[0]), fading[1..])
  }

  lemma {:induction false} FadeOutRunAppend(v: Fade, a: seq<bool>, b: seq<bool>)
    requires FadeOutOk(v)
    ensures FadeOutRun(v, a + b) == FadeOutRun(FadeOutRun(v, a), b)
    decreases |a|
  {
    if |a| > 0 && !v.destroyed {
      assert (a + b)[1..] == a[1..] + b;
      FadeOutRunAppend(FadeOutTick(v, a[0]), a[1..], b);
    } else if |a| == 0 {
      assert a + b == b;
    }
  }

  /** Before target 1 reaches 16 a countdown of j runs out in j calls,
      whatever the palette fade does. */
  lemma {:induction false} FadeOutWaits(v: Fade, fading: seq<bool>)
    requires FadeOutOk(v) && !v.destroyed && v.target1 != BLEND_FULL && v.fadeTimer == |fading|
    ensures FadeOutRun(v, fading) == v.(fadeTimer := 0)
    decreases |fading|
  {
    if |fading| > 0 {
      FadeOutWaits(FadeOutTick(v, fading[0]), fading[1..]);
    }
  }

  /** Target 1 climbs by 2 every `delay + 1` calls, so it reaches 16 after
      eight steps, independently of the palette fade. */
  lemma {:induction false} FadeOutSchedule(delay: nat, k: nat, fading: seq<bool>)
    requires k <= BLEND_FULL / FADE_OUT_STEP && |fading| == FadeCalls(delay, k)
    ensures FadeOutRun(FadeOutCreated(delay), fading) == FadeOutAt(delay, k)
    decreases k
  {
    if k > 0 {
      var m := FadeCalls(delay, k - 1);
      var front, rest := fading[..m], fading[m..];
      assert fading == front + rest;
      FadeOutSchedule(delay, k - 1, front);
      FadeOutRunAppend(FadeOutCreated(delay), front, rest);
      FadeOutOneStep(delay, k, rest);
    }
  }

  /** The fade-out task after k steps of the targets. */
  function FadeOutAt(delay: nat, k: nat): Fade
  {
    Fade(FADE_OUT_STEP * k, BLEND_FULL - FADE_OUT_STEP * k, delay, delay,
         BlendAlpha(FADE_OUT_STEP * k, BLEND_FULL - FADE_OUT_STEP * k), 0, false)
  }

  lemma FadeOutOneStep(delay: nat, k: nat, fading: seq<bool>)
    requires 1 <= k <= BLEND_FULL / FADE_OUT_STEP && |fading| == delay + 1
    ensures FadeOutRun(FadeOutAt(delay, k - 1), fading) == FadeOutAt(delay, k)
  {
    var prev := FadeOutAt(delay, k - 1);
    var wait, last := fading[..delay], fading[delay..];
    assert fading == wait + last;
    FadeOutRunAppend(prev, wait, last);
    FadeOutWaits(prev, wait);
  }

  /** Once target 1 is 16 the task ends on the first call that finds the
      palette fade inactive, and not before. */
  lemma {:induction false} FadeOutFinishes(v: Fade, fading: seq<bool>)
    requires FadeOutOk(v) && !v.destroyed && v.target1 == BLEND_FULL
    ensures FadeOutRun(v, fading).destroyed <==> exists i :: 0 <= i < |fading| && !fading[i]
    ensures !FadeOutRun(v, fading).destroyed ==> FadeOutRun(v, fading) == v
    decreases |fading|
  {
    if |fading| > 0 {
      if fading[0] {
        FadeOutFinishes(v, fading[1..]);
        assert forall i :: 1 <= i < |fading| ==> fading[i] == fading[1..][i - 1];
      }
    }
  }

  // ---------------------------------------------------------------------
  // Task_OakSpeech_FadePlayerPicWhite: the player's picture blends to white.

  const WHITE_START_DELAY: int := 8
  const WHITE_LAST_COEFFICIENT: int := 14

  /** The task's data: `data[0]` the countdown, `data[1]` a counter that only
      decreases, `data[2]` the next countdown length, `data[14]` the blend
      coefficient; the event log; and whether the task destroyed itself. */
  datatype White = White(timer: int, underflowing: int, secondary: int, coefficient: int,
                         log: seq<Event>, destroyed: bool)

  /** As `Task_OakSpeech_SetUpFadePlayerPicWhite` creates it. */
  function WhiteStart(log: seq<Event>): White
  {
    White(WHITE_START_DELAY, 0, WHITE_START_DELAY, 0, log, false)
  }

  /** One call. The blend itself is an event; the palette whitening of the
      last call is done by the scene's method. */
  function WhiteTick(v: White): (r: White)
    ensures r.log == v.log || r.log == v.log + [BlendWhite(v.coefficient)]
    ensures r.log != v.log ==> (r.destroyed <==> v.coefficient + 1 > WHITE_LAST_COEFFICIENT)
  {
    if v.timer != 0 then v.(timer := v.timer - 1)
    else
      var secondary := if v.underflowing <= 0 && v.secondary != 0 then v.secondary - 1 else v.secondary;
      White(secondary, v.underflowing - 1, secondary, v.coefficient + 1,
            v.log + [BlendWhite(v.coefficient)], v.coefficient + 1 > WHITE_LAST_COEFFICIENT)
  }

  function WhiteRun(v: White, n: nat): White
    decreases n
  {
    if n == 0 || v.destroyed then v else WhiteRun(WhiteTick(v), n - 1)
  }

  lemma {:induction false} WhiteRunSplit(v: White, a: nat, b: nat, n: nat)
    requires n == a + b
    ensures WhiteRun(v, n) == WhiteRun(WhiteRun(v, a), b)
    decreases a
  {
    if a > 0 && !v.destroyed {
      WhiteRunSplit(WhiteTick(v), a - 1, b, n - 1);
    }
  }

  /** The countdown left after the blend with coefficient c: one less after
      each blend, down to 0. */
  function WhiteGap(c: nat): nat
  {
    if c < 7 then 7 - c else 0
  }

  /** The blend events with coefficients 0 .. n-1, in order. */
  function Blends(n: nat): (r: seq<Event>)
    ensures |r| == n && forall i :: 0 <= i < n ==> r[i] == BlendWhite(i)
  {
    seq(n, i => BlendWhite(i))
  }

  /** The task right after the blend with coefficient c. */
  function WhiteAfter(log: seq<Event>, c: nat): White
  {
    White(WhiteGap(c), -(c + 1), WhiteGap(c), c + 1, log + Blends(c + 1), c == WHITE_LAST_COEFFICIENT)
  }

  /** Calls from creation to the blend with coefficient c, inclusive. */
  function WhiteTicks(c: nat): nat
  {
    if c == 0 then WHITE_START_DELAY as nat + 1 else WhiteTicks(c - 1) + WhiteGap(c - 1) + 1
  }

  lemma {:induction false} WhiteWaits(v: White, j: nat)
    requires !v.destroyed && v.timer == j
    ensures WhiteRun(v, j) == v.(timer := 0)
    decreases j
  {
    if j > 0 {
      WhiteWaits(WhiteTick(v), j - 1);
    }
  }

  /** A countdown of j, then a blend. */
  lemma WhiteBlendsAfter(v: White, j: nat)
    requires !v.destroyed && v.timer == j
    ensures WhiteRun(v, j + 1) == WhiteTick(v.(timer := 0))
  {
    WhiteRunSplit(v, j, 1, j + 1);
    WhiteWaits(v, j);
  }

  /** Blend c is the `WhiteTicks(c)`-th call: the blends come with
      coefficients 0, 1, .., c in order, separated by gaps that shrink by one
      down to nothing, and the task ends with the blend of coefficient 14. */
  lemma {:induction false} WhiteSchedule(log: seq<Event>, c: nat)
    requires c <= WHITE_LAST_COEFFICIENT
    ensures WhiteRun(WhiteStart(log), WhiteTicks(c)) == WhiteAfter(log, c)
    decreases c
  {
    var s := WhiteStart(log);
    if c == 0 {
      WhiteBlendsAfter(s, 8);
      assert Blends(1) == [BlendWhite(0)];
    } else {
      WhiteSchedule(log, c - 1);
      WhiteRunSplit(s, WhiteTicks(c - 1), WhiteGap(c - 1) + 1, WhiteTicks(c));
      WhiteOneStep(log, c);
    }
  }

  /** From blend c - 1 to blend c. */
  lemma WhiteOneStep(log: seq<Event>, c: nat)
    requires 1 <= c <= WHITE_LAST_COEFFICIENT
    ensures WhiteRun(WhiteAfter(log, c - 1), WhiteGap(c - 1) + 1) == WhiteAfter(log, c)
  {
    var prev := WhiteAfter(log, c - 1);
    WhiteBlendsAfter(prev, WhiteGap(c - 1));
    assert Blends(c) + [BlendWhite(c)] == Blends(c + 1);
    assert log + Blends(c) + [BlendWhite(c)] == log + Blends(c + 1);
  }

  /** The whole fade: 51 calls, 15 blends with coefficients 0 .. 14. */
  lemma WhiteTotal(log: seq<Event>)
    ensures WhiteRun(WhiteStart(log), 51) == WhiteAfter(log, WHITE_LAST_COEFFICIENT as nat)
    ensures WhiteAfter(log, WHITE_LAST_COEFFICIENT as nat).destroyed
    ensures WhiteAfter(log, WHITE_LAST_COEFFICIENT as nat).log == log + Blends(15)
  {
    WhiteSchedule(log, WHITE_LAST_COEFFICIENT as nat);
    assert WhiteTicks(14) == 51;
  }

  // ---------------------------------------------------------------------
  // Task_OakSpeech_ShrinkPlayerPic: the player's picture shrinks.

  const SHRINK_PERIOD: int := 20
  const SCALE_START: int := 256
  const SCALE_STEP: int := 32
  const SCALE_MIN: int := 96
  const WARP_IN_TIME: int := 40
  const FADE_TO_BLACK_DELAY: int := 36

  /** `sOakSpeechResources->shrinkTimer` (a `u16`), the task's `data[2]`
      (scale delta), `data[15]` (shrunk flag), `data[0]` (fade-out timer),
      whether the task function became `Task_OakSpeech_FadePlayerPicToBlack`,
      and the event log. */
  datatype Shrink = Shrink(timer: int, scale: int, shrunk: int, fadeOutTimer: int,
                           handedOff: bool, log: seq<Event>)

  /** As `Task_OakSpeech_SetUpExitAnimation` and
      `Task_OakSpeech_SetUpShrinkPlayerPic` leave it. */
  function ShrinkStart(log: seq<Event>): Shrink
  {
    Shrink(0, SCALE_START, 0, 0, false, log)
  }

  /** One call. */
  function ShrinkTick(v: Shrink): (r: Shrink)
    ensures r.timer == U16(v.timer + 1)
    ensures r.timer % SHRINK_PERIOD != 0 ==> r == v.(timer := r.timer)
    ensures r.timer % SHRINK_PERIOD == 0 ==> r.scale == v.scale - SCALE_STEP
    ensures r.log == v.log || (r.timer == WARP_IN_TIME && r.log == v.log + [WarpInSound])
  {
    var t := U16(v.timer + 1);
    if t % SHRINK_PERIOD != 0 then v.(timer := t)
    else
      var scale := v.scale - SCALE_STEP;
      var log := if t == WARP_IN_TIME then v.log + [WarpInSound] else v.log;
      if scale <= SCALE_MIN then Shrink(t, scale, 1, FADE_TO_BLACK_DELAY, true, log)
      else v.(timer := t, scale := scale, log := log)
  }

  function ShrinkRun(v: Shrink, n: nat): Shrink
    decreases n
  {
    if n == 0 || v.handedOff then v else ShrinkRun(ShrinkTick(v), n - 1)
  }

  lemma {:induction false} ShrinkRunSplit(v: Shrink, a: nat, b: nat, n: nat)
    requires n == a + b
    ensures ShrinkRun(v, n) == ShrinkRun(ShrinkRun(v, a), b)
    decreases a
  {
    if a > 0 && !v.handedOff {
      ShrinkRunSplit(ShrinkTick(v), a - 1, b, n - 1);
    }
  }

  /** Between multiples of 20 the calls only count. */
  lemma {:induction false} ShrinkWaits(v: Shrink, j: nat)
    requires !v.handedOff && 0 <= v.timer && v.timer + j < TWO16
    requires v.timer % SHRINK_PERIOD + j < SHRINK_PERIOD
    ensures ShrinkRun(v, j) == v.(timer := v.timer + j)
    decreases j
  {
    if j > 0 {
      ShrinkWaits(ShrinkTick(v), j - 1);
    }
  }

  /** From a multiple of 20, nineteen calls that only count, then a step. */
  lemma ShrinkStepsAfter(v: Shrink)
    requires !v.handedOff && 0 <= v.timer && v.timer + SHRINK_PERIOD - 1 < TWO16
    requires v.timer % SHRINK_PERIOD == 0
    ensures ShrinkRun(v, SHRINK_PERIOD) == ShrinkTick(v.(timer := v.timer + SHRINK_PERIOD - 1))
  {
    ShrinkRunSplit(v, SHRINK_PERIOD - 1, 1, SHRINK_PERIOD);
    ShrinkWaits(v, SHRINK_PERIOD - 1);
  }

  /** The task after 20k calls. */
  function ShrinkAt(log: seq<Event>, k: nat): Shrink
  {
    Shrink(SHRINK_PERIOD * k, SCALE_START - SCALE_STEP * k,
           if k == 5 then 1 else 0, if k == 5 then FADE_TO_BLACK_DELAY else 0, k == 5,
           if k >= 2 then log + [WarpInSound] else log)
  }

  lemma ShrinkOneStep(log: seq<Event>, k: nat)
    requires 1 <= k <= 5
    ensures ShrinkRun(ShrinkAt(log, k - 1), SHRINK_PERIOD) == ShrinkAt(log, k)
  {
    var prev := ShrinkAt(log, k - 1);
    var t := SHRINK_PERIOD * k;
    assert prev.timer % SHRINK_PERIOD == 0 && t % SHRINK_PERIOD == 0 by {
      assert k == 1 || k == 2 || k == 3 || k == 4 || k == 5;
    }
    U16Small(t);
    ShrinkStepsAfter(prev);
    var tick := ShrinkTick(prev.(timer := t - 1));
    assert tick.timer == t && tick.scale == SCALE_START - SCALE_STEP * k;
  }

  /** After 20k calls the scale has dropped by 32k; the warp sound was played
      once, at call 40; at call 100 the scale reaches 96 and the task hands
      over to the fade to black with a 36-call timer. */
  lemma {:induction false} ShrinkSchedule(log: seq<Event>, k: nat)
    requires k <= 5
    ensures ShrinkRun(ShrinkStart(log), SHRINK_PERIOD * k) == ShrinkAt(log, k)
    decreases k
  {
    if k > 0 {
      var s := ShrinkStart(log);
      ShrinkSchedule(log, k - 1);
      ShrinkRunSplit(s, SHRINK_PERIOD * (k - 1), SHRINK_PERIOD, SHRINK_PERIOD * k);
      ShrinkOneStep(log, k);
    }
  }

  // ---------------------------------------------------------------------
  // Task_OakSpeech_IsInhabitedFarAndWide: message and cry, then wait.

  const INHABITED_TIMER_MAX: int := 0x4000
  const INHABITED_MESSAGE_TIME: int := 32
  const INHABITED_ADVANCE_TIME: int := 96

  /** `data[3]`, whether the task function became
      `Task_OakSpeech_IStudyPokemon`, and the event log. */
  datatype Inhabited = Inhabited(timer: int, advanced: bool, log: seq<Event>)

  /** One call; `cryFinished` is what `IsCryFinished` answers. */
  function InhabitedTick(v: Inhabited, cryFinished: bool): (r: Inhabited)
    ensures r.advanced <==> v.advanced || (cryFinished && v.timer >= INHABITED_ADVANCE_TIME)
    ensures v.timer <= INHABITED_TIMER_MAX ==> v.timer <= r.timer <= INHABITED_TIMER_MAX
    ensures r.timer == v.timer <==> v.timer >= INHABITED_TIMER_MAX
    ensures v.log <= r.log
    ensures r.log != v.log <==> v.timer + 1 == INHABITED_MESSAGE_TIME
  {
    var advanced := if cryFinished && v.timer >= INHABITED_ADVANCE_TIME then true else v.advanced;
    if v.timer < INHABITED_TIMER_MAX then
      var t := v.timer + 1;
      Inhabited(t, advanced,
                if t == INHABITED_MESSAGE_TIME then v.log + [PrintInhabitedMessage, PikachuCry] else v.log)
    else v.(advanced := advanced)
  }

  /** One call per cry answer, until the task function changes. */
  function InhabitedRun(v: Inhabited, cries: seq<bool>): Inhabited
    decreases |cries|
  {
    if |cries| == 0 || v.advanced then v else InhabitedRun(InhabitedTick(v, cries[0]), cries[1..])
  }

  /** The timer is within 0 .. 0x4000; the message and the cry have been
      emitted once each, after `log`, exactly when the timer has reached 32;
      and the task moved on only after a call that found the timer at 96 or
      more. */
  predicate InhabitedOk(v: Inhabited, log: seq<Event>)
  {
    && 0 <= v.timer <= INHABITED_TIMER_MAX
    && v.log == (if v.timer >= INHABITED_MESSAGE_TIME then log + [PrintInhabitedMessage, PikachuCry] else log)
    && (v.advanced ==> v.timer > INHABITED_ADVANCE_TIME)
  }

  /** The invariant holds whatever the cry answers are. */
  lemma {:induction false} InhabitedStaysOk(v: Inhabited, log: seq<Event>, cries: seq<bool>)
    requires InhabitedOk(v, log)
    ensures InhabitedOk(InhabitedRun(v, cries), log)
    decreases |cries|
  {
    if |cries| > 0 && !v.advanced {
      InhabitedStaysOk(InhabitedTick(v, cries[0]), log, cries[1..]);
    }
  }

  /** The task moves on exactly when a call finds the cry finished and the
      timer at 96 or more. */
  lemma InhabitedAdvancesWhen(v: Inhabited, log: seq<Event>, cryFinished: bool)
    requires InhabitedOk(v, log) && !v.advanced
    ensures InhabitedTick(v, cryFinished).advanced <==> cryFinished && v.timer >= INHABITED_ADVANCE_TIME
    ensures InhabitedOk(InhabitedTick(v, cryFinished), log)
  {
  }

  /** Below 96 the timer counts every call, whatever the cry answers. */
  lemma {:induction false} InhabitedClimbs(v: Inhabited, cries: seq<bool>)
    requires !v.advanced && 0 <= v.timer && v.timer + |cries| <= INHABITED_ADVANCE_TIME
    ensures InhabitedRun(v, cries).timer == v.timer + |cries|
    ensures !InhabitedRun(v, cries).advanced
    decreases |cries|
  {
    if |cries| > 0 {
      InhabitedClimbs(InhabitedTick(v, cries[0]), cries[1..]);
    }
  }

  /** While the cry never finishes the timer saturates at 0x4000 and the
      task never moves on. */
  lemma {:induction false} InhabitedSaturates(v: Inhabited, cries: seq<bool>)
    requires !v.advanced && 0 <= v.timer <= INHABITED_TIMER_MAX
    requires forall i :: 0 <= i < |cries| ==> !cries[i]
    ensures InhabitedRun(v, cries).timer == Min(v.timer + |cries|, INHABITED_TIMER_MAX)
    ensures !InhabitedRun(v, cries).advanced
    decreases |cries|
  {
    if |cries| > 0 {
      InhabitedSaturates(InhabitedTick(v, cries[0]), cries[1..]);
    }
  }

  function Min(a: int, b: int): int
  {
    if a < b then a else b
  }

  lemma {:induction false} InhabitedRunAppend(v: Inhabited, a: seq<bool>, b: seq<bool>)
    ensures InhabitedRun(v, a + b) == InhabitedRun(InhabitedRun(v, a), b)
    decreases |a|
  {
    if |a| > 0 && !v.advanced {
      assert (a + b)[1..] == a[1..] + b;
      InhabitedRunAppend(InhabitedTick(v, a[0]), a[1..], b);
    } else if |a| == 0 {
      assert a + b == b;
    }
  }

  /** Started at 0 (as `Task_OakSpeech_ReleasePikachuFromPokeBall` leaves
      it), the task cannot move on within 96 calls, and moves on at call 97
      if the cry has finished by then. */
  lemma InhabitedSchedule(log: seq<Event>, cries: seq<bool>)
    requires |cries| == INHABITED_ADVANCE_TIME + 1 && cries[INHABITED_ADVANCE_TIME]
    ensures !InhabitedRun(Inhabited(0, false, log), cries[..INHABITED_ADVANCE_TIME]).advanced
    ensures InhabitedRun(Inhabited(0, false, log), cries)
         == Inhabited(INHABITED_ADVANCE_TIME + 1, true, log + [PrintInhabitedMessage, PikachuCry])
  {
    var s := Inhabited(0, false, log);
    var front := cries[..INHABITED_ADVANCE_TIME];
    InhabitedClimbs(s, front);
    InhabitedStaysOk(s, log, front);
    InhabitedRunAppend(s, front, [cries[INHABITED_ADVANCE_TIME]]);
    assert front + [cries[INHABITED_ADVANCE_TIME]] == cries;
  }

  // ---------------------------------------------------------------------
  // Task_OakSpeech_SetDefaultNames: names are EOS-terminated byte strings.

  const PLAYER_NAME_LENGTH: nat := 7
  const EOS: int := 0xFF

  /** The text of a name buffer: its bytes up to the first EOS, or all of
      them when there is none. */
  function NameText(s: seq<int>): (r: seq<int>)
    ensures |r| <= |s| && r == s[..|r|]
    ensures forall i :: 0 <= i < |r| ==> r[i] != EOS
    ensures |r| < |s| ==> s[|r|] == EOS
    decreases |s|
  {
    if |s| == 0 || s[0] == EOS then [] else [s[0]] + NameText(s[1..])
  }

  /** A buffer holding a 7-byte name and then EOS (what
      `Task_OakSpeech_SetDefaultNames` stores) is terminated, and its text is
      the name up to its own first EOS. */
  lemma {:induction false} NameTerminated(name: seq<int>)
    requires |name| == PLAYER_NAME_LENGTH
    ensures |NameText(name + [EOS])| <= PLAYER_NAME_LENGTH
    ensures NameText(name + [EOS]) == NameText(name)
  {
    NameTextAppend(name);
  }

  lemma {:induction false} NameTextAppend(s: seq<int>)
    ensures NameText(s + [EOS]) == NameText(s)
    decreases |s|
  {
    if |s| > 0 && s[0] != EOS {
      assert (s + [EOS])[1..] == s[1..] + [EOS];
      NameTextAppend(s[1..]);
    }
  }

  // ---------------------------------------------------------------------
  // Task_OakSpeech_Clear: Pikachu goes back into its Poke Ball.

  const CLEAR_SPRITE_TIME: int := 64
  const CLEAR_RAISE_BELOW: int := 24
  const CLEAR_WAIT: int := 48

  /** `data[0]` (sprite timer), `data[3]` (timer), the Pikachu sprite's y,
      whether the task function became `Task_OakSpeech_FadeOutOak`, and the
      event log. */
  datatype Clearing = Clearing(spriteTimer: int, timer: int, pikachuY: int, advanced: bool, log: seq<Event>)

  /** As `Task_OakSpeech_ReturnPikachuToPokeBall` leaves it. */
  function ClearStart(y: int, log: seq<Event>): Clearing
  {
    Clearing(CLEAR_SPRITE_TIME, CLEAR_WAIT, y, false, log)
  }

  /** One call. */
  function ClearTick(v: Clearing): (r: Clearing)
    ensures r.pikachuY == v.pikachuY || r.pikachuY == v.pikachuY - 1
    ensures r.log == v.log || r.log == v.log + [DestroyPikachuSprite, DestroyPokeBallSprite]
  {
    if v.spriteTimer != 0 then
      v.(pikachuY := if v.spriteTimer < CLEAR_RAISE_BELOW then v.pikachuY - 1 else v.pikachuY,
         spriteTimer := v.spriteTimer - 1)
    else
      var log := if v.timer == CLEAR_WAIT then v.log + [DestroyPikachuSprite, DestroyPokeBallSprite] else v.log;
      if v.timer != 0 then v.(timer := v.timer - 1, log := log) else v.(advanced := true, log := log)
  }

  function ClearRun(v: Clearing, n: nat): Clearing
    decreases n
  {
    if n == 0 || v.advanced then v else ClearRun(ClearTick(v), n - 1)
  }

  lemma {:induction false} ClearRunSplit(v: Clearing, a: nat, b: nat, n: nat)
    requires n == a + b
    ensures ClearRun(v, n) == ClearRun(ClearRun(v, a), b)
    decreases a
  {
    if a > 0 && !v.advanced {
      ClearRunSplit(ClearTick(v), a - 1, b, n - 1);
    }
  }

  /** The sprite timer runs out in as many calls as it holds; the sprite
      moves up once for each of the values 23 .. 1 it passes. */
  lemma {:induction false} ClearRaises(v: Clearing, n: nat)
    requires !v.advanced && v.spriteTimer == n
    ensures ClearRun(v, n) == v.(spriteTimer := 0, pikachuY := v.pikachuY - Min(n, CLEAR_RAISE_BELOW - 1))
    decreases n
  {
    if n > 0 {
      ClearRaises(ClearTick(v), n - 1);
    }
  }

  /** Then the timer runs out in as many calls as it holds; the sprites are
      destroyed on the call that finds it at 48. */
  lemma {:induction false} ClearWaits(v: Clearing, n: nat)
    requires !v.advanced && v.spriteTimer == 0 && v.timer == n <= CLEAR_WAIT
    ensures ClearRun(v, n)
         == v.(timer := 0, log := if n == CLEAR_WAIT then v.log + [DestroyPikachuSprite, DestroyPokeBallSprite] else v.log)
    decreases n
  {
    if n > 0 {
      ClearWaits(ClearTick(v), n - 1);
    }
  }

  /** The sprite rises by 23 in the first 64 calls; the two sprites are
      destroyed exactly once, on call 65; 48 more calls count the timer down
      and call 113 moves on. */
  lemma ClearSchedule(y: int, log: seq<Event>)
    ensures ClearRun(ClearStart(y, log), 64) == Clearing(0, CLEAR_WAIT, y - 23, false, log)
    ensures ClearRun(ClearStart(y, log), 112)
         == Clearing(0, 0, y - 23, false, log + [DestroyPikachuSprite, DestroyPokeBallSprite])
    ensures ClearRun(ClearStart(y, log), 113)
         == Clearing(0, 0, y - 23, true, log + [DestroyPikachuSprite, DestroyPokeBallSprite])
  {
    var s := ClearStart(y, log);
    ClearRaises(s, 64);
    var raised := Clearing(0, CLEAR_WAIT, y - 23, false, log);
    ClearRunSplit(s, 64, 48, 112);
    ClearWaits(raised, 48);
    ClearRunSplit(s, 112, 1, 113);
  }
}
