/** Professor Oak's introduction as the game runs it: the scene's task
    objects and the globals the counter tasks touch (`gMain.state`, the
    shrink timer in `sOakSpeechResources`, the blend register, the Pikachu
    sprite's y, the palette buffers and the saved names). Each task handler
    is a method proved against the pure step of the same name in
    `OakSteppers`. */
module OakSpeech {
  import opened FixedPoint
  import opened OakSteppers

  /** Entries of a task's `s16 data[16]`. */
  const NUM_TASK_DATA: nat := 16
  /** Entries of `gPlttBufferFaded` and `gPlttBufferUnfaded`. */
  const PLTT_LEN: nat := 512
  /** `BG_PLTT_ID(4)`: the first colour of the player picture's palettes. */
  const PLAYER_PIC_PLTT: nat := 64
  /** Colours whitened after the last blend (two 16-colour palettes). */
  const PLAYER_PIC_COLORS: nat := 32
  const RGB_WHITE: int := 0x7FFF

  /** The task functions the modelled handlers run as or switch to. */
  datatype TaskFunc =
    | TaskNewGameScene | TaskOakSpeechInit
    | TaskIsInhabitedFarAndWide | TaskIStudyPokemon
    | TaskClear | TaskFadeOutOak
    | TaskShrinkPlayerPic | TaskFadePlayerPicToBlack
    | TaskSlowFadeIn | TaskSlowFadeOut | TaskFadePlayerPicWhite

  /** A task: its data, its function, and whether it destroyed itself. */
  class Task {
    const data: array<int>
    var func: TaskFunc
    var destroyed: bool

    constructor (f: TaskFunc)
      ensures fresh(data) && data.Length == NUM_TASK_DATA
      ensures forall i :: 0 <= i < NUM_TASK_DATA ==> data[i] == 0
      ensures func == f && !destroyed
    {
      data := new int[NUM_TASK_DATA](_ => 0);
      func := f;
      destroyed := false;
    }
  }

  /** A palette buffer after the player picture's colours are set to white. */
  function Whitened(p: seq<int>): (r: seq<int>)
    requires |p| == PLTT_LEN
    ensures |r| == PLTT_LEN
    ensures forall i :: 0 <= i < PLTT_LEN ==>
              r[i] == if PLAYER_PIC_PLTT <= i < PLAYER_PIC_PLTT + PLAYER_PIC_COLORS then RGB_WHITE else p[i]
  {
    p[..PLAYER_PIC_PLTT] + seq(PLAYER_PIC_COLORS, _ => RGB_WHITE) + p[PLAYER_PIC_PLTT + PLAYER_PIC_COLORS..]
  }

  /** The loop of `Task_OakSpeech_FadePlayerPicWhite` that sets both copies
      of the player picture's 32 colours to white. */
  method WhitenPlayerPic(faded: array<int>, unfaded: array<int>)
    requires faded.Length == PLTT_LEN && unfaded.Length == PLTT_LEN && faded != unfaded
    modifies faded, unfaded
    ensures faded[..] == Whitened(old(faded[..]))
    ensures unfaded[..] == Whitened(old(unfaded[..]))
  {
    for i := 0 to PLAYER_PIC_COLORS
      invariant forall j :: 0 <= j < PLTT_LEN ==>
                  faded[j] == if PLAYER_PIC_PLTT <= j < PLAYER_PIC_PLTT + i then RGB_WHITE else old(faded[j])
      invariant forall j :: 0 <= j < PLTT_LEN ==>
                  unfaded[j] == if PLAYER_PIC_PLTT <= j < PLAYER_PIC_PLTT + i then RGB_WHITE else old(unfaded[j])
    {
      faded[i + PLAYER_PIC_PLTT] := RGB_WHITE;
      unfaded[i + PLAYER_PIC_PLTT] := RGB_WHITE;
    }
  }

  /** The scene's globals. */
  class OakScene {
    /** `gMain.state` while `Task_NewGameScene` runs. */
    var mainState: nat
    /** `sOakSpeechResources->currentPage`, reused as the shrink timer. */
    var shrinkTimer: nat
    /** The last value written to `REG_BLDALPHA`. */
    var bldAlpha: int
    /** `gSprites[tPikachuSpriteId].y`. */
    var pikachuY: int
    /** The calls made into code outside this model, in order. */
    var events: seq<Event>
    const plttFaded: array<int>
    const plttUnfaded: array<int>
    /** `gSaveBlock2Ptr->playerName` and `gSaveBlock1Ptr->rivalName`. */
    const playerName: array<int>
    const rivalName: array<int>

    ghost predicate Shape()
    {
      && plttFaded.Length == PLTT_LEN && plttUnfaded.Length == PLTT_LEN && plttFaded != plttUnfaded
      && playerName.Length == PLAYER_NAME_LENGTH + 1 && rivalName.Length == PLAYER_NAME_LENGTH + 1
      && playerName != rivalName
    }

    constructor ()
      ensures Shape() && mainState == 0 && shrinkTimer == 0 && events == []
      ensures fresh(plttFaded) && fresh(plttUnfaded) && fresh(playerName) && fresh(rivalName)
    {
      mainState := 0;
      shrinkTimer := 0;
      bldAlpha := 0;
      pikachuY := 0;
      events := [];
      plttFaded := new int[PLTT_LEN](_ => 0);
      plttUnfaded := new int[PLTT_LEN](_ => 0);
      playerName := new int[PLAYER_NAME_LENGTH + 1](_ => 0);
      rivalName := new int[PLAYER_NAME_LENGTH + 1](_ => 0);
    }

    // -------------------------------------------------------------------
    // Task_NewGameScene

    function SceneOf(task: Task): Scene
      reads this`mainState, task`func
    {
      Scene(mainState, task.func == TaskOakSpeechInit)
    }

    /** One call of `Task_NewGameScene`; `tempPending` is the answer of
        `FreeTempTileDataBuffersIfPossible`. */
    method NewGameScene(task: Task, tempPending: bool)
      requires task.func == TaskNewGameScene && mainState <= SCENE_LAST_STATE
      modifies this`mainState, task`func
      ensures SceneOf(task) == SceneStep(old(SceneOf(task)), tempPending)
      ensures task.func == TaskNewGameScene || task.func == TaskOakSpeechInit
    {
      if mainState == SCENE_FREE_TEMP_STATE && tempPending {
        return;
      }
      if mainState == SCENE_LAST_STATE {
        task.func := TaskOakSpeechInit;
        mainState := 0;
        return;
      }
      mainState := mainState + 1;
    }

    // -------------------------------------------------------------------
    // CreateFadeInTask / Task_SlowFadeIn, CreateFadeOutTask / Task_SlowFadeOut

    /** A fade task with its parent (the task whose `data[0]` it holds). */
    function FadeOf(t: Task, parent: Task): Fade
      requires t.data.Length == NUM_TASK_DATA && parent.data.Length == NUM_TASK_DATA
      reads t.data, t`destroyed, parent.data, this`bldAlpha
    {
      Fade(t.data[1], t.data[2], t.data[4], t.data[3], bldAlpha, parent.data[2], t.destroyed)
    }

    /** `CreateFadeInTask(parent, delay)`: the parent's fade state is cleared,
        the register shows only Oak's picture, and the new task counts from
        `delay`, which it also stores in `data[3]`. */
    method CreateFadeInTask(parent: Task, delay: nat) returns (t: Task)
      requires parent.data.Length == NUM_TASK_DATA && delay < TWO8
      modifies parent.data, this`bldAlpha
      ensures fresh(t) && fresh(t.data) && t.data.Length == NUM_TASK_DATA
      ensures t.func == TaskSlowFadeIn
      ensures FadeOf(t, parent) == FadeInCreated(delay)
      ensures parent.data[..] == old(parent.data[..])[2 := 0]
    {
      bldAlpha := BlendAlpha(BLEND_FULL, 0);
      parent.data[2] := 0;
      t := new Task(TaskSlowFadeIn);
      t.data[1] := BLEND_FULL;
      t.data[2] := 0;
      t.data[3] := delay;
      t.data[4] := delay;
    }

    /** One call of `Task_SlowFadeIn`. */
    method SlowFadeIn(t: Task, parent: Task)
      requires t.data.Length == NUM_TASK_DATA && parent.data.Length == NUM_TASK_DATA
      requires t.data != parent.data && t.func == TaskSlowFadeIn && !t.destroyed
      modifies t.data, t`destroyed, parent.data, this`bldAlpha
      ensures FadeOf(t, parent) == FadeInTick(old(FadeOf(t, parent)))
      ensures forall i :: 0 <= i < NUM_TASK_DATA && i != 1 && i != 2 && i != 4 ==> t.data[i] == old(t.data[i])
      ensures forall i :: 0 <= i < NUM_TASK_DATA && i != 2 ==> parent.data[i] == old(parent.data[i])
    {
      if t.data[1] == 0 {
        parent.data[2] := 1;
        t.destroyed := true;
      } else if t.data[4] != 0 {
        t.data[4] := t.data[4] - 1;
      } else {
        t.data[4] := t.data[3];
        t.data[1] := t.data[1] - 1;
        t.data[2] := t.data[2] + 1;
        bldAlpha := BlendAlpha(t.data[1], t.data[2]);
      }
    }

    /** `CreateFadeOutTask(parent, delay)`. */
    method CreateFadeOutTask(parent: Task, delay: nat) returns (t: Task)
      requires parent.data.Length == NUM_TASK_DATA && delay < TWO8
      modifies parent.data, this`bldAlpha
      ensures fresh(t) && fresh(t.data) && t.data.Length == NUM_TASK_DATA
      ensures t.func == TaskSlowFadeOut
      ensures FadeOf(t, parent) == FadeOutCreated(delay)
      ensures parent.data[..] == old(parent.data[..])[2 := 0]
    {
      bldAlpha := BlendAlpha(0, BLEND_FULL);
      parent.data[2] := 0;
      t := new Task(TaskSlowFadeOut);
      t.data[1] := 0;
      t.data[2] := BLEND_FULL;
      t.data[3] := delay;
      t.data[4] := delay;
    }

    /** One call of `Task_SlowFadeOut`; `paletteFading` is
        `gPaletteFade.active`. */
    method SlowFadeOut(t: Task, parent: Task, paletteFading: bool)
      requires t.data.Length == NUM_TASK_DATA && parent.data.Length == NUM_TASK_DATA
      requires t.data != parent.data && t.func == TaskSlowFadeOut && !t.destroyed
      modifies t.data, t`destroyed, parent.data, this`bldAlpha
      ensures FadeOf(t, parent) == FadeOutTick(old(FadeOf(t, parent)), paletteFading)
      ensures forall i :: 0 <= i < NUM_TASK_DATA && i != 1 && i != 2 && i != 4 ==> t.data[i] == old(t.data[i])
      ensures forall i :: 0 <= i < NUM_TASK_DATA && i != 2 ==> parent.data[i] == old(parent.data[i])
    {
      if t.data[1] == BLEND_FULL {
        if !paletteFading {
          parent.data[2] := 1;
          t.destroyed := true;
        }
      } else if t.data[4] != 0 {
        t.data[4] := t.data[4] - 1;
      } else {
        t.data[4] := t.data[3];
        t.data[1] := t.data[1] + FADE_OUT_STEP;
        t.data[2] := t.data[2] - FADE_OUT_STEP;
        bldAlpha := BlendAlpha(t.data[1], t.data[2]);
      }
    }

    // -------------------------------------------------------------------
    // Task_OakSpeech_SetUpExitAnimation, Task_OakSpeech_FadePlayerPicWhite,
    // Task_OakSpeech_ShrinkPlayerPic

    function WhiteOf(t: Task): White
      requires t.data.Length == NUM_TASK_DATA
      reads t.data, t`destroyed, this`events
    {
      White(t.data[0], t.data[1], t.data[2], t.data[14], events, t.destroyed)
    }

    function ShrinkOf(t: Task): Shrink
      requires t.data.Length == NUM_TASK_DATA
      reads t.data, t`func, this`shrinkTimer, this`events
    {
      Shrink(shrinkTimer, t.data[2], t.data[15], t.data[0], t.func == TaskFadePlayerPicToBlack, events)
    }

    /** `Task_OakSpeech_SetUpExitAnimation`: the shrink timer restarts, a
        new task fades the picture to white, and the calling task becomes
        the shrink task. */
    method SetUpExitAnimation(t: Task) returns (white: Task)
      requires t.data.Length == NUM_TASK_DATA
      modifies this`shrinkTimer, t.data, t`func
      ensures fresh(white) && fresh(white.data) && white.data.Length == NUM_TASK_DATA
      ensures white.func == TaskFadePlayerPicWhite && !white.destroyed
      ensures WhiteOf(white) == WhiteStart(events)
      ensures t.func == TaskShrinkPlayerPic && ShrinkOf(t) == ShrinkStart(events)
    {
      shrinkTimer := 0;
      white := new Task(TaskFadePlayerPicWhite);
      white.data[0] := WHITE_START_DELAY;
      white.data[1] := 0;
      white.data[2] := WHITE_START_DELAY;
      white.data[14] := 0;
      white.data[15] := 0;
      t.data[0] := 0;
      t.data[1] := 0;
      t.data[2] := SCALE_START;
      t.data[15] := 0;
      t.func := TaskShrinkPlayerPic;
    }

    /** One call of `Task_OakSpeech_FadePlayerPicWhite`. The blend itself is
        recorded as an event; on the call that ends the task both palette
        buffers get the player picture's colours set to white. */
    method FadePlayerPicWhite(t: Task)
      requires Shape() && t.data.Length == NUM_TASK_DATA
      requires t.func == TaskFadePlayerPicWhite && !t.destroyed
      modifies t.data, t`destroyed, this`events, plttFaded, plttUnfaded
      ensures WhiteOf(t) == WhiteTick(old(WhiteOf(t)))
      ensures t.destroyed ==> plttFaded[..] == Whitened(old(plttFaded[..])) && plttUnfaded[..] == Whitened(old(plttUnfaded[..]))
      ensures !t.destroyed ==> plttFaded[..] == old(plttFaded[..]) && plttUnfaded[..] == old(plttUnfaded[..])
      ensures forall i :: 3 <= i < NUM_TASK_DATA && i != 14 ==> t.data[i] == old(t.data[i])
    {
      if t.data[0] != 0 {
        t.data[0] := t.data[0] - 1;
        return;
      }
      if t.data[1] <= 0 && t.data[2] != 0 {
        t.data[2] := t.data[2] - 1;
      }
      events := events + [BlendWhite(t.data[14])];
      t.data[14] := t.data[14] + 1;
      t.data[1] := t.data[1] - 1;
      t.data[0] := t.data[2];
      if t.data[14] > WHITE_LAST_COEFFICIENT {
        WhitenPlayerPic(plttFaded, plttUnfaded);
        t.destroyed := true;
      }
    }

    /** One call of `Task_OakSpeech_ShrinkPlayerPic`. The affine transform it
        sets is left to the graphics code. */
    method ShrinkPlayerPic(t: Task)
      requires t.data.Length == NUM_TASK_DATA && t.func == TaskShrinkPlayerPic
      modifies this`shrinkTimer, this`events, t.data, t`func
      ensures ShrinkOf(t) == ShrinkTick(old(ShrinkOf(t)))
      ensures t.func == TaskShrinkPlayerPic || t.func == TaskFadePlayerPicToBlack
      ensures forall i :: 0 <= i < NUM_TASK_DATA && i != 0 && i != 2 && i != 15 ==> t.data[i] == old(t.data[i])
    {
      shrinkTimer := U16(shrinkTimer + 1);
      if shrinkTimer % SHRINK_PERIOD == 0 {
        if shrinkTimer == WARP_IN_TIME {
          events := events + [WarpInSound];
        }
        t.data[2] := t.data[2] - SCALE_STEP;
        if t.data[2] <= SCALE_MIN {
          t.data[15] := 1;
          t.data[0] := FADE_TO_BLACK_DELAY;
          t.func := TaskFadePlayerPicToBlack;
        }
      }
    }

    // -------------------------------------------------------------------
    // Task_OakSpeech_IsInhabitedFarAndWide, Task_OakSpeech_Clear

    function InhabitedOf(t: Task): Inhabited
      requires t.data.Length == NUM_TASK_DATA
      reads t.data, t`func, this`events
    {
      Inhabited(t.data[3], t.func == TaskIStudyPokemon, events)
    }

    /** One call of `Task_OakSpeech_IsInhabitedFarAndWide`; `cryFinished`
        is the answer of `IsCryFinished`. */
    method IsInhabitedFarAndWide(t: Task, cryFinished: bool)
      requires t.data.Length == NUM_TASK_DATA && t.func == TaskIsInhabitedFarAndWide
      modifies t.data, t`func, this`events
      ensures InhabitedOf(t) == InhabitedTick(old(InhabitedOf(t)), cryFinished)
      ensures t.func == TaskIsInhabitedFarAndWide || t.func == TaskIStudyPokemon
      ensures forall i :: 0 <= i < NUM_TASK_DATA && i != 3 ==> t.data[i] == old(t.data[i])
    {
      if cryFinished {
        if t.data[3] >= INHABITED_ADVANCE_TIME {
          t.func := TaskIStudyPokemon;
        }
      }
      if t.data[3] < INHABITED_TIMER_MAX {
        t.data[3] := t.data[3] + 1;
        if t.data[3] == INHABITED_MESSAGE_TIME {
          events := events + [PrintInhabitedMessage, PikachuCry];
        }
      }
    }

    function ClearingOf(t: Task): Clearing
      requires t.data.Length == NUM_TASK_DATA
      reads t.data, t`func, this`pikachuY, this`events
    {
      Clearing(t.data[0], t.data[3], pikachuY, t.func == TaskFadeOutOak, events)
    }

    /** One call of `Task_OakSpeech_Clear`. */
    method Clear(t: Task)
      requires t.data.Length == NUM_TASK_DATA && t.func == TaskClear
      modifies t.data, t`func, this`pikachuY, this`events
      ensures ClearingOf(t) == ClearTick(old(ClearingOf(t)))
      ensures t.func == TaskClear || t.func == TaskFadeOutOak
      ensures forall i :: 0 <= i < NUM_TASK_DATA && i != 0 && i != 3 ==> t.data[i] == old(t.data[i])
    {
      if t.data[0] != 0 {
        if t.data[0] < CLEAR_RAISE_BELOW {
          pikachuY := pikachuY - 1;
        }
        t.data[0] := t.data[0] - 1;
      } else {
        if t.data[3] == CLEAR_WAIT {
          events := events + [DestroyPikachuSprite, DestroyPokeBallSprite];
        }
        if t.data[3] != 0 {
          t.data[3] := t.data[3] - 1;
        } else {
          t.func := TaskFadeOutOak;
        }
      }
    }

    // -------------------------------------------------------------------
    // Task_OakSpeech_SetDefaultNames

    /** Copies the first `PLAYER_NAME_LENGTH` bytes of each default name into
        the save block and terminates both with EOS. The default strings are
        the two 7-byte arrays the game declares. */
    method SetDefaultNames(defaultPlayer: seq<int>, defaultRival: seq<int>)
      requires Shape() && |defaultPlayer| == PLAYER_NAME_LENGTH && |defaultRival| == PLAYER_NAME_LENGTH
      modifies playerName, rivalName
      ensures playerName[..] == defaultPlayer + [EOS]
      ensures rivalName[..] == defaultRival + [EOS]
    {
      for i := 0 to PLAYER_NAME_LENGTH
        invariant playerName[..i] == defaultPlayer[..i]
        invariant rivalName[..i] == defaultRival[..i]
      {
        playerName[i] := defaultPlayer[i];
        rivalName[i] := defaultRival[i];
      }
      playerName[PLAYER_NAME_LENGTH] := EOS;
      rivalName[PLAYER_NAME_LENGTH] := EOS;
      assert playerName[..] == playerName[..PLAYER_NAME_LENGTH] + [EOS];
      assert rivalName[..] == rivalName[..PLAYER_NAME_LENGTH] + [EOS];
    }
  }
}
