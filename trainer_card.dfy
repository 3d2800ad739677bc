/** The trainer card screen as the game runs it: the screen's data (the
    `TrainerCardData` block), the flip task and its six phase handlers, the
    main task, the setup callback and the vertical-blank handler. Each method
    is proved against the pure specification of the same step in `CardFlip`
    and `CardSteppers`. */
module TrainerCardScreen {
  import opened FixedPoint
  import opened Scanline
  import opened CardSteppers
  import opened Tilemap
  import opened CardFlip
  import opened CardData

  /** Entries of a task's `s16 data[16]`. */
  const NUM_TASK_DATA: nat := 16
  /** Entries of each scanline effect buffer (`u16 [0x3C0]`). */
  const SCANLINE_BUF_LEN: nat := 0x3C0
  const NUM_BADGES: nat := 8
  /** Entries a 32x32 tile rectangle fill covers from the start of a buffer. */
  const FILL_LEN: nat := 1024

  /** The flip task: `data[0]` is the phase (`tFlipState`) and `data[1]` the
      fold position. A created task's data is all zero. */
  class FlipTask {
    const data: array<int>
    var destroyed: bool

    constructor ()
      ensures fresh(data) && data.Length == NUM_TASK_DATA
      ensures forall i :: 0 <= i < NUM_TASK_DATA ==> data[i] == 0
      ensures !destroyed
    {
      data := new int[NUM_TASK_DATA](_ => 0);
      destroyed := false;
    }
  }

  /** The screen: `TrainerCardData`, plus the two scanline effect buffers,
      the window and blend registers, the callbacks that are set, and the
      setup callback's `gMain.state`. */
  class CardScreen {
    var mainState: nat
    var printState: nat
    var gfxLoadState: nat
    var bgPalLoadState: nat
    var flipDrawState: nat
    var timeColonBlinkTimer: nat
    var timeColonInvisible: bool
    var timeColonNeedDraw: bool
    var onBack: bool
    var allowDMACopy: bool
    var hasPokedex: nat
    var hasHofResult: nat
    var hasLinkResults: nat
    var hasTrades: nat
    const hasBadge: array<nat>
    var flipBlendY: int
    var cardType: nat
    /** The card shown, filled in before the screen starts. */
    const trainerCard: TrainerCard
    /** `frontTilemap`, `backTilemap` and `bgTilemap`. */
    var maps: Tilemaps
    const cardTilemapBuffer: array<int>
    const bgTilemapBuffer: array<int>
    var cardTop: nat
    /** The `WIN0V` register. */
    var win0v: nat
    /** `gScanlineEffectRegBuffers[0]` and `[1]`. */
    const scanlineBuffer0: array<int>
    const scanlineBuffer1: array<int>
    var flipTask: FlipTask?
    var hblankOn: bool
    var vblankOn: bool
    var closed: bool
    /** `gMain.state` while the setup callback runs, and whether it has
        installed the card's main callback. */
    var initState: nat
    var running: bool
    /** Which table scanline buffer 0 holds after the last fold call. */
    ghost var tableTop: nat
    ghost var tableDir: Direction

    ghost function TaskObjs(): set<object>
      reads this`flipTask
    {
      if flipTask == null then {} else {flipTask, flipTask.data}
    }

    /** The buffers' sizes, and the two pairs of buffers are distinct. */
    ghost predicate Shape()
    {
      && hasBadge.Length == NUM_BADGES
      && cardTilemapBuffer.Length == BUF_LEN && bgTilemapBuffer.Length == BUF_LEN
      && cardTilemapBuffer != bgTilemapBuffer
      && scanlineBuffer0.Length == SCANLINE_BUF_LEN && scanlineBuffer1.Length == SCANLINE_BUF_LEN
      && scanlineBuffer0 != scanlineBuffer1
      && scanlineBuffer0 != cardTilemapBuffer && scanlineBuffer0 != bgTilemapBuffer
    }

    /** The structural invariant: the buffers' shape, stored tilemaps of the
        right size, the flip's ranges, the HBlank callback installed exactly
        while a flip task exists, and scanline buffer 0 holding the table of
        the last fold (the flat table before any). */
    ghost predicate Valid()
      reads this`maps, this`cardTop, this`tableTop, this`tableDir, this`flipDrawState, this`hblankOn
      reads this`running, this`flipTask, TaskObjs(), scanlineBuffer0
    {
      && Shape()
      && MapsOk(maps)
      && cardTop < TWO16 && tableTop < 80 && flipDrawState <= 4
      && scanlineBuffer0[..ROWS] == Table(tableTop, tableDir)
      && (!InPhase(PHASE_DRAW_SIDE) ==> flipDrawState == 0)
      && hblankOn == FlipLive()
      && (!running ==> flipTask == null)
      && (flipTask != null ==>
            && flipTask.data.Length == NUM_TASK_DATA
            && PHASE_BEGIN <= flipTask.data[0] <= PHASE_END
            && 0 <= flipTask.data[1] <= FOLD_MAX
            && (flipTask.data[0] <= PHASE_FOLD_DOWN ==> flipTask.data[1] % FOLD_DOWN_STEP == 0))
    }

    /** A flip task exists (`FindTaskIdByFunc` finds it). */
    ghost predicate FlipLive()
      reads this`flipTask, TaskObjs()
    {
      flipTask != null && !flipTask.destroyed
    }

    /** A flip is only under way while the main task waits for it. */
    ghost predicate FlipMatchesState()
      reads this`mainState, this`flipTask, TaskObjs()
    {
      FlipLive() ==> mainState == STATE_WAIT_FLIP_TO_BACK || mainState == STATE_WAIT_FLIP_TO_FRONT
    }

    ghost predicate InPhase(p: int)
      reads this`flipTask, TaskObjs()
    {
      FlipLive() && flipTask.data.Length == NUM_TASK_DATA && flipTask.data[0] == p
    }

    /** The screen as the flip specification sees it. */
    ghost function View(): FlipView
      reads this`flipTask, this`flipDrawState, this`printState, this`onBack, this`allowDMACopy
      reads this`cardTop, this`flipBlendY, this`win0v, this`tableTop, this`tableDir
      reads TaskObjs(), cardTilemapBuffer, bgTilemapBuffer
    {
      var present := flipTask != null && flipTask.data.Length == NUM_TASK_DATA;
      FlipView(
        if present then flipTask.data[0] else 0, if present then flipTask.data[1] else 0,
        flipDrawState, printState, onBack, allowDMACopy, cardTop, flipBlendY, win0v,
        flipTask != null && !flipTask.destroyed,
        tableTop, tableDir, cardTilemapBuffer[..], bgTilemapBuffer[..])
    }

    ghost function MainViewOf(): MainView
      reads this`mainState, this`printState, this`closed
    {
      MainView(mainState, printState, closed)
    }

    ghost function InitViewOf(): InitView
      reads this`initState, this`gfxLoadState, this`bgPalLoadState, this`running
    {
      InitView(initState, gfxLoadState, bgPalLoadState, running)
    }

    /** `ShowPlayerTrainerCard`: a zero-filled screen holding the player's
        card; the setup callback starts at state 0. */
    constructor (card: TrainerCard)
      ensures Valid() && FlipMatchesState()
      ensures trainerCard == card && InitViewOf() == InitView(0, 0, 0, false)
      ensures MainViewOf() == MainView(0, 0, false) && flipTask == null
      ensures fresh(hasBadge) && fresh(cardTilemapBuffer) && fresh(bgTilemapBuffer)
      ensures fresh(scanlineBuffer0) && fresh(scanlineBuffer1)
    {
      mainState, printState, gfxLoadState, bgPalLoadState, flipDrawState := 0, 0, 0, 0, 0;
      timeColonBlinkTimer, timeColonInvisible, timeColonNeedDraw := 0, false, false;
      onBack, allowDMACopy := false, false;
      hasPokedex, hasHofResult, hasLinkResults, hasTrades := 0, 0, 0, 0;
      hasBadge := new nat[NUM_BADGES](_ => 0);
      flipBlendY, cardType := 0, 0;
      trainerCard := card;
      maps := Tilemaps(seq(MAP_LEN, _ => 0), seq(MAP_LEN, _ => 0), seq(MAP_LEN, _ => 0));
      cardTilemapBuffer := new int[BUF_LEN](_ => 0);
      bgTilemapBuffer := new int[BUF_LEN](_ => 0);
      cardTop, win0v := 0, 0;
      scanlineBuffer0 := new int[SCANLINE_BUF_LEN](_ => 0);
      scanlineBuffer1 := new int[SCANLINE_BUF_LEN](_ => 0);
      flipTask := null;
      hblankOn, vblankOn, closed := false, false, false;
      initState, running := 0, false;
      tableTop, tableDir := 0, Down;
      TableAtRest(Down);
    }


    // -------------------------------------------------------------------
    // Printing and loading steppers

    /** `PrintAllOnCardFront`: name, ID, money, Pokedex count and play time,
        one per call; then TRUE with the state reset. */
    method PrintAllOnCardFront() returns (done: bool)
      modifies this`printState
      ensures Step(done, printState) == Call(PrintFront, old(printState))
    {
      if printState < Cases(PrintFront) {
        printState := printState + 1;
        done := false;
      } else {
        printState := 0;
        done := true;
      }
    }

    /** `PrintAllOnCardBack`: name and badges, one per call; then TRUE with
        the state reset. */
    method PrintAllOnCardBack() returns (done: bool)
      modifies this`printState
      ensures Step(done, printState) == Call(PrintBack, old(printState))
    {
      if printState < Cases(PrintBack) {
        printState := printState + 1;
        done := false;
      } else {
        printState := 0;
        done := true;
      }
    }

    /** `LoadCardGfx`: the first three calls store the background, back and
        front tilemaps (decompressed, given here as `stored`); two more load
        tiles; then TRUE with the state reset. */
    method LoadCardGfx(stored: Tilemaps) returns (done: bool)
      requires MapsOk(stored) && MapsOk(maps)
      modifies this`gfxLoadState, this`maps
      ensures Step(done, gfxLoadState) == Call(LoadGfx, old(gfxLoadState))
      ensures MapsOk(maps)
      ensures maps == (if old(gfxLoadState) == 0 then old(maps).(bg := stored.bg)
                       else if old(gfxLoadState) == 1 then old(maps).(back := stored.back)
                       else if old(gfxLoadState) == 2 then old(maps).(front := stored.front)
                       else old(maps))
    {
      if gfxLoadState < Cases(LoadGfx) {
        if gfxLoadState == 0 {
          maps := maps.(bg := stored.bg);
        } else if gfxLoadState == 1 {
          maps := maps.(back := stored.back);
        } else if gfxLoadState == 2 {
          maps := maps.(front := stored.front);
        }
        gfxLoadState := gfxLoadState + 1;
        done := false;
      } else {
        gfxLoadState := 0;
        done := true;
      }
    }

    /** Filling the first 32x32 tiles of a tilemap buffer with tile 0. */
    static method ClearTilemapRect(buf: array<int>)
      requires buf.Length == BUF_LEN
      modifies buf
      ensures forall k :: 0 <= k < FILL_LEN ==> buf[k] == 0
      ensures forall k :: FILL_LEN <= k < BUF_LEN ==> buf[k] == old(buf[k])
    {
      var k := 0;
      while k < FILL_LEN
        invariant 0 <= k <= FILL_LEN
        invariant forall j :: 0 <= j < k ==> buf[j] == 0
        invariant forall j :: k <= j < BUF_LEN ==> buf[j] == old(buf[j])
      {
        buf[k] := 0;
        k := k + 1;
      }
    }

    /** `SetTrainerCardBgsAndPals`: six loading calls (tiles, the card
        palette chosen by the star count, badge and star palettes, the
        tilemap buffers); then TRUE on every later call, each clearing the
        first 32x32 tiles of the card and background buffers. The state is
        not reset. */
    method SetTrainerCardBgsAndPals() returns (done: bool)
      requires cardTilemapBuffer.Length == BUF_LEN && bgTilemapBuffer.Length == BUF_LEN
      requires cardTilemapBuffer != bgTilemapBuffer
      modifies this`bgPalLoadState, cardTilemapBuffer, bgTilemapBuffer
      ensures Step(done, bgPalLoadState) == Call(BgsAndPals, old(bgPalLoadState))
      ensures !done ==> unchanged(cardTilemapBuffer) && unchanged(bgTilemapBuffer)
      ensures done ==> forall k :: 0 <= k < FILL_LEN ==> cardTilemapBuffer[k] == 0 && bgTilemapBuffer[k] == 0
      ensures forall k :: FILL_LEN <= k < BUF_LEN ==>
                cardTilemapBuffer[k] == old(cardTilemapBuffer[k]) && bgTilemapBuffer[k] == old(bgTilemapBuffer[k])
    {
      if bgPalLoadState < Cases(BgsAndPals) {
        bgPalLoadState := bgPalLoadState + 1;
        done := false;
      } else {
        ClearTilemapRect(cardTilemapBuffer);
        ClearTilemapRect(bgTilemapBuffer);
        done := true;
      }
    }

    // -------------------------------------------------------------------
    // The flip task

    /** `UpdateCardFlipRegs`: the darkening coefficient from the argument and
        the window from the screen's `cardTop`. */
    method UpdateCardFlipRegs(top: nat)
      requires top < TWO16 && cardTop <= ROWS
      modifies this`flipBlendY, this`win0v
      ensures flipBlendY == BlendY(top) && win0v == Win0V(cardTop)
    {
      var blendY := S8((top + 40) / 10);
      if blendY <= 4 {
        blendY := 0;
      }
      flipBlendY := blendY;
      win0v := cardTop * 256 + (ROWS - cardTop);
    }

    /** Clearing the first 160 entries of a scanline buffer. */
    static method ClearRows(buf: array<int>)
      requires buf.Length == SCANLINE_BUF_LEN
      modifies buf
      ensures forall k :: 0 <= k < ROWS ==> buf[k] == 0
      ensures forall k :: ROWS <= k < SCANLINE_BUF_LEN ==> buf[k] == old(buf[k])
    {
      var i := 0;
      while i < ROWS
        invariant 0 <= i <= ROWS
        invariant forall k :: 0 <= k < i ==> buf[k] == 0
        invariant forall k :: i <= k < SCANLINE_BUF_LEN ==> buf[k] == old(buf[k])
      {
        buf[i] := 0;
        i := i + 1;
      }
    }

    /** The part both fold handlers share: the new card top, the registers
        for it, and the table for it in scanline buffer 0, with the copy to
        buffer 1 held back while the table is written. */
    method ApplyFold(top: nat, dir: Direction)
      requires top <= FOLD_MAX && scanlineBuffer0.Length == SCANLINE_BUF_LEN
      modifies this`allowDMACopy, this`cardTop, this`flipBlendY, this`win0v, this`tableTop, this`tableDir
      modifies scanlineBuffer0
      ensures allowDMACopy && cardTop == top && tableTop == top && tableDir == dir
      ensures flipBlendY == BlendY(top) && win0v == Win0V(top)
      ensures forall k :: 0 <= k < ROWS ==> scanlineBuffer0[k] == Table(top, dir)[k]
      ensures forall k :: ROWS <= k < SCANLINE_BUF_LEN ==> scanlineBuffer0[k] == old(scanlineBuffer0[k])
    {
      allowDMACopy := false;
      WriteFoldTable(top, dir);
      allowDMACopy := true;
    }

    /** The body of a fold handler between lowering and raising the copy
        flag: it needs the flag down and cannot change it, so the VBlank
        copy never sees a half-written table. */
    method WriteFoldTable(top: nat, dir: Direction)
      requires top <= FOLD_MAX && scanlineBuffer0.Length == SCANLINE_BUF_LEN
      requires !allowDMACopy
      modifies this`cardTop, this`flipBlendY, this`win0v, this`tableTop, this`tableDir
      modifies scanlineBuffer0
      ensures !allowDMACopy
      ensures cardTop == top && tableTop == top && tableDir == dir
      ensures flipBlendY == BlendY(top) && win0v == Win0V(top)
      ensures forall k :: 0 <= k < ROWS ==> scanlineBuffer0[k] == Table(top, dir)[k]
      ensures forall k :: ROWS <= k < SCANLINE_BUF_LEN ==> scanlineBuffer0[k] == old(scanlineBuffer0[k])
    {
      cardTop := top;
      UpdateCardFlipRegs(top);
      FillFoldTable(scanlineBuffer0, top, dir);
      tableTop, tableDir := top, dir;
    }

    /** `Task_BeginCardFlip`: clear the first 160 entries of scanline buffer
        1 and move on. */
    method BeginCardFlip() returns (again: bool)
      requires Valid() && InPhase(PHASE_BEGIN)
      modifies flipTask.data, scanlineBuffer1
      ensures Valid() && !again
      ensures View() == old(View()).(phase := PHASE_FOLD_DOWN)
      ensures forall k :: 0 <= k < ROWS ==> scanlineBuffer1[k] == 0
      ensures forall k :: ROWS <= k < SCANLINE_BUF_LEN ==> scanlineBuffer1[k] == old(scanlineBuffer1[k])
    {
      ClearRows(scanlineBuffer1);
      flipTask.data[0] := flipTask.data[0] + 1;
      again := false;
    }

    /** `Task_AnimateCardFlipDown`: fold 7 lines further (holding at 77),
        update the registers and regenerate the table; move on at 77. */
    method AnimateCardFlipDown() returns (again: bool)
      requires Valid() && InPhase(PHASE_FOLD_DOWN)
      modifies this`allowDMACopy, this`cardTop, this`flipBlendY, this`win0v, this`tableTop, this`tableDir
      modifies flipTask.data, scanlineBuffer0
      ensures Valid() && !again
      ensures View() == FoldDownTick(old(View()))
      ensures forall k :: 0 <= k < ROWS ==> scanlineBuffer0[k] == Table(tableTop, Down)[k]
      ensures forall k :: ROWS <= k < SCANLINE_BUF_LEN ==> scanlineBuffer0[k] == old(scanlineBuffer0[k])
    {
      var task := flipTask;
      if task.data[1] >= FOLD_MAX {
        task.data[1] := FOLD_MAX;
      } else {
        task.data[1] := task.data[1] + FOLD_DOWN_STEP;
      }
      var top: nat := task.data[1];
      ApplyFold(top, Down);
      if top >= FOLD_MAX {
        task.data[0] := task.data[0] + 1;
      }
      again := false;
    }

    /** `Task_DrawFlippedCardSide`: unless the link queue is backed up, run
        the redraw loop; without link players it continues until printing
        needs another call or the face is finished. */
    method DrawFlippedCardSide(link: bool, queueBacked: bool) returns (again: bool)
      requires Valid() && InPhase(PHASE_DRAW_SIDE)
      modifies this`allowDMACopy, this`flipDrawState, this`printState, flipTask.data, cardTilemapBuffer
      ensures Valid() && !again
      ensures View() == DrawSideTick(old(View()), link, queueBacked, maps)
    {
      allowDMACopy := false;
      if queueBacked {
        return false;
      }
      ghost var v0 := View();
      var more := true;
      while more
        invariant Valid() && FlipLive()
        invariant more ==> InPhase(PHASE_DRAW_SIDE) && DrawIter(View(), link, maps) == DrawIter(v0, link, maps)
        invariant !more ==> View() == DrawIter(v0, link, maps)
        decreases more, 4 - flipDrawState
      {
        more := RedrawArm(link);
      }
      again := false;
    }

    /** One pass through the body of the redraw loop: the `switch` arm for
        `flipDrawState`, the increment, and the loop test. `more` says the
        loop goes on: the arm fell through and there are no link players. */
    method RedrawArm(link: bool) returns (more: bool)
      requires Valid() && InPhase(PHASE_DRAW_SIDE)
      modifies this`allowDMACopy, this`flipDrawState, this`printState, flipTask.data, cardTilemapBuffer
      ensures Valid() && FlipLive()
      ensures View() == DrawArm(old(View()), maps).view
      ensures more == (DrawArm(old(View()), maps).fellThrough && !link)
    {
      if flipDrawState == 0 {
        // clear the text window and the badge layer
      } else if flipDrawState == 1 {
        var done;
        if !onBack {
          done := PrintAllOnCardBack();
        } else {
          done := PrintAllOnCardFront();
        }
        if !done {
          return false;
        }
      } else if flipDrawState == 2 {
        if !onBack {
          CopyTilemap(cardTilemapBuffer, maps.back);
        }
      } else if flipDrawState == 3 {
        // the trainer picture is created when drawing the front
      } else {
        flipTask.data[0] := flipTask.data[0] + 1;
        allowDMACopy := true;
        flipDrawState := 0;
        return false;
      }
      flipDrawState := flipDrawState + 1;
      more := !link;
    }

    /** `Task_SetCardFlipped`: when the back was showing, redraw the
        background and the front; switch faces. */
    method SetCardFlipped() returns (again: bool)
      requires Valid() && InPhase(PHASE_SET_FLIPPED)
      modifies this`allowDMACopy, this`onBack, flipTask.data, cardTilemapBuffer, bgTilemapBuffer
      ensures Valid() && !again
      ensures View() == SetFlippedTick(old(View()), maps)
    {
      allowDMACopy := false;
      if onBack {
        CopyTilemap(bgTilemapBuffer, maps.bg);
        CopyTilemap(cardTilemapBuffer, maps.front);
      }
      onBack := !onBack;
      flipTask.data[0] := flipTask.data[0] + 1;
      allowDMACopy := true;
      again := false;
    }

    /** `Task_AnimateCardFlipUp`: unfold 5 lines (snapping to 0), update the
        registers and regenerate the table; move on once flat. */
    method AnimateCardFlipUp() returns (again: bool)
      requires Valid() && InPhase(PHASE_FOLD_UP)
      modifies this`allowDMACopy, this`cardTop, this`flipBlendY, this`win0v, this`tableTop, this`tableDir
      modifies flipTask.data, scanlineBuffer0
      ensures Valid() && !again
      ensures View() == FoldUpTick(old(View()))
      ensures forall k :: 0 <= k < ROWS ==> scanlineBuffer0[k] == Table(tableTop, Up)[k]
      ensures forall k :: ROWS <= k < SCANLINE_BUF_LEN ==> scanlineBuffer0[k] == old(scanlineBuffer0[k])
    {
      var task := flipTask;
      if task.data[1] <= FOLD_UP_STEP {
        task.data[1] := 0;
      } else {
        task.data[1] := task.data[1] - FOLD_UP_STEP;
      }
      var top: nat := task.data[1];
      ApplyFold(top, Up);
      if top <= 0 {
        task.data[0] := task.data[0] + 1;
      }
      again := false;
    }

    /** `Task_EndCardFlip`: remove the HBlank callback and destroy the task. */
    method EndCardFlip() returns (again: bool)
      requires Valid() && InPhase(PHASE_END)
      modifies this`hblankOn, flipTask`destroyed
      ensures Valid() && !again && !hblankOn
      ensures View() == old(View()).(live := false)
    {
      hblankOn := false;
      flipTask.destroyed := true;
      again := false;
    }

    /** What one flip handler does to the two scanline buffers, given the
        phase it ran in and their contents before: the begin handler clears
        the first 160 entries of buffer 1, the fold handlers rewrite the
        first 160 entries of buffer 0 (with the table `Valid` names), and
        every other entry of both buffers is kept. */
    ghost predicate BuffersAfterTick(phase: int, old0: seq<int>, old1: seq<int>)
      requires |old0| == SCANLINE_BUF_LEN && |old1| == SCANLINE_BUF_LEN
      requires Shape()
      reads scanlineBuffer0, scanlineBuffer1
    {
      && (forall k :: 0 <= k < ROWS ==> scanlineBuffer1[k] == if phase == PHASE_BEGIN then 0 else old1[k])
      && (phase != PHASE_FOLD_DOWN && phase != PHASE_FOLD_UP ==> forall k :: 0 <= k < ROWS ==> scanlineBuffer0[k] == old0[k])
      && (forall k :: ROWS <= k < SCANLINE_BUF_LEN ==> scanlineBuffer0[k] == old0[k] && scanlineBuffer1[k] == old1[k])
    }

    /** The handler the phase selects (`sTrainerCardFlipTasks`). */
    method RunFlipHandler(link: bool, queueBacked: bool) returns (again: bool)
      requires Valid() && FlipLive()
      modifies this`allowDMACopy, this`cardTop, this`flipBlendY, this`win0v, this`tableTop, this`tableDir
      modifies this`flipDrawState, this`printState, this`onBack, this`hblankOn, flipTask`destroyed
      modifies flipTask.data, cardTilemapBuffer, bgTilemapBuffer, scanlineBuffer0, scanlineBuffer1
      ensures Valid() && !again
      ensures View() == FlipTick(old(View()), link, queueBacked, maps)
      ensures BuffersAfterTick(old(View()).phase, old(scanlineBuffer0[..]), old(scanlineBuffer1[..]))
    {
      var phase := flipTask.data[0];
      if phase == PHASE_BEGIN {
        again := BeginCardFlip();
      } else if phase == PHASE_FOLD_DOWN {
        again := AnimateCardFlipDown();
      } else if phase == PHASE_DRAW_SIDE {
        again := DrawFlippedCardSide(link, queueBacked);
      } else if phase == PHASE_SET_FLIPPED {
        again := SetCardFlipped();
      } else if phase == PHASE_FOLD_UP {
        again := AnimateCardFlipUp();
      } else {
        again := EndCardFlip();
      }
    }

    /** `Task_DoCardFlipTask`: run handlers while they ask to; as none does,
        exactly one runs per call. */
    method DoCardFlipTask(link: bool, queueBacked: bool)
      requires Valid() && FlipLive()
      modifies this`allowDMACopy, this`cardTop, this`flipBlendY, this`win0v, this`tableTop, this`tableDir
      modifies this`flipDrawState, this`printState, this`onBack, this`hblankOn, flipTask`destroyed
      modifies flipTask.data, cardTilemapBuffer, bgTilemapBuffer, scanlineBuffer0, scanlineBuffer1
      ensures Valid()
      ensures View() == FlipTick(old(View()), link, queueBacked, maps)
      ensures BuffersAfterTick(old(View()).phase, old(scanlineBuffer0[..]), old(scanlineBuffer1[..]))
    {
      var again := true;
      while again
        invariant Valid()
        invariant again ==> FlipLive() && View() == old(View())
        invariant again ==> scanlineBuffer0[..] == old(scanlineBuffer0[..]) && scanlineBuffer1[..] == old(scanlineBuffer1[..])
        invariant !again ==> BuffersAfterTick(old(View()).phase, old(scanlineBuffer0[..]), old(scanlineBuffer1[..]))
        invariant !again ==> View() == FlipTick(old(View()), link, queueBacked, maps)
        decreases again
      {
        again := RunFlipHandler(link, queueBacked);
      }
    }

    /** `IsCardFlipTaskActive`: TRUE exactly when no flip task exists. */
    method IsCardFlipTaskActive() returns (r: bool)
      requires Valid()
      ensures r == !FlipLive()
    {
      r := flipTask == null || flipTask.destroyed;
    }

    /** `FlipTrainerCard`: create the flip task, run its first call at once,
        and install the HBlank callback. A new task's phase is 0, so that
        first call of the dispatcher is the begin handler, called directly
        here. The callback is recorded first; nothing runs between the two. */
    method FlipTrainerCard()
      requires Valid() && running && !FlipLive()
      modifies this`hblankOn, this`flipTask, scanlineBuffer1
      ensures Valid() && FlipLive() && fresh(flipTask)
      ensures View() == old(View()).(phase := PHASE_FOLD_DOWN, pos := 0, live := true)
      ensures forall k :: 0 <= k < ROWS ==> scanlineBuffer1[k] == 0
      ensures forall k :: ROWS <= k < SCANLINE_BUF_LEN ==> scanlineBuffer1[k] == old(scanlineBuffer1[k])
    {
      var task := new FlipTask();
      flipTask := task;
      hblankOn := true;
      var again := BeginCardFlip();
    }

    // -------------------------------------------------------------------
    // The main task, the setup callback and the vertical blank

    /** One call of `Task_TrainerCard`. The inputs say whether no flip task
        exists; `link` is `gReceivedRemoteLinkPlayers`. */
    method TaskTrainerCard(inp: MainInputs, link: bool)
      requires Valid() && FlipMatchesState() && running
      requires inp.noFlipTask == !FlipLive()
      modifies this`printState, this`hblankOn, this`flipTask
      modifies this`mainState, this`closed, this`vblankOn, this`timeColonNeedDraw
      modifies cardTilemapBuffer, bgTilemapBuffer, scanlineBuffer1
      ensures Valid() && FlipMatchesState()
      ensures MainViewOf() == MainStep(old(MainViewOf()), inp).0
      ensures MainStep(old(MainViewOf()), inp).1 == StartFlip ==>
                && fresh(flipTask) && InPhase(PHASE_FOLD_DOWN)
                && View() == old(View()).(phase := PHASE_FOLD_DOWN, pos := 0, live := true)
                && (forall k :: 0 <= k < ROWS ==> scanlineBuffer1[k] == 0)
      ensures MainStep(old(MainViewOf()), inp).1 != StartFlip ==>
                flipTask == old(flipTask) && hblankOn == old(hblankOn) && unchanged(scanlineBuffer1)
      ensures forall k :: ROWS <= k < SCANLINE_BUF_LEN ==> scanlineBuffer1[k] == old(scanlineBuffer1[k])
      ensures vblankOn == (old(vblankOn) || (!old(closed) && old(mainState) == 7))
      ensures !old(closed) && old(mainState) == 4 ==> bgTilemapBuffer[..] == Padded(old(bgTilemapBuffer[..]), maps.bg)
      ensures old(closed) || old(mainState) != 4 ==> unchanged(bgTilemapBuffer)
      ensures !old(closed) && old(mainState) == 5 ==> cardTilemapBuffer[..] == Padded(old(cardTilemapBuffer[..]), maps.front)
      ensures old(closed) || old(mainState) != 5 ==> unchanged(cardTilemapBuffer)
      ensures timeColonNeedDraw ==
                (old(timeColonNeedDraw) && !(!old(closed) && old(mainState) == STATE_HANDLE_INPUT_FRONT && !link))
    {
      if closed {
        return;
      }
      if mainState <= 9 {
        DrawCardInitially(inp);
      } else {
        RunShownCard(inp, link);
      }
    }

    /** The states of `Task_TrainerCard` after the card is shown: input,
        waiting for a flip, and closing. */
    method RunShownCard(inp: MainInputs, link: bool)
      requires Valid() && FlipMatchesState() && running && mainState > 9 && !closed
      requires inp.noFlipTask == !FlipLive()
      modifies this`hblankOn, this`flipTask, this`mainState, this`closed, this`timeColonNeedDraw, scanlineBuffer1
      ensures Valid() && FlipMatchesState()
      ensures MainViewOf() == MainStep(old(MainViewOf()), inp).0
      ensures MainStep(old(MainViewOf()), inp).1 == StartFlip ==>
                && fresh(flipTask) && InPhase(PHASE_FOLD_DOWN)
                && View() == old(View()).(phase := PHASE_FOLD_DOWN, pos := 0, live := true)
                && (forall k :: 0 <= k < ROWS ==> scanlineBuffer1[k] == 0)
      ensures MainStep(old(MainViewOf()), inp).1 != StartFlip ==>
                flipTask == old(flipTask) && hblankOn == old(hblankOn) && unchanged(scanlineBuffer1)
      ensures forall k :: ROWS <= k < SCANLINE_BUF_LEN ==> scanlineBuffer1[k] == old(scanlineBuffer1[k])
      ensures timeColonNeedDraw == (old(timeColonNeedDraw) && !(old(mainState) == STATE_HANDLE_INPUT_FRONT && !link))
    {
      var s := mainState;
      if s == STATE_HANDLE_INPUT_FRONT || s == STATE_HANDLE_INPUT_BACK {
        HandleInput(inp, link);
      } else if s == STATE_WAIT_FLIP_TO_BACK || s == STATE_WAIT_FLIP_TO_FRONT {
        WaitForFlip(inp);
      } else if s == STATE_CLOSE_CARD {
        if !inp.fadeActive {
          closed := true;
        }
      }
    }

    /** States 0 to 9 of `Task_TrainerCard`: print the front, draw the
        background and the front into their buffers, install the VBlank
        callback and fade in. */
    method DrawCardInitially(inp: MainInputs)
      requires Valid() && FlipMatchesState() && mainState <= 9 && !closed
      modifies this`printState, this`mainState, this`vblankOn, cardTilemapBuffer, bgTilemapBuffer
      ensures Valid() && FlipMatchesState()
      ensures MainViewOf() == MainStep(old(MainViewOf()), inp).0
      ensures vblankOn == (old(vblankOn) || old(mainState) == 7)
      ensures old(mainState) == 4 ==> bgTilemapBuffer[..] == Padded(old(bgTilemapBuffer[..]), maps.bg)
      ensures old(mainState) != 4 ==> unchanged(bgTilemapBuffer)
      ensures old(mainState) == 5 ==> cardTilemapBuffer[..] == Padded(old(cardTilemapBuffer[..]), maps.front)
      ensures old(mainState) != 5 ==> unchanged(cardTilemapBuffer)
    {
      var s := mainState;
      if s == 0 {
        if !inp.dmaBusy {
          mainState := 1;
        }
      } else if s == 1 {
        var done := PrintAllOnCardFront();
        if done {
          mainState := 2;
        }
      } else if 2 <= s <= 7 {
        if s == 4 {
          CopyTilemap(bgTilemapBuffer, maps.bg);
        } else if s == 5 {
          CopyTilemap(cardTilemapBuffer, maps.front);
        } else if s == 7 {
          vblankOn := true;
        }
        mainState := s + 1;
      } else if s == 8 {
        if !inp.fadeActive && !inp.dmaBusy {
          mainState := STATE_HANDLE_INPUT_FRONT;
        }
      } else {
        if !inp.sePlaying {
          mainState := 10;
        }
      }
    }

    /** The two waiting states of `Task_TrainerCard`: once no flip task
        exists and the link queue is not backed up, accept input on the face
        now shown. */
    method WaitForFlip(inp: MainInputs)
      requires Valid() && FlipMatchesState() && inp.noFlipTask == !FlipLive() && !closed
      requires mainState == STATE_WAIT_FLIP_TO_BACK || mainState == STATE_WAIT_FLIP_TO_FRONT
      modifies this`mainState
      ensures Valid() && FlipMatchesState()
      ensures MainViewOf() == MainStep(old(MainViewOf()), inp).0
    {
      var s := mainState;
      var noTask := IsCardFlipTaskActive();
      if noTask && !inp.queueBacked {
        mainState := if s == STATE_WAIT_FLIP_TO_BACK then STATE_HANDLE_INPUT_BACK else STATE_HANDLE_INPUT_FRONT;
      }
    }

    /** The two input states of `Task_TrainerCard`: on the front, redraw the
        play time when the colon has blinked (without link players); then A
        flips the card and B starts closing it. */
    method HandleInput(inp: MainInputs, link: bool)
      requires Valid() && running && !FlipLive() && !closed
      requires mainState == STATE_HANDLE_INPUT_FRONT || mainState == STATE_HANDLE_INPUT_BACK
      modifies this`hblankOn, this`flipTask, this`mainState, this`timeColonNeedDraw, scanlineBuffer1
      ensures Valid() && FlipMatchesState()
      ensures MainViewOf() == MainStep(old(MainViewOf()), inp).0
      ensures inp.aPressed ==> fresh(flipTask) && InPhase(PHASE_FOLD_DOWN)
      ensures inp.aPressed ==>
                && View() == old(View()).(phase := PHASE_FOLD_DOWN, pos := 0, live := true)
                && (forall k :: 0 <= k < ROWS ==> scanlineBuffer1[k] == 0)
      ensures !inp.aPressed ==> flipTask == old(flipTask) && hblankOn == old(hblankOn) && unchanged(scanlineBuffer1)
      ensures forall k :: ROWS <= k < SCANLINE_BUF_LEN ==> scanlineBuffer1[k] == old(scanlineBuffer1[k])
      ensures timeColonNeedDraw == (old(timeColonNeedDraw) && !(old(mainState) == STATE_HANDLE_INPUT_FRONT && !link))
    {
      if mainState == STATE_HANDLE_INPUT_FRONT && !link && timeColonNeedDraw {
        // print the play time and redraw the window
        timeColonNeedDraw := false;
      }
      HandleButtons(inp);
    }

    /** The button test both input states share: A flips the card and waits
        for the flip to end, B starts closing the card. */
    method HandleButtons(inp: MainInputs)
      requires Valid() && running && !FlipLive() && !closed
      requires mainState == STATE_HANDLE_INPUT_FRONT || mainState == STATE_HANDLE_INPUT_BACK
      modifies this`hblankOn, this`flipTask, this`mainState, scanlineBuffer1
      ensures Valid() && FlipMatchesState()
      ensures MainViewOf() == MainStep(old(MainViewOf()), inp).0
      ensures inp.aPressed ==> fresh(flipTask) && InPhase(PHASE_FOLD_DOWN)
      ensures inp.aPressed ==>
                && View() == old(View()).(phase := PHASE_FOLD_DOWN, pos := 0, live := true)
                && (forall k :: 0 <= k < ROWS ==> scanlineBuffer1[k] == 0)
      ensures !inp.aPressed ==> flipTask == old(flipTask) && hblankOn == old(hblankOn) && unchanged(scanlineBuffer1)
      ensures forall k :: ROWS <= k < SCANLINE_BUF_LEN ==> scanlineBuffer1[k] == old(scanlineBuffer1[k])
    {
      var s := mainState;
      if inp.aPressed {
        FlipTrainerCard();
        mainState := if s == STATE_HANDLE_INPUT_FRONT then STATE_WAIT_FLIP_TO_BACK else STATE_WAIT_FLIP_TO_FRONT;
      } else if inp.bPressed {
        mainState := STATE_CLOSE_CARD;
      }
    }

    /** `SetDataFromTrainerCard`: the screen's flags from the card, and one
        badge flag per badge event flag that is set. */
    method SetDataFromTrainerCard(badgeFlags: seq<bool>)
      requires hasBadge.Length == NUM_BADGES && |badgeFlags| == NUM_BADGES
      modifies this`hasPokedex, this`hasHofResult, this`hasLinkResults, this`hasTrades, hasBadge
      ensures hasPokedex == Bit(trainerCard.rse.hasPokedex)
      ensures hasHofResult == Bit(trainerCard.rse.hofDebutHours != 0 || trainerCard.rse.hofDebutMinutes != 0
                                  || trainerCard.rse.hofDebutSeconds != 0)
      ensures hasLinkResults == Bit(trainerCard.rse.linkBattleWins != 0 || trainerCard.rse.linkBattleLosses != 0)
      ensures hasTrades == Bit(trainerCard.rse.pokemonTrades != 0)
      ensures forall i :: 0 <= i < NUM_BADGES ==> hasBadge[i] == Bit(badgeFlags[i])
    {
      hasPokedex, hasHofResult, hasLinkResults, hasTrades := 0, 0, 0, 0;
      ClearBadges(hasBadge);
      var rse := trainerCard.rse;
      if rse.hasPokedex {
        hasPokedex := hasPokedex + 1;
      }
      if rse.hofDebutHours != 0 || rse.hofDebutMinutes != 0 || rse.hofDebutSeconds != 0 {
        hasHofResult := hasHofResult + 1;
      }
      if rse.linkBattleWins != 0 || rse.linkBattleLosses != 0 {
        hasLinkResults := hasLinkResults + 1;
      }
      if rse.pokemonTrades != 0 {
        hasTrades := hasTrades + 1;
      }
      CountBadges(hasBadge, badgeFlags);
    }

    /** The `memset` of the badge flags. */
    static method ClearBadges(badges: array<nat>)
      modifies badges
      ensures forall i :: 0 <= i < badges.Length ==> badges[i] == 0
    {
      var k := 0;
      while k < badges.Length
        invariant 0 <= k <= badges.Length
        invariant forall i :: 0 <= i < k ==> badges[i] == 0
      {
        badges[k] := 0;
        k := k + 1;
      }
    }

    /** The loop over the eight badge event flags: each set flag increments
        its (cleared) badge entry. */
    static method CountBadges(badges: array<nat>, badgeFlags: seq<bool>)
      requires badges.Length == NUM_BADGES && |badgeFlags| == NUM_BADGES
      requires forall i :: 0 <= i < NUM_BADGES ==> badges[i] == 0
      modifies badges
      ensures forall i :: 0 <= i < NUM_BADGES ==> badges[i] == Bit(badgeFlags[i])
    {
      var i := 0;
      while i < NUM_BADGES
        invariant 0 <= i <= NUM_BADGES
        invariant forall j :: 0 <= j < i ==> badges[j] == Bit(badgeFlags[j])
        invariant forall j :: i <= j < NUM_BADGES ==> badges[j] == 0
      {
        if badgeFlags[i] {
          badges[i] := badges[i] + 1;
        }
        i := i + 1;
      }
    }

    /** `InitTrainerCardData`: reset the main state, seed the blink timer
        from the play-time frame counter (a `u8`), show the front, no
        darkening, Kanto card style. */
    method InitTrainerCardData(playTimeVBlanks: nat)
      modifies this`mainState, this`timeColonBlinkTimer, this`timeColonInvisible, this`onBack
      modifies this`flipBlendY, this`cardType
      ensures mainState == 0 && timeColonBlinkTimer == U8(playTimeVBlanks) && !timeColonInvisible
      ensures !onBack && flipBlendY == 0 && cardType == CARD_TYPE_FRLG
    {
      mainState := 0;
      timeColonBlinkTimer := U8(playTimeVBlanks);
      timeColonInvisible := false;
      onBack := false;
      flipBlendY := 0;
      cardType := CARD_TYPE_FRLG;
    }

    /** `SetUpTrainerCardTask`: reset the tasks (so no flip task remains),
        create the main task, and fill in the screen's data. */
    method SetUpTrainerCardTask(playTimeVBlanks: nat, badgeFlags: seq<bool>)
      requires hasBadge.Length == NUM_BADGES && |badgeFlags| == NUM_BADGES
      modifies this`mainState, this`timeColonBlinkTimer, this`timeColonInvisible, this`onBack
      modifies this`flipBlendY, this`cardType, this`flipTask
      modifies this`hasPokedex, this`hasHofResult, this`hasLinkResults, this`hasTrades, hasBadge
      ensures flipTask == null
      ensures mainState == 0 && !onBack && flipBlendY == 0 && cardType == CARD_TYPE_FRLG
      ensures timeColonBlinkTimer == U8(playTimeVBlanks) && !timeColonInvisible
      ensures hasPokedex == Bit(trainerCard.rse.hasPokedex)
      ensures hasHofResult == Bit(trainerCard.rse.hofDebutHours != 0 || trainerCard.rse.hofDebutMinutes != 0
                                  || trainerCard.rse.hofDebutSeconds != 0)
      ensures hasLinkResults == Bit(trainerCard.rse.linkBattleWins != 0 || trainerCard.rse.linkBattleLosses != 0)
      ensures hasTrades == Bit(trainerCard.rse.pokemonTrades != 0)
      ensures forall i :: 0 <= i < NUM_BADGES ==> hasBadge[i] == Bit(badgeFlags[i])
    {
      flipTask := null;
      InitTrainerCardData(playTimeVBlanks);
      SetDataFromTrainerCard(badgeFlags);
    }

    /** One call of `CB2_InitTrainerCard`. State 0 resets the tasks (no flip
        task remains), creates the main task and fills in the screen's data,
        which no later state touches; state 8 loads the tilemaps; state 11
        loads tiles and palettes; the last state installs the card's main
        callback. */
    method InitTrainerCardStep(stored: Tilemaps, playTimeVBlanks: nat, badgeFlags: seq<bool>)
      requires Valid() && !running && MapsOk(stored) && |badgeFlags| == NUM_BADGES
      modifies this`initState, this`running, this`gfxLoadState, this`maps, this`bgPalLoadState
      modifies this`mainState, this`timeColonBlinkTimer, this`timeColonInvisible, this`onBack
      modifies this`flipBlendY, this`cardType, this`flipTask
      modifies this`hasPokedex, this`hasHofResult, this`hasLinkResults, this`hasTrades, hasBadge
      modifies cardTilemapBuffer, bgTilemapBuffer
      ensures Valid() && FlipMatchesState() && flipTask == null
      ensures InitViewOf() == InitStep(old(InitViewOf()))
      ensures old(initState) == 0 ==>
                && mainState == 0 && !onBack && flipBlendY == 0 && cardType == CARD_TYPE_FRLG
                && timeColonBlinkTimer == U8(playTimeVBlanks)
                && hasPokedex == Bit(trainerCard.rse.hasPokedex)
                && (forall i :: 0 <= i < NUM_BADGES ==> hasBadge[i] == Bit(badgeFlags[i]))
      ensures old(initState) == 0 ==>
                && !timeColonInvisible
                && hasHofResult == Bit(trainerCard.rse.hofDebutHours != 0 || trainerCard.rse.hofDebutMinutes != 0
                                       || trainerCard.rse.hofDebutSeconds != 0)
                && hasLinkResults == Bit(trainerCard.rse.linkBattleWins != 0 || trainerCard.rse.linkBattleLosses != 0)
                && hasTrades == Bit(trainerCard.rse.pokemonTrades != 0)
      ensures old(initState) != 0 ==>
                && mainState == old(mainState) && onBack == old(onBack) && cardType == old(cardType)
                && flipBlendY == old(flipBlendY)
                && timeColonBlinkTimer == old(timeColonBlinkTimer) && timeColonInvisible == old(timeColonInvisible)
                && hasPokedex == old(hasPokedex) && hasHofResult == old(hasHofResult)
                && hasLinkResults == old(hasLinkResults) && hasTrades == old(hasTrades)
                && unchanged(hasBadge)
      ensures old(initState) == 11 && initState == 12 ==>
                forall k :: 0 <= k < FILL_LEN ==> cardTilemapBuffer[k] == 0 && bgTilemapBuffer[k] == 0
      ensures !(old(initState) == 11 && initState == 12) ==> unchanged(cardTilemapBuffer) && unchanged(bgTilemapBuffer)
      ensures forall k :: FILL_LEN <= k < BUF_LEN ==>
                cardTilemapBuffer[k] == old(cardTilemapBuffer[k]) && bgTilemapBuffer[k] == old(bgTilemapBuffer[k])
      ensures old(initState) == 8 && old(gfxLoadState) == 0 ==> maps.bg == stored.bg
      ensures old(initState) == 8 && old(gfxLoadState) == 1 ==> maps.back == stored.back
      ensures old(initState) == 8 && old(gfxLoadState) == 2 ==> maps.front == stored.front
      ensures old(initState) != 8 ==> maps == old(maps)
    {
      if initState == 0 {
        InitSetUp(playTimeVBlanks, badgeFlags);
      } else {
        InitLoadStep(stored);
      }
    }

    /** States 1 and later of `CB2_InitTrainerCard`: state 8 loads the
        tilemaps, state 11 loads tiles and palettes and clears the first
        32x32 tiles of both buffers once done, the others move on. */
    method InitLoadStep(stored: Tilemaps)
      requires Valid() && !running && MapsOk(stored) && initState != 0
      modifies this`initState, this`running, this`gfxLoadState, this`maps, this`bgPalLoadState
      modifies cardTilemapBuffer, bgTilemapBuffer
      ensures Valid() && flipTask == null
      ensures InitViewOf() == InitStep(old(InitViewOf()))
      ensures old(initState) == 11 && initState == 12 ==>
                forall k :: 0 <= k < FILL_LEN ==> cardTilemapBuffer[k] == 0 && bgTilemapBuffer[k] == 0
      ensures !(old(initState) == 11 && initState == 12) ==> unchanged(cardTilemapBuffer) && unchanged(bgTilemapBuffer)
      ensures forall k :: FILL_LEN <= k < BUF_LEN ==>
                cardTilemapBuffer[k] == old(cardTilemapBuffer[k]) && bgTilemapBuffer[k] == old(bgTilemapBuffer[k])
      ensures old(initState) == 8 && old(gfxLoadState) == 0 ==> maps.bg == stored.bg
      ensures old(initState) == 8 && old(gfxLoadState) == 1 ==> maps.back == stored.back
      ensures old(initState) == 8 && old(gfxLoadState) == 2 ==> maps.front == stored.front
      ensures old(initState) != 8 ==> maps == old(maps)
    {
      var s := initState;
      if s == 8 {
        var done := LoadCardGfx(stored);
        if done {
          initState := 9;
        }
      } else if s == 11 {
        var done := SetTrainerCardBgsAndPals();
        if done {
          initState := 12;
        }
      } else {
        AdvanceInitState();
      }
    }

    /** State 0 of `CB2_InitTrainerCard`: set up the main task and the
        screen's data, then move on. */
    method InitSetUp(playTimeVBlanks: nat, badgeFlags: seq<bool>)
      requires Valid() && !running && initState == 0 && |badgeFlags| == NUM_BADGES
      modifies this`initState, this`mainState, this`timeColonBlinkTimer, this`timeColonInvisible, this`onBack
      modifies this`flipBlendY, this`cardType, this`flipTask
      modifies this`hasPokedex, this`hasHofResult, this`hasLinkResults, this`hasTrades, hasBadge
      ensures Valid() && FlipMatchesState() && flipTask == null
      ensures InitViewOf() == InitStep(old(InitViewOf()))
      ensures mainState == 0 && !onBack && flipBlendY == 0 && cardType == CARD_TYPE_FRLG
      ensures timeColonBlinkTimer == U8(playTimeVBlanks) && !timeColonInvisible
      ensures hasPokedex == Bit(trainerCard.rse.hasPokedex)
      ensures hasHofResult == Bit(trainerCard.rse.hofDebutHours != 0 || trainerCard.rse.hofDebutMinutes != 0
                                  || trainerCard.rse.hofDebutSeconds != 0)
      ensures hasLinkResults == Bit(trainerCard.rse.linkBattleWins != 0 || trainerCard.rse.linkBattleLosses != 0)
      ensures hasTrades == Bit(trainerCard.rse.pokemonTrades != 0)
      ensures forall i :: 0 <= i < NUM_BADGES ==> hasBadge[i] == Bit(badgeFlags[i])
    {
      SetUpTrainerCardTask(playTimeVBlanks, badgeFlags);
      initState := 1;
    }

    /** The arms of `CB2_InitTrainerCard` that only move `gMain.state` on
        (their loading calls are graphics work): state 3 falls through into
        state 4, and the last state installs the card's main callback. */
    method AdvanceInitState()
      requires initState != 0 && initState != 8 && initState != 11
      modifies this`initState, this`running
      ensures InitViewOf() == InitStep(old(InitViewOf()))
    {
      var s := initState;
      if s <= 2 {
        initState := s + 1;
      } else if s == 3 || s == 4 {
        initState := 5;
      } else if 5 <= s <= 7 {
        initState := s + 1;
      } else if s == 9 || s == 10 {
        initState := s + 1;
      } else if s == 12 {
        initState := 13;
      } else {
        running := true;
      }
    }

    /** `VBlankCB_TrainerCard`: blink the colon and, unless a table is being
        regenerated, copy the first 160 entries of scanline buffer 0 to
        buffer 1, where the HBlank handler reads them. */
    method VBlank()
      requires scanlineBuffer0.Length == SCANLINE_BUF_LEN && scanlineBuffer1.Length == SCANLINE_BUF_LEN
      requires scanlineBuffer0 != scanlineBuffer1
      modifies this`timeColonBlinkTimer, this`timeColonInvisible, this`timeColonNeedDraw, scanlineBuffer1
      ensures Blink(timeColonBlinkTimer, timeColonInvisible, timeColonNeedDraw)
              == BlinkStep(old(Blink(timeColonBlinkTimer, timeColonInvisible, timeColonNeedDraw)))
      ensures allowDMACopy ==> forall k :: 0 <= k < ROWS ==> scanlineBuffer1[k] == scanlineBuffer0[k]
      ensures !allowDMACopy ==> unchanged(scanlineBuffer1)
      ensures forall k :: ROWS <= k < SCANLINE_BUF_LEN ==> scanlineBuffer1[k] == old(scanlineBuffer1[k])
    {
      timeColonBlinkTimer := U8(timeColonBlinkTimer + 1);
      if timeColonBlinkTimer > BLINK_LIMIT {
        timeColonBlinkTimer := 0;
        timeColonInvisible := !timeColonInvisible;
        timeColonNeedDraw := true;
      }
      if allowDMACopy {
        CopyRows(scanlineBuffer0, scanlineBuffer1);
      }
    }

    /** The `DmaCopy16` of 0x140 bytes: the first 160 entries of one
        scanline buffer into the other. */
    static method CopyRows(src: array<int>, dst: array<int>)
      requires src.Length == SCANLINE_BUF_LEN && dst.Length == SCANLINE_BUF_LEN && src != dst
      modifies dst
      ensures forall k :: 0 <= k < ROWS ==> dst[k] == src[k]
      ensures forall k :: ROWS <= k < SCANLINE_BUF_LEN ==> dst[k] == old(dst[k])
    {
      var k := 0;
      while k < ROWS
        invariant 0 <= k <= ROWS
        invariant forall j :: 0 <= j < k ==> dst[j] == src[j]
        invariant forall j :: k <= j < SCANLINE_BUF_LEN ==> dst[j] == old(dst[j])
      {
        dst[k] := src[k];
        k := k + 1;
      }
    }
  }
}
