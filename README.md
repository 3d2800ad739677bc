# Trainer card flip and Professor Oak's introduction

This project models two screens of a Game Boy Advance role-playing game. It
covers the frame-by-frame task code that drives them and the data they show.

**Trainer card screen** (`src/trainer_card.c`):

- **Card data.** `CardData` covers the card built from the save file:
  - game statistics capped for display;
  - the star count, which also picks the card's colour;
  - the Hall of Fame debut time, unpacked from a 32-bit statistic;
  - the trainer ID, packed from two bytes;
  - the trainer class a link partner's card shows.
- **Steppers and state machines.** `CardSteppers` covers:
  - the four resumable "one item per call" loaders and printers;
  - the main task's state machine (`Task_TrainerCard`);
  - the setup callback's `gMain.state` machine (`CB2_InitTrainerCard`);
  - the time colon's blink counter.
- **The flip.** `CardFlip` covers the flip animation: a task whose phase
  indexes a table of six handlers.
  - The card folds down 7 lines per frame to line 77.
  - The other face is drawn one text item per frame.
  - The card then unfolds 5 lines per frame.
  - `Scanline` covers the per-scanline offset table each fold frame
    generates with 32-bit unsigned arithmetic. It is proved against an
    exact closed form: a linear ramp above the fold, a quadratic band, and
    a constant tail.
- **Tilemap copy.** `Tilemap` covers the copy of a 30-column stored tilemap
  into a 32-column buffer.
- **The screen.** `TrainerCardScreen` holds the screen's data as a class,
  with the flip task as a separate object. Each handler, the main task, the
  setup callback and the vertical-blank handler is a method. Each method is
  proved to change the object exactly as the pure step function of the same
  name says.

**Professor Oak's introduction** (`src/oak_speech.c`):

- `OakSteppers` holds the counter-driven tasks as pure step functions over
  the task's data:
  - the slow fade-in and fade-out of the blend registers;
  - the player picture's fade to white and its shrink;
  - the "inhabited far and wide" wait for Pikachu's cry;
  - the clearing of Pikachu and the Poke Ball;
  - the `gMain.state` stepping of the new-game scene.
- `OakSpeech` holds the tasks as objects with an `s16 data[16]` array, and
  the scene's globals as a class. Each task function is a method proved
  against its step function.

Calls into code outside the model are handled this way:

- **Inputs.** Calls whose answer matters become parameters of the step:
  - `IsCryFinished`;
  - `gPaletteFade.active`;
  - `FreeTempTileDataBuffersIfPossible`;
  - `gReceivedRemoteLinkPlayers`;
  - whether the link receive queue is backed up;
  - the DMA manager;
  - button presses.
- **Events.** Calls whose order and number matter are appended to an event
  log: text printing, the cry, sound effects, sprite destruction and
  palette blends.

The schedules are proved for every input, not for one run. Examples:

- how many frames a flip takes;
- that the fade-in task lives exactly `16 * (delay + 1)` frames;
- that the white fade makes 15 blends in 51 calls;
- that the shrink hands over after 100 calls;
- that the Pikachu clearing moves on at call 113.

Three behaviours of the code that its names and comments do not make
obvious:

- **One handler per frame.** Every flip phase handler returns FALSE, so
  the dispatcher's `while` loop runs exactly one handler per frame and
  then returns; the next phase's handler runs on the next frame.
  `CardFlip.FlipTick` states this.
- **Darkening range.** The darkening coefficient `(cardTop + 40) / 10`,
  dropped to 0 when at most 4, is 0 or between 5 and 11 over the fold
  positions 0..77. `CardFlip.BlendYRange` states this.
- **The "never read" comment.** `CreateFadeInTask` and `CreateFadeOutTask`
  store the delay in `data[3]`, with a comment that it is never read. But
  `data[3]` is the same slot the fade tasks reload their countdown from
  (`src/oak_speech.c:777`, `:819`). The model reads it there as the fade
  period.

## Model

| member | source | states |
|---|---|---|
| CardData.CappedGameStat | src/trainer_card.c:611-615 | the result is at most the cap and at most the statistic, and is one of the two |
| CardData.TrainerStarCount | src/trainer_card.c:617-634 | at most 4 stars, so always a valid palette index; 0 exactly when none of Hall of Fame time, full regional Pokedex, tower streak above 49 and all paintings holds, 4 exactly when all do |
| CardData.DecodeHofTime | src/trainer_card.c:645-657 | a save that never entered the Hall of Fame gives 0:00:00; hours never exceed 999 and minutes and seconds are bytes |
| CardData.HofTimeRoundTrip | src/trainer_card.c:649-651 | every time of at most 999 hours with byte minutes and seconds, packed as the game packs it, decodes back to itself |
| CardData.HofTimeClamped | src/trainer_card.c:652-657 | a packed time of 1000 hours or more is shown as 999:59:59 |
| CardData.PackTrainerId | src/trainer_card.c:663 | the packed ID fits 16 bits |
| CardData.TrainerIdRoundTrip | src/trainer_card.c:663 | both bytes are recovered from the packed ID |
| CardData.LinkTrainerClasses | src/trainer_card.c:236-256 | each gender has exactly 8 classes a link card may show |
| CardData.LinkFacilityClass | src/trainer_card.c:730-734 | the class is the gender row's entry at the trainer ID modulo 8: truncating the ID to a `u16` first changes nothing |
| CardData.LinkFacilityClassDetermines | src/trainer_card.c:730-734 | the classes shown for the two genders are disjoint, and within one gender the class fixes the trainer ID modulo 8 |
| CardData.StringCopy | src/trainer_card.c:681 | the source up to and including its terminator lands at the start of the destination, and the rest of the destination is kept |
| CardData.StringLength | src/trainer_card.c:681 | the index of the first terminator of the string |
| CardData.SetPlayerCardData | src/trainer_card.c:636-699 | ID packed from the save, Hall of Fame time decoded, link wins and losses capped at 9999 and trades at 0xFFFF; FRLG stars are the star count (at most 2, since the tower and paintings are cleared); RSE stars are Hall of Fame plus full Kanto plus full National Pokedex; other card types keep their stars; version and class untouched |
| CardData.GenerateCardForLinkPlayer | src/trainer_card.c:701-748 | the card carries the game's version and the class picked for its gender and trainer ID |
| CardData.LinkCardStars | src/trainer_card.c:701-748 | the shown card has one star per achievement among Hall of Fame, full Kanto, full National Pokedex, and 200 berries with 200 jumps; fewer than 5, so always a card palette |
| CardData.LinkCardClass | src/trainer_card.c:701-748 | the class is the save's gender row at the packed trainer ID modulo 8, and the berry-crush and union-room records are capped at 0xFFFF |
| CardFlip.BlendYRange | src/trainer_card.c:803-813 | over the fold positions the darkening is 0 exactly while the card top is above line 10, otherwise (top + 40) / 10, between 5 and 11 |
| CardFlip.BlendYMonotone | src/trainer_card.c:803-813 | the card darkens monotonically as it folds |
| CardFlip.WindowIsBand | src/trainer_card.c:803-813 | the window opens at the band's first line and closes at the first line after it |
| CardFlip.BlendY | src/trainer_card.c:803-813 | the `s8` coefficient is 0 or between 5 and 127, never 1 to 4 |
| CardFlip.DrawArm | src/trainer_card.c:1288-1334 | one pass of the redraw loop keeps the view's invariant and touches only the redraw counters, DMA flag and card buffer; falling through advances the draw state; it finishes only into the next phase with counters reset and DMA allowed; the card buffer is kept or receives the back's tilemap |
| CardFlip.DrawIter | src/trainer_card.c:1294-1333 | the redraw's do-while loop ends in the same phase or in the next one with counters reset and DMA allowed, changing only the redraw fields and the card buffer; without link players it stops only while printing needs another call or once the face is done |
| CardFlip.FoldDownTick | src/trainer_card.c:1237-1286 | the fold moves down 7 lines per call up to 77 and the phase moves on exactly at 77; card top, table, darkening and window follow the new fold with DMA allowed; nothing else changes |
| CardFlip.DrawSideTick | src/trainer_card.c:1288-1334 | a backed-up link queue only holds back the table copy; the copy stays held back until the face is done, which resets the counters and allows DMA; without link players a call stops only while printing needs another call or with the face done; only the redraw fields and the card buffer change, the buffer receiving at most the back's tilemap |
| CardFlip.SetFlippedTick | src/trainer_card.c:1336-1354 | the faces switch and folding up starts with DMA allowed; turning to the front redraws the front and background tilemaps, which read back exactly; turning to the back leaves both buffers; nothing else changes |
| CardFlip.FoldUpTick | src/trainer_card.c:1356-1405 | the fold rises 5 lines per call, snapping to 0, and the phase ends exactly when flat; card top, table, darkening and window follow the new fold with DMA allowed; nothing else changes |
| CardFlip.FlipTick | src/trainer_card.c:1217-1221 | one dispatcher call moves the phase by at most one; the faces switch exactly in the set-flipped phase; the task is destroyed exactly in the end phase |
| CardFlip.QueueBackedStalls | src/trainer_card.c:1288-1293 | while the link queue is backed up the redraw only holds back the table copy |
| CardFlip.Run | src/trainer_card.c:1217-1221 | repeated dispatcher calls keep the view's invariant |
| CardFlip.RunSplit | src/trainer_card.c:1217-1221 | a + b dispatcher calls are a calls followed by b calls |
| CardFlip.FoldDownSchedule | src/trainer_card.c:1237-1286 | from a flat card, k calls fold to 7k lines, and the 11th lands exactly on 77 and moves to the redraw |
| CardFlip.FoldUpSchedule | src/trainer_card.c:1356-1405 | from 77, k calls unfold to 77 - 5k lines, and the 16th snaps from 2 to 0 and moves on |
| CardFlip.DrawPrinting | src/trainer_card.c:1294-1333 | while items remain to print, each call prints exactly one and holds back the table copy |
| CardFlip.DrawSchedule | src/trainer_card.c:1288-1334 | the redraw takes exactly the printer's items plus one call without link players, plus five with them: 3 or 7 calls for the back, 6 or 10 for the front |
| CardFlip.DrawTail | src/trainer_card.c:1294-1333 | without link players, once printing is done, one call draws the card buffer and the trainer picture and moves on |
| CardFlip.DrawScheduleAlone | src/trainer_card.c:1294-1333 | without link players the whole redraw takes the printer's items plus one call |
| CardFlip.DrawScheduleLinked | src/trainer_card.c:1294-1333 | with link players every arm of the loop takes a call of its own |
| CardFlip.BeginStep | src/trainer_card.c:1223-1235 | the first call only moves on to folding down |
| CardFlip.FlipToFolded | src/trainer_card.c:1223-1334 | begin, fold down and redraw leave the card folded at 77 with the back's tilemap copied when the back is drawn |
| CardFlip.FlipFromFolded | src/trainer_card.c:1336-1414 | from the redrawn folded card, the task is alive for 17 calls and on the 18th has switched faces, unfolded flat and destroyed itself, with the front and background redrawn when turning to the front |
| CardFlip.WholeFlipLength | src/trainer_card.c:1202-1414 | the flip task still exists one call before the flip's end |
| CardFlip.WholeFlip | src/trainer_card.c:1202-1414 | a whole flip ends after exactly its call count: the other face is showing with its tilemap in the buffer, the card is flat with an all-zero table, no darkening and a full window, and the redraw counters are reset |
| CardSteppers.Call | src/trainer_card.c:885-931 | a resumable stepper returns TRUE exactly once its working arms are used up; each working call advances the state by one; finishing resets it to 0, except for the background loader, which stays |
| CardSteppers.Dones | src/trainer_card.c:885-931 | n calls give n answers |
| CardSteppers.CountsUp | src/trainer_card.c:885-931 | while working arms remain every call answers FALSE and counts up |
| CardSteppers.StepperSchedule | src/trainer_card.c:522-547 | from a fresh state a stepper answers FALSE once per working arm and then TRUE, ending back at 0 (the background loader at 6) |
| CardSteppers.DonesSplit | src/trainer_card.c:885-931 | stepper calls compose |
| CardSteppers.BgsAndPalsStaysDone | src/trainer_card.c:1065-1097 | once finished, the background and palette loader keeps answering TRUE |
| CardSteppers.MainStep | src/trainer_card.c:406-520 | a closed card ignores every call; only state 1 prints; the card closes exactly with the close action; a fade-out starts exactly on B without A in an input state |
| CardSteppers.MainRun | src/trainer_card.c:406-520 | whatever the inputs, a closed card stays as it is, and a card closes only if some call found the palette fade finished |
| CardSteppers.MainFlipHandshake | src/trainer_card.c:466-520 | a flip starts exactly on A in an input state; the main task then waits, and leaves the wait only once no flip task exists and the link queue has drained, to the other face's input state |
| CardSteppers.MainStaysReachable | src/trainer_card.c:406-520 | from state 0, whatever the inputs, the main task only visits states 0 to 14 other than 9 |
| CardSteppers.MainCloseNeedsFade | src/trainer_card.c:508-511 | the card closes exactly from the close state once the fade has finished |
| CardSteppers.InitStep | src/trainer_card.c:549-609 | `gMain.state` never goes back and never passes 13; a call leaves it in place only in the two loading states and the last state; the main callback is installed exactly from the last state on |
| CardSteppers.InitRun | src/trainer_card.c:549-609 | over any number of calls the state never goes back or past 13, and an installed callback stays installed |
| CardSteppers.InitRunSplit | src/trainer_card.c:549-609 | setup callback calls compose |
| CardSteppers.InitLoaderWait | src/trainer_card.c:586-589 | the graphics loading state is left only after the loader's schedule, which advances one step per call |
| CardSteppers.InitBgPalWait | src/trainer_card.c:598-601 | the background loading state advances the loader one step per call |
| CardSteppers.InitToLoader | src/trainer_card.c:553-585 | from a zeroed screen seven calls reach the graphics loading state, state 3 falling through 4 |
| CardSteppers.InitThroughLoader | src/trainer_card.c:586-597 | the graphics loading state takes six calls, and states 9 and 10 one each |
| CardSteppers.InitThroughBgPal | src/trainer_card.c:598-604 | the background and palette loading state takes seven calls and leaves its loader at 6, and state 12 one |
| CardSteppers.InitSchedule | src/trainer_card.c:549-609 | from a zeroed screen 23 calls reach the last state with the loaders done, and the 24th installs the card's main callback |
| CardSteppers.BlinkStep | src/trainer_card.c:1185-1193 | the colon toggles exactly when the incremented `u8` timer exceeds 60, which resets it and requests a redraw; otherwise only the timer moves |
| CardSteppers.BlinkCounts | src/trainer_card.c:1185-1193 | below the limit every call only counts |
| CardSteppers.BlinkPeriod | src/trainer_card.c:1185-1193 | from a reset timer the colon toggles on the 61st call and not before |
| CardSteppers.BlinkRunSplit | src/trainer_card.c:1185-1193 | blink calls compose |
| Scanline.BandHeight | src/trainer_card.c:1251-1253 | the band between the fold edges is 1 to 160 lines high |
| Scanline.Entry | src/trainer_card.c:1262-1279 | every line is a `u16`; line 0 is 0, and a line i above the fold holds 2^16 - i, the two's complement of -i |
| Scanline.Table | src/trainer_card.c:1262-1279 | the generated table has one entry per display line |
| Scanline.StartAccumValue | src/trainer_card.c:1254 | the `u32` start is the two's complement of the fold depth in 16.16 |
| Scanline.BaseVelocityValue | src/trainer_card.c:1255-1256 | adding 0xFFFF0000 never really wraps: the base velocity is 160 / height - 1.0, and times the height lies within one height below 2f in 16.16 |
| Scanline.TableAtRest | src/trainer_card.c:1262-1279 | at fold 0 every line is 0: the card is flat |
| Scanline.FirstBandLine | src/trainer_card.c:1267-1273 | the first band line holds -f as a `u16` |
| Scanline.RampContinues | src/trainer_card.c:1262-1273 | one step further down the ramp from 1 - f is -f |
| Scanline.BandStartsOnRamp | src/trainer_card.c:1262-1273 | the band's first line continues the ramp: it is one less than the line above it |
| Scanline.TailNearFold | src/trainer_card.c:1257-1258 | the tail lies at the fold depth: 0 when flat, else f - 1 or f |
| Scanline.RampClosedForm | src/trainer_card.c:1267-1273 | the velocity is linear in the line number |
| Scanline.RampSumClosedForm | src/trainer_card.c:1267-1273 | the accumulator is start + k * v0 + w * k(k-1)/2 |
| Scanline.AccumClosedForm | src/trainer_card.c:1267-1273 | the band's velocity and accumulator in closed form from the initial velocity and the signed curvature |
| Scanline.SecondDifference | src/trainer_card.c:1267-1273 | the band's second difference is the curvature: negative folding down, positive folding up |
| Scanline.InitialVelocityValue | src/trainer_card.c:1260 | folding down doubles the base velocity without wrapping; folding up halves it (line 1379) |
| Scanline.StepsWithinBase | src/trainer_card.c:1259 | fewer than height steps of base / height take away no more than the base |
| Scanline.BandNonDecreasing | src/trainer_card.c:1267-1273 | across the band the exact accumulator never decreases, in both directions: the card never folds back on itself |
| Scanline.VelocityNonNegative | src/trainer_card.c:1267-1273 | within the band the velocity is never negative |
| Scanline.BandStart | src/trainer_card.c:1254-1260 | entering the band the registers hold the wrapped exact values of line 0 |
| Scanline.BandStep | src/trainer_card.c:1270-1271 | one band line: the wrapped registers advance as the exact values do |
| Scanline.FillFoldTable | src/trainer_card.c:1251-1279 | the method's 32-bit loops fill lines 0..159 with exactly the table and leave later entries alone |
| Scanline.FillRamp | src/trainer_card.c:1262-1265 | the lines above the fold hold the table's ramp entries; later entries are kept |
| Scanline.FillBand | src/trainer_card.c:1267-1273 | from the wrapped registers of band line 0, the 32-bit loop extends the table through line 159 - f; later entries are kept |
| Scanline.FillTail | src/trainer_card.c:1275-1279 | from the wrapped end accumulator, the last f lines complete exactly the table; entries past 159 are kept |
| Tilemap.Padded | src/trainer_card.c:1104-1113 | the copy writes a full buffer |
| Tilemap.Unpadded | src/trainer_card.c:1104-1113 | reading back 30 columns of 20 rows gives a full stored tilemap |
| Tilemap.UnpadPadded | src/trainer_card.c:1099-1116 | the copy keeps the picture: its 30 columns read back are exactly the stored tilemap |
| Tilemap.PaddingColumns | src/trainer_card.c:1110-1111 | the two pad columns of each row hold the tilemap's first entry and nothing past row 19 changes |
| Tilemap.PaddedIdempotent | src/trainer_card.c:1099-1135 | drawing the same tilemap twice is drawing it once |
| Tilemap.CopyTilemap | src/trainer_card.c:1118-1135 | the nested loop leaves the buffer exactly as the padded copy |
| TrainerCardScreen.FlipTask.constructor | src/trainer_card.c:1204 | a created task has all-zero data |
| TrainerCardScreen.CardScreen.constructor | src/trainer_card.c:1416-1425 | a zero-filled screen holding the card, with the setup callback at state 0 and no flip task |
| TrainerCardScreen.CardScreen.PrintAllOnCardFront | src/trainer_card.c:885-910 | the front printer as a resumable stepper |
| TrainerCardScreen.CardScreen.PrintAllOnCardBack | src/trainer_card.c:912-931 | the back printer as a resumable stepper |
| TrainerCardScreen.CardScreen.LoadCardGfx | src/trainer_card.c:522-547 | the stepper, and the first three calls store the background, back and front tilemaps |
| TrainerCardScreen.CardScreen.ClearTilemapRect | src/trainer_card.c:1089-1090 | the first 32x32 entries are cleared, the rest kept |
| TrainerCardScreen.CardScreen.SetTrainerCardBgsAndPals | src/trainer_card.c:1065-1097 | the stepper; only the last arm clears both tilemap buffers' first 32x32 entries |
| TrainerCardScreen.CardScreen.UpdateCardFlipRegs | src/trainer_card.c:803-813 | the darkening from the argument and the window from the screen's card top |
| TrainerCardScreen.CardScreen.ClearRows | src/trainer_card.c:1231-1232 | the first 160 entries are cleared, the rest kept |
| TrainerCardScreen.CardScreen.ApplyFold | src/trainer_card.c:1248-1281 | a fold call's shared part: card top, registers and the table for the position, written through WriteFoldTable with DMA held back, then DMA allowed again |
| TrainerCardScreen.CardScreen.WriteFoldTable | src/trainer_card.c:1247-1279 | the card top, registers and table are written with the DMA flag down, and the flag stays down throughout |
| TrainerCardScreen.CardScreen.BeginCardFlip | src/trainer_card.c:1223-1235 | clears scanline buffer 1's visible lines and moves to folding down |
| TrainerCardScreen.CardScreen.AnimateCardFlipDown | src/trainer_card.c:1237-1286 | the screen changes as the fold-down step says, and buffer 0 holds the table |
| TrainerCardScreen.CardScreen.DrawFlippedCardSide | src/trainer_card.c:1288-1334 | the screen changes as the redraw step says |
| TrainerCardScreen.CardScreen.RedrawArm | src/trainer_card.c:1296-1331 | one pass of the loop body as `DrawArm` says; the loop continues exactly when the arm fell through without link players |
| TrainerCardScreen.CardScreen.SetCardFlipped | src/trainer_card.c:1336-1354 | the screen changes as the set-flipped step says |
| TrainerCardScreen.CardScreen.AnimateCardFlipUp | src/trainer_card.c:1356-1405 | the screen changes as the fold-up step says, and buffer 0 holds the table |
| TrainerCardScreen.CardScreen.EndCardFlip | src/trainer_card.c:1407-1414 | removes the HBlank handler and destroys the task, nothing else |
| TrainerCardScreen.CardScreen.RunFlipHandler | src/trainer_card.c:259-266 | the table's handler for the phase runs, as one dispatcher step; the begin handler clears scanline buffer 1's visible lines, only the fold handlers rewrite buffer 0's, and no other buffer entry changes |
| TrainerCardScreen.CardScreen.DoCardFlipTask | src/trainer_card.c:1217-1221 | one call changes the screen exactly as one dispatcher step, with the scanline buffers changed as by that step's handler; scanline buffer 0 keeps holding the table of the last fold |
| TrainerCardScreen.CardScreen.IsCardFlipTaskActive | src/trainer_card.c:1209-1215 | TRUE exactly when no flip task exists |
| TrainerCardScreen.CardScreen.FlipTrainerCard | src/trainer_card.c:1202-1207 | a fresh flip task is created and its first call has run: folding down from 0, buffer 1 cleared |
| TrainerCardScreen.CardScreen.TaskTrainerCard | src/trainer_card.c:406-520 | the main state follows the main step; a started flip leaves a fresh task folding down from 0 with buffer 1 cleared and the screen otherwise as it was; without one the flip task, the HBlank handler and buffer 1 are untouched; state 4 draws the background and state 5 the front, the buffers are kept otherwise; state 7 enables the vertical-blank handler; the time is redrawn from the front input state unless link players are present |
| TrainerCardScreen.CardScreen.RunShownCard | src/trainer_card.c:466-519 | the input, waiting and closing states follow the main step, with the flip and the time redraw as for the whole task |
| TrainerCardScreen.CardScreen.DrawCardInitially | src/trainer_card.c:411-465 | states 0 to 9 follow the main step; state 4 draws the background, state 5 the front, state 7 enables the vertical-blank handler |
| TrainerCardScreen.CardScreen.WaitForFlip | src/trainer_card.c:488-494 | the waiting states follow the main step |
| TrainerCardScreen.CardScreen.HandleInput | src/trainer_card.c:466-507 | the input states follow the main step; A starts a flip folding down from 0 with buffer 1 cleared, and otherwise the flip task, the HBlank handler and buffer 1 are untouched; the front redraws the time when asked unless link players are present |
| TrainerCardScreen.CardScreen.HandleButtons | src/trainer_card.c:475-506 | A starts a flip folding down from 0 and waits for it, B goes to the close state; without A no flip task, HBlank handler or buffer 1 changes |
| TrainerCardScreen.CardScreen.SetDataFromTrainerCard | src/trainer_card.c:750-781 | each flag from the card, and one badge per badge flag set |
| TrainerCardScreen.CardScreen.ClearBadges | src/trainer_card.c:763 | every badge entry is 0 |
| TrainerCardScreen.CardScreen.CountBadges | src/trainer_card.c:775-779 | each badge entry is 1 exactly when its flag is set |
| TrainerCardScreen.CardScreen.InitTrainerCardData | src/trainer_card.c:1427-1440 | main state 0, blink timer seeded from the play time's low byte, colon visible, front showing, no darkening, Kanto card style |
| TrainerCardScreen.CardScreen.SetUpTrainerCardTask | src/trainer_card.c:876-883 | no flip task remains, and the screen's data is initialised and every flag and badge filled from the card |
| TrainerCardScreen.CardScreen.InitTrainerCardStep | src/trainer_card.c:549-609 | one setup call follows the setup step, with no flip task; state 0 fills in the screen's data, which no other state touches; state 8 stores the tilemaps; the call that finishes state 11 clears the first 32x32 entries of both tilemap buffers, which no other call changes |
| TrainerCardScreen.CardScreen.InitSetUp | src/trainer_card.c:553-557 | state 0 creates the task, fills in the screen's data from the card and moves to state 1 |
| TrainerCardScreen.CardScreen.InitLoadStep | src/trainer_card.c:558-608 | the later states follow the setup step; state 8 stores the tilemaps; only the call that finishes state 11 changes the tilemap buffers, clearing their first 32x32 entries |
| TrainerCardScreen.CardScreen.AdvanceInitState | src/trainer_card.c:558-608 | the states that only count follow the setup step, state 3 falling through to 5 and the last state installing the main callback |
| TrainerCardScreen.CardScreen.VBlank | src/trainer_card.c:361-369 | the colon blinks as `BlinkStep` says; buffer 0's visible lines are copied into buffer 1 exactly when DMA is allowed |
| TrainerCardScreen.CardScreen.CopyRows | src/trainer_card.c:368 | the first 160 entries are copied, the rest kept |
| OakSpeech.Task.constructor | src/oak_speech.c:793 | a created task has all-zero data and the given function |
| OakSpeech.Whitened | src/oak_speech.c:666-670 | the player picture's 32 colours are white and every other colour is kept |
| OakSpeech.WhitenPlayerPic | src/oak_speech.c:666-670 | both palette buffers are whitened as `Whitened` says |
| OakSpeech.OakScene.constructor | src/oak_speech.c:206-212 | the scene starts at state 0 with an empty event log |
| OakSpeech.OakScene.NewGameScene | src/oak_speech.c:227-311 | one call of the new-game scene follows the scene step and ends in the scene or the speech's init |
| OakSpeech.OakScene.CreateFadeInTask | src/oak_speech.c:785-799 | the parent's fade state is cleared and a fresh fade-in task is exactly the created fade |
| OakSpeech.OakScene.SlowFadeIn | src/oak_speech.c:762-783 | one call follows the fade-in step and touches only the targets, the timer and the parent's fade state |
| OakSpeech.OakScene.CreateFadeOutTask | src/oak_speech.c:828-843 | the parent's fade state is cleared and a fresh fade-out task is exactly the created fade |
| OakSpeech.OakScene.SlowFadeOut | src/oak_speech.c:801-826 | one call follows the fade-out step and touches only the targets, the timer and the parent's fade state |
| OakSpeech.OakScene.SetUpExitAnimation | src/oak_speech.c:551-572 | the shrink timer restarts, a fresh white-fade task is created, and the task becomes the shrink task |
| OakSpeech.OakScene.FadePlayerPicWhite | src/oak_speech.c:647-674 | one call follows the white step; the picture's colours are whitened exactly on the call that destroys the task |
| OakSpeech.OakScene.ShrinkPlayerPic | src/oak_speech.c:574-597 | one call follows the shrink step and hands over to the fade to black or stays |
| OakSpeech.OakScene.IsInhabitedFarAndWide | src/oak_speech.c:397-413 | one call follows the inhabited step and changes only the timer |
| OakSpeech.OakScene.Clear | src/oak_speech.c:439-465 | one call follows the clearing step and changes only the two timers |
| OakSpeech.OakScene.SetDefaultNames | src/oak_speech.c:479-494 | each name holds its default's 7 bytes and then EOS |
| OakSteppers.SceneStep | src/oak_speech.c:227-311 | the state stays within 0..10, and is 0 when the task is handed over |
| OakSteppers.SceneRun | src/oak_speech.c:227-311 | repeated calls keep the state within 0..10 |
| OakSteppers.SceneClimbs | src/oak_speech.c:308-310 | below state 10 each call counts up by one, unless the buffers are pending at state 6 |
| OakSteppers.SceneWaitsAtSix | src/oak_speech.c:283-289 | at state 6 the scene waits while the temporary buffers stay pending |
| OakSteppers.SceneSchedule | src/oak_speech.c:227-311 | with the buffers freed at once, ten calls reach state 10 and the eleventh hands over with the state reset to 0 |
| OakSteppers.SceneRunAppend | src/oak_speech.c:227-311 | scene calls compose |
| OakSteppers.FadeInTick | src/oak_speech.c:762-783 | the targets keep summing to 16 in agreement with the register, the period is kept, and target 1 drops by at most one |
| OakSteppers.FadeInRun | src/oak_speech.c:762-783 | repeated calls keep that invariant and the period |
| OakSteppers.FadeInRunSplit | src/oak_speech.c:762-783 | fade-in calls compose |
| OakSteppers.FadeInCountsDown | src/oak_speech.c:762-783 | every call brings the task's end exactly one call closer |
| OakSteppers.FadeInEndsAfter | src/oak_speech.c:764-768 | the task is gone exactly when the calls reach the count left, and then its parent's fade state is 1 |
| OakSteppers.FadeInWaits | src/oak_speech.c:771-774 | a countdown of j runs out in j calls |
| OakSteppers.FadeInStepsAfter | src/oak_speech.c:771-780 | a countdown of j, then one step of the targets |
| OakSteppers.FadeInOneStep | src/oak_speech.c:771-780 | each step of the targets takes the period plus one calls |
| OakSteppers.FadeCalls | src/oak_speech.c:777 | k steps of the targets take k * (delay + 1) calls |
| OakSteppers.FadeInSchedule | src/oak_speech.c:762-799 | after k * (delay + 1) calls target 1 is 16 - k, target 2 is k and the register matches |
| OakSteppers.FadeInLasts | src/oak_speech.c:762-799 | from creation the task is gone exactly after more than 16 * (delay + 1) calls, and its parent's fade state is then 1 |
| OakSteppers.FadeOutTick | src/oak_speech.c:801-826 | the targets keep summing to 16, target 1 stays even, the period is kept, and target 1 rises by 2 or not at all |
| OakSteppers.FadeOutRun | src/oak_speech.c:801-826 | repeated calls keep that invariant and the period |
| OakSteppers.FadeOutRunAppend | src/oak_speech.c:801-826 | fade-out calls compose |
| OakSteppers.FadeOutWaits | src/oak_speech.c:813-816 | before target 1 reaches 16 a countdown runs out in as many calls, whatever the palette fade does |
| OakSteppers.FadeOutSchedule | src/oak_speech.c:801-843 | after k * (delay + 1) calls target 1 is 2k, independently of the palette fade |
| OakSteppers.FadeOutOneStep | src/oak_speech.c:813-824 | each step of the targets takes the period plus one calls |
| OakSteppers.FadeOutFinishes | src/oak_speech.c:803-810 | at 16 the task ends exactly when some call finds the palette fade inactive, and otherwise nothing changes |
| OakSteppers.WhiteTick | src/oak_speech.c:647-674 | a call blends with the current coefficient or only counts, and a blending call destroys the task exactly when the coefficient passes 14 |
| OakSteppers.WhiteRunSplit | src/oak_speech.c:647-674 | white-fade calls compose |
| OakSteppers.Blends | src/oak_speech.c:660 | the blend events with coefficients 0 .. n-1 in order |
| OakSteppers.WhiteWaits | src/oak_speech.c:652-655 | a countdown of j runs out in j calls |
| OakSteppers.WhiteBlendsAfter | src/oak_speech.c:652-663 | a countdown of j, then a blend |
| OakSteppers.WhiteSchedule | src/oak_speech.c:636-674 | blend c comes at its computed call: after an 8-call wait, the countdowns between blends are 7, 6, …, 1, then 0 |
| OakSteppers.WhiteOneStep | src/oak_speech.c:656-663 | from one blend to the next |
| OakSteppers.WhiteTotal | src/oak_speech.c:636-674 | the whole fade takes 51 calls with 15 blends of coefficients 0 .. 14 and ends with the task destroyed |
| OakSteppers.ShrinkTick | src/oak_speech.c:574-597 | the `u16` timer counts; off multiples of 20 nothing else changes; on them the scale drops by 32; the warp sound is logged only at 40 |
| OakSteppers.ShrinkRunSplit | src/oak_speech.c:574-597 | shrink calls compose |
| OakSteppers.ShrinkWaits | src/oak_speech.c:580-581 | between multiples of 20 the calls only count |
| OakSteppers.ShrinkStepsAfter | src/oak_speech.c:580-596 | from a multiple of 20, nineteen counting calls and then a step |
| OakSteppers.ShrinkOneStep | src/oak_speech.c:580-596 | twenty calls make one scale step |
| OakSteppers.ShrinkSchedule | src/oak_speech.c:563-597 | after 20k calls the scale has dropped by 32k, the warp sound was played once at call 40, and at call 100 the task hands over with a 36-call timer |
| OakSteppers.InhabitedTick | src/oak_speech.c:397-413 | the task moves on exactly once a call finds the cry finished with the timer at 96 or more; the timer climbs by one up to 0x4000 and then stays; the log only grows, and grows exactly on the call that brings the timer to 32 |
| OakSteppers.InhabitedStaysOk | src/oak_speech.c:397-413 | whatever the cry answers, the timer stays within 0..0x4000, the message and cry are logged exactly once the timer reaches 32, and the task moves on only past 96 |
| OakSteppers.InhabitedAdvancesWhen | src/oak_speech.c:399-403 | the task moves on exactly when a call finds the cry finished and the timer at 96 or more |
| OakSteppers.InhabitedClimbs | src/oak_speech.c:404-406 | below 96 the timer counts every call whatever the cry answers |
| OakSteppers.InhabitedSaturates | src/oak_speech.c:404-406 | while the cry never finishes the timer saturates at 0x4000 and the task never moves on |
| OakSteppers.InhabitedRunAppend | src/oak_speech.c:397-413 | calls compose |
| OakSteppers.InhabitedSchedule | src/oak_speech.c:379-413 | started at 0 the task never moves on in 96 calls, and does on the 97th if the cry is finished |
| OakSteppers.NameText | src/oak_speech.c:479-494 | the text is a prefix of the buffer without EOS, followed by EOS when shorter |
| OakSteppers.NameTerminated | src/oak_speech.c:486-493 | a 7-byte name followed by EOS reads as the same text, at most 7 characters |
| OakSteppers.NameTextAppend | src/oak_speech.c:492-493 | appending EOS never changes a name's text |
| OakSteppers.ClearTick | src/oak_speech.c:439-465 | Pikachu moves up by at most one line, and the sprites' destruction is logged at most once per call |
| OakSteppers.ClearRunSplit | src/oak_speech.c:439-465 | clearing calls compose |
| OakSteppers.ClearRaises | src/oak_speech.c:443-448 | the sprite timer runs out in as many calls, raising Pikachu once for each value 23 .. 1 it passes |
| OakSteppers.ClearWaits | src/oak_speech.c:451-459 | then the timer runs out in as many calls, destroying both sprites at 48 |
| OakSteppers.ClearSchedule | src/oak_speech.c:424-465 | Pikachu rises 23 lines in the first 64 calls, both sprites are destroyed on call 65, the timer is 0 after 112, and call 113 moves on |

## Left out

- Graphics, sound and text are outside the model: tiles, palettes, sprites,
  windows, text printing, the cry, sound effects and the affine transform
  (`SetBgAffine`, `Q_8_8_inv`). They appear only as events, or not at all.
- GPU registers: only `BLDY`'s coefficient, `WIN0V` and `BLDALPHA` are
  modelled. `BLDCNT` and the other register writes are not.
- `HBlankCB_TrainerCard` copies the table into a register each scanline.
  It is interrupt code and is not modelled; the table it reads is.
- `ScanlineEffect_Stop` and `ScanlineEffect_Clear` in `Task_BeginCardFlip`
  belong to the scanline effect library, which is not part of this model.
- Memory allocation and freeing (`AllocZeroed`, `Free`) are not modelled;
  the screen is a freshly created zero-filled object.
- `CopyEasyChatWord`, the easy-chat profile copy of `InitTrainerCardData`,
  is not part of this model.
- `SetPlayerCardData`: the tower and painting fields are cleared, as the
  code does. So the FRLG star count is at most 2.
- The parent task is passed as an object to the fade and speech tasks. The
  code looks it up by the id in `data[0]`, and the task table is not
  modelled.
- Task data and sprite positions are unbounded integers. The `s16` wrap of
  the fade targets, timers and Pikachu's `y` never happens in the ranges
  the tasks use, and is not modelled.
- OakSpeech.OakScene.SetDefaultNames takes the two 7-byte default names as
  parameters. Their bytes depend on the game's character map, which is not
  part of this model.
- OakSpeech.OakScene.SetUpExitAnimation does not model the platform
  sprites' fade task that `Task_OakSpeech_SetUpDestroyPlatformSprites`
  creates: it starts palette fades outside the model.
- Palette colour math: `BlendPalette` is logged as an event with its
  coefficient. Only the final whitening of the 32 colours is modelled.
- OakSpeech.OakScene.NewGameScene models `gMain.state` and the handover.
  The graphics set-up of each state is left out.
- The other Oak speech task functions are not modelled: the text pages, the
  naming screens, the fade to black, the platform sprites and the freeing
  of resources.
- The BG3 tilemap buffer is not modelled: `SetTrainerCardBgsAndPals`
  also clears it in its last arm (`src/trainer_card.c:1091`), and the
  redraw's first arm clears it again (`src/trainer_card.c:1300`). Only the
  card (BG0) and background (BG2) buffers are modelled.
- TrainerCardScreen.CardScreen.FlipTrainerCard runs the begin handler
  directly after creating the task. This is the same as one dispatcher call
  in the begin phase.
