/** The trainer card's flip animation as a pure specification. The flip task
    runs one phase handler per call: begin, fold the card down, redraw the
    other face, switch faces, fold it back up, end. A `FlipView` holds all the
    state those handlers read and write; `FlipTick` is one call of the
    dispatcher. The card screen's methods are proved against `FlipTick`, and
    the schedule of a whole flip is proved here. */
module CardFlip {
  import opened FixedPoint
  import opened Scanline
  import opened CardSteppers
  import opened Tilemap

  const FOLD_MAX: nat := 77
  const FOLD_DOWN_STEP: nat := 7
  const FOLD_UP_STEP: nat := 5

  /** Indices into the table of phase handlers. */
  const PHASE_BEGIN: int := 0
  const PHASE_FOLD_DOWN: int := 1
  const PHASE_DRAW_SIDE: int := 2
  const PHASE_SET_FLIPPED: int := 3
  const PHASE_FOLD_UP: int := 4
  const PHASE_END: int := 5

  /** Fold position after one fold-down call: +7, held at 77. */
  function FoldDownPos(pos: int): int
  {
    if pos >= FOLD_MAX then FOLD_MAX else pos + FOLD_DOWN_STEP
  }

  /** Fold position after one fold-up call: -5, snapping to 0. */
  function FoldUpPos(pos: int): int
  {
    if pos <= FOLD_UP_STEP then 0 else pos - FOLD_UP_STEP
  }

  /** The darkening coefficient for a card top (a `u16`), stored in an `s8`
      and dropped to 0 when it is at most 4. */
  function BlendY(cardTop: nat): (r: int)
    requires cardTop < TWO16
    ensures r == 0 || 5 <= r < 128
  {
    var b := S8((cardTop + 40) / 10);
    if b <= 4 then 0 else b
  }

  /** Over the fold positions the coefficient is 0 exactly while the card top
      is above row 10 and otherwise (top + 40) / 10, between 5 and 11. */
  lemma BlendYRange(cardTop: nat)
    requires cardTop <= FOLD_MAX
    ensures BlendY(cardTop) == 0 <==> cardTop < 10
    ensures cardTop >= 10 ==> BlendY(cardTop) == (cardTop + 40) / 10
    ensures cardTop >= 10 ==> 5 <= BlendY(cardTop) <= 11
  {
    assert S8((cardTop + 40) / 10) == (cardTop + 40) / 10;
  }

  /** The card darkens monotonically as it folds. */
  lemma BlendYMonotone(a: nat, b: nat)
    requires a <= b <= FOLD_MAX
    ensures BlendY(a) <= BlendY(b)
  {
    BlendYRange(a);
    BlendYRange(b);
  }

  /** The vertical window register for a card top: `WIN_RANGE(top, 160 - top)`. */
  function Win0V(top: nat): nat
    requires top <= ROWS
  {
    top * 256 + (ROWS - top)
  }

  /** The window spans exactly the band rows of the table for that fold:
      from row f to row f + BandHeight(f) = 160 - f, hiding the ramp above
      and the tail below. */
  lemma WindowIsBand(f: nat)
    requires f < 80
    ensures Win0V(f) / 256 == f
    ensures Win0V(f) % 256 == f + BandHeight(f) == ROWS - f
  {
    DivModUnique(Win0V(f), 256, f, ROWS - f);
  }

  /** The stored tilemaps of the card's two faces and of the background. */
  datatype Tilemaps = Tilemaps(front: seq<int>, back: seq<int>, bg: seq<int>)

  predicate MapsOk(m: Tilemaps)
  {
    |m.front| == MAP_LEN && |m.back| == MAP_LEN && |m.bg| == MAP_LEN
  }

  /** Everything a flip reads and writes: the task's `tFlipState` (phase) and
      fold position, the screen's `flipDrawState`, `printState`, `onBack`,
      `allowDMACopy`, `cardTop` and `flipBlendY`, the window register, whether
      the task still exists, which table the first 160 entries of scanline
      buffer 0 hold (`Table(tableTop, tableDir)`), and the card and background
      tilemap buffers. */
  datatype FlipView = FlipView(
    phase: int, pos: int, drawState: nat, printState: nat, onBack: bool, allowDMA: bool,
    cardTop: nat, blendY: int, win0v: nat, live: bool,
    tableTop: nat, tableDir: Direction, cardBuf: seq<int>, bgBuf: seq<int>)

  /** The ranges a flip stays within. Before and while folding down the
      position is a multiple of 7, so the fold lands exactly on 77. */
  predicate ViewOk(v: FlipView)
  {
    && PHASE_BEGIN <= v.phase <= PHASE_END
    && 0 <= v.pos <= FOLD_MAX
    && (v.phase <= PHASE_FOLD_DOWN ==> v.pos % FOLD_DOWN_STEP == 0)
    && v.cardTop < TWO16
    && v.tableTop < 80
    && |v.cardBuf| == BUF_LEN && |v.bgBuf| == BUF_LEN
  }

  /** What a fold call leaves: the new position as card top, coefficient and
      window, and a freshly generated table, with DMA allowed again. */
  function Folded(v: FlipView, pos: nat, dir: Direction): FlipView
    requires pos <= FOLD_MAX
  {
    v.(pos := pos, cardTop := pos, blendY := BlendY(pos), win0v := Win0V(pos),
       tableTop := pos, tableDir := dir, allowDMA := true)
  }

  /** What one pass through the redraw loop's body leaves: the view, and
      whether the `switch` arm fell through to the increment and the loop
      test (FALSE: the arm returned from the handler). */
  datatype Arm = Arm(view: FlipView, fellThrough: bool)

  /** One pass through the body of the redraw handler's do-while loop: the
      `switch` arm for `flipDrawState`, and the increment after it. The
      printer draws the face that is about to be shown: the back while
      `onBack` is still FALSE, the front otherwise. */
  function DrawArm(v: FlipView, maps: Tilemaps): (r: Arm)
    requires ViewOk(v) && MapsOk(maps) && v.phase == PHASE_DRAW_SIDE
    ensures ViewOk(r.view)
    ensures r.view == v.(phase := r.view.phase, drawState := r.view.drawState, printState := r.view.printState,
                         allowDMA := r.view.allowDMA, cardBuf := r.view.cardBuf)
    ensures r.fellThrough ==> r.view.phase == PHASE_DRAW_SIDE && v.drawState < r.view.drawState <= 4
    ensures r.view.phase == PHASE_DRAW_SIDE || (r.view.phase == PHASE_SET_FLIPPED && r.view.drawState == 0 && r.view.allowDMA)
    ensures r.view.phase == PHASE_DRAW_SIDE ==> r.view.allowDMA == v.allowDMA
    ensures r.view.cardBuf == v.cardBuf || (!v.onBack && r.view.cardBuf == Padded(v.cardBuf, maps.back))
  {
    if v.drawState == 0 then
      Arm(v.(drawState := 1), true)
    else if v.drawState == 1 then
      var p := Call(if v.onBack then PrintFront else PrintBack, v.printState);
      if !p.done then Arm(v.(printState := p.state), false)
      else Arm(v.(printState := p.state, drawState := 2), true)
    else if v.drawState == 2 then
      Arm(v.(drawState := 3, cardBuf := if v.onBack then v.cardBuf else Padded(v.cardBuf, maps.back)), true)
    else if v.drawState == 3 then
      Arm(v.(drawState := 4), true)
    else
      Arm(v.(phase := PHASE_SET_FLIPPED, allowDMA := true, drawState := 0), false)
  }

  /** The redraw handler's do-while loop: without link players it loops
      until printing needs another call or the face is done; with link
      players it runs one arm per call. */
  function DrawIter(v: FlipView, link: bool, maps: Tilemaps): (r: FlipView)
    requires ViewOk(v) && MapsOk(maps) && v.phase == PHASE_DRAW_SIDE
    ensures ViewOk(r)
    ensures r == v.(phase := r.phase, drawState := r.drawState, printState := r.printState,
                    allowDMA := r.allowDMA, cardBuf := r.cardBuf)
    ensures r.phase == PHASE_DRAW_SIDE || (r.phase == PHASE_SET_FLIPPED && r.drawState == 0 && r.allowDMA)
    ensures r.phase == PHASE_DRAW_SIDE ==> r.allowDMA == v.allowDMA
    ensures r.cardBuf == v.cardBuf || (!v.onBack && r.cardBuf == Padded(v.cardBuf, maps.back))
    ensures !link ==> r.phase == PHASE_SET_FLIPPED || r.drawState == 1
    decreases 4 - v.drawState
  {
    var a := DrawArm(v, maps);
    if a.fellThrough && !link then DrawIter(a.view, link, maps) else a.view
  }

  /** `Task_AnimateCardFlipDown`: step the fold down, regenerate the table,
      and move on once the fold reaches 77. */
  function FoldDownTick(v: FlipView): (r: FlipView)
    requires ViewOk(v) && v.phase == PHASE_FOLD_DOWN
    ensures ViewOk(r)
    ensures r == v.(pos := r.pos, cardTop := r.cardTop, blendY := r.blendY, win0v := r.win0v,
                    tableTop := r.tableTop, tableDir := r.tableDir, allowDMA := r.allowDMA, phase := r.phase)
    ensures v.pos < FOLD_MAX ==> r.pos == v.pos + FOLD_DOWN_STEP
    ensures v.pos == FOLD_MAX ==> r.pos == FOLD_MAX
    ensures r.phase == (if r.pos == FOLD_MAX then PHASE_DRAW_SIDE else PHASE_FOLD_DOWN)
    ensures r.cardTop == r.tableTop == r.pos && r.tableDir == Down && r.allowDMA
    ensures r.blendY == BlendY(r.pos) && r.win0v == Win0V(r.pos)
  {
    var p := FoldDownPos(v.pos);
    Folded(v, p, Down).(phase := if p >= FOLD_MAX then PHASE_DRAW_SIDE else PHASE_FOLD_DOWN)
  }

  /** `Task_DrawFlippedCardSide`: hold back the table copy, then unless the
      link queue is backed up run the redraw loop. */
  function DrawSideTick(v: FlipView, link: bool, queueBacked: bool, maps: Tilemaps): (r: FlipView)
    requires ViewOk(v) && MapsOk(maps) && v.phase == PHASE_DRAW_SIDE
    ensures ViewOk(r)
    ensures r == v.(phase := r.phase, drawState := r.drawState, printState := r.printState,
                    allowDMA := r.allowDMA, cardBuf := r.cardBuf)
    ensures queueBacked ==> r == v.(allowDMA := false)
    ensures r.phase == PHASE_DRAW_SIDE ==> !r.allowDMA
    ensures r.phase == PHASE_DRAW_SIDE || (r.phase == PHASE_SET_FLIPPED && r.drawState == 0 && r.allowDMA)
    ensures !link && !queueBacked ==> r.phase == PHASE_SET_FLIPPED || r.drawState == 1
    ensures r.cardBuf == v.cardBuf || (!v.onBack && r.cardBuf == Padded(v.cardBuf, maps.back))
  {
    if queueBacked then v.(allowDMA := false) else DrawIter(v.(allowDMA := false), link, maps)
  }

  /** `Task_SetCardFlipped`: when turning back to the front, redraw the
      background and the front; then switch faces. */
  function SetFlippedTick(v: FlipView, maps: Tilemaps): (r: FlipView)
    requires |v.cardBuf| == BUF_LEN && |v.bgBuf| == BUF_LEN && MapsOk(maps)
    ensures r == v.(onBack := r.onBack, phase := r.phase, allowDMA := r.allowDMA,
                    cardBuf := r.cardBuf, bgBuf := r.bgBuf)
    ensures r.onBack == !v.onBack && r.phase == PHASE_FOLD_UP && r.allowDMA
    ensures |r.cardBuf| == BUF_LEN && |r.bgBuf| == BUF_LEN
    ensures v.onBack ==> Unpadded(r.cardBuf) == maps.front && Unpadded(r.bgBuf) == maps.bg
    ensures !v.onBack ==> r.cardBuf == v.cardBuf && r.bgBuf == v.bgBuf
  {
    UnpadPadded(v.cardBuf, maps.front);
    UnpadPadded(v.bgBuf, maps.bg);
    var w := if v.onBack then v.(bgBuf := Padded(v.bgBuf, maps.bg), cardBuf := Padded(v.cardBuf, maps.front))
             else v;
    w.(onBack := !v.onBack, phase := PHASE_FOLD_UP, allowDMA := true)
  }

  /** `Task_AnimateCardFlipUp`: step the fold up, regenerate the table, and
      move on once the card is flat. */
  function FoldUpTick(v: FlipView): (r: FlipView)
    requires ViewOk(v)
    ensures r == v.(pos := r.pos, cardTop := r.cardTop, blendY := r.blendY, win0v := r.win0v,
                    tableTop := r.tableTop, tableDir := r.tableDir, allowDMA := r.allowDMA, phase := r.phase)
    ensures v.pos > FOLD_UP_STEP ==> r.pos == v.pos - FOLD_UP_STEP
    ensures v.pos <= FOLD_UP_STEP ==> r.pos == 0
    ensures r.phase == (if r.pos == 0 then PHASE_END else PHASE_FOLD_UP)
    ensures r.cardTop == r.tableTop == r.pos && r.tableDir == Up && r.allowDMA
    ensures r.blendY == BlendY(r.pos) && r.win0v == Win0V(r.pos)
  {
    var p := FoldUpPos(v.pos);
    Folded(v, p, Up).(phase := if p <= 0 then PHASE_END else PHASE_FOLD_UP)
  }

  /** One call of the flip task's dispatcher: exactly one phase handler runs,
      since every handler returns FALSE. */
  function FlipTick(v: FlipView, link: bool, queueBacked: bool, maps: Tilemaps): (r: FlipView)
    requires v.live && ViewOk(v) && MapsOk(maps)
    ensures ViewOk(r)
    ensures r.phase == v.phase || r.phase == v.phase + 1
    ensures r.onBack != v.onBack <==> v.phase == PHASE_SET_FLIPPED
    ensures !r.live <==> v.phase == PHASE_END
  {
    if v.phase == PHASE_BEGIN then v.(phase := PHASE_FOLD_DOWN)
    else if v.phase == PHASE_FOLD_DOWN then FoldDownTick(v)
    else if v.phase == PHASE_DRAW_SIDE then DrawSideTick(v, link, queueBacked, maps)
    else if v.phase == PHASE_SET_FLIPPED then SetFlippedTick(v, maps)
    else if v.phase == PHASE_FOLD_UP then FoldUpTick(v)
    else v.(live := false)
  }

  /** While the link receive queue is backed up, the redraw makes no
      progress: it only holds back the table copy. */
  lemma QueueBackedStalls(v: FlipView, link: bool, maps: Tilemaps)
    requires v.live && ViewOk(v) && MapsOk(maps) && v.phase == PHASE_DRAW_SIDE
    ensures FlipTick(v, link, true, maps) == v.(allowDMA := false)
  {
  }

  /** n dispatcher calls with the link queue never backed up, stopping once
      the task is gone. */
  function Run(v: FlipView, n: nat, link: bool, maps: Tilemaps): (r: FlipView)
    requires ViewOk(v) && MapsOk(maps)
    ensures ViewOk(r)
    decreases n
  {
    if n == 0 || !v.live then v else Run(FlipTick(v, link, false, maps), n - 1, link, maps)
  }

  lemma {:induction false} RunSplit(v: FlipView, a: nat, b: nat, n: nat, link: bool, maps: Tilemaps)
    requires ViewOk(v) && MapsOk(maps) && n == a + b
    ensures Run(v, n, link, maps) == Run(Run(v, a, link, maps), b, link, maps)
    decreases a
  {
    if a > 0 && v.live {
      RunSplit(FlipTick(v, link, false, maps), a - 1, b, n - 1, link, maps);
    }
  }

  /** Folding down from a flat card: after k <= 11 calls the fold sits at
      7k, and the phase moves on exactly on the 11th call, at 77. */
  lemma {:induction false} FoldDownSchedule(v: FlipView, k: nat, link: bool, maps: Tilemaps)
    requires v.live && ViewOk(v) && MapsOk(maps)
    requires v.phase == PHASE_FOLD_DOWN && v.pos == 0 && 0 < k <= 11
    ensures Run(v, k, link, maps)
            == Folded(v, FOLD_DOWN_STEP * k, Down).(phase := if k == 11 then PHASE_DRAW_SIDE else PHASE_FOLD_DOWN)
    decreases k
  {
    if k > 1 {
      FoldDownSchedule(v, k - 1, link, maps);
      RunSplit(v, k - 1, 1, k, link, maps);
    }
  }

  /** Folding up from 77: after k <= 16 calls the fold sits at 77 - 5k, and
      the 16th call snaps it from 2 to 0 and moves the phase on. */
  lemma {:induction false} FoldUpSchedule(v: FlipView, k: nat, link: bool, maps: Tilemaps)
    requires v.live && ViewOk(v) && MapsOk(maps)
    requires v.phase == PHASE_FOLD_UP && v.pos == FOLD_MAX && 0 < k <= 16
    ensures Run(v, k, link, maps)
            == Folded(v, if k == 16 then 0 else FOLD_MAX - FOLD_UP_STEP * k, Up)
                 .(phase := if k == 16 then PHASE_END else PHASE_FOLD_UP)
    decreases k
  {
    if k > 1 {
      FoldUpSchedule(v, k - 1, link, maps);
      RunSplit(v, k - 1, 1, k, link, maps);
    }
  }

  /** Number of printer arms for the face being drawn. */
  function PrintCases(onBack: bool): nat
  {
    Cases(if onBack then PrintFront else PrintBack)
  }

  /** Calls the redraw phase takes: the printer's arms plus one without link
      players (3 for the back, 6 for the front); plus five with them, as
      every arm then costs a call of its own (7 and 10). */
  function DrawCalls(onBack: bool, link: bool): nat
  {
    PrintCases(onBack) + (if link then 5 else 1)
  }

  /** The redraw's result: the next phase, both counters back at 0, DMA
      allowed, and the back's tilemap copied in when the back is drawn. */
  function DrawDone(v: FlipView, maps: Tilemaps): FlipView
    requires |v.cardBuf| == BUF_LEN && MapsOk(maps)
  {
    v.(phase := PHASE_SET_FLIPPED, drawState := 0, printState := 0, allowDMA := true,
       cardBuf := if v.onBack then v.cardBuf else Padded(v.cardBuf, maps.back))
  }

  /** While the printer still has arms left, each call runs one of them. */
  lemma {:induction false} DrawPrinting(v: FlipView, k: nat, link: bool, maps: Tilemaps)
    requires v.live && ViewOk(v) && MapsOk(maps)
    requires v.phase == PHASE_DRAW_SIDE && v.drawState == 1 && v.printState + k <= PrintCases(v.onBack)
    requires k > 0
    ensures Run(v, k, link, maps) == v.(printState := v.printState + k, allowDMA := false)
    decreases k
  {
    if k > 1 {
      DrawPrinting(v, k - 1, link, maps);
      RunSplit(v, k - 1, 1, k, link, maps);
    }
  }

  /** The redraw takes exactly `DrawCalls` calls. */
  lemma DrawSchedule(v: FlipView, link: bool, maps: Tilemaps)
    requires v.live && ViewOk(v) && MapsOk(maps)
    requires v.phase == PHASE_DRAW_SIDE && v.drawState == 0 && v.printState == 0
    ensures Run(v, DrawCalls(v.onBack, link), link, maps) == DrawDone(v, maps)
  {
    if link {
      DrawScheduleLinked(v, maps);
    } else {
      DrawScheduleAlone(v, maps);
    }
  }

  /** Without link players, once printing is done one call runs the rest:
      the card buffer, the trainer picture and the switch to the next phase. */
  lemma DrawTail(x: FlipView, maps: Tilemaps)
    requires ViewOk(x) && MapsOk(maps) && x.phase == PHASE_DRAW_SIDE && x.drawState == 2 && x.printState == 0
    ensures DrawIter(x, false, maps) == DrawDone(x, maps)
  {
    var x3 := DrawArm(x, maps).view;
    var x4 := x3.(drawState := 4);
    assert DrawArm(x3, maps) == Arm(x4, true);
    assert DrawIter(x4, false, maps) == DrawDone(x, maps);
    assert DrawIter(x3, false, maps) == DrawDone(x, maps);
  }

  /** Without link players: one call prints the first item, the printer's
      remaining items take one call each, and the last call finishes. */
  lemma DrawScheduleAlone(v: FlipView, maps: Tilemaps)
    requires v.live && ViewOk(v) && MapsOk(maps)
    requires v.phase == PHASE_DRAW_SIDE && v.drawState == 0 && v.printState == 0
    ensures Run(v, DrawCalls(v.onBack, false), false, maps) == DrawDone(v, maps)
  {
    var c := PrintCases(v.onBack);
    var k := if v.onBack then PrintFront else PrintBack;
    assert c == Cases(k);
    var u := v.(allowDMA := false);
    var w1 := u.(drawState := 1, printState := 1);
    assert DrawIter(u, false, maps) == DrawIter(u.(drawState := 1), false, maps) == w1;
    assert FlipTick(v, false, false, maps) == w1;
    DrawPrinting(w1, c - 1, false, maps);
    var w2 := w1.(printState := c);
    var x2 := w2.(printState := 0, drawState := 2);
    assert DrawArm(w2, maps) == Arm(x2, true);
    DrawTail(x2, maps);
    assert FlipTick(w2, false, false, maps) == DrawDone(v, maps);
    RunSplit(v, 1, c - 1, c, false, maps);
    RunSplit(v, c, 1, c + 1, false, maps);
  }

  /** With link players every arm takes a call of its own: 1 to clear, one
      per printed item plus one to finish printing, then the card buffer, the
      picture and the switch. */
  lemma DrawScheduleLinked(v: FlipView, maps: Tilemaps)
    requires v.live && ViewOk(v) && MapsOk(maps)
    requires v.phase == PHASE_DRAW_SIDE && v.drawState == 0 && v.printState == 0
    ensures Run(v, DrawCalls(v.onBack, true), true, maps) == DrawDone(v, maps)
  {
    var c := PrintCases(v.onBack);
    var k := if v.onBack then PrintFront else PrintBack;
    assert c == Cases(k);
    var w1 := v.(drawState := 1, allowDMA := false);
    assert FlipTick(v, true, false, maps) == w1;
    DrawPrinting(w1, c, true, maps);
    var w2 := w1.(printState := c);
    var w3 := w2.(printState := 0, drawState := 2);
    assert FlipTick(w2, true, false, maps) == w3;
    var w4 := w3.(drawState := 3, cardBuf := if v.onBack then v.cardBuf else Padded(v.cardBuf, maps.back));
    assert FlipTick(w3, true, false, maps) == w4;
    assert FlipTick(w4, true, false, maps) == w4.(drawState := 4);
    assert FlipTick(w4.(drawState := 4), true, false, maps) == DrawDone(v, maps);
    RunSplit(v, 1, c, 1 + c, true, maps);
    RunSplit(v, 1 + c, 1, 2 + c, true, maps);
    RunSplit(v, 2 + c, 1, 3 + c, true, maps);
    RunSplit(v, 3 + c, 1, 4 + c, true, maps);
    RunSplit(v, 4 + c, 1, 5 + c, true, maps);
  }

  /** Calls a whole flip takes: begin, 11 folding down, the redraw, the face
      switch, 16 folding up and the end: 33 to the back and 36 to the front
      without link players. */
  function FlipCalls(onBack: bool, link: bool): nat
  {
    DrawCalls(onBack, link) + 30
  }

  /** The first call only moves on to folding down. */
  lemma BeginStep(v: FlipView, link: bool, maps: Tilemaps)
    requires v.live && ViewOk(v) && MapsOk(maps) && v.phase == PHASE_BEGIN
    ensures Run(v, 1, link, maps) == v.(phase := PHASE_FOLD_DOWN)
  {
  }

  /** Begin, fold down and redraw: the card is folded at 77 with the other
      face's tilemap drawn when that face is the back. */
  lemma FlipToFolded(v: FlipView, link: bool, maps: Tilemaps)
    requires v.live && ViewOk(v) && MapsOk(maps)
    requires v.phase == PHASE_BEGIN && v.pos == 0 && v.drawState == 0 && v.printState == 0
    ensures var r := Run(v, 12 + DrawCalls(v.onBack, link), link, maps);
            && r.live && r.phase == PHASE_SET_FLIPPED && r.pos == FOLD_MAX
            && r.onBack == v.onBack && r.drawState == 0 && r.printState == 0
            && r.cardBuf == (if v.onBack then v.cardBuf else Padded(v.cardBuf, maps.back))
            && r.bgBuf == v.bgBuf
  {
    var d := DrawCalls(v.onBack, link);
    var v1 := v.(phase := PHASE_FOLD_DOWN);
    BeginStep(v, link, maps);
    FoldDownSchedule(v1, 11, link, maps);
    var v2 := Folded(v1, FOLD_MAX, Down).(phase := PHASE_DRAW_SIDE);
    DrawSchedule(v2, link, maps);
    RunSplit(v, 1, 11, 12, link, maps);
    RunSplit(v, 12, d, 12 + d, link, maps);
  }

  /** Switch faces, fold up and end: 18 calls from the redrawn, folded card,
      the task living through the first 17. Turning to the front copies the
      background and the front's tilemaps. */
  lemma FlipFromFolded(v: FlipView, link: bool, maps: Tilemaps)
    requires v.live && ViewOk(v) && MapsOk(maps)
    requires v.phase == PHASE_SET_FLIPPED && v.pos == FOLD_MAX
    ensures Run(v, 17, link, maps).live
    ensures var r := Run(v, 18, link, maps);
            && !r.live && r.phase == PHASE_END && r.onBack == !v.onBack
            && r.pos == 0 && r.cardTop == 0 && r.blendY == BlendY(0) && r.win0v == Win0V(0)
            && r.tableTop == 0 && r.tableDir == Up && r.allowDMA
            && r.drawState == v.drawState && r.printState == v.printState
            && r.cardBuf == (if v.onBack then Padded(v.cardBuf, maps.front) else v.cardBuf)
            && r.bgBuf == (if v.onBack then Padded(v.bgBuf, maps.bg) else v.bgBuf)
  {
    var w := if v.onBack then v.(bgBuf := Padded(v.bgBuf, maps.bg), cardBuf := Padded(v.cardBuf, maps.front))
             else v;
    var v5 := w.(onBack := !v.onBack, phase := PHASE_FOLD_UP, allowDMA := true);
    assert Run(v, 1, link, maps) == v5;
    FoldUpSchedule(v5, 16, link, maps);
    var v6 := Folded(v5, 0, Up).(phase := PHASE_END);
    assert Run(v6, 1, link, maps) == v6.(live := false);
    RunSplit(v, 1, 16, 17, link, maps);
    RunSplit(v, 17, 1, 18, link, maps);
  }

  /** The task is still there one call before the end of a flip. */
  lemma WholeFlipLength(v: FlipView, link: bool, maps: Tilemaps)
    requires v.live && ViewOk(v) && MapsOk(maps)
    requires v.phase == PHASE_BEGIN && v.pos == 0 && v.drawState == 0 && v.printState == 0
    ensures Run(v, FlipCalls(v.onBack, link) - 1, link, maps).live
  {
    var d := DrawCalls(v.onBack, link);
    FlipToFolded(v, link, maps);
    var x := Run(v, 12 + d, link, maps);
    FlipFromFolded(x, link, maps);
    RunSplit(v, 12 + d, 17, FlipCalls(v.onBack, link) - 1, link, maps);
  }

  /** A flip started from a freshly created task ends after exactly
      `FlipCalls` calls (with `WholeFlipLength`). What it leaves: the card shows the other face, its tilemap
      copied into the card buffer (and the background redrawn when turning
      back to the front); the fold is flat again with an all-zero table, no
      darkening and the full window; the redraw counters are back at 0. */
  lemma WholeFlip(v: FlipView, link: bool, maps: Tilemaps)
    requires v.live && ViewOk(v) && MapsOk(maps)
    requires v.phase == PHASE_BEGIN && v.pos == 0 && v.drawState == 0 && v.printState == 0
    ensures var r := Run(v, FlipCalls(v.onBack, link), link, maps);
            && !r.live && r.onBack == !v.onBack
            && r.pos == 0 && r.cardTop == 0 && r.blendY == 0 && r.win0v == Win0V(0)
            && Table(r.tableTop, r.tableDir) == seq(ROWS, i => 0) && r.allowDMA
            && r.drawState == 0 && r.printState == 0
            && r.cardBuf == Padded(v.cardBuf, if v.onBack then maps.front else maps.back)
            && r.bgBuf == (if v.onBack then Padded(v.bgBuf, maps.bg) else v.bgBuf)
  {
    var d := DrawCalls(v.onBack, link);
    FlipToFolded(v, link, maps);
    var x := Run(v, 12 + d, link, maps);
    FlipFromFolded(x, link, maps);
    RunSplit(v, 12 + d, 18, FlipCalls(v.onBack, link), link, maps);
    assert FlipCalls(v.onBack, link) == 12 + d + 18;
    TableAtRest(Up);
    BlendYRange(0);
  }
}
