/** The trainer card's resumable steppers and its two state machines, as pure
    step functions: each function is one call of the C routine, from the state
    the routine reads to the state it leaves behind. The card screen's methods
    are proved against these functions, and the schedules below (how many
    calls until a stepper reports completion, which states are reachable) are
    proved about them. */
module CardSteppers {

  /** What one call of a resumable stepper returns, and the state it leaves. */
  datatype Step = Step(done: bool, state: nat)

  /** The four resumable steppers of the card screen. */
  datatype Stepper = PrintFront | PrintBack | LoadGfx | BgsAndPals

  /** Number of `case` arms that do work before the `default` arm. */
  function Cases(k: Stepper): nat
  {
    match k
    case PrintFront => 5   // name, ID, money, Pokedex, time
    case PrintBack => 2    // name, badges
    case LoadGfx => 5      // four tilemaps/tiles and the card tiles
    case BgsAndPals => 6   // tiles, tiles, three palettes, tilemap buffers
  }

  /** One call. A working arm advances the state and returns FALSE; the
      `default` arm returns TRUE and, except in `SetTrainerCardBgsAndPals`,
      resets the state to 0. */
  function Call(k: Stepper, state: nat): (r: Step)
    ensures r.done <==> state >= Cases(k)
    ensures !r.done ==> r.state == state + 1
    ensures r.done ==> r.state == (if k == BgsAndPals then state else 0)
  {
    if state < Cases(k) then Step(false, state + 1)
    else if k == BgsAndPals then Step(true, state)
    else Step(true, 0)
  }

  /** The results of n successive calls starting from `state`. */
  function Dones(k: Stepper, state: nat, n: nat): (r: seq<bool>)
    ensures |r| == n
    decreases n
  {
    if n == 0 then [] else [Call(k, state).done] + Dones(k, Call(k, state).state, n - 1)
  }

  /** The state after n successive calls starting from `state`. */
  function After(k: Stepper, state: nat, n: nat): nat
    decreases n
  {
    if n == 0 then state else After(k, Call(k, state).state, n - 1)
  }

  /** While working arms remain, each call returns FALSE and counts up. */
  lemma {:induction false} CountsUp(k: Stepper, state: nat, n: nat)
    requires state + n <= Cases(k)
    ensures Dones(k, state, n) == seq(n, _ => false)
    ensures After(k, state, n) == state + n
    decreases n
  {
    if n > 0 {
      CountsUp(k, state + 1, n - 1);
    }
  }

  /** From a fresh state, a stepper with c working arms returns FALSE on its
      first c calls and TRUE on call c + 1; it is then back at 0, except
      `SetTrainerCardBgsAndPals`, which stays at 6. */
  lemma {:induction false} StepperSchedule(k: Stepper)
    ensures Dones(k, 0, Cases(k) + 1) == seq(Cases(k), _ => false) + [true]
    ensures After(k, 0, Cases(k) + 1) == (if k == BgsAndPals then Cases(k) else 0)
  {
    var c := Cases(k);
    CountsUp(k, 0, c);
    DonesSplit(k, 0, c, 1);
  }

  /** Calls compose: a + b calls are a calls followed by b calls. */
  lemma {:induction false} DonesSplit(k: Stepper, state: nat, a: nat, b: nat)
    ensures Dones(k, state, a + b) == Dones(k, state, a) + Dones(k, After(k, state, a), b)
    ensures After(k, state, a + b) == After(k, After(k, state, a), b)
    decreases a
  {
    if a > 0 {
      DonesSplit(k, Call(k, state).state, a - 1, b);
      assert [Call(k, state).done] + (Dones(k, Call(k, state).state, a - 1)
              + Dones(k, After(k, Call(k, state).state, a - 1), b))
          == ([Call(k, state).done] + Dones(k, Call(k, state).state, a - 1))
              + Dones(k, After(k, Call(k, state).state, a - 1), b);
    }
  }

  /** Once finished, `SetTrainerCardBgsAndPals` keeps answering TRUE. */
  lemma {:induction false} BgsAndPalsStaysDone(n: nat)
    ensures Dones(BgsAndPals, Cases(BgsAndPals), n) == seq(n, _ => true)
  {
    if n > 0 {
      BgsAndPalsStaysDone(n - 1);
    }
  }

  // ---------------------------------------------------------------------
  // Task_TrainerCard: the card's main input state machine

  const STATE_HANDLE_INPUT_FRONT: nat := 10
  const STATE_HANDLE_INPUT_BACK: nat := 11
  const STATE_WAIT_FLIP_TO_BACK: nat := 12
  const STATE_WAIT_FLIP_TO_FRONT: nat := 13
  const STATE_CLOSE_CARD: nat := 14

  /** What the main task reads from outside on one call: the DMA manager, the
      palette fade (TRUE while `UpdatePaletteFade` still reports work), the
      sound effect, the new button presses, whether no flip task exists
      (`IsCardFlipTaskActive`, whose answer is TRUE exactly then) and whether
      the link receive queue is backed up. */
  datatype MainInputs = MainInputs(
    dmaBusy: bool, fadeActive: bool, sePlaying: bool,
    aPressed: bool, bPressed: bool, noFlipTask: bool, queueBacked: bool)

  /** The side effect of one call that the rest of the model sees. */
  datatype MainAction = NoAction | StartFlip | StartFadeOut | CloseCard

  /** The main task's state: `mainState`, `printState`, and whether the card
      has been closed (the task destroyed). */
  datatype MainView = MainView(mainState: nat, printState: nat, closed: bool)

  /** One call of `Task_TrainerCard`, giving the new view and the action. */
  function MainStep(v: MainView, inp: MainInputs): (r: (MainView, MainAction))
    ensures v.closed ==> r == (v, NoAction)
    ensures r.0.printState != v.printState ==> !v.closed && v.mainState == 1
    ensures r.1 == CloseCard <==> !v.closed && r.0.closed
    ensures r.1 == StartFadeOut <==>
              && !v.closed && (v.mainState == STATE_HANDLE_INPUT_FRONT || v.mainState == STATE_HANDLE_INPUT_BACK)
              && !inp.aPressed && inp.bPressed
  {
    if v.closed then (v, NoAction)
    else
      var s := v.mainState;
      if s == 0 then
        (if !inp.dmaBusy then (v.(mainState := 1), NoAction) else (v, NoAction))
      else if s == 1 then
        var p := Call(PrintFront, v.printState);
        (v.(printState := p.state, mainState := if p.done then 2 else 1), NoAction)
      else if 2 <= s <= 7 then (v.(mainState := s + 1), NoAction)
      else if s == 8 then
        (if !inp.fadeActive && !inp.dmaBusy then (v.(mainState := STATE_HANDLE_INPUT_FRONT), NoAction)
         else (v, NoAction))
      else if s == 9 then
        (if !inp.sePlaying then (v.(mainState := 10), NoAction) else (v, NoAction))
      else if s == STATE_HANDLE_INPUT_FRONT || s == STATE_HANDLE_INPUT_BACK then
        if inp.aPressed then
          (v.(mainState := if s == STATE_HANDLE_INPUT_FRONT then STATE_WAIT_FLIP_TO_BACK
                            else STATE_WAIT_FLIP_TO_FRONT), StartFlip)
        else if inp.bPressed then (v.(mainState := STATE_CLOSE_CARD), StartFadeOut)
        else (v, NoAction)
      else if s == STATE_WAIT_FLIP_TO_BACK || s == STATE_WAIT_FLIP_TO_FRONT then
        if inp.noFlipTask && !inp.queueBacked then
          (v.(mainState := if s == STATE_WAIT_FLIP_TO_BACK then STATE_HANDLE_INPUT_BACK
                            else STATE_HANDLE_INPUT_FRONT), NoAction)
        else (v, NoAction)
      else if s == STATE_CLOSE_CARD then
        (if !inp.fadeActive then (v.(closed := true), CloseCard) else (v, NoAction))
      else (v, NoAction)
  }

  /** The states reachable from state 0: every state except 9, which no
      transition enters (state 8 jumps straight to 10). */
  predicate MainReachable(s: nat)
  {
    s <= 14 && s != 9
  }

  /** A flip is requested only from an input state, and the card then waits
      for it in the matching waiting state; the waiting states are left only
      once no flip task exists and the link queue has drained. */
  lemma MainFlipHandshake(v: MainView, inp: MainInputs)
    requires !v.closed
    ensures MainStep(v, inp).1 == StartFlip <==>
            (v.mainState in {STATE_HANDLE_INPUT_FRONT, STATE_HANDLE_INPUT_BACK} && inp.aPressed)
    ensures MainStep(v, inp).1 == StartFlip ==>
            MainStep(v, inp).0.mainState == v.mainState + 2
    ensures v.mainState in {STATE_WAIT_FLIP_TO_BACK, STATE_WAIT_FLIP_TO_FRONT} ==>
            (MainStep(v, inp).0.mainState != v.mainState <==> inp.noFlipTask && !inp.queueBacked)
    ensures v.mainState == STATE_WAIT_FLIP_TO_BACK && MainStep(v, inp).0.mainState != v.mainState ==>
            MainStep(v, inp).0.mainState == STATE_HANDLE_INPUT_BACK
    ensures v.mainState == STATE_WAIT_FLIP_TO_FRONT && MainStep(v, inp).0.mainState != v.mainState ==>
            MainStep(v, inp).0.mainState == STATE_HANDLE_INPUT_FRONT
  {
  }

  /** The main task over a sequence of calls. */
  function MainRun(v: MainView, inputs: seq<MainInputs>): (r: MainView)
    ensures v.closed ==> r == v
    ensures r.closed ==> v.closed || exists i :: 0 <= i < |inputs| && !inputs[i].fadeActive
    decreases |inputs|
  {
    if inputs == [] then v else MainRun(MainStep(v, inputs[0]).0, inputs[1..])
  }

  /** Whatever the inputs, a card that starts at state 0 only ever visits the
      reachable states, so state 9 is never entered and no state above 14. */
  lemma {:induction false} MainStaysReachable(v: MainView, inputs: seq<MainInputs>)
    requires MainReachable(v.mainState)
    ensures MainReachable(MainRun(v, inputs).mainState)
    decreases |inputs|
  {
    if inputs != [] {
      var w := MainStep(v, inputs[0]).0;
      assert MainReachable(w.mainState);
      MainStaysReachable(w, inputs[1..]);
    }
  }

  /** B closes the card from either input state, and only after the fade. */
  lemma MainCloseNeedsFade(v: MainView, inp: MainInputs)
    requires !v.closed
    ensures MainStep(v, inp).0.closed <==> v.mainState == STATE_CLOSE_CARD && !inp.fadeActive
  {
  }

  // ---------------------------------------------------------------------
  // CB2_InitTrainerCard: the setup callback

  /** `gMain.state`, the two loader states it drives, and whether the final
      state has installed the card's main callback. */
  datatype InitView = InitView(state: nat, gfxLoadState: nat, bgPalLoadState: nat, running: bool)

  /** One call of `CB2_InitTrainerCard`. State 3 falls through into state 4,
      so one call takes it to 5. */
  function InitStep(v: InitView): (r: InitView)
    ensures r.state >= v.state
    ensures v.state <= 13 ==> r.state <= 13
    ensures r.state == v.state ==> v.state == 8 || v.state == 11 || v.state >= 13
    ensures r.running <==> v.running || v.state >= 13
  {
    var s := v.state;
    if s <= 2 then v.(state := s + 1)
    else if s == 3 || s == 4 then v.(state := 5)
    else if 5 <= s <= 7 then v.(state := s + 1)
    else if s == 8 then
      var g := Call(LoadGfx, v.gfxLoadState);
      v.(gfxLoadState := g.state, state := if g.done then 9 else 8)
    else if s == 9 || s == 10 then v.(state := s + 1)
    else if s == 11 then
      var b := Call(BgsAndPals, v.bgPalLoadState);
      v.(bgPalLoadState := b.state, state := if b.done then 12 else 11)
    else if s == 12 then v.(state := 13)
    else v.(running := true)
  }

  function InitRun(v: InitView, n: nat): (r: InitView)
    ensures r.state >= v.state
    ensures v.state <= 13 ==> r.state <= 13
    ensures v.running ==> r.running
    decreases n
  {
    if n == 0 then v else InitRun(InitStep(v), n - 1)
  }

  lemma {:induction false} InitRunSplit(v: InitView, a: nat, b: nat)
    ensures InitRun(v, a + b) == InitRun(InitRun(v, a), b)
    decreases a
  {
    if a > 0 {
      InitRunSplit(InitStep(v), a - 1, b);
    }
  }

  /** Each loader state is left after exactly its stepper's schedule. */
  lemma {:induction false} InitLoaderWait(v: InitView, k: nat)
    requires v.state == 8 && v.gfxLoadState + k <= Cases(LoadGfx)
    ensures InitRun(v, k) == v.(gfxLoadState := v.gfxLoadState + k)
    decreases k
  {
    if k > 0 {
      InitLoaderWait(InitStep(v), k - 1);
    }
  }

  lemma {:induction false} InitBgPalWait(v: InitView, k: nat)
    requires v.state == 11 && v.bgPalLoadState + k <= Cases(BgsAndPals)
    ensures InitRun(v, k) == v.(bgPalLoadState := v.bgPalLoadState + k)
    decreases k
  {
    if k > 0 {
      InitBgPalWait(InitStep(v), k - 1);
    }
  }

  /** States 0, 1, 2, 3 (falling through 4), 5, 6 and 7 take one call each. */
  lemma InitToLoader()
    ensures InitRun(InitView(0, 0, 0, false), 7) == InitView(8, 0, 0, false)
  {
    assert InitRun(InitView(6, 0, 0, false), 2) == InitRun(InitView(7, 0, 0, false), 1);
    assert InitRun(InitView(5, 0, 0, false), 3) == InitRun(InitView(6, 0, 0, false), 2);
    assert InitRun(InitView(3, 0, 0, false), 4) == InitRun(InitView(5, 0, 0, false), 3);
    assert InitRun(InitView(2, 0, 0, false), 5) == InitRun(InitView(3, 0, 0, false), 4);
    assert InitRun(InitView(1, 0, 0, false), 6) == InitRun(InitView(2, 0, 0, false), 5);
    assert InitRun(InitView(0, 0, 0, false), 7) == InitRun(InitView(1, 0, 0, false), 6);
  }

  /** State 8: five loads, then the call that reports completion; then 9
      and 10. */
  lemma InitThroughLoader()
    ensures InitRun(InitView(8, 0, 0, false), 8) == InitView(11, 0, 0, false)
  {
    var v8 := InitView(8, 0, 0, false);
    InitLoaderWait(v8, 5);
    InitRunSplit(v8, 5, 3);
    var w := v8.(gfxLoadState := 5);
    assert InitRun(InitView(9, 0, 0, false), 2) == InitRun(InitView(10, 0, 0, false), 1);
    assert InitRun(w, 3) == InitRun(InitView(9, 0, 0, false), 2);
  }

  /** State 11: six loads, then completion (the loader stays at 6); then 12. */
  lemma InitThroughBgPal()
    ensures InitRun(InitView(11, 0, 0, false), 8) == InitView(13, 0, 6, false)
  {
    var v11 := InitView(11, 0, 0, false);
    InitBgPalWait(v11, 6);
    InitRunSplit(v11, 6, 2);
    var w := v11.(bgPalLoadState := 6);
    assert InitRun(w, 2) == InitRun(InitView(12, 0, 6, false), 1);
  }

  /** From a zeroed card, 23 calls set everything up (state 13, the graphics
      loader back at 0, the palette loader left at 6), and the 24th installs
      the main callback. */
  lemma InitSchedule()
    ensures InitRun(InitView(0, 0, 0, false), 23) == InitView(13, 0, 6, false)
    ensures InitRun(InitView(0, 0, 0, false), 24) == InitView(13, 0, 6, true)
  {
    var v0 := InitView(0, 0, 0, false);
    InitToLoader();
    InitThroughLoader();
    InitThroughBgPal();
    InitRunSplit(v0, 7, 8);
    InitRunSplit(v0, 15, 8);
    InitRunSplit(v0, 23, 1);
  }

  // ---------------------------------------------------------------------
  // BlinkTimeColon: the play-time colon blinks once a second

  /** The blink fields: the `u8` timer, the colon's visibility and the flag
      asking the main task to redraw the time. */
  datatype Blink = Blink(timer: nat, invisible: bool, needDraw: bool)

  const BLINK_LIMIT: nat := 60

  /** One call, from the vertical-blank handler: the `u8` timer is
      incremented (wrapping at 256) and, once above 60, reset to 0 while the
      colon toggles and a redraw is requested. */
  function BlinkStep(b: Blink): (r: Blink)
    ensures r.timer < 256
    ensures r.invisible != b.invisible <==> (b.timer + 1) % 256 > BLINK_LIMIT
    ensures r.invisible != b.invisible ==> r.timer == 0 && r.needDraw
    ensures r.invisible == b.invisible ==> r.needDraw == b.needDraw && r.timer == (b.timer + 1) % 256
  {
    var t := (b.timer + 1) % 256;
    if t > BLINK_LIMIT then Blink(0, !b.invisible, true) else b.(timer := t)
  }

  function BlinkRun(b: Blink, n: nat): Blink
    decreases n
  {
    if n == 0 then b else BlinkRun(BlinkStep(b), n - 1)
  }

  /** Below the limit, each call only counts. */
  lemma {:induction false} BlinkCounts(b: Blink, n: nat)
    requires b.timer + n <= BLINK_LIMIT
    ensures BlinkRun(b, n) == b.(timer := b.timer + n)
    decreases n
  {
    if n > 0 {
      BlinkCounts(b.(timer := b.timer + 1), n - 1);
    }
  }

  /** From a reset timer the colon toggles every 61 calls and not before. */
  lemma BlinkPeriod(b: Blink, n: nat)
    requires b.timer == 0 && 0 < n <= BLINK_LIMIT + 1
    ensures BlinkRun(b, n).invisible == b.invisible <==> n <= BLINK_LIMIT
    ensures n == BLINK_LIMIT + 1 ==> BlinkRun(b, n) == Blink(0, !b.invisible, true)
  {
    BlinkCounts(b, n - 1);
    BlinkRunSplit(b, n - 1, 1);
    var w := b.(timer := n - 1);
    BlinkRunOne(w);
    ByteSmall(n);
  }

  lemma BlinkRunOne(b: Blink)
    ensures BlinkRun(b, 1) == BlinkStep(b)
  {
  }

  lemma ByteSmall(x: nat)
    requires x < 256
    ensures x % 256 == x
  {
  }

  lemma {:induction false} BlinkRunSplit(b: Blink, x: nat, y: nat)
    ensures BlinkRun(b, x + y) == BlinkRun(BlinkRun(b, x), y)
    decreases x
  {
    if x > 0 {
      BlinkRunSplit(BlinkStep(b), x - 1, y);
    }
  }
}
