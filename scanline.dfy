/** The per-scanline table that warps the trainer card while it flips.
    For a fold position f the table holds one BG0 vertical offset per display
    line: a ramp `-i` above the fold, a band of 160 - 2f lines whose offsets
    follow a 16.16 fixed-point accumulator with a linearly changing velocity,
    and a constant tail below the band. */
module Scanline {
  import opened FixedPoint

  /** Number of display lines the table covers. */
  const ROWS: int := 160
  /** 160 in 16.16 fixed point. */
  const SCREEN_FIXED: int := 0xA00000
  /** `-1.0` in 16.16 fixed point, as the `u32` constant the code adds. */
  const MINUS_ONE_FIXED: int := 0xFFFF0000

  /** Folding down (closing) shrinks the band velocity; folding up grows it. */
  datatype Direction = Down | Up

  /** Lines between the two fold edges (`r4`). */
  function BandHeight(f: nat): (r: nat)
    requires f < 80
    ensures 0 < r <= ROWS
  {
    ROWS - 2 * f
  }

  /** `-r7 << 16`: the accumulator's start, -f in 16.16, as a `u32`. */
  function StartAccum(f: nat): nat
  {
    U32(U32(-(f as int)) * TWO16)
  }

  /** `r5` before the direction adjusts it: 160 / height - 1, in 16.16. */
  function BaseVelocity(f: nat): nat
    requires f < 80
  {
    U32(SCREEN_FIXED / BandHeight(f) + MINUS_ONE_FIXED)
  }

  /** `r10`: the per-line change of the velocity. */
  function VelocityStep(f: nat): nat
    requires f < 80
  {
    BaseVelocity(f) / BandHeight(f)
  }

  /** `var_24`: the accumulator value whose integer part fills the tail. */
  function TailAccum(f: nat): nat
    requires f < 80
  {
    U32(StartAccum(f) + U32(BaseVelocity(f) * BandHeight(f)))
  }

  /** The velocity on the band's first line: doubled when folding down,
      halved when folding up. */
  function InitialVelocity(f: nat, dir: Direction): nat
    requires f < 80
  {
    match dir
    case Down => U32(BaseVelocity(f) * 2)
    case Up => BaseVelocity(f) / 2
  }

  /** The per-line change of the velocity, signed by direction. */
  function Curvature(f: nat, dir: Direction): int
    requires f < 80
  {
    if dir == Down then -(VelocityStep(f) as int) else VelocityStep(f)
  }

  /** A quantity that starts at v0 and changes by w per line, after k lines. */
  function Ramp(v0: int, w: int, k: nat): int
  {
    if k == 0 then v0 else Ramp(v0, w, k - 1) + w
  }

  /** A running sum that starts at s and adds the ramp's value on each line. */
  function RampSum(s: int, v0: int, w: int, k: nat): int
  {
    if k == 0 then s else RampSum(s, v0, w, k - 1) + Ramp(v0, w, k - 1)
  }

  /** The exact (unwrapped) velocity on band line k. */
  function Velocity(f: nat, dir: Direction, k: nat): int
    requires f < 80
  {
    Ramp(InitialVelocity(f, dir), Curvature(f, dir), k)
  }

  /** The exact (unwrapped) accumulator on band line k. */
  function Accum(f: nat, dir: Direction, k: nat): int
    requires f < 80
  {
    RampSum(StartAccum(f), InitialVelocity(f, dir), Curvature(f, dir), k)
  }

  /** The value the tail lines hold. */
  function TailValue(f: nat): nat
    requires f < 80
  {
    U16(Shr16(TailAccum(f)))
  }

  /** Line i of the table for fold position f, as a `u16`. */
  function Entry(f: nat, dir: Direction, i: nat): (r: int)
    requires f < 80
    ensures 0 <= r < TWO16
    ensures i == 0 ==> r == 0
    ensures 0 < i < f ==> r == TWO16 - i
  {
    if i < f then
      if i == 0 then U16(0) else U16Negative(-(i as int)); U16(-(i as int))
    else if i < ROWS - f then U16(Shr16(U32(Accum(f, dir, i - f))))
    else TailValue(f)
  }

  /** The whole table, lines 0 to 159. */
  function Table(f: nat, dir: Direction): (t: seq<int>)
    requires f < 80
    ensures |t| == ROWS
  {
    seq(ROWS, i requires 0 <= i < ROWS => Entry(f, dir, i))
  }

  // ---------------------------------------------------------------------
  // Properties of the table

  /** The `u32` start value is the two's complement of f in 16.16. */
  lemma StartAccumValue(f: nat)
    requires 0 < f < 80
    ensures StartAccum(f) == TWO32 - f * TWO16
  {
    MulWrapped(-(f as int), TWO16);
  }

  /** Adding `0xFFFF0000` never really wraps: the base velocity is the
      quotient minus 1.0, and is small and non-negative. */
  lemma BaseVelocityValue(f: nat)
    requires f < 80
    ensures BaseVelocity(f) == SCREEN_FIXED / BandHeight(f) - TWO16
    ensures BaseVelocity(f) * BandHeight(f) <= 2 * f * TWO16
    ensures BaseVelocity(f) * BandHeight(f) > 2 * f * TWO16 - BandHeight(f)
  {
    var d := BandHeight(f);
    var q := SCREEN_FIXED / d;
    assert q * d + SCREEN_FIXED % d == SCREEN_FIXED;
    assert TWO16 * d <= SCREEN_FIXED;
    DivLowerBound(SCREEN_FIXED, d, TWO16);
    assert q <= SCREEN_FIXED;
    Distrib(d, q, -TWO16);
  }

  /** At rest (f = 0) every line's offset is 0: the card is flat. */
  lemma TableAtRest(dir: Direction)
    ensures Table(0, dir) == seq(ROWS, i => 0)
  {
    BaseVelocityValue(0);
    assert BaseVelocity(0) == 0;
    assert VelocityStep(0) == 0 && InitialVelocity(0, dir) == 0;
    assert StartAccum(0) == 0;
    forall i | 0 <= i < ROWS
      ensures Table(0, dir)[i] == 0
    {
      RampSumClosedForm(0, 0, 0, i);
      BandEntry(0, dir, i);
    }
  }

  /** A line above the fold holds -i as a `u16`. */
  lemma RampEntry(f: nat, dir: Direction, i: nat)
    requires i < f < 80
    ensures Table(f, dir)[i] == U16(-(i as int))
  {
  }

  /** Band line k of the table is the integer part of the wrapped accumulator. */
  lemma BandEntry(f: nat, dir: Direction, k: nat)
    requires f < 80 && f + k < ROWS - f
    ensures Table(f, dir)[f + k] == U16(Shr16(U32(Accum(f, dir, k))))
  {
  }

  /** A negative value above -2^16 is stored as its two's complement. */
  lemma U16Negative(x: int)
    requires -TWO16 <= x < 0
    ensures U16(x) == x + TWO16
  {
  }

  /** The first band line holds the integer part of the start value, -f. */
  lemma FirstBandLine(f: nat, dir: Direction)
    requires 0 < f < 80
    ensures Table(f, dir)[f] == TWO16 - f
  {
    BandEntry(f, dir, 0);
    AccumAtStart(f, dir);
    StartLine(f);
  }

  lemma AccumAtStart(f: nat, dir: Direction)
    requires f < 80
    ensures Accum(f, dir, 0) == StartAccum(f)
  {
  }

  /** The integer part of the start value is -f as a `u16`. */
  lemma StartLine(f: nat)
    requires 0 < f < 80
    ensures U16(Shr16(U32(StartAccum(f)))) == TWO16 - f
  {
    StartAccumValue(f);
  }

  /** Stepping one further down a `u16` ramp that has reached 1 - f gives -f. */
  lemma RampContinues(f: nat)
    requires 0 < f < 80
    ensures U16(-(f as int)) == TWO16 - f == U16(U16(1 - f) - 1)
  {
    U16Negative(-(f as int));
    if f > 1 {
      U16Negative(1 - f);
    }
  }

  /** The band's first line continues the ramp: line f holds -f as a `u16`,
      one less than line f - 1. */
  lemma BandStartsOnRamp(f: nat, dir: Direction)
    requires 0 < f < 80
    ensures Table(f, dir)[f - 1] == U16(1 - f)
    ensures Table(f, dir)[f] == U16(-(f as int)) == TWO16 - f
    ensures Table(f, dir)[f] == U16(Table(f, dir)[f - 1] - 1)
  {
    RampEntry(f, dir, f - 1);
    FirstBandLine(f, dir);
    RampContinues(f);
  }

  lemma ShiftRange(x: int, f: nat)
    requires f >= 1 && (f - 1) * TWO16 < x <= f * TWO16 && f * TWO16 < TWO32
    ensures U32(x) == x && f - 1 <= U16(Shr16(x)) <= f
  {
  }

  /** The tail lies at the fold depth: its value is f or f - 1. */
  lemma TailNearFold(f: nat)
    requires f < 80
    ensures f == 0 ==> TailValue(f) == 0
    ensures f > 0 ==> f - 1 <= TailValue(f) <= f
  {
    BaseVelocityValue(f);
    var p := BaseVelocity(f) * BandHeight(f);
    assert 0 <= p <= 2 * f * TWO16;
    assert U32(p) == p;
    if f == 0 {
      assert StartAccum(0) == 0;
    } else {
      var s := StartAccum(f);
      StartAccumValue(f);
      var x := p - f * TWO16;
      assert s + p == x + TWO32;
      U32Shift(x, 1);
      assert TailAccum(f) == U32(x);
      ShiftRange(x, f);
    }
  }

  /** A ramp is linear in the line number. */
  lemma {:induction false} RampClosedForm(v0: int, w: int, k: nat)
    ensures Ramp(v0, w, k) == v0 + w * k
  {
    if k > 0 {
      RampClosedForm(v0, w, k - 1);
      Distrib(w, k - 1, 1);
    }
  }

  /** Its running sum is quadratic: s + k * v0 + w * Tri(k). */
  lemma {:induction false} RampSumClosedForm(s: int, v0: int, w: int, k: nat)
    ensures RampSum(s, v0, w, k) == s + k * v0 + w * Tri(k)
  {
    if k > 0 {
      RampSumClosedForm(s, v0, w, k - 1);
      RampClosedForm(v0, w, k - 1);
      Distrib(v0, k - 1, 1);
      Distrib(w, Tri(k - 1), k - 1);
    }
  }

  /** The band is a quadratic in the line number: start + k * v0 + w * Tri(k),
      where v0 is the initial velocity and w the signed curvature. */
  lemma AccumClosedForm(f: nat, dir: Direction, k: nat)
    requires f < 80
    ensures Velocity(f, dir, k) == InitialVelocity(f, dir) + Curvature(f, dir) * k
    ensures Accum(f, dir, k)
            == StartAccum(f) + k * InitialVelocity(f, dir) + Curvature(f, dir) * Tri(k)
  {
    RampClosedForm(InitialVelocity(f, dir), Curvature(f, dir), k);
    RampSumClosedForm(StartAccum(f), InitialVelocity(f, dir), Curvature(f, dir), k);
  }

  /** Its second difference is the curvature: negative while folding down
      (the velocity shrinks), positive while folding up (it grows). */
  lemma SecondDifference(f: nat, dir: Direction, k: nat)
    requires f < 80
    ensures Accum(f, dir, k + 2) - 2 * Accum(f, dir, k + 1) + Accum(f, dir, k) == Curvature(f, dir)
    ensures dir == Down ==> Curvature(f, dir) <= 0
    ensures dir == Up ==> Curvature(f, dir) >= 0
  {
  }

  /** The doubled starting velocity of a fold-down does not wrap. */
  lemma InitialVelocityValue(f: nat, dir: Direction)
    requires f < 80
    ensures dir == Down ==> InitialVelocity(f, dir) == 2 * BaseVelocity(f)
    ensures dir == Up ==> InitialVelocity(f, dir) == BaseVelocity(f) / 2
  {
    BaseVelocityValue(f);
  }

  /** Fewer than d steps of c = b / d take away no more than b. */
  lemma StepsWithinBase(b: nat, d: nat, k: nat)
    requires 0 < d && k < d
    ensures (b / d) * k <= b
  {
    MulMonotone(k, d, b / d);
    assert (b / d) * d + b % d == b;
  }

  /** Across the band the exact accumulator never moves backwards, in both
      directions: the folding card never turns back on itself. */
  lemma BandNonDecreasing(f: nat, dir: Direction, k: nat)
    requires f < 80 && k < BandHeight(f)
    ensures Accum(f, dir, k) <= Accum(f, dir, k + 1)
  {
    VelocityNonNegative(f, dir, k);
    assert Accum(f, dir, k + 1) == Accum(f, dir, k) + Velocity(f, dir, k);
  }

  /** Within the band the velocity stays non-negative: folding down it
      starts at twice the base and loses less than the base. */
  lemma VelocityNonNegative(f: nat, dir: Direction, k: nat)
    requires f < 80 && k < BandHeight(f)
    ensures Velocity(f, dir, k) >= 0
  {
    var step := VelocityStep(f);
    RampClosedForm(InitialVelocity(f, dir), Curvature(f, dir), k);
    MulMonotone(0, k, step);
    if dir == Down {
      InitialVelocityValue(f, dir);
      StepsWithinBase(BaseVelocity(f), BandHeight(f), k);
      assert Curvature(f, dir) * k == -(step * k);
    }
  }

  /** A line below the band holds the tail value. */
  lemma TailEntry(f: nat, dir: Direction, i: nat)
    requires f < 80 && ROWS - f <= i < ROWS
    ensures Table(f, dir)[i] == TailValue(f)
  {
  }

  /** The generator's registers on entering the band: the accumulator and
      the velocity hold the wrapped values of band line 0. */
  lemma BandStart(f: nat, dir: Direction)
    requires f < 80
    ensures U32(Accum(f, dir, 0)) == StartAccum(f)
    ensures U32(Velocity(f, dir, 0)) == InitialVelocity(f, dir)
  {
    AccumAtStart(f, dir);
    assert Velocity(f, dir, 0) == InitialVelocity(f, dir);
    U32Small(StartAccum(f));
    U32Small(InitialVelocity(f, dir));
  }

  /** One band line: the wrapped registers advance as the exact values do. */
  lemma BandStep(f: nat, dir: Direction, k: nat)
    requires f < 80
    ensures U32(U32(Accum(f, dir, k)) + U32(Velocity(f, dir, k))) == U32(Accum(f, dir, k + 1))
    ensures U32(U32(Velocity(f, dir, k)) + Curvature(f, dir)) == U32(Velocity(f, dir, k + 1))
  {
    AddBothWrapped(Accum(f, dir, k), Velocity(f, dir, k));
    AddWrapped(Velocity(f, dir, k), Curvature(f, dir));
  }

  /** Fill lines 0..159 of `buf` for fold position f, as the flip handlers
      do with 32-bit unsigned arithmetic; lines beyond 159 are untouched.
      The register set-up is here; the three loops, which share it, are
      the three methods below. */
  method FillFoldTable(buf: array<int>, f: nat, dir: Direction)
    requires f < 80 && buf.Length >= ROWS
    modifies buf
    ensures buf[..ROWS] == Table(f, dir)
    ensures forall j :: ROWS <= j < buf.Length ==> buf[j] == old(buf[j])
  {
    var r7: int := f;
    var r9 := ROWS - r7;
    var r4 := r9 - r7;
    assert r4 == BandHeight(f);
    var r6 := U32(U32(-r7) * TWO16);
    var r5 := SCREEN_FIXED / r4;
    r5 := U32(r5 + MINUS_ONE_FIXED);
    assert r5 == BaseVelocity(f);
    var var24 := r6;
    var24 := U32(var24 + U32(r5 * r4));
    var r10 := r5 / r4;
    assert r10 == VelocityStep(f);
    if dir == Down {
      r5 := U32(r5 * 2);
    } else {
      r5 := r5 / 2;
    }
    assert var24 == TailAccum(f);
    BandStart(f, dir);

    FillRamp(buf, f, dir);
    FillBand(buf, f, dir, r6, r5, r10);
    FillTail(buf, f, dir, var24);
  }

  /** The first loop: lines above the fold hold -i. */
  method FillRamp(buf: array<int>, f: nat, dir: Direction)
    requires f < 80 && buf.Length >= ROWS
    modifies buf
    ensures forall j :: 0 <= j < f ==> buf[j] == Table(f, dir)[j]
    ensures forall j :: f <= j < buf.Length ==> buf[j] == old(buf[j])
  {
    ghost var t := Table(f, dir);
    var i := 0;
    while i < f
      invariant 0 <= i <= f
      invariant forall j :: 0 <= j < i ==> buf[j] == t[j]
      invariant forall j :: i <= j < buf.Length ==> buf[j] == old(buf[j])
    {
      RampEntry(f, dir, i);
      buf[i] := U16(-i);
      i := i + 1;
    }
  }

  /** The second loop: the band lines, from the accumulator `r6`, the
      velocity `r5` and its step `r10`, all 32-bit. */
  method FillBand(buf: array<int>, f: nat, dir: Direction, r6: int, r5: int, r10: int)
    requires f < 80 && buf.Length >= ROWS
    requires r6 == U32(Accum(f, dir, 0)) && r5 == U32(Velocity(f, dir, 0))
    requires r10 == VelocityStep(f)
    requires forall j :: 0 <= j < f ==> buf[j] == Table(f, dir)[j]
    modifies buf
    ensures forall j :: 0 <= j < ROWS - f ==> buf[j] == Table(f, dir)[j]
    ensures forall j :: ROWS - f <= j < buf.Length ==> buf[j] == old(buf[j])
  {
    ghost var t := Table(f, dir);
    var acc, vel := r6, r5;
    var i := f;
    while i < ROWS - f
      invariant f <= i <= ROWS - f
      invariant acc == U32(Accum(f, dir, i - f))
      invariant vel == U32(Velocity(f, dir, i - f))
      invariant forall j :: 0 <= j < i ==> buf[j] == t[j]
      invariant forall j :: i <= j < buf.Length ==> buf[j] == old(buf[j])
    {
      BandEntry(f, dir, i - f);
      BandStep(f, dir, i - f);
      var v := Shr16(acc);
      acc := U32(acc + vel);
      if dir == Down {
        vel := U32(vel - r10);
      } else {
        vel := U32(vel + r10);
      }
      buf[i] := U16(v);
      i := i + 1;
    }
  }

  /** The third loop: lines below the band hold the top half of the
      accumulator's end value `var24`. */
  method FillTail(buf: array<int>, f: nat, dir: Direction, var24: int)
    requires f < 80 && buf.Length >= ROWS
    requires var24 == TailAccum(f)
    requires forall j :: 0 <= j < ROWS - f ==> buf[j] == Table(f, dir)[j]
    modifies buf
    ensures buf[..ROWS] == Table(f, dir)
    ensures forall j :: ROWS <= j < buf.Length ==> buf[j] == old(buf[j])
  {
    ghost var t := Table(f, dir);
    var v := Shr16(var24);
    var i := ROWS - f;
    while i < ROWS
      invariant ROWS - f <= i <= ROWS
      invariant forall j :: 0 <= j < i ==> buf[j] == t[j]
      invariant forall j :: i <= j < buf.Length ==> buf[j] == old(buf[j])
    {
      TailEntry(f, dir, i);
      buf[i] := U16(v);
      i := i + 1;
    }
  }
}
