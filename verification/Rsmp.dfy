/** The polyphase resampler (src/core/aud/rsmp.c) over any table its generator accepts
    (src/core/aud/rsmp.py). */
module Rsmp {
  const TAPS := 24
  const PHASES := 128
  const Q := 0x20000         // rows sum to 1 << 17
  const ONE := 0x1_0000_0000 // a whole interval, Q32

  type Row = s: seq<int> | |s| == 24 witness [0, 0, 0, 0, 0, 0, 0, 0, 0, 0, 0, 0, 0, 0, 0, 0, 0, 0, 0, 0, 0, 0, 0, 0]

  /** 129 rows: between row p and row p + 1 lies a 128th of an interval. */
  predicate TableOk(coef: seq<Row>) {
    |coef| == PHASES + 1 && forall p :: 0 <= p <= PHASES ==> Sum(coef[p]) == Q
  }

  function Sum(c: seq<int>): int {
    if c == [] then 0 else Sum(c[..|c| - 1]) + c[|c| - 1]
  }

  /** The first n products of two rows, summed. */
  function Dot(c: Row, h: Row, n: nat): int
    requires n <= TAPS
  {
    if n == 0 then 0 else Dot(c, h, n - 1) + c[n - 1] * h[n - 1]
  }

  /** Two neighbouring rows' sums blended by f of 65536, and the Q17 rounded away. */
  function Blend(a: int, b: int, f: int): int { (a + (b - a) * f / 0x10000 + Q / 2) / Q }

  /** The output at position mu of the interval between the two middle samples of h. */
  function At(coef: seq<Row>, h: Row, mu: int): int
    requires |coef| == PHASES + 1 && 0 <= mu < ONE
  {
    var p := mu / 0x2000000;
    Blend(Dot(coef[p], h, TAPS), Dot(coef[p + 1], h, TAPS), mu / 512 % 0x10000)
  }

  method RsmpAt(coef: seq<Row>, h: Row, mu: int) returns (y: int)
    requires |coef| == PHASES + 1 && 0 <= mu < ONE
    ensures y == At(coef, h, mu)
  {
    var p, f := mu / 0x2000000, mu / 512 % 0x10000;
    var a, b := 0, 0;
    for i := 0 to TAPS
      invariant a == Dot(coef[p], h, i) && b == Dot(coef[p + 1], h, i)
    {
      a := a + coef[p][i] * h[i];
      b := b + coef[p + 1][i] * h[i];
    }
    y := Blend(a, b, f);
  }

  // ---------------- a constant comes out unchanged ----------------

  predicate Constant(h: seq<int>, x: int) { forall i :: 0 <= i < |h| ==> h[i] == x }

  lemma {:induction false} DotConstant(c: Row, h: Row, x: int, n: nat)
    requires n <= TAPS && Constant(h, x)
    ensures Dot(c, h, n) == x * Sum(c[..n])
  {
    if n > 0 {
      DotConstant(c, h, x, n - 1);
      assert c[..n][..n - 1] == c[..n - 1];
      calc {
        x * Sum(c[..n]);
        x * (Sum(c[..n - 1]) + c[n - 1]);
        x * Sum(c[..n - 1]) + x * c[n - 1];
      }
    }
  }

  /** At every phase, through any accepted table. */
  lemma ConstantUnchanged(coef: seq<Row>, h: Row, x: int, mu: int)
    requires TableOk(coef) && 0 <= mu < ONE && Constant(h, x)
    ensures At(coef, h, mu) == x
  {
    var p := mu / 0x2000000;
    DotConstant(coef[p], h, x, TAPS);
    DotConstant(coef[p + 1], h, x, TAPS);
    assert coef[p][..TAPS] == coef[p] && coef[p + 1][..TAPS] == coef[p + 1];
    var f := mu / 512 % 0x10000;
    assert Dot(coef[p], h, TAPS) == x * Q == Dot(coef[p + 1], h, TAPS);
    assert 0 * f / 0x10000 == 0;
    assert (x * Q + Q / 2) / Q == x;
  }

  /** Row p of the table weighs the history's samples one by one, oldest first. */
  lemma {:induction false} DotImpulse(c: Row, h: Row, k: nat, x: int, n: nat)
    requires k < 24 && n <= 24 && forall i :: 0 <= i < 24 ==> h[i] == if i == k then x else 0
    ensures Dot(c, h, n) == if k < n then c[k] * x else 0
  {
    if n > 0 {
      DotImpulse(c, h, k, x, n - 1);
    }
  }

  /** A lone sample comes out weighed by its own column of the two rows, blended by the 16 bits below the
      row's. */
  lemma ImpulseHeard(coef: seq<Row>, h: Row, k: nat, x: int, p: nat, f: nat)
    requires |coef| == 129 && k < 24 && p < 128 && f < 0x10000
    requires forall i :: 0 <= i < 24 ==> h[i] == if i == k then x else 0
    ensures var a, b := coef[p][k] * x, coef[p + 1][k] * x;
      At(coef, h, 0x200_0000 * p + 512 * f) == (a + (b - a) * f / 0x10000 + 0x10000) / 0x20000
  {
    var mu := 0x200_0000 * p + 512 * f;
    assert mu / 0x200_0000 == p && mu / 512 % 0x10000 == f by { PlaceOf(p, f); }
    DotImpulse(coef[p], h, k, x, 24);
    DotImpulse(coef[p + 1], h, k, x, 24);
    BlendIs(coef[p][k] * x, coef[p + 1][k] * x, f);
    hide Dot, Blend;
  }

  lemma PlaceOf(p: nat, f: nat)
    requires f < 0x10000
    ensures (0x200_0000 * p + 512 * f) / 0x200_0000 == p && (0x200_0000 * p + 512 * f) / 512 % 0x10000 == f
  {
    assert (0x200_0000 * p + 512 * f) / 512 == 0x10000 * p + f;
  }

  lemma BlendIs(a: int, b: int, f: int)
    ensures Blend(a, b, f) == (a + (b - a) * f / 0x10000 + 0x10000) / 0x20000
  {
  }

  // ---------------- how many come out ----------------

  /** The outputs of one push: while the phase is in the interval, at most max of them. */
  function Outputs(phase: int, step: int, max: nat): (n: nat)
    ensures n <= max
    decreases max
  {
    if phase >= ONE || max == 0 then 0 else 1 + Outputs(phase + step, step, max - 1)
  }

  /** Where the phase is once n outputs are out. */
  function Place(phase: int, step: int, n: int): int { phase + n * step }

  lemma NextPlace(phase: int, step: int, n: int)
    ensures Place(phase, step, 0) == phase && Place(phase, step, n + 1) == Place(phase, step, n) + step
  {
  }

  /** The phase once n outputs are out and the interval has moved on. */
  function PhaseNext(phase: int, step: int, n: nat): int {
    var x := Place(phase, step, n);
    if x >= ONE then x - ONE else x
  }

  class Resampler {
    const coef: seq<Row>
    var hist: seq<int>
    var phase: int
    var primed: bool

    ghost predicate Valid()
      reads this
    {
      |coef| == PHASES + 1 && |hist| == TAPS && 0 <= phase
    }

    constructor (table: seq<Row>)
      requires |table| == PHASES + 1
      ensures Valid() && coef == table && phase == 0 && !primed
    {
      coef, hist, phase, primed := table, seq(TAPS, _ => 0), 0, false;
    }

    /** The history once x has come in: flat at a first sample, shifted by one after it. */
    ghost function Heard(x: int): (h: Row)
      requires Valid()
      reads this
    {
      if primed then hist[1..] + [x] else seq(TAPS, _ => x)
    }

    /** One input sample, and every output whose place comes before the next one's. */
    method Push(x: int, step: int, max: nat) returns (out: seq<int>)
      requires Valid() && step > 0
      modifies this`hist, this`phase, this`primed
      ensures Valid() && primed && hist == old(Heard(x))
      ensures |out| == Outputs(old(phase), step, max) && phase == PhaseNext(old(phase), step, |out|)
      ensures forall k :: 0 <= k < |out| ==>
        0 <= Place(old(phase), step, k) < ONE && out[k] == At(coef, hist, Place(old(phase), step, k))
    {
      hide Place, At;
      if !primed {
        hist, primed := seq(TAPS, _ => x), true;
      } else {
        hist := hist[1..] + [x];
      }
      ghost var was := phase;
      NextPlace(was, step, 0);
      out := [];
      while phase < ONE && |out| < max
        modifies this`phase
        invariant 0 <= phase == Place(was, step, |out|) && |out| <= max
        invariant |out| + Outputs(phase, step, max - |out|) == Outputs(was, step, max)
        invariant forall k :: 0 <= k < |out| ==>
          0 <= Place(was, step, k) < ONE && out[k] == At(coef, hist, Place(was, step, k))
        decreases max - |out|
      {
        NextPlace(was, step, |out|);
        var y := RsmpAt(coef, hist, phase);
        out := out + [y];
        phase := phase + step;
      }
      if phase >= ONE {
        phase := phase - ONE;
      }
    }
  }

  /** The count and the phase of a run of pushes. */
  function RunOutputs(phase: int, step: int, max: nat, pushes: nat): nat {
    if pushes == 0 then 0
    else
      var n := RunOutputs(phase, step, max, pushes - 1);
      n + Outputs(RunPhase(phase, step, max, pushes - 1), step, max)
  }

  function RunPhase(phase: int, step: int, max: nat, pushes: nat): int {
    if pushes == 0 then phase
    else
      var x := RunPhase(phase, step, max, pushes - 1);
      PhaseNext(x, step, Outputs(x, step, max))
  }

  /** With room for all, a push brings out what it takes to pass the interval. */
  lemma {:induction false} OutputsReach(phase: int, step: int, max: nat)
    requires step > 0 && 0 <= phase && phase + max * step >= ONE
    ensures var n := Outputs(phase, step, max);
      && phase + n * step >= ONE
      && (n > 0 ==> phase + (n - 1) * step < ONE) && (phase >= ONE ==> n == 0)
    decreases max
  {
    if phase < ONE && max > 0 {
      assert phase + max * step == (phase + step) + (max - 1) * step;
      OutputsReach(phase + step, step, max - 1);
      var n := Outputs(phase + step, step, max - 1);
      assert phase + (n + 1) * step == (phase + step) + n * step;
      if n > 0 {
        assert phase + n * step == (phase + step) + (n - 1) * step;
      }
    }
  }

  /** Steps of an eighth and up, and room for eight: n pushes make as many outputs as there are steps
      that start inside n intervals, and the phase is what is left over. */
  lemma {:induction false} OutputCount(step: int, max: nat, pushes: nat)
    requires step >= ONE / 8 && max >= 8
    ensures var n := RunOutputs(0, step, max, pushes);
      && RunPhase(0, step, max, pushes) == n * step - pushes * ONE
      && n == (pushes * ONE + step - 1) / step
  {
    if pushes > 0 {
      OutputCount(step, max, pushes - 1);
      var n0, x := RunOutputs(0, step, max, pushes - 1), RunPhase(0, step, max, pushes - 1);
      CeilBounds((pushes - 1) * ONE, step);
      RoomForAll(step, max);
      OutputsReach(x, step, max);
      PushCount(n0, x, step, Outputs(x, step, max), pushes);
    } else {
      assert (step - 1) / step == 0;
    }
  }

  lemma RoomForAll(step: int, max: nat)
    requires step >= ONE / 8 && max >= 8
    ensures max * step >= ONE
  {
    assert (max - 8) * step >= 0;
    assert max * step == (max - 8) * step + 8 * step;
  }

  /** One more push keeps the count. */
  lemma PushCount(n0: nat, x: int, step: int, k: nat, pushes: nat)
    requires pushes > 0 && step > 0 && 0 <= x < step && x == n0 * step - (pushes - 1) * ONE
    requires x + k * step >= ONE && (k > 0 ==> x + (k - 1) * step < ONE)
    ensures PhaseNext(x, step, k) == (n0 + k) * step - pushes * ONE
    ensures n0 + k == (pushes * ONE + step - 1) / step
  {
    assert (n0 + k) * step == n0 * step + k * step;
    assert (k - 1) * step == k * step - step;
    CeilUnique(pushes * ONE, step, n0 + k);
  }

  lemma CeilBounds(a: int, s: int)
    requires s > 0
    ensures var n := (a + s - 1) / s; a <= n * s < a + s
  {
    var n := (a + s - 1) / s;
    assert a + s - 1 == n * s + (a + s - 1) % s;
  }

  lemma Apart(n: int, k: int, s: int)
    requires s > 0 && n > k
    ensures n * s >= k * s + s
  {
    var d := n - k - 1;
    assert d * s >= 0;
    assert n * s == (k + 1 + d) * s == k * s + s + d * s;
  }

  lemma CeilUnique(a: int, s: int, n: int)
    requires s > 0 && a <= n * s < a + s
    ensures n == (a + s - 1) / s
  {
    var k := (a + s - 1) / s;
    CeilBounds(a, s);
    if n > k { Apart(n, k, s); }
    if n < k { Apart(k, n, s); }
  }
}
