/** Keyframe segment selection: a coefficient in [0, 1] over `frames` keyframes picks
    the pair of neighbouring frames to blend and the blend weight between them. */
module CombinedAnimation {

  /** `Math.min(Math.max(...))` as written: `max(min(i, high), low)`. */
  function Clamp(i: real, low: real, high: real): (r: real)
    requires low <= high
    ensures low <= r <= high
    ensures i < low ==> r == low
    ensures i > high ==> r == high
    ensures low <= i <= high ==> r == i
  {
    var m := if i < high then i else high;
    if m > low then m else low
  }

  /** `Math.trunc`: rounds toward zero. */
  function Trunc(x: real): int
  {
    if x >= 0.0 then x.Floor else -((-x).Floor)
  }

  /** The coefficient `animate` works with: its argument clamped to [0, 1]. */
  function Clamped(coeff: real): real
  {
    Clamp(coeff, 0.0, 1.0)
  }

  /** `c * k` for an integer count `k`, unfolded as repeated addition so that the
      properties below are proved by linear reasoning; ScaleIsProduct ties it to the
      product `animate` computes. */
  function Scale(c: real, k: int): real
    decreases if k < 0 then -k else k
  {
    if k == 0 then 0.0 else if k > 0 then Scale(c, k - 1) + c else Scale(c, k + 1) - c
  }

  /** The start `animate` derives from the scaled coefficient `x`: truncated, and
      pulled back by one when it lands on the last frame. */
  function ChosenStart(x: real, frames: int): int
  {
    var s := Trunc(x);
    if s == frames - 1 then frames - 2 else s
  }

  /** `start` after `animate` with clamped coefficient `c`. */
  function SegmentStart(frames: int, c: real): int
  {
    ChosenStart(Scale(c, frames - 1), frames)
  }

  /** `currentCoeff` after `animate` with clamped coefficient `c`. */
  function SegmentWeight(frames: int, c: real): real
  {
    Scale(c, frames - 1) - SegmentStart(frames, c) as real
  }

  class CombinedAnimation {
    const frames: int
    var start: int
    var end: int
    var currentCoeff: real

    constructor(frames: int)
      ensures this.frames == frames
      ensures start == 0 && end == 0 && currentCoeff == 0.0
    {
      this.frames := frames;
      start, end, currentCoeff := 0, 0, 0.0;
    }

    function GetStart(): (r: int)
      reads this
      ensures r == start
    {
      start
    }

    function GetEnd(): (r: int)
      reads this
      ensures r == end
    {
      end
    }

    /** The frame count given to the constructor; `frames` never changes. */
    function GetFramesCount(): (r: int)
      ensures r == frames
    {
      frames
    }

    function GetCurrentCoeff(): (r: real)
      reads this
      ensures r == currentCoeff
    {
      currentCoeff
    }

    /** `animate(coeff)`: the new state depends on `frames` and `coeff` only, so
        repeating a call leaves the state as it is. */
    method Animate(coeff: real)
      modifies this
      ensures start == SegmentStart(frames, Clamped(coeff))
      ensures end == start + 1
      ensures currentCoeff == SegmentWeight(frames, Clamped(coeff))
    {
      var clampedCoeff := Clamp(coeff, 0.0, 1.0);
      assert clampedCoeff == Clamped(coeff);
      var position := clampedCoeff * (frames - 1) as real;
      ScaleIsProduct(clampedCoeff, frames - 1);
      assert position == Scale(clampedCoeff, frames - 1);
      start := Trunc(position);
      if start == frames - 1 {
        start := frames - 2;
      }
      assert start == SegmentStart(frames, clampedCoeff);
      end := start + 1;
      currentCoeff := position - start as real;
    }
  }

  lemma {:induction false} ScaleIsProduct(c: real, k: int)
    ensures Scale(c, k) == c * k as real
    decreases if k < 0 then -k else k
  {
    if k > 0 {
      ScaleIsProduct(c, k - 1);
    } else if k < 0 {
      ScaleIsProduct(c, k + 1);
    }
  }

  /** A coefficient in [0, 1] scales k into [0, k], and below 1 strictly under k. */
  lemma {:induction false} ScaleBounds(c: real, k: nat)
    requires 0.0 <= c <= 1.0
    ensures 0.0 <= Scale(c, k) <= k as real
    ensures c < 1.0 && k > 0 ==> Scale(c, k) < k as real
  {
    if k > 0 {
      ScaleBounds(c, k - 1);
    }
  }

  /** Scaling keeps the order of coefficients. */
  lemma {:induction false} ScaleMonotone(a: real, b: real, k: nat)
    requires a <= b
    ensures Scale(a, k) <= Scale(b, k)
  {
    if k > 0 {
      ScaleMonotone(a, b, k - 1);
    }
  }

  lemma {:induction false} ScaleOne(k: nat)
    ensures Scale(1.0, k) == k as real
  {
    if k > 0 {
      ScaleOne(k - 1);
    }
  }

  /** Coefficient 0 gives position 0. */
  lemma {:induction false} ScaleZero(k: nat)
    ensures Scale(0.0, k) == 0.0
  {
    if k > 0 {
      ScaleZero(k - 1);
    }
  }

  lemma FloorMonotone(x: real, y: real)
    requires x <= y
    ensures x.Floor <= y.Floor
  {
    assert x.Floor as real <= x;
  }

  /** Truncation toward zero keeps order. */
  lemma TruncMonotone(x: real, y: real)
    requires x <= y
    ensures Trunc(x) <= Trunc(y)
  {
    FloorMonotone(x, y);
    FloorMonotone(-y, -x);
  }

  /** With two frames or more the segment starts in [0, frames - 2] and its
      weight lies in [0, 1]. */
  lemma SegmentInRange(frames: int, c: real)
    requires frames >= 2 && 0.0 <= c <= 1.0
    ensures 0 <= SegmentStart(frames, c) <= frames - 2
    ensures 0.0 <= SegmentWeight(frames, c) <= 1.0
  {
    var x := Scale(c, frames - 1);
    ScaleBounds(c, frames - 1);
    assert Trunc(x) == x.Floor;
    FloorMonotone(x, (frames - 1) as real);
  }

  /** Below the top of the range the weight stays strictly under 1 ... */
  lemma WeightBelowOne(frames: int, c: real)
    requires frames >= 2 && 0.0 <= c < 1.0
    ensures 0.0 <= SegmentWeight(frames, c) < 1.0
  {
    var x := Scale(c, frames - 1);
    ScaleBounds(c, frames - 1);
    assert Trunc(x) == x.Floor;
    assert x.Floor < frames - 1;
  }

  /** ... and at the top the start is pulled back to frames - 2, so the weight is 1. */
  lemma TopOfRange(frames: int)
    requires frames >= 2
    ensures SegmentStart(frames, 1.0) == frames - 2
    ensures SegmentWeight(frames, 1.0) == 1.0
  {
    ScaleOne(frames - 1);
    assert Trunc((frames - 1) as real) == frames - 1;
  }

  /** A coefficient of 0 selects the segment from frame 0 to frame 1, with weight 0. */
  lemma BottomOfRange(frames: int)
    requires frames >= 2
    ensures SegmentStart(frames, 0.0) == 0
    ensures SegmentWeight(frames, 0.0) == 0.0
  {
    ScaleZero(frames - 1);
  }

  /** The start chosen from the scaled coefficient grows with it, up to the last frame. */
  lemma ChosenStartMonotone(x: real, y: real, frames: int)
    requires x <= y <= (frames - 1) as real
    ensures ChosenStart(x, frames) <= ChosenStart(y, frames)
  {
    TruncMonotone(x, y);
    TruncMonotone(y, (frames - 1) as real);
  }

  /** Clamping keeps the order of coefficients. */
  lemma ClampedMonotone(c1: real, c2: real)
    requires c1 <= c2
    ensures Clamped(c1) <= Clamped(c2)
  {
  }

  /** A larger (clamped) coefficient never moves the segment back. */
  lemma StartMonotone(frames: int, a: real, b: real)
    requires 0.0 <= a <= b <= 1.0 && frames >= 1
    ensures SegmentStart(frames, a) <= SegmentStart(frames, b)
  {
    ScaleMonotone(a, b, frames - 1);
    ScaleBounds(b, frames - 1);
    ChosenStartMonotone(Scale(a, frames - 1), Scale(b, frames - 1), frames);
  }

  /** One frame is not guarded against: the segment runs from frame -1 to frame 0
      with weight 1, whatever the coefficient. */
  lemma SingleFrame(c: real)
    ensures SegmentStart(1, c) == -1
    ensures SegmentWeight(1, c) == 1.0
  {
  }
}
