/**
 The live stack (`agent/darkview_agent/capture/stack.py`): a running mean of aligned
 exposures. How a frame's background, noise and alignment are measured is given; what the
 stack does with them is modelled. Pixels are exact, and a picture is its rows end to end.
 */
module LiveStack {
  import opened Common
  import opened Stacks

  datatype Picture = Picture(height: nat, width: nat, pixels: seq<real>)

  predicate PictureOk(p: Picture) { |p.pixels| == p.height * p.width }

  predicate SameShape(p: Picture, q: Picture) { p.height == q.height && p.width == q.width }

  /** An exposure read from the camera: how it was taken, and what it shows. */
  datatype Exposure = Exposure(how: Frame, picture: Picture, mosaic: bool)

  datatype Rejection = OtherShape | Background | Shift

  function Size(x: int): int { if x >= 0 then x else -x }

  /** The even offset nearest zero. */
  function ToEven(offset: int): (r: int)
    ensures r % 2 == 0 && Size(r) <= Size(offset) < Size(r) + 2
  {
    if offset >= 0 then 2 * (offset / 2) else -(2 * (-offset / 2))
  }

  // ------------------------------------------------------------------
  // Sums of pictures
  // ------------------------------------------------------------------

  function SumAt(stacked: seq<Picture>, i: nat): real {
    if stacked == [] then 0.0
    else
      var last := stacked[|stacked| - 1];
      SumAt(stacked[..|stacked| - 1], i) + if i < |last.pixels| then last.pixels[i] else 0.0
  }

  lemma SumPush(stacked: seq<Picture>, p: Picture, i: nat)
    ensures SumAt(stacked + [p], i) == SumAt(stacked, i) + if i < |p.pixels| then p.pixels[i] else 0.0
  {
    assert (stacked + [p])[..|stacked|] == stacked;
  }

  predicate Sixteen(p: Picture) { forall i :: 0 <= i < |p.pixels| ==> 0.0 <= p.pixels[i] <= 65535.0 }

  lemma {:induction false} SumBounded(stacked: seq<Picture>, i: nat)
    requires forall p :: p in stacked ==> Sixteen(p)
    ensures 0.0 <= SumAt(stacked, i) <= 65535.0 * |stacked| as real
  {
    if stacked != [] {
      SumBounded(stacked[..|stacked| - 1], i);
      assert Sixteen(stacked[|stacked| - 1]);
    }
  }

  lemma MeanBounded(sum: real, n: nat)
    requires n > 0 && 0.0 <= sum <= 65535.0 * n as real
    ensures 0.0 <= sum / n as real <= 65535.0
  {
  }

  /** What `Aligned` may do with a picture: move it, within its own shape and range. */
  ghost predicate Aligns(shift: (Picture, int, int) -> Picture) {
    forall p, dy, dx :: PictureOk(p) ==>
      PictureOk(shift(p, dy, dx)) && SameShape(shift(p, dy, dx), p) && (Sixteen(p) ==> Sixteen(shift(p, dy, dx)))
  }

  class LiveStack {
    /** Background level and noise of a picture. */
    const measure: Picture -> (real, real)
    /** How far a picture lies from the reference. */
    const align: (Picture, Picture) -> (int, int)
    const shift: (Picture, int, int) -> Picture
    const maxShiftFraction: real
    const maxDriftSigma: real

    var reference: Option<Picture>
    var level: (real, real)
    var accumulator: seq<real>
    var count: nat
    var rejected: nat
    /** The pictures averaged, as aligned, and how each was taken. */
    ghost var stacked: seq<Picture>
    ghost var frames: seq<Frame>

    /** This stack as the runner knows it. */
    ghost function Known(): Stack
      reads this
    {
      Stack(frames, rejected)
    }

    ghost predicate Valid()
      reads this
    {
      && Aligns(shift)
      && count == |stacked| == |frames| && (reference.Some? <==> count > 0)
      && (reference.Some? ==>
            && PictureOk(reference.value) && |accumulator| == |reference.value.pixels|
            && level == measure(reference.value)
            && stacked[0] == reference.value
            && (forall p :: p in stacked ==> PictureOk(p) && SameShape(p, reference.value) && Sixteen(p))
            && forall i :: 0 <= i < |accumulator| ==> accumulator[i] == SumAt(stacked, i))
    }

    constructor (measure: Picture -> (real, real), align: (Picture, Picture) -> (int, int),
                 shift: (Picture, int, int) -> Picture, maxShiftFraction: real, maxDriftSigma: real)
      requires Aligns(shift)
      ensures Valid() && Known() == EMPTY_STACK
    {
      this.measure, this.align, this.shift := measure, align, shift;
      this.maxShiftFraction, this.maxDriftSigma := maxShiftFraction, maxDriftSigma;
      reference, level, accumulator, count, rejected, stacked, frames := None, (0.0, 0.0), [], 0, 0, [], [];
    }

    method Reset()
      requires Valid()
      modifies this
      ensures Valid() && count == 0 && stacked == [] && Known() == EMPTY_STACK
    {
      reference, accumulator, count, rejected, stacked, frames := None, [], 0, 0, [], [];
    }

    /** The first picture is the reference every later one is aligned to. */
    method Begin(p: Picture, ghost how: Frame)
      requires Valid() && count == 0 && PictureOk(p) && Sixteen(p)
      modifies this
      ensures Valid() && stacked == [p] && Known() == Stack([how], old(rejected))
    {
      forall i | 0 <= i < |p.pixels| ensures SumAt([p], i) == p.pixels[i] {
        SumPush([], p, i);
        assert [] + [p] == [p];
      }
      reference, level, accumulator, count, stacked, frames := Some(p), measure(p), p.pixels, 1, [p], [how];
    }

    /** The correction for a frame: even on a colour mosaic, so that no pixel lands on
        another colour. */
    function Correction(f: Exposure): (int, int)
      requires reference.Some?
      reads this
    {
      var (dy, dx) := align(reference.value, f.picture);
      if f.mosaic then (ToEven(dy), ToEven(dx)) else (dy, dx)
    }

    /** Why a frame of the right shape is refused, if it is. */
    function Refusal(f: Exposure): Option<Rejection>
      requires reference.Some?
      reads this
    {
      var drift := measure(f.picture).0 - level.0;
      var (dy, dx) := Correction(f);
      if level.1 > 0.0 && Abs(drift) > maxDriftSigma * level.1 then Some(Background)
      else if Size(dy) as real > reference.value.height as real * maxShiftFraction
           || Size(dx) as real > reference.value.width as real * maxShiftFraction then Some(Shift)
      else None
    }

    /** The stack is afterwards the old one and the picture as aligned, the old one alone, or
        the picture alone when its shape is new; to the runner, the same of its frames. */
    method Add(f: Exposure) returns (accepted: bool, why: Option<Rejection>)
      requires Valid() && PictureOk(f.picture) && Sixteen(f.picture)
      modifies this
      ensures Valid() && count >= 1
      ensures Known() == old(Known()).Add(f.how, if why == Some(OtherShape) then Reshaped else if accepted then Accepted else Refused)
      ensures old(reference.None?) ==> accepted && why.None? && stacked == [f.picture] && rejected == old(rejected)
      ensures old(reference.Some? && !SameShape(f.picture, reference.value)) ==>
                accepted && why == Some(OtherShape) && stacked == [f.picture] && rejected == 0
      ensures old(reference.Some? && SameShape(f.picture, reference.value)) ==>
                && why == old(Refusal(f)) && accepted == why.None?
                && stacked == old(stacked) + (if accepted then [shift(f.picture, old(Correction(f)).0, old(Correction(f)).1)] else [])
                && rejected == old(rejected) + (if accepted then 0 else 1)
    {
      if reference.None? {
        Begin(f.picture, f.how);
        return true, None;
      }
      if !SameShape(f.picture, reference.value) {
        Reset();
        Begin(f.picture, f.how);
        return true, Some(OtherShape);
      }
      why := Refusal(f);
      if why.Some? {
        rejected := rejected + 1;
        return false, why;
      }
      var (dy, dx) := Correction(f);
      Accumulate(shift(f.picture, dy, dx), f.how);
      return true, None;
    }

    method Accumulate(p: Picture, ghost how: Frame)
      requires Valid() && reference.Some? && PictureOk(p) && SameShape(p, reference.value) && Sixteen(p)
      modifies this`accumulator, this`count, this`stacked, this`frames
      ensures Valid() && stacked == old(stacked) + [p] && frames == old(frames) + [how]
    {
      var held := accumulator;
      assert |p.pixels| == |held|;
      var sum := seq(|held|, i requires 0 <= i < |held| => held[i] + p.pixels[i]);
      forall i | 0 <= i < |accumulator| ensures SumAt(stacked + [p], i) == sum[i] {
        SumPush(stacked, p, i);
      }
      accumulator, count, stacked, frames := sum, count + 1, stacked + [p], frames + [how];
    }

    /** What is shown: at every pixel the mean of exactly the pictures stacked, to the nearest
        whole value, which stays in sixteen bits however many there are. */
    method Current() returns (shown: seq<int>)
      requires Valid() && count > 0
      ensures |shown| == |reference.value.pixels|
      ensures forall i :: 0 <= i < |shown| ==> Nearest(shown[i], SumAt(stacked, i) / |stacked| as real)
      ensures forall i :: 0 <= i < |shown| ==> 0 <= shown[i] <= 65535
    {
      var (sums, n) := (accumulator, count as real);
      shown := seq(|sums|, i requires 0 <= i < |sums| => Rounded(sums[i] / n));
      forall i | 0 <= i < |shown|
        ensures Nearest(shown[i], SumAt(stacked, i) / |stacked| as real) && 0 <= shown[i] <= 65535
      {
        SumBounded(stacked, i);
        MeanBounded(accumulator[i], count);
      }
    }
  }

  /** A whole value within a half, an even one when two are as near. */
  predicate Nearest(whole: int, x: real) {
    && -0.5 <= whole as real - x <= 0.5
    && (Abs(whole as real - x) == 0.5 ==> whole % 2 == 0)
  }

  /** Rounding half to even. */
  function Rounded(x: real): (r: int)
    ensures Nearest(r, x)
    ensures 0.0 <= x <= 65535.0 ==> 0 <= r <= 65535
  {
    var low := x.Floor;
    if x - low as real < 0.5 then low
    else if x - low as real > 0.5 then low + 1
    else if low % 2 == 0 then low else low + 1
  }
}
