/**
 * Shared vocabulary of the SER player model: colour layouts, sample ranges and
 * the row-major layout of a 3-sample-per-pixel frame buffer.
 */
module Frame {

  datatype Option<T> = None | Some(value: T)

  /** The colour layouts a SER file can declare. */
  datatype ColourId =
    | Mono
    | BayerRggb | BayerGrbg | BayerGbrg | BayerBggr
    | BayerCyym | BayerYcmy | BayerYmcy | BayerMyyc
    | Rgb | Bgr
    | Unknown

  /** Largest value one sample can hold: 8-bit samples when one byte per sample, 16-bit otherwise. */
  function MaxSample(bytesPerSample: int): (m: nat)
    ensures m == 255 || m == 65535
    ensures bytesPerSample == 1 <==> m == 255
  {
    if bytesPerSample == 1 then 255 else 65535
  }

  /** Every sample of s fits the unsigned sample type whose maximum is max. */
  predicate SamplesInRange(s: seq<int>, max: int)
  {
    forall i :: 0 <= i < |s| ==> 0 <= s[i] <= max
  }

  /** Row-major index of pixel (x, y) in an image w pixels wide. */
  function PixelIndex(w: nat, x: nat, y: nat): nat
  {
    y * w + x
  }

  /** Index of sample c of pixel (x, y) when every pixel holds three samples. */
  function SampleIndex(w: nat, x: nat, y: nat, c: nat): nat
  {
    3 * PixelIndex(w, x, y) + c
  }

  /** (x, y) lies inside a w by h frame. */
  predicate InFrame(w: nat, h: nat, x: int, y: int)
  {
    0 <= x < w && 0 <= y < h
  }

  lemma MulMonotone(a: nat, b: nat, w: nat)
    requires a <= b
    ensures a * w <= b * w
  {
  }

  lemma PixelIndexBound(w: nat, h: nat, x: nat, y: nat)
    requires x < w && y < h
    ensures PixelIndex(w, x, y) < w * h
    ensures SampleIndex(w, x, y, 2) < 3 * w * h
  {
    MulMonotone(y, h - 1, w);
    assert (h - 1) * w == h * w - w;
  }

  /** Distinct pixels of one frame have distinct row-major indices. */
  lemma PixelIndexInjective(w: nat, x: nat, y: nat, x': nat, y': nat)
    requires x < w && x' < w
    requires PixelIndex(w, x, y) == PixelIndex(w, x', y')
    ensures x == x' && y == y'
  {
    if y < y' {
      assert (y + 1) * w == y * w + w;
      MulMonotone(y + 1, y', w);
    } else if y' < y {
      assert (y' + 1) * w == y' * w + w;
      MulMonotone(y' + 1, y, w);
    }
  }

  /** Every index of a w by h frame is the row-major index of one pixel. */
  lemma PixelOfIndex(w: nat, h: nat, p: nat)
    requires p < w * h
    ensures w > 0
    ensures p % w < w && p / w < h
    ensures PixelIndex(w, p % w, p / w) == p
  {
    assert w > 0;
  }

  /** The coordinates of a pixel are recovered from its row-major index. */
  lemma PixelIndexCoords(w: nat, x: nat, y: nat)
    requires x < w
    ensures PixelIndex(w, x, y) / w == y && PixelIndex(w, x, y) % w == x
  {
    var p := PixelIndex(w, x, y);
    assert p == PixelIndex(w, p % w, p / w);
    PixelIndexInjective(w, p % w, p / w, x, y);
  }

  /** Moving by (dx, dy) pixels moves the sample index by 3 * (dy * w + dx). */
  lemma SampleIndexShift(w: nat, x: nat, y: nat, c: nat, dx: int, dy: int)
    requires x + dx >= 0 && y + dy >= 0
    requires -1 <= dy <= 1
    ensures SampleIndex(w, x + dx, y + dy, c) == SampleIndex(w, x, y, c) + 3 * dx + 3 * dy * w
  {
    assert (y + dy) * w == y * w + dy * w;
  }
}
