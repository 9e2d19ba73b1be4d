/**
 * Conversion of the frame buffer into the 8-bit, bottom-up, 4-byte-aligned
 * RGB rows the on-screen image expects.
 */
module DisplayConvert {
  import opened Frame

  /** Zero bytes appended to each output row so that the row length is a multiple of 4. */
  function LinePad(w: nat): (pad: nat)
    ensures pad < 4
    ensures (3 * w + pad) % 4 == 0
    ensures (3 * w) % 4 == 0 <==> pad == 0
  {
    var rem := (3 * w) % 4;
    if rem != 0 then 4 - rem else 0
  }

  /** Length in bytes of one output row: three bytes per pixel plus the padding. */
  function Stride(w: nat): nat
  {
    3 * w + LinePad(w)
  }

  /** Number of bytes the converter allocates for a w by h frame. */
  function BufferSize(w: nat, h: nat): nat
  {
    (w + LinePad(w)) * h * 3
  }

  /** The allocation holds every row the converter writes. */
  lemma AllocationFits(w: nat, h: nat)
    ensures Stride(w) * h <= BufferSize(w, h)
  {
    var pad := LinePad(w);
    assert 3 * w + pad <= 3 * (w + pad);
    MulMonotone(3 * w + pad, 3 * (w + pad), h);
  }

  /** One display byte from a sample: the sample itself for 8-bit data, its high byte for 16-bit data. */
  function Narrow(v: int, bytesPerSample: nat): (b: int)
    ensures 0 <= v <= MaxSample(bytesPerSample) ==> 0 <= b <= 255
    ensures bytesPerSample == 1 ==> b == v
    ensures bytesPerSample != 1 && 0 <= v ==> b * 256 <= v < b * 256 + 256
  {
    if bytesPerSample == 1 then v else v / 256
  }

  /**
   * Byte col of output row row: rows run from the top line of the frame
   * (y = h - 1) down to y = 0; within a row pixel x occupies bytes 3x to
   * 3x + 2, in R, G, B order when swap holds and in buffer order otherwise;
   * the bytes past 3w are padding.
   */
  function ConvertedByte(frame: seq<int>, w: nat, h: nat, bytesPerSample: nat, swap: bool, row: nat, col: nat): int
    requires |frame| == 3 * w * h && row < h
  {
    if col >= 3 * w then 0
    else
      var x, y, c := col / 3, h - 1 - row, col % 3;
      PixelIndexBound(w, h, x, y);
      Narrow(frame[SampleIndex(w, x, y, if swap then 2 - c else c)], bytesPerSample)
  }

  /** Byte k of h rows of stride bytes each: byte k % stride of row k / stride. */
  function RowByte(frame: seq<int>, w: nat, h: nat, stride: nat, bytesPerSample: nat, swap: bool, k: nat): int
    requires |frame| == 3 * w * h && k < stride * h
  {
    PixelOfIndex(stride, h, k);
    ConvertedByte(frame, w, h, bytesPerSample, swap, k / stride, k % stride)
  }

  /** Byte k of the converted image. */
  function ConvertedAt(frame: seq<int>, w: nat, h: nat, bytesPerSample: nat, swap: bool, k: nat): int
    requires |frame| == 3 * w * h && k < Stride(w) * h
  {
    RowByte(frame, w, h, Stride(w), bytesPerSample, swap, k)
  }

  lemma RowByteAt(frame: seq<int>, w: nat, h: nat, stride: nat, bytesPerSample: nat, swap: bool, row: nat, col: nat)
    requires |frame| == 3 * w * h && row < h && col < stride
    ensures PixelIndex(stride, col, row) < stride * h
    ensures RowByte(frame, w, h, stride, bytesPerSample, swap, PixelIndex(stride, col, row))
            == ConvertedByte(frame, w, h, bytesPerSample, swap, row, col)
  {
    PixelIndexBound(stride, h, col, row);
    PixelIndexCoords(stride, col, row);
  }

  /** Byte col of row row sits at row * Stride(w) + col. */
  lemma ConvertedAtRowCol(frame: seq<int>, w: nat, h: nat, bytesPerSample: nat, swap: bool, row: nat, col: nat)
    requires |frame| == 3 * w * h && row < h && col < Stride(w)
    ensures PixelIndex(Stride(w), col, row) < Stride(w) * h
    ensures ConvertedAt(frame, w, h, bytesPerSample, swap, PixelIndex(Stride(w), col, row))
            == ConvertedByte(frame, w, h, bytesPerSample, swap, row, col)
  {
    RowByteAt(frame, w, h, Stride(w), bytesPerSample, swap, row, col);
  }

  /**
   * The conversion flips the frame vertically and, when swap holds, reverses
   * the three samples of each pixel: sample c of pixel (x, y) lands in row
   * h - 1 - y at byte 3x + (2 - c), narrowed to 8 bits.
   */
  lemma ConvertedPixel(frame: seq<int>, w: nat, h: nat, bytesPerSample: nat, swap: bool, x: nat, y: nat, c: nat)
    requires |frame| == 3 * w * h && x < w && y < h && c < 3
    ensures SampleIndex(w, x, y, c) < |frame|
    ensures PixelIndex(Stride(w), 3 * x + (if swap then 2 - c else c), h - 1 - y) < Stride(w) * h
    ensures ConvertedAt(frame, w, h, bytesPerSample, swap, PixelIndex(Stride(w), 3 * x + (if swap then 2 - c else c), h - 1 - y))
            == Narrow(frame[SampleIndex(w, x, y, c)], bytesPerSample)
  {
    PixelIndexBound(w, h, x, y);
    var col := 3 * x + (if swap then 2 - c else c);
    ConvertedAtRowCol(frame, w, h, bytesPerSample, swap, h - 1 - y, col);
    assert col / 3 == x;
  }

  /** The padding bytes at the end of every row are zero. */
  lemma ConvertedPadZero(frame: seq<int>, w: nat, h: nat, bytesPerSample: nat, swap: bool, row: nat, col: nat)
    requires |frame| == 3 * w * h && row < h && 3 * w <= col < Stride(w)
    ensures PixelIndex(Stride(w), col, row) < Stride(w) * h
    ensures ConvertedAt(frame, w, h, bytesPerSample, swap, PixelIndex(Stride(w), col, row)) == 0
  {
    ConvertedAtRowCol(frame, w, h, bytesPerSample, swap, row, col);
  }

  /** Every converted byte fits 8 bits when the frame's samples fit their sample type. */
  lemma ConvertedIsBytes(frame: seq<int>, w: nat, h: nat, bytesPerSample: nat, swap: bool, k: nat)
    requires |frame| == 3 * w * h && k < Stride(w) * h
    requires SamplesInRange(frame, MaxSample(bytesPerSample))
    ensures 0 <= ConvertedAt(frame, w, h, bytesPerSample, swap, k) <= 255
  {
    RowByteBytes(frame, w, h, Stride(w), bytesPerSample, swap, k);
  }

  lemma RowByteBytes(frame: seq<int>, w: nat, h: nat, stride: nat, bytesPerSample: nat, swap: bool, k: nat)
    requires |frame| == 3 * w * h && k < stride * h
    requires SamplesInRange(frame, MaxSample(bytesPerSample))
    ensures 0 <= RowByte(frame, w, h, stride, bytesPerSample, swap, k) <= 255
  {
    PixelOfIndex(stride, h, k);
    var row, col := k / stride, k % stride;
    if col < 3 * w {
      var x, y, c := col / 3, h - 1 - row, col % 3;
      PixelIndexBound(w, h, x, y);
      var i := SampleIndex(w, x, y, if swap then 2 - c else c);
      assert 0 <= frame[i] <= MaxSample(bytesPerSample);
    }
  }

  /** A row that starts before row h ends within the h rows. */
  lemma RowFits(row: nat, h: nat, stride: nat)
    requires row < h
    ensures row * stride + stride <= h * stride
  {
    MulMonotone(row + 1, h, stride);
  }

  /**
   * The converter: reads the frame's lines from the top one down, writes
   * each pixel's three bytes (swapped to R, G, B when swap holds) followed by
   * the row padding, into a new buffer of BufferSize(w, h) bytes.
   */
  method ConvertForDisplay(frame: array<int>, w: nat, h: nat, bytesPerSample: nat, swap: bool) returns (out: array<int>)
    requires frame.Length == 3 * w * h
    ensures fresh(out)
    ensures out.Length == BufferSize(w, h) && Stride(w) * h <= out.Length
    ensures forall k :: 0 <= k < Stride(w) * h ==> out[k] == ConvertedAt(frame[..], w, h, bytesPerSample, swap, k)
  {
    var linePad := (w * 3) % 4;
    if linePad != 0 {
      linePad := 4 - linePad;
    }
    var stride := 3 * w + linePad;
    assert stride == Stride(w);
    AllocationFits(w, h);
    out := new int[(w + linePad) * h * 3];
    var wp := 0;
    var y: int := h - 1;
    while y >= 0
      invariant -1 <= y < h
      invariant wp == (h - 1 - y) * stride
      invariant forall k :: 0 <= k < wp ==> out[k] == RowByte(frame[..], w, h, stride, bytesPerSample, swap, k)
    {
      RowFits(h - 1 - y, h, stride);
      wp := ConvertRow(frame, out, w, h, stride, linePad, bytesPerSample, swap, y, wp);
      assert wp == (h - 1 - (y - 1)) * stride;
      y := y - 1;
    }
  }

  /** The three bytes of pixel (x, y) in its output row, for rows of stride bytes. */
  lemma PixelBytes(frame: seq<int>, w: nat, h: nat, stride: nat, bytesPerSample: nat, swap: bool, x: nat, y: nat)
    requires |frame| == 3 * w * h && x < w && y < h && 3 * w <= stride
    ensures SampleIndex(w, x, y, 2) < |frame|
    ensures PixelIndex(stride, 3 * x + 2, h - 1 - y) < stride * h
    ensures RowByte(frame, w, h, stride, bytesPerSample, swap, PixelIndex(stride, 3 * x, h - 1 - y))
            == Narrow(frame[SampleIndex(w, x, y, if swap then 2 else 0)], bytesPerSample)
    ensures RowByte(frame, w, h, stride, bytesPerSample, swap, PixelIndex(stride, 3 * x, h - 1 - y) + 1)
            == Narrow(frame[SampleIndex(w, x, y, 1)], bytesPerSample)
    ensures RowByte(frame, w, h, stride, bytesPerSample, swap, PixelIndex(stride, 3 * x, h - 1 - y) + 2)
            == Narrow(frame[SampleIndex(w, x, y, if swap then 0 else 2)], bytesPerSample)
  {
    PixelIndexBound(w, h, x, y);
    var row := h - 1 - y;
    RowByteAt(frame, w, h, stride, bytesPerSample, swap, row, 3 * x);
    RowByteAt(frame, w, h, stride, bytesPerSample, swap, row, 3 * x + 1);
    RowByteAt(frame, w, h, stride, bytesPerSample, swap, row, 3 * x + 2);
    assert (3 * x) / 3 == x && (3 * x + 1) / 3 == x && (3 * x + 2) / 3 == x;
  }

  /** One output row: line y of the frame, then the padding; wp0 is where the row starts. */
  method ConvertRow(frame: array<int>, out: array<int>, w: nat, h: nat, stride: nat, linePad: nat,
                    bytesPerSample: nat, swap: bool, y: nat, wp0: nat) returns (wp: nat)
    requires frame != out && frame.Length == 3 * w * h && y < h
    requires stride == 3 * w + linePad && stride * h <= out.Length
    requires wp0 == (h - 1 - y) * stride && wp0 + stride <= stride * h
    requires forall k :: 0 <= k < wp0 ==> out[k] == RowByte(frame[..], w, h, stride, bytesPerSample, swap, k)
    modifies out
    ensures wp == wp0 + stride
    ensures forall k :: 0 <= k < wp ==> out[k] == RowByte(frame[..], w, h, stride, bytesPerSample, swap, k)
  {
    var row := h - 1 - y;
    wp := wp0;
    var rp := y * w * 3;
    assert rp == SampleIndex(w, 0, y, 0);
    var x := 0;
    while x < w
      invariant 0 <= x <= w
      invariant wp == wp0 + 3 * x && rp == SampleIndex(w, x, y, 0)
      invariant forall k :: 0 <= k < wp ==> out[k] == RowByte(frame[..], w, h, stride, bytesPerSample, swap, k)
    {
      PixelBytes(frame[..], w, h, stride, bytesPerSample, swap, x, y);
      var b := Narrow(frame[rp], bytesPerSample);
      var g := Narrow(frame[rp + 1], bytesPerSample);
      var r := Narrow(frame[rp + 2], bytesPerSample);
      if swap {
        out[wp], out[wp + 1], out[wp + 2] := r, g, b;
      } else {
        out[wp], out[wp + 1], out[wp + 2] := b, g, r;
      }
      wp := wp + 3;
      rp := rp + 3;
      x := x + 1;
    }
    var i := 0;
    while i < linePad
      invariant 0 <= i <= linePad
      invariant wp == wp0 + 3 * w + i
      invariant forall k :: 0 <= k < wp ==> out[k] == RowByte(frame[..], w, h, stride, bytesPerSample, swap, k)
    {
      RowByteAt(frame[..], w, h, stride, bytesPerSample, swap, row, 3 * w + i);
      out[wp] := 0;
      wp := wp + 1;
      i := i + 1;
    }
  }
}
