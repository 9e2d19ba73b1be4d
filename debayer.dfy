/**
 * Bilinear demosaicing of a Bayer mosaic (bottom, top, left and right edge lines
 * through a variable-divisor average, the interior through a fixed divisor).
 */
module Debayer {
  import opened Frame

  /** A neighbour position relative to the pixel being reconstructed. */
  datatype Offset = Offset(dx: int, dy: int)

  const Centre: seq<Offset> := [Offset(0, 0)]
  /** The four diagonal neighbours, in the order SER Player's edge routine sums them. */
  const Corners: seq<Offset> := [Offset(-1, -1), Offset(1, -1), Offset(-1, 1), Offset(1, 1)]
  /** The four nearest neighbours: left, right, next row, previous row. */
  const Cross: seq<Offset> := [Offset(-1, 0), Offset(1, 0), Offset(0, 1), Offset(0, -1)]
  /** Previous and next row. */
  const Vertical: seq<Offset> := [Offset(0, -1), Offset(0, 1)]
  /** Left and right neighbour. */
  const Horizontal: seq<Offset> := [Offset(-1, 0), Offset(1, 0)]

  /** Sample of channel ch at offset o from (x, y), or 0 when that position is outside the frame. */
  function Term(raw: seq<int>, w: nat, h: nat, x: nat, y: nat, ch: nat, o: Offset): int
    requires |raw| == 3 * w * h && ch < 3
  {
    if InFrame(w, h, x + o.dx, y + o.dy) then
      PixelIndexBound(w, h, x + o.dx, y + o.dy);
      raw[SampleIndex(w, x + o.dx, y + o.dy, ch)]
    else
      0
  }

  /** Sum of the channel-ch samples at the in-frame positions of the stencil st. */
  function NeighbourSum(raw: seq<int>, w: nat, h: nat, x: nat, y: nat, ch: nat, st: seq<Offset>): int
    requires |raw| == 3 * w * h && ch < 3
    decreases |st|
  {
    if st == [] then 0
    else NeighbourSum(raw, w, h, x, y, ch, st[..|st| - 1]) + Term(raw, w, h, x, y, ch, st[|st| - 1])
  }

  /** 1 when offset o from (x, y) is inside the frame, else 0. */
  function Present(w: nat, h: nat, x: nat, y: nat, o: Offset): nat
  {
    if InFrame(w, h, x + o.dx, y + o.dy) then 1 else 0
  }

  /** Number of in-frame positions of the stencil st around (x, y). */
  function NeighbourCount(w: nat, h: nat, x: nat, y: nat, st: seq<Offset>): nat
    decreases |st|
  {
    if st == [] then 0
    else NeighbourCount(w, h, x, y, st[..|st| - 1]) + Present(w, h, x, y, st[|st| - 1])
  }

  lemma Unfold2(raw: seq<int>, w: nat, h: nat, x: nat, y: nat, ch: nat, st: seq<Offset>)
    requires |raw| == 3 * w * h && ch < 3 && |st| == 2
    ensures NeighbourSum(raw, w, h, x, y, ch, st)
            == Term(raw, w, h, x, y, ch, st[0]) + Term(raw, w, h, x, y, ch, st[1])
    ensures NeighbourCount(w, h, x, y, st) == Present(w, h, x, y, st[0]) + Present(w, h, x, y, st[1])
  {
    assert st[..1][..0] == [] && st[..1][0] == st[0];
    assert NeighbourSum(raw, w, h, x, y, ch, st[..1]) == Term(raw, w, h, x, y, ch, st[0]);
    assert NeighbourCount(w, h, x, y, st[..1]) == Present(w, h, x, y, st[0]);
  }

  lemma Unfold4(raw: seq<int>, w: nat, h: nat, x: nat, y: nat, ch: nat, st: seq<Offset>)
    requires |raw| == 3 * w * h && ch < 3 && |st| == 4
    ensures NeighbourSum(raw, w, h, x, y, ch, st)
            == Term(raw, w, h, x, y, ch, st[0]) + Term(raw, w, h, x, y, ch, st[1])
               + Term(raw, w, h, x, y, ch, st[2]) + Term(raw, w, h, x, y, ch, st[3])
    ensures NeighbourCount(w, h, x, y, st)
            == Present(w, h, x, y, st[0]) + Present(w, h, x, y, st[1])
               + Present(w, h, x, y, st[2]) + Present(w, h, x, y, st[3])
  {
    assert st[..3][..2] == st[..2];
    Unfold2(raw, w, h, x, y, ch, st[..2]);
  }

  /** An in-frame term is the sample 3 * (dy * w + dx) positions away from the centre sample. */
  lemma TermAt(raw: seq<int>, w: nat, h: nat, x: nat, y: nat, ch: nat, o: Offset)
    requires |raw| == 3 * w * h && ch < 3 && x < w && y < h
    requires -1 <= o.dy <= 1
    ensures InFrame(w, h, x + o.dx, y + o.dy) ==>
              0 <= SampleIndex(w, x, y, ch) + 3 * o.dx + 3 * o.dy * w < |raw| &&
              Term(raw, w, h, x, y, ch, o) == raw[SampleIndex(w, x, y, ch) + 3 * o.dx + 3 * o.dy * w]
    ensures !InFrame(w, h, x + o.dx, y + o.dy) ==> Term(raw, w, h, x, y, ch, o) == 0
  {
    if InFrame(w, h, x + o.dx, y + o.dy) {
      SampleIndexShift(w, x, y, ch, o.dx, o.dy);
      PixelIndexBound(w, h, x + o.dx, y + o.dy);
    }
  }

  lemma Unfold1(raw: seq<int>, w: nat, h: nat, x: nat, y: nat, ch: nat, st: seq<Offset>)
    requires |raw| == 3 * w * h && ch < 3 && |st| == 1
    ensures NeighbourSum(raw, w, h, x, y, ch, st) == Term(raw, w, h, x, y, ch, st[0])
    ensures NeighbourCount(w, h, x, y, st) == Present(w, h, x, y, st[0])
  {
    assert st[..0] == [];
  }

  /** Sums and counts over a concatenated stencil add up. */
  lemma {:induction false} UnfoldAppend(raw: seq<int>, w: nat, h: nat, x: nat, y: nat, ch: nat, a: seq<Offset>, b: seq<Offset>)
    requires |raw| == 3 * w * h && ch < 3
    ensures NeighbourSum(raw, w, h, x, y, ch, a + b)
            == NeighbourSum(raw, w, h, x, y, ch, a) + NeighbourSum(raw, w, h, x, y, ch, b)
    ensures NeighbourCount(w, h, x, y, a + b) == NeighbourCount(w, h, x, y, a) + NeighbourCount(w, h, x, y, b)
    decreases |b|
  {
    if b == [] {
      assert a + b == a;
    } else {
      assert (a + b)[..|a + b| - 1] == a + b[..|b| - 1];
      UnfoldAppend(raw, w, h, x, y, ch, a, b[..|b| - 1]);
    }
  }

  // ---------------------------------------------------------------
  // Layout gate and per-pixel phase
  // ---------------------------------------------------------------

  /**
   * The 2-bit bayer code of a colour layout, or None for the layouts
   * the demosaicer does not handle.
   */
  function BayerCode(id: ColourId): (r: Option<nat>)
    ensures r.Some? ==> r.value < 4
  {
    match id
    case BayerRggb => Some(2)
    case BayerGrbg => Some(3)
    case BayerGbrg => Some(0)
    case BayerBggr => Some(1)
    case _ => None
  }

  function Xor(a: nat, b: nat): nat
    requires a < 2 && b < 2
  {
    if a == b then 0 else 1
  }

  /** Column phase of the pattern. */
  function PhaseX(code: nat): nat
  {
    code % 2
  }

  /** Row phase of the pattern, adjusted by the parity of the frame height. */
  function PhaseY(code: nat, h: nat): nat
  {
    Xor((code / 2) % 2, h % 2)
  }

  /**
   * Code of pixel (x, y): 0 where the sensor saw red, 3 where it saw blue,
   * 1 and 2 where it saw green (in a blue column resp. a red column).
   */
  function PixelCode(code: nat, x: nat, y: nat, h: nat): (r: nat)
    ensures r < 4
  {
    ((x + PhaseX(code)) % 2) + 2 * ((y + PhaseY(code, h)) % 2)
  }

  /** The three output channels, in buffer order. */
  datatype Colour = Blue | Green | Red

  function ChannelOf(col: Colour): (c: nat)
    ensures c < 3
  {
    match col
    case Blue => 0
    case Green => 1
    case Red => 2
  }

  /** The colour the sensor recorded at a pixel with the given code. */
  function SensorColour(pc: nat): Colour
    requires pc < 4
  {
    if pc == 0 then Red else if pc == 3 then Blue else Green
  }

  /** The colour a layout's name gives to column col and row row of its 2 by 2 tile. */
  function TileColour(id: ColourId, col: nat, row: nat): Colour
    requires BayerCode(id).Some? && col < 2 && row < 2
  {
    var name := match id
      case BayerRggb => [Red, Green, Green, Blue]
      case BayerGrbg => [Green, Red, Blue, Green]
      case BayerGbrg => [Green, Blue, Red, Green]
      case BayerBggr => [Blue, Green, Green, Red];
    name[2 * row + col]
  }

  /**
   * The phasing anchors the layout's tile at the row y = h - 1, whatever the
   * parity of h: pixel (x, y) sees the colour the layout names in column
   * x mod 2 and row (h - 1 - y) mod 2 of its tile.
   */
  lemma LayoutAnchoredAtLastRow(id: ColourId, h: nat, x: nat, y: nat)
    requires BayerCode(id).Some? && y < h
    ensures SensorColour(PixelCode(BayerCode(id).value, x, y, h)) == TileColour(id, x % 2, (h - 1 - y) % 2)
  {
    var code := BayerCode(id).value;
    assert (y + PhaseY(code, h)) % 2 == (1 + (h - 1 - y) % 2 + (code / 2) % 2) % 2;
  }

  // ---------------------------------------------------------------
  // Stencils and the reconstructed value of one sample
  // ---------------------------------------------------------------

  /**
   * Neighbours averaged by the edge routine for output channel c of a pixel
   * with code pc.  The single centre stencil is the sensor's own colour.
   */
  function EdgeStencil(pc: nat, c: nat): seq<Offset>
    requires pc < 4 && c < 3
  {
    if pc == 0 then (if c == 0 then Corners else if c == 1 then Cross else Centre)
    else if pc == 1 then (if c == 0 then Vertical else if c == 1 then Centre + Corners else Horizontal)
    else if pc == 2 then (if c == 0 then Horizontal else if c == 1 then Centre + Corners else Vertical)
    else (if c == 0 then Centre else if c == 1 then Cross else Corners)
  }

  /** The interior loop differs only in copying green at codes 1 and 2. */
  function InteriorStencil(pc: nat, c: nat): seq<Offset>
    requires pc < 4 && c < 3
  {
    if (pc == 1 || pc == 2) && c == 1 then Centre else EdgeStencil(pc, c)
  }

  /** Every edge stencil reaches at least one in-frame position once the frame is at least 2 by 2. */
  lemma StencilReachesFrame(w: nat, h: nat, x: nat, y: nat, pc: nat, c: nat)
    requires w >= 2 && h >= 2 && x < w && y < h && pc < 4 && c < 3
    ensures NeighbourCount(w, h, x, y, EdgeStencil(pc, c)) >= 1
  {
    var raw := seq(3 * w * h, i => 0);
    Unfold1(raw, w, h, x, y, 0, Centre);
    Unfold2(raw, w, h, x, y, 0, Vertical);
    Unfold2(raw, w, h, x, y, 0, Horizontal);
    Unfold4(raw, w, h, x, y, 0, Corners);
    Unfold4(raw, w, h, x, y, 0, Cross);
    UnfoldAppend(raw, w, h, x, y, 0, Centre, Corners);
  }

  /** Inside the frame's border every neighbour is present: the interior divisor is the stencil length. */
  lemma InteriorStencilInFrame(w: nat, h: nat, x: nat, y: nat, pc: nat, c: nat)
    requires 1 <= x < w - 1 && 1 <= y < h - 1 && pc < 4 && c < 3
    ensures NeighbourCount(w, h, x, y, InteriorStencil(pc, c)) == |InteriorStencil(pc, c)|
  {
    var raw := seq(3 * w * h, i => 0);
    Unfold1(raw, w, h, x, y, 0, Centre);
    Unfold2(raw, w, h, x, y, 0, Vertical);
    Unfold2(raw, w, h, x, y, 0, Horizontal);
    Unfold4(raw, w, h, x, y, 0, Corners);
    Unfold4(raw, w, h, x, y, 0, Cross);
  }

  /** Edge value: truncating mean of channel 0 of the in-frame stencil neighbours. */
  function EdgeValue(raw: seq<int>, w: nat, h: nat, pc: nat, x: nat, y: nat, c: nat): int
    requires |raw| == 3 * w * h && w >= 2 && h >= 2 && x < w && y < h && pc < 4 && c < 3
  {
    StencilReachesFrame(w, h, x, y, pc, c);
    NeighbourSum(raw, w, h, x, y, 0, EdgeStencil(pc, c)) / NeighbourCount(w, h, x, y, EdgeStencil(pc, c))
  }

  /** Interior value: mean of channel c of all stencil neighbours, with the stencil length as divisor. */
  function InteriorValue(raw: seq<int>, w: nat, h: nat, pc: nat, x: nat, y: nat, c: nat): int
    requires |raw| == 3 * w * h && 1 <= x < w - 1 && 1 <= y < h - 1 && pc < 4 && c < 3
  {
    NeighbourSum(raw, w, h, x, y, c, InteriorStencil(pc, c)) / |InteriorStencil(pc, c)|
  }

  predicate IsEdge(w: nat, h: nat, x: nat, y: nat)
  {
    x == 0 || y == 0 || x == w - 1 || y == h - 1
  }

  /** Sample c of pixel (x, y) of the demosaiced frame, for the layout code code. */
  function DebayeredSample(raw: seq<int>, w: nat, h: nat, code: nat, x: nat, y: nat, c: nat): int
    requires |raw| == 3 * w * h && w >= 2 && h >= 2 && x < w && y < h && c < 3
  {
    var pc := PixelCode(code, x, y, h);
    if IsEdge(w, h, x, y) then EdgeValue(raw, w, h, pc, x, y, c) else InteriorValue(raw, w, h, pc, x, y, c)
  }

  function DebayeredAt(raw: seq<int>, w: nat, h: nat, code: nat, i: nat): int
    requires |raw| == 3 * w * h && w >= 2 && h >= 2 && i < 3 * w * h
  {
    PixelOfIndex(w, h, i / 3);
    DebayeredSample(raw, w, h, code, (i / 3) % w, (i / 3) / w, i % 3)
  }

  /** The demosaiced frame: three samples per pixel in B, G, R order. */
  function Debayered(raw: seq<int>, w: nat, h: nat, code: nat): (r: seq<int>)
    requires |raw| == 3 * w * h && w >= 2 && h >= 2
    ensures |r| == 3 * w * h
  {
    seq(3 * w * h, i requires 0 <= i < 3 * w * h => DebayeredAt(raw, w, h, code, i))
  }

  /** Sample c of pixel (x, y) of the demosaiced frame sits at SampleIndex(w, x, y, c). */
  lemma DebayeredPixel(raw: seq<int>, w: nat, h: nat, code: nat, x: nat, y: nat, c: nat)
    requires |raw| == 3 * w * h && w >= 2 && h >= 2 && x < w && y < h && c < 3
    ensures SampleIndex(w, x, y, c) < 3 * w * h
    ensures Debayered(raw, w, h, code)[SampleIndex(w, x, y, c)] == DebayeredSample(raw, w, h, code, x, y, c)
  {
    PixelIndexBound(w, h, x, y);
    PixelIndexCoords(w, x, y);
    var i := SampleIndex(w, x, y, c);
    assert i / 3 == PixelIndex(w, x, y) && i % 3 == c;
  }

  // ---------------------------------------------------------------
  // Properties of the reconstructed values
  // ---------------------------------------------------------------

  /** Every in-frame sample of channel ch the stencil reaches lies in [lo, hi]. */
  ghost predicate NeighboursWithin(raw: seq<int>, w: nat, h: nat, x: nat, y: nat, ch: nat, st: seq<Offset>, lo: int, hi: int)
    requires |raw| == 3 * w * h && ch < 3
  {
    forall k :: 0 <= k < |st| && InFrame(w, h, x + st[k].dx, y + st[k].dy) ==>
      lo <= Term(raw, w, h, x, y, ch, st[k]) <= hi
  }

  lemma {:induction false} NeighbourSumBounds(raw: seq<int>, w: nat, h: nat, x: nat, y: nat, ch: nat, st: seq<Offset>, lo: int, hi: int)
    requires |raw| == 3 * w * h && ch < 3
    requires NeighboursWithin(raw, w, h, x, y, ch, st, lo, hi)
    ensures lo * NeighbourCount(w, h, x, y, st) <= NeighbourSum(raw, w, h, x, y, ch, st)
                                                <= hi * NeighbourCount(w, h, x, y, st)
    decreases |st|
  {
    if st != [] {
      var init, last := st[..|st| - 1], st[|st| - 1];
      assert NeighboursWithin(raw, w, h, x, y, ch, init, lo, hi) by {
        forall k | 0 <= k < |init| && InFrame(w, h, x + init[k].dx, y + init[k].dy)
          ensures lo <= Term(raw, w, h, x, y, ch, init[k]) <= hi
        {
          assert init[k] == st[k];
        }
      }
      NeighbourSumBounds(raw, w, h, x, y, ch, init, lo, hi);
      if InFrame(w, h, x + last.dx, y + last.dy) {
        assert lo <= Term(raw, w, h, x, y, ch, last) <= hi;
        BoundsStep(lo, hi, NeighbourCount(w, h, x, y, init), NeighbourSum(raw, w, h, x, y, ch, init), Term(raw, w, h, x, y, ch, last));
      }
    }
  }

  lemma BoundsStep(lo: int, hi: int, n: nat, total: int, t: int)
    requires lo * n <= total <= hi * n && lo <= t <= hi
    ensures lo * (n + 1) <= total + t <= hi * (n + 1)
  {
    assert lo * (n + 1) == lo * n + lo && hi * (n + 1) == hi * n + hi;
  }

  lemma DivBetween(total: int, n: nat, lo: int, hi: int)
    requires n > 0 && lo * n <= total <= hi * n
    ensures lo <= total / n <= hi
  {
    var q := total / n;
    assert q * n <= total < q * n + n;
    if q < lo {
      assert (q + 1) * n <= lo * n by { MulLe(q + 1, lo, n); }
    }
  }

  lemma MulLe(a: int, b: int, n: nat)
    requires a <= b
    ensures a * n <= b * n
  {
  }

  /**
   * Every reconstructed sample is a truncating mean of raw samples: it lies
   * between any bounds of the samples it reads (channel 0 of its in-frame
   * neighbours at an edge, channel c of its neighbours inside).
   */
  lemma DebayeredSampleBetween(raw: seq<int>, w: nat, h: nat, code: nat, x: nat, y: nat, c: nat, lo: int, hi: int)
    requires |raw| == 3 * w * h && w >= 2 && h >= 2 && x < w && y < h && c < 3
    requires var pc := PixelCode(code, x, y, h);
             if IsEdge(w, h, x, y) then NeighboursWithin(raw, w, h, x, y, 0, EdgeStencil(pc, c), lo, hi)
             else NeighboursWithin(raw, w, h, x, y, c, InteriorStencil(pc, c), lo, hi)
    ensures lo <= DebayeredSample(raw, w, h, code, x, y, c) <= hi
  {
    var pc := PixelCode(code, x, y, h);
    if IsEdge(w, h, x, y) {
      var st := EdgeStencil(pc, c);
      StencilReachesFrame(w, h, x, y, pc, c);
      NeighbourSumBounds(raw, w, h, x, y, 0, st, lo, hi);
      DivBetween(NeighbourSum(raw, w, h, x, y, 0, st), NeighbourCount(w, h, x, y, st), lo, hi);
    } else {
      var st := InteriorStencil(pc, c);
      InteriorStencilInFrame(w, h, x, y, pc, c);
      NeighbourSumBounds(raw, w, h, x, y, c, st, lo, hi);
      DivBetween(NeighbourSum(raw, w, h, x, y, c, st), |st|, lo, hi);
    }
  }

  /** A frame whose samples all lie in [lo, hi] keeps every reconstructed sample in [lo, hi]. */
  lemma DebayeredWithin(raw: seq<int>, w: nat, h: nat, code: nat, lo: int, hi: int)
    requires |raw| == 3 * w * h && w >= 2 && h >= 2
    requires forall i :: 0 <= i < |raw| ==> lo <= raw[i] <= hi
    ensures forall i :: 0 <= i < 3 * w * h ==> lo <= Debayered(raw, w, h, code)[i] <= hi
  {
    forall i | 0 <= i < 3 * w * h
      ensures lo <= Debayered(raw, w, h, code)[i] <= hi
    {
      PixelOfIndex(w, h, i / 3);
      var x, y, c := (i / 3) % w, (i / 3) / w, i % 3;
      var pc := PixelCode(code, x, y, h);
      forall ch: nat, st: seq<Offset> | ch < 3
        ensures NeighboursWithin(raw, w, h, x, y, ch, st, lo, hi)
      {
        forall k | 0 <= k < |st| && InFrame(w, h, x + st[k].dx, y + st[k].dy)
          ensures lo <= Term(raw, w, h, x, y, ch, st[k]) <= hi
        {
          PixelIndexBound(w, h, x + st[k].dx, y + st[k].dy);
        }
      }
      DebayeredSampleBetween(raw, w, h, code, x, y, c, lo, hi);
    }
  }

  /** Demosaicing keeps every sample within the range of the sample type (255 or 65535). */
  lemma DebayeredInRange(raw: seq<int>, w: nat, h: nat, code: nat, max: nat)
    requires |raw| == 3 * w * h && w >= 2 && h >= 2
    requires SamplesInRange(raw, max)
    ensures SamplesInRange(Debayered(raw, w, h, code), max)
  {
    DebayeredWithin(raw, w, h, code, 0, max);
  }

  /** A uniform raw field K is reconstructed as K in every channel of every pixel. */
  lemma UniformField(raw: seq<int>, w: nat, h: nat, code: nat, k: int)
    requires |raw| == 3 * w * h && w >= 2 && h >= 2
    requires forall i :: 0 <= i < |raw| ==> raw[i] == k
    ensures Debayered(raw, w, h, code) == seq(3 * w * h, i => k)
  {
    DebayeredWithin(raw, w, h, code, k, k);
  }

  /**
   * The sample of the pixel's own colour is copied unchanged: red at code 0
   * and blue at code 3 everywhere (from channel 0 at an edge, from channel c
   * inside), green at codes 1 and 2 inside the border.  At the border, green
   * at codes 1 and 2 is the mean of the centre and its in-frame corners.
   */
  lemma OwnColourCopied(raw: seq<int>, w: nat, h: nat, code: nat, x: nat, y: nat)
    requires |raw| == 3 * w * h && w >= 2 && h >= 2 && x < w && y < h
    ensures SampleIndex(w, x, y, 2) < |raw|
    ensures var pc := PixelCode(code, x, y, h);
            var c := ChannelOf(SensorColour(pc));
            if IsEdge(w, h, x, y) then
              if pc == 0 || pc == 3 then DebayeredSample(raw, w, h, code, x, y, c) == raw[SampleIndex(w, x, y, 0)]
              else DebayeredSample(raw, w, h, code, x, y, c)
                   == (raw[SampleIndex(w, x, y, 0)] + NeighbourSum(raw, w, h, x, y, 0, Corners))
                      / (1 + NeighbourCount(w, h, x, y, Corners))
            else DebayeredSample(raw, w, h, code, x, y, c) == raw[SampleIndex(w, x, y, c)]
  {
    PixelIndexBound(w, h, x, y);
    var pc := PixelCode(code, x, y, h);
    if IsEdge(w, h, x, y) {
      OwnColourAtEdge(raw, w, h, pc, x, y);
    } else {
      OwnColourInside(raw, w, h, pc, x, y);
    }
  }

  lemma OwnColourAtEdge(raw: seq<int>, w: nat, h: nat, pc: nat, x: nat, y: nat)
    requires |raw| == 3 * w * h && w >= 2 && h >= 2 && x < w && y < h && pc < 4
    ensures SampleIndex(w, x, y, 0) < |raw|
    ensures var c := ChannelOf(SensorColour(pc));
            if pc == 0 || pc == 3 then EdgeValue(raw, w, h, pc, x, y, c) == raw[SampleIndex(w, x, y, 0)]
            else EdgeValue(raw, w, h, pc, x, y, c)
                 == (raw[SampleIndex(w, x, y, 0)] + NeighbourSum(raw, w, h, x, y, 0, Corners))
                    / (1 + NeighbourCount(w, h, x, y, Corners))
  {
    CentreCopy(raw, w, h, x, y);
    var c := ChannelOf(SensorColour(pc));
    if pc == 0 || pc == 3 {
      assert EdgeStencil(pc, c) == Centre;
    } else {
      assert EdgeStencil(pc, c) == Centre + Corners;
      UnfoldAppend(raw, w, h, x, y, 0, Centre, Corners);
    }
  }

  lemma OwnColourInside(raw: seq<int>, w: nat, h: nat, pc: nat, x: nat, y: nat)
    requires |raw| == 3 * w * h && 1 <= x < w - 1 && 1 <= y < h - 1 && pc < 4
    ensures SampleIndex(w, x, y, ChannelOf(SensorColour(pc))) < |raw|
    ensures InteriorValue(raw, w, h, pc, x, y, ChannelOf(SensorColour(pc)))
            == raw[SampleIndex(w, x, y, ChannelOf(SensorColour(pc)))]
  {
    var c := ChannelOf(SensorColour(pc));
    assert InteriorStencil(pc, c) == Centre;
    CentreSum(raw, w, h, x, y, c);
  }

  // ---------------------------------------------------------------
  // Edge routine (variable divisor)
  // ---------------------------------------------------------------

  /** The centre stencil reads the pixel's own channel-0 sample. */
  lemma CentreCopy(raw: seq<int>, w: nat, h: nat, x: nat, y: nat)
    requires |raw| == 3 * w * h && x < w && y < h
    ensures SampleIndex(w, x, y, 0) < |raw|
    ensures NeighbourSum(raw, w, h, x, y, 0, Centre) == raw[SampleIndex(w, x, y, 0)]
    ensures NeighbourCount(w, h, x, y, Centre) == 1
  {
    PixelIndexBound(w, h, x, y);
    Unfold1(raw, w, h, x, y, 0, Centre);
    TermAt(raw, w, h, x, y, 0, Offset(0, 0));
  }

  /** The centre-plus-corners stencil reads the centre and then the corners. */
  lemma CentreAndCorners(raw: seq<int>, w: nat, h: nat, x: nat, y: nat)
    requires |raw| == 3 * w * h && x < w && y < h
    ensures SampleIndex(w, x, y, 0) < |raw|
    ensures NeighbourSum(raw, w, h, x, y, 0, Centre + Corners)
            == raw[SampleIndex(w, x, y, 0)] + NeighbourSum(raw, w, h, x, y, 0, Corners)
    ensures NeighbourCount(w, h, x, y, Centre + Corners) == 1 + NeighbourCount(w, h, x, y, Corners)
  {
    CentreCopy(raw, w, h, x, y);
    UnfoldAppend(raw, w, h, x, y, 0, Centre, Corners);
  }

  /** Adds the in-frame diagonal neighbours (channel 0) of (x, y) to total and counts them. */
  method AddCorners(raw: array<int>, w: nat, h: nat, x: nat, y: nat, total0: int, count0: nat)
    returns (total: int, count: nat)
    requires raw.Length == 3 * w * h && x < w && y < h
    ensures total == total0 + NeighbourSum(raw[..], w, h, x, y, 0, Corners)
    ensures count == count0 + NeighbourCount(w, h, x, y, Corners)
  {
    var p := SampleIndex(w, x, y, 0);
    ghost var s := raw[..];
    Unfold4(s, w, h, x, y, 0, Corners);
    TermAt(s, w, h, x, y, 0, Corners[0]);
    TermAt(s, w, h, x, y, 0, Corners[1]);
    TermAt(s, w, h, x, y, 0, Corners[2]);
    TermAt(s, w, h, x, y, 0, Corners[3]);
    total, count := total0, count0;
    if x > 0 && y > 0 {
      total := total + raw[p - 3 * w - 3];
      count := count + 1;
    }
    if y > 0 && x < w - 1 {
      total := total + raw[p - 3 * w + 3];
      count := count + 1;
    }
    if y < h - 1 && x > 0 {
      total := total + raw[p + 3 * w - 3];
      count := count + 1;
    }
    if y < h - 1 && x < w - 1 {
      total := total + raw[p + 3 * w + 3];
      count := count + 1;
    }
  }

  /** Sums the in-frame nearest neighbours (channel 0) of (x, y) and counts them. */
  method SumCross(raw: array<int>, w: nat, h: nat, x: nat, y: nat) returns (total: int, count: nat)
    requires raw.Length == 3 * w * h && x < w && y < h
    ensures total == NeighbourSum(raw[..], w, h, x, y, 0, Cross)
    ensures count == NeighbourCount(w, h, x, y, Cross)
  {
    var p := SampleIndex(w, x, y, 0);
    ghost var s := raw[..];
    Unfold4(s, w, h, x, y, 0, Cross);
    TermAt(s, w, h, x, y, 0, Cross[0]);
    TermAt(s, w, h, x, y, 0, Cross[1]);
    TermAt(s, w, h, x, y, 0, Cross[2]);
    TermAt(s, w, h, x, y, 0, Cross[3]);
    total, count := 0, 0;
    if x > 0 {
      total := total + raw[p - 3];
      count := count + 1;
    }
    if x < w - 1 {
      total := total + raw[p + 3];
      count := count + 1;
    }
    if y < h - 1 {
      total := total + raw[p + 3 * w];
      count := count + 1;
    }
    if y > 0 {
      total := total + raw[p - 3 * w];
      count := count + 1;
    }
  }

  /** Sums the in-frame pixels above and below (channel 0) of (x, y) and counts them. */
  method SumVertical(raw: array<int>, w: nat, h: nat, x: nat, y: nat) returns (total: int, count: nat)
    requires raw.Length == 3 * w * h && x < w && y < h
    ensures total == NeighbourSum(raw[..], w, h, x, y, 0, Vertical)
    ensures count == NeighbourCount(w, h, x, y, Vertical)
  {
    var p := SampleIndex(w, x, y, 0);
    ghost var s := raw[..];
    Unfold2(s, w, h, x, y, 0, Vertical);
    TermAt(s, w, h, x, y, 0, Vertical[0]);
    TermAt(s, w, h, x, y, 0, Vertical[1]);
    total, count := 0, 0;
    if y > 0 {
      total := total + raw[p - 3 * w];
      count := count + 1;
    }
    if y < h - 1 {
      total := total + raw[p + 3 * w];
      count := count + 1;
    }
  }

  /** Sums the in-frame left and right neighbours (channel 0) of (x, y) and counts them. */
  method SumHorizontal(raw: array<int>, w: nat, h: nat, x: nat, y: nat) returns (total: int, count: nat)
    requires raw.Length == 3 * w * h && x < w && y < h
    ensures total == NeighbourSum(raw[..], w, h, x, y, 0, Horizontal)
    ensures count == NeighbourCount(w, h, x, y, Horizontal)
  {
    var p := SampleIndex(w, x, y, 0);
    ghost var s := raw[..];
    Unfold2(s, w, h, x, y, 0, Horizontal);
    TermAt(s, w, h, x, y, 0, Horizontal[0]);
    TermAt(s, w, h, x, y, 0, Horizontal[1]);
    total, count := 0, 0;
    if x > 0 {
      total := total + raw[p - 3];
      count := count + 1;
    }
    if x < w - 1 {
      total := total + raw[p + 3];
      count := count + 1;
    }
  }

  /** b differs from a at most in the three samples of pixel (x, y). */
  ghost predicate OnlyPixelChanged(a: seq<int>, b: seq<int>, w: nat, x: nat, y: nat)
  {
    |a| == |b| &&
    forall i :: 0 <= i < |a| && (i < SampleIndex(w, x, y, 0) || SampleIndex(w, x, y, 0) + 3 <= i) ==> b[i] == a[i]
  }

  /**
   * The edge routine's arithmetic: the three samples of pixel (x, y), each
   * the truncating mean of the in-frame neighbours its stencil names.
   */
  method EdgeSamples(bayer: nat, x: nat, y: nat, raw: array<int>, w: nat, h: nat) returns (blue: int, green: int, red: int)
    requires raw.Length == 3 * w * h && w >= 2 && h >= 2 && x < w && y < h && bayer < 4
    ensures blue == EdgeValue(raw[..], w, h, bayer, x, y, 0)
    ensures green == EdgeValue(raw[..], w, h, bayer, x, y, 1)
    ensures red == EdgeValue(raw[..], w, h, bayer, x, y, 2)
  {
    match bayer {
    case 0 => blue, green, red := EdgeSamplesCode0(x, y, raw, w, h);
    case 1 => blue, green, red := EdgeSamplesCode1(x, y, raw, w, h);
    case 2 => blue, green, red := EdgeSamplesCode2(x, y, raw, w, h);
    case _ => blue, green, red := EdgeSamplesCode3(x, y, raw, w, h);
    }
  }

  /** Edge samples at code 0: blue from the corners, green from the nearest neighbours, red is this sample. */
  method EdgeSamplesCode0(x: nat, y: nat, raw: array<int>, w: nat, h: nat) returns (blue: int, green: int, red: int)
    requires raw.Length == 3 * w * h && w >= 2 && h >= 2 && x < w && y < h
    ensures blue == EdgeValue(raw[..], w, h, 0, x, y, 0)
    ensures green == EdgeValue(raw[..], w, h, 0, x, y, 1)
    ensures red == EdgeValue(raw[..], w, h, 0, x, y, 2)
  {
    PixelIndexBound(w, h, x, y);
    ghost var s := raw[..];
    StencilReachesFrame(w, h, x, y, 0, 0);
    StencilReachesFrame(w, h, x, y, 0, 1);
    StencilReachesFrame(w, h, x, y, 0, 2);
    var p := SampleIndex(w, x, y, 0);
    var total, count;
    total, count := AddCorners(raw, w, h, x, y, 0, 0);
    blue := total / count;
    total, count := SumCross(raw, w, h, x, y);
    green := total / count;
    red := raw[p];
    CentreCopy(s, w, h, x, y);
  }

  /** Edge samples at code 1: blue from above and below, green from this sample and the corners, red from left and right. */
  method EdgeSamplesCode1(x: nat, y: nat, raw: array<int>, w: nat, h: nat) returns (blue: int, green: int, red: int)
    requires raw.Length == 3 * w * h && w >= 2 && h >= 2 && x < w && y < h
    ensures blue == EdgeValue(raw[..], w, h, 1, x, y, 0)
    ensures green == EdgeValue(raw[..], w, h, 1, x, y, 1)
    ensures red == EdgeValue(raw[..], w, h, 1, x, y, 2)
  {
    PixelIndexBound(w, h, x, y);
    ghost var s := raw[..];
    StencilReachesFrame(w, h, x, y, 1, 0);
    StencilReachesFrame(w, h, x, y, 1, 1);
    StencilReachesFrame(w, h, x, y, 1, 2);
    var p := SampleIndex(w, x, y, 0);
    var total, count;
    total, count := SumVertical(raw, w, h, x, y);
    blue := total / count;
    total, count := AddCorners(raw, w, h, x, y, raw[p], 1);
    green := total / count;
    CentreAndCorners(s, w, h, x, y);
    total, count := SumHorizontal(raw, w, h, x, y);
    red := total / count;
  }

  /** Edge samples at code 2: blue from left and right, green from this sample and the corners, red from above and below. */
  method EdgeSamplesCode2(x: nat, y: nat, raw: array<int>, w: nat, h: nat) returns (blue: int, green: int, red: int)
    requires raw.Length == 3 * w * h && w >= 2 && h >= 2 && x < w && y < h
    ensures blue == EdgeValue(raw[..], w, h, 2, x, y, 0)
    ensures green == EdgeValue(raw[..], w, h, 2, x, y, 1)
    ensures red == EdgeValue(raw[..], w, h, 2, x, y, 2)
  {
    PixelIndexBound(w, h, x, y);
    ghost var s := raw[..];
    StencilReachesFrame(w, h, x, y, 2, 0);
    StencilReachesFrame(w, h, x, y, 2, 1);
    StencilReachesFrame(w, h, x, y, 2, 2);
    var p := SampleIndex(w, x, y, 0);
    var total, count;
    total, count := SumHorizontal(raw, w, h, x, y);
    blue := total / count;
    total, count := AddCorners(raw, w, h, x, y, raw[p], 1);
    green := total / count;
    CentreAndCorners(s, w, h, x, y);
    total, count := SumVertical(raw, w, h, x, y);
    red := total / count;
  }

  /** Edge samples at code 3: blue is this sample, green from the nearest neighbours, red from the corners. */
  method EdgeSamplesCode3(x: nat, y: nat, raw: array<int>, w: nat, h: nat) returns (blue: int, green: int, red: int)
    requires raw.Length == 3 * w * h && w >= 2 && h >= 2 && x < w && y < h
    ensures blue == EdgeValue(raw[..], w, h, 3, x, y, 0)
    ensures green == EdgeValue(raw[..], w, h, 3, x, y, 1)
    ensures red == EdgeValue(raw[..], w, h, 3, x, y, 2)
  {
    PixelIndexBound(w, h, x, y);
    ghost var s := raw[..];
    StencilReachesFrame(w, h, x, y, 3, 0);
    StencilReachesFrame(w, h, x, y, 3, 1);
    StencilReachesFrame(w, h, x, y, 3, 2);
    var p := SampleIndex(w, x, y, 0);
    var total, count;
    blue := raw[p];
    CentreCopy(s, w, h, x, y);
    total, count := SumCross(raw, w, h, x, y);
    green := total / count;
    total, count := AddCorners(raw, w, h, x, y, 0, 0);
    red := total / count;
  }

  /** The edge routine: writes the three samples of pixel (x, y) of rgb. */
  method DebayerPixelBilinear(bayer: nat, x: nat, y: nat, raw: array<int>, rgb: array<int>, w: nat, h: nat)
    requires raw != rgb && raw.Length == 3 * w * h && rgb.Length == 3 * w * h
    requires w >= 2 && h >= 2 && x < w && y < h && bayer < 4
    modifies rgb
    ensures SampleIndex(w, x, y, 2) < rgb.Length
    ensures OnlyPixelChanged(old(rgb[..]), rgb[..], w, x, y)
    ensures rgb[SampleIndex(w, x, y, 0)] == EdgeValue(raw[..], w, h, bayer, x, y, 0)
    ensures rgb[SampleIndex(w, x, y, 1)] == EdgeValue(raw[..], w, h, bayer, x, y, 1)
    ensures rgb[SampleIndex(w, x, y, 2)] == EdgeValue(raw[..], w, h, bayer, x, y, 2)
  {
    PixelIndexBound(w, h, x, y);
    var blue, green, red := EdgeSamples(bayer, x, y, raw, w, h);
    var p := SampleIndex(w, x, y, 0);
    rgb[p] := blue;
    rgb[p + 1] := green;
    rgb[p + 2] := red;
  }

  // ---------------------------------------------------------------
  // Interior routine (fixed divisor, pointer walking the buffer)
  // ---------------------------------------------------------------

  /** Inside the border, the whole 3 by 3 block around sample ch of (x, y) lies in the buffer. */
  lemma InteriorBounds(w: nat, h: nat, x: nat, y: nat, ch: nat)
    requires ch < 3 && 1 <= x < w - 1 && 1 <= y < h - 1
    ensures 3 * w + 3 <= SampleIndex(w, x, y, ch) && SampleIndex(w, x, y, ch) + 3 * w + 3 < 3 * w * h
  {
    MulMonotone(1, y, w);
    MulMonotone(y, h - 2, w);
    assert (h - 2) * w == h * w - 2 * w;
  }

  /*
   * Inside the border every neighbour is present, so each stencil sum is the
   * plain sum of the samples at fixed distances from channel ch of (x, y).
   */

  lemma CentreSum(raw: seq<int>, w: nat, h: nat, x: nat, y: nat, ch: nat)
    requires |raw| == 3 * w * h && ch < 3 && 1 <= x < w - 1 && 1 <= y < h - 1
    ensures var q := SampleIndex(w, x, y, ch);
            3 * w + 3 <= q && q + 3 * w + 3 < |raw| &&
            NeighbourSum(raw, w, h, x, y, ch, Centre) == raw[q]
  {
    InteriorBounds(w, h, x, y, ch);
    Unfold1(raw, w, h, x, y, ch, Centre);
    TermAt(raw, w, h, x, y, ch, Offset(0, 0));
  }

  lemma CornersSum(raw: seq<int>, w: nat, h: nat, x: nat, y: nat, ch: nat)
    requires |raw| == 3 * w * h && ch < 3 && 1 <= x < w - 1 && 1 <= y < h - 1
    ensures var q := SampleIndex(w, x, y, ch);
            3 * w + 3 <= q && q + 3 * w + 3 < |raw| &&
            NeighbourSum(raw, w, h, x, y, ch, Corners)
              == raw[q - 3 * w - 3] + raw[q - 3 * w + 3] + raw[q + 3 * w - 3] + raw[q + 3 * w + 3]
  {
    InteriorBounds(w, h, x, y, ch);
    Unfold4(raw, w, h, x, y, ch, Corners);
    TermAt(raw, w, h, x, y, ch, Offset(-1, -1));
    TermAt(raw, w, h, x, y, ch, Offset(1, -1));
    TermAt(raw, w, h, x, y, ch, Offset(-1, 1));
    TermAt(raw, w, h, x, y, ch, Offset(1, 1));
  }

  lemma CrossSum(raw: seq<int>, w: nat, h: nat, x: nat, y: nat, ch: nat)
    requires |raw| == 3 * w * h && ch < 3 && 1 <= x < w - 1 && 1 <= y < h - 1
    ensures var q := SampleIndex(w, x, y, ch);
            3 * w + 3 <= q && q + 3 * w + 3 < |raw| &&
            NeighbourSum(raw, w, h, x, y, ch, Cross) == raw[q - 3] + raw[q + 3] + raw[q + 3 * w] + raw[q - 3 * w]
  {
    InteriorBounds(w, h, x, y, ch);
    Unfold4(raw, w, h, x, y, ch, Cross);
    TermAt(raw, w, h, x, y, ch, Offset(-1, 0));
    TermAt(raw, w, h, x, y, ch, Offset(1, 0));
    TermAt(raw, w, h, x, y, ch, Offset(0, 1));
    TermAt(raw, w, h, x, y, ch, Offset(0, -1));
  }

  lemma VerticalSum(raw: seq<int>, w: nat, h: nat, x: nat, y: nat, ch: nat)
    requires |raw| == 3 * w * h && ch < 3 && 1 <= x < w - 1 && 1 <= y < h - 1
    ensures var q := SampleIndex(w, x, y, ch);
            3 * w + 3 <= q && q + 3 * w + 3 < |raw| &&
            NeighbourSum(raw, w, h, x, y, ch, Vertical) == raw[q - 3 * w] + raw[q + 3 * w]
  {
    InteriorBounds(w, h, x, y, ch);
    Unfold2(raw, w, h, x, y, ch, Vertical);
    TermAt(raw, w, h, x, y, ch, Offset(0, -1));
    TermAt(raw, w, h, x, y, ch, Offset(0, 1));
  }

  lemma HorizontalSum(raw: seq<int>, w: nat, h: nat, x: nat, y: nat, ch: nat)
    requires |raw| == 3 * w * h && ch < 3 && 1 <= x < w - 1 && 1 <= y < h - 1
    ensures var q := SampleIndex(w, x, y, ch);
            3 * w + 3 <= q && q + 3 * w + 3 < |raw| &&
            NeighbourSum(raw, w, h, x, y, ch, Horizontal) == raw[q - 3] + raw[q + 3]
  {
    InteriorBounds(w, h, x, y, ch);
    Unfold2(raw, w, h, x, y, ch, Horizontal);
    TermAt(raw, w, h, x, y, ch, Offset(-1, 0));
    TermAt(raw, w, h, x, y, ch, Offset(1, 0));
  }

  /** Interior values at code 0: corners for blue, nearest neighbours for green, red copied. */
  lemma InteriorCode0(raw: seq<int>, w: nat, h: nat, x: nat, y: nat)
    requires |raw| == 3 * w * h && 1 <= x < w - 1 && 1 <= y < h - 1
    ensures var q := SampleIndex(w, x, y, 0);
            3 * w + 3 <= q && q + 3 * w + 5 < |raw| &&
            InteriorValue(raw, w, h, 0, x, y, 0)
              == (raw[q - 3 * w - 3] + raw[q - 3 * w + 3] + raw[q + 3 * w - 3] + raw[q + 3 * w + 3]) / 4 &&
            InteriorValue(raw, w, h, 0, x, y, 1)
              == (raw[q + 1 - 3] + raw[q + 1 + 3] + raw[q + 1 + 3 * w] + raw[q + 1 - 3 * w]) / 4 &&
            InteriorValue(raw, w, h, 0, x, y, 2) == raw[q + 2]
  {
    var q := SampleIndex(w, x, y, 0);
    assert SampleIndex(w, x, y, 1) == q + 1 && SampleIndex(w, x, y, 2) == q + 2;
    assert InteriorStencil(0, 0) == Corners && InteriorStencil(0, 1) == Cross && InteriorStencil(0, 2) == Centre;
    InteriorBounds(w, h, x, y, 2);
    CornersSum(raw, w, h, x, y, 0);
    CrossSum(raw, w, h, x, y, 1);
    CentreSum(raw, w, h, x, y, 2);
  }

  /** Interior values at code 1: blue from above and below, green copied, red from left and right. */
  lemma InteriorCode1(raw: seq<int>, w: nat, h: nat, x: nat, y: nat)
    requires |raw| == 3 * w * h && 1 <= x < w - 1 && 1 <= y < h - 1
    ensures var q := SampleIndex(w, x, y, 0);
            3 * w + 3 <= q && q + 3 * w + 5 < |raw| &&
            InteriorValue(raw, w, h, 1, x, y, 0) == (raw[q - 3 * w] + raw[q + 3 * w]) / 2 &&
            InteriorValue(raw, w, h, 1, x, y, 1) == raw[q + 1] &&
            InteriorValue(raw, w, h, 1, x, y, 2) == (raw[q + 2 - 3] + raw[q + 2 + 3]) / 2
  {
    var q := SampleIndex(w, x, y, 0);
    assert SampleIndex(w, x, y, 1) == q + 1 && SampleIndex(w, x, y, 2) == q + 2;
    assert InteriorStencil(1, 0) == Vertical && InteriorStencil(1, 1) == Centre && InteriorStencil(1, 2) == Horizontal;
    InteriorBounds(w, h, x, y, 2);
    VerticalSum(raw, w, h, x, y, 0);
    CentreSum(raw, w, h, x, y, 1);
    HorizontalSum(raw, w, h, x, y, 2);
  }

  /** Interior values at code 2: blue from left and right, green copied, red from above and below. */
  lemma InteriorCode2(raw: seq<int>, w: nat, h: nat, x: nat, y: nat)
    requires |raw| == 3 * w * h && 1 <= x < w - 1 && 1 <= y < h - 1
    ensures var q := SampleIndex(w, x, y, 0);
            3 * w + 3 <= q && q + 3 * w + 5 < |raw| &&
            InteriorValue(raw, w, h, 2, x, y, 0) == (raw[q - 3] + raw[q + 3]) / 2 &&
            InteriorValue(raw, w, h, 2, x, y, 1) == raw[q + 1] &&
            InteriorValue(raw, w, h, 2, x, y, 2) == (raw[q + 2 - 3 * w] + raw[q + 2 + 3 * w]) / 2
  {
    var q := SampleIndex(w, x, y, 0);
    assert SampleIndex(w, x, y, 1) == q + 1 && SampleIndex(w, x, y, 2) == q + 2;
    assert InteriorStencil(2, 0) == Horizontal && InteriorStencil(2, 1) == Centre && InteriorStencil(2, 2) == Vertical;
    InteriorBounds(w, h, x, y, 2);
    HorizontalSum(raw, w, h, x, y, 0);
    CentreSum(raw, w, h, x, y, 1);
    VerticalSum(raw, w, h, x, y, 2);
  }

  /** Interior values at code 3: blue copied, nearest neighbours for green, corners for red. */
  lemma InteriorCode3(raw: seq<int>, w: nat, h: nat, x: nat, y: nat)
    requires |raw| == 3 * w * h && 1 <= x < w - 1 && 1 <= y < h - 1
    ensures var q := SampleIndex(w, x, y, 0);
            3 * w + 3 <= q && q + 3 * w + 5 < |raw| &&
            InteriorValue(raw, w, h, 3, x, y, 0) == raw[q] &&
            InteriorValue(raw, w, h, 3, x, y, 1)
              == (raw[q + 1 - 3] + raw[q + 1 + 3] + raw[q + 1 + 3 * w] + raw[q + 1 - 3 * w]) / 4 &&
            InteriorValue(raw, w, h, 3, x, y, 2)
              == (raw[q + 2 - 3 * w - 3] + raw[q + 2 - 3 * w + 3] + raw[q + 2 + 3 * w - 3] + raw[q + 2 + 3 * w + 3]) / 4
  {
    var q := SampleIndex(w, x, y, 0);
    assert SampleIndex(w, x, y, 1) == q + 1 && SampleIndex(w, x, y, 2) == q + 2;
    assert InteriorStencil(3, 0) == Centre && InteriorStencil(3, 1) == Cross && InteriorStencil(3, 2) == Corners;
    InteriorBounds(w, h, x, y, 2);
    CentreSum(raw, w, h, x, y, 0);
    CrossSum(raw, w, h, x, y, 1);
    CornersSum(raw, w, h, x, y, 2);
  }

  /** Interior pixel of code 0, pointer at q: blue from the corners, green from the nearest neighbours, red is this sample. */
  method InteriorPixelCode0(x: nat, y: nat, raw: array<int>, rgb: array<int>, w: nat, h: nat, q: nat)
    returns (next: nat)
    requires raw != rgb && raw.Length == 3 * w * h && rgb.Length == 3 * w * h
    requires 1 <= x < w - 1 && 1 <= y < h - 1
    requires q == SampleIndex(w, x, y, 0)
    modifies rgb
    ensures next == q + 3 && q + 2 < rgb.Length
    ensures OnlyPixelChanged(old(rgb[..]), rgb[..], w, x, y)
    ensures rgb[q] == InteriorValue(raw[..], w, h, 0, x, y, 0)
    ensures rgb[q + 1] == InteriorValue(raw[..], w, h, 0, x, y, 1)
    ensures rgb[q + 2] == InteriorValue(raw[..], w, h, 0, x, y, 2)
  {
    ghost var s := raw[..];
    InteriorCode0(s, w, h, x, y);
    var r := q;
    rgb[r] := (raw[r - 3 * w - 3] + raw[r - 3 * w + 3] + raw[r + 3 * w - 3] + raw[r + 3 * w + 3]) / 4;
    r := r + 1;
    rgb[r] := (raw[r - 3] + raw[r + 3] + raw[r + 3 * w] + raw[r - 3 * w]) / 4;
    r := r + 1;
    rgb[r] := raw[r];
    r := r + 1;
    assert raw[..] == s;
    next := r;
  }

  /** Interior pixel of code 1, pointer at q: blue from above and below, green is this sample, red from left and right. */
  method InteriorPixelCode1(x: nat, y: nat, raw: array<int>, rgb: array<int>, w: nat, h: nat, q: nat)
    returns (next: nat)
    requires raw != rgb && raw.Length == 3 * w * h && rgb.Length == 3 * w * h
    requires 1 <= x < w - 1 && 1 <= y < h - 1
    requires q == SampleIndex(w, x, y, 0)
    modifies rgb
    ensures next == q + 3 && q + 2 < rgb.Length
    ensures OnlyPixelChanged(old(rgb[..]), rgb[..], w, x, y)
    ensures rgb[q] == InteriorValue(raw[..], w, h, 1, x, y, 0)
    ensures rgb[q + 1] == InteriorValue(raw[..], w, h, 1, x, y, 1)
    ensures rgb[q + 2] == InteriorValue(raw[..], w, h, 1, x, y, 2)
  {
    ghost var s := raw[..];
    InteriorCode1(s, w, h, x, y);
    var r := q;
    rgb[r] := (raw[r - 3 * w] + raw[r + 3 * w]) / 2;
    r := r + 1;
    rgb[r] := raw[r];
    r := r + 1;
    rgb[r] := (raw[r - 3] + raw[r + 3]) / 2;
    r := r + 1;
    assert raw[..] == s;
    next := r;
  }

  /** Interior pixel of code 2, pointer at q: blue from left and right, green is this sample, red from above and below. */
  method InteriorPixelCode2(x: nat, y: nat, raw: array<int>, rgb: array<int>, w: nat, h: nat, q: nat)
    returns (next: nat)
    requires raw != rgb && raw.Length == 3 * w * h && rgb.Length == 3 * w * h
    requires 1 <= x < w - 1 && 1 <= y < h - 1
    requires q == SampleIndex(w, x, y, 0)
    modifies rgb
    ensures next == q + 3 && q + 2 < rgb.Length
    ensures OnlyPixelChanged(old(rgb[..]), rgb[..], w, x, y)
    ensures rgb[q] == InteriorValue(raw[..], w, h, 2, x, y, 0)
    ensures rgb[q + 1] == InteriorValue(raw[..], w, h, 2, x, y, 1)
    ensures rgb[q + 2] == InteriorValue(raw[..], w, h, 2, x, y, 2)
  {
    ghost var s := raw[..];
    InteriorCode2(s, w, h, x, y);
    var r := q;
    rgb[r] := (raw[r - 3] + raw[r + 3]) / 2;
    r := r + 1;
    rgb[r] := raw[r];
    r := r + 1;
    rgb[r] := (raw[r - 3 * w] + raw[r + 3 * w]) / 2;
    r := r + 1;
    assert raw[..] == s;
    next := r;
  }

  /** Interior pixel of code 3, pointer at q: blue is this sample, green from the nearest neighbours, red from the corners. */
  method InteriorPixelCode3(x: nat, y: nat, raw: array<int>, rgb: array<int>, w: nat, h: nat, q: nat)
    returns (next: nat)
    requires raw != rgb && raw.Length == 3 * w * h && rgb.Length == 3 * w * h
    requires 1 <= x < w - 1 && 1 <= y < h - 1
    requires q == SampleIndex(w, x, y, 0)
    modifies rgb
    ensures next == q + 3 && q + 2 < rgb.Length
    ensures OnlyPixelChanged(old(rgb[..]), rgb[..], w, x, y)
    ensures rgb[q] == InteriorValue(raw[..], w, h, 3, x, y, 0)
    ensures rgb[q + 1] == InteriorValue(raw[..], w, h, 3, x, y, 1)
    ensures rgb[q + 2] == InteriorValue(raw[..], w, h, 3, x, y, 2)
  {
    ghost var s := raw[..];
    InteriorCode3(s, w, h, x, y);
    var r := q;
    rgb[r] := raw[r];
    r := r + 1;
    rgb[r] := (raw[r - 3] + raw[r + 3] + raw[r + 3 * w] + raw[r - 3 * w]) / 4;
    r := r + 1;
    rgb[r] := (raw[r - 3 * w - 3] + raw[r - 3 * w + 3] + raw[r + 3 * w - 3] + raw[r + 3 * w + 3]) / 4;
    r := r + 1;
    assert raw[..] == s;
    next := r;
  }

  /**
   * One pixel of the interior loop: q is the common offset of the raw and
   * output pointers (channel 0 of pixel (x, y)); each channel is written
   * from the samples around the pointer, which then advances by one.
   */
  method DebayerInteriorPixel(bayer: nat, x: nat, y: nat, raw: array<int>, rgb: array<int>, w: nat, h: nat, q: nat)
    returns (next: nat)
    requires raw != rgb && raw.Length == 3 * w * h && rgb.Length == 3 * w * h
    requires 1 <= x < w - 1 && 1 <= y < h - 1 && bayer < 4
    requires q == SampleIndex(w, x, y, 0)
    modifies rgb
    ensures next == q + 3 && q + 2 < rgb.Length
    ensures OnlyPixelChanged(old(rgb[..]), rgb[..], w, x, y)
    ensures rgb[q] == InteriorValue(raw[..], w, h, bayer, x, y, 0)
    ensures rgb[q + 1] == InteriorValue(raw[..], w, h, bayer, x, y, 1)
    ensures rgb[q + 2] == InteriorValue(raw[..], w, h, bayer, x, y, 2)
  {
    match bayer {
    case 0 => next := InteriorPixelCode0(x, y, raw, rgb, w, h, q);
    case 1 => next := InteriorPixelCode1(x, y, raw, rgb, w, h, q);
    case 2 => next := InteriorPixelCode2(x, y, raw, rgb, w, h, q);
    case _ => next := InteriorPixelCode3(x, y, raw, rgb, w, h, q);
    }
  }

  // ---------------------------------------------------------------
  // The whole frame
  // ---------------------------------------------------------------

  /** The three samples of pixel (x, y) of rgb hold the demosaiced values. */
  ghost predicate PixelDone(rgb: seq<int>, raw: seq<int>, w: nat, h: nat, code: nat, x: nat, y: nat)
    requires |raw| == 3 * w * h && |rgb| == 3 * w * h && w >= 2 && h >= 2 && x < w && y < h
  {
    PixelIndexBound(w, h, x, y);
    forall c :: 0 <= c < 3 ==> rgb[SampleIndex(w, x, y, c)] == DebayeredSample(raw, w, h, code, x, y, c)
  }

  /** Every pixel of done lies in the frame and is demosaiced in rgb. */
  ghost predicate AllDone(rgb: seq<int>, raw: seq<int>, w: nat, h: nat, code: nat, done: set<(nat, nat)>)
    requires |raw| == 3 * w * h && |rgb| == 3 * w * h && w >= 2 && h >= 2
  {
    forall pt :: pt in done ==> pt.0 < w && pt.1 < h && PixelDone(rgb, raw, w, h, code, pt.0, pt.1)
  }

  /** Writing pixel (x, y) keeps every earlier pixel demosaiced and adds (x, y) to them. */
  lemma KeepDone(a: seq<int>, b: seq<int>, raw: seq<int>, w: nat, h: nat, code: nat, done: set<(nat, nat)>, x: nat, y: nat)
    requires |raw| == 3 * w * h && |a| == 3 * w * h && w >= 2 && h >= 2 && x < w && y < h
    requires AllDone(a, raw, w, h, code, done)
    requires OnlyPixelChanged(a, b, w, x, y)
    requires PixelDone(b, raw, w, h, code, x, y)
    ensures AllDone(b, raw, w, h, code, done + {(x, y)})
  {
    forall pt | pt in done && pt != (x, y)
      ensures PixelDone(b, raw, w, h, code, pt.0, pt.1)
    {
      PixelIndexBound(w, h, pt.0, pt.1);
      if PixelIndex(w, pt.0, pt.1) == PixelIndex(w, x, y) {
        PixelIndexInjective(w, pt.0, pt.1, x, y);
      }
      assert PixelIndex(w, pt.0, pt.1) != PixelIndex(w, x, y);
      assert forall c :: 0 <= c < 3 ==> b[SampleIndex(w, pt.0, pt.1, c)] == a[SampleIndex(w, pt.0, pt.1, c)];
    }
  }

  /** Writing an edge pixel through the edge routine adds it to the demosaiced pixels. */
  lemma EdgeStep(a: seq<int>, b: seq<int>, raw: seq<int>, w: nat, h: nat, code: nat, done: set<(nat, nat)>, x: nat, y: nat)
    requires |raw| == 3 * w * h && |a| == 3 * w * h && w >= 2 && h >= 2 && x < w && y < h
    requires IsEdge(w, h, x, y)
    requires AllDone(a, raw, w, h, code, done)
    requires OnlyPixelChanged(a, b, w, x, y)
    requires SampleIndex(w, x, y, 2) < |b|
    requires b[SampleIndex(w, x, y, 0)] == EdgeValue(raw, w, h, PixelCode(code, x, y, h), x, y, 0)
    requires b[SampleIndex(w, x, y, 1)] == EdgeValue(raw, w, h, PixelCode(code, x, y, h), x, y, 1)
    requires b[SampleIndex(w, x, y, 2)] == EdgeValue(raw, w, h, PixelCode(code, x, y, h), x, y, 2)
    ensures AllDone(b, raw, w, h, code, done + {(x, y)})
  {
    assert PixelDone(b, raw, w, h, code, x, y);
    KeepDone(a, b, raw, w, h, code, done, x, y);
  }

  /** One pixel of the border through the edge routine, with the layout phases computed once per frame. */
  method EdgePixelStep(raw: array<int>, rgb: array<int>, w: nat, h: nat, code: nat, bayerX: nat, bayerY: nat,
                       x: nat, y: nat, ghost done: set<(nat, nat)>)
    returns (ghost done': set<(nat, nat)>)
    requires raw != rgb && raw.Length == 3 * w * h && rgb.Length == 3 * w * h
    requires w >= 2 && h >= 2 && code < 4 && x < w && y < h && IsEdge(w, h, x, y)
    requires bayerX == code % 2 && bayerY == Xor((code / 2) % 2, h % 2)
    requires AllDone(rgb[..], raw[..], w, h, code, done)
    modifies rgb
    ensures done' == done + {(x, y)}
    ensures AllDone(rgb[..], raw[..], w, h, code, done')
  {
    var bayer := ((x + bayerX) % 2) + 2 * ((y + bayerY) % 2);
    ghost var before := rgb[..];
    assert bayer == PixelCode(code, x, y, h);
    DebayerPixelBilinear(bayer, x, y, raw, rgb, w, h);
    EdgeStep(before, rgb[..], raw[..], w, h, code, done, x, y);
    done' := done + {(x, y)};
  }

  /** One interior pixel through the interior routine; the raw pointer moves on by one pixel. */
  method InteriorPixelStep(raw: array<int>, rgb: array<int>, w: nat, h: nat, code: nat, bayerX: nat, bayerY: nat,
                           x: nat, y: nat, rawPtr: nat, ghost done: set<(nat, nat)>)
    returns (next: nat, ghost done': set<(nat, nat)>)
    requires raw != rgb && raw.Length == 3 * w * h && rgb.Length == 3 * w * h
    requires w >= 2 && h >= 2 && code < 4 && 1 <= x < w - 1 && 1 <= y < h - 1
    requires bayerX == code % 2 && bayerY == Xor((code / 2) % 2, h % 2)
    requires rawPtr == SampleIndex(w, x, y, 0)
    requires AllDone(rgb[..], raw[..], w, h, code, done)
    modifies rgb
    ensures next == rawPtr + 3
    ensures done' == done + {(x, y)}
    ensures AllDone(rgb[..], raw[..], w, h, code, done')
  {
    var bayer := ((x + bayerX) % 2) + 2 * ((y + bayerY) % 2);
    ghost var before := rgb[..];
    assert bayer == PixelCode(code, x, y, h);
    next := DebayerInteriorPixel(bayer, x, y, raw, rgb, w, h, rawPtr);
    InteriorStep(before, rgb[..], raw[..], w, h, code, done, x, y);
    done' := done + {(x, y)};
  }

  /** The bottom (y = 0) or top (y = h - 1) line through the edge routine, left to right. */
  method DebayerLine(raw: array<int>, rgb: array<int>, w: nat, h: nat, code: nat, y: nat, ghost done: set<(nat, nat)>)
    returns (ghost done': set<(nat, nat)>)
    requires raw != rgb && raw.Length == 3 * w * h && rgb.Length == 3 * w * h
    requires w >= 2 && h >= 2 && code < 4 && (y == 0 || y == h - 1)
    requires AllDone(rgb[..], raw[..], w, h, code, done)
    modifies rgb
    ensures AllDone(rgb[..], raw[..], w, h, code, done')
    ensures done <= done'
    ensures forall i, j :: 0 <= i < w && j == y ==> (i, j) in done'
  {
    var bayerX := code % 2;
    var bayerY := Xor((code / 2) % 2, h % 2);
    done' := done;
    var x := 0;
    while x < w
      invariant x <= w
      invariant AllDone(rgb[..], raw[..], w, h, code, done')
      invariant done <= done'
      invariant forall i, j :: 0 <= i < x && j == y ==> (i, j) in done'
    {
      done' := EdgePixelStep(raw, rgb, w, h, code, bayerX, bayerY, x, y, done');
      x := x + 1;
    }
  }

  /** The left (x = 0) or right (x = w - 1) edge between the two lines, bottom to top. */
  method DebayerColumn(raw: array<int>, rgb: array<int>, w: nat, h: nat, code: nat, x: nat, ghost done: set<(nat, nat)>)
    returns (ghost done': set<(nat, nat)>)
    requires raw != rgb && raw.Length == 3 * w * h && rgb.Length == 3 * w * h
    requires w >= 2 && h >= 2 && code < 4 && (x == 0 || x == w - 1)
    requires AllDone(rgb[..], raw[..], w, h, code, done)
    modifies rgb
    ensures AllDone(rgb[..], raw[..], w, h, code, done')
    ensures done <= done'
    ensures forall i, j :: i == x && 1 <= j < h - 1 ==> (i, j) in done'
  {
    var bayerX := code % 2;
    var bayerY := Xor((code / 2) % 2, h % 2);
    done' := done;
    var y := 1;
    while y < h - 1
      invariant 1 <= y <= h - 1
      invariant AllDone(rgb[..], raw[..], w, h, code, done')
      invariant done <= done'
      invariant forall i, j :: i == x && 1 <= j < y ==> (i, j) in done'
    {
      done' := EdgePixelStep(raw, rgb, w, h, code, bayerX, bayerY, x, y, done');
      y := y + 1;
    }
  }

  /**
   * Row y of the interior, left to right: the raw and output pointers start
   * at pixel (1, y) and advance three samples per pixel.
   */
  method DebayerInteriorRow(raw: array<int>, rgb: array<int>, w: nat, h: nat, code: nat, y: nat,
                            rgbPtr0: nat, rawPtr0: nat, ghost done: set<(nat, nat)>)
    returns (rgbPtr: nat, rawPtr: nat, ghost done': set<(nat, nat)>)
    requires raw != rgb && raw.Length == 3 * w * h && rgb.Length == 3 * w * h
    requires w >= 2 && h >= 2 && code < 4 && 1 <= y < h - 1
    requires rawPtr0 == rgbPtr0 == SampleIndex(w, 1, y, 0)
    requires AllDone(rgb[..], raw[..], w, h, code, done)
    modifies rgb
    ensures rawPtr == rgbPtr == SampleIndex(w, w - 1, y, 0)
    ensures AllDone(rgb[..], raw[..], w, h, code, done')
    ensures done <= done'
    ensures forall i, j :: 1 <= i < w - 1 && j == y ==> (i, j) in done'
  {
    var bayerX := code % 2;
    var bayerY := Xor((code / 2) % 2, h % 2);
    rgbPtr, rawPtr, done' := rgbPtr0, rawPtr0, done;
    var x := 1;
    while x < w - 1
      invariant 1 <= x <= w - 1
      invariant rawPtr == rgbPtr == SampleIndex(w, x, y, 0)
      invariant AllDone(rgb[..], raw[..], w, h, code, done')
      invariant done <= done'
      invariant forall i, j :: 1 <= i < x && j == y ==> (i, j) in done'
    {
      rawPtr, done' := InteriorPixelStep(raw, rgb, w, h, code, bayerX, bayerY, x, y, rawPtr, done');
      rgbPtr := rgbPtr + 3;
      x := x + 1;
    }
  }

  /**
   * The interior, row by row: both pointers start at pixel (1, 1) and skip
   * the two border pixels between rows.
   */
  method DebayerInterior(raw: array<int>, rgb: array<int>, w: nat, h: nat, code: nat, ghost done: set<(nat, nat)>)
    returns (ghost done': set<(nat, nat)>)
    requires raw != rgb && raw.Length == 3 * w * h && rgb.Length == 3 * w * h
    requires w >= 2 && h >= 2 && code < 4
    requires AllDone(rgb[..], raw[..], w, h, code, done)
    modifies rgb
    ensures AllDone(rgb[..], raw[..], w, h, code, done')
    ensures done <= done'
    ensures forall i, j :: 1 <= i < w - 1 && 1 <= j < h - 1 ==> (i, j) in done'
  {
    done' := done;
    var rgbPtr: nat := 3 * (w + 1);
    var rawPtr: nat := 3 * (w + 1);
    var y := 1;
    while y < h - 1
      invariant 1 <= y <= h - 1
      invariant rawPtr == rgbPtr == SampleIndex(w, 1, y, 0)
      invariant AllDone(rgb[..], raw[..], w, h, code, done')
      invariant done <= done'
      invariant forall i, j :: 1 <= i < w - 1 && 1 <= j < y ==> (i, j) in done'
    {
      rgbPtr, rawPtr, done' := DebayerInteriorRow(raw, rgb, w, h, code, y, rgbPtr, rawPtr, done');
      rgbPtr := rgbPtr + 6;
      rawPtr := rawPtr + 6;
      y := y + 1;
    }
  }

  /**
   * Demosaic the frame into a new buffer as SER Player's `debayer_image_bilinear` does: the bottom line,
   * the top line, the left and the right edge through the edge routine, then
   * the interior through the fixed-divisor routine.
   */
  method DebayerBuffer(raw: array<int>, w: nat, h: nat, code: nat) returns (rgb: array<int>)
    requires raw.Length == 3 * w * h && w >= 2 && h >= 2 && code < 4
    ensures fresh(rgb)
    ensures rgb[..] == Debayered(raw[..], w, h, code)
  {
    rgb := new int[3 * w * h];
    ghost var done: set<(nat, nat)> := {};
    done := DebayerLine(raw, rgb, w, h, code, 0, done);
    done := DebayerLine(raw, rgb, w, h, code, h - 1, done);
    done := DebayerColumn(raw, rgb, w, h, code, 0, done);
    done := DebayerColumn(raw, rgb, w, h, code, w - 1, done);
    done := DebayerInterior(raw, rgb, w, h, code, done);
    AllDoneIsDebayered(rgb[..], raw[..], w, h, code, done);
  }

  /** Writing an interior pixel through the interior routine adds it to the demosaiced pixels. */
  lemma InteriorStep(a: seq<int>, b: seq<int>, raw: seq<int>, w: nat, h: nat, code: nat, done: set<(nat, nat)>, x: nat, y: nat)
    requires |raw| == 3 * w * h && |a| == 3 * w * h && 1 <= x < w - 1 && 1 <= y < h - 1
    requires AllDone(a, raw, w, h, code, done)
    requires OnlyPixelChanged(a, b, w, x, y)
    requires SampleIndex(w, x, y, 2) < |b|
    requires b[SampleIndex(w, x, y, 0)] == InteriorValue(raw, w, h, PixelCode(code, x, y, h), x, y, 0)
    requires b[SampleIndex(w, x, y, 1)] == InteriorValue(raw, w, h, PixelCode(code, x, y, h), x, y, 1)
    requires b[SampleIndex(w, x, y, 2)] == InteriorValue(raw, w, h, PixelCode(code, x, y, h), x, y, 2)
    ensures AllDone(b, raw, w, h, code, done + {(x, y)})
  {
    assert PixelDone(b, raw, w, h, code, x, y);
    KeepDone(a, b, raw, w, h, code, done, x, y);
  }

  /** Sample k of a fully demosaiced rgb is the k-th sample of the demosaiced frame. */
  lemma SampleDone(rgb: seq<int>, raw: seq<int>, w: nat, h: nat, code: nat, done: set<(nat, nat)>, k: nat)
    requires |raw| == 3 * w * h && |rgb| == 3 * w * h && w >= 2 && h >= 2 && k < 3 * w * h
    requires AllDone(rgb, raw, w, h, code, done)
    requires forall i, j :: 0 <= i < w && 0 <= j < h ==> (i, j) in done
    ensures rgb[k] == DebayeredAt(raw, w, h, code, k)
  {
    var p, c := k / 3, k % 3;
    assert k == 3 * p + c;
    PixelOfIndex(w, h, p);
    var x, y := p % w, p / w;
    assert (x, y) in done;
    assert k == SampleIndex(w, x, y, c);
  }

  /** Once every pixel is done, the buffer is the demosaiced frame. */
  lemma AllDoneIsDebayered(rgb: seq<int>, raw: seq<int>, w: nat, h: nat, code: nat, done: set<(nat, nat)>)
    requires |raw| == 3 * w * h && |rgb| == 3 * w * h && w >= 2 && h >= 2
    requires AllDone(rgb, raw, w, h, code, done)
    requires forall i, j :: 0 <= i < w && 0 <= j < h ==> (i, j) in done
    ensures rgb == Debayered(raw, w, h, code)
  {
    forall k | 0 <= k < |rgb|
      ensures rgb[k] == Debayered(raw, w, h, code)[k]
    {
      SampleDone(rgb, raw, w, h, code, done, k);
    }
  }
}
