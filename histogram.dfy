/**
 * The histogram worker: it copies a frame, bins its samples into 256-bucket
 * tables per channel (blue only for mono frames), finds the largest bucket
 * and rescales the tables for drawing.
 */
module Histogram {

  type Byte = b: int | 0 <= b < 256

  /** Bar heights available for one table: a third of the colour graph, or the mono graph, less the margins. */
  const ColourBarHeight: int := 300 / 3 - 13
  const MonoBarHeight: int := 150 - 13

  /** The unsigned 16-bit value stored little-endian in the two bytes lo, hi. */
  function LittleEndian16(lo: Byte, hi: Byte): (v: nat)
    ensures v < 65536
  {
    lo + 256 * hi
  }

  /** Position of sample ch of pixel i among the samples: B, G, R interleaved for colour, one sample for mono. */
  function SampleOf(colour: bool, i: nat, ch: nat): nat
  {
    if colour then 3 * i + ch else i
  }

  /** Bytes of buffer needed for n pixels of the given depth. */
  predicate HoldsPixels(buf: seq<Byte>, byteDepth: nat, colour: bool, n: nat)
  {
    if colour then (if byteDepth == 1 then 3 * n else 6 * n) <= |buf|
    else (if byteDepth == 1 then n else 2 * n) <= |buf|
  }

  /**
   * Bucket of sample j: the byte itself at depth 1; at depth 2 the 16-bit
   * sample shifted right by 8, which is its high byte and always < 256.
   */
  function SampleBucket(buf: seq<Byte>, byteDepth: nat, j: nat): (b: Byte)
    requires if byteDepth == 1 then j < |buf| else 2 * j + 1 < |buf|
    ensures byteDepth == 1 ==> b == buf[j]
    ensures byteDepth != 1 ==> b == buf[2 * j + 1] && b * 256 <= LittleEndian16(buf[2 * j], buf[2 * j + 1]) < b * 256 + 256
  {
    if byteDepth == 1 then buf[j] else LittleEndian16(buf[2 * j], buf[2 * j + 1]) / 256
  }

  /** A fresh array holding the first size bytes of image. */
  method CopyBytes(image: seq<Byte>, size: nat) returns (copy: array<Byte>)
    requires size <= |image|
    ensures fresh(copy) && copy[..] == image[..size]
  {
    copy := new Byte[size];
    var i := 0;
    while i < size
      invariant 0 <= i <= size == copy.Length
      invariant forall j :: 0 <= j < i ==> copy[j] == image[j]
    {
      copy[i] := image[i];
      i := i + 1;
    }
  }

  /** Reads the bucket of sample j from the frame copy, as the binning loops do. */
  method ReadBucket(buffer: array<Byte>, byteDepth: nat, j: nat) returns (b: Byte)
    requires if byteDepth == 1 then j < buffer.Length else 2 * j + 1 < buffer.Length
    ensures b == SampleBucket(buffer[..], byteDepth, j)
  {
    if byteDepth == 1 {
      b := buffer[j];
    } else {
      b := LittleEndian16(buffer[2 * j], buffer[2 * j + 1]) / 256;
    }
  }

  /** Buckets of channel ch for the first n pixels, in pixel order. */
  function Channel(buf: seq<Byte>, byteDepth: nat, colour: bool, ch: nat, n: nat): (s: seq<Byte>)
    requires HoldsPixels(buf, byteDepth, colour, n) && (if colour then ch < 3 else ch == 0)
    ensures |s| == n
  {
    seq(n, i requires 0 <= i < n => SampleBucket(buf, byteDepth, SampleOf(colour, i, ch)))
  }

  lemma ChannelSnoc(buf: seq<Byte>, byteDepth: nat, colour: bool, ch: nat, n: nat)
    requires HoldsPixels(buf, byteDepth, colour, n + 1) && (if colour then ch < 3 else ch == 0)
    ensures HoldsPixels(buf, byteDepth, colour, n)
    ensures Channel(buf, byteDepth, colour, ch, n + 1)
            == Channel(buf, byteDepth, colour, ch, n) + [SampleBucket(buf, byteDepth, SampleOf(colour, n, ch))]
  {
  }

  /** Number of occurrences of each bucket value in s. */
  function Tally(s: seq<Byte>): (t: seq<nat>)
    ensures |t| == 256
    decreases |s|
  {
    if s == [] then seq(256, b => 0)
    else
      var t := Tally(s[..|s| - 1]);
      t[s[|s| - 1] := t[s[|s| - 1]] + 1]
  }

  lemma TallySnoc(s: seq<Byte>, b: Byte)
    ensures Tally(s + [b]) == Tally(s)[b := Tally(s)[b] + 1]
  {
    assert (s + [b])[..|s|] == s;
  }

  /** The tally of a bucket is the multiplicity of that bucket among the samples. */
  lemma {:induction false} TallyCounts(s: seq<Byte>, b: Byte)
    ensures Tally(s)[b] == multiset(s)[b]
    decreases |s|
  {
    if s != [] {
      var init, last := s[..|s| - 1], s[|s| - 1];
      assert s == init + [last];
      TallyCounts(init, b);
    }
  }

  function Sum(t: seq<nat>): nat
    decreases |t|
  {
    if t == [] then 0 else Sum(t[..|t| - 1]) + t[|t| - 1]
  }

  lemma {:induction false} SumBump(t: seq<nat>, b: nat)
    requires b < |t|
    ensures Sum(t[b := t[b] + 1]) == Sum(t) + 1
    decreases |t|
  {
    var u := t[b := t[b] + 1];
    assert u[..|u| - 1] == if b < |t| - 1 then t[..|t| - 1][b := t[b] + 1] else t[..|t| - 1];
    if b < |t| - 1 {
      SumBump(t[..|t| - 1], b);
    }
  }

  lemma {:induction false} SumZero(n: nat)
    ensures Sum(seq(n, b => 0)) == 0
  {
    if n > 0 {
      assert seq(n, b => 0)[..n - 1] == seq(n - 1, b => 0);
      SumZero(n - 1);
    }
  }

  /** A tally distributes all the samples: its buckets add up to the number of samples. */
  lemma {:induction false} TallySum(s: seq<Byte>)
    ensures Sum(Tally(s)) == |s|
    decreases |s|
  {
    if s == [] {
      SumZero(256);
    } else {
      TallySum(s[..|s| - 1]);
      SumBump(Tally(s[..|s| - 1]), s[|s| - 1]);
    }
  }

  /** Each table fills with exactly one count per pixel: its buckets add up to W * H. */
  lemma ChannelTallySum(buf: seq<Byte>, byteDepth: nat, colour: bool, ch: nat, n: nat)
    requires HoldsPixels(buf, byteDepth, colour, n) && (if colour then ch < 3 else ch == 0)
    ensures Sum(Tally(Channel(buf, byteDepth, colour, ch, n))) == n
  {
    TallySum(Channel(buf, byteDepth, colour, ch, n));
  }

  /**
   * One step of a binning loop: sample j, channel ch of pixel i, is added to
   * table, which then tallies the first i + 1 pixels of that channel.
   */
  method BinSample(buffer: array<Byte>, byteDepth: nat, colour: bool, ch: nat, i: nat, j: nat, table: array<int>)
    requires HoldsPixels(buffer[..], byteDepth, colour, i + 1) && (if colour then ch < 3 else ch == 0)
    requires j == SampleOf(colour, i, ch) && table.Length == 256
    requires table[..] == Tally(Channel(buffer[..], byteDepth, colour, ch, i))
    modifies table
    ensures table[..] == Tally(Channel(buffer[..], byteDepth, colour, ch, i + 1))
  {
    ChannelSnoc(buffer[..], byteDepth, colour, ch, i);
    var b := ReadBucket(buffer, byteDepth, j);
    TallySnoc(Channel(buffer[..], byteDepth, colour, ch, i), b);
    table[b] := table[b] + 1;
  }

  /** One step of the colour binning loop: the B, G, R samples of pixel i, starting at sample p. */
  method BinPixel(buffer: array<Byte>, byteDepth: nat, i: nat, p: nat, blue: array<int>, green: array<int>, red: array<int>)
    requires HoldsPixels(buffer[..], byteDepth, true, i + 1) && p == 3 * i
    requires blue.Length == 256 && green.Length == 256 && red.Length == 256
    requires blue != green && blue != red && green != red
    requires blue[..] == Tally(Channel(buffer[..], byteDepth, true, 0, i))
    requires green[..] == Tally(Channel(buffer[..], byteDepth, true, 1, i))
    requires red[..] == Tally(Channel(buffer[..], byteDepth, true, 2, i))
    modifies blue, green, red
    ensures blue[..] == Tally(Channel(buffer[..], byteDepth, true, 0, i + 1))
    ensures green[..] == Tally(Channel(buffer[..], byteDepth, true, 1, i + 1))
    ensures red[..] == Tally(Channel(buffer[..], byteDepth, true, 2, i + 1))
  {
    BinSample(buffer, byteDepth, true, 0, i, p, blue);
    BinSample(buffer, byteDepth, true, 1, i, p + 1, green);
    BinSample(buffer, byteDepth, true, 2, i, p + 2, red);
  }

  /** Bins the interleaved B, G, R samples of the first n pixels into the three tables. */
  method CountColour(buffer: array<Byte>, byteDepth: nat, n: nat, blue: array<int>, green: array<int>, red: array<int>)
    requires HoldsPixels(buffer[..], byteDepth, true, n)
    requires blue.Length == 256 && green.Length == 256 && red.Length == 256
    requires blue != green && blue != red && green != red
    requires forall b :: 0 <= b < 256 ==> blue[b] == 0 && green[b] == 0 && red[b] == 0
    modifies blue, green, red
    ensures blue[..] == Tally(Channel(buffer[..], byteDepth, true, 0, n))
    ensures green[..] == Tally(Channel(buffer[..], byteDepth, true, 1, n))
    ensures red[..] == Tally(Channel(buffer[..], byteDepth, true, 2, n))
  {
    assert blue[..] == Tally([]) && green[..] == Tally([]) && red[..] == Tally([]);
    var p := 0;
    var i := 0;
    while i < n
      invariant 0 <= i <= n && p == 3 * i
      invariant blue[..] == Tally(Channel(buffer[..], byteDepth, true, 0, i))
      invariant green[..] == Tally(Channel(buffer[..], byteDepth, true, 1, i))
      invariant red[..] == Tally(Channel(buffer[..], byteDepth, true, 2, i))
    {
      BinPixel(buffer, byteDepth, i, p, blue, green, red);
      p := p + 3;
      i := i + 1;
    }
  }

  /** Bins the single sample of each of the first n pixels into the blue table. */
  method CountMono(buffer: array<Byte>, byteDepth: nat, n: nat, blue: array<int>)
    requires HoldsPixels(buffer[..], byteDepth, false, n)
    requires blue.Length == 256
    requires forall b :: 0 <= b < 256 ==> blue[b] == 0
    modifies blue
    ensures blue[..] == Tally(Channel(buffer[..], byteDepth, false, 0, n))
  {
    assert blue[..] == Tally([]);
    var i := 0;
    while i < n
      invariant 0 <= i <= n
      invariant blue[..] == Tally(Channel(buffer[..], byteDepth, false, 0, i))
    {
      BinSample(buffer, byteDepth, false, 0, i, i, blue);
      i := i + 1;
    }
  }

  /** m is the largest count in the tables in use (blue only for mono), or 0 when all are empty. */
  ghost predicate IsMaxCount(m: int, blue: seq<int>, green: seq<int>, red: seq<int>, colour: bool)
    requires |blue| == 256 && |green| == 256 && |red| == 256
  {
    0 <= m &&
    (forall i :: 0 <= i < 256 ==> blue[i] <= m && (colour ==> green[i] <= m && red[i] <= m)) &&
    (m == 0 || exists i :: 0 <= i < 256 && (blue[i] == m || (colour && (green[i] == m || red[i] == m))))
  }

  /** A bucket after rescaling: its scaled log height if it has counts, 0 if it is empty. */
  function Rescaled(count: int, maxValue: int, barHeight: int, logScale: (int, int, int) -> int): int
  {
    if count > 0 then logScale(count, maxValue, barHeight) else 0
  }

  /** Sets every entry of table to 0. */
  method ZeroTable(table: array<int>)
    modifies table
    ensures forall i :: 0 <= i < table.Length ==> table[i] == 0
  {
    var i := 0;
    while i < table.Length
      invariant 0 <= i <= table.Length
      invariant forall j :: 0 <= j < i ==> table[j] == 0
    {
      table[i] := 0;
      i := i + 1;
    }
  }

  /** The largest entry over the tables in use, starting from 0. */
  method FindMax(blue: array<int>, green: array<int>, red: array<int>, colour: bool) returns (maxValue: int)
    requires blue.Length == 256 && green.Length == 256 && red.Length == 256
    ensures IsMaxCount(maxValue, blue[..], green[..], red[..], colour)
  {
    maxValue := 0;
    var i := 0;
    while i < 256
      invariant 0 <= i <= 256 && 0 <= maxValue
      invariant forall j :: 0 <= j < i ==> blue[j] <= maxValue && (colour ==> green[j] <= maxValue && red[j] <= maxValue)
      invariant maxValue == 0 || exists j :: 0 <= j < i && (blue[j] == maxValue || (colour && (green[j] == maxValue || red[j] == maxValue)))
    {
      maxValue := if blue[i] > maxValue then blue[i] else maxValue;
      if colour {
        maxValue := if green[i] > maxValue then green[i] else maxValue;
        maxValue := if red[i] > maxValue then red[i] else maxValue;
      }
      i := i + 1;
    }
  }

  /** Rewrites every bucket of table as its rescaled height. */
  method Normalise(table: array<int>, maxValue: int, barHeight: int, logScale: (int, int, int) -> int)
    modifies table
    ensures forall i :: 0 <= i < table.Length ==> table[i] == Rescaled(old(table[i]), maxValue, barHeight, logScale)
  {
    var i := 0;
    while i < table.Length
      invariant 0 <= i <= table.Length
      invariant forall j :: 0 <= j < i ==> table[j] == Rescaled(old(table[j]), maxValue, barHeight, logScale)
      invariant forall j :: i <= j < table.Length ==> table[j] == old(table[j])
    {
      if table[i] > 0 {
        table[i] := logScale(table[i], maxValue, barHeight);
      } else {
        table[i] := 0;
      }
      i := i + 1;
    }
  }

  class HistogramThread {
    var histogramDone: bool
    var runCount: int
    var width: nat
    var height: nat
    var colour: bool
    var byteDepth: nat
    var bufferSize: nat
    var buffer: array<Byte>
    var blueTable: array<int>
    var greenTable: array<int>
    var redTable: array<int>

    /** Three distinct 256-bucket tables. */
    ghost predicate Valid()
      reads this
    {
      blueTable.Length == 256 && greenTable.Length == 256 && redTable.Length == 256 &&
      blueTable != greenTable && blueTable != redTable && greenTable != redTable
    }

    /** A copied frame of byte depth 1 or 2 whose size is W * H * depth, times 3 for colour. */
    ghost predicate Loaded()
      reads this
    {
      Valid() && (byteDepth == 1 || byteDepth == 2) &&
      bufferSize == (if colour then width * height * byteDepth * 3 else width * height * byteDepth) &&
      buffer.Length == bufferSize
    }

    constructor()
      ensures Valid() && histogramDone && runCount == 0
    {
      histogramDone := true;
      runCount := 0;
      width, height, colour, byteDepth, bufferSize := 0, 0, false, 1, 0;
      buffer := new Byte[0];
      blueTable := new int[256];
      greenTable := new int[256];
      redTable := new int[256];
    }

    /**
     * Takes a copy of the frame's bytes (W * H * depth, times 3 for colour)
     * and marks the histogram as not done; starting the worker thread is
     * left to the caller, which then runs Run.
     */
    method GenerateHistogram(image: seq<Byte>, w: nat, h: nat, isColour: bool, depth: nat)
      requires Valid()
      requires depth == 1 || depth == 2
      requires (if isColour then w * h * depth * 3 else w * h * depth) <= |image|
      modifies this
      ensures Loaded() && !histogramDone && runCount == old(runCount)
      ensures width == w && height == h && colour == isColour && byteDepth == depth
      ensures blueTable == old(blueTable) && greenTable == old(greenTable) && redTable == old(redTable)
      ensures fresh(buffer) && buffer[..] == image[..bufferSize]
    {
      histogramDone := false;
      width := w;
      height := h;
      colour := isColour;
      byteDepth := depth;
      var size := w * h * depth;
      size := if isColour then size * 3 else size;
      var copy := CopyBytes(image, size);
      bufferSize := size;
      buffer := copy;
    }

    /** The copied frame holds the pixels the binning loops read. */
    lemma LoadedHoldsPixels()
      requires Loaded()
      ensures HoldsPixels(buffer[..], byteDepth, colour, width * height)
    {
      var n := width * height;
      assert n * byteDepth == width * height * byteDepth;
      if colour {
        assert 3 * n * byteDepth == width * height * byteDepth * 3;
      }
    }

    /**
     * The worker: zeroes the tables in use, bins the samples, takes the
     * largest bucket, rescales every bucket (logScale stands for the
     * floating-point log scaling of non-empty buckets), then counts the run
     * and marks the histogram done.
     */
    method Run(logScale: (int, int, int) -> int) returns (maxValue: int)
      requires Loaded()
      modifies this, blueTable, greenTable, redTable
      ensures Loaded() && histogramDone && runCount == old(runCount) + 1
      ensures buffer == old(buffer) && width == old(width) && height == old(height)
      ensures colour == old(colour) && byteDepth == old(byteDepth)
      ensures blueTable == old(blueTable) && greenTable == old(greenTable) && redTable == old(redTable)
      ensures HoldsPixels(buffer[..], byteDepth, colour, width * height)
      ensures colour ==>
                var blue := Tally(Channel(buffer[..], byteDepth, colour, 0, width * height));
                var green := Tally(Channel(buffer[..], byteDepth, colour, 1, width * height));
                var red := Tally(Channel(buffer[..], byteDepth, colour, 2, width * height));
                IsMaxCount(maxValue, blue, green, red, true) &&
                forall i :: 0 <= i < 256 ==>
                  blueTable[i] == Rescaled(blue[i], maxValue, ColourBarHeight, logScale) &&
                  greenTable[i] == Rescaled(green[i], maxValue, ColourBarHeight, logScale) &&
                  redTable[i] == Rescaled(red[i], maxValue, ColourBarHeight, logScale)
      ensures !colour ==>
                var blue := Tally(Channel(buffer[..], byteDepth, colour, 0, width * height));
                IsMaxCount(maxValue, blue, old(greenTable[..]), old(redTable[..]), false) &&
                (forall i :: 0 <= i < 256 ==> blueTable[i] == Rescaled(blue[i], maxValue, MonoBarHeight, logScale)) &&
                greenTable[..] == old(greenTable[..]) && redTable[..] == old(redTable[..])
    {
      LoadedHoldsPixels();
      if colour {
        ZeroTable(blueTable);
        ZeroTable(greenTable);
        ZeroTable(redTable);
        CountColour(buffer, byteDepth, width * height, blueTable, greenTable, redTable);
        maxValue := FindMax(blueTable, greenTable, redTable, colour);
        Normalise(blueTable, maxValue, ColourBarHeight, logScale);
        Normalise(greenTable, maxValue, ColourBarHeight, logScale);
        Normalise(redTable, maxValue, ColourBarHeight, logScale);
      } else {
        ZeroTable(blueTable);
        CountMono(buffer, byteDepth, width * height, blueTable);
        maxValue := FindMax(blueTable, greenTable, redTable, colour);
        Normalise(blueTable, maxValue, MonoBarHeight, logScale);
      }
      runCount := runCount + 1;
      histogramDone := true;
    }
  }
}
