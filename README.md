# SER player core in Dafny

A model of the core of SER Player, a viewer for SER video files (the
frame-sequence format of astronomical cameras). Four parts are modelled, and
their properties are proved:

- **Bilinear demosaicer** (`debayer.dfy`, module `Debayer`). It turns a Bayer
  mosaic held in a 3-sample-per-pixel buffer into a B, G, R frame. It handles
  the RGGB, GRBG, GBRG and BGGR layouts. The four border lines go through the
  edge routine, which averages only the neighbours inside the frame and
  divides by their count. The interior goes through the routine with a fixed
  divisor.
- **Display converter** (`convert.dfy`, module `DisplayConvert`). It turns the
  frame into display rows:
  - the rows are flipped vertically;
  - samples are swapped to R, G, B after demosaicing or for BGR files;
  - 16-bit samples are narrowed to their high byte;
  - each row is padded with zeros to a multiple of four bytes.
- **Playback state** (`player.dfy`, module `Playback`, class `Player`). It holds
  the state (no file, stopped, playing, paused, finished), the frame counter,
  the frame timer and the frame buffer. The timer tick, the play, stop, forward
  and back buttons, saving, the slider and opening a file act on that state.
- **Histogram counter** (`histogram.dfy`, module `Histogram`, class
  `HistogramThread`). It copies a frame, bins every sample of every channel
  into 256 buckets, finds the largest count and rescales the buckets to the
  bar height.

`frame.dfy` (module `Frame`) holds the shared vocabulary: colour layouts,
sample ranges and the row-major index of a pixel's samples.

Buffers are Dafny arrays. The methods that fill them are loops with
invariants. Each method is proved against a function that states the whole
result:

| method | specification function |
|---|---|
| `DebayerBuffer` | `Debayered` |
| `ConvertForDisplay` | `ConvertedAt` |
| `CountColour` | `Tally` of `Channel` |

The properties the program relies on are proved as lemmas about those
functions: range preservation, the copy of a pixel's own colour, the
position of a pixel on screen, and bucket counts that sum to the pixel count.

## Model

| member | source | states |
|---|---|---|
| Frame.MaxSample | src/ser_player.cpp:957 | one byte per sample gives 8-bit samples (maximum 255); anything else gives 16-bit samples (maximum 65535) |
| Debayer.PixelCode | src/ser_player.cpp:1319-1328 | the per-pixel code computed from the layout phase is always one of the four cases 0..3 of the pixel routines |
| Debayer.LayoutAnchoredAtLastRow | src/ser_player.cpp:1296-1328 | with the height-parity correction of the row phase, pixel (x, y) is given the colour the layout's name assigns to column x mod 2, row (h-1-y) mod 2 of its 2x2 tile, so the layout is anchored at the last stored row for odd and even heights alike |
| Debayer.StencilReachesFrame | src/ser_player.cpp:1054-1287 | in a frame at least 2 by 2, every neighbour set the edge routine averages has at least one neighbour inside the frame, so its division never divides by zero |
| Debayer.InteriorStencilInFrame | src/ser_player.cpp:1354-1421 | one pixel or more inside the border, every neighbour of every interior stencil is inside the frame, so the fixed divisor equals the number of samples summed |
| Debayer.DebayeredPixel | src/ser_player.cpp:1323-1425 | sample c of pixel (x, y) of the demosaiced frame sits at 3(yw+x)+c and is the edge value on the border and the interior value elsewhere |
| Debayer.DebayeredSampleBetween | src/ser_player.cpp:1054-1421 | a reconstructed sample lies between any bounds that hold for the neighbours it averages, at the border and inside |
| Debayer.DebayeredWithin | src/ser_player.cpp:1293-1425 | when every raw sample lies in [lo, hi], every demosaiced sample does too |
| Debayer.DebayeredInRange | src/ser_player.cpp:1323-1541 | demosaicing keeps samples within the sample type, 255 for the 8-bit branch and 65535 for the 16-bit branch |
| Debayer.UniformField | src/ser_player.cpp:1293-1425 | a uniform raw field K is demosaiced to K in every channel of every pixel |
| Debayer.OwnColourCopied | src/ser_player.cpp:1114-1116 | a pixel's own colour is copied unchanged: red at code 0 and blue at code 3 everywhere, and green at codes 1 and 2 inside the border; at the border, green at codes 1 and 2 is the truncated mean of the centre and its in-frame corners (lines 1234-1235 and 1361-1415 give the other cases) |
| Debayer.AddCorners | src/ser_player.cpp:1064-1086 | the loop over the four corners adds exactly the in-frame corner samples to the running total and their number to the count |
| Debayer.SumCross | src/ser_player.cpp:1089-1111 | the total and count over the four nearest neighbours are the sum and number of those inside the frame |
| Debayer.SumVertical | src/ser_player.cpp:1119-1131 | the total and count over the pixels above and below are the sum and number of those inside the frame |
| Debayer.SumHorizontal | src/ser_player.cpp:1159-1171 | the total and count over the left and right pixels are the sum and number of those inside the frame |
| Debayer.EdgeSamplesCode0 | src/ser_player.cpp:1063-1116 | at code 0, blue is the mean of the in-frame corners, green the mean of the in-frame nearest neighbours, and red the pixel itself, each as EdgeValue |
| Debayer.EdgeSamplesCode1 | src/ser_player.cpp:1118-1173 | at code 1, blue is the mean of the pixels above and below, green the mean of the centre and corners, and red the mean of the left and right pixels, each as EdgeValue |
| Debayer.EdgeSamplesCode2 | src/ser_player.cpp:1175-1230 | at code 2, blue is the mean of the left and right pixels, green the mean of the centre and corners, and red the mean of the pixels above and below, each as EdgeValue |
| Debayer.EdgeSamplesCode3 | src/ser_player.cpp:1232-1285 | at code 3, blue is the pixel itself, green the mean of the in-frame nearest neighbours, and red the mean of the in-frame corners, each as EdgeValue |
| Debayer.EdgeSamples | src/ser_player.cpp:1061-1286 | the three edge samples of any pixel are EdgeValue of its code for blue, green and red |
| Debayer.DebayerPixelBilinear | src/ser_player.cpp:1054-1287 | the edge routine writes the three EdgeValue samples of pixel (x, y) into the output and changes no other pixel |
| Debayer.InteriorCode0 | src/ser_player.cpp:1361-1374 | at code 0 inside the border: blue is the four-corner sum / 4, green the four-neighbour sum / 4, red the centre |
| Debayer.InteriorCode1 | src/ser_player.cpp:1376-1387 | at code 1 inside the border: blue is (above + below) / 2, green the centre, red (left + right) / 2 |
| Debayer.InteriorCode2 | src/ser_player.cpp:1389-1400 | at code 2 inside the border: blue is (left + right) / 2, green the centre, red (above + below) / 2 |
| Debayer.InteriorCode3 | src/ser_player.cpp:1402-1415 | at code 3 inside the border: blue is the centre, green the four-neighbour sum / 4, red the four-corner sum / 4 |
| Debayer.InteriorPixelCode0 | src/ser_player.cpp:1361-1374 | writes InteriorValue of code 0 for the three channels of pixel (x, y), changes no other pixel, and advances the pointer by one pixel |
| Debayer.InteriorPixelCode1 | src/ser_player.cpp:1376-1387 | as InteriorPixelCode0, for code 1 |
| Debayer.InteriorPixelCode2 | src/ser_player.cpp:1389-1400 | as InteriorPixelCode0, for code 2 |
| Debayer.InteriorPixelCode3 | src/ser_player.cpp:1402-1415 | as InteriorPixelCode0, for code 3 |
| Debayer.DebayerInteriorPixel | src/ser_player.cpp:1359-1420 | the switch on the pixel code writes InteriorValue for the three channels and moves the read and write pointers on by one pixel |
| Debayer.EdgePixelStep | src/ser_player.cpp:1328-1329 | from the phases bayer_x and bayer_y, a border pixel's code is computed and the edge routine run for it, which adds that pixel to the finished ones |
| Debayer.InteriorPixelStep | src/ser_player.cpp:1358-1420 | from the phases, an interior pixel's code is computed and the interior routine run for it, which adds that pixel to the finished ones and advances the pointer by one pixel |
| Debayer.DebayerLine | src/ser_player.cpp:1325-1337 | the bottom-line or top-line loop finishes every pixel of that row and keeps every earlier pixel finished |
| Debayer.DebayerColumn | src/ser_player.cpp:1339-1351 | the left-edge or right-edge loop finishes the column's pixels between the first and last rows and keeps every earlier pixel finished |
| Debayer.DebayerInteriorRow | src/ser_player.cpp:1356-1421 | one interior row finishes its pixels 1..w-2 and ends with both pointers at the row's last pixel |
| Debayer.DebayerInterior | src/ser_player.cpp:1353-1421 | the interior loop finishes every pixel inside the border |
| Debayer.DebayerBuffer | src/ser_player.cpp:1319-1421 | the full demosaicing pass fills a new buffer equal to the demosaiced frame Debayered |
| Debayer.AllDoneIsDebayered | src/ser_player.cpp:1323-1421 | once every pixel is finished, the output buffer equals Debayered: no sample is left unwritten |
| DisplayConvert.LinePad | src/ser_player.cpp:949-952 | the pad is below 4 and makes each row a multiple of 4 bytes; it is zero exactly when the row already is |
| DisplayConvert.AllocationFits | src/ser_player.cpp:954-955 | the allocated (w+pad)*h*3 bytes hold the h padded rows of 3w+pad bytes that are written |
| DisplayConvert.Narrow | src/ser_player.cpp:957-1018 | an 8-bit sample is copied as it is (the 1-byte branches); a 16-bit sample becomes its high byte (v >> 8); a sample within its type always becomes a value in 0..255 |
| DisplayConvert.ConvertedPixel | src/ser_player.cpp:957-1025 | sample c of pixel (x, y) lands in display row h-1-y at byte 3x+c, or 3x+2-c when swapping to RGB, narrowed to 8 bits |
| DisplayConvert.ConvertedPadZero | src/ser_player.cpp:973-975 | the pad bytes after the 3w image bytes of each row are zero |
| DisplayConvert.ConvertedIsBytes | src/ser_player.cpp:957-1025 | every output byte lies in 0..255 when the frame's samples fit their type |
| DisplayConvert.ConvertRow | src/ser_player.cpp:962-976 | one pass of the row loop writes the flipped row's stride bytes and keeps every earlier byte |
| DisplayConvert.ConvertForDisplay | src/ser_player.cpp:946-1026 | a new buffer of the allocated size whose first stride*h bytes are the converted rows |
| Playback.RoundedQuotient | src/ser_player.cpp:1702-1705 | the nearest integer to a/b with halves rounded up: the remainder satisfies -b <= 2(a - qb) < b |
| Playback.DisplayFrameTime | src/ser_player.cpp:1696-1724 | 20 ms when no display rate is chosen and the file has no rate; otherwise the nearest integer to 1000*scale/rate for the file's rate, or to 1000/rate for a chosen rate |
| Playback.ShownPixel | src/ser_player.cpp:782-789 | after a successful read, sample c of pixel (x, y) is shown in display row h-1-y at byte 3x+c, or 3x+2-c after demosaicing or for BGR. It is narrowed to 8 bits, and it is the demosaiced sample when the layout is a handled Bayer layout and demosaicing is on, the raw sample otherwise |
| Playback.ShownIsBytes | src/ser_player.cpp:782-789 | whatever the layout and the demosaic switch, every displayed byte fits 8 bits |
| Playback.Player.constructor | src/ser_player.cpp:315-316 | the player starts with no file, frame 1 and the timer off |
| Playback.Player.FrameTimerTimeout | src/ser_player.cpp:803-829 | without a file the tick only stops the timer. Otherwise: outside PLAYING it stops the timer; before the last frame it advances the counter; at the last frame it wraps to 1 if repeat is on, and otherwise goes to FINISHED with the counter kept. The counter stays in [1, total] |
| Playback.Player.PlayButtonPressed | src/ser_player.cpp:860-883 | PLAYING goes to PAUSED with the timer still running; FINISHED restarts playing from frame 1; STOPPED and PAUSED start playing at the current frame |
| Playback.Player.StopButtonPressed | src/ser_player.cpp:886-895 | with a file open: STOPPED, frame 1, timer off; without one nothing changes |
| Playback.Player.ForwardButtonPressed | src/ser_player.cpp:832-842 | outside NO_FILE and PLAYING, the counter moves on by one unless at the last frame; the state and timer are kept |
| Playback.Player.BackButtonPressed | src/ser_player.cpp:845-857 | outside NO_FILE and PLAYING, the counter moves back by one unless at frame 1; the state and timer are kept |
| Playback.Player.SaveFrame | src/ser_player.cpp:700-740 | a frame is saved if and only if a file is open, playback is not running and a file name was chosen |
| Playback.Player.DebayerImageBilinear | src/ser_player.cpp:1293-1425 | true exactly for the RGGB, GRBG, GBRG and BGGR layouts, and then the buffer is the demosaiced frame; otherwise false with the buffer untouched |
| Playback.Player.ConvDataReadyForQImage | src/ser_player.cpp:946-1031 | the buffer is replaced by a new one of the allocated size holding the display rows |
| Playback.Player.LoadFrame | src/ser_player.cpp:750-792 | the frame is read into a new buffer; when the read succeeded, the buffer's display rows are ShownFrame of that frame |
| Playback.Player.FrameSliderChanged | src/ser_player.cpp:743-800 | without a file the counter is reset to 1. With one, the frame is read: a successful read shows it; a failed read keeps the raw frame and stops the timer; the playback state is kept |
| Playback.Player.OpenSerFile | src/ser_player.cpp:577-697 | playback is stopped first. An invalid file (no frames) leaves no file, or STOPPED at frame 1 if one was open. A valid file takes its geometry, shows frame 1, sets the frame time and ends PLAYING at frame 1 with the timer on |
| Histogram.SampleBucket | src/histogram_thread.cpp:84-97 | an 8-bit sample is its own bucket; a little-endian 16-bit sample falls in the bucket of its high byte, b*256 <= value < b*256+256 |
| Histogram.TallyCounts | src/histogram_thread.cpp:84-98 | bucket b of the tally is the number of samples equal to b (their multiset count) |
| Histogram.ChannelTallySum | src/histogram_thread.cpp:84-98 | each channel's buckets add up to the number of pixels |
| Histogram.BinSample | src/histogram_thread.cpp:84-97 | binning sample j of pixel i turns the tally of the first i samples into the tally of the first i+1 |
| Histogram.CountColour | src/histogram_thread.cpp:79-98 | starting from zeroed tables, each of the blue, green and red tables ends as the tally of its channel over all pixels |
| Histogram.CountMono | src/histogram_thread.cpp:156-169 | starting from a zeroed table, the table ends as the tally of all samples |
| Histogram.ZeroTable | src/histogram_thread.cpp:79-81 | every bucket is zero |
| Histogram.FindMax | src/histogram_thread.cpp:103-107 | the result is at least every bucket of the channels in use (three for colour, one for mono), and is a bucket's value unless all are zero or negative (then it is 0) |
| Histogram.Normalise | src/histogram_thread.cpp:110-128 | every bucket becomes 0 when its count is 0, and otherwise the log-scaled height for the maximum and the bar height |
| Histogram.HistogramThread.constructor | src/histogram_thread.cpp:31-32 | a new counter is done with a run count of 0 |
| Histogram.HistogramThread.GenerateHistogram | src/histogram_thread.cpp:49-66 | the counter becomes busy, takes the frame's geometry and depth, and holds its own copy of the frame's w*h*depth (times 3 for colour) bytes |
| Histogram.HistogramThread.LoadedHoldsPixels | src/histogram_thread.cpp:54-60 | a loaded buffer holds every sample of every pixel at the chosen depth |
| Histogram.HistogramThread.Run | src/histogram_thread.cpp:69-211 | Colour: each of the three channel tables holds the rescaled tally of its channel, for the largest count over all three. Mono: the blue table holds the rescaled tally of all samples and the green and red tables are untouched. The counter ends done, with the run count one higher |

## Left out

- The Qt user interface: window, labels, pixmap and image painting, the
  menus, the message boxes and the frame-rate label.
- The SER file reader. A frame read becomes the parameter `frame`, and its
  result becomes `readResult`, negative on failure. The file header becomes
  the parameters of `OpenSerFile`. File I/O and the save dialog become the
  parameter `fileChosen`.
- The mutex, `QTimer`, `QThread`, `start` and `msleep`. The timer is the flag
  `timerRunning`, and a histogram run is the call `Run`.
- Floating point in `calculate_display_framerate`. The rounding of
  `1000 / rate + 0.5` is modelled exactly on rationals, not on doubles.
- The histogram's logarithmic scaling (`log`, doubles) of a non-zero bucket.
  It is the function parameter `logScale`.
- Playback.DisplayFrameTime: a chosen display rate of 0 is excluded, because
  the source divides by it.
- Debayer.DebayerBuffer: requires a frame at least 2 by 2, and so also
  excludes a width or height of 0. For a width or a height of 1 the edge
  routine can find no neighbour and divides by zero. A height of 0 makes
  the top-line loop (src/ser_player.cpp lines 1333-1337) work on row -1 when
  the width is positive. A width of 0 makes the right-edge loop (lines
  1347-1351) work on column -1 when the height is above 2.
- The 8-bit and 16-bit copies of the demosaicer (lines 1314-1425 and
  1427-1541) are modelled once, on unbounded samples. The sample type's range
  shows only through `MaxSample` and `DebayeredInRange`; truncating division
  of non-negative sums needs no wrap-around.
- The converter's four loop nests are modelled as one loop with a swap flag.
  The `memcpy` branches are the unswapped copy.
- DisplayConvert.ConvertForDisplay: the `(w + pad) * h * 3` allocation is
  larger than the `(3w + pad) * h` bytes written. The tail beyond the written
  rows is left unspecified, because the source never writes it.
- Buffers in the player are modelled as arrays of samples, not of bytes. The
  histogram, which reads 16-bit samples byte by byte, is modelled on bytes.
- The slider's `valueChanged` signal, which makes a tick, a button press or a
  stop reload the displayed frame. Those methods change the counter only.
  `FrameSliderChanged` models the reload and is called separately.
- The slider's range. It is taken as `[1, totalFrames]`. After a failed open
  the source keeps the old slider maximum.
- Playback.Player.PlayButtonPressed: with no file open, the source opens the
  file dialog. That path is `OpenSerFile`, and the method itself changes
  nothing.
- Histogram.HistogramThread.Run: the copy of the frame is freed in the
  source. The model keeps the buffer.
- Histogram.HistogramThread.GenerateHistogram: requires a depth of 1 or 2
  bytes per sample, the only depths a SER frame has.
- The three normalisation loops of the colour branch are three calls of one
  method, `Normalise`.
- Two consequences of the code that `OpenSerFile` keeps:
  - a successful open ends in PLAYING, because `open_ser_file` presses play
    at line 695;
  - a failed open while a file was open leaves the player STOPPED at frame 1,
    because the stop at line 579 runs first.
- 32-bit sizes and counters: the frame size (`int32_t frame_size`,
  src/ser_player.cpp lines 604 and 754), the converter's `buffer_size`, and
  the histogram's `m_buffer_size`, `int` tables and loop counters
  (src/histogram_thread.cpp lines 56-58) are 32-bit in the source. The model
  uses unbounded integers, so their overflow on very large frames is not
  modelled.
- Histogram.SampleBucket: the source reads a 16-bit sample by casting the
  byte buffer to `uint16_t *` (src/histogram_thread.cpp lines 92 and 165),
  so the sample's byte order is the host's. The model fixes it as
  little-endian, the byte order of the hosts the player is built for, which
  makes the high byte the odd-indexed one.
