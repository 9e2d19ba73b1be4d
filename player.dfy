/**
 * The player window's playback state: the current state, the frame counter,
 * the frame count of the open file, the frame timer and the frame buffer the
 * display is built from, driven by the timer tick and the buttons.
 */
module Playback {
  import opened Frame
  import opened Debayer
  import opened DisplayConvert

  datatype State = NoFile | Stopped | Playing | Paused | Finished

  /** Nearest integer to a / b, halves rounded up: the value of floor(a / b + 0.5). */
  function RoundedQuotient(a: int, b: int): (q: int)
    requires b > 0
    ensures -b <= 2 * (a - q * b) < b
  {
    (2 * a + b) / (2 * b)
  }

  /**
   * Milliseconds between frames: from the file's frame rate (fpsScale /
   * fpsRate seconds) when no display rate is chosen, 20 ms when the file has
   * no rate, 1000 / displayFramerate otherwise; all rounded to the nearest
   * millisecond.
   */
  function DisplayFrameTime(displayFramerate: int, fpsRate: int, fpsScale: int): (t: int)
    requires displayFramerate != 0
    ensures displayFramerate < 0 && fpsRate <= 0 ==> t == 20
    ensures displayFramerate < 0 && fpsRate > 0 ==> -fpsRate <= 2 * (1000 * fpsScale - t * fpsRate) < fpsRate
    ensures displayFramerate > 0 ==> -displayFramerate <= 2 * (1000 - t * displayFramerate) < displayFramerate
  {
    if displayFramerate < 0 then
      if fpsRate > 0 then RoundedQuotient(1000 * fpsScale, fpsRate) else 20
    else
      RoundedQuotient(1000, displayFramerate)
  }

  /** Whether the frame is demosaiced before display. */
  predicate Debayers(colour: ColourId, enableDebayer: bool)
  {
    enableDebayer && BayerCode(colour).Some?
  }

  /** What the demosaicer (when it runs) and the converter make of a frame read from the file. */
  function ShownFrame(frame: seq<int>, w: nat, h: nat, bytesPerSample: nat, colour: ColourId, enableDebayer: bool): (r: seq<int>)
    requires |frame| == 3 * w * h
    requires Debayers(colour, enableDebayer) ==> w >= 2 && h >= 2
    ensures |r| == Stride(w) * h
  {
    var debayered := Debayers(colour, enableDebayer);
    var samples := if debayered then Debayered(frame, w, h, BayerCode(colour).value) else frame;
    seq(Stride(w) * h, k requires 0 <= k < Stride(w) * h =>
      ConvertedAt(samples, w, h, bytesPerSample, debayered || colour == Bgr, k))
  }

  /**
   * Sample c of pixel (x, y) as displayed: demosaiced when the layout is a
   * handled Bayer layout and demosaicing is on, then narrowed to 8 bits and
   * placed in the flipped row, swapped to R, G, B after demosaicing or for BGR.
   */
  lemma ShownPixel(frame: seq<int>, w: nat, h: nat, bytesPerSample: nat, colour: ColourId, enableDebayer: bool,
                   x: nat, y: nat, c: nat)
    requires |frame| == 3 * w * h
    requires Debayers(colour, enableDebayer) ==> w >= 2 && h >= 2
    requires x < w && y < h && c < 3
    ensures var swap := Debayers(colour, enableDebayer) || colour == Bgr;
            var k := PixelIndex(Stride(w), 3 * x + (if swap then 2 - c else c), h - 1 - y);
            SampleIndex(w, x, y, c) < |frame| && k < Stride(w) * h &&
            ShownFrame(frame, w, h, bytesPerSample, colour, enableDebayer)[k]
              == Narrow(if Debayers(colour, enableDebayer)
                        then DebayeredSample(frame, w, h, BayerCode(colour).value, x, y, c)
                        else frame[SampleIndex(w, x, y, c)], bytesPerSample)
  {
    var debayered := Debayers(colour, enableDebayer);
    var samples := if debayered then Debayered(frame, w, h, BayerCode(colour).value) else frame;
    ConvertedPixel(samples, w, h, bytesPerSample, debayered || colour == Bgr, x, y, c);
    if debayered {
      DebayeredPixel(frame, w, h, BayerCode(colour).value, x, y, c);
    }
  }

  /** Whatever the layout, every displayed byte fits 8 bits when the frame's samples fit their type. */
  lemma ShownIsBytes(frame: seq<int>, w: nat, h: nat, bytesPerSample: nat, colour: ColourId, enableDebayer: bool)
    requires |frame| == 3 * w * h
    requires Debayers(colour, enableDebayer) ==> w >= 2 && h >= 2
    requires SamplesInRange(frame, MaxSample(bytesPerSample))
    ensures SamplesInRange(ShownFrame(frame, w, h, bytesPerSample, colour, enableDebayer), 255)
  {
    var debayered := Debayers(colour, enableDebayer);
    var samples := if debayered then Debayered(frame, w, h, BayerCode(colour).value) else frame;
    if debayered {
      DebayeredInRange(frame, w, h, BayerCode(colour).value, MaxSample(bytesPerSample));
    }
    forall k | 0 <= k < Stride(w) * h
      ensures 0 <= ShownFrame(frame, w, h, bytesPerSample, colour, enableDebayer)[k] <= 255
    {
      ConvertedIsBytes(samples, w, h, bytesPerSample, debayered || colour == Bgr, k);
    }
  }

  /** A new buffer holding s. */
  method BufferFrom(s: seq<int>) returns (a: array<int>)
    ensures fresh(a) && a[..] == s
  {
    a := new int[|s|];
    var i := 0;
    while i < |s|
      invariant 0 <= i <= |s|
      invariant forall j :: 0 <= j < i ==> a[j] == s[j]
    {
      a[i] := s[i];
      i := i + 1;
    }
  }

  class Player {
    var currentState: State
    var framecount: int
    var totalFrames: int
    var timerRunning: bool
    var displayFrameTime: int
    var frameWidth: nat
    var frameHeight: nat
    var bytesPerSample: nat
    var colourId: ColourId
    var frameBuffer: array<int>

    /**
     * With a file open the counter lies in [1, totalFrames] (or is 1 when the
     * last open failed and left no frames); without one it is 1; the timer
     * runs neither without a file nor when stopped.
     */
    ghost predicate Valid()
      reads this
    {
      (currentState == NoFile ==> framecount == 1) &&
      (currentState != NoFile ==> 1 <= framecount && (framecount <= totalFrames || framecount == 1)) &&
      (currentState == NoFile || currentState == Stopped ==> !timerRunning)
    }

    /** Everything but the playback fields is as it was. */
    twostate predicate SameFrame()
      reads this
    {
      totalFrames == old(totalFrames) && displayFrameTime == old(displayFrameTime) &&
      frameWidth == old(frameWidth) && frameHeight == old(frameHeight) &&
      bytesPerSample == old(bytesPerSample) && colourId == old(colourId) &&
      frameBuffer == old(frameBuffer)
    }

    /** Start-up: no file, frame 1, timer off, an empty buffer. */
    constructor()
      ensures Valid()
      ensures currentState == NoFile && framecount == 1 && !timerRunning && totalFrames == 0
      ensures frameBuffer.Length == 0
    {
      currentState := NoFile;
      framecount := 1;
      totalFrames := 0;
      timerRunning := false;
      displayFrameTime := 20;
      frameWidth := 0;
      frameHeight := 0;
      bytesPerSample := 1;
      colourId := Mono;
      frameBuffer := new int[0];
    }

    /**
     * Timer tick: without a file it only stops the timer.  Otherwise a tick
     * outside PLAYING stops the timer but still moves on; the counter advances
     * before the last frame, wraps to 1 at the last frame when repeat is on,
     * and the state becomes FINISHED (counter kept) when repeat is off.
     */
    method FrameTimerTimeout(repeat: bool)
      requires Valid()
      modifies this
      ensures Valid() && SameFrame()
      ensures old(currentState) == NoFile ==>
                currentState == NoFile && framecount == old(framecount) && !timerRunning
      ensures old(currentState) != NoFile ==>
                timerRunning == (old(timerRunning) && old(currentState) == Playing) &&
                if old(framecount) < totalFrames then
                  framecount == old(framecount) + 1 && currentState == old(currentState)
                else if repeat then
                  framecount == 1 && currentState == old(currentState)
                else
                  framecount == old(framecount) && currentState == Finished
    {
      if currentState == NoFile {
        timerRunning := false;
      } else {
        if currentState != Playing {
          timerRunning := false;
        }
        if framecount < totalFrames {
          framecount := framecount + 1;
        } else {
          if repeat {
            framecount := 1;
          } else {
            currentState := Finished;
          }
        }
      }
    }

    /**
     * Play button with a file open: pauses while playing (the timer keeps
     * running), restarts from frame 1 when finished, and otherwise plays on
     * from the current frame.  Without a file the button opens the file
     * dialog, which OpenSerFile models; here nothing changes.
     */
    method PlayButtonPressed()
      requires Valid()
      modifies this
      ensures Valid() && SameFrame()
      ensures old(currentState) == NoFile ==>
                currentState == NoFile && framecount == old(framecount) && timerRunning == old(timerRunning)
      ensures old(currentState) == Playing ==>
                currentState == Paused && framecount == old(framecount) && timerRunning == old(timerRunning)
      ensures old(currentState) == Finished ==> currentState == Playing && framecount == 1 && timerRunning
      ensures old(currentState) in {Stopped, Paused} ==>
                currentState == Playing && framecount == old(framecount) && timerRunning
    {
      if currentState == NoFile {
      } else {
        if currentState == Playing {
          currentState := Paused;
        } else if currentState == Finished {
          currentState := Playing;
          timerRunning := true;
          framecount := 1;
        } else {
          currentState := Playing;
          timerRunning := true;
        }
      }
    }

    /** Stop button: with a file open, STOPPED at frame 1 with the timer off; without one, nothing. */
    method StopButtonPressed()
      requires Valid()
      modifies this
      ensures Valid() && SameFrame()
      ensures old(currentState) == NoFile ==>
                currentState == NoFile && framecount == old(framecount) && timerRunning == old(timerRunning)
      ensures old(currentState) != NoFile ==> currentState == Stopped && framecount == 1 && !timerRunning
    {
      if currentState != NoFile {
        currentState := Stopped;
        timerRunning := false;
        framecount := 1;
      }
    }

    /** Forward button: outside NO_FILE and PLAYING, one frame on unless at the last frame. */
    method ForwardButtonPressed()
      requires Valid()
      modifies this
      ensures Valid() && SameFrame()
      ensures currentState == old(currentState) && timerRunning == old(timerRunning)
      ensures framecount == if old(currentState) !in {NoFile, Playing} && old(framecount) < totalFrames
                            then old(framecount) + 1 else old(framecount)
    {
      if currentState != NoFile && currentState != Playing {
        var value := framecount;
        if value < totalFrames {
          value := value + 1;
        }
        framecount := value;
      }
    }

    /** Back button: outside NO_FILE and PLAYING, one frame back unless at frame 1. */
    method BackButtonPressed()
      requires Valid()
      modifies this
      ensures Valid() && SameFrame()
      ensures currentState == old(currentState) && timerRunning == old(timerRunning)
      ensures framecount == if old(currentState) !in {NoFile, Playing} && old(framecount) > 1
                            then old(framecount) - 1 else old(framecount)
    {
      if currentState != NoFile && currentState != Playing {
        var value := framecount;
        if value > 1 {
          value := value - 1;
        }
        framecount := value;
      }
    }

    /** Saving a frame is offered only with a file open and playback not running. */
    method SaveFrame(fileChosen: bool) returns (saved: bool)
      ensures saved <==> fileChosen && currentState != NoFile && currentState != Playing
    {
      saved := false;
      if currentState != NoFile && currentState != Playing {
        if fileChosen {
          saved := true;
        }
      }
    }

    /**
     * The demosaicer's wrapper: false and the buffer untouched for a layout
     * other than RGGB, GRBG, GBRG and BGGR; otherwise the buffer is replaced
     * by the demosaiced frame.
     */
    method DebayerImageBilinear() returns (ok: bool)
      requires frameBuffer.Length == 3 * frameWidth * frameHeight
      requires BayerCode(colourId).Some? ==> frameWidth >= 2 && frameHeight >= 2
      modifies this
      ensures currentState == old(currentState) && framecount == old(framecount) && timerRunning == old(timerRunning)
      ensures totalFrames == old(totalFrames) && displayFrameTime == old(displayFrameTime)
      ensures frameWidth == old(frameWidth) && frameHeight == old(frameHeight)
      ensures bytesPerSample == old(bytesPerSample) && colourId == old(colourId)
      ensures ok <==> BayerCode(colourId).Some?
      ensures !ok ==> frameBuffer == old(frameBuffer)
      ensures ok ==> fresh(frameBuffer) &&
                     frameBuffer[..] == Debayered(old(frameBuffer[..]), frameWidth, frameHeight, BayerCode(colourId).value)
    {
      var bayerCode := BayerCode(colourId);
      if bayerCode.None? {
        return false;
      }
      var rgb := DebayerBuffer(frameBuffer, frameWidth, frameHeight, bayerCode.value);
      frameBuffer := rgb;
      ok := true;
    }

    /** The converter's wrapper: the buffer is replaced by the display rows. */
    method ConvDataReadyForQImage(imageDebayered: bool)
      requires frameBuffer.Length == 3 * frameWidth * frameHeight
      modifies this
      ensures currentState == old(currentState) && framecount == old(framecount) && timerRunning == old(timerRunning)
      ensures totalFrames == old(totalFrames) && displayFrameTime == old(displayFrameTime)
      ensures frameWidth == old(frameWidth) && frameHeight == old(frameHeight)
      ensures bytesPerSample == old(bytesPerSample) && colourId == old(colourId)
      ensures fresh(frameBuffer) && frameBuffer.Length == BufferSize(frameWidth, frameHeight)
      ensures Stride(frameWidth) * frameHeight <= frameBuffer.Length
      ensures forall k :: 0 <= k < Stride(frameWidth) * frameHeight ==>
                frameBuffer[k] == ConvertedAt(old(frameBuffer[..]), frameWidth, frameHeight, bytesPerSample,
                                              imageDebayered || colourId == Bgr, k)
    {
      var out := ConvertForDisplay(frameBuffer, frameWidth, frameHeight, bytesPerSample, imageDebayered || colourId == Bgr);
      frameBuffer := out;
    }

    /** Reads a frame into a new buffer and, when the read succeeded, prepares it for display. */
    method LoadFrame(readResult: int, frame: seq<int>, enableDebayer: bool)
      requires |frame| == 3 * frameWidth * frameHeight
      requires Debayers(colourId, enableDebayer) ==> frameWidth >= 2 && frameHeight >= 2
      modifies this
      ensures currentState == old(currentState) && framecount == old(framecount) && timerRunning == old(timerRunning)
      ensures totalFrames == old(totalFrames) && displayFrameTime == old(displayFrameTime)
      ensures frameWidth == old(frameWidth) && frameHeight == old(frameHeight)
      ensures bytesPerSample == old(bytesPerSample) && colourId == old(colourId)
      ensures fresh(frameBuffer)
      ensures readResult < 0 ==> frameBuffer[..] == frame
      ensures readResult >= 0 ==>
                Stride(frameWidth) * frameHeight <= frameBuffer.Length &&
                frameBuffer[..Stride(frameWidth) * frameHeight]
                  == ShownFrame(frame, frameWidth, frameHeight, bytesPerSample, colourId, enableDebayer)
    {
      frameBuffer := BufferFrom(frame);
      if readResult >= 0 {
        var imageDebayered := false;
        if enableDebayer {
          imageDebayered := DebayerImageBilinear();
        }
        assert imageDebayered == Debayers(colourId, enableDebayer);
        ghost var samples := frameBuffer[..];
        ConvDataReadyForQImage(imageDebayered);
        ghost var n := Stride(frameWidth) * frameHeight;
        assert forall k :: 0 <= k < n ==>
          frameBuffer[..n][k] == ShownFrame(frame, frameWidth, frameHeight, bytesPerSample, colourId, enableDebayer)[k];
      }
    }

    /**
     * Slider moved to the counter's value: without a file the counter is reset
     * to 1; otherwise the frame is read, and prepared for display when the
     * read succeeded, while a failed read stops the timer.
     */
    method FrameSliderChanged(readResult: int, frame: seq<int>, enableDebayer: bool)
      requires Valid()
      requires currentState != NoFile ==> |frame| == 3 * frameWidth * frameHeight
      requires currentState != NoFile && Debayers(colourId, enableDebayer) ==> frameWidth >= 2 && frameHeight >= 2
      modifies this
      ensures Valid()
      ensures currentState == old(currentState) && framecount == old(framecount)
      ensures totalFrames == old(totalFrames) && displayFrameTime == old(displayFrameTime)
      ensures frameWidth == old(frameWidth) && frameHeight == old(frameHeight)
      ensures bytesPerSample == old(bytesPerSample) && colourId == old(colourId)
      ensures timerRunning == (old(timerRunning) && (currentState == NoFile || readResult >= 0))
      ensures currentState == NoFile ==> frameBuffer == old(frameBuffer)
      ensures currentState != NoFile && readResult < 0 ==> frameBuffer[..] == frame
      ensures currentState != NoFile && readResult >= 0 ==>
                Stride(frameWidth) * frameHeight <= frameBuffer.Length &&
                frameBuffer[..Stride(frameWidth) * frameHeight]
                  == ShownFrame(frame, frameWidth, frameHeight, bytesPerSample, colourId, enableDebayer)
    {
      if currentState == NoFile {
        framecount := 1;
      } else {
        LoadFrame(readResult, frame, enableDebayer);
        if readResult < 0 {
          timerRunning := false;
        }
      }
    }

    /**
     * Opening a file: playback is stopped first and the file's frame count
     * taken.  An invalid file (count <= 0) changes nothing more, so after a
     * file was open the player is STOPPED at frame 1 with no frames.  A valid
     * file sets the frame geometry, shows frame 1 as STOPPED, sets the frame
     * time, re-reads frame 1 through the slider and then starts playing.
     */
    method OpenSerFile(total: int, width: nat, height: nat, bps: nat, colour: ColourId, frame: seq<int>,
                       readResult: int, displayFramerate: int, fpsRate: int, fpsScale: int, enableDebayer: bool)
      requires Valid()
      requires displayFramerate != 0
      requires total > 0 ==> |frame| == 3 * width * height
      requires total > 0 && Debayers(colour, enableDebayer) ==> width >= 2 && height >= 2
      modifies this
      ensures Valid()
      ensures totalFrames == total
      ensures total <= 0 && old(currentState) == NoFile ==>
                currentState == NoFile && framecount == 1 && !timerRunning
      ensures total <= 0 && old(currentState) != NoFile ==>
                currentState == Stopped && framecount == 1 && !timerRunning
      ensures total <= 0 ==>
                frameBuffer == old(frameBuffer) && frameWidth == old(frameWidth) && frameHeight == old(frameHeight) &&
                bytesPerSample == old(bytesPerSample) && colourId == old(colourId) &&
                displayFrameTime == old(displayFrameTime)
      ensures total > 0 ==>
                currentState == Playing && framecount == 1 && timerRunning &&
                frameWidth == width && frameHeight == height && bytesPerSample == bps && colourId == colour &&
                displayFrameTime == DisplayFrameTime(displayFramerate, fpsRate, fpsScale)
      ensures total > 0 && readResult < 0 ==> frameBuffer[..] == frame
      ensures total > 0 && readResult >= 0 ==>
                Stride(width) * height <= frameBuffer.Length &&
                frameBuffer[..Stride(width) * height] == ShownFrame(frame, width, height, bps, colour, enableDebayer)
    {
      StopButtonPressed();
      totalFrames := total;
      if totalFrames <= 0 {
        // Invalid file: the warning box is the only other effect
      } else {
        frameWidth := width;
        frameHeight := height;
        bytesPerSample := bps;
        colourId := colour;
        LoadFrame(0, frame, enableDebayer);
        currentState := Stopped;
        framecount := 1;
        displayFrameTime := DisplayFrameTime(displayFramerate, fpsRate, fpsScale);
        FrameSliderChanged(readResult, frame, enableDebayer);
        PlayButtonPressed();
      }
    }
  }
}
