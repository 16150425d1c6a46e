/**
 * The camera view of src/components/Camera.jsx.
 *
 * The component's state fields (`stream`, `error`, `isCaptured`,
 * `facingMode`, `canFlip`) are overwritten by its handlers and by the
 * camera effect; the class `CameraView` models them. Each run of the effect
 * on `[facingMode]` is an `EffectRun` object holding the run's own
 * `activeStream` binding. The browser calls are abstracted: the outcomes of
 * `enumerateDevices` and `getUserMedia` are parameters, the `<video>` and
 * `<canvas>` elements are objects the caller passes (null while not
 * mounted), and JPEG encoding is a function parameter.
 */
module Camera {
  import opened Options

  const AccessError := "Camera access denied or not available"
  const VideoInputKind := "videoinput"

  /** The `facingMode` constraint: "user" (front) or "environment" (back). */
  datatype Facing = User | Environment

  function FacingName(f: Facing): string
  {
    match f
    case User => "user"
    case Environment => "environment"
  }

  /** `fm === "user" ? "environment" : "user"` */
  function Flipped(f: Facing): (r: Facing)
    ensures r != f
    ensures FacingName(r) == (if FacingName(f) == "user" then "environment" else "user")
  {
    if f == User then Environment else User
  }

  /** Flipping twice restores the facing mode. */
  lemma FlipTwiceRestores(f: Facing)
    ensures Flipped(Flipped(f)) == f
  {
  }

  /** An entry of `enumerateDevices()`. */
  datatype Device = Device(kind: string, deviceId: string)

  predicate IsVideoInput(d: Device)
  {
    d.kind == VideoInputKind
  }

  /** `devices.filter(d => d.kind === "videoinput")` */
  function VideoInputs(devices: seq<Device>): (r: seq<Device>)
    ensures |r| <= |devices|
  {
    if devices == [] then []
    else if IsVideoInput(devices[0]) then [devices[0]] + VideoInputs(devices[1..])
    else VideoInputs(devices[1..])
  }

  /** The filter keeps exactly the video inputs. */
  lemma {:induction false} VideoInputsExactly(devices: seq<Device>)
    ensures forall d :: d in VideoInputs(devices) <==> d in devices && IsVideoInput(d)
    decreases |devices|
  {
    if devices != [] {
      VideoInputsExactly(devices[1..]);
      assert devices == [devices[0]] + devices[1..];
    }
  }

  /** Some enumerated device is a video input. */
  predicate HasVideoInput(devices: seq<Device>)
  {
    exists i :: 0 <= i < |devices| && IsVideoInput(devices[i])
  }

  /** Two distinct enumerated devices are video inputs. */
  predicate HasTwoVideoInputs(devices: seq<Device>)
  {
    exists i, j :: 0 <= i < j < |devices| && IsVideoInput(devices[i]) && IsVideoInput(devices[j])
  }

  /** The filter keeps some device iff one of the devices is a video input. */
  lemma {:induction false} SomeVideoInput(devices: seq<Device>)
    ensures |VideoInputs(devices)| > 0 <==> HasVideoInput(devices)
    decreases |devices|
  {
    if devices != [] {
      var rest := devices[1..];
      SomeVideoInput(rest);
      if HasVideoInput(rest) {
        var i :| 0 <= i < |rest| && IsVideoInput(rest[i]);
        assert IsVideoInput(devices[i + 1]);
      }
      if HasVideoInput(devices) {
        var i :| 0 <= i < |devices| && IsVideoInput(devices[i]);
        if i > 0 {
          assert IsVideoInput(rest[i - 1]);
        }
      }
    }
  }

  /** Flipping is offered iff two distinct enumerated devices are video
      inputs: the count of the filter is above one exactly then. */
  lemma {:induction false} CanFlipIffTwoVideoInputs(devices: seq<Device>)
    ensures |VideoInputs(devices)| > 1 <==> HasTwoVideoInputs(devices)
    decreases |devices|
  {
    if devices != [] {
      var rest := devices[1..];
      if IsVideoInput(devices[0]) {
        assert |VideoInputs(devices)| == 1 + |VideoInputs(rest)|;
        SomeVideoInput(rest);
        if HasVideoInput(rest) {
          var j :| 0 <= j < |rest| && IsVideoInput(rest[j]);
          assert IsVideoInput(devices[0]) && IsVideoInput(devices[j + 1]);
        }
        if HasTwoVideoInputs(devices) {
          var i, j :| 0 <= i < j < |devices| && IsVideoInput(devices[i]) && IsVideoInput(devices[j]);
          assert IsVideoInput(rest[j - 1]);
        }
      } else {
        assert |VideoInputs(devices)| == |VideoInputs(rest)|;
        CanFlipIffTwoVideoInputs(rest);
        if HasTwoVideoInputs(rest) {
          var i, j :| 0 <= i < j < |rest| && IsVideoInput(rest[i]) && IsVideoInput(rest[j]);
          assert IsVideoInput(devices[i + 1]) && IsVideoInput(devices[j + 1]);
        }
        if HasTwoVideoInputs(devices) {
          var i, j :| 0 <= i < j < |devices| && IsVideoInput(devices[i]) && IsVideoInput(devices[j]);
          assert IsVideoInput(rest[i - 1]) && IsVideoInput(rest[j - 1]);
        }
      }
    }
  }

  /** A media track; `stop()` ends it for good. */
  class Track {
    var ended: bool

    constructor ()
      ensures !ended
    {
      ended := false;
    }

    method Stop()
      modifies this
      ensures ended
    {
      ended := true;
    }
  }

  /** A media stream and its tracks (`getTracks()`). */
  class MediaStream {
    const tracks: seq<Track>

    constructor (tracks: seq<Track>)
      ensures this.tracks == tracks
    {
      this.tracks := tracks;
    }
  }

  function TracksOf(s: Option<MediaStream>): set<Track>
  {
    if s.Some? then set t | t in s.value.tracks else {}
  }

  /** Every track of the stream, if any, has been stopped. */
  predicate Released(s: Option<MediaStream>)
    reads TracksOf(s)
  {
    s.Some? ==> forall t :: t in s.value.tracks ==> t.ended
  }

  /** `stream.getTracks().forEach(track => track.stop())` */
  method StopTracks(s: MediaStream)
    modifies set t | t in s.tracks
    ensures Released(Some(s))
  {
    var i := 0;
    while i < |s.tracks|
      invariant 0 <= i <= |s.tracks|
      invariant forall j :: 0 <= j < i ==> s.tracks[j].ended
    {
      s.tracks[i].Stop();
      i := i + 1;
    }
  }

  type Pixels = seq<int>

  /** The `<video>` element; its size and current frame come from the stream. */
  class VideoElement {
    var srcObject: Option<MediaStream>
    var videoWidth: nat
    var videoHeight: nat
    var frame: Pixels

    constructor (w: nat, h: nat, frame: Pixels)
      ensures srcObject == None && videoWidth == w && videoHeight == h && this.frame == frame
    {
      srcObject, videoWidth, videoHeight, this.frame := None, w, h, frame;
    }
  }

  /** The `<canvas>` element the still is drawn on. */
  class CanvasElement {
    var width: nat
    var height: nat
    var picture: Pixels

    constructor ()
      ensures width == 300 && height == 150 && picture == []
    {
      width, height, picture := 300, 150, [];
    }
  }

  /** One run of the camera effect, with its closure's `activeStream`.
      `cancelled` records that the run's cleanup has happened. */
  class EffectRun {
    const facing: Facing
    var activeStream: Option<MediaStream>
    var cancelled: bool

    constructor (facing: Facing)
      ensures this.facing == facing && activeStream == None && !cancelled
    {
      this.facing, activeStream, cancelled := facing, None, false;
    }
  }

  /** A run that has been cleaned up holds no running track. */
  predicate NoLeak(run: EffectRun)
    reads run, TracksOf(run.activeStream)
  {
    run.cancelled ==> Released(run.activeStream)
  }

  /** Whether and with what `onCapture` was called. */
  datatype Notification = NotCalled | Called(image: Option<string>)

  /** What the component renders: the error placeholder, the live preview
      with its buttons, or the captured still with its retake button. */
  datatype Controls =
    | Placeholder(message: string)
    | Live(flipShown: bool, flipEnabled: bool, captureEnabled: bool)
    | Captured

  /** The component's state fields. */
  class CameraView {
    var stream: Option<MediaStream>
    var error: Option<string>
    var isCaptured: bool
    var facingMode: Facing
    var canFlip: bool

    constructor ()
      ensures stream == None && error == None && !isCaptured && facingMode == User && !canFlip
    {
      stream, error, isCaptured, facingMode, canFlip := None, None, false, User, false;
    }

    /** Once an error is set only the placeholder renders; otherwise capture
        and flip are disabled while there is no stream, and flip is offered
        only when more than one camera was found. */
    function Render(): (c: Controls)
      reads this
      ensures c.Placeholder? <==> error.Some?
      ensures c.Captured? <==> error.None? && isCaptured
      ensures c.Live? ==> (c.captureEnabled <==> stream.Some?)
      ensures c.Live? ==> (c.flipShown <==> canFlip) && (c.flipEnabled <==> canFlip && stream.Some?)
    {
      if error.Some? then Placeholder(error.value)
      else if isCaptured then Captured
      else Live(canFlip, canFlip && stream.Some?, stream.Some?)
    }

    /** The effect starts: a new run for the current facing mode, with no
        stream acquired yet. */
    method StartEffect() returns (run: EffectRun)
      ensures fresh(run) && run.facing == facingMode && run.activeStream == None && !run.cancelled
    {
      run := new EffectRun(facingMode);
    }

    /** `setupCamera` as written, once its requests have settled: a failed
        `enumerateDevices` (`devices` None) or a refused `getUserMedia`
        (`granted` None) sets the error message; otherwise flipping is
        offered iff more than one video input was found, and the acquired
        stream is published and attached to the video element. It does not
        look at whether the run was already cleaned up. */
    method SetupAsWritten(run: EffectRun, devices: Option<seq<Device>>, granted: Option<MediaStream>,
                          video: VideoElement?)
      modifies this, run, video
      ensures facingMode == old(facingMode) && isCaptured == old(isCaptured)
      ensures run.cancelled == old(run.cancelled)
      ensures devices.Some? ==> canFlip == (|VideoInputs(devices.value)| > 1)
      ensures devices.None? ==> canFlip == old(canFlip)
      ensures devices.None? || granted.None? ==>
        error == Some(AccessError) && stream == old(stream) && run.activeStream == old(run.activeStream)
      ensures devices.Some? && granted.Some? ==>
        error == old(error) && stream == granted && run.activeStream == granted &&
        (video != null ==> video.srcObject == granted)
      ensures video != null && (devices.None? || granted.None?) ==> video.srcObject == old(video.srcObject)
    {
      if devices.None? {
        error := Some(AccessError);
        return;
      }
      canFlip := |VideoInputs(devices.value)| > 1;
      if granted.None? {
        error := Some(AccessError);
        return;
      }
      run.activeStream := granted;
      stream := granted;
      if video != null {
        video.srcObject := granted;
      }
    }

    /** The effect's cleanup as written: stops every track of the stream the
        run has acquired so far, if any. */
    method CleanupAsWritten(run: EffectRun)
      modifies TracksOf(run.activeStream)
      ensures Released(run.activeStream)
    {
      if run.activeStream.Some? {
        StopTracks(run.activeStream.value);
      }
    }

    /** `setupCamera` as intended: as written, except that a stream acquired
        by a run that was already cleaned up is stopped at once and not
        published, so every run releases what it acquires whichever of
        setup and cleanup finishes first. */
    method Setup(run: EffectRun, devices: Option<seq<Device>>, granted: Option<MediaStream>,
                 video: VideoElement?)
      modifies this, run, video, TracksOf(granted)
      ensures old(run.cancelled ==> Released(run.activeStream)) ==> NoLeak(run)
      ensures facingMode == old(facingMode) && isCaptured == old(isCaptured)
      ensures run.cancelled == old(run.cancelled)
      ensures devices.Some? ==> canFlip == (|VideoInputs(devices.value)| > 1)
      ensures devices.None? ==> canFlip == old(canFlip)
      ensures devices.None? || granted.None? ==>
        error == Some(AccessError) && stream == old(stream) && run.activeStream == old(run.activeStream)
      ensures devices.Some? && granted.Some? ==> error == old(error) && run.activeStream == granted
      ensures devices.Some? && granted.Some? && run.cancelled ==> Released(granted) && stream == old(stream)
      ensures devices.Some? && granted.Some? && !run.cancelled ==>
        stream == granted && (video != null ==> video.srcObject == granted)
      ensures devices.None? || granted.None? || !run.cancelled ==>
        forall t :: t in TracksOf(granted) ==> t.ended == old(t.ended)
      ensures video != null && (devices.None? || granted.None? || run.cancelled) ==>
        video.srcObject == old(video.srcObject)
    {
      if devices.None? {
        error := Some(AccessError);
        return;
      }
      canFlip := |VideoInputs(devices.value)| > 1;
      if granted.None? {
        error := Some(AccessError);
        return;
      }
      run.activeStream := granted;
      if run.cancelled {
        StopTracks(granted.value);
        return;
      }
      stream := granted;
      if video != null {
        video.srcObject := granted;
      }
    }

    /** The effect's cleanup as intended: marks the run cleaned up and stops
        every track of the stream it has acquired so far. */
    method Cleanup(run: EffectRun)
      modifies run, TracksOf(run.activeStream)
      ensures run.cancelled && run.activeStream == old(run.activeStream)
      ensures Released(run.activeStream) && NoLeak(run)
    {
      run.cancelled := true;
      if run.activeStream.Some? {
        StopTracks(run.activeStream.value);
      }
    }

    /** `captureImage`: a no-op while either element is missing; otherwise
        the canvas takes exactly the video's size (no resizing), the
        current frame is drawn on it, the view switches to the still and
        `onCapture`, when given, receives the JPEG encoding of the canvas. */
    method CaptureImage(video: VideoElement?, canvas: CanvasElement?, hasOnCapture: bool,
                        toJpeg: (Pixels, nat, nat) -> string) returns (note: Notification)
      modifies this, canvas
      ensures video == null || canvas == null ==> note == NotCalled && isCaptured == old(isCaptured)
      ensures canvas != null && video == null ==> unchanged(canvas)
      ensures video != null && canvas != null ==>
        && canvas.width == video.videoWidth && canvas.height == video.videoHeight
        && canvas.picture == video.frame
        && isCaptured
        && note == (if hasOnCapture then Called(Some(toJpeg(video.frame, video.videoWidth, video.videoHeight)))
                    else NotCalled)
      ensures stream == old(stream) && error == old(error) && facingMode == old(facingMode) && canFlip == old(canFlip)
    {
      if video == null || canvas == null {
        return NotCalled;
      }
      canvas.width := video.videoWidth;
      canvas.height := video.videoHeight;
      canvas.picture := video.frame;
      var imageData := toJpeg(canvas.picture, canvas.width, canvas.height);
      isCaptured := true;
      note := if hasOnCapture then Called(Some(imageData)) else NotCalled;
    }

    /** `retakePhoto`: back to the live preview, and `onCapture(null)`. */
    method RetakePhoto(hasOnCapture: bool) returns (note: Notification)
      modifies this
      ensures !isCaptured
      ensures note == if hasOnCapture then Called(None) else NotCalled
      ensures stream == old(stream) && error == old(error) && facingMode == old(facingMode) && canFlip == old(canFlip)
    {
      isCaptured := false;
      note := if hasOnCapture then Called(None) else NotCalled;
    }

    /** `flipCamera`: the other facing mode, back to the live preview. The
        new mode makes React clean up the current effect run and start a
        new one. */
    method FlipCamera()
      modifies this
      ensures facingMode == Flipped(old(facingMode)) && !isCaptured
      ensures stream == old(stream) && error == old(error) && canFlip == old(canFlip)
    {
      facingMode := Flipped(facingMode);
      isCaptured := false;
    }
  }

  /** The as-written cleanup can run before the stream arrives (the facing
      mode changes, or the view unmounts, while `getUserMedia` is pending):
      it finds no stream to stop, and the stream that arrives afterwards is
      published and keeps running. */
  method EarlyCleanupLeaksAsWritten() returns (leaked: bool)
    ensures leaked
  {
    var view := new CameraView();
    var run := view.StartEffect();
    view.CleanupAsWritten(run);
    var track := new Track();
    var s := new MediaStream([track]);
    view.SetupAsWritten(run, Some([]), Some(s), null);
    leaked := !track.ended && view.stream == Some(s);
  }

  /** With the intended setup and cleanup the same order of events leaves
      the late stream stopped and unpublished. */
  method EarlyCleanupReleases() returns (released: bool)
    ensures released
  {
    var view := new CameraView();
    var run := view.StartEffect();
    view.Cleanup(run);
    var track := new Track();
    var s := new MediaStream([track]);
    view.Setup(run, Some([]), Some(s), null);
    assert track in s.tracks;
    released := track.ended && view.stream == None;
  }
}
