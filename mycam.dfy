/**
 * The camera controller: sensor-mode selection, stream resolutions, runtime
 * controls and the bookkeeping of the file-recording encoder.
 */
module MyCam {
  import opened Outcomes

  const RECORDING_FRAMERATE: real := 25.0
  const MAIN_RESOLUTION: Size := Size(1920, 1080)
  const STREAM_RESOLUTION: Size := Size(800, 450)
  const FALLBACK_FRAMERATE: real := 30.0
  const RECORDINGS_PATH: string := "captures/recordings/"

  /** A (width, height) pair. */
  datatype Size = Size(width: int, height: int)

  /** Python's `a >= b` on two-element tuples: lexicographic, width first. */
  predicate AtLeast(a: Size, b: Size) {
    a.width > b.width || (a.width == b.width && a.height >= b.height)
  }

  /** One entry of the camera's `sensor_modes` table. */
  datatype SensorMode = SensorMode(size: Size, fps: real, bitDepth: int)

  /** The modes able to deliver `fps`, in table order (the list the loop appends to). */
  function FpsEligible(modes: seq<SensorMode>, fps: real): (r: seq<SensorMode>)
    ensures |r| <= |modes|
    ensures forall m :: m in r <==> m in modes && m.fps >= fps
  {
    if modes == [] then []
    else
      var init, last := modes[..|modes| - 1], modes[|modes| - 1];
      assert modes == init + [last];
      FpsEligible(init, fps) + (if last.fps >= fps then [last] else [])
  }

  /** Filtering distributes over concatenation, so the eligible list keeps table order. */
  lemma {:induction false} FpsEligibleAppend(a: seq<SensorMode>, b: seq<SensorMode>, fps: real)
    ensures FpsEligible(a + b, fps) == FpsEligible(a, fps) + FpsEligible(b, fps)
  {
    if b == [] {
      assert a + b == a;
    } else {
      var init, last := b[..|b| - 1], b[|b| - 1];
      assert (a + b)[..|a + b| - 1] == a + init;
      assert (a + b)[|a + b| - 1] == last;
      FpsEligibleAppend(a, init, fps);
    }
  }

  /** The index of the last table entry reaching `fps`, or -1 when there is none. */
  function LastEligibleIndex(modes: seq<SensorMode>, fps: real): (i: int)
    ensures -1 <= i < |modes|
    ensures i >= 0 ==> modes[i].fps >= fps
    ensures forall j :: i < j < |modes| ==> modes[j].fps < fps
  {
    if modes == [] then -1
    else if modes[|modes| - 1].fps >= fps then |modes| - 1
    else LastEligibleIndex(modes[..|modes| - 1], fps)
  }

  /** The last element of the eligible list is the last table entry reaching `fps`. */
  lemma {:induction false} LastOfEligible(modes: seq<SensorMode>, fps: real)
    ensures FpsEligible(modes, fps) == [] <==> LastEligibleIndex(modes, fps) == -1
    ensures FpsEligible(modes, fps) != [] ==>
              FpsEligible(modes, fps)[|FpsEligible(modes, fps)| - 1] == modes[LastEligibleIndex(modes, fps)]
  {
    if modes != [] {
      var init := modes[..|modes| - 1];
      if modes[|modes| - 1].fps < fps {
        assert FpsEligible(modes, fps) == FpsEligible(init, fps);
        LastOfEligible(init, fps);
      }
    }
  }

  /** What `get_best_sensor_mode` returns, or the `IndexError` it raises on an empty eligible list. */
  function BestSensorMode(modes: seq<SensorMode>, resolution: Size, fps: real): (r: Result<Option<SensorMode>>)
    ensures r.Failure? <==> forall m :: m in modes ==> m.fps < fps
    ensures r.Failure? ==> r.error == IndexError
    ensures r.Success? && r.value.Some? ==>
              r.value.value in modes && r.value.value.fps >= fps && AtLeast(r.value.value.size, resolution)
  {
    var eligible := FpsEligible(modes, fps);
    if |eligible| == 0 then Failure(IndexError)
    else if AtLeast(eligible[|eligible| - 1].size, resolution) then Success(Some(eligible[|eligible| - 1]))
    else Success(None)
  }

  /**
   * The selection rule: an `IndexError` exactly when no mode reaches `fps`;
   * otherwise the last fps-capable mode of the table, returned when its size
   * is at least the requested resolution and None when it is not.
   */
  lemma BestSensorModeChoice(modes: seq<SensorMode>, resolution: Size, fps: real)
    ensures LastEligibleIndex(modes, fps) == -1 <==> forall m :: m in modes ==> m.fps < fps
    ensures BestSensorMode(modes, resolution, fps) ==
              var i := LastEligibleIndex(modes, fps);
              if i == -1 then Failure(IndexError)
              else if AtLeast(modes[i].size, resolution) then Success(Some(modes[i]))
              else Success(None)
  {
    LastOfEligible(modes, fps);
    var i := LastEligibleIndex(modes, fps);
    if i >= 0 {
      assert modes[i] in modes;
    }
  }

  /** `get_best_sensor_mode`: builds `fps_eligible` with appends, then looks at its last entry. */
  method GetBestSensorMode(modes: seq<SensorMode>, resolution: Size, fps: real) returns (r: Result<Option<SensorMode>>)
    ensures r == BestSensorMode(modes, resolution, fps)
  {
    var eligible: seq<SensorMode> := [];
    var i := 0;
    while i < |modes|
      invariant 0 <= i <= |modes|
      invariant eligible == FpsEligible(modes[..i], fps)
    {
      assert modes[..i + 1][..i] == modes[..i];
      if modes[i].fps >= fps {
        eligible := eligible + [modes[i]];
      }
      i := i + 1;
    }
    assert modes[..|modes|] == modes;
    if |eligible| == 0 {
      r := Failure(IndexError);
    } else if AtLeast(eligible[|eligible| - 1].size, resolution) {
      r := Success(Some(eligible[|eligible| - 1]));
    } else {
      r := Success(None);
    }
  }

  /** The mode table of the Camera Module 3 Wide. */
  const CAMERA_MODULE_3: seq<SensorMode> := [
    SensorMode(Size(1536, 864), 120.13, 10),
    SensorMode(Size(2304, 1296), 56.03, 10),
    SensorMode(Size(4608, 2592), 14.35, 10)
  ]

  /** The expected selections on the Camera Module 3 table. */
  lemma CameraModule3Selections()
    ensures BestSensorMode(CAMERA_MODULE_3, Size(1920, 1080), 30.0) == Success(Some(CAMERA_MODULE_3[1]))
    ensures BestSensorMode(CAMERA_MODULE_3, Size(1920, 1080), 10.0) == Success(Some(CAMERA_MODULE_3[2]))
    ensures BestSensorMode(CAMERA_MODULE_3, Size(1280, 720), 120.0) == Success(Some(CAMERA_MODULE_3[0]))
    ensures BestSensorMode(CAMERA_MODULE_3, Size(1280, 720), 60.0) == Success(Some(CAMERA_MODULE_3[0]))
    ensures BestSensorMode(CAMERA_MODULE_3, Size(1280, 720), 55.0) == Success(Some(CAMERA_MODULE_3[1]))
    ensures BestSensorMode(CAMERA_MODULE_3, Size(1280, 720), 14.0) == Success(Some(CAMERA_MODULE_3[2]))
    ensures BestSensorMode(CAMERA_MODULE_3, Size(3840, 2160), 15.0) == Success(None)
    ensures BestSensorMode(CAMERA_MODULE_3, Size(3840, 2160), 14.0) == Success(Some(CAMERA_MODULE_3[2]))
    ensures BestSensorMode(CAMERA_MODULE_3, Size(2000, 1500), 50.0) == Success(Some(CAMERA_MODULE_3[1]))
    ensures BestSensorMode(CAMERA_MODULE_3, Size(640, 480), 200.0) == Failure(IndexError)
  {
    var m0, m1, m2 := CAMERA_MODULE_3[0], CAMERA_MODULE_3[1], CAMERA_MODULE_3[2];
    assert CAMERA_MODULE_3[..2] == [m0, m1];
    assert [m0, m1][..1] == [m0];
    assert [m0][..0] == [];
  }

  /** The lexicographic comparison accepts a mode that is narrower in height than requested. */
  lemma LexicographicNotPerDimension()
    ensures AtLeast(Size(2304, 1296), Size(2000, 1500))
    ensures Size(2304, 1296).height < Size(2000, 1500).height
  {
  }

  /**
   * The lores size: the requested stream size unless it exceeds the main size
   * in either dimension, in which case the main resolution constant.
   */
  function LoresSize(mainRes: Size, streamRes: Size): (r: Size)
    ensures r == streamRes || r == MAIN_RESOLUTION
    ensures r == streamRes <==> (streamRes.width <= mainRes.width && streamRes.height <= mainRes.height) || streamRes == MAIN_RESOLUTION
    ensures mainRes == MAIN_RESOLUTION ==> r.width <= mainRes.width && r.height <= mainRes.height
  {
    if streamRes.width > mainRes.width || streamRes.height > mainRes.height then MAIN_RESOLUTION else streamRes
  }

  /** With the configured constants the lores stream keeps its own size. */
  lemma ConfiguredLoresSize()
    ensures LoresSize(MAIN_RESOLUTION, STREAM_RESOLUTION) == STREAM_RESOLUTION
  {
  }

  /** `set_framerate`'s argument after its two defaults: None becomes 25, below 1 becomes 30. */
  function EffectiveFramerate(framerate: Option<real>): (fps: real)
    ensures fps >= 1.0
    ensures framerate == None ==> fps == RECORDING_FRAMERATE
    ensures framerate.Some? && framerate.value < 1.0 ==> fps == FALLBACK_FRAMERATE
    ensures framerate.Some? && framerate.value >= 1.0 ==> fps == framerate.value
  {
    var f := if framerate.None? then RECORDING_FRAMERATE else framerate.value;
    if f < 1.0 then FALLBACK_FRAMERATE else f
  }

  /** The `FrameDurationLimits` control, in microseconds (before integer rounding). */
  datatype DurationLimits = DurationLimits(min: real, max: real)

  function FrameDuration(fps: real): (d: DurationLimits)
    requires fps > 0.0
    ensures d.min == d.max && d.min * fps == 1000000.0
  {
    DurationLimits(1000000.0 / fps, 1000000.0 / fps)
  }

  /** The `controls.draft.NoiseReductionModeEnum` members. */
  const NR_MODES: map<string, int> := map["Off" := 0, "Fast" := 1, "HighQuality" := 2, "Minimal" := 3, "ZSL" := 4]

  function UnknownNoiseReduction(name: string): string {
    "Unknown NR mode value " + name + ". Expected one of: ['Off', 'Fast', 'HighQuality', 'Minimal', 'ZSL']"
  }

  datatype Quality = Low | Medium | High

  /** An H.264 encoder started on a named stream, writing to a file. */
  datatype RecordingEncoder = RecordingEncoder(outputPath: string, stream: string, quality: Quality)

  class Camera {
    /** The physical sensor's mode table. */
    const sensorModes: seq<SensorMode>
    /** The video configuration that is applied to the camera. */
    var sensorOutputSize: Size
    var sensorBitDepth: int
    var mainSize: Size
    var loresSize: Size
    /** The last value sent for each runtime control, if any. */
    var noiseReductionMode: Option<int>
    var frameDurationLimits: Option<DurationLimits>
    /** `_recording_encoder`: the file-recording encoder, when one is held. */
    var recordingEncoder: Option<RecordingEncoder>

    /** A camera in its default video configuration, holding no encoder. */
    constructor (modes: seq<SensorMode>, defaultSensorSize: Size, defaultBitDepth: int, defaultMainSize: Size)
      ensures sensorModes == modes && sensorOutputSize == defaultSensorSize && sensorBitDepth == defaultBitDepth
      ensures mainSize == defaultMainSize && loresSize == defaultMainSize
      ensures noiseReductionMode == None && frameDurationLimits == None && recordingEncoder == None
    {
      sensorModes := modes;
      sensorOutputSize, sensorBitDepth := defaultSensorSize, defaultBitDepth;
      mainSize, loresSize := defaultMainSize, defaultMainSize;
      noiseReductionMode, frameDurationLimits, recordingEncoder := None, None, None;
    }

    /**
     * The controller's initialisation: sensor mode, stream sizes and runtime
     * controls, in that order.  The `IndexError` of the mode selection
     * propagates out of it.
     */
    static method Create(modes: seq<SensorMode>, defaultSensorSize: Size, defaultBitDepth: int, defaultMainSize: Size)
      returns (r: Result<Camera>)
      ensures r.Failure? <==> BestSensorMode(modes, MAIN_RESOLUTION, RECORDING_FRAMERATE).Failure?
      ensures r.Failure? ==> r.error == IndexError
      ensures r.Success? ==> fresh(r.value) && r.value.sensorModes == modes
      ensures r.Success? ==> r.value.mainSize == MAIN_RESOLUTION && r.value.loresSize == STREAM_RESOLUTION
      ensures r.Success? ==> r.value.noiseReductionMode == Some(NR_MODES["Fast"])
      ensures r.Success? ==> r.value.frameDurationLimits == Some(FrameDuration(RECORDING_FRAMERATE))
      ensures r.Success? ==> r.value.recordingEncoder == None
      ensures r.Success? ==> match BestSensorMode(modes, MAIN_RESOLUTION, RECORDING_FRAMERATE)
                              case Success(Some(m)) => r.value.sensorOutputSize == m.size && r.value.sensorBitDepth == m.bitDepth
                              case _ => r.value.sensorOutputSize == defaultSensorSize && r.value.sensorBitDepth == defaultBitDepth
    {
      var cam := new Camera(modes, defaultSensorSize, defaultBitDepth, defaultMainSize);
      var o := cam.ConfigureVideoSensor();
      if o.Fail? {
        return Failure(o.error);
      }
      cam.ConfigureVideoStreams();
      var nr := cam.SetNoiseReduction("Fast");
      assert nr == Pass;
      cam.SetFramerate(Some(RECORDING_FRAMERATE));
      r := Success(cam);
    }

    /** `configure_video_sensor`: apply the best mode for 1920x1080 at 25 fps, if there is one. */
    method ConfigureVideoSensor() returns (o: Outcome)
      modifies this`sensorOutputSize, this`sensorBitDepth
      ensures o.Fail? <==> BestSensorMode(sensorModes, MAIN_RESOLUTION, RECORDING_FRAMERATE).Failure?
      ensures o.Fail? ==> o.error == IndexError
      ensures match BestSensorMode(sensorModes, MAIN_RESOLUTION, RECORDING_FRAMERATE)
                case Success(Some(m)) => sensorOutputSize == m.size && sensorBitDepth == m.bitDepth
                case _ => sensorOutputSize == old(sensorOutputSize) && sensorBitDepth == old(sensorBitDepth)
    {
      var best := GetBestSensorMode(sensorModes, MAIN_RESOLUTION, RECORDING_FRAMERATE);
      match best
      case Failure(e) =>
        o := Fail(e);
      case Success(Some(m)) =>
        sensorOutputSize, sensorBitDepth := m.size, m.bitDepth;
        o := Pass;
      case Success(None) =>
        o := Pass;
    }

    /** `configure_video_streams`: main stream at the main resolution, lores clamped to it. */
    method ConfigureVideoStreams()
      modifies this`mainSize, this`loresSize
      ensures mainSize == MAIN_RESOLUTION && loresSize == LoresSize(MAIN_RESOLUTION, STREAM_RESOLUTION)
      ensures loresSize.width <= mainSize.width && loresSize.height <= mainSize.height
    {
      mainSize := MAIN_RESOLUTION;
      loresSize := LoresSize(MAIN_RESOLUTION, STREAM_RESOLUTION);
    }

    /** `get_current_resolution`: "main", "lores", or the sensor output size for any other target. */
    function GetCurrentResolution(target: string): (r: Size)
      reads this
      ensures target == "main" ==> r == mainSize
      ensures target == "lores" ==> r == loresSize
      ensures target != "main" && target != "lores" ==> r == sensorOutputSize
    {
      if target == "main" then mainSize
      else if target == "lores" then loresSize
      else sensorOutputSize
    }

    /** `set_noise_reduction`: a known mode name is sent as its enum value; any other raises and sends nothing. */
    method SetNoiseReduction(name: string) returns (o: Outcome)
      modifies this`noiseReductionMode
      ensures name in NR_MODES ==> o == Pass && noiseReductionMode == Some(NR_MODES[name])
      ensures name !in NR_MODES ==> o == Fail(ValueError(UnknownNoiseReduction(name)))
                                    && noiseReductionMode == old(noiseReductionMode)
    {
      if name !in NR_MODES {
        return Fail(ValueError(UnknownNoiseReduction(name)));
      }
      noiseReductionMode := Some(NR_MODES[name]);
      o := Pass;
    }

    /** `set_framerate`: one frame duration for both limits, from the defaulted framerate. */
    method SetFramerate(framerate: Option<real>)
      modifies this`frameDurationLimits
      ensures frameDurationLimits == Some(FrameDuration(EffectiveFramerate(framerate)))
      ensures frameDurationLimits.value.min == frameDurationLimits.value.max
    {
      var fps := if framerate.None? then RECORDING_FRAMERATE else framerate.value;
      if fps < 1.0 {
        fps := FALLBACK_FRAMERATE;
      }
      frameDurationLimits := Some(FrameDuration(fps));
    }

    /** `is_recording`: a recording encoder is held. */
    predicate IsRecording()
      reads this
    {
      recordingEncoder.Some?
    }

    /** `start_recording_to_file`: refused while an encoder is held, otherwise one is taken. */
    method StartRecordingToFile(outputPath: string, stream: string, quality: Quality) returns (o: Outcome)
      modifies this`recordingEncoder
      ensures old(IsRecording()) ==> o == Fail(RuntimeError("Recording already in progress."))
                                     && recordingEncoder == old(recordingEncoder)
      ensures !old(IsRecording()) ==> o == Pass && recordingEncoder == Some(RecordingEncoder(outputPath, stream, quality))
      ensures IsRecording()
    {
      if recordingEncoder.Some? {
        return Fail(RuntimeError("Recording already in progress."));
      }
      recordingEncoder := Some(RecordingEncoder(outputPath, stream, quality));
      o := Pass;
    }

    /**
     * `start_default_recording`: a recording under the recordings folder;
     * the source's defaults are the "main" stream at `Low` quality.
     */
    method StartDefaultRecording(filename: string, stream: string, quality: Quality) returns (o: Outcome, fullPath: string)
      modifies this`recordingEncoder
      ensures fullPath == RECORDINGS_PATH + filename
      ensures old(IsRecording()) ==> o == Fail(RuntimeError("Recording already in progress.")) && recordingEncoder == old(recordingEncoder)
      ensures !old(IsRecording()) ==> o == Pass && recordingEncoder == Some(RecordingEncoder(fullPath, stream, quality))
    {
      fullPath := RECORDINGS_PATH + filename;
      o := StartRecordingToFile(fullPath, stream, quality);
    }

    /** `stop_recording_to_file`: releases the encoder if one is held; a no-op otherwise. */
    method StopRecordingToFile()
      modifies this`recordingEncoder
      ensures recordingEncoder == None
      ensures !IsRecording()
    {
      if recordingEncoder.Some? {
        recordingEncoder := None;
      }
    }
  }
}
