/**
 * The older motion-capturing controller: capturing means a capture thread
 * exists, settings come from module constants, and nothing is persisted.
 * Threads are modelled as in `PeripheralMotionCapturing`; the join here
 * has no timeout.
 */
module LegacyMotionCapturing {
  import opened Outcomes
  import MyCam

  const CAPTURE_MOTION_IN_BACKGROUND: bool := false
  const MOTION_DETECTION_FRAMERATE: int := 10
  const MIN_MOTION_CAPTURE_LENGTH_SEC: int := 2
  const MAX_MOTION_CAPTURE_LENGTH_SEC: int := 60
  const FRAME_CHANGE_RATIO_THRESHOLD: real := 0.001

  const START_REFUSED: string := "Can not start MotionCapturing while another recording is running."

  class MotionCapturing {
    const cam: MyCam.Camera
    var captureInBackground: bool
    var detectionRate: int
    var changeRatioThreshold: real
    var minRecordingLength: int
    var maxRecordingLength: int
    var thread: Option<nat>
    var threadsStarted: nat
    var stopEventSet: bool
    /** Capture threads started and not yet joined. */
    ghost var running: set<nat>

    ghost predicate Valid()
      reads this
    {
      && running == (if thread.Some? then {thread.value} else {})
      && (thread.Some? ==> thread.value < threadsStarted)
    }

    /** `__init__`: the defaults, and capturing off. */
    constructor (cam: MyCam.Camera)
      modifies cam`recordingEncoder
      ensures Valid() && this.cam == cam && !IsMotionCapturing() && threadsStarted == 0
      ensures captureInBackground == CAPTURE_MOTION_IN_BACKGROUND
      ensures detectionRate == MOTION_DETECTION_FRAMERATE && changeRatioThreshold == FRAME_CHANGE_RATIO_THRESHOLD
      ensures minRecordingLength == MIN_MOTION_CAPTURE_LENGTH_SEC && maxRecordingLength == MAX_MOTION_CAPTURE_LENGTH_SEC
      ensures cam.recordingEncoder == old(cam.recordingEncoder)
    {
      this.cam := cam;
      captureInBackground := false;
      detectionRate, changeRatioThreshold := 0, 0.0;
      minRecordingLength, maxRecordingLength := 0, 0;
      thread := None;
      threadsStarted := 0;
      stopEventSet := false;
      running := {};
      new;
      var _ := ApplyCapturingConfig();
    }

    /** `is_motion_capturing`: a capture thread exists. */
    predicate IsMotionCapturing()
      reads this
    {
      thread.Some?
    }

    /** `apply_capturing_config`: the module defaults, then `set_motion_capturing` with the default flag. */
    method ApplyCapturingConfig() returns (o: Outcome)
      requires Valid()
      modifies this, cam`recordingEncoder
      ensures Valid() && o == Pass && captureInBackground == CAPTURE_MOTION_IN_BACKGROUND
      ensures detectionRate == MOTION_DETECTION_FRAMERATE && changeRatioThreshold == FRAME_CHANGE_RATIO_THRESHOLD
      ensures minRecordingLength == MIN_MOTION_CAPTURE_LENGTH_SEC && maxRecordingLength == MAX_MOTION_CAPTURE_LENGTH_SEC
      ensures !IsMotionCapturing() && threadsStarted == old(threadsStarted)
      ensures old(thread).None? ==> cam.recordingEncoder == old(cam.recordingEncoder)
    {
      detectionRate := MOTION_DETECTION_FRAMERATE;
      changeRatioThreshold := FRAME_CHANGE_RATIO_THRESHOLD;
      minRecordingLength := MIN_MOTION_CAPTURE_LENGTH_SEC;
      maxRecordingLength := MAX_MOTION_CAPTURE_LENGTH_SEC;
      o := SetMotionCapturing(CAPTURE_MOTION_IN_BACKGROUND);
    }

    /**
     * `start`: refused while the camera records and no capture thread
     * exists; otherwise a running thread is stopped first and a fresh one
     * started, so there is at most one.
     */
    method Start() returns (o: Outcome)
      requires Valid()
      modifies this`thread, this`threadsStarted, this`stopEventSet, this`running, cam`recordingEncoder
      ensures Valid()
      ensures old(cam.IsRecording()) && old(thread).None? ==>
                o == Fail(RuntimeError(START_REFUSED)) && unchanged(this) && unchanged(cam)
      ensures !(old(cam.IsRecording()) && old(thread).None?) ==>
                && o == Pass && IsMotionCapturing() && thread == Some(old(threadsStarted))
                && threadsStarted == old(threadsStarted) + 1 && !stopEventSet && running == {old(threadsStarted)}
      ensures old(thread).Some? ==> !cam.IsRecording()
      ensures old(thread).None? ==> cam.recordingEncoder == old(cam.recordingEncoder)
    {
      if cam.IsRecording() && !IsMotionCapturing() {
        return Fail(RuntimeError(START_REFUSED));
      }
      if IsMotionCapturing() {
        Stop();
      }
      thread := Some(threadsStarted);
      running := running + {threadsStarted};
      threadsStarted := threadsStarted + 1;
      stopEventSet := false;
      o := Pass;
    }

    /** `stop`: when not running only reports it; otherwise signals, joins and clears the thread. */
    method Stop()
      requires Valid()
      modifies this`thread, this`stopEventSet, this`running, cam`recordingEncoder
      ensures Valid() && !IsMotionCapturing() && running == {}
      ensures old(thread).None? ==> unchanged(this) && unchanged(cam)
      ensures old(thread).Some? ==> stopEventSet && !cam.IsRecording()
    {
      if IsMotionCapturing() {
        stopEventSet := true;
        if cam.IsRecording() {
          cam.StopRecordingToFile();
        }
        running := running - {thread.value};
        thread := None;
      }
    }

    /** `set_motion_capturing`: records the flag, then always (re)starts or always stops. */
    method SetMotionCapturing(enable: bool) returns (o: Outcome)
      requires Valid()
      modifies this`captureInBackground, this`thread, this`threadsStarted, this`stopEventSet, this`running, cam`recordingEncoder
      ensures Valid() && captureInBackground == enable
      ensures enable && old(cam.IsRecording()) && old(thread).None? ==>
                o == Fail(RuntimeError(START_REFUSED)) && !IsMotionCapturing()
      ensures enable && !(old(cam.IsRecording()) && old(thread).None?) ==>
                o == Pass && thread == Some(old(threadsStarted)) && !stopEventSet
      ensures !enable ==> o == Pass && !IsMotionCapturing() && threadsStarted == old(threadsStarted)
      ensures old(thread).None? ==> cam.recordingEncoder == old(cam.recordingEncoder)
      ensures old(thread).Some? ==> !cam.IsRecording()
    {
      captureInBackground := enable;
      if enable {
        o := Start();
      } else {
        Stop();
        o := Pass;
      }
    }

    /** `set_detection_rate`: stores the rate and restarts only when a thread runs. */
    method SetDetectionRate(rate: int)
      requires Valid()
      modifies this`detectionRate, this`thread, this`threadsStarted, this`stopEventSet, this`running, cam`recordingEncoder
      ensures Valid() && detectionRate == rate
      ensures old(thread).Some? ==>
                thread == Some(old(threadsStarted)) && threadsStarted == old(threadsStarted) + 1 && !stopEventSet
      ensures old(thread).Some? ==> !cam.IsRecording()
      ensures old(thread).None? ==> unchanged(this`thread, this`threadsStarted, this`stopEventSet) && unchanged(cam)
    {
      detectionRate := rate;
      if IsMotionCapturing() {
        var _ := Start();
      }
    }

    /** `set_change_ratio_threshold`: stores the value; never restarts. */
    method SetChangeRatioThreshold(threshold: real)
      modifies this`changeRatioThreshold
      ensures changeRatioThreshold == threshold
    {
      changeRatioThreshold := threshold;
    }

    /** `set_min_recording_length`: stores the value; never restarts. */
    method SetMinRecordingLength(seconds: int)
      modifies this`minRecordingLength
      ensures minRecordingLength == seconds
    {
      minRecordingLength := seconds;
    }

    /** `set_max_recording_length`: stores the value; never restarts. */
    method SetMaxRecordingLength(seconds: int)
      modifies this`maxRecordingLength
      ensures maxRecordingLength == seconds
    {
      maxRecordingLength := seconds;
    }
  }
}
