/**
 * The current motion-capturing controller: the background flag, the
 * capture thread, the detection settings and their persisted copy.
 *
 * The capture thread is modelled by its presence and an identity number;
 * the loop it runs is `MotionLoop.Detector`.  Stopping signals the thread
 * and joins it, and the join is taken to complete, so the loop has run its
 * exit step (which stops a running recording) by the time `Stop` returns.
 */
module PeripheralMotionCapturing {
  import opened Outcomes
  import MyCam

  const START_REFUSED: string := "Can not start MotionCapturing while another recording is running."

  /** The `camera.motion_capturing` section of the application config. */
  datatype MotionCaptureConfig = MotionCaptureConfig(
    capture: bool, detectionRate: int, minLength: int, maxLength: int, threshold: real)

  /** The persisted application config; `saves` counts writes to disk. */
  class AppConfig {
    var motion: MotionCaptureConfig
    var saves: nat

    constructor (motion: MotionCaptureConfig)
      ensures this.motion == motion && saves == 0
    {
      this.motion := motion;
      saves := 0;
    }

    /** Stores `m` and saves, only when it differs from what is stored. */
    method Put(m: MotionCaptureConfig)
      modifies this
      ensures motion == m
      ensures saves == old(saves) + (if old(motion) != m then 1 else 0)
    {
      if motion != m {
        motion := m;
        saves := saves + 1;
      }
    }
  }

  class MotionCapturing {
    const cam: MyCam.Camera
    const config: AppConfig
    var captureInBackground: bool
    var detectionRate: int
    var changeRatioThreshold: real
    var minRecordingLength: int
    var maxRecordingLength: int
    /** The capture thread, by identity, and how many have been created. */
    var thread: Option<nat>
    var threadsStarted: nat
    var stopEventSet: bool
    /** Capture threads started and not yet joined. */
    ghost var running: set<nat>

    ghost predicate Valid()
      reads this
    {
      && running == (if thread.Some? then {thread.value} else {})
      && (thread.Some? ==> thread.value < threadsStarted)
    }

    /** The in-memory settings, in the shape of the config section. */
    function Current(): MotionCaptureConfig
      reads this
    {
      MotionCaptureConfig(captureInBackground, detectionRate, minRecordingLength, maxRecordingLength, changeRatioThreshold)
    }

    /** `__init__`: no thread, flag off, then the config is applied. */
    constructor (cam: MyCam.Camera, config: AppConfig)
      modifies cam`recordingEncoder
      ensures Valid() && this.cam == cam && this.config == config
      ensures Current() == config.motion
      ensures config.motion.capture ==> thread == Some(0) && threadsStarted == 1 && !stopEventSet
      ensures !config.motion.capture ==> thread == None && threadsStarted == 0
      ensures cam.recordingEncoder == old(cam.recordingEncoder)
    {
      this.cam := cam;
      this.config := config;
      captureInBackground := false;
      detectionRate, changeRatioThreshold := 0, 0.0;
      minRecordingLength, maxRecordingLength := 0, 0;
      thread := None;
      threadsStarted := 0;
      stopEventSet := false;
      running := {};
      new;
      ApplyCapturingConfig();
    }

    /** `is_motion_capturing`: the background flag, not the thread. */
    predicate IsMotionCapturing()
      reads this
    {
      captureInBackground
    }

    /** `apply_capturing_config`: copies the config section and starts capturing if it asks for it. */
    method ApplyCapturingConfig()
      requires Valid()
      modifies this, cam`recordingEncoder
      ensures Valid() && Current() == config.motion
      ensures config.motion.capture ==> thread == Some(old(threadsStarted)) && threadsStarted == old(threadsStarted) + 1
                                        && !stopEventSet && running == {old(threadsStarted)}
      ensures config.motion.capture && old(thread).Some? ==> !cam.IsRecording()
      ensures !config.motion.capture || old(thread).None? ==> cam.recordingEncoder == old(cam.recordingEncoder)
      ensures !config.motion.capture ==> thread == old(thread) && threadsStarted == old(threadsStarted)
                                         && stopEventSet == old(stopEventSet)
    {
      var m := config.motion;
      captureInBackground := m.capture;
      detectionRate := m.detectionRate;
      changeRatioThreshold := m.threshold;
      minRecordingLength := m.minLength;
      maxRecordingLength := m.maxLength;
      if m.capture {
        var _ := Start();
      }
    }

    /**
     * `start`: refused while the camera records and the flag is off;
     * otherwise a running thread is stopped and a fresh one started.
     */
    method Start() returns (o: Outcome)
      requires Valid()
      modifies this, cam`recordingEncoder
      ensures Valid() && Current() == old(Current())
      ensures old(cam.IsRecording()) && !captureInBackground ==>
                o == Fail(RuntimeError(START_REFUSED)) && unchanged(this) && unchanged(cam)
      ensures !(old(cam.IsRecording()) && !captureInBackground) ==>
                && o == Pass && thread == Some(old(threadsStarted)) && threadsStarted == old(threadsStarted) + 1
                && !stopEventSet && running == {old(threadsStarted)}
      ensures o.Pass? && old(thread).Some? ==> !cam.IsRecording()
      ensures old(thread).None? ==> cam.recordingEncoder == old(cam.recordingEncoder)
    {
      if cam.IsRecording() && !IsMotionCapturing() {
        return Fail(RuntimeError(START_REFUSED));
      }
      if thread.Some? {
        Stop();
      }
      thread := Some(threadsStarted);
      running := running + {threadsStarted};
      threadsStarted := threadsStarted + 1;
      stopEventSet := false;
      o := Pass;
    }

    /** `stop`: signals and joins a running thread, whose loop stops any recording on exit. */
    method Stop()
      requires Valid()
      modifies this, cam`recordingEncoder
      ensures Valid() && thread == None && running == {} && Current() == old(Current())
      ensures threadsStarted == old(threadsStarted)
      ensures old(thread).None? ==> unchanged(this) && unchanged(cam)
      ensures old(thread).Some? ==> stopEventSet && !cam.IsRecording()
    {
      if thread.Some? {
        stopEventSet := true;
        if cam.IsRecording() {
          cam.StopRecordingToFile();
        }
        running := running - {thread.value};
        thread := None;
      }
    }

    /**
     * `set_motion_capturing`: starts or stops only when the flag changes,
     * and saves the config only when it differs.  The flag is raised
     * before `start` runs, so `start`'s guard never refuses here.
     */
    method SetMotionCapturing(enable: bool)
      requires Valid()
      modifies this, cam`recordingEncoder, config
      ensures Valid() && Current() == old(Current()).(capture := enable)
      ensures config.motion == old(config.motion).(capture := enable)
      ensures config.saves == old(config.saves) + (if old(config.motion.capture) != enable then 1 else 0)
      ensures old(captureInBackground) == enable ==>
                thread == old(thread) && threadsStarted == old(threadsStarted) && unchanged(cam)
      ensures old(captureInBackground) != enable && enable ==>
                thread == Some(old(threadsStarted)) && threadsStarted == old(threadsStarted) + 1 && !stopEventSet
      ensures old(captureInBackground) != enable && !enable ==> thread == None && threadsStarted == old(threadsStarted)
      ensures old(captureInBackground) != enable && old(thread).Some? ==> !cam.IsRecording()
      ensures old(thread).None? ==> cam.recordingEncoder == old(cam.recordingEncoder)
      ensures old(cam.IsRecording()) && !old(captureInBackground) && enable ==> thread.Some?
    {
      if captureInBackground != enable {
        captureInBackground := enable;
        if enable {
          var _ := Start();
        } else {
          Stop();
        }
      }
      config.Put(config.motion.(capture := enable));
    }

    /**
     * `set_motion_capturing` with the guard evaluated before the flag is
     * raised: enabling is refused, and nothing changes, while another
     * recording runs.
     */
    method SetMotionCapturingChecked(enable: bool) returns (o: Outcome)
      requires Valid()
      modifies this, cam`recordingEncoder, config
      ensures Valid()
      ensures enable && !old(captureInBackground) && old(cam.IsRecording()) ==>
                o == Fail(RuntimeError(START_REFUSED)) && unchanged(this) && unchanged(cam) && unchanged(config)
      ensures !(enable && !old(captureInBackground) && old(cam.IsRecording())) ==>
                && o == Pass && Current() == old(Current()).(capture := enable)
                && config.motion == old(config.motion).(capture := enable)
      ensures o.Pass? && old(captureInBackground) == enable ==>
                thread == old(thread) && threadsStarted == old(threadsStarted) && unchanged(cam)
      ensures o.Pass? && old(captureInBackground) != enable && enable ==>
                thread == Some(old(threadsStarted)) && threadsStarted == old(threadsStarted) + 1 && !stopEventSet
      ensures o.Pass? && old(captureInBackground) != enable && !enable ==>
                thread == None && threadsStarted == old(threadsStarted)
      ensures o.Pass? && old(captureInBackground) != enable && old(thread).Some? ==> !cam.IsRecording()
      ensures old(thread).None? ==> cam.recordingEncoder == old(cam.recordingEncoder)
    {
      o := Pass;
      if captureInBackground != enable {
        if enable {
          o := Start();
          if o.Fail? {
            return;
          }
          captureInBackground := true;
        } else {
          captureInBackground := false;
          Stop();
        }
      }
      config.Put(config.motion.(capture := enable));
    }

    /** `set_detection_rate`: stores and saves the rate, and restarts only while capturing. */
    method SetDetectionRate(rate: int)
      requires Valid()
      modifies this, cam`recordingEncoder, config
      ensures Valid() && Current() == old(Current()).(detectionRate := rate)
      ensures config.motion == old(config.motion).(detectionRate := rate)
      ensures config.saves == old(config.saves) + (if old(config.motion.detectionRate) != rate then 1 else 0)
      ensures captureInBackground ==>
                thread == Some(old(threadsStarted)) && threadsStarted == old(threadsStarted) + 1 && !stopEventSet
      ensures captureInBackground && old(thread).Some? ==> !cam.IsRecording()
      ensures old(thread).None? ==> cam.recordingEncoder == old(cam.recordingEncoder)
      ensures !captureInBackground ==>
                thread == old(thread) && threadsStarted == old(threadsStarted) && unchanged(cam)
    {
      detectionRate := rate;
      config.Put(config.motion.(detectionRate := rate));
      if IsMotionCapturing() {
        var _ := Start();
      }
    }

    /** `set_change_ratio_threshold`: stores and saves; never restarts. */
    method SetChangeRatioThreshold(threshold: real)
      modifies this`changeRatioThreshold, config
      ensures changeRatioThreshold == threshold
      ensures config.motion == old(config.motion).(threshold := threshold)
      ensures config.saves == old(config.saves) + (if old(config.motion.threshold) != threshold then 1 else 0)
    {
      changeRatioThreshold := threshold;
      config.Put(config.motion.(threshold := threshold));
    }

    /** `set_min_recording_length`: stores and saves; never restarts. */
    method SetMinRecordingLength(seconds: int)
      modifies this`minRecordingLength, config
      ensures minRecordingLength == seconds
      ensures config.motion == old(config.motion).(minLength := seconds)
      ensures config.saves == old(config.saves) + (if old(config.motion.minLength) != seconds then 1 else 0)
    {
      minRecordingLength := seconds;
      config.Put(config.motion.(minLength := seconds));
    }

    /** `set_max_recording_length`: stores and saves; never restarts. */
    method SetMaxRecordingLength(seconds: int)
      modifies this`maxRecordingLength, config
      ensures maxRecordingLength == seconds
      ensures config.motion == old(config.motion).(maxLength := seconds)
      ensures config.saves == old(config.saves) + (if old(config.motion.maxLength) != seconds then 1 else 0)
    {
      maxRecordingLength := seconds;
      config.Put(config.motion.(maxLength := seconds));
    }
  }
}
