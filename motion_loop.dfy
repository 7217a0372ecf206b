/**
 * The motion detector shared by both motion-capturing revisions: the pixel
 * change ratio of two frames and one iteration of the capture loop, which
 * starts, stops and rotates recordings on the camera.
 *
 * Frames are the flattened, already smoothed lores buffers, as integers.
 */
module MotionLoop {
  import opened Outcomes
  import MyCam

  /** Default per-pixel difference that counts as a change. */
  const PIXEL_THRESHOLD: int := 12

  function Abs(x: int): nat {
    if x < 0 then -x else x
  }

  predicate Changed(p: int, c: int, pixelThreshold: int) {
    Abs(c - p) >= pixelThreshold
  }

  /** Number of positions where the frames differ by at least `pixelThreshold`. */
  function ChangedCount(prev: seq<int>, cur: seq<int>, pixelThreshold: int): (n: nat)
    requires |prev| == |cur|
    ensures n <= |cur|
  {
    if cur == [] then 0
    else (if Changed(prev[0], cur[0], pixelThreshold) then 1 else 0)
         + ChangedCount(prev[1..], cur[1..], pixelThreshold)
  }

  /** `image_change_ratio`: the mean of the per-pixel "changed" mask. */
  function ChangeRatio(prev: seq<int>, cur: seq<int>, pixelThreshold: int): (r: real)
    requires |prev| == |cur| > 0
    ensures 0.0 <= r <= 1.0
  {
    ChangedCount(prev, cur, pixelThreshold) as real / |cur| as real
  }

  /** The count is zero exactly when no position changed. */
  lemma {:induction false} NoneChanged(prev: seq<int>, cur: seq<int>, t: int)
    requires |prev| == |cur|
    ensures ChangedCount(prev, cur, t) == 0 <==> forall i :: 0 <= i < |cur| ==> !Changed(prev[i], cur[i], t)
  {
    if cur != [] {
      NoneChanged(prev[1..], cur[1..], t);
      assert forall i :: 1 <= i < |cur| ==> prev[1..][i - 1] == prev[i] && cur[1..][i - 1] == cur[i];
    }
  }

  /** The count is the frame size exactly when every position changed. */
  lemma {:induction false} AllChanged(prev: seq<int>, cur: seq<int>, t: int)
    requires |prev| == |cur|
    ensures ChangedCount(prev, cur, t) == |cur| <==> forall i :: 0 <= i < |cur| ==> Changed(prev[i], cur[i], t)
  {
    if cur != [] {
      AllChanged(prev[1..], cur[1..], t);
      assert forall i :: 1 <= i < |cur| ==> prev[1..][i - 1] == prev[i] && cur[1..][i - 1] == cur[i];
    }
  }

  lemma {:induction false} CountSymmetric(prev: seq<int>, cur: seq<int>, t: int)
    requires |prev| == |cur|
    ensures ChangedCount(prev, cur, t) == ChangedCount(cur, prev, t)
  {
    if cur != [] {
      assert Abs(cur[0] - prev[0]) == Abs(prev[0] - cur[0]);
      CountSymmetric(prev[1..], cur[1..], t);
    }
  }

  /** The ratio does not depend on which frame came first. */
  lemma RatioSymmetric(prev: seq<int>, cur: seq<int>, t: int)
    requires |prev| == |cur| > 0
    ensures ChangeRatio(prev, cur, t) == ChangeRatio(cur, prev, t)
  {
    CountSymmetric(prev, cur, t);
  }

  /** Ratio 0 exactly when no pixel moved by the threshold, ratio 1 exactly when every pixel did. */
  lemma RatioExtremes(prev: seq<int>, cur: seq<int>, t: int)
    requires |prev| == |cur| > 0
    ensures ChangeRatio(prev, cur, t) == 0.0 <==> forall i :: 0 <= i < |cur| ==> !Changed(prev[i], cur[i], t)
    ensures ChangeRatio(prev, cur, t) == 1.0 <==> forall i :: 0 <= i < |cur| ==> Changed(prev[i], cur[i], t)
  {
    NoneChanged(prev, cur, t);
    AllChanged(prev, cur, t);
  }

  /** Identical frames have ratio 0 under the default pixel threshold. */
  lemma IdenticalFramesRatio(f: seq<int>)
    requires |f| > 0
    ensures ChangeRatio(f, f, PIXEL_THRESHOLD) == 0.0
  {
    RatioExtremes(f, f, PIXEL_THRESHOLD);
  }

  /** The variables the capture loop carries from one iteration to the next. */
  datatype LoopVars = LoopVars(prev: Option<seq<int>>, lastDetected: real, recordingStartTime: real)

  /** The loop's state before the first frame. */
  const INITIAL_VARS: LoopVars := LoopVars(None, 0.0, 0.0)

  /** Change-ratio threshold and the minimum and maximum clip lengths, in seconds. */
  datatype Settings = Settings(threshold: real, minLength: real, maxLength: real)

  /** What an iteration does to the camera. */
  datatype Action = Start | Stop

  /** The new loop variables, whether the camera records afterwards, and the actions taken in order. */
  datatype Tick = Tick(vars: LoopVars, recording: bool, actions: seq<Action>)

  predicate FrameFits(v: LoopVars, cur: seq<int>) {
    |cur| > 0 && (v.prev.Some? ==> |v.prev.value| == |cur|)
  }

  /** The motion / no-motion decision, before the maximum-length check. */
  function Detect(v: LoopVars, recording: bool, ratio: real, now: real, s: Settings): Tick {
    if ratio >= s.threshold then
      if !recording then Tick(v.(lastDetected := now, recordingStartTime := now), true, [Start])
      else Tick(v.(lastDetected := now), true, [])
    else if recording && now - v.lastDetected > s.minLength then Tick(v, false, [Stop])
    else Tick(v, recording, [])
  }

  /** One iteration of `loop_motion_capturing`, with `now` standing for every clock read in it. */
  function TickSpec(v: LoopVars, recording: bool, cur: seq<int>, now: real, s: Settings): (t: Tick)
    requires FrameFits(v, cur)
    ensures t.vars.prev == Some(cur)
    ensures v.prev.None? ==> t == Tick(v.(prev := Some(cur)), recording, [])
  {
    if v.prev.None? then Tick(v.(prev := Some(cur)), recording, [])
    else
      var d := Detect(v, recording, ChangeRatio(v.prev.value, cur, PIXEL_THRESHOLD), now, s);
      if d.recording && now - d.vars.recordingStartTime > s.maxLength then
        Tick(d.vars.(prev := Some(cur), recordingStartTime := now), true, d.actions + [Stop, Start])
      else Tick(d.vars.(prev := Some(cur)), d.recording, d.actions)
  }

  /**
   * The camera state after a sequence of actions, or None as soon as one
   * would fail: a start while recording raises, and the loop never stops an
   * idle camera.
   */
  function Apply(recording: bool, actions: seq<Action>): Option<bool>
    decreases |actions|
  {
    if actions == [] then Some(recording)
    else match actions[0]
      case Start => if recording then None else Apply(true, actions[1..])
      case Stop => if !recording then None else Apply(false, actions[1..])
  }

  lemma {:induction false} ApplyAppend(recording: bool, a: seq<Action>, b: seq<Action>)
    requires Apply(recording, a).Some?
    ensures Apply(recording, a + b) == Apply(Apply(recording, a).value, b)
    decreases |a|
  {
    if a != [] {
      assert (a + b)[0] == a[0];
      assert (a + b)[1..] == a[1..] + b;
      ApplyAppend(if a[0] == Start then true else false, a[1..], b);
    } else {
      assert a + b == b;
    }
  }

  /**
   * Every start happens on an idle camera and every stop on a recording
   * one, and the actions leave the camera in the state the tick reports: at
   * most one recording is ever open.
   */
  lemma TickActionsValid(v: LoopVars, recording: bool, cur: seq<int>, now: real, s: Settings)
    requires FrameFits(v, cur)
    ensures Apply(recording, TickSpec(v, recording, cur, now, s).actions) == Some(TickSpec(v, recording, cur, now, s).recording)
  {
    if v.prev.Some? {
      var d := Detect(v, recording, ChangeRatio(v.prev.value, cur, PIXEL_THRESHOLD), now, s);
      assert Apply(recording, d.actions) == Some(d.recording);
      if d.recording && now - d.vars.recordingStartTime > s.maxLength {
        ApplyAppend(recording, d.actions, [Stop, Start]);
      }
    }
  }

  /** A recording begins exactly on a motion frame that finds the camera idle. */
  lemma StartRule(v: LoopVars, recording: bool, cur: seq<int>, now: real, s: Settings)
    requires FrameFits(v, cur)
    ensures !recording && TickSpec(v, recording, cur, now, s).recording <==>
            !recording && v.prev.Some? && ChangeRatio(v.prev.value, cur, PIXEL_THRESHOLD) >= s.threshold
  {
  }

  /**
   * A recording ends exactly when the frame shows no motion and the last
   * motion is more than the minimum length ago.
   */
  lemma StopRule(v: LoopVars, recording: bool, cur: seq<int>, now: real, s: Settings)
    requires FrameFits(v, cur)
    ensures recording && !TickSpec(v, recording, cur, now, s).recording <==>
            recording && v.prev.Some? && ChangeRatio(v.prev.value, cur, PIXEL_THRESHOLD) < s.threshold
            && now - v.lastDetected > s.minLength
  {
  }

  /** A motion frame always refreshes the last detection time, recording or not. */
  lemma MotionRefreshesLastDetected(v: LoopVars, recording: bool, cur: seq<int>, now: real, s: Settings)
    requires FrameFits(v, cur) && v.prev.Some?
    ensures ChangeRatio(v.prev.value, cur, PIXEL_THRESHOLD) >= s.threshold ==>
            TickSpec(v, recording, cur, now, s).vars.lastDetected == now
    ensures ChangeRatio(v.prev.value, cur, PIXEL_THRESHOLD) < s.threshold ==>
            TickSpec(v, recording, cur, now, s).vars.lastDetected == v.lastDetected
  {
  }

  /**
   * Every start resets the start time to now, and after any tick a running
   * recording is no older than the maximum length.
   */
  lemma RecordingAgeBounded(v: LoopVars, recording: bool, cur: seq<int>, now: real, s: Settings)
    requires FrameFits(v, cur) && s.maxLength >= 0.0
    ensures Start in TickSpec(v, recording, cur, now, s).actions ==> TickSpec(v, recording, cur, now, s).vars.recordingStartTime == now
    ensures v.prev.Some? && TickSpec(v, recording, cur, now, s).recording ==>
            now - TickSpec(v, recording, cur, now, s).vars.recordingStartTime <= s.maxLength
  {
  }

  /** The first motion frame seen by an idle camera opens exactly one recording. */
  lemma FirstMotionStarts(v: LoopVars, cur: seq<int>, now: real, s: Settings)
    requires FrameFits(v, cur) && v.prev.Some? && s.maxLength >= 0.0
    requires ChangeRatio(v.prev.value, cur, PIXEL_THRESHOLD) >= s.threshold
    ensures TickSpec(v, false, cur, now, s) == Tick(LoopVars(Some(cur), now, now), true, [Start])
  {
  }

  predicate FramesFit(v: LoopVars, frames: seq<seq<int>>, n: nat) {
    n > 0 && (v.prev.Some? ==> |v.prev.value| == n) && forall k :: 0 <= k < |frames| ==> |frames[k]| == n
  }

  /** Consecutive iterations, the k-th on `frames[k]` at time `times[k]`. */
  function Run(v: LoopVars, recording: bool, frames: seq<seq<int>>, times: seq<real>, s: Settings, n: nat): (t: Tick)
    requires |times| == |frames| && FramesFit(v, frames, n)
    ensures frames != [] ==> t.vars.prev == Some(frames[|frames| - 1])
    decreases |frames|
  {
    if frames == [] then Tick(v, recording, [])
    else
      var t1 := TickSpec(v, recording, frames[0], times[0], s);
      var rest := Run(t1.vars, t1.recording, frames[1..], times[1..], s, n);
      Tick(rest.vars, rest.recording, t1.actions + rest.actions)
  }

  /** Over any run the camera's actions stay valid, so no start ever collides with a running recording. */
  lemma {:induction false} RunActionsValid(v: LoopVars, recording: bool, frames: seq<seq<int>>, times: seq<real>, s: Settings, n: nat)
    requires |times| == |frames| && FramesFit(v, frames, n)
    ensures Apply(recording, Run(v, recording, frames, times, s, n).actions) == Some(Run(v, recording, frames, times, s, n).recording)
    decreases |frames|
  {
    if frames != [] {
      var t1 := TickSpec(v, recording, frames[0], times[0], s);
      TickActionsValid(v, recording, frames[0], times[0], s);
      RunActionsValid(t1.vars, t1.recording, frames[1..], times[1..], s, n);
      ApplyAppend(recording, t1.actions, Run(t1.vars, t1.recording, frames[1..], times[1..], s, n).actions);
    }
  }

  /** A still scene never starts a recording on an idle camera when the ratio threshold is positive. */
  lemma {:induction false} StillSceneNeverRecords(v: LoopVars, f: seq<int>, frames: seq<seq<int>>, times: seq<real>, s: Settings)
    requires |times| == |frames| && FramesFit(v, frames, |f|)
    requires v.prev.None? || v.prev == Some(f)
    requires forall k :: 0 <= k < |frames| ==> frames[k] == f
    requires s.threshold > 0.0
    ensures !Run(v, false, frames, times, s, |f|).recording
    ensures Run(v, false, frames, times, s, |f|).actions == []
    decreases |frames|
  {
    if frames != [] {
      IdenticalFramesRatio(f);
      var t1 := TickSpec(v, false, frames[0], times[0], s);
      assert t1.actions == [] && !t1.recording;
      StillSceneNeverRecords(t1.vars, f, frames[1..], times[1..], s);
    }
  }

  /**
   * The capture thread's loop state: the carried variables and the loop's
   * fixed settings and frame size (width times height of the lores stream).
   */
  class Detector {
    var vars: LoopVars
    const settings: Settings
    const frameSize: nat

    ghost predicate Valid()
      reads this
    {
      frameSize > 0 && (vars.prev.Some? ==> |vars.prev.value| == frameSize)
    }

    constructor (frameSize: nat, settings: Settings)
      requires frameSize > 0
      ensures Valid() && vars == INITIAL_VARS
      ensures this.frameSize == frameSize && this.settings == settings
    {
      this.frameSize := frameSize;
      this.settings := settings;
      vars := INITIAL_VARS;
    }

    /**
     * One loop iteration on frame `cur` at time `now`; `path` is the file a
     * recording started in this iteration is written to.
     */
    method Step(cam: MyCam.Camera, cur: seq<int>, now: real, path: string)
      requires Valid() && |cur| == frameSize
      modifies this`vars, cam`recordingEncoder
      ensures Valid()
      ensures vars == TickSpec(old(vars), old(cam.IsRecording()), cur, now, settings).vars
      ensures cam.IsRecording() == TickSpec(old(vars), old(cam.IsRecording()), cur, now, settings).recording
      ensures Start in TickSpec(old(vars), old(cam.IsRecording()), cur, now, settings).actions ==>
              cam.recordingEncoder == Some(MyCam.RecordingEncoder(path, "main", MyCam.Medium))
      ensures Start !in TickSpec(old(vars), old(cam.IsRecording()), cur, now, settings).actions && cam.IsRecording() ==>
              cam.recordingEncoder == old(cam.recordingEncoder)
    {
      var v := vars;
      if v.prev.Some? {
        var ratio := ChangeRatio(v.prev.value, cur, PIXEL_THRESHOLD);
        if ratio >= settings.threshold {
          if !cam.IsRecording() {
            var _ := cam.StartRecordingToFile(path, "main", MyCam.Medium);
            v := v.(recordingStartTime := now);
          }
          v := v.(lastDetected := now);
        } else {
          if cam.IsRecording() && now - v.lastDetected > settings.minLength {
            cam.StopRecordingToFile();
          }
        }
        if cam.IsRecording() && now - v.recordingStartTime > settings.maxLength {
          cam.StopRecordingToFile();
          var _ := cam.StartRecordingToFile(path, "main", MyCam.Medium);
          v := v.(recordingStartTime := now);
        }
      }
      vars := v.(prev := Some(cur));
    }

    /** The stop event fired: a running recording is stopped before the loop exits. */
    method Exit(cam: MyCam.Camera)
      modifies cam`recordingEncoder
      ensures !cam.IsRecording()
    {
      if cam.IsRecording() {
        cam.StopRecordingToFile();
      }
    }

    /**
     * The whole loop: an iteration per frame, then the stop event fires.
     * The carried variables follow `Run`, and the camera is left idle.
     */
    method Loop(cam: MyCam.Camera, frames: seq<seq<int>>, times: seq<real>, paths: seq<string>)
      requires Valid() && |times| == |frames| == |paths| && FramesFit(vars, frames, frameSize)
      modifies this`vars, cam`recordingEncoder
      ensures Valid()
      ensures vars == Run(old(vars), old(cam.IsRecording()), frames, times, settings, frameSize).vars
      ensures !cam.IsRecording()
    {
      var i := 0;
      while i < |frames|
        invariant 0 <= i <= |frames| && Valid()
        invariant FramesFit(vars, frames[i..], frameSize)
        invariant Run(old(vars), old(cam.IsRecording()), frames, times, settings, frameSize).vars
               == Run(vars, cam.IsRecording(), frames[i..], times[i..], settings, frameSize).vars
        invariant Run(old(vars), old(cam.IsRecording()), frames, times, settings, frameSize).recording
               == Run(vars, cam.IsRecording(), frames[i..], times[i..], settings, frameSize).recording
      {
        assert frames[i..][1..] == frames[i + 1..] && times[i..][1..] == times[i + 1..];
        Step(cam, frames[i], times[i], paths[i]);
        i := i + 1;
      }
      Exit(cam);
    }
  }
}
