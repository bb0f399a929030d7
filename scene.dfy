/** The AR pose tracker of src/scene.js: a single "latest frame" slot that the pose
    source overwrites, and a per-render-tick step that gates on six landmarks, counts
    lost frames, and smooths the garment's transform toward a target computed from
    the shoulders and hips. Math.atan2 and Math.PI are parameters. */
module Scene {
  import opened Basics
  import opened Three
  import opened Model

  /** One pose landmark in MediaPipe's normalized coordinates. */
  datatype Landmark = Landmark(x: real, y: real, z: real)

  /** A results object of the pose source; poseLandmarks may be missing, and so may any entry. */
  datatype PoseResults = PoseResults(poseLandmarks: Option<seq<Option<Landmark>>>)

  const LeftShoulder: nat := 11
  const RightShoulder: nat := 12
  const LeftElbow: nat := 13
  const RightElbow: nat := 14
  const LeftHip: nat := 23
  const RightHip: nat := 24
  /** The landmarks a frame must hold to count as tracked. */
  const Required: seq<nat> := [LeftShoulder, RightShoulder, LeftElbow, RightElbow, LeftHip, RightHip]

  const SmoothingFactor: real := 0.6
  const ViewportWidth: real := 10.0
  const ViewportHeight: real := 8.0
  const WidthScaleFactor: real := 8.0
  const MaxLostFrames: nat := 30

  /** Math.atan2(y, x). */
  type Atan2 = (real, real) -> real

  /** results.poseLandmarks?.[i]: absent when the array is missing, too short, or holds nothing there. */
  function LandmarkAt(r: PoseResults, i: nat): Option<Landmark>
  {
    if r.poseLandmarks.Some? && i < |r.poseLandmarks.value| then r.poseLandmarks.value[i] else None
  }

  /** The four points the transform is computed from; the elbows are checked but not kept. */
  datatype Torso = Torso(leftShoulder: Landmark, rightShoulder: Landmark, leftHip: Landmark, rightHip: Landmark)

  /** The landmark gate: a torso exactly when all six required landmarks are present. */
  function Gate(r: PoseResults): (t: Option<Torso>)
    ensures t.Some? <==> forall k :: 0 <= k < |Required| ==> LandmarkAt(r, Required[k]).Some?
    ensures t.Some? ==>
      && LandmarkAt(r, LeftShoulder).Some? && LandmarkAt(r, RightShoulder).Some?
      && LandmarkAt(r, LeftHip).Some? && LandmarkAt(r, RightHip).Some?
      && t.value == Torso(LandmarkAt(r, LeftShoulder).value, LandmarkAt(r, RightShoulder).value,
                          LandmarkAt(r, LeftHip).value, LandmarkAt(r, RightHip).value)
  {
    var ls, rs := LandmarkAt(r, LeftShoulder), LandmarkAt(r, RightShoulder);
    var le, re := LandmarkAt(r, LeftElbow), LandmarkAt(r, RightElbow);
    var lh, rh := LandmarkAt(r, LeftHip), LandmarkAt(r, RightHip);
    if ls.Some? && rs.Some? && le.Some? && re.Some? && lh.Some? && rh.Some?
    then Some(Torso(ls.value, rs.value, lh.value, rh.value))
    else
      assert !LandmarkAt(r, Required[0]).Some? || !LandmarkAt(r, Required[1]).Some? || !LandmarkAt(r, Required[2]).Some?
          || !LandmarkAt(r, Required[3]).Some? || !LandmarkAt(r, Required[4]).Some? || !LandmarkAt(r, Required[5]).Some?;
      None
  }

  /** The torso centre: the mean of the four shoulder and hip points. */
  function Center(t: Torso): Vec3
  {
    Vec3((t.leftShoulder.x + t.rightShoulder.x + t.leftHip.x + t.rightHip.x) / 4.0,
         (t.leftShoulder.y + t.rightShoulder.y + t.leftHip.y + t.rightHip.y) / 4.0,
         (t.leftShoulder.z + t.rightShoulder.z + t.leftHip.z + t.rightHip.z) / 4.0)
  }

  /** Target position: the centre mapped into a 10 by 8 viewport with depth parallax,
      x and y clamped to half the viewport, z not clamped. */
  function TargetPosition(t: Torso): (p: Vec3)
    ensures -ViewportWidth / 2.0 <= p.x <= ViewportWidth / 2.0
    ensures -ViewportHeight / 2.0 <= p.y <= ViewportHeight / 2.0
    ensures p.z == -2.0 - Center(t).z * 6.0
    ensures var c := Center(t); var raw := (0.5 - c.x) * ViewportWidth * (1.0 + c.z);
      && (-5.0 <= raw <= 5.0 ==> p.x == raw)
      && (raw > 5.0 ==> p.x == 5.0) && (raw < -5.0 ==> p.x == -5.0)
    ensures var c := Center(t); var raw := (0.5 - c.y) * ViewportHeight * (1.0 + c.z);
      && (-4.0 <= raw <= 4.0 ==> p.y == raw)
      && (raw > 4.0 ==> p.y == 4.0) && (raw < -4.0 ==> p.y == -4.0)
  {
    var c := Center(t);
    Vec3(Clamp((0.5 - c.x) * ViewportWidth * (1.0 + c.z), -ViewportWidth / 2.0, ViewportWidth / 2.0),
         Clamp((0.5 - c.y) * ViewportHeight * (1.0 + c.z), -ViewportHeight / 2.0, ViewportHeight / 2.0),
         -2.0 - c.z * 6.0)
  }

  /** The wider of the shoulder span and the hip span. */
  function TorsoWidth(t: Torso): (w: real)
    ensures w >= Abs(t.leftShoulder.x - t.rightShoulder.x) && w >= Abs(t.leftHip.x - t.rightHip.x)
    ensures w == Abs(t.leftShoulder.x - t.rightShoulder.x) || w == Abs(t.leftHip.x - t.rightHip.x)
    ensures w >= 0.0
  {
    Max(Abs(t.leftShoulder.x - t.rightShoulder.x), Abs(t.leftHip.x - t.rightHip.x))
  }

  /** The vertical distance between the shoulder midpoint and the hip midpoint. */
  function TorsoHeight(t: Torso): (h: real)
    ensures h >= 0.0
    ensures h == Abs((t.leftShoulder.y + t.rightShoulder.y) / 2.0 - (t.leftHip.y + t.rightHip.y) / 2.0)
  {
    Abs((t.leftShoulder.y + t.rightShoulder.y) / 2.0 - (t.leftHip.y + t.rightHip.y) / 2.0)
  }

  lemma MulNonneg(a: real, b: real)
    requires a >= 0.0 && b >= 0.0
    ensures a * b >= 0.0
  {
  }

  /** Target scale from the torso's size and depth: depth is 0.8 of width, height is never
      negative, and width is not negative while the centre is no nearer than z = -1. */
  function TargetScale(t: Torso): (s: Vec3)
    ensures s.z == 0.8 * s.x
    ensures s.y >= 0.0
    ensures Center(t).z >= -1.0 ==> s.x >= 0.0
  {
    var cz := Center(t).z;
    var w, h := TorsoWidth(t), TorsoHeight(t);
    var baseScale := 6.0 + Abs(cz) * 12.0;
    var scaleX := w * WidthScaleFactor * (1.0 + cz);
    MulNonneg(h, baseScale);
    MulNonneg(h * baseScale, 1.5);
    assert cz >= -1.0 ==> scaleX >= 0.0 by {
      if cz >= -1.0 { MulNonneg(w * WidthScaleFactor, 1.0 + cz); }
    }
    Vec3(scaleX, h * baseScale * 1.5, scaleX * 0.8)
  }

  /** Target yaw: PI (facing away) when the mean of the shoulder and hip angles exceeds
      1.2 radians in magnitude, else 0. */
  function TargetYaw(t: Torso, atan2: Atan2, pi: real): (y: real)
    ensures y == 0.0 || y == pi
    ensures var shoulder := atan2(t.rightShoulder.x - t.leftShoulder.x, t.rightShoulder.z - t.leftShoulder.z);
      var hip := atan2(t.rightHip.x - t.leftHip.x, t.rightHip.z - t.leftHip.z);
      (y == pi && pi != 0.0) ==> Abs((shoulder + hip) / 2.0) > 1.2
    ensures var shoulder := atan2(t.rightShoulder.x - t.leftShoulder.x, t.rightShoulder.z - t.leftShoulder.z);
      var hip := atan2(t.rightHip.x - t.leftHip.x, t.rightHip.z - t.leftHip.z);
      Abs((shoulder + hip) / 2.0) > 1.2 ==> y == pi
  {
    var shoulderAngle := atan2(t.rightShoulder.x - t.leftShoulder.x, t.rightShoulder.z - t.leftShoulder.z);
    var torsoAngle := atan2(t.rightHip.x - t.leftHip.x, t.rightHip.z - t.leftHip.z);
    if Abs((shoulderAngle + torsoAngle) / 2.0) > 1.2 then pi else 0.0
  }

  /** The smoothed transform: position, scale, and rotation angles (only y is ever smoothed). */
  datatype Pose = Pose(position: Vec3, scale: Vec3, rotation: Vec3)

  /** The pose every smoothed value is pulled toward by a tracked torso. */
  function TargetPose(t: Torso, atan2: Atan2, pi: real): Pose
  {
    Pose(TargetPosition(t), TargetScale(t), Vec3(0.0, TargetYaw(t, atan2, pi), 0.0))
  }

  /** One smoothing step of position, scale and yaw toward the values of g. */
  function Toward(s: Pose, g: Pose): Pose
  {
    Pose(LerpVec(s.position, g.position, SmoothingFactor),
         LerpVec(s.scale, g.scale, SmoothingFactor),
         s.rotation.(y := Lerp(s.rotation.y, g.rotation.y, SmoothingFactor)))
  }

  /** One smoothing step of every value toward its target. */
  function Smooth(s: Pose, t: Torso, atan2: Atan2, pi: real): Pose
  {
    Toward(s, TargetPose(t, atan2, pi))
  }

  /** The counter and visibility, with the smoothed transform and the "Tracking Lost" notice. */
  datatype TrackState = TrackState(lost: nat, visible: bool, smoothed: Pose, notice: bool)

  /** One render tick with a garment present and a frame in the slot. */
  function Track(s: TrackState, frame: PoseResults, atan2: Atan2, pi: real): (r: TrackState)
    ensures Gate(frame).Some? ==> r.lost == 0 && r.visible && r.notice == s.notice
    ensures Gate(frame).Some? ==> r.smoothed == Smooth(s.smoothed, Gate(frame).value, atan2, pi)
    ensures Gate(frame).None? ==> r.lost == s.lost + 1 && r.smoothed == s.smoothed
    ensures Gate(frame).None? ==> (r.visible <==> s.visible && s.lost + 1 <= MaxLostFrames)
    ensures Gate(frame).None? ==> (r.notice <==> s.notice || s.lost + 1 > MaxLostFrames)
  {
    match Gate(frame)
    case Some(t) => TrackState(0, true, Smooth(s.smoothed, t, atan2, pi), s.notice)
    case None =>
      var lost := s.lost + 1;
      if lost > MaxLostFrames then TrackState(lost, false, s.smoothed, true)
      else TrackState(lost, s.visible, s.smoothed, s.notice)
  }

  /** n ticks on the same frame. */
  function Repeat(s: TrackState, frame: PoseResults, atan2: Atan2, pi: real, n: nat): TrackState
  {
    if n == 0 then s else Track(Repeat(s, frame, atan2, pi, n - 1), frame, atan2, pi)
  }

  /** A run of frames missing a landmark adds one per tick to the counter, with no cap, and
      visibility survives exactly while the counter stays at 30 or below. */
  lemma {:induction false} LostRun(s: TrackState, frame: PoseResults, atan2: Atan2, pi: real, n: nat)
    requires Gate(frame).None?
    ensures Repeat(s, frame, atan2, pi, n).lost == s.lost + n
    ensures Repeat(s, frame, atan2, pi, n).visible <==> s.visible && (n == 0 || s.lost + n <= MaxLostFrames)
    ensures Repeat(s, frame, atan2, pi, n).smoothed == s.smoothed
  {
    if n > 0 {
      LostRun(s, frame, atan2, pi, n - 1);
    }
  }

  /** From the tracking state, the 31st consecutive missing frame is the first that hides the garment. */
  lemma HiddenExactlyOn31st(s: TrackState, frame: PoseResults, atan2: Atan2, pi: real)
    requires s.lost == 0 && s.visible && Gate(frame).None?
    ensures forall n: nat :: n <= MaxLostFrames ==> Repeat(s, frame, atan2, pi, n).visible
    ensures !Repeat(s, frame, atan2, pi, MaxLostFrames + 1).visible
    ensures Repeat(s, frame, atan2, pi, MaxLostFrames + 1).notice
  {
    forall n: nat | n <= MaxLostFrames ensures Repeat(s, frame, atan2, pi, n).visible {
      LostRun(s, frame, atan2, pi, n);
    }
    LostRun(s, frame, atan2, pi, MaxLostFrames);
  }

  function Pow(b: real, n: nat): real
  {
    if n == 0 then 1.0 else b * Pow(b, n - 1)
  }

  /** Every smoothed component of p sits at k times the distance from the target that s0 had;
      the rotation's x and z, which are never smoothed, are those of s0. */
  ghost predicate Scaled(p: Pose, target: Pose, s0: Pose, k: real)
  {
    && Gap(p.position.x, target.position.x, s0.position.x, k)
    && Gap(p.position.y, target.position.y, s0.position.y, k)
    && Gap(p.position.z, target.position.z, s0.position.z, k)
    && Gap(p.scale.x, target.scale.x, s0.scale.x, k)
    && Gap(p.scale.y, target.scale.y, s0.scale.y, k)
    && Gap(p.scale.z, target.scale.z, s0.scale.z, k)
    && Gap(p.rotation.y, target.rotation.y, s0.rotation.y, k)
    && p.rotation.x == s0.rotation.x && p.rotation.z == s0.rotation.z
  }

  /** a is k times as far from target as the original value was. */
  ghost predicate Gap(a: real, target: real, original: real, k: real)
  {
    a - target == k * (original - target)
  }

  /** One smoothing step turns a distance of k times the original into 0.4 k times it. */
  lemma TowardContracts(p: Pose, g: Pose, s0: Pose, k: real)
    requires Scaled(p, g, s0, k)
    ensures Scaled(Toward(p, g), g, s0, 0.4 * k)
  {
    Contract(p.position.x, g.position.x, s0.position.x, k);
    Contract(p.position.y, g.position.y, s0.position.y, k);
    Contract(p.position.z, g.position.z, s0.position.z, k);
    Contract(p.scale.x, g.scale.x, s0.scale.x, k);
    Contract(p.scale.y, g.scale.y, s0.scale.y, k);
    Contract(p.scale.z, g.scale.z, s0.scale.z, k);
    Contract(p.rotation.y, g.rotation.y, s0.rotation.y, k);
  }

  /** With a fixed tracked frame every smoothed value's distance to its target shrinks by the
      factor 0.4 per tick, and the counter stays at 0 with the garment visible. */
  lemma {:induction false} Converges(s: TrackState, frame: PoseResults, atan2: Atan2, pi: real, n: nat)
    requires Gate(frame).Some?
    ensures Scaled(Repeat(s, frame, atan2, pi, n).smoothed, TargetPose(Gate(frame).value, atan2, pi),
                   s.smoothed, Pow(0.4, n))
    ensures n > 0 ==> Repeat(s, frame, atan2, pi, n).lost == 0 && Repeat(s, frame, atan2, pi, n).visible
  {
    var t := Gate(frame).value;
    if n == 0 {
      assert Pow(0.4, 0) == 1.0;
    } else {
      Converges(s, frame, atan2, pi, n - 1);
      var prev := Repeat(s, frame, atan2, pi, n - 1);
      TowardContracts(prev.smoothed, TargetPose(t, atan2, pi), s.smoothed, Pow(0.4, n - 1));
      assert Repeat(s, frame, atan2, pi, n) == Track(prev, frame, atan2, pi);
    }
  }

  /** One smoothing step by 0.6 from a, at a distance of k * d from the target, lands at a
      distance of 0.4 k * d. */
  lemma Contract(a: real, target: real, original: real, k: real)
    requires Gap(a, target, original, k)
    ensures Gap(Lerp(a, target, SmoothingFactor), target, original, 0.4 * k)
  {
    var d := original - target;
    assert 1.0 - SmoothingFactor == 0.4;
    assert Lerp(a, target, SmoothingFactor) - target == 0.4 * (k * d);
  }

  /** Everything the tracker keeps at module level, as one value. */
  datatype Engine = Engine(slot: Option<PoseResults>, smoothed: Pose, lost: nat, notice: bool)

  const InitialEngine := Engine(None, Pose(Vec3(0.0, 0.0, -2.0), Vec3(1.0, 1.0, 1.0), Origin), 0, false)

  /** The garment after a tick: its visibility, and when the frame was tracked its transform. */
  function Place(g: Garment, s: TrackState, tracked: bool): Garment
  {
    if tracked
    then g.(visible := s.visible, position := s.smoothed.position, scale := s.smoothed.scale,
            rotation := Vec3(0.0, s.smoothed.rotation.y, 0.0))
    else g.(visible := s.visible)
  }

  /** animate(): one render tick. Outside AR mode, without an active garment, or with an
      empty slot, nothing changes; the slot is read but never emptied. */
  function Tick(e: Engine, reg: Registry, arMode: bool, atan2: Atan2, pi: real): (Engine, Registry)
  {
    if arMode && reg.current.Some? && reg.current.value in reg.models && e.slot.Some? then
      var name := reg.current.value;
      var g := reg.models[name];
      var s := Track(TrackState(e.lost, g.visible, e.smoothed, e.notice), e.slot.value, atan2, pi);
      (Engine(e.slot, s.smoothed, s.lost, s.notice),
       reg.(models := reg.models[name := Place(g, s, Gate(e.slot.value).Some?)]))
    else (e, reg)
  }

  /** setLatestResults(results): overwrites the slot, only in AR mode. */
  function Deliver(e: Engine, arMode: bool, results: Option<PoseResults>): (r: Engine)
    ensures arMode ==> r == e.(slot := results)
    ensures !arMode ==> r == e
  {
    if arMode then e.(slot := results) else e
  }

  const ResetPose := Pose(Vec3(0.0, 2.0, 0.0), Vec3(1.0, 1.0, 1.0), Origin)

  /** The garment-related part of toggleEditorMode(isEditorMode). */
  function Toggle(e: Engine, reg: Registry, editorMode: bool): (Engine, Registry)
  {
    if reg.current.Some? && reg.current.value in reg.models then
      var name := reg.current.value;
      var models := reg.models[name := reg.models[name].(visible := editorMode)];
      (if editorMode then e.(smoothed := ResetPose, slot := None) else e, reg.(models := models))
    else (e, reg)
  }

  /** n render ticks in AR mode with no pose callback in between. */
  function Ticks(e: Engine, reg: Registry, atan2: Atan2, pi: real, n: nat): (Engine, Registry)
  {
    if n == 0 then (e, reg)
    else
      var prev := Ticks(e, reg, atan2, pi, n - 1);
      Tick(prev.0, prev.1, true, atan2, pi)
  }

  /** Because the slot is never consumed, n ticks reprocess the same frame n times: the
      tracker follows Repeat, the active garment stays the same, and only it changes. */
  lemma {:induction false} TicksReprocessFrame(e: Engine, reg: Registry, atan2: Atan2, pi: real, n: nat)
    requires e.slot.Some? && reg.current.Some? && reg.current.value in reg.models
    ensures var name := reg.current.value;
      var r := Ticks(e, reg, atan2, pi, n);
      var s := Repeat(TrackState(e.lost, reg.models[name].visible, e.smoothed, e.notice), e.slot.value, atan2, pi, n);
      && r.0 == Engine(e.slot, s.smoothed, s.lost, s.notice)
      && r.1.current == reg.current && r.1.states == reg.states
      && r.1.models.Keys == reg.models.Keys
      && r.1.models[name].visible == s.visible
      && (forall other :: other in reg.models && other != name ==> r.1.models[other] == reg.models[other])
  {
    if n > 0 {
      TicksReprocessFrame(e, reg, atan2, pi, n - 1);
    }
  }

  /** Entering editor mode with a garment snaps the transform to its defaults and empties the
      slot; the lost-frame counter is left as it was. */
  lemma ToggleEditorResets(e: Engine, reg: Registry)
    requires reg.current.Some? && reg.current.value in reg.models
    ensures var r := Toggle(e, reg, true);
      && r.0.smoothed.position == Vec3(0.0, 2.0, 0.0) && r.0.smoothed.scale == Vec3(1.0, 1.0, 1.0)
      && r.0.smoothed.rotation == Origin && r.0.slot == None && r.0.lost == e.lost
      && r.1.models[reg.current.value].visible
  {
  }

  /** The tracker object: module-level state of scene.js. */
  class Tracker {
    var latestResults: Option<PoseResults>
    var smoothedPosition: Vec3
    var smoothedScale: Vec3
    var smoothedRotation: Vec3
    var trackingLostFrames: nat
    var trackingLostNotice: bool

    function Snapshot(): Engine
      reads this
    {
      Engine(latestResults, Pose(smoothedPosition, smoothedScale, smoothedRotation), trackingLostFrames, trackingLostNotice)
    }

    constructor ()
      ensures Snapshot() == InitialEngine
    {
      latestResults := None;
      smoothedPosition, smoothedScale, smoothedRotation := Vec3(0.0, 0.0, -2.0), Vec3(1.0, 1.0, 1.0), Origin;
      trackingLostFrames, trackingLostNotice := 0, false;
    }

    method SetLatestResults(arMode: bool, results: Option<PoseResults>)
      modifies this`latestResults
      ensures Snapshot() == Deliver(old(Snapshot()), arMode, results)
    {
      if arMode {
        latestResults := results;
      }
    }

    method Animate(arMode: bool, garments: Garments, atan2: Atan2, pi: real)
      requires garments.Valid()
      modifies this, garments
      ensures garments.Valid()
      ensures (Snapshot(), garments.Snapshot()) == Tick(old(Snapshot()), old(garments.Snapshot()), arMode, atan2, pi)
    {
      if !arMode || garments.currentModelName.None? || garments.currentModelName.value !in garments.models
         || latestResults.None? {
        return;
      }
      var name := garments.currentModelName.value;
      var model := garments.models[name];
      var frame := latestResults.value;
      var torso := Gate(frame);
      ghost var g := model;
      ghost var e0 := Snapshot();
      ghost var s := Track(TrackState(e0.lost, g.visible, e0.smoothed, e0.notice), frame, atan2, pi);
      if torso.Some? {
        var t := torso.value;
        trackingLostFrames := 0;
        model := model.(visible := true);
        smoothedPosition := LerpVec(smoothedPosition, TargetPosition(t), SmoothingFactor);
        smoothedScale := LerpVec(smoothedScale, TargetScale(t), SmoothingFactor);
        smoothedRotation := smoothedRotation.(y := Lerp(smoothedRotation.y, TargetYaw(t, atan2, pi), SmoothingFactor));
        model := model.(position := smoothedPosition, scale := smoothedScale,
                        rotation := Vec3(0.0, smoothedRotation.y, 0.0));
      } else {
        trackingLostFrames := trackingLostFrames + 1;
        if trackingLostFrames > MaxLostFrames {
          model := model.(visible := false);
          trackingLostNotice := true;
        }
      }
      assert model == Place(g, s, torso.Some?);
      assert Snapshot() == Engine(e0.slot, s.smoothed, s.lost, s.notice);
      garments.models := garments.models[name := model];
    }

    method ToggleEditorMode(editorMode: bool, garments: Garments)
      requires garments.Valid()
      modifies this, garments
      ensures garments.Valid()
      ensures (Snapshot(), garments.Snapshot()) == Toggle(old(Snapshot()), old(garments.Snapshot()), editorMode)
    {
      if garments.currentModelName.Some? && garments.currentModelName.value in garments.models {
        var name := garments.currentModelName.value;
        garments.models := garments.models[name := garments.models[name].(visible := editorMode)];
        if editorMode {
          smoothedPosition := Vec3(0.0, 2.0, 0.0);
          smoothedScale := Vec3(1.0, 1.0, 1.0);
          smoothedRotation := Origin;
          latestResults := None;
        }
      }
    }
  }
}
