/**
 * The dock controller model: the app-side object that mediates between the
 * user interface and the DockKit service, and that drives the robot face's
 * eyes and mood from the faces the camera or the accessory reports.
 *
 * The DockKit service is outside the model. Each call into it is appended to
 * the ghost log `serviceCalls`, and the answer it gives is a parameter.
 */
module DockController {
  import opened Geometry
  import opened DataTypes

  /** A call the controller forwards to the DockKit service. */
  datatype ServiceCall =
    | UpdateTrackingModeCall(mode: TrackingMode)
    | SelectSubjectCall(point: Option<Point>)
    | SetRegionOfInterestCall(region: Rect)
    | TrackCall(metadata: seq<MetadataObject>)

  /** A capture metadata object: a detected face with its bounds, or anything else. */
  datatype MetadataObject = FaceObject(bounds: Rect) | OtherObject

  /** How sure the face-metadata path is that a detected face looks at the camera. */
  const AssumedLooking: real := 0.8

  /**
   * Where both eyes look for a face centred at the middle of `r`: mirrored
   * horizontally, and kept inside [0.2, 0.8] x [0.3, 0.7].
   */
  function EyeTarget(r: Rect): (p: Point)
    ensures 0.2 <= p.x <= 0.8 && 0.3 <= p.y <= 0.7
    ensures 0.2 <= 1.0 - MidX(r) <= 0.8 ==> p.x == 1.0 - MidX(r)
    ensures 0.3 <= MidY(r) <= 0.7 ==> p.y == MidY(r)
  {
    Point(Clamp(0.2, 0.8, 1.0 - MidX(r)), Clamp(0.3, 0.7, MidY(r)))
  }

  lemma ClampMonotone(lo: real, hi: real, u: real, v: real)
    requires lo <= hi && u <= v
    ensures Clamp(lo, hi, u) <= Clamp(lo, hi, v)
  {
  }

  /**
   * The eyes mirror the face: a face further right never moves the eyes
   * right, and a face further down never moves them up.
   */
  lemma EyeTargetMirrors(a: Rect, b: Rect)
    ensures MidX(a) <= MidX(b) ==> EyeTarget(a).x >= EyeTarget(b).x
    ensures MidY(a) <= MidY(b) ==> EyeTarget(a).y <= EyeTarget(b).y
  {
    if MidX(a) <= MidX(b) {
      ClampMonotone(0.2, 0.8, 1.0 - MidX(b), 1.0 - MidX(a));
    }
    if MidY(a) <= MidY(b) {
      ClampMonotone(0.3, 0.7, MidY(a), MidY(b));
    }
  }

  /** The mood a looking confidence gives; both thresholds are strict. */
  function LookingMood(looking: real): (m: RobotMood)
    ensures m == Happy <==> looking > 0.8
    ensures m == Normal <==> 0.5 < looking <= 0.8
    ensures m == Sad <==> looking <= 0.5
  {
    if looking > 0.8 then Happy
    else if looking > 0.5 then Normal
    else Sad
  }

  /** The tracked persons the face-metadata path makes: one per face, in order. */
  function FacePersons(metadata: seq<MetadataObject>): (ps: seq<DockAccessoryTrackedPerson>)
    ensures |ps| <= |metadata|
    ensures ps == [] <==> forall i :: 0 <= i < |metadata| ==> !metadata[i].FaceObject?
    ensures forall i :: 0 <= i < |ps| ==>
      ps[i].saliency == 1 && ps[i].speaking == None && ps[i].looking == Some(AssumedLooking)
  {
    if metadata == [] then [] else
      var n := |metadata| - 1;
      var front := FacePersons(metadata[..n]);
      assert forall i :: 0 <= i < n ==> metadata[..n][i] == metadata[i];
      match metadata[n]
      case FaceObject(bounds) => front + [DockAccessoryTrackedPerson(1, bounds, None, Some(AssumedLooking))]
      case OtherObject => front
  }

  /** Each face's bounds become the rectangle of a person, in order. */
  lemma {:induction false} FacePersonsRects(metadata: seq<MetadataObject>, i: nat)
    requires i < |metadata| && metadata[i].FaceObject?
    ensures exists j :: 0 <= j < |FacePersons(metadata)| && FacePersons(metadata)[j].rect == metadata[i].bounds
    decreases |metadata|
  {
    var n := |metadata| - 1;
    if i < n {
      assert metadata[..n][i] == metadata[i];
      FacePersonsRects(metadata[..n], i);
      var j :| 0 <= j < |FacePersons(metadata[..n])| && FacePersons(metadata[..n])[j].rect == metadata[i].bounds;
      assert FacePersons(metadata)[j] == FacePersons(metadata[..n])[j];
    } else {
      var ps := FacePersons(metadata);
      assert ps[|ps| - 1].rect == metadata[i].bounds;
    }
  }

  /** The first face of the metadata, when there is one, is the first person. */
  lemma {:induction false} FirstFaceLeads(metadata: seq<MetadataObject>, i: nat)
    requires i < |metadata| && metadata[i].FaceObject?
    requires forall j :: 0 <= j < i ==> !metadata[j].FaceObject?
    ensures FacePersons(metadata) != [] && FacePersons(metadata)[0].rect == metadata[i].bounds
    decreases |metadata|
  {
    var n := |metadata| - 1;
    if i < n {
      assert metadata[..n][i] == metadata[i];
      FirstFaceLeads(metadata[..n], i);
    } else {
      assert FacePersons(metadata[..n]) == [] by {
        forall j | 0 <= j < n ensures !metadata[..n][j].FaceObject? {
          assert metadata[..n][j] == metadata[j];
        }
      }
    }
  }

  class DockControllerModel {
    var trackedPersons: seq<DockAccessoryTrackedPerson>
    var dockAccessoryFeatures: DockAccessoryFeatures
    const robotFaceState: RobotFaceState
    ghost var serviceCalls: seq<ServiceCall>

    constructor ()
      ensures trackedPersons == [] && dockAccessoryFeatures == DefaultFeatures() && serviceCalls == []
      ensures fresh(robotFaceState) && !robotFaceState.isTracking && robotFaceState.mood == Normal
    {
      trackedPersons := [];
      dockAccessoryFeatures := DefaultFeatures();
      robotFaceState := new RobotFaceState();
      serviceCalls := [];
    }

    /**
     * Robot-face mode is handled here: the face starts tracking, tap-to-track
     * and the tracking summary are switched on, and the call succeeds without
     * reaching the service. Any other mode stops the face tracking and is
     * forwarded. The recorded tracking mode is not changed either way.
     */
    method UpdateTrackingMode(trackingMode: TrackingMode, serviceResult: bool) returns (ok: bool)
      modifies this, robotFaceState
      ensures robotFaceState.isTracking <==> trackingMode == RobotFace
      ensures trackingMode == RobotFace ==>
        ok && serviceCalls == old(serviceCalls) &&
        dockAccessoryFeatures == old(dockAccessoryFeatures).(isTapToTrackEnabled := true, isTrackingSummaryEnabled := true)
      ensures trackingMode != RobotFace ==>
        ok == serviceResult && serviceCalls == old(serviceCalls) + [UpdateTrackingModeCall(trackingMode)] &&
        dockAccessoryFeatures == old(dockAccessoryFeatures)
      ensures trackedPersons == old(trackedPersons)
      ensures robotFaceState.mood == old(robotFaceState.mood)
      ensures robotFaceState.leftEyePosition == old(robotFaceState.leftEyePosition)
      ensures robotFaceState.rightEyePosition == old(robotFaceState.rightEyePosition)
      ensures robotFaceState.isBlinking == old(robotFaceState.isBlinking)
      ensures robotFaceState.isManualMoodMode == old(robotFaceState.isManualMoodMode)
    {
      if trackingMode == RobotFace {
        robotFaceState.isTracking := true;
        dockAccessoryFeatures := dockAccessoryFeatures.(isTapToTrackEnabled := true);
        dockAccessoryFeatures := dockAccessoryFeatures.(isTrackingSummaryEnabled := true);
        return true;
      } else {
        robotFaceState.isTracking := false;
      }
      serviceCalls := serviceCalls + [UpdateTrackingModeCall(trackingMode)];
      ok := serviceResult;
    }

    /** Refused without reaching the service unless tap-to-track is on or the caller overrides. */
    method SelectSubject(point: Option<Point>, override: bool, serviceResult: bool) returns (ok: bool)
      modifies this`serviceCalls
      ensures !dockAccessoryFeatures.isTapToTrackEnabled && !override ==>
        !ok && serviceCalls == old(serviceCalls)
      ensures dockAccessoryFeatures.isTapToTrackEnabled || override ==>
        ok == serviceResult && serviceCalls == old(serviceCalls) + [SelectSubjectCall(point)]
    {
      if !dockAccessoryFeatures.isTapToTrackEnabled && !override {
        return false;
      }
      serviceCalls := serviceCalls + [SelectSubjectCall(point)];
      ok := serviceResult;
    }

    /** Refused without reaching the service unless region-of-interest setting is on or overridden. */
    method SetRegionOfInterest(region: Rect, override: bool, serviceResult: bool) returns (ok: bool)
      modifies this`serviceCalls
      ensures !dockAccessoryFeatures.isSetROIEnabled && !override ==>
        !ok && serviceCalls == old(serviceCalls)
      ensures dockAccessoryFeatures.isSetROIEnabled || override ==>
        ok == serviceResult && serviceCalls == old(serviceCalls) + [SetRegionOfInterestCall(region)]
    {
      if !dockAccessoryFeatures.isSetROIEnabled && !override {
        return false;
      }
      serviceCalls := serviceCalls + [SetRegionOfInterestCall(region)];
      ok := serviceResult;
    }

    /**
     * Points both eyes at the first person and sets the mood from how surely
     * that person looks at the camera (leaving it when unknown); with nobody
     * in view the face stops tracking, gets sleepy and looks straight ahead.
     */
    method UpdateRobotEyePositions(persons: seq<DockAccessoryTrackedPerson>)
      modifies robotFaceState
      ensures persons == [] ==>
        !robotFaceState.isTracking && robotFaceState.mood == Sleepy &&
        robotFaceState.leftEyePosition == EyeCentre && robotFaceState.rightEyePosition == EyeCentre
      ensures persons != [] ==>
        robotFaceState.isTracking &&
        robotFaceState.leftEyePosition == EyeTarget(persons[0].rect) &&
        robotFaceState.rightEyePosition == robotFaceState.leftEyePosition &&
        robotFaceState.mood ==
          (if persons[0].looking.Some? then LookingMood(persons[0].looking.value) else old(robotFaceState.mood))
      ensures robotFaceState.isBlinking == old(robotFaceState.isBlinking)
      ensures robotFaceState.isManualMoodMode == old(robotFaceState.isManualMoodMode)
    {
      if persons != [] {
        var primaryPerson := persons[0];
        robotFaceState.isTracking := true;
        var faceCenter := Point(MidX(primaryPerson.rect), MidY(primaryPerson.rect));
        var eyeX := 1.0 - faceCenter.x;
        var eyeY := faceCenter.y;
        var constrainedX := Clamp(0.2, 0.8, eyeX);
        var constrainedY := Clamp(0.3, 0.7, eyeY);
        robotFaceState.leftEyePosition := Point(constrainedX, constrainedY);
        robotFaceState.rightEyePosition := Point(constrainedX, constrainedY);
        if primaryPerson.looking.Some? {
          var looking := primaryPerson.looking.value;
          if looking > 0.8 {
            robotFaceState.mood := Happy;
          } else if looking > 0.5 {
            robotFaceState.mood := Normal;
          } else {
            robotFaceState.mood := Sad;
          }
        }
      } else {
        robotFaceState.isTracking := false;
        robotFaceState.mood := Sleepy;
        robotFaceState.leftEyePosition := EyeCentre;
        robotFaceState.rightEyePosition := EyeCentre;
      }
    }

    /**
     * Turns the camera's face metadata into tracked persons (one per face,
     * each taken to look at the camera with confidence 0.8) and updates the
     * eyes from them. Because the happy threshold is strict, a face seen this
     * way makes the robot look normal, never happy.
     */
    method ProcessFaceDetectionForRobotMode(metadata: seq<MetadataObject>)
      modifies robotFaceState
      ensures (exists i :: 0 <= i < |metadata| && metadata[i].FaceObject?) ==>
        robotFaceState.isTracking && robotFaceState.mood == Normal &&
        robotFaceState.leftEyePosition == EyeTarget(FacePersons(metadata)[0].rect)
      ensures (forall i :: 0 <= i < |metadata| ==> !metadata[i].FaceObject?) ==>
        !robotFaceState.isTracking && robotFaceState.mood == Sleepy &&
        robotFaceState.leftEyePosition == EyeCentre
      ensures robotFaceState.mood != Happy
      ensures robotFaceState.rightEyePosition == robotFaceState.leftEyePosition
      ensures robotFaceState.isBlinking == old(robotFaceState.isBlinking)
      ensures robotFaceState.isManualMoodMode == old(robotFaceState.isManualMoodMode)
    {
      var mockTrackedPersons: seq<DockAccessoryTrackedPerson> := [];
      for i := 0 to |metadata|
        invariant mockTrackedPersons == FacePersons(metadata[..i])
      {
        assert metadata[..i + 1][..i] == metadata[..i];
        match metadata[i]
        case FaceObject(bounds) =>
          mockTrackedPersons := mockTrackedPersons + [DockAccessoryTrackedPerson(1, bounds, None, Some(AssumedLooking))];
        case OtherObject =>
      }
      assert metadata[..|metadata|] == metadata;
      UpdateRobotEyePositions(mockTrackedPersons);
    }

    /**
     * The capture delegate's entry point: robot-face mode handles the faces
     * itself; custom tracking with a sample buffer forwards the metadata to
     * the service; anything else is ignored.
     */
    method Track(metadata: seq<MetadataObject>, hasSampleBuffer: bool)
      modifies this`serviceCalls, robotFaceState
      ensures dockAccessoryFeatures.trackingMode == RobotFace ==>
        serviceCalls == old(serviceCalls) && robotFaceState.mood != Happy &&
        robotFaceState.rightEyePosition == robotFaceState.leftEyePosition
      ensures (dockAccessoryFeatures.trackingMode == RobotFace &&
               exists i :: 0 <= i < |metadata| && metadata[i].FaceObject?) ==>
        robotFaceState.isTracking && robotFaceState.mood == Normal &&
        robotFaceState.leftEyePosition == EyeTarget(FacePersons(metadata)[0].rect)
      ensures (dockAccessoryFeatures.trackingMode == RobotFace &&
               forall i :: 0 <= i < |metadata| ==> !metadata[i].FaceObject?) ==>
        !robotFaceState.isTracking && robotFaceState.mood == Sleepy &&
        robotFaceState.leftEyePosition == EyeCentre
      ensures dockAccessoryFeatures.trackingMode == Custom && hasSampleBuffer ==>
        serviceCalls == old(serviceCalls) + [TrackCall(metadata)]
      ensures dockAccessoryFeatures.trackingMode != RobotFace ==>
        robotFaceState.mood == old(robotFaceState.mood) &&
        robotFaceState.isTracking == old(robotFaceState.isTracking) &&
        robotFaceState.leftEyePosition == old(robotFaceState.leftEyePosition) &&
        robotFaceState.rightEyePosition == old(robotFaceState.rightEyePosition)
      ensures !(dockAccessoryFeatures.trackingMode == Custom && hasSampleBuffer) ==>
        serviceCalls == old(serviceCalls)
      ensures robotFaceState.isBlinking == old(robotFaceState.isBlinking)
      ensures robotFaceState.isManualMoodMode == old(robotFaceState.isManualMoodMode)
    {
      if dockAccessoryFeatures.trackingMode == RobotFace {
        ProcessFaceDetectionForRobotMode(metadata);
        return;
      }
      if dockAccessoryFeatures.trackingMode != Custom {
        return;
      }
      if !hasSampleBuffer {
        return;
      }
      serviceCalls := serviceCalls + [TrackCall(metadata)];
    }

    /**
     * A new list of tracked persons from the service is stored, and in
     * robot-face mode it also moves the eyes.
     */
    method OnTrackedPersonsUpdate(persons: seq<DockAccessoryTrackedPerson>)
      modifies this`trackedPersons, robotFaceState
      ensures trackedPersons == persons
      ensures dockAccessoryFeatures.trackingMode == RobotFace && persons == [] ==>
        !robotFaceState.isTracking && robotFaceState.mood == Sleepy &&
        robotFaceState.leftEyePosition == EyeCentre && robotFaceState.rightEyePosition == EyeCentre
      ensures dockAccessoryFeatures.trackingMode == RobotFace && persons != [] ==>
        robotFaceState.isTracking &&
        robotFaceState.leftEyePosition == EyeTarget(persons[0].rect) &&
        robotFaceState.rightEyePosition == robotFaceState.leftEyePosition &&
        robotFaceState.mood ==
          (if persons[0].looking.Some? then LookingMood(persons[0].looking.value) else old(robotFaceState.mood))
      ensures dockAccessoryFeatures.trackingMode != RobotFace ==>
        robotFaceState.mood == old(robotFaceState.mood) &&
        robotFaceState.isTracking == old(robotFaceState.isTracking) &&
        robotFaceState.leftEyePosition == old(robotFaceState.leftEyePosition) &&
        robotFaceState.rightEyePosition == old(robotFaceState.rightEyePosition)
      ensures robotFaceState.isBlinking == old(robotFaceState.isBlinking)
      ensures robotFaceState.isManualMoodMode == old(robotFaceState.isManualMoodMode)
    {
      trackedPersons := persons;
      if dockAccessoryFeatures.trackingMode == RobotFace {
        UpdateRobotEyePositions(persons);
      }
    }
  }
}
