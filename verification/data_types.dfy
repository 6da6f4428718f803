/**
 * The plain value types shared by the robot-face app: camera orientation,
 * battery status, tracking and framing modes, the robot's moods, the
 * manual-control chevrons and the records the app starts from.
 */
module DataTypes {
  import opened Geometry

  // ---------------------------------------------------------------------
  // Camera orientation
  // ---------------------------------------------------------------------

  datatype CameraOrientation = Portrait | PortraitUpsideDown | LandscapeLeft | LandscapeRight | Unknown

  /**
   * Decodes the capture connection's video rotation angle (degrees). The
   * front and the back camera agree on the two portrait angles and swap the
   * two landscape ones; every other angle is unknown.
   */
  function OrientationFromAngle(videoRotationAngle: real, front: bool): (o: CameraOrientation)
    ensures o != Unknown <==> videoRotationAngle in {0.0, 90.0, 180.0, 270.0}
    ensures videoRotationAngle == 90.0 ==> o == Portrait
    ensures videoRotationAngle == 270.0 ==> o == PortraitUpsideDown
    ensures videoRotationAngle == 0.0 ==> o == (if front then LandscapeLeft else LandscapeRight)
    ensures videoRotationAngle == 180.0 ==> o == (if front then LandscapeRight else LandscapeLeft)
  {
    if front then
      if videoRotationAngle == 0.0 then LandscapeLeft
      else if videoRotationAngle == 90.0 then Portrait
      else if videoRotationAngle == 180.0 then LandscapeRight
      else if videoRotationAngle == 270.0 then PortraitUpsideDown
      else Unknown
    else
      if videoRotationAngle == 0.0 then LandscapeRight
      else if videoRotationAngle == 90.0 then Portrait
      else if videoRotationAngle == 180.0 then LandscapeLeft
      else if videoRotationAngle == 270.0 then PortraitUpsideDown
      else Unknown
  }

  /** Exchanges the two landscape orientations and keeps the others. */
  function SwapLandscape(o: CameraOrientation): CameraOrientation {
    match o
    case LandscapeLeft => LandscapeRight
    case LandscapeRight => LandscapeLeft
    case _ => o
  }

  /** The back camera reads every angle as the front camera does, with the landscapes exchanged. */
  lemma BackCameraMirrorsFront(angle: real)
    ensures OrientationFromAngle(angle, false) == SwapLandscape(OrientationFromAngle(angle, true))
  {
  }

  // ---------------------------------------------------------------------
  // Battery
  // ---------------------------------------------------------------------

  datatype DockAccessoryBatteryStatus =
    | Unavailable
    | Available(percentage: real, charging: bool)

  /** The reported percentage, or 0.0 when no battery status is available. */
  function Percentage(b: DockAccessoryBatteryStatus): (p: real)
    ensures b.Available? ==> p == b.percentage
    ensures b.Unavailable? ==> p == 0.0
  {
    if b.Available? then b.percentage else 0.0
  }

  /** Whether the accessory reports charging; false when no status is available. */
  function Charging(b: DockAccessoryBatteryStatus): (c: bool)
    ensures c <==> b.Available? && b.charging
  {
    if b.Available? then b.charging else false
  }

  // ---------------------------------------------------------------------
  // Modes and chevrons
  // ---------------------------------------------------------------------

  datatype FramingMode = Auto | Center | Left | Right

  /**
   * The accessory's tracking mode. `RobotFace` is used by the dock controller
   * model as a fourth mode; it is part of this enumeration here so that the
   * controller's branches on it can be stated.
   */
  datatype TrackingMode = System | Custom | Manual | RobotFace

  datatype ChevronType = Up | Down | Left | Right | TiltUp | TiltDown | PanLeft | PanRight

  // ---------------------------------------------------------------------
  // Moods
  // ---------------------------------------------------------------------

  datatype RobotMood =
    | Normal | Happy | Sad | Excited | Sleepy
    | Anger | Disgust | Fear | Surprise | Trust | Anticipation | Joy | Sadness
    | Curiosity | Acceptance | Contempt | Pride | Shame | Love | Guilt | Envy

  /** The moods in declaration order (`RobotMood.allCases`). */
  const AllMoods: seq<RobotMood> := [
    Normal, Happy, Sad, Excited, Sleepy,
    Anger, Disgust, Fear, Surprise, Trust, Anticipation, Joy, Sadness,
    Curiosity, Acceptance, Contempt, Pride, Shame, Love, Guilt, Envy
  ]

  /** The string raw value of each mood: its own case name. */
  function MoodRawValue(m: RobotMood): (s: string)
    ensures |s| > 0
  {
    match m
    case Normal => "normal"
    case Happy => "happy"
    case Sad => "sad"
    case Excited => "excited"
    case Sleepy => "sleepy"
    case Anger => "anger"
    case Disgust => "disgust"
    case Fear => "fear"
    case Surprise => "surprise"
    case Trust => "trust"
    case Anticipation => "anticipation"
    case Joy => "joy"
    case Sadness => "sadness"
    case Curiosity => "curiosity"
    case Acceptance => "acceptance"
    case Contempt => "contempt"
    case Pride => "pride"
    case Shame => "shame"
    case Love => "love"
    case Guilt => "guilt"
    case Envy => "envy"
  }

  /** `RobotMood(rawValue:)`: the mood whose raw value is `s`, if any. */
  function MoodFromRawValue(s: string): (m: Option<RobotMood>)
    ensures m.Some? ==> MoodRawValue(m.value) == s
  {
    if s == "normal" then Some(Normal)
    else if s == "happy" then Some(Happy)
    else if s == "sad" then Some(Sad)
    else if s == "excited" then Some(Excited)
    else if s == "sleepy" then Some(Sleepy)
    else if s == "anger" then Some(Anger)
    else if s == "disgust" then Some(Disgust)
    else if s == "fear" then Some(Fear)
    else if s == "surprise" then Some(Surprise)
    else if s == "trust" then Some(Trust)
    else if s == "anticipation" then Some(Anticipation)
    else if s == "joy" then Some(Joy)
    else if s == "sadness" then Some(Sadness)
    else if s == "curiosity" then Some(Curiosity)
    else if s == "acceptance" then Some(Acceptance)
    else if s == "contempt" then Some(Contempt)
    else if s == "pride" then Some(Pride)
    else if s == "shame" then Some(Shame)
    else if s == "love" then Some(Love)
    else if s == "guilt" then Some(Guilt)
    else if s == "envy" then Some(Envy)
    else None
  }

  datatype Option<T> = None | Some(value: T)

  /** Raw values round-trip, so no two moods share one. */
  lemma MoodRawValueRoundTrip(m: RobotMood)
    ensures MoodFromRawValue(MoodRawValue(m)) == Some(m)
  {
    match m
    case Normal =>
    case Happy =>
    case Sad =>
    case Excited =>
    case Sleepy =>
    case Anger =>
    case Disgust =>
    case Fear =>
    case Surprise =>
    case Trust =>
    case Anticipation =>
    case Joy =>
    case Sadness =>
    case Curiosity =>
    case Acceptance =>
    case Contempt =>
    case Pride =>
    case Shame =>
    case Love =>
    case Guilt =>
    case Envy =>
  }

  /** Distinct moods have distinct raw values. */
  lemma MoodRawValueInjective(a: RobotMood, b: RobotMood)
    ensures MoodRawValue(a) == MoodRawValue(b) ==> a == b
  {
    MoodRawValueRoundTrip(a);
    MoodRawValueRoundTrip(b);
  }

  /** There are 21 moods, listed once each. */
  lemma AllMoodsComplete(m: RobotMood)
    ensures m in AllMoods && |AllMoods| == 21
  {
  }

  /** The Chinese display name shown under the face. */
  function DisplayName(m: RobotMood): (s: string)
    ensures 1 <= |s| <= 2
  {
    match m
    case Normal => "正常"
    case Happy => "开心"
    case Sad => "伤心"
    case Excited => "兴奋"
    case Sleepy => "困倦"
    case Anger => "愤怒"
    case Disgust => "嫌恶"
    case Fear => "恐惧"
    case Surprise => "惊喜"
    case Trust => "信任"
    case Anticipation => "期待"
    case Joy => "欢愉"
    case Sadness => "悲伤"
    case Curiosity => "好奇"
    case Acceptance => "接纳"
    case Contempt => "蔑视"
    case Pride => "骄傲"
    case Shame => "羞耻"
    case Love => "爱"
    case Guilt => "内疚"
    case Envy => "嫉妒"
  }

  /** No two moods share a display name. */
  lemma DisplayNameInjective(a: RobotMood, b: RobotMood)
    ensures DisplayName(a) == DisplayName(b) ==> a == b
  {
  }

  datatype MoodColor =
    | White | Yellow | Blue | Orange | Purple | Red | Green | Gray | Cyan | Mint
    | Pink | Indigo | Teal | Brown

  /** The tint associated with each mood. */
  function MoodTint(m: RobotMood): (c: MoodColor)
    ensures c == White <==> m == Normal
    ensures c == Yellow <==> m in {Happy, Joy}
  {
    match m
    case Normal => White
    case Happy => Yellow
    case Sad => Blue
    case Excited => Orange
    case Sleepy => Purple
    case Anger => Red
    case Disgust => Green
    case Fear => Gray
    case Surprise => Cyan
    case Trust => Mint
    case Anticipation => Pink
    case Joy => Yellow
    case Sadness => Indigo
    case Curiosity => Teal
    case Acceptance => Green
    case Contempt => Brown
    case Pride => Orange
    case Shame => Gray
    case Love => Pink
    case Guilt => Purple
    case Envy => Green
  }

  // ---------------------------------------------------------------------
  // Records
  // ---------------------------------------------------------------------

  /** A person the accessory tracks, with optional speaking/looking confidences. */
  datatype DockAccessoryTrackedPerson = DockAccessoryTrackedPerson(
    saliency: int, rect: Rect, speaking: Option<real>, looking: Option<real>)

  /** The accessory features a person can switch on from the user interface. */
  datatype DockAccessoryFeatures = DockAccessoryFeatures(
    isSetROIEnabled: bool,
    isTapToTrackEnabled: bool,
    isTrackingSummaryEnabled: bool,
    trackingMode: TrackingMode,
    framingMode: FramingMode)

  /** The features the app starts with: every flag off, system tracking, automatic framing. */
  function DefaultFeatures(): (f: DockAccessoryFeatures)
    ensures !f.isSetROIEnabled && !f.isTapToTrackEnabled && !f.isTrackingSummaryEnabled
    ensures f.trackingMode == System && f.framingMode == Auto
  {
    DockAccessoryFeatures(false, false, false, System, Auto)
  }

  /** The eye position of a face at rest: the centre of the eye area. */
  const EyeCentre: Point := Point(0.5, 0.5)

  /** The robot face's eyes, mood and tracking flags, updated in place. */
  class RobotFaceState {
    var leftEyePosition: Point
    var rightEyePosition: Point
    var isBlinking: bool
    var mood: RobotMood
    var isTracking: bool
    var isManualMoodMode: bool

    constructor ()
      ensures leftEyePosition == Point(0.5, 0.5) && rightEyePosition == Point(0.5, 0.5)
      ensures mood == Normal && !isTracking && !isManualMoodMode && !isBlinking
    {
      leftEyePosition := EyeCentre;
      rightEyePosition := EyeCentre;
      isBlinking := false;
      mood := Normal;
      isTracking := false;
      isManualMoodMode := false;
    }
  }
}
