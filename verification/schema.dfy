/**
 * The configuration records of the hot-reload service: broker (MQTT)
 * settings, and per camera its capture source, zones, detection thresholds
 * and retention policy. The range constraints that the schema library
 * enforces on these records are the predicate `ValidRoot`; `Errors` lists
 * every field that breaks one.
 */
module Schema {
  import opened Wrappers

  datatype MqttConfig = MqttConfig(
    host: string,
    port: int,
    user: Option<string>,
    password: Option<string>,
    topicPrefix: string)

  /** A named polygon; each point is a list of integers (`[x, y]`), unconstrained. */
  datatype Zone = Zone(name: string, points: seq<seq<int>>)

  datatype DetectionParams = DetectionParams(scoreThreshold: real, iouThreshold: real)

  datatype RetentionPolicy = RetentionPolicy(
    mode: string,
    detectionDays: int,
    recordingDays: int,
    preCaptureSec: int,
    postCaptureSec: int)

  datatype FFmpegInput = FFmpegInput(
    url: string,
    hwaccel: Option<string>,
    width: Option<int>,
    height: Option<int>,
    fps: Option<int>)

  datatype CameraConfig = CameraConfig(
    name: string,
    enabled: bool,
    ffmpeg: FFmpegInput,
    zones: seq<Zone>,
    detection: DetectionParams,
    retention: RetentionPolicy)

  datatype RootConfig = RootConfig(mqtt: MqttConfig, cameras: map<string, CameraConfig>)

  // ---------------------------------------------------------------------------
  // Range constraints
  // ---------------------------------------------------------------------------

  const MinPort := 1
  const MaxPort := 65535
  const MaxCaptureSec := 15

  predicate ValidMqtt(m: MqttConfig) {
    MinPort <= m.port <= MaxPort
  }

  predicate IsThreshold(x: real) {
    0.0 <= x <= 1.0
  }

  predicate ValidDetection(d: DetectionParams) {
    IsThreshold(d.scoreThreshold) && IsThreshold(d.iouThreshold)
  }

  predicate IsCaptureSec(n: int) {
    0 <= n <= MaxCaptureSec
  }

  predicate ValidRetention(r: RetentionPolicy) {
    && (r.mode == "motion" || r.mode == "all")
    && r.detectionDays > 0
    && r.recordingDays > 0
    && IsCaptureSec(r.preCaptureSec)
    && IsCaptureSec(r.postCaptureSec)
  }

  predicate ValidCamera(c: CameraConfig) {
    ValidDetection(c.detection) && ValidRetention(c.retention)
  }

  predicate ValidRoot(cfg: RootConfig) {
    ValidMqtt(cfg.mqtt) && forall k :: k in cfg.cameras ==> ValidCamera(cfg.cameras[k])
  }

  // ---------------------------------------------------------------------------
  // All violations, each reported by the path of the offending field
  // ---------------------------------------------------------------------------

  type FieldPath = seq<string>

  function Under(field: string, paths: set<FieldPath>): set<FieldPath> {
    set p | p in paths :: [field] + p
  }

  function MqttErrors(m: MqttConfig): set<FieldPath> {
    if MinPort <= m.port <= MaxPort then {} else {["port"]}
  }

  function DetectionErrors(d: DetectionParams): set<FieldPath> {
    (if IsThreshold(d.scoreThreshold) then {} else {["score_threshold"]})
    + (if IsThreshold(d.iouThreshold) then {} else {["iou_threshold"]})
  }

  function RetentionErrors(r: RetentionPolicy): set<FieldPath> {
    (if r.mode == "motion" || r.mode == "all" then {} else {["mode"]})
    + (if r.detectionDays > 0 then {} else {["detection_days"]})
    + (if r.recordingDays > 0 then {} else {["recording_days"]})
    + (if IsCaptureSec(r.preCaptureSec) then {} else {["pre_capture_sec"]})
    + (if IsCaptureSec(r.postCaptureSec) then {} else {["post_capture_sec"]})
  }

  function CameraErrors(c: CameraConfig): set<FieldPath> {
    Under("detection", DetectionErrors(c.detection)) + Under("retention", RetentionErrors(c.retention))
  }

  function Errors(cfg: RootConfig): set<FieldPath> {
    Under("mqtt", MqttErrors(cfg.mqtt))
    + set k, p | k in cfg.cameras && p in CameraErrors(cfg.cameras[k]) :: ["cameras", k] + p
  }

  lemma CameraErrorsEmpty(c: CameraConfig)
    ensures CameraErrors(c) == {} <==> ValidCamera(c)
  {
    if !ValidDetection(c.detection) {
      var p :| p in DetectionErrors(c.detection);
      assert ["detection"] + p in CameraErrors(c);
    } else if !ValidRetention(c.retention) {
      var p :| p in RetentionErrors(c.retention);
      assert ["retention"] + p in CameraErrors(c);
    }
  }

  /** A configuration has no reported violation exactly when it is valid. */
  lemma ErrorsEmptyIffValid(cfg: RootConfig)
    ensures Errors(cfg) == {} <==> ValidRoot(cfg)
  {
    if !ValidMqtt(cfg.mqtt) {
      assert ["port"] in MqttErrors(cfg.mqtt);
      assert ["mqtt"] + ["port"] in Under("mqtt", MqttErrors(cfg.mqtt));
    } else if !ValidRoot(cfg) {
      var k :| k in cfg.cameras && !ValidCamera(cfg.cameras[k]);
      CameraErrorsEmpty(cfg.cameras[k]);
      var p :| p in CameraErrors(cfg.cameras[k]);
      assert ["cameras", k] + p in Errors(cfg);
    } else {
      forall k | k in cfg.cameras
        ensures CameraErrors(cfg.cameras[k]) == {}
      {
        CameraErrorsEmpty(cfg.cameras[k]);
      }
    }
  }

  /** The outcome of `ConfigManager.validate`: accepted, or every violation. */
  datatype Verdict = Accepted | Rejected(errors: set<FieldPath>)

  function Validate(cfg: RootConfig): (v: Verdict)
    ensures v.Accepted? <==> ValidRoot(cfg)
    ensures v.Rejected? ==> v.errors != {} && v.errors == Errors(cfg)
  {
    ErrorsEmptyIffValid(cfg);
    var errs := Errors(cfg);
    if errs == {} then Accepted else Rejected(errs)
  }

  // ---------------------------------------------------------------------------
  // Defaults
  // ---------------------------------------------------------------------------

  function DefaultMqtt(): MqttConfig {
    MqttConfig("mqtt", 1883, None, None, "frigate")
  }

  function DefaultDetection(): DetectionParams {
    DetectionParams(0.6, 0.45)
  }

  function DefaultRetention(): RetentionPolicy {
    RetentionPolicy("motion", 5, 2, 3, 3)
  }

  function DefaultRoot(): RootConfig {
    RootConfig(DefaultMqtt(), map[])
  }

  /** A camera built from only its required fields, `name` and `ffmpeg`. */
  function DefaultCamera(name: string, ffmpeg: FFmpegInput): CameraConfig {
    CameraConfig(name, true, ffmpeg, [], DefaultDetection(), DefaultRetention())
  }

  lemma DefaultRootIsValid()
    ensures DefaultRoot().mqtt.host == "mqtt"
    ensures DefaultRoot().mqtt.port == 1883
    ensures DefaultRoot().mqtt.topicPrefix == "frigate"
    ensures DefaultRoot().cameras == map[]
    ensures ValidRoot(DefaultRoot())
    ensures Validate(DefaultRoot()) == Accepted
  {
  }

  lemma DefaultCameraIsValid(name: string, ffmpeg: FFmpegInput)
    ensures DefaultCamera(name, ffmpeg).enabled
    ensures DefaultCamera(name, ffmpeg).zones == []
    ensures ValidCamera(DefaultCamera(name, ffmpeg))
  {
  }
}
