/**
 * The render loop: the detector options chosen for the selected family, one
 * tick of `renderPrediction` (the GUI update check, then the result
 * rendering) over the seven dirty flags, the detector slot and a log of the
 * effects the tick asks of the platform, and the socket's ping/pong rule.
 * Library outcomes (a created detector, an estimate, the socket being open)
 * are inputs of a tick; the tick itself runs without interleaving.
 */
module RenderLoop {
  import opened Wrappers
  import opened Params
  import opened OptionPanel

  /** A handle on a loaded pose detector. */
  type DetectorId = nat
  /** One detected pose; what it holds is library data. */
  type Pose = nat

  // ---- detector options ----

  datatype MoveNetModelType = SinglePoseLightning | SinglePoseThunder | MultiPoseLightning

  /** The MoveNet model type for a variant name; none (left undefined) for any other name. */
  function ModelTypeOf(variant: string): Option<MoveNetModelType> {
    if variant == "lightning" then Some(SinglePoseLightning)
    else if variant == "thunder" then Some(SinglePoseThunder)
    else if variant == "multipose" then Some(MultiPoseLightning)
    else None
  }

  /** The variant name a model type is selected by. */
  function VariantName(t: MoveNetModelType): string {
    match t
    case SinglePoseLightning => "lightning"
    case SinglePoseThunder => "thunder"
    case MultiPoseLightning => "multipose"
  }

  /** The variants the panel offers are exactly the names with a model type, one type each. */
  lemma ModelTypeRoundTrip(variant: string, t: MoveNetModelType)
    ensures ModelTypeOf(VariantName(t)) == Some(t)
    ensures ModelTypeOf(variant) == Some(t) ==> VariantName(t) == variant
    ensures ModelTypeOf(variant).Some? <==> variant in MOVENET_TYPES
  {
  }

  /** The option record passed to the library; an absent MoveNet field is a key left unset. */
  datatype DetectorOptions =
    | PoseNetOptions(
        quantBytes: int, architecture: string, outputStride: int,
        inputWidth: int, inputHeight: int, multiplier: int)
    | MoveNetOptions(
        modelType: Option<MoveNetModelType>, modelUrl: Option<string>, enableTracking: Option<bool>)

  /** The fixed PoseNet record; the multiplier 0.75 is in hundredths. */
  const POSENET_OPTIONS := PoseNetOptions(4, "MobileNetV1", 16, 500, 500, 75)

  /**
   * `createDetector`'s option selection; none when no family is selected, as
   * the switch then matches no case and nothing is created.
   */
  function CreateDetectorOptions(model: Option<ModelName>, config: ModelConfig): (r: Option<DetectorOptions>)
    requires ConfigBelongs(model, config)
    ensures r.None? <==> model.None?
    ensures model == Some(PoseNet) ==> r == Some(POSENET_OPTIONS)
    ensures model == Some(MoveNet) ==> r.Some? && r.value.MoveNetOptions?
    ensures model == Some(MoveNet) ==>
      r.value.modelType == ModelTypeOf(config.variant) &&
      (r.value.modelUrl.Some? <==> config.customModel != "") &&
      (r.value.modelUrl.Some? ==> r.value.modelUrl.value == config.customModel) &&
      (r.value.enableTracking.Some? <==> config.variant == "multipose") &&
      (r.value.enableTracking.Some? ==> r.value.enableTracking.value == config.enableTracking)
  {
    match model
    case None => None
    case Some(PoseNet) => Some(POSENET_OPTIONS)
    case Some(MoveNet) =>
      Some(MoveNetOptions(
        ModelTypeOf(config.variant),
        if config.customModel != "" then Some(config.customModel) else None,
        if config.variant == "multipose" then Some(config.enableTracking) else None))
  }

  /** The tuning record the panel builds is turned into the options the library expects. */
  lemma PanelConfigOptions(variant: Option<string>)
    ensures var c := MoveNetConfigFor(variant);
      var o := CreateDetectorOptions(Some(MoveNet), c).value;
      o.modelUrl == None &&
      (o.modelType.Some? <==> c.variant in MOVENET_TYPES) &&
      (c.variant == "multipose" ==> o.modelType == Some(MultiPoseLightning) && o.enableTracking == Some(true)) &&
      (c.variant != "multipose" ==> o.enableTracking == None)
  {
    var c := MoveNetConfigFor(variant);
    ModelTypeRoundTrip(c.variant, MultiPoseLightning);
  }

  // ---- one tick ----

  /** What a tick asks of the platform and the libraries, in order. */
  datatype Effect =
    | SetupCamera
    | CloseSocket
    | OpenSocket(url: string)
    | CancelFrame
    | Dispose(id: DetectorId)
    | ApplyBackendFlags(flags: map<Flag, FlagValue>, backend: Option<Backend>)
    | Create(options: DetectorOptions)
    | Alert
    | Estimate(id: DetectorId, maxPoses: Option<int>)
    | DrawFrame
    | Send(poses: seq<Pose>)
    | DrawResults(poses: seq<Pose>)
    | ScheduleFrame
    | SendText(text: string)

  /** What `estimatePoses` resolved to: the poses, or a thrown error. */
  datatype Estimate = Poses(poses: seq<Pose>) | EstimateFailed

  /**
   * The platform's and the libraries' answers during a tick: the detector
   * `createDetector` resolves to (none when it throws), the estimate,
   * whether the socket is open, whether setting up the camera rejects, and
   * whether constructing the socket throws (a malformed address).
   */
  datatype World = World(
    created: Option<DetectorId>, estimate: Estimate, socketOpen: bool,
    cameraThrows: bool, socketThrows: bool)

  /** The parts of `STATE` a tick reads and does not change. */
  datatype Settings = Settings(
    wsURL: string, model: Option<ModelName>, modelConfig: ModelConfig,
    flags: map<Flag, FlagValue>, backend: Option<Backend>, displayCanvas: bool)

  /** The parts a tick changes: the dirty flags, the detector slot and the effect log. */
  datatype TickState = TickState(dirty: Dirty, detector: Option<DetectorId>, log: seq<Effect>)

  predicate CameraChanged(d: Dirty) {
    d.targetFPS || d.sizeOption || d.input
  }

  predicate DetectorChanged(d: Dirty) {
    d.model || d.flag || d.backend
  }

  /** `STATE.modelConfig.maxPoses`; undefined before a record is built. */
  function MaxPosesOf(config: ModelConfig): Option<int> {
    if config.Unset? then None else Some(config.maxPoses)
  }

  /** The effects a tick added to the log. */
  function Added(before: TickState, after: TickState): seq<Effect>
    requires |before.log| <= |after.log|
  {
    after.log[|before.log|..]
  }

  /** The log only grows. */
  predicate Extends(before: TickState, after: TickState) {
    |before.log| <= |after.log| && after.log[..|before.log|] == before.log
  }

  /** A camera setting changed: the camera is set up again. */
  function CameraEffects(d: Dirty): seq<Effect> {
    if CameraChanged(d) then [SetupCamera] else []
  }

  /** The socket address changed: the socket is closed and one to the new address opened. */
  function SocketEffects(d: Dirty, url: string): seq<Effect> {
    if d.connectWebSocket then [CloseSocket, OpenSocket(url)] else []
  }

  /**
   * The model, a flag or the backend changed: the frame loop is stopped, the
   * old detector disposed of, the flags reapplied when they or the backend
   * changed, and a detector created for the selected family (an alert when
   * creating throws).
   */
  function DetectorEffects(detector: Option<DetectorId>, d: Dirty, s: Settings, created: Option<DetectorId>): seq<Effect>
    requires ConfigBelongs(s.model, s.modelConfig)
  {
    if !DetectorChanged(d) then []
    else
      [CancelFrame]
      + (if detector.Some? then [Dispose(detector.value)] else [])
      + (if d.flag || d.backend then [ApplyBackendFlags(s.flags, s.backend)] else [])
      + CreationEffects(s, created)
  }

  /** Creating the detector for the selected family, with an alert when it throws; nothing when no family is selected. */
  function CreationEffects(s: Settings, created: Option<DetectorId>): seq<Effect>
    requires ConfigBelongs(s.model, s.modelConfig)
  {
    var options := CreateDetectorOptions(s.model, s.modelConfig);
    if options.None? then []
    else if created.Some? then [Create(options.value)]
    else [Create(options.value), Alert]
  }

  /** The detector slot after the check: replaced on a change (none when no family is selected or creating threw). */
  function DetectorAfter(detector: Option<DetectorId>, d: Dirty, s: Settings, created: Option<DetectorId>): Option<DetectorId> {
    if !DetectorChanged(d) then detector
    else if s.model.None? then None
    else created
  }

  /** The detector's effects and slot read only the model, flag and backend flags. */
  lemma DetectorReadsItsFlags(detector: Option<DetectorId>, d: Dirty, e: Dirty, s: Settings, created: Option<DetectorId>)
    requires ConfigBelongs(s.model, s.modelConfig)
    requires d.model == e.model && d.flag == e.flag && d.backend == e.backend
    ensures DetectorEffects(detector, d, s, created) == DetectorEffects(detector, e, s, created)
    ensures DetectorAfter(detector, d, s, created) == DetectorAfter(detector, e, s, created)
  {
  }

  function CameraStep(t: TickState): TickState {
    TickState(t.dirty.(targetFPS := false, sizeOption := false, input := false), t.detector, t.log + CameraEffects(t.dirty))
  }

  function SocketStep(t: TickState, url: string): TickState {
    TickState(t.dirty.(connectWebSocket := false), t.detector, t.log + SocketEffects(t.dirty, url))
  }

  function DetectorStep(t: TickState, s: Settings, created: Option<DetectorId>): TickState
    requires ConfigBelongs(s.model, s.modelConfig)
  {
    TickState(t.dirty.(model := false, flag := false, backend := false),
      DetectorAfter(t.detector, t.dirty, s, created),
      t.log + DetectorEffects(t.detector, t.dirty, s, created))
  }

  /** `checkGuiUpdate`: the camera, the socket and the detector, in that order. */
  function CheckGuiUpdateSpec(t: TickState, s: Settings, created: Option<DetectorId>): TickState
    requires ConfigBelongs(s.model, s.modelConfig)
  {
    DetectorStep(SocketStep(CameraStep(t), s.wsURL), s, created)
  }

  /** The effects of asking the detector for poses; a failure disposes of it and alerts. */
  function InferenceEffects(detector: Option<DetectorId>, estimate: Estimate, maxPoses: Option<int>): seq<Effect> {
    match detector
    case None => []
    case Some(id) => [Estimate(id, maxPoses)] + (if estimate.EstimateFailed? then [Dispose(id), Alert] else [])
  }

  /** The poses a tick obtained: none without a detector or when estimating failed. */
  function PosesOf(detector: Option<DetectorId>, estimate: Estimate): Option<seq<Pose>> {
    if detector.Some? && estimate.Poses? then Some(estimate.poses) else None
  }

  /** Non-empty poses of the current model are sent when the socket is open and drawn when the canvas shows. */
  function ResultEffects(poses: Option<seq<Pose>>, modelChanged: bool, socketOpen: bool, displayCanvas: bool): seq<Effect> {
    if poses.Some? && |poses.value| > 0 && !modelChanged
    then (if socketOpen then [Send(poses.value)] else []) + (if displayCanvas then [DrawResults(poses.value)] else [])
    else []
  }

  function FrameEffects(displayCanvas: bool): seq<Effect> {
    if displayCanvas then [DrawFrame] else []
  }

  /** `renderResult`, past the wait for the video. */
  function RenderResultSpec(t: TickState, s: Settings, estimate: Estimate, socketOpen: bool): TickState {
    var poses := PosesOf(t.detector, estimate);
    var detector := if t.detector.Some? && estimate.EstimateFailed? then None else t.detector;
    TickState(t.dirty, detector,
      t.log + InferenceEffects(t.detector, estimate, MaxPosesOf(s.modelConfig))
      + FrameEffects(s.displayCanvas)
      + ResultEffects(poses, t.dirty.model, socketOpen, s.displayCanvas))
  }

  /**
   * The check throws when a camera setting changed and setting the camera up
   * rejects, or when a reconnect is requested and the socket cannot be
   * constructed; neither call is guarded.
   */
  predicate CheckThrows(d: Dirty, w: World) {
    (CameraChanged(d) && w.cameraThrows) || (d.connectWebSocket && w.socketThrows)
  }

  /**
   * Where a throwing check stops: right after the camera request, with every
   * flag still set, or right after closing the old socket, with the camera
   * part done and the reconnect request still raised.
   */
  function ThrownCheck(t: TickState, w: World): TickState
    requires CheckThrows(t.dirty, w)
  {
    if CameraChanged(t.dirty) && w.cameraThrows then t.(log := t.log + [SetupCamera])
    else
      var camera := CameraStep(t);
      camera.(log := camera.log + [CloseSocket])
  }

  /**
   * `renderPrediction`: the check, the rendering unless a model change is
   * pending, the next frame; a throwing check ends the tick, and the loop,
   * before the next frame is requested.
   */
  function RenderPredictionSpec(t: TickState, s: Settings, w: World): TickState
    requires ConfigBelongs(s.model, s.modelConfig)
  {
    if CheckThrows(t.dirty, w) then ThrownCheck(t, w)
    else
    var checked := CheckGuiUpdateSpec(t, s, w.created);
    var rendered := if !checked.dirty.model then RenderResultSpec(checked, s, w.estimate, w.socketOpen) else checked;
    rendered.(log := rendered.log + [ScheduleFrame])
  }

  // ---- what a tick guarantees ----

  lemma AppendedPart<T>(a: seq<T>, b: seq<T>)
    ensures |a + b| == |a| + |b| && (a + b)[..|a|] == a && (a + b)[|a|..] == b
  {
  }

  /** The check adds the camera's, the socket's and the detector's effects, in that order. */
  lemma CheckAdds(t: TickState, s: Settings, created: Option<DetectorId>)
    requires ConfigBelongs(s.model, s.modelConfig)
    ensures var r := CheckGuiUpdateSpec(t, s, created);
      Extends(t, r) &&
      Added(t, r) == CameraEffects(t.dirty) + SocketEffects(t.dirty, s.wsURL) + DetectorEffects(t.detector, t.dirty, s, created) &&
      r.detector == DetectorAfter(t.detector, t.dirty, s, created)
  {
    var x, y, z := CameraEffects(t.dirty), SocketEffects(t.dirty, s.wsURL), DetectorEffects(t.detector, t.dirty, s, created);
    var camera := CameraStep(t);
    assert camera.log == t.log + x && camera.detector == t.detector;
    var socket := SocketStep(camera, s.wsURL);
    assert socket.log == t.log + x + y && socket.detector == t.detector;
    DetectorReadsItsFlags(t.detector, socket.dirty, t.dirty, s, created);
    var r := DetectorStep(socket, s, created);
    assert r.log == t.log + x + y + z;
    AppendAssociates(t.log, x, y);
    AppendAssociates(t.log, x + y, z);
    AppendedPart(t.log, x + y + z);
  }

  /** After the check, all seven dirty flags are clear, and the log has only grown. */
  lemma CheckClearsDirtyFlags(t: TickState, s: Settings, created: Option<DetectorId>)
    requires ConfigBelongs(s.model, s.modelConfig)
    ensures CheckGuiUpdateSpec(t, s, created).dirty == CLEAN
    ensures Extends(t, CheckGuiUpdateSpec(t, s, created))
  {
    CheckAdds(t, s, created);
  }

  /** Replacing the detector asks only for these kinds of effect; nothing else. */
  lemma DetectorEffectKinds(detector: Option<DetectorId>, d: Dirty, s: Settings, created: Option<DetectorId>)
    requires ConfigBelongs(s.model, s.modelConfig)
    ensures forall e :: e in DetectorEffects(detector, d, s, created) ==>
      e.CancelFrame? || e.Dispose? || e.ApplyBackendFlags? || e.Create? || e.Alert?
  {
  }

  /** The flags are reapplied, with the current flags and backend, exactly when a flag or the backend changed. */
  lemma DetectorEffectsReapply(detector: Option<DetectorId>, d: Dirty, s: Settings, created: Option<DetectorId>)
    requires ConfigBelongs(s.model, s.modelConfig)
    ensures var z := DetectorEffects(detector, d, s, created);
      (ApplyBackendFlags(s.flags, s.backend) in z <==> d.flag || d.backend) &&
      (forall e :: e in z && e.ApplyBackendFlags? ==> e == ApplyBackendFlags(s.flags, s.backend))
  {
  }

  /** How often an effect occurs in a log. */
  function Count(log: seq<Effect>, e: Effect): nat {
    if log == [] then 0
    else Count(log[..|log| - 1], e) + (if log[|log| - 1] == e then 1 else 0)
  }

  lemma {:induction false} CountAppend(a: seq<Effect>, b: seq<Effect>, e: Effect)
    ensures Count(a + b, e) == Count(a, e) + Count(b, e)
  {
    if b == [] {
      assert a + b == a;
    } else {
      assert (a + b)[..|a + b| - 1] == a + b[..|b| - 1];
      assert (a + b)[|a + b| - 1] == b[|b| - 1];
      CountAppend(a, b[..|b| - 1], e);
    }
  }

  lemma {:induction false} CountAbsent(log: seq<Effect>, e: Effect)
    ensures e !in log <==> Count(log, e) == 0
  {
    if log != [] {
      var init := log[..|log| - 1];
      assert log == init + [log[|log| - 1]];
      CountAbsent(init, e);
    }
  }

  lemma CountOne(x: Effect, e: Effect)
    ensures Count([x], e) == if x == e then 1 else 0
  {
    assert [x][..0] == [];
  }

  /** An effect that follows a prefix without it and is absent from the rest occurs once. */
  lemma OnceAfterPrefix(prefix: seq<Effect>, e: Effect, rest: seq<Effect>)
    requires e !in prefix && e !in rest
    ensures Count(prefix + [e] + rest, e) == 1
  {
    CountAppend(prefix + [e], rest, e);
    CountAppend(prefix, [e], e);
    CountOne(e, e);
    CountAbsent(prefix, e);
    CountAbsent(rest, e);
  }

  /** A replacement starts by stopping the frame loop and disposing of the old detector, which it disposes of only then. */
  lemma RebuildDisposesFirst(id: DetectorId, d: Dirty, s: Settings, created: Option<DetectorId>)
    requires ConfigBelongs(s.model, s.modelConfig)
    requires DetectorChanged(d)
    ensures var z := DetectorEffects(Some(id), d, s, created);
      |z| >= 2 && z[0] == CancelFrame && z[1] == Dispose(id) && Count(z, Dispose(id)) == 1
  {
    var reapply := if d.flag || d.backend then [ApplyBackendFlags(s.flags, s.backend)] else [];
    var creation := CreationEffects(s, created);
    CreationKinds(s, created);
    var z := DetectorEffects(Some(id), d, s, created);
    assert z == [CancelFrame] + [Dispose(id)] + (reapply + creation);
    OnceAfterPrefix([CancelFrame], Dispose(id), reapply + creation);
  }

  /** Creating asks only for a creation and an alert. */
  lemma CreationKinds(s: Settings, created: Option<DetectorId>)
    requires ConfigBelongs(s.model, s.modelConfig)
    ensures forall e :: e in CreationEffects(s, created) ==> e.Create? || e.Alert?
  {
  }

  /** Disposing at position 1 of the detector's part, after effects that neither dispose nor create, comes before every creation. */
  lemma DisposeBeforeCreate(before: seq<Effect>, z: seq<Effect>, id: DetectorId)
    requires forall e :: e in before ==> !e.Dispose? && !e.Create?
    requires |z| >= 2 && z[0] == CancelFrame && z[1] == Dispose(id) && Count(z, Dispose(id)) == 1
    ensures Count(before + z, Dispose(id)) == 1
    ensures forall j :: 0 <= j < |before + z| && (before + z)[j].Create? ==> Dispose(id) in (before + z)[..j]
  {
    var added := before + z;
    assert Dispose(id) !in before;
    CountAbsent(before, Dispose(id));
    CountAppend(before, z, Dispose(id));
    forall j | 0 <= j < |added| && added[j].Create?
      ensures Dispose(id) in added[..j]
    {
      assert j >= |before| + 2;
      assert added[..j][|before| + 1] == Dispose(id);
    }
  }

  /** The camera is set up exactly once when a camera setting changed, and not otherwise. */
  lemma CheckSetsUpCameraOnce(t: TickState, s: Settings, created: Option<DetectorId>)
    requires ConfigBelongs(s.model, s.modelConfig)
    ensures var r := CheckGuiUpdateSpec(t, s, created);
      Extends(t, r) && Count(Added(t, r), SetupCamera) == if CameraChanged(t.dirty) then 1 else 0
  {
    CheckAdds(t, s, created);
    var x, y, z := CameraEffects(t.dirty), SocketEffects(t.dirty, s.wsURL), DetectorEffects(t.detector, t.dirty, s, created);
    DetectorEffectKinds(t.detector, t.dirty, s, created);
    PartCounts(x, y, z, SetupCamera);
    CountAbsent(y, SetupCamera);
    CountAbsent(z, SetupCamera);
    CountAbsent(x, SetupCamera);
    if CameraChanged(t.dirty) {
      CountOne(SetupCamera, SetupCamera);
    }
  }

  /** The count in three consecutive parts is the sum of the counts. */
  lemma PartCounts(x: seq<Effect>, y: seq<Effect>, z: seq<Effect>, e: Effect)
    ensures Count(x + y + z, e) == Count(x, e) + Count(y, e) + Count(z, e)
  {
    CountAppend(x + y, z, e);
    CountAppend(x, y, e);
  }

  /** A changed address closes the socket and opens one to it, once each; otherwise neither happens. */
  lemma CheckReconnectsSocket(t: TickState, s: Settings, created: Option<DetectorId>)
    requires ConfigBelongs(s.model, s.modelConfig)
    ensures var r := CheckGuiUpdateSpec(t, s, created);
      Extends(t, r) &&
      Count(Added(t, r), CloseSocket) == (if t.dirty.connectWebSocket then 1 else 0) &&
      Count(Added(t, r), OpenSocket(s.wsURL)) == (if t.dirty.connectWebSocket then 1 else 0) &&
      (forall e :: e in Added(t, r) && e.OpenSocket? ==> e.url == s.wsURL)
  {
    CheckAdds(t, s, created);
    var x, y, z := CameraEffects(t.dirty), SocketEffects(t.dirty, s.wsURL), DetectorEffects(t.detector, t.dirty, s, created);
    DetectorEffectKinds(t.detector, t.dirty, s, created);
    SocketPartCounts(x, y, z, t.dirty, s.wsURL);
  }

  /** The socket's part of a check, between the camera's and one that never touches the socket. */
  lemma SocketPartCounts(x: seq<Effect>, y: seq<Effect>, z: seq<Effect>, d: Dirty, url: string)
    requires x == CameraEffects(d) && y == SocketEffects(d, url)
    requires forall e :: e in z ==> e.CancelFrame? || e.Dispose? || e.ApplyBackendFlags? || e.Create? || e.Alert?
    ensures Count(x + y + z, CloseSocket) == (if d.connectWebSocket then 1 else 0)
    ensures Count(x + y + z, OpenSocket(url)) == (if d.connectWebSocket then 1 else 0)
    ensures forall e :: e in x + y + z && e.OpenSocket? ==> e.url == url
  {
    assert CloseSocket !in z && OpenSocket(url) !in z;
    PartCounts(x, y, z, CloseSocket);
    PartCounts(x, y, z, OpenSocket(url));
    CountAbsent(x, CloseSocket);
    CountAbsent(x, OpenSocket(url));
    CountAbsent(z, CloseSocket);
    CountAbsent(z, OpenSocket(url));
    if d.connectWebSocket {
      CountAppend([CloseSocket], [OpenSocket(url)], CloseSocket);
      CountAppend([CloseSocket], [OpenSocket(url)], OpenSocket(url));
      CountOne(CloseSocket, CloseSocket);
      CountOne(CloseSocket, OpenSocket(url));
      CountOne(OpenSocket(url), CloseSocket);
      CountOne(OpenSocket(url), OpenSocket(url));
      assert y == [CloseSocket] + [OpenSocket(url)];
    } else {
      CountAbsent(y, CloseSocket);
      CountAbsent(y, OpenSocket(url));
    }
  }

  /**
   * On a model, flag or backend change the old detector is disposed of, once,
   * before anything is created.
   */
  lemma CheckDisposesBeforeCreating(t: TickState, s: Settings, created: Option<DetectorId>)
    requires ConfigBelongs(s.model, s.modelConfig)
    requires DetectorChanged(t.dirty) && t.detector.Some?
    ensures var r := CheckGuiUpdateSpec(t, s, created);
      var added := Added(t, r);
      Extends(t, r) &&
      Count(added, Dispose(t.detector.value)) == 1 &&
      forall j :: 0 <= j < |added| && added[j].Create? ==> Dispose(t.detector.value) in added[..j]
  {
    CheckAdds(t, s, created);
    var before := CameraEffects(t.dirty) + SocketEffects(t.dirty, s.wsURL);
    RebuildDisposesFirst(t.detector.value, t.dirty, s, created);
    DisposeBeforeCreate(before, DetectorEffects(t.detector, t.dirty, s, created), t.detector.value);
  }

  /** The flags are reapplied, with the current flags and backend, exactly when a flag or the backend changed. */
  lemma CheckReappliesFlags(t: TickState, s: Settings, created: Option<DetectorId>)
    requires ConfigBelongs(s.model, s.modelConfig)
    ensures var r := CheckGuiUpdateSpec(t, s, created);
      var added := Added(t, r);
      Extends(t, r) &&
      (ApplyBackendFlags(s.flags, s.backend) in added <==> t.dirty.flag || t.dirty.backend) &&
      (forall e :: e in added && e.ApplyBackendFlags? ==> e == ApplyBackendFlags(s.flags, s.backend))
  {
    CheckAdds(t, s, created);
    DetectorEffectsReapply(t.detector, t.dirty, s, created);
  }

  /**
   * After a model, flag or backend change the slot holds the created
   * detector, or none when no family is selected or creating threw (with an
   * alert); without such a change the detector is left alone and nothing is
   * disposed of or created.
   */
  lemma CheckDetectorOutcome(t: TickState, s: Settings, created: Option<DetectorId>)
    requires ConfigBelongs(s.model, s.modelConfig)
    ensures var r := CheckGuiUpdateSpec(t, s, created);
      var added := Added(t, r);
      Extends(t, r) &&
      (DetectorChanged(t.dirty) ==> r.detector == if s.model.Some? then created else None) &&
      (DetectorChanged(t.dirty) && s.model.Some? && created.None? ==> Alert in added) &&
      (!DetectorChanged(t.dirty) ==> r.detector == t.detector && forall e :: e in added ==> !e.Dispose? && !e.Create?)
  {
    CheckAdds(t, s, created);
    var z := DetectorEffects(t.detector, t.dirty, s, created);
    if DetectorChanged(t.dirty) && s.model.Some? && created.None? {
      assert z[|z| - 1] == Alert;
    }
  }

  /** The number of sends in a log. */
  function CountSends(log: seq<Effect>): nat {
    if log == [] then 0
    else CountSends(log[..|log| - 1]) + (if log[|log| - 1].Send? then 1 else 0)
  }

  lemma {:induction false} CountSendsAppend(a: seq<Effect>, b: seq<Effect>)
    ensures CountSends(a + b) == CountSends(a) + CountSends(b)
  {
    if b == [] {
      assert a + b == a;
    } else {
      assert (a + b)[..|a + b| - 1] == a + b[..|b| - 1];
      assert (a + b)[|a + b| - 1] == b[|b| - 1];
      CountSendsAppend(a, b[..|b| - 1]);
    }
  }

  lemma {:induction false} NoSends(log: seq<Effect>)
    requires forall e :: e in log ==> !e.Send?
    ensures CountSends(log) == 0
  {
    if log != [] {
      assert forall e :: e in log[..|log| - 1] ==> e in log;
      NoSends(log[..|log| - 1]);
    }
  }

  /** The check itself never sends. */
  lemma CheckNeverSends(t: TickState, s: Settings, created: Option<DetectorId>)
    requires ConfigBelongs(s.model, s.modelConfig)
    ensures var r := CheckGuiUpdateSpec(t, s, created);
      Extends(t, r) && CountSends(Added(t, r)) == 0
  {
    CheckAdds(t, s, created);
    var x, y, z := CameraEffects(t.dirty), SocketEffects(t.dirty, s.wsURL), DetectorEffects(t.detector, t.dirty, s, created);
    DetectorEffectKinds(t.detector, t.dirty, s, created);
    NoSends(z);
    NoSends(x + y);
    CountSendsAppend(x + y, z);
  }

  /** Without a detector nothing is estimated, sent or drawn as a result, and the slot stays empty. */
  lemma NullDetectorIsNeverUsed(t: TickState, s: Settings, estimate: Estimate, socketOpen: bool)
    requires t.detector.None?
    ensures var r := RenderResultSpec(t, s, estimate, socketOpen);
      Extends(t, r) && r.detector.None? && r.dirty == t.dirty &&
      forall e :: e in Added(t, r) ==> !e.Estimate? && !e.Send? && !e.DrawResults?
  {
    var r := RenderResultSpec(t, s, estimate, socketOpen);
    assert r.log == t.log + FrameEffects(s.displayCanvas);
    AppendedPart(t.log, FrameEffects(s.displayCanvas));
  }

  /** One call of the result rendering adds the inference's, the frame's and the result's effects. */
  lemma RenderAdds(t: TickState, s: Settings, estimate: Estimate, socketOpen: bool)
    ensures var r := RenderResultSpec(t, s, estimate, socketOpen);
      Extends(t, r) &&
      Added(t, r) == InferenceEffects(t.detector, estimate, MaxPosesOf(s.modelConfig)) + FrameEffects(s.displayCanvas)
        + ResultEffects(PosesOf(t.detector, estimate), t.dirty.model, socketOpen, s.displayCanvas)
  {
    var x := InferenceEffects(t.detector, estimate, MaxPosesOf(s.modelConfig));
    var y := FrameEffects(s.displayCanvas);
    var z := ResultEffects(PosesOf(t.detector, estimate), t.dirty.model, socketOpen, s.displayCanvas);
    assert t.log + x + y + z == t.log + (x + y + z);
    AppendedPart(t.log, x + y + z);
  }

  /** A failed estimate disposes of the detector, empties the slot and sends nothing. */
  lemma EstimateFailureDisposes(t: TickState, s: Settings, socketOpen: bool)
    requires t.detector.Some?
    ensures var r := RenderResultSpec(t, s, EstimateFailed, socketOpen);
      Extends(t, r) && r.detector.None? &&
      Dispose(t.detector.value) in Added(t, r) && CountSends(Added(t, r)) == 0
  {
    RenderAdds(t, s, EstimateFailed, socketOpen);
    var x := InferenceEffects(t.detector, EstimateFailed, MaxPosesOf(s.modelConfig));
    var y := FrameEffects(s.displayCanvas);
    assert ResultEffects(PosesOf(t.detector, EstimateFailed), t.dirty.model, socketOpen, s.displayCanvas) == [];
    assert x + y + [] == x + y;
    assert (x + y)[1] == Dispose(t.detector.value);
    NoSends(x + y);
  }

  /**
   * Exactly one send, of the estimated poses, when there is a detector, the
   * estimate is non-empty, no model change is pending and the socket is
   * open; no send otherwise (the result is dropped, not queued).
   */
  lemma SendRule(t: TickState, s: Settings, estimate: Estimate, socketOpen: bool)
    ensures var r := RenderResultSpec(t, s, estimate, socketOpen);
      var sends := t.detector.Some? && estimate.Poses? && |estimate.poses| > 0 && !t.dirty.model && socketOpen;
      Extends(t, r) &&
      CountSends(Added(t, r)) == (if sends then 1 else 0) &&
      (sends ==> Send(estimate.poses) in Added(t, r))
  {
    RenderAdds(t, s, estimate, socketOpen);
    var poses := PosesOf(t.detector, estimate);
    var inference := InferenceEffects(t.detector, estimate, MaxPosesOf(s.modelConfig));
    var frame := FrameEffects(s.displayCanvas);
    var result := ResultEffects(poses, t.dirty.model, socketOpen, s.displayCanvas);
    CountSendsAppend(inference + frame, result);
    InferenceNeverSends(t.detector, estimate, MaxPosesOf(s.modelConfig), s.displayCanvas);
    ResultSends(poses, t.dirty.model, socketOpen, s.displayCanvas);
  }

  /** Estimating and drawing the frame send nothing. */
  lemma InferenceNeverSends(detector: Option<DetectorId>, estimate: Estimate, maxPoses: Option<int>, displayCanvas: bool)
    ensures CountSends(InferenceEffects(detector, estimate, maxPoses) + FrameEffects(displayCanvas)) == 0
  {
    NoSends(InferenceEffects(detector, estimate, maxPoses) + FrameEffects(displayCanvas));
  }

  /** The result part sends the poses once exactly when they are non-empty, current and the socket is open. */
  lemma ResultSends(poses: Option<seq<Pose>>, modelChanged: bool, socketOpen: bool, displayCanvas: bool)
    ensures var result := ResultEffects(poses, modelChanged, socketOpen, displayCanvas);
      var sends := poses.Some? && |poses.value| > 0 && !modelChanged && socketOpen;
      CountSends(result) == (if sends then 1 else 0) &&
      (sends ==> Send(poses.value) in result)
  {
    var result := ResultEffects(poses, modelChanged, socketOpen, displayCanvas);
    if poses.Some? && |poses.value| > 0 && !modelChanged {
      var sent := if socketOpen then [Send(poses.value)] else [];
      var drawn := if displayCanvas then [DrawResults(poses.value)] else [];
      assert result == sent + drawn;
      CountSendsAppend(sent, drawn);
      NoSends(drawn);
      if socketOpen {
        assert CountSends(sent) == CountSends([]) + 1;
      } else {
        NoSends(sent);
      }
    } else {
      NoSends(result);
    }
  }

  /**
   * A whole tick that does not throw: the dirty flags end clear, the result is
   * always rendered (the check has just cleared the model flag), and the next
   * frame is scheduled once, last. The next frame is scheduled exactly when
   * the check does not throw.
   */
  lemma TickRendersAndReschedules(t: TickState, s: Settings, w: World)
    requires ConfigBelongs(s.model, s.modelConfig)
    ensures var checked := CheckGuiUpdateSpec(t, s, w.created);
      var rendered := RenderResultSpec(checked, s, w.estimate, w.socketOpen);
      var r := RenderPredictionSpec(t, s, w);
      Extends(t, r) &&
      (ScheduleFrame in Added(t, r) <==> !CheckThrows(t.dirty, w)) &&
      (!CheckThrows(t.dirty, w) ==>
        r.dirty == CLEAN && r.detector == rendered.detector && r.log == rendered.log + [ScheduleFrame])
  {
    if CheckThrows(t.dirty, w) {
      TickStopsOnThrow(t, s, w);
    } else {
      TickCompletes(t, s, w);
    }
  }

  /** The tick of a check that does not throw, ending with the next frame. */
  lemma TickCompletes(t: TickState, s: Settings, w: World)
    requires ConfigBelongs(s.model, s.modelConfig)
    requires !CheckThrows(t.dirty, w)
    ensures var checked := CheckGuiUpdateSpec(t, s, w.created);
      var rendered := RenderResultSpec(checked, s, w.estimate, w.socketOpen);
      var r := RenderPredictionSpec(t, s, w);
      Extends(t, r) && ScheduleFrame in Added(t, r) &&
      r.dirty == CLEAN && r.detector == rendered.detector && r.log == rendered.log + [ScheduleFrame]
  {
    var r := RenderPredictionSpec(t, s, w);
    var checked := CheckGuiUpdateSpec(t, s, w.created);
    CheckClearsDirtyFlags(t, s, w.created);
    RenderAdds(checked, s, w.estimate, w.socketOpen);
    var rendered := RenderResultSpec(checked, s, w.estimate, w.socketOpen);
    assert r.log == rendered.log + [ScheduleFrame];
    LastIsAdded(t, r);
  }

  /** The last entry of a log that grew is among the added effects. */
  lemma LastIsAdded(t: TickState, r: TickState)
    requires Extends(t, r) && |t.log| < |r.log|
    ensures r.log[|r.log| - 1] in Added(t, r)
  {
    assert Added(t, r)[|Added(t, r)| - 1] == r.log[|r.log| - 1];
  }

  /**
   * A throwing check ends the tick without requesting the next frame: the
   * detector is untouched and nothing is sent. A camera rejection leaves all
   * flags as they were. A socket failure leaves the old socket closed, no new
   * one opened, and the reconnect request raised.
   */
  lemma TickStopsOnThrow(t: TickState, s: Settings, w: World)
    requires ConfigBelongs(s.model, s.modelConfig)
    requires CheckThrows(t.dirty, w)
    ensures var r := RenderPredictionSpec(t, s, w);
      Extends(t, r) && ScheduleFrame !in Added(t, r) &&
      r.detector == t.detector && CountSends(Added(t, r)) == 0 &&
      (CameraChanged(t.dirty) && w.cameraThrows ==> r.dirty == t.dirty && Added(t, r) == [SetupCamera]) &&
      (!(CameraChanged(t.dirty) && w.cameraThrows) ==>
        r.dirty == t.dirty.(targetFPS := false, sizeOption := false, input := false) &&
        r.dirty.connectWebSocket &&
        Added(t, r) == CameraEffects(t.dirty) + [CloseSocket])
  {
    var r := RenderPredictionSpec(t, s, w);
    if CameraChanged(t.dirty) && w.cameraThrows {
      AppendedPart(t.log, [SetupCamera]);
      NoSends([SetupCamera]);
    } else {
      assert r.log == t.log + (CameraEffects(t.dirty) + [CloseSocket]);
      AppendedPart(t.log, CameraEffects(t.dirty) + [CloseSocket]);
      NoSends(CameraEffects(t.dirty) + [CloseSocket]);
    }
  }

  /** A whole tick sends what its rendering sends, so at most once; a throwing tick sends nothing. */
  lemma TickSendsAtMostOnce(t: TickState, s: Settings, w: World)
    requires ConfigBelongs(s.model, s.modelConfig)
    ensures var checked := CheckGuiUpdateSpec(t, s, w.created);
      var rendered := RenderResultSpec(checked, s, w.estimate, w.socketOpen);
      var r := RenderPredictionSpec(t, s, w);
      Extends(t, r) && Extends(checked, rendered) &&
      (!CheckThrows(t.dirty, w) ==> CountSends(Added(t, r)) == CountSends(Added(checked, rendered))) &&
      (CheckThrows(t.dirty, w) ==> CountSends(Added(t, r)) == 0) &&
      CountSends(Added(t, r)) <= 1
  {
    var checked := CheckGuiUpdateSpec(t, s, w.created);
    RenderAdds(checked, s, w.estimate, w.socketOpen);
    if CheckThrows(t.dirty, w) {
      TickStopsOnThrow(t, s, w);
    } else {
      CompletedTickSends(t, s, w);
    }
  }

  /** The sends of a tick that does not throw are its rendering's sends. */
  lemma CompletedTickSends(t: TickState, s: Settings, w: World)
    requires ConfigBelongs(s.model, s.modelConfig)
    requires !CheckThrows(t.dirty, w)
    ensures var checked := CheckGuiUpdateSpec(t, s, w.created);
      var rendered := RenderResultSpec(checked, s, w.estimate, w.socketOpen);
      var r := RenderPredictionSpec(t, s, w);
      Extends(t, r) && Extends(checked, rendered) &&
      CountSends(Added(t, r)) == CountSends(Added(checked, rendered)) &&
      CountSends(Added(t, r)) <= 1
  {
    var checked := CheckGuiUpdateSpec(t, s, w.created);
    var rendered := RenderResultSpec(checked, s, w.estimate, w.socketOpen);
    TickCompletes(t, s, w);
    RenderAdds(checked, s, w.estimate, w.socketOpen);
    SendRule(checked, s, w.estimate, w.socketOpen);
    CheckNeverSends(t, s, w.created);
    SendsOfStages(t, checked, rendered, RenderPredictionSpec(t, s, w));
  }

  /** Sends over a check that sends nothing, a rendering, and one scheduled frame. */
  lemma SendsOfStages(t: TickState, checked: TickState, rendered: TickState, r: TickState)
    requires Extends(t, checked) && Extends(checked, rendered)
    requires r.log == rendered.log + [ScheduleFrame]
    requires CountSends(Added(t, checked)) == 0
    ensures Extends(t, r)
    ensures CountSends(Added(t, r)) == CountSends(Added(checked, rendered))
  {
    assert checked.log == t.log + Added(t, checked);
    assert rendered.log == checked.log + Added(checked, rendered);
    assert r.log == t.log + Added(t, checked) + Added(checked, rendered) + [ScheduleFrame];
    TickSendsSplit(t.log, Added(t, checked), Added(checked, rendered));
  }

  /** The sends of a log grown by the check's part, the rendering's part and one scheduled frame. */
  lemma TickSendsSplit(log: seq<Effect>, fromCheck: seq<Effect>, fromRender: seq<Effect>)
    ensures var all := log + fromCheck + fromRender + [ScheduleFrame];
      |log| <= |all| && CountSends(all[|log|..]) == CountSends(fromCheck) + CountSends(fromRender)
  {
    var all := log + fromCheck + fromRender + [ScheduleFrame];
    assert all == log + (fromCheck + fromRender + [ScheduleFrame]);
    AppendedPart(log, fromCheck + fromRender + [ScheduleFrame]);
    CountSendsAppend(fromCheck + fromRender, [ScheduleFrame]);
    CountSendsAppend(fromCheck, fromRender);
    assert CountSends([ScheduleFrame]) == CountSends([]) + 0;
  }

  // ---- the socket ----

  /** The reply to an incoming message: one `pong` to a `ping`, nothing to anything else. */
  function PingReply(data: Option<string>): (r: Option<string>)
    ensures r.Some? <==> data == Some("ping")
    ensures r.Some? ==> r.value == "pong"
  {
    if data.Some? && data.value != "" && data.value == "ping" then Some("pong") else None
  }

  // ---- the module state of the page ----

  /** The page's module state: the shared `STATE`, the detector slot and the effect log. */
  class App {
    const state: State
    var detector: Option<DetectorId>
    var log: seq<Effect>

    constructor (state: State, detector: Option<DetectorId>)
      ensures this.state == state && this.detector == detector && log == []
    {
      this.state := state;
      this.detector := detector;
      log := [];
    }

    function CurrentSettings(): Settings
      reads state`wsURL, state`model, state`modelConfig, state`flags, state`backend, state`displayCanvas
    {
      Settings(state.wsURL, state.model, state.modelConfig, state.flags, state.backend, state.displayCanvas)
    }

    function Snapshot(): TickState
      reads this, state`dirty
    {
      TickState(state.dirty, detector, log)
    }

    /**
     * `checkGuiUpdate`; `w.created` is what `createDetector` resolves to.
     * Returns whether the check ran to its end rather than throwing.
     */
    method CheckGuiUpdate(w: World) returns (completed: bool)
      requires state.Valid()
      modifies this`detector, this`log, state`dirty
      ensures completed <==> !CheckThrows(old(state.dirty), w)
      ensures completed ==> Snapshot() == CheckGuiUpdateSpec(old(Snapshot()), CurrentSettings(), w.created)
      ensures !completed ==> Snapshot() == ThrownCheck(old(Snapshot()), w)
    {
      ghost var start := Snapshot();
      if state.dirty.targetFPS || state.dirty.sizeOption || state.dirty.input {
        log := log + [SetupCamera];
        if w.cameraThrows {
          return false;
        }
        state.dirty := state.dirty.(targetFPS := false, sizeOption := false, input := false);
      }
      assert Snapshot() == CameraStep(start);
      ghost var camera := Snapshot();
      if state.dirty.connectWebSocket {
        log := log + [CloseSocket];
        if w.socketThrows {
          return false;
        }
        log := log + [OpenSocket(state.wsURL)];
        assert log == camera.log + SocketEffects(camera.dirty, state.wsURL);
        state.dirty := state.dirty.(connectWebSocket := false);
      }
      assert Snapshot() == SocketStep(camera, state.wsURL);
      ghost var socket := Snapshot();
      if state.dirty.model || state.dirty.flag || state.dirty.backend {
        ReplaceDetector(w.created);
      } else {
        assert socket.dirty.(model := false, flag := false, backend := false) == socket.dirty;
        assert socket.log + [] == socket.log;
      }
      assert Snapshot() == DetectorStep(socket, CurrentSettings(), w.created);
      completed := true;
    }

    /** The detector-replacement branch of `checkGuiUpdate`. */
    method ReplaceDetector(created: Option<DetectorId>)
      requires state.Valid() && DetectorChanged(state.dirty)
      modifies this`detector, this`log, state`dirty
      ensures Snapshot() == DetectorStep(old(Snapshot()), CurrentSettings(), created)
    {
      ghost var start := Snapshot();
      ghost var settings := CurrentSettings();
      ghost var disposal := if detector.Some? then [Dispose(detector.value)] else [];
      ghost var reapply := if state.dirty.flag || state.dirty.backend then [ApplyBackendFlags(state.flags, state.backend)] else [];
      ghost var creation := CreationEffects(settings, created);
      var dirty := state.dirty;
      state.dirty := dirty.(model := true);
      log := log + [CancelFrame];
      if detector.Some? {
        log := log + [Dispose(detector.value)];
      }
      assert log == start.log + [CancelFrame] + disposal;
      if dirty.flag || dirty.backend {
        log := log + [ApplyBackendFlags(state.flags, state.backend)];
      }
      assert log == start.log + [CancelFrame] + disposal + reapply;
      var options := CreateDetectorOptions(state.model, state.modelConfig);
      if options.None? {
        detector := None;
      } else {
        log := log + [Create(options.value)];
        detector := created;
        if created.None? {
          log := log + [Alert];
        }
      }
      assert log == start.log + [CancelFrame] + disposal + reapply + creation;
      AppendAssociates(start.log, [CancelFrame], disposal);
      AppendAssociates(start.log, [CancelFrame] + disposal, reapply);
      AppendAssociates(start.log, [CancelFrame] + disposal + reapply, creation);
      state.dirty := dirty.(flag := false, backend := false, model := false);
    }

    /** `renderResult` past the wait for the video. */
    method RenderResult(estimate: Estimate, socketOpen: bool)
      modifies this`detector, this`log
      ensures Snapshot() == RenderResultSpec(old(Snapshot()), CurrentSettings(), estimate, socketOpen)
    {
      ghost var start := Snapshot();
      var poses: Option<seq<Pose>> := None;
      if detector.Some? {
        log := log + [Estimate(detector.value, MaxPosesOf(state.modelConfig))];
        if estimate.Poses? {
          poses := Some(estimate.poses);
        } else {
          log := log + [Dispose(detector.value), Alert];
          detector := None;
        }
      }
      ghost var inferred := log;
      assert inferred == start.log + InferenceEffects(start.detector, estimate, MaxPosesOf(state.modelConfig));
      assert poses == PosesOf(start.detector, estimate);
      if state.displayCanvas {
        log := log + [DrawFrame];
      }
      ghost var framed := log;
      assert framed == inferred + FrameEffects(state.displayCanvas);
      if poses.Some? && |poses.value| > 0 && !state.dirty.model {
        if socketOpen {
          log := log + [Send(poses.value)];
        }
        if state.displayCanvas {
          log := log + [DrawResults(poses.value)];
        }
      }
      assert log == framed + ResultEffects(poses, state.dirty.model, socketOpen, state.displayCanvas);
    }

    /** `renderPrediction`: one tick. */
    method RenderPrediction(w: World)
      requires state.Valid()
      modifies this`detector, this`log, state`dirty
      ensures Snapshot() == RenderPredictionSpec(old(Snapshot()), CurrentSettings(), w)
    {
      var completed := CheckGuiUpdate(w);
      if !completed {
        return;
      }
      if !state.dirty.model {
        RenderResult(w.estimate, w.socketOpen);
      }
      log := log + [ScheduleFrame];
    }

    /** `ws.onopen`: greet the server with one `pong`. */
    method OnOpen()
      modifies this`log
      ensures log == old(log) + [SendText("pong")]
    {
      log := log + [SendText("pong")];
    }

    /** `ws.onmessage`: answer a `ping`, ignore everything else. */
    method OnMessage(data: Option<string>)
      modifies this`log
      ensures var reply := PingReply(data);
        log == old(log) + (if reply.Some? then [SendText(reply.value)] else [])
    {
      if data.Some? && data.value != "" {
        if data.value == "ping" {
          log := log + [SendText("pong")];
          return;
        }
      }
    }
  }
}
