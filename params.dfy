/**
 * The constant tables of the demo and its process-wide configuration record.
 *
 * Numbers are kept exact: a numeric backend flag value is a count of quarters
 * (`Q` quarters make one), and score thresholds are counts of hundredths.
 */
module Params {
  import opened Wrappers

  /** Quarters per unit: `N(Q)` is the flag value 1, `N(1)` is 0.25. */
  const Q := 4

  /** A backend flag value as the tensor library reports it. */
  datatype FlagValue = B(b: bool) | N(q: int)

  /** The pose-estimation families the demo can select. */
  datatype ModelName = PoseNet | MoveNet

  /** `STATE.modelConfig`: empty until a family's controllers are built (`variant` is the `type` field). */
  datatype ModelConfig =
    | Unset
    | PoseNetConfig(maxPoses: int, scoreThreshold: int)
    | MoveNetConfig(maxPoses: int, variant: string, scoreThreshold: int, customModel: string, enableTracking: bool)

  datatype VideoSize = VideoSize(width: int, height: int)

  /**
   * The seven dirty flags: the three camera flags, the socket reconnect
   * request, and the model, flag and backend changes.
   */
  datatype Dirty = Dirty(
    targetFPS: bool, sizeOption: bool, input: bool,
    connectWebSocket: bool,
    model: bool, flag: bool, backend: bool)

  const CLEAN := Dirty(false, false, false, false, false, false, false)

  const VIDEO_SIZE: map<string, VideoSize> := map[
    "640 X 480" := VideoSize(640, 480),
    "640 X 360" := VideoSize(640, 360)
  ]

  const DEFAULT_WS_URL := "wss://crosby-motion-web-socket.herokuapp.com:443"
  const DEFAULT_TARGET_FPS := 60
  const DEFAULT_SIZE_OPTION := "640 X 360"

  const POSENET_CONFIG := PoseNetConfig(1, 50)
  const MOVENET_CONFIG := MoveNetConfig(2, "lightning", 50, "", true)

  /** The tunable backend flags the tables mention. */
  datatype Flag =
    | Prod | WebglVersion | WasmHasSimdSupport | WasmHasMultithreadSupport
    | WebglCpuForward | WebglPack | WebglForceF16Textures | WebglRenderFloat32Capable
    | WebglFlushThreshold | CheckComputationForErrors
  {
    /** The flag's name in the tensor library's environment. */
    function Key(): string {
      match this
      case Prod => "PROD"
      case WebglVersion => "WEBGL_VERSION"
      case WasmHasSimdSupport => "WASM_HAS_SIMD_SUPPORT"
      case WasmHasMultithreadSupport => "WASM_HAS_MULTITHREAD_SUPPORT"
      case WebglCpuForward => "WEBGL_CPU_FORWARD"
      case WebglPack => "WEBGL_PACK"
      case WebglForceF16Textures => "WEBGL_FORCE_F16_TEXTURES"
      case WebglRenderFloat32Capable => "WEBGL_RENDER_FLOAT32_CAPABLE"
      case WebglFlushThreshold => "WEBGL_FLUSH_THRESHOLD"
      case CheckComputationForErrors => "CHECK_COMPUTATION_FOR_ERRORS"
    }
  }

  /** The runtime backends the tables mention. */
  datatype Backend = TfjsWasm | TfjsWebgl | MediapipeGpu {
    function Key(): string {
      match this
      case TfjsWasm => "tfjs-wasm"
      case TfjsWebgl => "tfjs-webgl"
      case MediapipeGpu => "mediapipe-gpu"
    }
  }

  /** Known safe alternatives for flags whose default is not boolean. */
  const TUNABLE_FLAG_VALUE_RANGE_MAP: map<Flag, seq<FlagValue>> := map[
    WebglVersion := [N(Q), N(2 * Q)],
    WasmHasSimdSupport := [B(true), B(false)],
    WasmHasMultithreadSupport := [B(true), B(false)],
    WebglCpuForward := [B(true), B(false)],
    WebglPack := [B(true), B(false)],
    WebglForceF16Textures := [B(true), B(false)],
    WebglRenderFloat32Capable := [B(true), B(false)],
    WebglFlushThreshold := [N(-Q), N(0), N(1), N(2), N(3), N(4), N(5), N(6), N(7), N(8)],
    CheckComputationForErrors := [B(true), B(false)]
  ]

  /** The backends in the order the object literal declares them. */
  const BACKEND_NAMES: seq<Backend> := [TfjsWasm, TfjsWebgl, MediapipeGpu]

  const BACKEND_FLAGS_MAP: map<Backend, seq<Flag>> := map[
    TfjsWasm := [WasmHasSimdSupport, WasmHasMultithreadSupport],
    TfjsWebgl := [
      WebglVersion, WebglCpuForward, WebglPack,
      WebglForceF16Textures, WebglRenderFloat32Capable,
      WebglFlushThreshold
    ],
    MediapipeGpu := []
  ]

  /** The first backend of each family is its default. */
  const MODEL_BACKEND_MAP: map<ModelName, seq<Backend>> := map[
    PoseNet := [TfjsWebgl],
    MoveNet := [TfjsWebgl, TfjsWasm]
  ]

  const TUNABLE_FLAG_NAME_MAP: map<Flag, string> := map[
    Prod := "production mode",
    WebglVersion := "webgl version",
    WasmHasSimdSupport := "wasm SIMD",
    WasmHasMultithreadSupport := "wasm multithread",
    WebglCpuForward := "cpu forward",
    WebglPack := "webgl pack",
    WebglForceF16Textures := "enforce float16",
    WebglRenderFloat32Capable := "enable float32",
    WebglFlushThreshold := "GL flush wait time(ms)"
  ]

  /** The backends a family offers (always listed in the table). */
  function BackendsOf(m: ModelName): (r: seq<Backend>)
    ensures |r| >= 1
  {
    BackendsHaveFlags();
    MODEL_BACKEND_MAP[m]
  }

  /** A backend's flags (every backend is listed in the table). */
  function FlagsOfBackend(b: Backend): seq<Flag> {
    BackendsHaveFlags();
    BACKEND_FLAGS_MAP[b]
  }

  /** A selected family's tuning record is of that family's kind. */
  predicate ConfigBelongs(model: Option<ModelName>, config: ModelConfig) {
    (model == Some(PoseNet) ==> config.PoseNetConfig?) &&
    (model == Some(MoveNet) ==> config.MoveNetConfig?)
  }

  /** The process-wide configuration record `STATE`. */
  class State {
    var wsURL: string
    var targetFPS: int
    var sizeOption: string
    var displayCanvas: bool
    var input: Option<string>
    var model: Option<ModelName>
    var modelConfig: ModelConfig
    /** `None` is the initial empty backend name. */
    var backend: Option<Backend>
    var flags: map<Flag, FlagValue>
    var dirty: Dirty

    /** The tuning record always belongs to the selected family. */
    ghost predicate Valid()
      reads this
    {
      ConfigBelongs(model, modelConfig)
    }

    /** The initial literal: no model selected, no backend, no flags, nothing dirty. */
    constructor ()
      ensures Valid()
      ensures wsURL == DEFAULT_WS_URL && targetFPS == DEFAULT_TARGET_FPS
      ensures sizeOption == DEFAULT_SIZE_OPTION && displayCanvas && input == None
      ensures model == None && modelConfig == Unset && backend == None && flags == map[]
      ensures dirty == CLEAN
    {
      wsURL := DEFAULT_WS_URL;
      targetFPS := DEFAULT_TARGET_FPS;
      sizeOption := DEFAULT_SIZE_OPTION;
      displayCanvas := true;
      input := None;
      model := None;
      modelConfig := Unset;
      backend := None;
      flags := map[];
      dirty := CLEAN;
    }
  }

  /** Every family has a backend list, and every backend it offers has a flag list. */
  lemma BackendsHaveFlags()
    ensures forall m: ModelName :: m in MODEL_BACKEND_MAP && |MODEL_BACKEND_MAP[m]| >= 1
    ensures forall m, b :: m in MODEL_BACKEND_MAP && b in MODEL_BACKEND_MAP[m] ==> b in BACKEND_FLAGS_MAP
    ensures forall b: Backend :: b in BACKEND_FLAGS_MAP
  {
    forall m: ModelName ensures m in MODEL_BACKEND_MAP && |MODEL_BACKEND_MAP[m]| >= 1 {
      match m
      case PoseNet =>
      case MoveNet =>
    }
    forall b: Backend ensures b in BACKEND_FLAGS_MAP {
      match b
      case TfjsWasm =>
      case TfjsWebgl =>
      case MediapipeGpu =>
    }
  }

  /** `BACKEND_NAMES` lists exactly the keys of `BACKEND_FLAGS_MAP`, each once. */
  lemma BackendNamesAreKeys()
    ensures forall b :: b in BACKEND_FLAGS_MAP <==> b in BACKEND_NAMES
    ensures forall i, j :: 0 <= i < j < |BACKEND_NAMES| ==> BACKEND_NAMES[i] != BACKEND_NAMES[j]
  {
    BackendsHaveFlags();
  }

  /** Every backend flag has a display name. */
  lemma FlagsHaveNames()
    ensures forall b, f :: b in BACKEND_FLAGS_MAP && f in BACKEND_FLAGS_MAP[b] ==> f in TUNABLE_FLAG_NAME_MAP
  {
  }

  /** Every range in the table offers at least two values. */
  lemma TableRangesAreTunable()
    ensures forall f :: f in TUNABLE_FLAG_VALUE_RANGE_MAP ==> |TUNABLE_FLAG_VALUE_RANGE_MAP[f]| >= 2
  {
  }

  /** The default resolution is one of the offered ones. */
  lemma DefaultSizeIsOffered()
    ensures DEFAULT_SIZE_OPTION in VIDEO_SIZE
    ensures VIDEO_SIZE[DEFAULT_SIZE_OPTION] == VideoSize(640, 360)
  {
  }
}
