/**
 * The control panel's configuration logic: URL defaults, the per-family
 * tuning record, the flag defaults cache, the backend flag controllers and
 * the dropdown string maps. Widgets are modelled only as list entries.
 */
module OptionPanel {
  import opened Wrappers
  import opened Params
  import opened FlagRange

  /** A controller in a folder: a plain field, or a flag shown as a checkbox or a dropdown. */
  datatype Control =
    | Field(property: string)
    | Checkbox(flag: Flag, name: string)
    | Dropdown(flag: Flag, name: string, options: seq<FlagValue>)

  const POSENET_MAX_POSES_OPTIONS: seq<int> := [1, 2, 3, 4, 5]
  const MOVENET_TYPES: seq<string> := ["lightning", "thunder", "multipose"]
  /** 0.2, in hundredths. */
  const MULTIPOSE_SCORE_THRESHOLD := 20

  const POSENET_CONTROLS := [Field("maxPoses"), Field("scoreThreshold")]
  const MOVENET_CONTROLS := [Field("type"), Field("customModel"), Field("scoreThreshold"), Field("enableTracking")]

  // ---- URL parameters ----

  /** JavaScript truthiness of `urlParams.get(...)`: present and not empty. */
  predicate Truthy(o: Option<string>) {
    o.Some? && o.value != ""
  }

  function ModelParam(url: map<string, string>): string {
    var m := Get(url, "model");
    if Truthy(m) then m.value else "movenet"
  }

  function TypeParam(url: map<string, string>): string {
    var t := Get(url, "type");
    if Truthy(t) then t.value else "multipose"
  }

  /** The `switch (model)`: only the two known names change the selection. */
  function SelectModel(name: string, current: Option<ModelName>): Option<ModelName> {
    if name == "posenet" then Some(PoseNet)
    else if name == "movenet" then Some(MoveNet)
    else current
  }

  lemma UrlDefaults(url: map<string, string>, current: Option<ModelName>)
    ensures "model" !in url ==> SelectModel(ModelParam(url), current) == Some(MoveNet)
    ensures "type" !in url ==> TypeParam(url) == "multipose"
    ensures "model" in url && url["model"] !in {"", "posenet", "movenet"} ==> SelectModel(ModelParam(url), current) == current
  {
  }

  // ---- the tuning record ----

  /**
   * A copy of `MOVENET_CONFIG` with the given variant (lightning when absent);
   * multipose also turns tracking on and lowers the score threshold to 0.2.
   */
  function MoveNetConfigFor(variant: Option<string>): (c: ModelConfig)
    ensures c.MoveNetConfig?
    ensures c.variant == variant.GetOr("lightning")
    ensures c.maxPoses == MOVENET_CONFIG.maxPoses && c.customModel == MOVENET_CONFIG.customModel
    ensures c.variant == "multipose" ==> c.enableTracking && c.scoreThreshold == MULTIPOSE_SCORE_THRESHOLD
    ensures c.variant != "multipose" ==>
      c.enableTracking == MOVENET_CONFIG.enableTracking && c.scoreThreshold == MOVENET_CONFIG.scoreThreshold
  {
    var base := MOVENET_CONFIG.(variant := if variant.Some? then variant.value else "lightning");
    if base.variant == "multipose" then base.(enableTracking := true, scoreThreshold := MULTIPOSE_SCORE_THRESHOLD)
    else base
  }

  /** The tuning record after the family's controllers are built. */
  function ConfigFor(model: Option<ModelName>, variant: Option<string>, current: ModelConfig): ModelConfig {
    match model
    case None => current
    case Some(PoseNet) => POSENET_CONFIG
    case Some(MoveNet) => MoveNetConfigFor(variant)
  }

  function ModelControls(model: Option<ModelName>): seq<Control> {
    match model
    case None => []
    case Some(PoseNet) => POSENET_CONTROLS
    case Some(MoveNet) => MOVENET_CONTROLS
  }

  /** `?model=movenet&type=multipose` starts MoveNet with two poses, tracking and threshold 0.2. */
  lemma MultiposeScenario(url: map<string, string>, current: Option<ModelName>)
    requires url == map["model" := "movenet", "type" := "multipose"]
    ensures SelectModel(ModelParam(url), current) == Some(MoveNet)
    ensures MoveNetConfigFor(Some(TypeParam(url))) == MoveNetConfig(2, "multipose", 20, "", true)
    ensures MOVENET_CONFIG.scoreThreshold == 50
  {
  }

  /** The base records' defaults are among the values the controllers offer. */
  lemma DefaultsAreOffered()
    ensures POSENET_CONFIG.maxPoses in POSENET_MAX_POSES_OPTIONS
    ensures MOVENET_CONFIG.variant in MOVENET_TYPES
  {
  }

  // ---- flag controllers ----

  /** `TUNABLE_FLAG_NAME_MAP[flag] || flag` */
  function FlagLabel(flag: Flag): string {
    if flag in TUNABLE_FLAG_NAME_MAP && TUNABLE_FLAG_NAME_MAP[flag] != "" then TUNABLE_FLAG_NAME_MAP[flag] else flag.Key()
  }

  /** The controller shown for one flag: none when it is not tunable. */
  function FlagControl(flag: Flag, default: FlagValue): seq<Control> {
    ControlFor(flag, TunableRange(flag, default))
  }

  /** The controller for a flag with a given range: a checkbox for booleans, a dropdown otherwise. */
  function ControlFor(flag: Flag, range: seq<FlagValue>): seq<Control> {
    if !IsTunable(range) then []
    else if range[0].B? then [Checkbox(flag, FlagLabel(flag))]
    else [Dropdown(flag, FlagLabel(flag), range)]
  }

  /** The controllers shown for a backend's flags, in order. */
  function FlagControls(flags: seq<Flag>, query: Flag -> FlagValue): seq<Control> {
    if flags == [] then []
    else FlagControls(flags[..|flags| - 1], query) + FlagControl(flags[|flags| - 1], query(flags[|flags| - 1]))
  }

  lemma AppendAssociates<T>(a: seq<T>, b: seq<T>, c: seq<T>)
    ensures (a + b) + c == a + (b + c)
  {
  }

  lemma FlagControlsSnoc(flags: seq<Flag>, f: Flag, query: Flag -> FlagValue)
    ensures FlagControls(flags + [f], query) == FlagControls(flags, query) + FlagControl(f, query(f))
  {
    assert (flags + [f])[..|flags|] == flags;
  }

  /** The tunable flags of a list, in order. */
  function TunableFlags(flags: seq<Flag>, query: Flag -> FlagValue): seq<Flag> {
    if flags == [] then []
    else
      var f := flags[|flags| - 1];
      TunableFlags(flags[..|flags| - 1], query) + (if IsTunable(TunableRange(f, query(f))) then [f] else [])
  }

  /** The flags that controllers are shown for, in order. */
  function ControlFlags(cs: seq<Control>): seq<Flag> {
    if cs == [] then []
    else ControlFlags(cs[..|cs| - 1]) + (if cs[|cs| - 1].Field? then [] else [cs[|cs| - 1].flag])
  }

  lemma {:induction false} ControlFlagsAppend(a: seq<Control>, b: seq<Control>)
    ensures ControlFlags(a + b) == ControlFlags(a) + ControlFlags(b)
  {
    if b == [] {
      assert a + b == a;
    } else {
      assert (a + b)[..|a + b| - 1] == a + b[..|b| - 1];
      ControlFlagsAppend(a, b[..|b| - 1]);
    }
  }

  /** One flag's controller: there is one exactly when the flag is tunable, a dropdown offering its range or a checkbox. */
  lemma FlagControlShape(f: Flag, default: FlagValue)
    ensures ControlFlags(FlagControl(f, default)) == (if IsTunable(TunableRange(f, default)) then [f] else [])
    ensures forall c :: c in FlagControl(f, default) ==>
      !c.Field? && c.flag == f && IsTunable(TunableRange(f, default)) &&
      (c.Dropdown? <==> IsDropdown(TunableRange(f, default))) &&
      (c.Dropdown? ==> c.options == TunableRange(f, default))
  {
    var one := FlagControl(f, default);
    if one != [] {
      assert one[..|one| - 1] == [];
    }
  }

  /** Exactly the tunable flags get a controller, in the backend's order. */
  lemma {:induction false} FlagControlsAreTunable(flags: seq<Flag>, query: Flag -> FlagValue)
    ensures ControlFlags(FlagControls(flags, query)) == TunableFlags(flags, query)
  {
    if flags != [] {
      var init, f := flags[..|flags| - 1], flags[|flags| - 1];
      FlagControlsAreTunable(init, query);
      ControlFlagsAppend(FlagControls(init, query), FlagControl(f, query(f)));
      FlagControlShape(f, query(f));
    }
  }

  /** Every controller is a checkbox or a dropdown of a tunable flag of the list; a dropdown offers the flag's range. */
  lemma {:induction false} FlagControlsOffered(flags: seq<Flag>, query: Flag -> FlagValue)
    ensures forall c :: c in FlagControls(flags, query) ==>
      !c.Field? && c.flag in flags && IsTunable(TunableRange(c.flag, query(c.flag))) &&
      (c.Dropdown? <==> IsDropdown(TunableRange(c.flag, query(c.flag)))) &&
      (c.Dropdown? ==> c.options == TunableRange(c.flag, query(c.flag)))
  {
    if flags != [] {
      var init, f := flags[..|flags| - 1], flags[|flags| - 1];
      FlagControlsOffered(init, query);
      FlagControlShape(f, query(f));
      assert forall g :: g in init ==> g in flags;
    }
  }

  /** The string maps of older flags are kept; new ones belong to dropdown flags of `flags` and all of those have one. */
  ghost predicate StringMapExtended(
    before: map<Flag, map<string, FlagValue>>, after: map<Flag, map<string, FlagValue>>,
    flags: seq<Flag>, query: Flag -> FlagValue)
  {
    (forall f :: f in before ==> f in after && after[f] == before[f]) &&
    (forall f :: f in after && f !in before ==> f in flags && IsDropdown(TunableRange(f, query(f)))) &&
    (forall f :: f in flags && IsDropdown(TunableRange(f, query(f))) ==> f in after)
  }

  /** Each cached string map is the one built from its flag's range. */
  ghost predicate MapsMatchRanges(m: map<Flag, map<string, FlagValue>>, query: Flag -> FlagValue) {
    forall f {:trigger m[f]} :: f in m ==> m[f] == StringValueMapOf(TunableRange(f, query(f)))
  }

  lemma MapsMatchRangesAdd(m: map<Flag, map<string, FlagValue>>, f: Flag, query: Flag -> FlagValue)
    requires MapsMatchRanges(m, query)
    ensures MapsMatchRanges(m[f := StringValueMapOf(TunableRange(f, query(f)))], query)
  {
  }

  /** The string maps after showing `flags` in order: a dropdown flag not yet mapped gets its map. */
  ghost function StringMapsAfter(
    m: map<Flag, map<string, FlagValue>>, flags: seq<Flag>, query: Flag -> FlagValue): map<Flag, map<string, FlagValue>>
  {
    if flags == [] then m
    else StringMapAfter(StringMapsAfter(m, flags[..|flags| - 1], query), flags[|flags| - 1], query)
  }

  /** Showing one flag: a dropdown flag without a map yet gets the map of its range. */
  ghost function StringMapAfter(
    m: map<Flag, map<string, FlagValue>>, f: Flag, query: Flag -> FlagValue): map<Flag, map<string, FlagValue>>
  {
    if IsDropdown(TunableRange(f, query(f))) && f !in m
    then m[f := StringValueMapOf(TunableRange(f, query(f)))]
    else m
  }

  lemma StringMapsAfterSnoc(m: map<Flag, map<string, FlagValue>>, flags: seq<Flag>, f: Flag, query: Flag -> FlagValue)
    ensures StringMapsAfter(m, flags + [f], query) == StringMapAfter(StringMapsAfter(m, flags, query), f, query)
  {
    assert (flags + [f])[..|flags|] == flags;
  }

  lemma StringMapAfterRange(m: map<Flag, map<string, FlagValue>>, f: Flag, query: Flag -> FlagValue, range: seq<FlagValue>)
    requires range == TunableRange(f, query(f))
    ensures StringMapAfter(m, f, query) == if IsDropdown(range) && f !in m then m[f := StringValueMapOf(range)] else m
  {
  }

  /** Showing flags keeps older maps, adds maps only for dropdown flags shown and for all of them. */
  lemma {:induction false} StringMapsAfterExtends(m: map<Flag, map<string, FlagValue>>, flags: seq<Flag>, query: Flag -> FlagValue)
    ensures StringMapExtended(m, StringMapsAfter(m, flags, query), flags, query)
  {
    if flags != [] {
      var init := flags[..|flags| - 1];
      StringMapsAfterExtends(m, init, query);
      assert flags == init + [flags[|flags| - 1]];
    }
  }

  /** Every map added is the one built from its flag's range. */
  lemma {:induction false} StringMapsAfterMatch(m: map<Flag, map<string, FlagValue>>, flags: seq<Flag>, query: Flag -> FlagValue)
    requires MapsMatchRanges(m, query)
    ensures MapsMatchRanges(StringMapsAfter(m, flags, query), query)
  {
    if flags != [] {
      StringMapsAfterMatch(m, flags[..|flags| - 1], query);
    }
  }

  /** The flags of a list, as a set. */
  function FlagSet(flags: seq<Flag>): (r: set<Flag>)
    ensures forall f :: f in r <==> f in flags
  {
    set i | 0 <= i < |flags| :: flags[i]
  }

  /** The flags of the given backends. */
  function FlagsOf(backends: seq<Backend>): set<Flag> {
    if backends == [] then {}
    else FlagsOf(backends[..|backends| - 1]) + FlagSet(FlagsOfBackend(backends[|backends| - 1]))
  }

  /** Every flag of every backend. */
  function AllBackendFlags(): set<Flag> {
    FlagsOf(BACKEND_NAMES)
  }

  /** The defaults cache covers the flags of every backend, and nothing else. */
  lemma AllBackendFlagsAreTheBackendsFlags()
    ensures forall b: Backend, f :: f in FlagsOfBackend(b) ==> f in AllBackendFlags()
    ensures forall f :: f in AllBackendFlags() ==> f in FlagsOfBackend(TfjsWasm) || f in FlagsOfBackend(TfjsWebgl)
  {
    var wasm, webgl, gpu := FlagsOfBackend(TfjsWasm), FlagsOfBackend(TfjsWebgl), FlagsOfBackend(MediapipeGpu);
    assert BACKEND_NAMES[..1][..0] == [];
    assert FlagsOf(BACKEND_NAMES[..1]) == FlagSet(wasm);
    assert BACKEND_NAMES[..2][..1] == BACKEND_NAMES[..1];
    assert FlagsOf(BACKEND_NAMES[..2]) == FlagSet(wasm) + FlagSet(webgl);
    assert BACKEND_NAMES[..3][..2] == BACKEND_NAMES[..2];
    assert BACKEND_NAMES[..3] == BACKEND_NAMES;
    assert gpu == [];
    assert AllBackendFlags() == FlagSet(wasm) + FlagSet(webgl) + FlagSet(gpu);
    forall b: Backend, f | f in FlagsOfBackend(b) ensures f in AllBackendFlags() {
      match b
      case TfjsWasm =>
      case TfjsWebgl =>
      case MediapipeGpu =>
    }
  }

  // ---- controller folders ----

  /** A GUI folder: its controllers, in order. */
  class Folder {
    var controllers: seq<Control>

    constructor ()
      ensures controllers == []
    {
      controllers := [];
    }

    method Add(c: Control)
      modifies this
      ensures controllers == old(controllers) + [c]
    {
      controllers := controllers + [c];
    }

    method Remove(i: nat)
      requires i < |controllers|
      modifies this
      ensures controllers == old(controllers)[..i] + old(controllers)[i + 1..]
    {
      controllers := controllers[..i] + controllers[i + 1..];
    }
  }

  /** Removes controllers from the end until at most `fixedSelectionCount` remain. */
  method TrimControllers(folder: Folder, fixedSelectionCount: nat)
    modifies folder
    ensures folder.controllers == old(folder.controllers)[..Min(|old(folder.controllers)|, fixedSelectionCount)]
  {
    while |folder.controllers| > fixedSelectionCount
      invariant |folder.controllers| <= |old(folder.controllers)|
      invariant |folder.controllers| >= Min(|old(folder.controllers)|, fixedSelectionCount)
      invariant folder.controllers == old(folder.controllers)[..|folder.controllers|]
      decreases |folder.controllers|
    {
      folder.Remove(|folder.controllers| - 1);
    }
  }

  /** The option panel's module state: the flag defaults cache and the dropdown string maps. */
  class Panel {
    const state: State
    const modelFolder: Folder
    const backendFolder: Folder
    /** `tf.env().getAsync`, taken as a fixed environment. */
    const query: Flag -> FlagValue
    var defaults: map<Flag, FlagValue>
    var stringValueMap: map<Flag, map<string, FlagValue>>

    ghost predicate Valid()
      reads this`defaults, this`stringValueMap
    {
      modelFolder != backendFolder &&
      (forall f {:trigger defaults[f]} :: f in defaults ==> defaults[f] == query(f)) &&
      MapsMatchRanges(stringValueMap, query)
    }

    /** `STATE.flags` holds exactly the current backend's flags, each at its queried default. */
    ghost predicate FlagsAreBackendDefaults()
      reads state`backend, state`flags
    {
      state.backend.Some? &&
      (forall f :: f in state.flags <==> f in FlagsOfBackend(state.backend.value)) &&
      (forall f :: f in state.flags ==> state.flags[f] == query(f))
    }

    /** The backend folder shows the backend selector and the current backend's flags. */
    ghost predicate BackendSettingsShown()
      reads this`defaults, state`backend, state`flags, backendFolder`controllers
    {
      FlagsAreBackendDefaults() &&
      defaults.Keys == AllBackendFlags() &&
      backendFolder.controllers == [Field("runtime-backend")] + FlagControls(FlagsOfBackend(state.backend.value), query)
    }

    /** `setupDatGui`: URL defaults, the model folder and the backend folder. */
    constructor (state: State, url: map<string, string>, query: Flag -> FlagValue)
      modifies state`wsURL, state`dirty, state`model, state`modelConfig, state`backend, state`flags
      ensures Valid() && state.Valid()
      ensures this.state == state && this.query == query && fresh(modelFolder) && fresh(backendFolder)
      ensures Truthy(Get(url, "wsURL")) ==> state.wsURL == url["wsURL"] && state.dirty == old(state.dirty).(connectWebSocket := true)
      ensures !Truthy(Get(url, "wsURL")) ==> state.wsURL == old(state.wsURL) && state.dirty == old(state.dirty)
      ensures state.model == SelectModel(ModelParam(url), old(state.model))
      ensures state.modelConfig == ConfigFor(state.model, Some(TypeParam(url)), old(state.modelConfig))
      ensures modelFolder.controllers == [Field("model")] + ModelControls(state.model)
      ensures state.model.Some? ==> state.backend == Some(BackendsOf(state.model.value)[0]) && BackendSettingsShown()
      ensures state.model.None? ==>
        backendFolder.controllers == [] && state.backend == old(state.backend) && state.flags == old(state.flags)
      ensures state.model.Some? ==> StringMapExtended(map[], stringValueMap, FlagsOfBackend(state.backend.value), query)
      ensures state.model.None? ==> stringValueMap == map[] && defaults == map[]
    {
      this.state := state;
      this.query := query;
      modelFolder := new Folder();
      backendFolder := new Folder();
      defaults := map[];
      stringValueMap := map[];
      new;
      Setup(url);
    }

    /** The body of `setupDatGui` once the folders exist. */
    method Setup(url: map<string, string>)
      requires Valid() && modelFolder.controllers == [] && backendFolder.controllers == []
      modifies modelFolder, backendFolder, this`defaults, this`stringValueMap
      modifies state`wsURL, state`dirty, state`model, state`modelConfig, state`backend, state`flags
      ensures Valid() && state.Valid()
      ensures Truthy(Get(url, "wsURL")) ==> state.wsURL == url["wsURL"] && state.dirty == old(state.dirty).(connectWebSocket := true)
      ensures !Truthy(Get(url, "wsURL")) ==> state.wsURL == old(state.wsURL) && state.dirty == old(state.dirty)
      ensures state.model == SelectModel(ModelParam(url), old(state.model))
      ensures state.modelConfig == ConfigFor(state.model, Some(TypeParam(url)), old(state.modelConfig))
      ensures modelFolder.controllers == [Field("model")] + ModelControls(state.model)
      ensures state.model.Some? ==> state.backend == Some(BackendsOf(state.model.value)[0]) && BackendSettingsShown()
      ensures state.model.None? ==>
        backendFolder.controllers == [] && state.backend == old(state.backend) && state.flags == old(state.flags)
      ensures state.model.Some? ==>
        StringMapExtended(old(stringValueMap), stringValueMap, FlagsOfBackend(state.backend.value), query)
      ensures state.model.None? ==> stringValueMap == old(stringValueMap) && defaults == old(defaults)
    {
      ApplyUrlParams(url);
      modelFolder.Add(Field("model"));
      ghost var selector := modelFolder.controllers;
      assert selector[..Min(|selector|, 1)] == [Field("model")];
      ShowConfigs(Some(TypeParam(url)));
    }

    /** The `wsURL` and `model` URL parameters. */
    method ApplyUrlParams(url: map<string, string>)
      modifies state`wsURL, state`dirty, state`model
      ensures Truthy(Get(url, "wsURL")) ==> state.wsURL == url["wsURL"] && state.dirty == old(state.dirty).(connectWebSocket := true)
      ensures !Truthy(Get(url, "wsURL")) ==> state.wsURL == old(state.wsURL) && state.dirty == old(state.dirty)
      ensures state.model == SelectModel(ModelParam(url), old(state.model))
    {
      var wsURL := Get(url, "wsURL");
      if Truthy(wsURL) {
        state.wsURL := wsURL.value;
        state.dirty := state.dirty.(connectWebSocket := true);
      }
      var model := ModelParam(url);
      if model == "posenet" {
        state.model := Some(PoseNet);
      } else if model == "movenet" {
        state.model := Some(MoveNet);
      }
    }

    /** Rebuilds the model folder and then the backend folder for the selected family. */
    method ShowConfigs(variant: Option<string>)
      requires Valid()
      modifies modelFolder, backendFolder, this`defaults, this`stringValueMap
      modifies state`modelConfig, state`backend, state`flags
      ensures Valid() && state.Valid()
      ensures state.modelConfig == ConfigFor(state.model, variant, old(state.modelConfig))
      ensures modelFolder.controllers ==
        old(modelFolder.controllers)[..Min(|old(modelFolder.controllers)|, 1)] + ModelControls(state.model)
      ensures state.model.Some? ==> state.backend == Some(BackendsOf(state.model.value)[0]) && BackendSettingsShown()
      ensures state.model.None? ==>
        backendFolder.controllers == [] && state.backend == old(state.backend) && state.flags == old(state.flags)
      ensures state.model.Some? ==>
        StringMapExtended(old(stringValueMap), stringValueMap, FlagsOfBackend(state.backend.value), query)
      ensures state.model.None? ==> stringValueMap == old(stringValueMap) && defaults == old(defaults)
    {
      ShowModelConfigs(variant);
      var _ := ShowBackendConfigs();
    }

    /** Rebuilds the model folder (keeping its first controller) and the tuning record. */
    method ShowModelConfigs(variant: Option<string>)
      modifies modelFolder, state`modelConfig
      ensures modelFolder.controllers ==
        old(modelFolder.controllers)[..Min(|old(modelFolder.controllers)|, 1)] + ModelControls(state.model)
      ensures state.modelConfig == ConfigFor(state.model, variant, old(state.modelConfig))
      ensures state.Valid()
    {
      TrimControllers(modelFolder, 1);
      match state.model
      case Some(PoseNet) => AddPoseNetControllers();
      case Some(MoveNet) => AddMoveNetControllers(variant);
      case None =>
    }

    method AddPoseNetControllers()
      modifies modelFolder, state`modelConfig
      ensures state.modelConfig == POSENET_CONFIG
      ensures modelFolder.controllers == old(modelFolder.controllers) + POSENET_CONTROLS
    {
      state.modelConfig := POSENET_CONFIG;
      modelFolder.Add(Field("maxPoses"));
      modelFolder.Add(Field("scoreThreshold"));
    }

    method AddMoveNetControllers(variant: Option<string>)
      modifies modelFolder, state`modelConfig
      ensures state.modelConfig == MoveNetConfigFor(variant)
      ensures modelFolder.controllers == old(modelFolder.controllers) + MOVENET_CONTROLS
    {
      state.modelConfig := MoveNetConfigFor(variant);
      modelFolder.Add(Field("type"));
      modelFolder.Add(Field("customModel"));
      modelFolder.Add(Field("scoreThreshold"));
      modelFolder.Add(Field("enableTracking"));
    }

    /**
     * Rebuilds the backend folder for the selected family; fails, as the
     * table lookup of an undefined family throws, when no family is selected.
     */
    method ShowBackendConfigs() returns (ok: bool)
      requires Valid()
      modifies backendFolder, this`defaults, this`stringValueMap, state`backend, state`flags
      ensures Valid()
      ensures ok <==> state.model.Some?
      ensures ok ==> state.backend == Some(BackendsOf(state.model.value)[0]) && BackendSettingsShown()
      ensures ok ==> StringMapExtended(old(stringValueMap), stringValueMap, FlagsOfBackend(state.backend.value), query)
      ensures !ok ==> backendFolder.controllers == [] && state.backend == old(state.backend)
      ensures !ok ==> state.flags == old(state.flags) && defaults == old(defaults) && stringValueMap == old(stringValueMap)
    {
      TrimControllers(backendFolder, 0);
      if state.model.None? {
        return false;
      }
      var backends := BackendsOf(state.model.value);
      ShowBackendSelector(backends[0]);
      ok := true;
    }

    /** Selects `backend`, adds its selector to the empty folder and shows its flags. */
    method ShowBackendSelector(backend: Backend)
      requires Valid() && backendFolder.controllers == []
      modifies backendFolder, this`defaults, this`stringValueMap, state`backend, state`flags
      ensures Valid()
      ensures state.backend == Some(backend) && BackendSettingsShown()
      ensures StringMapExtended(old(stringValueMap), stringValueMap, FlagsOfBackend(backend), query)
    {
      state.backend := Some(backend);
      backendFolder.Add(Field("runtime-backend"));
      ghost var selector := backendFolder.controllers;
      assert selector[..Min(|selector|, 1)] == [Field("runtime-backend")];
      ShowFlagSettings(backend);
    }

    /** Requeries the defaults, then replaces the flag controllers with the given backend's. */
    method ShowFlagSettings(backendName: Backend)
      requires Valid()
      requires state.backend.Some?
      modifies backendFolder, this`defaults, this`stringValueMap, state`flags
      ensures Valid()
      ensures defaults.Keys == AllBackendFlags() && FlagsAreBackendDefaults()
      ensures backendFolder.controllers ==
        old(backendFolder.controllers)[..Min(|old(backendFolder.controllers)|, 1)]
        + FlagControls(FlagsOfBackend(backendName), query)
      ensures StringMapExtended(old(stringValueMap), stringValueMap, FlagsOfBackend(backendName), query)
    {
      InitDefaultValueMap();
      TrimControllers(backendFolder, 1);
      AllBackendFlagsAreTheBackendsFlags();
      assert forall f :: f in FlagsOfBackend(backendName) ==> f in defaults;
      ShowBackendFlagSettings(backendName);
    }

    /** Queries every backend's flags into the cache, then keeps the current backend's in `STATE.flags`. */
    method InitDefaultValueMap()
      requires Valid()
      requires state.backend.Some?
      modifies this`defaults, state`flags
      ensures Valid()
      ensures defaults.Keys == AllBackendFlags()
      ensures FlagsAreBackendDefaults()
    {
      defaults := map[];
      state.flags := map[];
      var i := 0;
      while i < |BACKEND_NAMES|
        modifies this`defaults
        invariant 0 <= i <= |BACKEND_NAMES|
        invariant Valid()
        invariant defaults.Keys == FlagsOf(BACKEND_NAMES[..i])
      {
        QueryFlagDefaults(FlagsOfBackend(BACKEND_NAMES[i]));
        assert BACKEND_NAMES[..i + 1][..i] == BACKEND_NAMES[..i];
        i := i + 1;
      }
      assert BACKEND_NAMES[..i] == BACKEND_NAMES;
      AllBackendFlagsAreTheBackendsFlags();
      CopyBackendDefaults();
    }

    /** Caches the queried default of each flag of one backend. */
    method QueryFlagDefaults(flags: seq<Flag>)
      requires Valid()
      modifies this`defaults
      ensures Valid()
      ensures defaults.Keys == old(defaults.Keys) + FlagSet(flags)
    {
      var index := 0;
      while index < |flags|
        invariant 0 <= index <= |flags|
        invariant Valid()
        invariant defaults.Keys == old(defaults.Keys) + FlagSet(flags[..index])
      {
        var flag := flags[index];
        defaults := defaults[flag := query(flag)];
        assert flags[..index + 1] == flags[..index] + [flag];
        index := index + 1;
      }
      assert flags[..index] == flags;
    }

    /** Copies the cached defaults of the current backend's flags into the empty `STATE.flags`. */
    method CopyBackendDefaults()
      requires Valid()
      requires state.backend.Some? && state.flags == map[]
      requires forall f :: f in FlagsOfBackend(state.backend.value) ==> f in defaults
      modifies state`flags
      ensures FlagsAreBackendDefaults()
    {
      var pending := defaults.Keys;
      while pending != {}
        invariant pending <= defaults.Keys
        invariant forall f :: f in state.flags <==> f in defaults && f !in pending && f in FlagsOfBackend(state.backend.value)
        invariant forall f :: f in state.flags ==> state.flags[f] == defaults[f]
        decreases pending
      {
        var flag :| flag in pending;
        if flag in FlagsOfBackend(state.backend.value) {
          state.flags := state.flags[flag := defaults[flag]];
        }
        pending := pending - {flag};
      }
    }

    /** Shows the flags of a backend: a checkbox or dropdown per tunable flag. */
    method ShowBackendFlagSettings(backendName: Backend)
      requires Valid()
      requires forall f :: f in FlagsOfBackend(backendName) ==> f in defaults
      modifies backendFolder, this`stringValueMap
      ensures Valid()
      ensures backendFolder.controllers == old(backendFolder.controllers) + FlagControls(FlagsOfBackend(backendName), query)
      ensures StringMapExtended(old(stringValueMap), stringValueMap, FlagsOfBackend(backendName), query)
    {
      var tunableFlags := FlagsOfBackend(backendName);
      AddFlagControllers(tunableFlags);
      StringMapsAfterExtends(old(stringValueMap), tunableFlags, query);
    }

    /** The loop over a backend's flags; builds a dropdown's string map only once. */
    method AddFlagControllers(tunableFlags: seq<Flag>)
      requires Valid()
      requires forall f :: f in tunableFlags ==> f in defaults
      modifies backendFolder, this`stringValueMap
      ensures Valid()
      ensures backendFolder.controllers == old(backendFolder.controllers) + FlagControls(tunableFlags, query)
      ensures stringValueMap == StringMapsAfter(old(stringValueMap), tunableFlags, query)
    {
      ghost var controls0, maps0 := backendFolder.controllers, stringValueMap;
      var index := 0;
      while index < |tunableFlags|
        invariant 0 <= index <= |tunableFlags|
        invariant Valid()
        invariant backendFolder.controllers == controls0 + FlagControls(tunableFlags[..index], query)
        invariant stringValueMap == StringMapsAfter(maps0, tunableFlags[..index], query)
      {
        var flag := tunableFlags[index];
        ghost var done := tunableFlags[..index];
        assert tunableFlags[..index + 1] == done + [flag];
        FlagControlsSnoc(done, flag, query);
        StringMapsAfterSnoc(maps0, done, flag, query);
        AppendAssociates(controls0, FlagControls(done, query), FlagControl(flag, query(flag)));
        ShowFlagControl(flag);
        index := index + 1;
      }
      assert tunableFlags[..index] == tunableFlags;
    }

    /** One flag's controller; a dropdown's string map is built the first time the flag shows. */
    method ShowFlagControl(flag: Flag)
      requires Valid()
      requires flag in defaults
      modifies backendFolder, this`stringValueMap
      ensures Valid()
      ensures backendFolder.controllers == old(backendFolder.controllers) + FlagControl(flag, query(flag))
      ensures stringValueMap == StringMapAfter(old(stringValueMap), flag, query)
    {
      var flagName := FlagLabel(flag);
      assert defaults[flag] == query(flag);
      var flagValueRange := GetTunableRange(flag, defaults[flag]);
      ghost var controls0, maps0 := backendFolder.controllers, stringValueMap;
      assert flagValueRange == TunableRange(flag, query(flag));
      assert FlagControl(flag, query(flag)) == ControlFor(flag, flagValueRange);
      StringMapAfterRange(maps0, flag, query, flagValueRange);
      if |flagValueRange| >= 2 {
        if flagValueRange[0].B? {
          backendFolder.Add(Checkbox(flag, flagName));
        } else {
          backendFolder.Add(Dropdown(flag, flagName, flagValueRange));
          CacheStringValueMap(flag, flagValueRange);
        }
      }
      assert backendFolder.controllers == controls0 + ControlFor(flag, flagValueRange);
      assert stringValueMap == StringMapAfter(maps0, flag, query);
    }

    /** A dropdown flag's string map is built the first time it is shown, and kept after that. */
    method CacheStringValueMap(flag: Flag, range: seq<FlagValue>)
      requires Valid()
      requires range == TunableRange(flag, query(flag))
      modifies this`stringValueMap
      ensures Valid()
      ensures stringValueMap ==
        if flag in old(stringValueMap) then old(stringValueMap)
        else old(stringValueMap)[flag := StringValueMapOf(range)]
    {
      if flag !in stringValueMap {
        var m := BuildStringValueMap(range);
        MapsMatchRangesAdd(stringValueMap, flag, query);
        stringValueMap := stringValueMap[flag := m];
      }
    }

    /** The family selector changed: rebuild both folders, mark the model changed. */
    method OnModelChange(model: ModelName)
      requires Valid()
      modifies state`model, state`dirty, state`modelConfig, state`backend, state`flags
      modifies modelFolder, backendFolder, this`defaults, this`stringValueMap
      ensures Valid() && state.Valid()
      ensures state.model == Some(model) && state.dirty == old(state.dirty).(model := true)
      ensures state.modelConfig == ConfigFor(Some(model), None, old(state.modelConfig))
      ensures modelFolder.controllers ==
        old(modelFolder.controllers)[..Min(|old(modelFolder.controllers)|, 1)] + ModelControls(Some(model))
      ensures state.backend == Some(BackendsOf(model)[0]) && BackendSettingsShown()
      ensures StringMapExtended(old(stringValueMap), stringValueMap, FlagsOfBackend(state.backend.value), query)
    {
      state.model := Some(model);
      state.dirty := state.dirty.(model := true);
      ShowConfigs(None);
    }

    /** The backend selector changed: mark it and show the new backend's flags. */
    method OnBackendChange(backend: Backend)
      requires Valid()
      requires state.model.Some? && backend in BackendsOf(state.model.value)
      modifies state`backend, state`dirty, state`flags, backendFolder, this`defaults, this`stringValueMap
      ensures Valid()
      ensures state.backend == Some(backend) && state.dirty == old(state.dirty).(backend := true)
      ensures defaults.Keys == AllBackendFlags() && FlagsAreBackendDefaults()
      ensures backendFolder.controllers ==
        old(backendFolder.controllers)[..Min(|old(backendFolder.controllers)|, 1)]
        + FlagControls(BACKEND_FLAGS_MAP[backend], query)
      ensures StringMapExtended(old(stringValueMap), stringValueMap, BACKEND_FLAGS_MAP[backend], query)
    {
      state.backend := Some(backend);
      state.dirty := state.dirty.(backend := true);
      ShowFlagSettings(backend);
    }

    /** A dropdown reported the string of an option: store the typed value it stands for. */
    method OnFlagFinishChange(flag: Flag, shown: string)
      requires Valid()
      requires flag in stringValueMap && shown in stringValueMap[flag]
      modifies state`flags
      ensures state.flags == old(state.flags)[flag := stringValueMap[flag][shown]]
      ensures state.flags[flag] in TunableRange(flag, query(flag)) && Show(state.flags[flag]) == shown
    {
      StringValueMapRecovers(TunableRange(flag, query(flag)));
      state.flags := state.flags[flag := stringValueMap[flag][shown]];
    }
  }
}
