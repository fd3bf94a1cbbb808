# Pose-detection demo: option panel and render loop

This project models the configuration and frame-loop core of a browser demo.
The demo runs a pose detector (MoveNet or PoseNet) on the camera and streams
the detected poses over a WebSocket. The model is in five modules:

- `Wrappers` holds `Option` and map lookup.
- `Params` holds the constant tables and the process-wide `STATE` record, as the class `Params.State`.
- `FlagRange` holds the rule that derives a backend flag's tunable range from its default, `String(v)` for flag values, and the dropdown string-to-value map.
- `OptionPanel` covers the control panel: URL defaults, the per-family tuning record, the flag-defaults cache, the backend flag controllers and the controller-trimming loops. Its `Panel` class carries the module state of the panel file: the defaults cache and the string maps.
- `RenderLoop` covers two things. The first is the option selection of `createDetector`. The second is one tick of `renderPrediction`: the GUI update check, then the result rendering, then the next frame. An `App` class holds the detector slot and a log of the effects the tick asks of the platform.

Numbers are exact integers:

- A numeric backend flag value is a count of quarters, so `N(1)` is 0.25 and `N(8)` is 2.
- Score thresholds are in hundredths, so 0.5 is 50.
- The PoseNet multiplier 0.75 is 75.

Three kinds of outside input become parameters:

- Flag defaults come from `tf.env().getAsync`. The model takes them as a fixed function `query` of the flag.
- The outcomes of the platform and the libraries during a tick are a `World` value. It holds the detector `createDetector` resolves to (none when it throws), the estimate or its failure, and whether the socket is OPEN. It also holds whether `Camera.setupCamera` rejects and whether constructing the new socket throws. Neither of those two calls is guarded in the source, so a throw from either ends the tick before the next frame is requested, and the render loop stops.
- The URL query string is a `map<string, string>`.

Every imperative routine of the panel and of the tick is a method. Each method is proved against a specification function, and the lemmas state what the source promises about those functions:

- `TunableRange`, `StringValueMapOf`, `FlagControls` and `StringMapsAfter` for the panel;
- `CreateDetectorOptions`, `CheckGuiUpdateSpec`, `RenderResultSpec` and `RenderPredictionSpec` for the render loop.

## Model

| member | source | states |
|---|---|---|
| Params.State.constructor | src/params.js:10-16 | the initial record: default socket address, 60 fps, size `640 X 360`, canvas shown, no input, no model, an empty tuning record, no backend, no flags, nothing dirty |
| Params.BackendsOf | src/params.js:49-52 | every family offers at least one backend, so `backends[0]` (the default backend) exists |
| Params.BackendsHaveFlags | src/params.js:40-52 | both families are in the backend table with a non-empty list, and every backend has a flag list, so the lookups by backend never fail |
| Params.BackendNamesAreKeys | src/params.js:40-48 | the declaration order used to walk the backend table lists exactly its keys, each once |
| Params.FlagsHaveNames | src/params.js:40-63 | every flag of every backend has a display name |
| Params.TableRangesAreTunable | src/params.js:29-39 | every range in the value-range table has at least two values |
| Params.DefaultSizeIsOffered | src/params.js:5-12 | the default size option is a key of the size table and stands for 640 by 360 |
| FlagRange.TunableRange | src/option_panel.js:233-256 | the range rule in the source's order: WEBGL_FORCE_F16_TEXTURES always gets [false, true]; WEBGL_VERSION gets 1, 2, ... up to its default; WEBGL_FLUSH_THRESHOLD gets -1 and then 0 to 2 in steps of 0.25; otherwise a boolean default of true gives [false, true] and false gives [false]; a number with a table entry gets that entry; anything else gets [default] |
| FlagRange.GetTunableRange | src/option_panel.js:233-256 | the push loops build exactly the range the rule assigns to the flag and its default |
| FlagRange.BooleanRange | src/option_panel.js:249-250 | outside the three special cases, a default of true gives [false, true] and is tunable; a default of false gives [false] and is not |
| FlagRange.UnlistedNumberIsUntunable | src/option_panel.js:251-255 | a non-boolean default of a flag that has no special case and no table entry gives the range [default], which is not tunable; PROD, which no backend lists, is the only such flag |
| FlagRange.TableNumberIsTunable | src/option_panel.js:251-252 | a flag that reaches the table lookup is always tunable |
| FlagRange.VersionRangeIsOneToDefault | src/option_panel.js:237-242 | the WEBGL_VERSION range is 1, 2, ... in order; it holds every whole k with 1 <= k <= default and nothing outside [1, default]; it is empty exactly when the default is below 1 |
| FlagRange.FlushRangeShape | src/option_panel.js:243-248 | whatever the default, the WEBGL_FLUSH_THRESHOLD range has 10 strictly increasing numbers, from -1 to 2 |
| FlagRange.FlushRangeIsTableEntry | src/params.js:37 | the flush-threshold range the loop builds equals that flag's table entry, whatever the default |
| FlagRange.Show | src/option_panel.js:297 | `String(v)`: `true` or `false` for a boolean; for a number, a minus sign when negative, the whole part in decimal, then `.25`, `.5`, `.75` or nothing for the remaining quarters, which is what JavaScript prints for quarter values below 10^21 |
| FlagRange.ShowInjective | src/option_panel.js:297 | `String(v)` is injective on flag values (booleans and quarter-step numbers of any sign) |
| FlagRange.StringToNatInverts | src/option_panel.js:297 | reading back the decimal digits of a natural number gives the number |
| FlagRange.StringValueMapRecovers | src/option_panel.js:293-300 | the string map of a range maps `String(v)` to v for every v in the range, and holds nothing else |
| FlagRange.StringValueMapOf | src/option_panel.js:295-299 | the string map of a range: the fold over the range, in order, that maps `String(v)` to v for each value |
| FlagRange.BuildStringValueMap | src/option_panel.js:295-299 | the loop builds the string map of the range, which recovers every value of the range |
| OptionPanel.Truthy | src/option_panel.js:20 | a URL parameter counts as given when it is present and not empty, as JavaScript's truthiness of `get` (null when absent) |
| OptionPanel.ModelParam | src/option_panel.js:63-66 | the `model` parameter, or `movenet` when it is absent or empty |
| OptionPanel.TypeParam | src/option_panel.js:67-70 | the `type` parameter, or `multipose` when it is absent or empty |
| OptionPanel.SelectModel | src/option_panel.js:72-79 | `posenet` selects PoseNet, `movenet` selects MoveNet, and any other name leaves the selection as it was |
| OptionPanel.UrlDefaults | src/option_panel.js:63-79 | a missing `model` selects MoveNet; a missing `type` means multipose; any other model name leaves the selection unchanged |
| OptionPanel.MoveNetConfigFor | src/option_panel.js:150-157 | the MoveNet record is the base record with `type` set to the given variant, or lightning when none is given; multipose also sets tracking on and threshold 0.2; every other field keeps its base value |
| OptionPanel.MultiposeScenario | src/option_panel.js:63-90 | the query `model=movenet&type=multipose` selects MoveNet with MoveNetConfig(2, multipose, 0.2, '', tracking on), while the base threshold stays 0.5 |
| OptionPanel.ConfigFor | src/option_panel.js:128-137 | the tuning record after the family's controllers are built: a copy of the PoseNet base, the MoveNet record for the variant, or, with no family (the alert case), the record as it was |
| OptionPanel.FlagLabel | src/option_panel.js:269 | a flag's label is its name from the name table when that is present and not empty, and otherwise the flag's own key |
| OptionPanel.DefaultsAreOffered | src/option_panel.js:143-160 | the PoseNet default of one pose is among the offered counts, and the MoveNet default type is among the offered types |
| OptionPanel.ControlFor | src/option_panel.js:273-289 | a range shorter than 2 gets no controller; a range that starts with a boolean gets a checkbox; any other range gets a dropdown of that range; both carry the flag's label |
| OptionPanel.FlagControl | src/option_panel.js:270-289 | a flag's controller is chosen from the tunable range of its default |
| OptionPanel.FlagControls | src/option_panel.js:266-308 | the controllers shown for a list of flags are the flags' own controllers, concatenated in the list's order |
| OptionPanel.StringMapAfter | src/option_panel.js:293-300 | showing one flag adds the map of its range when it gets a dropdown and has no map yet; otherwise the maps are unchanged |
| OptionPanel.StringMapsAfter | src/option_panel.js:266-308 | showing a list of flags applies the one-flag rule to each flag in order, so every map is built once and kept |
| OptionPanel.FlagControlShape | src/option_panel.js:273-304 | one flag gets a controller exactly when its range has two values or more; it is a checkbox when the range starts with a boolean, and otherwise a dropdown listing the range |
| OptionPanel.FlagControlsAreTunable | src/option_panel.js:266-308 | the flags that get a controller are exactly the tunable ones, in their table order |
| OptionPanel.FlagControlsOffered | src/option_panel.js:266-308 | every flag controller belongs to a listed, tunable flag, and a dropdown offers exactly that flag's range |
| OptionPanel.StringMapsAfterExtends | src/option_panel.js:293-300 | showing flags keeps every existing string map unchanged; the new maps belong to dropdown flags shown; every dropdown flag shown has one |
| OptionPanel.StringMapsAfterMatch | src/option_panel.js:293-300 | every cached string map is the map of its flag's range, before and after showing flags |
| OptionPanel.FlagSet | src/option_panel.js:206-212 | the set of a list's flags holds exactly the listed flags |
| OptionPanel.AllBackendFlagsAreTheBackendsFlags | src/option_panel.js:206-212 | walking all backends collects every flag of every backend, and only those flags |
| OptionPanel.Folder.Add | src/option_panel.js:285 | a controller is appended at the end of the folder |
| OptionPanel.Folder.Remove | src/option_panel.js:103-105 | removing the controller at a position keeps the others in order |
| OptionPanel.TrimControllers | src/option_panel.js:102-106 | controllers are removed from the end until at most the fixed count remain; the first min(n, count) are kept unchanged (the same loop is at lines 122-126 and 328-332) |
| OptionPanel.Panel.constructor | src/option_panel.js:14-97 | the panel's setup applies the URL parameters, builds the model folder and the tuning record for the chosen family, and, when a family is selected, builds the backend folder for its default backend with the flags at their queried defaults; the string maps then exist exactly for that backend's dropdown flags; with no family there are no string maps and the defaults cache stays empty |
| OptionPanel.Panel.Setup | src/option_panel.js:19-94 | the same effect on a panel that already exists: URL socket address and reconnect flag, model selection, tuning record, model folder, backend folder; existing string maps are kept, and new ones are added only for the default backend's dropdown flags; with no family the string maps and the defaults cache are unchanged |
| OptionPanel.Panel.ApplyUrlParams | src/option_panel.js:19-79 | a non-empty `wsURL` replaces the socket address and raises the reconnect flag, and nothing else is dirtied; the model becomes the URL's selection |
| OptionPanel.Panel.ShowConfigs | src/option_panel.js:90-94 | the model folder keeps its selector, then gets the family's controls; then the backend folder is rebuilt for the family's default backend, and the string maps grow only by that backend's dropdown flags; with no family the backend folder is emptied, and the backend, the flags, the defaults cache and the string maps are unchanged |
| OptionPanel.Panel.ShowModelConfigs | src/option_panel.js:120-138 | the model folder is trimmed to its selector plus the family's controllers; the tuning record is that family's record; an unknown family leaves the record unchanged |
| OptionPanel.Panel.AddPoseNetControllers | src/option_panel.js:140-145 | the tuning record becomes a copy of the PoseNet base, and the pose-count and threshold controllers are appended |
| OptionPanel.Panel.AddMoveNetControllers | src/option_panel.js:149-197 | the tuning record becomes the MoveNet record for the variant, and the type, custom-model, threshold and tracking controllers are appended |
| OptionPanel.Panel.ShowBackendConfigs | src/option_panel.js:99-118 | with a family selected, the backend becomes the family's first backend and the folder shows the selector and that backend's flags at their defaults; the call fails exactly when no family is selected, and then the backend folder has been trimmed to empty while the backend, the flags, the defaults cache and the string maps are unchanged |
| OptionPanel.Panel.ShowBackendSelector | src/option_panel.js:107-117 | an empty folder gets the `runtime-backend` selector, and then the chosen backend's flag settings |
| OptionPanel.Panel.ShowFlagSettings | src/option_panel.js:321-336 | the defaults cache is rebuilt, the backend folder is trimmed to its selector, and the backend's flag controllers follow it |
| OptionPanel.Panel.InitDefaultValueMap | src/option_panel.js:202-220 | the defaults cache holds the queried default of every backend's flags and nothing else; `STATE.flags` holds exactly the current backend's flags, each at its queried default |
| OptionPanel.Panel.QueryFlagDefaults | src/option_panel.js:207-211 | the inner loop adds exactly the listed flags to the defaults cache, each at its queried value |
| OptionPanel.Panel.CopyBackendDefaults | src/option_panel.js:215-219 | only the current backend's flags are copied into the empty `STATE.flags`, each at its default |
| OptionPanel.Panel.ShowBackendFlagSettings | src/option_panel.js:265-309 | the backend's flag controllers are appended in order, untunable flags are skipped, and the string maps are extended only for its dropdown flags |
| OptionPanel.Panel.AddFlagControllers | src/option_panel.js:267-308 | the loop appends each flag's controller in order and updates the string maps flag by flag |
| OptionPanel.Panel.ShowFlagControl | src/option_panel.js:268-304 | one flag: nothing when its range is shorter than 2, a checkbox for a boolean range, otherwise a dropdown and its string map |
| OptionPanel.Panel.CacheStringValueMap | src/option_panel.js:293-300 | a flag's string map is built only when the flag has none; an existing map is never replaced |
| OptionPanel.Panel.OnModelChange | src/option_panel.js:84-88 | choosing a family raises the model-changed flag, rebuilds the model folder and a lightning-type record (no type is passed), and resets the backend to the family's first backend with its flags; every existing string map is kept, and new ones are added only for that backend's dropdown flags |
| OptionPanel.Panel.OnBackendChange | src/option_panel.js:113-116 | choosing a backend raises the backend-changed flag, reloads the defaults and shows the new backend's flags after the selector |
| OptionPanel.Panel.OnFlagFinishChange | src/option_panel.js:301-303 | the chosen dropdown string is turned back into its typed value; that value is in the flag's range and its string is the chosen one |
| RenderLoop.ModelTypeOf | src/index.js:41-48 | the variant `lightning` gives SINGLEPOSE_LIGHTNING, `thunder` gives SINGLEPOSE_THUNDER, `multipose` gives MULTIPOSE_LIGHTNING, and any other name gives no model type |
| RenderLoop.ModelTypeRoundTrip | src/index.js:41-48 | lightning, thunder and multipose map to one model type each, and no other string maps to one |
| RenderLoop.CreateDetectorOptions | src/index.js:18-59 | there are no options exactly when no family is selected. PoseNet always gets the fixed record. MoveNet gets a model type from its variant. It carries `modelUrl` exactly when the custom model is not empty, and `enableTracking` exactly for multipose |
| RenderLoop.PanelConfigOptions | src/index.js:40-57 | a record built by the panel gives no model URL. It gives a model type exactly for the offered variants. Multipose gives MULTIPOSE_LIGHTNING with tracking on, and the other variants carry no tracking option |
| RenderLoop.DetectorReadsItsFlags | src/index.js:75 | the detector part of the check depends only on the model, flag and backend dirty flags |
| RenderLoop.CheckAdds | src/index.js:61-99 | the check only appends to the log: the camera part, then the socket part, then the detector part |
| RenderLoop.CheckClearsDirtyFlags | src/index.js:61-99 | after the check all seven dirty flags are false |
| RenderLoop.CheckSetsUpCameraOnce | src/index.js:62-67 | the camera is set up once in a check when a camera flag was set, and not at all otherwise |
| RenderLoop.CheckReconnectsSocket | src/index.js:69-73 | on a reconnect request the socket is closed once and one socket to the current address is opened; otherwise neither happens |
| RenderLoop.RebuildDisposesFirst | src/index.js:75-82 | on a change, the frame is cancelled first and then the old detector is disposed of, exactly once |
| RenderLoop.CheckDisposesBeforeCreating | src/index.js:80-89 | on a change with a detector loaded, it is disposed of exactly once, before any creation |
| RenderLoop.CheckReappliesFlags | src/index.js:84-86 | backend flags are reapplied (with the current flags and backend) exactly when a flag or the backend changed, never on a model-only change |
| RenderLoop.CheckDetectorOutcome | src/index.js:88-93 | on a change the slot holds the created detector, null when creating threw (with an alert) or no family is selected; without a change the slot is kept and nothing is disposed of or created |
| RenderLoop.CheckNeverSends | src/index.js:61-99 | the check never sends on the socket |
| RenderLoop.NullDetectorIsNeverUsed | src/index.js:114-128 | with a null detector, rendering estimates nothing and sends and draws no results |
| RenderLoop.RenderAdds | src/index.js:101-145 | rendering only appends to the log: inference, the frame drawing, then the result part |
| RenderLoop.EstimateFailureDisposes | src/index.js:118-126 | a failed estimate disposes of the detector and leaves the slot null, and nothing is sent |
| RenderLoop.SendRule | src/index.js:137-140 | rendering sends exactly once, with the poses, when they are non-empty, no model change is pending and the socket is OPEN; otherwise it sends nothing |
| RenderLoop.ResultSends | src/index.js:137-144 | the result part sends once or not at all, under the same three conditions |
| RenderLoop.CheckGuiUpdateSpec | src/index.js:61-99 | the check run to its end: the camera part, then the socket part, then the detector part, each adding its effects and clearing its own dirty flags |
| RenderLoop.CheckThrows | src/index.js:62-71 | the check throws exactly when a camera flag is set and setting the camera up rejects, or when a reconnect is requested and the socket cannot be constructed |
| RenderLoop.ThrownCheck | src/index.js:62-71 | where a throwing check stops: after the camera request with every flag still set, or after closing the old socket with the camera part done and the reconnect request still raised |
| RenderLoop.RenderResultSpec | src/index.js:110-145 | rendering: ask the detector, if any, for poses (a failure disposes of it, alerts and empties the slot); draw the frame when the canvas shows; send and draw non-empty poses when no model change is pending |
| RenderLoop.RenderPredictionSpec | src/index.js:147-155 | a tick: a throwing check ends it where the check stopped; otherwise the check, the rendering unless a model change is pending, and the request for the next frame |
| RenderLoop.TickRendersAndReschedules | src/index.js:147-155 | a tick requests the next frame exactly when its check does not throw; such a tick leaves all dirty flags false, keeps the detector the rendering left, and requests the next frame last, after the rendering's effects |
| RenderLoop.TickCompletes | src/index.js:147-155 | the tick of a check that does not throw renders, clears every dirty flag and ends with the request for the next frame |
| RenderLoop.TickStopsOnThrow | src/index.js:148 | a throwing check ends the tick, and so the loop, without requesting the next frame; the detector is untouched and nothing is sent; a camera rejection leaves every flag as it was, and a socket failure leaves the old socket closed, no new one opened and the reconnect request raised |
| RenderLoop.TickSendsAtMostOnce | src/index.js:147-155 | every send of a tick comes from the rendering, a throwing tick sends nothing, and a tick sends at most once |
| RenderLoop.CompletedTickSends | src/index.js:147-155 | the sends of a tick whose check does not throw are exactly its rendering's sends, at most one |
| RenderLoop.PingReply | src/index.js:203-211 | a message gets a reply exactly when it is `ping`, and the reply is `pong` |
| RenderLoop.App.CheckGuiUpdate | src/index.js:61-99 | reports whether the check ran to its end; if it did, its effect on the dirty flags, the detector slot and the log is the specified check; if setting the camera up or constructing the socket threw, it stopped where the source stops |
| RenderLoop.App.ReplaceDetector | src/index.js:75-98 | the end state of the detector branch: the log gains the frame cancellation, the disposal of the old detector if there was one, the reapplied flags when a flag or the backend changed, and the creation request; the slot holds the created detector or none; the model, flag and backend dirty flags are false |
| RenderLoop.App.RenderResult | src/index.js:110-145 | rendering's effect on the slot and the log is the specified rendering |
| RenderLoop.App.RenderPrediction | src/index.js:147-155 | a tick's effect is the specified tick: the check, and, unless it threw, the rendering unless a model change is pending, then the request for the next frame |
| RenderLoop.App.OnOpen | src/index.js:190-193 | opening the socket sends exactly one `pong` |
| RenderLoop.App.OnMessage | src/index.js:203-211 | a `ping` message gets exactly one `pong`, and any other message, or one without data, gets nothing |

## Left out

- Camera capture is not modelled. `Camera.setupCamera` is a logged `SetupCamera` effect, and whether it rejects is an input of the tick. The wait on the video's `readyState` and `onloadeddata` (src/index.js:102-108) is not modelled. Drawing is modelled only as the `DrawFrame` and `DrawResults` effects.
- `setBackendAndEnvFlags` and `createDetector`'s library call are foreign code. The first is the effect `ApplyBackendFlags(flags, backend)`. The second is the effect `Create(options)` with the outcome as an input.
- RenderLoop.CheckGuiUpdateSpec: `setBackendAndEnvFlags` is taken not to throw. In the source, the call at src/index.js:85 is outside any try, so a rejection would end the tick with the model-changed flag raised and the render loop stopped, just as a camera or socket failure does in the model.
- `tf.env().getAsync` is the fixed function `query`, so the defaults it reports do not change during a run.
- dat.GUI's widgets are list entries (`Field`, `Checkbox`, `Dropdown`). Its bindings write each edited value into the `STATE` field the controller is bound to. The family and the backend are the exception: `OnModelChange` and `OnBackendChange` take the chosen value and store it in `STATE.model` and `STATE.backend` themselves, so those two writes are modelled as part of the handlers. The model does not represent the writes to the other bound fields:
  - the socket address;
  - the fps, size, canvas and input fields;
  - the type, custom model, pose count, threshold and tracking fields of the tuning record;
  - the checkbox flags.
- Only the model, backend and dropdown finish-change handlers are modelled. `name()` is modelled only as the controller's label. These handlers are not modelled:
  - the fps, size, input and connect handlers, the custom-model and tracking handlers, and the flag-changed hook. Each of these raises one dirty flag.
  - the type controller's handler (src/option_panel.js:161-177). It raises the model-changed flag. Through `setValue` it turns tracking on and puts the threshold to 0.2 for multipose, and turns tracking off for the other types. That `setValue` also fires the tracking controller's own handler.
- Device enumeration through `navigator.mediaDevices` (src/option_panel.js:44-59) is browser I/O and is not modelled.
- The WebSocket transport, `alert`, `requestAnimationFrame` and `cancelAnimationFrame` are platform calls. In the render loop they appear as logged effects, together with the OPEN predicate. Console output is dropped: no effect stands for the `console.log` calls of the socket handlers (src/index.js:192, 206) or for the `console.warn` about an untunable flag (src/option_panel.js:276). The panel keeps no log, so its alert for an unsupported family (src/option_panel.js:136) is not represented; that case only leaves the tuning record as it was. `ws.onerror` and `ws.onclose` only log and alert, and are not modelled.
- `app()` (src/index.js:157-184) is not modelled: it wires the startup together through the camera, the util file and the library. Its parts are modelled: setup of the panel, the socket, and the detector options.
- The async interleaving of UI callbacks with a tick in flight is not modelled. A tick is one atomic step.
- `showBackendConfigs` is called without `await` in the model controller's handler and in `setupDatGui` (src/option_panel.js:87 and 94). In the source, `setupDatGui` and the handler return while `initDefaultValueMap` still waits on `getAsync`; at that moment `STATE.flags` is still empty and the backend folder holds only its selector. The constructor, `Setup`, `ShowConfigs` and `OnModelChange` state the state after those calls have finished, and that intermediate state is not represented.
- RenderLoop.RenderPredictionSpec: `renderResult` runs only when no model change is pending after the check. Since a tick is atomic and the check clears the model flag, the rendering always runs in the model. The stale-result race that the guard protects against is not represented.
- The BlazePose branch of `createDetector` (src/index.js:28-39) is unreachable, because the family is only ever PoseNet or MoveNet.
- Floating-point values are exact integers in quarters and hundredths. A WEBGL_VERSION default is taken as a number of quarters.
- JSON serialisation of poses is not modelled: a pose is an opaque value.
- Property names are not modelled as strings. Flags and backends are enumerations whose `Key()` gives the table's name. Because of this, `STATE.backend` indexing the flag table with an unknown name cannot be expressed. The model's `ShowBackendConfigs` reports failure when no family is selected, instead of throwing on `backends[0]`.
- The base constants cannot be changed by the panel, because Dafny constants are immutable values. The source relies on the spread copy for the same guarantee.
