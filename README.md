# GLB lighting test: settings, debounce, material pass and error boundary in Dafny

This project models the core of the GLB lighting test viewer. That core is the path from the control panel's widget values to what the three.js scene shows:

- **Settings holder** (`page.dfy`, module `Page`). The page holds one settings record, created from a fixed default. Every edit is merged into it right-biased (`{...prev, ...partial}`). An export record (timestamp, settings, fixed metadata) is built from it on demand. `Page.Home` is the state cell with its two handlers.
- **Control binding** (`controls.dfy`, module `Controls`). The panel has three groups of values: model selection, part colours and lighting/material/background. The part-3 and part-4 colours exist only for the 4-piece model. The groups are combined with a three-way spread. A single `updateTimeoutRef` slot debounces delivery to the page. The debounce is a pure state machine (`Step`, `Run`) over explicit events:
  - the values change (the effect re-runs);
  - a timeout fires;
  - the panel unmounts.

  `Controls.ControlsPanel` is the mutable binding; its methods are proved to follow `Step`.
- **Part-colour resolution** (`part_colors.dfy`, module `PartColors`). A node name is lower-cased and tested against the 2-piece or the 4-piece chain of substring checks, in a fixed priority order. This gives one of the colour slots `part1Color`..`part4Color`, or none. The branch chain is proved equal to a first-match lookup in a per-model pattern table.
- **Material pass** (`material_pass.dfy`, module `MaterialPass`). `applyMaterialSettings` traverses the loaded scene:
  - every standard material of a mesh is cloned once and marked (`userData.isCloned`);
  - the clone is written back into the slot it came from;
  - then it receives the clamped roughness and metalness and the resolved part colour.

  Materials and nodes are heap objects (`Material`, `Node` with a single material or a material array). The traversal is a method proved against the pure `NodeAfterPass`. Ghost owner fields record that each marked material belongs to exactly one slot. From this, the model proves that a shared, unmarked material is never written.
- **Scene rendering rules** (`scene_render.dfy`, module `SceneRender`):
  - ambient and directional light intensities with their `|| default` fallbacks and clamps;
  - the background mode (HDRI file, studio preset, flat colour);
  - contact shadows only with shadows enabled;
  - the placeholder model shown until the model file is available.
- **Error boundary** (`error_boundary.dfy`, module `Boundary`). A `hasError` state machine with an error transition, a retry transition and the render choice between children, the `fallback` prop and the built-in panel with its retry button.

`values.dfy` (module `Values`) holds the JavaScript semantics these rely on:

- values: numbers with NaN, strings and booleans;
- `undefined` as an absent key;
- truthiness;
- numeric coercion;
- `Math.max(lo, Math.min(hi, x))`;
- ASCII `toLowerCase`;
- `includes`.

Numbers are `real`s with a separate NaN. Time, the model loader and the browser's timer table become explicit events and parameters.

## Model

| member | source | states |
|---|---|---|
| Values.Clamp | src/components/Scene.tsx:77 | the result lies in `[lo, hi]`: it is `x` inside the interval and the nearer bound outside it |
| Values.ClampNum | src/components/Scene.tsx:227 | a NaN input stays NaN; a finite one is clamped into `[lo, hi]` |
| Values.FiniteNumber | src/components/Scene.tsx:76 | gives a real exactly when the value is a number and not NaN (`typeof v === 'number' && !isNaN(v)`) |
| Values.ToLower | src/components/Scene.tsx:84 | same length; every character is lower-cased (ASCII) |
| Values.LowerInitialCapital | src/components/Scene.tsx:84 | lower-casing a name whose only capital is its first letter changes only that letter |
| Values.NoCapitalNoMatch | src/components/Scene.tsx:99 | a string without capitals never includes a pattern that starts with a capital |
| Values.MissingCharNoMatch | src/components/Scene.tsx:88-111 | a string lacking one of a pattern's characters does not include that pattern |
| Values.SameLengthIncludes | src/components/Scene.tsx:88-111 | a name includes a pattern of its own length exactly when the two are equal |
| Values.LowerNeverIncludesCapital | src/components/Scene.tsx:99-111 | a lower-cased name never includes `Part1002`-style capitalised patterns, so those alternatives are dead |
| PartColors.ResolvePart | src/components/Scene.tsx:84-116 | the branch chain on the lower-cased name; the 2-piece chain never yields slot 3 or 4 (its full meaning, the first-match table lookup, is `PartColors.ResolvePartIsFirstMatch`) |
| PartColors.SelectedModel | src/components/Scene.tsx:86 | the selected model string when the setting is a string; only the exact string `2-piece.glb` selects the 2-piece chain |
| PartColors.PatternTable | src/components/Scene.tsx:86-116 | two rows for the 2-piece model, four rows for any other model, every row with a pattern |
| PartColors.FirstMatch | src/components/Scene.tsx:86-116 | none iff no row matches; otherwise the part of a matching row with no matching row before it |
| PartColors.ResolvePartIsFirstMatch | src/components/Scene.tsx:84-116 | the branch chain equals the first-match lookup of the lower-cased name in the model's table |
| PartColors.MixedCaseNameResolves | src/components/Scene.tsx:84-101 | `Part1002_mesh` resolves to slot 1 under the 4-piece model |
| PartColors.FourthPartResolves | src/components/Scene.tsx:99-114 | `part4004` resolves to slot 4 under the 4-piece model, after slots 1 to 3 fail |
| PartColors.LoweredThirdResolves | src/components/Scene.tsx:97-112 | under any model but the 2-piece one, a name that lower-cases to `part3004` resolves to slot 3, after slots 1 and 2 fail |
| PartColors.LoweredFourthResolves | src/components/Scene.tsx:97-114 | under any model but the 2-piece one, a name that lower-cases to `part4004` resolves to slot 4, after slots 1 to 3 fail |
| PartColors.SecondOfTwoPiecesResolves | src/components/Scene.tsx:86-96 | `part2006` resolves to slot 2 under the 2-piece model, after slot 1 fails |
| PartColors.UnrelatedNameResolvesToNothing | src/components/Scene.tsx:97-116 | `unrelated_prop` resolves to no slot |
| PartColors.PartColor | src/components/Scene.tsx:89-114 | a colour is chosen iff a slot matched and that slot's colour setting is truthy, and it is that setting |
| Page.DefaultSettings | src/app/page.tsx:32-45 | exactly the twelve interface fields, each with its declared type |
| Page.Merge | src/app/page.tsx:51 | keys are the union; the partial's keys carry the partial's values; all other keys keep theirs |
| Page.MergeEmptyIsIdentity | src/app/page.tsx:51 | merging an empty update changes nothing |
| Page.MergeTwiceIsMergeOnce | src/app/page.tsx:51 | merging the same update twice equals merging it once |
| Page.MergeKeepsComplete | src/app/page.tsx:51 | a well-typed update keeps a complete record complete |
| Page.Session | src/app/page.tsx:48-52 | the held settings start as the default record, and after each update every key that update carries holds the update's value |
| Page.SessionKeepsDefaultFields | src/app/page.tsx:48-52 | no sequence of updates removes a default field |
| Page.SessionStaysComplete | src/app/page.tsx:48-52 | well-typed updates keep the held record complete and well typed |
| Page.BuildExport | src/app/page.tsx:55-63 | the export carries the supplied timestamp, the settings unchanged, and metadata exactly version `1.0.0`, the fixed description and the fixed usage text |
| Page.MergeOntoDefaults | src/app/page.tsx:32-51 | merging a record holding every default field onto the defaults gives that record |
| Page.ExportRoundTrip | src/app/page.tsx:48-63 | whatever settings a session exports, merged back onto the defaults, are exactly the exported settings |
| Page.Home.constructor | src/app/page.tsx:48 | the held settings start as the default record |
| Page.Home.HandleSettingsChange | src/app/page.tsx:50-52 | the held settings become the merge of the old ones with the update |
| Page.Home.HandleExportSettings | src/app/page.tsx:54-63 | the export holds the supplied time, the held settings and the fixed metadata; nothing held changes |
| Controls.ModelGroup | src/components/ControlsPanel.tsx:15-24 | the group holds exactly `selectedModel` |
| Controls.PartGroup | src/components/ControlsPanel.tsx:27-47 | part 1 and 2 colours always; part 3 and 4 colours exactly when the model is `4-piece.glb` |
| Controls.CombinedSettings | src/components/ControlsPanel.tsx:159-164 | the update always carries the model and the first two part colours; every lighting/material/background value wins; parts 3 and 4 are present iff the 4-piece model is selected or the last group carries them |
| Controls.Combine | src/components/ControlsPanel.tsx:160-164 | the union of the three groups, a later group winning on a shared key |
| Controls.CombinedKeys | src/components/ControlsPanel.tsx:159-165 | the update carries the model, the twelve fields, and part 3 and 4 colours iff the 4-piece model is selected |
| Controls.TwoPieceKeepsHiddenPartColors | src/components/ControlsPanel.tsx:37-46 | under the 2-piece model the update leaves the held part 3 and 4 colours as they were |
| Controls.MergedUpdate | src/components/ControlsPanel.tsx:160-165 | after merging one update the page holds the panel's value for every field the update carries |
| Controls.DefaultGroupSettings | src/components/ControlsPanel.tsx:49-137 | the lighting, material and background group starts with exactly the page's twelve fields |
| Controls.DefaultPanel | src/components/ControlsPanel.tsx:15-137 | the panel starts well formed, with the `4-piece.glb` model and the part colours `#666666`, `#aaaaaa`, `#888888`, `#999999` |
| Controls.ControlDefaultsMatchPage | src/components/ControlsPanel.tsx:49-137 | the panel's initial lighting, material and background values equal the page's default record |
| Controls.FirstUpdateAgreesWithDefaults | src/components/ControlsPanel.tsx:15-136 | the first update leaves the twelve defaults unchanged and adds `4-piece.glb` and the colours `#666666`, `#aaaaaa`, `#888888`, `#999999` |
| Controls.ClearPending | src/components/ControlsPanel.tsx:152-154 | the timeout the ref names is cancelled; the ref and every other timeout are kept |
| Controls.CleanupBeforeRerunIsRedundant | src/components/ControlsPanel.tsx:150-176 | running the cleanup before the re-run gives the same state as the re-run alone |
| Controls.StepKeepsInv | src/components/ControlsPanel.tsx:150-176 | every event keeps the invariant: a live timeout is the one the ref names |
| Controls.AtMostOnePending | src/components/ControlsPanel.tsx:152-157 | at most one timeout is ever pending |
| Controls.ChangeReplacesPending | src/components/ControlsPanel.tsx:151-169 | after a change exactly one timeout is pending, the new one, holding the new values |
| Controls.EffectBody | src/components/ControlsPanel.tsx:150-169 | the ref names a fresh timeout holding the new values; every other live timeout was live before and is not the one the ref named |
| Controls.Step | src/components/ControlsPanel.tsx:150-176 | an update is delivered iff a live timeout fires without the delivery throwing, and it is that timeout's values combined; a firing retires its own timeout only; teardown cancels the timeout the ref names |
| Controls.Run | src/components/ControlsPanel.tsx:150-176 | the events in order; each event delivers at most one update |
| Controls.RunKeepsInv | src/components/ControlsPanel.tsx:150-176 | any sequence of events keeps the invariant |
| Controls.RunAppend | src/components/ControlsPanel.tsx:150-176 | running two event sequences one after the other equals running their concatenation |
| Controls.BurstLeavesLastPending | src/components/ControlsPanel.tsx:150-169 | after a burst of changes the only pending timeout carries the last values, and nothing has been delivered |
| Controls.FiringsDeliverPending | src/components/ControlsPanel.tsx:157-165 | firings alone deliver at most one update, that of the pending timeout, and none when nothing is pending |
| Controls.BurstDeliversAtMostLast | src/components/ControlsPanel.tsx:149-176 | a burst of changes followed by any firings delivers nothing or exactly the last values' update |
| Controls.BurstThenFireDeliversLast | src/components/ControlsPanel.tsx:157-169 | a burst followed by the last timeout firing delivers exactly one update, built from the last values |
| Controls.UnmountSilences | src/components/ControlsPanel.tsx:171-175 | after unmounting, no firing delivers anything |
| Controls.ThrowingDeliveryIsContained | src/components/ControlsPanel.tsx:158-168 | a throwing delivery delivers nothing and leaves the same state as a successful one |
| Controls.ControlsPanel.constructor | src/components/ControlsPanel.tsx:12 | the binding starts with an empty ref and no timeouts |
| Controls.ControlsPanel.Cleanup | src/components/ControlsPanel.tsx:171-175 | the new state is `ClearPending` of the old |
| Controls.ControlsPanel.OnValuesChange | src/components/ControlsPanel.tsx:150-169 | the new state is the state machine's step for a change |
| Controls.ControlsPanel.OnTimerFires | src/components/ControlsPanel.tsx:157-169 | the new state is the step for a firing; the page's settings are merged with the delivered update iff one is delivered |
| Controls.ControlsPanel.OnUnmount | src/components/ControlsPanel.tsx:171-175 | the new state is the step for unmounting |
| SceneRender.IntensityOr | src/components/Scene.tsx:227 | a falsy setting (absent, 0, NaN) gives the fallback; a non-zero number is clamped; NaN only for a truthy non-numeric value |
| SceneRender.Ambient | src/components/Scene.tsx:225-228 | colour is the setting when truthy, else `#ffffff`; intensity is the setting or 0.5, within `[0, 5]` |
| SceneRender.Directional | src/components/Scene.tsx:231-234 | intensity is the setting or 1, within `[0, 10]`; shadows are cast iff `enableShadows` is truthy |
| SceneRender.NumericIntensitiesStayInBounds | src/components/Scene.tsx:227-233 | numeric or absent intensities always give finite intensities within bounds |
| SceneRender.HdriFill | src/components/Scene.tsx:255 | half the HDRI intensity for a number; NaN when the setting is absent |
| SceneRender.ChooseBackdrop | src/components/Scene.tsx:247-272 | HDRI file iff the type is `hdri`; studio preset with `#f0f0f0` iff `studio`; both with the half-intensity fill; otherwise the flat background colour |
| SceneRender.Placeholder | src/components/Scene.tsx:149-192 | four meshes `Part1002`..`Part4004`, each with its part's colour and the raw roughness and metalness |
| SceneRender.PlaceholderNamesResolveToTheirParts | src/components/Scene.tsx:155-185 | under any model but the 2-piece one, each placeholder name resolves to the slot whose colour it is drawn with |
| SceneRender.Describe | src/components/Scene.tsx:274-311 | the backdrop, ambient and directional lights are those the settings choose; contact shadows appear iff `enableShadows` is truthy (so iff the light casts shadows), with the opacity setting; the placeholder, with the settings' four meshes, shows iff the model is not loaded |
| MaterialPass.UnitSetting | src/components/Scene.tsx:76-81 | a non-NaN number is clamped into `[0, 1]` and replaces the value; anything else keeps the current value |
| MaterialPass.ColorFor | src/components/Scene.tsx:84-116 | a colour for the node iff its lower-cased name resolves to a slot whose colour setting is truthy, and then it is that setting |
| MaterialPass.SlotAfterPass | src/components/Scene.tsx:61-119 | non-standard materials unchanged; standard ones marked, flagged for update, given the unit settings; colour changes only to the resolved truthy part colour |
| MaterialPass.NodeAfterPass | src/components/Scene.tsx:53-124 | a mesh has every slot processed in place; any other node is unchanged |
| MaterialPass.PassIsIdempotent | src/components/Scene.tsx:50-132 | a second pass with the same settings changes nothing |
| MaterialPass.PassMarksEveryStandardMaterial | src/components/Scene.tsx:63-73 | after a pass every standard material of a mesh is marked, so a later pass clones nothing |
| MaterialPass.ClearedColorIsKept | src/components/Scene.tsx:86-116 | a later pass whose part colour is falsy keeps the colour an earlier pass wrote |
| MaterialPass.LaterNumericSettingWins | src/components/Scene.tsx:76-81 | a numeric roughness or metalness of a later pass overrides the earlier pass |
| MaterialPass.TwoPieceIgnoresThirdAndFourthColors | src/components/Scene.tsx:86-96 | with the 2-piece model, the part 3 and 4 colours have no effect on any material |
| MaterialPass.Material.Clone | src/components/Scene.tsx:64 | the clone has the source's properties, with no update pending |
| MaterialPass.ProcessSlot | src/components/Scene.tsx:60-119 | the resulting material's state is `SlotAfterPass` of the old one; an unmarked standard material is replaced by a fresh clone, any other material is kept |
| MaterialPass.ProcessListSlot | src/components/Scene.tsx:59-68 | slot `j` of the array is processed and written back, holding a fresh clone exactly when its material was standard and unmarked and the same object otherwise; every other slot keeps its object and state |
| MaterialPass.ApplyToList | src/components/Scene.tsx:57-73 | every slot of the array processed; a slot holds a fresh clone exactly when its material was standard and unmarked, and keeps its object otherwise |
| MaterialPass.ApplyToSingle | src/components/Scene.tsx:57-71 | the single material processed; it is replaced by a fresh clone exactly when it was standard and unmarked, and kept otherwise; a null material is skipped |
| MaterialPass.ApplyToNode | src/components/Scene.tsx:55-124 | the node's new state is `NodeAfterPass` of its old state; its clones stay its own; clone-once (`CloneOnce`): on a mesh, a standard unmarked material is replaced in its own slot by a fresh object, and every other slot, and every slot of a non-mesh, keeps its object |
| MaterialPass.MarkedNodeKeepsItsObjects | src/components/Scene.tsx:63-73 | a visit to a node whose standard materials are all marked keeps every slot's object, so a second pass allocates nothing new |
| MaterialPass.Node.Slots | src/components/Scene.tsx:57 | a material array is used as it is; a single material is a one-slot list, and a null material gives no slot |
| MaterialPass.OwnerOfMarked | src/components/Scene.tsx:62-73 | a marked standard material in a node's slot was cloned for that node |
| MaterialPass.OwnedNotShared | src/components/Scene.tsx:62-73 | two nodes share no material the pass may write |
| MaterialPass.ApplyToSceneNode | src/components/Scene.tsx:53-128 | the visited node ends as `NodeAfterPass` of its old state, with clone-once for its slots; every other node, its array and its materials are untouched |
| MaterialPass.ApplyMaterialSettings | src/components/Scene.tsx:50-132 | every node ends as `NodeAfterPass` of its old state; only nodes, their arrays and their own clones are written |
| Boundary.GetDerivedStateFromError | src/components/ErrorBoundary.tsx:21-23 | the new state has `hasError` set and records the error |
| Boundary.AfterRetry | src/components/ErrorBoundary.tsx:40 | `hasError` is cleared; the recorded error stays, because `setState` merges |
| Boundary.ErrorBoundary.RenderNow | src/components/ErrorBoundary.tsx:29-63 | on the component's current state and props: the children iff no error; with an error, the `fallback` prop if given, else the built-in panel |
| Boundary.Render | src/components/ErrorBoundary.tsx:29-63 | children iff no error; with an error, the `fallback` prop if given, else the built-in panel |
| Boundary.RetryOnlyOnPanel | src/components/ErrorBoundary.tsx:30-59 | the retry panel shows iff there is an error and no fallback |
| Boundary.ErrorHidesChildren | src/components/ErrorBoundary.tsx:21-31 | after an error the children are not rendered |
| Boundary.RetryRestoresChildren | src/components/ErrorBoundary.tsx:40-62 | retrying after an error renders the children again |
| Boundary.ErrorBoundary.constructor | src/components/ErrorBoundary.tsx:16-19 | the boundary starts without an error |
| Boundary.ErrorBoundary.CatchError | src/components/ErrorBoundary.tsx:21-23 | the state becomes the derived error state |
| Boundary.ErrorBoundary.Retry | src/components/ErrorBoundary.tsx:40 | the state becomes `AfterRetry` of the old one |

## Left out

- Rendering by three.js, react-three-fiber and drei is not modelled: `Canvas` and its `shadows` prop, the camera, tone mapping, `OrbitControls`, the `ContactShadows` visuals and `Environment` loading are foreign libraries. Only which elements appear, and with which settings, is modelled.
- The directional light's position (src/components/Scene.tsx:205-220) is trigonometric floating-point work and is not modelled.
- GLB loading through `useGLTF` and `Suspense` is an asynchronous external loader. It appears only as the `sceneLoaded` flag of `SceneRender.Describe`, which chooses between the placeholder and the loaded model.
- Real time is not modelled: the 100 ms `setTimeout` is the `TimerFires` event. The `requestAnimationFrame` deferral and cancellation of the material pass (src/components/Scene.tsx:134-139) are left out; the pass is modelled as running when called.
- Leva widget schemas are library UI and are not modelled: ranges, steps, labels, folders and buttons. Only the default values are modelled.
- Export I/O is not modelled: `JSON.stringify`, the data URI, the anchor click, `alert` and console logging. The ISO-8601 timestamp is a parameter. The reset button's `window.location.reload()` is also left out.
- Colour strings are opaque values: the parsing inside `material.color.set` is not modelled.
- Values.ToLower: lower-cases ASCII letters only; JavaScript's `toLowerCase` also folds non-ASCII letters.
- Values.ToNumber: strings other than the empty string coerce to NaN; numeric strings are not parsed.
- MaterialPass.ApplyMaterialSettings: its contract gives every node's material states, not which objects sit in the slots. Clone-once is stated and proved per visit, in `MaterialPass.ApplyToNode` and `MaterialPass.ApplyToSceneNode`, and is not carried up through the traversal's loop.
- MaterialPass.ApplyMaterialSettings: the `try`/`catch` around each material, each node and the whole pass (src/components/Scene.tsx:51-131) is not modelled, because no modelled step throws.
- MaterialPass.ApplyMaterialSettings: requires `SceneOk`: the nodes are distinct, no two meshes share one material array, and every marked material is its slot's own clone. Every pass keeps it. It excludes two cases the `traverse` callback (src/components/Scene.tsx:57-72) accepts. One is a model file that ships materials already marked `isCloned` and shared between meshes. The other is two meshes sharing one material array, even in a freshly loaded scene. The source writes the first mesh's clone into the shared array; the second mesh then finds that clone already marked and writes its own part colour onto it, so the first mesh shows the second mesh's colour. The model does not capture that overwrite. Two meshes sharing one unmarked single material are covered: each mesh clones it for itself.
- MaterialPass.ApplyToSceneNode: requires the same `SceneOk` as `MaterialPass.ApplyMaterialSettings`, so it has the same exclusions: materials shipped already marked and shared between meshes, and meshes sharing one material array.
- The `componentDidCatch` console logging of the error boundary is left out. The boundary is not used by the page (src/app/page.tsx), so it is modelled on its own.
- The scene's `traverse` order is given as a sequence of nodes; the parent/child tree itself is not modelled.
- The export's metadata is exactly version, description and usage, as src/app/page.tsx:58-62 builds it.
