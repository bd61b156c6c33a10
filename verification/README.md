# Adventure Creator ↔ Spine glue, modelled in Dafny

This project models the pieces of the Mushgirl demo's Adventure Creator (AC)
animation engine for Spine that make decisions or keep state, together with
AC's "Variable: Copy" action:

- **CompletionListener** (`completion_listener.dfy`, module `Completion`): the
  `waitingAnimation` state machine, the choice of the Spine object whose
  `Complete` event it listens to, and how many times its handler is
  registered.
- **DirectionMapper** (`direction_mapper.dfy`, module `DirectionMapping`):
  `PlayClip`'s de-duplication of `SetAnimation` calls, and
  `SetCurrentDirection`, which caches the facing direction, finds the first
  sprite-direction suffix that matches, swaps the skeleton data asset and
  re-initialises the skeleton.
- **AnimEngine_Spine** (`anim_engine_spine.dfy`, module `SpineEngine`):
  - saving and loading the four standard clip names;
  - the two-phase `isRunning` protocol of "Character: Animate"
    (`ActionCharAnimRun` / `ActionCharAnimSkip`), including `SetStandard`;
  - the requests the standard animations make of the mapper, with the
    run→walk and talk→idle fallbacks and the head-track choice;
  - `SetAnimation`'s de-duplication on clip name and loop flag;
  - the editor's expected-animation listing, `ShowExpected`.
- **ActionVarCopy** (`action_var_copy.dfy`, module `VariableCopy`):
  - resolving the two variable slots, 'from' and 'to', in `AssignValues`;
  - the guard in `Run`;
  - local↔global conversion, reference counting and retargeting;
  - the two first-match searches;
  - `CreateNew`.

The Spine runtime (`spine.dfy`, module `Spine`) is abstract. An
`AnimationState` is a map from track index to the entry playing there (clip
name, loop flag), plus the log of `SetAnimation` calls issued
(`StateView`). `SkeletonAnimation.Initialize` counts its calls and gives the
skeleton a new, empty AnimationState. A CompletionListener's registrations are
counted per AnimationState, the object whose `Complete` event it subscribes to.

In the model, a Unity component reference is a nullable Dafny reference. A C#
string is a `string`, with `""` standing for null, except in two places where
null matters: `CompletionListener.waitingAnimation` and
`DirectionMapper.currentDirection` are `Option<string>`. AC's own lookups are
inputs:
- `GetSpriteDirection()` and `HasDirections()` are the fields
  `spriteDirection` and `hasDirections` of `Char`;
- AC's variable lookups are the total functions of a `Resolver`;
- the `base.*` results of the reference methods are parameters.

The standard animations (`PlayIdle` and the others) only decide which calls to
make. They are modelled as functions returning the ordered list of requests
(`Face(suffix)` for `SetCurrentDirection`, `Play(clip, track, loop)` for
`PlayClip`).

Two quirks of the code are modelled as written:
- `UpdateVariableReferences` tests the 'to' slot against the new id, so the
  'to' id never changes.
- `IsWaiting` compares with the empty string only, so a listener that was never
  told what to wait for counts as waiting.

## Model

| member | source | states |
|---|---|---|
| `Spine.AnimationState.GetCurrent` | Assets/Characters/Mushgirl/DirectionMapper.cs:28 | The current entry of a track is returned exactly when the track has one. |
| `Spine.AnimationState.SetAnimation` | Assets/Characters/Mushgirl/DirectionMapper.cs:34 | The track now plays the clip with the given loop flag, and the call is appended to the log. |
| `Spine.SkeletonAnimation.Initialize` | Assets/Characters/Mushgirl/DirectionMapper.cs:66 | One more initialisation is counted and the data asset is kept. The skeleton gets a new AnimationState with no tracks and no calls, so no handler is registered on it yet. |
| `DirectionMapping.PlayClipOn` | Assets/Characters/Mushgirl/DirectionMapper.cs:28-34 | Afterwards the track plays the clip. A call is issued exactly when it did not already play an animation of that name, whatever the loop flag; otherwise the state is left as it was. An issued call is appended last and sets the track's entry to the clip with the requested loop flag. Other tracks are untouched. |
| `DirectionMapping.PlayClipIdempotent` | Assets/Characters/Mushgirl/DirectionMapper.cs:28-32 | Playing the same clip twice on a track is the same as playing it once, whatever the two loop flags. |
| `DirectionMapping.DirectionMapper.PlayClip` | Assets/Characters/Mushgirl/DirectionMapper.cs:24-36 | With no SkeletonAnimation or no state nothing changes; otherwise the state changes as `PlayClipOn` says. |
| `DirectionMapping.FirstMatch` | Assets/Characters/Mushgirl/DirectionMapper.cs:57-64 | Gives the first index whose `"_" + suffix` equals the direction; no earlier index matches, and it is None exactly when no index matches. |
| `DirectionMapping.NextAsset` | Assets/Characters/Mushgirl/DirectionMapper.cs:39-64 | With the cached direction, the asset is unchanged. With no sprite directions, index 0 is selected; otherwise the first matching suffix selects its index. A missing match or a null asset at the selected index, index 0 included, keeps the current asset. |
| `DirectionMapping.RepeatedDirectionIsFree` | Assets/Characters/Mushgirl/DirectionMapper.cs:41 | Repeating the last direction of a run of direction changes adds no further change, so it costs no further `Initialize`. |
| `DirectionMapping.DirectionMapper.SetCurrentDirection` | Assets/Characters/Mushgirl/DirectionMapper.cs:39-68 | The direction is cached and the data asset becomes `NextAsset`. `Initialize` is called once exactly when the direction changed, leaving a new, empty AnimationState; a repeated direction keeps the state. Requires the asset array to be at least max(1, directions) long, and a SkeletonAnimation when the direction changes (see Left out). |
| `DirectionMapping.DirectionMapper.SetSkeleteonDataAsset` | Assets/Characters/Mushgirl/DirectionMapper.cs:75-81 | A null asset never replaces the current one and leaves the SkeletonAnimation untouched, even when there is none; a non-null one replaces it. |
| `Completion.Waiting` | Assets/Characters/Mushgirl/CompletionListener.cs:85-88 | A stored clip means waiting exactly when it is null or non-empty. |
| `Completion.CompletionListener.IsWaiting` | Assets/Characters/Mushgirl/CompletionListener.cs:85-88 | A listener that was never given a clip waits. Otherwise it waits exactly when its clip is not the empty string. |
| `Completion.AfterComplete` | Assets/Characters/Mushgirl/CompletionListener.cs:95-101 | A completion of the awaited clip stops the waiting; any other name leaves `waitingAnimation` unchanged. |
| `Completion.ClearedStaysCleared` | Assets/Characters/Mushgirl/CompletionListener.cs:95-101 | Once cleared, no sequence of completion events makes the listener wait again. |
| `Completion.WaitsUntilCompleted` | Assets/Characters/Mushgirl/CompletionListener.cs:81-101 | After waiting for a clip, the listener still waits after a sequence of completions exactly when the clip is non-empty and has not completed. |
| `Completion.NeverSetWaitsForever` | Assets/Characters/Mushgirl/CompletionListener.cs:13 | A listener whose wait was never set (null) stays null and counts as waiting, whatever completes. |
| `Completion.Reregister` | Assets/Characters/Mushgirl/CompletionListener.cs:70-79 | Removing then re-adding the handler leaves it registered at least once on that source and never one extra time; other sources keep their counts. |
| `Completion.Enabled` | Assets/Characters/Mushgirl/CompletionListener.cs:22-48 | A listener just enabled beside a mapper: no clip yet, so it counts as waiting; its SkeletonAnimation is the mapper's; it has no SkeletonGraphic; it is registered exactly once, on that animation's state, or nowhere if there is none. |
| `Completion.WaitingFor` | Assets/Characters/Mushgirl/CompletionListener.cs:68-82 | After SetWaitingAnimation the listener awaits the clip, waiting exactly when it is non-empty. Its sources are kept, and it is registered on its source at least once but never one time more; other registrations are kept. |
| `Completion.CompletionListener.OnEnable` | Assets/Characters/Mushgirl/CompletionListener.cs:22-48 | Selects, in order, the mapper's SkeletonAnimation, then the object's own, then a SkeletonGraphic if none was known. One handler is added, on the AnimationState of the selected source only. |
| `Completion.CompletionListener.OnDisable` | Assets/Characters/Mushgirl/CompletionListener.cs:51-61 | One handler is removed from the AnimationState of the selected source. |
| `Completion.CompletionListener.SetWaitingAnimation` | Assets/Characters/Mushgirl/CompletionListener.cs:68-88 | `waitingAnimation` becomes the clip, and the listener waits exactly when the clip is non-empty. The handler registrations change as `Reregister` says, and the sources are kept: the listener's view becomes `WaitingFor` of the old one. |
| `Completion.CompletionListener.OnCompleteAnimation` | Assets/Characters/Mushgirl/CompletionListener.cs:95-101 | The wait changes as `AfterComplete` says; the sources and registrations are kept. |
| `SpineEngine.SavePlayerData` | Assets/Characters/Mushgirl/AnimEngine_Spine.cs:33-41 | The record holds exactly the clip names that `LoadPlayerData` restores from it: the player's current idle, walk, run and talk names. |
| `SpineEngine.LoadPlayerData` | Assets/Characters/Mushgirl/AnimEngine_Spine.cs:44-50 | The player's four clip names become those of the record; nothing else changes. |
| `SpineEngine.SaveNPCData` | Assets/Characters/Mushgirl/AnimEngine_Spine.cs:53-61 | The record holds exactly the clip names that `LoadNPCData` restores: the NPC's current four names. |
| `SpineEngine.LoadNPCData` | Assets/Characters/Mushgirl/AnimEngine_Spine.cs:64-70 | The NPC's four clip names become those of the record; nothing else changes. |
| `SpineEngine.TransferPlayerClips` | Assets/Characters/Mushgirl/AnimEngine_Spine.cs:33-50 | Saving a player and loading the record restores the same four clip names. |
| `SpineEngine.PlayStandardAnim` | Assets/Characters/Mushgirl/AnimEngine_Spine.cs:797-808 | First faces the sprite direction, then plays the clip on track 0 only when it is named; never an empty clip. |
| `SpineEngine.PlayHeadAnim` | Assets/Characters/Mushgirl/AnimEngine_Spine.cs:811-817 | Plays a named clip, looping, on the head layer; an empty name makes no request. |
| `SpineEngine.PlaySeparateHead` | Assets/Characters/Mushgirl/AnimEngine_Spine.cs:781-794 | Without a separate talking layer there is no request. With one, the head layer gets the talk clip while talking and the idle clip otherwise, never an empty one. |
| `SpineEngine.PlayIdle` | Assets/Characters/Mushgirl/AnimEngine_Spine.cs:739-743 | Faces the sprite direction first; never plays an empty clip. |
| `SpineEngine.PlayWalk` | Assets/Characters/Mushgirl/AnimEngine_Spine.cs:746-750 | Faces the sprite direction first; never plays an empty clip. |
| `SpineEngine.PlayRun` | Assets/Characters/Mushgirl/AnimEngine_Spine.cs:753-764 | Faces the sprite direction first; never plays an empty clip. |
| `SpineEngine.PlayTalk` | Assets/Characters/Mushgirl/AnimEngine_Spine.cs:767-778 | Faces the sprite direction first; never plays an empty clip. |
| `SpineEngine.StandardBaseTrack` | Assets/Characters/Mushgirl/AnimEngine_Spine.cs:781-808 | A standard animation puts exactly its clip on track 0, or nothing when the clip is unnamed; the head requests never reach track 0. |
| `SpineEngine.PlayRunBaseTrack` | Assets/Characters/Mushgirl/AnimEngine_Spine.cs:753-764 | On track 0, PlayRun plays the run clip, falling back to the walk clip when run is unnamed. |
| `SpineEngine.PlayTalkBaseTrack` | Assets/Characters/Mushgirl/AnimEngine_Spine.cs:767-778 | On track 0, PlayTalk plays the talk clip, falling back to the idle clip when talk is unnamed. |
| `SpineEngine.PlayIdleHeadTrack` | Assets/Characters/Mushgirl/AnimEngine_Spine.cs:739-743 | The head track gets the talk clip while talking and the idle clip otherwise. This happens only with a separate talking layer, and never with an empty name. |
| `SpineEngine.ClipsOnAppend` | Assets/Characters/Mushgirl/AnimEngine_Spine.cs:739-778 | The clips requested on a track by two request lists in a row are those of the first followed by those of the second. |
| `SpineEngine.ApplySetStandard` | Assets/Characters/Mushgirl/AnimEngine_Spine.cs:353-412 | A non-empty clip replaces exactly the standard it names and leaves the other three; an empty clip changes none. A new speed applies only to Walk or Run, and so does a new sound (null clears it). |
| `SpineEngine.AnimEngineSpine.SetStandardAnim` | Assets/Characters/Mushgirl/AnimEngine_Spine.cs:353-412 | The character's clips, speed scales and sounds become `ApplySetStandard` of their old values. |
| `SpineEngine.AnimEngineSpine.PlayCustomAnim` | Assets/Characters/Mushgirl/AnimEngine_Spine.cs:329-335 | The character enters the Custom state and the mapper's state becomes `CustomPlayOn` of the old one; the mapper itself stays the same. |
| `SpineEngine.CustomPlayOn` | Assets/Characters/Mushgirl/AnimEngine_Spine.cs:327-335 | Afterwards the custom clip plays on its layer, and the hide-head clip plays on the head layer when the head is hidden. |
| `SpineEngine.ClipWithDirection` | Assets/Characters/Mushgirl/AnimEngine_Spine.cs:317-321 | The clip with the direction suffix appended on request; a named clip stays non-empty. |
| `SpineEngine.AnimEngineSpine.ActionCharAnimRun` | Assets/Characters/Mushgirl/AnimEngine_Spine.cs:315-432 | See the two parts of the run protocol below. |
| `SpineEngine.AnimEngineSpine.StartAnim` | Assets/Characters/Mushgirl/AnimEngine_Spine.cs:323-413 | The first part of the run protocol below. |
| `SpineEngine.AnimEngineSpine.CustomAnim` | Assets/Characters/Mushgirl/AnimEngine_Spine.cs:327-348 | A PlayCustom with a named clip: the Custom state, the plays of `CustomPlayOn`, and, when it waits, the pause time with the listener `WaitingFor` the clip; otherwise 0 with the listener untouched. |
| `SpineEngine.AnimEngineSpine.ResetOrSetStandard` | Assets/Characters/Mushgirl/AnimEngine_Spine.cs:349-412 | ResetToIdle makes the character Idle; SetStandard applies `ApplySetStandard`; any other method changes nothing. |
| `SpineEngine.AnimEngineSpine.PollAnim` | Assets/Characters/Mushgirl/AnimEngine_Spine.cs:414-429 | The second part of the run protocol below. |
| `SpineEngine.AnimEngineSpine.WaitForCompletion` | Assets/Characters/Mushgirl/AnimEngine_Spine.cs:337-345 | Reuses the listener beside the mapper, or adds a fresh one that is enabled as `Enabled` says. The listener then becomes `WaitingFor` the clip: it keeps its sources and is never registered twice. The mapper's state is untouched. |
| `SpineEngine.AnimEngineSpine.AddListener` | Assets/Characters/Mushgirl/AnimEngine_Spine.cs:339-343 | The added listener is new, and its view is `Enabled` for the mapper's SkeletonAnimation and state. |
| `SpineEngine.CustomClipWaitsForCompletion` | Assets/Characters/Mushgirl/AnimEngine_Spine.cs:414-429 | After a waiting custom clip, later runs keep pausing exactly until a completion of that clip arrives. |
| `SpineEngine.AnimEngineSpine.ActionCharAnimSkip` | Assets/Characters/Mushgirl/AnimEngine_Spine.cs:435-466 | SetStandard behaves as a run. ResetToIdle yields Idle. PlayCustom yields Idle when it would wait with idleAfter, and otherwise Custom with the clip (direction-suffixed on request) played looping without an empty-name check. StopCustom changes nothing. |
| `SpineEngine.AnimEngineSpine.PlayCharAnim` | Assets/Characters/Mushgirl/AnimEngine_Spine.cs:820-826 | Without a mapper nothing happens; otherwise the mapper's state changes as `PlayClipOn` says. |
| `SpineEngine.AnimEngineSpine.Declare` | Assets/Characters/Mushgirl/AnimEngine_Spine.cs:24-30 | Sets the character, linear turning, sprite-based and always-update-head. |
| `SpineEngine.SetAnimationOn` | Assets/Characters/Mushgirl/AnimEngine_Spine.cs:630-647 | A call is issued exactly when the clip is named and the track does not already have that clip with that loop flag; afterwards a named clip plays there with that flag. |
| `SpineEngine.AnimEngineSpine.SetAnimation` | Assets/Characters/Mushgirl/AnimEngine_Spine.cs:630-647 | With a null target nothing changes; otherwise the state changes as `SetAnimationOn` says. |
| `SpineEngine.AnimEngineSpine.SetGraphicAnimation` | Assets/Characters/Mushgirl/AnimEngine_Spine.cs:650-667 | The SkeletonGraphic overload: the same dedup on its animation state. |
| `SpineEngine.RenderAppend` | Assets/Characters/Mushgirl/AnimEngine_Spine.cs:75-133 | The text of two runs of listing lines is the text of the first followed by that of the second. |
| `SpineEngine.AnimEngineSpine.ShowExpected` | Assets/Characters/Mushgirl/AnimEngine_Spine.cs:75-133 | The result is the text of `ExpectedListing`. That listing has one block without directions, and otherwise one headed block per direction not mirrored. |
| `SpineEngine.AnimEngineSpine.AppendExpectedBlock` | Assets/Characters/Mushgirl/AnimEngine_Spine.cs:115-128 | Appends the text of one block of expected clips. |
| `SpineEngine.ListingNamesNonEmpty` | Assets/Characters/Mushgirl/AnimEngine_Spine.cs:79-129 | The listing never names an empty clip. |
| `SpineEngine.NoHeaderInBlock` | Assets/Characters/Mushgirl/AnimEngine_Spine.cs:115-128 | A block of expected clips holds clip lines only, never a direction header. |
| `SpineEngine.ListingHeaders` | Assets/Characters/Mushgirl/AnimEngine_Spine.cs:100-113 | A direction gets a block exactly when the character has directions, the direction is one of them, and it is neither L-prefixed under LeftMirrorsRight nor R-prefixed under RightMirrorsLeft. |
| `VariableCopy.ResolveSlot` | Assets/AdventureCreator/Scripts/Actions/ActionVarCopy.cs:56-111 | A Local slot in an asset file stays unresolved with its id kept. A Component slot keeps its id. Only a Component slot yields a component. A Global or Local slot resolves its (re-assigned) id in the matching store. |
| `VariableCopy.ActionVarCopy.AssignValues` | Assets/AdventureCreator/Scripts/Actions/ActionVarCopy.cs:56-111 | Both slots become `ResolveSlot` of their old values (the 'to' slot asks for a synchronised global). The 'to' component is replaced only for a Component slot. |
| `VariableCopy.VariableSystem.CopyFromVariable` | Assets/AdventureCreator/Scripts/Actions/ActionVarCopy.cs:149 | Stands in for `GVar.CopyFromVariable`: exactly one copy of the source variable into the target, with the source's location, is appended to the call log. |
| `VariableCopy.VariableSystem.VariableChanged` | Assets/AdventureCreator/Scripts/Actions/ActionVarCopy.cs:150 | Stands in for `actionListManager.VariableChanged`: exactly one change notice is appended to the call log. |
| `VariableCopy.VariableSystem.Upload` | Assets/AdventureCreator/Scripts/Actions/ActionVarCopy.cs:134 | Stands in for `GVar.Upload`: exactly one upload of the target, with its location and runtime component, is appended to the call log. |
| `VariableCopy.RunEffects` | Assets/AdventureCreator/Scripts/Actions/ActionVarCopy.cs:129-151 | There are no calls exactly when either variable is unresolved. Otherwise the copy of 'from' into 'to' comes first and the upload of 'to' comes last. |
| `VariableCopy.ActionVarCopy.Run` | Assets/AdventureCreator/Scripts/Actions/ActionVarCopy.cs:129-138 | Returns 0 and makes exactly the calls of `RunEffects`. |
| `VariableCopy.ActionVarCopy.CopyVariable` | Assets/AdventureCreator/Scripts/Actions/ActionVarCopy.cs:141-151 | Copies and notifies only when both variables are present. |
| `VariableCopy.AssetFileLocalSlotCopiesNothing` | Assets/AdventureCreator/Scripts/Actions/ActionVarCopy.cs:66-72 | In an asset file, an action with a Local slot never copies anything. |
| `VariableCopy.ToGlobal` | Assets/AdventureCreator/Scripts/Actions/ActionVarCopy.cs:337-349 | A slot becomes (Global, new id) exactly when it was (Local, old id); any other slot is unchanged. |
| `VariableCopy.ActionVarCopy.ConvertLocalVariableToGlobal` | Assets/AdventureCreator/Scripts/Actions/ActionVarCopy.cs:333-352 | Both slots become `ToGlobal` of their old values. The result is true exactly when the base reported a change or a slot changed. |
| `VariableCopy.ToLocal` | Assets/AdventureCreator/Scripts/Actions/ActionVarCopy.cs:359-377 | A (Global, old id) slot becomes (Local, new id) only in the owning scene; any other slot is unchanged. |
| `VariableCopy.ActionVarCopy.ConvertGlobalVariableToLocal` | Assets/AdventureCreator/Scripts/Actions/ActionVarCopy.cs:355-380 | Both slots become `ToLocal` of their old values. Amended is reported for any matching Global slot, even outside the owning scene where nothing changes. |
| `VariableCopy.LocalGlobalRoundTrip` | Assets/AdventureCreator/Scripts/Actions/ActionVarCopy.cs:333-380 | Converting local→global and back restores a slot exactly when it did not already name that global variable. |
| `VariableCopy.WrongSceneKeepsSlot` | Assets/AdventureCreator/Scripts/Actions/ActionVarCopy.cs:362-376 | Outside the owning scene the global→local conversion changes no slot. |
| `VariableCopy.ReferenceCount` | Assets/AdventureCreator/Scripts/Actions/ActionVarCopy.cs:387-401 | At most 2, and 0 exactly when neither slot refers to the variable. |
| `VariableCopy.ActionVarCopy.GetNumVariableReferences` | Assets/AdventureCreator/Scripts/Actions/ActionVarCopy.cs:383-405 | The base count plus the number of slots that refer to the variable. A Component slot must also name the same live component or share a non-zero constant id. |
| `VariableCopy.Retarget` | Assets/AdventureCreator/Scripts/Actions/ActionVarCopy.cs:412-419 | A slot referring to the old id takes the new id; any other slot is unchanged. |
| `VariableCopy.RetargetRefers` | Assets/AdventureCreator/Scripts/Actions/ActionVarCopy.cs:412-419 | A retargeted slot refers to the new id exactly when it referred to the old or the new one. With distinct ids it no longer refers to the old one. |
| `VariableCopy.ActionVarCopy.UpdateVariableReferences` | Assets/AdventureCreator/Scripts/Actions/ActionVarCopy.cs:408-432 | The 'from' slot is retargeted. The 'to' slot never changes, because it is matched against the new id (as written). The count adds one per matching slot to the base count. |
| `VariableCopy.FindVar` | Assets/AdventureCreator/Scripts/Actions/ActionVarCopy.cs:276-282 | The first index whose variable has the id; no earlier one has it, and it is None exactly when none has. |
| `VariableCopy.FirstIsFound` | Assets/AdventureCreator/Scripts/Actions/ActionVarCopy.cs:321-326 | An index holding the id, with no earlier one holding it, is what `FindVar` finds. |
| `VariableCopy.ActionVarCopy.GetVariableType` | Assets/AdventureCreator/Scripts/Actions/ActionVarCopy.cs:272-285 | The type of the first variable with the id; `originalType` when there is none or no list. |
| `VariableCopy.ActionVarCopy.GetLabelString` | Assets/AdventureCreator/Scripts/Actions/ActionVarCopy.cs:317-330 | The label of the first variable with the id; "" when there is none. |
| `VariableCopy.ActionVarCopy.CreateNew` | Assets/AdventureCreator/Scripts/Actions/ActionVarCopy.cs:487-499 | The 'from' and 'to' slots are exactly the given locations, components, ids and constant ids; no parameter is bound and nothing is resolved yet. |

`ActionCharAnimRun` works in two parts.

On the first run (`isRunning` false):
- it sets `isRunning`;
- it returns `defaultPauseTime` only for a PlayCustom with a named clip, `willWait` and not `doLoop`, and 0 otherwise;
- `charState` becomes Custom for such a PlayCustom, Idle for ResetToIdle, and is otherwise kept;
- SetStandard applies `ApplySetStandard`;
- PlayCustom plays the direction-suffixed clip (and the hide-head clip) as `CustomPlayOn` says;
- a waiting PlayCustom leaves the mapper's listener waiting for that clip, as `WaitingFor` says. A listener already there keeps its sources and is registered once on its AnimationState, never twice. A newly added one is first enabled as `Enabled` says.

On a later run:
- it keeps returning `defaultPauseTime` while the listener waits;
- once it does not, it returns 0 and clears `isRunning`, and `charState` becomes Idle exactly when `idleAfter` is set;
- nothing else changes.

## Left out

- Editor GUI drawing (`CharSettingsGUI`, `ActionCharAnimGUI`, `ActionAnimGUI`, `ActionCharRenderGUI`, `ShowGUI`, `SetDirty`) is not modelled. The asset-array resize rule at Assets/Characters/Mushgirl/AnimEngine_Spine.cs:197-201 appears only as `SetCurrentDirection`'s precondition.
- The "Object: Animate" and render actions (`ActionAnimRun`, `ActionAnimSkip`, `ActionAnimLabel`, `ActionAnimAssignValues`, `ActionCharRenderRun`) are not modelled; they are outside the modelled core.
- The Spine runtime is abstract: what `SetAnimation` does beyond setting the track's entry, animation blending and when `Complete` fires. Completion events are inputs (`OnCompleteAnimation`, and the `names` of `Replay`).
- Unity component plumbing is abstract. `GetComponent`, `AddComponent`, the lazily fetched `DirectionMapper` property and `Char` are references held by the model's objects.
- A listener that `ActionCharAnimRun` adds is enabled as if its GameObject had no SkeletonAnimation or SkeletonGraphic of its own, since the mapper's SkeletonAnimation is the one the demo uses.
- `ActionCharAnimRun` and `ActionCharAnimSkip` require a DirectionMapper on the paths where AC's code looks up the listener through it unguarded (Assets/Characters/Mushgirl/AnimEngine_Spine.cs:339, :416). On a later run they also require the listener, which AC's code dereferences without a null check (:417). The null-reference exceptions of those paths are not modelled.
- `SpineEngine.PlayStandardAnim` (and so `PlayIdle`, `PlayWalk`, `PlayRun`, `PlayTalk`) always emits its `Face` request. AC's `SetDirection` dereferences the DirectionMapper unguarded (Assets/Characters/Mushgirl/AnimEngine_Spine.cs:831), so without a mapper AC's code throws there; that exception is not modelled.
- `DirectionMapping.DirectionMapper.SetCurrentDirection` requires a SkeletonAnimation when the direction changes. AC's code caches the new direction and then throws a null-reference exception (Assets/Characters/Mushgirl/DirectionMapper.cs:43, :66, or :79 for a non-null asset); that exception is not modelled.
- `SpineEngine.AnimEngineSpine.SetAnimation` requires the SkeletonAnimation's state to be set when the clip is named. AC's code throws a null-reference exception there (Assets/Characters/Mushgirl/AnimEngine_Spine.cs:637), which is not modelled.
- `Completion.CompletionListener.OnEnable`, `OnDisable` and `SetWaitingAnimation` register or remove nothing when the selected SkeletonAnimation has no state. AC's code throws a null-reference exception there (Assets/Characters/Mushgirl/CompletionListener.cs:42, :55, :72-73), which is not modelled.
- `Spine.SkeletonAnimation.Initialize` always builds a new, empty AnimationState. How spine-unity handles a missing data asset, or a starting animation name that would fill track 0, is not modelled.
- `SpineEngine.ApplySetStandard` (and `SetStandardAnim`) model a null `clip2D` as the empty string. AC's code tests only `clip2D != ""` (Assets/Characters/Mushgirl/AnimEngine_Spine.cs:355), so a null `clip2D` overwrites the named standard clip with null; the model keeps the old clip in that case.
- Floating-point values (`walkSpeedScale`, `runSpeedScale`, `newSpeed`, `defaultPauseTime`) are opaque `real`s that are only copied.
- AC's variable subsystem is abstract: `GVar.CopyFromVariable` type conversion, `Upload`, `VariableChanged`, and the `AssignVariableID`/`AssignFile`/`AssignVariable`/`AssignVariablesComponent` lookups. They are the functions of a `Resolver` or entries in a call log. The `base.*` results are parameters, and `TryAssignConstantID`'s results are `CreateNew`'s constant-id parameters.
- `AssignParentList` (finding the local-variables component) is folded into the `Resolver`'s `localVariable` lookup.
- The warning that `CopyVariable` logs when a variable is missing is not modelled.
- `SetLabel` (the editor label of the action) is not modelled. The search it uses, `GetLabelString`, is.
- `ReferencesObjectOrID` and `AssignConstantIDs` depend on GameObject identity and save-script registration and are not modelled.
- C# delegate multicast is reduced to a registration count per AnimationState.
- `SpineEngine.PlayIdle`, `PlayWalk`, `PlayRun`, `PlayTalk`: their contracts state only the first request and the absence of empty clips. The track-by-track fallbacks are separate lemmas, which assume the head layer is not track 0.
