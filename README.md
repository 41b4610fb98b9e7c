# RPG_Game core, modelled in Dafny

This project models two parts of the RPG_Game Unity repository and proves properties of them.

The first is the scene repair tool `Tools/fix_unity_scene_duplicate_ids.py`. It repairs a Unity `.unity` scene that a merge has broken by duplicating local `fileID`s. It runs three sanitize passes:

- bad `fileID:` tokens (letter suffixes, values outside 32 bits) get fresh ids, one per distinct token text;
- section headers with an invalid `&id` get fresh ids. The pass also rewrites every `fileID:` reference to the old id, but the token pass has already given each such reference a different fresh id of its own. So the references to such a section end up matching neither its old id nor its new one;
- repeated header ids are made unique, rewriting references inside the renumbered section only.

It then groups the sections by the occurrences of each duplicated GameObject id. Every later occurrence, and the sections bound to it by an `m_GameObject: {fileID: …}` line, get fresh ids, and the references inside those sections are rewritten.

The second part is the C# gameplay scripts that change state:

- the skill tree slots and the skill manager's stat boosts;
- the player's health and the enemy's attack on it;
- the audio manager's music selection;
- the menu GIF player's playback cursor;
- the scene-transition trigger.

The model has one module per concern:

- DecimalText: the decimal text of integers (`str`, `int`, `ToString`).
- Int32: C#'s 32-bit `int`, whose unchecked `+=` and unary `-` wrap around modulo 2^32.
- `SceneYaml`, `SceneRewrite`, `SceneSanitize`, `SceneGroups`, `SceneFix`: the repair tool. The file is an `array<Line>` changed in place. Each line is already recognised as a section header, a GameObject binding line or another line, and is split into text and `fileID:` tokens.
- SkillTree: `SkillSlot.cs`, `SkillManager.cs` and the stat updates of `StatsManager.cs`.
- `Player`, `Combat`: `PlayerHealth.cs`, the knockback entry of `PlayerMovement.cs`, and `Enemy_Combat.cs`.
- Audio: `AudioManager.cs`.
- GifPlayback: `GifFromUrl.cs`.
- Transition: `SceneTransition.cs` and the spawn-point handoff slot of `GameManager.cs`, whose `Instance` may be null.

Every class method is proved against a pure function or predicate of its state. The properties are lemmas about those functions.

Among the results:

- the repair's "duplicates were found but no changes were necessary" exit is unreachable;
- the sanitize passes assign identical bad tokens identical ids;
- a reference to a section with an invalid header id is orphaned by the first two passes;
- the group loop leaves every line it does not own unchanged, never creates a binding to an id already in use, and leaves first occurrences without binding lines untouched;
- after the three sanitize passes, which the repair composes exactly, every header id is distinct;
- a heal past `int.MaxValue` wraps the player's health negative and deactivates the player;
- a scene trigger requests at most one load;
- resuming a non-looping GIF after it has finished reads one frame past the end of the frame list.

## Model

| member | source | states |
|---|---|---|
| DecimalText.ValueOfDecimal | Tools/fix_unity_scene_duplicate_ids.py:124-127 | reading back the decimal text written for an id (`int(str(n))`) gives that id |
| DecimalText.DecimalInjective | Tools/fix_unity_scene_duplicate_ids.py:124-127 | distinct ids are written as distinct text |
| DecimalText.DecimalPairReadsBack | Assets/Scripts/SkillTree/SkillSlot.cs:57 | two integers written around a separator such as `/` can both be read back |
| SceneYaml.ParseSections | Tools/fix_unity_scene_duplicate_ids.py:55-73 | the sections are in file order, one per header line, each carrying its header's class and id, each running to the next header or to the end of the file; lines before the first header belong to none |
| SceneYaml.ParsedIsOrdered | Tools/fix_unity_scene_duplicate_ids.py:55-73 | parsed sections do not overlap, later ones lie after earlier ones, and each starts at a header line inside the file |
| SceneRewrite.NextFreeId | Tools/fix_unity_scene_duplicate_ids.py:80-89 | the least id at or above the base 2000000000 that is not in use, which is then added to the ids in use |
| SceneRewrite.HeaderReplaceFileId | Tools/fix_unity_scene_duplicate_ids.py:92-98 | only the section's header line changes, and only its `&id` anchor |
| SceneRewrite.ReplaceFileIdInRange | Tools/fix_unity_scene_duplicate_ids.py:101-113 | every line in the range has its tokens of the old id retargeted to the new id; lines outside the range are untouched |
| SceneRewrite.ReplaceFileIdGlobally | Tools/fix_unity_scene_duplicate_ids.py:115-133 | every line of the file is retargeted, and the count returned is the number of lines the retarget changed |
| SceneRewrite.RetargetLineEffect | Tools/fix_unity_scene_duplicate_ids.py:108-113 | a retarget keeps the line's kind and every other piece; each token of the old value now reads as the new id and keeps its suffix |
| SceneRewrite.RetargetChangesLine | Tools/fix_unity_scene_duplicate_ids.py:129-132 | a line counts as changed exactly when it holds a token of the old value not already written as the new id |
| SceneRewrite.RetargetAfterRemap | Tools/fix_unity_scene_duplicate_ids.py:373-376 | applying the pairs of a remap one at a time equals one simultaneous remap, as long as no new id is also an old id |
| SceneSanitize.InvalidIdIsOutside32Bits | Tools/fix_unity_scene_duplicate_ids.py:212 | the 64-bit test is subsumed: an id is invalid exactly when it lies outside the 32-bit range |
| SceneSanitize.IdFor | Tools/fix_unity_scene_duplicate_ids.py:255-259 | a key already remapped keeps its id; a new key gets an id that is fresh, at or above the base, and distinct from every id already given |
| SceneSanitize.SanitizeLine | Tools/fix_unity_scene_duplicate_ids.py:220-235 | every bad token of the line becomes `fileID: <id>` for its token text, with the suffix dropped; new token texts get fresh distinct ids; the count is the number of bad tokens |
| SceneSanitize.SanitizeInvalidFileIds | Tools/fix_unity_scene_duplicate_ids.py:195-239 | every line is fixed with one map whose keys are exactly the bad token texts of the file; its ids are fresh and distinct, they are added to the ids in use, and the total is the number of bad tokens |
| SceneSanitize.FixPieceConsistent | Tools/fix_unity_scene_duplicate_ids.py:197-199 | two bad tokens get the same replacement exactly when their texts are equal |
| SceneSanitize.FixedLineIsClean | Tools/fix_unity_scene_duplicate_ids.py:204-214 | once every replacement id is within 32 bits, a fixed line holds no bad token |
| SceneSanitize.NoBadTokensNoChange | Tools/fix_unity_scene_duplicate_ids.py:216-237 | a file with no bad token is left unchanged by the token pass |
| SceneSanitize.SanitizeInvalidSectionHeaders | Tools/fix_unity_scene_duplicate_ids.py:242-265 | the remap's keys are exactly the invalid header ids, with fresh distinct images; every line ends up with its tokens and header anchor remapped; the count is the number of sections with an invalid id |
| SceneSanitize.InvalidHeaderIdsMembers | Tools/fix_unity_scene_duplicate_ids.py:252-259 | an id is remapped by the header pass exactly when it is invalid and some section carries it |
| SceneSanitize.InvalidHeaderCountZero | Tools/fix_unity_scene_duplicate_ids.py:250-265 | the header pass reports no change exactly when its remap is empty |
| SceneSanitize.RenumberSection | Tools/fix_unity_scene_duplicate_ids.py:284-286 | the section's header takes the new id, and its own references to the old id follow inside the section only |
| SceneSanitize.SanitizeDuplicateSectionHeaders | Tools/fix_unity_scene_duplicate_ids.py:268-288 | exactly the sections whose id appeared in an earlier section are renumbered, to fresh distinct ids; the count is the number of sections minus the number of distinct ids; only those sections' lines change |
| SceneSanitize.DedupedIdsDistinct | Tools/fix_unity_scene_duplicate_ids.py:268-275 | after the duplicate-header pass every section header carries a distinct id |
| SceneSanitize.DedupedAnchor | Tools/fix_unity_scene_duplicate_ids.py:268-288 | after the duplicate-header pass, each section's header line carries that section's deduplicated id |
| SceneSanitize.DedupedAnchorsDistinct | Tools/fix_unity_scene_duplicate_ids.py:268-288 | after the duplicate-header pass, no two section header lines of the file carry the same id |
| SceneSanitize.IdsOfAllDistinct | Tools/fix_unity_scene_duplicate_ids.py:276-282 | when the ids are already distinct, no section repeats an earlier id |
| SceneGroups.FindGoOccurrenceIndices | Tools/fix_unity_scene_duplicate_ids.py:136-137 | exactly the indices of the GameObject sections with that id, in increasing order |
| SceneGroups.GoOccurrences | Tools/fix_unity_scene_duplicate_ids.py:150-154 | the GameObject ids in order of first occurrence, each mapped to all its occurrences |
| SceneGroups.OccurrenceGroups | Tools/fix_unity_scene_duplicate_ids.py:157-167 | occurrence `j` of a duplicated id owns the sections from itself up to the next occurrence, or to the end of the file |
| SceneGroups.BuildGoGroups | Tools/fix_unity_scene_duplicate_ids.py:140-168 | the groups are those of the ids that occur at least twice, ids in first-seen order and occurrences in file order |
| SceneGroups.GoGroupsSound | Tools/fix_unity_scene_duplicate_ids.py:157-167 | every group belongs to an id occurring at least twice and owns that occurrence's range |
| SceneGroups.GoGroupsComplete | Tools/fix_unity_scene_duplicate_ids.py:157-167 | every occurrence of every duplicated id has its group |
| SceneGroups.SectionBindsGo | Tools/fix_unity_scene_duplicate_ids.py:184-189 | true exactly when some line of the section binds a component to that GameObject id |
| SceneGroups.KeepSection | Tools/fix_unity_scene_duplicate_ids.py:179-191 | a section is kept exactly when it is the GameObject itself or binds to it |
| SceneGroups.KeptOf | Tools/fix_unity_scene_duplicate_ids.py:171-192 | the kept sections are exactly the owned ones that are kept, in order, and never more of them |
| SceneGroups.FilterOwnedByTextBinding | Tools/fix_unity_scene_duplicate_ids.py:171-192 | the result is the owned sections that are kept, in their order |
| SceneGroups.GroupOwnedValid | Tools/fix_unity_scene_duplicate_ids.py:160-167 | a group owns valid section indices in increasing order, the first being its own GameObject section |
| SceneGroups.GroupKeepsItsGameObject | Tools/fix_unity_scene_duplicate_ids.py:179-183 | filtering always keeps the group's own GameObject section |
| SceneGroups.LaterGroupSkipsFirst | Tools/fix_unity_scene_duplicate_ids.py:160-167 | the group of a later occurrence never owns the first occurrence |
| SceneFix.AllocateGroupIds | Tools/fix_unity_scene_duplicate_ids.py:346-363 | the GameObject id, then each owned section id not yet mapped, get fresh distinct ids |
| SceneFix.ReanchorHeaders | Tools/fix_unity_scene_duplicate_ids.py:365-370 | every owned header takes the new id of its section id; the count is the number of owned sections |
| SceneFix.RemapRange | Tools/fix_unity_scene_duplicate_ids.py:375-376 | applying the remap's pairs one by one over a range is the simultaneous remap of the range |
| SceneFix.RemapOwnedSections | Tools/fix_unity_scene_duplicate_ids.py:372-376 | the references inside every owned section are remapped |
| SceneFix.FixGroup | Tools/fix_unity_scene_duplicate_ids.py:346-376 | the remap covers exactly the GameObject id and the owned section ids, with fresh distinct images; every owned line is reassigned; lines outside the owned sections are untouched |
| SceneFix.ReassignedReference | Tools/fix_unity_scene_duplicate_ids.py:372-376 | inside an owned section, a token of a remapped id now reads as its new id and keeps its suffix; other pieces are kept |
| SceneFix.ReassignedHeader | Tools/fix_unity_scene_duplicate_ids.py:365-370 | an owned header whose section id is remapped ends up with the new id, which was not in use before |
| SceneFix.FixLaterGroup | Tools/fix_unity_scene_duplicate_ids.py:342-376 | the sections of a later occurrence's range that bind to its GameObject (over the current lines) are kept; the remap covers the GameObject id and their ids with fresh distinct images, added to the ids in use; every line of a kept section is reassigned and every other line is unchanged; at least one header changes |
| SceneFix.FixGroupAt | Tools/fix_unity_scene_duplicate_ids.py:336-376 | a first occurrence changes nothing; a later one is fixed as above; the file keeps its shape |
| SceneFix.ReassignBinding | Tools/fix_unity_scene_duplicate_ids.py:372-376 | a reassigned line binds to an id other than a new one only if it bound to it before: the group loop never creates a binding to an existing id |
| SceneFix.ReassignAnchor | Tools/fix_unity_scene_duplicate_ids.py:365-370 | a reassigned header keeps its id or takes one of the new ids |
| SceneFix.KeptShrinks | Tools/fix_unity_scene_duplicate_ids.py:171-192 | when no line has come to bind to the GameObject id, the filter keeps no section it would not have kept over the loop's starting lines |
| SceneFix.ChangedMeansTouched | Tools/fix_unity_scene_duplicate_ids.py:334-376 | a line one group changes lies in a section that group keeps over the loop's starting lines |
| SceneFix.GroupLoopStep | Tools/fix_unity_scene_duplicate_ids.py:334-376 | fixing one more group keeps the loop's promise: shape kept, every added id fresh, a line no group so far touches unchanged, a changed header id not previously in use, no new binding to an id in use |
| SceneFix.FixGroupList | Tools/fix_unity_scene_duplicate_ids.py:334-376 | after every group, that promise holds over the whole group list; the total is positive unless every group is a first occurrence |
| SceneFix.NotTouchingFirst | Tools/fix_unity_scene_duplicate_ids.py:160-192 | no later occurrence's group keeps a line of a GameObject's first occurrence, when that section has no binding line |
| SceneFix.FirstOccurrenceUntouched | Tools/fix_unity_scene_duplicate_ids.py:334-339 | after the group loop, the first occurrence of every GameObject without binding lines is exactly as it was |
| SceneFix.FixGroups | Tools/fix_unity_scene_duplicate_ids.py:334-376 | the group loop's promise over all groups; first occurrences without binding lines are untouched; whenever there is any group, at least one header changes |
| SceneFix.LaterOccurrenceExists | Tools/fix_unity_scene_duplicate_ids.py:328-337 | whenever there are groups, one of them is a later occurrence |
| SceneFix.InvalidHeaderReferenceOrphaned | Tools/fix_unity_scene_duplicate_ids.py:216-263 | a reference to a section with an invalid header id ends up matching neither the header's old id nor its new one: the token pass gave it its own fresh id first |
| SceneFix.DedupedHeadersDistinct | Tools/fix_unity_scene_duplicate_ids.py:268-288 | the headers the duplicate-header pass leaves frame its sections and carry pairwise distinct ids |
| SceneFix.SanitizedAnchorsDistinct | Tools/fix_unity_scene_duplicate_ids.py:310-325 | after all three sanitize passes, no two headers of the sections the group loop works from carry the same id |
| SceneFix.TokenPassEffect | Tools/fix_unity_scene_duplicate_ids.py:313 | the token pass keeps each line's kind and the file's length, and changes nothing when no token is bad |
| SceneFix.HeaderIdPassEffect | Tools/fix_unity_scene_duplicate_ids.py:318 | the header pass keeps the shape, moves anchors into the new ids, and changes nothing with an empty remap |
| SceneFix.DedupPassEffect | Tools/fix_unity_scene_duplicate_ids.py:324 | the duplicate-header pass keeps the shape, and changes nothing when it renumbers nothing |
| SceneFix.NothingRenumbered | Tools/fix_unity_scene_duplicate_ids.py:276-282 | with distinct section ids the duplicate-header pass renumbers nothing |
| SceneFix.TokenPass | Tools/fix_unity_scene_duplicate_ids.py:310-315 | the used ids start as the parsed section ids; every line becomes `FixLine` of its old value under the token remap, whose keys are exactly the bad token texts and whose ids are fresh (outside the section ids, at least 2000000000) and distinct; the used set grows by exactly those ids; the fresh parse frames the new lines and its ids are in use; a zero count means the file is unchanged and had no bad token |
| SceneFix.HeaderPass | Tools/fix_unity_scene_duplicate_ids.py:317-323 | every line becomes `RemapLine` of its old value under the header remap, whose keys are exactly the invalid header ids of the sections and whose ids are fresh and distinct; the used set grows by exactly those ids; the fresh parse frames the new lines and its ids are in use; a zero count means the file is unchanged |
| SceneFix.DedupPass | Tools/fix_unity_scene_duplicate_ids.py:324-325 | exactly the sections whose id an earlier section already carries are renumbered, to fresh distinct ids, and the lines change as `DedupLines` says: the renumbered sections' headers and self-references take the new id, every other line is kept; the used set grows by exactly those ids; a zero count means the file is unchanged |
| SceneFix.SanitizePasses | Tools/fix_unity_scene_duplicate_ids.py:310-325 | `SanitizedBy`: the new file is the composition of the three passes (token remap, re-parse, header remap, re-parse, duplicate renumbering), each pass drawing fresh distinct ids outside those in use before it, and the used set is the first parsed ids plus the ids all three passes drew; the returned sections frame the new file and no two of their headers carry the same id; a zero total means the file is unchanged and had no bad token |
| SceneFix.FixSceneLines | Tools/fix_unity_scene_duplicate_ids.py:305-382 | "no sections" exactly when no line is a header; the no-section and nothing-to-fix exits leave the file unchanged; the "no changes were necessary" exit is never reached; an applied fix reports a positive count; for an applied fix the sanitized file is the input under `SanitizedBy` (the three passes composed), the ids in use before the group loop are the input's section ids plus every id the passes drew, and the sanitized headers carry distinct ids; relative to the sanitized file: a line no group touches is unchanged, new ids are fresh, no new binding to an id in use, and first occurrences without binding lines are untouched |
| SkillTree.LevelLabelReadsBack | Assets/Scripts/SkillTree/SkillSlot.cs:54-65 | two labels are equal exactly when both slots are locked, or both are unlocked with the same level and maximum |
| SkillTree.UnlockedLabelIsNotLocked | Assets/Scripts/SkillTree/SkillSlot.cs:54-65 | an unlocked slot's label is never `Locked` |
| SkillTree.SkillSlot.constructor | Assets/Scripts/SkillTree/SkillSlot.cs:26-32 | a slot set up in the inspector (`OnValidate`) shows its label and button state |
| SkillTree.SkillSlot.UpdateUI | Assets/Scripts/SkillTree/SkillSlot.cs:50-66 | the label is `level/max` and the button is interactable when unlocked; otherwise `Locked` and not interactable |
| SkillTree.SkillSlot.TryUpgradeSkill | Assets/Scripts/SkillTree/SkillSlot.cs:34-48 | an unlocked slot below its maximum gains exactly one level, raises `OnAbilityPointSpent` once, and raises `OnSkillMaxed` on reaching the maximum; any other slot changes nothing and raises nothing; a level within the maximum stays within it |
| SkillTree.SkillSlot.CanUnlockSkill | Assets/Scripts/SkillTree/SkillSlot.cs:68-78 | true exactly when every prerequisite is unlocked and at its maximum, so true with no prerequisites |
| SkillTree.SkillSlot.Unlock | Assets/Scripts/SkillTree/SkillSlot.cs:80-84 | the slot is unlocked with its level kept, and its label redrawn |
| SkillTree.HandleAbilityPointSpend | Assets/Scripts/SkillTree/SkillManager.cs:52-75 | each of the three known skill names raises exactly its own stat by one in 32-bit arithmetic; only the maximum-health boost redraws the health text, as `Hp: current/max`; any other name changes nothing |
| Int32.Wrap | Assets/Scripts/PlayerHealth.cs:20 | the result of unchecked 32-bit arithmetic: the one value of the range that agrees with the exact result modulo 2^32, the exact result itself when it fits |
| Int32.WrapUnique | Assets/Scripts/PlayerHealth.cs:20 | no other 32-bit value agrees with the exact result modulo 2^32 |
| Int32.WrapInner | Assets/Scripts/Enemy_Combat.cs:19 | wrapping an intermediate result (the negated damage) does not change the final one |
| Int32.PositiveAddOverflow | Assets/Scripts/PlayerHealth.cs:20-26 | adding a positive amount lowers an `int` exactly when the exact sum passes `int.MaxValue`, and the wrapped sum is then negative |
| Player.HealthLabelReadsBack | Assets/Scripts/PlayerHealth.cs:13-22 | the health text gives back both the current and the maximum health |
| Player.PlayerHealth.constructor | Assets/Scripts/PlayerHealth.cs:13-16 | at start the text shows the inspector's health values |
| Player.PlayerHealth.ChangeHealth | Assets/Scripts/PlayerHealth.cs:18-27 | health moves by exactly the amount when the sum fits in 32 bits, and otherwise wraps to the value agreeing with it modulo 2^32, with no clamp; the maximum is kept; the text animation plays once and the text is redrawn; the player is deactivated when health drops to zero or below, which a positive amount whose exact sum passes `int.MaxValue` brings about |
| Combat.EnemyCombat.Attack | Assets/Scripts/Enemy_Combat.cs:13-22 | with no collider in range nothing happens; otherwise only the first collider loses exactly the enemy's damage (modulo 2^32 when the difference leaves the 32-bit range), its text animation plays once, its text is redrawn, it is deactivated at zero or below, and it gets one knockback from this enemy; a collider whose components are not the first one's is untouched |
| Audio.BuildSoundMap | Assets/Scripts/Audio/AudioManager.cs:35-59 | every name in the sound list maps to the first sound of that name |
| Audio.SoundMapUnique | Assets/Scripts/Audio/AudioManager.cs:55-58 | the first-wins rule determines the whole map |
| Audio.StopMusic | Assets/Scripts/Audio/AudioManager.cs:160-166 | every music source is stopped and every sound-effect source is left as it was |
| Audio.AfterStopAll | Assets/Scripts/Audio/AudioManager.cs:157-167 | no track is current, no music plays, and sound effects are untouched |
| Audio.AfterPlayMusic | Assets/Scripts/Audio/AudioManager.cs:112-136 | the current track, an unknown name or a sound effect changes nothing; a known music track becomes current and the only music playing |
| Audio.SceneChangeIdempotent | Assets/Scripts/Audio/AudioManager.cs:82-136 | entering the same scene twice in a row is the same as entering it once |
| Audio.OtherScenesSilence | Assets/Scripts/Audio/AudioManager.cs:106-108 | every scene other than the main menu and the five maps stops all music |
| Audio.AudioManager.constructor | Assets/Scripts/Audio/AudioManager.cs:35-59 | `Awake` gives one silent source per sound, the first-wins sound map, and no current track |
| Audio.AudioManager.StopAllMusic | Assets/Scripts/Audio/AudioManager.cs:157-167 | the new state is the stop-all state of the old one |
| Audio.AudioManager.PlayMusic | Assets/Scripts/Audio/AudioManager.cs:112-136 | the new state is the play-music state of the old one, and no one-shot is played |
| Audio.AudioManager.PlaySFX | Assets/Scripts/Audio/AudioManager.cs:138-155 | a known sound effect is played once as a one-shot; music is never touched |
| Audio.AudioManager.OnSceneChanged | Assets/Scripts/Audio/AudioManager.cs:82-110 | the new state is the scene's track played, or all music stopped |
| GifPlayback.ReadFrame | Assets/Scripts/UI/Menu/GifFromUrl.cs:138-143 | a frame is shown exactly when playing with the index in range; playing with frames and an index out of range reads outside the list |
| GifPlayback.Advance | Assets/Scripts/UI/Menu/GifFromUrl.cs:158-171 | before the last frame, the next one; a looping animation stays within the frames; a non-looping one past its last frame stops with the index one past the end |
| GifPlayback.PlayFrom | Assets/Scripts/UI/Menu/GifFromUrl.cs:95-114 | `Play` starts playback exactly when loaded with frames, and keeps the frame |
| GifPlayback.ResumeFrom | Assets/Scripts/UI/Menu/GifFromUrl.cs:127-134 | `Resume` starts playback whenever loaded, whatever the frame, and keeps the frame |
| GifPlayback.LoopingCycles | Assets/Scripts/UI/Menu/GifFromUrl.cs:138-166 | a looping animation shows one frame per iteration, starting where it was, each frame followed by its successor and the last by the first, always in range |
| GifPlayback.OnceRunsToEnd | Assets/Scripts/UI/Menu/GifFromUrl.cs:138-171 | a non-looping animation shows each remaining frame once, in order, then stops with the index equal to the frame count |
| GifPlayback.ResumeAfterFinishReadsPastEnd | Assets/Scripts/UI/Menu/GifFromUrl.cs:127-143 | resuming a non-looping animation that has finished reads the frame list at index `Count` |
| GifPlayback.GifFromUrl.constructor | Assets/Scripts/UI/Menu/GifFromUrl.cs:27-30 | a new player is unloaded, stopped, at frame 0 |
| GifPlayback.GifFromUrl.LoadPreloaded | Assets/Scripts/UI/Menu/GifFromUrl.cs:69-80 | preloaded frames are taken; with any, the GIF is loaded and, with play-on-start, playback starts |
| GifPlayback.GifFromUrl.Play | Assets/Scripts/UI/Menu/GifFromUrl.cs:95-114 | the cursor moves as `Play` prescribes, and the frame loop is started exactly when playback starts |
| GifPlayback.GifFromUrl.Stop | Assets/Scripts/UI/Menu/GifFromUrl.cs:116-120 | playback stops and the frame returns to 0 |
| GifPlayback.GifFromUrl.Pause | Assets/Scripts/UI/Menu/GifFromUrl.cs:122-125 | playback stops and the frame is kept |
| GifPlayback.GifFromUrl.Resume | Assets/Scripts/UI/Menu/GifFromUrl.cs:127-134 | the cursor moves as `Resume` prescribes, and the frame loop is started exactly when playback starts |
| GifPlayback.GifFromUrl.StepFrame | Assets/Scripts/UI/Menu/GifFromUrl.cs:158-171 | the cursor advances as one iteration's end prescribes |
| GifPlayback.GifFromUrl.PlayAnimation | Assets/Scripts/UI/Menu/GifFromUrl.cs:136-173 | the frames shown and the cursor left are those of the frame loop's run |
| Transition.LoadTarget | Assets/Scripts/UI/Load_Sence/SceneTransition.cs:20-31 | with no scene name the latch is released and nothing else changes; with no game manager the handoff throws and nothing changes, so the latch stays set; otherwise the target spawn point is handed off and then exactly one load of the scene is requested |
| Transition.TriggerEffect | Assets/Scripts/UI/Load_Sence/SceneTransition.cs:11-31 | only the player, and only while not latched, triggers anything; a trigger with a scene and a game manager stays latched, hands off the spawn point and requests one load; with no game manager it stays latched and nothing else changes; a trigger without a scene changes nothing |
| Transition.LatchedIgnoresTriggers | Assets/Scripts/UI/Load_Sence/SceneTransition.cs:13-17 | once latched, every later collider is ignored |
| Transition.AtMostOneLoad | Assets/Scripts/UI/Load_Sence/SceneTransition.cs:11-18 | however many colliders enter, a trigger requests at most one load |
| Transition.SceneLoads.LoadScene | Assets/Scripts/UI/Load_Sence/SceneTransition.cs:30 | one load is recorded, with the spawn-point id held at the time of the request |
| Transition.SceneTransition.OnTriggerEnter2D | Assets/Scripts/UI/Load_Sence/SceneTransition.cs:11-18 | the latch, the handoff slot and the requested loads change as the trigger prescribes |
| Transition.SceneTransition.LoadTargetScene | Assets/Scripts/UI/Load_Sence/SceneTransition.cs:20-31 | the latch, the game manager's handoff slot (when `GameManager.Instance` is not null) and the requested loads change as the scene load prescribes |

Three members model `Assets/Scripts/Player Scripts/StatsManager.cs` and one models `Assets/Scripts/Player Scripts/PlayerMovement.cs`:

- SkillTree.StatsManager.UpdateMaxDame (`StatsManager.cs`, lines 36-39): damage rises by the amount, wrapping modulo 2^32 outside the 32-bit range; nothing else changes.
- SkillTree.StatsManager.UpdateMaxHealth (`StatsManager.cs`, lines 40-44): maximum health rises by the amount, wrapping likewise, and the health text shows `Hp: current/max`.
- SkillTree.StatsManager.UpdateMaxSpeed (`StatsManager.cs`, lines 46-50): speed rises by the amount, wrapping likewise; nothing else changes.
- Player.PlayerMovement.Knockback (`PlayerMovement.cs`, lines 69-75): one knockback from that source, with that force and stun time, is recorded.

## Left out

- File I/O, `argparse`, the `--dry-run` flag, the `.bak` backup and every message the repair tool prints are not modelled. `SceneFix.FixSceneLines` works on the lines already read and returns which exit the run takes.
- The regular expressions of the repair tool are not modelled: each line arrives already classified and split into tokens. A header is a line matching `--- !u!<class> &<id>` followed by a non-digit. A token is `fileID:` followed by a numeral and its letters. A binding line is `m_GameObject: {fileID: <id>}`. A bad token whose letters are directly followed by digits, such as `fileID: 5G7`, is matched by the source's pattern only up to its letters, so the fresh id written in its place fuses with the digits after it (`fileID: 20000000007`). The model keeps those digits as separate text after the new token, so its later passes read the fresh id alone where the source reads the fused number.
- The "quick path" of `replace_fileid_in_range` and `replace_fileid_globally` (`str(old_id) not in line`) is not modelled. The rewrite is applied to every line in range. This differs only when a token reads as the old id without containing its decimal text, as `-05` does for -5. The model then rewrites a line the source skips.
- The sections the group loop uses are those parsed before the duplicate-header pass, as in the source. The model does not claim that header ids are distinct after the group loop.
- Volume handling (`Start`, `SetMusicVolume`, `SetSFXVolume`, `ConvertToDecibel`) in `AudioManager.cs` is not modelled. It is floating-point mixer arithmetic.
- Audio sources are abstracted to one playing flag per sound. A one-shot play is recorded in a log. Clip, volume, pitch, looping and mixer-group set-up in `Awake` are not modelled.
- The Unity singleton life cycle of the audio manager is not modelled: `Instance`, `DontDestroyOnLoad`, the event subscription in `Awake` and `OnDestroy`.
- GifPlayback.GifFromUrl.PlayAnimation: it is modelled in whole iterations of the frame loop, with no other call between them. The frame delay, the texture shown and a `Pause`, `Stop` or `Resume` made during a frame's wait are not modelled.
- A missing GIF frame list is treated as an empty one. The non-preload path of `LoadGifInstant`, `Start` and `Awake` of `GifFromUrl.cs` only log or set the placeholder texture, and are not modelled.
- The skill slot's icon sprite and colour are not modelled.
- The event subscription wiring of `SkillManager.cs` is not modelled. The handler is called directly.
- Combat.EnemyCombat.Attack: the physics overlap query is a parameter, the list of colliders it found. A collider without a `PlayerHealth` or `PlayerMovement` component, which would throw, is not modelled.
- Player.PlayerMovement.Knockback: only the call is recorded. The velocity and stun coroutine are floating-point physics.
- `SceneManager.LoadScene` is recorded as a load request. The spawn-point lookup of `GameManager.cs` is not modelled.
- `Debug.Log` and `Debug.LogWarning` calls are not modelled.
