# Avatar customization: equip state machine and mesh-combine bookkeeping

A Dafny model of the character customizer's `AvatarCustomizeManager` and of the
clothing catalog `ClothingListSO`.

The manager binds a character model through its binder component. It then
equips clothing records one at a time:

- A full-body Outfit evicts Top and Bottom, and a Top or a Bottom evicts the Outfit.
- The previous occupant of the item's own category is destroyed.
- The body parts that evicted items hid are shown again.
- The new item is spawned: a skinned renderer bound to the base skeleton, or a hair prop under the head slot.
- The body parts the item names are hidden and logged per category.

The last record equipped in each category is kept (`equippedData`); equipping
a category again overwrites its record, and evicting a category leaves its
record in place. `FinalizeOutfit` merges the worn skinned renderers into one
combined renderer and destroys them. The next equip breaks the combined outfit
up again and respawns one renderer per recorded non-Hair item.

Modules:

- `Clothing`: categories and records.
- `Catalog`: the per-category lists and the random pick.
- `Rig`: the binder, the part lookup and the combined renderer. The combined renderer is a scene object, so it is a class.
- `BodyParts`: hidden lists and part activity.
- `MeshCombine`: what a combine pass collects.
- `Customize`: the manager class, and value-level step predicates describing what each of its operations does.
- `EquipLaws`: the laws of one equip, and a worked scenario.

How engine state is modelled:

- Instantiated objects get consecutive ids. `spawned` holds what each id was instantiated from.
- `alive` is the set of ids not destroyed.
- Body-part activity is a map from part id to bool.

The model follows the code, including these consequences of it:

- Two categories may hide the same part. Evicting one shows the part again, although the other category still lists it (`EquipLaws.WearShowsSharedPart`).
- Evicting a category does not erase its record. Breaking up a combined outfit therefore wears every recorded item again, including a Top that a later Outfit had evicted (`EquipLaws.StaleTopReturns`).
- `GetClothingByCategory` only knows Top and Bottom. So `RandomizeOutfit`'s first pick (Hair) is always null, and its first equip throws a null reference. The randomizer never equips anything.
- The combined bone array concatenates the bone array of every renderer with a mesh; renderers without one are skipped before their bones are read. It is not the shared skeleton used once (`MeshCombine.BonesRepeatSkeleton`).
- The `ClothingCategory` enum in `ClothingListSO.cs` has no `Outfit`, although the manager uses it. The model includes `Outfit`.

## Model

| member | source | states |
|---|---|---|
| Clothing.ConflictGroup | Assets/Scripts/AvatarCustomizeManager.cs:94-107 | An item never evicts its own category, Hair or Shoes through the conflict rule; Outfit is evicted exactly by a Top or a Bottom |
| Clothing.ConflictIsSymmetric | Assets/Scripts/AvatarCustomizeManager.cs:94-107 | The conflict rule is symmetric |
| Catalog.GetAllCategories | Assets/Scripts/ClothingListSO.cs:15-22 | Exactly `[Top, Bottom]` in that order, and these are exactly the categories that have a list |
| Catalog.GetClothingByCategory | Assets/Scripts/ClothingListSO.cs:24-32 | Top yields `topClothes`, Bottom yields `bottomClothes`, and every other category (Hair and Shoes included) yields no list |
| Catalog.GetRandomClothing | Assets/Scripts/ClothingListSO.cs:34-41 | No record exactly when the list is missing or empty; otherwise the record at the drawn index, a member of the list |
| Catalog.EveryRecordCanBePicked | Assets/Scripts/ClothingListSO.cs:34-41 | A record is the outcome of some in-range pick exactly when it is in the category's list |
| Catalog.UnlistedCategoriesNeverPick | Assets/Scripts/ClothingListSO.cs:24-41 | Hair, Shoes and Outfit never yield a record, whatever the catalog holds |
| Rig.PartLookup | Assets/Scripts/AvatarCustomizeManager.cs:70-73 | With unique names, the lookup's keys are exactly the entries' names |
| Rig.PartLookupFinds | Assets/Scripts/AvatarCustomizeManager.cs:70-73 | Looking up an entry's name yields that entry's renderer |
| Rig.CombinedRenderer.constructor | Assets/Scripts/ModelReferenceBinder.cs:15 | A placeholder renderer with the given activity and nothing drawn |
| Rig.CombinedRenderer.Show | Assets/Scripts/AvatarCustomizeManager.cs:279-289 | Mesh, bones and materials are set, it draws when off screen, and it is active |
| Rig.CombinedRenderer.Clear | Assets/Scripts/AvatarCustomizeManager.cs:304-305 | The mesh is cleared and the renderer is inactive; nothing else changes |
| BodyParts.LookupParts | Assets/Scripts/AvatarCustomizeManager.cs:133-141 | The hidden list is no longer than the names and holds only renderers the lookup knows |
| BodyParts.LookupPartsMembers | Assets/Scripts/AvatarCustomizeManager.cs:134-141 | A part is in the hidden list exactly when some listed name maps to it; unknown names contribute nothing |
| BodyParts.LookupPartsAppend | Assets/Scripts/AvatarCustomizeManager.cs:134-141 | The hidden list keeps the names' order: it distributes over concatenation |
| BodyParts.LookupPartsAllKnown | Assets/Scripts/AvatarCustomizeManager.cs:134-141 | When every name is known, the list is the lookup of each name in turn |
| BodyParts.SetAllEffect | Assets/Scripts/AvatarCustomizeManager.cs:229-231 | Setting a group of parts sets exactly that group and keeps every other part |
| BodyParts.HideAfterRestore | Assets/Scripts/AvatarCustomizeManager.cs:119-143 | After restoring and then hiding, listed parts are inactive, other restored parts active, the rest unchanged |
| BodyParts.RestoreShowsSharedPart | Assets/Scripts/AvatarCustomizeManager.cs:225-235 | Restoring one category shows a part another category still lists as hidden |
| MeshCombine.SectionsOf | Assets/Scripts/AvatarCustomizeManager.cs:259-267 | One combine instance per sub-mesh index, in order |
| MeshCombine.CollectSections | Assets/Scripts/AvatarCustomizeManager.cs:259-270 | The sub-mesh loop yields a material per sub-mesh exactly when the renderer has enough materials, and then the mesh's sections and its first materials |
| MeshCombine.Accumulate | Assets/Scripts/AvatarCustomizeManager.cs:253-277 | The collecting loops throw exactly when some meshed renderer lacks materials; otherwise they produce the instances, materials, bind poses and bones of the specification functions |
| MeshCombine.MaterialsParallelInstances | Assets/Scripts/AvatarCustomizeManager.cs:259-270 | One material per combine instance: both counts equal the total number of sub-meshes |
| MeshCombine.InstanceMaterialPairing | Assets/Scripts/AvatarCustomizeManager.cs:259-270 | Sub-mesh s of the k-th renderer sits at the same position of both lists, after the sub-meshes of the renderers before it: there the instance is that mesh's sub-mesh s and the material is the k-th renderer's own material for it, even when other renderers share the mesh |
| MeshCombine.InstanceOrigin | Assets/Scripts/AvatarCustomizeManager.cs:253-270 | Every combine instance lies in the block of positions of some renderer with a mesh, so the pairing covers every instance |
| MeshCombine.BonesRepeatSkeleton | Assets/Scripts/AvatarCustomizeManager.cs:275-276 | The bone array is every meshed renderer's bones appended: one skeleton repeated per meshed renderer |
| MeshCombine.BonesMatchBindposes | Assets/Scripts/AvatarCustomizeManager.cs:272-276 | When each mesh has one bind pose per bone of its renderer, the bone and bind-pose lists have equal lengths |
| Customize.RespawnCategories | Assets/Scripts/AvatarCustomizeManager.cs:313-324 | A category is respawned exactly when it is recorded and is not Hair |
| Customize.Vacated | Assets/Scripts/AvatarCustomizeManager.cs:94-117 | An item vacates its own category; a Hair item vacates only Hair |
| Customize.RespawnOne | Assets/Scripts/AvatarCustomizeManager.cs:313-324 | Spawning one more recorded item extends a partial respawn by its category |
| Customize.VacateAccounting | Assets/Scripts/AvatarCustomizeManager.cs:94-120 | Clearing the conflict group and then the own category clears exactly the vacated categories: objects, hidden lists, and the parts they hid |
| Customize.WearComposes | Assets/Scripts/AvatarCustomizeManager.cs:92-143 | Recording, vacating and occupying compose to one wear step |
| Customize.EquipRenderers | Assets/Scripts/AvatarCustomizeManager.cs:89-144 | After a break-up and a wear, the renderers are the respawned or kept ones minus the vacated categories, plus the item's |
| Customize.EquipComposes | Assets/Scripts/AvatarCustomizeManager.cs:89-144 | A break-up step followed by a wear step is an equip step |
| Customize.AvatarCustomizeManager.constructor | Assets/Scripts/AvatarCustomizeManager.cs:17-29 | Nothing bound, every dictionary empty, no object spawned |
| Customize.AvatarCustomizeManager.Instantiate | Assets/Scripts/AvatarCustomizeManager.cs:149 | A new object gets the next id and is alive |
| Customize.AvatarCustomizeManager.Destroy | Assets/Scripts/AvatarCustomizeManager.cs:208 | The object is no longer alive |
| Customize.AvatarCustomizeManager.InitializeModel | Assets/Scripts/AvatarCustomizeManager.cs:45-58 | The body is always set. Without a binder nothing else changes and the binder is reported missing. Otherwise the rig is bound and all four dictionaries are empty |
| Customize.AvatarCustomizeManager.AssignBinder | Assets/Scripts/AvatarCustomizeManager.cs:63-74 | Copies the binder's references and builds the name lookup |
| Customize.AvatarCustomizeManager.ResetDictionaries | Assets/Scripts/AvatarCustomizeManager.cs:76-82 | All four dictionaries are empty |
| Customize.AvatarCustomizeManager.EquipClothing | Assets/Scripts/AvatarCustomizeManager.cs:89-144 | The combined outfit is broken up first (a break-up step), leaving every held object alive, of its kind and held once; the combined mesh is cleared when it was shown and kept otherwise. A null record then throws with nothing else changed. Otherwise one wear step follows, and the invariant holds |
| Customize.AvatarCustomizeManager.RandomizeOutfit | Assets/Scripts/AvatarCustomizeManager.cs:162-180 | Always throws a null reference after breaking up the combined outfit, whose mesh is cleared when it was shown; nothing is equipped |
| Customize.AvatarCustomizeManager.Wear | Assets/Scripts/AvatarCustomizeManager.cs:92-143 | The record is kept, the vacated categories are cleared and their parts shown, the item is spawned into its category, and its parts are hidden and logged |
| Customize.AvatarCustomizeManager.Occupy | Assets/Scripts/AvatarCustomizeManager.cs:122-143 | The item is spawned as the next object and its looked-up parts are hidden and logged |
| Customize.AvatarCustomizeManager.Vacate | Assets/Scripts/AvatarCustomizeManager.cs:94-120 | The vacated categories lose their objects (destroyed) and hidden lists, and their parts are shown again |
| Customize.AvatarCustomizeManager.RemoveConflicts | Assets/Scripts/AvatarCustomizeManager.cs:94-107 | The conflict group's renderers are removed and destroyed, and their hidden parts are restored |
| Customize.AvatarCustomizeManager.RemoveOccupant | Assets/Scripts/AvatarCustomizeManager.cs:109-120 | The own category's renderer or hair prop is removed and destroyed, and its hidden parts are restored |
| Customize.AvatarCustomizeManager.HideBodyParts | Assets/Scripts/AvatarCustomizeManager.cs:133-141 | Returns the looked-up parts of the names, in order, and makes exactly those inactive |
| Customize.AvatarCustomizeManager.SpawnClothing | Assets/Scripts/AvatarCustomizeManager.cs:122-130 | A Hair item becomes the hair prop; any other item becomes its category's renderer |
| Customize.AvatarCustomizeManager.SpawnSkinnedClothing | Assets/Scripts/AvatarCustomizeManager.cs:147-154 | A copy of the prefab bound to the base skeleton and root bone becomes the category's renderer |
| Customize.AvatarCustomizeManager.SpawnHairObject | Assets/Scripts/AvatarCustomizeManager.cs:156-160 | A hair prop under the head slot becomes the Hair entry |
| Customize.AvatarCustomizeManager.RemoveCategoryRenderer | Assets/Scripts/AvatarCustomizeManager.cs:203-212 | The category's renderer, if any, is destroyed and its key removed; otherwise nothing changes |
| Customize.AvatarCustomizeManager.RemoveHairObject | Assets/Scripts/AvatarCustomizeManager.cs:214-223 | The hair prop, if any, is destroyed and the hair map is empty |
| Customize.AvatarCustomizeManager.RestoreHiddenParts | Assets/Scripts/AvatarCustomizeManager.cs:225-235 | Every part in the category's list is active and its key is removed. Without an entry it is a no-op. Other lists are unchanged |
| Customize.AvatarCustomizeManager.BreakCombinedOutfit | Assets/Scripts/AvatarCustomizeManager.cs:298-309 | Acts only on a shown combined renderer: clears its mesh, hides it, and respawns every recorded non-Hair item. Otherwise nothing changes |
| Customize.AvatarCustomizeManager.RebuildEquippedClothings | Assets/Scripts/AvatarCustomizeManager.cs:311-325 | The renderers' keys are exactly the recorded non-Hair categories. Each renderer is a fresh copy of its record, and nothing is destroyed |
| Customize.AvatarCustomizeManager.DestroyRenderers | Assets/Scripts/AvatarCustomizeManager.cs:292-293 | Every worn renderer is destroyed |
| Customize.AvatarCustomizeManager.FinalizeOutfit | Assets/Scripts/AvatarCustomizeManager.cs:243-296 | A no-op without renderers or without a combined renderer. It throws exactly when materials are missing, with nothing changed. Otherwise the combined renderer shows the collected mesh, bones and materials, every renderer is destroyed, and the renderers map is empty |
| EquipLaws.HairAndSkinnedDisjoint | Assets/Scripts/AvatarCustomizeManager.cs:109-130 | No category is both a renderer and a hair prop; the hair map holds only Hair |
| EquipLaws.WearClearsConflicts | Assets/Scripts/AvatarCustomizeManager.cs:94-107 | A conflicting category ends with no renderer, prop or list, and its renderer is destroyed. Its parts are active unless the new item hides them |
| EquipLaws.WearKeepsOthers | Assets/Scripts/AvatarCustomizeManager.cs:94-117 | A category the item does not evict keeps its renderer (alive), its hidden list and its record |
| EquipLaws.WearSpawnsFresh | Assets/Scripts/AvatarCustomizeManager.cs:109-130 | The item is a fresh object in its own map and replaces the destroyed previous occupant |
| EquipLaws.WearHidesList | Assets/Scripts/AvatarCustomizeManager.cs:132-143 | The logged list is exactly the looked-up parts, in order, and each is inactive afterwards |
| EquipLaws.WearShowsSharedPart | Assets/Scripts/AvatarCustomizeManager.cs:99-106 | A part shared with a kept category is shown again when its other hider is evicted |
| EquipLaws.BreakKeepsObjectsValid | Assets/Scripts/AvatarCustomizeManager.cs:298-325 | A break-up keeps the objects consistent: the respawned renderers are distinct, alive and skinned, and the hair prop is untouched |
| EquipLaws.BreakWearsRecords | Assets/Scripts/AvatarCustomizeManager.cs:311-325 | After a break-up, the renderers are exactly the recorded non-Hair categories, each a newly spawned object |
| EquipLaws.WearKeepsTracks | Assets/Scripts/AvatarCustomizeManager.cs:92-153 | After a wear, every worn renderer is still a skinned copy of its category's recorded prefab |
| EquipLaws.BreakKeepsTracks | Assets/Scripts/AvatarCustomizeManager.cs:298-325 | After a break-up, every worn renderer is a skinned copy of its category's recorded prefab |
| EquipLaws.RoundTrip | Assets/Scripts/AvatarCustomizeManager.cs:298-325 | Every category worn before combining is worn again after the break-up, by a fresh copy of the same prefab on the rig; with no stale record, exactly the same categories are worn |
| EquipLaws.StaleTopReturns | Assets/Scripts/AvatarCustomizeManager.cs:92 | An Outfit evicts a Top but keeps its record, so a later break-up wears Top and Outfit together |
| EquipLaws.ScenarioLookups | Assets/Scripts/AvatarCustomizeManager.cs:134-141 | The hidden lists of the scenario's items |
| EquipLaws.ScenarioHair | Assets/Scripts/AvatarCustomizeManager.cs:123-125 | Step one: the Hair item is the only prop and hides nothing |
| EquipLaws.ScenarioOutfit | Assets/Scripts/AvatarCustomizeManager.cs:129-143 | Step two: the Outfit is worn and hides both parts |
| EquipLaws.ScenarioTop | Assets/Scripts/AvatarCustomizeManager.cs:102-107 | Step three: the Top evicts the Outfit and leaves Hair and Top worn, with "Legs" shown and "Torso" hidden |
| EquipLaws.ShowLegsHideTorso | Assets/Scripts/AvatarCustomizeManager.cs:119-141 | Evicting the Outfit shows both of its parts again, then the Top hides "Torso" |
| EquipLaws.HairOutfitTopScenario | Assets/Scripts/AvatarCustomizeManager.cs:89-144 | Hair, then Outfit, then Top: Hair and Top are worn, "Legs" is active, "Torso" is hidden, and the Outfit's record is kept |

## Left out

- Geometry: the transform product, `CombineMeshes`, mesh bounds and the combined mesh's identity are left out. A combine instance is a (mesh, sub-mesh index) pair, and the combined mesh is its instances and bind poses.
- Unity's engine calls are abstractions:
  - `Instantiate` allocates the next id.
  - `Destroy` removes the id from `alive`.
  - `SetActive` writes the part-activity map.
  - Parenting to the body or the head slot is recorded in the spawned instance.
- `activeInHierarchy` is the combined renderer's own active flag. Parent objects are not modelled.
- The singleton `Awake` is left out. So are `RandomizeCurrentModel` and `RandomizeForAvatar`: they only select a list by gender and chain `InitializeModel`, `RandomizeOutfit` and `FinalizeOutfit`.
- `Random.value` and `Random.Range` are parameters: the coin flip `useOutfit` and the pick index. The index must be in range for a non-empty list.
- Customize.AvatarCustomizeManager.RandomizeOutfit: the Shoes, Outfit, Top and Bottom picks after the first are not modelled, because the first equip always throws. For the same reason `useOutfit` is never read.
- Customize.AvatarCustomizeManager.EquipClothing: requires a bound rig and a record that carries the prefab its category spawns. Before binding, a skinned item, or a Hair item that names parts to hide, throws a null reference, while a Hair item that names none completes; instantiating a null prefab throws. None of these is modelled.
- Customize.AvatarCustomizeManager.InitializeModel: requires unique body-part names. Building the lookup with duplicate names throws; that is not modelled.
- Customize.AvatarCustomizeManager.FinalizeOutfit: the dictionary's enumeration order is a parameter. Only the collected bookkeeping is modelled.
- Customize.AvatarCustomizeManager.RebuildEquippedClothings: the skip of a null record cannot arise. A null record throws before it is recorded, so the model's history holds no nulls.
- Null references are not modelled: the binder's references, the body-part entries' renderers and the catalog lists' entries are never null, and no object is destroyed from outside the manager. In the source, a null base renderer makes every skinned spawn throw after its object is instantiated and after the record and evictions of that equip (AvatarCustomizeManager.cs:92-120, :149-150). A body-part entry with a null renderer makes the hide loop throw, leaving the earlier parts hidden and no list logged (:138, :143). A null entry in a catalog list makes `GetRandomClothing` return null for a non-empty list (ClothingListSO.cs:40). The checks for objects destroyed elsewhere (:207, :218, :230) therefore always pass in the model.
- Only one manager is modelled. Aliasing of the combined renderer between managers or binders is not captured. Nor is a placeholder that is already shown while separate renderers exist: every operation keeps the invariant that a shown combined renderer means no separate renderers.
- Logging (`Debug.LogError`) is the `MissingBinder` outcome.
